/** String kernels: trimming, case folding, substring search and single-pass removal,
    as the service uses them from Go's `strings` package. */
module Text {

  /** The code points Go's `unicode.IsSpace` accepts. */
  predicate IsSpace(c: char) {
    || '\t' <= c <= '\r' || c == ' ' || c == '\U{85}' || c == '\U{A0}' || c == '\U{1680}'
    || '\U{2000}' <= c <= '\U{200A}' || c == '\U{2028}' || c == '\U{2029}' || c == '\U{202F}'
    || c == '\U{205F}' || c == '\U{3000}'
  }

  function TrimLeft(s: string): (r: string)
    ensures |r| <= |s| && r == s[|s| - |r|..]
    ensures r != "" ==> !IsSpace(r[0])
  {
    if s != "" && IsSpace(s[0]) then TrimLeft(s[1..]) else s
  }

  function TrimRight(s: string): (r: string)
    ensures r <= s
    ensures r != "" ==> !IsSpace(r[|r| - 1])
  {
    if s != "" && IsSpace(s[|s| - 1]) then TrimRight(s[..|s| - 1]) else s
  }

  function TrimSpace(s: string): (r: string)
    ensures Trimmed(r)
    ensures Trimmed(s) ==> r == s
  {
    TrimRight(TrimLeft(s))
  }

  /** No white space at either end. */
  predicate Trimmed(s: string) {
    s == "" || (!IsSpace(s[0]) && !IsSpace(s[|s| - 1]))
  }

  lemma {:induction false} TrimLeftDrops(s: string)
    ensures forall k | 0 <= k < |s| - |TrimLeft(s)| :: IsSpace(s[k])
  {
    if s != "" && IsSpace(s[0]) { TrimLeftDrops(s[1..]); }
  }

  lemma {:induction false} TrimRightDrops(s: string)
    ensures forall k | |TrimRight(s)| <= k < |s| :: IsSpace(s[k])
  {
    if s != "" && IsSpace(s[|s| - 1]) { TrimRightDrops(s[..|s| - 1]); }
  }

  /** Trimming cuts white space off both ends, and nothing else. */
  lemma {:induction false} TrimSpaceCuts(s: string) returns (i: nat, j: nat)
    ensures i <= j <= |s| && TrimSpace(s) == s[i..j] && Trimmed(s[i..j])
    ensures forall k | 0 <= k < i || j <= k < |s| :: IsSpace(s[k])
  {
    hide IsSpace, TrimLeft, TrimRight;
    var left := TrimLeft(s);
    TrimLeftDrops(s);
    TrimRightDrops(left);
    i := |s| - |left|;
    j := i + |TrimSpace(s)|;
    assert left == s[i..];
    forall k | j <= k < |s| ensures IsSpace(s[k]) { assert s[k] == left[k - i]; }
  }

  /** Simple case folding, on ASCII letters. */
  function FoldChar(c: char): char {
    if 'A' <= c <= 'Z' then c - 'A' + 'a' else c
  }

  function Fold(s: string): (r: string)
    ensures |r| == |s| && forall i :: 0 <= i < |s| ==> r[i] == FoldChar(s[i])
  {
    seq(|s|, i requires 0 <= i < |s| => FoldChar(s[i]))
  }

  predicate EqualFold(s: string, t: string) {
    Fold(s) == Fold(t)
  }

  /** The two cases of one ASCII letter. */
  predicate CasesOf(upper: char, lower: char) {
    'A' <= upper <= 'Z' && 'a' <= lower <= 'z' && upper as int - 'A' as int == lower as int - 'a' as int
  }

  /** Equal under folding means equal up to the case of ASCII letters, place by place. */
  lemma EqualFoldIff(s: string, t: string)
    ensures EqualFold(s, t) <==>
            |s| == |t| && forall i | 0 <= i < |s| :: s[i] == t[i] || CasesOf(s[i], t[i]) || CasesOf(t[i], s[i])
  {
    forall i | 0 <= i < |s| && i < |t|
      ensures Fold(s)[i] == Fold(t)[i] <==> s[i] == t[i] || CasesOf(s[i], t[i]) || CasesOf(t[i], s[i])
    {
    }
  }

  /** `sub` starts at index `i` of `s`. */
  predicate OccursAt(sub: string, s: string, i: int) {
    0 <= i <= |s| - |sub| && s[i..i + |sub|] == sub
  }

  predicate Contains(s: string, sub: string) {
    exists i | 0 <= i <= |s| - |sub| :: OccursAt(sub, s, i)
  }

  /** Removes the non-overlapping occurrences of `sub`, found in one scan from the left. */
  function RemoveAll(s: string, sub: string): string
    requires sub != ""
  {
    if |s| < |sub| then s
    else if s[..|sub|] == sub then RemoveAll(s[|sub|..], sub)
    else [s[0]] + RemoveAll(s[1..], sub)
  }

  lemma SliceOfSlice<T>(s: seq<T>, lo: nat, hi: nat, i: nat, j: nat)
    requires lo <= hi <= |s| && i <= j <= hi - lo
    ensures s[lo..hi][i..j] == s[lo + i..lo + j]
  {
    var t, v := s[lo..hi], s[lo + i..lo + j];
    forall k | 0 <= k < j - i ensures t[i..j][k] == v[k] {
      assert t[i..j][k] == t[i + k] == s[lo + (i + k)];
      assert v[k] == s[(lo + i) + k];
    }
  }

  lemma SliceKeepsAbsence(s: string, lo: nat, hi: nat, sub: string)
    requires lo <= hi <= |s| && !Contains(s, sub)
    ensures !Contains(s[lo..hi], sub)
  {
    forall i | 0 <= i <= hi - lo - |sub| ensures !OccursAt(sub, s[lo..hi], i) {
      SliceOfSlice(s, lo, hi, i, i + |sub|);
      assert !OccursAt(sub, s, lo + i);
    }
  }

  lemma {:induction false} RemoveAllAbsent(s: string, sub: string)
    requires sub != "" && !Contains(s, sub)
    ensures RemoveAll(s, sub) == s
  {
    if |s| >= |sub| {
      assert !OccursAt(sub, s, 0);
      SliceKeepsAbsence(s, 1, |s|, sub);
      assert s[1..] == s[1..|s|];
      RemoveAllAbsent(s[1..], sub);
    }
  }

  /** A word whose first character does not recur in it cannot begin before the inserted copy. */
  lemma NotAtStart(a: string, sub: string, b: string)
    requires sub != "" && forall k :: 1 <= k < |sub| ==> sub[k] != sub[0]
    requires a != "" && !Contains(a, sub)
    ensures (a + sub + b)[..|sub|] != sub
  {
    var s := a + sub + b;
    if |a| >= |sub| {
      assert !OccursAt(sub, a, 0);
      assert s[..|sub|] == a[0..|sub|];
    } else {
      assert s[|a|] == sub[0] != sub[|a|];
    }
  }

  /** So the scan removes exactly the inserted copy and goes on behind it. */
  lemma {:induction false} RemoveAllInserted(a: string, sub: string, b: string)
    requires sub != "" && forall k :: 1 <= k < |sub| ==> sub[k] != sub[0]
    requires !Contains(a, sub)
    ensures RemoveAll(a + sub + b, sub) == a + RemoveAll(b, sub)
  {
    hide Contains, OccursAt;
    var s := a + sub + b;
    if a == "" {
      assert s[..|sub|] == sub && s[|sub|..] == b;
    } else {
      NotAtStart(a, sub, b);
      SliceKeepsAbsence(a, 1, |a|, sub);
      assert a[1..] == a[1..|a|] && s[1..] == a[1..] + sub + b;
      RemoveAllInserted(a[1..], sub, b);
      assert RemoveAll(s, sub) == [s[0]] + RemoveAll(s[1..], sub);
    }
  }

  /** The parts, with `sub` between one and the next. */
  function Joined(parts: seq<string>, sub: string): string
    requires parts != []
  {
    if |parts| == 1 then parts[0] else parts[0] + sub + Joined(parts[1..], sub)
  }

  function Concat(parts: seq<string>): string {
    if parts == [] then "" else parts[0] + Concat(parts[1..])
  }

  predicate Free(parts: seq<string>, sub: string) { forall p | p in parts :: !Contains(p, sub) }

  lemma ShortIsFree(s: string, sub: string)
    requires |s| < |sub|
    ensures !Contains(s, sub)
  {
  }

  lemma PrependFree(c: char, p: string, sub: string)
    requires !Contains(p, sub) && !(sub <= [c] + p)
    ensures !Contains([c] + p, sub)
  {
    var s := [c] + p;
    forall i | 0 <= i <= |s| - |sub| ensures !OccursAt(sub, s, i) {
      if i == 0 {
        assert s[..|sub|] == s[0..|sub|];
      } else {
        assert !OccursAt(sub, p, i - 1);
        assert s[1..] == p;
        SliceOfSlice(s, 1, |s|, i - 1, i - 1 + |sub|);
        assert s[1..|s|] == p;
      }
    }
  }

  /** Every string is some parts without `sub`, joined by it. */
  lemma {:induction false} SplitAround(s: string, sub: string) returns (parts: seq<string>)
    requires sub != ""
    ensures parts != [] && Free(parts, sub) && Joined(parts, sub) == s
  {
    hide Contains;
    if |s| < |sub| {
      ShortIsFree(s, sub);
      parts := [s];
    } else if s[..|sub|] == sub {
      var rest := SplitAround(s[|sub|..], sub);
      ShortIsFree("", sub);
      parts := [""] + rest;
      assert parts[1..] == rest;
    } else {
      var rest := SplitAround(s[1..], sub);
      var head := [s[0]] + rest[0];
      parts := [head] + rest[1..];
      assert s == [s[0]] + s[1..] && parts[1..] == rest[1..];
      assert rest[0] <= s[1..] && head <= s;
      assert rest[0] in rest;
      PrependFree(s[0], rest[0], sub);
    }
  }

  /** And its removal leaves the parts, whichever way the string was split. */
  lemma {:induction false} RemoveAllJoined(parts: seq<string>, sub: string)
    requires sub != "" && forall k :: 1 <= k < |sub| ==> sub[k] != sub[0]
    requires parts != [] && Free(parts, sub)
    ensures RemoveAll(Joined(parts, sub), sub) == Concat(parts)
  {
    hide Contains;
    if |parts| == 1 {
      RemoveAllAbsent(parts[0], sub);
    } else {
      RemoveAllInserted(parts[0], sub, Joined(parts[1..], sub));
      RemoveAllJoined(parts[1..], sub);
    }
  }
}
