/** Decimal printing and parsing of user ids: `strconv.FormatInt(id, 10)` and
    `strconv.ParseInt(s, 10, 64)`, and the Redis keys built from them. */
module Decimal {
  import opened Model
  import opened Text

  const MIN_INT64 := -0x8000_0000_0000_0000
  const MAX_INT64 := 0x7FFF_FFFF_FFFF_FFFF

  function Digits(n: nat): (s: string)
    ensures s != "" && forall c | c in s :: '0' <= c <= '9'
  {
    var last := [('0' as int + n % 10) as char];
    if n < 10 then last else Digits(n / 10) + last
  }

  function FormatInt(n: int): string {
    if n < 0 then "-" + Digits(-n) else Digits(n)
  }

  function DigitsValue(s: string): Option<nat> {
    if s == "" then Some(0) else
      var c := s[|s| - 1];
      var high := DigitsValue(s[..|s| - 1]);
      if high.Some? && '0' <= c <= '9' then Some(high.value * 10 + (c as int - '0' as int)) else None
  }

  function ParseInt64(s: string): Option<int> {
    var signed := s != "" && (s[0] == '+' || s[0] == '-');
    var digits := if signed then s[1..] else s;
    var magnitude := DigitsValue(digits);
    if digits == "" || magnitude.None? then None
    else
      var m: int := magnitude.value;
      var n := if signed && s[0] == '-' then -m else m;
      if MIN_INT64 <= n <= MAX_INT64 then Some(n) else None
  }

  lemma {:induction false} DigitsRoundTrip(n: nat)
    ensures DigitsValue(Digits(n)) == Some(n)
  {
    var s := Digits(n);
    if n >= 10 {
      DigitsRoundTrip(n / 10);
      assert s[..|s| - 1] == Digits(n / 10);
    } else {
      assert s[..|s| - 1] == "";
    }
  }

  /** Printing and parsing are inverse on exactly the 64-bit integers. */
  lemma FormatParse(n: int)
    ensures ParseInt64(FormatInt(n)) == if MIN_INT64 <= n <= MAX_INT64 then Some(n) else None
  {
    hide Digits, DigitsValue;
    if n < 0 {
      DigitsRoundTrip(-n);
      assert FormatInt(n)[1..] == Digits(-n);
    } else {
      DigitsRoundTrip(n);
      assert Digits(n)[0] in Digits(n);
    }
  }

  predicate Zeros(s: string) { forall c | c in s :: c == '0' }

  /** What has a value is its decimal digits, after zeros. */
  lemma {:induction false} ValueIsDigits(s: string) returns (z: nat)
    requires s != "" && DigitsValue(s).Some?
    ensures z < |s| && Zeros(s[..z]) && s[z..] == Digits(DigitsValue(s).value)
  {
    var t := s[..|s| - 1];
    if t == "" {
      z := 0;
    } else {
      z := ValueIsDigits(t);
      if DigitsValue(t).value == 0 {
        assert t[z..] == "0" && t == t[..z] + t[z..];
        z := |t|;
        assert s[..z] == t;
      } else {
        assert s[..z] == t[..z] && s[z..] == t[z..] + [s[|s| - 1]];
      }
    }
  }

  /** Only an optional sign, zeros and the decimal digits of the value parse. */
  lemma ParsedIsDecimal(s: string) returns (sign: string, z: nat)
    requires ParseInt64(s).Some?
    ensures sign in ["", "+", "-"] && sign <= s && z <= |s| - |sign|
    ensures var n, digits := ParseInt64(s).value, s[|sign|..];
            && Zeros(digits[..z]) && MIN_INT64 <= n <= MAX_INT64
            && (if sign == "-" then n <= 0 && digits[z..] == Digits(-n) else n >= 0 && digits[z..] == Digits(n))
  {
    sign := if s[0] == '+' || s[0] == '-' then s[..1] else "";
    z := ValueIsDigits(s[|sign|..]);
    assert sign == "" || sign == "+" || sign == "-";
  }

  lemma FormatInjective(m: int, n: int)
    requires FormatInt(m) == FormatInt(n)
    ensures m == n
  {
    var s := FormatInt(m);
    if m >= 0 { assert Digits(m)[0] in Digits(m); DigitsRoundTrip(m); }
    if n >= 0 { assert Digits(n)[0] in Digits(n); DigitsRoundTrip(n); }
    if m < 0 { assert s[1..] == Digits(-m); DigitsRoundTrip(-m); }
    if n < 0 { assert s[1..] == Digits(-n); DigitsRoundTrip(-n); }
  }

  lemma FormatIsTrimmed(n: int)
    ensures FormatInt(n) != "" && Trimmed(FormatInt(n))
  {
    var d := if n < 0 then Digits(-n) else Digits(n);
    assert d[0] in d && d[|d| - 1] in d;
  }

  const PROFILE_PREFIX := "user_profile:id:"
  const MAPPING_PREFIX := "user_auth_mapping:clerk:"

  function ProfileKey(userId: int): string { PROFILE_PREFIX + FormatInt(userId) }

  function MappingKey(clerkUserId: string): string { MAPPING_PREFIX + clerkUserId }

  /** The two caches share one Redis key space without ever sharing a key. */
  lemma KeysDistinct(userId: int, otherId: int, clerk: string, otherClerk: string)
    ensures ProfileKey(userId) == ProfileKey(otherId) <==> userId == otherId
    ensures MappingKey(clerk) == MappingKey(otherClerk) <==> clerk == otherClerk
    ensures ProfileKey(userId) != MappingKey(clerk)
  {
    hide FormatInt;
    assert ProfileKey(userId)[|PROFILE_PREFIX|..] == FormatInt(userId);
    assert ProfileKey(otherId)[|PROFILE_PREFIX|..] == FormatInt(otherId);
    assert MappingKey(clerk)[|MAPPING_PREFIX|..] == clerk;
    assert MappingKey(otherClerk)[|MAPPING_PREFIX|..] == otherClerk;
    assert ProfileKey(userId)[5] == 'p' && MappingKey(clerk)[5] == 'a';
    if ProfileKey(userId) == ProfileKey(otherId) {
      FormatInjective(userId, otherId);
    }
  }
}
