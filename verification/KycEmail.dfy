/** Email comparison of the Singpass callback (server/service/kyc_service.go). */
module KycEmail {
  import opened Text

  const CLERK_TEST_TAG := "+clerk_test"

  predicate EmailsMatchForKyc(pendingEmail: string, singpassEmail: string) {
    var pending := TrimSpace(pendingEmail);
    var singpass := TrimSpace(singpassEmail);
    || EqualFold(pending, singpass)
    || EqualFold(RemoveAll(pending, CLERK_TEST_TAG), singpass)
  }

  lemma TagHasNoOverlap()
    ensures forall k :: 1 <= k < |CLERK_TEST_TAG| ==> CLERK_TEST_TAG[k] != CLERK_TEST_TAG[0]
  {
  }

  /** Trimming cannot create an occurrence. */
  lemma TrimKeepsAbsence(s: string, sub: string)
    requires !Contains(s, sub)
    ensures !Contains(TrimSpace(s), sub)
  {
    var r := TrimSpace(s);
    var d := |s| - |TrimLeft(s)|;
    assert r == s[d..d + |r|];
    SliceKeepsAbsence(s, d, d + |r|, sub);
  }

  /** Every pending address is tag-free parts joined by the tag; it matches exactly itself and
      the parts put together, up to case and surrounding white space. */
  lemma TaggedEmailMatches(pending: string, parts: seq<string>, singpass: string)
    requires parts != [] && Free(parts, CLERK_TEST_TAG) && Joined(parts, CLERK_TEST_TAG) == TrimSpace(pending)
    ensures EmailsMatchForKyc(pending, singpass)
      <==> EqualFold(TrimSpace(pending), TrimSpace(singpass)) || EqualFold(Concat(parts), TrimSpace(singpass))
    ensures Trimmed(Concat(parts)) ==> EmailsMatchForKyc(pending, Concat(parts))
  {
    TagHasNoOverlap();
    RemoveAllJoined(parts, CLERK_TEST_TAG);
  }

  lemma PartsExist(pending: string) returns (parts: seq<string>)
    ensures parts != [] && Free(parts, CLERK_TEST_TAG) && Joined(parts, CLERK_TEST_TAG) == TrimSpace(pending)
  {
    parts := SplitAround(TrimSpace(pending), CLERK_TEST_TAG);
  }

  /** On tag-free pending addresses the comparison is trimmed, case-insensitive equality. */
  lemma UntaggedEmailMatches(pending: string, singpass: string)
    requires !Contains(pending, CLERK_TEST_TAG)
    ensures EmailsMatchForKyc(pending, singpass) <==> EqualFold(TrimSpace(pending), TrimSpace(singpass))
  {
    TrimKeepsAbsence(pending, CLERK_TEST_TAG);
    RemoveAllAbsent(TrimSpace(pending), CLERK_TEST_TAG);
  }

  /** Hence an equivalence relation on tag-free addresses. */
  lemma {:induction false} UntaggedIsEquivalence(x: string, y: string, z: string)
    requires forall s | s in {x, y, z} :: !Contains(s, CLERK_TEST_TAG)
    ensures EmailsMatchForKyc(x, x)
    ensures EmailsMatchForKyc(x, y) ==> EmailsMatchForKyc(y, x)
    ensures EmailsMatchForKyc(x, y) && EmailsMatchForKyc(y, z) ==> EmailsMatchForKyc(x, z)
  {
    UntaggedEmailMatches(x, y);
    UntaggedEmailMatches(y, x);
    UntaggedEmailMatches(y, z);
    UntaggedEmailMatches(x, z);
  }

  /** With tags it is not symmetric: the tag is only removed from the pending side. */
  lemma TaggedIsNotSymmetric()
    ensures EmailsMatchForKyc("a+clerk_test@x", "a@x") && !EmailsMatchForKyc("a@x", "a+clerk_test@x")
  {
    hide TrimSpace, EmailsMatchForKyc;
    SampleParts();
    TaggedEmailMatches("a+clerk_test@x", ["a", "@x"], "a@x");
    UntaggedEmailMatches("a@x", "a+clerk_test@x");
    assert |Fold("a@x")| != |Fold("a+clerk_test@x")|;
  }

  lemma SampleParts()
    ensures Free(["a", "@x", "a@x"], CLERK_TEST_TAG) && Concat(["a", "@x"]) == "a@x"
    ensures Joined(["a", "@x"], CLERK_TEST_TAG) == "a+clerk_test@x"
  {
    assert ["a", "@x"][1..] == ["@x"];
    forall p | p in ["a", "@x", "a@x"] ensures !Contains(p, CLERK_TEST_TAG) { ShortIsFree(p, CLERK_TEST_TAG); }
    hide Contains;
  }
}
