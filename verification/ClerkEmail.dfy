/** Choosing the email of a Clerk webhook (server/http/data/clerk_callback_data.go). */
module ClerkEmail {
  import opened Model
  import opened Text

  datatype ClerkEmailAddress = ClerkEmailAddress(id: string, emailAddress: string)
  datatype ClerkCallbackData = ClerkCallbackData(id: string, primaryEmailAddressId: string,
                                                 emailAddresses: seq<ClerkEmailAddress>)

  function ClerkUserId(d: Option<ClerkCallbackData>): string {
    if d.None? then "" else d.value.id
  }

  function NormalizeEmail(email: string): string {
    var trimmed := TrimSpace(email);
    if Contains(trimmed, "@") then trimmed else ""
  }

  /** What registration needs of an address. */
  predicate ValidEmail(email: string) {
    Trimmed(email) && Contains(email, "@")
  }

  function FirstWithId(addresses: seq<ClerkEmailAddress>, id: string): Option<ClerkEmailAddress> {
    if addresses == [] then None
    else if addresses[0].id == id then Some(addresses[0])
    else FirstWithId(addresses[1..], id)
  }

  function FirstUsable(addresses: seq<ClerkEmailAddress>): string {
    if addresses == [] then ""
    else if NormalizeEmail(addresses[0].emailAddress) != "" then NormalizeEmail(addresses[0].emailAddress)
    else FirstUsable(addresses[1..])
  }

  /** The primary address when the primary id names one, even if unusable; else the first usable. */
  function SelectEmail(d: Option<ClerkCallbackData>): string {
    if d.None? then ""
    else
      var primary := if d.value.primaryEmailAddressId == "" then None
                     else FirstWithId(d.value.emailAddresses, d.value.primaryEmailAddressId);
      if primary.Some? then NormalizeEmail(primary.value.emailAddress)
      else FirstUsable(d.value.emailAddresses)
  }

  method EmailAddress(d: Option<ClerkCallbackData>) returns (email: string)
    ensures email == SelectEmail(d)
    ensures if d.None? then email == "" else Chosen(d.value, email)
  {
    hide NormalizeEmail, Chosen, TrimSpace, Contains;
    if d.Some? { SelectedIsChosen(d.value); }
    if d.None? || d.value.emailAddresses == [] {
      return "";
    }
    var addresses := d.value.emailAddresses;
    var primaryId := d.value.primaryEmailAddressId;
    if primaryId != "" {
      for i := 0 to |addresses|
        invariant FirstWithId(addresses, primaryId) == FirstWithId(addresses[i..], primaryId)
      {
        assert addresses[i..][1..] == addresses[i + 1..];
        if addresses[i].id == primaryId {
          return NormalizeEmail(addresses[i].emailAddress);
        }
      }
    }
    for i := 0 to |addresses|
      invariant FirstUsable(addresses) == FirstUsable(addresses[i..])
    {
      assert addresses[i..][1..] == addresses[i + 1..];
      email := NormalizeEmail(addresses[i].emailAddress);
      if email != "" {
        return;
      }
    }
    email := "";
  }

  /** The result is empty or a trimmed address with an "@", taken from one of the entries; and
      without a matching primary entry it is empty only when no entry is usable. */
  lemma {:induction false} SelectedEmailIsUsable(d: ClerkCallbackData)
    ensures var email := SelectEmail(Some(d));
            email != "" ==>
              && ValidEmail(email)
              && exists i | 0 <= i < |d.emailAddresses| :: email == TrimSpace(d.emailAddresses[i].emailAddress)
    ensures SelectEmail(Some(d)) == "" ==>
              || (d.primaryEmailAddressId != "" && FirstWithId(d.emailAddresses, d.primaryEmailAddressId).Some?)
              || forall i | 0 <= i < |d.emailAddresses| :: NormalizeEmail(d.emailAddresses[i].emailAddress) == ""
  {
    hide TrimSpace, Contains;
    FirstWithIdIsMember(d.emailAddresses, d.primaryEmailAddressId);
    var i := FirstUsableAt(d.emailAddresses);
    hide FirstWithId, FirstUsable;
  }

  lemma {:induction false} FirstWithIdIsMember(addresses: seq<ClerkEmailAddress>, id: string)
    ensures var r := FirstWithId(addresses, id);
            if r.Some? then r.value in addresses && r.value.id == id
            else forall a | a in addresses :: a.id != id
  {
    if addresses != [] { FirstWithIdIsMember(addresses[1..], id); }
  }

  // ----- By position -----

  /** `email` is what the address at `i` gives: trimmed, or nothing without an "@". */
  predicate Gives(d: ClerkCallbackData, i: nat, email: string) {
    && i < |d.emailAddresses|
    && var trimmed := TrimSpace(d.emailAddresses[i].emailAddress);
       email == if Contains(trimmed, "@") then trimmed else ""
  }

  /** The least index with the primary id. */
  predicate PrimaryAt(d: ClerkCallbackData, i: nat) {
    && d.primaryEmailAddressId != "" && i < |d.emailAddresses| && d.emailAddresses[i].id == d.primaryEmailAddressId
    && forall j | 0 <= j < i :: d.emailAddresses[j].id != d.primaryEmailAddressId
  }

  predicate HasPrimary(d: ClerkCallbackData) {
    && d.primaryEmailAddressId != ""
    && exists j | 0 <= j < |d.emailAddresses| :: d.emailAddresses[j].id == d.primaryEmailAddressId
  }

  predicate HasAt(d: ClerkCallbackData, i: nat)
    requires i < |d.emailAddresses|
  {
    Contains(TrimSpace(d.emailAddresses[i].emailAddress), "@")
  }

  /** The rule by position: the entry with the primary id if there is one, usable or not; else
      the first usable one; else nothing. */
  ghost predicate Chosen(d: ClerkCallbackData, email: string) {
    if HasPrimary(d) then exists i :: PrimaryAt(d, i) && Gives(d, i, email)
    else
      || (exists i: nat | i < |d.emailAddresses| :: HasAt(d, i) && Gives(d, i, email) && forall j: nat | j < i ::
          !HasAt(d, j))
      || (email == "" && forall j: nat | j < |d.emailAddresses| :: !HasAt(d, j))
  }

  lemma {:induction false} FirstWithIdAt(addresses: seq<ClerkEmailAddress>, id: string) returns (i: nat)
    requires exists j | 0 <= j < |addresses| :: addresses[j].id == id
    ensures i < |addresses| && FirstWithId(addresses, id) == Some(addresses[i]) && addresses[i].id == id
    ensures forall j | 0 <= j < i :: addresses[j].id != id
  {
    if addresses[0].id == id {
      i := 0;
    } else {
      var j :| 0 <= j < |addresses| && addresses[j].id == id;
      assert addresses[1..][j - 1] == addresses[j];
      i := FirstWithIdAt(addresses[1..], id);
      i := i + 1;
      assert forall k | 0 < k < i :: addresses[k] == addresses[1..][k - 1];
    }
  }

  /** The first index whose address is usable, or the length of the list. */
  lemma {:induction false} FirstUsableAt(addresses: seq<ClerkEmailAddress>) returns (i: nat)
    ensures i <= |addresses|
    ensures FirstUsable(addresses) == if i < |addresses| then NormalizeEmail(addresses[i].emailAddress) else ""
    ensures i < |addresses| ==> NormalizeEmail(addresses[i].emailAddress) != ""
    ensures forall j | 0 <= j < i :: NormalizeEmail(addresses[j].emailAddress) == ""
  {
    hide NormalizeEmail;
    if addresses == [] || NormalizeEmail(addresses[0].emailAddress) != "" {
      i := 0;
    } else {
      i := FirstUsableAt(addresses[1..]);
      i := i + 1;
      assert forall k | 0 < k < i :: addresses[k] == addresses[1..][k - 1];
    }
  }

  lemma NormalizedIff(email: string)
    ensures NormalizeEmail(email) == if Contains(TrimSpace(email), "@") then TrimSpace(email) else ""
    ensures NormalizeEmail(email) != "" <==> Contains(TrimSpace(email), "@")
  {
    hide TrimSpace;
    if Contains(TrimSpace(email), "@") {
      var i :| 0 <= i <= |TrimSpace(email)| - |"@"| && OccursAt("@", TrimSpace(email), i);
    }
  }

  lemma SelectedIsChosen(d: ClerkCallbackData)
    ensures Chosen(d, SelectEmail(Some(d)))
  {
    hide NormalizeEmail, TrimSpace, Contains;
    forall i: nat | i < |d.emailAddresses| { NormalizedIff(d.emailAddresses[i].emailAddress); }
    if HasPrimary(d) {
      var i := FirstWithIdAt(d.emailAddresses, d.primaryEmailAddressId);
      assert PrimaryAt(d, i) && Gives(d, i, SelectEmail(Some(d)));
    } else {
      FirstWithIdIsMember(d.emailAddresses, d.primaryEmailAddressId);
      var i := FirstUsableAt(d.emailAddresses);
      if i < |d.emailAddresses| {
        assert HasAt(d, i) && Gives(d, i, SelectEmail(Some(d)));
      }
    }
  }
}
