/** Table `user_auth_mapping`: its unique index and its queries. */
module MappingTable {
  import opened Model
  import opened Text

  /** The column collation is case-insensitive (utf8mb4_unicode_ci), for lookups and for the
      unique index alike. */
  function Collate(s: string): string { Fold(s) }

  function ByUser(userId: int): UserAuthMapping -> bool {
    (m: UserAuthMapping) => m.internalUserId == userId
  }

  function ByClerk(clerk: string): UserAuthMapping -> bool {
    (m: UserAuthMapping) => Collate(m.clerkUserId) == Collate(clerk)
  }

  function ByEmail(email: string): UserAuthMapping -> bool {
    (m: UserAuthMapping) => Collate(m.email) == Collate(email)
  }

  /** `m` is the row of lowest id below `hi` that satisfies `p`. */
  ghost predicate IsFirst(rows: map<int, UserAuthMapping>, p: UserAuthMapping -> bool, hi: nat, m: UserAuthMapping) {
    exists i :: i in rows && 0 <= i < hi && rows[i] == m && p(rows[i])
                && forall j | j in rows && 0 <= j < i :: !p(rows[j])
  }

  /** `ORDER BY id LIMIT 1` over the committed rows below `hi`. */
  function First(rows: map<int, UserAuthMapping>, p: UserAuthMapping -> bool, hi: nat): (r: Option<UserAuthMapping>)
    ensures r.None? ==> forall i | i in rows && 0 <= i < hi :: !p(rows[i])
    ensures r.Some? ==> IsFirst(rows, p, hi, r.value)
  {
    if hi == 0 then None
    else
      var r := First(rows, p, hi - 1);
      if r.Some? then r
      else if hi - 1 in rows && p(rows[hi - 1]) then Some(rows[hi - 1])
      else None
  }

  predicate SameKey(m: UserAuthMapping, n: UserAuthMapping) {
    Collate(m.clerkUserId) == Collate(n.clerkUserId)
  }

  /** The unique index on `clerk_user_id`. */
  ghost predicate UniqueClerk(rows: map<int, UserAuthMapping>) {
    forall i, j | i in rows && j in rows && SameKey(rows[i], rows[j]) :: i == j
  }

  lemma {:induction false} FirstAgrees(m: map<int, UserAuthMapping>, m': map<int, UserAuthMapping>, hi: nat,
                                       p: UserAuthMapping -> bool)
    requires forall i | 0 <= i < hi && i in m :: i in m' && m'[i] == m[i]
    requires forall i | 0 <= i < hi && i in m' && i !in m :: !p(m'[i])
    ensures First(m', p, hi) == First(m, p, hi)
  {
    hide IsFirst;
    if hi > 0 { FirstAgrees(m, m', hi - 1, p); }
  }

  /** Rows that do not satisfy `p` do not change its first match. */
  lemma {:induction false} FirstStable(m: map<int, UserAuthMapping>, hi: nat, m': map<int, UserAuthMapping>, hi': nat,
                                       p: UserAuthMapping -> bool)
    requires hi <= hi' && forall i | i in m :: i in m' && m'[i] == m[i] && 0 <= i < hi
    requires forall i | i in m' && i !in m :: !p(m'[i])
    ensures First(m', p, hi') == First(m, p, hi)
    decreases hi'
  {
    hide IsFirst;
    if hi < hi' { FirstStable(m, hi, m', hi' - 1, p); } else { FirstAgrees(m, m', hi, p); }
  }

  /** Under the unique index a Clerk id, once found, is found with the same row forever. */
  lemma FoundForClerk(rows: map<int, UserAuthMapping>, hi: nat, i: int, clerk: string)
    requires UniqueClerk(rows) && i in rows && 0 <= i < hi && Collate(rows[i].clerkUserId) == Collate(clerk)
    ensures First(rows, ByClerk(clerk), hi) == Some(rows[i])
  {
    hide Collate;
    assert ByClerk(clerk)(rows[i]);
    var r := First(rows, ByClerk(clerk), hi);
    var j :| j in rows && 0 <= j < hi && rows[j] == r.value && ByClerk(clerk)(rows[j]);
    assert SameKey(rows[i], rows[j]);
  }

  /** A row with another key is not the answer to a query that has one. */
  lemma FoundElsewhere(rows: map<int, UserAuthMapping>, hi: nat, row: UserAuthMapping, clerk: string)
    requires First(rows, ByClerk(clerk), hi).Some? && forall i | i in rows :: !SameKey(rows[i], row)
    ensures !ByClerk(clerk)(row)
  {
    hide Collate;
    var found := First(rows, ByClerk(clerk), hi).value;
    var i :| i in rows && 0 <= i < hi && rows[i] == found && ByClerk(clerk)(rows[i]);
    assert !SameKey(rows[i], row);
  }

  /** Inserting a row whose Clerk id no query finds keeps the index unique. */
  lemma InsertKeepsUnique(rows: map<int, UserAuthMapping>, hi: nat, row: UserAuthMapping)
    requires UniqueClerk(rows) && forall i | i in rows :: 0 <= i < hi
    requires First(rows, ByClerk(row.clerkUserId), hi).None?
    ensures UniqueClerk(rows[hi := row])
  {
    hide Collate, First;
    forall i | i in rows ensures !SameKey(rows[i], row) { assert !ByClerk(row.clerkUserId)(rows[i]); }
  }
}
