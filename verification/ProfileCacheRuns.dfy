/** Main results on the profile cache, over every run. */
module ProfileCacheRuns {
  import opened Model
  import opened World
  import opened MappingTable
  import opened Tables
  import opened ProfileCache
  import opened Runs

  /** The uncached answer: the join of the two tables as they are. */
  ghost predicate UpToDate(w: World, u: int, p: Profile) {
    u in w.db.users && MappingOf(w, u).Some? && p == Join(Row(w.db.users[u]), MappingOf(w, u).value)
  }

  /** From any state that satisfies the invariants, over any warm Redis: a cached profile that
      disagrees with the tables has one of three causes. A handler has written the row since
      the entry was set and not yet deleted the entry; the delete due to such a write has
      failed; or the entry was set by a reader whose user read preceded a later write. */
  lemma {:induction false} StaleEntryIsExplained(w0: World, acts: seq<Act>, u: int)
    requires Inv(w0) && u in Run(w0, acts).redis.profiles
    ensures var w := Run(w0, acts);
            var e := w.redis.profiles[u];
            || UpToDate(w, u, e.profile)
            || DeletePending(w, u, e.setVer)
            || DeleteLost(w, u, e.setVer)
            || e.ver < e.setVer
  {
    RunInv(w0, acts);
    hide Run, First, DeletePending, DeleteLost, Grows;
    var w := Run(w0, acts);
    assert EntryOk(w, u, w.redis.profiles[u]) && Explained(w, u, w.redis.profiles[u]);
  }

  // ----- When the cache is exact -----

  /** No delete of the entry of `u` is due to a write later than the entry: no handler is between
      such a write and its delete, and no such delete has failed. */
  ghost predicate NothingDue(w: World, u: int) {
    u in w.redis.profiles ==>
      && !DeletePending(w, u, w.redis.profiles[u].setVer)
      && !DeleteLost(w, u, w.redis.profiles[u].setVer)
  }

  /** The columns the cache keeps that can change. */
  predicate SameShown(row: User, row': User) {
    row.name == row'.name && row.market == row'.market && row.kycStatus == row'.kycStatus
  }

  lemma EntryIsExactIff(w: World, u: int, e: Entry)
    requires TableInv(w) && EntryOk(w, u, e)
    ensures e.ver <= e.setVer < |w.db.users[u]|
    ensures UpToDate(w, u, e.profile) <==> SameShown(w.db.users[u][e.ver].row, Row(w.db.users[u]))
  {
    hide MappingOf, ApplyWrite, MarketOk;
    var revs := w.db.users[u];
    assert RowOk(w, u) && RevOk(revs, e.ver, u, w.now) && RevOk(revs, Top(revs), u, w.now);
  }

  lemma CachedIsExactIff(w: World, u: int)
    requires TableInv(w) && CacheInv(w) && u in w.redis.profiles && NothingDue(w, u)
    ensures var e := w.redis.profiles[u];
            && u in w.db.users && e.ver <= e.setVer < |w.db.users[u]|
            && (UpToDate(w, u, e.profile) <==>
                SameShown(w.db.users[u][e.ver].row, w.db.users[u][e.setVer].row))
  {
    var e := w.redis.profiles[u];
    assert EntryOk(w, u, e) && Explained(w, u, e);
    hide MappingOf, DeletePending, DeleteLost, TableInv, CacheInv, UpToDate, SameShown;
    EntryIsExactIff(w, u, e);
  }

  /** From any state that satisfies the invariants, under every interleaving, failure and
      eviction: whenever nothing is due, the cached profile is the current join if and only if
      the row, when the entry was set, still showed what the setting reader had read. */
  lemma {:induction false} CacheIsExactIff(w0: World, acts: seq<Act>, u: int)
    requires Inv(w0) && u in Run(w0, acts).redis.profiles && NothingDue(Run(w0, acts), u)
    ensures var w := Run(w0, acts);
            var e := w.redis.profiles[u];
            && u in w.db.users && e.ver <= e.setVer < |w.db.users[u]|
            && (UpToDate(w, u, e.profile) <==>
                SameShown(w.db.users[u][e.ver].row, w.db.users[u][e.setVer].row))
  {
    RunInv(w0, acts);
    hide Run, Grows, TableInv, CacheInv, UpToDate, SameShown, NothingDue;
    CachedIsExactIff(Run(w0, acts), u);
  }

  /** If this action sets the entry of `u`, the row has not been written since the setting
      reader read it. */
  ghost predicate QuietSet(w: World, a: Act, u: int) {
    a.ReaderAct? && a.t in w.readers.at && w.readers.at[a.t].RSet? && w.readers.at[a.t].userId == u
    && u in w.db.users ==>
      w.readers.at[a.t].ver == Top(w.db.users[u])
  }

  /** No reader's window from user read to cache set contains a write to `u`. */
  ghost predicate QuietWindows(w0: World, acts: seq<Act>, u: int) {
    forall k: nat | k < |acts| :: QuietSet(At(w0, acts, k), acts[k], u)
  }

  ghost predicate SetFresh(w: World, u: int) {
    u in w.redis.profiles ==> w.redis.profiles[u].ver == w.redis.profiles[u].setVer
  }

  lemma ReaderSetsFresh(w: World, t: nat, ok: bool, u: int)
    requires TableInv(w) && CacheInv(w) && t in w.readers.at && SetFresh(w, u) && QuietSet(w, ReaderAct(t, ok), u)
    ensures SetFresh(NextReader(w, t, ok), u)
  {
    hide First;
    assert ReaderOk(w, w.readers.at[t]);
    match w.readers.at[t] {
      case RSet(v, p, ver, _) =>
        assert RowOk(w, v) && RevOk(w.db.users[v], ver, v, w.now);
        if ok {}
      case RGet(_) =>
      case RUser(_) =>
      case RMapping(_, _, _, _) =>
      case RDone(_, _) =>
    }
  }

  lemma NextSetsFresh(w: World, a: Act, u: int)
    requires TableInv(w) && CacheInv(w) && SetFresh(w, u) && QuietSet(w, a, u)
    ensures SetFresh(Next(w, a), u)
  {
    NextFrame(w, a);
    hide NextReader, TableInv, CacheInv, RowsGrow;
    if a.ReaderAct? && !Idle(w, a) { ReaderSetsFresh(w, a.t, a.ok, u); } else { hide Next; }
  }

  lemma {:induction false} RunSetsFresh(w0: World, acts: seq<Act>, u: int, k: nat)
    requires Inv(w0) && SetFresh(w0, u) && QuietWindows(w0, acts, u) && k <= |acts|
    ensures SetFresh(At(w0, acts, k), u)
  {
    if k > 0 {
      AtInv(w0, acts, k - 1);
      AtStep(w0, acts, k - 1);
      hide At, Next, SetFresh, QuietSet, Grows, TableInv, CacheInv;
      RunSetsFresh(w0, acts, u, k - 1);
      assert QuietSet(At(w0, acts, k - 1), acts[k - 1], u);
      NextSetsFresh(At(w0, acts, k - 1), acts[k - 1], u);
    } else {
      AtStart(w0, acts);
    }
  }

  /** Under every interleaving in which no reader's window contains a write to `u`, from a state
      whose entry for `u`, if any, was set that way too: whenever nothing is due, the cached
      profile is absent or is the current join. */
  lemma {:induction false} CacheIsExactWhenQuiet(w0: World, acts: seq<Act>, u: int)
    requires Inv(w0) && SetFresh(w0, u) && QuietWindows(w0, acts, u)
    requires NothingDue(Run(w0, acts), u) && u in Run(w0, acts).redis.profiles
    ensures UpToDate(Run(w0, acts), u, Run(w0, acts).redis.profiles[u].profile)
  {
    hide Run, NothingDue, UpToDate;
    RunSetsFresh(w0, acts, u, |acts|);
    AtEnd(w0, acts);
    CacheIsExactIff(w0, acts, u);
  }

  /** A cache set leaves the entry up to date exactly when the row shows what the reader read. */
  lemma SetIsExactIff(w0: World, acts: seq<Act>, t: nat)
    requires Inv(w0) && t in Run(w0, acts).readers.at && Run(w0, acts).readers.at[t].RSet?
    ensures var w, w' := Run(w0, acts), Next(Run(w0, acts), ReaderAct(t, true));
            var RSet(u, _, ver, _) := w.readers.at[t];
            && u in w.db.users && ver < |w.db.users[u]| && u in w'.redis.profiles
            && (UpToDate(w', u, w'.redis.profiles[u].profile) <==>
                SameShown(w.db.users[u][ver].row, Row(w.db.users[u])))
  {
    RunInv(w0, acts);
    hide Run, First, Grows;
    var w := Run(w0, acts);
    assert ReaderOk(w, w.readers.at[t]);
    var u := w.readers.at[t].userId;
    assert RowOk(w, u) && RevOk(w.db.users[u], w.readers.at[t].ver, u, w.now);
    assert RevOk(w.db.users[u], Top(w.db.users[u]), u, w.now);
  }

  // ----- How stale a reply can be -----

  /** Every reader that sets the cache does so at most `d` after its user read. */
  ghost predicate SetsWithin(w0: World, acts: seq<Act>, d: nat) {
    forall k: nat | k < |acts| :: SetWithin(At(w0, acts, k), acts[k], d)
  }

  ghost predicate SetWithin(w: World, a: Act, d: nat) {
    a.ReaderAct? && a.t in w.readers.at && w.readers.at[a.t].RSet? ==> w.now - w.readers.at[a.t].readAt <= d
  }

  lemma NextDelay(w: World, a: Act, d: nat)
    requires w.history.maxDelay <= d && SetWithin(w, a, d)
    ensures Next(w, a).history.maxDelay <= d
  {
    NextFrame(w, a);
    hide RowsGrow;
    if a.ReaderAct? && !Idle(w, a) {
      hide MappingOf;
      match w.readers.at[a.t] {
        case RSet(_, _, _, _) =>
        case _ =>
      }
    } else {
      hide Next;
    }
  }

  lemma {:induction false} RunDelay(w0: World, acts: seq<Act>, d: nat, k: nat)
    requires w0.history.maxDelay <= d && SetsWithin(w0, acts, d) && k <= |acts|
    ensures At(w0, acts, k).history.maxDelay <= d
  {
    if k > 0 {
      RunDelay(w0, acts, d, k - 1);
      AtStep(w0, acts, k - 1);
      hide At, Next;
      assert SetWithin(At(w0, acts, k - 1), acts[k - 1], d);
      NextDelay(At(w0, acts, k - 1), acts[k - 1], d);
    } else {
      AtStart(w0, acts);
    }
  }

  /** Every profile returned at `at`, under every interleaving, eviction and failure, has the
      exact id, email and registration time, and its other columns come from one state of the
      row that was current at `readAt`, less than the cache lifetime plus the longest
      read-to-set delay `d` before. */
  lemma {:induction false} RepliesAreBoundedStale(w0: World, acts: seq<Act>, t: nat, d: nat)
    requires Inv(w0) && w0.history.maxDelay <= d && SetsWithin(w0, acts, d)
    requires t in Run(w0, acts).readers.at
    requires Run(w0, acts).readers.at[t].RDone? && Run(w0, acts).readers.at[t].reply.Found?
    ensures var w := Run(w0, acts);
            var RDone(u, Found(p, ver, readAt, at)) := w.readers.at[t];
            && u in w.db.users && MappingOf(w, u).Some?
            && p.userId == u && p.email == MappingOf(w, u).value.email && p.registeredAt == Row(w.db.users[u]).createdAt
            && CurrentAt(w.db.users[u], ver, readAt)
            && p.name == w.db.users[u][ver].row.name && p.market == w.db.users[u][ver].row.market
            && p.kycStatus == w.db.users[u][ver].row.kycStatus
            && readAt <= at <= w.now && at < readAt + 3_600_000_000_000 + d
  {
    hide Run, First;
    RunInv(w0, acts);
    RunDelay(w0, acts, d, |acts|);
    AtEnd(w0, acts);
    var w := Run(w0, acts);
    assert ReaderOk(w, w.readers.at[t]);
    var u := w.readers.at[t].userId;
    assert RowOk(w, u) && RevOk(w.db.users[u], w.readers.at[t].reply.ver, u, w.now);
    assert RevOk(w.db.users[u], Top(w.db.users[u]), u, w.now);
  }
}
