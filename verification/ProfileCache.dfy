/** The profile cache under every interleaving: how stale an entry or a reply can be, and
    what a stale entry implies. */
module ProfileCache {
  import opened Model
  import opened World
  import opened MappingTable
  import opened Tables
  import opened ClerkEmail
  import opened KycEmail
  import opened StateStore
  import opened ProfileUpdate

  /** The `k`-th row state was the current one at time `t`. */
  ghost predicate CurrentAt(revs: Revs, k: nat, t: int) {
    k < |revs| && revs[k].at <= t && (k + 1 < |revs| ==> t <= revs[k + 1].at)
  }

  /** `p` joins the `ver`-th state of user `u`, current at `readAt`, with the user's mapping. */
  ghost predicate JoinedFrom(w: World, u: int, p: Profile, ver: nat, readAt: int) {
    && u in w.db.users && CurrentAt(w.db.users[u], ver, readAt) && readAt <= w.now
    && MappingOf(w, u).Some? && p == Join(w.db.users[u][ver].row, MappingOf(w, u).value)
  }

  ghost predicate ReaderOk(w: World, r: Reader) {
    match r
    case RGet(u) => 0 < u
    case RUser(u) => 0 < u
    case RMapping(u, row, ver, readAt) =>
      0 < u && u in w.db.users && CurrentAt(w.db.users[u], ver, readAt) && readAt <= w.now
      && row == w.db.users[u][ver].row
    case RSet(u, p, ver, readAt) => 0 < u && JoinedFrom(w, u, p, ver, readAt)
    case RDone(u, Found(p, ver, readAt, at)) =>
      JoinedFrom(w, u, p, ver, readAt) && readAt <= at <= w.now && at < readAt + PROFILE_CACHE_TTL + w.history.maxDelay
    case RDone(_, _) => true
  }

  ghost predicate EntryOk(w: World, u: int, e: Entry) {
    && 0 < u && JoinedFrom(w, u, e.profile, e.ver, e.readAt)
    && e.ver <= e.setVer < |w.db.users[u]|
    && e.readAt <= e.setAt <= w.now && e.expiresAt == e.setAt + PROFILE_CACHE_TTL
    && e.setAt - e.readAt <= w.history.maxDelay
  }

  /** A handler has written a state of `u` later than `ver` and has not deleted the entry yet. */
  ghost predicate DeletePending(w: World, u: int, ver: nat) {
    || (exists t | t in w.updaters.at ::
          w.updaters.at[t].UDel? && w.updaters.at[t].userId == u && ver < w.updaters.at[t].ver)
    || (exists t | t in w.callbacks.at ::
          w.callbacks.at[t].KDel? && w.callbacks.at[t].userId == u && ver < w.callbacks.at[t].ver)
  }

  /** The delete after a state of `u` later than `ver` has failed. */
  ghost predicate DeleteLost(w: World, u: int, ver: nat) {
    exists v: nat :: (u, v) in w.history.lost && ver < v
  }

  /** If the row was written after the entry was set, a delete due to a later state is pending
      or has failed. */
  ghost predicate Explained(w: World, u: int, e: Entry) {
    u in w.db.users && e.setVer < Top(w.db.users[u]) ==> DeleteLost(w, u, e.setVer) || DeletePending(w, u, e.setVer)
  }

  ghost predicate CacheInv(w: World) {
    && (forall u | u in w.redis.profiles :: EntryOk(w, u, w.redis.profiles[u]) && Explained(w, u, w.redis.profiles[u]))
    && (forall t | t in w.readers.at :: ReaderOk(w, w.readers.at[t]))
  }

  // ----- Growth keeps what has been read -----

  lemma CurrentAtStable(w: World, w': World, u: int, ver: nat, t: int)
    requires Grows(w, w') && u in w.db.users && CurrentAt(w.db.users[u], ver, t) && t <= w.now
    ensures CurrentAt(w'.db.users[u], ver, t) && w'.db.users[u][ver] == w.db.users[u][ver]
  {
    hide First;
  }

  lemma JoinedStable(w: World, w': World, u: int, p: Profile, ver: nat, readAt: int)
    requires Grows(w, w') && JoinedFrom(w, u, p, ver, readAt)
    ensures JoinedFrom(w', u, p, ver, readAt)
  {
    hide First;
    CurrentAtStable(w, w', u, ver, readAt);
  }

  lemma ReaderStable(w: World, w': World, r: Reader)
    requires Grows(w, w') && ReaderOk(w, r)
    ensures ReaderOk(w', r)
  {
    hide First;
    match r {
      case RMapping(u, _, ver, readAt) => CurrentAtStable(w, w', u, ver, readAt);
      case RSet(u, p, ver, readAt) => JoinedStable(w, w', u, p, ver, readAt);
      case RDone(u, Found(p, ver, readAt, _)) => JoinedStable(w, w', u, p, ver, readAt);
      case RGet(_) =>
      case RUser(_) =>
      case RDone(_, _) =>
    }
  }

  lemma EntryStable(w: World, w': World, u: int, e: Entry)
    requires Grows(w, w') && EntryOk(w, u, e)
    ensures EntryOk(w', u, e)
  {
    hide First;
    JoinedStable(w, w', u, e.profile, e.ver, e.readAt);
  }

  // ----- One reader step -----

  lemma HitOk(w: World, t: nat)
    requires CacheInv(w) && t in w.readers.at && w.readers.at[t].RGet? && Grows(w, NextReader(w, t, true))
    requires var u := w.readers.at[t].userId; u in w.redis.profiles && w.now < w.redis.profiles[u].expiresAt
    ensures ReaderOk(NextReader(w, t, true), NextReader(w, t, true).readers.at[t])
  {
    hide First, JoinedFrom, Grows, Explained;
    var u := w.readers.at[t].userId;
    var e := w.redis.profiles[u];
    assert EntryOk(w, u, e);
    JoinedStable(w, NextReader(w, t, true), u, e.profile, e.ver, e.readAt);
  }

  lemma ReaderStepOk(w: World, t: nat, ok: bool)
    requires TableInv(w) && CacheInv(w) && t in w.readers.at && Grows(w, NextReader(w, t, ok))
    ensures ReaderOk(NextReader(w, t, ok), NextReader(w, t, ok).readers.at[t])
  {
    hide First, Grows;
    var w' := NextReader(w, t, ok);
    assert ReaderOk(w, w.readers.at[t]);
    match w.readers.at[t] {
      case RGet(u) =>
        if ok && u in w.redis.profiles && w.now < w.redis.profiles[u].expiresAt { HitOk(w, t); }
      case RUser(u) =>
        if ok && u in w.db.users {
          assert RowOk(w, u) && RevOk(w.db.users[u], Top(w.db.users[u]), u, w.now);
          assert ReaderOk(w', w'.readers.at[t]);
        }
      case RMapping(u, row, ver, readAt) =>
        if ok && MappingOf(w, u).Some? { assert ReaderOk(w', w'.readers.at[t]); }
      case RSet(u, p, ver, readAt) =>
        if ok {
          assert ReaderOk(w', w'.readers.at[t]);
        } else {
          assert ReaderOk(w', w'.readers.at[t]);
        }
      case RDone(_, _) =>
    }
  }

  /** What `SetCached` stores is an entry of the reader's own user, at the latest state. */
  lemma SetEntryOk(w: World, t: nat, v: int, p: Profile, ver: nat, readAt: int)
    requires TableInv(w) && 0 < v && JoinedFrom(w, v, p, ver, readAt)
    ensures var w' := SetCached(w, t, v, p, ver, readAt, true);
            && p.userId == v && w'.redis.profiles == w.redis.profiles[v := w'.redis.profiles[v]]
            && EntryOk(w', v, w'.redis.profiles[v]) && w'.redis.profiles[v].setVer == Top(w'.db.users[v])
  {
    hide MappingOf;
    assert RowOk(w, v) && RevOk(w.db.users[v], ver, v, w.now);
    hide TableInv, RowOk, RevOk;
    var w' := SetCached(w, t, v, p, ver, readAt, true);
    assert JoinedFrom(w', v, p, ver, readAt) by { SameJoin(w, w', v, p, ver, readAt); }
    hide JoinedFrom;
    JoinedInRange(w, v, p, ver, readAt);
  }

  lemma SameJoin(w: World, w': World, v: int, p: Profile, ver: nat, readAt: int)
    requires JoinedFrom(w, v, p, ver, readAt) && w'.db == w.db && w'.now == w.now
    ensures JoinedFrom(w', v, p, ver, readAt)
  {
    hide First;
  }

  lemma JoinedInRange(w: World, v: int, p: Profile, ver: nat, readAt: int)
    requires JoinedFrom(w, v, p, ver, readAt)
    ensures v in w.db.users && ver < |w.db.users[v]| && readAt <= w.now
  {
    hide MappingOf;
  }

  /** A reader changes the cache only by setting its own user's entry, at the latest state. */
  lemma ReaderCacheOk(w: World, t: nat, ok: bool, u: int)
    requires TableInv(w) && CacheInv(w) && t in w.readers.at
    requires u in NextReader(w, t, ok).redis.profiles
    ensures var w' := NextReader(w, t, ok);
            var e := w'.redis.profiles[u];
            || (u in w.redis.profiles && e == w.redis.profiles[u])
            || (EntryOk(w', u, e) && e.setVer == Top(w'.db.users[u]))
  {
    assert ReaderOk(w, w.readers.at[t]);
    hide TableInv, CacheInv, EntryOk, JoinedFrom, MappingOf;
    match w.readers.at[t] {
      case RSet(v, p, ver, readAt) => if ok { SetEntryOk(w, t, v, p, ver, readAt); hide SetCached; }
      case _ =>
    }
  }

  // ----- Steps that write rows or delete entries -----

  /** A handler that still had to delete the entry of `u` still has to, or has failed to. */
  ghost predicate KeepsPending(w: World, w': World, u: int) {
    && (forall s | s in w.updaters.at && w.updaters.at[s].UDel? && w.updaters.at[s].userId == u ::
          || (s in w'.updaters.at && w'.updaters.at[s] == w.updaters.at[s])
          || (u, w.updaters.at[s].ver) in w'.history.lost)
    && (forall s | s in w.callbacks.at && w.callbacks.at[s].KDel? && w.callbacks.at[s].userId == u ::
          || (s in w'.callbacks.at && w'.callbacks.at[s] == w.callbacks.at[s])
          || (u, w.callbacks.at[s].ver) in w'.history.lost)
  }

  /** What a step of a writing handler does to the entry of an existing user: it is gone; or
      the row has not changed and no delete still due is forgotten; or this handler now has to
      delete it. */
  ghost predicate Effect(w: World, w': World, u: int)
    requires u in w.db.users && u in w'.db.users
  {
    && w.history.lost <= w'.history.lost
    && (u in w'.redis.profiles ==>
          && u in w.redis.profiles && w'.redis.profiles[u] == w.redis.profiles[u]
          && (|| (w'.db.users[u] == w.db.users[u] && KeepsPending(w, w', u))
              || DeletePending(w', u, Top(w.db.users[u]))))
  }

  lemma EffectExplains(w: World, w': World, u: int, e: Entry)
    requires u in w.db.users && u in w'.db.users && Effect(w, w', u)
    requires u in w'.redis.profiles && e == w.redis.profiles[u] && Explained(w, u, e) && e.setVer <= Top(w.db.users[u])
    ensures Explained(w', u, e)
  {
  }

  lemma UpdaterEffect(w: World, t: nat, ok: bool, u: int)
    requires t in w.updaters.at && u in w.db.users && 0 < u
    requires u in NextUpdater(w, t, ok).db.users
    ensures Effect(w, NextUpdater(w, t, ok), u)
  {
    hide BuildPatch, ApplyWrite;
    var w' := NextUpdater(w, t, ok);
    match w.updaters.at[t] {
      case UGet(_, _) => assert KeepsPending(w, w', u); assert Effect(w, w', u);
      case UWrite(v, _, _) =>
        if ok && v == u {
          assert w'.updaters.at[t] == UDel(u, |w.db.users[u]|);
          assert DeletePending(w', u, Top(w.db.users[u]));
        } else {
          assert KeepsPending(w, w', u);
        }
        assert Effect(w, w', u);
      case UDel(v, _) =>
        if v != u || !ok { assert KeepsPending(w, w', u); }
        assert Effect(w, w', u);
      case UDone(_) =>
    }
  }

  lemma CallbackEffect(w: World, t: nat, ok: bool, info: Option<UserInfo>, u: int)
    requires t in w.callbacks.at && u in w.db.users && 0 < u
    requires u in NextCallback(w, t, ok, info).db.users
    ensures Effect(w, NextCallback(w, t, ok, info), u)
  {
    hide EmailsMatchForKyc, Consumable, Mark, ApplyWrite, KycStatusOf, PendingOf, WriteOf;
    var w' := NextCallback(w, t, ok, info);
    match w.callbacks.at[t] {
      case KConsume(state) =>
        if Consumable(w.store.log, state, w.now).Some? {
          assert KeepsPending(w, w', u); assert Effect(w, w', u);
        } else {
          assert KeepsPending(w, w', u); assert Effect(w, w', u);
        }
      case KToken(_) => assert KeepsPending(w, w', u); assert Effect(w, w', u);
      case KInfo(_) => assert KeepsPending(w, w', u); assert Effect(w, w', u);
      case KWrite(c, _) =>
        if !ok {
          assert KeepsPending(w, w', u); assert Effect(w, w', u);
        } else if PendingOf(w, c).internalUserId == u {
          assert w'.callbacks.at[t] == KDel(u, |w.history.kycWrites|, |w.db.users[u]|);
          assert DeletePending(w', u, Top(w.db.users[u]));
          assert Effect(w, w', u);
        } else {
          assert KeepsPending(w, w', u); assert Effect(w, w', u);
        }
      case KDel(v, _, _) =>
        if v != u || !ok { assert KeepsPending(w, w', u); }
        assert Effect(w, w', u);
      case KPub(_) =>
        if ok {
          assert KeepsPending(w, w', u); assert Effect(w, w', u);
        } else {
          assert KeepsPending(w, w', u); assert Effect(w, w', u);
        }
      case KDone(_) =>
    }
  }

  lemma CreatorEffect(w: World, t: nat, ok: bool, name: string, u: int)
    requires t in w.creators.at && TxOk(w, w.creators.at[t]) && u in w.db.users
    requires u in NextCreator(w, t, ok, name).db.users
    ensures Effect(w, NextCreator(w, t, ok, name), u)
  {
    hide First, Collate, KeyLocked;
    var w' := NextCreator(w, t, ok, name);
    CreatorFrame(w, t, ok, name);
    assert KeepsPending(w, w', u);
    match w.creators.at[t] {
      case CInval(_) => assert Effect(w, w', u);
      case CCommit(_, _) => assert Effect(w, w', u);
      case CLook(l, _, _) => if l.LDone? {} else if l.LFailed? {} assert Effect(w, w', u);
      case CEmail(_, _) => assert Effect(w, w', u);
      case CUser(_, _) => assert Effect(w, w', u);
      case CDelBefore(_, _, _) => assert Effect(w, w', u);
      case CMapping(_, _, _) => assert Effect(w, w', u);
      case CDelAfter(_, _) => assert Effect(w, w', u);
      case CPub(_) => assert Effect(w, w', u);
      case CDone(_) => assert Effect(w, w', u);
    }
  }

  // ----- Preservation -----

  lemma ReaderKeeps(w: World, t: nat, ok: bool)
    requires TableInv(w) && CacheInv(w) && t in w.readers.at && Grows(w, NextReader(w, t, ok))
    ensures CacheInv(NextReader(w, t, ok))
  {
    hide NextReader, First, TableInv, Grows, EntryOk, JoinedFrom, ReaderOk;
    var w' := NextReader(w, t, ok);
    ReaderFrame(w, t, ok);
    forall s | s in w'.readers.at ensures ReaderOk(w', w'.readers.at[s]) {
      if s == t { ReaderStepOk(w, t, ok); } else { ReaderStable(w, w', w.readers.at[s]); }
    }
    forall u | u in w'.redis.profiles
      ensures EntryOk(w', u, w'.redis.profiles[u]) && Explained(w', u, w'.redis.profiles[u])
    {
      ReaderCacheOk(w, t, ok, u);
      if u in w.redis.profiles && w'.redis.profiles[u] == w.redis.profiles[u] {
        EntryStable(w, w', u, w.redis.profiles[u]);
      }
    }
  }

  lemma EffectsKeep(w: World, w': World)
    requires CacheInv(w) && Grows(w, w') && w'.readers.at == w.readers.at
             && w'.redis.profiles.Keys <= w.redis.profiles.Keys
    requires forall u | u in w.db.users && u in w'.db.users && 0 < u :: Effect(w, w', u)
    ensures CacheInv(w')
  {
    hide First, KeepsPending, DeletePending;
    forall t | t in w'.readers.at ensures ReaderOk(w', w'.readers.at[t]) { ReaderStable(w, w', w.readers.at[t]); }
    forall u | u in w'.redis.profiles
      ensures EntryOk(w', u, w'.redis.profiles[u]) && Explained(w', u, w'.redis.profiles[u])
    {
      var e := w.redis.profiles[u];
      assert EntryOk(w, u, e) && Explained(w, u, e) && Effect(w, w', u);
      EntryStable(w, w', u, e);
      EffectExplains(w, w', u, e);
    }
  }

  lemma UpdaterKeepsCache(w: World, t: nat, ok: bool)
    requires CacheInv(w) && t in w.updaters.at && Grows(w, NextUpdater(w, t, ok))
    ensures CacheInv(NextUpdater(w, t, ok))
  {
    hide NextUpdater, First, Grows, CacheInv, Effect;
    var w' := NextUpdater(w, t, ok);
    UpdaterFrame(w, t, ok);
    forall u | u in w.db.users && u in w'.db.users && 0 < u ensures Effect(w, w', u) { UpdaterEffect(w, t, ok, u); }
    EffectsKeep(w, w');
  }

  lemma CallbackKeepsCache(w: World, t: nat, ok: bool, info: Option<UserInfo>)
    requires CacheInv(w) && t in w.callbacks.at && Grows(w, NextCallback(w, t, ok, info))
    ensures CacheInv(NextCallback(w, t, ok, info))
  {
    hide NextCallback, First, Grows, CacheInv, Effect;
    var w' := NextCallback(w, t, ok, info);
    CallbackFrame(w, t, ok, info);
    forall u | u in w.db.users && u in w'.db.users && 0 < u
      ensures Effect(w, w', u)
    {
      CallbackEffect(w, t, ok, info, u);
    }
    EffectsKeep(w, w');
  }

  lemma CreatorKeepsCache(w: World, t: nat, ok: bool, name: string)
    requires TableInv(w) && CacheInv(w) && t in w.creators.at && Grows(w, NextCreator(w, t, ok, name))
    ensures CacheInv(NextCreator(w, t, ok, name))
  {
    hide NextCreator, First, Grows, CacheInv, Effect, TxOk;
    var w' := NextCreator(w, t, ok, name);
    CreatorFrame(w, t, ok, name);
    forall u | u in w.db.users && u in w'.db.users && 0 < u
      ensures Effect(w, w', u)
    {
      CreatorEffect(w, t, ok, name, u);
    }
    EffectsKeep(w, w');
  }

  /** Every step keeps the cache invariant. */
  lemma {:induction false} NextKeepsCache(w: World, a: Act)
    requires TableInv(w) && CacheInv(w)
    ensures CacheInv(Next(w, a))
  {
    hide NextReader, NextUpdater, NextCallback, NextLookup, NextCreator, SelectEmail, MappingFor, TableInv, CacheInv;
    var w' := Next(w, a);
    NextGrows(w, a);
    NextFrame(w, a);
    hide Grows, RowsGrow;
    if Idle(w, a) {
    } else {
      match a {
        case ReaderAct(t, ok) => ReaderKeeps(w, t, ok);
        case SpawnReader(t, u) => SpawnReaderKeeps(w, t, u);
        case UpdaterAct(t, ok) => UpdaterKeepsCache(w, t, ok);
        case CallbackAct(t, ok, info) => CallbackKeepsCache(w, t, ok, info);
        case CreatorAct(t, ok, name) => CreatorKeepsCache(w, t, ok, name);
        case _ => QuietKeeps(w, w');
      }
    }
  }

  lemma SpawnReaderKeeps(w: World, t: nat, u: int)
    requires CacheInv(w) && t !in w.readers.at && Grows(w, Next(w, SpawnReader(t, u)))
    ensures CacheInv(Next(w, SpawnReader(t, u)))
  {
    hide First, JoinedFrom;
    var w' := Next(w, SpawnReader(t, u));
    forall s | s in w'.readers.at ensures ReaderOk(w', w'.readers.at[s]) {
      if s != t { ReaderStable(w, w', w.readers.at[s]); }
    }
    forall v | v in w'.redis.profiles
      ensures EntryOk(w', v, w'.redis.profiles[v]) && Explained(w', v, w'.redis.profiles[v])
    {
      EntryStable(w, w', v, w.redis.profiles[v]);
    }
  }

  /** Steps that touch neither rows nor the threads that delete entries. */
  lemma QuietKeeps(w: World, w': World)
    requires CacheInv(w) && Grows(w, w') && w'.readers.at == w.readers.at && w'.db.users == w.db.users
    requires forall t | t in w.updaters.at :: t in w'.updaters.at && w'.updaters.at[t] == w.updaters.at[t]
    requires forall t | t in w.callbacks.at :: t in w'.callbacks.at && w'.callbacks.at[t] == w.callbacks.at[t]
    requires w'.redis.profiles.Keys <= w.redis.profiles.Keys
    requires forall u | u in w'.redis.profiles :: w'.redis.profiles[u] == w.redis.profiles[u]
    ensures CacheInv(w')
  {
    hide First, CacheInv;
    EffectsKeep(w, w');
  }
}
