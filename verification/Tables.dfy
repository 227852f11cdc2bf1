/** What every step keeps about the two tables and the open transactions. */
module Tables {
  import opened Model
  import opened Text
  import opened ProfileUpdate
  import opened World
  import opened MappingTable
  import opened KycEmail
  import opened ClerkEmail
  import opened StateStore

  // ----- The invariant -----

  predicate MarketOk(market: string) {
    market == "" || (IsValidMarket(market) && TrimSpace(market) == market)
  }

  /** One row state: its identity and creation time never change, and a state that changed
      the market was written by a handler that had read an empty market. */
  ghost predicate RevOk(revs: Revs, k: nat, u: int, now: int)
    requires k < |revs|
  {
    && revs[k].row.id == u && revs[k].row.createdAt == revs[0].row.createdAt && revs[k].at <= now
    && MarketOk(revs[k].row.market)
    && (k > 0 ==>
          && revs[k - 1].at <= revs[k].at && revs[k].seen < k
          && revs[k].write != Inserted && revs[k].row == ApplyWrite(revs[k - 1].row, revs[k].write)
          && (revs[k].row.market != revs[k - 1].row.market ==> revs[revs[k].seen].row.market == ""))
  }

  ghost predicate RowOk(w: World, u: int)
    requires u in w.db.users
  {
    0 < u < w.db.nextUser && forall k: nat | k < |w.db.users[u]| :: RevOk(w.db.users[u], k, u, w.now)
  }

  ghost predicate MappingOk(w: World, i: int)
    requires i in w.db.mappings
  {
    0 <= i < w.db.nextMapping && w.db.mappings[i].id == i && w.db.mappings[i].internalUserId < w.db.nextUser
  }

  /** Rows of an open transaction are fresh. */
  ghost predicate TxOk(w: World, c: Creator) {
    && (c.Open() ==>
          && 0 < c.user.id < w.db.nextUser && c.user.id !in w.db.users
          && c.user.market == "" && c.user.createdAt <= w.now
          && forall i | i in w.db.mappings :: w.db.mappings[i].internalUserId != c.user.id)
    && (c.Holds() ==>
          && 0 <= c.mapping.id < w.db.nextMapping && c.mapping.id !in w.db.mappings
          && c.mapping.internalUserId == c.user.id
          && forall i | i in w.db.mappings :: !SameKey(w.db.mappings[i], c.mapping))
  }

  ghost predicate TxApart(c: Creator, d: Creator) {
    && (c.Open() && d.Open() ==> c.user.id != d.user.id)
    && (c.Holds() && d.Holds() ==> c.mapping.id != d.mapping.id && !SameKey(c.mapping, d.mapping))
  }

  /** A market about to be written was chosen because the row state read had none. */
  ghost predicate UpdaterOk(w: World, c: Updater) {
    c.UWrite? ==>
      && c.userId in w.db.users && c.seen < |w.db.users[c.userId]|
      && (c.patch.market != "" ==> MarketOk(c.patch.market) && w.db.users[c.userId][c.seen].row.market == "")
  }

  ghost predicate TableInv(w: World) {
    && 0 < w.db.nextUser
    && (forall u | u in w.db.users :: RowOk(w, u))
    && (forall i | i in w.db.mappings :: MappingOk(w, i))
    && UniqueClerk(w.db.mappings)
    && (forall t | t in w.creators.at :: TxOk(w, w.creators.at[t]))
    && (forall s, t | s in w.creators.at && t in w.creators.at && s != t :: TxApart(w.creators.at[s], w.creators.at[t]))
    && (forall t | t in w.updaters.at :: UpdaterOk(w, w.updaters.at[t]))
  }

  // ----- What every step leaves in place -----

  /** Rows only gain states, mappings only gain rows, and nothing once readable changes. */
  ghost predicate Grows(w: World, w': World) {
    && Advances(w, w')
    && (forall u | u in w.db.users ::
          u in w'.db.users && w.db.users[u] <= w'.db.users[u] && MappingOf(w', u) == MappingOf(w, u))
    && (forall u, k: nat | u in w.db.users && |w.db.users[u]| <= k < |w'.db.users[u]| :: w.now <= w'.db.users[u][k].at)
    && (forall i | i in w.db.mappings :: i in w'.db.mappings && w'.db.mappings[i] == w.db.mappings[i])
    && (forall c :: MappingFor(w, c).Some? ==> MappingFor(w', c) == MappingFor(w, c))
  }

  /** While the table does not change, neither do the answers. */
  lemma QueriesStable(w: World, w': World)
    requires TableInv(w) && w'.db.mappings == w.db.mappings && w.db.nextMapping <= w'.db.nextMapping
    ensures forall u :: MappingOf(w', u) == MappingOf(w, u)
    ensures forall c :: MappingFor(w', c) == MappingFor(w, c)
  {
    forall i | i in w.db.mappings ensures 0 <= i < w.db.nextMapping { assert MappingOk(w, i); }
    hide TableInv, Collate;
    forall u ensures MappingOf(w', u) == MappingOf(w, u) {
      FirstStable(w.db.mappings, w.db.nextMapping, w'.db.mappings, w'.db.nextMapping, ByUser(u));
    }
    forall c ensures MappingFor(w', c) == MappingFor(w, c) {
      FirstStable(w.db.mappings, w.db.nextMapping, w'.db.mappings, w'.db.nextMapping, ByClerk(c));
    }
  }

  /** A step that inserts no mapping and only appends row states. */
  lemma AppendGrows(w: World, w': World)
    requires TableInv(w) && w'.db.mappings == w.db.mappings && RowsGrow(w.db.users, w'.db.users, w.now)
    requires Advances(w, w')
    ensures Grows(w, w')
  {
    QueriesStable(w, w');
    hide TableInv, MappingOf, MappingFor;
  }

  /** A committed row answers no query that had an answer before. */
  lemma CommitAnswers(w: World, t: nat, name: string)
    requires TableInv(w) && t in w.creators.at && w.creators.at[t].CCommit?
    ensures var w' := NextCreator(w, t, true, name);
            && (forall u | u in w.db.users :: MappingOf(w', u) == MappingOf(w, u))
            && (forall k | MappingFor(w, k).Some? :: MappingFor(w', k) == MappingFor(w, k))
  {
    hide ByClerk;
    var w' := NextCreator(w, t, true, name);
    var c := w.creators.at[t];
    assert TxOk(w, c);
    forall i | i in w.db.mappings ensures 0 <= i < w.db.nextMapping { assert MappingOk(w, i); }
    forall u | u in w.db.users ensures MappingOf(w', u) == MappingOf(w, u) {
      FirstStable(w.db.mappings, w.db.nextMapping, w'.db.mappings, w'.db.nextMapping, ByUser(u));
    }
    forall k | MappingFor(w, k).Some? ensures MappingFor(w', k) == MappingFor(w, k) {
      FoundElsewhere(w.db.mappings, w.db.nextMapping, c.mapping, k);
      FirstStable(w.db.mappings, w.db.nextMapping, w'.db.mappings, w'.db.nextMapping, ByClerk(k));
    }
  }

  lemma CommitGrows(w: World, t: nat, name: string)
    requires TableInv(w) && t in w.creators.at && w.creators.at[t].CCommit?
    ensures Grows(w, NextCreator(w, t, true, name))
  {
    CommitAnswers(w, t, name);
    assert TxOk(w, w.creators.at[t]);
    hide TableInv, TxOk, MappingOf, MappingFor;
  }

  lemma {:induction false} NextGrows(w: World, a: Act)
    requires TableInv(w)
    ensures Grows(w, Next(w, a))
  {
    NextFrame(w, a);
    hide TableInv, Grows, RowsGrow;
    if a.CreatorAct? && Commits(w, a, a.t) {
      CommitGrows(w, a.t, a.name);
    } else {
      hide Next;
      AppendGrows(w, Next(w, a));
    }
  }

  // ----- Preservation -----

  /** Time may pass and the other parts of the state may change. */
  lemma OtherStepsKeep(w: World, w': World)
    requires TableInv(w) && w.now <= w'.now
    requires w'.db.users == w.db.users && w'.db.mappings == w.db.mappings
    requires w'.db.nextUser == w.db.nextUser && w'.db.nextMapping == w.db.nextMapping
    requires w'.creators.at == w.creators.at && w'.updaters.at == w.updaters.at
    ensures TableInv(w')
  {
    hide ApplyWrite, MarketOk, Fold;
    forall u | u in w'.db.users ensures RowOk(w', u) {
      assert RowOk(w, u);
      forall k: nat | k < |w'.db.users[u]| ensures RevOk(w'.db.users[u], k, u, w'.now) {
        assert RevOk(w.db.users[u], k, u, w.now);
      }
    }
    forall i | i in w'.db.mappings ensures MappingOk(w', i) { assert MappingOk(w, i); }
    forall t | t in w'.creators.at ensures TxOk(w', w'.creators.at[t]) { assert TxOk(w, w.creators.at[t]); }
    forall t | t in w'.updaters.at ensures UpdaterOk(w', w'.updaters.at[t]) { assert UpdaterOk(w, w.updaters.at[t]); }
  }

  /** The conditions under which an UPDATE keeps the row chain. */
  ghost predicate WriteOk(w: World, u: int, write: Write, seen: nat) {
    u in w.db.users ==>
      && seen < |w.db.users[u]| && write != Inserted
      && MarketOk(ApplyWrite(Row(w.db.users[u]), write).market)
      && (ApplyWrite(Row(w.db.users[u]), write).market != Row(w.db.users[u]).market ==>
            w.db.users[u][seen].row.market == "")
  }

  lemma UpdateKeeps(w: World, u: int, write: Write, seen: nat)
    requires TableInv(w) && WriteOk(w, u, write, seen)
    ensures TableInv(w.(db := w.db.(users := Update(w, u, write, seen))))
  {
    hide MarketOk, Fold;
    if u in w.db.users {
      var w' := w.(db := w.db.(users := Update(w, u, write, seen)));
      var revs, revs' := w.db.users[u], w'.db.users[u];
      assert RowOk(w, u);
      forall k: nat | k < |revs'| ensures RevOk(revs', k, u, w.now) {
        if k < |revs| {
          assert RevOk(revs, k, u, w.now);
        } else {
          assert RevOk(revs, |revs| - 1, u, w.now);
        }
      }
      forall v | v in w'.db.users ensures RowOk(w', v) { assert RowOk(w, v); }
      forall i | i in w'.db.mappings ensures MappingOk(w', i) { assert MappingOk(w, i); }
      forall t | t in w'.creators.at ensures TxOk(w', w'.creators.at[t]) { assert TxOk(w, w.creators.at[t]); }
      forall t | t in w'.updaters.at ensures UpdaterOk(w', w'.updaters.at[t]) { assert UpdaterOk(w, w.updaters.at[t]); }
    }
  }

  /** Only one updater's program counter changes. */
  lemma UpdaterMoves(w: World, t: nat, c: Updater)
    requires TableInv(w) && UpdaterOk(w, c)
    ensures TableInv(w.(updaters := w.updaters.Put(t, c)))
  {
    hide MarketOk, Fold, ApplyWrite;
    var w' := w.(updaters := w.updaters.Put(t, c));
    forall u | u in w'.db.users ensures RowOk(w', u) { assert RowOk(w, u); }
    forall i | i in w'.db.mappings ensures MappingOk(w', i) { assert MappingOk(w, i); }
    forall s | s in w'.creators.at ensures TxOk(w', w'.creators.at[s]) { assert TxOk(w, w.creators.at[s]); }
    forall s | s in w'.updaters.at ensures UpdaterOk(w', w'.updaters.at[s]) {
      if s != t { assert UpdaterOk(w, w.updaters.at[s]); }
    }
  }

  lemma PatchMarket(market: string, req: Request)
    ensures var r := BuildPatch(market, req);
            r.Ok? && r.value.Some? && r.value.value.market != "" ==>
              MarketOk(r.value.value.market) && TrimSpace(market) == ""
  {
    hide IsOneOf, TrimSpace;
    assert TrimSpace(TrimSpace(req.market)) == TrimSpace(req.market);
  }

  lemma UpdaterKeeps(w: World, t: nat, ok: bool)
    requires TableInv(w) && t in w.updaters.at
    ensures TableInv(NextUpdater(w, t, ok))
  {
    hide BuildPatch, TrimSpace, IsOneOf;
    assert UpdaterOk(w, w.updaters.at[t]);
    match w.updaters.at[t] {
      case UGet(u, req) =>
        if ok && u in w.db.users {
          var revs := w.db.users[u];
          assert RowOk(w, u) && RevOk(revs, Top(revs), u, w.now);
          PatchMarket(Row(revs).market, req);
          assert UpdaterOk(w, NextUpdater(w, t, ok).updaters.at[t]);
        }
        UpdaterMoves(w, t, NextUpdater(w, t, ok).updaters.at[t]);
      case UWrite(u, p, seen) =>
        if ok {
          var w1 := w.(db := w.db.(users := Update(w, u, SetProfile(p), seen)));
          assert RowOk(w, u) && RevOk(w.db.users[u], Top(w.db.users[u]), u, w.now);
          UpdateKeeps(w, u, SetProfile(p), seen);
          UpdaterMoves(w1, t, NextUpdater(w, t, ok).updaters.at[t]);
        } else {
          UpdaterMoves(w, t, NextUpdater(w, t, ok).updaters.at[t]);
        }
      case UDel(u, _) =>
        UpdaterMoves(w, t, UDone(None));
        OtherStepsKeep(w.(updaters := w.updaters.Put(t, UDone(None))), NextUpdater(w, t, ok));
      case UDone(_) =>
    }
  }

  lemma KycWriteKeeps(w: World, u: int, status: string)
    requires TableInv(w)
    ensures TableInv(w.(db := w.db.(users := Update(w, u, SetKyc(status), LastVer(w, u)))))
  {
    hide MarketOk;
    if u in w.db.users {
      assert RowOk(w, u) && RevOk(w.db.users[u], Top(w.db.users[u]), u, w.now);
    }
    UpdateKeeps(w, u, SetKyc(status), LastVer(w, u));
  }

  lemma CallbackKeeps(w: World, t: nat, ok: bool, info: Option<UserInfo>)
    requires TableInv(w) && t in w.callbacks.at
    ensures TableInv(NextCallback(w, t, ok, info))
  {
    hide EmailsMatchForKyc, Consumable, Mark, TableInv, KycStatusOf;
    var w' := NextCallback(w, t, ok, info);
    match w.callbacks.at[t] {
      case KWrite(c, got) =>
        if ok {
          KycWriteKeeps(w, PendingOf(w, c).internalUserId, KycStatusOf(got));
          OtherStepsKeep(w.(db := w.db.(users := w'.db.users)), w');
        } else {
          OtherStepsKeep(w, w');
        }
      case KConsume(state) => if Consumable(w.store.log, state, w.now).Some? {} OtherStepsKeep(w, w');
      case KToken(_) => OtherStepsKeep(w, w');
      case KInfo(_) => OtherStepsKeep(w, w');
      case KDel(_, _, _) => OtherStepsKeep(w, w');
      case KPub(_) => OtherStepsKeep(w, w');
      case KDone(_) =>
    }
  }

  /** Only one creator's program counter changes, and the counters may advance. */
  lemma CreatorMoves(w: World, t: nat, c: Creator, nextUser: int, nextMapping: nat)
    requires TableInv(w) && w.db.nextUser <= nextUser && w.db.nextMapping <= nextMapping
    requires TxOk(w.(db := w.db.(nextUser := nextUser, nextMapping := nextMapping)), c)
    requires forall s | s in w.creators.at && s != t :: TxApart(w.creators.at[s], c) && TxApart(c, w.creators.at[s])
    ensures TableInv(w.(db := w.db.(nextUser := nextUser, nextMapping := nextMapping),
                        creators := w.creators.Put(t, c)))
  {
    hide MarketOk, Fold, ApplyWrite;
    var w' := w.(db := w.db.(nextUser := nextUser, nextMapping := nextMapping), creators := w.creators.Put(t, c));
    forall u | u in w'.db.users ensures RowOk(w', u) { assert RowOk(w, u); }
    forall i | i in w'.db.mappings ensures MappingOk(w', i) { assert MappingOk(w, i); }
    forall s | s in w'.creators.at ensures TxOk(w', w'.creators.at[s]) {
      if s != t { assert TxOk(w, w.creators.at[s]); }
    }
    forall s | s in w'.updaters.at ensures UpdaterOk(w', w'.updaters.at[s]) { assert UpdaterOk(w, w.updaters.at[s]); }
  }

  /** A move that opens nothing new. */
  lemma CreatorStays(w: World, t: nat, c: Creator)
    requires TableInv(w) && t in w.creators.at
    requires c.Open() ==> w.creators.at[t].Open() && c.user == w.creators.at[t].user
    requires c.Holds() ==> w.creators.at[t].Holds() && c.mapping == w.creators.at[t].mapping
    ensures TableInv(w.(creators := w.creators.Put(t, c)))
  {
    hide Fold;
    assert TxOk(w, w.creators.at[t]);
    forall s | s in w.creators.at && s != t ensures TxApart(w.creators.at[s], c) && TxApart(c, w.creators.at[s]) {
      assert TxApart(w.creators.at[s], w.creators.at[t]);
    }
    CreatorMoves(w, t, c, w.db.nextUser, w.db.nextMapping);
  }

  lemma InsertUserKeeps(w: World, t: nat, name: string)
    requires TableInv(w) && t in w.creators.at && w.creators.at[t].CUser?
    ensures TableInv(NextCreator(w, t, true, name))
  {
    var c := NextCreator(w, t, true, name).creators.at[t];
    forall i | i in w.db.mappings ensures w.db.mappings[i].internalUserId != c.user.id { assert MappingOk(w, i); }
    forall u | u in w.db.users ensures u != c.user.id { assert RowOk(w, u); }
    forall s | s in w.creators.at && s != t ensures TxApart(w.creators.at[s], c) && TxApart(c, w.creators.at[s]) {
      assert TxOk(w, w.creators.at[s]);
    }
    CreatorMoves(w, t, c, w.db.nextUser + 1, w.db.nextMapping);
  }

  lemma InsertMappingKeeps(w: World, t: nat, name: string)
    requires TableInv(w) && t in w.creators.at && w.creators.at[t].CMapping?
    requires !KeyLocked(w, t, w.creators.at[t].clerk) && MappingFor(w, w.creators.at[t].clerk).None?
    ensures TableInv(NextCreator(w, t, true, name))
  {
    hide Fold;
    var was := w.creators.at[t];
    var c := NextCreator(w, t, true, name).creators.at[t];
    assert TxOk(w, was);
    forall i | i in w.db.mappings ensures !SameKey(w.db.mappings[i], c.mapping) && i != w.db.nextMapping {
      assert MappingOk(w, i) && !ByClerk(was.clerk)(w.db.mappings[i]);
    }
    forall s | s in w.creators.at && s != t ensures TxApart(w.creators.at[s], c) && TxApart(c, w.creators.at[s]) {
      assert TxOk(w, w.creators.at[s]) && TxApart(w.creators.at[s], was) && TxApart(was, w.creators.at[s]);
    }
    CreatorMoves(w, t, c, w.db.nextUser, w.db.nextMapping + 1);
  }

  lemma CommitKeeps(w: World, t: nat, name: string)
    requires TableInv(w) && t in w.creators.at && w.creators.at[t].CCommit?
    ensures TableInv(NextCreator(w, t, true, name))
  {
    hide Fold, ApplyWrite, First, IsOneOf, TrimSpace;
    var c := w.creators.at[t];
    var w' := NextCreator(w, t, true, name);
    assert TxOk(w, c);
    forall u | u in w'.db.users ensures RowOk(w', u) {
      if u != c.user.id { assert RowOk(w, u); }
    }
    forall i | i in w'.db.mappings ensures MappingOk(w', i) {
      if i != c.mapping.id { assert MappingOk(w, i); }
    }
    forall s | s in w'.creators.at ensures TxOk(w', w'.creators.at[s]) {
      if s != t { assert TxOk(w, w.creators.at[s]) && TxApart(w.creators.at[s], c); }
    }
    forall s | s in w'.updaters.at ensures UpdaterOk(w', w'.updaters.at[s]) {
      assert UpdaterOk(w, w.updaters.at[s]);
    }
  }

  lemma CreatorKeeps(w: World, t: nat, ok: bool, name: string)
    requires TableInv(w) && t in w.creators.at
    ensures TableInv(NextCreator(w, t, ok, name))
  {
    hide Fold, First, LookupStep;
    var w' := NextCreator(w, t, ok, name);
    match w.creators.at[t] {
      case CUser(_, _) => if ok { InsertUserKeeps(w, t, name); } else { CreatorStays(w, t, w'.creators.at[t]); }
      case CMapping(c, _, _) =>
        if !ok { CreatorStays(w, t, w'.creators.at[t]); }
        else if KeyLocked(w, t, c) {}
        else if MappingFor(w, c).Some? { CreatorStays(w, t, w'.creators.at[t]); }
        else { InsertMappingKeeps(w, t, name); }
      case CCommit(_, _) => if ok { CommitKeeps(w, t, name); } else { CreatorStays(w, t, w'.creators.at[t]); }
      case CLook(l, _, _) =>
        if l.LDone? {} else if l.LFailed? {}
        CreatorStays(w, t, w'.creators.at[t]);
        OtherStepsKeep(w.(creators := w.creators.Put(t, w'.creators.at[t])), w');
      case CEmail(_, _) => CreatorStays(w, t, w'.creators.at[t]);
      case CDelBefore(_, _, _) =>
        CreatorStays(w, t, w'.creators.at[t]);
        OtherStepsKeep(w.(creators := w.creators.Put(t, w'.creators.at[t])), w');
      case CDelAfter(_, _) =>
        CreatorStays(w, t, w'.creators.at[t]);
        OtherStepsKeep(w.(creators := w.creators.Put(t, w'.creators.at[t])), w');
      case CInval(_) =>
        CreatorStays(w, t, w'.creators.at[t]);
        OtherStepsKeep(w.(creators := w.creators.Put(t, w'.creators.at[t])), w');
      case CPub(_) =>
        CreatorStays(w, t, w'.creators.at[t]);
        OtherStepsKeep(w.(creators := w.creators.Put(t, w'.creators.at[t])), w');
      case CDone(_) =>
    }
  }

  /** Every step of every handler keeps the table invariant. */
  lemma {:induction false} NextKeepsTables(w: World, a: Act)
    requires TableInv(w)
    ensures TableInv(Next(w, a))
  {
    hide NextReader, NextUpdater, NextCallback, NextLookup, NextCreator, SelectEmail, TableInv, MappingFor;
    var w' := Next(w, a);
    NextFrame(w, a);
    hide RowsGrow;
    if Idle(w, a) {
    } else {
      match a {
        case UpdaterAct(t, ok) => UpdaterKeeps(w, t, ok);
        case CallbackAct(t, ok, info) => CallbackKeeps(w, t, ok, info);
        case CreatorAct(t, ok, name) => CreatorKeeps(w, t, ok, name);
        case SpawnUpdater(t, _, _) => UpdaterMoves(w, t, w'.updaters.at[t]);
        case SpawnCreator(t, _) => CreatorMoves(w, t, w'.creators.at[t], w.db.nextUser, w.db.nextMapping);
        case _ => hide Next; OtherStepsKeep(w, w');
      }
    }
  }
}
