/** The KYC status a row stores, and how it relates to the last write and the last event. */
module Statuses {
  import opened Model
  import opened World
  import opened MappingTable
  import opened Tables
  import opened StateStore
  import opened KycEmail
  import opened ClerkEmail
  import opened RowWrites
  import opened Kyc

  /** The index of the last element that satisfies `p`. */
  function LastOf<T(!new)>(xs: seq<T>, p: T -> bool): (i: Option<nat>)
    ensures i.Some? ==> i.value < |xs| && p(xs[i.value]) && forall j | i.value < j < |xs| :: !p(xs[j])
    ensures i.None? ==> forall j | 0 <= j < |xs| :: !p(xs[j])
  {
    if xs == [] then None
    else if p(xs[|xs| - 1]) then Some(|xs| - 1)
    else LastOf(xs[..|xs| - 1], p)
  }

  function WriteTo(u: int): KycWrite -> bool { (x: KycWrite) => x.userId == u }

  function EventOf(u: int): KycEvent -> bool { (e: KycEvent) => e.userId == u }

  lemma LastOfSnoc<T(!new)>(xs: seq<T>, x: T, p: T -> bool)
    ensures LastOf(xs + [x], p) == if p(x) then Some(|xs|) else LastOf(xs, p)
  {
    assert (xs + [x])[..|xs|] == xs;
  }

  lemma {:induction false} LastOfPrefix<T(!new)>(xs: seq<T>, ys: seq<T>, p: T -> bool)
    requires xs <= ys && forall j | |xs| <= j < |ys| :: !p(ys[j])
    ensures LastOf(ys, p) == LastOf(xs, p)
  {
    if |xs| < |ys| { LastOfPrefix(xs, ys[..|ys| - 1], p); } else { assert xs == ys; }
  }

  // ----- The stored status -----

  /** The row of `u` stores what the last write for `u` wrote, if `u` had a row by then, or
      else what the row started with. */
  ghost predicate StoredOk(w: World, u: int)
    requires u in w.db.users
  {
    var k := LastOf(w.history.kycWrites, WriteTo(u));
    Row(w.db.users[u]).kycStatus ==
    if k.Some? && w.history.kycWrites[k.value].landed then w.history.kycWrites[k.value].status
    else w.db.users[u][0].row.kycStatus
  }

  /** Once a user has a row, its writes land. */
  ghost predicate LandedStays(ws: seq<KycWrite>) {
    forall i, j | 0 <= i < j < |ws| && ws[i].userId == ws[j].userId && ws[i].landed :: ws[j].landed
  }

  ghost predicate StoredInv(w: World) {
    && (forall x | x in w.history.kycWrites && x.landed :: x.userId in w.db.users)
    && LandedStays(w.history.kycWrites)
    && (forall u | u in w.db.users :: StoredOk(w, u))
  }

  /** This step records `x`, or nothing, and performs exactly that KYC statement. */
  ghost predicate Records(w: World, w': World, a: Act, x: Option<KycWrite>) {
    match x
    case None =>
      w'.history.kycWrites == w.history.kycWrites && forall u :: StatementOn(w, a, u) != None ==>
          StatementOn(w, a, u).value.SetProfile?
    case Some(x) =>
      && w'.history.kycWrites == w.history.kycWrites + [x] && x.landed == (x.userId in w.db.users)
      && forall u :: StatementOn(w, a, u) == if u == x.userId then Some(SetKyc(x.status)) else None
  }

  lemma NextRecords(w: World, a: Act) returns (x: Option<KycWrite>)
    ensures Records(w, Next(w, a), a, x)
  {
    NextFrame(w, a);
    hide NextCallback, KycStatusOf, PendingOf, RowsGrow;
    x := None;
    if a.CallbackAct? && !Idle(w, a) {
      x := CallbackRecords(w, a.t, a.ok, a.info);
    } else {
      hide Next;
    }
  }

  lemma CallbackRecords(w: World, t: nat, ok: bool, info: Option<UserInfo>) returns (x: Option<KycWrite>)
    requires t in w.callbacks.at
    ensures Records(w, NextCallback(w, t, ok, info), CallbackAct(t, ok, info), x)
  {
    hide KycStatusOf, PendingOf, EmailsMatchForKyc, Consumable, Mark, Update;
    x := None;
    match w.callbacks.at[t] {
      case KWrite(c, got) =>
        if ok {
          var u := PendingOf(w, c).internalUserId;
          x := Some(KycWrite(u, KycStatusOf(got), c, got, u in w.db.users));
        }
      case KConsume(state) => if Consumable(w.store.log, state, w.now).Some? {}
      case _ =>
    }
  }

  lemma RecordKeepsStored(w: World, w': World, a: Act, x: Option<KycWrite>, u: int)
    requires Records(w, w', a, x) && StoredInv(w) && u in w.db.users && u in w'.db.users
             && w.db.users[u] <= w'.db.users[u]
    requires Row(w'.db.users[u]) == if StatementOn(w, a, u).None? then Row(w.db.users[u])
                                    else ApplyWrite(Row(w.db.users[u]), StatementOn(w, a, u).value)
    ensures StoredOk(w', u)
  {
    hide StatementOn, LastOf;
    assert StoredOk(w, u) && w'.db.users[u][0] == w.db.users[u][0];
    if x.Some? { LastOfSnoc(w.history.kycWrites, x.value, WriteTo(u)); }
  }

  /** Every step keeps the stored statuses. */
  lemma NextKeepsStored(w: World, a: Act)
    requires TableInv(w) && StoredInv(w)
    ensures StoredInv(Next(w, a))
  {
    var w' := Next(w, a);
    NextGrows(w, a);
    NewUserIsInserted(w, a);
    hide Next, TableInv, StoredOk, StatementOn, MappingOf, MappingFor;
    var x := NextRecords(w, a);
    forall u | u in w'.db.users ensures StoredOk(w', u) {
      if u in w.db.users {
        NextWrites(w, a, u);
        RecordKeepsStored(w, w', a, x, u);
      } else {
        NewKeepsStored(w, w', u);
      }
    }
  }

  /** A user that appears has one row state, and nobody has recorded anything. */
  lemma NewUserIsInserted(w: World, a: Act)
    requires TableInv(w)
    ensures forall u | u in Next(w, a).db.users && u !in w.db.users ::
              |Next(w, a).db.users[u]| == 1 && Next(w, a).history.kycWrites == w.history.kycWrites
  {
    NextFrame(w, a);
    hide NextReader, NextUpdater, NextCallback, MappingFor, TableInv;
    if a.CreatorAct? && Commits(w, a, a.t) {} else { hide Next; }
  }

  lemma NewKeepsStored(w: World, w': World, u: int)
    requires StoredInv(w) && u !in w.db.users && u in w'.db.users && |w'.db.users[u]| == 1
    requires w'.history.kycWrites == w.history.kycWrites
    ensures StoredOk(w', u)
  {
    hide LastOf;
  }

  // ----- Users start pending -----

  /** Users other than the `known` ones began as PENDING. */
  ghost predicate PendingInv(w: World, known: set<int>) {
    && (forall u | u in w.db.users && u !in known :: w.db.users[u][0].row.kycStatus == KYC_PENDING)
    && (forall t | t in w.creators.at && w.creators.at[t].Open() :: w.creators.at[t].user.kycStatus == KYC_PENDING)
  }

  /** Rows only gain states and no transaction is opened. */
  lemma QuietKeepsPending(w: World, w': World, known: set<int>)
    requires PendingInv(w, known) && RowsGrow(w.db.users, w'.db.users, w.now)
    requires forall t | t in w'.creators.at && w'.creators.at[t].Open() ::
               t in w.creators.at && w'.creators.at[t] == w.creators.at[t]
    ensures PendingInv(w', known)
  {
    forall u | u in w'.db.users && u !in known ensures w'.db.users[u][0].row.kycStatus == KYC_PENDING {
      assert w.db.users[u] <= w'.db.users[u];
    }
  }

  lemma CreatorKeepsPending(w: World, t: nat, ok: bool, name: string, known: set<int>)
    requires PendingInv(w, known) && t in w.creators.at
    ensures PendingInv(NextCreator(w, t, ok, name), known)
  {
    hide First, Collate, LookupStep, KeyLocked, MappingFor, DeleteProfile, DeleteMapping, Lost, LookupCache;
    match w.creators.at[t] {
      case CLook(l, _, _) => if l.LDone? {} else if l.LFailed? {}
      case CUser(_, _) => if ok {}
      case CMapping(c, _, _) => if !ok {} else if KeyLocked(w, t, c) {} else if MappingFor(w, c).Some? {}
      case CCommit(_, _) => if ok {}
      case _ =>
    }
  }

  /** Every step keeps it so. */
  lemma NextKeepsPending(w: World, a: Act, known: set<int>)
    requires PendingInv(w, known)
    ensures PendingInv(Next(w, a), known)
  {
    hide NextReader, NextUpdater, NextCallback, NextLookup, NextCreator, SelectEmail, PendingInv, LogSave, MappingFor;
    NextFrame(w, a);
    hide RowsGrow;
    if Idle(w, a) {
    } else {
      match a {
        case CreatorAct(t, ok, name) => CreatorKeepsPending(w, t, ok, name, known);
        case SpawnCreator(_, _) => QuietKeepsPending(w, Next(w, a), known);
        case _ => hide Next; QuietKeepsPending(w, Next(w, a), known);
      }
    }
  }

  // ----- The order of events -----

  /** A callback that has written for `u` and not yet published. */
  predicate OwingFor(w: World, c: Callback, u: int) {
    Owing(c) && c.write < |w.history.kycWrites| && w.history.kycWrites[c.write].userId == u
  }

  /** Once the last write for `u` is one of those from `n` on, only its own callback may owe an
      event for `u`; and when it is published, its event is the last one of `u`. */
  ghost predicate OrderInv(w: World, u: int, n: nat) {
    var k := LastOf(w.history.kycWrites, WriteTo(u));
    k.Some? && n <= k.value ==>
      && (forall t | t in w.callbacks.at && OwingFor(w, w.callbacks.at[t], u) :: w.callbacks.at[t].write == k.value)
      && PublishedLast(w, u, k.value)
  }

  ghost predicate PublishedLast(w: World, u: int, k: nat) {
    var e := LastOf(w.topics.kyc, EventOf(u));
    forall f | f in w.topics.kyc && f.write == k :: e.Some? && w.topics.kyc[e.value].write == k
  }

  /** This action writes the status of `u` while another callback is between its write for
      `u` and its publish. */
  ghost predicate Overtakes(w: World, a: Act, u: int) {
    a.CallbackAct? && StatementOn(w, a, u).Some?
    && exists s | s in w.callbacks.at :: s != a.t && OwingFor(w, w.callbacks.at[s], u)
  }

  lemma WriteKeepsOrder(w: World, t: nat, info: Option<UserInfo>, u: int, n: nat)
    requires KycInv(w) && OrderInv(w, u, n) && t in w.callbacks.at && w.callbacks.at[t].KWrite?
    requires !Overtakes(w, CallbackAct(t, true, info), u)
    ensures OrderInv(NextCallback(w, t, true, info), u, n)
  {
    hide KycStatusOf, Update, LastOf, EmailAccepted;
    var w' := NextCallback(w, t, true, info);
    var x := w'.history.kycWrites[|w.history.kycWrites|];
    assert w'.history.kycWrites == w.history.kycWrites + [x];
    LastOfSnoc(w.history.kycWrites, x, WriteTo(u));
    forall s | s in w'.callbacks.at && s != t
      ensures OwingFor(w', w'.callbacks.at[s], u) ==> OwingFor(w, w.callbacks.at[s], u)
    {
      assert CallbackOk(w, w.callbacks.at[s]);
    }
    forall f | f in w.topics.kyc ensures f.write < |w.history.kycWrites| { assert EventTraces(w, f); }
    hide KycInv, PendingOf;
    if x.userId == u {
      assert StatementOn(w, CallbackAct(t, true, info), u).Some?;
    } else {
      assert !OwingFor(w', w'.callbacks.at[t], u);
    }
  }

  lemma PublishKeepsOrder(w: World, t: nat, info: Option<UserInfo>, u: int, n: nat)
    requires KycInv(w) && OrderInv(w, u, n) && t in w.callbacks.at && w.callbacks.at[t].KPub?
    ensures OrderInv(NextCallback(w, t, true, info), u, n)
  {
    assert CallbackOk(w, w.callbacks.at[t]);
    hide LastOf, KycInv;
    var w' := NextCallback(w, t, true, info);
    var k := w.callbacks.at[t].write;
    var e := KycEvent(w.history.kycWrites[k].userId, w.history.kycWrites[k].status, k);
    assert w'.topics.kyc == w.topics.kyc + [e] && w'.callbacks == w.callbacks.Put(t, KDone(None));
    LastOfSnoc(w.topics.kyc, e, EventOf(u));
    if e.userId == u { assert OwingFor(w, w.callbacks.at[t], u); }
    hide NextCallback;
  }

  /** One callback moves; what it owes, it owed before. */
  lemma MoveKeepsOrder(w: World, w': World, t: nat, u: int, n: nat)
    requires OrderInv(w, u, n) && Moves(w.callbacks, w'.callbacks, t)
    requires w'.history.kycWrites == w.history.kycWrites && w'.topics.kyc == w.topics.kyc
    requires Owing(w'.callbacks.at[t]) ==>
               t in w.callbacks.at && Owing(w.callbacks.at[t]) && w'.callbacks.at[t].write == w.callbacks.at[t].write
    ensures OrderInv(w', u, n)
  {
    hide LastOf;
  }

  lemma SameKeepsOrder(w: World, w': World, u: int, n: nat)
    requires OrderInv(w, u, n) && w'.callbacks == w.callbacks
    requires w'.history.kycWrites == w.history.kycWrites && w'.topics.kyc == w.topics.kyc
    ensures OrderInv(w', u, n)
  {
    hide LastOf;
  }

  /** Every step but a successful write or publish. */
  lemma CallbackMoves(w: World, t: nat, ok: bool, info: Option<UserInfo>)
    requires t in w.callbacks.at && !(ok && (w.callbacks.at[t].KWrite? || w.callbacks.at[t].KPub?))
    ensures var w', c := NextCallback(w, t, ok, info), w.callbacks.at[t];
            && w'.history.kycWrites == w.history.kycWrites && w'.topics.kyc == w.topics.kyc
            && (Owing(w'.callbacks.at[t]) ==> Owing(c) && w'.callbacks.at[t].write == c.write)
  {
    hide EmailsMatchForKyc, KycStatusOf, Consumable, Mark, Update, PendingOf, DeleteProfile;
    match w.callbacks.at[t] {
      case KConsume(state) => if Consumable(w.store.log, state, w.now).Some? {}
      case _ =>
    }
  }

  lemma CallbackKeepsOrder(w: World, t: nat, ok: bool, info: Option<UserInfo>, u: int, n: nat)
    requires KycInv(w) && OrderInv(w, u, n) && t in w.callbacks.at && !Overtakes(w, CallbackAct(t, ok, info), u)
    ensures OrderInv(NextCallback(w, t, ok, info), u, n)
  {
    hide KycInv, OrderInv, Overtakes;
    if ok && w.callbacks.at[t].KWrite? {
      WriteKeepsOrder(w, t, info, u, n);
    } else if ok && w.callbacks.at[t].KPub? {
      PublishKeepsOrder(w, t, info, u, n);
    } else {
      CallbackMoves(w, t, ok, info);
      CallbackFrame(w, t, ok, info);
      hide NextCallback;
      MoveKeepsOrder(w, NextCallback(w, t, ok, info), t, u, n);
    }
  }

  /** While no write overtakes an event, every step keeps events in the order of writes. */
  lemma NextKeepsOrder(w: World, a: Act, u: int, n: nat)
    requires KycInv(w) && OrderInv(w, u, n) && !Overtakes(w, a, u)
    ensures OrderInv(Next(w, a), u, n)
  {
    hide NextCallback, KycInv, OrderInv, Overtakes;
    NextFrame(w, a);
    hide RowsGrow;
    if Idle(w, a) {
    } else {
      match a {
        case CallbackAct(t, ok, info) => CallbackKeepsOrder(w, t, ok, info, u, n);
        case SpawnCallback(t, _) => MoveKeepsOrder(w, Next(w, a), t, u, n);
        case _ => hide Next; SameKeepsOrder(w, Next(w, a), u, n);
      }
    }
  }
}
