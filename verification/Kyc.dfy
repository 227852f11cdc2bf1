/** The Singpass login and callback protocol under every interleaving: each KYC write traces
    to its own login, each published event to its own write. */
module Kyc {
  import opened Model
  import opened World
  import opened StateStore
  import opened KycEmail
  import opened ClerkEmail

  // ----- The invariant -----

  ghost predicate SaveOk(w: World, i: nat)
    requires i < |w.store.log| && i < |w.history.savedAt|
  {
    && w.store.log[i].state != "" && w.history.savedAt[i] <= w.now
    && w.store.log[i].pending.expiresAt == w.history.savedAt[i] + DEFAULT_KYC_STATE_TTL
  }

  /** A consume returned an existing save, between its saving and its expiry. */
  ghost predicate ConsumeOk(w: World, r: ConsumeRecord) {
    && r.save < |w.store.log| && r.save < |w.history.savedAt| && w.store.log[r.save].consumed
    && w.history.savedAt[r.save] <= r.at <= w.store.log[r.save].pending.expiresAt
  }

  ghost predicate EmailAccepted(pending: KycPending, info: UserInfo) {
    pending.email == "" || EmailsMatchForKyc(pending.email, info.email)
  }

  /** A write is for the user its consumed binding names, after the email check, and its status
      says whether Singpass returned a name. */
  ghost predicate WriteTraces(w: World, x: KycWrite) {
    && x.consume < |w.history.consumes|
    && x.userId == PendingOf(w, x.consume).internalUserId
    && x.status == KycStatusOf(x.info) && EmailAccepted(PendingOf(w, x.consume), x.info)
  }

  ghost predicate EventTraces(w: World, e: KycEvent) {
    && e.write < |w.history.kycWrites|
    && e.userId == w.history.kycWrites[e.write].userId && e.status == w.history.kycWrites[e.write].status
  }

  /** Past the consume and before the write. */
  predicate Holding(c: Callback) { c.KToken? || c.KInfo? || c.KWrite? }

  /** Past the write and before the publish. */
  predicate Owing(c: Callback) { c.KDel? || c.KPub? }

  ghost predicate CallbackOk(w: World, c: Callback) {
    && (Holding(c) ==> c.consume < |w.history.consumes|
                       && forall k | 0 <= k < |w.history.kycWrites| :: w.history.kycWrites[k].consume != c.consume)
    && (c.KWrite? ==> EmailAccepted(PendingOf(w, c.consume), c.info))
    && (Owing(c) ==> c.write < |w.history.kycWrites|
                     && forall k | 0 <= k < |w.topics.kyc| :: w.topics.kyc[k].write != c.write)
    && (c.KDel? ==> c.userId == w.history.kycWrites[c.write].userId)
  }

  ghost predicate CallbackApart(c: Callback, d: Callback) {
    && (Holding(c) && Holding(d) ==> c.consume != d.consume)
    && (Owing(c) && Owing(d) ==> c.write != d.write)
  }

  ghost predicate DistinctSaves(rs: seq<ConsumeRecord>) {
    forall i, j | 0 <= i < j < |rs| :: rs[i].save != rs[j].save
  }

  ghost predicate DistinctConsumes(xs: seq<KycWrite>) {
    forall i, j | 0 <= i < j < |xs| :: xs[i].consume != xs[j].consume
  }

  ghost predicate DistinctWrites(es: seq<KycEvent>) {
    forall i, j | 0 <= i < j < |es| :: es[i].write != es[j].write
  }

  ghost predicate KycInv(w: World) {
    && |w.history.savedAt| == |w.store.log|
    && (forall i: nat | i < |w.store.log| :: SaveOk(w, i))
    && (forall r | r in w.history.consumes :: ConsumeOk(w, r)) && DistinctSaves(w.history.consumes)
    && (forall x | x in w.history.kycWrites :: WriteTraces(w, x)) && DistinctConsumes(w.history.kycWrites)
    && (forall e | e in w.topics.kyc :: EventTraces(w, e)) && DistinctWrites(w.topics.kyc)
    && (forall t | t in w.callbacks.at :: CallbackOk(w, w.callbacks.at[t]))
    && (forall s, t | s in w.callbacks.at && t in w.callbacks.at && s != t ::
          CallbackApart(w.callbacks.at[s], w.callbacks.at[t]))
  }

  // ----- Preservation -----

  /** What the traces depend on only grows. */
  ghost predicate Extends(w: World, w': World) {
    && w.now <= w'.now
    && LogGrows(w.store.log, w'.store.log) && w.history.savedAt <= w'.history.savedAt
    && w.history.consumes <= w'.history.consumes && w.history.kycWrites <= w'.history.kycWrites
  }

  lemma TracesStable(w: World, w': World)
    requires KycInv(w) && Extends(w, w')
    ensures forall r | r in w.history.consumes :: ConsumeOk(w', r)
    ensures forall x | x in w.history.kycWrites :: WriteTraces(w', x)
    ensures forall e | e in w.topics.kyc :: EventTraces(w', e)
    ensures forall c: nat | c < |w.history.consumes| :: PendingOf(w', c) == PendingOf(w, c)
  {
    hide EmailAccepted, KycStatusOf;
    forall c: nat | c < |w.history.consumes| ensures PendingOf(w', c) == PendingOf(w, c) {
      assert ConsumeOk(w, w.history.consumes[c]);
    }
    forall r | r in w.history.consumes ensures ConsumeOk(w', r) { assert ConsumeOk(w, r); }
    forall x | x in w.history.kycWrites ensures WriteTraces(w', x) { assert WriteTraces(w, x); }
    forall e | e in w.topics.kyc ensures EventTraces(w', e) { assert EventTraces(w, e); }
  }

  lemma QuietKeepsKyc(w: World, w': World)
    requires KycInv(w) && w.now <= w'.now
    requires w'.store.log == w.store.log && w'.topics.kyc == w.topics.kyc && w'.callbacks.at == w.callbacks.at
    requires w'.history.savedAt == w.history.savedAt && w'.history.consumes == w.history.consumes
    requires w'.history.kycWrites == w.history.kycWrites
    ensures KycInv(w')
  {
    hide EmailAccepted;
    TracesStable(w, w');
    forall i: nat | i < |w'.store.log| ensures SaveOk(w', i) { assert SaveOk(w, i); }
    forall t | t in w'.callbacks.at
      ensures CallbackOk(w', w'.callbacks.at[t])
    {
      assert CallbackOk(w, w.callbacks.at[t]);
    }
  }

  /** One callback moves while the histories stay. */
  lemma MoveKeepsKyc(w: World, t: nat, c: Callback)
    requires KycInv(w) && CallbackOk(w, c)
    requires Holding(c) ==> t in w.callbacks.at && Holding(w.callbacks.at[t]) && w.callbacks.at[t].consume == c.consume
    requires Owing(c) ==> t in w.callbacks.at && Owing(w.callbacks.at[t]) && w.callbacks.at[t].write == c.write
    ensures KycInv(w.(callbacks := w.callbacks.Put(t, c)))
  {
    hide EmailAccepted, WriteTraces, EventTraces, ConsumeOk;
    var w' := w.(callbacks := w.callbacks.Put(t, c));
    assert Extends(w, w');
    TracesStable(w, w');
    forall i: nat | i < |w'.store.log| ensures SaveOk(w', i) { assert SaveOk(w, i); }
    forall s | s in w'.callbacks.at ensures CallbackOk(w', w'.callbacks.at[s]) {
      if s != t { assert CallbackOk(w, w.callbacks.at[s]); }
    }
    forall r, s | r in w'.callbacks.at && s in w'.callbacks.at && r != s
      ensures CallbackApart(w'.callbacks.at[r], w'.callbacks.at[s])
    {
      if r in w.callbacks.at && s in w.callbacks.at { assert CallbackApart(w.callbacks.at[r], w.callbacks.at[s]); }
    }
  }

  lemma LoginKeepsKyc(w: World, state: string, userId: int, email: string)
    requires KycInv(w)
    ensures KycInv(Next(w, Login(state, userId, email)))
  {
    hide EmailAccepted, WriteTraces, EventTraces, ConsumeOk;
    var w' := Next(w, Login(state, userId, email));
    if state != "" {
      assert Extends(w, w');
      TracesStable(w, w');
      forall i: nat | i < |w'.store.log| ensures SaveOk(w', i) {
        if i < |w.store.log| { assert SaveOk(w, i); }
      }
      forall t | t in w'.callbacks.at
        ensures CallbackOk(w', w'.callbacks.at[t])
      {
        assert CallbackOk(w, w.callbacks.at[t]);
      }
    }
  }

  lemma ConsumeKeepsKyc(w: World, t: nat, ok: bool, info: Option<UserInfo>)
    requires KycInv(w) && t in w.callbacks.at && w.callbacks.at[t].KConsume?
    ensures KycInv(NextCallback(w, t, ok, info))
  {
    hide EmailAccepted, WriteTraces, EventTraces, Latest;
    var w' := NextCallback(w, t, ok, info);
    var i := Consumable(w.store.log, w.callbacks.at[t].state, w.now);
    if i.None? {
      MoveKeepsKyc(w, t, w'.callbacks.at[t]);
    } else {
      var r := ConsumeRecord(i.value, w.now);
      assert Extends(w, w');
      TracesStable(w, w');
      assert SaveOk(w, i.value) && ConsumeOk(w', r);
      forall c | c in w.history.consumes ensures c.save != i.value { assert ConsumeOk(w, c); }
      assert DistinctSaves(w'.history.consumes);
      forall j: nat | j < |w'.store.log| ensures SaveOk(w', j) { assert SaveOk(w, j); }
      forall x | x in w.history.kycWrites ensures x.consume < |w.history.consumes| {
        WriteInRange(w, x);
      }
      forall s | s in w'.callbacks.at ensures CallbackOk(w', w'.callbacks.at[s]) {
        if s != t { assert CallbackOk(w, w.callbacks.at[s]); }
      }
      forall p, s | p in w'.callbacks.at && s in w'.callbacks.at && p != s
        ensures CallbackApart(w'.callbacks.at[p], w'.callbacks.at[s])
      {
        assert CallbackApart(w.callbacks.at[p], w.callbacks.at[s]) && CallbackOk(w, w.callbacks.at[p])
            && CallbackOk(w, w.callbacks.at[s]);
      }
    }
  }

  lemma WriteInRange(w: World, x: KycWrite)
    requires WriteTraces(w, x)
    ensures x.consume < |w.history.consumes|
  {
    hide EmailAccepted, KycStatusOf;
  }

  lemma WriteKeepsKyc(w: World, t: nat, info: Option<UserInfo>)
    requires KycInv(w) && t in w.callbacks.at && w.callbacks.at[t].KWrite?
    ensures KycInv(NextCallback(w, t, true, info))
  {
    hide EmailAccepted, EventTraces, ConsumeOk, Update, KycStatusOf;
    var w' := NextCallback(w, t, true, info);
    var c := w.callbacks.at[t];
    assert CallbackOk(w, c);
    assert Extends(w, w');
    TracesStable(w, w');
    forall i: nat | i < |w'.store.log| ensures SaveOk(w', i) { assert SaveOk(w, i); }
    forall e | e in w.topics.kyc ensures e.write < |w.history.kycWrites| { EventInRange(w, e); }
    assert PendingOf(w', c.consume) == PendingOf(w, c.consume);
    forall s | s in w'.callbacks.at ensures CallbackOk(w', w'.callbacks.at[s]) {
      if s != t { assert CallbackOk(w, w.callbacks.at[s]) && CallbackApart(w.callbacks.at[s], c); }
    }
    forall p, s | p in w'.callbacks.at && s in w'.callbacks.at && p != s
      ensures CallbackApart(w'.callbacks.at[p], w'.callbacks.at[s])
    {
      assert CallbackApart(w.callbacks.at[p], w.callbacks.at[s]) && CallbackOk(w, w.callbacks.at[p])
          && CallbackOk(w, w.callbacks.at[s]);
    }
  }

  lemma EventInRange(w: World, e: KycEvent)
    requires EventTraces(w, e)
    ensures e.write < |w.history.kycWrites|
  {
  }

  lemma PublishKeepsKyc(w: World, t: nat, info: Option<UserInfo>)
    requires KycInv(w) && t in w.callbacks.at && w.callbacks.at[t].KPub?
    ensures KycInv(NextCallback(w, t, true, info))
  {
    hide EmailAccepted, WriteTraces, ConsumeOk;
    var w' := NextCallback(w, t, true, info);
    var c := w.callbacks.at[t];
    assert CallbackOk(w, c);
    assert Extends(w, w');
    TracesStable(w, w');
    forall i: nat | i < |w'.store.log| ensures SaveOk(w', i) { assert SaveOk(w, i); }
    forall s | s in w'.callbacks.at ensures CallbackOk(w', w'.callbacks.at[s]) {
      if s != t { assert CallbackOk(w, w.callbacks.at[s]) && CallbackApart(w.callbacks.at[s], c); }
    }
    forall p, s | p in w'.callbacks.at && s in w'.callbacks.at && p != s
      ensures CallbackApart(w'.callbacks.at[p], w'.callbacks.at[s])
    {
      assert CallbackApart(w.callbacks.at[p], w.callbacks.at[s]);
    }
  }

  lemma CallbackKeepsKyc(w: World, t: nat, ok: bool, info: Option<UserInfo>)
    requires KycInv(w) && t in w.callbacks.at
    ensures KycInv(NextCallback(w, t, ok, info))
  {
    assert CallbackOk(w, w.callbacks.at[t]);
    hide EmailsMatchForKyc, Update, KycStatusOf, KycInv;
    var w' := NextCallback(w, t, ok, info);
    match w.callbacks.at[t] {
      case KConsume(_) => ConsumeKeepsKyc(w, t, ok, info);
      case KToken(_) => MoveKeepsKyc(w, t, w'.callbacks.at[t]);
      case KInfo(_) => MoveKeepsKyc(w, t, w'.callbacks.at[t]);
      case KWrite(_, _) => if ok { WriteKeepsKyc(w, t, info); } else { MoveKeepsKyc(w, t, w'.callbacks.at[t]); }
      case KDel(_, _, _) =>
        MoveKeepsKyc(w, t, w'.callbacks.at[t]);
        QuietKeepsKyc(w.(callbacks := w'.callbacks), w');
      case KPub(_) => if ok { PublishKeepsKyc(w, t, info); } else { MoveKeepsKyc(w, t, w'.callbacks.at[t]); }
      case KDone(_) =>
    }
  }

  /** Every step keeps the KYC traces. */
  lemma NextKeepsKyc(w: World, a: Act)
    requires KycInv(w)
    ensures KycInv(Next(w, a))
  {
    hide NextReader, NextUpdater, NextCallback, NextLookup, NextCreator, SelectEmail, MappingFor, KycInv, LogSave;
    NextFrame(w, a);
    hide RowsGrow;
    if Idle(w, a) {
    } else {
      match a {
        case CallbackAct(t, ok, info) => CallbackKeepsKyc(w, t, ok, info);
        case SpawnCallback(t, state) => MoveKeepsKyc(w, t, KConsume(state));
        case Login(state, u, email) => LoginKeepsKyc(w, state, u, email);
        case _ => hide Next; QuietKeepsKyc(w, Next(w, a));
      }
    }
  }

  // ----- Counting -----

  /** If every element of `xs` is the element of `ys` at its own index, `xs` is contained in
      `ys` as a multiset. */
  lemma {:induction false} InjectionCounts<T>(xs: seq<T>, ys: seq<T>, f: seq<nat>)
    requires |f| == |xs| && forall i | 0 <= i < |xs| :: f[i] < |ys| && xs[i] == ys[f[i]]
    requires forall i, j | 0 <= i < j < |f| :: f[i] != f[j]
    ensures multiset(xs) <= multiset(ys)
    decreases |ys|
  {
    if ys != [] {
      var last := |ys| - 1;
      assert ys == ys[..last] + [ys[last]];
      if i :| 0 <= i < |f| && f[i] == last {
        var xs', f' := xs[..i] + xs[i + 1..], f[..i] + f[i + 1..];
        InjectionCounts(xs', ys[..last], f');
        TakeOne(xs, i);
        assert multiset(ys) == multiset(ys[..last]) + multiset{ys[last]};
      } else {
        InjectionCounts(xs, ys[..last], f);
      }
    } else {
      assert xs == [];
    }
  }

  lemma TakeOne<T>(xs: seq<T>, i: nat)
    requires i < |xs|
    ensures multiset(xs) == multiset(xs[..i] + xs[i + 1..]) + multiset{xs[i]}
  {
    assert xs == xs[..i] + [xs[i]] + xs[i + 1..];
  }
}
