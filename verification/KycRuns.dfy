/** Main results on the Singpass protocol, over every run of concurrent logins and callbacks. */
module KycRuns {
  import opened Model
  import opened World
  import opened Tables
  import opened StateStore
  import opened KycEmail
  import opened Kyc
  import opened Statuses
  import opened Runs

  // ----- One step of the records -----

  predicate LoginOf(a: Act, e: LogEntry) {
    a == Login(e.state, e.pending.internalUserId, e.pending.email)
  }

  /** Action `a` is a step of callback `t` that takes save `s`, with this state value, as
      consume `c`. */
  ghost predicate Takes(w: World, a: Act, t: nat, c: nat, state: string, s: nat) {
    && a.CallbackAct? && a.t == t && t in w.callbacks.at && w.callbacks.at[t] == KConsume(state)
    && Consumable(w.store.log, state, w.now) == Some(s) && |w.history.consumes| == c
    && c < |Next(w, a).history.consumes| && Next(w, a).history.consumes[c] == ConsumeRecord(s, w.now)
  }

  /** Action `a` tells callback `t`, which holds consume `c`, this user info. */
  predicate Tells(w: World, a: Act, t: nat, c: nat, info: UserInfo) {
    && t in w.callbacks.at && w.callbacks.at[t] == KInfo(c)
    && a.CallbackAct? && a.t == t && a.ok && info == if a.info.Some? then a.info.value else UserInfo("", "")
  }

  /** Action `a` is the successful write `k` of callback `t`. */
  predicate Writes(w: World, a: Act, t: nat, c: nat, info: UserInfo, k: nat) {
    && t in w.callbacks.at && w.callbacks.at[t] == KWrite(c, info)
    && a.CallbackAct? && a.t == t && a.ok && |w.history.kycWrites| == k
  }

  /** What one step does to the store and the records. */
  ghost predicate StoreStep(w: World, w': World, a: Act) {
    && Extends(w, w')
    && (|| (|w'.store.log| == |w.store.log| && w'.history.savedAt == w.history.savedAt)
        || (|w'.store.log| == |w.store.log| + 1 && w'.history.savedAt == w.history.savedAt + [w.now]
            && LoginOf(a, w'.store.log[|w.store.log|])))
    && (|| w'.history.kycWrites == w.history.kycWrites
        || (exists x: KycWrite :: w'.history.kycWrites == w.history.kycWrites + [x] &&
                                  a.CallbackAct? && Writes(w, a, a.t, x.consume, x.info, |w.history.kycWrites|)))
  }

  lemma CallbackStores(w: World, t: nat, ok: bool, info: Option<UserInfo>)
    requires t in w.callbacks.at
    ensures StoreStep(w, NextCallback(w, t, ok, info), CallbackAct(t, ok, info))
  {
    hide Update, EmailsMatchForKyc, KycStatusOf, DeleteProfile, Lost, Latest, PendingOf, WriteOf;
    var w' := NextCallback(w, t, ok, info);
    match w.callbacks.at[t] {
      case KConsume(state) => if Consumable(w.store.log, state, w.now).Some? {}
      case KWrite(c, got) =>
        if ok { assert w'.history.kycWrites == w.history.kycWrites + [w'.history.kycWrites[|w.history.kycWrites|]]; }
      case KDel(_, _, _) => DropStores(w, t, ok, info);
      case _ =>
    }
  }

  lemma DropStores(w: World, t: nat, ok: bool, info: Option<UserInfo>)
    requires t in w.callbacks.at && w.callbacks.at[t].KDel?
    ensures StoreStep(w, NextCallback(w, t, ok, info), CallbackAct(t, ok, info))
  {
    hide DeleteProfile;
  }

  lemma NextStores(w: World, a: Act)
    ensures StoreStep(w, Next(w, a), a)
  {
    NextFrame(w, a);
    hide NextCallback, RowsGrow, LogGrows;
    assert LogGrows(w.store.log, w.store.log) by { LogGrowsReflexive(w.store.log); }
    if a.CallbackAct? && !Idle(w, a) {
      CallbackStores(w, a.t, a.ok, a.info);
    } else if a.Login? {
      LoginStores(w, a);
    } else {
      hide Next;
    }
  }

  lemma LogGrowsReflexive(log: seq<LogEntry>)
    ensures LogGrows(log, log)
  {
  }

  lemma LoginStores(w: World, a: Act)
    requires a.Login?
    ensures StoreStep(w, Next(w, a), a)
  {
  }

  lemma {:induction false} RunExtends(w0: World, acts: seq<Act>, j: nat, k: nat)
    requires j <= k <= |acts|
    ensures Extends(At(w0, acts, j), At(w0, acts, k))
    decreases k
  {
    hide At, Next;
    if j < k {
      RunExtends(w0, acts, j, k - 1);
      AtStep(w0, acts, k - 1);
      NextStores(At(w0, acts, k - 1), acts[k - 1]);
    }
  }

  /** Where callback `t` stands, and what brought it there. */
  lemma CallbackCame(w: World, a: Act, t: nat)
    requires t in Next(w, a).callbacks.at
    ensures var c' := Next(w, a).callbacks.at[t];
            && (Holding(c') ==>
                  || (t in w.callbacks.at && Holding(w.callbacks.at[t]) && w.callbacks.at[t].consume == c'.consume)
                  || exists state, s: nat :: Takes(w, a, t, c'.consume, state, s))
            && (c'.KWrite? ==>
                  || (t in w.callbacks.at && w.callbacks.at[t] == c')
                  || Tells(w, a, t, c'.consume, c'.info))
  {
    NextFrame(w, a);
    hide RowsGrow, NextCallback;
    if a.CallbackAct? && !Idle(w, a) {
      CallbackFrame(w, a.t, a.ok, a.info);
      if a.t == t { CallbackCameTo(w, t, a.ok, a.info); }
    } else if !a.SpawnCallback? {
      hide Next;
    }
  }

  lemma CallbackCameTo(w: World, t: nat, ok: bool, info: Option<UserInfo>)
    requires t in w.callbacks.at
    ensures var c, c', a := w.callbacks.at[t], NextCallback(w, t, ok, info).callbacks.at[t], CallbackAct(t, ok, info);
            && (Holding(c') ==>
                  (Holding(c) && c.consume == c'.consume) || exists state, s: nat ::
                      Takes(w, a, t, c'.consume, state, s))
            && (c'.KWrite? ==> c == c' || Tells(w, a, t, c'.consume, c'.info))
  {
    hide EmailsMatchForKyc, KycStatusOf, Consumable, Mark, Update, PendingOf, DeleteProfile;
    match w.callbacks.at[t] {
      case KConsume(state) =>
        var i := Consumable(w.store.log, state, w.now);
        if i.Some? { assert Takes(w, CallbackAct(t, ok, info), t, |w.history.consumes|, state, i.value); }
      case _ =>
    }
  }

  // ----- Looking back over a run -----

  /** The login that made save `s`. */
  lemma {:induction false} FindLogin(w0: World, acts: seq<Act>, n: nat, s: nat) returns (l: nat)
    requires Resting(w0) && n <= |acts| && |w0.store.log| <= s < |At(w0, acts, n).store.log|
    requires |At(w0, acts, n).history.savedAt| == |At(w0, acts, n).store.log|
    ensures l < n && LoginOf(acts[l], At(w0, acts, n).store.log[s])
    ensures |At(w0, acts, l).store.log| == s && At(w0, acts, l).now == At(w0, acts, n).history.savedAt[s]
  {
    AtStart(w0, acts);
    hide At, Run, Next, Resting;
    if n > 0 {
      AtStep(w0, acts, n - 1);
      NextStores(At(w0, acts, n - 1), acts[n - 1]);
      if s < |At(w0, acts, n - 1).store.log| { l := FindLogin(w0, acts, n - 1, s); } else { l := n - 1; }
    } else {
      assert false;
    }
  }

  /** The step at which a callback took the binding it holds. */
  lemma {:induction false} FindConsume(w0: World, acts: seq<Act>, n: nat, t: nat)
      returns (i: nat, state: string, s: nat)
    requires Resting(w0) && n <= |acts| && t in At(w0, acts, n).callbacks.at && Holding(At(w0, acts, n).callbacks.at[t])
    ensures i < n && Takes(At(w0, acts, i), acts[i], t, At(w0, acts, n).callbacks.at[t].consume, state, s)
  {
    AtStart(w0, acts);
    hide At, Run, Next, Takes, Inv;
    if n > 0 {
      AtStep(w0, acts, n - 1);
      var w := At(w0, acts, n - 1);
      CallbackCame(w, acts[n - 1], t);
      if t in w.callbacks.at && Holding(w.callbacks.at[t])
         && w.callbacks.at[t].consume == At(w0, acts, n).callbacks.at[t].consume {
        i, state, s := FindConsume(w0, acts, n - 1, t);
      } else {
        i := n - 1;
        state, s :| Takes(w, acts[i], t, At(w0, acts, n).callbacks.at[t].consume, state, s);
      }
    } else {
      assert false;
    }
  }

  /** The answer of Singpass that a callback about to write was told. */
  lemma {:induction false} FindInfo(w0: World, acts: seq<Act>, n: nat, t: nat) returns (j: nat)
    requires Resting(w0) && n <= |acts| && t in At(w0, acts, n).callbacks.at && At(w0, acts, n).callbacks.at[t].KWrite?
    ensures j < n
            && Tells(At(w0, acts, j), acts[j], t, At(w0, acts, n).callbacks.at[t].consume,
                     At(w0, acts, n).callbacks.at[t].info)
  {
    AtStart(w0, acts);
    hide At, Run, Next, Takes, Tells, Inv;
    if n > 0 {
      AtStep(w0, acts, n - 1);
      var w := At(w0, acts, n - 1);
      CallbackCame(w, acts[n - 1], t);
      if t in w.callbacks.at && w.callbacks.at[t] == At(w0, acts, n).callbacks.at[t] {
        j := FindInfo(w0, acts, n - 1, t);
      } else {
        j := n - 1;
      }
    } else {
      assert false;
    }
  }

  /** The action that made write `k`. */
  lemma {:induction false} FindWrite(w0: World, acts: seq<Act>, n: nat, k: nat) returns (m: nat)
    requires n <= |acts| && |w0.history.kycWrites| <= k < |At(w0, acts, n).history.kycWrites|
    ensures m < n && acts[m].CallbackAct?
    ensures var x := At(w0, acts, n).history.kycWrites[k];
            Writes(At(w0, acts, m), acts[m], acts[m].t, x.consume, x.info, k)
  {
    AtStart(w0, acts);
    hide At, Run, Next;
    if n > 0 {
      AtStep(w0, acts, n - 1);
      NextStores(At(w0, acts, n - 1), acts[n - 1]);
      if k < |At(w0, acts, n - 1).history.kycWrites| { m := FindWrite(w0, acts, n - 1, k); } else { m := n - 1; }
    } else {
      assert false;
    }
  }

  // ----- Safety -----

  /** Write `k` was made at `m` by a callback that took, at `i`, the binding of the login at `l`
      and was told, at `j`, what Singpass returned. It is for the user the login named, within
      the binding's lifetime, after the email check, with the status the name calls for. */
  ghost predicate WriteFrom(w0: World, acts: seq<Act>, k: nat, l: nat, i: nat, j: nat, m: nat) {
    && l < i < j < m < |acts| && acts[l].Login? && acts[l].state != "" && acts[m].CallbackAct?
    && k < |Run(w0, acts).history.kycWrites|
    && var x, t := Run(w0, acts).history.kycWrites[k], acts[m].t;
    && Takes(At(w0, acts, i), acts[i], t, x.consume, acts[l].state, |At(w0, acts, l).store.log|)
    && Tells(At(w0, acts, j), acts[j], t, x.consume, x.info)
    && Writes(At(w0, acts, m), acts[m], t, x.consume, x.info, k)
    && WriteMatches(x, acts[l], At(w0, acts, l).now, At(w0, acts, i).now)
  }

  predicate WriteMatches(x: KycWrite, login: Act, savedAt: int, takenAt: int)
    requires login.Login?
  {
    && x.userId == login.userId && savedAt <= takenAt <= savedAt + 600_000_000_000
    && (login.email == "" || EmailsMatchForKyc(login.email, x.info.email))
    && x.status == (if x.info.name != "" then "PASSED" else "FAILED")
  }

  /** A save taken in the run was made in the run: the older ones are spent. */
  lemma TakenIsNew(w0: World, acts: seq<Act>, i: nat, t: nat, c: nat, state: string, s: nat)
    requires Resting(w0) && i < |acts| && Takes(At(w0, acts, i), acts[i], t, c, state, s)
    ensures |w0.store.log| <= s < |At(w0, acts, i).store.log|
  {
    AtStart(w0, acts);
    hide At, Run, Next, Inv, Latest;
    RunExtends(w0, acts, 0, i);
  }

  /** What the records say of a write agrees with the login. */
  lemma RecordsMatch(w: World, k: nat, login: Act, savedAt: int)
    requires KycInv(w) && k < |w.history.kycWrites| && login.Login?
    requires var c := w.history.kycWrites[k].consume;
             c < |w.history.consumes| && w.history.consumes[c].save < |w.store.log|
             && LoginOf(login, w.store.log[w.history.consumes[c].save])
             && savedAt == w.history.savedAt[w.history.consumes[c].save]
    ensures WriteMatches(w.history.kycWrites[k], login, savedAt, w.history.consumes[w.history.kycWrites[k].consume].at)
    ensures login.state != ""
  {
    hide EmailsMatchForKyc, EventTraces, CallbackOk, CallbackApart;
    var x := w.history.kycWrites[k];
    assert WriteTraces(w, x);
    var c := w.history.consumes[x.consume];
    assert ConsumeOk(w, c) && SaveOk(w, c.save);
  }

  lemma KycAt(w0: World, acts: seq<Act>, n: nat)
    requires Inv(w0) && n <= |acts|
    ensures KycInv(At(w0, acts, n))
  {
    AtInv(w0, acts, n);
    hide At, Run, KycInv, TableInv, Grows;
  }

  lemma TakenStays(w0: World, acts: seq<Act>, i: nat, t: nat, c: nat, state: string, s: nat)
    requires i < |acts| && Takes(At(w0, acts, i), acts[i], t, c, state, s)
    ensures var w := At(w0, acts, |acts|);
            c < |w.history.consumes| && w.history.consumes[c] == ConsumeRecord(s, At(w0, acts, i).now)
  {
    hide At, Run, Next, Consumable, LogGrows;
    RunExtends(w0, acts, i + 1, |acts|);
    AtStep(w0, acts, i);
  }

  /** A binding taken is that of a login of the run, and stays on record. */
  lemma FindBinding(w0: World, acts: seq<Act>, i: nat, t: nat, c: nat, state: string, s: nat) returns (l: nat)
    requires Resting(w0) && i < |acts| && Takes(At(w0, acts, i), acts[i], t, c, state, s)
    ensures l < i && |At(w0, acts, l).store.log| == s
    ensures var w := At(w0, acts, |acts|);
            && acts[l].Login? && acts[l].state == state && c < |w.history.consumes| && s < |w.store.log|
            && w.history.consumes[c] == ConsumeRecord(s, At(w0, acts, i).now)
            && LoginOf(acts[l], w.store.log[s])
            && s < |w.history.savedAt| && w.history.savedAt[s] == At(w0, acts, l).now
  {
    KycAt(w0, acts, i);
    TakenIsNew(w0, acts, i, t, c, state, s);
    hide At, Run, Next, Inv;
    l := FindLogin(w0, acts, i, s);
    RunExtends(w0, acts, i, |acts|);
    TakenStays(w0, acts, i, t, c, state, s);
  }

  /** The steps of one callback before its write, in order. */
  lemma FindSteps(w0: World, acts: seq<Act>, m: nat, t: nat, c: nat, info: UserInfo, k: nat)
    returns (i: nat, j: nat, state: string, s: nat)
    requires Resting(w0) && m < |acts| && Writes(At(w0, acts, m), acts[m], t, c, info, k)
    ensures i < j < m && Takes(At(w0, acts, i), acts[i], t, c, state, s) && Tells(At(w0, acts, j), acts[j], t, c, info)
  {
    hide At, Run, Next, Resting, Takes;
    j := FindInfo(w0, acts, m, t);
    i, state, s := FindConsume(w0, acts, j, t);
  }

  lemma {:induction false} WriteHasSource(w0: World, acts: seq<Act>, k: nat) returns (l: nat, i: nat, j: nat, m: nat)
    requires Resting(w0) && |w0.history.kycWrites| <= k < |Run(w0, acts).history.kycWrites|
    ensures WriteFrom(w0, acts, k, l, i, j, m)
  {
    AtEnd(w0, acts);
    KycAt(w0, acts, |acts|);
    hide At, Run, Next, Resting, KycInv, Takes, Tells, Writes, WriteMatches;
    m := FindWrite(w0, acts, |acts|, k);
    var x := Run(w0, acts).history.kycWrites[k];
    var state, s;
    i, j, state, s := FindSteps(w0, acts, m, acts[m].t, x.consume, x.info, k);
    l := FindBinding(w0, acts, i, acts[m].t, x.consume, state, s);
    RecordsMatch(Run(w0, acts), k, acts[l], At(w0, acts, l).now);
  }

  /** No two writes of the run go back to the same login. */
  lemma SourcesDiffer(w0: World, acts: seq<Act>, k: nat, k': nat, l: nat, i: nat, j: nat, m: nat, i': nat, j': nat,
                      m': nat)
    requires Inv(w0) && WriteFrom(w0, acts, k, l, i, j, m) && WriteFrom(w0, acts, k', l, i', j', m')
    ensures k == k'
  {
    var w := Run(w0, acts);
    AtEnd(w0, acts);
    KycAt(w0, acts, |acts|);
    assert DistinctSaves(w.history.consumes) && DistinctConsumes(w.history.kycWrites);
    hide At, Run, Next, Inv, KycInv, Takes, Tells, Writes, WriteMatches;
    var c, c' := w.history.kycWrites[k].consume, w.history.kycWrites[k'].consume;
    TakenStays(w0, acts, i, acts[m].t, c, acts[l].state, |At(w0, acts, l).store.log|);
    TakenStays(w0, acts, i', acts[m'].t, c', acts[l].state, |At(w0, acts, l).store.log|);
    assert c == c';
  }

  /** Every KYC write of the run traces to the actions of its own callback and to a login, and
      no two writes to the same login. */
  lemma {:induction false} KycWritesAreSafe(w0: World, acts: seq<Act>)
    requires Resting(w0)
    ensures forall k: nat | |w0.history.kycWrites| <= k < |Run(w0, acts).history.kycWrites| ::
              HasSource(w0, acts, k)
    ensures forall k, k', l, i, j, m, i', j', m' |
              WriteFrom(w0, acts, k, l, i, j, m) && WriteFrom(w0, acts, k', l, i', j', m') :: k == k'
  {
    hide Run, Inv, WriteFrom;
    forall k: nat | |w0.history.kycWrites| <= k < |Run(w0, acts).history.kycWrites| ensures HasSource(w0, acts, k) {
      var l, i, j, m := WriteHasSource(w0, acts, k);
    }
    forall k: nat, k': nat, l: nat, i: nat, j: nat, m: nat, i': nat, j': nat, m': nat |
      WriteFrom(w0, acts, k, l, i, j, m) && WriteFrom(w0, acts, k', l, i', j', m') ensures k == k'
    {
      SourcesDiffer(w0, acts, k, k', l, i, j, m, i', j', m');
    }
  }

  ghost predicate HasSource(w0: World, acts: seq<Act>, k: nat) {
    exists l, i, j, m :: WriteFrom(w0, acts, k, l, i, j, m)
  }

  // ----- A login is honoured -----

  /** This action saves under the state, or a callback is about to consume it. */
  predicate Touches(w: World, a: Act, state: string) {
    || (a.Login? && a.state == state)
    || (a.CallbackAct? && a.t in w.callbacks.at && w.callbacks.at[a.t] == KConsume(state))
  }

  /** Save `s` is the latest under the state and not consumed. */
  predicate Waits(log: seq<LogEntry>, state: string, s: nat, expiry: int) {
    && Latest(log, state) == Some(s) && !log[s].consumed && log[s].pending.expiresAt == expiry
  }

  lemma OtherMarkWaits(log: seq<LogEntry>, state: string, other: string, now: int, s: nat, expiry: int)
    requires Waits(log, state, s, expiry) && other != state
    ensures Waits(Mark(log, Consumable(log, other, now)), state, s, expiry)
  {
    LatestOfMark(log, Consumable(log, other, now), state);
  }

  lemma OtherSaveWaits(log: seq<LogEntry>, state: string, other: LogEntry, s: nat, expiry: int)
    requires Waits(log, state, s, expiry) && other.state != state
    ensures Waits(log + [other], state, s, expiry)
  {
    assert (log + [other])[..|log|] == log;
  }

  lemma NextWaits(w: World, a: Act, state: string, s: nat, expiry: int)
    requires Waits(w.store.log, state, s, expiry) && !Touches(w, a, state)
    ensures Waits(Next(w, a).store.log, state, s, expiry)
  {
    NextFrame(w, a);
    hide Waits, Consumable, Latest, RowsGrow, PendingOf, Update;
    if a.CallbackAct? && !Idle(w, a) {
      hide NextCallback;
      CallbackLog(w, a.t, a.ok, a.info);
      match w.callbacks.at[a.t] {
        case KConsume(other) => OtherMarkWaits(w.store.log, state, other, w.now, s, expiry);
        case _ =>
      }
    } else if a.Login? && a.state != "" {
      var entry := LogEntry(a.state, KycPending(a.userId, a.email, w.now + DEFAULT_KYC_STATE_TTL), false);
      assert Next(w, a).store.log == w.store.log + [entry];
      OtherSaveWaits(w.store.log, state, entry, s, expiry);
    } else {
      assert Next(w, a).store == w.store by { hide NextCallback, NextReader, NextUpdater, NextCreator; }
    }
  }

  lemma CallbackLog(w: World, t: nat, ok: bool, info: Option<UserInfo>)
    requires t in w.callbacks.at
    ensures var c := w.callbacks.at[t];
            NextCallback(w, t, ok, info).store.log ==
            if c.KConsume? then Mark(w.store.log, Consumable(w.store.log, c.state, w.now)) else w.store.log
  {
    hide Consumable, EmailsMatchForKyc, Update, PendingOf, KycStatusOf;
    match w.callbacks.at[t] {
      case KConsume(state) => if Consumable(w.store.log, state, w.now).None? {}
      case _ =>
    }
  }

  lemma LoginWaits(w: World, a: Act)
    requires a.Login? && a.state != ""
    ensures Waits(Next(w, a).store.log, a.state, |w.store.log|, w.now + DEFAULT_KYC_STATE_TTL)
  {
    hide Latest;
    SavedIsConsumable(w.store.log, DEFAULT_KYC_STATE_TTL, a.state, KycPending(a.userId, a.email, ZERO_TIME), w.now,
                      w.now);
  }

  lemma {:induction false} RunWaits(w0: World, acts: seq<Act>, state: string, l: nat, n: nat)
    requires l < n <= |acts| && acts[l].Login? && acts[l].state == state != ""
    requires forall j: nat | l < j < n :: !Touches(At(w0, acts, j), acts[j], state)
    ensures Waits(At(w0, acts, n).store.log, state, |At(w0, acts, l).store.log|,
                  At(w0, acts, l).now + DEFAULT_KYC_STATE_TTL)
    decreases n
  {
    hide At, Run, Next, Waits, Touches;
    AtStep(w0, acts, n - 1);
    if l == n - 1 {
      LoginWaits(At(w0, acts, l), acts[l]);
    } else {
      RunWaits(w0, acts, state, l, n - 1);
      NextWaits(At(w0, acts, n - 1), acts[n - 1], state, |At(w0, acts, l).store.log|,
                At(w0, acts, l).now + DEFAULT_KYC_STATE_TTL);
    }
  }

  /** Whatever else runs after a login: as long as its state is neither saved again nor presented
      by a callback, the next callback that presents it is given that login's binding if and
      only if at most ten minutes have passed. */
  lemma {:induction false} LoginIsHonoured(w0: World, acts: seq<Act>, state: string, l: nat, n: nat)
    requires l < n <= |acts| && acts[l].Login? && acts[l].state == state != ""
    requires forall j: nat | l < j < n :: !Touches(At(w0, acts, j), acts[j], state)
    ensures Consumable(At(w0, acts, n).store.log, state, At(w0, acts, n).now) ==
            if At(w0, acts, n).now <= At(w0, acts, l).now + 600_000_000_000
            then Some(|At(w0, acts, l).store.log|) else None
  {
    hide At, Run, Next, Latest, Touches;
    RunWaits(w0, acts, state, l, n);
  }

  // ----- A callback that succeeds -----

  /** Callback `t` publishes its write `k` by this action, and the topic takes it. */
  ghost predicate PublishesWrite(w: World, a: Act, t: nat, k: nat) {
    && a.CallbackAct? && a.t == t && a.ok && t in w.callbacks.at && w.callbacks.at[t] == KPub(k)
    && |Next(w, a).topics.kyc| == |w.topics.kyc| + 1 && Next(w, a).topics.kyc[|w.topics.kyc|].write == k
    && k < |w.history.kycWrites|
    && Next(w, a).topics.kyc[|w.topics.kyc|].userId == w.history.kycWrites[k].userId
    && Next(w, a).topics.kyc[|w.topics.kyc|].status == w.history.kycWrites[k].status
  }

  /** Where a callback that owes or is done came from. */
  lemma OwingCame(w: World, a: Act, t: nat)
    requires KycInv(w) && t in Next(w, a).callbacks.at
    ensures var c' := Next(w, a).callbacks.at[t];
            && (Owing(c') ==>
                  || (t in w.callbacks.at && Owing(w.callbacks.at[t]) && w.callbacks.at[t].write == c'.write)
                  || exists c, info :: Writes(w, a, t, c, info, c'.write))
            && (c' == KDone(None) ==>
                  || (t in w.callbacks.at && w.callbacks.at[t] == c')
                  || (t in w.callbacks.at && w.callbacks.at[t].KPub?
                      && PublishesWrite(w, a, t, w.callbacks.at[t].write)))
  {
    NextFrame(w, a);
    hide RowsGrow, NextCallback, KycInv;
    if a.CallbackAct? && !Idle(w, a) {
      CallbackFrame(w, a.t, a.ok, a.info);
      if a.t == t { OwingCameTo(w, t, a.ok, a.info); }
    } else if !a.SpawnCallback? {
      hide Next;
    }
  }

  lemma OwingCameTo(w: World, t: nat, ok: bool, info: Option<UserInfo>)
    requires KycInv(w) && t in w.callbacks.at
    ensures var c, c', a := w.callbacks.at[t], NextCallback(w, t, ok, info).callbacks.at[t], CallbackAct(t, ok, info);
            && (Owing(c') ==> (Owing(c) && c.write == c'.write) || exists n, i :: Writes(w, a, t, n, i, c'.write))
            && (c' == KDone(None) ==> c == c' || (c.KPub? && PublishesWrite(w, a, t, c.write)))
  {
    assert CallbackOk(w, w.callbacks.at[t]);
    hide KycInv, EmailsMatchForKyc, KycStatusOf, Consumable, Mark, Update, PendingOf, DeleteProfile;
    match w.callbacks.at[t] {
      case KConsume(state) => if Consumable(w.store.log, state, w.now).Some? {}
      case KWrite(c, got) => if ok { assert Writes(w, CallbackAct(t, ok, info), t, c, got, |w.history.kycWrites|); }
      case _ =>
    }
  }

  lemma {:induction false} FindOwnWrite(w0: World, acts: seq<Act>, n: nat, t: nat) returns (m: nat)
    requires Resting(w0) && n <= |acts| && t in At(w0, acts, n).callbacks.at && Owing(At(w0, acts, n).callbacks.at[t])
    ensures m < n && exists c, info ::
            Writes(At(w0, acts, m), acts[m], t, c, info, At(w0, acts, n).callbacks.at[t].write)
  {
    AtStart(w0, acts);
    hide At, Run, Next, Inv, KycInv, Writes, PublishesWrite;
    if n > 0 {
      KycAt(w0, acts, n - 1);
      AtStep(w0, acts, n - 1);
      var w := At(w0, acts, n - 1);
      OwingCame(w, acts[n - 1], t);
      if t in w.callbacks.at && Owing(w.callbacks.at[t])
         && w.callbacks.at[t].write == At(w0, acts, n).callbacks.at[t].write {
        m := FindOwnWrite(w0, acts, n - 1, t);
      } else {
        m := n - 1;
      }
    } else {
      assert false;
    }
  }

  lemma {:induction false} FindPublish(w0: World, acts: seq<Act>, n: nat, t: nat) returns (p: nat)
    requires Resting(w0) && n <= |acts| && t in At(w0, acts, n).callbacks.at
    requires At(w0, acts, n).callbacks.at[t] == KDone(None)
    ensures p < n && t in At(w0, acts, p).callbacks.at && At(w0, acts, p).callbacks.at[t].KPub?
    ensures PublishesWrite(At(w0, acts, p), acts[p], t, At(w0, acts, p).callbacks.at[t].write)
  {
    AtStart(w0, acts);
    hide At, Run, Next, Inv, KycInv, Writes, PublishesWrite;
    if n > 0 {
      KycAt(w0, acts, n - 1);
      AtStep(w0, acts, n - 1);
      var w := At(w0, acts, n - 1);
      OwingCame(w, acts[n - 1], t);
      if t in w.callbacks.at && w.callbacks.at[t] == KDone(None) { p := FindPublish(w0, acts, n - 1, t); }
          else { p := n - 1; }
    } else {
      assert false;
    }
  }

  /** A callback reports success only after a status write of its own whose event, for the same
      user and status, it has then published. */
  lemma {:induction false} SuccessIsPublished(w0: World, acts: seq<Act>, t: nat) returns (m: nat, p: nat, k: nat)
    requires Resting(w0) && t in Run(w0, acts).callbacks.at && Run(w0, acts).callbacks.at[t] == KDone(None)
    ensures m < p < |acts| && (exists c, info :: Writes(At(w0, acts, m), acts[m], t, c, info, k))
    ensures PublishesWrite(At(w0, acts, p), acts[p], t, k)
  {
    AtEnd(w0, acts);
    hide At, Run, Next, Resting, Writes, PublishesWrite;
    p := FindPublish(w0, acts, |acts|, t);
    k := At(w0, acts, p).callbacks.at[t].write;
    m := FindOwnWrite(w0, acts, p, t);
  }

  // ----- The stored status -----

  lemma {:induction false} RunPending(w0: World, acts: seq<Act>)
    requires Resting(w0)
    ensures PendingInv(Run(w0, acts), w0.db.users.Keys)
  {
    hide Inv;
    if acts != [] {
      var n := |acts| - 1;
      assert Run(w0, acts) == Next(Run(w0, acts[..n]), acts[n]);
      hide Run, Next, Resting, PendingInv;
      RunPending(w0, acts[..n]);
      NextKeepsPending(Run(w0, acts[..n]), acts[n], w0.db.users.Keys);
    }
  }

  /** What a row stores after the records have grown. */
  lemma StoredSince(w0: World, w: World, u: int)
    requires StoredInv(w0) && StoredInv(w) && w0.history.kycWrites <= w.history.kycWrites && u in w.db.users
    requires u in w0.db.users ==> w0.db.users[u] <= w.db.users[u]
    requires PendingInv(w, w0.db.users.Keys)
    ensures var initial := if u in w0.db.users then Row(w0.db.users[u]).kycStatus else "PENDING";
            var ws := w.history.kycWrites;
            || Row(w.db.users[u]).kycStatus == initial
            || exists k: nat | |w0.history.kycWrites| <= k < |ws| ::
                 ws[k].userId == u && ws[k].landed && ws[k].status == Row(w.db.users[u]).kycStatus
  {
    hide LastOf;
    var ws0, ws := w0.history.kycWrites, w.history.kycWrites;
    assert StoredOk(w, u);
    var k := LastOf(ws, WriteTo(u));
    if k.Some? && k.value >= |ws0| {
      if !ws[k.value].landed
          && u in w0.db.users { NeverLanded(ws, u, k.value, LastOf(ws0, WriteTo(u))); assert StoredOk(w0, u); }
    } else {
      LastOfPrefix(ws0, ws, WriteTo(u));
      if u in w0.db.users { assert StoredOk(w0, u); }
    }
  }

  lemma NeverLanded(ws: seq<KycWrite>, u: int, k: nat, k0: Option<nat>)
    requires LandedStays(ws) && k < |ws| && ws[k].userId == u && !ws[k].landed
    ensures k0.Some? && k0.value < k && ws[k0.value].userId == u ==> !ws[k0.value].landed
  {
  }

  /** A status in the table is the one the row had at the start, which is PENDING for every user
      created in the run, or the one a safe write for this very user stored. */
  lemma {:induction false} StoredStatusIsSafe(w0: World, acts: seq<Act>, u: int)
    requires Resting(w0) && u in Run(w0, acts).db.users
    ensures var w := Run(w0, acts);
            var initial := if u in w0.db.users then Row(w0.db.users[u]).kycStatus else "PENDING";
            || Row(w.db.users[u]).kycStatus == initial
            || exists k: nat | k < |w.history.kycWrites| ::
                 && w.history.kycWrites[k].userId == u && w.history.kycWrites[k].status == Row(w.db.users[u]).kycStatus
                 && HasSource(w0, acts, k)
  {
    AtStart(w0, acts);
    AtEnd(w0, acts);
    RunInv(w0, acts);
    hide Run, At, Grows, KycInv, TableInv, StoredInv, HasSource, PendingInv, MappingOf, MappingFor;
    RunExtends(w0, acts, 0, |acts|);
    RunPending(w0, acts);
    KycWritesAreSafe(w0, acts);
    if u in w0.db.users { RowsSince(w0, Run(w0, acts), u); }
    StoredSince(w0, Run(w0, acts), u);
  }

  lemma RowsSince(w0: World, w: World, u: int)
    requires Grows(w0, w) && u in w0.db.users
    ensures u in w.db.users && w0.db.users[u] <= w.db.users[u]
  {
    hide MappingOf, MappingFor;
  }

  // ----- Conservation -----

  function Published(w: World): seq<(int, string)> {
    seq(|w.topics.kyc|, i requires 0 <= i < |w.topics.kyc| => (w.topics.kyc[i].userId, w.topics.kyc[i].status))
  }

  function Written(w: World): seq<(int, string)> {
    seq(|w.history.kycWrites|, i requires 0 <= i < |w.history.kycWrites| =>
      (w.history.kycWrites[i].userId, w.history.kycWrites[i].status))
  }

  function WrittenUsers(w: World): seq<int> {
    seq(|w.history.kycWrites|, i requires 0 <= i < |w.history.kycWrites| => w.history.kycWrites[i].userId)
  }

  function ConsumedUsers(w: World): seq<int> {
    seq(|w.history.consumes|, i requires 0 <= i < |w.history.consumes| => PendingOf(w, i).internalUserId)
  }

  function SavedUsers(w: World): seq<int> {
    seq(|w.store.log|, i requires 0 <= i < |w.store.log| => w.store.log[i].pending.internalUserId)
  }

  lemma PublishedAreWritten(w: World)
    requires KycInv(w)
    ensures multiset(Published(w)) <= multiset(Written(w))
  {
    hide EmailAccepted, WriteTraces, ConsumeOk, SaveOk;
    var es, xs := w.topics.kyc, w.history.kycWrites;
    forall i | 0 <= i < |es| ensures es[i].write < |xs| && Published(w)[i] == Written(w)[es[i].write] {
      assert EventTraces(w, es[i]);
    }
    InjectionCounts(Published(w), Written(w), seq(|es|, i requires 0 <= i < |es| => es[i].write));
  }

  lemma WritesAreConsumed(w: World)
    requires KycInv(w)
    ensures multiset(WrittenUsers(w)) <= multiset(ConsumedUsers(w))
  {
    hide EmailAccepted, EventTraces, ConsumeOk, SaveOk;
    var xs, cs := w.history.kycWrites, w.history.consumes;
    forall i | 0 <= i < |xs| ensures xs[i].consume < |cs| && WrittenUsers(w)[i] == ConsumedUsers(w)[xs[i].consume] {
      assert WriteTraces(w, xs[i]);
    }
    InjectionCounts(WrittenUsers(w), ConsumedUsers(w), seq(|xs|, i requires 0 <= i < |xs| => xs[i].consume));
  }

  lemma ConsumesAreSaved(w: World)
    requires KycInv(w)
    ensures multiset(ConsumedUsers(w)) <= multiset(SavedUsers(w))
  {
    hide EmailAccepted, EventTraces, WriteTraces, SaveOk;
    var cs := w.history.consumes;
    forall i | 0 <= i < |cs| ensures cs[i].save < |w.store.log| && ConsumedUsers(w)[i] == SavedUsers(w)[cs[i].save] {
      assert ConsumeOk(w, cs[i]);
    }
    InjectionCounts(ConsumedUsers(w), SavedUsers(w), seq(|cs|, i requires 0 <= i < |cs| => cs[i].save));
  }

  /** In every reachable state: each published event is for a write of its own, already made
      with the same user and status; so the published (user, status) pairs are among the
      written ones, and per user writes number at most consumes and consumes at most saves. */
  lemma {:induction false} KycIsConserved(w0: World, acts: seq<Act>)
    requires Inv(w0)
    ensures var w := Run(w0, acts);
            && (forall e | e in w.topics.kyc :: EventTraces(w, e)) && DistinctWrites(w.topics.kyc)
            && multiset(Published(w)) <= multiset(Written(w))
            && multiset(WrittenUsers(w)) <= multiset(ConsumedUsers(w)) <= multiset(SavedUsers(w))
  {
    RunInv(w0, acts);
    assert KycInv(Run(w0, acts));
    hide Run, Inv, Grows, TableInv, EventTraces, DistinctWrites;
    PublishedAreWritten(Run(w0, acts));
    WritesAreConsumed(Run(w0, acts));
    ConsumesAreSaved(Run(w0, acts));
  }
}
