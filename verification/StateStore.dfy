/** The pending-login store of server/service/kyc_state_store.go: a map with eager purging,
    proved to answer exactly like an append-only log of saves. */
module StateStore {
  import opened Model

  /** Ten minutes, in nanoseconds. */
  const DEFAULT_KYC_STATE_TTL := 600_000_000_000
  /** Go's zero `time.Time`: "no expiry given". */
  const ZERO_TIME := 0

  datatype KycPending = KycPending(internalUserId: int, email: string, expiresAt: int)

  class MemoryKycStateStore {
    var items: map<string, KycPending>
    const ttl: int

    constructor (ttl: int)
      ensures items == map[] && this.ttl == if ttl <= 0 then DEFAULT_KYC_STATE_TTL else ttl
    {
      items := map[];
      this.ttl := if ttl <= 0 then DEFAULT_KYC_STATE_TTL else ttl;
    }

    /** The clock is read once for the expiry and once more by the purge. */
    method Save(state: string, pending: KycPending, now: int, purgeNow: int)
      modifies this
      ensures items == SaveItem(old(items), ttl, state, pending, now, purgeNow)
      ensures state != "" ==> forall k | k in items :: purgeNow <= items[k].expiresAt
    {
      if state == "" {
        return;
      }
      var stored := pending;
      if stored.expiresAt == ZERO_TIME {
        stored := stored.(expiresAt := now + ttl);
      }
      items := items[state := stored];
      PurgeExpiredLocked(purgeNow);
    }

    /** The clock is read by the purge and once more for the final check. */
    method Consume(state: string, purgeNow: int, now: int) returns (r: Option<KycPending>)
      modifies this
      ensures (items, r) == ConsumeItem(old(items), state, purgeNow, now)
      ensures state !in items && forall k | k in items :: purgeNow <= items[k].expiresAt
    {
      PurgeExpiredLocked(purgeNow);
      if state !in items {
        return None;
      }
      var pending := items[state];
      items := items - {state};
      if now > pending.expiresAt {
        return None;
      }
      return Some(pending);
    }

    method PurgeExpiredLocked(now: int)
      modifies this
      ensures items == Purge(old(items), now)
    {
      var visit := items.Keys;
      while visit != {}
        invariant visit <= items.Keys <= old(items).Keys
        invariant forall k | k in items :: items[k] == old(items)[k]
        invariant forall k | k in old(items).Keys - visit :: k in items <==> now <= old(items)[k].expiresAt
        decreases visit
      {
        var k :| k in visit;
        if now > items[k].expiresAt {
          items := items - {k};
        }
        visit := visit - {k};
      }
    }
  }

  function Purge(items: map<string, KycPending>, now: int): map<string, KycPending> {
    map k | k in items && now <= items[k].expiresAt :: items[k]
  }

  function Resolve(pending: KycPending, ttl: int, now: int): KycPending {
    if pending.expiresAt == ZERO_TIME then pending.(expiresAt := now + ttl) else pending
  }

  function SaveItem(items: map<string, KycPending>, ttl: int, state: string, pending: KycPending,
                    now: int, purgeNow: int): map<string, KycPending>
  {
    if state == "" then items else Purge(items[state := Resolve(pending, ttl, now)], purgeNow)
  }

  function ConsumeItem(items: map<string, KycPending>, state: string, purgeNow: int, now: int)
    : (map<string, KycPending>, Option<KycPending>)
  {
    var live := Purge(items, purgeNow);
    if state !in live then (live, None)
    else (live - {state}, if now > live[state].expiresAt then None else Some(live[state]))
  }

  // ----- The specification: an append-only log of saves -----

  datatype LogEntry = LogEntry(state: string, pending: KycPending, consumed: bool)

  function LogSave(log: seq<LogEntry>, ttl: int, state: string, pending: KycPending, now: int): seq<LogEntry> {
    if state == "" then log else log + [LogEntry(state, Resolve(pending, ttl, now), false)]
  }

  /** The index of the latest save under this state. */
  function Latest(log: seq<LogEntry>, state: string): (i: Option<nat>)
    ensures i.Some? ==> i.value < |log| && log[i.value].state == state
                        && forall j | i.value < j < |log| :: log[j].state != state
    ensures i.None? ==> forall j | 0 <= j < |log| :: log[j].state != state
  {
    if log == [] then None
    else if log[|log| - 1].state == state then Some(|log| - 1)
    else Latest(log[..|log| - 1], state)
  }

  /** The save a consume returns: the latest one, if unconsumed and not expired. */
  function Consumable(log: seq<LogEntry>, state: string, now: int): (i: Option<nat>)
    ensures i.Some? ==> i.value < |log|
  {
    var i := Latest(log, state);
    if i.Some? && !log[i.value].consumed && now <= log[i.value].pending.expiresAt then i else None
  }

  function Mark(log: seq<LogEntry>, i: Option<nat>): (log': seq<LogEntry>)
    requires i.Some? ==> i.value < |log|
    ensures |log'| == |log|
    ensures forall j | 0 <= j < |log| ::
              log'[j] == log[j].(consumed := log[j].consumed || i == Some(j))
  {
    if i.None? then log else log[i.value := log[i.value].(consumed := true)]
  }

  /** A save under a non-empty state is the one the next consume of that state returns, with its
      user and email, up to its expiry: the one given, or else the time to live from now. */
  lemma SavedIsConsumable(log: seq<LogEntry>, ttl: int, state: string, pending: KycPending, now: int, at: int)
    requires state != ""
    ensures var log' := LogSave(log, ttl, state, pending, now);
            var expiry := if pending.expiresAt == ZERO_TIME then now + ttl else pending.expiresAt;
            && Consumable(log', state, at) == (if at <= expiry then Some(|log|) else None)
            && log'[|log|].pending == KycPending(pending.internalUserId, pending.email, expiry)
  {
  }

  // ----- Refinement -----

  /** One call; the two clock readings of a call are in order. */
  datatype Op = Save(state: string, pending: KycPending, first: int, second: int)
              | Consume(state: string, first: int, second: int)

  /** The clock never goes backwards, within a call or between calls. */
  ghost predicate Monotone(ops: seq<Op>, from: int) {
    ops == [] || (from <= ops[0].first <= ops[0].second && Monotone(ops[1..], ops[0].second))
  }

  function StoreAnswers(items: map<string, KycPending>, ttl: int, ops: seq<Op>): seq<Option<KycPending>>
    decreases ops
  {
    if ops == [] then []
    else match ops[0]
      case Save(state, pending, now, purgeNow) =>
        StoreAnswers(SaveItem(items, ttl, state, pending, now, purgeNow), ttl, ops[1..])
      case Consume(state, purgeNow, now) =>
        var (rest, r) := ConsumeItem(items, state, purgeNow, now);
        [r] + StoreAnswers(rest, ttl, ops[1..])
  }

  /** Which save each consume of the log returns. */
  function LogAnswers(log: seq<LogEntry>, ttl: int, ops: seq<Op>): seq<Option<nat>>
    decreases ops
  {
    if ops == [] then []
    else match ops[0]
      case Save(state, pending, now, _) => LogAnswers(LogSave(log, ttl, state, pending, now), ttl, ops[1..])
      case Consume(state, _, now) =>
        var i := Consumable(log, state, now);
        [i] + LogAnswers(Mark(log, i), ttl, ops[1..])
  }

  function FinalLog(log: seq<LogEntry>, ttl: int, ops: seq<Op>): seq<LogEntry>
    decreases ops
  {
    if ops == [] then log
    else match ops[0]
      case Save(state, pending, now, _) => FinalLog(LogSave(log, ttl, state, pending, now), ttl, ops[1..])
      case Consume(state, _, now) => FinalLog(Mark(log, Consumable(log, state, now)), ttl, ops[1..])
  }

  /** The item kept for `state` is the latest unconsumed save; only expired saves may be gone. */
  ghost predicate Represents(items: map<string, KycPending>, log: seq<LogEntry>, now: int, state: string) {
    var i := Latest(log, state);
    && (state in items ==> i.Some? && !log[i.value].consumed && items[state] == log[i.value].pending)
    && (i.Some? && !log[i.value].consumed && now <= log[i.value].pending.expiresAt ==> state in items)
  }

  ghost predicate Refines(items: map<string, KycPending>, log: seq<LogEntry>, now: int) {
    forall s :: Represents(items, log, now, s)
  }

  lemma SaveRefines(items: map<string, KycPending>, log: seq<LogEntry>, t: int, ttl: int,
                    state: string, pending: KycPending, now: int, purgeNow: int)
    requires Refines(items, log, t) && t <= now <= purgeNow
    ensures Refines(SaveItem(items, ttl, state, pending, now, purgeNow), LogSave(log, ttl, state, pending, now),
                    purgeNow)
  {
    var log' := LogSave(log, ttl, state, pending, now);
    forall s ensures Represents(SaveItem(items, ttl, state, pending, now, purgeNow), log', purgeNow, s) {
      assert Represents(items, log, t, s);
      if state != "" {
        assert log'[..|log|] == log;
      }
    }
  }

  lemma {:induction false} LatestOfMark(log: seq<LogEntry>, i: Option<nat>, s: string)
    requires i.Some? ==> i.value < |log|
    ensures Latest(Mark(log, i), s) == Latest(log, s)
  {
    assert forall j | 0 <= j < |log| :: Mark(log, i)[j].state == log[j].state;
  }

  lemma ConsumeRefines(items: map<string, KycPending>, log: seq<LogEntry>, t: int,
                       state: string, purgeNow: int, now: int)
    requires Refines(items, log, t) && t <= purgeNow <= now
    ensures var (items', r) := ConsumeItem(items, state, purgeNow, now);
            var i := Consumable(log, state, now);
            && r == (if i.Some? then Some(log[i.value].pending) else None)
            && Refines(items', Mark(log, i), now)
  {
    var i := Consumable(log, state, now);
    assert Represents(items, log, t, state);
    forall s ensures Represents(ConsumeItem(items, state, purgeNow, now).0, Mark(log, i), now, s) {
      assert Represents(items, log, t, s);
      LatestOfMark(log, i, s);
    }
  }

  function Answer(log: seq<LogEntry>, i: Option<nat>): Option<KycPending> {
    if i.Some? && i.value < |log| then Some(log[i.value].pending) else None
  }

  /** Every sequence of calls under a non-decreasing clock gets the same answers from the
      purging map as from the log. */
  lemma {:induction false} StoreRefinesLog(items: map<string, KycPending>, log: seq<LogEntry>, ttl: int, ops: seq<Op>,
                                           t: int)
    requires Refines(items, log, t) && Monotone(ops, t)
    ensures var picks := LogAnswers(log, ttl, ops);
            && StoreAnswers(items, ttl, ops) ==
               seq(|picks|, k requires 0 <= k < |picks| => Answer(FinalLog(log, ttl, ops), picks[k]))
            && LogGrows(log, FinalLog(log, ttl, ops))
    decreases ops
  {
    if ops != [] {
      match ops[0] {
        case Save(state, pending, now, purgeNow) =>
          SaveRefines(items, log, t, ttl, state, pending, now, purgeNow);
          StoreRefinesLog(SaveItem(items, ttl, state, pending, now, purgeNow),
                          LogSave(log, ttl, state, pending, now), ttl, ops[1..], purgeNow);
        case Consume(state, purgeNow, now) =>
          ConsumeRefines(items, log, t, state, purgeNow, now);
          StoreRefinesLog(ConsumeItem(items, state, purgeNow, now).0,
                          Mark(log, Consumable(log, state, now)), ttl, ops[1..], now);
      }
    }
  }

  /** Saves are never removed or altered, only marked. */
  ghost predicate LogGrows(log: seq<LogEntry>, log': seq<LogEntry>) {
    && |log| <= |log'|
    && forall i | 0 <= i < |log| ::
         log'[i].state == log[i].state && log'[i].pending == log[i].pending && (log[i].consumed ==> log'[i].consumed)
  }

  /** A save a later consume may still return: unconsumed so far, with a non-empty state. */
  ghost predicate Pickable(log: seq<LogEntry>, final: seq<LogEntry>, i: nat) {
    i < |final| && final[i].state != "" && (i < |log| ==> !log[i].consumed)
  }

  ghost predicate PickedOnce(log: seq<LogEntry>, final: seq<LogEntry>, picks: seq<Option<nat>>) {
    && (forall j, k | 0 <= j < k < |picks| && picks[j].Some? :: picks[j] != picks[k])
    && (forall k | 0 <= k < |picks| && picks[k].Some? :: Pickable(log, final, picks[k].value))
  }

  /** Over a whole run each save is returned at most once, only when it was unconsumed at the
      start, and never under the empty state. */
  lemma {:induction false} EachSaveReturnedOnce(log: seq<LogEntry>, ttl: int, ops: seq<Op>)
    requires forall i | 0 <= i < |log| :: log[i].state != ""
    ensures PickedOnce(log, FinalLog(log, ttl, ops), LogAnswers(log, ttl, ops))
    ensures LogGrows(log, FinalLog(log, ttl, ops))
    decreases ops
  {
    if ops != [] {
      match ops[0] {
        case Save(state, pending, now, _) =>
          EachSaveReturnedOnce(LogSave(log, ttl, state, pending, now), ttl, ops[1..]);
        case Consume(state, _, now) =>
          var i := Consumable(log, state, now);
          var log' := Mark(log, i);
          EachSaveReturnedOnce(log', ttl, ops[1..]);
          PickFirst(log, i, FinalLog(log', ttl, ops[1..]), LogAnswers(log', ttl, ops[1..]));
      }
    }
  }

  lemma PickFirst(log: seq<LogEntry>, i: Option<nat>, final: seq<LogEntry>, rest: seq<Option<nat>>)
    requires i.Some? ==> i.value < |log| && log[i.value].state != "" && !log[i.value].consumed
    requires PickedOnce(Mark(log, i), final, rest) && LogGrows(Mark(log, i), final)
    ensures PickedOnce(log, final, [i] + rest) && LogGrows(log, final)
  {
    forall k | 0 <= k < |rest| && rest[k].Some?
      ensures rest[k] != i && Pickable(log, final, rest[k].value)
    {
      assert Pickable(Mark(log, i), final, rest[k].value);
    }
  }
}
