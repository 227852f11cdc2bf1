/** The step machine agrees with the handlers: a call whose steps run without interruption and
    without failure of the database or of Redis does to the tables exactly what the serial
    specification says; a callback does so for every answer of Singpass and either outcome of
    its publish. */
module Alone {
  import opened Model
  import opened Text
  import opened World
  import opened MappingTable
  import opened Tables
  import opened MappingCache
  import opened ProfileUpdate
  import opened ClerkEmail
  import opened KycEmail
  import opened StateStore
  import opened Runs
  import Serial = SerialSpec

  /** The tables without the earlier states of their rows. */
  function DataOf(w: World): Serial.Data {
    Serial.Data(map u | u in w.db.users :: Row(w.db.users[u]), w.db.nextUser, w.db.mappings, w.db.nextMapping)
  }

  /** The same action, `n` times. */
  ghost function Drive(w: World, a: Act, n: nat): World
    decreases n
  {
    if n == 0 then w else Drive(Next(w, a), a, n - 1)
  }

  lemma {:induction false} DoneStays(w: World, a: Act, n: nat)
    requires Next(w, a) == w
    ensures Drive(w, a, n) == w
  {
    hide Next;
    if n > 0 { DoneStays(w, a, n - 1); }
  }

  lemma DriveStep(w: World, a: Act, n: nat)
    requires n > 0
    ensures Drive(w, a, n) == Drive(Next(w, a), a, n - 1)
  {
  }

  lemma {:induction false} DriveSplit(w: World, a: Act, n: nat, k: nat)
    ensures Drive(w, a, n + k) == Drive(Drive(w, a, n), a, k)
    decreases n
  {
    hide Next;
    if n > 0 { DriveSplit(Next(w, a), a, n - 1, k); }
  }

  lemma {:induction false} DriveRuns(w: World, a: Act, n: nat)
    ensures Drive(w, a, n) == Run(w, seq(n, _ => a))
    decreases n
  {
    hide Next;
    if n > 0 {
      DriveRuns(Next(w, a), a, n - 1);
      RunConcat(w, [a], seq(n - 1, _ => a));
      assert [a] + seq(n - 1, _ => a) == seq(n, _ => a);
      assert [a][..0] == [];
    }
  }

  // ----- `UpdateProfile` -----

  lemma {:induction false} UpdateAlone(w: World, t: nat, u: int, req: Option<Request>)
    requires t !in w.updaters.at
    ensures var w' := Drive(Next(w, SpawnUpdater(t, u, req)), UpdaterAct(t, true), 3);
            var (d, error) := Serial.UpdateUser(DataOf(w), u, req);
            DataOf(w') == d && t in w'.updaters.at && w'.updaters.at[t] == UDone(error)
  {
    hide BuildPatch, TrimSpace, IsOneOf, ApplyPatch;
    var a := UpdaterAct(t, true);
    var w1 := Next(w, SpawnUpdater(t, u, req));
    var w2 := Next(w1, a);
    var w3 := Next(w2, a);
    DriveStep(w1, a, 3);
    DriveStep(w2, a, 2);
    DriveStep(w3, a, 1);
    assert Drive(Next(w3, a), a, 0) == Next(w3, a);
    hide Drive;
    if req.Some? && u in w.db.users {
      var row := Row(w.db.users[u]);
      assert DataOf(w).users[u := row] == DataOf(w).users;
      match BuildPatch(row.market, req.value) {
        case Err(_) => DoneStays(w2, a, 2);
        case Ok(None) => DoneStays(w2, a, 2);
        case Ok(Some(p)) =>
          assert w2.updaters.at[t] == UWrite(u, p, Top(w.db.users[u])) && w2.db == w.db;
          assert w3.updaters.at[t] == UDel(u, NextVer(w, u));
          assert DataOf(w3) == Serial.SetUser(DataOf(w), u, ApplyPatch(row, p));
          hide Update;
          assert DataOf(Next(w3, a)) == DataOf(w3);
      }
    } else {
      DoneStays(w2, a, 2);
    }
  }

  // ----- `GetUserProfile` -----

  /** The cache holds an entry for `u` that has not expired. */
  predicate Live(w: World, u: int) { u in w.redis.profiles && w.now < w.redis.profiles[u].expiresAt }

  /** The reader is done with what the serial read answers. */
  predicate RepliesAs(w: World, t: nat, r: Result<Profile, Serial.ReadError>) {
    && t in w.readers.at && w.readers.at[t].RDone?
    && match r
       case Ok(p) => w.readers.at[t].reply.Found? && w.readers.at[t].reply.profile == p
       case Err(NotFound) => w.readers.at[t].reply == NotFound
       case Err(BadArgument) => w.readers.at[t].reply == BadArgument
  }

  /** A read whose two SELECTs succeed and whose Redis get and set end as given. */
  function ReadActs(t: nat, u: int, got: bool, stored: bool): seq<Act> {
    [SpawnReader(t, u), ReaderAct(t, got), ReaderAct(t, true), ReaderAct(t, true), ReaderAct(t, stored)]
  }

  lemma ReadActsRun(w: World, t: nat, u: int, got: bool, stored: bool)
    ensures Run(w, ReadActs(t, u, got, stored)) ==
            Next(Next(Next(Next(Next(w, SpawnReader(t, u)), ReaderAct(t, got)), ReaderAct(t, true)),
                      ReaderAct(t, true)),
                 ReaderAct(t, stored))
  {
    hide Next, Run;
    var r := ReaderAct(t, true);
    Run4(w, SpawnReader(t, u), ReaderAct(t, got), r, r);
    RunSnoc(w, [SpawnReader(t, u), ReaderAct(t, got), r, r], ReaderAct(t, stored));
    assert [SpawnReader(t, u), ReaderAct(t, got), r, r] + [ReaderAct(t, stored)] == ReadActs(t, u, got, stored);
  }

  lemma ReadDoneStands(w: World, t: nat, ok: bool)
    requires t in w.readers.at && w.readers.at[t].RDone?
    ensures Next(w, ReaderAct(t, ok)) == w
  {
  }

  /** Whatever the Redis set ends in, and whether the get succeeds or fails: a hit replies with
      the entry; a miss or a failed get with the join of the tables or the serial error. */
  lemma ReadAlone(w: World, t: nat, u: int, got: bool, stored: bool)
    requires t !in w.readers.at
    ensures var w' := Run(w, ReadActs(t, u, got, stored));
            && DataOf(w') == DataOf(w)
            && RepliesAs(w', t, if u > 0 && got && Live(w, u) then Ok(w.redis.profiles[u].profile)
                                else Serial.ReadProfile(DataOf(w), u))
  {
    ReadActsRun(w, t, u, got, stored);
    hide Run, Next, RepliesAs, Row, Top, DataOf;
    if u <= 0 || (got && Live(w, u)) {
      ReadHits(w, t, u, got, stored);
    } else {
      ReadGoesOn(w, t, u, got);
      var w2 := Next(Next(w, SpawnReader(t, u)), ReaderAct(t, got));
      var w3 := Next(w2, ReaderAct(t, true));
      if u !in w.db.users {
        ReadDoneStands(w3, t, true);
        ReadDoneStands(w3, t, stored);
        RepliesNotFound(w, w3, t, u);
      } else {
        ReadMisses(w, w3, t, u, stored);
      }
    }
  }

  lemma ReadGoesOn(w: World, t: nat, u: int, got: bool)
    requires t !in w.readers.at && u > 0 && !(got && Live(w, u))
    ensures var w3 := Next(Next(Next(w, SpawnReader(t, u)), ReaderAct(t, got)), ReaderAct(t, true));
            w3 == w.(readers := w.readers.Put(t, if u !in w.db.users then RDone(u, NotFound)
                                                 else RMapping(u, Row(w.db.users[u]), Top(w.db.users[u]), w.now)))
  {
    hide Row, Top;
    var w1 := Next(w, SpawnReader(t, u));
    assert w1 == w.(readers := w.readers.Put(t, RGet(u)));
    var w2 := Next(w1, ReaderAct(t, got));
    assert w2 == w.(readers := w.readers.Put(t, RUser(u)));
  }

  lemma ReadHits(w: World, t: nat, u: int, got: bool, stored: bool)
    requires t !in w.readers.at && (u <= 0 || (got && Live(w, u)))
    ensures var w' := Next(Next(Next(Next(Next(w, SpawnReader(t, u)), ReaderAct(t, got)), ReaderAct(t, true)),
                                ReaderAct(t, true)), ReaderAct(t, stored));
            && DataOf(w') == DataOf(w)
            && RepliesAs(w', t, if u > 0 then Ok(w.redis.profiles[u].profile) else Err(Serial.BadArgument))
  {
    var w2 := Next(Next(w, SpawnReader(t, u)), ReaderAct(t, got));
    assert w2.readers.at[t].RDone? && w2.db == w.db;
    ReadDoneStands(w2, t, true);
    ReadDoneStands(w2, t, stored);
  }

  lemma RepliesNotFound(w: World, w3: World, t: nat, u: int)
    requires w3 == w.(readers := w.readers.Put(t, RDone(u, NotFound))) && u > 0 && u !in w.db.users
    ensures RepliesAs(w3, t, Serial.ReadProfile(DataOf(w), u)) && DataOf(w3) == DataOf(w)
  {
    hide First;
  }

  lemma ReadMisses(w: World, w3: World, t: nat, u: int, stored: bool)
    requires u > 0 && u in w.db.users
    requires w3 == w.(readers := w.readers.Put(t, RMapping(u, Row(w.db.users[u]), Top(w.db.users[u]), w.now)))
    ensures var w' := Next(Next(w3, ReaderAct(t, true)), ReaderAct(t, stored));
            DataOf(w') == DataOf(w) && RepliesAs(w', t, Serial.ReadProfile(DataOf(w), u))
  {
    hide First, Row, Top;
    var w4 := Next(w3, ReaderAct(t, true));
    assert w4.db == w.db && DataOf(w4) == DataOf(w);
    if MappingOf(w, u).None? { ReadDoneStands(w4, t, stored); }
  }

  // ----- `SingpassCallback` -----

  function InfoOf(s: Serial.Singpass): Option<UserInfo> { if s.Info? then s.info else None }

  /** How the statement, the cache delete and the publish of a callback end. */
  datatype Ends = Ends(written: bool, dropped: bool, published: bool)

  /** A callback whose token and user info requests end as Singpass answers, and the rest as
      given. */
  function CallbackActs(t: nat, state: string, s: Serial.Singpass, ends: Ends): seq<Act> {
    var i := InfoOf(s);
    [SpawnCallback(t, state), CallbackAct(t, true, i), CallbackAct(t, !s.NoToken?, i), CallbackAct(t, s.Info?, i),
     CallbackAct(t, ends.written, i), CallbackAct(t, ends.dropped, i), CallbackAct(t, ends.published, i)]
  }

  ghost function FromWrite(w: World, t: nat, i: Option<UserInfo>, ends: Ends): World {
    Next(Next(Next(w, CallbackAct(t, ends.written, i)), CallbackAct(t, ends.dropped, i)),
         CallbackAct(t, ends.published, i))
  }

  ghost function FromToken(w: World, t: nat, s: Serial.Singpass, ends: Ends): World {
    var i := InfoOf(s);
    FromWrite(Next(Next(w, CallbackAct(t, !s.NoToken?, i)), CallbackAct(t, s.Info?, i)), t, i, ends)
  }

  lemma CallbackActsRun(w: World, t: nat, state: string, s: Serial.Singpass, ends: Ends)
    ensures Run(w, CallbackActs(t, state, s, ends)) ==
            FromToken(Next(Next(w, SpawnCallback(t, state)), CallbackAct(t, true, InfoOf(s))), t, s, ends)
  {
    hide Next, Run;
    var i := InfoOf(s);
    var a, b := [SpawnCallback(t, state), CallbackAct(t, true, i), CallbackAct(t, !s.NoToken?, i),
                 CallbackAct(t, s.Info?, i)],
                [CallbackAct(t, ends.written, i), CallbackAct(t, ends.dropped, i), CallbackAct(t, ends.published, i)];
    Run4(w, a[0], a[1], a[2], a[3]);
    Run3(Run(w, a), b[0], b[1], b[2]);
    RunConcat(w, a, b);
    assert a + b == CallbackActs(t, state, s, ends);
  }

  lemma DoneStands(w: World, t: nat, ok: bool, i: Option<UserInfo>)
    requires t in w.callbacks.at && w.callbacks.at[t].KDone?
    ensures Next(w, CallbackAct(t, ok, i)) == w
  {
  }

  lemma ConsumeNext(w: World, t: nat, state: string, info: Option<UserInfo>)
    requires t !in w.callbacks.at
    ensures var w' := Next(Next(w, SpawnCallback(t, state)), CallbackAct(t, true, info));
            var i, c := Consumable(w.store.log, state, w.now), |w.history.consumes|;
            && w'.store.log == Mark(w.store.log, i) && DataOf(w') == DataOf(w) && w'.topics == w.topics
            && w'.now == w.now && t in w'.callbacks.at
            && if i.None? then w'.callbacks.at[t] == KDone(Some(InvalidOAuthState))
               else w'.callbacks.at[t] == KToken(c) && PendingOf(w', c) == w.store.log[i.value].pending
  {
    hide Consumable;
    var w1 := Next(w, SpawnCallback(t, state));
    assert w1 == w.(callbacks := w.callbacks.Put(t, KConsume(state)));
  }

  /** The events this call published, with the status and user of each. */
  ghost predicate Publishes(w: World, w': World, kyc: seq<(int, string)>) {
    && |w'.topics.kyc| == |w.topics.kyc| + |kyc| && w.topics.kyc <= w'.topics.kyc
    && forall j | 0 <= j < |kyc| ::
         (w'.topics.kyc[|w.topics.kyc| + j].userId, w'.topics.kyc[|w.topics.kyc| + j].status) == kyc[j]
  }

  /** For every answer of Singpass and every outcome of the statement, the cache delete and the
      publish: a callback whose UPDATE fails ends in that error with tables and topics as they
      were; any other does what the serial one does. The binding store may be the purging map:
      it answers like the log. */
  lemma {:induction false} CallbackAlone(w: World, items: map<string, KycPending>, t: nat, state: string,
                                         s: Serial.Singpass, ends: Ends)
    requires t !in w.callbacks.at && Refines(items, w.store.log, w.now)
    ensures var w' := Run(w, CallbackActs(t, state, s, ends));
            var was := Serial.State(DataOf(w), items, [], []);
            var (now, error) := Serial.Callback(was, state, s, ends.published, w.now);
            && Refines(now.items, w'.store.log, w'.now) && t in w'.callbacks.at
            && if (error == None || error == Some(PublishFailed)) && !ends.written
               then w'.callbacks.at[t] == KDone(Some(WriteFailed)) && DataOf(w') == DataOf(w) && w'.topics == w.topics
               else w'.callbacks.at[t] == KDone(error) && DataOf(w') == now.data && Publishes(w, w', now.kyc)
  {
    CallbackActsRun(w, t, state, s, ends);
    hide EmailsMatchForKyc, KycStatusOf, Consumable, ConsumeItem, Refines, PendingOf, Mark, Next, DataOf, Run,
         CallbackActs, FromToken;
    ConsumeRefines(items, w.store.log, w.now, state, w.now, w.now);
    ConsumeNext(w, t, state, InfoOf(s));
    var w2 := Next(Next(w, SpawnCallback(t, state)), CallbackAct(t, true, InfoOf(s)));
    if Consumable(w.store.log, state, w.now).None? {
      DoneFromToken(w2, t, s, ends);
    } else {
      CallbackFromToken(w2, t, |w.history.consumes|, s, ends);
    }
  }

  lemma DoneFromWrite(w: World, t: nat, i: Option<UserInfo>, ends: Ends)
    requires t in w.callbacks.at && w.callbacks.at[t].KDone?
    ensures FromWrite(w, t, i, ends) == w
  {
    hide Next;
    DoneStands(w, t, ends.written, i);
    DoneStands(w, t, ends.dropped, i);
    DoneStands(w, t, ends.published, i);
  }

  lemma DoneFromToken(w: World, t: nat, s: Serial.Singpass, ends: Ends)
    requires t in w.callbacks.at && w.callbacks.at[t].KDone?
    ensures FromToken(w, t, s, ends) == w
  {
    hide Next, FromWrite;
    DoneStands(w, t, !s.NoToken?, InfoOf(s));
    DoneStands(w, t, s.Info?, InfoOf(s));
    DoneFromWrite(w, t, InfoOf(s), ends);
  }

  /** Nothing is written and the call ends with this error. */
  ghost predicate Fails(w: World, w': World, t: nat, error: KycError) {
    && t in w'.callbacks.at && w'.callbacks.at[t] == KDone(Some(error))
    && w'.store == w.store && w'.now == w.now && w'.topics == w.topics && DataOf(w') == DataOf(w)
  }

  /** The status is written and its event published, unless the statement or the publish fails. */
  ghost predicate CompletesKyc(w: World, w': World, t: nat, u: int, got: UserInfo, ends: Ends) {
    if !ends.written then Fails(w, w', t, WriteFailed)
    else
      && t in w'.callbacks.at && w'.callbacks.at[t] == KDone(if ends.published then None else Some(PublishFailed))
      && w'.store == w.store && w'.now == w.now
      && DataOf(w') == Serial.SetStatus(DataOf(w), u, KycStatusOf(got))
      && w'.topics.kyc == if ends.published then w.topics.kyc + [KycEvent(u, KycStatusOf(got), |w.history.kycWrites|)]
                          else w.topics.kyc
  }

  lemma CallbackFromToken(w: World, t: nat, c: nat, s: Serial.Singpass, ends: Ends)
    requires t in w.callbacks.at && w.callbacks.at[t] == KToken(c)
    ensures var w' := FromToken(w, t, s, ends);
            var got := if InfoOf(s).Some? then InfoOf(s).value else UserInfo("", "");
            var pending := PendingOf(w, c);
            if s.NoToken? then Fails(w, w', t, TokenFailed)
            else if s.NoInfo? then Fails(w, w', t, InfoFailed)
            else if pending.email != "" && !EmailsMatchForKyc(pending.email, got.email)
                 then Fails(w, w', t, EmailMismatch)
            else CompletesKyc(w, w', t, pending.internalUserId, got, ends)
  {
    hide EmailsMatchForKyc, KycStatusOf, CompletesKyc, Next, FromWrite;
    var i := InfoOf(s);
    var got := if i.Some? then i.value else UserInfo("", "");
    InfoNext(w, t, c, s);
    var w2 := Next(Next(w, CallbackAct(t, !s.NoToken?, i)), CallbackAct(t, s.Info?, i));
    if w2.callbacks.at[t].KDone? {
      DoneFromWrite(w2, t, i, ends);
      assert DataOf(w2) == DataOf(w);
    } else {
      CallbackFromWrite(w2, t, c, got, i, ends);
      SameOutcome(w, w2, FromWrite(w2, t, i, ends), t, PendingOf(w, c).internalUserId, got, ends);
    }
  }

  lemma InfoNext(w: World, t: nat, c: nat, s: Serial.Singpass)
    requires t in w.callbacks.at && w.callbacks.at[t] == KToken(c)
    ensures var w' := Next(Next(w, CallbackAct(t, !s.NoToken?, InfoOf(s))), CallbackAct(t, s.Info?, InfoOf(s)));
            var got := if InfoOf(s).Some? then InfoOf(s).value else UserInfo("", "");
            && w' == w.(callbacks := w'.callbacks) && Moves(w.callbacks, w'.callbacks, t)
            && PendingOf(w', c) == PendingOf(w, c)
            && w'.callbacks.at[t] ==
               if s.NoToken? then KDone(Some(TokenFailed))
               else if s.NoInfo? then KDone(Some(InfoFailed))
               else if PendingOf(w, c).email != "" && !EmailsMatchForKyc(PendingOf(w, c).email, got.email)
               then KDone(Some(EmailMismatch)) else KWrite(c, got)
  {
    hide EmailsMatchForKyc;
    var next := if s.NoToken? then KDone(Some(TokenFailed)) else KInfo(c);
    var w1 := Next(w, CallbackAct(t, !s.NoToken?, InfoOf(s)));
    assert w1 == w.(callbacks := w.callbacks.Put(t, next)) && PendingOf(w1, c) == PendingOf(w, c);
    var w2 := Next(w1, CallbackAct(t, s.Info?, InfoOf(s)));
    assert w.callbacks.at[t := next][t := w2.callbacks.at[t]] == w.callbacks.at[t := w2.callbacks.at[t]];
  }

  lemma SameOutcome(w: World, w0: World, w': World, t: nat, u: int, got: UserInfo, ends: Ends)
    requires CompletesKyc(w0, w', t, u, got, ends)
    requires w0.db == w.db && w0.topics == w.topics && w0.history == w.history && w0.store == w.store && w0.now == w.now
    ensures CompletesKyc(w, w', t, u, got, ends)
  {
    hide KycStatusOf;
    assert DataOf(w0) == DataOf(w);
  }

  lemma WriteNext(w: World, t: nat, c: nat, got: UserInfo, info: Option<UserInfo>)
    requires t in w.callbacks.at && w.callbacks.at[t] == KWrite(c, got)
    ensures var w', u, k := Next(w, CallbackAct(t, true, info)), PendingOf(w, c).internalUserId, |w.history.kycWrites|;
            var x := KycWrite(u, KycStatusOf(got), c, got, u in w.db.users);
            && w' == w.(db := w.db.(users := w'.db.users), callbacks := w.callbacks.Put(t, KDel(u, k, NextVer(w, u))),
                        history := w.history.(kycWrites := w.history.kycWrites + [x]))
            && DataOf(w') == Serial.SetStatus(DataOf(w), u, KycStatusOf(got))
  {
    hide KycStatusOf, PendingOf;
  }

  lemma CallbackFromWrite(w: World, t: nat, c: nat, got: UserInfo, info: Option<UserInfo>, ends: Ends)
    requires t in w.callbacks.at && w.callbacks.at[t] == KWrite(c, got)
    ensures CompletesKyc(w, FromWrite(w, t, info, ends), t, PendingOf(w, c).internalUserId, got, ends)
  {
    hide KycStatusOf, PendingOf;
    var w1 := Next(w, CallbackAct(t, ends.written, info));
    var w2 := Next(w1, CallbackAct(t, ends.dropped, info));
    if !ends.written {
      assert w1 == w.(callbacks := w.callbacks.Put(t, KDone(Some(WriteFailed))));
      DoneStands(w1, t, ends.dropped, info);
      DoneStands(w1, t, ends.published, info);
      assert DataOf(w1) == DataOf(w);
    } else {
      WriteNext(w, t, c, got, info);
      var u, k := PendingOf(w, c).internalUserId, |w.history.kycWrites|;
      assert WriteOf(w1, k) == KycWrite(u, KycStatusOf(got), c, got, u in w.db.users);
      hide Update;
      assert w2.callbacks.at[t] == KPub(k) && w2.db == w1.db && w2.store == w.store && w2.now == w.now
             && w2.topics == w.topics;
      assert WriteOf(w2, k) == WriteOf(w1, k);
      hide WriteOf;
      var w3 := Next(w2, CallbackAct(t, ends.published, info));
      assert DataOf(w3) == DataOf(w1);
    }
  }

  // ----- `CreateUser` -----

  /** The state the serial specification gives. */
  ghost predicate Creates(w: World, w': World, t: nat, d: Serial.Data, outcome: Outcome) {
    && DataOf(w') == d && w'.creators == w.creators.Put(t, CDone(outcome))
    && w'.topics.registered == if outcome.Created? then w.topics.registered + [outcome.userId] else w.topics.registered
  }

  function InsertedRows(d: Serial.Data, clerk: string, email: string, name: string, now: int): Serial.Data {
    var user := User(d.nextUser, name, "", "", "", KYC_PENDING, "", now);
    Serial.Data(d.users[user.id := user], d.nextUser + 1,
                d.mappings[d.nextMapping := UserAuthMapping(d.nextMapping, clerk, email, user.id, ROLE_USER)],
                d.nextMapping + 1)
  }

  lemma PublishAlone(w: World, t: nat, u: int, name: string)
    requires t in w.creators.at && w.creators.at[t] == CInval(u)
    ensures Creates(w, Drive(w, CreatorAct(t, true, name), 2), t, DataOf(w), Created(u))
  {
    var a := CreatorAct(t, true, name);
    var w1 := Next(w, a);
    DriveStep(w, a, 2);
    DriveStep(w1, a, 1);
    assert Drive(Next(w1, a), a, 0) == Next(w1, a);
    hide Drive;
    assert w1.creators == w.creators.Put(t, CPub(u)) && w1.db == w.db && w1.topics == w.topics;
    assert DataOf(Next(w1, a)) == DataOf(w);
  }

  lemma CommitNext(w: World, t: nat, user: User, row: UserAuthMapping, name: string)
    requires t in w.creators.at && w.creators.at[t] == CDelAfter(user, row)
    ensures var w' := Next(Next(w, CreatorAct(t, true, name)), CreatorAct(t, true, name));
            && w'.creators == w.creators.Put(t, CInval(user.id)) && w'.topics == w.topics && w'.now == w.now
            && w'.db == w.db.(users := w.db.users[user.id := [Rev(user, w.now, Inserted, 0)]],
                              mappings := w.db.mappings[row.id := row])
  {
    var w1 := Next(w, CreatorAct(t, true, name));
    assert w1 == w.(redis := w1.redis, creators := w.creators.Put(t, CCommit(user, row)));
  }

  lemma CommitAlone(w: World, t: nat, user: User, row: UserAuthMapping, name: string)
    requires t in w.creators.at && w.creators.at[t] == CDelAfter(user, row)
    ensures var d := DataOf(w);
            Creates(w, Drive(w, CreatorAct(t, true, name), 4), t,
                    d.(users := d.users[user.id := user], mappings := d.mappings[row.id := row]), Created(user.id))
  {
    hide Next, Creates;
    var a := CreatorAct(t, true, name);
    var w2 := Next(Next(w, a), a);
    DriveStep(w, a, 4);
    DriveStep(Next(w, a), a, 3);
    hide Drive;
    CommitNext(w, t, user, row, name);
    var d := DataOf(w).(users := DataOf(w).users[user.id := user], mappings := w.db.mappings[row.id := row]);
    assert DataOf(w2) == d;
    PublishAlone(w2, t, user.id, name);
    SameCreation(w, w2, Drive(w2, a, 2), t, d, Created(user.id));
  }

  /** No transaction is waiting to commit a mapping. */
  ghost predicate NoneHolds(w: World) {
    forall s | s in w.creators.at :: !w.creators.at[s].Holds()
  }

  lemma MappingAlone(w: World, t: nat, clerk: string, email: string, user: User, name: string)
    requires t in w.creators.at && w.creators.at[t] == CMapping(clerk, email, user) && MappingFor(w, clerk).None?
             && NoneHolds(w)
    ensures var row, d := UserAuthMapping(w.db.nextMapping, clerk, email, user.id, ROLE_USER), DataOf(w);
            Creates(w, Drive(w, CreatorAct(t, true, name), 5), t,
                    d.(users := d.users[user.id := user], mappings := d.mappings[row.id := row],
                       nextMapping := row.id + 1),
                    Created(user.id))
  {
    hide First, Collate, MappingFor, Creates;
    assert !KeyLocked(w, t, clerk);
    hide KeyLocked, NoneHolds;
    var a := CreatorAct(t, true, name);
    var w1 := Next(w, a);
    DriveStep(w, a, 5);
    hide Drive;
    var row := UserAuthMapping(w.db.nextMapping, clerk, email, user.id, ROLE_USER);
    assert w1 == w.(db := w.db.(nextMapping := row.id + 1), creators := w.creators.Put(t, CDelAfter(user, row)));
    hide Next;
    CommitAlone(w1, t, user, row, name);
    assert DataOf(w1) == DataOf(w).(nextMapping := row.id + 1);
    SameCreation(w, w1, Drive(w1, a, 4), t,
                 DataOf(w1).(users := DataOf(w1).users[user.id := user], mappings := w1.db.mappings[row.id := row]),
                     Created(user.id));
  }

  lemma OpenNext(w: World, t: nat, clerk: string, email: string, name: string)
    requires t in w.creators.at && w.creators.at[t] == CUser(clerk, email) && NoneHolds(w)
    ensures var user := User(w.db.nextUser, name, "", "", "", KYC_PENDING, "", w.now);
            var w' := Next(Next(w, CreatorAct(t, true, name)), CreatorAct(t, true, name));
            && NoneHolds(w')
            && w' == w.(db := w.db.(nextUser := user.id + 1), redis := w'.redis,
                        creators := w.creators.Put(t, CMapping(clerk, email, user)))
  {
    hide First, Collate;
    var w1 := Next(w, CreatorAct(t, true, name));
    var user := User(w.db.nextUser, name, "", "", "", KYC_PENDING, "", w.now);
    assert w1 ==
        w.(db := w.db.(nextUser := user.id + 1), creators := w.creators.Put(t, CDelBefore(clerk, email, user)));
  }

  lemma InsertAlone(w: World, t: nat, clerk: string, email: string, name: string)
    requires t in w.creators.at && w.creators.at[t] == CUser(clerk, email) && MappingFor(w, clerk).None? && NoneHolds(w)
    ensures Creates(w, Drive(w, CreatorAct(t, true, name), 7), t, InsertedRows(DataOf(w), clerk, email, name, w.now),
                    Created(w.db.nextUser))
  {
    hide First, Collate, Creates, Next, NoneHolds;
    var a := CreatorAct(t, true, name);
    var w2 := Next(Next(w, a), a);
    DriveStep(w, a, 7);
    DriveStep(Next(w, a), a, 6);
    hide Drive;
    OpenNext(w, t, clerk, email, name);
    var user := User(w.db.nextUser, name, "", "", "", KYC_PENDING, "", w.now);
    MappingAlone(w2, t, clerk, email, user, name);
    assert DataOf(w2) == DataOf(w).(nextUser := user.id + 1);
    SameCreation(w, w2, Drive(w2, a, 5), t, InsertedRows(DataOf(w), clerk, email, name, w.now), Created(user.id));
  }

  lemma CreatedStays(w: World, t: nat, name: string, n: nat)
    requires t in w.creators.at && w.creators.at[t].CDone?
    ensures Drive(w, CreatorAct(t, true, name), n) == w
  {
    DoneStays(w, CreatorAct(t, true, name), n);
  }

  lemma SameCreation(w: World, w0: World, w': World, t: nat, d: Serial.Data, outcome: Outcome)
    requires Creates(w0, w', t, d, outcome) && w0.topics == w.topics && Moves(w.creators, w0.creators, t)
    ensures Creates(w, w', t, d, outcome)
  {
    var done := CDone(outcome);
    assert w.creators.at[t := w0.creators.at[t]][t := done] == w.creators.at[t := done];
  }

  ghost predicate Registers(w: World, w': World, t: nat, clerk: string, email: string, name: string) {
    if MappingFor(w, clerk).Some? || First(w.db.mappings, ByEmail(email), w.db.nextMapping).Some?
    then Creates(w, w', t, DataOf(w), Exists)
    else Creates(w, w', t, InsertedRows(DataOf(w), clerk, email, name, w.now), Created(w.db.nextUser))
  }

  /** From the email check on. */
  lemma EmailAlone(w: World, t: nat, clerk: string, email: string, name: string, extra: nat)
    requires t in w.creators.at && w.creators.at[t] == CEmail(clerk, email) && MappingFor(w, clerk).None?
             && NoneHolds(w)
    ensures Registers(w, Drive(w, CreatorAct(t, true, name), 8 + extra), t, clerk, email, name)
  {
    hide First, Collate;
    var a := CreatorAct(t, true, name);
    var w1 := Next(w, a);
    DriveStep(w, a, 8 + extra);
    hide Drive;
    if First(w.db.mappings, ByEmail(email), w.db.nextMapping).Some? {
      CreatedStays(w1, t, name, 7 + extra);
      assert DataOf(w1) == DataOf(w);
    } else {
      assert w1 == w.(creators := w.creators.Put(t, CUser(clerk, email)));
      hide Next, Creates;
      InsertAlone(w1, t, clerk, email, name);
      DriveSplit(w1, a, 7, extra);
      var d := InsertedRows(DataOf(w), clerk, email, name, w.now);
      assert DataOf(w1) == DataOf(w);
      SameCreation(w, w1, Drive(w1, a, 7), t, d, Created(w.db.nextUser));
      CreationStays(w, Drive(w1, a, 7), t, d, Created(w.db.nextUser), name, extra);
    }
  }

  lemma CreationStays(w: World, w': World, t: nat, d: Serial.Data, outcome: Outcome, name: string, n: nat)
    requires Creates(w, w', t, d, outcome)
    ensures Creates(w, Drive(w', CreatorAct(t, true, name), n), t, d, outcome)
  {
    hide Drive;
    CreatedStays(w', t, name, n);
  }

  /** From the end of the lookup on. */
  lemma CheckAlone(w: World, t: nat, clerk: string, email: string, known: bool, name: string, extra: nat)
    requires t in w.creators.at && w.creators.at[t] == CLook(LDone(clerk, MappingFor(w, clerk)), email, known)
             && NoneHolds(w)
    ensures Registers(w, Drive(w, CreatorAct(t, true, name), 9 + extra), t, clerk, email, name)
  {
    hide First, Collate;
    var a := CreatorAct(t, true, name);
    var w1 := Next(w, a);
    DriveStep(w, a, 9 + extra);
    hide Drive;
    if MappingFor(w, clerk).Some? {
      CreatedStays(w1, t, name, 8 + extra);
      assert DataOf(w1) == DataOf(w);
    } else {
      assert w1 == w.(creators := w.creators.Put(t, CEmail(clerk, email)));
      hide Next, Registers;
      EmailAlone(w1, t, clerk, email, name, extra);
      SameRegistration(w, w1, Drive(w1, a, 8 + extra), t, clerk, email, name);
    }
  }

  lemma SameRegistration(w: World, w0: World, w': World, t: nat, clerk: string, email: string, name: string)
    requires Registers(w0, w', t, clerk, email, name) && w0.topics == w.topics && w0.db == w.db && w0.now == w.now
    requires Moves(w.creators, w0.creators, t)
    ensures Registers(w, w', t, clerk, email, name)
  {
    hide First, Creates;
    assert DataOf(w0) == DataOf(w);
    var d, d' := DataOf(w), InsertedRows(DataOf(w), clerk, email, name, w.now);
    if Creates(w0, w', t, d, Exists) { SameCreation(w, w0, w', t, d, Exists); }
    var created := Created(w.db.nextUser);
    if Creates(w0, w', t, d', created) { SameCreation(w, w0, w', t, d', created); }
  }

  lemma LookupNext(w: World, t: nat, l: Lookup, email: string, known: bool, name: string)
    requires t in w.creators.at && w.creators.at[t] == CLook(l, email, known) && !l.LDone? && !l.LFailed?
    ensures var w' := Next(w, CreatorAct(t, true, name));
            w' == w.(redis := w'.redis, creators := w.creators.Put(t, CLook(LookupStep(w, l, true), email, known)))
  {
    hide LookupStep, LookupCache;
  }

  /** From a read of the table on. */
  lemma MissAlone(w: World, t: nat, clerk: string, email: string, known: bool, name: string)
    requires t in w.creators.at && w.creators.at[t] == CLook(LRead(clerk), email, known) && NoneHolds(w)
    ensures Registers(w, Drive(w, CreatorAct(t, true, name), 11), t, clerk, email, name)
  {
    hide First, Collate, MappingFor, Next;
    var a := CreatorAct(t, true, name);
    var w1 := Next(w, a);
    DriveStep(w, a, 11);
    DriveStep(w1, a, 10);
    hide Drive, Registers;
    LookupNext(w, t, LRead(clerk), email, known, name);
    SameMappings(w, w1, clerk);
    if MappingFor(w, clerk).None? {
      CheckAlone(w1, t, clerk, email, known, name, 1);
      SameRegistration(w, w1, Drive(w1, a, 10), t, clerk, email, name);
    } else {
      var w2 := Next(w1, a);
      LookupNext(w1, t, LSet(clerk, MappingFor(w, clerk).value), email, known, name);
      SameMappings(w, w2, clerk);
      CheckAlone(w2, t, clerk, email, known, name, 0);
      SameRegistration(w, w2, Drive(w2, a, 9), t, clerk, email, name);
    }
  }

  lemma LookupAlone(w: World, t: nat, clerk: string, email: string, known: bool, name: string)
    requires TableInv(w) && MappingCacheInv(w) && t in w.creators.at
             && w.creators.at[t] == CLook(LGet(clerk), email, known)
    requires NoneHolds(w)
    ensures Registers(w, Drive(w, CreatorAct(t, true, name), 12), t, clerk, email, name)
  {
    if clerk in w.redis.mappings { CommittedIsRead(w, w.redis.mappings[clerk], clerk); }
    hide First, Collate, TableInv, Registers, MappingCacheInv, MappingFor, Next;
    var a := CreatorAct(t, true, name);
    var w1 := Next(w, a);
    DriveStep(w, a, 12);
    hide Drive;
    LookupNext(w, t, LGet(clerk), email, known, name);
    SameMappings(w, w1, clerk);
    if clerk != "" && clerk in w.redis.mappings {
      CheckAlone(w1, t, clerk, email, known, name, 2);
    } else {
      MissAlone(w1, t, clerk, email, known, name);
    }
    SameRegistration(w, w1, Drive(w1, a, 11), t, clerk, email, name);
  }

  lemma SameMappings(w: World, w': World, clerk: string)
    requires w'.db == w.db
    ensures MappingFor(w', clerk) == MappingFor(w, clerk)
  {
    hide First;
  }

  /** `CreateUser` from any reachable state in which no other transaction is open. */
  lemma {:induction false} CreateAlone(w: World, t: nat, webhook: Option<ClerkCallbackData>, name: string)
    requires TableInv(w) && MappingCacheInv(w) && t !in w.creators.at && NoneHolds(w)
    ensures var (d, outcome) := Serial.Register(DataOf(w), webhook, name, w.now);
            Creates(w, Drive(Next(w, SpawnCreator(t, webhook)), CreatorAct(t, true, name), 12), t, d, outcome)
  {
    NextKeepsTables(w, SpawnCreator(t, webhook));
    NextKeepsMappings(w, SpawnCreator(t, webhook));
    hide SelectEmail, ClerkUserId, First, Drive, Collate, TableInv, MappingCacheInv, Registers;
    var a := CreatorAct(t, true, name);
    var w1 := Next(w, SpawnCreator(t, webhook));
    var email, clerk := SelectEmail(webhook), ClerkUserId(webhook);
    if email == "" {
      CreatedStays(w1, t, name, 12);
    } else {
      LookupAlone(w1, t, clerk, email, w1.creators.at[t].known, name);
      SameRegistration(w, w1, Drive(w1, a, 12), t, clerk, email, name);
      RegistersAsSpecified(w, Drive(w1, a, 12), t, webhook, name);
    }
  }

  lemma RegistersAsSpecified(w: World, w': World, t: nat, webhook: Option<ClerkCallbackData>, name: string)
    requires SelectEmail(webhook) != "" && Registers(w, w', t, ClerkUserId(webhook), SelectEmail(webhook), name)
    ensures var (d, outcome) := Serial.Register(DataOf(w), webhook, name, w.now); Creates(w, w', t, d, outcome)
  {
    hide SelectEmail, ClerkUserId, First, Collate, Creates;
  }
}
