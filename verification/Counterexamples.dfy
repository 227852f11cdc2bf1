/** Runs that show the conditions of the main results are needed. */
module Counterexamples {
  import opened Model
  import opened Text
  import opened World
  import opened MappingTable
  import opened Tables
  import opened ProfileUpdate
  import opened Runs
  import opened Alone
  import opened ProfileCacheRuns
  import opened ClerkEmail
  import opened KycEmail
  import opened StateStore
  import SerialSpec

  /** One user without a market, and its mapping. */
  function Seeded(): World {
    World(0,
          Db(map[1 := [Rev(User(1, "Ann", "", "", "", KYC_PENDING, "", 0), 0, Inserted, 0)]], 2,
             map[0 := UserAuthMapping(0, "c", "a@x", 1, ROLE_USER)], 1),
          Redis(map[], map[]), Store([]), Topics([], []),
          Pool(map[]), Pool(map[]), Pool(map[]), Pool(map[]), Pool(map[]),
          History([], [], [], {}, 0, 2, 1))
  }

  lemma SeededStarts()
    ensures Start(Seeded())
  {
    hide Collate;
    var w := Seeded();
    assert RowOk(w, 1) by {
      assert RevOk(w.db.users[1], 0, 1, 0);
    }
    assert MappingOk(w, 0);
  }

  function Asks(market: string): Option<Request> { Some(Request("", "", market)) }

  lemma MarketsListed()
    ensures IsValidMarket("SG") && IsValidMarket("GLOBAL")
  {
    assert MARKETS[0] == "GLOBAL" && MARKETS[1..][0] == "SG";
  }

  lemma AsksBuilds(market: string)
    requires market == "SG" || market == "GLOBAL"
    ensures BuildPatch("", Asks(market).value) == Ok(Some(Patch("", "", market)))
  {
    hide TrimSpace, IsOneOf;
    MarketsListed();
    assert Trimmed(market) && Trimmed("");
    hide Trimmed, IsSpace, IsValidMarket;
  }

  /** Two overlapping updates can both set the market: the second overwrites the first. */
  lemma {:induction false} RacingUpdatesOverwriteMarket() returns (acts: seq<Act>, j: nat)
    ensures Start(Seeded()) && j <= |acts|
    ensures 1 in At(Seeded(), acts, j).db.users && Row(At(Seeded(), acts, j).db.users[1]).market == "SG"
    ensures 1 in Run(Seeded(), acts).db.users && Row(Run(Seeded(), acts).db.users[1]).market == "GLOBAL"
  {
    SeededStarts();
    hide BuildPatch;
    var w := Seeded();
    acts := [];
    RunSnoc(w, acts, SpawnUpdater(1, 1, Asks("SG")));
    acts := acts + [SpawnUpdater(1, 1, Asks("SG"))];
    RunSnoc(w, acts, SpawnUpdater(2, 1, Asks("GLOBAL")));
    acts := acts + [SpawnUpdater(2, 1, Asks("GLOBAL"))];
    RunSnoc(w, acts, UpdaterAct(1, true));
    acts := acts + [UpdaterAct(1, true)];
    AsksBuilds("SG");
    AsksBuilds("GLOBAL");
    RunSnoc(w, acts, UpdaterAct(2, true));
    acts := acts + [UpdaterAct(2, true)];
    assert Run(w, acts).updaters.at[2] == UWrite(1, Patch("", "", "GLOBAL"), 0);
    RunSnoc(w, acts, UpdaterAct(1, true));
    acts := acts + [UpdaterAct(1, true)];
    j := |acts|;
    ghost var mid := acts;
    RunSnoc(w, acts, UpdaterAct(2, true));
    acts := acts + [UpdaterAct(2, true)];
    assert acts[..j] == mid;
  }

  lemma RenameBuilds()
    ensures BuildPatch("", Request("Bob", "", "")) == Ok(Some(Patch("Bob", "", "")))
  {
    hide TrimSpace, IsOneOf;
    assert Trimmed("Bob");
    hide IsSpace;
  }

  /** A read, an update in full, and only then the reader's cache set. */
  function LateSet(req: Request): seq<Act> {
    var r, u := ReaderAct(1, true), UpdaterAct(1, true);
    [SpawnReader(1, 1), r, r, r] + [SpawnUpdater(1, 1, Some(req)), u, u, u] + [r]
  }

  lemma LateSetRuns(w: World, req: Request, p: Patch)
    requires 1 !in w.readers.at && 1 !in w.updaters.at && 1 !in w.redis.profiles && MappingOf(w, 1).Some?
    requires 1 in w.db.users && Row(w.db.users[1]).id == 1 && BuildPatch(Row(w.db.users[1]).market, req) == Ok(Some(p))
    ensures var w' := Run(w, LateSet(req));
            && 1 in w'.redis.profiles
            && w'.redis.profiles[1].profile == Join(Row(w.db.users[1]), MappingOf(w, 1).value)
            && w'.db.users == Update(w, 1, SetProfile(p), Top(w.db.users[1]))
            && w'.history.lost == w.history.lost && w'.callbacks == w.callbacks
            && w'.updaters == w.updaters.Put(1, UDone(None))
  {
    hide MappingOf, Next, Run, BuildPatch, Row, Top, Update;
    var r, u := ReaderAct(1, true), UpdaterAct(1, true);
    ReadsRow(w, 1, 1);
    var w1 := Run(w, [SpawnReader(1, 1), r, r, r]);
    Updates(w1, 1, 1, req, p);
    RunConcat(w, [SpawnReader(1, 1), r, r, r], [SpawnUpdater(1, 1, Some(req)), u, u, u]);
    RunSnoc(w, [SpawnReader(1, 1), r, r, r] + [SpawnUpdater(1, 1, Some(req)), u, u, u], r);
    Sets(Run(w1, [SpawnUpdater(1, 1, Some(req)), u, u, u]), 1);
    SameRow(w, w1, 1, SetProfile(p), Top(w.db.users[1]));
  }

  lemma SameRow(w: World, w': World, u: int, write: Write, seen: nat)
    requires w'.db == w.db && w'.now == w.now
    ensures Update(w', u, write, seen) == Update(w, u, write, seen)
  {
  }

  /** A reader that read the row before a write and sets the cache after the writer's delete
      leaves a stale entry with no delete pending and none failed. */
  lemma LateSetLeavesStaleEntry() returns (acts: seq<Act>)
    ensures Start(Seeded())
    ensures var w := Run(Seeded(), acts);
            && 1 in w.redis.profiles && !UpToDate(w, 1, w.redis.profiles[1].profile)
            && NothingDue(w, 1)
  {
    SeededStarts();
    RenameBuilds();
    hide Collate, BuildPatch, Run, LateSet;
    var w := Seeded();
    assert MappingOf(w, 1) == Some(UserAuthMapping(0, "c", "a@x", 1, ROLE_USER));
    hide MappingOf;
    LateSetRuns(w, Request("Bob", "", ""), Patch("Bob", "", ""));
    acts := LateSet(Request("Bob", "", ""));
    assert Run(w, acts).redis.profiles[1].profile.name == "Ann";
    assert Row(Run(w, acts).db.users[1]).name == "Bob";
  }

  lemma Sets(w: World, t: nat)
    requires t in w.readers.at && w.readers.at[t].RSet?
    ensures var w', p := Next(w, ReaderAct(t, true)), w.readers.at[t].profile;
            && p.userId in w'.redis.profiles && w'.redis.profiles[p.userId].profile == p && w'.db == w.db
            && w'.history.lost == w.history.lost && w'.updaters == w.updaters && w'.callbacks == w.callbacks
  {
  }

  /** An uncontended miss up to the cache set. */
  lemma ReadsRow(w: World, t: nat, u: int)
    requires t !in w.readers.at && u > 0 && u in w.db.users && u !in w.redis.profiles && MappingOf(w, u).Some?
    ensures Run(w, [SpawnReader(t, u), ReaderAct(t, true), ReaderAct(t, true), ReaderAct(t, true)])
         == w.(readers := w.readers.Put(t,
                                        RSet(u, Join(Row(w.db.users[u]), MappingOf(w, u).value), Top(w.db.users[u]),
                                             w.now)))
  {
    Run4(w, SpawnReader(t, u), ReaderAct(t, true), ReaderAct(t, true), ReaderAct(t, true));
    hide Run, First, Row, Top;
    var w1 := Next(w, SpawnReader(t, u));
    assert w1 == w.(readers := w.readers.Put(t, RGet(u)));
    var w2 := Next(w1, ReaderAct(t, true));
    assert w2 == w.(readers := w.readers.Put(t, RUser(u)));
    var w3 := Next(w2, ReaderAct(t, true));
    assert w3 == w.(readers := w.readers.Put(t, RMapping(u, Row(w.db.users[u]), Top(w.db.users[u]), w.now)));
  }

  /** An uncontended update of an uncached user. */
  lemma Updates(w: World, t: nat, u: int, req: Request, p: Patch)
    requires t !in w.updaters.at && u > 0 && u in w.db.users && u !in w.redis.profiles
    requires BuildPatch(Row(w.db.users[u]).market, req) == Ok(Some(p))
    ensures Run(w, [SpawnUpdater(t, u, Some(req)), UpdaterAct(t, true), UpdaterAct(t, true), UpdaterAct(t, true)])
         == w.(db := w.db.(users := Update(w, u, SetProfile(p), Top(w.db.users[u]))),
               updaters := w.updaters.Put(t, UDone(None)))
  {
    var act := UpdaterAct(t, true);
    Run4(w, SpawnUpdater(t, u, Some(req)), act, act, act);
    hide Run, BuildPatch, Row, Top;
    var w1 := Next(w, SpawnUpdater(t, u, Some(req)));
    assert w1 == w.(updaters := w.updaters.Put(t, UGet(u, req)));
    var w2 := Next(w1, act);
    assert w2 == w.(updaters := w.updaters.Put(t, UWrite(u, p, Top(w.db.users[u]))));
    var w3 := Next(w2, act);
    assert w3 ==
        w.(db := w.db.(users := Update(w, u, SetProfile(p), Top(w.db.users[u]))),
           updaters := w.updaters.Put(t, UDel(u, NextVer(w, u))));
  }

  // ----- Two mappings with one email -----

  function Webhook(clerk: string): Option<ClerkCallbackData> {
    Some(ClerkCallbackData(clerk, "", [ClerkEmailAddress("e", "b@y")]))
  }

  lemma WebhookEmail(clerk: string)
    ensures SelectEmail(Webhook(clerk)) == "b@y" && ClerkUserId(Webhook(clerk)) == clerk
  {
    assert Trimmed("b@y") && TrimSpace("b@y") == "b@y" && OccursAt("@", "b@y", 1);
    hide TrimSpace, IsSpace;
    assert NormalizeEmail("b@y") == "b@y";
    hide NormalizeEmail;
  }

  ghost predicate Unknown(w: World, clerk: string) {
    MappingFor(w, clerk) == None && First(w.db.mappings, ByEmail("b@y"), w.db.nextMapping) == None
  }

  /** An uncontended `CreateUser` up to the email check. */
  function Checks(t: nat, clerk: string): seq<Act> {
    [SpawnCreator(t, Webhook(clerk)), CreatorAct(t, true, "N"), CreatorAct(t, true, "N"), CreatorAct(t, true, "N"),
     CreatorAct(t, true, "N")]
  }

  lemma ChecksPass(w: World, t: nat, clerk: string)
    requires t !in w.creators.at && w.redis.mappings == map[] && Unknown(w, clerk)
    ensures Run(w, Checks(t, clerk)) == w.(creators := w.creators.Put(t, CUser(clerk, "b@y")))
  {
    hide Run, SelectEmail, First, Collate, ClerkUserId, Webhook, IsSpace;
    var a, d := CreatorAct(t, true, "N"), Webhook(clerk);
    WebhookEmail(clerk);
    Run4(w, SpawnCreator(t, d), a, a, a);
    RunSnoc(w, [SpawnCreator(t, d), a, a, a], a);
    assert [SpawnCreator(t, d), a, a, a] + [a] == Checks(t, clerk);
    var w1 := Next(w, SpawnCreator(t, d));
    assert w1 == w.(creators := w.creators.Put(t, CLook(LGet(clerk), "b@y", false)));
    var w2 := Next(w1, a);
    assert w2 == w.(creators := w.creators.Put(t, CLook(LRead(clerk), "b@y", false)));
    var w3 := Next(w2, a);
    assert w3 == w.(creators := w.creators.Put(t, CLook(LDone(clerk, None), "b@y", false)));
    var w4 := Next(w3, a);
    assert w4 == w.(creators := w.creators.Put(t, CEmail(clerk, "b@y")));
  }

  function Inserts(t: nat): seq<Act> { seq(7, _ => CreatorAct(t, true, "N")) }

  /** An uncontended transaction and its event. */
  lemma InsertsCommit(w: World, t: nat, clerk: string)
    requires t in w.creators.at && w.creators.at[t] == CUser(clerk, "b@y") && MappingFor(w, clerk) == None
             && NoneHolds(w)
    ensures var w' := Run(w, Inserts(t));
            var row := UserAuthMapping(w.db.nextMapping, clerk, "b@y", w.db.nextUser, ROLE_USER);
            && w'.db.mappings == w.db.mappings[w.db.nextMapping := row] && w'.db.nextMapping == w.db.nextMapping + 1
            && w'.creators == w.creators.Put(t, CDone(Created(w.db.nextUser))) && NoneHolds(w')
  {
    InsertAlone(w, t, clerk, "b@y", "N");
    DriveRuns(w, CreatorAct(t, true, "N"), 7);
    hide Run, Drive, First, Collate;
    var w' := Run(w, Inserts(t));
    assert DataOf(w').mappings == w'.db.mappings && DataOf(w').nextMapping == w'.db.nextMapping;
  }

  lemma NobodyKnown()
    ensures Unknown(Seeded(), "p") && Unknown(Seeded(), "q")
    ensures forall row: UserAuthMapping | row.clerkUserId == "p" ::
              First(Seeded().db.mappings[1 := row], ByClerk("q"), 2) == None
  {
    assert Collate("c")[0] == 'c' && Collate("p")[0] == 'p' && Collate("q")[0] == 'q';
    assert Collate("a@x")[0] == 'a' && Collate("b@y")[0] == 'b';
    hide Collate;
  }

  /** Two concurrent deliveries for different Clerk ids can both pass the email check. */
  lemma RacingCreatesShareEmail() returns (acts: seq<Act>)
    ensures Start(Seeded())
    ensures var w := Run(Seeded(), acts);
            && 1 in w.db.mappings && 2 in w.db.mappings
            && w.db.mappings[1].email == w.db.mappings[2].email
            && w.db.mappings[1].clerkUserId != w.db.mappings[2].clerkUserId
  {
    SeededStarts();
    NobodyKnown();
    var w := Seeded();
    hide First, Collate;
    ChecksPass(w, 1, "p");
    var w1 := Run(w, Checks(1, "p"));
    assert Unknown(w1, "q");
    ChecksPass(w1, 2, "q");
    var w2 := Run(w1, Checks(2, "q"));
    assert MappingFor(w2, "p") == None;
    InsertsCommit(w2, 1, "p");
    var w3 := Run(w2, Inserts(1));
    assert MappingFor(w3, "q") == None;
    InsertsCommit(w3, 2, "q");
    RunConcat(w, Checks(1, "p"), Checks(2, "q"));
    RunConcat(w, Checks(1, "p") + Checks(2, "q"), Inserts(1));
    RunConcat(w, Checks(1, "p") + Checks(2, "q") + Inserts(1), Inserts(2));
    acts := Checks(1, "p") + Checks(2, "q") + Inserts(1) + Inserts(2);
  }

  // ----- The last published status is not the stored one -----

  function Answers(t: nat, name: string): Act { CallbackAct(t, true, Some(UserInfo(name, ""))) }

  /** A login, and its callback up to the cache delete. */
  function Writes(t: nat, state: string, name: string): seq<Act> {
    var a := Answers(t, name);
    [Login(state, 1, ""), SpawnCallback(t, state), a, a, a, a]
  }

  lemma CallbackWrites(w: World, t: nat, state: string, name: string)
    requires state != "" && t !in w.callbacks.at && 1 in w.db.users
    ensures var w', k := Run(w, Writes(t, state, name)), |w.history.kycWrites|;
            && 1 in w'.db.users && Row(w'.db.users[1]).kycStatus == KycStatusOf(UserInfo(name, ""))
            && w'.callbacks.at.Keys == w.callbacks.at.Keys + {t}
            && (forall s | s in w.callbacks.at :: w'.callbacks.at[s] == w.callbacks.at[s])
            && w'.callbacks.at[t].KDel? && w'.callbacks.at[t].userId == 1 && w'.callbacks.at[t].write == k
            && w.history.kycWrites <= w'.history.kycWrites && |w'.history.kycWrites| == k + 1
            && w'.history.kycWrites[k].userId == 1 && w'.history.kycWrites[k].status == KycStatusOf(UserInfo(name, ""))
            && w'.topics == w.topics
  {
    hide Run, EmailsMatchForKyc, KycStatusOf, Next;
    var a, got := Answers(t, name), UserInfo(name, "");
    var first := [Login(state, 1, ""), SpawnCallback(t, state), a, a];
    Run4(w, Login(state, 1, ""), SpawnCallback(t, state), a, a);
    RunSnoc(w, first, a);
    RunSnoc(w, first + [a], a);
    assert first + [a] + [a] == Writes(t, state, name);
    var w3 := Next(Next(Next(w, Login(state, 1, "")), SpawnCallback(t, state)), a);
    LoginConsumes(w, t, state, name);
    InfoNext(w3, t, |w.history.consumes|, SerialSpec.Info(Some(got)));
    var w5 := Next(Next(w3, a), a);
    WriteNext(w5, t, |w.history.consumes|, got, Some(got));
    StatusWritten(w5, Next(w5, a), got);
  }

  lemma StatusWritten(w: World, w': World, got: UserInfo)
    requires 1 in w.db.users && DataOf(w') == SerialSpec.SetStatus(DataOf(w), 1, KycStatusOf(got))
    ensures 1 in w'.db.users && Row(w'.db.users[1]).kycStatus == KycStatusOf(got)
  {
    hide KycStatusOf, Row;
    assert 1 in DataOf(w').users;
  }

  lemma LoginConsumes(w: World, t: nat, state: string, name: string)
    requires state != "" && t !in w.callbacks.at
    ensures var w' := Next(Next(Next(w, Login(state, 1, "")), SpawnCallback(t, state)), Answers(t, name));
            var c := |w.history.consumes|;
            && w'.callbacks == w.callbacks.Put(t, KToken(c))
            && PendingOf(w', c) == KycPending(1, "", w.now + DEFAULT_KYC_STATE_TTL)
            && w'.history.kycWrites == w.history.kycWrites && w'.db == w.db && w'.topics == w.topics
  {
    var pending := KycPending(1, "", w.now + DEFAULT_KYC_STATE_TTL);
    var w1 := Next(w, Login(state, 1, ""));
    assert w1.store.log == w.store.log + [LogEntry(state, pending, false)];
    var w2 := Next(w1, SpawnCallback(t, state));
    assert Consumable(w2.store.log, state, w2.now) == Some(|w.store.log|);
    hide Consumable;
    var w3 := Next(w2, Answers(t, name));
    assert w.callbacks.at[t := KConsume(state)][t := KToken(|w.history.consumes|)]
        == w.callbacks.at[t := KToken(|w.history.consumes|)];
  }

  lemma CallbackPublishes(w: World, t: nat)
    requires t in w.callbacks.at && w.callbacks.at[t].KDel? && w.callbacks.at[t].write < |w.history.kycWrites|
    ensures var w' := Run(w, [CallbackAct(t, true, None), CallbackAct(t, true, None)]);
            var x := WriteOf(w, w.callbacks.at[t].write);
            && w'.topics.kyc == w.topics.kyc + [KycEvent(x.userId, x.status, w.callbacks.at[t].write)]
            && w'.db == w.db && w'.history.kycWrites == w.history.kycWrites
            && forall s | s in w.callbacks.at && s != t ::
                 s in w'.callbacks.at && w'.callbacks.at[s] == w.callbacks.at[s]
  {
    var act := CallbackAct(t, true, None);
    RunSnoc(w, [], act);
    RunSnoc(w, [act], act);
    assert [] + [act] == [act] && [act] + [act] == [act, act] && Run(w, []) == w;
    hide Run;
    var w1 := Next(w, act);
    assert w1.callbacks == w.callbacks.Put(t, KPub(w.callbacks.at[t].write));
    var w2 := Next(w1, act);
  }

  /** Two callbacks of one user can publish in the opposite order of their writes. */
  lemma LastEventIsNotStoredStatus() returns (acts: seq<Act>)
    ensures Start(Seeded())
    ensures var w := Run(Seeded(), acts);
            && 1 in w.db.users && Row(w.db.users[1]).kycStatus == KYC_PASSED
            && w.topics.kyc == [KycEvent(1, KYC_PASSED, 1), KycEvent(1, KYC_FAILED, 0)]
  {
    hide Run, Next;
    SeededStarts();
    var w, act := Seeded(), (t: nat) => [CallbackAct(t, true, None), CallbackAct(t, true, None)];
    CallbackWrites(w, 1, "s", "");
    var w1 := Run(w, Writes(1, "s", ""));
    CallbackWrites(w1, 2, "t", "Ann");
    var w2 := Run(w1, Writes(2, "t", "Ann"));
    CallbackPublishes(w2, 2);
    var w3 := Run(w2, act(2));
    CallbackPublishes(w3, 1);
    RunConcat(w, Writes(1, "s", ""), Writes(2, "t", "Ann"));
    RunConcat(w, Writes(1, "s", "") + Writes(2, "t", "Ann"), act(2));
    RunConcat(w, Writes(1, "s", "") + Writes(2, "t", "Ann") + act(2), act(1));
    acts := Writes(1, "s", "") + Writes(2, "t", "Ann") + act(2) + act(1);
  }
}
