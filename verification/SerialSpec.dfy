/** What each handler does when it runs alone and Redis is disabled: functions of the tables,
    the pending logins and the topics. */
module SerialSpec {
  import opened Model
  import opened MappingTable
  import opened ProfileUpdate
  import opened ClerkEmail
  import opened KycEmail
  import opened StateStore

  datatype Data = Data(users: map<int, User>, nextUser: int, mappings: map<int, UserAuthMapping>, nextMapping: nat)

  datatype ReadError = BadArgument | NotFound

  /** What Singpass answers: no token, no user info, or a (possibly nil) user info. */
  datatype Singpass = NoToken | NoInfo | Info(info: Option<UserInfo>)

  datatype State = State(data: Data, items: map<string, KycPending>, kyc: seq<(int, string)>, registered: seq<int>)

  datatype Call =
    | GetUserProfile(userId: int)
    | UpdateProfile(userId: int, req: Option<Request>)
    | GetByClerkUserId(clerk: string)
    | CreateUser(webhook: Option<ClerkCallbackData>, name: string, published: bool, now: int)
    | StartSingpassLogin(state: string, userId: int, email: string, now: int)
    | SingpassCallback(state: string, singpass: Singpass, published: bool, now: int)
    | Evict(key: string)

  datatype Reply =
    | ProfileReply(profile: Result<Profile, ReadError>)
    | UpdateReply(error: Option<ProfileError>)
    | MappingReply(mapping: Option<UserAuthMapping>)
    | CreateReply(outcome: Outcome)
    | KycReply(kycError: Option<KycError>)
    | NoReply

  function ReadProfile(d: Data, userId: int): Result<Profile, ReadError> {
    var m := First(d.mappings, ByUser(userId), d.nextMapping);
    if userId <= 0 then Err(BadArgument)
    else if userId !in d.users || m.None? then Err(NotFound)
    else Ok(Join(d.users[userId], m.value))
  }

  /** UPDATE by primary key. */
  function SetUser(d: Data, userId: int, row: User): Data {
    d.(users := if userId in d.users then d.users[userId := row] else d.users)
  }

  function UpdateUser(d: Data, userId: int, req: Option<Request>): (Data, Option<ProfileError>) {
    if req.None? then (d, Some(InvalidArgument))
    else if userId !in d.users then (d, Some(UserNotFound))
    else
      var (row, error) := Serve(d.users[userId], req.value);
      (SetUser(d, userId, row), error)
  }

  function SetStatus(d: Data, userId: int, status: string): Data {
    if userId in d.users then SetUser(d, userId, d.users[userId].(kycStatus := status)) else d
  }

  function Register(d: Data, webhook: Option<ClerkCallbackData>, name: string, now: int): (Data, Outcome) {
    var clerk, email := ClerkUserId(webhook), SelectEmail(webhook);
    if email == "" then (d, Skipped)
    else if First(d.mappings, ByClerk(clerk), d.nextMapping).Some? then (d, Exists)
    else if First(d.mappings, ByEmail(email), d.nextMapping).Some? then (d, Exists)
    else
      var user := User(d.nextUser, name, "", "", "", KYC_PENDING, "", now);
      var mapping := UserAuthMapping(d.nextMapping, clerk, email, user.id, ROLE_USER);
      (Data(d.users[user.id := user], d.nextUser + 1, d.mappings[mapping.id := mapping], d.nextMapping + 1),
       Created(user.id))
  }

  function Callback(s: State, state: string, singpass: Singpass, published: bool, now: int): (State, Option<KycError>) {
    var (items, pending) := ConsumeItem(s.items, state, now, now);
    var s := s.(items := items);
    if pending.None? then (s, Some(InvalidOAuthState))
    else match singpass
      case NoToken => (s, Some(TokenFailed))
      case NoInfo => (s, Some(InfoFailed))
      case Info(info) =>
        var got := if info.Some? then info.value else UserInfo("", "");
        var u, status := pending.value.internalUserId, KycStatusOf(got);
        if pending.value.email != "" && !EmailsMatchForKyc(pending.value.email, got.email) then (s, Some(EmailMismatch))
        else
          var s := s.(data := SetStatus(s.data, u, status));
          if !published then (s, Some(PublishFailed)) else (s.(kyc := s.kyc + [(u, status)]), None)
  }

  function AnswerTo(s: State, ttl: int, call: Call): (State, Reply) {
    match call
    case GetUserProfile(u) => (s, ProfileReply(ReadProfile(s.data, u)))
    case UpdateProfile(u, req) =>
      var (d, error) := UpdateUser(s.data, u, req);
      (s.(data := d), UpdateReply(error))
    case GetByClerkUserId(clerk) => (s, MappingReply(First(s.data.mappings, ByClerk(clerk), s.data.nextMapping)))
    case CreateUser(webhook, name, published, now) =>
      var (d, outcome) := Register(s.data, webhook, name, now);
      if outcome.Created? && published
      then (s.(data := d, registered := s.registered + [outcome.userId]), CreateReply(outcome))
      else (s.(data := d), CreateReply(if outcome.Created? then Aborted else outcome))
    case StartSingpassLogin(state, u, email, now) =>
      (s.(items := SaveItem(s.items, ttl, state, KycPending(u, email, ZERO_TIME), now, now)), NoReply)
    case SingpassCallback(state, singpass, published, now) =>
      var (s', error) := Callback(s, state, singpass, published, now);
      (s', KycReply(error))
    case Evict(_) => (s, NoReply)
  }

  function FinalState(s: State, ttl: int, calls: seq<Call>): State {
    if calls == [] then s else AnswerTo(FinalState(s, ttl, calls[..|calls| - 1]), ttl, calls[|calls| - 1]).0
  }

  function Answers(s: State, ttl: int, calls: seq<Call>): seq<Reply> {
    if calls == [] then []
    else
      var n := |calls| - 1;
      Answers(s, ttl, calls[..n]) + [AnswerTo(FinalState(s, ttl, calls[..n]), ttl, calls[n]).1]
  }

  // ----- What the handlers keep -----

  ghost predicate DataOk(d: Data) {
    && 0 < d.nextUser && UniqueClerk(d.mappings)
    && (forall u | u in d.users :: 0 < u < d.nextUser && d.users[u].id == u)
    && (forall i | i in d.mappings ::
          0 <= i < d.nextMapping && d.mappings[i].id == i && d.mappings[i].internalUserId < d.nextUser)
  }

  /** Only `touched` may read differently: users other than it keep their profile, and Clerk
      ids once found keep their row. */
  ghost predicate Preserves(d: Data, d': Data, touched: int) {
    && (forall u | u != touched && ReadProfile(d, u).Ok? :: ReadProfile(d', u) == ReadProfile(d, u))
    && (forall i | i in d.mappings :: i in d'.mappings && d'.mappings[i] == d.mappings[i])
  }

  lemma SetUserKeeps(d: Data, userId: int, row: User)
    requires DataOk(d) && (userId in d.users ==> row.id == userId)
    ensures DataOk(SetUser(d, userId, row)) && Preserves(d, SetUser(d, userId, row), userId)
  {
    hide Collate, First;
  }

  lemma {:induction false} RegisterKeeps(d: Data, webhook: Option<ClerkCallbackData>, name: string, now: int)
    requires DataOk(d)
    ensures var (d', outcome) := Register(d, webhook, name, now);
            DataOk(d') && Preserves(d, d', d.nextUser) && (outcome.Created? ==> outcome.userId == d.nextUser)
  {
    RegisterPreserves(d, webhook, name, now);
    hide Collate, SelectEmail, ClerkUserId, First, Join, Preserves, UniqueClerk;
    var (d', outcome) := Register(d, webhook, name, now);
    if outcome.Created? { InsertKeepsUnique(d.mappings, d.nextMapping, d'.mappings[d.nextMapping]); }
  }

  lemma RegisterPreserves(d: Data, webhook: Option<ClerkCallbackData>, name: string, now: int)
    requires DataOk(d)
    ensures Preserves(d, Register(d, webhook, name, now).0, d.nextUser)
  {
    hide Collate, SelectEmail, Join;
    var d' := Register(d, webhook, name, now).0;
    if d' != d {
      forall u | u != d.nextUser { FirstStable(d.mappings, d.nextMapping, d'.mappings, d'.nextMapping, ByUser(u)); }
      hide First;
    }
  }
}
