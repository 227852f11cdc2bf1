/** The service as one step machine.

    The shared state is the two tables, the two Redis caches, the pending-login log and the
    event logs. Every request handler is a thread whose program counter stands at its next
    I/O operation; one action performs one such operation, with its outcome given by the
    action. A run is any list of actions, so it covers every interleaving, every failure and
    every eviction. */
module World {
  import opened Model
  import opened MappingTable
  import opened ProfileUpdate
  import opened StateStore
  import opened KycEmail
  import opened ClerkEmail

  /** One hour, in nanoseconds. */
  const PROFILE_CACHE_TTL := 3_600_000_000_000

  // ----- Tables -----

  datatype Write = Inserted | SetKyc(status: string) | SetProfile(patch: Patch)

  function ApplyWrite(row: User, write: Write): User {
    match write
    case Inserted => row
    case SetKyc(status) => row.(kycStatus := status)
    case SetProfile(p) => ApplyPatch(row, p)
  }

  /** One state of a row: its columns, the statement that produced it and when, and the state
      the writing handler had read before. The table row is the last state; the earlier ones
      are kept for the statements of the theorems only. */
  datatype Rev = Rev(row: User, at: int, write: Write, seen: nat)

  type Revs = r: seq<Rev> | |r| > 0
    witness [Rev(User(0, "", "", "", "", "", "", 0), 0, Inserted, 0)]

  function Top(revs: Revs): nat { |revs| - 1 }

  function Row(revs: Revs): User { revs[Top(revs)].row }

  // ----- Threads -----

  datatype Reply = Found(profile: Profile, ver: nat, readAt: int, at: int)
                 | NotFound | BadArgument | Failed

  /** `GetUserProfile`. */
  datatype Reader = RGet(userId: int)
                  | RUser(userId: int)
                  | RMapping(userId: int, row: User, ver: nat, readAt: int)
                  | RSet(userId: int, profile: Profile, ver: nat, readAt: int)
                  | RDone(userId: int, reply: Reply)

  /** `UpdateProfile`. */
  datatype Updater = UGet(userId: int, req: Request)
                   | UWrite(userId: int, patch: Patch, seen: nat)
                   | UDel(userId: int, ver: nat)
                   | UDone(error: Option<ProfileError>)

  /** `SingpassCallback`; `consume` and `write` index the histories below. */
  datatype Callback = KConsume(state: string)
                    | KToken(consume: nat)
                    | KInfo(consume: nat)
                    | KWrite(consume: nat, info: UserInfo)
                    | KDel(userId: int, write: nat, ver: nat)
                    | KPub(write: nat)
                    | KDone(result: Option<KycError>)

  /** `GetByClerkUserID`. */
  datatype Lookup = LGet(clerk: string)
                  | LRead(clerk: string)
                  | LSet(clerk: string, row: UserAuthMapping)
                  | LDone(clerk: string, found: Option<UserAuthMapping>)
                  | LFailed(clerk: string)

  /** `CreateUser`; `known` records whether the Clerk id was mapped when the call began. */
  datatype Creator = CLook(lookup: Lookup, email: string, known: bool)
                   | CEmail(clerk: string, email: string)
                   | CUser(clerk: string, email: string)
                   | CDelBefore(clerk: string, email: string, user: User)
                   | CMapping(clerk: string, email: string, user: User)
                   | CDelAfter(user: User, mapping: UserAuthMapping)
                   | CCommit(user: User, mapping: UserAuthMapping)
                   | CInval(userId: int)
                   | CPub(userId: int)
                   | CDone(outcome: Outcome)
  {
    /** The transaction has inserted its user row and is still open. */
    predicate Open() { CDelBefore? || CMapping? || CDelAfter? || CCommit? }

    /** The open transaction has also inserted its mapping row. */
    predicate Holds() { CDelAfter? || CCommit? }
  }

  // ----- Shared state -----

  /** A cached profile, with the row state it was joined from, when that was read, when the
      entry was set and which row state was the last one at that moment. */
  datatype Entry = Entry(profile: Profile, expiresAt: int, ver: nat, readAt: int, setAt: int, setVer: nat)

  datatype ConsumeRecord = ConsumeRecord(save: nat, at: int)
  /** `landed` says whether the user had a row to update. */
  datatype KycWrite = KycWrite(userId: int, status: string, consume: nat, info: UserInfo, landed: bool)
  datatype KycEvent = KycEvent(userId: int, status: string, write: nat)

  datatype Db = Db(users: map<int, Revs>, nextUser: int, mappings: map<int, UserAuthMapping>, nextMapping: nat)
  datatype Redis = Redis(profiles: map<int, Entry>, mappings: map<string, UserAuthMapping>)
  datatype Store = Store(log: seq<LogEntry>)
  datatype Topics = Topics(kyc: seq<KycEvent>, registered: seq<int>)

  /** The threads of one handler. */
  datatype Pool<T> = Pool(at: map<nat, T>) {
    function Put(t: nat, x: T): Pool<T> { Pool(at[t := x]) }
  }

  datatype World = World(
    now: int, db: Db, redis: Redis, store: Store, topics: Topics,
    readers: Pool<Reader>, updaters: Pool<Updater>, callbacks: Pool<Callback>,
    lookups: Pool<Lookup>, creators: Pool<Creator>,
    history: History)

  /** Read by no step: save times, consumes and KYC writes in order, the failed invalidations
      (whose, and after which row state), the longest read-to-set delay, and the id counters
      at the start. */
  datatype History = History(savedAt: seq<int>, consumes: seq<ConsumeRecord>, kycWrites: seq<KycWrite>,
                             lost: set<(int, nat)>, maxDelay: int, firstUser: int, firstMapping: nat)

  datatype Act =
    | SpawnReader(t: nat, userId: int) | ReaderAct(t: nat, ok: bool)
    | SpawnUpdater(t: nat, userId: int, req: Option<Request>) | UpdaterAct(t: nat, ok: bool)
    | Login(state: string, userId: int, email: string)
    | SpawnCallback(t: nat, state: string) | CallbackAct(t: nat, ok: bool, info: Option<UserInfo>)
    | SpawnLookup(t: nat, clerk: string) | LookupAct(t: nat, ok: bool)
    | SpawnCreator(t: nat, data: Option<ClerkCallbackData>) | CreatorAct(t: nat, ok: bool, name: string)
    | EvictProfile(userId: int) | EvictMapping(clerk: string) | Tick(d: nat)

  function MappingOf(w: World, userId: int): Option<UserAuthMapping> {
    First(w.db.mappings, ByUser(userId), w.db.nextMapping)
  }

  function MappingFor(w: World, clerk: string): Option<UserAuthMapping> {
    First(w.db.mappings, ByClerk(clerk), w.db.nextMapping)
  }

  /** The index of the current state of this user's row. */
  function LastVer(w: World, userId: int): nat {
    if userId in w.db.users then Top(w.db.users[userId]) else 0
  }

  /** The index of the row state a statement on this user writes now. */
  function NextVer(w: World, userId: int): nat {
    if userId in w.db.users then |w.db.users[userId]| else 0
  }

  // ----- Frames -----

  /** Only thread `t` moves. */
  ghost predicate Moves<T>(before: Pool<T>, after: Pool<T>, t: nat) {
    t in after.at && after == before.Put(t, after.at[t])
  }

  /** Entries are only dropped. */
  ghost predicate Shrinks<K(!new), V>(cache: map<K, V>, cache': map<K, V>) {
    cache'.Keys <= cache.Keys && forall k | k in cache' :: cache'[k] == cache[k]
  }

  /** Rows are never removed and only gain states, dated now. */
  ghost predicate RowsGrow(users: map<int, Revs>, users': map<int, Revs>, now: int) {
    && users'.Keys == users.Keys
    && (forall u | u in users :: users[u] <= users'[u])
    && (forall u, k: nat | u in users && |users[u]| <= k < |users'[u]| :: users'[u][k].at == now)
  }

  // ----- Steps of `GetUserProfile` -----

  function GetCached(w: World, t: nat, u: int, ok: bool): (w': World)
    ensures w' == w.(readers := w'.readers) && Moves(w.readers, w'.readers, t)
  {
    if ok && u in w.redis.profiles && w.now < w.redis.profiles[u].expiresAt then
      var e := w.redis.profiles[u];
      w.(readers := w.readers.Put(t, RDone(u, Found(e.profile, e.ver, e.readAt, w.now))))
    else w.(readers := w.readers.Put(t, RUser(u)))
  }

  function ReadUser(w: World, t: nat, u: int, ok: bool): (w': World)
    ensures w' == w.(readers := w'.readers) && Moves(w.readers, w'.readers, t)
  {
    var next :=
      if !ok then RDone(u, Failed)
      else if u !in w.db.users then RDone(u, NotFound)
      else RMapping(u, Row(w.db.users[u]), Top(w.db.users[u]), w.now);
    w.(readers := w.readers.Put(t, next))
  }

  function ReadMapping(w: World, t: nat, u: int, row: User, ver: nat, readAt: int, ok: bool): (w': World)
    ensures w' == w.(readers := w'.readers) && Moves(w.readers, w'.readers, t)
  {
    var m := MappingOf(w, u);
    var next :=
      if !ok then RDone(u, Failed)
      else if m.None? then RDone(u, NotFound)
      else RSet(u, Join(row, m.value), ver, readAt);
    w.(readers := w.readers.Put(t, next))
  }

  function Longest(h: History, delay: int): History {
    if delay > h.maxDelay then h.(maxDelay := delay) else h
  }

  function SetCached(w: World, t: nat, u: int, p: Profile, ver: nat, readAt: int, ok: bool): (w': World)
    ensures w' ==
            w.(readers := w'.readers, redis := w.redis.(profiles := w'.redis.profiles),
               history := Longest(w.history, w.now - readAt))
    ensures Moves(w.readers, w'.readers, t)
  {
    var w' := w.(readers := w.readers.Put(t, RDone(u, Found(p, ver, readAt, w.now))),
                 history := Longest(w.history, w.now - readAt));
    if !ok then w'
    else
      var e := Entry(p, w.now + PROFILE_CACHE_TTL, ver, readAt, w.now, LastVer(w, p.userId));
      w'.(redis := w'.redis.(profiles := w.redis.profiles[p.userId := e]))
  }

  function NextReader(w: World, t: nat, ok: bool): (w': World)
    requires t in w.readers.at
  {
    match w.readers.at[t]
    case RGet(u) => GetCached(w, t, u, ok)
    case RUser(u) => ReadUser(w, t, u, ok)
    case RMapping(u, row, ver, readAt) => ReadMapping(w, t, u, row, ver, readAt, ok)
    case RSet(u, p, ver, readAt) => SetCached(w, t, u, p, ver, readAt, ok)
    case RDone(_, _) => w
  }

  // ----- Steps of `UpdateProfile` -----

  function ReadForUpdate(w: World, t: nat, u: int, req: Request, ok: bool): (w': World)
    ensures w' == w.(updaters := w'.updaters) && Moves(w.updaters, w'.updaters, t)
  {
    var next :=
      if !ok then UDone(Some(DatabaseError))
      else if u !in w.db.users then UDone(Some(UserNotFound))
      else AfterBuild(u, BuildPatch(Row(w.db.users[u]).market, req), Top(w.db.users[u]));
    w.(updaters := w.updaters.Put(t, next))
  }

  function AfterBuild(u: int, built: Result<Option<Patch>, ProfileError>, seen: nat): Updater {
    match built
    case Err(e) => UDone(Some(e))
    case Ok(None) => UDone(None)
    case Ok(Some(p)) => UWrite(u, p, seen)
  }

  /** One UPDATE statement by primary key; no row, no effect. */
  function Update(w: World, userId: int, write: Write, seen: nat): (users: map<int, Revs>)
    ensures RowsGrow(w.db.users, users, w.now)
  {
    if userId !in w.db.users then w.db.users
    else
      var revs := w.db.users[userId];
      w.db.users[userId := revs + [Rev(ApplyWrite(Row(revs), write), w.now, write, seen)]]
  }

  function WriteProfile(w: World, t: nat, u: int, p: Patch, seen: nat, ok: bool): (w': World)
    ensures w' == w.(updaters := w'.updaters, db := w.db.(users := w'.db.users)) && Moves(w.updaters, w'.updaters, t)
    ensures RowsGrow(w.db.users, w'.db.users, w.now)
  {
    if !ok then w.(updaters := w.updaters.Put(t, UDone(Some(DatabaseError))))
    else
      w.(db := w.db.(users := Update(w, u, SetProfile(p), seen)), updaters := w.updaters.Put(t, UDel(u, NextVer(w, u))))
  }

  /** `InvalidateUserProfileCache`, after row state `ver` was written: the profile cache
      afterwards, and the failed invalidations. */
  function DeleteProfile(cache: map<int, Entry>, userId: int, ok: bool): map<int, Entry> {
    if userId > 0 && ok then cache - {userId} else cache
  }

  function Lost(h: History, userId: int, ver: nat, ok: bool): History {
    if userId > 0 && !ok then h.(lost := h.lost + {(userId, ver)}) else h
  }

  function DropAfterUpdate(w: World, t: nat, u: int, ver: nat, ok: bool): (w': World)
    ensures w' ==
            w.(updaters := w'.updaters, redis := w.redis.(profiles := DeleteProfile(w.redis.profiles, u, ok)),
               history := Lost(w.history, u, ver, ok))
    ensures Moves(w.updaters, w'.updaters, t)
  {
    w.(redis := w.redis.(profiles := DeleteProfile(w.redis.profiles, u, ok)), history := Lost(w.history, u, ver, ok),
       updaters := w.updaters.Put(t, UDone(None)))
  }

  function NextUpdater(w: World, t: nat, ok: bool): (w': World)
    requires t in w.updaters.at
  {
    match w.updaters.at[t]
    case UGet(u, req) => ReadForUpdate(w, t, u, req, ok)
    case UWrite(u, p, seen) => WriteProfile(w, t, u, p, seen, ok)
    case UDel(u, ver) => DropAfterUpdate(w, t, u, ver, ok)
    case UDone(_) => w
  }

  // ----- Steps of `SingpassCallback` -----

  function ConsumeState(w: World, t: nat, state: string): (w': World)
    ensures w' ==
            w.(callbacks := w'.callbacks, store := w.store.(log := w'.store.log),
               history := w.history.(consumes := w'.history.consumes))
    ensures Moves(w.callbacks, w'.callbacks, t)
  {
    var i := Consumable(w.store.log, state, w.now);
    if i.None? then w.(callbacks := w.callbacks.Put(t, KDone(Some(InvalidOAuthState))))
    else
      w.(store := w.store.(log := Mark(w.store.log, i)), callbacks := w.callbacks.Put(t, KToken(|w.history.consumes|)),
         history := w.history.(consumes := w.history.consumes + [ConsumeRecord(i.value, w.now)]))
  }

  function FetchToken(w: World, t: nat, c: nat, ok: bool): (w': World)
    ensures w' == w.(callbacks := w'.callbacks) && Moves(w.callbacks, w'.callbacks, t)
  {
    w.(callbacks := w.callbacks.Put(t, if ok then KInfo(c) else KDone(Some(TokenFailed))))
  }

  function FetchUserInfo(w: World, t: nat, c: nat, ok: bool, info: Option<UserInfo>): (w': World)
    ensures w' == w.(callbacks := w'.callbacks) && Moves(w.callbacks, w'.callbacks, t)
  {
    var got := if info.Some? then info.value else UserInfo("", "");
    var pending := PendingOf(w, c);
    var next :=
      if !ok then KDone(Some(InfoFailed))
      else if pending.email != "" && !EmailsMatchForKyc(pending.email, got.email) then KDone(Some(EmailMismatch))
      else KWrite(c, got);
    w.(callbacks := w.callbacks.Put(t, next))
  }

  /** The binding a callback holds; it is the one its consume returned. */
  function PendingOf(w: World, consume: nat): KycPending {
    if consume < |w.history.consumes| && w.history.consumes[consume].save < |w.store.log|
    then w.store.log[w.history.consumes[consume].save].pending else KycPending(0, "", 0)
  }

  function WriteStatus(w: World, t: nat, c: nat, got: UserInfo, ok: bool): (w': World)
    ensures w' ==
            w.(callbacks := w'.callbacks, db := w.db.(users := w'.db.users),
               history := w.history.(kycWrites := w'.history.kycWrites))
    ensures Moves(w.callbacks, w'.callbacks, t)
    ensures RowsGrow(w.db.users, w'.db.users, w.now)
  {
    var u, status := PendingOf(w, c).internalUserId, KycStatusOf(got);
    if !ok then w.(callbacks := w.callbacks.Put(t, KDone(Some(WriteFailed))))
    else
      var k := |w.history.kycWrites|;
      w.(db := w.db.(users := Update(w, u, SetKyc(status), LastVer(w, u))),
         callbacks := w.callbacks.Put(t, KDel(u, k, NextVer(w, u))),
         history := w.history.(kycWrites := w.history.kycWrites + [KycWrite(u, status, c, got, u in w.db.users)]))
  }

  function DropAfterStatus(w: World, t: nat, u: int, k: nat, ver: nat, ok: bool): (w': World)
    ensures w' ==
            w.(callbacks := w'.callbacks, redis := w.redis.(profiles := DeleteProfile(w.redis.profiles, u, ok)),
               history := Lost(w.history, u, ver, ok))
    ensures Moves(w.callbacks, w'.callbacks, t)
  {
    w.(redis := w.redis.(profiles := DeleteProfile(w.redis.profiles, u, ok)), history := Lost(w.history, u, ver, ok),
       callbacks := w.callbacks.Put(t, KPub(k)))
  }

  function WriteOf(w: World, write: nat): KycWrite {
    if write < |w.history.kycWrites| then w.history.kycWrites[write] else KycWrite(0, "", 0, UserInfo("", ""), false)
  }

  function PublishStatus(w: World, t: nat, k: nat, ok: bool): (w': World)
    ensures w' == w.(callbacks := w'.callbacks, topics := w.topics.(kyc := w'.topics.kyc))
            && Moves(w.callbacks, w'.callbacks, t)
  {
    var x := WriteOf(w, k);
    if !ok then w.(callbacks := w.callbacks.Put(t, KDone(Some(PublishFailed))))
    else
      w.(callbacks := w.callbacks.Put(t, KDone(None)),
         topics := w.topics.(kyc := w.topics.kyc + [KycEvent(x.userId, x.status, k)]))
  }

  function NextCallback(w: World, t: nat, ok: bool, info: Option<UserInfo>): (w': World)
    requires t in w.callbacks.at
  {
    match w.callbacks.at[t]
    case KConsume(state) => ConsumeState(w, t, state)
    case KToken(c) => FetchToken(w, t, c, ok)
    case KInfo(c) => FetchUserInfo(w, t, c, ok, info)
    case KWrite(c, got) => WriteStatus(w, t, c, got, ok)
    case KDel(u, k, ver) => DropAfterStatus(w, t, u, k, ver, ok)
    case KPub(k) => PublishStatus(w, t, k, ok)
    case KDone(_) => w
  }

  // ----- Steps of `GetByClerkUserID` -----

  function LookupStep(w: World, l: Lookup, ok: bool): Lookup {
    match l
    case LGet(c) => if ok && c != "" && c in w.redis.mappings then LDone(c, Some(w.redis.mappings[c])) else LRead(c)
    case LRead(c) =>
      var m := MappingFor(w, c);
      if !ok then LFailed(c) else if m.None? then LDone(c, None) else LSet(c, m.value)
    case LSet(c, row) => LDone(c, Some(row))
    case LDone(_, _) => l
    case LFailed(_) => l
  }

  /** The mapping cache after this step. */
  function LookupCache(w: World, l: Lookup, ok: bool): map<string, UserAuthMapping> {
    if l.LSet? && ok && l.row.clerkUserId != "" then w.redis.mappings[l.row.clerkUserId := l.row] else w.redis.mappings
  }

  function NextLookup(w: World, t: nat, ok: bool): (w': World)
    requires t in w.lookups.at
    ensures w' == w.(lookups := w'.lookups, redis := w.redis.(mappings := w'.redis.mappings))
            && Moves(w.lookups, w'.lookups, t)
  {
    var l := w.lookups.at[t];
    w.(lookups := w.lookups.Put(t, LookupStep(w, l, ok)), redis := w.redis.(mappings := LookupCache(w, l, ok)))
  }

  // ----- Steps of `CreateUser` -----

  function LookupClerk(w: World, t: nat, l: Lookup, email: string, known: bool, ok: bool): (w': World)
    ensures w' == w.(creators := w'.creators, redis := w.redis.(mappings := w'.redis.mappings))
            && Moves(w.creators, w'.creators, t)
  {
    if l.LDone? then
      w.(creators := w.creators.Put(t, if l.found.Some? then CDone(Exists) else CEmail(l.clerk, email)))
    else if l.LFailed? then w.(creators := w.creators.Put(t, CDone(Aborted)))
    else
      w.(creators := w.creators.Put(t, CLook(LookupStep(w, l, ok), email, known)),
         redis := w.redis.(mappings := LookupCache(w, l, ok)))
  }

  function CheckEmail(w: World, t: nat, c: string, email: string, ok: bool): (w': World)
    ensures w' == w.(creators := w'.creators) && Moves(w.creators, w'.creators, t)
  {
    var next :=
      if !ok then CDone(Aborted)
      else if First(w.db.mappings, ByEmail(email), w.db.nextMapping).Some? then CDone(Exists)
      else CUser(c, email);
    w.(creators := w.creators.Put(t, next))
  }

  /** The transaction begins and inserts the user row. */
  function InsertUser(w: World, t: nat, c: string, email: string, ok: bool, name: string): (w': World)
    ensures w' == w.(creators := w'.creators, db := w.db.(nextUser := w'.db.nextUser))
            && Moves(w.creators, w'.creators, t)
    ensures w.db.nextUser <= w'.db.nextUser
  {
    var user := User(w.db.nextUser, name, "", "", "", KYC_PENDING, "", w.now);
    if !ok then w.(creators := w.creators.Put(t, CDone(Aborted)))
    else w.(db := w.db.(nextUser := w.db.nextUser + 1), creators := w.creators.Put(t, CDelBefore(c, email, user)))
  }

  function DeleteMapping(cache: map<string, UserAuthMapping>, clerk: string, ok: bool): map<string, UserAuthMapping> {
    if ok && clerk != "" then cache - {clerk} else cache
  }

  function DropBefore(w: World, t: nat, c: string, email: string, user: User, ok: bool): (w': World)
    ensures w' == w.(creators := w'.creators, redis := w.redis.(mappings := DeleteMapping(w.redis.mappings, c, ok)))
    ensures Moves(w.creators, w'.creators, t)
  {
    w.(creators := w.creators.Put(t, CMapping(c, email, user)),
       redis := w.redis.(mappings := DeleteMapping(w.redis.mappings, c, ok)))
  }

  /** Another open transaction has inserted this key into the unique index. */
  ghost predicate KeyLocked(w: World, t: nat, clerk: string) {
    exists s | s in w.creators.at && s != t ::
      w.creators.at[s].Holds() && Collate(w.creators.at[s].mapping.clerkUserId) == Collate(clerk)
  }

  /** Waits for a locked key; a committed duplicate rolls the transaction back. */
  ghost function InsertMapping(w: World, t: nat, c: string, email: string, user: User, ok: bool): (w': World)
    requires t in w.creators.at
    ensures w' == w.(creators := w'.creators, db := w.db.(nextMapping := w'.db.nextMapping))
            && Moves(w.creators, w'.creators, t)
    ensures w.db.nextMapping <= w'.db.nextMapping
  {
    var row := UserAuthMapping(w.db.nextMapping, c, email, user.id, ROLE_USER);
    if !ok then w.(creators := w.creators.Put(t, CDone(Aborted)))
    else if KeyLocked(w, t, c) then w
    else if MappingFor(w, c).Some? then w.(creators := w.creators.Put(t, CDone(Aborted)))
    else w.(db := w.db.(nextMapping := w.db.nextMapping + 1), creators := w.creators.Put(t, CDelAfter(user, row)))
  }

  function DropAfter(w: World, t: nat, user: User, row: UserAuthMapping, ok: bool): (w': World)
    ensures w' ==
            w.(creators := w'.creators,
               redis := w.redis.(mappings := DeleteMapping(w.redis.mappings, row.clerkUserId, ok)))
    ensures Moves(w.creators, w'.creators, t)
  {
    w.(creators := w.creators.Put(t, CCommit(user, row)),
       redis := w.redis.(mappings := DeleteMapping(w.redis.mappings, row.clerkUserId, ok)))
  }

  function Commit(w: World, t: nat, user: User, row: UserAuthMapping): (w': World)
    ensures w' == w.(creators := w'.creators, db := w.db.(users := w'.db.users, mappings := w'.db.mappings))
    ensures Moves(w.creators, w'.creators, t)
  {
    w.(db := w.db.(users := w.db.users[user.id := [Rev(user, w.now, Inserted, 0)]],
                   mappings := w.db.mappings[row.id := row]), creators := w.creators.Put(t, CInval(user.id)))
  }

  function Abort(w: World, t: nat): (w': World)
    ensures w' == w.(creators := w'.creators) && Moves(w.creators, w'.creators, t)
  {
    w.(creators := w.creators.Put(t, CDone(Aborted)))
  }

  /** A failure is not recorded: no earlier state of a new row can be cached. */
  function DropAfterCommit(w: World, t: nat, u: int, ok: bool): (w': World)
    ensures w' ==
            w.(creators := w'.creators, redis := w.redis.(profiles := DeleteProfile(w.redis.profiles, u, ok)))
    ensures Moves(w.creators, w'.creators, t)
  {
    w.(redis := w.redis.(profiles := DeleteProfile(w.redis.profiles, u, ok)), creators := w.creators.Put(t, CPub(u)))
  }

  function PublishRegistered(w: World, t: nat, u: int, ok: bool): (w': World)
    ensures w' == w.(creators := w'.creators, topics := w.topics.(registered := w'.topics.registered))
            && Moves(w.creators, w'.creators, t)
  {
    w.(topics := w.topics.(registered := w.topics.registered + [u]),
       creators := w.creators.Put(t, CDone(if ok then Created(u) else Aborted)))
  }

  ghost function NextCreator(w: World, t: nat, ok: bool, name: string): (w': World)
    requires t in w.creators.at
  {
    match w.creators.at[t]
    case CLook(l, email, known) => LookupClerk(w, t, l, email, known, ok)
    case CEmail(c, email) => CheckEmail(w, t, c, email, ok)
    case CUser(c, email) => InsertUser(w, t, c, email, ok, name)
    case CDelBefore(c, email, user) => DropBefore(w, t, c, email, user, ok)
    case CMapping(c, email, user) => InsertMapping(w, t, c, email, user, ok)
    case CDelAfter(user, row) => DropAfter(w, t, user, row, ok)
    case CCommit(user, row) => if ok then Commit(w, t, user, row) else Abort(w, t)
    case CInval(u) => DropAfterCommit(w, t, u, ok)
    case CPub(u) => PublishRegistered(w, t, u, ok)
    case CDone(_) => w
  }

  /** An action of a thread that does not exist, or spawning one that does, changes nothing. */
  ghost function Next(w: World, a: Act): World {
    match a
    case SpawnReader(t, u) =>
      if t in w.readers.at then w
      else w.(readers := w.readers.Put(t, if u <= 0 then RDone(u, BadArgument) else RGet(u)))
    case ReaderAct(t, ok) => if t in w.readers.at then NextReader(w, t, ok) else w
    case SpawnUpdater(t, u, req) =>
      if t in w.updaters.at then w
      else w.(updaters := w.updaters.Put(t, if req.None? then UDone(Some(InvalidArgument)) else UGet(u, req.value)))
    case UpdaterAct(t, ok) => if t in w.updaters.at then NextUpdater(w, t, ok) else w
    case Login(state, u, email) =>
      if state == "" then w
      else
        var pending := KycPending(u, email, ZERO_TIME);
        w.(store := w.store.(log := LogSave(w.store.log, DEFAULT_KYC_STATE_TTL, state, pending, w.now)),
           history := w.history.(savedAt := w.history.savedAt + [w.now]))
    case SpawnCallback(t, state) =>
      if t in w.callbacks.at then w else w.(callbacks := w.callbacks.Put(t, KConsume(state)))
    case CallbackAct(t, ok, info) => if t in w.callbacks.at then NextCallback(w, t, ok, info) else w
    case SpawnLookup(t, c) => if t in w.lookups.at then w else w.(lookups := w.lookups.Put(t, LGet(c)))
    case LookupAct(t, ok) => if t in w.lookups.at then NextLookup(w, t, ok) else w
    case SpawnCreator(t, d) =>
      var c, email := ClerkUserId(d), SelectEmail(d);
      if t in w.creators.at then w
      else w.(creators := w.creators.Put(t, if email == "" then CDone(Skipped)
                                         else CLook(LGet(c), email, MappingFor(w, c).Some?)))
    case CreatorAct(t, ok, name) => if t in w.creators.at then NextCreator(w, t, ok, name) else w
    case EvictProfile(u) => w.(redis := w.redis.(profiles := w.redis.profiles - {u}))
    case EvictMapping(c) => w.(redis := w.redis.(mappings := w.redis.mappings - {c}))
    case Tick(d) => w.(now := w.now + d)
  }

  // ----- What each handler may change -----

  lemma ReaderFrame(w: World, t: nat, ok: bool)
    requires t in w.readers.at
    ensures var w' := NextReader(w, t, ok);
            && w' == w.(readers := w'.readers, redis := w.redis.(profiles := w'.redis.profiles),
                        history := w.history.(maxDelay := w'.history.maxDelay))
            && w.history.maxDelay <= w'.history.maxDelay && Moves(w.readers, w'.readers, t)
  {
    hide GetCached, ReadUser, ReadMapping, SetCached;
  }

  lemma UpdaterFrame(w: World, t: nat, ok: bool)
    requires t in w.updaters.at
    ensures var w' := NextUpdater(w, t, ok);
            && w' == w.(updaters := w'.updaters, db := w.db.(users := w'.db.users),
                        redis := w.redis.(profiles := w'.redis.profiles),
                        history := w.history.(lost := w'.history.lost))
            && Moves(w.updaters, w'.updaters, t)
            && w.history.lost <= w'.history.lost && Shrinks(w.redis.profiles, w'.redis.profiles)
            && RowsGrow(w.db.users, w'.db.users, w.now)
  {
    hide ReadForUpdate, WriteProfile, DropAfterUpdate;
  }

  lemma CallbackFrame(w: World, t: nat, ok: bool, info: Option<UserInfo>)
    requires t in w.callbacks.at
    ensures var w' := NextCallback(w, t, ok, info);
            && w' == w.(callbacks := w'.callbacks, db := w.db.(users := w'.db.users),
                        redis := w.redis.(profiles := w'.redis.profiles), store := w.store.(log := w'.store.log),
                        topics := w.topics.(kyc := w'.topics.kyc),
                        history := w.history.(lost := w'.history.lost, consumes := w'.history.consumes,
                                              kycWrites := w'.history.kycWrites))
            && Moves(w.callbacks, w'.callbacks, t)
            && w.history.lost <= w'.history.lost && Shrinks(w.redis.profiles, w'.redis.profiles)
            && RowsGrow(w.db.users, w'.db.users, w.now)
  {
    hide ConsumeState, FetchToken, FetchUserInfo, WriteStatus, DropAfterStatus, PublishStatus;
  }

  lemma CreatorFrame(w: World, t: nat, ok: bool, name: string)
    requires t in w.creators.at
    ensures var w' := NextCreator(w, t, ok, name);
            && w' == w.(creators := w'.creators,
                        redis := w.redis.(mappings := w'.redis.mappings, profiles := w'.redis.profiles),
                        db := w.db.(users := w'.db.users, nextUser := w'.db.nextUser, mappings := w'.db.mappings,
                                    nextMapping := w'.db.nextMapping),
                        topics := w.topics.(registered := w'.topics.registered))
            && Moves(w.creators, w'.creators, t)
            && w.db.nextUser <= w'.db.nextUser && w.db.nextMapping <= w'.db.nextMapping
            && Shrinks(w.redis.profiles, w'.redis.profiles)
            && (!w.creators.at[t].CPub? ==> w'.topics == w.topics)
            && (!(w.creators.at[t].CCommit? && ok) ==> w'.db.users == w.db.users && w'.db.mappings == w.db.mappings)
  {
    hide LookupClerk, CheckEmail, InsertUser, DropBefore, InsertMapping, DropAfter, Commit, Abort, DropAfterCommit,
         PublishRegistered;
  }

  /** An action of a thread that does not exist, or spawning one that does. */
  predicate Idle(w: World, a: Act) {
    match a
    case SpawnReader(t, _) => t in w.readers.at
    case ReaderAct(t, _) => t !in w.readers.at
    case SpawnUpdater(t, _, _) => t in w.updaters.at
    case UpdaterAct(t, _) => t !in w.updaters.at
    case SpawnCallback(t, _) => t in w.callbacks.at
    case CallbackAct(t, _, _) => t !in w.callbacks.at
    case SpawnLookup(t, _) => t in w.lookups.at
    case LookupAct(t, _) => t !in w.lookups.at
    case SpawnCreator(t, _) => t in w.creators.at
    case CreatorAct(t, _, _) => t !in w.creators.at
    case _ => false
  }

  /** The transaction of creator `t` is committed by this action. */
  predicate Commits(w: World, a: Act, t: nat) {
    a.CreatorAct? && a.ok && a.t == t && t in w.creators.at && w.creators.at[t].CCommit?
  }

  /** Which kinds of action may change which part of the state. */
  ghost predicate Framed(w: World, w': World, a: Act) {
    && (a.SpawnReader? || a.ReaderAct? || w'.readers == w.readers)
    && (a.SpawnUpdater? || a.UpdaterAct? || w'.updaters == w.updaters)
    && (a.SpawnCallback? || a.CallbackAct? || w'.callbacks == w.callbacks)
    && (a.SpawnLookup? || a.LookupAct? || w'.lookups == w.lookups)
    && (a.SpawnCreator? || a.CreatorAct? || w'.creators == w.creators)
    && ((a.CreatorAct? && Commits(w, a, a.t)) ||
          (w'.db.mappings == w.db.mappings && RowsGrow(w.db.users, w'.db.users, w.now)))
    && (a.UpdaterAct? || a.CallbackAct? || (a.CreatorAct? && Commits(w, a, a.t)) || w'.db.users == w.db.users)
    && (a.CreatorAct? || (w'.db.nextUser == w.db.nextUser && w'.db.nextMapping == w.db.nextMapping))
    && (a.CreatorAct? || w'.topics.registered == w.topics.registered)
    && (a.CallbackAct? || (w'.topics.kyc == w.topics.kyc && w'.history.consumes == w.history.consumes
                           && w'.history.kycWrites == w.history.kycWrites))
    && (a.Login? || a.CallbackAct? || w'.store == w.store)
    && (a.Login? || w'.history.savedAt == w.history.savedAt)
    && (a.ReaderAct? || (Shrinks(w.redis.profiles, w'.redis.profiles) && w'.history.maxDelay == w.history.maxDelay))
    && (a.LookupAct? || a.CreatorAct? || Shrinks(w.redis.mappings, w'.redis.mappings))
    && Advances(w, w')
  }

  ghost predicate Advances(w: World, w': World) {
    && w.now <= w'.now && w.db.nextUser <= w'.db.nextUser && w.db.nextMapping <= w'.db.nextMapping
    && w.history.lost <= w'.history.lost && w.history.maxDelay <= w'.history.maxDelay
    && w'.history.firstUser == w.history.firstUser && w'.history.firstMapping == w.history.firstMapping
  }

  /** Starting a call, logging in, evicting, waiting. */
  lemma StartFrame(w: World, a: Act)
    requires !a.ReaderAct? && !a.UpdaterAct? && !a.CallbackAct? && !a.CreatorAct? && !Idle(w, a)
    ensures Framed(w, Next(w, a), a)
  {
    hide NextReader, NextUpdater, NextCallback, NextCreator, LookupStep, LookupCache, SelectEmail, MappingFor, LogSave;
    if a.LookupAct? { assert Framed(w, NextLookup(w, a.t, a.ok), a); }
  }

  lemma NextFrame(w: World, a: Act)
    ensures Framed(w, Next(w, a), a)
    ensures Idle(w, a) ==> Next(w, a) == w
  {
    hide NextReader, NextUpdater, NextCallback, NextLookup, NextCreator, SelectEmail, MappingFor, LogSave;
    assert RowsGrow(w.db.users, w.db.users, w.now);
    hide RowsGrow;
    if Idle(w, a) {
    } else {
      match a {
        case ReaderAct(t, ok) => ReaderFrame(w, t, ok); assert Framed(w, Next(w, a), a);
        case UpdaterAct(t, ok) => UpdaterFrame(w, t, ok); assert Framed(w, Next(w, a), a);
        case CallbackAct(t, ok, info) => CallbackFrame(w, t, ok, info); assert Framed(w, Next(w, a), a);
        case CreatorAct(t, ok, name) => CreatorFrame(w, t, ok, name); assert Framed(w, Next(w, a), a);
        case _ => StartFrame(w, a);
      }
    }
  }

  ghost function Run(w: World, acts: seq<Act>): World {
    if acts == [] then w else Next(Run(w, acts[..|acts| - 1]), acts[|acts| - 1])
  }
}
