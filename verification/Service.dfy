/** The handlers as the program runs them, one at a time, over tables and one Redis key space
    that both caches share. Each is proved to answer as if Redis were disabled. */
module Service {
  import opened Model
  import opened MappingTable
  import opened Decimal
  import opened ProfileUpdate
  import opened ClerkEmail
  import opened KycEmail
  import opened StateStore
  import opened SerialSpec
  import Headers

  // ----- Redis -----

  datatype Value = CachedProfile(profile: Profile) | CachedMapping(mapping: UserAuthMapping)

  /** A value under a profile key is the uncached answer for that user; a value under a mapping
      key is the committed row of that Clerk id. */
  ghost predicate EntryCoherent(d: Data, key: string, v: Value) {
    match v
    case CachedProfile(p) => key == ProfileKey(p.userId) && ReadProfile(d, p.userId) == Ok(p)
    case CachedMapping(m) => key == MappingKey(m.clerkUserId) && m.id in d.mappings && d.mappings[m.id] == m
  }

  ghost predicate Coherent(d: Data, entries: map<string, Value>) {
    forall key | key in entries :: EntryCoherent(d, key, entries[key])
  }

  class Redis {
    var entries: map<string, Value>

    constructor ()
      ensures entries == map[]
    {
      entries := map[];
    }

    method Get(key: string) returns (v: Option<Value>)
      ensures v == if key in entries then Some(entries[key]) else None
    {
      v := if key in entries then Some(entries[key]) else None;
    }

    method Set(key: string, v: Value)
      modifies this
      ensures entries == old(entries)[key := v]
    {
      entries := entries[key := v];
    }

    method Del(key: string)
      modifies this
      ensures entries == old(entries) - {key}
    {
      entries := entries - {key};
    }
  }

  // ----- Database -----

  class Database {
    var data: Data

    constructor (data: Data)
      ensures this.data == data
    {
      this.data := data;
    }
  }

  class UserDao {
    const db: Database

    constructor (db: Database)
      ensures this.db == db
    {
      this.db := db;
    }

    method GetById(id: int) returns (user: Option<User>)
      ensures user == if id in db.data.users then Some(db.data.users[id]) else None
    {
      user := if id in db.data.users then Some(db.data.users[id]) else None;
    }

    method UpdateKycStatus(id: int, status: string)
      modifies db
      ensures db.data == SetStatus(old(db.data), id, status)
    {
      if id in db.data.users {
        db.data := db.data.(users := db.data.users[id := db.data.users[id].(kycStatus := status)]);
      }
    }

    method UpdateProfile(id: int, update: UserUpdate)
      modifies db
      ensures db.data == if id in old(db.data).users
                         then SetUser(old(db.data), id, ApplyPatch(old(db.data).users[id], update.Columns()))
                         else old(db.data)
    {
      if id in db.data.users {
        var row := db.data.users[id];
        if update.name != "" { row := row.(name := update.name); }
        if update.language != "" { row := row.(language := update.language); }
        if update.market != "" { row := row.(market := update.market); }
        db.data := db.data.(users := db.data.users[id := row]);
      }
    }

    /** Sets the new row's id. */
    method CreateInTransaction(tx: Database, user: User) returns (id: int)
      modifies tx
      ensures id == old(tx.data).nextUser
      ensures tx.data == old(tx.data).(nextUser := id + 1, users := old(tx.data).users[id := user.(id := id)])
    {
      id := tx.data.nextUser;
      tx.data := tx.data.(nextUser := id + 1, users := tx.data.users[id := user.(id := id)]);
    }
  }

  class UserAuthMappingDao {
    const db: Database
    const redis: Redis

    constructor (db: Database, redis: Redis)
      ensures this.db == db && this.redis == redis
    {
      this.db, this.redis := db, redis;
    }

    ghost predicate Valid() reads db, redis {
      DataOk(db.data) && Coherent(db.data, redis.entries)
    }

    method GetMappingFromCache(clerk: string) returns (row: Option<UserAuthMapping>)
      requires Valid()
      ensures row.Some? ==> row == First(db.data.mappings, ByClerk(clerk), db.data.nextMapping)
    {
      hide Collate, First, ReadProfile, ProfileKey, MappingKey;
      if clerk == "" {
        return None;
      }
      var v := redis.Get(MappingKey(clerk));
      if v.None? || !v.value.CachedMapping? {
        return None;
      }
      var m := v.value.mapping;
      assert EntryCoherent(db.data, MappingKey(clerk), redis.entries[MappingKey(clerk)]);
      KeysDistinct(0, 0, clerk, m.clerkUserId);
      FoundForClerk(db.data.mappings, db.data.nextMapping, m.id, clerk);
      return Some(m);
    }

    method SetMappingCache(row: UserAuthMapping)
      requires Valid() && row.id in db.data.mappings && db.data.mappings[row.id] == row
      modifies redis
      ensures Valid()
    {
      hide First, Collate, ProfileKey, MappingKey, ReadProfile;
      if row.clerkUserId == "" {
        return;
      }
      redis.Set(MappingKey(row.clerkUserId), CachedMapping(row));
    }

    method DeleteMappingCache(clerk: string)
      modifies redis
      ensures redis.entries == if clerk == "" then old(redis.entries) else old(redis.entries) - {MappingKey(clerk)}
    {
      if clerk == "" {
        return;
      }
      redis.Del(MappingKey(clerk));
    }

    method GetByClerkUserId(clerk: string) returns (row: Option<UserAuthMapping>)
      requires Valid()
      modifies redis
      ensures Valid() && row == First(db.data.mappings, ByClerk(clerk), db.data.nextMapping)
    {
      hide Coherent, First;
      var cached := GetMappingFromCache(clerk);
      if cached.Some? {
        return cached;
      }
      row := First(db.data.mappings, ByClerk(clerk), db.data.nextMapping);
      if row.None? {
        return;
      }
      SetMappingCache(row.value);
    }

    method GetByEmail(email: string) returns (row: Option<UserAuthMapping>)
      ensures row == First(db.data.mappings, ByEmail(email), db.data.nextMapping)
    {
      row := First(db.data.mappings, ByEmail(email), db.data.nextMapping);
    }

    method GetByInternalUserId(userId: int) returns (row: Option<UserAuthMapping>)
      ensures row == if userId <= 0 then None else First(db.data.mappings, ByUser(userId), db.data.nextMapping)
    {
      if userId <= 0 {
        return None;
      }
      row := First(db.data.mappings, ByUser(userId), db.data.nextMapping);
    }

    /** Inserts unless the unique index already holds the Clerk id; drops the cache entry before
        and after. */
    method CreateInTransaction(tx: Database, mapping: UserAuthMapping) returns (ok: bool)
      modifies tx, redis
      ensures var d, id := old(tx.data), old(tx.data).nextMapping;
              && ok == First(d.mappings, ByClerk(mapping.clerkUserId), d.nextMapping).None?
              && (ok ==> tx.data == d.(nextMapping := id + 1, mappings := d.mappings[id := mapping.(id := id)]))
      ensures redis.entries.Keys <= old(redis.entries).Keys
      ensures forall key | key in redis.entries :: redis.entries[key] == old(redis.entries)[key]
    {
      DeleteMappingCache(mapping.clerkUserId);
      if First(tx.data.mappings, ByClerk(mapping.clerkUserId), tx.data.nextMapping).Some? {
        return false;
      }
      var id := tx.data.nextMapping;
      tx.data := tx.data.(nextMapping := id + 1, mappings := tx.data.mappings[id := mapping.(id := id)]);
      DeleteMappingCache(mapping.clerkUserId);
      return true;
    }
  }

  class Authenticator {
    const mapping: UserAuthMappingDao

    constructor (mapping: UserAuthMappingDao)
      ensures this.mapping == mapping
    {
      this.mapping := mapping;
    }

    /** `subject` is what the verification of the token gives. */
    method Authenticate(subject: Option<string>) returns (user: Option<Headers.Identity>)
      requires mapping.Valid()
      modifies mapping.redis
      ensures mapping.Valid()
      ensures user == if subject.None? then None
                      else Headers.Identify(First(mapping.db.data.mappings, ByClerk(subject.value),
                                                  mapping.db.data.nextMapping))
    {
      hide Coherent, First;
      if subject.None? {
        return None;
      }
      var row := mapping.GetByClerkUserId(subject.value);
      if row.None? {
        return None;
      }
      return Some(Headers.Identity(row.value.internalUserId, row.value.role));
    }
  }

  // ----- Coherence -----

  lemma FewerEntries(d: Data, entries: map<string, Value>, entries': map<string, Value>)
    requires Coherent(d, entries) && entries'.Keys <= entries.Keys
    requires forall key | key in entries' :: entries'[key] == entries[key]
    ensures Coherent(d, entries')
  {
    hide EntryCoherent;
  }

  lemma TouchedEntryDropped(d: Data, d': Data, touched: int, entries: map<string, Value>)
    requires Coherent(d, entries) && Preserves(d, d', touched)
    ensures Coherent(d', entries - {ProfileKey(touched)})
  {
    hide ProfileKey, MappingKey, ReadProfile;
    var entries' := entries - {ProfileKey(touched)};
    forall key | key in entries' ensures EntryCoherent(d', key, entries'[key]) {
      assert EntryCoherent(d, key, entries[key]);
    }
  }

  // ----- Services -----

  class UserProfileService {
    const users: UserDao
    const mappings: UserAuthMappingDao
    const db: Database
    const redis: Redis

    constructor (users: UserDao, mappings: UserAuthMappingDao)
      requires users.db == mappings.db
      ensures this.users == users && this.mappings == mappings && db == users.db && redis == mappings.redis
    {
      this.users, this.mappings, db, redis := users, mappings, users.db, mappings.redis;
    }

    ghost predicate Valid() reads db, redis {
      && users.db == db && mappings.db == db && mappings.redis == redis
      && DataOk(db.data) && Coherent(db.data, redis.entries)
    }

    method GetUserProfileCache(userId: int) returns (profile: Option<Profile>)
      requires Valid()
      ensures profile.Some? ==> ReadProfile(db.data, userId) == Ok(profile.value)
    {
      hide First, ReadProfile, ProfileKey, MappingKey;
      var v := redis.Get(ProfileKey(userId));
      if v.None? || !v.value.CachedProfile? {
        return None;
      }
      assert EntryCoherent(db.data, ProfileKey(userId), redis.entries[ProfileKey(userId)]);
      KeysDistinct(userId, v.value.profile.userId, "", "");
      return Some(v.value.profile);
    }

    method SetUserProfileCache(profile: Profile)
      requires Valid() && ReadProfile(db.data, profile.userId) == Ok(profile)
      modifies redis
      ensures Valid()
    {
      hide First, ReadProfile, ProfileKey, MappingKey;
      redis.Set(ProfileKey(profile.userId), CachedProfile(profile));
    }

    method InvalidateUserProfileCache(userId: int)
      modifies redis
      ensures redis.entries == if userId > 0 then old(redis.entries) - {ProfileKey(userId)} else old(redis.entries)
    {
      if userId <= 0 {
        return;
      }
      redis.Del(ProfileKey(userId));
    }

    method GetUserProfile(userId: int) returns (r: Result<Profile, ReadError>)
      requires Valid()
      modifies redis
      ensures Valid() && r == ReadProfile(db.data, userId)
    {
      hide First, Coherent;
      if userId <= 0 {
        return Err(BadArgument);
      }
      var cached := GetUserProfileCache(userId);
      if cached.Some? {
        return Ok(cached.value);
      }
      var user := users.GetById(userId);
      if user.None? {
        return Err(NotFound);
      }
      var mapping := mappings.GetByInternalUserId(userId);
      if mapping.None? {
        return Err(NotFound);
      }
      var profile := Profile(user.value.id, mapping.value.email, user.value.name, user.value.market,
                             user.value.kycStatus, user.value.createdAt);
      SetUserProfileCache(profile);
      return Ok(profile);
    }

    method UpdateProfile(userId: int, req: Option<Request>) returns (error: Option<ProfileError>)
      requires Valid()
      modifies db, redis
      ensures Valid() && (db.data, error) == UpdateUser(old(db.data), userId, req)
    {
      hide First, Coherent, BuildPatch, ReadProfile, ProfileKey;
      if req.None? {
        return Some(InvalidArgument);
      }
      var user := users.GetById(userId);
      if user.None? {
        return Some(UserNotFound);
      }
      assert db.data.users[userId := user.value] == db.data.users;
      var update, err := BuildProfileUpdate(user.value, req.value);
      if err.Some? {
        return err;
      }
      if update == null {
        return None;
      }
      SetUserKeeps(db.data, userId, ApplyPatch(user.value, update.Columns()));
      TouchedEntryDropped(db.data, SetUser(db.data, userId, ApplyPatch(user.value, update.Columns())), userId,
                          redis.entries);
      users.UpdateProfile(userId, update);
      InvalidateUserProfileCache(userId);
      return None;
    }
  }

  class UserMappingService {
    const users: UserDao
    const mappings: UserAuthMappingDao
    const profiles: UserProfileService
    const db: Database
    const redis: Redis
    var registered: seq<int>

    constructor (profiles: UserProfileService)
      ensures this.profiles == profiles && users == profiles.users && mappings == profiles.mappings
      ensures db == profiles.db && redis == profiles.redis && registered == []
    {
      this.profiles, users, mappings, db, redis := profiles, profiles.users, profiles.mappings, profiles.db,
          profiles.redis;
      registered := [];
    }

    ghost predicate Valid() reads db, redis {
      && users == profiles.users && mappings == profiles.mappings && db == profiles.db && redis == profiles.redis
      && profiles.Valid()
    }

    method CreateUser(webhook: Option<ClerkCallbackData>, name: string, published: bool, now: int)
        returns (outcome: Outcome)
      requires Valid()
      modifies this, db, redis
      ensures Valid()
      ensures var (d, r) := Register(old(db.data), webhook, name, now);
              && db.data == d && outcome == (if r.Created? && !published then Aborted else r)
              && registered == if outcome.Created? then old(registered) + [outcome.userId] else old(registered)
    {
      assert 0 < db.data.nextUser;
      hide First, Coherent, SelectEmail, DataOk, Preserves, ReadProfile, ProfileKey, ClerkUserId;
      var clerk := ClerkUserId(webhook);
      var email := EmailAddress(webhook);
      if email == "" {
        return Skipped;
      }
      var existing := mappings.GetByClerkUserId(clerk);
      if existing.Some? {
        return Exists;
      }
      var userMapping := mappings.GetByEmail(email);
      if userMapping.Some? {
        return Exists;
      }
      ghost var d, before := db.data, redis.entries;
      RegisterKeeps(d, webhook, name, now);
      var user := User(0, name, "", "", "", KYC_PENDING, "", now);
      var tx := new Database(db.data);
      var id := users.CreateInTransaction(tx, user);
      var ok := mappings.CreateInTransaction(tx, UserAuthMapping(0, clerk, email, id, ROLE_USER));
      FewerEntries(d, before, redis.entries);
      outcome := Aborted;
      if ok {
        assert tx.data == Register(d, webhook, name, now).0;
        TouchedEntryDropped(d, tx.data, id, redis.entries);
        db.data := tx.data;
        profiles.InvalidateUserProfileCache(id);
        if published {
          registered := registered + [id];
          outcome := Created(id);
        }
      }
    }
  }

  class KycService {
    const users: UserDao
    const profiles: UserProfileService
    const db: Database
    const redis: Redis
    const store: MemoryKycStateStore
    var kyc: seq<(int, string)>

    constructor (profiles: UserProfileService, store: MemoryKycStateStore)
      ensures this.profiles == profiles && users == profiles.users && db == profiles.db && redis == profiles.redis
      ensures this.store == store && kyc == []
    {
      this.profiles, users, db, redis, this.store := profiles, profiles.users, profiles.db, profiles.redis, store;
      kyc := [];
    }

    ghost predicate Valid() reads db, redis {
      users == profiles.users && db == profiles.db && redis == profiles.redis && profiles.Valid()
    }

    method StartSingpassLogin(state: string, userId: int, email: string, now: int)
      modifies store
      ensures store.items ==
              SaveItem(old(store.items), store.ttl, state, KycPending(userId, email, ZERO_TIME), now, now)
    {
      store.Save(state, KycPending(userId, email, ZERO_TIME), now, now);
    }

    method SingpassCallback(state: string, singpass: Singpass, published: bool, now: int)
        returns (error: Option<KycError>)
      requires Valid()
      modifies this, db, redis, store
      ensures Valid()
      ensures var was := State(old(db.data), old(store.items), old(kyc), []);
              (State(db.data, store.items, kyc, []), error) == Callback(was, state, singpass, published, now)
    {
      hide First, Coherent, DataOk, Preserves, ReadProfile, ProfileKey, EmailsMatchForKyc, ConsumeItem;
      var pending := store.Consume(state, now, now);
      if pending.None? {
        return Some(InvalidOAuthState);
      }
      var u := pending.value.internalUserId;
      if singpass.NoToken? {
        return Some(TokenFailed);
      }
      if singpass.NoInfo? {
        return Some(InfoFailed);
      }
      var userInfo := singpass.info;
      var singpassEmail := "";
      if userInfo.Some? {
        singpassEmail := userInfo.value.email;
      }
      if pending.value.email != "" && !EmailsMatchForKyc(pending.value.email, singpassEmail) {
        return Some(EmailMismatch);
      }
      var kycStatus := KYC_FAILED;
      if userInfo.Some? && userInfo.value.name != "" {
        kycStatus := KYC_PASSED;
      }
      StatusKeepsCoherent(db.data, u, kycStatus, redis.entries);
      users.UpdateKycStatus(u, kycStatus);
      profiles.InvalidateUserProfileCache(u);
      if !published {
        return Some(PublishFailed);
      }
      kyc := kyc + [(u, kycStatus)];
      return None;
    }
  }

  lemma StatusKeepsCoherent(d: Data, u: int, status: string, entries: map<string, Value>)
    requires DataOk(d) && Coherent(d, entries)
    ensures DataOk(SetStatus(d, u, status))
    ensures Coherent(SetStatus(d, u, status), if u > 0 then entries - {ProfileKey(u)} else entries)
  {
    hide First, Preserves, ReadProfile, ProfileKey, MappingKey;
    if u in d.users {
      SetUserKeeps(d, u, d.users[u].(kycStatus := status));
      TouchedEntryDropped(d, SetStatus(d, u, status), u, entries);
    } else if u > 0 {
      FewerEntries(d, entries, entries - {ProfileKey(u)});
    }
  }

  // ----- The whole service -----

  class Server {
    const db: Database
    const redis: Redis
    const store: MemoryKycStateStore
    const profiles: UserProfileService
    const registration: UserMappingService
    const kyc: KycService

    constructor (data: Data, ttl: int)
      requires DataOk(data)
      ensures Valid() && fresh(db) && fresh(redis) && fresh(store) && fresh(registration) && fresh(kyc)
      ensures Now() == State(data, map[], [], [])
    {
      var db := new Database(data);
      var redis := new Redis();
      var store := new MemoryKycStateStore(ttl);
      var users := new UserDao(db);
      var mappings := new UserAuthMappingDao(db, redis);
      var profiles := new UserProfileService(users, mappings);
      var registration := new UserMappingService(profiles);
      var kyc := new KycService(profiles, store);
      this.db, this.redis, this.store := db, redis, store;
      this.profiles, this.registration, this.kyc := profiles, registration, kyc;
    }

    ghost predicate Valid() reads db, redis {
      && profiles.db == db && profiles.redis == redis && registration.profiles == profiles && kyc.profiles == profiles
      && registration.db == db && registration.redis == redis && kyc.db == db && kyc.redis == redis
      && kyc.store == store && profiles.Valid() && registration.Valid() && kyc.Valid()
    }

    /** Everything but the caches. */
    function Now(): State reads db, store, registration, kyc {
      State(db.data, store.items, kyc.kyc, registration.registered)
    }

    method Serve(call: Call) returns (reply: Reply)
      requires Valid()
      modifies db, redis, store, registration, kyc
      ensures Valid() && (Now(), reply) == AnswerTo(old(Now()), store.ttl, call)
    {
      hide First, Coherent, DataOk, ReadProfile, UpdateUser, Register, SaveItem;
      reply := NoReply;
      match call {
        case GetUserProfile(u) =>
          var r := profiles.GetUserProfile(u);
          reply := ProfileReply(r);
        case UpdateProfile(u, req) =>
          var error := profiles.UpdateProfile(u, req);
          reply := UpdateReply(error);
        case GetByClerkUserId(clerk) =>
          var row := registration.mappings.GetByClerkUserId(clerk);
          reply := MappingReply(row);
        case CreateUser(webhook, name, published, now) =>
          var outcome := registration.CreateUser(webhook, name, published, now);
          reply := CreateReply(outcome);
        case StartSingpassLogin(state, u, email, now) =>
          kyc.StartSingpassLogin(state, u, email, now);
        case SingpassCallback(state, singpass, published, now) =>
          var error := kyc.SingpassCallback(state, singpass, published, now);
          reply := KycReply(error);
        case Evict(key) =>
          FewerEntries(db.data, redis.entries, redis.entries - {key});
          redis.Del(key);
      }
    }

    /** Serial refinement: whatever is evicted in between, every call of every sequence gets the
        same value or error from the cached service as from one without Redis. */
    method ServeAll(calls: seq<Call>) returns (replies: seq<Reply>)
      requires Valid()
      modifies db, redis, store, registration, kyc
      ensures Valid()
      ensures replies == Answers(old(Now()), store.ttl, calls) && Now() == FinalState(old(Now()), store.ttl, calls)
    {
      hide AnswerTo;
      replies := [];
      for i := 0 to |calls|
        invariant Valid()
        invariant replies == Answers(old(Now()), store.ttl, calls[..i])
                  && Now() == FinalState(old(Now()), store.ttl, calls[..i])
      {
        assert calls[..i + 1][..i] == calls[..i];
        var reply := Serve(calls[i]);
        replies := replies + [reply];
      }
      assert calls[..|calls|] == calls;
    }
  }
}
