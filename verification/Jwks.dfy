/** The JWKS key cache of server/auth/jwks.go: time to live, replacement on refresh, and the
    bound on fetches it gives. HTTP, JSON and base64 are parameters. */
module Jwks {
  import opened Model
  import opened RsaExponent

  /** Five minutes, in nanoseconds. */
  const JWKS_CACHE_TTL := 300_000_000_000

  datatype JwkKey = JwkKey(kid: string, kty: string, alg: string, use: string, n: string, e: string)
  datatype RsaKey = RsaKey(modulus: nat, exponent: int)
  /** Transport error, bad status or undecodable body; or the decoded list. */
  datatype Fetch = FetchFailed | Fetched(keys: seq<JwkKey>)
  datatype JwksError = KeyNotFound | RefreshFailed
  type Base64 = string -> Option<seq<Octet>>

  function RsaPublicKey(n: string, e: string, decode: Base64): Option<RsaKey> {
    if decode(n).None? || decode(e).None? then None
    else Some(RsaKey(Os2ip(decode(n).value), Int64(Os2ip(decode(e).value))))
  }

  method BuildRsaPublicKey(n: string, e: string, decode: Base64) returns (key: Option<RsaKey>)
    ensures key == RsaPublicKey(n, e, decode)
  {
    var nBytes := decode(n);
    if nBytes.None? { return None; }
    var eBytes := decode(e);
    if eBytes.None? { return None; }
    var exponent := Exponent(eBytes.value);
    key := Some(RsaKey(Os2ip(nBytes.value), exponent));
  }

  predicate Usable(raw: JwkKey, decode: Base64) {
    && raw.kty == "RSA" && raw.n != "" && raw.e != "" && raw.kid != ""
    && RsaPublicKey(raw.n, raw.e, decode).Some?
  }

  /** A usable entry with this key id. */
  predicate Serves(raw: JwkKey, kid: string, decode: Base64) { raw.kid == kid && Usable(raw, decode) }

  /** The last usable entry with this key id. */
  function LastUsable(keys: seq<JwkKey>, kid: string, decode: Base64): Option<RsaKey> {
    if keys == [] then None
    else
      var raw := keys[|keys| - 1];
      if Serves(raw, kid, decode) then RsaPublicKey(raw.n, raw.e, decode)
      else LastUsable(keys[..|keys| - 1], kid, decode)
  }

  /** `keys` holds exactly the last usable entry of every key id of `list`. */
  ghost predicate Indexes(keys: map<string, RsaKey>, list: seq<JwkKey>, decode: Base64) {
    forall kid :: Lookup(keys, kid) == LastUsable(list, kid, decode)
  }

  function Lookup(keys: map<string, RsaKey>, kid: string): Option<RsaKey> {
    if kid in keys then Some(keys[kid]) else None
  }

  // ----- The key a response offers -----

  /** The entry is an RSA key with this id whose modulus and exponent decode. */
  predicate Offers(raw: JwkKey, kid: string, decode: Base64) {
    raw.kid == kid && kid != "" && raw.kty == "RSA" && raw.n != "" && raw.e != "" && decode(raw.n).Some?
        && decode(raw.e).Some?
  }

  /** Entry `i` is the last one that offers a key with this id, and `key` is that key: OS2IP
      of its decoded modulus, and of its exponent as a signed 64-bit int. */
  ghost predicate OfferedAt(keys: seq<JwkKey>, kid: string, decode: Base64, i: nat, key: RsaKey) {
    && i < |keys| && Offers(keys[i], kid, decode) && (forall j | i < j < |keys| :: !Offers(keys[j], kid, decode))
    && key.modulus == Os2ip(decode(keys[i].n).value) && key.exponent == Int64(Os2ip(decode(keys[i].e).value))
  }

  /** `r` is the key the response offers for this id, or "not found" when it offers none. */
  ghost predicate AnsweredFrom(keys: seq<JwkKey>, kid: string, decode: Base64, r: Result<RsaKey, JwksError>) {
    match r
    case Ok(key) => exists i :: OfferedAt(keys, kid, decode, i, key)
    case Err(KeyNotFound) => forall i | 0 <= i < |keys| :: !Offers(keys[i], kid, decode)
    case Err(RefreshFailed) => false
  }

  lemma LastUsableAnswers(keys: seq<JwkKey>, kid: string, decode: Base64)
    ensures var key := LastUsable(keys, kid, decode);
            AnsweredFrom(keys, kid, decode, if key.Some? then Ok(key.value) else Err(KeyNotFound))
  {
    forall i | 0 <= i < |keys| ensures Offers(keys[i], kid, decode) <==> Serves(keys[i], kid, decode) {}
    var i := LastUsableIsLast(keys, kid, decode);
    hide LastUsable, Offers, Serves;
    if LastUsable(keys, kid, decode).Some? {
      KeyOf(keys[i], kid, decode);
      assert OfferedAt(keys, kid, decode, i, LastUsable(keys, kid, decode).value);
    }
  }

  /** The answer the entries give. */
  function Held(keys: map<string, RsaKey>, kid: string): Result<RsaKey, JwksError> {
    if kid in keys then Ok(keys[kid]) else Err(KeyNotFound)
  }

  lemma IndexAnswers(keys: map<string, RsaKey>, list: seq<JwkKey>, decode: Base64)
    requires Indexes(keys, list, decode)
    ensures forall kid :: AnsweredFrom(list, kid, decode, Held(keys, kid))
  {
    hide AnsweredFrom, LastUsable;
    forall kid ensures AnsweredFrom(list, kid, decode, Held(keys, kid)) {
      LastUsableAnswers(list, kid, decode);
      assert Lookup(keys, kid) == LastUsable(list, kid, decode);
    }
  }

  lemma KeyOf(raw: JwkKey, kid: string, decode: Base64)
    requires Offers(raw, kid, decode)
    ensures RsaPublicKey(raw.n, raw.e, decode) ==
            Some(RsaKey(Os2ip(decode(raw.n).value), Int64(Os2ip(decode(raw.e).value))))
  {
  }

  // ----- What a cache does with its calls -----

  /** One `publicKey` call: the clock at entry, the fetch if one is made, and the clock once its
      response has been read. */
  datatype KeyCall = KeyCall(kid: string, now: nat, fetch: Fetch, done: nat)

  /** A cache: its expiry, the most recent successful response, and the times of all successful
      refreshes and of all fetches. */
  datatype Source = Source(expiresAt: int, response: seq<JwkKey>, refreshes: seq<int>, fetches: seq<int>)

  const EMPTY := Source(0, [], [], [])

  /** While the entry lives nothing is fetched; otherwise one fetch, which counts iff it succeeds. */
  function After(s: Source, call: KeyCall): Source {
    if call.now < s.expiresAt then s
    else if call.fetch.FetchFailed? then s.(fetches := s.fetches + [call.done])
    else Source(call.done + JWKS_CACHE_TTL, call.fetch.keys, s.refreshes + [call.done], s.fetches + [call.done])
  }

  function AfterAll(s: Source, calls: seq<KeyCall>): Source {
    if calls == [] then s else After(AfterAll(s, calls[..|calls| - 1]), calls[|calls| - 1])
  }

  /** The last usable entry of the latest response, unless a needed fetch failed. */
  function ReplyTo(s: Source, call: KeyCall, decode: Base64): Result<RsaKey, JwksError> {
    if call.now >= s.expiresAt && call.fetch.FetchFailed? then Err(RefreshFailed)
    else match LastUsable(After(s, call).response, call.kid, decode)
      case Some(key) => Ok(key)
      case None => Err(KeyNotFound)
  }

  /** Consecutive successful refreshes lie at least one time to live apart, and the entry lives
      for that time after the last of them. */
  ghost predicate Timed(s: Source) {
    && Spaced(s.refreshes)
    && s.expiresAt == (if s.refreshes == [] then 0 else s.refreshes[|s.refreshes| - 1] + JWKS_CACHE_TTL)
    && (s.refreshes == [] ==> s.response == [])
  }

  /** The last of the first `n` calls that refreshes a cache which expires at `live`. */
  function LatestRefresh(live: int, calls: seq<KeyCall>, n: nat): (j: Option<nat>)
    requires n <= |calls|
    ensures j.Some? ==> j.value < n && calls[j.value].fetch.Fetched?
  {
    if n == 0 then None
    else
      var before := LatestRefresh(live, calls, n - 1);
      var until := if before.Some? then calls[before.value].done + JWKS_CACHE_TTL else live;
      if calls[n - 1].now >= until && calls[n - 1].fetch.Fetched? then Some(n - 1) else before
  }

  /** When the entries in place before call `n` expire. */
  function Expiry(live: int, calls: seq<KeyCall>, n: nat): int
    requires n <= |calls|
  {
    var j := LatestRefresh(live, calls, n);
    if j.Some? then calls[j.value].done + JWKS_CACHE_TTL else live
  }

  /** Call `i` is answered from the fetch of the latest refresh alone, its own included, or from
      the entries `keys` there were when none has been made. */
  ghost predicate Answers(keys: map<string, RsaKey>, live: int, calls: seq<KeyCall>, i: nat, decode: Base64,
                          r: Result<RsaKey, JwksError>)
    requires i < |calls|
  {
    if calls[i].now >= Expiry(live, calls, i) && calls[i].fetch.FetchFailed? then r == Err(RefreshFailed)
    else match LatestRefresh(live, calls, i + 1)
      case Some(j) => AnsweredFrom(calls[j].fetch.keys, calls[i].kid, decode, r)
      case None => r == Held(keys, calls[i].kid)
  }

  /** The first `n` calls have their replies. */
  ghost predicate Replied(keys: map<string, RsaKey>, live: int, s: Source, calls: seq<KeyCall>, n: nat, decode: Base64,
                          replies: seq<Result<RsaKey, JwksError>>)
    requires n <= |calls|
  {
    && |replies| == n
    && forall i | 0 <= i < n ::
         && replies[i] == ReplyTo(AfterAll(s, calls[..i]), calls[i], decode)
         && Answers(keys, live, calls, i, decode, replies[i])
  }

  lemma ReplySnoc(keys: map<string, RsaKey>, live: int, s: Source, calls: seq<KeyCall>, n: nat, decode: Base64,
                  replies: seq<Result<RsaKey, JwksError>>, r: Result<RsaKey, JwksError>)
    requires n < |calls| && Replied(keys, live, s, calls, n, decode, replies)
    requires r == ReplyTo(AfterAll(s, calls[..n]), calls[n], decode) && Answers(keys, live, calls, n, decode, r)
    ensures Replied(keys, live, s, calls, n + 1, decode, replies + [r])
  {
    hide ReplyTo, Answers, AfterAll;
  }

  lemma RepliedAll(keys: map<string, RsaKey>, live: int, s: Source, calls: seq<KeyCall>, decode: Base64,
                   replies: seq<Result<RsaKey, JwksError>>)
    requires Replied(keys, live, s, calls, |calls|, decode, replies)
    ensures |replies| == |calls|
    ensures forall i | 0 <= i < |calls| :: replies[i] == ReplyTo(AfterAll(s, calls[..i]), calls[i], decode)
    ensures forall i | 0 <= i < |calls| :: Answers(keys, live, calls, i, decode, replies[i])
  {
    hide ReplyTo, Answers, AfterAll;
  }

  /** The entries in place after `n` calls. */
  ghost predicate Serving(keys: map<string, RsaKey>, live: int, calls: seq<KeyCall>, n: nat, decode: Base64,
                          now: map<string, RsaKey>, until: int)
    requires n <= |calls|
  {
    && until == Expiry(live, calls, n)
    && match LatestRefresh(live, calls, n)
       case Some(j) => forall kid :: AnsweredFrom(calls[j].fetch.keys, kid, decode, Held(now, kid))
       case None => now == keys
  }

  lemma ServesOn(keys: map<string, RsaKey>, live: int, calls: seq<KeyCall>, n: nat, decode: Base64,
                 was: map<string, RsaKey>, until: int, now: map<string, RsaKey>, until': int,
                 r: Result<RsaKey, JwksError>)
    requires n < |calls| && Serving(keys, live, calls, n, decode, was, until)
    requires r == Err(RefreshFailed) <==> calls[n].now >= until && calls[n].fetch.FetchFailed?
    requires calls[n].now < until || calls[n].fetch.FetchFailed? ==> now == was && until' == until
    requires calls[n].now < until ==> r == Held(was, calls[n].kid)
    requires calls[n].now >= until && calls[n].fetch.Fetched? ==>
               && AnsweredFrom(calls[n].fetch.keys, calls[n].kid, decode, r) && until' == calls[n].done + JWKS_CACHE_TTL
               && forall kid :: AnsweredFrom(calls[n].fetch.keys, kid, decode, Held(now, kid))
    ensures Serving(keys, live, calls, n + 1, decode, now, until') && Answers(keys, live, calls, n, decode, r)
  {
    hide AnsweredFrom;
  }

  class JwksCache {
    const decode: Base64
    var expiresAt: int
    var keys: map<string, RsaKey>
    ghost var response: seq<JwkKey>
    ghost var refreshes: seq<int>
    ghost var fetches: seq<int>

    ghost function State(): Source
      reads this
    {
      Source(expiresAt, response, refreshes, fetches)
    }

    ghost predicate Valid()
      reads this
    {
      Indexes(keys, response, decode) && Timed(State())
    }

    constructor (decode: Base64)
      ensures Valid() && this.decode == decode && State() == EMPTY
    {
      this.decode := decode;
      expiresAt, keys := 0, map[];
      response, refreshes, fetches := [], [], [];
    }

    method PublicKey(kid: string, now: nat, fetch: Fetch, done: nat) returns (r: Result<RsaKey, JwksError>)
      requires Valid() && now <= done
      modifies this
      ensures Valid() && State() == After(old(State()), KeyCall(kid, now, fetch, done))
      ensures r == ReplyTo(old(State()), KeyCall(kid, now, fetch, done), decode)
      ensures refreshes == old(refreshes) ==> keys == old(keys)
      // A needed fetch that fails is the error; one that succeeds is all the answer is from.
      ensures r == Err(RefreshFailed) <==> now >= old(expiresAt) && fetch.FetchFailed?
      ensures now < old(expiresAt) || fetch.FetchFailed? ==> keys == old(keys) && expiresAt == old(expiresAt)
      ensures now >= old(expiresAt) && fetch.Fetched? ==>
                && AnsweredFrom(fetch.keys, kid, decode, r) && expiresAt == done + JWKS_CACHE_TTL
                && forall k :: AnsweredFrom(fetch.keys, k, decode, Held(keys, k))
      ensures now < old(expiresAt) ==> r == Held(keys, kid)
      // Anything but a failed refresh is answered from a response fresh enough.
      ensures r != Err(RefreshFailed) ==>
                && refreshes != []
                && (refreshes[|refreshes| - 1] == done || now < refreshes[|refreshes| - 1] + JWKS_CACHE_TTL)
    {
      hide AnsweredFrom, LastUsable;
      if now < expiresAt {
        assert Lookup(keys, kid) == LastUsable(response, kid, decode);
        if kid in keys {
          return Ok(keys[kid]);
        }
        return Err(KeyNotFound);
      }
      var ok := Refresh(fetch, now, done);
      if !ok {
        return Err(RefreshFailed);
      }
      assert AnsweredFrom(fetch.keys, kid, decode, Held(keys, kid));
      assert Lookup(keys, kid) == LastUsable(response, kid, decode);
      if kid !in keys {
        return Err(KeyNotFound);
      }
      return Ok(keys[kid]);
    }

    method Refresh(fetch: Fetch, ghost now: nat, done: nat) returns (ok: bool)
      requires Valid() && expiresAt <= now <= done
      modifies this
      ensures Valid() && ok == fetch.Fetched?
      ensures State() == After(old(State()), KeyCall("", now, fetch, done))
      ensures ok ==> expiresAt == done + JWKS_CACHE_TTL && forall kid ::
              AnsweredFrom(fetch.keys, kid, decode, Held(keys, kid))
      ensures !ok ==> keys == old(keys) && expiresAt == old(expiresAt)
    {
      fetches := fetches + [done];
      if fetch.FetchFailed? {
        return false;
      }
      var index: map<string, RsaKey> := map[];
      for i := 0 to |fetch.keys|
        invariant Valid() && State() == old(State()).(fetches := old(fetches) + [done])
        invariant Indexes(index, fetch.keys[..i], decode)
      {
        var raw := fetch.keys[i];
        assert fetch.keys[..i + 1][..i] == fetch.keys[..i];
        if raw.kty != "RSA" || raw.n == "" || raw.e == "" || raw.kid == "" {
          continue;
        }
        var key := BuildRsaPublicKey(raw.n, raw.e, decode);
        if key.None? {
          continue;
        }
        index := index[raw.kid := key.value];
      }
      assert fetch.keys[..|fetch.keys|] == fetch.keys;
      IndexAnswers(index, fetch.keys, decode);
      keys := index;
      expiresAt := done + JWKS_CACHE_TTL;
      response, refreshes := fetch.keys, refreshes + [done];
      return true;
    }

    /** Any sequence of calls with any fetch outcomes: in no window of time are there more
        successful refreshes than one plus its length in times to live. */
    method ServeAll(calls: seq<KeyCall>) returns (replies: seq<Result<RsaKey, JwksError>>)
      requires Valid() && forall i | 0 <= i < |calls| :: calls[i].now <= calls[i].done
      modifies this
      ensures Valid() && State() == AfterAll(old(State()), calls) && |replies| == |calls|
      ensures forall i | 0 <= i < |calls| :: replies[i] == ReplyTo(AfterAll(old(State()), calls[..i]), calls[i], decode)
      ensures forall i | 0 <= i < |calls| :: Answers(old(keys), old(expiresAt), calls, i, decode, replies[i])
      ensures forall lo, hi | lo <= hi :: (CountIn(refreshes, lo, hi) - 1) * 300_000_000_000 <= hi - lo
    {
      ghost var keys0, live0, state0 := keys, expiresAt, State();
      assert Serving(keys0, live0, calls, 0, decode, keys, expiresAt);
      replies := [];
      assert Replied(keys0, live0, state0, calls, 0, decode, replies);
      hide After, ReplyTo, AnsweredFrom, LastUsable, Serving, LatestRefresh, Indexes, Timed, Replied;
      for n := 0 to |calls|
        invariant Valid() && State() == AfterAll(state0, calls[..n])
        invariant Serving(keys0, live0, calls, n, decode, keys, expiresAt)
        invariant Replied(keys0, live0, state0, calls, n, decode, replies)
      {
        assert calls[..n + 1][..n] == calls[..n];
        ghost var was, live := keys, expiresAt;
        var r := PublicKey(calls[n].kid, calls[n].now, calls[n].fetch, calls[n].done);
        ServesOn(keys0, live0, calls, n, decode, was, live, keys, expiresAt, r);
        ReplySnoc(keys0, live0, state0, calls, n, decode, replies, r);
        replies := replies + [r];
      }
      assert calls[..|calls|] == calls;
      RepliedAll(keys0, live0, state0, calls, decode, replies);
      forall lo, hi | lo <= hi { WindowBound(refreshes, lo, hi); }
    }
  }

  /** A new cache per call, as `NewAuthenticator` makes for each request: every call fetches, so
      n calls within any window fetch n times in it, and each is answered from its own fetch. */
  method ServeEachAnew(calls: seq<KeyCall>, decode: Base64)
    returns (replies: seq<Result<RsaKey, JwksError>>, ghost fetches: seq<int>)
    requires forall i | 0 <= i < |calls| :: calls[i].now <= calls[i].done
    ensures |replies| == |calls|
    ensures forall i | 0 <= i < |calls| ::
              if calls[i].fetch.FetchFailed? then replies[i] == Err(RefreshFailed)
              else AnsweredFrom(calls[i].fetch.keys, calls[i].kid, decode, replies[i])
    ensures |fetches| == |calls| && forall i | 0 <= i < |calls| :: fetches[i] == calls[i].done
    ensures forall lo, hi | (forall i | 0 <= i < |calls| :: lo <= calls[i].done <= hi) ::
            CountIn(fetches, lo, hi) == |calls|
  {
    hide AnsweredFrom;
    replies, fetches := [], [];
    for n := 0 to |calls|
      invariant |replies| == n
      invariant forall i | 0 <= i < n ::
                  if calls[i].fetch.FetchFailed? then replies[i] == Err(RefreshFailed)
                  else AnsweredFrom(calls[i].fetch.keys, calls[i].kid, decode, replies[i])
      invariant |fetches| == n && forall i | 0 <= i < n :: fetches[i] == calls[i].done
    {
      var cache := new JwksCache(decode);
      var r := cache.PublicKey(calls[n].kid, calls[n].now, calls[n].fetch, calls[n].done);
      replies, fetches := replies + [r], fetches + cache.fetches;
    }
    forall lo, hi | forall i | 0 <= i < |calls| :: lo <= calls[i].done <= hi { CountAll(fetches, lo, hi); }
  }

  // ----- Counting in a window -----

  ghost predicate Spaced(times: seq<int>) {
    forall i | 0 < i < |times| :: times[i - 1] + JWKS_CACHE_TTL <= times[i]
  }

  /** How many of the times lie in the window. */
  function CountIn(times: seq<int>, lo: int, hi: int): nat {
    if times == [] then 0
    else
      var n := |times| - 1;
      CountIn(times[..n], lo, hi) + if lo <= times[n] <= hi then 1 else 0
  }

  lemma {:induction false} CountAll(times: seq<int>, lo: int, hi: int)
    requires forall i | 0 <= i < |times| :: lo <= times[i] <= hi
    ensures CountIn(times, lo, hi) == |times|
  {
    if times != [] { CountAll(times[..|times| - 1], lo, hi); }
  }

  lemma {:induction false} CountSpans(times: seq<int>, lo: int, hi: int)
    requires Spaced(times) && CountIn(times, lo, hi) > 0
    ensures lo + (CountIn(times, lo, hi) - 1) * JWKS_CACHE_TTL <= hi
    ensures lo + (CountIn(times, lo, hi) - 1) * JWKS_CACHE_TTL <= times[|times| - 1]
  {
    var n := |times| - 1;
    var before := CountIn(times[..n], lo, hi);
    if before > 0 {
      CountSpans(times[..n], lo, hi);
      assert times[n - 1] + JWKS_CACHE_TTL <= times[n];
      assert before * JWKS_CACHE_TTL == (before - 1) * JWKS_CACHE_TTL + JWKS_CACHE_TTL;
    }
  }

  /** k spaced refreshes in a window span at least (k - 1) times to live. */
  lemma WindowBound(times: seq<int>, lo: int, hi: int)
    requires Spaced(times) && lo <= hi
    ensures (CountIn(times, lo, hi) - 1) * JWKS_CACHE_TTL <= hi - lo
  {
    if CountIn(times, lo, hi) > 0 { CountSpans(times, lo, hi); }
  }

  /** `i` is the greatest index of a usable entry with this key id. */
  predicate LastAt(keys: seq<JwkKey>, kid: string, decode: Base64, i: nat) {
    i < |keys| && Serves(keys[i], kid, decode) && forall j | i < j < |keys| :: !Serves(keys[j], kid, decode)
  }

  /** `LastUsable` by position: nothing when no entry serves, else the entry at the last index
      that does. */
  lemma {:induction false} LastUsableIsLast(keys: seq<JwkKey>, kid: string, decode: Base64) returns (i: nat)
    ensures LastUsable(keys, kid, decode).None? ==> forall j | 0 <= j < |keys| :: !Serves(keys[j], kid, decode)
    ensures LastUsable(keys, kid, decode).Some? ==>
              LastAt(keys, kid, decode, i)
                  && LastUsable(keys, kid, decode) == RsaPublicKey(keys[i].n, keys[i].e, decode)
  {
    i := 0;
    if keys != [] {
      var n := |keys| - 1;
      if Serves(keys[n], kid, decode) {
        i := n;
      } else {
        hide Serves;
        i := LastUsableIsLast(keys[..n], kid, decode);
      }
    }
  }
}
