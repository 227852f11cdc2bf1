/** Partial profile updates (server/service/user_profile_service.go, `UpdateProfile` and the
    helpers below it) and their effect on a `users` row. */
module ProfileUpdate {
  import opened Model
  import opened Text

  const MARKETS := ["GLOBAL", "SG", "HK", "US", "EEA", "UK", "UAE", "AU", "JP", "KR", "TR", "BR", "LATAM", "SEA"]
  const LANGUAGES := ["en", "zh-CN", "zh-TW", "es", "pt-BR", "ja", "ko", "ar", "tr", "fr", "de", "vi", "id", "th"]

  predicate IsOneOf(v: string, list: seq<string>)
    ensures IsOneOf(v, list) <==> v in list
  {
    list != [] && (list[0] == v || IsOneOf(v, list[1..]))
  }

  predicate IsValidMarket(v: string) { IsOneOf(v, MARKETS) }

  predicate IsValidLanguage(v: string) { IsOneOf(v, LANGUAGES) }

  datatype Request = Request(username: string, language: string, market: string)
  datatype ProfileError =
    UserNotFound | InvalidArgument | MarketAlreadySet | InvalidMarket | InvalidLanguage | DatabaseError

  /** The columns of a GORM `Updates(struct)`: an empty field is not written. */
  datatype Patch = Patch(name: string, language: string, market: string)

  function ApplyPatch(row: User, p: Patch): User {
    row.(name := if p.name != "" then p.name else row.name,
         language := if p.language != "" then p.language else row.language,
         market := if p.market != "" then p.market else row.market)
  }

  /** The record the `apply*Update` helpers fill in. */
  class UserUpdate {
    var name: string
    var language: string
    var market: string

    constructor ()
      ensures Columns() == Patch("", "", "")
    {
      name, language, market := "", "", "";
    }

    function Columns(): Patch reads this { Patch(name, language, market) }

    method ApplyUsername(username: string) returns (applied: bool)
      modifies this
      ensures applied == (TrimSpace(username) != "")
      ensures Columns() == if applied then old(Columns()).(name := TrimSpace(username)) else old(Columns())
    {
      var trimmed := TrimSpace(username);
      if trimmed == "" {
        return false;
      }
      name := trimmed;
      return true;
    }

    method ApplyLanguage(requested: string) returns (r: Result<bool, ProfileError>)
      modifies this
      ensures var l := TrimSpace(requested);
              r == if l == "" then Ok(false) else if !IsValidLanguage(l) then Err(InvalidLanguage) else Ok(true)
      ensures Columns() == if r == Ok(true) then old(Columns()).(language := TrimSpace(requested)) else old(Columns())
    {
      var trimmed := TrimSpace(requested);
      if trimmed == "" {
        return Ok(false);
      }
      if !IsValidLanguage(trimmed) {
        return Err(InvalidLanguage);
      }
      language := trimmed;
      return Ok(true);
    }

    method ApplyMarket(existingMarket: string, requested: string) returns (r: Result<bool, ProfileError>)
      modifies this
      ensures var m, existing := TrimSpace(requested), TrimSpace(existingMarket);
              r == if m == "" then Ok(false) else if !IsValidMarket(m) then Err(InvalidMarket)
                   else if existing != "" && existing != m then Err(MarketAlreadySet)
                   else Ok(existing == "")
      ensures Columns() == if r == Ok(true) then old(Columns()).(market := TrimSpace(requested)) else old(Columns())
    {
      var trimmed := TrimSpace(requested);
      if trimmed == "" {
        return Ok(false);
      }
      if !IsValidMarket(trimmed) {
        return Err(InvalidMarket);
      }
      var existing := TrimSpace(existingMarket);
      if existing != "" && existing != trimmed {
        return Err(MarketAlreadySet);
      }
      if existing != "" {
        return Ok(false);
      }
      market := trimmed;
      return Ok(true);
    }
  }

  /** What a request does to a row with this market: an error, nothing, or columns to write. */
  function BuildPatch(existingMarket: string, req: Request): Result<Option<Patch>, ProfileError> {
    var name, language, market := TrimSpace(req.username), TrimSpace(req.language), TrimSpace(req.market);
    var existing := TrimSpace(existingMarket);
    if language != "" && !IsValidLanguage(language) then Err(InvalidLanguage)
    else if market != "" && !IsValidMarket(market) then Err(InvalidMarket)
    else if market != "" && existing != "" && existing != market then Err(MarketAlreadySet)
    else
      var p := Patch(name, language, if existing == "" then market else "");
      Ok(if p == Patch("", "", "") then None else Some(p))
  }

  method BuildProfileUpdate(user: User, req: Request) returns (update: UserUpdate?, err: Option<ProfileError>)
    ensures match BuildPatch(user.market, req)
            case Err(e) => update == null && err == Some(e)
            case Ok(None) => update == null && err == None
            case Ok(Some(p)) => update != null && fresh(update) && update.Columns() == p && err == None
  {
    var draft := new UserUpdate();
    var hasUpdate := draft.ApplyUsername(req.username);
    var applied := draft.ApplyLanguage(req.language);
    if applied.Err? {
      return null, Some(applied.error);
    }
    hasUpdate := hasUpdate || applied.value;
    applied := draft.ApplyMarket(user.market, req.market);
    if applied.Err? {
      return null, Some(applied.error);
    }
    hasUpdate := hasUpdate || applied.value;
    if !hasUpdate {
      return null, None;
    }
    return draft, None;
  }

  // ----- Serial requests on one row -----

  function Serve(row: User, req: Request): (User, Option<ProfileError>) {
    match BuildPatch(row.market, req)
    case Err(e) => (row, Some(e))
    case Ok(None) => (row, None)
    case Ok(Some(p)) => (ApplyPatch(row, p), None)
  }

  function ServeAll(row: User, reqs: seq<Request>): User {
    if reqs == [] then row else Serve(ServeAll(row, reqs[..|reqs| - 1]), reqs[|reqs| - 1]).0
  }

  predicate Accepted(row: User, reqs: seq<Request>, i: nat)
    requires i < |reqs|
  {
    Serve(ServeAll(row, reqs[..i]), reqs[i]).1 == None
  }

  /** Among the first `n` requests, `i` is accepted with a non-blank `field`. */
  predicate Sets(row: User, reqs: seq<Request>, field: Request -> string, i: nat)
    requires i < |reqs|
  {
    Accepted(row, reqs, i) && TrimSpace(field(reqs[i])) != ""
  }

  /** `value` is the last non-blank `field` among the accepted of the first `n` requests, or
      else the initial one. */
  ghost predicate LastAccepted(row: User, reqs: seq<Request>, n: nat, field: Request -> string, value: string,
                               initial: string)
    requires n <= |reqs|
  {
    || (exists i: nat | i < n :: Sets(row, reqs, field, i) && value == TrimSpace(field(reqs[i])) &&
                                 forall j | i < j < n :: !Sets(row, reqs, field, j))
    || (value == initial && forall i | 0 <= i < n :: !Sets(row, reqs, field, i))
  }

  /** A rejected request changes nothing even if some of its fields were valid, and its error
      names the first field at fault; an accepted one, repeated, is accepted again and changes
      nothing more. Valid are exactly the listed languages and markets. */
  lemma {:induction false} ServeIsAtomicAndIdempotent(row: User, req: Request)
    ensures Serve(row, req).1.Some? ==> Serve(row, req).0 == row
    ensures Serve(Serve(row, req).0, req) == Serve(row, req)
    ensures var l, m, existing := TrimSpace(req.language), TrimSpace(req.market), TrimSpace(row.market);
            var languageOk, marketOk := l == "" || l in LANGUAGES, m == "" || m in MARKETS;
            var free := m == "" || existing == "" || existing == m;
            var error := Serve(row, req).1;
            && (error == Some(InvalidLanguage) <==> !languageOk)
            && (error == Some(InvalidMarket) <==> languageOk && !marketOk)
            && (error == Some(MarketAlreadySet) <==> languageOk && marketOk && !free)
            && (error == None <==> languageOk && marketOk && free)
  {
    hide TrimSpace, IsOneOf;
    assert TrimSpace(TrimSpace(req.market)) == TrimSpace(req.market);
  }

  lemma LastAcceptedStep(row: User, reqs: seq<Request>, n: nat, field: Request -> string, value: string,
                         initial: string)
    requires n < |reqs| && LastAccepted(row, reqs, n, field, value, initial)
    ensures LastAccepted(row, reqs, n + 1, field,
                         if Sets(row, reqs, field, n) then TrimSpace(field(reqs[n])) else value, initial)
  {
    hide TrimSpace, Accepted;
  }

  const USERNAME: Request -> string := (r: Request) => r.username
  const LANGUAGE: Request -> string := (r: Request) => r.language
  const MARKET: Request -> string := (r: Request) => r.market

  /** Every accepted market among the first `n` requests is the market now; a market that was
      set, or that no accepted request names, is the initial one. */
  ghost predicate MarketSettled(row: User, reqs: seq<Request>, n: nat, market: string)
    requires n <= |reqs|
  {
    && (TrimSpace(row.market) != "" || (forall i: nat | i < n :: !Sets(row, reqs, MARKET, i)) ==> market == row.market)
    && (forall i: nat | i < n && Sets(row, reqs, MARKET, i) ::
          && TrimSpace(market) == TrimSpace(reqs[i].market)
          && (TrimSpace(row.market) == "" ==> market == TrimSpace(reqs[i].market)))
  }

  lemma ServeFields(row: User, req: Request)
    ensures var (row', error) := Serve(row, req);
            && row' == row.(name := row'.name, language := row'.language, market := row'.market)
            && row'.name ==
               (if error == None && TrimSpace(req.username) != "" then TrimSpace(req.username) else row.name)
            && row'.language == if error == None && TrimSpace(req.language) != "" then TrimSpace(req.language)
               else row.language
  {
    hide TrimSpace, IsOneOf;
  }

  /** What one request does to the market. */
  lemma ServeMarket(row: User, req: Request)
    ensures var (row', error) := Serve(row, req);
            var m := TrimSpace(req.market);
            && row'.market == (if error == None && m != "" && TrimSpace(row.market) == "" then m else row.market)
            && (error == None && m != "" ==> TrimSpace(row'.market) == m)
  {
    hide TrimSpace, IsOneOf;
    assert TrimSpace(TrimSpace(req.market)) == TrimSpace(req.market);
  }

  lemma MarketStep(row: User, reqs: seq<Request>, n: nat)
    requires n < |reqs| && MarketSettled(row, reqs, n, ServeAll(row, reqs[..n]).market)
    ensures MarketSettled(row, reqs, n + 1, Serve(ServeAll(row, reqs[..n]), reqs[n]).0.market)
  {
    hide TrimSpace, IsOneOf, BuildPatch;
    var was := ServeAll(row, reqs[..n]);
    ServeMarket(was, reqs[n]);
    assert Sets(row, reqs, MARKET, n) <==> Serve(was, reqs[n]).1 == None && TrimSpace(reqs[n].market) != "";
    hide Serve, ServeAll, Sets;
    if Sets(row, reqs, MARKET, n) && TrimSpace(was.market) == "" {
      forall i: nat | i < n ensures !Sets(row, reqs, MARKET, i) {
        if Sets(row, reqs, MARKET, i) { SetsSomething(row, reqs, MARKET, i); }
      }
    }
  }

  lemma SetsSomething(row: User, reqs: seq<Request>, field: Request -> string, i: nat)
    requires i < |reqs| && Sets(row, reqs, field, i)
    ensures TrimSpace(field(reqs[i])) != ""
  {
  }

  lemma {:induction false} SerialPrefix(row: User, reqs: seq<Request>, n: nat)
    requires n <= |reqs|
    ensures var now := ServeAll(row, reqs[..n]);
            && LastAccepted(row, reqs, n, USERNAME, now.name, row.name)
            && LastAccepted(row, reqs, n, LANGUAGE, now.language, row.language)
            && MarketSettled(row, reqs, n, now.market)
            && now == row.(name := now.name, language := now.language, market := now.market)
  {
    hide TrimSpace, IsOneOf;
    if n > 0 {
      hide MarketSettled, LastAccepted, BuildPatch;
      SerialPrefix(row, reqs, n - 1);
      assert reqs[..n][..n - 1] == reqs[..n - 1];
      MarketStep(row, reqs, n - 1);
      ServeFields(ServeAll(row, reqs[..n - 1]), reqs[n - 1]);
      LastAcceptedStep(row, reqs, n - 1, USERNAME, ServeAll(row, reqs[..n - 1]).name, row.name);
      LastAcceptedStep(row, reqs, n - 1, LANGUAGE, ServeAll(row, reqs[..n - 1]).language, row.language);
    }
  }

  /** After any serial list of requests: name and language are the last non-blank accepted
      values; the market is the accepted one, and once set never changes; the other columns
      never change. */
  lemma {:induction false} SerialRequests(row: User, reqs: seq<Request>)
    ensures var final := ServeAll(row, reqs);
            && LastAccepted(row, reqs, |reqs|, USERNAME, final.name, row.name)
            && LastAccepted(row, reqs, |reqs|, LANGUAGE, final.language, row.language)
            && MarketSettled(row, reqs, |reqs|, final.market)
            && final == row.(name := final.name, language := final.language, market := final.market)
  {
    SerialPrefix(row, reqs, |reqs|);
    assert reqs[..|reqs|] == reqs;
  }
}
