/** Identity headers: printed by `AuthForward` (server/http/api/auth_forward.go), parsed and
    checked by the middleware (common/auth/middleware.go). */
module Headers {
  import opened Model
  import opened Text
  import opened Decimal

  datatype Identity = Identity(internalUserId: int, role: string)
  datatype Verdict = Unauthorized | Forbidden | Admitted(user: Identity)

  const HEADER_USER_ID := "X-Internal-User-Id"
  const HEADER_ROLE := "X-User-Role"
  const BEARER := "Bearer "

  /** An absent header reads as the empty string. */
  function GetHeader(headers: map<string, string>, name: string): string {
    if name in headers then headers[name] else ""
  }

  function BearerFromAuthorization(header: string): Option<string> {
    if BEARER <= header then
      var token := TrimSpace(header[|BEARER|..]);
      if token != "" then Some(token) else None
    else None
  }

  /** The identity of a token whose subject has this mapping (server/auth/authenticator.go,
      `Authenticate`). */
  function Identify(found: Option<UserAuthMapping>): Option<Identity> {
    if found.Some? then Some(Identity(found.value.internalUserId, found.value.role)) else None
  }

  /** The reply headers; `authenticate` stands for the Clerk authenticator. */
  class ForwardReply {
    var headers: map<string, string>

    constructor ()
      ensures headers == map[]
    {
      headers := map[];
    }

    method AuthForward(authorization: string, authenticate: string -> Option<Identity>)
      requires headers == map[]
      modifies this
      ensures headers == Forwarded(authorization, authenticate)
    {
      var token := BearerFromAuthorization(authorization);
      if token.None? {
        return;
      }
      var user := authenticate(token.value);
      if user.None? {
        return;
      }
      headers := headers[HEADER_USER_ID := FormatInt(user.value.internalUserId)];
      headers := headers[HEADER_ROLE := user.value.role];
    }
  }

  function Forwarded(authorization: string, authenticate: string -> Option<Identity>): map<string, string> {
    var token := BearerFromAuthorization(authorization);
    if token.Some? && authenticate(token.value).Some? then IdentityHeaders(authenticate(token.value).value)
    else map[]
  }

  function IdentityHeaders(user: Identity): map<string, string> {
    map[HEADER_USER_ID := FormatInt(user.internalUserId), HEADER_ROLE := user.role]
  }

  function UserFromHeaders(headers: map<string, string>): Option<Identity> {
    var rawId := TrimSpace(GetHeader(headers, HEADER_USER_ID));
    var role := TrimSpace(GetHeader(headers, HEADER_ROLE));
    if rawId == "" || role == "" then None
    else
      var id := ParseInt64(rawId);
      if id.None? || id.value <= 0 then None else Some(Identity(id.value, role))
  }

  /** The middleware reads back what was printed: for every identity, exactly the positive
      64-bit ids with a non-blank role survive, with the role trimmed. */
  lemma IdentityRoundTrip(user: Identity)
    ensures UserFromHeaders(IdentityHeaders(user)) ==
            if 0 < user.internalUserId <= MAX_INT64 && TrimSpace(user.role) != ""
            then Some(Identity(user.internalUserId, TrimSpace(user.role))) else None
  {
    FormatIsTrimmed(user.internalUserId);
    FormatParse(user.internalUserId);
  }

  /** The role is listed, or no non-blank role is. */
  predicate Allows(roles: seq<string>, role: string) {
    || (forall i | 0 <= i < |roles| :: TrimSpace(roles[i]) == "")
    || exists i | 0 <= i < |roles| :: TrimSpace(roles[i]) == role
  }

  function Decide(roles: seq<string>, headers: map<string, string>): Verdict {
    var user := UserFromHeaders(headers);
    if user.None? then Unauthorized
    else if Allows(roles, user.value.role) then Admitted(user.value)
    else Forbidden
  }

  /** The allowed set holds exactly the listed roles, trimmed, without blank ones. */
  ghost predicate Lists(allowed: set<string>, roles: seq<string>) {
    forall r :: r in allowed <==> r != "" && exists i | 0 <= i < |roles| :: TrimSpace(roles[i]) == r
  }

  lemma ListsMore(allowed: set<string>, roles: seq<string>, next: string)
    requires Lists(allowed, roles)
    ensures Lists(if TrimSpace(next) == "" then allowed else allowed + {TrimSpace(next)}, roles + [next])
  {
    hide TrimSpace;
    var allowed' := if TrimSpace(next) == "" then allowed else allowed + {TrimSpace(next)};
    var roles' := roles + [next];
    forall r ensures r in allowed' <==> r != "" && exists i | 0 <= i < |roles'| :: TrimSpace(roles'[i]) == r {
      if r in allowed {
        var i :| 0 <= i < |roles| && TrimSpace(roles[i]) == r;
        assert TrimSpace(roles'[i]) == r;
      } else if r in allowed' {
        assert TrimSpace(roles'[|roles|]) == r;
      } else if i :| 0 <= i < |roles'| && TrimSpace(roles'[i]) == r {
        if i < |roles| { assert TrimSpace(roles[i]) == r; }
      }
    }
  }

  /** What the set decides is what the list allows. */
  lemma ListsDecide(allowed: set<string>, roles: seq<string>, role: string)
    requires Lists(allowed, roles) && role != ""
    ensures Allows(roles, role) <==> allowed == {} || role in allowed
  {
    hide TrimSpace;
    if allowed == {} {
      forall i | 0 <= i < |roles| ensures TrimSpace(roles[i]) == "" { assert TrimSpace(roles[i]) !in allowed; }
    } else {
      var r :| r in allowed;
    }
  }

  /** Builds the allowed set, then decides. */
  method RequireRole(roles: seq<string>, headers: map<string, string>) returns (v: Verdict)
    ensures v == Decide(roles, headers)
    ensures v.Unauthorized? <==> UserFromHeaders(headers).None?
    ensures v.Admitted? ==> Some(v.user) == UserFromHeaders(headers)
    ensures UserFromHeaders(headers).Some? ==>
              (v.Forbidden? <==>
               && (exists i | 0 <= i < |roles| :: TrimSpace(roles[i]) != "")
               && forall i | 0 <= i < |roles| :: TrimSpace(roles[i]) != UserFromHeaders(headers).value.role)
  {
    hide TrimSpace, ParseInt64, Lists, Allows;
    if UserFromHeaders(headers).Some? { AllowsIff(roles, UserFromHeaders(headers).value.role); }
    var allowed: set<string> := {};
    assert Lists(allowed, roles[..0]) by { NothingListed(); }
    for i := 0 to |roles|
      invariant Lists(allowed, roles[..i])
    {
      ListsMore(allowed, roles[..i], roles[i]);
      assert roles[..i + 1] == roles[..i] + [roles[i]];
      var role := TrimSpace(roles[i]);
      if role == "" {
        continue;
      }
      allowed := allowed + {role};
    }
    assert roles[..|roles|] == roles;
    var user := UserFromHeaders(headers);
    if user.None? {
      return Unauthorized;
    }
    ListsDecide(allowed, roles, user.value.role);
    if allowed != {} && user.value.role !in allowed {
      return Forbidden;
    }
    return Admitted(user.value);
  }

  lemma AllowsIff(roles: seq<string>, role: string)
    ensures !Allows(roles, role) <==>
            && (exists i | 0 <= i < |roles| :: TrimSpace(roles[i]) != "")
            && forall i | 0 <= i < |roles| :: TrimSpace(roles[i]) != role
  {
    hide TrimSpace;
  }

  lemma NothingListed()
    ensures Lists({}, [])
  {
  }

  /** A bearer header is the word, one space and a token that is not blank, which is trimmed. */
  lemma BearerIff(header: string, token: string)
    ensures BearerFromAuthorization(header) == Some(token) <==>
            exists rest :: header == "Bearer " + rest && token == TrimSpace(rest) && token != ""
  {
    hide TrimSpace;
    if rest :| header == "Bearer " + rest && token == TrimSpace(rest) && token != "" {
      assert header[|BEARER|..] == rest;
    }
    if BearerFromAuthorization(header) == Some(token) {
      assert header == "Bearer " + header[|BEARER|..];
    }
  }

  /** End to end: a request is admitted by a handler requiring these roles iff it carries a
      bearer token the authenticator accepts, for a positive 64-bit id and an allowed role;
      without such a token and id it is unauthorized, with a role not allowed forbidden. */
  lemma ForwardedIdentityAdmitted(authorization: string, authenticate: string -> Option<Identity>, roles: seq<string>)
    ensures Decide(roles, Forwarded(authorization, authenticate)).Admitted? <==>
            var token := BearerFromAuthorization(authorization);
            token.Some? && authenticate(token.value).Some? &&
            var user := authenticate(token.value).value;
            0 < user.internalUserId <= MAX_INT64 && TrimSpace(user.role) != "" && Allows(roles, TrimSpace(user.role))
    ensures Decide(roles, Forwarded(authorization, authenticate)).Unauthorized? <==>
            var token := BearerFromAuthorization(authorization);
            token.None? || authenticate(token.value).None? ||
            var user := authenticate(token.value).value;
            !(0 < user.internalUserId <= MAX_INT64) || TrimSpace(user.role) == ""
  {
    hide TrimSpace, Allows, FormatInt, ParseInt64;
    var token := BearerFromAuthorization(authorization);
    if token.Some? && authenticate(token.value).Some? {
      IdentityRoundTrip(authenticate(token.value).value);
    } else {
      assert Forwarded(authorization, authenticate) == map[];
      NoHeadersNoUser();
    }
  }

  lemma NoHeadersNoUser()
    ensures UserFromHeaders(map[]).None?
  {
    assert TrimSpace("") == "";
  }
}
