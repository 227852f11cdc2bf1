/** From a bearer token to an admitted request, over every run: whose identity it is. */
module Authentication {
  import opened Model
  import opened Text
  import opened Decimal
  import opened Headers
  import opened World
  import opened MappingTable
  import opened Tables
  import opened MappingCache
  import opened Registration
  import opened Runs
  import opened MappingRuns

  /** `Authenticate`, where `verify` gives the subject of a valid token and `l` is the lookup the
      call made. */
  function Authenticates(verify: string -> Option<string>, l: Lookup): string -> Option<Identity> {
    (token: string) => if verify(token) == Some(l.clerk) && l.LDone? then Identify(l.found) else None
  }

  /** The identity headers admit exactly the mapping found, if its id and role can be. */
  lemma FoundIsAdmitted(authorization: string, verify: string -> Option<string>, l: Lookup, roles: seq<string>)
    requires l.LDone? && BearerFromAuthorization(authorization).Some?
    requires verify(BearerFromAuthorization(authorization).value) == Some(l.clerk)
    ensures var v := Decide(roles, Forwarded(authorization, Authenticates(verify, l)));
            && (v.Admitted? <==> l.found.Some? && CanEnter(l.found.value, roles))
            && (v.Admitted? ==> v.user == Identity(l.found.value.internalUserId, TrimSpace(l.found.value.role)))
  {
    hide TrimSpace, Allows, FormatInt, ParseInt64, BearerFromAuthorization;
    if l.found.Some? { IdentityRoundTrip(Identify(l.found).value); } else { NoHeadersNoUser(); }
  }

  /** A positive 64-bit id and an allowed, non-blank role. */
  predicate CanEnter(m: UserAuthMapping, roles: seq<string>) {
    0 < m.internalUserId <= MAX_INT64 && TrimSpace(m.role) != "" && Allows(roles, TrimSpace(m.role))
  }

  /** From any state that satisfies the invariants, under every interleaving: a request with a
      valid token is admitted exactly when the lookup of its subject found a mapping that can
      enter; the identity is that of a committed mapping of the subject, which the table held
      at an instant of the lookup; and for a user created by registration it is the user's id
      with role user. */
  lemma {:induction false} AdmittedIdentityIsCommitted(w0: World, acts: seq<Act>, t: nat, authorization: string,
                                                       verify: string -> Option<string>, roles: seq<string>)
    requires Inv(w0) && !Settled(w0, Direct(t)) && Settled(Run(w0, acts), Direct(t))
    requires BearerFromAuthorization(authorization).Some?
    requires verify(BearerFromAuthorization(authorization).value) == Some(Run(w0, acts).lookups.at[t].clerk)
    ensures var w := Run(w0, acts);
            var l := w.lookups.at[t];
            var v := Decide(roles, Forwarded(authorization, Authenticates(verify, l)));
            && (v.Admitted? <==> l.found.Some? && CanEnter(l.found.value, roles))
            && (v.Admitted? ==> v.user == Identity(l.found.value.internalUserId, TrimSpace(l.found.value.role)))
            && (exists k: nat | k < |acts| :: WouldRead(At(w0, acts, k), Direct(t), l.clerk, l.found))
            && (l.found.Some? ==>
                  && Committed(w, l.found.value) && Collate(l.found.value.clerkUserId) == Collate(l.clerk)
                  && (w.history.firstMapping <= l.found.value.id ==>
                        && l.found.value.internalUserId in w.db.users && l.found.value.role == ROLE_USER
                        && (v.Admitted? <==> l.found.value.internalUserId <= MAX_INT64 && Allows(roles, ROLE_USER))))
  {
    RunInv(w0, acts);
    hide Run, At, Grows, TableInv, MappingCacheInv, RegistrationInv, Decide, Forwarded, CanEnter, Authenticates,
         BearerFromAuthorization, WouldRead, TrimSpace, Allows, Collate, Inv;
    var w := Run(w0, acts);
    var l := w.lookups.at[t];
    LookupIsLinearizable(w0, acts, Direct(t));
    FoundIsAdmitted(authorization, verify, l, roles);
    if l.found.Some? { FoundIsCommitted(w, t); }
    if l.found.Some? && w.history.firstMapping <= l.found.value.id { CreatedCanEnter(w, l.found.value, roles); }
  }

  lemma FoundIsCommitted(w: World, t: nat)
    requires Inv(w) && Settled(w, Direct(t)) && w.lookups.at[t].found.Some?
    ensures Committed(w, w.lookups.at[t].found.value)
    ensures Collate(w.lookups.at[t].found.value.clerkUserId) == Collate(w.lookups.at[t].clerk)
  {
    hide TableInv, RegistrationInv, Collate;
    assert LookupOk(w, w.lookups.at[t]);
  }

  lemma CreatedCanEnter(w: World, m: UserAuthMapping, roles: seq<string>)
    requires Inv(w) && Committed(w, m) && w.history.firstMapping <= m.id
    ensures m.internalUserId in w.db.users && m.role == ROLE_USER
    ensures CanEnter(m, roles) <==> m.internalUserId <= MAX_INT64 && Allows(roles, ROLE_USER)
  {
    hide MappingCacheInv, Allows, MappingFor;
    assert CreatedMappingOk(w, m.id) && RowOk(w, m.internalUserId);
    assert Trimmed(ROLE_USER);
    hide TrimSpace;
  }
}
