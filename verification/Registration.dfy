/** Registration under duplicate and concurrent deliveries: pairing of the created rows, no
    orphan after a lost race, and at most one registered event per created user. */
module Registration {
  import opened Model
  import opened World
  import opened MappingTable
  import opened Tables
  import opened MappingCache
  import opened ClerkEmail

  // ----- The invariant -----

  /** A mapping row created during the run belongs to a user created during the run. */
  ghost predicate CreatedMappingOk(w: World, i: int)
    requires i in w.db.mappings
  {
    var m := w.db.mappings[i];
    if i < w.history.firstMapping then m.internalUserId < w.history.firstUser
    else m.internalUserId in w.db.users && w.history.firstUser <= m.internalUserId
         && m.role == ROLE_USER && ValidEmail(m.email)
  }

  /** No orphan: a user created during the run has a mapping. */
  ghost predicate HasMapping(w: World, u: int) {
    exists i | i in w.db.mappings :: w.history.firstMapping <= i && w.db.mappings[i].internalUserId == u
  }

  ghost predicate OneMappingPerUser(w: World) {
    forall i, j | i in w.db.mappings && j in w.db.mappings && w.history.firstMapping <= i
                  && w.db.mappings[i].internalUserId == w.db.mappings[j].internalUserId :: i == j
  }

  /** Committed, and still to publish. */
  predicate Publishing(c: Creator) { c.CInval? || c.CPub? }

  ghost predicate CreatorOk(w: World, c: Creator) {
    && (c.CLook? || c.CEmail? || c.CUser? || c.CDelBefore? || c.CMapping? ==> ValidEmail(c.email))
    && (c.CLook? && c.known ==> MappingFor(w, c.lookup.clerk).Some?)
    && (c.Open() ==> w.history.firstUser <= c.user.id)
    && (c.Holds() ==>
          w.history.firstMapping <= c.mapping.id && c.mapping.role == ROLE_USER && ValidEmail(c.mapping.email))
    && (Publishing(c) ==> c.userId in w.db.users && w.history.firstUser <= c.userId && c.userId !in w.topics.registered)
  }

  ghost predicate PublishApart(c: Creator, d: Creator) {
    Publishing(c) && Publishing(d) ==> c.userId != d.userId
  }

  /** Publish calls: each for a committed user of this run, no user twice. */
  ghost predicate RegisteredOk(w: World) {
    && (forall k | 0 <= k < |w.topics.registered| ::
          w.topics.registered[k] in w.db.users && w.history.firstUser <= w.topics.registered[k])
    && (forall j, k | 0 <= j < k < |w.topics.registered| :: w.topics.registered[j] != w.topics.registered[k])
  }

  /** The rows of the run are paired, whatever the creators are doing. */
  ghost predicate RowsPaired(w: World) {
    && w.history.firstUser <= w.db.nextUser && w.history.firstMapping <= w.db.nextMapping
    && (forall i | i in w.db.mappings :: CreatedMappingOk(w, i))
    && (forall u | u in w.db.users && w.history.firstUser <= u :: HasMapping(w, u))
    && OneMappingPerUser(w)
  }

  ghost predicate RegistrationInv(w: World) {
    && RowsPaired(w) && RegisteredOk(w)
    && (forall t | t in w.creators.at :: CreatorOk(w, w.creators.at[t]))
    && (forall s, t | s in w.creators.at && t in w.creators.at && s != t ::
          PublishApart(w.creators.at[s], w.creators.at[t]))
  }

  // ----- Preservation -----

  /** Growth keeps what is known of one mapping, one user and one creator. */
  lemma MappingStable(w: World, w': World, i: int)
    requires Grows(w, w') && i in w.db.mappings && CreatedMappingOk(w, i)
    ensures CreatedMappingOk(w', i)
  {
    hide First, ValidEmail, MappingFor, MappingOf;
  }

  lemma HasMappingStable(w: World, w': World, u: int)
    requires Grows(w, w') && HasMapping(w, u)
    ensures HasMapping(w', u)
  {
    hide First, MappingFor, MappingOf;
    var i :| i in w.db.mappings && w.history.firstMapping <= i && w.db.mappings[i].internalUserId == u;
    assert w'.db.mappings[i] == w.db.mappings[i];
  }

  lemma CreatorStable(w: World, w': World, c: Creator)
    requires Grows(w, w') && CreatorOk(w, c)
    requires Publishing(c) ==> c.userId !in w'.topics.registered
    ensures CreatorOk(w', c)
  {
    hide First, ValidEmail, MappingFor, MappingOf;
  }

  /** Rows may gain states; mappings stay. */
  ghost predicate SameRows(w: World, w': World) {
    Grows(w, w') && w'.db.users.Keys == w.db.users.Keys && w'.db.mappings == w.db.mappings
  }

  lemma RowsStayPaired(w: World, w': World)
    requires RowsPaired(w) && SameRows(w, w')
    ensures RowsPaired(w')
  {
    hide First, ValidEmail, MappingFor, MappingOf, CreatedMappingOk, HasMapping;
    forall u | u in w'.db.users && w'.history.firstUser <= u ensures HasMapping(w', u) { HasMappingStable(w, w', u); }
    forall i | i in w'.db.mappings ensures CreatedMappingOk(w', i) { MappingStable(w, w', i); }
  }

  lemma PublishingOk(w: World, t: nat)
    requires RegistrationInv(w) && t in w.creators.at
    ensures CreatorOk(w, w.creators.at[t])
    ensures Publishing(w.creators.at[t]) ==>
              w.creators.at[t].userId !in w.topics.registered && w.creators.at[t].userId in w.db.users
  {
    hide ValidEmail, MappingFor, RowsPaired;
  }

  lemma QuietKeepsRegistration(w: World, w': World)
    requires RegistrationInv(w) && SameRows(w, w')
    requires w'.topics.registered == w.topics.registered && w'.creators.at == w.creators.at
    ensures RegistrationInv(w')
  {
    RowsStayPaired(w, w');
    hide Grows, CreatorOk, RowsPaired;
    forall t | t in w'.creators.at ensures CreatorOk(w', w'.creators.at[t]) {
      PublishingOk(w, t);
      CreatorStable(w, w', w.creators.at[t]);
    }
  }

  /** One creator moves without committing or publishing. */
  lemma MoveKeepsRegistration(w: World, w': World, t: nat)
    requires RegistrationInv(w) && SameRows(w, w') && t in w'.creators.at
    requires w'.topics.registered == w.topics.registered
    requires w'.creators.at == w.creators.at[t := w'.creators.at[t]]
    requires CreatorOk(w', w'.creators.at[t])
    requires Publishing(w'.creators.at[t]) ==>
               t in w.creators.at && Publishing(w.creators.at[t]) && w.creators.at[t].userId == w'.creators.at[t].userId
    ensures RegistrationInv(w')
  {
    RowsStayPaired(w, w');
    hide Grows, CreatorOk, RowsPaired;
    forall s | s in w'.creators.at ensures CreatorOk(w', w'.creators.at[s]) {
      if s != t {
        PublishingOk(w, s);
        CreatorStable(w, w', w.creators.at[s]);
      }
    }
    forall r, s | r in w'.creators.at && s in w'.creators.at && r != s
      ensures PublishApart(w'.creators.at[r], w'.creators.at[s])
    {
      if Publishing(w'.creators.at[r]) && Publishing(w'.creators.at[s]) {
        assert PublishApart(w.creators.at[r], w.creators.at[s]);
      }
    }
  }

  /** The committed rows are paired with each other. */
  lemma CommitKeepsRows(w: World, t: nat, name: string)
    requires TableInv(w) && RegistrationInv(w) && t in w.creators.at && w.creators.at[t].CCommit?
    requires Grows(w, NextCreator(w, t, true, name))
    ensures RowsPaired(NextCreator(w, t, true, name))
  {
    hide First, ValidEmail, Collate, HasMapping;
    var w' := NextCreator(w, t, true, name);
    var c := w.creators.at[t];
    assert TxOk(w, c) && CreatorOk(w, c);
    forall u | u in w'.db.users && w'.history.firstUser <= u ensures HasMapping(w', u) {
      if u == c.user.id { PairCommitted(w', c.mapping.id); } else { HasMappingStable(w, w', u); }
    }
    forall i | i in w'.db.mappings ensures CreatedMappingOk(w', i) {
      if i != c.mapping.id { MappingStable(w, w', i); }
    }
  }

  lemma PairCommitted(w: World, i: int)
    requires i in w.db.mappings && w.history.firstMapping <= i
    ensures HasMapping(w, w.db.mappings[i].internalUserId)
  {
  }

  lemma CommitKeepsRegistration(w: World, t: nat, name: string)
    requires TableInv(w) && RegistrationInv(w) && t in w.creators.at && w.creators.at[t].CCommit?
    requires Grows(w, NextCreator(w, t, true, name))
    ensures RegistrationInv(NextCreator(w, t, true, name))
  {
    CommitKeepsRows(w, t, name);
    CommittedIsNew(w, t, name);
    hide RowsPaired, Grows, TableInv, CreatorOk, TxOk;
    var w' := NextCreator(w, t, true, name);
    forall s | s in w'.creators.at ensures CreatorOk(w', w'.creators.at[s]) {
      if s != t {
        PublishingOk(w, s);
        CreatorStable(w, w', w.creators.at[s]);
      }
    }
    forall s | s in w.creators.at && s != t
      ensures PublishApart(w'.creators.at[s], w'.creators.at[t]) && PublishApart(w'.creators.at[t], w'.creators.at[s])
    {
      PublishingOk(w, s);
    }
  }

  /** The user now to be published was not in the table, nor published, before. */
  lemma CommittedIsNew(w: World, t: nat, name: string)
    requires TableInv(w) && RegistrationInv(w) && t in w.creators.at && w.creators.at[t].CCommit?
    ensures CreatorOk(NextCreator(w, t, true, name), NextCreator(w, t, true, name).creators.at[t])
    ensures w.creators.at[t].user.id !in w.db.users
  {
    hide RowsPaired, MappingFor, ValidEmail;
    assert TxOk(w, w.creators.at[t]) && CreatorOk(w, w.creators.at[t]);
  }

  /** A creator publishes the user it committed. */
  lemma PublishKeepsRegistration(w: World, w': World, t: nat)
    requires RegistrationInv(w) && SameRows(w, w') && t in w.creators.at && w.creators.at[t].CPub?
    requires w'.topics.registered == w.topics.registered + [w.creators.at[t].userId]
    requires t in w'.creators.at && w'.creators.at[t].CDone? && w'.creators.at == w.creators.at[t := w'.creators.at[t]]
    ensures RegistrationInv(w')
  {
    var c := w.creators.at[t];
    RowsStayPaired(w, w');
    RegisteredGrows(w, w', t);
    hide SameRows, CreatorOk, RowsPaired, RegisteredOk;
    forall s | s in w'.creators.at ensures CreatorOk(w', w'.creators.at[s]) {
      if s != t { OthersStayOk(w, w', s, t); } else { CreatorDone(w', w'.creators.at[t]); }
    }
    forall r, s | r in w'.creators.at && s in w'.creators.at && r != s
      ensures PublishApart(w'.creators.at[r], w'.creators.at[s])
    {
      if r != t && s != t { assert PublishApart(w.creators.at[r], w.creators.at[s]); }
    }
  }

  lemma OthersStayOk(w: World, w': World, s: nat, t: nat)
    requires RegistrationInv(w) && SameRows(w, w') && s in w.creators.at && t in w.creators.at && s != t
    requires w.creators.at[t].CPub? && w'.topics.registered == w.topics.registered + [w.creators.at[t].userId]
    ensures CreatorOk(w', w.creators.at[s])
  {
    PublishingOk(w, s);
    assert PublishApart(w.creators.at[s], w.creators.at[t]);
    hide Grows, CreatorOk, RegistrationInv;
    CreatorStable(w, w', w.creators.at[s]);
  }

  lemma RegisteredGrows(w: World, w': World, t: nat)
    requires RegisteredOk(w) && SameRows(w, w')
    requires t in w.creators.at && w.creators.at[t].CPub? && CreatorOk(w, w.creators.at[t])
    requires w'.topics.registered == w.topics.registered + [w.creators.at[t].userId]
    ensures RegisteredOk(w')
  {
    hide First, ValidEmail, MappingFor, MappingOf;
  }

  lemma CreatorDone(w: World, c: Creator)
    requires c.CDone?
    ensures CreatorOk(w, c)
  {
  }

  lemma LookupStageOk(w: World, t: nat, ok: bool, name: string)
    requires t in w.creators.at && w.creators.at[t].CLook? && CreatorOk(w, w.creators.at[t])
    ensures CreatorOk(w, NextCreator(w, t, ok, name).creators.at[t])
    ensures !Publishing(NextCreator(w, t, ok, name).creators.at[t])
  {
    hide First, Collate, LookupStep, ValidEmail, MappingFor, LookupCache;
    var l := w.creators.at[t].lookup;
    if l.LDone? {} else if l.LFailed? {} else { LookupStepKeepsClerk(w, l, ok); }
  }

  lemma InsertStageOk(w: World, t: nat, ok: bool, name: string)
    requires t in w.creators.at && w.creators.at[t].CMapping? && CreatorOk(w, w.creators.at[t])
    requires w.history.firstMapping <= w.db.nextMapping
    ensures CreatorOk(w, NextCreator(w, t, ok, name).creators.at[t])
    ensures !Publishing(NextCreator(w, t, ok, name).creators.at[t])
  {
    hide First, Collate, KeyLocked, ValidEmail, MappingFor;
    if !ok {} else if KeyLocked(w, t, w.creators.at[t].clerk) {} else if MappingFor(w, w.creators.at[t].clerk).Some? {}
  }

  /** What a creator may become besides by committing and publishing. */
  lemma CreatorStepOk(w: World, t: nat, ok: bool, name: string)
    requires RegistrationInv(w) && t in w.creators.at
    requires !w.creators.at[t].CPub? && !(w.creators.at[t].CCommit? && ok)
    ensures var c, c' := w.creators.at[t], NextCreator(w, t, ok, name).creators.at[t];
            && CreatorOk(w, c')
            && (Publishing(c') ==> Publishing(c) && c.userId == c'.userId && c.userId !in w.topics.registered)
  {
    assert w.history.firstUser <= w.db.nextUser && w.history.firstMapping <= w.db.nextMapping;
    assert CreatorOk(w, w.creators.at[t]);
    hide First, ValidEmail, MappingFor, RegistrationInv, DeleteProfile, DeleteMapping, Lost, LookupClerk, InsertMapping;
    match w.creators.at[t] {
      case CLook(_, _, _) => LookupStageOk(w, t, ok, name);
      case CMapping(_, _, _) => InsertStageOk(w, t, ok, name);
      case CUser(_, _) => if ok {}
      case CEmail(_, _) =>
      case CDelBefore(_, _, _) =>
      case CDelAfter(_, _) =>
      case CCommit(_, _) =>
      case CInval(_) =>
      case CDone(_) =>
    }
  }

  lemma CreatorKeepsRegistration(w: World, t: nat, ok: bool, name: string)
    requires TableInv(w) && RegistrationInv(w) && t in w.creators.at && Grows(w, NextCreator(w, t, ok, name))
    ensures RegistrationInv(NextCreator(w, t, ok, name))
  {
    hide TableInv, RegistrationInv, Grows, CreatorOk;
    CreatorFrame(w, t, ok, name);
    if w.creators.at[t].CCommit? && ok {
      CommitKeepsRegistration(w, t, name);
    } else if w.creators.at[t].CPub? {
      PublishKeepsRegistration(w, NextCreator(w, t, ok, name), t);
    } else {
      CreatorStepOk(w, t, ok, name);
      hide NextCreator;
      CreatorStable(w, NextCreator(w, t, ok, name), NextCreator(w, t, ok, name).creators.at[t]);
      MoveKeepsRegistration(w, NextCreator(w, t, ok, name), t);
    }
  }

  lemma WebhookEmailIsValid(d: Option<ClerkCallbackData>)
    ensures SelectEmail(d) != "" ==> ValidEmail(SelectEmail(d))
  {
    if d.Some? { SelectedEmailIsUsable(d.value); }
  }

  lemma SpawnKeepsRegistration(w: World, t: nat, d: Option<ClerkCallbackData>)
    requires RegistrationInv(w) && t !in w.creators.at && Grows(w, Next(w, SpawnCreator(t, d)))
    ensures RegistrationInv(Next(w, SpawnCreator(t, d)))
  {
    hide First, Collate, ValidEmail, SelectEmail, RegistrationInv;
    WebhookEmailIsValid(d);
    MoveKeepsRegistration(w, Next(w, SpawnCreator(t, d)), t);
  }

  /** Every step keeps the registration invariant. */
  lemma {:induction false} NextKeepsRegistration(w: World, a: Act)
    requires TableInv(w) && RegistrationInv(w)
    ensures RegistrationInv(Next(w, a))
  {
    hide NextReader, NextUpdater, NextCallback, NextLookup, NextCreator, SelectEmail, MappingFor, TableInv,
         RegistrationInv;
    NextGrows(w, a);
    NextFrame(w, a);
    hide Grows;
    if Idle(w, a) {
    } else {
      match a {
        case CreatorAct(t, ok, name) => CreatorKeepsRegistration(w, t, ok, name);
        case SpawnCreator(t, d) => SpawnKeepsRegistration(w, t, d);
        case _ => hide Next; QuietKeepsRegistration(w, Next(w, a));
      }
    }
  }

  // ----- Redelivery -----

  /** A delivery that began with its Clerk id mapped, and every later state it may be in. */
  predicate Redelivered(c: Creator) {
    (c.CLook? && c.known && (c.lookup.LDone? ==> c.lookup.found.Some?)) || c.CDone?
  }

  /** It never gets past the lookup, so it inserts no row and publishes nothing. */
  lemma RedeliveryStops(w: World, t: nat, ok: bool, name: string)
    requires RegistrationInv(w) && t in w.creators.at && Redelivered(w.creators.at[t])
    ensures var w' := NextCreator(w, t, ok, name);
            && Redelivered(w'.creators.at[t])
            && w'.db.users == w.db.users && w'.db.mappings == w.db.mappings
            && w'.topics.registered == w.topics.registered
  {
    hide First, Collate;
    assert CreatorOk(w, w.creators.at[t]);
    match w.creators.at[t] {
      case CLook(l, _, _) =>
        if l.LDone? {} else if l.LFailed? {} else {
          match l {
            case LGet(_) =>
            case LRead(_) =>
            case LSet(_, _) =>
          }
        }
      case CDone(_) =>
    }
  }
}
