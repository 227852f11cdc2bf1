/** How calls end, over every run: each answer has exactly its own cause, a failed statement
    changes nothing, and a failed Redis operation never decides an answer. */
module Outcomes {
  import opened Model
  import opened Text
  import opened World
  import opened MappingTable
  import opened ProfileUpdate
  import opened ClerkEmail
  import opened KycEmail
  import opened StateStore
  import opened Runs

  // ----- From steps to runs -----

  ghost predicate CausedBy(w0: World, acts: seq<Act>, cause: (World, Act) -> bool, k: nat)
    requires k <= |acts|
  {
    exists j: nat | j < k :: cause(At(w0, acts, j), acts[j])
  }

  lemma CausedByStep(w0: World, acts: seq<Act>, cause: (World, Act) -> bool, k: nat)
    requires 0 < k <= |acts|
    ensures CausedBy(w0, acts, cause, k) <==>
            CausedBy(w0, acts, cause, k - 1) || cause(At(w0, acts, k - 1), acts[k - 1])
  {
    hide At;
  }

  lemma {:induction false} OutcomeAt(w0: World, acts: seq<Act>, fact: World -> bool, cause: (World, Act) -> bool,
                                     k: nat)
    requires k <= |acts| && forall w, a :: fact(Next(w, a)) <==> fact(w) || cause(w, a)
    ensures fact(At(w0, acts, k)) <==> fact(w0) || CausedBy(w0, acts, cause, k)
  {
    hide At, Next, Run;
    if k > 0 {
      OutcomeAt(w0, acts, fact, cause, k - 1);
      CausedByStep(w0, acts, cause, k);
      AtStep(w0, acts, k - 1);
    } else {
      AtStart(w0, acts);
    }
  }

  /** A fact that every step keeps, and that a step brings about exactly by this cause, holds
      after a run iff it held before or some action of the run was such a cause. */
  lemma OutcomeIff(w0: World, acts: seq<Act>, fact: World -> bool, cause: (World, Act) -> bool)
    requires forall w, a :: fact(Next(w, a)) <==> fact(w) || cause(w, a)
    ensures fact(Run(w0, acts)) <==> fact(w0) || exists j: nat | j < |acts| :: cause(At(w0, acts, j), acts[j])
  {
    hide At, Next, Run;
    OutcomeAt(w0, acts, fact, cause, |acts|);
    AtEnd(w0, acts);
  }

  // ----- `GetUserProfile` -----

  predicate ReaderEnds(w: World, t: nat, r: Reply) {
    t in w.readers.at && w.readers.at[t].RDone? && w.readers.at[t].reply == r
  }

  /** What makes a reader answer with this error: its own SELECT fails; its own SELECT finds no
      row; or it was asked for no user. */
  predicate ReaderCause(w: World, a: Act, t: nat, r: Reply) {
    match r
    case Failed => a == ReaderAct(t, false) && t in w.readers.at
        && (w.readers.at[t].RUser? || w.readers.at[t].RMapping?)
    case NotFound =>
      && a == ReaderAct(t, true) && t in w.readers.at
      && (|| (w.readers.at[t].RUser? && w.readers.at[t].userId !in w.db.users)
          || (w.readers.at[t].RMapping? && NoMappingOf(w, w.readers.at[t].userId)))
    case BadArgument => a.SpawnReader? && a.t == t && t !in w.readers.at && a.userId <= 0
    case Found(_, _, _, _) => false
  }

  predicate NoMappingOf(w: World, u: int) {
    forall i | i in w.db.mappings && 0 <= i < w.db.nextMapping :: w.db.mappings[i].internalUserId != u
  }

  lemma NoMappingIff(w: World, u: int)
    ensures MappingOf(w, u).None? <==> NoMappingOf(w, u)
  {
    assert forall i | i in w.db.mappings :: ByUser(u)(w.db.mappings[i]) <==> w.db.mappings[i].internalUserId == u;
  }

  lemma ReaderStep(w: World, a: Act, t: nat, r: Reply)
    requires !r.Found?
    ensures ReaderEnds(Next(w, a), t, r) <==> ReaderEnds(w, t, r) || ReaderCause(w, a, t, r)
  {
    NextFrame(w, a);
    hide RowsGrow, MappingOf, NextReader, NoMappingOf;
    if a.ReaderAct? && !Idle(w, a) {
      ReaderFrame(w, a.t, a.ok);
      if a.t == t { ReaderTurn(w, t, a.ok, r); }
    } else if !a.SpawnReader? {
      hide Next;
    }
  }

  lemma ReaderTurn(w: World, t: nat, ok: bool, r: Reply)
    requires t in w.readers.at && !r.Found?
    ensures ReaderEnds(NextReader(w, t, ok), t, r) <==> ReaderEnds(w, t, r) || ReaderCause(w, ReaderAct(t, ok), t, r)
  {
    hide MappingOf, NoMappingOf;
    match w.readers.at[t] {
      case RMapping(u, _, _, _) => NoMappingIff(w, u);
      case _ =>
    }
  }

  /** Over every run a reader that had not ended ends with an error iff one of its actions was
      the cause; so a failed Redis get or set never makes it fail. */
  lemma {:induction false} ReaderEndsIff(w0: World, acts: seq<Act>, t: nat, r: Reply)
    requires !r.Found? && !ReaderEnds(w0, t, r)
    ensures ReaderEnds(Run(w0, acts), t, r) <==>
            exists j: nat | j < |acts| :: ReaderCause(At(w0, acts, j), acts[j], t, r)
  {
    hide Next, Run, At, ReaderEnds, ReaderCause;
    var fact, cause := (w: World) => ReaderEnds(w, t, r), (w: World, a: Act) => ReaderCause(w, a, t, r);
    forall w, a ensures fact(Next(w, a)) <==> fact(w) || cause(w, a) { ReaderStep(w, a, t, r); }
    OutcomeIff(w0, acts, fact, cause);
    assert forall j: nat | j < |acts| :: cause(At(w0, acts, j), acts[j]) == ReaderCause(At(w0, acts, j), acts[j], t, r);
  }

  // ----- `UpdateProfile` -----

  predicate UpdaterEnds(w: World, t: nat, e: Option<ProfileError>) {
    t in w.updaters.at && w.updaters.at[t] == UDone(e)
  }

  /** How a request fares against a market, by the listed languages and markets. */
  predicate Judged(market: string, req: Request, e: Option<ProfileError>) {
    var l, m, existing := TrimSpace(req.language), TrimSpace(req.market), TrimSpace(market);
    var languageOk, marketOk := l == "" || l in LANGUAGES, m == "" || m in MARKETS;
    var free := m == "" || existing == "" || existing == m;
    match e
    case Some(InvalidLanguage) => !languageOk
    case Some(InvalidMarket) => languageOk && !marketOk
    case Some(MarketAlreadySet) => languageOk && marketOk && !free
    case None =>
      languageOk && marketOk && free && TrimSpace(req.username) == "" && l == "" && (m == "" || existing != "")
    case _ => false
  }

  /** What ends an update this way: its own statement fails, there is no row, no request, the
      request is rejected or asks for nothing, or it was written and its cache delete tried. */
  predicate UpdaterCause(w: World, a: Act, t: nat, e: Option<ProfileError>) {
    || (e == Some(InvalidArgument) && a.SpawnUpdater? && a.t == t && t !in w.updaters.at && a.req.None?)
    || (a.UpdaterAct? && a.t == t && t in w.updaters.at
        && match w.updaters.at[t]
           case UGet(u, req) =>
             if !a.ok then e == Some(DatabaseError)
             else if u !in w.db.users then e == Some(UserNotFound)
             else Judged(Row(w.db.users[u]).market, req, e)
           case UWrite(_, _, _) => !a.ok && e == Some(DatabaseError)
           case UDel(_, _) => e == None
           case UDone(_) => false)
  }

  lemma JudgedIff(market: string, req: Request, u: int, seen: nat, e: Option<ProfileError>)
    ensures Judged(market, req, e) <==> AfterBuild(u, BuildPatch(market, req), seen) == UDone(e)
  {
    hide TrimSpace, IsOneOf;
  }

  lemma UpdaterTurn(w: World, t: nat, ok: bool, e: Option<ProfileError>)
    requires t in w.updaters.at
    ensures UpdaterEnds(NextUpdater(w, t, ok), t, e) <==>
            UpdaterEnds(w, t, e) || UpdaterCause(w, UpdaterAct(t, ok), t, e)
  {
    hide Judged, BuildPatch, AfterBuild, Row, Update;
    match w.updaters.at[t] {
      case UGet(u, req) =>
        if u in w.db.users { JudgedIff(Row(w.db.users[u]).market, req, u, Top(w.db.users[u]), e); }
      case _ =>
    }
  }

  lemma UpdaterStep(w: World, a: Act, t: nat, e: Option<ProfileError>)
    ensures UpdaterEnds(Next(w, a), t, e) <==> UpdaterEnds(w, t, e) || UpdaterCause(w, a, t, e)
  {
    NextFrame(w, a);
    hide RowsGrow, NextUpdater, Judged, Row;
    if a.UpdaterAct? && !Idle(w, a) {
      UpdaterFrame(w, a.t, a.ok);
      if a.t == t { UpdaterTurn(w, t, a.ok, e); }
    } else if !a.SpawnUpdater? {
      hide Next;
    }
  }

  lemma {:induction false} UpdaterEndsIff(w0: World, acts: seq<Act>, t: nat, e: Option<ProfileError>)
    requires !UpdaterEnds(w0, t, e)
    ensures UpdaterEnds(Run(w0, acts), t, e) <==>
            exists j: nat | j < |acts| :: UpdaterCause(At(w0, acts, j), acts[j], t, e)
  {
    hide Next, Run, At, UpdaterEnds, UpdaterCause;
    var fact, cause := (w: World) => UpdaterEnds(w, t, e), (w: World, a: Act) => UpdaterCause(w, a, t, e);
    forall w, a ensures fact(Next(w, a)) <==> fact(w) || cause(w, a) { UpdaterStep(w, a, t, e); }
    OutcomeIff(w0, acts, fact, cause);
    assert forall j: nat | j < |acts| ::
        cause(At(w0, acts, j), acts[j]) == UpdaterCause(At(w0, acts, j), acts[j], t, e);
  }

  // ----- `SingpassCallback` -----

  predicate CallbackEnds(w: World, t: nat, e: Option<KycError>) {
    t in w.callbacks.at && w.callbacks.at[t] == KDone(e)
  }

  /** What ends a callback this way: nil only by a publish that succeeds, each error by its own
      step. */
  predicate CallbackCause(w: World, a: Act, t: nat, e: Option<KycError>) {
    && a.CallbackAct? && a.t == t && t in w.callbacks.at
    && match w.callbacks.at[t]
       case KConsume(state) => e == Some(InvalidOAuthState) && Consumable(w.store.log, state, w.now).None?
       case KToken(_) => e == Some(TokenFailed) && !a.ok
       case KInfo(c) =>
         var email := if a.info.Some? then a.info.value.email else "";
         var pending := PendingOf(w, c);
         if !a.ok then e == Some(InfoFailed)
         else e == Some(EmailMismatch) && pending.email != "" && !EmailsMatchForKyc(pending.email, email)
       case KWrite(_, _) => e == Some(WriteFailed) && !a.ok
       case KDel(_, _, _) => false
       case KPub(_) => e == if a.ok then None else Some(PublishFailed)
       case KDone(_) => false
  }

  lemma CallbackTurn(w: World, t: nat, ok: bool, info: Option<UserInfo>, e: Option<KycError>)
    requires t in w.callbacks.at
    ensures CallbackEnds(NextCallback(w, t, ok, info), t, e) <==>
            CallbackEnds(w, t, e) || CallbackCause(w, CallbackAct(t, ok, info), t, e)
  {
    hide EmailsMatchForKyc, Consumable, Update, KycStatusOf, PendingOf, DeleteProfile, Mark;
    match w.callbacks.at[t] {
      case KConsume(state) => if Consumable(w.store.log, state, w.now).Some? {}
      case _ =>
    }
  }

  lemma CallbackStep(w: World, a: Act, t: nat, e: Option<KycError>)
    ensures CallbackEnds(Next(w, a), t, e) <==> CallbackEnds(w, t, e) || CallbackCause(w, a, t, e)
  {
    NextFrame(w, a);
    hide RowsGrow, NextCallback, EmailsMatchForKyc, Consumable, PendingOf;
    if a.CallbackAct? && !Idle(w, a) {
      CallbackFrame(w, a.t, a.ok, a.info);
      if a.t == t { CallbackTurn(w, t, a.ok, a.info, e); }
    } else if !a.SpawnCallback? {
      hide Next;
    }
  }

  lemma {:induction false} CallbackEndsIff(w0: World, acts: seq<Act>, t: nat, e: Option<KycError>)
    requires !CallbackEnds(w0, t, e)
    ensures CallbackEnds(Run(w0, acts), t, e) <==>
            exists j: nat | j < |acts| :: CallbackCause(At(w0, acts, j), acts[j], t, e)
  {
    hide Next, Run, At, CallbackEnds, CallbackCause;
    var fact, cause := (w: World) => CallbackEnds(w, t, e), (w: World, a: Act) => CallbackCause(w, a, t, e);
    forall w, a ensures fact(Next(w, a)) <==> fact(w) || cause(w, a) { CallbackStep(w, a, t, e); }
    OutcomeIff(w0, acts, fact, cause);
    assert forall j: nat | j < |acts| ::
        cause(At(w0, acts, j), acts[j]) == CallbackCause(At(w0, acts, j), acts[j], t, e);
  }

  // ----- `GetByClerkUserID` -----

  /** The call has failed. */
  predicate LookupFails(w: World, t: nat) { t in w.lookups.at && w.lookups.at[t].LFailed? }

  /** Its own SELECT failed. */
  predicate LookupCause(w: World, a: Act, t: nat) {
    a == LookupAct(t, false) && t in w.lookups.at && w.lookups.at[t].LRead?
  }

  lemma LookupTurn(w: World, l: Lookup, ok: bool)
    ensures LookupStep(w, l, ok).LFailed? <==> l.LFailed? || (l.LRead? && !ok)
  {
    hide MappingFor;
    match l {
      case LGet(_) =>
      case _ =>
    }
  }

  lemma LookupStepIff(w: World, a: Act, t: nat)
    ensures LookupFails(Next(w, a), t) <==> LookupFails(w, t) || LookupCause(w, a, t)
  {
    NextFrame(w, a);
    hide RowsGrow, LookupStep, LookupCache, MappingFor;
    if a.LookupAct? && !Idle(w, a) {
      LookupTurn(w, w.lookups.at[a.t], a.ok);
    } else if !a.SpawnLookup? {
      hide Next;
    }
  }

  lemma {:induction false} LookupFailsIff(w0: World, acts: seq<Act>, t: nat)
    requires !LookupFails(w0, t)
    ensures LookupFails(Run(w0, acts), t) <==> exists j: nat | j < |acts| :: LookupCause(At(w0, acts, j), acts[j], t)
  {
    hide Next, Run, At, LookupFails, LookupCause;
    var fact, cause := (w: World) => LookupFails(w, t), (w: World, a: Act) => LookupCause(w, a, t);
    forall w, a ensures fact(Next(w, a)) <==> fact(w) || cause(w, a) { LookupStepIff(w, a, t); }
    OutcomeIff(w0, acts, fact, cause);
    assert forall j: nat | j < |acts| :: cause(At(w0, acts, j), acts[j]) == LookupCause(At(w0, acts, j), acts[j], t);
  }

  // ----- `CreateUser` -----

  predicate CreatorEnds(w: World, t: nat, o: Outcome) {
    t in w.creators.at && w.creators.at[t] == CDone(o)
  }

  predicate NoMappingWith(w: World, email: string) {
    forall i | i in w.db.mappings && 0 <= i < w.db.nextMapping :: !EqualFold(w.db.mappings[i].email, email)
  }

  predicate NoMappingFor(w: World, clerk: string) {
    forall i | i in w.db.mappings && 0 <= i < w.db.nextMapping :: !EqualFold(w.db.mappings[i].clerkUserId, clerk)
  }

  /** What ends a delivery this way: there is no email; its lookup or its email check finds a
      mapping; its lookup or a statement of its own fails, or it finds its Clerk id taken; or it
      has called publish. */
  ghost predicate CreatorCause(w: World, a: Act, t: nat, o: Outcome) {
    || (o == Skipped && a.SpawnCreator? && a.t == t && t !in w.creators.at && SelectEmail(a.data) == "")
    || (a.CreatorAct? && a.t == t && t in w.creators.at
        && match w.creators.at[t]
           case CLook(LDone(_, found), _, _) => o == Exists && found.Some?
           case CLook(LFailed(_), _, _) => o == Aborted
           case CLook(_, _, _) => false
           case CEmail(_, email) => if !a.ok then o == Aborted else o == Exists && !NoMappingWith(w, email)
           case CUser(_, _) => o == Aborted && !a.ok
           case CDelBefore(_, _, _) => false
           case CMapping(clerk, _, _) => o == Aborted && (!a.ok || (!KeyLocked(w, t, clerk) && !NoMappingFor(w, clerk)))
           case CDelAfter(_, _) => false
           case CCommit(_, _) => o == Aborted && !a.ok
           case CInval(_) => false
           case CPub(u) => o == if a.ok then Created(u) else Aborted
           case CDone(_) => false)
  }

  lemma LookFails(w: World, a: Act, t: nat)
    requires t in Next(w, a).creators.at && Next(w, a).creators.at[t].CLook?
             && Next(w, a).creators.at[t].lookup.LFailed?
    ensures t in w.creators.at && w.creators.at[t].CLook?
    ensures w.creators.at[t].lookup.LFailed? || (w.creators.at[t].lookup.LRead? && a.CreatorAct? && a.t == t && !a.ok)
  {
    NextFrame(w, a);
    hide RowsGrow, NextCreator, MappingFor, SelectEmail;
    if a.CreatorAct? && !Idle(w, a) {
      CreatorFrame(w, a.t, a.ok, a.name);
      if a.t == t { LookTurn(w, t, a.ok, a.name); }
    } else if !a.SpawnCreator? {
      hide Next;
    }
  }

  lemma LookTurn(w: World, t: nat, ok: bool, name: string)
    requires t in w.creators.at
    requires var c' := NextCreator(w, t, ok, name).creators.at[t]; c'.CLook? && c'.lookup.LFailed?
    ensures w.creators.at[t].CLook? && (w.creators.at[t].lookup.LFailed? || (w.creators.at[t].lookup.LRead? && !ok))
  {
    hide MappingFor, KeyLocked, First, LookupStep, LookupCache;
    match w.creators.at[t] {
      case CLook(l, _, _) => if l.LDone? {} else if l.LFailed? {} else { LookupTurn(w, l, ok); }
      case CMapping(c, _, _) => if !ok {} else if KeyLocked(w, t, c) {} else if MappingFor(w, c).Some? {}
      case _ =>
    }
  }

  /** A delivery whose lookup has failed had its SELECT fail. */
  lemma {:induction false} FailedLookHasCause(w0: World, acts: seq<Act>, n: nat, t: nat) returns (j: nat)
    requires n <= |acts| && t in At(w0, acts, n).creators.at && At(w0, acts, n).creators.at[t].CLook?
    requires At(w0, acts, n).creators.at[t].lookup.LFailed? && w0.creators.at == map[]
    ensures j < n && acts[j].CreatorAct? && acts[j].t == t && !acts[j].ok && t in At(w0, acts, j).creators.at
    ensures At(w0, acts, j).creators.at[t].CLook? && At(w0, acts, j).creators.at[t].lookup.LRead?
  {
    AtStart(w0, acts);
    hide At, Run, Next;
    if n > 0 {
      AtStep(w0, acts, n - 1);
      LookFails(At(w0, acts, n - 1), acts[n - 1], t);
      if At(w0, acts, n - 1).creators.at[t].lookup.LFailed? {
        j := FailedLookHasCause(w0, acts, n - 1, t);
      } else {
        j := n - 1;
      }
    } else {
      assert false;
    }
  }

  lemma NoMappingWithIff(w: World, email: string)
    ensures First(w.db.mappings, ByEmail(email), w.db.nextMapping).None? <==> NoMappingWith(w, email)
  {
    hide Fold;
    assert forall i | i in w.db.mappings :: ByEmail(email)(w.db.mappings[i]) <==>
        EqualFold(w.db.mappings[i].email, email);
  }

  lemma NoMappingForIff(w: World, clerk: string)
    ensures MappingFor(w, clerk).None? <==> NoMappingFor(w, clerk)
  {
    hide Fold;
    assert forall i | i in w.db.mappings :: ByClerk(clerk)(w.db.mappings[i]) <==>
        EqualFold(w.db.mappings[i].clerkUserId, clerk);
  }

  lemma CreatorTurn(w: World, t: nat, ok: bool, name: string, o: Outcome)
    requires t in w.creators.at
    ensures CreatorEnds(NextCreator(w, t, ok, name), t, o) <==>
            CreatorEnds(w, t, o) || CreatorCause(w, CreatorAct(t, ok, name), t, o)
  {
    hide First, MappingFor, KeyLocked, LookupStep, LookupCache, NoMappingFor, NoMappingWith;
    match w.creators.at[t] {
      case CLook(l, _, _) => if l.LDone? {} else if l.LFailed? {}
      case CEmail(_, email) => NoMappingWithIff(w, email);
      case CMapping(c, _, _) => NoMappingForIff(w, c);
      case _ =>
    }
  }

  lemma CreatorStep(w: World, a: Act, t: nat, o: Outcome)
    ensures CreatorEnds(Next(w, a), t, o) <==> CreatorEnds(w, t, o) || CreatorCause(w, a, t, o)
  {
    NextFrame(w, a);
    hide RowsGrow, NextCreator, MappingFor, KeyLocked, NoMappingFor, NoMappingWith, SelectEmail;
    if a.CreatorAct? && !Idle(w, a) {
      CreatorFrame(w, a.t, a.ok, a.name);
      if a.t == t { CreatorTurn(w, t, a.ok, a.name, o); }
    } else if !a.SpawnCreator? {
      hide Next;
    }
  }

  lemma {:induction false} CreatorEndsIff(w0: World, acts: seq<Act>, t: nat, o: Outcome)
    requires !CreatorEnds(w0, t, o)
    ensures CreatorEnds(Run(w0, acts), t, o) <==>
            exists j: nat | j < |acts| :: CreatorCause(At(w0, acts, j), acts[j], t, o)
  {
    hide Next, Run, At, CreatorEnds, CreatorCause;
    var fact, cause := (w: World) => CreatorEnds(w, t, o), (w: World, a: Act) => CreatorCause(w, a, t, o);
    forall w, a ensures fact(Next(w, a)) <==> fact(w) || cause(w, a) { CreatorStep(w, a, t, o); }
    OutcomeIff(w0, acts, fact, cause);
    assert forall j: nat | j < |acts| ::
        cause(At(w0, acts, j), acts[j]) == CreatorCause(At(w0, acts, j), acts[j], t, o);
  }

  // ----- Failures -----

  /** A failed action of any kind writes no row, no mapping, no KYC event and no KYC record. */
  lemma FailureWritesNothing(w: World, a: Act)
    requires (a.ReaderAct? || a.UpdaterAct? || a.CallbackAct? || a.LookupAct? || a.CreatorAct?) && !a.ok
    ensures var w' := Next(w, a);
            && w'.db.users == w.db.users && w'.db.mappings == w.db.mappings
            && w'.topics.kyc == w.topics.kyc && w'.history.kycWrites == w.history.kycWrites
  {
    NextFrame(w, a);
    hide RowsGrow, NextReader, NextCreator;
    if Idle(w, a) {
    } else {
      match a {
        case UpdaterAct(t, ok) => UpdaterFails(w, t);
        case CallbackAct(t, ok, info) => CallbackFails(w, t, info);
        case CreatorAct(t, ok, name) => hide Next;
        case _ => hide Next;
      }
    }
  }

  lemma UpdaterFails(w: World, t: nat)
    requires t in w.updaters.at
    ensures NextUpdater(w, t, false).db.users == w.db.users
  {
    hide BuildPatch;
    match w.updaters.at[t] {
      case _ =>
    }
  }

  lemma CallbackFails(w: World, t: nat, info: Option<UserInfo>)
    requires t in w.callbacks.at
    ensures var w' := NextCallback(w, t, false, info);
            w'.db.users == w.db.users && w'.topics.kyc == w.topics.kyc && w'.history.kycWrites == w.history.kycWrites
  {
    hide Consumable, Mark, EmailsMatchForKyc, PendingOf;
    match w.callbacks.at[t] {
      case KConsume(state) => if Consumable(w.store.log, state, w.now).Some? {}
      case _ =>
    }
  }

  /** The action is a Redis set or delete. */
  predicate RedisWrite(w: World, a: Act) {
    match a
    case ReaderAct(t, _) => t in w.readers.at && w.readers.at[t].RSet?
    case UpdaterAct(t, _) => t in w.updaters.at && w.updaters.at[t].UDel?
    case CallbackAct(t, _, _) => t in w.callbacks.at && w.callbacks.at[t].KDel?
    case LookupAct(t, _) => t in w.lookups.at && w.lookups.at[t].LSet?
    case CreatorAct(t, _, _) =>
      && t in w.creators.at
      && var c := w.creators.at[t];
         c.CDelBefore? || c.CDelAfter? || c.CInval? || (c.CLook? && c.lookup.LSet?)
    case _ => false
  }

  /** The action is a Redis get. */
  predicate RedisGet(w: World, a: Act) {
    match a
    case ReaderAct(t, _) => t in w.readers.at && w.readers.at[t].RGet?
    case LookupAct(t, _) => t in w.lookups.at && w.lookups.at[t].LGet?
    case CreatorAct(t, _, _) => t in w.creators.at && w.creators.at[t].CLook? && w.creators.at[t].lookup.LGet?
    case _ => false
  }

  function Failing(a: Act): Act {
    match a
    case ReaderAct(t, _) => ReaderAct(t, false)
    case UpdaterAct(t, _) => UpdaterAct(t, false)
    case CallbackAct(t, _, i) => CallbackAct(t, false, i)
    case LookupAct(t, _) => LookupAct(t, false)
    case CreatorAct(t, _, n) => CreatorAct(t, false, n)
    case _ => a
  }

  /** The two states differ in what Redis holds and in which deletes are on record as lost. */
  ghost predicate SameButRedis(w: World, w': World) {
    w' == w.(redis := w'.redis, history := w.history.(lost := w'.history.lost))
  }

  /** Whether a Redis set or delete succeeds, every call goes on alike. */
  lemma RedisWriteIsInvisible(w: World, a: Act)
    requires RedisWrite(w, a)
    ensures SameButRedis(Next(w, a), Next(w, Failing(a)))
  {
    hide MappingFor, PendingOf;
  }

  /** A Redis get that fails is a miss. */
  lemma FailedGetIsMiss(w: World, a: Act)
    requires RedisGet(w, a)
    ensures Next(w, Failing(a)) == Next(w.(redis := Redis(map[], map[])), a).(redis := w.redis)
  {
    hide MappingFor;
  }

  /** A delete that succeeds leaves no entry: of the user after a write or a commit, of the Clerk
      id on both sides of its insert. */
  lemma DeletesDrop(w: World, a: Act)
    requires (a.UpdaterAct? || a.CallbackAct? || a.CreatorAct?) && a.ok && RedisWrite(w, a)
    ensures a.UpdaterAct? && w.updaters.at[a.t].userId > 0 ==> w.updaters.at[a.t].userId !in Next(w, a).redis.profiles
    ensures a.CallbackAct? && w.callbacks.at[a.t].userId > 0 ==>
            w.callbacks.at[a.t].userId !in Next(w, a).redis.profiles
    ensures a.CreatorAct? ==>
              var c := w.creators.at[a.t];
              && (c.CInval? && c.userId > 0 ==> c.userId !in Next(w, a).redis.profiles)
              && (c.CDelBefore? && c.clerk != "" ==> c.clerk !in Next(w, a).redis.mappings)
              && (c.CDelAfter? && c.mapping.clerkUserId != "" ==> c.mapping.clerkUserId !in Next(w, a).redis.mappings)
  {
    hide MappingFor;
  }

  /** A mapping that is set is found by the next get of its id, without the table. */
  lemma SetMappingIsFound(w: World, t: nat, s: nat)
    requires t in w.lookups.at && w.lookups.at[t].LSet? && w.lookups.at[t].row.clerkUserId != ""
    requires s !in w.lookups.at
    ensures var row := w.lookups.at[t].row;
            var w' := Next(Next(Next(w, LookupAct(t, true)), SpawnLookup(s, row.clerkUserId)), LookupAct(s, true));
            w'.lookups.at[t] == LDone(w.lookups.at[t].clerk, Some(row))
                && w'.lookups.at[s] == LDone(row.clerkUserId, Some(row))
  {
  }
}
