/** Main results on registration, over every run of duplicate and concurrent deliveries. */
module RegistrationRuns {
  import opened Model
  import opened World
  import opened MappingTable
  import opened Tables
  import opened Registration
  import opened Runs
  import opened ClerkEmail

  /** Rows created since the start; the counters were noted then. */
  ghost predicate CreatedUser(w: World, u: int) { u in w.db.users && w.history.firstUser <= u }

  ghost predicate CreatedMapping(w: World, i: int) { i in w.db.mappings && w.history.firstMapping <= i }

  /** Created rows pair one to one, a Clerk id has at most one mapping, and every created mapping
      has role user and a trimmed email containing "@". */
  lemma {:induction false} CreatedRowsPair(w0: World, acts: seq<Act>)
    requires Inv(w0)
    ensures var w := Run(w0, acts);
            && UniqueClerk(w.db.mappings)
            && (forall u | CreatedUser(w, u) ::
                  exists i :: CreatedMapping(w, i) && w.db.mappings[i].internalUserId == u)
            && (forall i | CreatedMapping(w, i) ::
                  && CreatedUser(w, w.db.mappings[i].internalUserId)
                  && w.db.mappings[i].role == "user" && ValidEmail(w.db.mappings[i].email)
                  && forall j | j in w.db.mappings
                                && w.db.mappings[j].internalUserId == w.db.mappings[i].internalUserId :: i == j)
  {
    RunInv(w0, acts);
    hide Run, First, ValidEmail, Collate, Grows;
    var w := Run(w0, acts);
    forall u | CreatedUser(w, u)
      ensures exists i :: CreatedMapping(w, i) && w.db.mappings[i].internalUserId == u
    {
      assert HasMapping(w, u);
      var i :| i in w.db.mappings && w.history.firstMapping <= i && w.db.mappings[i].internalUserId == u;
      assert CreatedMapping(w, i);
    }
    forall i | CreatedMapping(w, i)
      ensures CreatedUser(w, w.db.mappings[i].internalUserId)
      ensures w.db.mappings[i].role == "user" && ValidEmail(w.db.mappings[i].email)
    {
      assert CreatedMappingOk(w, i);
    }
  }

  /** The publish calls so far are for distinct users, each already committed with its mapping. */
  lemma {:induction false} PublishedAfterCommit(w0: World, acts: seq<Act>)
    requires Inv(w0)
    ensures var w := Run(w0, acts);
            && (forall j, k | 0 <= j < k < |w.topics.registered| :: w.topics.registered[j] != w.topics.registered[k])
            && (forall k | 0 <= k < |w.topics.registered| ::
                  && CreatedUser(w, w.topics.registered[k])
                  && exists i :: CreatedMapping(w, i) && w.db.mappings[i].internalUserId == w.topics.registered[k])
  {
    CreatedRowsPair(w0, acts);
    RunInv(w0, acts);
    hide Run, First, ValidEmail, Collate, Grows;
  }

  // ----- Redelivery -----

  /** This delivery's own steps leave rows and publish calls alone. */
  ghost predicate AddsNothing(w: World, a: Act, t: nat) {
    a.CreatorAct? && a.t == t ==>
      && Next(w, a).db.users == w.db.users && Next(w, a).db.mappings == w.db.mappings
      && Next(w, a).topics.registered == w.topics.registered
  }

  lemma StaysRedelivered(w: World, a: Act, t: nat)
    requires Inv(w) && t in w.creators.at && Redelivered(w.creators.at[t])
    ensures t in Next(w, a).creators.at && Redelivered(Next(w, a).creators.at[t])
    ensures AddsNothing(w, a, t)
  {
    NextFrame(w, a);
    hide NextReader, NextUpdater, NextCallback, NextLookup, NextCreator, SelectEmail, MappingFor, Redelivered, Inv,
         RowsGrow;
    if Idle(w, a) {
    } else {
      match a {
        case CreatorAct(s, ok, name) =>
          CreatorFrame(w, s, ok, name);
          if s == t { InvRegistration(w); RedeliveryStops(w, t, ok, name); }
        case SpawnCreator(_, _) =>
        case _ => hide Next;
      }
    }
  }

  lemma InvRegistration(w: World)
    requires Inv(w)
    ensures RegistrationInv(w)
  {
    hide TableInv, RegistrationInv;
  }

  lemma {:induction false} RedeliveryRun(w: World, acts: seq<Act>, t: nat, k: nat)
    requires Inv(w) && t in w.creators.at && Redelivered(w.creators.at[t]) && k <= |acts|
    ensures t in At(w, acts, k).creators.at && Redelivered(At(w, acts, k).creators.at[t])
  {
    hide Inv, At, Next, Redelivered, Grows;
    if k > 0 {
      AtStep(w, acts, k - 1);
      AtInv(w, acts, k - 1);
      RedeliveryRun(w, acts, t, k - 1);
      StaysRedelivered(At(w, acts, k - 1), acts[k - 1], t);
    } else {
      AtStart(w, acts);
    }
  }

  lemma SpawnedRedelivered(w: World, t: nat, d: Option<ClerkCallbackData>)
    requires t !in w.creators.at && MappingFor(w, ClerkUserId(d)).Some?
    ensures t in Next(w, SpawnCreator(t, d)).creators.at && Redelivered(Next(w, SpawnCreator(t, d)).creators.at[t])
  {
    hide SelectEmail, MappingFor, ClerkUserId;
  }

  /** A delivery that arrives when its Clerk id is already mapped, for instance a redelivery
      after a failed publish, adds neither rows nor publish calls, whatever else runs. */
  lemma {:induction false} RedeliveryAddsNothing(w0: World, acts: seq<Act>, t: nat, d: Option<ClerkCallbackData>,
                                                 more: seq<Act>, k: nat)
    requires Inv(w0) && t !in Run(w0, acts).creators.at && k < |more|
    requires MappingFor(Run(w0, acts), ClerkUserId(d)).Some?
    ensures AddsNothing(At(Next(Run(w0, acts), SpawnCreator(t, d)), more, k), more[k], t)
  {
    hide Inv, At, Next, Redelivered, AddsNothing, Run, Grows, MappingFor, ClerkUserId;
    RunInv(w0, acts);
    var w := Run(w0, acts);
    NextInv(w, SpawnCreator(t, d));
    SpawnedRedelivered(w, t, d);
    var w1 := Next(w, SpawnCreator(t, d));
    RedeliveryRun(w1, more, t, k);
    AtInv(w1, more, k);
    StaysRedelivered(At(w1, more, k), more[k], t);
  }
}
