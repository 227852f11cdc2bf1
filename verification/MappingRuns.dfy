/** Main results on the mapping cache, over every run. */
module MappingRuns {
  import opened Model
  import opened World
  import opened MappingTable
  import opened Tables
  import opened MappingCache
  import opened Runs

  /** From any state that satisfies the invariants, over any warm Redis: every cached row is the
      row the table holds for its Clerk id, whatever was evicted and whichever delete failed. */
  lemma {:induction false} CachedMappingIsExact(w0: World, acts: seq<Act>, clerk: string)
    requires Inv(w0) && clerk in Run(w0, acts).redis.mappings
    ensures var w := Run(w0, acts);
            && w.redis.mappings[clerk].clerkUserId == clerk
            && MappingFor(w, clerk) == Some(w.redis.mappings[clerk])
  {
    RunInv(w0, acts);
    hide Run, First, Collate, Grows;
    CommittedIsRead(Run(w0, acts), Run(w0, acts).redis.mappings[clerk], clerk);
  }

  /** Who calls `GetByClerkUserID`: a handler of its own, or `CreateUser`. */
  datatype Caller = Direct(t: nat) | InCreate(t: nat)

  /** The call as it stands; a `CreateUser` past its lookup has none. */
  function CallOf(w: World, c: Caller): Option<Lookup> {
    match c
    case Direct(t) => if t in w.lookups.at then Some(w.lookups.at[t]) else None
    case InCreate(t) =>
      if t in w.creators.at && w.creators.at[t].CLook? then Some(w.creators.at[t].lookup) else None
  }

  predicate Settled(w: World, c: Caller) { CallOf(w, c).Some? && CallOf(w, c).value.LDone? }

  /** The call is in progress in `w` and an uncached read of its Clerk id would find `found`. */
  ghost predicate WouldRead(w: World, c: Caller, clerk: string, found: Option<UserAuthMapping>) {
    CallOf(w, c).Some? && !CallOf(w, c).value.LDone? && CallOf(w, c).value.clerk == clerk
        && MappingFor(w, clerk) == found
  }

  lemma StepSettles(w: World, a: Act, c: Caller)
    requires TableInv(w) && MappingCacheInv(w) && Settled(Next(w, a), c)
    ensures Settled(w, c) ==> CallOf(w, c) == CallOf(Next(w, a), c)
    ensures var l := CallOf(Next(w, a), c).value; !Settled(w, c) ==> WouldRead(w, c, l.clerk, l.found)
  {
    NextFrame(w, a);
    hide NextReader, NextUpdater, NextCallback, MappingFor, TableInv, MappingCacheInv, RowsGrow;
    if Idle(w, a) {
    } else {
      match a {
        case LookupAct(t, ok) => if c == Direct(t) { LookupSettles(w, c, w.lookups.at[t], ok); }
        case CreatorAct(t, ok, name) => if c == InCreate(t) { CreatorSettles(w, t, ok, name); }
            else { CreatorFrame(w, t, ok, name); }
        case SpawnLookup(_, _) =>
        case SpawnCreator(_, _) =>
        case _ => hide Next;
      }
    }
  }

  lemma LookupSettles(w: World, c: Caller, l: Lookup, ok: bool)
    requires TableInv(w) && MappingCacheInv(w) && CallOf(w, c) == Some(l) && LookupStep(w, l, ok).LDone?
    ensures l.LDone? ==> LookupStep(w, l, ok) == l
    ensures !l.LDone? ==> WouldRead(w, c, LookupStep(w, l, ok).clerk, LookupStep(w, l, ok).found)
  {
    assert LookupOk(w, l);
    hide TableInv, MappingCacheInv, MappingFor, LookupOk;
    if !l.LDone? {
      LookupStepKeepsClerk(w, l, ok);
      SettlingStepReads(w, l, ok);
    }
  }

  lemma CreatorSettles(w: World, t: nat, ok: bool, name: string)
    requires TableInv(w) && MappingCacheInv(w) && t in w.creators.at
             && Settled(NextCreator(w, t, ok, name), InCreate(t))
    ensures var l := CallOf(NextCreator(w, t, ok, name), InCreate(t)).value;
            !Settled(w, InCreate(t)) && WouldRead(w, InCreate(t), l.clerk, l.found)
  {
    hide TableInv, MappingCacheInv, MappingFor, LookupStep, LookupCache;
    if !w.creators.at[t].CLook? { CreatorShrinks(w, t, ok, name); }
    var l := w.creators.at[t].lookup;
    if l.LDone? {} else if l.LFailed? {} else { LookupSettles(w, InCreate(t), l, ok); }
  }

  /** A lookup that returned without error, called directly or by `CreateUser`, returned what an
      uncached read of the table would have returned at some instant of the call. */
  lemma {:induction false} LookupIsLinearizable(w0: World, acts: seq<Act>, c: Caller)
    requires Inv(w0) && !Settled(w0, c) && Settled(Run(w0, acts), c)
    ensures var l := CallOf(Run(w0, acts), c).value;
            exists k: nat | k < |acts| :: WouldRead(At(w0, acts, k), c, l.clerk, l.found)
  {
    if acts != [] {
      var n := |acts| - 1;
      var was := acts[..n];
      RunInv(w0, was);
      assert Run(w0, acts) == Next(Run(w0, was), acts[n]) && At(w0, acts, n) == Run(w0, was);
      hide Run, At, Next, Grows, TableInv, MappingCacheInv, WouldRead;
      StepSettles(Run(w0, was), acts[n], c);
      if Settled(Run(w0, was), c) {
        LookupIsLinearizable(w0, was, c);
        var l := CallOf(Run(w0, was), c).value;
        var k: nat :| k < n && WouldRead(At(w0, was, k), c, l.clerk, l.found);
        AtPrefix(w0, acts, n, k);
      }
    }
  }
}
