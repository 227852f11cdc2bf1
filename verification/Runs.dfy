/** Whole runs: the invariants hold after any list of actions from a started service. */
module Runs {
  import opened World
  import opened MappingTable
  import opened Tables
  import opened ProfileCache
  import opened MappingCache
  import opened Registration
  import opened Kyc
  import opened Statuses

  /** A service that has just started over valid tables: no calls in progress, nothing cached,
      nothing pending, nothing published. */
  ghost predicate Start(w: World) {
    && TableInv(w)
    && w.readers.at == map[] && w.updaters.at == map[] && w.callbacks.at == map[]
    && w.lookups.at == map[] && w.creators.at == map[]
    && w.redis == Redis(map[], map[]) && w.store.log == [] && w.topics == Topics([], [])
    && w.history == History([], [], [], {}, 0, w.db.nextUser, w.db.nextMapping)
    && (forall u | u in w.db.users :: |w.db.users[u]| == 1 && w.db.users[u][0].write == Inserted)
  }

  ghost predicate Inv(w: World) {
    TableInv(w) && CacheInv(w) && MappingCacheInv(w) && RegistrationInv(w) && KycInv(w) && StoredInv(w)
  }

  lemma StartInv(w: World)
    requires Start(w)
    ensures Inv(w)
  {
    hide First, Collate;
    forall i | i in w.db.mappings ensures CreatedMappingOk(w, i) { assert MappingOk(w, i); }
    forall u | u in w.db.users ensures u < w.history.firstUser { assert RowOk(w, u); }
  }

  /** No call is in progress and no login is pending: the state in which a process starts, over
      whatever tables and Redis entries there are. */
  ghost predicate Resting(w: World) {
    && Inv(w)
    && w.readers.at == map[] && w.updaters.at == map[] && w.callbacks.at == map[]
    && w.lookups.at == map[] && w.creators.at == map[]
    && forall e | e in w.store.log :: e.consumed
  }

  lemma StartRests(w: World)
    requires Start(w)
    ensures Resting(w)
  {
    StartInv(w);
    hide Inv, TableInv;
  }

  lemma NextInv(w: World, a: Act)
    requires Inv(w)
    ensures Inv(Next(w, a)) && Grows(w, Next(w, a))
  {
    hide Next, TableInv, CacheInv, MappingCacheInv, RegistrationInv, KycInv, StoredInv, Grows;
    NextGrows(w, a);
    NextKeepsTables(w, a);
    NextKeepsCache(w, a);
    NextKeepsMappings(w, a);
    NextKeepsRegistration(w, a);
    NextKeepsKyc(w, a);
    NextKeepsStored(w, a);
  }

  lemma GrowsTransitive(w: World, w': World, w'': World)
    requires Grows(w, w') && Grows(w', w'')
    ensures Grows(w, w'')
  {
    hide First, Collate;
    forall u, k: nat | u in w.db.users && |w.db.users[u]| <= k < |w''.db.users[u]|
      ensures w.now <= w''.db.users[u][k].at
    {
      if k < |w'.db.users[u]| { assert w''.db.users[u][k] == w'.db.users[u][k]; }
    }
  }

  lemma GrowsReflexive(w: World)
    ensures Grows(w, w)
  {
    hide First, Collate;
  }

  /** From any state that satisfies them, every run keeps all invariants, and what could be
      read before it can be read after it. */
  lemma {:induction false} RunInv(w: World, acts: seq<Act>)
    requires Inv(w)
    ensures Inv(Run(w, acts)) && Grows(w, Run(w, acts))
  {
    hide Inv, Next, Grows;
    if acts == [] {
      GrowsReflexive(w);
    } else {
      var before := acts[..|acts| - 1];
      RunInv(w, before);
      NextInv(Run(w, before), acts[|acts| - 1]);
      GrowsTransitive(w, Run(w, before), Run(w, acts));
    }
  }

  lemma RunSnoc(w: World, acts: seq<Act>, a: Act)
    ensures Run(w, acts + [a]) == Next(Run(w, acts), a)
  {
    hide Next;
    assert (acts + [a])[..|acts|] == acts;
  }

  lemma Run3(w: World, a: Act, b: Act, c: Act)
    ensures Run(w, [a, b, c]) == Next(Next(Next(w, a), b), c)
  {
    hide Next;
    RunSnoc(w, [], a);
    RunSnoc(w, [a], b);
    RunSnoc(w, [a, b], c);
    assert [] + [a] == [a] && [a] + [b] == [a, b] && [a, b] + [c] == [a, b, c];
    assert Run(w, []) == w;
  }

  lemma Run4(w: World, a: Act, b: Act, c: Act, d: Act)
    ensures Run(w, [a, b, c, d]) == Next(Next(Next(Next(w, a), b), c), d)
  {
    hide Next, Run;
    Run3(w, a, b, c);
    RunSnoc(w, [a, b, c], d);
    assert [a, b, c] + [d] == [a, b, c, d];
  }

  lemma {:induction false} RunConcat(w: World, acts: seq<Act>, more: seq<Act>)
    ensures Run(w, acts + more) == Run(Run(w, acts), more)
  {
    hide Next;
    if more == [] {
      assert acts + more == acts;
    } else {
      RunConcat(w, acts, more[..|more| - 1]);
      assert (acts + more)[..|acts + more| - 1] == acts + more[..|more| - 1];
    }
  }

  /** The state after the first `k` actions. */
  ghost function At(w: World, acts: seq<Act>, k: nat): World
    requires k <= |acts|
  {
    Run(w, acts[..k])
  }

  lemma AtPrefix(w: World, acts: seq<Act>, n: nat, k: nat)
    requires k <= n <= |acts|
    ensures At(w, acts[..n], k) == At(w, acts, k)
  {
    hide Run;
    assert acts[..n][..k] == acts[..k];
  }

  lemma AtStart(w: World, acts: seq<Act>)
    ensures At(w, acts, 0) == w
  {
    hide Next;
  }

  lemma AtEnd(w: World, acts: seq<Act>)
    ensures At(w, acts, |acts|) == Run(w, acts)
  {
    assert acts[..|acts|] == acts;
  }

  lemma AtStep(w: World, acts: seq<Act>, k: nat)
    requires k < |acts|
    ensures At(w, acts, k + 1) == Next(At(w, acts, k), acts[k])
  {
    hide Next;
    assert acts[..k + 1][..k] == acts[..k];
  }

  lemma AtInv(w: World, acts: seq<Act>, k: nat)
    requires Inv(w) && k <= |acts|
    ensures Inv(At(w, acts, k)) && Grows(w, At(w, acts, k)) && Grows(At(w, acts, k), Run(w, acts))
  {
    hide Inv, Next, Grows;
    RunInv(w, acts[..k]);
    RunInv(At(w, acts, k), acts[k..]);
    RunConcat(w, acts[..k], acts[k..]);
    assert acts[..k] + acts[k..] == acts;
  }

  lemma AtGrows(w: World, acts: seq<Act>, j: nat, k: nat)
    requires Inv(w) && j <= k <= |acts|
    ensures Grows(At(w, acts, j), At(w, acts, k))
  {
    AtPrefix(w, acts, k, j);
    AtInv(w, acts[..k], j);
    hide Inv, Run, Grows;
  }
}
