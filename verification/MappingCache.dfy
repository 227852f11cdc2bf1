/** The mapping cache is exact under every interleaving, eviction and failure: it only ever
    holds committed rows, and a lookup returns what the table held at an instant of the call. */
module MappingCache {
  import opened Model
  import opened World
  import opened MappingTable
  import opened Tables
  import opened ClerkEmail

  ghost predicate Committed(w: World, row: UserAuthMapping) {
    0 <= row.id < w.db.nextMapping && row.id in w.db.mappings && w.db.mappings[row.id] == row
  }

  ghost predicate LookupOk(w: World, l: Lookup) {
    && (l.LSet? ==> Committed(w, l.row) && Collate(l.row.clerkUserId) == Collate(l.clerk))
    && (l.LDone? && l.found.Some? ==>
          Committed(w, l.found.value) && Collate(l.found.value.clerkUserId) == Collate(l.clerk))
  }

  ghost predicate MappingCacheInv(w: World) {
    && (forall c | c in w.redis.mappings :: w.redis.mappings[c].clerkUserId == c && Committed(w, w.redis.mappings[c]))
    && (forall t | t in w.lookups.at :: LookupOk(w, w.lookups.at[t]))
    && (forall t | t in w.creators.at && w.creators.at[t].CLook? :: LookupOk(w, w.creators.at[t].lookup))
  }

  lemma ReadIsCommitted(w: World, clerk: string)
    requires TableInv(w) && MappingFor(w, clerk).Some?
    ensures Committed(w, MappingFor(w, clerk).value)
    ensures Collate(MappingFor(w, clerk).value.clerkUserId) == Collate(clerk)
  {
    hide Collate;
    var i :| i in w.db.mappings && 0 <= i < w.db.nextMapping && w.db.mappings[i] == MappingFor(w, clerk).value
             && ByClerk(clerk)(w.db.mappings[i]);
    assert MappingOk(w, i);
  }

  /** A row the cache or a lookup holds is what an uncached read of its id returns now. */
  lemma CommittedIsRead(w: World, row: UserAuthMapping, clerk: string)
    requires TableInv(w) && Committed(w, row) && Collate(row.clerkUserId) == Collate(clerk)
    ensures MappingFor(w, clerk) == Some(row)
  {
    hide Collate;
    FoundForClerk(w.db.mappings, w.db.nextMapping, row.id, clerk);
  }

  lemma LookupStepKeepsClerk(w: World, l: Lookup, ok: bool)
    ensures LookupStep(w, l, ok).clerk == l.clerk
  {
    hide First, Collate;
    match l {
      case LGet(_) =>
      case LRead(_) =>
      case LSet(_, _) =>
      case LDone(_, _) =>
      case LFailed(_) =>
    }
  }

  lemma LookupStepOk(w: World, l: Lookup, ok: bool)
    requires TableInv(w) && MappingCacheInv(w) && LookupOk(w, l)
    ensures LookupOk(w, LookupStep(w, l, ok))
    ensures forall c | c in LookupCache(w, l, ok) ::
              LookupCache(w, l, ok)[c].clerkUserId == c && Committed(w, LookupCache(w, l, ok)[c])
  {
    hide First, Collate;
    match l {
      case LRead(c) => if MappingFor(w, c).Some? { ReadIsCommitted(w, c); }
      case LGet(c) =>
      case LSet(_, _) =>
      case LDone(_, _) =>
      case LFailed(_) =>
    }
  }

  /** The step that settles a lookup settles it with what the table holds right then. */
  lemma SettlingStepReads(w: World, l: Lookup, ok: bool)
    requires TableInv(w) && MappingCacheInv(w) && LookupOk(w, l) && !l.LDone?
    requires LookupStep(w, l, ok).LDone?
    ensures LookupStep(w, l, ok).found == MappingFor(w, LookupStep(w, l, ok).clerk)
  {
    hide First, Collate;
    match l {
      case LGet(c) => CommittedIsRead(w, w.redis.mappings[c], c);
      case LRead(c) =>
      case LSet(c, row) => CommittedIsRead(w, row, c);
      case LFailed(_) =>
    }
  }

  lemma CommittedStable(w: World, w': World)
    requires Grows(w, w')
    ensures forall row | Committed(w, row) :: Committed(w', row)
    ensures forall l | LookupOk(w, l) :: LookupOk(w', l)
  {
    hide First, Collate;
  }

  /** Steps that leave the cache and the lookups alone, or drop entries. */
  lemma QuietKeepsMappings(w: World, w': World)
    requires MappingCacheInv(w) && Grows(w, w')
    requires forall c | c in w'.redis.mappings :: c in w.redis.mappings && w'.redis.mappings[c] == w.redis.mappings[c]
    requires forall t | t in w'.lookups.at ::
               w'.lookups.at[t].LGet? || (t in w.lookups.at && w'.lookups.at[t] == w.lookups.at[t])
    requires forall t | t in w'.creators.at && w'.creators.at[t].CLook? ::
               w'.creators.at[t].lookup.LGet? || (t in w.creators.at && w'.creators.at[t] == w.creators.at[t])
    ensures MappingCacheInv(w')
  {
    hide First, Collate, Grows;
    CommittedStable(w, w');
  }

  lemma LookupKeepsMappings(w: World, t: nat, ok: bool)
    requires TableInv(w) && MappingCacheInv(w) && t in w.lookups.at && Grows(w, NextLookup(w, t, ok))
    ensures MappingCacheInv(NextLookup(w, t, ok))
  {
    hide First, Collate, Grows, LookupStep, LookupOk;
    var w' := NextLookup(w, t, ok);
    CommittedStable(w, w');
    LookupStepOk(w, w.lookups.at[t], ok);
  }

  /** Past its lookup a creator only drops entries. */
  lemma CreatorShrinks(w: World, t: nat, ok: bool, name: string)
    requires t in w.creators.at && !w.creators.at[t].CLook?
    ensures var w' := NextCreator(w, t, ok, name);
            Shrinks(w.redis.mappings, w'.redis.mappings) && t in w'.creators.at && !w'.creators.at[t].CLook?
  {
    hide MappingFor, KeyLocked;
    match w.creators.at[t] {
      case CMapping(c, _, _) => if !ok {} else if KeyLocked(w, t, c) {} else if MappingFor(w, c).Some? {}
      case _ =>
    }
  }

  lemma CreatorLooksUp(w: World, t: nat, ok: bool, name: string)
    requires TableInv(w) && MappingCacheInv(w) && t in w.creators.at && w.creators.at[t].CLook?
    requires Grows(w, NextCreator(w, t, ok, name))
    ensures MappingCacheInv(NextCreator(w, t, ok, name))
  {
    hide First, Collate, Grows, LookupStep, LookupOk, Committed;
    var w' := NextCreator(w, t, ok, name);
    CommittedStable(w, w');
    var l := w.creators.at[t].lookup;
    if l.LDone? {
      QuietKeepsMappings(w, w');
    } else if l.LFailed? {
      QuietKeepsMappings(w, w');
    } else {
      LookupStepOk(w, l, ok);
    }
  }

  lemma CreatorKeepsMappings(w: World, t: nat, ok: bool, name: string)
    requires TableInv(w) && MappingCacheInv(w) && t in w.creators.at && Grows(w, NextCreator(w, t, ok, name))
    ensures MappingCacheInv(NextCreator(w, t, ok, name))
  {
    hide Grows, TableInv, MappingCacheInv, NextCreator;
    if w.creators.at[t].CLook? {
      CreatorLooksUp(w, t, ok, name);
    } else {
      CreatorFrame(w, t, ok, name);
      CreatorShrinks(w, t, ok, name);
      QuietKeepsMappings(w, NextCreator(w, t, ok, name));
    }
  }

  /** Every step keeps the mapping cache exact. */
  lemma NextKeepsMappings(w: World, a: Act)
    requires TableInv(w) && MappingCacheInv(w)
    ensures MappingCacheInv(Next(w, a))
  {
    hide NextReader, NextUpdater, NextCallback, NextLookup, NextCreator, SelectEmail, MappingFor, TableInv,
        MappingCacheInv;
    var w' := Next(w, a);
    NextGrows(w, a);
    NextFrame(w, a);
    hide Grows, RowsGrow;
    if Idle(w, a) {
    } else {
      match a {
        case LookupAct(t, ok) => LookupKeepsMappings(w, t, ok);
        case CreatorAct(t, ok, name) => CreatorKeepsMappings(w, t, ok, name);
        case SpawnLookup(_, _) => QuietKeepsMappings(w, w');
        case SpawnCreator(_, _) => QuietKeepsMappings(w, w');
        case _ => hide Next; QuietKeepsMappings(w, w');
      }
    }
  }
}
