/** A process may start over a warm Redis: every reachable state restarts into a state at rest
    that satisfies all invariants, which is what the results over runs start from. */
module Restarts {
  import opened World
  import opened MappingTable
  import opened Tables
  import opened ProfileCache
  import opened MappingCache
  import opened Registration
  import opened StateStore
  import opened Kyc
  import opened Statuses
  import opened Runs

  /** The process dies and comes back: calls end, open transactions roll back, pending logins
      are gone and so are the deletes still due; tables, Redis and topics stay. */
  ghost function Restart(w: World): World {
    w.(readers := Pool(map[]), updaters := Pool(map[]), callbacks := Pool(map[]), lookups := Pool(map[]),
       creators := Pool(map[]), store := Store(Forgotten(w.store.log)),
       history := w.history.(lost := w.history.lost + DeletesDue(w)))
  }

  function Forgotten(log: seq<LogEntry>): seq<LogEntry> {
    seq(|log|, i requires 0 <= i < |log| => log[i].(consumed := true))
  }

  function DeletesDue(w: World): set<(int, nat)> {
    (set t | t in w.updaters.at && w.updaters.at[t].UDel? :: (w.updaters.at[t].userId, w.updaters.at[t].ver))
    + (set t | t in w.callbacks.at && w.callbacks.at[t].KDel? :: (w.callbacks.at[t].userId, w.callbacks.at[t].ver))
  }

  lemma RestartGrows(w: World)
    requires TableInv(w)
    ensures Grows(w, Restart(w))
  {
    hide TableInv, DeletesDue;
    AppendGrows(w, Restart(w));
  }

  lemma RestartKeepsTables(w: World)
    requires TableInv(w)
    ensures TableInv(Restart(w))
  {
    hide DeletesDue, UniqueClerk;
    var w' := Restart(w);
    forall u | u in w'.db.users ensures RowOk(w', u) { assert RowOk(w, u); }
    forall i | i in w'.db.mappings ensures MappingOk(w', i) { assert MappingOk(w, i); }
  }

  /** A delete that was due is now one that was lost. */
  lemma RestartExplains(w: World, u: int, e: Entry)
    requires Explained(w, u, e)
    ensures Explained(Restart(w), u, e)
  {
    if DeletePending(w, u, e.setVer) {
      if t :| t in w.updaters.at && w.updaters.at[t].UDel? && w.updaters.at[t].userId == u
              && e.setVer < w.updaters.at[t].ver {
        assert (u, w.updaters.at[t].ver) in Restart(w).history.lost;
      } else {
        var t :| t in w.callbacks.at && w.callbacks.at[t].KDel? && w.callbacks.at[t].userId == u
                 && e.setVer < w.callbacks.at[t].ver;
        assert (u, w.callbacks.at[t].ver) in Restart(w).history.lost;
      }
    }
  }

  lemma RestartKeepsCache(w: World)
    requires CacheInv(w) && Grows(w, Restart(w))
    ensures CacheInv(Restart(w))
  {
    hide Grows, EntryOk, Explained, DeletesDue;
    forall u | u in w.redis.profiles
      ensures EntryOk(Restart(w), u, w.redis.profiles[u]) && Explained(Restart(w), u, w.redis.profiles[u])
    {
      EntryStable(w, Restart(w), u, w.redis.profiles[u]);
      RestartExplains(w, u, w.redis.profiles[u]);
    }
  }

  lemma RestartKeepsKyc(w: World)
    requires KycInv(w)
    ensures KycInv(Restart(w))
  {
    var w' := Restart(w);
    hide DeletesDue, EmailAccepted, WriteTraces, EventTraces, ConsumeOk;
    assert Extends(w, w');
    TracesStable(w, w');
    forall i: nat | i < |w'.store.log| ensures SaveOk(w', i) { assert SaveOk(w, i); }
  }

  lemma RestartKeepsOthers(w: World)
    requires RowsPaired(w) && RegisteredOk(w) && MappingCacheInv(w) && StoredInv(w) && Grows(w, Restart(w))
    ensures RegistrationInv(Restart(w)) && MappingCacheInv(Restart(w)) && StoredInv(Restart(w))
  {
    var w' := Restart(w);
    assert StoredInv(w') by { assert forall u | u in w.db.users :: StoredOk(w, u); }
    hide StoredInv, StoredOk, DeletesDue;
    RowsStayPaired(w, w');
    QuietKeepsMappings(w, w');
    hide Grows, RowsPaired, MappingCacheInv;
  }

  lemma RestartRests(w: World)
    requires Inv(w)
    ensures Resting(Restart(w)) && Grows(w, Restart(w))
  {
    RestartGrows(w);
    RestartKeepsTables(w);
    RestartKeepsCache(w);
    RestartKeepsKyc(w);
    RestartKeepsOthers(w);
    hide Grows, TableInv, CacheInv, MappingCacheInv, RegistrationInv, KycInv, StoredInv, DeletesDue;
  }
}
