/** When the last published status of a user is the stored one: main results over every run. */
module StatusRuns {
  import opened Model
  import opened World
  import opened Tables
  import opened Kyc
  import opened Statuses
  import opened Runs

  ghost predicate PublishedWrite(w: World, k: nat) {
    exists f: nat | f < |w.topics.kyc| :: w.topics.kyc[f].write == k
  }

  /** The event of the last write `k` of `u` was followed by that of an earlier write with
      another status. */
  ghost predicate Overtaken(w: World, u: int, k: nat) {
    exists f: nat, e: nat | f < e < |w.topics.kyc| ::
      && w.topics.kyc[f].write == k && LastOf(w.topics.kyc, EventOf(u)) == Some(e)
      && w.topics.kyc[e].write < k && w.topics.kyc[e].status != w.topics.kyc[f].status
  }

  /** The last event and the last write of one user, in a state that satisfies the invariants. */
  lemma LastEventInState(w: World, u: int, e: nat, k: nat)
    requires KycInv(w) && StoredInv(w) && u in w.db.users
    requires LastOf(w.topics.kyc, EventOf(u)) == Some(e)
    requires LastOf(w.history.kycWrites, WriteTo(u)) == Some(k) && w.history.kycWrites[k].landed
    ensures w.topics.kyc[e].write < |w.history.kycWrites| && w.topics.kyc[e].write <= k
    ensures w.topics.kyc[e].status == Row(w.db.users[u]).kycStatus <==>
            w.history.kycWrites[w.topics.kyc[e].write].status == w.history.kycWrites[k].status
    ensures PublishedWrite(w, k) ==> (w.topics.kyc[e].status == Row(w.db.users[u]).kycStatus <==> !Overtaken(w, u, k))
  {
    hide WriteTraces, ConsumeOk, SaveOk, CallbackOk;
    var es := w.topics.kyc;
    assert EventTraces(w, es[e]) && StoredOk(w, u);
    if f: nat :| f < |es| && es[f].write == k {
      assert EventTraces(w, es[f]);
      assert EventOf(u)(es[f]);
    }
  }

  /** From any state that satisfies the invariants, under every interleaving: the last event of a
      user carries the status its row stores if and only if the write it is for has the status
      of the user's last write; once that last write is published, if and only if no earlier
      write with another status was published after it. */
  lemma {:induction false} LastEventIff(w0: World, acts: seq<Act>, u: int, e: nat, k: nat)
    requires Inv(w0) && u in Run(w0, acts).db.users
    requires LastOf(Run(w0, acts).topics.kyc, EventOf(u)) == Some(e)
    requires LastOf(Run(w0, acts).history.kycWrites, WriteTo(u)) == Some(k)
    requires Run(w0, acts).history.kycWrites[k].landed
    ensures var w := Run(w0, acts);
            var matches := w.topics.kyc[e].status == Row(w.db.users[u]).kycStatus;
            && w.topics.kyc[e].write < |w.history.kycWrites|
            && (matches <==> w.history.kycWrites[w.topics.kyc[e].write].status == w.history.kycWrites[k].status)
            && (PublishedWrite(w, k) ==> (matches <==> !Overtaken(w, u, k)))
  {
    RunInv(w0, acts);
    hide Run, Grows, TableInv, KycInv, StoredInv, LastOf, Overtaken, PublishedWrite;
    LastEventInState(Run(w0, acts), u, e, k);
  }

  /** No status of `u` is written while another callback is between its write for `u` and its
      publish. */
  ghost predicate NothingOvertakes(w0: World, acts: seq<Act>, u: int) {
    forall k: nat | k < |acts| :: !Overtakes(At(w0, acts, k), acts[k], u)
  }

  lemma {:induction false} RunKeepsOrder(w0: World, acts: seq<Act>, u: int, j: nat)
    requires Inv(w0) && NothingOvertakes(w0, acts, u) && j <= |acts|
    ensures OrderInv(At(w0, acts, j), u, |w0.history.kycWrites|)
  {
    AtStart(w0, acts);
    hide At, Run, Next, Overtakes, Grows, KycInv, LastOf;
    if j > 0 {
      hide OrderInv;
      AtInv(w0, acts, j - 1);
      AtStep(w0, acts, j - 1);
      RunKeepsOrder(w0, acts, u, j - 1);
      assert !Overtakes(At(w0, acts, j - 1), acts[j - 1], u);
      NextKeepsOrder(At(w0, acts, j - 1), acts[j - 1], u, |w0.history.kycWrites|);
    }
  }

  lemma OrderedEventMatches(w: World, u: int, n: nat, k: nat)
    requires KycInv(w) && StoredInv(w) && OrderInv(w, u, n) && n <= k && u in w.db.users
    requires LastOf(w.history.kycWrites, WriteTo(u)) == Some(k) && w.history.kycWrites[k].landed && PublishedWrite(w, k)
    ensures var e := LastOf(w.topics.kyc, EventOf(u));
            e.Some? && w.topics.kyc[e.value].write == k && w.topics.kyc[e.value].status == Row(w.db.users[u]).kycStatus
  {
    hide LastOf, KycInv;
    var f: nat :| f < |w.topics.kyc| && w.topics.kyc[f].write == k;
    assert w.topics.kyc[f] in w.topics.kyc;
    LastEventInState(w, u, LastOf(w.topics.kyc, EventOf(u)).value, k);
  }

  /** From any state that satisfies the invariants, with whatever callbacks in progress: when no
      status of `u` is written while another callback owes an event for `u`, then once the last
      write for `u`, made in the run, is published, the last event of `u` is for that write and
      carries the stored status. */
  lemma {:induction false} OrderedLastEvent(w0: World, acts: seq<Act>, u: int, k: nat)
    requires Inv(w0) && NothingOvertakes(w0, acts, u) && u in Run(w0, acts).db.users
    requires LastOf(Run(w0, acts).history.kycWrites, WriteTo(u)) == Some(k) && |w0.history.kycWrites| <= k
    requires Run(w0, acts).history.kycWrites[k].landed && PublishedWrite(Run(w0, acts), k)
    ensures var w := Run(w0, acts);
            var e := LastOf(w.topics.kyc, EventOf(u));
            e.Some? && w.topics.kyc[e.value].write == k && w.topics.kyc[e.value].status == Row(w.db.users[u]).kycStatus
  {
    RunInv(w0, acts);
    hide Run, At, Grows, TableInv, KycInv, StoredInv, OrderInv, LastOf, PublishedWrite;
    RunKeepsOrder(w0, acts, u, |acts|);
    AtEnd(w0, acts);
    OrderedEventMatches(Run(w0, acts), u, |w0.history.kycWrites|, k);
  }
}
