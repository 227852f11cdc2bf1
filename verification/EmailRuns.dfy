/** When created mappings share an email: exactly when two deliveries race past the check. */
module EmailRuns {
  import opened Model
  import opened World
  import opened MappingTable
  import opened Tables
  import opened Runs

  predicate SameEmail(e: string, f: string) { Collate(e) == Collate(f) }

  predicate PastEmailCheck(c: Creator) { c.CUser? || c.Open() }

  function EmailOf(c: Creator): string {
    if c.Holds() then c.mapping.email else if PastEmailCheck(c) then c.email else ""
  }

  /** The email creator `t` has checked, if it is past the check. */
  function EmailAt(w: World, t: nat): string { if t in w.creators.at then EmailOf(w.creators.at[t]) else "" }

  /** Committed or given up. */
  predicate Finished(c: Creator) { c.CInval? || c.CPub? || c.CDone? }

  ghost predicate HasEmail(w: World, email: string) {
    exists i | i in w.db.mappings :: SameEmail(w.db.mappings[i].email, email)
  }

  /** Creator `t` finds no mapping with its email and goes on. */
  ghost predicate PassesCheck(w: World, a: Act, t: nat) {
    && a.CreatorAct? && a.t == t && t in w.creators.at && w.creators.at[t].CEmail?
    && t in Next(w, a).creators.at && Next(w, a).creators.at[t].CUser?
  }

  predicate CommitsEmail(w: World, a: Act, email: string) {
    a.CreatorAct? && Commits(w, a, a.t) && SameEmail(w.creators.at[a.t].mapping.email, email)
  }

  // ----- Steps -----

  /** Only commits add emails. */
  lemma NextEmail(w: World, a: Act, email: string)
    requires TableInv(w)
    ensures HasEmail(Next(w, a), email) <==> HasEmail(w, email) || CommitsEmail(w, a, email)
  {
    NextFrame(w, a);
    hide SameEmail, RowsGrow, First;
    if a.CreatorAct? && Commits(w, a, a.t) {
      var row := w.creators.at[a.t].mapping;
      assert TxOk(w, w.creators.at[a.t]);
      assert Next(w, a).db.mappings == w.db.mappings[row.id := row];
      hide Next, TableInv;
      assert row.id in Next(w, a).db.mappings;
      assert forall i | i in w.db.mappings :: Next(w, a).db.mappings[i] == w.db.mappings[i];
    } else {
      hide Next, TableInv;
    }
  }

  /** A creator keeps its email from the check to the commit, and then is finished for good. */
  ghost predicate Proceeds(c: Creator, c': Creator) {
    && (PastEmailCheck(c) ==> (PastEmailCheck(c') && EmailOf(c') == EmailOf(c)) || Finished(c'))
    && (Finished(c) ==> Finished(c'))
    && (PastEmailCheck(c') ==> PastEmailCheck(c) || (c.CEmail? && c'.CUser?))
  }

  lemma CreatorProceeds(w: World, t: nat, ok: bool, name: string)
    requires t in w.creators.at
    ensures Proceeds(w.creators.at[t], NextCreator(w, t, ok, name).creators.at[t])
    ensures ok && w.creators.at[t].CCommit? ==> Finished(NextCreator(w, t, ok, name).creators.at[t])
  {
    hide MappingFor, KeyLocked, First, LookupStep, LookupCache, Collate;
    match w.creators.at[t] {
      case CLook(l, _, _) => if l.LDone? {} else if l.LFailed? {}
      case CMapping(c, _, _) => if !ok {} else if KeyLocked(w, t, c) {} else if MappingFor(w, c).Some? {}
      case _ =>
    }
  }

  /** What a step does to creator `t`. */
  lemma NextProceeds(w: World, a: Act, t: nat)
    requires t in Next(w, a).creators.at
    ensures t !in w.creators.at ==> !PastEmailCheck(Next(w, a).creators.at[t])
    ensures t in w.creators.at ==> Proceeds(w.creators.at[t], Next(w, a).creators.at[t])
    ensures Commits(w, a, t) ==> Finished(Next(w, a).creators.at[t])
    ensures t in w.creators.at && !PastEmailCheck(w.creators.at[t]) && PastEmailCheck(Next(w, a).creators.at[t]) ==>
              PassesCheck(w, a, t)
  {
    NextFrame(w, a);
    hide NextCreator, MappingFor, RowsGrow;
    if a.CreatorAct? && !Idle(w, a) {
      CreatorFrame(w, a.t, a.ok, a.name);
      if a.t == t { CreatorProceeds(w, t, a.ok, a.name); }
    } else if !a.SpawnCreator? {
      hide Next;
    }
  }

  lemma NextKeepsCreator(w: World, a: Act, t: nat)
    requires t in w.creators.at
    ensures t in Next(w, a).creators.at
  {
    NextFrame(w, a);
    hide NextCreator, MappingFor, RowsGrow;
    if a.CreatorAct? && !Idle(w, a) {
      CreatorFrame(w, a.t, a.ok, a.name);
    } else if !a.SpawnCreator? {
      hide Next;
    }
  }

  /** The check was made against the table as it was. */
  lemma PassedFree(w: World, a: Act, t: nat)
    requires TableInv(w) && PassesCheck(w, a, t)
    ensures !HasEmail(w, EmailAt(Next(w, a), t)) && !CommitsEmail(w, a, EmailAt(Next(w, a), t))
  {
    hide Collate;
    var email := w.creators.at[t].email;
    forall i | i in w.db.mappings ensures !SameEmail(w.db.mappings[i].email, email) {
      assert MappingOk(w, i) && !ByEmail(email)(w.db.mappings[i]);
    }
  }

  // ----- From the check to the commit -----

  lemma {:induction false} FinishedStays(w0: World, acts: seq<Act>, t: nat, j: nat, k: nat)
    requires j <= k <= |acts| && t in At(w0, acts, j).creators.at && Finished(At(w0, acts, j).creators.at[t])
    ensures t in At(w0, acts, k).creators.at && Finished(At(w0, acts, k).creators.at[t])
    decreases k
  {
    hide At, Next, Finished;
    if j < k {
      FinishedStays(w0, acts, t, j, k - 1);
      AtStep(w0, acts, k - 1);
      NextKeepsCreator(At(w0, acts, k - 1), acts[k - 1], t);
      NextProceeds(At(w0, acts, k - 1), acts[k - 1], t);
    }
  }

  /** From its check to its commit the creator is past the check, with one email. */
  lemma {:induction false} StaysChecked(w0: World, acts: seq<Act>, t: nat, k1: nat, j: nat, k2: nat)
    requires k1 < j <= k2 < |acts| && PassesCheck(At(w0, acts, k1), acts[k1], t)
    requires Commits(At(w0, acts, k2), acts[k2], t)
    ensures t in At(w0, acts, j).creators.at && PastEmailCheck(At(w0, acts, j).creators.at[t])
    ensures EmailAt(At(w0, acts, j), t) == EmailAt(At(w0, acts, k1 + 1), t)
    decreases j
  {
    AtStep(w0, acts, j - 1);
    hide At, Next;
    if k1 + 1 < j {
      StaysChecked(w0, acts, t, k1, j - 1, k2);
      NextKeepsCreator(At(w0, acts, j - 1), acts[j - 1], t);
      NextProceeds(At(w0, acts, j - 1), acts[j - 1], t);
      if Finished(At(w0, acts, j).creators.at[t]) { FinishedStays(w0, acts, t, j, k2); }
    }
  }

  /** Some creator commits this email at one of the actions from `j` up to `k`. */
  ghost predicate CommittedIn(w0: World, acts: seq<Act>, email: string, j: nat, k: nat)
    requires k <= |acts|
  {
    exists i: nat | j <= i < k :: CommitsEmail(At(w0, acts, i), acts[i], email)
  }

  lemma CommittedInStep(w0: World, acts: seq<Act>, email: string, j: nat, k: nat)
    requires j < k <= |acts|
    ensures CommittedIn(w0, acts, email, j, k) <==>
            CommittedIn(w0, acts, email, j, k - 1) || CommitsEmail(At(w0, acts, k - 1), acts[k - 1], email)
  {
    hide At, CommitsEmail;
  }

  lemma {:induction false} EmailSince(w0: World, acts: seq<Act>, email: string, j: nat, k: nat)
    requires Inv(w0) && j <= k <= |acts|
    ensures HasEmail(At(w0, acts, k), email) <==>
            HasEmail(At(w0, acts, j), email) || CommittedIn(w0, acts, email, j, k)
    decreases k
  {
    if j < k {
      AtInv(w0, acts, k - 1);
      AtStep(w0, acts, k - 1);
      InvTables(At(w0, acts, k - 1));
      hide At, Next, Grows, Inv, HasEmail, CommitsEmail, CommittedIn;
      EmailSince(w0, acts, email, j, k - 1);
      CommittedInStep(w0, acts, email, j, k);
      NextEmail(At(w0, acts, k - 1), acts[k - 1], email);
    }
  }

  lemma InvTables(w: World)
    requires Inv(w)
    ensures TableInv(w)
  {
    hide TableInv;
  }

  /** A creator commits once. */
  lemma OtherCommits(w0: World, acts: seq<Act>, t: nat, email: string, j: nat, k: nat)
    requires j < k < |acts| && CommitsEmail(At(w0, acts, j), acts[j], email) && Commits(At(w0, acts, k), acts[k], t)
    ensures acts[j].t != t
  {
    hide At, Next;
    if acts[j].t == t {
      AtStep(w0, acts, j);
      NextKeepsCreator(At(w0, acts, j), acts[j], t);
      NextProceeds(At(w0, acts, j), acts[j], t);
      FinishedStays(w0, acts, t, j + 1, k);
    }
  }

  /** Let a creator pass its email check at `k1` and commit at `k2`, under any interleaving. Its
      mapping shares its email with a committed one if and only if another creator commits
      that email strictly in between. */
  lemma {:induction false} CommitSharesEmailIff(w0: World, acts: seq<Act>, t: nat, k1: nat, k2: nat)
    requires Inv(w0) && k1 < k2 < |acts|
    requires PassesCheck(At(w0, acts, k1), acts[k1], t) && Commits(At(w0, acts, k2), acts[k2], t)
    ensures var email := At(w0, acts, k2).creators.at[t].mapping.email;
            HasEmail(At(w0, acts, k2), email) <==>
            exists j: nat | k1 < j < k2 :: CommitsEmail(At(w0, acts, j), acts[j], email) && acts[j].t != t
  {
    var email := At(w0, acts, k2).creators.at[t].mapping.email;
    StaysChecked(w0, acts, t, k1, k2, k2);
    AtInv(w0, acts, k1);
    AtStep(w0, acts, k1);
    InvTables(At(w0, acts, k1));
    hide At, Next, Grows, Inv, TableInv, HasEmail, CommitsEmail, PassesCheck;
    PassedFree(At(w0, acts, k1), acts[k1], t);
    NextEmail(At(w0, acts, k1), acts[k1], email);
    EmailSince(w0, acts, email, k1 + 1, k2);
    forall j: nat | k1 < j < k2 && CommitsEmail(At(w0, acts, j), acts[j], email) ensures acts[j].t != t {
      OtherCommits(w0, acts, t, email, j, k2);
    }
  }

  // ----- All created mappings -----

  /** No mapping created in the run shares its email with any other mapping. */
  ghost predicate EmailsDistinct(w0: World, w: World) {
    forall i, j | i in w.db.mappings && i !in w0.db.mappings && j in w.db.mappings
                  && SameEmail(w.db.mappings[i].email, w.db.mappings[j].email) :: i == j
  }

  /** A creator commits at `j` while another one, which commits the same email at `k`, is past
      its check. */
  ghost predicate Race(w0: World, acts: seq<Act>, j: nat, k: nat) {
    && j < k < |acts| && acts[k].CreatorAct? && Commits(At(w0, acts, k), acts[k], acts[k].t)
    && CommitsEmail(At(w0, acts, j), acts[j], EmailAt(At(w0, acts, k), acts[k].t))
    && acts[k].t in At(w0, acts, j).creators.at && PastEmailCheck(At(w0, acts, j).creators.at[acts[k].t])
  }

  /** The row is in the table. */
  predicate RowIn(w: World, row: UserAuthMapping) { row.id in w.db.mappings && w.db.mappings[row.id] == row }

  lemma RowStays(w0: World, acts: seq<Act>, j: nat, k: nat, row: UserAuthMapping)
    requires Inv(w0) && j <= k <= |acts| && RowIn(At(w0, acts, j), row)
    ensures RowIn(At(w0, acts, k), row)
  {
    hide At, Inv, MappingOf, MappingFor;
    AtGrows(w0, acts, j, k);
  }

  /** Action `k` commits this row. */
  predicate CommitsRow(w: World, a: Act, row: UserAuthMapping) {
    a.CreatorAct? && Commits(w, a, a.t) && w.creators.at[a.t].mapping == row
  }

  /** A row appears when it is committed, and only then. */
  lemma NextRow(w: World, a: Act, row: UserAuthMapping)
    requires TableInv(w)
    ensures CommitsRow(w, a, row) ==> row.id !in w.db.mappings
    ensures RowIn(Next(w, a), row) <==> RowIn(w, row) || CommitsRow(w, a, row)
  {
    NextFrame(w, a);
    hide MappingFor, RowsGrow;
    if a.CreatorAct? && Commits(w, a, a.t) {
      assert TxOk(w, w.creators.at[a.t]);
      assert Next(w, a).db.mappings == w.db.mappings[w.creators.at[a.t].mapping.id := w.creators.at[a.t].mapping];
      hide Next;
    } else {
      hide Next;
    }
  }

  lemma CommitAdds(w0: World, acts: seq<Act>, k: nat, row: UserAuthMapping)
    requires Inv(w0) && k < |acts| && CommitsRow(At(w0, acts, k), acts[k], row)
    ensures row.id !in At(w0, acts, k).db.mappings && RowIn(At(w0, acts, k + 1), row)
  {
    AtInv(w0, acts, k);
    AtStep(w0, acts, k);
    InvTables(At(w0, acts, k));
    hide At, Inv, TableInv, Next, CommitsRow, RowIn, Grows;
    NextRow(At(w0, acts, k), acts[k], row);
  }

  /** The action that committed a row of the run. */
  lemma {:induction false} FindCommit(w0: World, acts: seq<Act>, n: nat, row: UserAuthMapping) returns (k: nat)
    requires Inv(w0) && n <= |acts| && RowIn(At(w0, acts, n), row) && row.id !in w0.db.mappings
    ensures k < n && CommitsRow(At(w0, acts, k), acts[k], row)
  {
    AtStart(w0, acts);
    hide At, Run, Next, Inv, TableInv, Grows, CommitsRow;
    if n > 0 {
      AtInv(w0, acts, n - 1);
      AtStep(w0, acts, n - 1);
      InvTables(At(w0, acts, n - 1));
      NextRow(At(w0, acts, n - 1), acts[n - 1], row);
      if RowIn(At(w0, acts, n - 1), row) { k := FindCommit(w0, acts, n - 1, row); } else { k := n - 1; }
    } else {
      assert false;
    }
  }

  /** The action at which a creator passed its check. */
  lemma {:induction false} FindCheck(w0: World, acts: seq<Act>, n: nat, t: nat) returns (k: nat)
    requires Resting(w0) && n <= |acts| && t in At(w0, acts, n).creators.at
    requires PastEmailCheck(At(w0, acts, n).creators.at[t])
    ensures k < n && PassesCheck(At(w0, acts, k), acts[k], t)
  {
    if n == 0 {
      AtStart(w0, acts);
      assert false;
    } else {
      AtStep(w0, acts, n - 1);
      hide At, Next, Resting;
      var w := At(w0, acts, n - 1);
      NextProceeds(w, acts[n - 1], t);
      if t in w.creators.at && PastEmailCheck(w.creators.at[t]) {
        k := FindCheck(w0, acts, n - 1, t);
      } else {
        k := n - 1;
      }
    }
  }

  /** A commit that repeats a committed email was raced. */
  lemma SharedIsRaced(w0: World, acts: seq<Act>, k: nat)
    requires Resting(w0) && k < |acts| && acts[k].CreatorAct? && Commits(At(w0, acts, k), acts[k], acts[k].t)
    requires HasEmail(At(w0, acts, k), EmailAt(At(w0, acts, k), acts[k].t))
    ensures exists j :: Race(w0, acts, j, k)
  {
    hide At, Inv, HasEmail, CommitsEmail, PassesCheck;
    var k1 := FindCheck(w0, acts, k, acts[k].t);
    CommitSharesEmailIff(w0, acts, acts[k].t, k1, k);
    var j: nat :| k1 < j < k && CommitsEmail(At(w0, acts, j), acts[j], EmailAt(At(w0, acts, k), acts[k].t));
    StaysChecked(w0, acts, acts[k].t, k1, j, k);
    assert Race(w0, acts, j, k);
  }

  /** A raced commit repeats an email. */
  lemma RacedIsShared(w0: World, acts: seq<Act>, j: nat, k: nat)
    requires Inv(w0) && Race(w0, acts, j, k)
    ensures HasEmail(At(w0, acts, k), EmailAt(At(w0, acts, k), acts[k].t))
  {
    var email := EmailAt(At(w0, acts, k), acts[k].t);
    hide At, Inv, HasEmail, CommitsEmail;
    EmailSince(w0, acts, email, j, k);
    assert CommittedIn(w0, acts, email, j, k);
  }

  /** Two rows stay two rows. */
  lemma SharedStays(w0: World, acts: seq<Act>, k: nat, row: UserAuthMapping)
    requires Inv(w0) && k < |acts| && CommitsRow(At(w0, acts, k), acts[k], row)
    requires HasEmail(At(w0, acts, k), row.email)
    ensures !EmailsDistinct(w0, Run(w0, acts))
  {
    AtEnd(w0, acts);
    InvTables(w0);
    hide Inv, SameEmail, At;
    AtInv(w0, acts, k);
    InvTables(At(w0, acts, k));
    CommitAdds(w0, acts, k, row);
    RowStays(w0, acts, k + 1, |acts|, row);
    var i :| i in At(w0, acts, k).db.mappings && SameEmail(At(w0, acts, k).db.mappings[i].email, row.email);
    var other := At(w0, acts, k).db.mappings[i];
    assert MappingOk(At(w0, acts, k), i);
    RowStays(w0, acts, k, |acts|, other);
    NotBefore(w0, acts, k, row.id);
    assert SameEmail(row.email, other.email) by { hide *; SameEmailSymmetric(other.email, row.email); }
  }

  lemma SameEmailSymmetric(e: string, f: string)
    ensures SameEmail(e, f) ==> SameEmail(f, e)
  {
    hide Collate;
  }

  lemma NotBefore(w0: World, acts: seq<Act>, k: nat, i: int)
    requires Inv(w0) && k <= |acts| && i !in At(w0, acts, k).db.mappings
    ensures i !in w0.db.mappings
  {
    AtInv(w0, acts, k);
    hide Inv, At, MappingOf, MappingFor;
  }

  /** Of two rows with one email, one was committed when the other was there. */
  lemma LaterCommit(w0: World, acts: seq<Act>, row: UserAuthMapping, other: UserAuthMapping) returns (k: nat)
    requires Inv(w0) && row.id != other.id && row.id !in w0.db.mappings && SameEmail(row.email, other.email)
    requires RowIn(Run(w0, acts), row) && RowIn(Run(w0, acts), other)
    ensures k < |acts| && (CommitsRow(At(w0, acts, k), acts[k], row) || CommitsRow(At(w0, acts, k), acts[k], other))
    ensures HasEmail(At(w0, acts, k), row.email) && HasEmail(At(w0, acts, k), other.email)
  {
    AtEnd(w0, acts);
    AtStart(w0, acts);
    SameEmailSymmetric(row.email, other.email);
    hide At, Inv, Run, Collate;
    k := FindCommit(w0, acts, |acts|, row);
    if RowIn(At(w0, acts, k), other) {
      BothEmails(At(w0, acts, k), other, row.email);
    } else {
      NotYet(w0, acts, 0, k, other);
      var k' := FindCommit(w0, acts, |acts|, other);
      CommitAdds(w0, acts, k, row);
      CommitAdds(w0, acts, k', other);
      if k' < k { RowStays(w0, acts, k' + 1, k, other); }
      assert k < k';
      RowStays(w0, acts, k + 1, k', row);
      k := k';
      BothEmails(At(w0, acts, k), row, other.email);
    }
  }

  /** A row that comes to be in the table was not there under other columns. */
  lemma NotYet(w0: World, acts: seq<Act>, j: nat, k: nat, row: UserAuthMapping)
    requires Inv(w0) && j <= k <= |acts| && RowIn(At(w0, acts, |acts|), row) && !RowIn(At(w0, acts, k), row)
    ensures row.id !in At(w0, acts, j).db.mappings
  {
    hide At, Inv, MappingOf, MappingFor;
    AtGrows(w0, acts, j, k);
    AtGrows(w0, acts, k, |acts|);
  }

  lemma BothEmails(w: World, row: UserAuthMapping, email: string)
    requires RowIn(w, row) && SameEmail(row.email, email) && SameEmail(email, row.email)
    ensures HasEmail(w, email) && HasEmail(w, row.email)
  {
    hide Collate;
  }

  /** Started at rest, created emails stay distinct if and only if no creator commits an email
      while another one that goes on to commit it is already past its check. */
  lemma {:induction false} EmailsDistinctIff(w0: World, acts: seq<Act>)
    requires Resting(w0)
    ensures EmailsDistinct(w0, Run(w0, acts)) <==> !exists j, k :: Race(w0, acts, j, k)
  {
    hide At, Run, Inv, HasEmail, SameEmail, CommitsEmail;
    if j: nat, k: nat :| Race(w0, acts, j, k) {
      RacedIsShared(w0, acts, j, k);
      SharedStays(w0, acts, k, At(w0, acts, k).creators.at[acts[k].t].mapping);
    }
    if !EmailsDistinct(w0, Run(w0, acts)) { SharedHasRace(w0, acts); }
  }

  lemma SharedHasRace(w0: World, acts: seq<Act>)
    requires Resting(w0) && !EmailsDistinct(w0, Run(w0, acts))
    ensures exists j, k :: Race(w0, acts, j, k)
  {
    RunInv(w0, acts);
    InvTables(Run(w0, acts));
    hide At, Run, Inv, HasEmail, SameEmail, CommitsEmail;
    var w := Run(w0, acts);
    var i, j :| i in w.db.mappings && i !in w0.db.mappings && j in w.db.mappings
                && SameEmail(w.db.mappings[i].email, w.db.mappings[j].email) && i != j;
    assert MappingOk(w, i) && MappingOk(w, j);
    var k := LaterCommit(w0, acts, w.db.mappings[i], w.db.mappings[j]);
    SharedIsRaced(w0, acts, k);
  }

  // ----- One call at a time -----

  /** No two `CreateUser` calls are in progress. */
  ghost predicate OneCreator(w: World) {
    forall s, t | s in w.creators.at && t in w.creators.at
                  && !w.creators.at[s].CDone? && !w.creators.at[t].CDone? :: s == t
  }

  /** Hence, when no two `CreateUser` calls overlap, no created mapping shares its email. */
  lemma {:induction false} SerialCreatesHaveDistinctEmails(w0: World, acts: seq<Act>)
    requires Resting(w0) && forall k: nat | k < |acts| :: OneCreator(At(w0, acts, k))
    ensures EmailsDistinct(w0, Run(w0, acts))
  {
    hide At, Run, Resting, EmailsDistinct, SameEmail;
    EmailsDistinctIff(w0, acts);
    if j: nat, k: nat :| Race(w0, acts, j, k) {
      assert OneCreator(At(w0, acts, j));
      OtherCommits(w0, acts, acts[k].t, EmailAt(At(w0, acts, k), acts[k].t), j, k);
    }
  }
}
