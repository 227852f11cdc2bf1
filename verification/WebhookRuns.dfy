/** Where created rows come from: main result over every run of duplicate and concurrent
    deliveries. */
module WebhookRuns {
  import opened Model
  import opened World
  import opened MappingTable
  import opened Tables
  import opened ClerkEmail
  import opened Runs
  import opened EmailRuns

  /** The Clerk id and email a delivery carries up to its commit. */
  function Carries(c: Creator): Option<(string, string)> {
    match c
    case CLook(l, email, _) => Some((l.clerk, email))
    case CEmail(clerk, email) => Some((clerk, email))
    case CUser(clerk, email) => Some((clerk, email))
    case CDelBefore(clerk, email, _) => Some((clerk, email))
    case CMapping(clerk, email, _) => Some((clerk, email))
    case CDelAfter(_, mapping) => Some((mapping.clerkUserId, mapping.email))
    case CCommit(_, mapping) => Some((mapping.clerkUserId, mapping.email))
    case _ => None
  }

  /** The delivery starts with what the webhook says. */
  predicate Delivers(w: World, a: Act, t: nat, carried: (string, string)) {
    && a.SpawnCreator? && a.t == t && t !in w.creators.at && a.data.Some?
    && carried == (a.data.value.id, SelectEmail(a.data)) && carried.1 != ""
  }

  /** The delivery inserts this user. */
  predicate Inserts(w: World, a: Act, t: nat, user: User) {
    && a.CreatorAct? && a.t == t && a.ok && t in w.creators.at && w.creators.at[t].CUser?
    && user == User(w.db.nextUser, a.name, "", "", "", "PENDING", "", w.now)
  }

  lemma CreatorCarries(w: World, t: nat, ok: bool, name: string)
    requires t in w.creators.at
    ensures var c, c' := w.creators.at[t], NextCreator(w, t, ok, name).creators.at[t];
            && (Carries(c').Some? ==> Carries(c) == Carries(c'))
            && (c'.Open() ==> (c.Open() && c.user == c'.user) || Inserts(w, CreatorAct(t, ok, name), t, c'.user))
  {
    hide MappingFor, KeyLocked, First, LookupCache;
    match w.creators.at[t] {
      case CLook(l, _, _) =>
        if l.LDone? {} else if l.LFailed? {} else {
          match l {
            case LGet(_) =>
            case _ =>
          }
        }
      case CMapping(c, _, _) => if !ok {} else if KeyLocked(w, t, c) {} else if MappingFor(w, c).Some? {}
      case _ =>
    }
  }

  lemma NextCarries(w: World, a: Act, t: nat)
    requires t in Next(w, a).creators.at
    ensures var c' := Next(w, a).creators.at[t];
            && (Carries(c').Some? ==>
                  (t in w.creators.at && Carries(w.creators.at[t]) == Carries(c'))
                      || Delivers(w, a, t, Carries(c').value))
            && (c'.Open() ==>
                  || (t in w.creators.at && w.creators.at[t].Open() && w.creators.at[t].user == c'.user)
                  || Inserts(w, a, t, c'.user))
  {
    NextFrame(w, a);
    hide RowsGrow, NextCreator, MappingFor, SelectEmail;
    if a.CreatorAct? && !Idle(w, a) {
      CreatorFrame(w, a.t, a.ok, a.name);
      if a.t == t { CreatorCarries(w, t, a.ok, a.name); }
    } else if a.SpawnCreator? {
      NoWebhookNoEmail();
    } else {
      hide Next;
    }
  }

  lemma NoWebhookNoEmail()
    ensures SelectEmail(None) == ""
  {
  }

  lemma {:induction false} FindDelivery(w0: World, acts: seq<Act>, n: nat, t: nat) returns (s: nat)
    requires Resting(w0) && n <= |acts| && t in At(w0, acts, n).creators.at
    requires Carries(At(w0, acts, n).creators.at[t]).Some?
    ensures s < n && Delivers(At(w0, acts, s), acts[s], t, Carries(At(w0, acts, n).creators.at[t]).value)
  {
    AtStart(w0, acts);
    hide At, Run, Next, Inv, Delivers, Inserts;
    if n > 0 {
      AtStep(w0, acts, n - 1);
      var w := At(w0, acts, n - 1);
      NextCarries(w, acts[n - 1], t);
      if t in w.creators.at && Carries(w.creators.at[t]) == Carries(At(w0, acts, n).creators.at[t]) {
        s := FindDelivery(w0, acts, n - 1, t);
      } else {
        s := n - 1;
      }
    } else {
      assert false;
    }
  }

  lemma {:induction false} FindInsert(w0: World, acts: seq<Act>, n: nat, t: nat) returns (i: nat)
    requires Resting(w0) && n <= |acts| && t in At(w0, acts, n).creators.at && At(w0, acts, n).creators.at[t].Open()
    ensures i < n && Inserts(At(w0, acts, i), acts[i], t, At(w0, acts, n).creators.at[t].user)
  {
    AtStart(w0, acts);
    hide At, Run, Next, Inv, Delivers, Inserts, Carries;
    if n > 0 {
      AtStep(w0, acts, n - 1);
      var w := At(w0, acts, n - 1);
      NextCarries(w, acts[n - 1], t);
      if t in w.creators.at && w.creators.at[t].Open() && w.creators.at[t].user == At(w0, acts, n).creators.at[t].user {
        i := FindInsert(w0, acts, n - 1, t);
      } else {
        i := n - 1;
      }
    } else {
      assert false;
    }
  }

  lemma CommitInserts(w: World, a: Act, row: UserAuthMapping)
    requires TableInv(w) && CommitsRow(w, a, row)
    ensures var user := w.creators.at[a.t].user;
            && row.internalUserId == user.id && user.id in Next(w, a).db.users
            && |Next(w, a).db.users[user.id]| == 1 && Next(w, a).db.users[user.id][0].row == user
  {
    hide MappingFor;
    assert TxOk(w, w.creators.at[a.t]);
  }

  lemma FirstStateStays(w: World, w': World, u: int)
    requires Grows(w, w') && u in w.db.users
    ensures u in w'.db.users && w'.db.users[u][0] == w.db.users[u][0]
  {
    hide MappingOf, MappingFor;
    assert w.db.users[u] <= w'.db.users[u];
  }

  /** What a commit puts in the tables, from then on. */
  lemma CommittedUser(w0: World, acts: seq<Act>, k: nat, row: UserAuthMapping)
    requires Inv(w0) && k < |acts| && CommitsRow(At(w0, acts, k), acts[k], row)
    ensures var user := At(w0, acts, k).creators.at[acts[k].t].user;
            && row.internalUserId == user.id && user.id in Run(w0, acts).db.users
            && Run(w0, acts).db.users[user.id][0].row == user
  {
    var user := At(w0, acts, k).creators.at[acts[k].t].user;
    hide At, Run, Inv, Next, Grows, TableInv, CommitsRow;
    AtInv(w0, acts, k);
    AtInv(w0, acts, k + 1);
    AtStep(w0, acts, k);
    InvTables(At(w0, acts, k));
    CommitInserts(At(w0, acts, k), acts[k], row);
    FirstStateStays(At(w0, acts, k + 1), Run(w0, acts), user.id);
  }

  /** Every mapping created in the run was committed by a delivery that carried that Clerk id and,
      chosen by the rule, that email, and that had inserted the user it names: with the name
      given, nothing else set, status PENDING, and created at that time. */
  lemma {:induction false} CreatedFromWebhook(w0: World, acts: seq<Act>, row: UserAuthMapping)
    returns (s: nat, i: nat, k: nat)
    requires Resting(w0) && RowIn(Run(w0, acts), row) && row.id !in w0.db.mappings
    ensures s < k < |acts| && i < k && CommitsRow(At(w0, acts, k), acts[k], row)
    ensures acts[s].SpawnCreator? && acts[s].t == acts[k].t && acts[s].data.Some?
    ensures row.clerkUserId == acts[s].data.value.id && row.email != "" && Chosen(acts[s].data.value, row.email)
    ensures acts[i].CreatorAct? && acts[i].t == acts[k].t
    ensures row.internalUserId in Run(w0, acts).db.users
    ensures Run(w0, acts).db.users[row.internalUserId][0].row ==
            User(row.internalUserId, acts[i].name, "", "", "", "PENDING", "", At(w0, acts, i).now)
  {
    AtEnd(w0, acts);
    hide At, Run, Next, Inv, SelectEmail, Chosen;
    k := FindCommit(w0, acts, |acts|, row);
    s := FindDelivery(w0, acts, k, acts[k].t);
    i := FindInsert(w0, acts, k, acts[k].t);
    CommittedUser(w0, acts, k, row);
    SelectedIsChosen(acts[s].data.value);
  }
}
