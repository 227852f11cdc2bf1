/** Main results on the rows of `users`, over every run: no lost updates, and how stable a
    market is. */
module RowRuns {
  import opened Model
  import opened Text
  import opened World
  import opened MappingTable
  import opened Tables
  import opened ProfileUpdate
  import opened Runs
  import opened RowWrites

  // ----- No lost updates -----

  /** The UPDATEs on the row of `u`, in the order of the run. */
  ghost function Statements(w0: World, acts: seq<Act>, u: int): seq<Write> {
    if acts == [] then []
    else
      var n := |acts| - 1;
      var rest := Statements(w0, acts[..n], u);
      var s := StatementOn(Run(w0, acts[..n]), acts[n], u);
      if s.None? then rest else rest + [s.value]
  }

  /** What a statement writes to a column, if it writes it. */
  function NameIn(s: Write): Option<string> {
    if s.SetProfile? && s.patch.name != "" then Some(s.patch.name) else None
  }

  function LanguageIn(s: Write): Option<string> {
    if s.SetProfile? && s.patch.language != "" then Some(s.patch.language) else None
  }

  function MarketIn(s: Write): Option<string> {
    if s.SetProfile? && s.patch.market != "" then Some(s.patch.market) else None
  }

  function StatusIn(s: Write): Option<string> {
    if s.SetKyc? then Some(s.status) else None
  }

  /** `value` is what the last statement that writes the column wrote, or else the initial one. */
  ghost predicate LastWritten(ss: seq<Write>, column: Write -> Option<string>, value: string, initial: string) {
    || (exists i: nat | i < |ss| :: column(ss[i]) == Some(value) && forall j | i < j < |ss| :: column(ss[j]) == None)
    || (value == initial && forall i | 0 <= i < |ss| :: column(ss[i]) == None)
  }

  ghost predicate ColumnsLastWritten(ss: seq<Write>, row: User, initial: User) {
    && LastWritten(ss, NameIn, row.name, initial.name)
    && LastWritten(ss, LanguageIn, row.language, initial.language)
    && LastWritten(ss, MarketIn, row.market, initial.market)
    && LastWritten(ss, StatusIn, row.kycStatus, initial.kycStatus)
    && row == initial.(name := row.name, language := row.language, market := row.market, kycStatus := row.kycStatus)
  }

  lemma LastWrittenStep(ss: seq<Write>, s: Write, column: Write -> Option<string>, value: string, initial: string)
    requires LastWritten(ss, column, value, initial)
    ensures LastWritten(ss + [s], column, if column(s).Some? then column(s).value else value, initial)
  {
    var ss' := ss + [s];
    if column(s).Some? {
      assert column(ss'[|ss|]) == column(s);
    } else if i: nat :| i < |ss| && column(ss[i]) == Some(value) && forall j | i < j < |ss| :: column(ss[j]) == None {
      assert column(ss'[i]) == Some(value);
    }
  }

  lemma ColumnsStep(ss: seq<Write>, s: Write, row: User, initial: User)
    requires ColumnsLastWritten(ss, row, initial) && s != Inserted
    ensures ColumnsLastWritten(ss + [s], ApplyWrite(row, s), initial)
  {
    hide LastWritten;
    LastWrittenStep(ss, s, NameIn, row.name, initial.name);
    LastWrittenStep(ss, s, LanguageIn, row.language, initial.language);
    LastWrittenStep(ss, s, MarketIn, row.market, initial.market);
    LastWrittenStep(ss, s, StatusIn, row.kycStatus, initial.kycStatus);
  }

  /** For every interleaving of updates and KYC callbacks, from any state: each column of a row
      is what the last UPDATE writing that column wrote; profile updates never touch the KYC
      status, and nothing touches id, creation time, segment or risk level. */
  lemma {:induction false} NoLostUpdates(w0: World, acts: seq<Act>, u: int)
    requires Inv(w0) && u in w0.db.users
    ensures u in Run(w0, acts).db.users
    ensures ColumnsLastWritten(Statements(w0, acts, u), Row(Run(w0, acts).db.users[u]), Row(w0.db.users[u]))
  {
    if acts != [] {
      var n := |acts| - 1;
      RunInv(w0, acts[..n]);
      assert Run(w0, acts) == Next(Run(w0, acts[..n]), acts[n]);
      hide Run, Next, Grows, TableInv, Row, StatementOn, ColumnsLastWritten;
      NoLostUpdates(w0, acts[..n], u);
      var w := Run(w0, acts[..n]);
      NextWrites(w, acts[n], u);
      if StatementOn(w, acts[n], u).Some? {
        StatementIsUpdate(w, acts[n], u);
        ColumnsStep(Statements(w0, acts[..n], u), StatementOn(w, acts[n], u).value, Row(w.db.users[u]),
                    Row(w0.db.users[u]));
      }
    }
  }

  lemma StatementIsUpdate(w: World, a: Act, u: int)
    ensures StatementOn(w, a, u) != Some(Inserted)
  {
    hide PendingOf, KycStatusOf;
  }

  // ----- Market stability -----

  lemma ColumnsKeepMarket(ss: seq<Write>, row: User, initial: User)
    requires ColumnsLastWritten(ss, row, initial)
    ensures initial.market != "" ==> row.market != ""
  {
  }

  lemma CurrentMarketOk(w: World, u: int)
    requires TableInv(w) && u in w.db.users
    ensures Row(w.db.users[u]).market == "" || Row(w.db.users[u]).market in MARKETS
  {
    hide TrimSpace, IsOneOf, ApplyWrite;
    assert RowOk(w, u) && RevOk(w.db.users[u], Top(w.db.users[u]), u, w.now);
  }

  /** Under every interleaving, a market once set stays set and valid. */
  lemma MarketStaysSet(w0: World, acts: seq<Act>, u: int)
    requires Inv(w0) && u in w0.db.users
    ensures var w := Run(w0, acts);
            && u in w.db.users
            && (Row(w.db.users[u]).market == "" || Row(w.db.users[u]).market in MARKETS)
            && (Row(w0.db.users[u]).market != "" ==> Row(w.db.users[u]).market != "")
  {
    RunInv(w0, acts);
    hide Run, Grows, MarketOk, TableInv, Row, ColumnsLastWritten;
    NoLostUpdates(w0, acts, u);
    CurrentMarketOk(Run(w0, acts), u);
    ColumnsKeepMarket(Statements(w0, acts, u), Row(Run(w0, acts).db.users[u]), Row(w0.db.users[u]));
  }

  /** An update whose read saw a market does not change the market. */
  lemma {:induction false} SeenMarketIsKept(w0: World, acts: seq<Act>, u: int, k: nat)
    requires Inv(w0) && u in Run(w0, acts).db.users && 0 < k < |Run(w0, acts).db.users[u]|
    ensures var revs := Run(w0, acts).db.users[u];
            revs[k].seen < k && (revs[revs[k].seen].row.market != "" ==> revs[k].row.market == revs[k - 1].row.market)
  {
    RunInv(w0, acts);
    hide Run, Grows, MarketOk, ApplyWrite;
    assert RowOk(Run(w0, acts), u) && RevOk(Run(w0, acts).db.users[u], k, u, Run(w0, acts).now);
  }

  predicate ChangesMarket(revs: Revs, j: nat) {
    0 < j < |revs| && revs[j].row.market != revs[j - 1].row.market
  }

  lemma {:induction false} FirstChange(revs: Revs, i: nat, k: nat) returns (j: nat)
    requires i <= k < |revs| && revs[i].row.market != revs[k].row.market
    ensures i < j <= k && ChangesMarket(revs, j)
  {
    if revs[k - 1].row.market != revs[k].row.market { j := k; } else { j := FirstChange(revs, i, k - 1); }
  }

  /** A market that is set is not unset. */
  lemma {:induction false} StaysSet(revs: Revs, u: int, now: int, j: nat, k: nat)
    requires forall i: nat | i < |revs| :: RevOk(revs, i, u, now)
    requires j <= k < |revs| && revs[j].row.market != ""
    ensures revs[k].row.market != ""
  {
    hide MarketOk;
    if j < k {
      StaysSet(revs, u, now, j, k - 1);
      assert RevOk(revs, k, u, now);
    }
  }

  /** The statement of state `k` sets another market than the row had. */
  predicate SetsOther(revs: Revs, k: nat)
    requires 0 < k < |revs|
  {
    revs[k].write.SetProfile? && revs[k].write.patch.market != ""
    && revs[k].write.patch.market != revs[k - 1].row.market
  }

  /** Between the read and the write of the handler that wrote state `k`, the market changed. */
  ghost predicate Raced(revs: Revs, k: nat)
    requires 0 < k < |revs|
  {
    exists j: nat :: revs[k].seen < j < k && ChangesMarket(revs, j)
  }

  lemma ChangeIff(revs: Revs, k: nat, u: int, now: int)
    requires 0 < k < |revs| && forall i: nat | i < |revs| :: RevOk(revs, i, u, now)
    ensures ChangesMarket(revs, k) && revs[k - 1].row.market != "" <==> SetsOther(revs, k) && Raced(revs, k)
  {
    hide MarketOk;
    assert RevOk(revs, k, u, now);
    if ChangesMarket(revs, k) && revs[k - 1].row.market != "" {
      var j := FirstChange(revs, revs[k].seen, k - 1);
    }
    if SetsOther(revs, k) && Raced(revs, k) {
      var j: nat :| revs[k].seen < j < k && ChangesMarket(revs, j);
      assert RevOk(revs, j, u, now);
      StaysSet(revs, u, now, j, k - 1);
    }
  }

  /** Under every interleaving, a statement overwrites a set market if and only if it sets
      another market and, between the read and the write of its handler, another statement
      changed the market. */
  lemma {:induction false} MarketOverwrittenIff(w0: World, acts: seq<Act>, u: int, k: nat)
    requires Inv(w0) && u in Run(w0, acts).db.users && 0 < k < |Run(w0, acts).db.users[u]|
    ensures var revs := Run(w0, acts).db.users[u];
            ChangesMarket(revs, k) && revs[k - 1].row.market != "" <==> SetsOther(revs, k) && Raced(revs, k)
  {
    RunInv(w0, acts);
    assert RowOk(Run(w0, acts), u);
    hide Run, Grows, TableInv, RevOk, SetsOther, Raced, ChangesMarket;
    ChangeIff(Run(w0, acts).db.users[u], k, u, Run(w0, acts).now);
  }

  /** No two `UpdateProfile` calls for `u` are between their start and their write. */
  ghost predicate OneUpdater(w: World, u: int) {
    forall s, t | s in w.updaters.at && t in w.updaters.at && Updating(w.updaters.at[s], u)
                  && Updating(w.updaters.at[t], u) :: s == t
  }

  predicate Updating(c: Updater, u: int) { (c.UGet? || c.UWrite?) && c.userId == u }

  /** A market about to be written finds none in the row. */
  ghost predicate MarketFree(w: World, u: int) {
    u in w.db.users ==>
      forall t | t in w.updaters.at && w.updaters.at[t].UWrite? && w.updaters.at[t].userId == u ::
        w.updaters.at[t].patch.market != "" ==> Row(w.db.users[u]).market == ""
  }

  ghost predicate MarketKept(w: World, w': World, u: int) {
    u in w.db.users ==>
      && u in w'.db.users
      && (Row(w.db.users[u]).market != "" ==> Row(w'.db.users[u]).market == Row(w.db.users[u]).market)
  }

  lemma ReadKeepsMarket(w: World, t: nat, ok: bool, u: int)
    requires TableInv(w) && MarketFree(w, u) && t in w.updaters.at && w.updaters.at[t].UGet?
    ensures MarketFree(NextUpdater(w, t, ok), u) && MarketKept(w, NextUpdater(w, t, ok), u)
  {
    hide BuildPatch, TrimSpace, MarketOk, ApplyWrite;
    var c := w.updaters.at[t];
    if ok && c.userId == u && u in w.db.users {
      assert RowOk(w, u) && RevOk(w.db.users[u], Top(w.db.users[u]), u, w.now);
      PatchMarket(Row(w.db.users[u]).market, c.req);
      TrimmedMarket(Row(w.db.users[u]).market);
    }
  }

  lemma TrimmedMarket(market: string)
    requires MarketOk(market)
    ensures TrimSpace(market) == "" ==> market == ""
  {
    hide TrimSpace, IsOneOf;
  }

  lemma UpdaterKeepsMarket(w: World, t: nat, ok: bool, u: int)
    requires TableInv(w) && MarketFree(w, u) && OneUpdater(w, u) && t in w.updaters.at
    ensures MarketFree(NextUpdater(w, t, ok), u) && MarketKept(w, NextUpdater(w, t, ok), u)
  {
    hide BuildPatch, TrimSpace, TableInv;
    match w.updaters.at[t] {
      case UGet(_, _) => ReadKeepsMarket(w, t, ok, u);
      case UWrite(v, _, _) => if ok { if v == u {} }
      case UDel(_, _) =>
      case UDone(_) =>
    }
  }

  lemma CallbackKeepsMarket(w: World, t: nat, ok: bool, info: Option<UserInfo>, u: int)
    requires MarketFree(w, u) && t in w.callbacks.at
    ensures MarketFree(NextCallback(w, t, ok, info), u) && MarketKept(w, NextCallback(w, t, ok, info), u)
  {
    CallbackFrame(w, t, ok, info);
    if u in w.db.users { CallbackWrites(w, t, ok, info, u); }
    hide NextCallback, KycStatusOf, PendingOf;
  }

  lemma CommitKeepsMarket(w: World, t: nat, name: string, u: int)
    requires TableInv(w) && MarketFree(w, u) && t in w.creators.at && w.creators.at[t].CCommit?
    ensures MarketFree(NextCreator(w, t, true, name), u) && MarketKept(w, NextCreator(w, t, true, name), u)
  {
    hide First, Collate;
    assert TxOk(w, w.creators.at[t]);
    if u in w.db.users { CommitKeepsRow(w, t, name, u); }
  }

  lemma NextKeepsMarket(w: World, a: Act, u: int)
    requires TableInv(w) && MarketFree(w, u) && OneUpdater(w, u)
    ensures MarketFree(Next(w, a), u) && MarketKept(w, Next(w, a), u)
  {
    NextFrame(w, a);
    hide NextUpdater, NextCallback, NextCreator, MappingFor, TableInv, OneUpdater, Row, RowsGrow;
    if Idle(w, a) {
    } else {
      match a {
        case UpdaterAct(t, ok) => UpdaterKeepsMarket(w, t, ok, u);
        case CallbackAct(t, ok, info) => CallbackKeepsMarket(w, t, ok, info, u);
        case CreatorAct(t, ok, name) => if Commits(w, a, t) { CommitKeepsMarket(w, t, name, u); } else { hide Next; }
        case SpawnUpdater(_, _, _) =>
        case _ => hide Next;
      }
    }
  }

  ghost predicate OneUpdaterAtATime(w0: World, acts: seq<Act>, u: int) {
    forall k: nat | k < |acts| :: OneUpdater(At(w0, acts, k), u)
  }

  lemma {:induction false} RunKeepsMarket(w0: World, acts: seq<Act>, u: int, k: nat)
    requires Resting(w0) && OneUpdaterAtATime(w0, acts, u) && k <= |acts|
    ensures MarketFree(At(w0, acts, k), u)
    ensures k > 0 ==> MarketKept(At(w0, acts, k - 1), At(w0, acts, k), u)
  {
    AtStart(w0, acts);
    hide At, Run, Next, Grows, TableInv, OneUpdater, MarketKept, Row;
    if k > 0 {
      hide MarketFree;
      AtInv(w0, acts, k - 1);
      AtStep(w0, acts, k - 1);
      RunKeepsMarket(w0, acts, u, k - 1);
      assert OneUpdater(At(w0, acts, k - 1), u);
      NextKeepsMarket(At(w0, acts, k - 1), acts[k - 1], u);
    }
  }

  /** When no two `UpdateProfile` calls for `u` overlap, its market is write-once over the whole
      run, however KYC callbacks, reads and other users' calls interleave. */
  lemma {:induction false} SerialMarketIsWriteOnce(w0: World, acts: seq<Act>, u: int, j: nat, k: nat)
    requires Resting(w0) && OneUpdaterAtATime(w0, acts, u) && j <= k <= |acts|
    ensures MarketKept(At(w0, acts, j), At(w0, acts, k), u)
    decreases k
  {
    RunKeepsMarket(w0, acts, u, k);
    hide At, Resting, OneUpdater, Row;
    if j < k {
      SerialMarketIsWriteOnce(w0, acts, u, j, k - 1);
    }
  }
}
