/** The UPDATE statements of a step and their effect on a row. */
module RowWrites {
  import opened Model
  import opened World
  import opened MappingTable
  import opened Tables
  import opened ProfileUpdate
  import opened StateStore
  import opened KycEmail

  /** The UPDATE this action performs on the row of `u`, read off the action and the program
      counter of the thread that takes it. */
  function StatementOn(w: World, a: Act, u: int): Option<Write> {
    match a
    case UpdaterAct(t, true) =>
      if t in w.updaters.at && w.updaters.at[t].UWrite? && w.updaters.at[t].userId == u
      then Some(SetProfile(w.updaters.at[t].patch)) else None
    case CallbackAct(t, true, _) =>
      if t in w.callbacks.at && w.callbacks.at[t].KWrite? && PendingOf(w, w.callbacks.at[t].consume).internalUserId == u
      then Some(SetKyc(KycStatusOf(w.callbacks.at[t].info))) else None
    case _ => None
  }

  lemma CommitKeepsRow(w: World, t: nat, name: string, u: int)
    requires TableInv(w) && t in w.creators.at && w.creators.at[t].CCommit? && u in w.db.users
    ensures u in NextCreator(w, t, true, name).db.users && NextCreator(w, t, true, name).db.users[u] == w.db.users[u]
  {
    hide First, Collate;
    assert TxOk(w, w.creators.at[t]);
  }

  lemma UpdaterWrites(w: World, t: nat, ok: bool, u: int)
    requires t in w.updaters.at && u in w.db.users
    ensures var s := StatementOn(w, UpdaterAct(t, ok), u);
            var w' := NextUpdater(w, t, ok);
            && u in w'.db.users
            && Row(w'.db.users[u]) == if s.None? then Row(w.db.users[u]) else ApplyWrite(Row(w.db.users[u]), s.value)
  {
    hide ApplyWrite, BuildPatch;
    match w.updaters.at[t] {
      case UWrite(_, _, _) => if ok {}
      case UGet(_, _) =>
      case UDel(_, _) =>
      case UDone(_) =>
    }
  }

  lemma CallbackWrites(w: World, t: nat, ok: bool, info: Option<UserInfo>, u: int)
    requires t in w.callbacks.at && u in w.db.users
    ensures var s := StatementOn(w, CallbackAct(t, ok, info), u);
            var w' := NextCallback(w, t, ok, info);
            && u in w'.db.users
            && Row(w'.db.users[u]) == if s.None? then Row(w.db.users[u]) else ApplyWrite(Row(w.db.users[u]), s.value)
  {
    hide ApplyWrite, Consumable, KycStatusOf, PendingOf, EmailsMatchForKyc, DeleteProfile, Lost;
    match w.callbacks.at[t] {
      case KConsume(state) => if Consumable(w.store.log, state, w.now).Some? {}
      case KToken(_) =>
      case KInfo(_) =>
      case KWrite(_, _) => if ok {}
      case KDel(_, _, _) =>
      case KPub(_) => if ok {}
      case KDone(_) =>
    }
  }

  lemma NextWrites(w: World, a: Act, u: int)
    requires TableInv(w) && u in w.db.users
    ensures var s := StatementOn(w, a, u);
            && u in Next(w, a).db.users
            && Row(Next(w, a).db.users[u]) == if s.None? then Row(w.db.users[u])
                                                   else ApplyWrite(Row(w.db.users[u]), s.value)
  {
    NextFrame(w, a);
    hide NextUpdater, NextCallback, NextCreator, TableInv, ApplyWrite, Row, PendingOf, KycStatusOf;
    if Idle(w, a) {
    } else {
      match a {
        case UpdaterAct(t, ok) => UpdaterWrites(w, t, ok, u);
        case CallbackAct(t, ok, info) => CallbackWrites(w, t, ok, info, u);
        case CreatorAct(t, ok, name) => if Commits(w, a, t) { CommitKeepsRow(w, t, name, u); } else { hide Next; }
        case _ => hide Next;
      }
    }
  }
}
