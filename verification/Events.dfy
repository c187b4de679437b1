/** The event log tells the status of every account. */
module Events {
  import opened Base
  import opened Accounts
  import opened Environment
  import opened Lifecycle
  import opened StepLaws

  /** What a listener makes of the log: creation and deletion reset a status, a change sets it. */
  function Replay(log: seq<Event>, id: Uuid): Status {
    if log == [] then NONE
    else
      var before := Replay(log[..|log| - 1], id);
      match log[|log| - 1]
      case Created(i) => if i == id then NONE else before
      case Deleted(i) => if i == id then NONE else before
      case Modified(_) => before
      case StatusChanged(i, _, now) => if i == id then now else before
  }

  /** Every announced change starts from the status replayed so far and is a change. */
  ghost predicate Faithful(log: seq<Event>) {
    forall k | 0 <= k < |log| && log[k].StatusChanged? ::
      log[k].was == Replay(log[..k], log[k].id) && log[k].was != log[k].now
  }

  /** The log is faithful and replays to exactly the status kept for every id. */
  ghost predicate Replays(log: seq<Event>, status: map<Uuid, Status>) {
    Faithful(log) && forall id :: Replay(log, id) == StatusOf(status, id)
  }

  lemma FaithfulAppend(log: seq<Event>, e: Event)
    requires Faithful(log)
    requires e.StatusChanged? ==> e.was == Replay(log, e.id) && e.was != e.now
    ensures Faithful(log + [e])
  {
    var all := log + [e];
    forall k | 0 <= k < |all| && all[k].StatusChanged?
      ensures all[k].was == Replay(all[..k], all[k].id) && all[k].was != all[k].now
    {
      if k < |log| {
        assert all[..k] == log[..k];
      } else {
        assert all[..k] == log;
      }
    }
  }

  lemma ReplayAppend(log: seq<Event>, e: Event, id: Uuid)
    ensures Replay(log + [e], id) ==
      if e.id != id || e.Modified? then Replay(log, id)
      else if e.StatusChanged? then e.now else NONE
  {
    assert (log + [e])[..|log|] == log;
  }

  /** One more event, with the statuses changed to match. */
  lemma ReplaysAppend(log: seq<Event>, status: map<Uuid, Status>, e: Event, status': map<Uuid, Status>)
    requires Replays(log, status)
    requires e.StatusChanged? ==> e.was == StatusOf(status, e.id) && e.was != e.now
    requires forall id | id != e.id :: StatusOf(status', id) == StatusOf(status, id)
    requires StatusOf(status', e.id) ==
      if e.Modified? then StatusOf(status, e.id) else if e.StatusChanged? then e.now else NONE
    ensures Replays(log + [e], status')
  {
    FaithfulAppend(log, e);
    forall id ensures Replay(log + [e], id) == StatusOf(status', id) {
      ReplayAppend(log, e, id);
      assert Replay(log, id) == StatusOf(status, id);
    }
  }

  lemma ReplaysReset(log: seq<Event>, status: map<Uuid, Status>, id: Uuid)
    requires Replays(log, status)
    ensures Replays(log + ResetEvents(status, id), status[id := NONE])
  {
    if StatusOf(status, id) != NONE {
      ReplaysAppend(log, status, StatusChanged(id, StatusOf(status, id), NONE), status[id := NONE]);
    } else {
      assert log + [] == log;
      assert forall i :: StatusOf(status[id := NONE], i) == StatusOf(status, i);
    }
  }

  lemma SetStatusReplays(cfg: Config, w: World, id: Uuid, now: Status)
    requires Replays(w.log, w.status)
    ensures
      var s := SetStatus(cfg, w, id, now);
      Replays(s.world.log, s.world.status)
  {
    var r := ReadAccount(cfg, w, id, NEW_ACCOUNT);
    if r.ok {
      var key := r.account.id;
      var was := StatusOf(w.status, key);
      if was != now {
        ReplaysAppend(w.log, w.status, StatusChanged(key, was, now), w.status[key := now]);
      } else {
        assert forall i :: StatusOf(w.status[key := now], i) == StatusOf(w.status, i);
      }
    }
  }

  lemma {:induction false} CreateReplays(cfg: Config, w: World, account: Account, newId: Uuid)
    requires WellKept(w.dirs) && Unused(w, newId) && Replays(w.log, w.status)
    ensures
      var o := Create(cfg, w, account, newId);
      Replays(o.world.log, o.world.status)
  {
    CreateOutcome(cfg, w, account, newId);
    ReplaysAppend(w.log, w.status, Created(newId), w.status[newId := NONE]);
  }

  lemma {:induction false} ModifyReplays(cfg: Config, w: World, id: Uuid, account: Account)
    requires WellKept(w.dirs) && UserFirst(w.dirs) && Replays(w.log, w.status)
    ensures
      var o := Modify(cfg, w, id, account);
      Replays(o.world.log, o.world.status)
  {
    ModifyOutcome(cfg, w, id, account);
    ReplaysReset(w.log, w.status, id);
    ReplaysAppend(w.log + ResetEvents(w.status, id), w.status[id := NONE], Modified(id), w.status[id := NONE]);
  }

  lemma DeleteReplays(cfg: Config, w: World, id: Uuid)
    requires WellKept(w.dirs) && Replays(w.log, w.status)
    ensures
      var s := Delete(cfg, w, id);
      Replays(s.world.log, s.world.status)
  {
    DeleteOutcome(cfg, w, id);
    ReplaysAppend(w.log, w.status, Deleted(id), w.status - {id});
  }
}
