/** Cancelling a run: the loop over its dispatches never fails and leaves no work behind. */
module TeamCancel {
  import opened Common
  import opened TeamModel
  import opened TeamDependencies
  import opened TeamInvariant
  import opened TeamFrames
  import opened TeamProofs
  import opened TeamOperations
  import opened TeamControl

  /**
   While the loop runs, members of the team may already be idle although a dispatch of theirs still runs;
   everywhere else, and in the other direction, busy members and running dispatches agree.
   */
  ghost predicate HalfBusy(teams: map<Id, Team>, dispatches: map<Id, Dispatch>, teamId: Id) {
    forall k, i :: k in teams && 0 <= i < |teams[k].members| ==>
      (teams[k].members[i].status == Busy ==> IsRunning(dispatches, k, teams[k].members[i].id)) &&
      (k != teamId && IsRunning(dispatches, k, teams[k].members[i].id) ==> teams[k].members[i].status == Busy)
  }

  ghost predicate Halting(s: State, teamId: Id) {
    TeamsOk(s.teams, s.nextId) &&
    OwnersOk(s.teams, s.tasks, s.messages, s.runs, s.nextId) &&
    GraphOk(s.tasks) &&
    RunsOk(s.runs) &&
    DispatchesOk(s.teams, s.tasks, s.messages, s.runs, s.dispatches, s.nextId) &&
    LinksOk(s.tasks, s.dispatches, {}) &&
    HalfBusy(s.teams, s.dispatches, teamId) &&
    AloneOk(s.dispatches) &&
    ConcurrencyOk(s.dispatches) &&
    EventsOk(s.events, s.sequence)
  }

  lemma BusyIsHalfBusy(teams: map<Id, Team>, dispatches: map<Id, Dispatch>, teamId: Id)
    requires BusyOk(teams, dispatches)
    ensures HalfBusy(teams, dispatches, teamId)
  {
  }

  lemma HalfBusyStep(teams: map<Id, Team>, before: map<Id, Dispatch>, d: Id, item: Dispatch)
    requires HalfBusy(teams, before, item.teamId) && AloneOk(before) && d in before && item.teamId in teams
    requires item.status != Running && item.teamId == before[d].teamId && item.memberId == before[d].memberId
    ensures HalfBusy(teams[item.teamId := teams[item.teamId].(members :=
                                            WithStatus(teams[item.teamId].members, item.memberId, Idle))],
                     before[d := item], item.teamId)
  {
    var after := before[d := item];
    forall k, m ensures IsRunning(after, k, m) ==> IsRunning(before, k, m) {
      if IsRunning(after, k, m) {
        var e :| RunsFor(after, e, k, m);
        assert RunsFor(before, e, k, m);
      }
    }
    forall k, m | !(k == item.teamId && m == item.memberId) ensures IsRunning(before, k, m) ==> IsRunning(after, k, m) {
      if IsRunning(before, k, m) {
        var e :| RunsFor(before, e, k, m);
        assert e != d;
        assert RunsFor(after, e, k, m);
      }
    }
  }

  /** Where one step of the loop leads. */
  function Halted(s: State, id: Id): State
    requires id in s.dispatches && s.dispatches[id].teamId in s.teams
  {
    var item := s.dispatches[id];
    var tasks := if item.taskId.Some? && item.taskId.value in s.tasks &&
                    ActiveTask(s.tasks[item.taskId.value].status)
                 then s.tasks[item.taskId.value := s.tasks[item.taskId.value].(status := TaskCancelled)] else s.tasks;
    var logged := if tasks == s.tasks then s else Emit(s, item.teamId, TaskStopped, item.taskId.value);
    SetMember(logged.(tasks := tasks, dispatches := s.dispatches[id := item.(status := Cancelled)]), item.teamId,
              item.memberId, Idle)
  }

  lemma WithStatusTwice(members: seq<Member>, id: Id, status: MemberStatus)
    ensures WithStatus(WithStatus(members, id, status), id, status) == WithStatus(members, id, status)
  {
  }

  lemma OnlyDispatch(tasks: map<Id, Task>, dispatches: map<Id, Dispatch>, d: Id, item: Dispatch)
    requires LinksOk(tasks, dispatches, {}) && d in dispatches && item == dispatches[d].(status := Cancelled)
    requires item.taskId.Some?
    ensures StoppedFor(dispatches[d := item], item.taskId.value) == dispatches[d := item]
  {
    var stopped := dispatches[d := item];
    forall e | e in stopped && stopped[e].taskId == item.taskId ensures Stopped(stopped[e]) == stopped[e] {
      assert e in dispatches && SameTask(dispatches, e, d);
    }
  }

  lemma CancelItemForm(s: State, runId: Id, id: Id)
    requires Halting(s, if runId in s.runs then s.runs[runId].teamId else 0)
    requires id in s.dispatches && s.dispatches[id].runId == runId && Active(s.dispatches[id].status)
    ensures s.dispatches[id].teamId in s.teams && CancelItem(s, runId, id) == Ok(Halted(s, id))
  {
    hide TeamsOk, OwnersOk, GraphOk, RunsOk, DispatchesOk, LinksOk, BusyOk, HalfBusy, AloneOk, ConcurrencyOk, EventsOk;
    hide StoppedFor;
    var item := s.dispatches[id];
    DispatchTeam(s, id);
    var cancelled := item.(status := Cancelled);
    var stopped := SetDispatch(s, id, cancelled);
    if item.taskId.Some? && ActiveTask(s.tasks[item.taskId.value].status) {
      OnlyDispatch(s.tasks, s.dispatches, id, cancelled);
      WithStatusTwice(s.teams[item.teamId].members, item.memberId, Idle);
      var task := s.tasks[item.taskId.value];
      var tasks := s.tasks[item.taskId.value := task.(status := TaskCancelled)];
      assert tasks[item.taskId.value].status != s.tasks[item.taskId.value].status;
      var released := CancelTask(stopped, item.teamId, item.taskId.value).value;
      assert released.dispatches == stopped.dispatches;
      assert released.tasks == tasks;
      var idled := SetMember(released, item.teamId, item.memberId, Idle);
      assert idled.teams == Halted(s, id).teams by {
        var team := s.teams[item.teamId];
        var once := team.(members := WithStatus(team.members, item.memberId, Idle));
        if task.status == TaskRunning {
          assert released.teams[item.teamId] == once;
          assert s.teams[item.teamId := once][item.teamId := once] == s.teams[item.teamId := once];
        }
      }
    }
  }

  lemma HaltedKeeps(s: State, id: Id)
    requires id in s.dispatches && Active(s.dispatches[id].status)
    requires s.dispatches[id].teamId in s.teams && Halting(s, s.dispatches[id].teamId)
    ensures Halting(Halted(s, id), s.dispatches[id].teamId)
  {
    hide TeamsOk, OwnersOk, GraphOk, RunsOk, DispatchesOk, LinksOk, BusyOk, HalfBusy, AloneOk, ConcurrencyOk, EventsOk;
    var item := s.dispatches[id].(status := Cancelled);
    var tasks := Halted(s, id).tasks;
    DispatchTeam(s, id);
    if item.taskId.Some? {
      TaskLink(s.tasks, s.dispatches, id);
      EmitEventsOk(s.events, s.sequence, Event(item.teamId, s.sequence + 1, TaskStopped, item.taskId.value));
    }
    HaltStep(s, id, item, tasks);
  }

  lemma HaltStep(s: State, id: Id, item: Dispatch, tasks: map<Id, Task>)
    requires id in s.dispatches && Active(s.dispatches[id].status) && item == s.dispatches[id].(status := Cancelled)
    requires item.teamId in s.teams && Halting(s, item.teamId) && TaskMoved(s.tasks, tasks, item.taskId)
    requires item.taskId.Some? ==> item.taskId.value in tasks && Linked(Cancelled, tasks[item.taskId.value].status)
    ensures Halting(SetMember(s.(tasks := tasks, dispatches := s.dispatches[id := item]), item.teamId, item.memberId,
                              Idle), item.teamId)
  {
    hide TeamsOk, OwnersOk, GraphOk, RunsOk, DispatchesOk, LinksOk, BusyOk, HalfBusy, AloneOk, ConcurrencyOk, EventsOk;
    var t := SetMember(s.(tasks := tasks, dispatches := s.dispatches[id := item]), item.teamId, item.memberId, Idle);
    SetMemberOk(s, item.teamId, item.memberId, Idle);
    TaskMovedOk(s, t, item.taskId);
    DispatchMovedOk(s, t, id, item);
    LinkedChangeOk(s.tasks, s.dispatches, {}, id, item, tasks);
    HalfBusyStep(s.teams, s.dispatches, id, item);
    NoneStartsOk(s.dispatches, t.dispatches);
  }

  lemma TaskLink(tasks: map<Id, Task>, dispatches: map<Id, Dispatch>, d: Id)
    requires LinksOk(tasks, dispatches, {}) && d in dispatches && dispatches[d].taskId.Some?
    ensures dispatches[d].taskId.value in tasks && Linked(dispatches[d].status, tasks[dispatches[d].taskId.value].status)
  {
  }

  /** The loop on the state before the run itself is marked cancelled. */
  lemma {:induction false} CancelItemsHalt(s: State, runId: Id, first: nat, bound: nat)
    requires runId in s.runs && Halting(s, s.runs[runId].teamId)
    requires forall d :: d in s.dispatches && d < first && s.dispatches[d].runId == runId ==>
               !Active(s.dispatches[d].status)
    ensures CancelItems(s, runId, first, bound).Ok?
    ensures var t := CancelItems(s, runId, first, bound).value;
            Halting(t, s.runs[runId].teamId) && t.runs == s.runs && t.nextId == s.nextId &&
            (first <= bound ==>
               forall d :: d in t.dispatches && d < bound && t.dispatches[d].runId == runId ==>
                 !Active(t.dispatches[d].status))
    decreases bound - first
  {
    hide TeamsOk, OwnersOk, GraphOk, RunsOk, DispatchesOk, LinksOk, BusyOk, HalfBusy, AloneOk, ConcurrencyOk, EventsOk;
    if first < bound {
      if first in s.dispatches && s.dispatches[first].runId == runId && Active(s.dispatches[first].status) {
        DispatchTeam(s, first);
        CancelItemForm(s, runId, first);
        HaltedKeeps(s, first);
        CancelItemsHalt(Halted(s, first), runId, first + 1, bound);
      } else {
        CancelItemsHalt(s, runId, first + 1, bound);
      }
    }
  }

  /** The loop does not look at runs. */
  lemma {:induction false} CancelItemsIgnoreRuns(s: State, runs: map<Id, Run>, runId: Id, first: nat, bound: nat)
    ensures CancelItems(s.(runs := runs), runId, first, bound) ==
            match CancelItems(s, runId, first, bound)
            case Ok(t) => Ok(t.(runs := runs))
            case Err(e) => Err(e)
    decreases bound - first
  {
    if first < bound {
      CancelItemIgnoresRuns(s, runs, runId, first);
      var next := CancelItem(s, runId, first);
      if next.Ok? {
        CancelItemsIgnoreRuns(next.value, runs, runId, first + 1, bound);
      }
    }
  }

  lemma CancelItemIgnoresRuns(s: State, runs: map<Id, Run>, runId: Id, id: Id)
    ensures CancelItem(s.(runs := runs), runId, id) ==
            match CancelItem(s, runId, id)
            case Ok(t) => Ok(t.(runs := runs))
            case Err(e) => Err(e)
  {
  }

  /** With no work left in the team's one unfinished run, nobody in the team is running. */
  lemma HaltedIsValid(s: State, runId: Id)
    requires runId in s.runs && Unfinished(s.runs[runId].status) && Halting(s, s.runs[runId].teamId)
    requires !Outstanding(s.dispatches, runId)
    ensures Valid(s)
  {
    hide TeamsOk, OwnersOk, GraphOk, RunsOk, DispatchesOk, LinksOk, BusyOk, HalfBusy, AloneOk, ConcurrencyOk, EventsOk;
    NobodyBusy(s, runId);
  }

  lemma NobodyBusy(s: State, runId: Id)
    requires runId in s.runs && Unfinished(s.runs[runId].status) && RunsOk(s.runs)
    requires DispatchesOk(s.teams, s.tasks, s.messages, s.runs, s.dispatches, s.nextId)
    requires HalfBusy(s.teams, s.dispatches, s.runs[runId].teamId) && !Outstanding(s.dispatches, runId)
    ensures BusyOk(s.teams, s.dispatches)
  {
    forall m ensures !IsRunning(s.dispatches, s.runs[runId].teamId, m) {
      if IsRunning(s.dispatches, s.runs[runId].teamId, m) {
        var d :| RunsFor(s.dispatches, d, s.runs[runId].teamId, m);
        assert DispatchOk(s.teams, s.tasks, s.messages, s.runs, s.dispatches[d]);
        assert Rivals(s.runs, s.dispatches[d].runId, runId);
        assert false;
      }
    }
  }

  /** Cancelling an unfinished run always succeeds, keeps the invariant and leaves nothing outstanding. */
  lemma CancelRunValid(s: State, teamId: Id, runId: Id)
    requires Valid(s) && runId in s.runs && s.runs[runId].teamId == teamId && Unfinished(s.runs[runId].status)
    ensures ControlRun(s, teamId, runId, Cancel).Ok? && Valid(ControlRun(s, teamId, runId, Cancel).value)
    ensures !Outstanding(ControlRun(s, teamId, runId, Cancel).value.dispatches, runId)
  {
    hide TeamsOk, OwnersOk, GraphOk, RunsOk, DispatchesOk, LinksOk, BusyOk, HalfBusy, AloneOk, ConcurrencyOk, EventsOk;
    hide CancelItems;
    var run := s.runs[runId].(status := RunCancelled, reason := NoReason);
    BusyIsHalfBusy(s.teams, s.dispatches, teamId);
    CancelItemsIgnoreRuns(s, s.runs[runId := run], runId, 0, s.nextId);
    CancelItemsHalt(s, runId, 0, s.nextId);
    var t := CancelItems(s, runId, 0, s.nextId).value;
    DispatchBound(t);
    HaltedIsValid(t, runId);
    RunLimits(s, {}, runId);
    RunChangeValid(t, {}, runId, run);
    EmitValid(SetRun(t, runId, run), {}, teamId, RunUpdated, runId);
  }

  lemma DispatchBound(s: State)
    requires DispatchesOk(s.teams, s.tasks, s.messages, s.runs, s.dispatches, s.nextId)
    ensures forall d :: d in s.dispatches ==> d < s.nextId
  {
  }

  lemma ControlRunValid(s: State, teamId: Id, runId: Id, action: Action)
    requires Valid(s) && ControlRun(s, teamId, runId, action).Ok?
    ensures Valid(ControlRun(s, teamId, runId, action).value)
  {
    match action
    case Pause => PauseValid(s, teamId, runId);
    case Resume => ResumeValid(s, teamId, runId);
    case Cancel => CancelRunValid(s, teamId, runId);
  }
}
