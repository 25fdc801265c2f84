/** Starting, cancelling and editing work keeps the invariant. */
module TeamControl {
  import opened Common
  import opened Texts
  import opened TeamModel
  import opened TeamDependencies
  import opened TeamInvariant
  import opened TeamFrames
  import opened TeamProofs
  import opened TeamOperations

  // ---------------------------------------------------------------- startRun, recruit, submitted

  lemma StartRunValid(s: State, teamId: Id, input: string, memberId: Option<Id>)
    requires Valid(s) && StartRun(s, teamId, input, memberId).Ok?
    ensures Valid(StartRun(s, teamId, input, memberId).value.0)
  {
    hide TeamsOk, OwnersOk, GraphOk, RunsOk, DispatchesOk, LinksOk, BusyOk, AloneOk, ConcurrencyOk, EventsOk;
    hide EnsureRun, Enqueue;
    var target := if memberId.Some? then memberId else LeadOf(s.teams[teamId].members);
    EnsureRunValid(s, {}, teamId);
    EnsureRunFacts(s, teamId);
    var (ready, run) := EnsureRun(s, teamId);
    EnqueueValid(ready, {}, run, target.value, None, None, []);
  }

  lemma SubmitDispatchValid(s: State, id: Id)
    requires Valid(s)
    ensures Valid(SubmitDispatch(s, id))
  {
    hide TeamsOk, OwnersOk, GraphOk, RunsOk, DispatchesOk, LinksOk, BusyOk, AloneOk, ConcurrencyOk, EventsOk;
    if id in s.dispatches && s.dispatches[id].status == Running {
      var noted := s.(dispatches := s.dispatches[id := s.dispatches[id].(submitted := true)]);
      MailKnown(s);
      NotesValid(s, {}, noted);
      var t := SubmitDispatch(s, id);
      OwnersStayOk(noted, t);
      DispatchesStayOk(noted, t);
    }
  }

  // ---------------------------------------------------------------- beginDispatch

  lemma BusyMeansRunning(s: State, teamId: Id, memberId: Id)
    requires BusyOk(s.teams, s.dispatches) && teamId in s.teams && HasMember(s.teams[teamId], memberId)
    requires TeamsOk(s.teams, s.nextId)
    ensures IsBusy(s.teams[teamId], memberId) <==> IsRunning(s.dispatches, teamId, memberId)
  {
    var team := s.teams[teamId];
    var i :| 0 <= i < |team.members| && team.members[i].id == memberId;
    assert TeamOk(team, s.nextId);
    assert team.members[i].status == Busy <==> IsRunning(s.dispatches, teamId, memberId);
    assert forall j :: 0 <= j < |team.members| && team.members[j].id == memberId ==> j == i;
  }

  /** A queued dispatch starts, with its task and its member. */
  lemma StartValid(s: State, d: Id, item: Dispatch, tasks: map<Id, Task>)
    requires Valid(s) && d in s.dispatches && s.dispatches[d].status == Queued
    requires item == s.dispatches[d].(status := Running) && item.depth <= MAX_DEPTH
    requires TaskMoved(s.tasks, tasks, item.taskId) && item.teamId in s.teams
    requires item.taskId.Some? ==> item.taskId.value in tasks && Linked(Running, tasks[item.taskId.value].status)
    requires !IsRunning(s.dispatches, item.teamId, item.memberId)
    requires |RunningIn(s.dispatches, item.runId)| < MAX_CONCURRENT
    ensures Valid(SetMember(s.(tasks := tasks, dispatches := s.dispatches[d := item]), item.teamId, item.memberId, Busy))
  {
    hide TeamsOk, OwnersOk, GraphOk, RunsOk, DispatchesOk, LinksOk, BusyOk, AloneOk, ConcurrencyOk, EventsOk;
    var t := SetMember(s.(tasks := tasks, dispatches := s.dispatches[d := item]), item.teamId, item.memberId, Busy);
    SetMemberOk(s, item.teamId, item.memberId, Busy);
    TaskMovedOk(s, t, item.taskId);
    DispatchMovedOk(s, t, d, item);
    LinkedChangeOk(s.tasks, s.dispatches, {}, d, item, tasks);
    StartBusyOk(s.teams, s.dispatches, d, item);
    StartConcurrencyOk(s.dispatches, d, item);
  }

  lemma BeginDispatchValid(s: State, id: Id)
    requires Valid(s)
    ensures Valid(BeginDispatch(s, id).0)
  {
    hide TeamsOk, OwnersOk, GraphOk, RunsOk, DispatchesOk, LinksOk, BusyOk, AloneOk, ConcurrencyOk, EventsOk;
    var (t, result) := BeginDispatch(s, id);
    if result == Err(RunLimitReached) && t != s {
      var item := s.dispatches[id];
      var run := s.runs[item.runId];
      var reason := if run.dispatchCount >= MAX_DISPATCHES then DispatchBudget else DepthLimit;
      var paused := run.(status := RunPausedLimit, reason := reason);
      RunLimits(s, {}, item.runId);
      RunChangeValid(s, {}, item.runId, paused);
      EmitValid(SetRun(s, item.runId, paused), {}, item.teamId, RunUpdated, item.runId);
    } else if result.Ok? {
      BeginDispatchStarts(s, id);
    }
  }

  lemma BeginDispatchStarts(s: State, id: Id)
    requires Valid(s) && BeginDispatch(s, id).1.Ok?
    ensures Valid(BeginDispatch(s, id).0)
  {
    hide TeamsOk, OwnersOk, GraphOk, RunsOk, DispatchesOk, LinksOk, BusyOk, AloneOk, ConcurrencyOk, EventsOk;
    var item := s.dispatches[id];
    var run := s.runs[item.runId];
    var counted := run.(dispatchCount := run.dispatchCount + 1);
    DispatchLinks(s, id);
    BusyMeansRunning(s, item.teamId, item.memberId);
    RunLimits(s, {}, item.runId);
    var tasks := if item.taskId.None? then s.tasks
                 else s.tasks[item.taskId.value := s.tasks[item.taskId.value].(status := TaskRunning)];
    StartValid(s, id, item.(status := Running), tasks);
    var started := SetMember(s.(tasks := tasks, dispatches := s.dispatches[id := item.(status := Running)]),
                             item.teamId, item.memberId, Busy);
    RunChangeValid(started, {}, item.runId, counted);
    var t := SetRun(started, item.runId, counted);
    if item.taskId.Some? {
      EmitValid(t, {}, item.teamId, TaskStarted, item.taskId.value);
      EmitValid(Emit(t, item.teamId, TaskStarted, item.taskId.value), {}, item.teamId, DispatchUpdated, id);
    } else {
      EmitValid(t, {}, item.teamId, DispatchUpdated, id);
    }
  }

  // ---------------------------------------------------------------- cancelTask

  lemma TaskDispatch(s: State, t: Id) returns (d: Id)
    requires LinksOk(s.tasks, s.dispatches, {}) && t in s.tasks && ActiveTask(s.tasks[t].status)
    ensures d in s.dispatches && s.dispatches[d].taskId == Some(t)
    ensures forall e :: e in s.dispatches && s.dispatches[e].taskId == Some(t) ==> e == d
  {
    assert HasDispatch(s.dispatches, t);
    d :| d in s.dispatches && s.dispatches[d].taskId == Some(t);
    forall e | e in s.dispatches && s.dispatches[e].taskId == Some(t) ensures e == d {
      assert SameTask(s.dispatches, e, d);
    }
  }

  lemma OneStopped(dispatches: map<Id, Dispatch>, id: Id, d: Id)
    requires d in dispatches && dispatches[d].taskId == Some(id) && Active(dispatches[d].status)
    requires forall e :: e in dispatches && dispatches[e].taskId == Some(id) ==> e == d
    ensures StoppedFor(dispatches, id) == dispatches[d := dispatches[d].(status := Cancelled)]
  {
  }

  lemma CancelTaskValid(s: State, teamId: Id, id: Id)
    requires Valid(s) && CancelTask(s, teamId, id).Ok?
    ensures Valid(CancelTask(s, teamId, id).value)
  {
    hide TeamsOk, OwnersOk, GraphOk, RunsOk, DispatchesOk, LinksOk, BusyOk, AloneOk, ConcurrencyOk, EventsOk;
    hide StoppedFor;
    var task := s.tasks[id];
    var d := TaskDispatch(s, id);
    DispatchLinks(s, d);
    var item := s.dispatches[d].(status := Cancelled);
    var tasks := s.tasks[id := task.(status := TaskCancelled)];
    var dispatches := s.dispatches[d := item];
    OneStopped(s.dispatches, id, d);
    if task.status == TaskRunning {
      LeaveValid(s, d, item, tasks, Idle);
      EmitValid(SetMember(s.(tasks := tasks, dispatches := dispatches), teamId, task.memberId, Idle), {}, teamId,
                TaskStopped, id);
    } else {
      DropValid(s, d, item, tasks);
      EmitValid(s.(tasks := tasks, dispatches := dispatches), {}, teamId, TaskStopped, id);
    }
  }

  // ---------------------------------------------------------------- updateTask

  lemma TaskEditedLinksOk(tasks: map<Id, Task>, dispatches: map<Id, Dispatch>, id: Id, task: Task)
    requires LinksOk(tasks, dispatches, {}) && id in tasks
    requires task.status == tasks[id].status ||
             (tasks[id].status == TaskRunning && (task.status == TaskSucceeded || task.status == TaskFailed))
    ensures LinksOk(tasks[id := task], dispatches, {})
  {
  }

  lemma UpdateTaskValid(s: State, teamId: Id, id: Id, version: nat, edit: TaskEdit, caller: Option<Id>)
    requires Valid(s) && UpdateTask(s, teamId, id, version, edit, caller).Ok?
    ensures Valid(UpdateTask(s, teamId, id, version, edit, caller).value)
  {
    hide TeamsOk, OwnersOk, GraphOk, RunsOk, DispatchesOk, LinksOk, BusyOk, AloneOk, ConcurrencyOk, EventsOk;
    hide ValidateDependencies, IsLead, HasMember;
    var task := s.tasks[id];
    var next := task.(version := task.version + 1,
                      dependsOn := if edit.dependsOn.Some? then edit.dependsOn.value else task.dependsOn,
                      status := if edit.outcome.Some? then StatusOf(edit.outcome.value) else task.status);
    var t := s.(tasks := s.tasks[id := next]);
    TaskEditedLinksOk(s.tasks, s.dispatches, id, next);
    OwnersStayOk(s, t);
    EditedGraphOk(s.tasks, id, next, edit.dependsOn);
    EditKeeps(s, id, next, t);
    DispatchesStayOk(s, t);
    EmitValid(t, {}, teamId, TaskEdited, id);
  }

  lemma EditKeeps(s: State, id: Id, task: Task, t: State)
    requires id in s.tasks && task.teamId == s.tasks[id].teamId && task.memberId == s.tasks[id].memberId
    requires t == s.(tasks := s.tasks[id := task])
    ensures Keeps(s, t)
  {
  }

  lemma EditedGraphOk(tasks: map<Id, Task>, id: Id, task: Task, proposed: Option<seq<Id>>)
    requires GraphOk(tasks) && id in tasks && task.teamId == tasks[id].teamId
    requires task.dependsOn == if proposed.Some? then proposed.value else tasks[id].dependsOn
    requires proposed.Some? ==> ValidateDependencies(tasks, task.teamId, proposed.value, Some(id)).Ok?
    ensures GraphOk(tasks[id := task])
  {
    if proposed.Some? {
      ValidateDecides(tasks, task.teamId, proposed.value, Some(id));
      EditedTaskAcyclic(tasks, id, task);
    } else {
      GraphStaysOk(tasks, tasks[id := task]);
    }
  }

  // ---------------------------------------------------------------- pauseBlockedRuns

  lemma {:induction false} PauseBlockedValid(s: State, first: nat, bound: nat)
    requires Valid(s)
    ensures Valid(PauseBlocked(s, first, bound))
    decreases bound - first
  {
    hide TeamsOk, OwnersOk, GraphOk, RunsOk, DispatchesOk, LinksOk, BusyOk, AloneOk, ConcurrencyOk, EventsOk;
    hide Blocked;
    if first < bound {
      if Blocked(s, first) {
        BlockedRun(s, first);
        var run := s.runs[first];
        var paused := run.(status := RunPaused, reason := DependencyFailed);
        RunLimits(s, {}, first);
        RunChangeValid(s, {}, first, paused);
        EmitValid(SetRun(s, first, paused), {}, run.teamId, RunUpdated, first);
        PauseBlockedValid(Emit(SetRun(s, first, paused), run.teamId, RunUpdated, first), first + 1, bound);
      } else {
        PauseBlockedValid(s, first + 1, bound);
      }
    }
  }

  lemma BlockedRun(s: State, r: Id)
    requires Blocked(s, r)
    ensures r in s.runs && s.runs[r].status == RunRunning
  {
  }

  // ---------------------------------------------------------------- controlRun: pause and resume

  lemma RebasedValid(s: State, runId: Id)
    requires Valid(s)
    ensures Valid(s.(dispatches := map d | d in s.dispatches :: Rebased(s.dispatches[d], runId)))
  {
    hide TeamsOk, OwnersOk, GraphOk, RunsOk, DispatchesOk, LinksOk, BusyOk, AloneOk, ConcurrencyOk, EventsOk;
    var t := s.(dispatches := map d | d in s.dispatches :: Rebased(s.dispatches[d], runId));
    RebasedNotes(s, t, runId);
    NotesValid(s, {}, t);
  }

  lemma RebasedNotes(s: State, t: State, runId: Id)
    requires DispatchesOk(s.teams, s.tasks, s.messages, s.runs, s.dispatches, s.nextId)
    requires t == s.(dispatches := map d | d in s.dispatches :: Rebased(s.dispatches[d], runId))
    ensures AllSameWork(s.dispatches, t.dispatches)
    ensures forall d, i :: d in t.dispatches && 0 <= i < |t.dispatches[d].messageIds| ==>
              t.dispatches[d].messageIds[i] in s.messages &&
              s.messages[t.dispatches[d].messageIds[i]].teamId == t.dispatches[d].teamId
  {
    MailKnown(s);
  }

  lemma LeadOfValid(s: State, teamId: Id)
    requires Valid(s) && teamId in s.teams
    ensures LeadOf(s.teams[teamId].members).Some? && HasMember(s.teams[teamId], LeadOf(s.teams[teamId].members).value)
    ensures IsLead(s.teams[teamId], LeadOf(s.teams[teamId].members).value)
  {
    assert TeamOk(s.teams[teamId], s.nextId);
    LeadIsMember(s.teams[teamId].members);
  }

  lemma ResumeValid(s: State, teamId: Id, runId: Id)
    requires Valid(s) && ControlRun(s, teamId, runId, Resume).Ok?
    ensures Valid(ControlRun(s, teamId, runId, Resume).value)
  {
    hide TeamsOk, OwnersOk, GraphOk, RunsOk, DispatchesOk, LinksOk, BusyOk, AloneOk, ConcurrencyOk, EventsOk;
    hide Enqueue, Rebased;
    var run := s.runs[runId];
    var renewed := Run(teamId, RunRunning, run.segment + 1, 0, 0, NoReason);
    RunChangeValid(s, {}, runId, renewed);
    var resumed := SetRun(s, runId, renewed);
    RebasedValid(resumed, runId);
    var rebased := resumed.(dispatches := map d | d in s.dispatches :: Rebased(s.dispatches[d], runId));
    RunLimits(s, {}, runId);
    if run.status == RunInterrupted || run.reason == DependencyFailed {
      LeadOfValid(s, teamId);
      var lead := LeadOf(s.teams[teamId].members).value;
      EnqueueValid(rebased, {}, runId, lead, None, None, []);
      EmitValid(Enqueue(rebased, runId, lead, None, None, []).value, {}, teamId, RunUpdated, runId);
    } else {
      EmitValid(rebased, {}, teamId, RunUpdated, runId);
    }
  }

  lemma PauseValid(s: State, teamId: Id, runId: Id)
    requires Valid(s) && ControlRun(s, teamId, runId, Pause).Ok?
    ensures Valid(ControlRun(s, teamId, runId, Pause).value)
  {
    hide TeamsOk, OwnersOk, GraphOk, RunsOk, DispatchesOk, LinksOk, BusyOk, AloneOk, ConcurrencyOk, EventsOk;
    var paused := s.runs[runId].(status := RunPaused, reason := NoReason);
    RunLimits(s, {}, runId);
    RunChangeValid(s, {}, runId, paused);
    EmitValid(SetRun(s, runId, paused), {}, teamId, RunUpdated, runId);
  }
}
