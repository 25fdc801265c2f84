/** The operations on tasks, messages, runs and dispatches keep the invariant. */
module TeamOperations {
  import opened Common
  import opened Texts
  import opened TeamModel
  import opened TeamDependencies
  import opened TeamInvariant
  import opened TeamFrames
  import opened TeamProofs

  // ---------------------------------------------------------------- queueTask

  lemma NewTaskOk(s: State, task: Task, t: State)
    requires OwnersOk(s.teams, s.tasks, s.messages, s.runs, s.nextId) && GraphOk(s.tasks)
    requires task.teamId in s.teams && Distinct(task.dependsOn)
    requires forall i :: 0 <= i < |task.dependsOn| ==>
               task.dependsOn[i] in s.tasks && s.tasks[task.dependsOn[i]].teamId == task.teamId
    requires t == s.(tasks := s.tasks[s.nextId := task], nextId := s.nextId + 1)
    ensures OwnersOk(t.teams, t.tasks, t.messages, t.runs, t.nextId) && GraphOk(t.tasks) && Keeps(s, t)
    ensures s.nextId !in s.tasks
  {
    NewTaskAcyclic(s.tasks, s.nextId, task);
    forall x, i | x in t.tasks && 0 <= i < |t.tasks[x].dependsOn|
      ensures t.tasks[x].dependsOn[i] in t.tasks && t.tasks[t.tasks[x].dependsOn[i]].teamId == t.tasks[x].teamId
    {
      if x != s.nextId {
        assert s.tasks[x].dependsOn[i] in s.tasks;
      }
    }
  }

  lemma NewTaskLinksOk(tasks: map<Id, Task>, dispatches: map<Id, Dispatch>, id: Id, task: Task)
    requires LinksOk(tasks, dispatches, {}) && id !in tasks
    ensures LinksOk(tasks[id := task], dispatches, {id}) && !HasDispatch(dispatches, id)
  {
  }

  lemma QueueTaskValid(s: State, teamId: Id, memberId: Id, title: string, input: string, dependsOn: seq<Id>,
                       parentId: Option<Id>)
    requires Valid(s) && QueueTask(s, teamId, memberId, title, input, dependsOn, parentId).Ok?
    ensures Valid(QueueTask(s, teamId, memberId, title, input, dependsOn, parentId).value.0)
  {
    hide TeamsOk, OwnersOk, GraphOk, RunsOk, DispatchesOk, LinksOk, BusyOk, AloneOk, ConcurrencyOk, EventsOk;
    hide EnsureRun, Enqueue, ValidateDependencies;
    var id := s.nextId;
    var task := Task(teamId, memberId, 1, dependsOn, TaskQueued, None);
    var added := s.(tasks := s.tasks[id := task], nextId := id + 1);
    GraphClosed(s.tasks);
    ValidateDecides(s.tasks, teamId, dependsOn, None);
    NewTaskOk(s, task, added);
    NewTaskLinksOk(s.tasks, s.dispatches, id, task);
    TeamsStayOk(s.teams, s.nextId, added.nextId);
    DispatchesStayOk(s, added);
    EnsureRunValid(added, {id}, teamId);
    EnsureRunFacts(added, teamId);
    var (ready, run) := EnsureRun(added, teamId);
    EnqueueValid(ready, {id}, run, memberId, parentId, Some(id), []);
    var queued := Enqueue(ready, run, memberId, parentId, Some(id), []).value;
    assert {id} - {id} == {};
    EmitValid(queued, {}, teamId, TaskAdded, id);
  }

  lemma GraphClosed(tasks: map<Id, Task>)
    requires GraphOk(tasks)
    ensures Closed(tasks) && Acyclic(tasks)
  {
  }

  // ---------------------------------------------------------------- sendMessage

  lemma {:induction false} FirstMailboxFound(dispatches: map<Id, Dispatch>, runId: Id, memberId: Id, first: nat,
                                             bound: nat)
    ensures match FirstMailbox(dispatches, runId, memberId, first, bound)
            case Some(d) => first <= d < bound && d in dispatches && IsMailbox(dispatches[d], runId, memberId)
            case None => forall d :: d in dispatches && first <= d < bound ==>
                           !IsMailbox(dispatches[d], runId, memberId)
    decreases bound - first
  {
    if first < bound {
      FirstMailboxFound(dispatches, runId, memberId, first + 1, bound);
    }
  }

  /** The parts of the state that a delivery reads and never changes. */
  ghost predicate DeliveryFrame(s: State, t: State, runId: Id) {
    t.teams == s.teams && t.tasks == s.tasks && t.messages == s.messages && t.reconciled == s.reconciled &&
    runId in s.runs && runId in t.runs && t.runs[runId].teamId == s.runs[runId].teamId &&
    (Unfinished(s.runs[runId].status) ==> Unfinished(t.runs[runId].status))
  }

  lemma DeliverToFrame(s: State, runId: Id, memberId: Id, messageId: Id, parentId: Option<Id>)
    requires DeliverTo(s, runId, memberId, messageId, parentId).Ok?
    ensures DeliveryFrame(s, DeliverTo(s, runId, memberId, messageId, parentId).value, runId)
  {
    RegisterEdgeFacts(s, runId, memberId, parentId);
  }

  lemma DeliverToValid(s: State, runId: Id, memberId: Id, messageId: Id, parentId: Option<Id>)
    requires Valid(s) && DeliverTo(s, runId, memberId, messageId, parentId).Ok?
    requires runId in s.runs && s.runs[runId].teamId in s.teams && HasMember(s.teams[s.runs[runId].teamId], memberId)
    requires messageId in s.messages && s.messages[messageId].teamId == s.runs[runId].teamId
    ensures Valid(DeliverTo(s, runId, memberId, messageId, parentId).value)
  {
    hide TeamsOk, OwnersOk, GraphOk, RunsOk, DispatchesOk, LinksOk, BusyOk, AloneOk, ConcurrencyOk, EventsOk;
    FirstMailboxFound(s.dispatches, runId, memberId, 0, s.nextId);
    match FirstMailbox(s.dispatches, runId, memberId, 0, s.nextId)
    case None =>
      EnqueueValid(s, {}, runId, memberId, parentId, None, [messageId]);
    case Some(pending) =>
      JoinMailboxValid(s, runId, memberId, messageId, parentId, pending);
  }

  lemma JoinMailboxValid(s: State, runId: Id, memberId: Id, messageId: Id, parentId: Option<Id>, pending: Id)
    requires Valid(s) && RegisterEdge(s, runId, memberId, parentId).Ok?
    requires pending in s.dispatches && IsMailbox(s.dispatches[pending], runId, memberId) && runId in s.runs
    requires messageId in s.messages && s.messages[messageId].teamId == s.runs[runId].teamId
    ensures var (linked, depth) := RegisterEdge(s, runId, memberId, parentId).value;
            var item := s.dispatches[pending];
            Valid(SetDispatch(linked, pending, item.(depth := if depth > item.depth then depth else item.depth,
                                                     messageIds := item.messageIds + [messageId])))
  {
    hide TeamsOk, OwnersOk, GraphOk, RunsOk, DispatchesOk, LinksOk, BusyOk, AloneOk, ConcurrencyOk, EventsOk;
    hide RegisterEdge;
    RegisterEdgeValid(s, {}, runId, memberId, parentId);
    RegisterEdgeFacts(s, runId, memberId, parentId);
    var (linked, depth) := RegisterEdge(s, runId, memberId, parentId).value;
    var item := s.dispatches[pending];
    var next := item.(depth := if depth > item.depth then depth else item.depth,
                      messageIds := item.messageIds + [messageId]);
    DispatchTeam(s, pending);
    MailKnown(linked);
    NotesValid(linked, {}, SetDispatch(linked, pending, next));
  }

  lemma DispatchTeam(s: State, d: Id)
    requires DispatchesOk(s.teams, s.tasks, s.messages, s.runs, s.dispatches, s.nextId) && d in s.dispatches
    ensures DispatchOk(s.teams, s.tasks, s.messages, s.runs, s.dispatches[d]) && d < s.nextId
  {
  }

  lemma {:induction false} DeliverValid(s: State, runId: Id, targets: seq<Id>, messageId: Id, parentId: Option<Id>)
    requires Valid(s) && Deliver(s, runId, targets, messageId, parentId).Ok?
    requires runId in s.runs && s.runs[runId].teamId in s.teams
    requires forall i :: 0 <= i < |targets| ==> HasMember(s.teams[s.runs[runId].teamId], targets[i])
    requires messageId in s.messages && s.messages[messageId].teamId == s.runs[runId].teamId
    ensures Valid(Deliver(s, runId, targets, messageId, parentId).value)
    decreases |targets|
  {
    hide TeamsOk, OwnersOk, GraphOk, RunsOk, DispatchesOk, LinksOk, BusyOk, AloneOk, ConcurrencyOk, EventsOk;
    if targets != [] {
      DeliverToValid(s, runId, targets[0], messageId, parentId);
      DeliverToFrame(s, runId, targets[0], messageId, parentId);
      DeliverValid(DeliverTo(s, runId, targets[0], messageId, parentId).value, runId, targets[1..], messageId,
                   parentId);
    }
  }

  lemma {:induction false} OthersAreMembers(members: seq<Member>, from: Option<Id>, id: Id)
    requires id in OthersThan(members, from)
    ensures exists i :: 0 <= i < |members| && members[i].id == id
  {
    if Some(members[0].id) != from && members[0].id == id {
    } else {
      OthersAreMembers(members[1..], from, id);
      var i :| 0 <= i < |members[1..]| && members[1..][i].id == id;
      assert members[i + 1].id == id;
    }
  }

  lemma TargetsAreMembers(team: Team, from: Option<Id>, to: Option<Id>)
    requires to.Some? ==> HasMember(team, to.value)
    ensures forall i :: 0 <= i < |Targets(team, from, to)| ==> HasMember(team, Targets(team, from, to)[i])
  {
    var targets := Targets(team, from, to);
    forall i | 0 <= i < |targets| ensures HasMember(team, targets[i]) {
      if to.None? {
        OthersAreMembers(team.members, from, targets[i]);
      }
    }
  }

  lemma NewMessageOk(s: State, m: Message, t: State)
    requires OwnersOk(s.teams, s.tasks, s.messages, s.runs, s.nextId) && m.teamId in s.teams
    requires t == s.(messages := s.messages[s.nextId := m], nextId := s.nextId + 1)
    ensures OwnersOk(t.teams, t.tasks, t.messages, t.runs, t.nextId) && Keeps(s, t)
  {
  }

  lemma SendMessageValid(s: State, teamId: Id, from: Option<Id>, to: Option<Id>, body: string, parentId: Option<Id>)
    requires Valid(s) && SendMessage(s, teamId, from, to, body, parentId).Ok?
    ensures Valid(SendMessage(s, teamId, from, to, body, parentId).value.0)
  {
    hide TeamsOk, OwnersOk, GraphOk, RunsOk, DispatchesOk, LinksOk, BusyOk, AloneOk, ConcurrencyOk, EventsOk;
    hide EnsureRun, Deliver, Targets;
    var id := s.nextId;
    var posted := s.(messages := s.messages[id := Message(teamId, from, to, Trim(body), false)], nextId := id + 1);
    NewMessageOk(s, posted.messages[id], posted);
    TeamsStayOk(s.teams, s.nextId, posted.nextId);
    DispatchesStayOk(s, posted);
    EnsureRunValid(posted, {}, teamId);
    EnsureRunFacts(posted, teamId);
    var (ready, run) := EnsureRun(posted, teamId);
    var targets := Targets(s.teams[teamId], from, to);
    TargetsAreMembers(s.teams[teamId], from, to);
    DeliverValid(ready, run, targets, id, parentId);
    EmitValid(Deliver(ready, run, targets, id, parentId).value, {}, teamId, MailReceived, id);
  }

  // ---------------------------------------------------------------- a dispatch leaves the running state

  /** The tasks after one of them changed status, with the same owner and dependencies. */
  ghost predicate TaskMoved(before: map<Id, Task>, after: map<Id, Task>, id: Option<Id>) {
    before.Keys == after.Keys &&
    forall t :: t in before ==>
      after[t].dependsOn == before[t].dependsOn && after[t].teamId == before[t].teamId &&
      after[t].memberId == before[t].memberId && (Some(t) != id ==> after[t] == before[t])
  }

  lemma DispatchMovedOk(s: State, t: State, d: Id, item: Dispatch)
    requires DispatchesOk(s.teams, s.tasks, s.messages, s.runs, s.dispatches, s.nextId) && d in s.dispatches
    requires t == s.(teams := t.teams, tasks := t.tasks, dispatches := s.dispatches[d := item])
    requires KeepsTeams(s.teams, t.teams) && TaskMoved(s.tasks, t.tasks, item.taskId)
    requires item == s.dispatches[d].(status := item.status)
    requires Active(item.status) ==> Active(s.dispatches[d].status)
    requires item.status == Running ==> item.depth <= MAX_DEPTH
    ensures DispatchesOk(t.teams, t.tasks, t.messages, t.runs, t.dispatches, t.nextId)
  {
    assert KeepsTasks(s.tasks, t.tasks) by {
      forall x | x in s.tasks ensures x in t.tasks {
        assert x in s.tasks.Keys;
      }
    }
    DispatchesStayOk(s, t.(dispatches := s.dispatches));
    assert DispatchOk(t.teams, t.tasks, t.messages, t.runs, s.dispatches[d]);
    DispatchEditedOk(t, s.dispatches, d, item);
  }

  lemma TaskMovedOk(s: State, t: State, id: Option<Id>)
    requires OwnersOk(s.teams, s.tasks, s.messages, s.runs, s.nextId) && GraphOk(s.tasks)
    requires t == s.(teams := t.teams, tasks := t.tasks, dispatches := t.dispatches)
    requires TaskMoved(s.tasks, t.tasks, id) && KeepsTeams(s.teams, t.teams)
    ensures OwnersOk(t.teams, t.tasks, t.messages, t.runs, t.nextId) && GraphOk(t.tasks)
  {
    forall x | x in t.tasks ensures x in s.tasks {
      assert x in s.tasks.Keys;
    }
    OwnersStayOk(s, t);
    GraphStaysOk(s.tasks, t.tasks);
  }

  lemma SetMemberOk(s: State, teamId: Id, memberId: Id, status: MemberStatus)
    requires TeamsOk(s.teams, s.nextId) && teamId in s.teams
    ensures TeamsOk(SetMember(s, teamId, memberId, status).teams, s.nextId)
    ensures KeepsTeams(s.teams, SetMember(s, teamId, memberId, status).teams)
  {
    var team := s.teams[teamId];
    var next := team.(members := WithStatus(team.members, memberId, status));
    WithStatusRoster(team, memberId, status);
    SameRosterOk(team, next, s.nextId);
    TeamEditedOk(s.teams, s.nextId, teamId, next, s.nextId);
  }

  /** A running dispatch stops; its task and its member follow. */
  lemma LeaveValid(s: State, d: Id, item: Dispatch, tasks: map<Id, Task>, status: MemberStatus)
    requires Valid(s) && d in s.dispatches && s.dispatches[d].status == Running
    requires item == s.dispatches[d].(status := item.status) && item.status != Running && status != Busy
    requires TaskMoved(s.tasks, tasks, item.taskId) && item.teamId in s.teams
    requires item.taskId.Some? ==> item.taskId.value in tasks && Linked(item.status, tasks[item.taskId.value].status)
    ensures Valid(SetMember(s.(tasks := tasks, dispatches := s.dispatches[d := item]), item.teamId, item.memberId, status))
  {
    hide TeamsOk, OwnersOk, GraphOk, RunsOk, DispatchesOk, LinksOk, BusyOk, AloneOk, ConcurrencyOk, EventsOk;
    var t := SetMember(s.(tasks := tasks, dispatches := s.dispatches[d := item]), item.teamId, item.memberId, status);
    SetMemberOk(s, item.teamId, item.memberId, status);
    TaskMovedOk(s, t, item.taskId);
    DispatchMovedOk(s, t, d, item);
    LinkedChangeOk(s.tasks, s.dispatches, {}, d, item, tasks);
    LeaveBusyOk(s.teams, s.dispatches, d, item, status);
    NoneStartsOk(s.dispatches, t.dispatches);
  }

  /** A queued dispatch is dropped; its task follows. */
  lemma DropValid(s: State, d: Id, item: Dispatch, tasks: map<Id, Task>)
    requires Valid(s) && d in s.dispatches && s.dispatches[d].status == Queued
    requires item == s.dispatches[d].(status := Cancelled)
    requires TaskMoved(s.tasks, tasks, item.taskId)
    requires item.taskId.Some? ==> item.taskId.value in tasks && Linked(item.status, tasks[item.taskId.value].status)
    ensures Valid(s.(tasks := tasks, dispatches := s.dispatches[d := item]))
  {
    hide TeamsOk, OwnersOk, GraphOk, RunsOk, DispatchesOk, LinksOk, BusyOk, AloneOk, ConcurrencyOk, EventsOk;
    var t := s.(tasks := tasks, dispatches := s.dispatches[d := item]);
    TaskMovedOk(s, t, item.taskId);
    DispatchMovedOk(s, t, d, item);
    LinkedChangeOk(s.tasks, s.dispatches, {}, d, item, tasks);
    IdleChangeBusyOk(s.teams, s.dispatches, d, item);
    NoneStartsOk(s.dispatches, t.dispatches);
  }

  /** A dispatch, its task and its team. */
  lemma DispatchLinks(s: State, d: Id)
    requires Valid(s) && d in s.dispatches
    ensures var item := s.dispatches[d];
            item.teamId in s.teams && item.runId in s.runs && s.runs[item.runId].teamId == item.teamId && d < s.nextId &&
            (Active(item.status) ==> Unfinished(s.runs[item.runId].status) && HasMember(s.teams[item.teamId], item.memberId))
    ensures var item := s.dispatches[d];
            item.taskId.Some? ==>
              item.taskId.value in s.tasks && Linked(item.status, s.tasks[item.taskId.value].status) &&
              s.tasks[item.taskId.value].teamId == item.teamId && s.tasks[item.taskId.value].memberId == item.memberId
  {
    hide TeamsOk, OwnersOk, GraphOk, RunsOk, BusyOk, AloneOk, ConcurrencyOk, EventsOk;
    assert DispatchOk(s.teams, s.tasks, s.messages, s.runs, s.dispatches[d]);
  }

  // ---------------------------------------------------------------- deferDispatch and finishDispatch

  lemma DeferDispatchValid(s: State, id: Id)
    requires Valid(s) && DeferDispatch(s, id).Ok?
    ensures Valid(DeferDispatch(s, id).value)
  {
    hide TeamsOk, OwnersOk, GraphOk, RunsOk, DispatchesOk, LinksOk, BusyOk, AloneOk, ConcurrencyOk, EventsOk;
    var item := s.dispatches[id];
    if item.status == Running && !item.submitted {
      DispatchLinks(s, id);
      var queued := item.(status := Queued);
      var tasks := if item.taskId.None? then s.tasks
                   else s.tasks[item.taskId.value := s.tasks[item.taskId.value].(status := TaskQueued)];
      LeaveValid(s, id, queued, tasks, Idle);
      var t := SetMember(s.(tasks := tasks, dispatches := s.dispatches[id := queued]), item.teamId, item.memberId, Idle);
      var run := s.runs[item.runId];
      RunLimits(s, {}, item.runId);
      var count := if run.dispatchCount == 0 then 0 else run.dispatchCount - 1;
      RunChangeValid(t, {}, item.runId, run.(dispatchCount := count));
      assert DeferDispatch(s, id).value == SetRun(t, item.runId, run.(dispatchCount := count));
    }
  }

  lemma SettleValid(s: State, id: Id, report: Report)
    requires Valid(s) && id in s.dispatches && s.dispatches[id].status == Running
    ensures Settle(s, id, report).Ok? && Valid(Settle(s, id, report).value)
  {
    hide TeamsOk, OwnersOk, GraphOk, RunsOk, DispatchesOk, LinksOk, BusyOk, AloneOk, ConcurrencyOk, EventsOk;
    var item := s.dispatches[id];
    DispatchLinks(s, id);
    var done := item.(status := if report.Errored? then Failed else Succeeded);
    var status := if report.Errored? then Faulted else Idle;
    var closed := SetDispatch(s, id, done);
    if item.taskId.Some? && s.tasks[item.taskId.value].status == TaskRunning {
      var taskId := item.taskId.value;
      var task := s.tasks[taskId];
      var next := if report.Errored? then task.(status := TaskFailed, error := Some(report.error))
                  else task.(status := TaskSucceeded, error := None);
      var tasks := s.tasks[taskId := next];
      LeaveValid(s, id, done, tasks, status);
      EmitValid(SetMember(s.(tasks := tasks, dispatches := s.dispatches[id := done]), item.teamId, item.memberId, status),
                {}, item.teamId, TaskFinished, taskId);
    } else {
      LeaveValid(s, id, done, s.tasks, status);
      assert closed == s.(tasks := s.tasks, dispatches := s.dispatches[id := done]);
    }
  }

  lemma FinishDispatchValid(s: State, id: Id, report: Report)
    requires Valid(s) && FinishDispatch(s, id, report).Ok?
    ensures Valid(FinishDispatch(s, id, report).value)
  {
    hide TeamsOk, OwnersOk, GraphOk, RunsOk, DispatchesOk, LinksOk, BusyOk, AloneOk, ConcurrencyOk, EventsOk;
    var item := s.dispatches[id];
    if item.status == Running {
      SettleValid(s, id, report);
      var settled := Settle(s, id, report).value;
      var run := settled.runs[item.runId];
      if Unfinished(run.status) && run.status != RunInterrupted {
        ReportToLeadValid(settled, id, item, run, report);
        var told := ReportToLead(settled, id, item, run, report).value;
        EmitValid(told, {}, item.teamId, DispatchUpdated, id);
        EmitValid(Emit(told, item.teamId, DispatchUpdated, id), {}, item.teamId, RunUpdated, item.runId);
      } else {
        EmitValid(settled, {}, item.teamId, DispatchUpdated, id);
        EmitValid(Emit(settled, item.teamId, DispatchUpdated, id), {}, item.teamId, RunUpdated, item.runId);
      }
    }
  }

  lemma ReportToLeadValid(s: State, id: Id, item: Dispatch, run: Run, report: Report)
    requires Valid(s) && item.runId in s.runs && s.runs[item.runId] == run && Unfinished(run.status)
    requires ReportToLead(s, id, item, run, report).Ok?
    ensures Valid(ReportToLead(s, id, item, run, report).value)
  {
    hide TeamsOk, OwnersOk, GraphOk, RunsOk, DispatchesOk, LinksOk, BusyOk, AloneOk, ConcurrencyOk, EventsOk;
    var lead := LeadOf(s.teams[item.teamId].members);
    if lead.value != item.memberId {
      SendMessageValid(s, item.teamId, Some(item.memberId), lead, ReportBody(report), Some(id));
    } else if !Outstanding(s.dispatches, item.runId) {
      RunLimits(s, {}, item.runId);
      RunChangeValid(s, {}, item.runId, if report.Errored? then run.(status := RunInterrupted, reason := LeadFailed)
                                        else run.(status := RunCompleted, reason := NoReason));
    }
  }
}
