/** What becomes of tasks, dispatches and members under every command, told from the command and the state before. */
module TeamOutcomes {
  import opened Common
  import opened Texts
  import opened TeamModel
  import opened TeamDependencies
  import opened TeamInvariant
  import opened TeamFrames
  import opened TeamProofs
  import opened TeamOperations
  import opened TeamCancel
  import opened TeamRestart
  import opened TeamCommands
  import opened TeamEffects
  import opened TeamSteps
  import opened TeamTheorems

  predicate IsTurn(s: State, d: Id) {
    d in s.dispatches && s.dispatches[d].status == Running
  }

  predicate IsFor(s: State, d: Id, x: Id) {
    d in s.dispatches && s.dispatches[d].taskId == Some(x)
  }

  /** The task has outstanding work in the run. */
  ghost predicate Works(s: State, r: Id, x: Id) {
    exists d :: IsFor(s, d, x) && s.dispatches[d].runId == r && Active(s.dispatches[d].status)
  }

  /** The status of a task after a command that was accepted. */
  ghost function TaskAfter(s: State, c: Command, x: Id): TaskStatus
    requires x in s.tasks
  {
    var now := s.tasks[x].status;
    match c
    case Begin(d) => if IsFor(s, d, x) then TaskRunning else now
    case Finish(d, report) =>
      if IsTurn(s, d) && IsFor(s, d, x) && now == TaskRunning
      then match report { case Finished(_) => TaskSucceeded case Errored(_) => TaskFailed } else now
    case Defer(d) => if IsTurn(s, d) && !s.dispatches[d].submitted && IsFor(s, d, x) then TaskQueued else now
    case EditTask(_, id, _, edit, _) =>
      if id != x then now
      else match edit.outcome { case None => now case Some(Done) => TaskSucceeded case Some(GivenUp) => TaskFailed }
    case Stop(_, id) => if id == x then TaskCancelled else now
    case Control(_, r, Cancel) => if ActiveTask(now) && Works(s, r, x) then TaskCancelled else now
    case Reopen => if now == TaskRunning then TaskFailed else now
    case _ => now
  }

  /** And its error. */
  function ErrorAfter(s: State, c: Command, x: Id): Option<string>
    requires x in s.tasks
  {
    var task := s.tasks[x];
    match c
    case Finish(d, report) =>
      if IsTurn(s, d) && IsFor(s, d, x) && task.status == TaskRunning
      then match report { case Finished(_) => None case Errored(error) => Some(error) } else task.error
    case Reopen => if task.status == TaskRunning then Some("runtime_restarted") else task.error
    case _ => task.error
  }

  /** An edit counts the version up, and gives the task new dependencies if it has any. */
  predicate Edits(c: Command, x: Id) {
    c.EditTask? && c.taskId == x
  }

  function DependsAfter(s: State, c: Command, x: Id): seq<Id>
    requires x in s.tasks
  {
    if Edits(c, x) && c.edit.dependsOn.Some? then c.edit.dependsOn.value else s.tasks[x].dependsOn
  }

  function DispatchAfter(s: State, c: Command, d: Id): DispatchStatus
    requires d in s.dispatches
  {
    var now := s.dispatches[d].status;
    match c
    case Begin(e) => if e == d then Running else now
    case Finish(e, report) =>
      if e == d && now == Running then match report { case Finished(_) => Succeeded case Errored(_) => Failed } else now
    case Defer(e) => if e == d && now == Running && !s.dispatches[d].submitted then Queued else now
    case Stop(_, x) => if IsFor(s, d, x) && Active(now) then Cancelled else now
    case Control(_, r, Cancel) => if s.dispatches[d].runId == r && Active(now) then Cancelled else now
    case Reopen => if now == Running then Interrupted else now
    case _ => now
  }

  /** A task that was there, and is still, has become what the command says; a new one is the one queued. */
  ghost predicate TaskBecomes(s: State, c: Command, t: State, x: Id) {
    x in t.tasks ==>
      if x in s.tasks
      then t.tasks[x].status == TaskAfter(s, c, x) && t.tasks[x].error == ErrorAfter(s, c, x) &&
           t.tasks[x].teamId == s.tasks[x].teamId && t.tasks[x].memberId == s.tasks[x].memberId &&
           t.tasks[x].version == s.tasks[x].version + (if Edits(c, x) then 1 else 0) &&
           t.tasks[x].dependsOn == DependsAfter(s, c, x)
      else c.Queue? && t.tasks[x] == Task(c.teamId, c.memberId, 1, c.dependsOn, TaskQueued, None)
  }

  /** So has a dispatch, and a new one is queued. */
  ghost predicate DispatchBecomes(s: State, c: Command, t: State, d: Id) {
    d in t.dispatches ==> t.dispatches[d].status == if d in s.dispatches then DispatchAfter(s, c, d) else Queued
  }

  ghost predicate Become(s: State, c: Command, t: State) {
    (forall x :: TaskBecomes(s, c, t, x)) && (forall d :: DispatchBecomes(s, c, t, d))
  }

  // ---------------------------------------------------------------- finishDispatch

  predicate Has(members: seq<Member>, id: Id, status: MemberStatus) {
    exists i :: 0 <= i < |members| && members[i].id == id && members[i].status == status
  }

  lemma SettleTask(s: State, d: Id, report: Report, x: Id)
    requires IsTurn(s, d) && Settle(s, d, report).Ok?
    ensures TaskBecomes(s, Finish(d, report), Settle(s, d, report).value, x)
  {
    hide WithStatus;
  }

  lemma SettleDispatch(s: State, d: Id, report: Report, e: Id)
    requires IsTurn(s, d) && Settle(s, d, report).Ok?
    ensures DispatchBecomes(s, Finish(d, report), Settle(s, d, report).value, e)
    ensures Settle(s, d, report).value.dispatches.Keys == s.dispatches.Keys
  {
    hide WithStatus;
  }

  lemma SettledTeams(s: State, d: Id, report: Report)
    requires IsTurn(s, d) && Settle(s, d, report).Ok?
    requires var item := s.dispatches[d];
             item.taskId.Some? && item.taskId.value in s.tasks ==>
               s.tasks[item.taskId.value].teamId == item.teamId && s.tasks[item.taskId.value].memberId == item.memberId
    ensures var item := s.dispatches[d];
            item.teamId in s.teams &&
            Settle(s, d, report).value.teams ==
              s.teams[item.teamId := s.teams[item.teamId].(members :=
                WithStatus(s.teams[item.teamId].members, item.memberId, if report.Finished? then Idle else Faulted))]
  {
    hide WithStatus;
  }

  lemma WithStatusHas(members: seq<Member>, id: Id, status: MemberStatus)
    requires exists i :: 0 <= i < |members| && members[i].id == id
    ensures Has(WithStatus(members, id, status), id, status)
  {
    var i :| 0 <= i < |members| && members[i].id == id;
    assert WithStatus(members, id, status)[i].id == id;
  }

  lemma SettleMember(s: State, d: Id, report: Report)
    requires Valid(s) && IsTurn(s, d) && Settle(s, d, report).Ok?
    ensures var t := Settle(s, d, report).value;
            var k := s.dispatches[d].teamId;
            k in t.teams && Has(t.teams[k].members, s.dispatches[d].memberId, if report.Finished? then Idle else Faulted)
  {
    hide Settle, WithStatus, Has;
    var item := s.dispatches[d];
    DispatchIs(s, d);
    SettledTeams(s, d, report);
    WithStatusHas(s.teams[item.teamId].members, item.memberId, if report.Finished? then Idle else Faulted);
  }

  lemma DispatchIs(s: State, d: Id)
    requires Valid(s) && IsTurn(s, d)
    ensures var item := s.dispatches[d];
            item.teamId in s.teams && HasMember(s.teams[item.teamId], item.memberId) &&
            (item.taskId.Some? ==> item.taskId.value in s.tasks && s.tasks[item.taskId.value].teamId == item.teamId &&
                                   s.tasks[item.taskId.value].memberId == item.memberId)
  {
    hide TeamsOk, OwnersOk, GraphOk, RunsOk, LinksOk, BusyOk, AloneOk, ConcurrencyOk, EventsOk;
    assert DispatchOk(s.teams, s.tasks, s.messages, s.runs, s.dispatches[d]);
  }

  lemma TaskStays(s: State, c: Command, t: State, u: State, x: Id)
    requires TaskBecomes(s, c, t, x) && u.tasks == t.tasks
    ensures TaskBecomes(s, c, u, x)
  {
    hide TaskAfter, ErrorAfter;
  }

  lemma DispatchStays(s: State, c: Command, t: State, u: State, d: Id)
    requires DispatchBecomes(s, c, t, d) && u.dispatches == t.dispatches
    ensures DispatchBecomes(s, c, u, d)
  {
    hide DispatchAfter;
  }

  lemma GrownTask(s: State, c: Command, t: State, u: State, run: Id, x: Id)
    requires TaskBecomes(s, c, t, x) && Grows(t, u, run)
    ensures TaskBecomes(s, c, u, x) && u.teams == t.teams
  {
    hide TaskAfter, ErrorAfter, EventsGoOn;
  }

  lemma GrownDispatch(s: State, c: Command, t: State, u: State, run: Id, d: Id)
    requires DispatchBecomes(s, c, t, d) && t.dispatches.Keys == s.dispatches.Keys && Grows(t, u, run)
    ensures DispatchBecomes(s, c, u, d)
  {
    hide DispatchAfter, EventsGoOn;
    assert d in t.dispatches <==> d in t.dispatches.Keys;
  }

  /** The report to the lead adds work, and changes nothing else of what became of the turn. */
  lemma ReportAdds(t: State, d: Id, item: Dispatch, run: Run, report: Report)
    requires Valid(t) && ReportToLead(t, d, item, run, report).Ok?
    ensures var u := ReportToLead(t, d, item, run, report).value;
            u.teams == t.teams &&
            ((u.tasks == t.tasks && u.dispatches == t.dispatches) || Grows(t, u, MailRun(t, item.teamId)))
  {
    hide Valid, SendMessage, ReportBody, Outstanding, Grows;
    var lead := LeadOf(t.teams[item.teamId].members);
    if lead.value != item.memberId {
      SendMessageGrows(t, item.teamId, Some(item.memberId), lead, ReportBody(report), Some(d));
      GrowsTeams(t, SendMessage(t, item.teamId, Some(item.memberId), lead, ReportBody(report), Some(d)).value.0,
                 MailRun(t, item.teamId));
    }
  }

  lemma GrowsTeams(s: State, t: State, run: Id)
    requires Grows(s, t, run)
    ensures t.teams == s.teams
  {
  }

  lemma FinishBecomes(s: State, d: Id, report: Report)
    requires Valid(s) && FinishDispatch(s, d, report).Ok?
    ensures Become(s, Finish(d, report), FinishDispatch(s, d, report).value)
    ensures IsTurn(s, d) ==>
              var u, k := FinishDispatch(s, d, report).value, s.dispatches[d].teamId;
              k in u.teams && Has(u.teams[k].members, s.dispatches[d].memberId, if report.Finished? then Idle else Faulted)
  {
    hide Valid, Settle, ReportToLead, TaskBecomes, DispatchBecomes, Has, Grows;
    var u, c := FinishDispatch(s, d, report).value, Finish(d, report);
    if IsTurn(s, d) {
      var t, item := Settle(s, d, report).value, s.dispatches[d];
      SettleValidHere(s, d, report);
      SettleMember(s, d, report);
      var told := t;
      if Unfinished(t.runs[item.runId].status) && t.runs[item.runId].status != RunInterrupted {
        ReportAdds(t, d, item, t.runs[item.runId], report);
        told := ReportToLead(t, d, item, t.runs[item.runId], report).value;
      }
      assert u.tasks == told.tasks && u.dispatches == told.dispatches && u.teams == told.teams;
      hide FinishDispatch, MailRun;
      forall x ensures TaskBecomes(s, c, u, x) {
        SettleTask(s, d, report, x);
        if Grows(t, told, MailRun(t, item.teamId)) {
          GrownTask(s, c, t, told, MailRun(t, item.teamId), x);
        } else {
          TaskStays(s, c, t, told, x);
        }
        TaskStays(s, c, told, u, x);
      }
      forall e ensures DispatchBecomes(s, c, u, e) {
        SettleDispatch(s, d, report, e);
        if Grows(t, told, MailRun(t, item.teamId)) {
          GrownDispatch(s, c, t, told, MailRun(t, item.teamId), e);
        } else {
          DispatchStays(s, c, t, told, e);
        }
        DispatchStays(s, c, told, u, e);
      }
    } else {
      NoTurn(s, d, report);
    }
  }

  lemma SettleValidHere(s: State, d: Id, report: Report)
    requires Valid(s) && IsTurn(s, d) && Settle(s, d, report).Ok?
    ensures Valid(Settle(s, d, report).value)
  {
    hide ValidWhile, Settle;
    SettleValid(s, d, report);
  }

  lemma NoTurn(s: State, d: Id, report: Report)
    requires !IsTurn(s, d)
    ensures Become(s, Finish(d, report), s)
  {
  }

  // ---------------------------------------------------------------- commands that add work, or none

  /** Neither tasks nor the status of work that is there is changed by these. */
  predicate LeavesWork(c: Command) {
    !c.Begin? && !c.Finish? && !c.Defer? && !c.EditTask? && !c.Stop? && !(c.Control? && c.action == Cancel) && !c.Reopen? &&
    !c.Queue?
  }

  lemma LeavesBecome(s: State, c: Command, t: State)
    requires LeavesWork(c)
    requires forall x :: x in t.tasks ==> x in s.tasks && t.tasks[x] == s.tasks[x]
    requires forall d :: d in t.dispatches ==>
               t.dispatches[d].status == if d in s.dispatches then s.dispatches[d].status else Queued
    ensures Become(s, c, t)
  {
  }

  lemma GrowsBecome(s: State, c: Command, t: State, run: Id)
    requires LeavesWork(c) && Grows(s, t, run)
    ensures Become(s, c, t)
  {
    hide Become, LeavesWork;
    LeavesBecome(s, c, t);
  }

  lemma SameBecome(s: State, c: Command, t: State)
    requires LeavesWork(c) && t.tasks == s.tasks && t.dispatches == s.dispatches
    ensures Become(s, c, t)
  {
    hide Become, LeavesWork;
    LeavesBecome(s, c, t);
  }

  lemma StartRunGrows(s: State, teamId: Id, input: string, memberId: Option<Id>)
    requires Valid(s) && StartRun(s, teamId, input, memberId).Ok?
    ensures exists run :: Grows(s, StartRun(s, teamId, input, memberId).value.0, run)
  {
    hide TeamsOk, OwnersOk, GraphOk, RunsOk, DispatchesOk, LinksOk, BusyOk, AloneOk, ConcurrencyOk, EventsOk;
    hide EnsureRun, Enqueue, Grows;
    NextFree(s);
    NextFreeAfter(s);
    EnsureRunGrows(s, teamId);
    EnsureRunFacts(s, teamId);
    var target := if memberId.Some? then memberId else LeadOf(s.teams[teamId].members);
    var (ready, run) := EnsureRun(s, teamId);
    EnqueueGrows(ready, run, target.value, None, None, []);
    GrowsTrans(s, ready, Enqueue(ready, run, target.value, None, None, []).value, run);
  }

  lemma ResumeGrows(s: State, teamId: Id, runId: Id)
    requires Valid(s) && ControlRun(s, teamId, runId, Resume).Ok?
    ensures Grows(s, ControlRun(s, teamId, runId, Resume).value, runId)
  {
    hide TeamsOk, OwnersOk, GraphOk, RunsOk, DispatchesOk, LinksOk, BusyOk, AloneOk, ConcurrencyOk, EventsOk;
    hide Enqueue, Grows, Rebased;
    var run := s.runs[runId];
    var renewed := Run(teamId, RunRunning, run.segment + 1, 0, 0, NoReason);
    var rebased := SetRun(s, runId, renewed).(dispatches := map d | d in s.dispatches :: Rebased(s.dispatches[d], runId));
    NextIsFresh(s);
    RebasedGrows(s, rebased, runId, renewed);
    if run.status == RunInterrupted || run.reason == DependencyFailed {
      var lead := LeadOf(s.teams[teamId].members).value;
      EnqueueGrows(rebased, runId, lead, None, None, []);
      var queued := Enqueue(rebased, runId, lead, None, None, []).value;
      GrowsTrans(s, rebased, queued, runId);
      GrowsEmit(s, queued, runId, teamId, RunUpdated, runId);
    } else {
      GrowsEmit(s, rebased, runId, teamId, RunUpdated, runId);
    }
  }

  lemma QueueGrows(s: State, c: Command) returns (run: Id)
    requires Valid(s) && c.Queue? && Apply(s, c).1.Ok?
    ensures var task := Task(c.teamId, c.memberId, 1, c.dependsOn, TaskQueued, None);
            s.nextId !in s.tasks &&
            Grows(s.(tasks := s.tasks[s.nextId := task], nextId := s.nextId + 1), Apply(s, c).0, run)
  {
    hide TeamsOk, OwnersOk, GraphOk, RunsOk, DispatchesOk, LinksOk, BusyOk, AloneOk, ConcurrencyOk, EventsOk;
    hide EnsureRun, Enqueue, ValidateDependencies, Grows;
    var id := s.nextId;
    var added := s.(tasks := s.tasks[id := Task(c.teamId, c.memberId, 1, c.dependsOn, TaskQueued, None)], nextId := id + 1);
    NextFree(s);
    NextTaskFree(s);
    NextFreeAfter(s);
    EnsureRunGrows(added, c.teamId);
    EnsureRunFacts(added, c.teamId);
    run := EnsureRun(added, c.teamId).1;
    var ready := EnsureRun(added, c.teamId).0;
    EnqueueGrows(ready, run, c.memberId, c.parentId, Some(id), []);
    var queued := Enqueue(ready, run, c.memberId, c.parentId, Some(id), []).value;
    GrowsTrans(added, ready, queued, run);
    GrowsEmit(added, queued, run, c.teamId, TaskAdded, id);
  }

  lemma QueueBecomes(s: State, c: Command)
    requires Valid(s) && c.Queue? && Apply(s, c).1.Ok?
    ensures Become(s, c, Apply(s, c).0)
  {
    hide Valid, QueueTask;
    var run := QueueGrows(s, c);
    hide Apply, EventsGoOn;
  }

  lemma DropBecomes(s: State, teamId: Id)
    requires DeleteTeam(s, teamId).Ok?
    ensures Become(s, Drop(teamId), DeleteTeam(s, teamId).value)
  {
    hide Become, RetainedEvents;
    LeavesBecome(s, Drop(teamId), DeleteTeam(s, teamId).value);
  }

  lemma SubmitBecomes(s: State, d: Id)
    ensures Become(s, Submit(d), SubmitDispatch(s, d))
  {
    hide Become;
    LeavesBecome(s, Submit(d), SubmitDispatch(s, d));
  }

  // ---------------------------------------------------------------- commands that change work

  lemma BeginBecomes(s: State, d: Id)
    requires BeginDispatch(s, d).1.Ok?
    ensures Become(s, Begin(d), BeginDispatch(s, d).0)
  {
    hide BeginDispatch, EventsGoOn, AllSucceeded;
    BeginMoves(s, d);
    if s.dispatches[d].taskId.Some? {
      BeginKeepsFields(s, d);
    }
  }

  lemma BeginKeepsFields(s: State, d: Id)
    requires BeginDispatch(s, d).1.Ok? && d in s.dispatches && s.dispatches[d].taskId.Some?
    ensures var x := s.dispatches[d].taskId.value;
            x in s.tasks && BeginDispatch(s, d).0.tasks == s.tasks[x := s.tasks[x].(status := TaskRunning)]
  {
    hide RunningIn, IsBusy, HasMember, WithStatus;
  }

  lemma DeferBecomes(s: State, d: Id)
    requires DeferDispatch(s, d).Ok?
    ensures Become(s, Defer(d), DeferDispatch(s, d).value)
  {
    hide WithStatus;
  }

  lemma EditBecomes(s: State, c: Command)
    requires c.EditTask? && UpdateTask(s, c.teamId, c.taskId, c.version, c.edit, c.caller).Ok?
    ensures Become(s, c, UpdateTask(s, c.teamId, c.taskId, c.version, c.edit, c.caller).value)
  {
    hide ValidateDependencies, Accepted;
  }

  lemma StopBecomes(s: State, teamId: Id, x: Id)
    requires Valid(s) && CancelTask(s, teamId, x).Ok?
    ensures Become(s, Stop(teamId, x), CancelTask(s, teamId, x).value)
  {
    hide Valid, CancelTask, EventsGoOn;
    var d := CancelTaskForm(s, teamId, x);
  }

  lemma ReopenBecomes(s: State)
    requires Valid(s) && Restart(s).Ok?
    ensures Become(s, Reopen, Restart(s).value)
  {
    hide Restart, RestartTeams, BusyOk, AloneOk, ConcurrencyOk, EventsOk, TeamsOk, OwnersOk, GraphOk, RunsOk, DispatchesOk;
    NoAdoption(s);
    forall d | d in s.dispatches ensures Repaired(s).dispatches[d] == RecoverDispatch(s.dispatches[d]) {
      RepairedDispatch(s, d);
    }
  }

  /** The tasks whose work is stopped with a run. */
  lemma CancelledRun(s: State, teamId: Id, r: Id)
    requires Valid(s) && ControlRun(s, teamId, r, Cancel).Ok?
    ensures var t := ControlRun(s, teamId, r, Cancel).value;
            Valid(t) && !Outstanding(t.dispatches, r) && Quiets(s, t.(runs := s.runs), r)
  {
    hide TeamsOk, OwnersOk, GraphOk, RunsOk, DispatchesOk, LinksOk, BusyOk, AloneOk, ConcurrencyOk, EventsOk;
    hide CancelItems, Quiets, HalfBusy;
    CancelRunValid(s, teamId, r);
    var run := s.runs[r].(status := RunCancelled, reason := NoReason);
    BusyIsHalfBusy(s.teams, s.dispatches, teamId);
    CancelItemsIgnoreRuns(s, s.runs[r := run], r, 0, s.nextId);
    CancelItemsHalt(s, r, 0, s.nextId);
    CancelItemsQuiet(s, r, 0, s.nextId);
    var q := CancelItems(s, r, 0, s.nextId).value;
    QuietsEmit(s, q, r, teamId);
    assert ControlRun(s, teamId, r, Cancel).value.(runs := s.runs) == Emit(q, teamId, RunUpdated, r);
  }

  lemma QuietsEmit(s: State, q: State, r: Id, teamId: Id)
    requires Quiets(s, q, r)
    ensures Quiets(s, Emit(q, teamId, RunUpdated, r), r)
  {
  }

  lemma CancelBecomes(s: State, t: State, teamId: Id, r: Id)
    requires Valid(s) && Valid(t) && !Outstanding(t.dispatches, r) && Quiets(s, t.(runs := s.runs), r)
    ensures Become(s, Control(teamId, r, Cancel), t)
  {
    hide TeamsOk, OwnersOk, GraphOk, RunsOk, DispatchesOk, BusyOk, AloneOk, ConcurrencyOk, EventsOk, EventsGoOn;
    var c := Control(teamId, r, Cancel);
    forall x ensures TaskBecomes(s, c, t, x) {
      CancelledTask(s, t, teamId, r, x);
    }
    forall d ensures DispatchBecomes(s, c, t, d) {
      assert d in t.dispatches <==> d in s.dispatches.Keys;
    }
  }

  lemma CancelledTask(s: State, t: State, teamId: Id, r: Id, x: Id)
    requires Valid(s) && Valid(t) && !Outstanding(t.dispatches, r) && Quiets(s, t.(runs := s.runs), r)
    ensures TaskBecomes(s, Control(teamId, r, Cancel), t, x)
  {
    hide Valid, HasWork, Works, Quiets;
    QuietTask(s, t, r, x);
    if x in s.tasks && ActiveTask(s.tasks[x].status) {
      if Works(s, r, x) {
        WorkStops(s, t, r, x);
      } else if HasWork(s, r, x) {
        ActiveWorks(s, r, x);
      }
    }
  }

  lemma QuietTask(s: State, t: State, r: Id, x: Id)
    requires Quiets(s, t.(runs := s.runs), r)
    ensures (x in t.tasks <==> x in s.tasks) &&
            (x in s.tasks && t.tasks[x] != s.tasks[x] ==>
               ActiveTask(s.tasks[x].status) && HasWork(s, r, x) && t.tasks[x] == s.tasks[x].(status := TaskCancelled))
  {
    hide EventsGoOn, HasWork;
    assert x in t.tasks <==> x in s.tasks.Keys;
  }

  lemma WorkStops(s: State, t: State, r: Id, x: Id)
    requires Valid(t) && !Outstanding(t.dispatches, r) && Quiets(s, t.(runs := s.runs), r) && Works(s, r, x)
    ensures x in t.tasks && !ActiveTask(t.tasks[x].status)
  {
    hide TeamsOk, OwnersOk, GraphOk, RunsOk, DispatchesOk, BusyOk, AloneOk, ConcurrencyOk, EventsOk, EventsGoOn, HasWork;
    var d :| IsFor(s, d, x) && s.dispatches[d].runId == r && Active(s.dispatches[d].status);
    assert d in t.dispatches.Keys;
    assert t.dispatches[d].taskId == Some(x) && !Active(t.dispatches[d].status);
  }

  /** A task's dispatch is active while the task is. */
  lemma ActiveWorks(s: State, r: Id, x: Id)
    requires Valid(s) && x in s.tasks && ActiveTask(s.tasks[x].status) && HasWork(s, r, x)
    ensures Works(s, r, x)
  {
    hide TeamsOk, OwnersOk, GraphOk, RunsOk, DispatchesOk, BusyOk, AloneOk, ConcurrencyOk, EventsOk;
    var d :| d in s.dispatches && s.dispatches[d].runId == r && s.dispatches[d].taskId == Some(x);
    assert Linked(s.dispatches[d].status, s.tasks[x].status) && IsFor(s, d, x);
  }

  // ---------------------------------------------------------------- the laws

  lemma ControlBecomes(s: State, teamId: Id, r: Id, action: Action)
    requires Valid(s) && ControlRun(s, teamId, r, action).Ok?
    ensures Become(s, Control(teamId, r, action), ControlRun(s, teamId, r, action).value)
  {
    hide Valid, Become, ControlRun, Quiets, Grows, Orderly, FinishedStay;
    var t := ControlRun(s, teamId, r, action).value;
    match action
    case Pause =>
      PauseSteps(s, teamId, r);
      SameBecome(s, Control(teamId, r, action), t);
    case Resume =>
      ResumeGrows(s, teamId, r);
      GrowsBecome(s, Control(teamId, r, action), t, r);
    case Cancel =>
      CancelledRun(s, teamId, r);
      CancelBecomes(s, t, teamId, r);
  }

  lemma AddingBecomes(s: State, c: Command)
    requires Valid(s) && Apply(s, c).1.Ok? && (c.Post? || c.Launch? || c.Hire? || c.PauseIdle? || c.Submit? || c.Drop?)
    ensures Become(s, c, Apply(s, c).0)
  {
    hide Valid, Become, Grows, SendMessage, StartRun, Recruit, PauseBlocked, SubmitDispatch, DeleteTeam, Pauses, MailRun;
    var t := Apply(s, c).0;
    match c {
      case Post(teamId, from, to, body, parentId) =>
        SendMessageGrows(s, teamId, from, to, body, parentId);
        GrowsBecome(s, c, t, MailRun(s, teamId));
      case Launch(teamId, input, target) =>
        StartRunGrows(s, teamId, input, target);
        var run :| Grows(s, t, run);
        GrowsBecome(s, c, t, run);
      case Hire(teamId, dispatchId, name) =>
        RecruitForm(s, teamId, dispatchId, name);
        SameBecome(s, c, t);
      case PauseIdle =>
        PauseBlockedPauses(s, 0, s.nextId);
        PausesWork(s, t);
        SameBecome(s, c, t);
      case Submit(d) => SubmitBecomes(s, d);
      case Drop(teamId) => DropBecomes(s, teamId);
    }
  }

  lemma PausesWork(s: State, t: State)
    requires Pauses(s, t)
    ensures t.tasks == s.tasks && t.dispatches == s.dispatches
  {
  }

  /** Every command that is accepted does to every task and every dispatch what is said above, and nothing else. */
  lemma StepBecomes(s: State, c: Command)
    requires Valid(s) && Apply(s, c).1.Ok?
    ensures Become(s, c, Apply(s, c).0)
  {
    hide Valid, Become, BeginDispatch, FinishDispatch, ControlRun, DeleteTeam, CancelTask, SendMessage;
    hide UpdateTeam, UpdateMember, RemoveMember, QueueTask, UpdateTask, StartRun, Recruit, SubmitDispatch, DeferDispatch;
    hide PauseBlocked, Restart, AddMember, CreateTeam, Acknowledge, Has, EventsGoOn;
    match c {
      case Begin(d) => BeginBecomes(s, d);
      case Finish(d, report) => FinishBecomes(s, d, report);
      case Defer(d) => DeferBecomes(s, d);
      case EditTask(_, _, _, _, _) => EditBecomes(s, c);
      case Stop(teamId, x) => StopBecomes(s, teamId, x);
      case Control(teamId, r, action) => ControlBecomes(s, teamId, r, action);
      case Reopen => ReopenBecomes(s);
      case Queue(_, _, _, _, _, _) => QueueBecomes(s, c);
      case _ =>
        if RosterCommand(c) {
          RosterSteps(s, c);
          SameBecome(s, c, Apply(s, c).0);
        } else {
          AddingBecomes(s, c);
        }
    }
  }

  /** A command that is refused changes no task and no dispatch. */
  lemma RefusedKeeps(s: State, c: Command)
    requires Apply(s, c).1.Err?
    ensures Apply(s, c).0.tasks == s.tasks && Apply(s, c).0.dispatches == s.dispatches
  {
    hide FinishDispatch, ControlRun, DeleteTeam, CancelTask, SendMessage, BeginDispatch, LastUnfinished;
    hide UpdateTeam, UpdateMember, RemoveMember, QueueTask, UpdateTask, StartRun, Recruit, SubmitDispatch, DeferDispatch;
    hide PauseBlocked, Restart, AddMember, CreateTeam, Acknowledge, EventsGoOn;
    if c.Begin? && BeginDispatch(s, c.dispatchId).0 != s {
      LimitMoves(s, c.dispatchId);
    }
  }

  /** A task turns succeeded only by a success of its own turn, or when an edit closes it as done; and then it does. */
  lemma SucceedsOnlyBy(s: State, c: Command, x: Id)
    requires Valid(s) && x in s.tasks && s.tasks[x].status != TaskSucceeded && x in Apply(s, c).0.tasks
    ensures Apply(s, c).0.tasks[x].status == TaskSucceeded <==>
              Apply(s, c).1.Ok? &&
              ((c.Finish? && IsTurn(s, c.dispatchId) && IsFor(s, c.dispatchId, x) && s.tasks[x].status == TaskRunning &&
                c.report.Finished?) ||
               (c.EditTask? && c.taskId == x && c.edit.outcome == Some(Done)))
  {
    hide Valid, Apply, DispatchBecomes;
    if Apply(s, c).1.Ok? {
      StepBecomes(s, c);
      assert TaskBecomes(s, c, Apply(s, c).0, x);
    } else {
      RefusedKeeps(s, c);
    }
  }

  /** A turn's report settles its task, its dispatch and its member. */
  lemma FinishOutcome(s: State, d: Id, report: Report, x: Id)
    requires Valid(s) && IsTurn(s, d) && IsFor(s, d, x) && x in s.tasks && s.tasks[x].status == TaskRunning
    requires FinishDispatch(s, d, report).Ok?
    ensures var t := FinishDispatch(s, d, report).value;
            var k := s.dispatches[d].teamId;
            x in t.tasks && d in t.dispatches && k in t.teams &&
            match report
            case Finished(_) =>
              t.tasks[x].status == TaskSucceeded && t.tasks[x].error == None && t.dispatches[d].status == Succeeded &&
              Has(t.teams[k].members, s.dispatches[d].memberId, Idle)
            case Errored(error) =>
              t.tasks[x].status == TaskFailed && t.tasks[x].error == Some(error) && t.dispatches[d].status == Failed &&
              Has(t.teams[k].members, s.dispatches[d].memberId, Faulted)
  {
    hide Valid, FinishDispatch, Has, StartsInOrder, FinishedStay, EventsGoOn, Live, NoneCompletes, Outstanding, ClosedByLead;
    FinishBecomes(s, d, report);
    FinishSteps(s, d, report);
    var t := FinishDispatch(s, d, report).value;
    assert x in t.tasks.Keys;
    assert TaskBecomes(s, Finish(d, report), t, x) && DispatchBecomes(s, Finish(d, report), t, d);
  }
}
