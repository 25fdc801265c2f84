/** What every operation of the store does to tasks, runs, dispatches and event numbers. */
module TeamSteps {
  import opened Common
  import opened Texts
  import opened TeamModel
  import opened TeamDependencies
  import opened TeamInvariant
  import opened TeamFrames
  import opened TeamProofs
  import opened TeamOperations
  import opened TeamControl
  import opened TeamCancel
  import opened TeamRestart
  import opened TeamCommands
  import opened TeamEffects

  /** The common part: tasks start in order, event numbers go up, no run completes, no dispatch is lost. */
  ghost predicate Orderly(s: State, t: State) {
    StartsInOrder(s, t) && EventsGoOn(s, t) && NoneCompletes(s, t) && KeepsDispatches(s, t)
  }

  /** A run that is neither finished nor waiting for the user after an interruption. */
  predicate Going(status: RunStatus) {
    Unfinished(status) && status != RunInterrupted
  }

  /** No such run is left without work. */
  ghost predicate Live(s: State) {
    forall r :: r in s.runs && Going(s.runs[r].status) ==> Outstanding(s.dispatches, r)
  }

  lemma GrowsOrderly(s: State, t: State, run: Id)
    requires Grows(s, t, run)
    ensures Orderly(s, t) && FinishedStay(s, t)
  {
  }

  lemma GrowsLive(s: State, t: State, run: Id)
    requires Live(s) && Grows(s, t, run) && Outstanding(t.dispatches, run)
    ensures Live(t)
  {
    forall r | r in t.runs && Going(t.runs[r].status) ensures Outstanding(t.dispatches, r) {
      if r != run {
        assert Outstanding(s.dispatches, r);
        OutstandingKept(s, t, run, r);
      }
    }
  }

  /** Runs and dispatches are as before. */
  lemma SameWorkLive(s: State, t: State)
    requires t.runs == s.runs && t.dispatches == s.dispatches
    ensures Live(s) <==> Live(t)
  {
    if Live(s) {
      forall r | r in t.runs && Going(t.runs[r].status) ensures Outstanding(t.dispatches, r) {
        assert Outstanding(s.dispatches, r);
      }
    }
    if Live(t) {
      forall r | r in s.runs && Going(s.runs[r].status) ensures Outstanding(s.dispatches, r) {
        assert Outstanding(t.dispatches, r);
      }
    }
  }

  lemma AppendedGoOn(s: State, t: State, event: Event)
    requires t.events == s.events + [event] && event.sequence == s.sequence + 1 && t.sequence == s.sequence + 1
    ensures EventsGoOn(s, t)
  {
  }

  lemma RecordsOrderly(s: State, t: State)
    requires t.tasks == s.tasks && t.runs == s.runs && t.dispatches == s.dispatches && EventsGoOn(s, t)
    ensures Orderly(s, t) && FinishedStay(s, t)
  {
  }

  // ---------------------------------------------------------------- teams and members

  predicate RosterCommand(c: Command) {
    c.NewTeam? || c.EditTeam? || c.Join? || c.EditMember? || c.Leave? || c.Account?
  }

  lemma RosterSteps(s: State, c: Command)
    requires RosterCommand(c)
    ensures var t := Apply(s, c).0;
            t.tasks == s.tasks && t.runs == s.runs && t.dispatches == s.dispatches && EventsGoOn(s, t)
  {
    hide Reordered, Renamed, Without, HasActiveWork, ValidOrder, NameTaken;
    var t := Apply(s, c).0;
    assert t.events == s.events || (|t.events| == |s.events| + 1 && t.sequence == s.sequence + 1 &&
                                    t.events == s.events + [t.events[|s.events|]]);
  }

  lemma EditTaskSteps(s: State, teamId: Id, id: Id, version: nat, edit: TaskEdit, caller: Option<Id>)
    requires UpdateTask(s, teamId, id, version, edit, caller).Ok?
    ensures var t := UpdateTask(s, teamId, id, version, edit, caller).value;
            Orderly(s, t) && FinishedStay(s, t) && t.runs == s.runs && t.dispatches == s.dispatches
  {
    hide ValidateDependencies;
    var t := UpdateTask(s, teamId, id, version, edit, caller).value;
    AppendedGoOn(s, t, Event(teamId, s.sequence + 1, TaskEdited, id));
  }

  lemma RecruitSteps(s: State, teamId: Id, parentId: Id, name: string)
    requires Recruit(s, teamId, parentId, name).Ok?
    ensures var t := Recruit(s, teamId, parentId, name).value.0;
            Orderly(s, t) && FinishedStay(s, t) && (Live(s) ==> Live(t))
  {
    hide AddMember, Outstanding;
    RosterSteps(s, Join(teamId, name));
    RecruitForm(s, teamId, parentId, name);
    var t := Recruit(s, teamId, parentId, name).value.0;
    assert Outstanding(t.dispatches, s.dispatches[parentId].runId) by { ActiveOutstanding(t.dispatches, parentId); }
  }

  lemma ActiveOutstanding(dispatches: map<Id, Dispatch>, d: Id)
    requires d in dispatches && Active(dispatches[d].status)
    ensures Outstanding(dispatches, dispatches[d].runId)
  {
  }

  lemma RecruitForm(s: State, teamId: Id, parentId: Id, name: string)
    requires Recruit(s, teamId, parentId, name).Ok?
    ensures var t := Recruit(s, teamId, parentId, name).value.0;
            parentId in s.dispatches && s.dispatches[parentId].status == Running &&
            t.tasks == s.tasks && t.dispatches == s.dispatches && EventsGoOn(s, t) &&
            s.dispatches[parentId].runId in s.runs &&
            exists run :: t.runs == s.runs[s.dispatches[parentId].runId := run] && Going(run.status)
  {
  }

  // ---------------------------------------------------------------- new work

  lemma QueueTaskSteps(s: State, teamId: Id, memberId: Id, title: string, input: string, dependsOn: seq<Id>,
                       parentId: Option<Id>)
    requires Valid(s) && QueueTask(s, teamId, memberId, title, input, dependsOn, parentId).Ok?
    ensures var (t, id) := QueueTask(s, teamId, memberId, title, input, dependsOn, parentId).value;
            Orderly(s, t) && FinishedStay(s, t) && (Live(s) ==> Live(t)) &&
            id == s.nextId && id !in s.tasks && t.tasks.Keys == s.tasks.Keys + {id} && HasDispatch(t.dispatches, id)
  {
    hide TeamsOk, OwnersOk, GraphOk, RunsOk, DispatchesOk, LinksOk, BusyOk, AloneOk, ConcurrencyOk, EventsOk;
    hide EnsureRun, Enqueue, ValidateDependencies, Grows, Outstanding, Live, Orderly, FinishedStay, HasDispatch;
    var id := s.nextId;
    var task := Task(teamId, memberId, 1, dependsOn, TaskQueued, None);
    var added := s.(tasks := s.tasks[id := task], nextId := id + 1);
    NextFree(s);
    NextTaskFree(s);
    NextFreeAfter(s);
    EnsureRunGrows(added, teamId);
    EnsureRunFacts(added, teamId);
    var (ready, run) := EnsureRun(added, teamId);
    EnqueueGrows(ready, run, memberId, parentId, Some(id), []);
    EnqueueAdds(ready, run, memberId, parentId, Some(id), []);
    var queued := Enqueue(ready, run, memberId, parentId, Some(id), []).value;
    GrowsTrans(added, ready, queued, run);
    GrowsEmit(added, queued, run, teamId, TaskAdded, id);
    var t := Emit(queued, teamId, TaskAdded, id);
    GrowsTasks(added, t, run);
    AddedHasDispatch(t, ready.nextId, id);
    NewTaskSteps(s, added, t, run, id);
  }

  lemma GrowsTasks(s: State, t: State, run: Id)
    requires Grows(s, t, run)
    ensures t.tasks == s.tasks
  {
  }

  lemma AddedHasDispatch(t: State, d: Id, id: Id)
    requires d in t.dispatches && t.dispatches[d].taskId == Some(id)
    ensures HasDispatch(t.dispatches, id)
  {
  }

  lemma NextTaskFree(s: State)
    requires OwnersOk(s.teams, s.tasks, s.messages, s.runs, s.nextId)
    ensures s.nextId !in s.tasks
  {
  }

  lemma NextFreeAfter(s: State)
    requires OwnersOk(s.teams, s.tasks, s.messages, s.runs, s.nextId)
    requires DispatchesOk(s.teams, s.tasks, s.messages, s.runs, s.dispatches, s.nextId)
    ensures forall id :: id > s.nextId ==> id !in s.runs && id !in s.dispatches
  {
  }

  lemma NewTaskSteps(s: State, added: State, t: State, run: Id, id: Id)
    requires id !in s.tasks && added.runs == s.runs && added.dispatches == s.dispatches
    requires added.events == s.events && added.sequence == s.sequence
    requires id in added.tasks && added.tasks[id].status == TaskQueued
    requires added.tasks == s.tasks[id := added.tasks[id]]
    requires Grows(added, t, run) && Outstanding(t.dispatches, run)
    ensures Orderly(s, t) && FinishedStay(s, t) && (Live(s) ==> Live(t))
    ensures t.tasks.Keys == s.tasks.Keys + {id}
  {
    GrowsOrderly(added, t, run);
    if Live(s) {
      SameWorkLive(s, added);
      GrowsLive(added, t, run);
    }
  }

  lemma StartRunSteps(s: State, teamId: Id, input: string, memberId: Option<Id>)
    requires Valid(s) && StartRun(s, teamId, input, memberId).Ok?
    ensures var t := StartRun(s, teamId, input, memberId).value.0;
            Orderly(s, t) && FinishedStay(s, t) && (Live(s) ==> Live(t)) && t.tasks == s.tasks
  {
    hide TeamsOk, OwnersOk, GraphOk, RunsOk, DispatchesOk, LinksOk, BusyOk, AloneOk, ConcurrencyOk, EventsOk;
    hide EnsureRun, Enqueue, Grows, Outstanding, Live, Orderly, FinishedStay;
    NextFree(s);
    NextFreeAfter(s);
    EnsureRunGrows(s, teamId);
    EnsureRunFacts(s, teamId);
    var target := if memberId.Some? then memberId else LeadOf(s.teams[teamId].members);
    var (ready, run) := EnsureRun(s, teamId);
    EnqueueGrows(ready, run, target.value, None, None, []);
    EnqueueAdds(ready, run, target.value, None, None, []);
    var t := Enqueue(ready, run, target.value, None, None, []).value;
    GrowsTrans(s, ready, t, run);
    GrowsTasks(s, t, run);
    GrowsOrderly(s, t, run);
    if Live(s) {
      GrowsLive(s, t, run);
    }
  }

  lemma SendMessageSteps(s: State, teamId: Id, from: Option<Id>, to: Option<Id>, body: string, parentId: Option<Id>)
    requires Valid(s) && SendMessage(s, teamId, from, to, body, parentId).Ok?
    ensures var t := SendMessage(s, teamId, from, to, body, parentId).value.0;
            Orderly(s, t) && FinishedStay(s, t) && t.tasks == s.tasks
    ensures var t := SendMessage(s, teamId, from, to, body, parentId).value.0;
            Live(s) ==> (Live(t) <==> Targets(s.teams[teamId], from, to) != [] || MailRun(s, teamId) in s.runs)
  {
    hide Valid, SendMessage, Grows, Outstanding, Live, Orderly, FinishedStay, MailRun, Targets;
    SendMessageGrows(s, teamId, from, to, body, parentId);
    var t := SendMessage(s, teamId, from, to, body, parentId).value.0;
    var run := MailRun(s, teamId);
    GrowsTasks(s, t, run);
    GrowsOrderly(s, t, run);
    if Live(s) {
      MessageTeam(s, teamId, from, to, body, parentId);
      if Targets(s.teams[teamId], from, to) != [] {
        GrowsLive(s, t, run);
      } else {
        NobodyReceives(s, teamId, from, to, body, parentId);
        if run in s.runs {
          SameWorkLive(s, t);
        } else {
          EmptyRunStranded(s, t, run);
        }
      }
    }
  }

  lemma MessageTeam(s: State, teamId: Id, from: Option<Id>, to: Option<Id>, body: string, parentId: Option<Id>)
    requires SendMessage(s, teamId, from, to, body, parentId).Ok?
    ensures teamId in s.teams
  {
  }

  lemma EmptyRunStranded(s: State, t: State, run: Id)
    requires Valid(s) && t.dispatches == s.dispatches && run !in s.runs && run in t.runs && t.runs[run].status == RunRunning
    ensures !Live(t)
  {
    hide TeamsOk, OwnersOk, GraphOk, RunsOk, LinksOk, BusyOk, AloneOk, ConcurrencyOk, EventsOk;
    forall d | d in s.dispatches ensures s.dispatches[d].runId != run {
      assert DispatchOk(s.teams, s.tasks, s.messages, s.runs, s.dispatches[d]);
    }
    assert !Outstanding(t.dispatches, run);
  }

  // ---------------------------------------------------------------- one dispatch or run moves

  /** Dispatch `d`, task `x` and run `r` may have changed, and events were added. */
  ghost predicate Moves(s: State, t: State, d: Id, x: Option<Id>, r: Id) {
    d in s.dispatches && d in t.dispatches && t.dispatches[d].taskId == s.dispatches[d].taskId &&
    t.dispatches[d].runId == s.dispatches[d].runId &&
    t.dispatches == s.dispatches[d := t.dispatches[d]] &&
    t.tasks.Keys == s.tasks.Keys &&
    (forall y :: y in s.tasks && Some(y) != x ==> t.tasks[y] == s.tasks[y]) &&
    (forall y :: y in s.tasks ==> t.tasks[y].dependsOn == s.tasks[y].dependsOn) &&
    t.runs.Keys == s.runs.Keys && (forall q :: q in s.runs && q != r ==> t.runs[q] == s.runs[q]) &&
    EventsGoOn(s, t)
  }

  lemma MovesOrderly(s: State, t: State, d: Id, x: Option<Id>, r: Id)
    requires Moves(s, t, d, x, r)
    requires x.Some? && x.value in s.tasks && Started(t.tasks[x.value].status) ==>
               Started(s.tasks[x.value].status) || AllSucceeded(s.tasks, s.tasks[x.value].dependsOn)
    requires r in s.runs && t.runs[r].status == RunCompleted ==> s.runs[r].status == RunCompleted
    ensures Orderly(s, t)
  {
    forall y | y in t.tasks ensures y in s.tasks {
      assert y in s.tasks.Keys;
    }
  }

  lemma MovesLive(s: State, t: State, d: Id, x: Option<Id>)
    requires d in s.dispatches && Moves(s, t, d, x, s.dispatches[d].runId) && Live(s)
    requires Active(t.dispatches[d].status)
    requires s.dispatches[d].runId in s.runs
    ensures Live(t)
  {
    forall q | q in t.runs && Going(t.runs[q].status) ensures Outstanding(t.dispatches, q) {
      assert q in s.runs.Keys;
      if q == s.dispatches[d].runId {
        ActiveOutstanding(t.dispatches, d);
      } else {
        var e :| e in s.dispatches && s.dispatches[e].runId == q && Active(s.dispatches[e].status);
        assert t.dispatches[e] == s.dispatches[e];
      }
    }
  }

  lemma BeginSteps(s: State, id: Id)
    requires Valid(s)
    ensures var t := BeginDispatch(s, id).0;
            Orderly(s, t) && FinishedStay(s, t) && (Live(s) ==> Live(t)) && t.tasks.Keys == s.tasks.Keys
  {
    hide Valid, RunningIn, IsBusy, HasMember, Live;
    var (t, r) := BeginDispatch(s, id);
    if t != s {
      var item := s.dispatches[id];
      if r.Err? {
        LimitMoves(s, id);
        hide BeginDispatch;
        MovesOrderly(s, t, id, None, item.runId);
        if Live(s) {
          MovesLive(s, t, id, None);
        }
      } else {
        BeginMoves(s, id);
        hide BeginDispatch;
        MovesOrderly(s, t, id, item.taskId, item.runId);
        if Live(s) {
          MovesLive(s, t, id, item.taskId);
        }
      }
    }
  }

  /** A dispatch that meets the limit of its run stays queued. */
  lemma LimitMoves(s: State, id: Id)
    requires BeginDispatch(s, id).0 != s && BeginDispatch(s, id).1.Err?
    ensures var t := BeginDispatch(s, id).0;
            id in s.dispatches && s.dispatches[id].runId in s.runs && t.dispatches == s.dispatches && t.tasks == s.tasks &&
            Moves(s, t, id, None, s.dispatches[id].runId) && s.runs[s.dispatches[id].runId].status == RunRunning
  {
    hide RunningIn, IsBusy, HasMember;
    var t, item := BeginDispatch(s, id).0, s.dispatches[id];
    AppendedGoOn(s, t, Event(item.teamId, s.sequence + 1, RunUpdated, item.runId));
    assert t.dispatches == s.dispatches[id := t.dispatches[id]];
  }

  lemma BeginMoves(s: State, id: Id)
    requires BeginDispatch(s, id).1.Ok?
    ensures var t := BeginDispatch(s, id).0;
            id in s.dispatches && s.dispatches[id].runId in s.runs &&
            Moves(s, t, id, s.dispatches[id].taskId, s.dispatches[id].runId) && t.dispatches[id].status == Running &&
            t.runs[s.dispatches[id].runId].status == RunRunning && s.runs[s.dispatches[id].runId].status == RunRunning
    ensures var t := BeginDispatch(s, id).0;
            var x := s.dispatches[id].taskId;
            x.Some? ==> x.value in s.tasks && s.tasks[x.value].status == TaskQueued &&
                        t.tasks[x.value].status == TaskRunning &&
                        AllSucceeded(s.tasks, s.tasks[x.value].dependsOn)
  {
    hide RunningIn, IsBusy, HasMember;
    var item := s.dispatches[id];
    var t := BeginDispatch(s, id).0;
    if item.taskId.Some? {
      assert t.events == s.events + [Event(s.tasks[item.taskId.value].teamId, s.sequence + 1, TaskStarted, item.taskId.value),
                                     Event(item.teamId, s.sequence + 2, DispatchUpdated, id)];
    }
  }

  lemma DeferSteps(s: State, id: Id)
    requires DeferDispatch(s, id).Ok?
    ensures var t := DeferDispatch(s, id).value;
            Orderly(s, t) && (Live(s) ==> Live(t)) && t.tasks.Keys == s.tasks.Keys
  {
    hide Live;
    var t := DeferDispatch(s, id).value;
    var item := s.dispatches[id];
    if item.status == Running && !item.submitted {
      MovesOrderly(s, t, id, item.taskId, item.runId);
      if Live(s) {
        MovesLive(s, t, id, item.taskId);
      }
    }
  }

  lemma SubmitSteps(s: State, id: Id)
    ensures var t := SubmitDispatch(s, id);
            Orderly(s, t) && FinishedStay(s, t) && (Live(s) ==> Live(t)) && t.tasks == s.tasks
  {
    hide Live;
    var t := SubmitDispatch(s, id);
    if t != s {
      MovesOrderly(s, t, id, None, s.dispatches[id].runId);
      if Live(s) {
        SubmitLive(s, t, id);
      }
    }
  }

  lemma SubmitLive(s: State, t: State, id: Id)
    requires Live(s) && t == SubmitDispatch(s, id)
    ensures Live(t)
  {
    forall r | r in t.runs && Going(t.runs[r].status) ensures Outstanding(t.dispatches, r) {
      var d :| d in s.dispatches && s.dispatches[d].runId == r && Active(s.dispatches[d].status);
      assert t.dispatches[d].runId == r && Active(t.dispatches[d].status);
    }
  }

  // ---------------------------------------------------------------- cancelTask

  /** The run loses its last outstanding dispatch with the task. */
  ghost predicate OnlyWork(s: State, taskId: Id) {
    exists d :: d in s.dispatches && s.dispatches[d].taskId == Some(taskId) &&
                s.dispatches[d].runId in s.runs && Going(s.runs[s.dispatches[d].runId].status) &&
                forall e :: e in s.dispatches && e != d && s.dispatches[e].runId == s.dispatches[d].runId ==>
                  !Active(s.dispatches[e].status)
  }

  lemma CancelTaskForm(s: State, teamId: Id, id: Id) returns (d: Id)
    requires Valid(s) && CancelTask(s, teamId, id).Ok?
    ensures var t := CancelTask(s, teamId, id).value;
            d in s.dispatches && s.dispatches[d].taskId == Some(id) && Active(s.dispatches[d].status) &&
            (forall e :: e in s.dispatches && s.dispatches[e].taskId == Some(id) ==> e == d) &&
            t.dispatches == s.dispatches[d := s.dispatches[d].(status := Cancelled)] && t.runs == s.runs &&
            id in s.tasks && ActiveTask(s.tasks[id].status) &&
            t.tasks == s.tasks[id := s.tasks[id].(status := TaskCancelled)] &&
            EventsGoOn(s, t) && s.dispatches[d].runId in s.runs
  {
    hide TeamsOk, OwnersOk, GraphOk, RunsOk, DispatchesOk, LinksOk, BusyOk, AloneOk, ConcurrencyOk, EventsOk;
    hide StoppedFor;
    d := TaskDispatch(s, id);
    DispatchLinks(s, d);
    OneStopped(s.dispatches, id, d);
    var t := CancelTask(s, teamId, id).value;
    AppendedGoOn(s, t, Event(teamId, s.sequence + 1, TaskStopped, id));
  }

  lemma CancelTaskSteps(s: State, teamId: Id, id: Id)
    requires Valid(s) && CancelTask(s, teamId, id).Ok?
    ensures var t := CancelTask(s, teamId, id).value;
            Orderly(s, t) && FinishedStay(s, t) && t.tasks.Keys == s.tasks.Keys &&
            (Live(s) ==> (Live(t) <==> !OnlyWork(s, id)))
  {
    hide Valid, CancelTask, Live, OnlyWork;
    var d := CancelTaskForm(s, teamId, id);
    var t := CancelTask(s, teamId, id).value;
    MovesOrderly(s, t, d, Some(id), s.dispatches[d].runId);
    if Live(s) {
      LastWork(s, t, d, id);
    }
  }

  lemma LastWork(s: State, t: State, d: Id, id: Id)
    requires Live(s) && d in s.dispatches && s.dispatches[d].taskId == Some(id) && Active(s.dispatches[d].status)
    requires forall e :: e in s.dispatches && s.dispatches[e].taskId == Some(id) ==> e == d
    requires t.dispatches == s.dispatches[d := s.dispatches[d].(status := Cancelled)] && t.runs == s.runs
    requires s.dispatches[d].runId in s.runs
    ensures Live(t) <==> !OnlyWork(s, id)
  {
    var r := s.dispatches[d].runId;
    if OnlyWork(s, id) {
      assert !Outstanding(t.dispatches, r);
    } else {
      forall q | q in t.runs && Going(t.runs[q].status) ensures Outstanding(t.dispatches, q) {
        if q == r {
          var e :| e in s.dispatches && e != d && s.dispatches[e].runId == r && Active(s.dispatches[e].status);
          assert t.dispatches[e] == s.dispatches[e];
        } else {
          var e :| e in s.dispatches && s.dispatches[e].runId == q && Active(s.dispatches[e].status);
          assert t.dispatches[e] == s.dispatches[e];
        }
      }
    }
  }

  // ---------------------------------------------------------------- controlRun

  lemma PauseSteps(s: State, teamId: Id, runId: Id)
    requires ControlRun(s, teamId, runId, Pause).Ok?
    ensures var t := ControlRun(s, teamId, runId, Pause).value;
            Orderly(s, t) && FinishedStay(s, t) && t.tasks == s.tasks && t.dispatches == s.dispatches && runId in s.runs
    ensures var t := ControlRun(s, teamId, runId, Pause).value;
            Live(s) ==> (Live(t) <==> Outstanding(s.dispatches, runId))
  {
    hide Outstanding;
    var t := ControlRun(s, teamId, runId, Pause).value;
    AppendedGoOn(s, t, Event(teamId, s.sequence + 1, RunUpdated, runId));
    assert t.runs[runId].status == RunPaused;
  }

  lemma ResumeSteps(s: State, teamId: Id, runId: Id)
    requires Valid(s) && ControlRun(s, teamId, runId, Resume).Ok?
    ensures var t := ControlRun(s, teamId, runId, Resume).value;
            Orderly(s, t) && FinishedStay(s, t) && (Live(s) ==> Live(t)) && t.tasks == s.tasks
  {
    hide TeamsOk, OwnersOk, GraphOk, RunsOk, DispatchesOk, LinksOk, BusyOk, AloneOk, ConcurrencyOk, EventsOk;
    hide Enqueue, Grows, Outstanding, Live, Orderly, FinishedStay, Rebased;
    var run := s.runs[runId];
    var renewed := Run(teamId, RunRunning, run.segment + 1, 0, 0, NoReason);
    var rebased := SetRun(s, runId, renewed).(dispatches := map d | d in s.dispatches :: Rebased(s.dispatches[d], runId));
    NextIsFresh(s);
    RebasedGrows(s, rebased, runId, renewed);
    if run.status == RunInterrupted || run.reason == DependencyFailed {
      var lead := LeadOf(s.teams[teamId].members).value;
      EnqueueGrows(rebased, runId, lead, None, None, []);
      EnqueueAdds(rebased, runId, lead, None, None, []);
      var queued := Enqueue(rebased, runId, lead, None, None, []).value;
      GrowsTrans(s, rebased, queued, runId);
      GrowsEmit(s, queued, runId, teamId, RunUpdated, runId);
      ResumeGrown(s, Emit(queued, teamId, RunUpdated, runId), runId);
    } else {
      GrowsEmit(s, rebased, runId, teamId, RunUpdated, runId);
      if Live(s) {
        LiveHere(s, runId);
        OutstandingKept(s, rebased, runId, runId);
      }
      ResumeGrown(s, Emit(rebased, teamId, RunUpdated, runId), runId);
    }
  }

  lemma LiveHere(s: State, r: Id)
    requires Live(s) && r in s.runs && Going(s.runs[r].status)
    ensures Outstanding(s.dispatches, r)
  {
  }

  lemma RebasedGrows(s: State, t: State, runId: Id, run: Run)
    requires runId in s.runs && Unfinished(s.runs[runId].status) && run.teamId == s.runs[runId].teamId
    requires run.status == RunRunning
    requires t == SetRun(s, runId, run).(dispatches := map d | d in s.dispatches :: Rebased(s.dispatches[d], runId))
    ensures Grows(s, t, runId)
  {
  }

  lemma ResumeGrown(s: State, t: State, runId: Id)
    requires Grows(s, t, runId) && (Live(s) ==> Outstanding(t.dispatches, runId))
    ensures Orderly(s, t) && FinishedStay(s, t) && (Live(s) ==> Live(t)) && t.tasks == s.tasks
  {
    GrowsOrderly(s, t, runId);
    if Live(s) {
      GrowsLive(s, t, runId);
    }
  }

  ghost predicate HasWork(s: State, runId: Id, x: Id) {
    exists d :: d in s.dispatches && s.dispatches[d].runId == runId && s.dispatches[d].taskId == Some(x)
  }

  /** Work of one run stops: its dispatches and their tasks change only from active to cancelled. */
  ghost predicate Quiets(s: State, t: State, runId: Id) {
    t.runs == s.runs && t.tasks.Keys == s.tasks.Keys && t.dispatches.Keys == s.dispatches.Keys && EventsGoOn(s, t) &&
    (forall x :: x in s.tasks ==>
       t.tasks[x] == s.tasks[x] ||
       (ActiveTask(s.tasks[x].status) && HasWork(s, runId, x) && t.tasks[x] == s.tasks[x].(status := TaskCancelled))) &&
    forall d :: d in s.dispatches ==>
      t.dispatches[d] == s.dispatches[d] ||
      (s.dispatches[d].runId == runId && Active(s.dispatches[d].status) && t.dispatches[d] == s.dispatches[d].(status := Cancelled))
  }

  lemma HaltedQuiets(s: State, id: Id)
    requires id in s.dispatches && s.dispatches[id].teamId in s.teams && Active(s.dispatches[id].status)
    ensures Quiets(s, Halted(s, id), s.dispatches[id].runId)
  {
    hide WithStatus;
    assert s.dispatches[id].taskId.Some? ==> HasWork(s, s.dispatches[id].runId, s.dispatches[id].taskId.value);
  }

  lemma QuietsTrans(a: State, b: State, c: State, runId: Id)
    requires Quiets(a, b, runId) && Quiets(b, c, runId)
    ensures Quiets(a, c, runId)
  {
    forall x | x in a.tasks ensures x in b.tasks {
      assert x in a.tasks.Keys;
    }
    forall x | x in a.dispatches ensures x in b.dispatches {
      assert x in a.dispatches.Keys;
    }
    forall x: Id | HasWork(b, runId, x) ensures HasWork(a, runId, x) {
      var d :| d in b.dispatches && b.dispatches[d].runId == runId && b.dispatches[d].taskId == Some(x);
      assert d in a.dispatches.Keys;
    }
  }

  lemma {:induction false} CancelItemsQuiet(s: State, runId: Id, first: nat, bound: nat)
    requires runId in s.runs && Halting(s, s.runs[runId].teamId)
    requires CancelItems(s, runId, first, bound).Ok?
    ensures Quiets(s, CancelItems(s, runId, first, bound).value, runId)
    decreases bound - first
  {
    hide TeamsOk, OwnersOk, GraphOk, RunsOk, DispatchesOk, LinksOk, BusyOk, AloneOk, ConcurrencyOk, EventsOk;
    hide HalfBusy, CancelItem, Quiets, HasWork;
    if first < bound {
      if first in s.dispatches && s.dispatches[first].runId == runId && Active(s.dispatches[first].status) {
        DispatchTeam(s, first);
        CancelItemForm(s, runId, first);
        HaltedKeeps(s, first);
        HaltedQuiets(s, first);
        CancelItemsQuiet(Halted(s, first), runId, first + 1, bound);
        QuietsTrans(s, Halted(s, first), CancelItems(Halted(s, first), runId, first + 1, bound).value, runId);
      } else {
        SkippedItem(s, runId, first);
        CancelItemsQuiet(s, runId, first + 1, bound);
      }
    } else {
      QuietsSelf(s, runId);
    }
  }

  lemma SkippedItem(s: State, runId: Id, id: Id)
    requires id !in s.dispatches || s.dispatches[id].runId != runId || !Active(s.dispatches[id].status)
    ensures CancelItem(s, runId, id) == Ok(s)
  {
  }

  lemma QuietsSelf(s: State, runId: Id)
    ensures Quiets(s, s, runId)
  {
  }

  lemma CancelRunSteps(s: State, teamId: Id, runId: Id)
    requires Valid(s) && ControlRun(s, teamId, runId, Cancel).Ok?
    ensures var t := ControlRun(s, teamId, runId, Cancel).value;
            Orderly(s, t) && FinishedStay(s, t) && (Live(s) ==> Live(t)) && t.tasks.Keys == s.tasks.Keys
  {
    hide TeamsOk, OwnersOk, GraphOk, RunsOk, DispatchesOk, LinksOk, BusyOk, AloneOk, ConcurrencyOk, EventsOk;
    hide CancelItems, Quiets, Live, Orderly, FinishedStay;
    var run := s.runs[runId].(status := RunCancelled, reason := NoReason);
    BusyIsHalfBusy(s.teams, s.dispatches, teamId);
    CancelItemsIgnoreRuns(s, s.runs[runId := run], runId, 0, s.nextId);
    CancelItemsHalt(s, runId, 0, s.nextId);
    CancelItemsQuiet(s, runId, 0, s.nextId);
    QuietRunSteps(s, CancelItems(s, runId, 0, s.nextId).value, teamId, runId, run);
  }

  lemma QuietRunSteps(s: State, q: State, teamId: Id, runId: Id, run: Run)
    requires Quiets(s, q, runId) && runId in s.runs && run.status == RunCancelled
    ensures var t := Emit(SetRun(q, runId, run), teamId, RunUpdated, runId);
            Orderly(s, t) && FinishedStay(s, t) && (Live(s) ==> Live(t)) && t.tasks.Keys == s.tasks.Keys
  {
    var t := Emit(SetRun(q, runId, run), teamId, RunUpdated, runId);
    AppendedGoOn(q, t, Event(teamId, q.sequence + 1, RunUpdated, runId));
    forall x | x in t.tasks ensures x in s.tasks {
      assert x in s.tasks.Keys;
    }
    forall x | x in s.dispatches ensures x in t.dispatches {
      assert x in s.dispatches.Keys;
    }
    if Live(s) {
      forall r | r in t.runs && Going(t.runs[r].status) ensures Outstanding(t.dispatches, r) {
        var d :| d in s.dispatches && s.dispatches[d].runId == r && Active(s.dispatches[d].status);
        assert t.dispatches[d] == s.dispatches[d];
      }
    }
  }

  // ---------------------------------------------------------------- pauseBlockedRuns

  /** Runs may have paused with work outstanding. */
  ghost predicate Pauses(s: State, t: State) {
    t.tasks == s.tasks && t.dispatches == s.dispatches && t.runs.Keys == s.runs.Keys && EventsGoOn(s, t) &&
    forall r :: r in s.runs ==>
      t.runs[r] == s.runs[r] || (s.runs[r].status == RunRunning && t.runs[r].status == RunPaused)
  }

  lemma PausesTrans(a: State, b: State, c: State)
    requires Pauses(a, b) && Pauses(b, c)
    ensures Pauses(a, c)
  {
    forall x | x in a.runs ensures x in b.runs {
      assert x in a.runs.Keys;
    }
  }

  lemma PauseOne(s: State, r: Id, run: Run)
    requires r in s.runs && s.runs[r].status == RunRunning && run.status == RunPaused
    ensures Pauses(s, Emit(SetRun(s, r, run), run.teamId, RunUpdated, r))
  {
  }

  lemma {:induction false} PauseBlockedPauses(s: State, first: nat, bound: nat)
    ensures Pauses(s, PauseBlocked(s, first, bound))
    decreases bound - first
  {
    hide Pauses, Blocked;
    if first >= bound {
      PausesSelf(s);
    } else if Blocked(s, first) {
      BlockedRun(s, first);
      var run := s.runs[first].(status := RunPaused, reason := DependencyFailed);
      PauseOne(s, first, run);
      var next := Emit(SetRun(s, first, run), run.teamId, RunUpdated, first);
      PauseBlockedPauses(next, first + 1, bound);
      PausesTrans(s, next, PauseBlocked(next, first + 1, bound));
    } else {
      PauseBlockedPauses(s, first + 1, bound);
    }
  }

  lemma PausesSelf(s: State)
    ensures Pauses(s, s)
  {
  }

  lemma PauseBlockedSteps(s: State)
    ensures var t := PauseBlocked(s, 0, s.nextId);
            Orderly(s, t) && FinishedStay(s, t) && (Live(s) ==> Live(t)) && t.tasks == s.tasks
  {
    hide PauseBlocked, Pauses, Orderly, FinishedStay, Live;
    PauseBlockedPauses(s, 0, s.nextId);
    PausesOrderly(s, PauseBlocked(s, 0, s.nextId));
    PausesLive(s, PauseBlocked(s, 0, s.nextId));
  }

  lemma PausesOrderly(s: State, t: State)
    requires Pauses(s, t)
    ensures Orderly(s, t) && FinishedStay(s, t) && t.tasks == s.tasks
  {
    forall r | r in t.runs ensures r in s.runs {
      assert r in s.runs.Keys;
    }
  }

  lemma PausesLive(s: State, t: State)
    requires Pauses(s, t)
    ensures Live(s) ==> Live(t)
  {
    hide EventsGoOn, Outstanding;
    forall r | Live(s) && r in t.runs && Going(t.runs[r].status) ensures Outstanding(t.dispatches, r) {
      assert r in s.runs.Keys;
      assert Outstanding(s.dispatches, r);
    }
  }

  // ---------------------------------------------------------------- delete

  lemma DropSteps(s: State, teamId: Id)
    requires Valid(s) && DeleteTeam(s, teamId).Ok?
    ensures var t := DeleteTeam(s, teamId).value;
            StartsInOrder(s, t) && FinishedStay(s, t) && EventsGoOn(s, t) && NoneCompletes(s, t) &&
            (Live(s) ==> Live(t)) && t.tasks.Keys <= s.tasks.Keys
    ensures var t := DeleteTeam(s, teamId).value;
            forall x :: x in t.tasks && HasDispatch(s.dispatches, x) ==> HasDispatch(t.dispatches, x)
  {
    hide TeamsOk, OwnersOk, GraphOk, RunsOk, LinksOk, BusyOk, AloneOk, ConcurrencyOk, EventsOk;
    var t := DeleteTeam(s, teamId).value;
    RetainedAmong(Emit(s, teamId, TeamRemoved, teamId).events, teamId);
    DeletedWork(s, t, teamId);
  }

  lemma {:induction false} RetainedAmong(events: seq<Event>, teamId: Id)
    ensures forall e :: e in RetainedEvents(events, teamId) ==> e in events
  {
    if events != [] {
      RetainedAmong(events[..|events| - 1], teamId);
    }
  }

  lemma DeletedWork(s: State, t: State, teamId: Id)
    requires DispatchesOk(s.teams, s.tasks, s.messages, s.runs, s.dispatches, s.nextId)
    requires DeleteTeam(s, teamId) == Ok(t)
    ensures Live(s) ==> Live(t)
    ensures forall x :: x in t.tasks && HasDispatch(s.dispatches, x) ==> HasDispatch(t.dispatches, x)
  {
    forall r | Live(s) && r in t.runs && Going(t.runs[r].status) ensures Outstanding(t.dispatches, r) {
      var d :| d in s.dispatches && s.dispatches[d].runId == r && Active(s.dispatches[d].status);
      assert DispatchOk(s.teams, s.tasks, s.messages, s.runs, s.dispatches[d]);
      assert d in t.dispatches && t.dispatches[d] == s.dispatches[d];
    }
    forall x | x in t.tasks && HasDispatch(s.dispatches, x) ensures HasDispatch(t.dispatches, x) {
      var d :| d in s.dispatches && s.dispatches[d].taskId == Some(x);
      assert DispatchOk(s.teams, s.tasks, s.messages, s.runs, s.dispatches[d]);
      assert d in t.dispatches && t.dispatches[d] == s.dispatches[d];
    }
  }

  // ---------------------------------------------------------------- restart

  lemma RestartSteps(s: State)
    requires Valid(s)
    ensures Restart(s).Ok?
    ensures var t := Restart(s).value;
            Orderly(s, t) && FinishedStay(s, t) && (Live(s) ==> Live(t)) && t.tasks.Keys == s.tasks.Keys
  {
    hide TeamsOk, OwnersOk, GraphOk, RunsOk, DispatchesOk, LinksOk, BusyOk, AloneOk, ConcurrencyOk, EventsOk;
    ValidIsLoadable(s);
    RestartValid(s);
    NoAdoption(s);
    RestartForm(s);
    MaxSequenceBounds(s.events, s.sequence);
    RepairedSteps(s, Restart(s).value);
  }

  /** A valid state has no task waiting for a dispatch. */
  lemma NoAdoption(s: State)
    requires Valid(s)
    ensures Restart(s) == Ok(Repaired(s).(teams := RestartTeams(s)))
  {
    hide TeamsOk, OwnersOk, GraphOk, RunsOk, DispatchesOk, BusyOk, AloneOk, ConcurrencyOk, EventsOk;
    RestartForm(s);
    var start := Repaired(s).(teams := RestartTeams(s));
    assert !NeedsAdoption(start) by {
      forall t | t in start.tasks && start.tasks[t].status == TaskQueued ensures HasDispatch(start.dispatches, t) {
        assert HasDispatch(s.dispatches, t);
        var d :| d in s.dispatches && s.dispatches[d].taskId == Some(t);
        assert start.dispatches[d].taskId == Some(t);
      }
    }
    NothingToAdopt(start, 0, s.nextId);
  }

  lemma RepairedSteps(s: State, t: State)
    requires LinksOk(s.tasks, s.dispatches, {}) && EventsOk(s.events, s.sequence)
    requires t == Repaired(s).(teams := t.teams)
    ensures Orderly(s, t) && FinishedStay(s, t) && (Live(s) ==> Live(t)) && t.tasks.Keys == s.tasks.Keys
  {
    RepairedLive(s, t);
    RepairedTasksStay(s, t);
    RepairedRunsStay(s, t);
    hide LinksOk, Live, Repaired, StartsInOrder, FinishedStay, NoneCompletes, KeepsDispatches, EventsGoOn;
  }

  lemma RepairedTasksStay(s: State, t: State)
    requires t == Repaired(s).(teams := t.teams)
    ensures StartsInOrder(s, t) && FinishedStay(s, t) && t.tasks.Keys == s.tasks.Keys
  {
    hide RunningIn, MaxSequence, DropFinished, RecoverDispatch;
  }

  lemma RepairedRunsStay(s: State, t: State)
    requires EventsOk(s.events, s.sequence) && t == Repaired(s).(teams := t.teams)
    ensures EventsGoOn(s, t) && NoneCompletes(s, t) && KeepsDispatches(s, t)
  {
    hide RunningIn, RecoverTask;
    MaxSequenceBounds(s.events, s.sequence);
  }

  lemma RepairedLive(s: State, t: State)
    requires LinksOk(s.tasks, s.dispatches, {}) && t == Repaired(s).(teams := t.teams)
    ensures Live(s) ==> Live(t)
  {
    forall r | Live(s) && r in t.runs && Going(t.runs[r].status) ensures Outstanding(t.dispatches, r) {
      var d :| d in s.dispatches && s.dispatches[d].runId == r && Active(s.dispatches[d].status);
      assert d in RunningIn(s.dispatches, r) || s.dispatches[d].status == Queued;
      RepairedDispatch(s, d);
      assert t.dispatches[d] == s.dispatches[d];
    }
  }
}
