/** Runs of operations from an empty store that meet the exceptions of the laws. */
module TeamRuns {
  import opened Common
  import opened Texts
  import opened TeamModel
  import opened TeamInvariant
  import opened TeamProofs
  import opened TeamRestart
  import opened TeamCommands
  import opened TeamEffects
  import opened TeamSteps
  import opened TeamTheorems
  import opened TeamLaws
  import opened TeamPausing

  // ---------------------------------------------------------------- one team, one worker, one task

  const LEAD := Member(1, "Lead", Lead, Idle)

  function WorkerIs(status: MemberStatus): Member {
    Member(2, "Worker", Worker, status)
  }

  /** The task of the worker, with its version. */
  function Work(version: nat, status: TaskStatus, error: Option<string>): Task {
    Task(0, 2, version, [], status, error)
  }

  function Its(status: DispatchStatus): Dispatch {
    Dispatch(0, 4, 2, Some(3), [], None, 0, {}, status, false)
  }

  /** Team 0 with its lead 1 and worker 2, task 3 in run 4, and dispatch 5. */
  ghost predicate At(s: State, worker: MemberStatus, task: Task, run: Run, item: Dispatch) {
    s.teams == map[0 := Team(2, [LEAD, WorkerIs(worker)])] && s.tasks == map[3 := task] && s.runs == map[4 := run] &&
    s.dispatches == map[5 := item] && s.nextId == 6 && s.reconciled == {}
  }

  function RunIs(status: RunStatus, count: nat, reason: RunReason): Run {
    Run(0, status, 1, count, 0, reason)
  }

  const QUEUE_WORK := Queue(0, 2, "a", "a", [], None)

  lemma Founding() returns (s: State)
    ensures s == Apply(Empty, NewTeam("Lead")).0 && Valid(s) && s.reconciled == {}
    ensures s.teams == map[0 := Team(1, [LEAD])] && s.nextId == 2 && s.runs == map[] && s.tasks == map[] && s.dispatches == map[]
  {
    s := Founded();
  }

  lemma WorkerJoins(s: State)
    requires s.teams == map[0 := Team(1, [LEAD])] && s.nextId == 2
    ensures AddMember(s, 0, "Worker").Ok?
    ensures var t := AddMember(s, 0, "Worker").value.0;
            t.teams == map[0 := Team(2, [LEAD, WorkerIs(Idle)])] && t.nextId == 3 && t.runs == s.runs && t.tasks == s.tasks &&
            t.dispatches == s.dispatches && t.reconciled == s.reconciled
  {
    assert |LEAD.name| == 4 && |"Worker"| == 6;
    assert [LEAD] + [WorkerIs(Idle)] == [LEAD, WorkerIs(Idle)];
  }

  lemma Joined(s: State) returns (t: State)
    requires Valid(s) && s.teams == map[0 := Team(1, [LEAD])] && s.nextId == 2 && s.runs == map[] && s.tasks == map[]
    requires s.dispatches == map[] && s.reconciled == {}
    ensures t == Apply(s, Join(0, "Worker")).0 && Valid(t) && t.reconciled == {}
    ensures t.teams == map[0 := Team(2, [LEAD, WorkerIs(Idle)])] && t.nextId == 3 && t.runs == map[] && t.tasks == map[]
    ensures t.dispatches == map[]
  {
    hide Valid, AddMember;
    StepValid(s, Join(0, "Worker"));
    WorkerJoins(s);
    t := Apply(s, Join(0, "Worker")).0;
  }

  lemma TaskIsQueued(s: State)
    requires s.teams == map[0 := Team(2, [LEAD, WorkerIs(Idle)])] && s.nextId == 3 && s.runs == map[]
    requires s.tasks == map[] && s.dispatches == map[] && s.reconciled == {}
    ensures QueueTask(s, 0, 2, "a", "a", [], None).Ok?
    ensures At(QueueTask(s, 0, 2, "a", "a", [], None).value.0, Idle, Work(1, TaskQueued, None), RunIs(RunRunning, 0, NoReason),
               Its(Queued))
  {
    hide LastUnfinished, Accepted;
    TitleAccepted();
    LastUnfinishedFound(s.runs, 0, 4);
    assert s.teams[0].members[1].id == 2;
  }

  lemma WorkQueued(s: State) returns (t: State)
    requires Valid(s) && s.teams == map[0 := Team(2, [LEAD, WorkerIs(Idle)])] && s.nextId == 3 && s.runs == map[]
    requires s.tasks == map[] && s.dispatches == map[] && s.reconciled == {}
    ensures t == Apply(s, QUEUE_WORK).0 && Valid(t)
    ensures At(t, Idle, Work(1, TaskQueued, None), RunIs(RunRunning, 0, NoReason), Its(Queued))
  {
    hide Valid, QueueTask, At;
    StepValid(s, QUEUE_WORK);
    TaskIsQueued(s);
    t := Apply(s, QUEUE_WORK).0;
  }

  lemma TaskBegins(s: State)
    requires At(s, Idle, Work(1, TaskQueued, None), RunIs(RunRunning, 0, NoReason), Its(Queued))
    ensures BeginTask(s, 3).Ok?
    ensures At(BeginTask(s, 3).value, MemberStatus.Busy, Work(1, TaskRunning, None), RunIs(RunRunning, 0, NoReason), Its(Queued))
  {
    assert s.teams[0].members[1].id == 2 && !IsBusy(s.teams[0], 2);
    assert WithStatus(s.teams[0].members, 2, MemberStatus.Busy) == [LEAD, WorkerIs(MemberStatus.Busy)];
  }

  lemma DispatchBegins(s: State)
    requires At(s, Idle, Work(1, TaskQueued, None), RunIs(RunRunning, 0, NoReason), Its(Queued))
    ensures At(BeginDispatch(s, 5).0, MemberStatus.Busy, Work(1, TaskRunning, None), RunIs(RunRunning, 1, NoReason), Its(Running))
  {
    assert s.teams[0].members[1].id == 2 && !IsBusy(s.teams[0], 2);
    assert RunningIn(s.dispatches, 4) == {};
    TaskBegins(s);
    hide BeginTask, WithStatus;
  }

  lemma WorkBegun(s: State) returns (t: State)
    requires Valid(s) && At(s, Idle, Work(1, TaskQueued, None), RunIs(RunRunning, 0, NoReason), Its(Queued))
    ensures t == Apply(s, Begin(5)).0 && Valid(t)
    ensures At(t, MemberStatus.Busy, Work(1, TaskRunning, None), RunIs(RunRunning, 1, NoReason), Its(Running))
  {
    hide Valid, BeginDispatch, At;
    StepValid(s, Begin(5));
    DispatchBegins(s);
    t := Apply(s, Begin(5)).0;
  }

  /** The worker's dispatch runs. */
  lemma WorkRuns() returns (s: State)
    ensures Valid(s) && At(s, MemberStatus.Busy, Work(1, TaskRunning, None), RunIs(RunRunning, 1, NoReason), Its(Running))
    ensures s == Apply(Apply(Apply(Apply(Empty, NewTeam("Lead")).0, Join(0, "Worker")).0, QUEUE_WORK).0, Begin(5)).0
  {
    hide Apply, Valid, At;
    s := Founding();
    s := Joined(s);
    s := WorkQueued(s);
    s := WorkBegun(s);
  }

  // ---------------------------------------------------------------- a task is reopened

  const CLOSED := TaskEdit(None, None, None, Some(Done))

  lemma LeadCloses(s: State)
    requires At(s, MemberStatus.Busy, Work(1, TaskRunning, None), RunIs(RunRunning, 1, NoReason), Its(Running))
    ensures UpdateTask(s, 0, 3, 1, CLOSED, Some(1)).Ok?
    ensures At(UpdateTask(s, 0, 3, 1, CLOSED, Some(1)).value, MemberStatus.Busy, Work(2, TaskSucceeded, None),
               RunIs(RunRunning, 1, NoReason), Its(Running))
  {
    assert s.teams[0].members[0].id == 1;
  }

  lemma ClosedIsQueued(s: State)
    requires At(s, MemberStatus.Busy, Work(2, TaskSucceeded, None), RunIs(RunRunning, 1, NoReason), Its(Running))
    ensures DeferDispatch(s, 5).Ok? && DeferDispatch(s, 5).value.tasks == map[3 := Work(2, TaskQueued, None)]
    ensures Reopens(s, Defer(5))
  {
  }

  /** Queued, begun, closed by the lead as done, and then deferred: the finished task is in the queue again. */
  lemma TaskReopened()
    ensures var s := Execute(Empty, [NewTeam("Lead"), Join(0, "Worker"), QUEUE_WORK, Begin(5), EditTask(0, 3, 1, CLOSED, Some(1))]);
            Valid(s) && 3 in s.tasks && s.tasks[3].status == TaskSucceeded && !FinishedStay(s, Apply(s, Defer(5)).0) &&
            3 in Apply(s, Defer(5)).0.tasks && Apply(s, Defer(5)).0.tasks[3].status == TaskQueued
  {
    hide Apply, Valid, At, UpdateTask, DeferDispatch, FinishedStay, Execute, Reopens;
    var s := WorkRuns();
    var c := EditTask(0, 3, 1, CLOSED, Some(1));
    LeadCloses(s);
    StepValid(s, c);
    EditApplies(s, c);
    var t := Apply(s, c).0;
    ClosedIsQueued(t);
    DeferApplies(t, 5);
    DeferReopensIff(t, 5);
    AtFields(t, MemberStatus.Busy, Work(2, TaskSucceeded, None), RunIs(RunRunning, 1, NoReason), Its(Running));
    ExecuteFive(Empty, NewTeam("Lead"), Join(0, "Worker"), QUEUE_WORK, Begin(5), c);
  }

  lemma AtFields(s: State, worker: MemberStatus, task: Task, run: Run, item: Dispatch)
    requires At(s, worker, task, run, item)
    ensures 3 in s.tasks && s.tasks[3] == task
  {
  }

  lemma EditApplies(s: State, c: Command)
    requires c.EditTask? && UpdateTask(s, c.teamId, c.taskId, c.version, c.edit, c.caller).Ok?
    ensures Apply(s, c).0 == UpdateTask(s, c.teamId, c.taskId, c.version, c.edit, c.caller).value
  {
    hide UpdateTask;
  }

  lemma DeferApplies(s: State, id: Id)
    requires DeferDispatch(s, id).Ok?
    ensures Apply(s, Defer(id)).0 == DeferDispatch(s, id).value
  {
    hide DeferDispatch;
  }

  lemma ExecuteFive(s: State, a: Command, b: Command, c: Command, d: Command, e: Command)
    ensures Execute(s, [a, b, c, d, e]) == Apply(Apply(Apply(Apply(Apply(s, a).0, b).0, c).0, d).0, e).0
  {
    hide Apply, Execute;
    ExecuteNext(s, [a, b, c, d, e], a, [b, c, d, e]);
    ExecuteFour(Apply(s, a).0, b, c, d, e);
  }

  lemma ExecuteNone(s: State)
    ensures Execute(s, []) == s
  {
  }

  // ---------------------------------------------------------------- a run is stranded

  /** A task queued and cancelled: its run goes on, with nothing to do. */
  lemma RunStranded()
    ensures var s := Execute(Empty, [NewTeam("Lead"), Join(0, "Worker"), QUEUE_WORK]);
            Valid(s) && Live(s) && !Live(Apply(s, Stop(0, 3)).0)
  {
    hide Apply, Valid, At, Live, Execute, Strands;
    var s := Founding();
    s := Joined(s);
    s := WorkQueued(s);
    OnlyTask(s);
    StrandedOnlyBy(s, Stop(0, 3));
    ExecuteThree(Empty, NewTeam("Lead"), Join(0, "Worker"), QUEUE_WORK);
  }

  lemma OnlyTask(s: State)
    requires At(s, Idle, Work(1, TaskQueued, None), RunIs(RunRunning, 0, NoReason), Its(Queued))
    ensures Live(s) && Strands(s, Stop(0, 3))
  {
    assert s.dispatches[5].taskId == Some(3);
  }

  /** A message of the lead to all the others, when there are none: it opens a run with nothing to do. */
  lemma BroadcastStrands()
    ensures var s := Execute(Empty, [NewTeam("Lead")]);
            Valid(s) && Live(s) && !Live(Apply(s, Post(0, Some(1), None, "a", None)).0)
  {
    hide Apply, Valid, Live, Execute, Strands;
    var s := Founding();
    NobodyThere(s);
    StrandedOnlyBy(s, Post(0, Some(1), None, "a", None));
    ExecuteNext(Empty, [NewTeam("Lead")], NewTeam("Lead"), []);
    ExecuteNone(s);
  }

  lemma NobodyThere(s: State)
    requires s.teams == map[0 := Team(1, [LEAD])] && s.nextId == 2 && s.runs == map[]
    ensures Live(s) && Strands(s, Post(0, Some(1), None, "a", None))
  {
    hide LastUnfinished, Accepted;
    TitleAccepted();
    LastUnfinishedFound(s.runs, 0, 3);
    assert s.teams[0].members[0].id == 1;
    assert OthersThan([LEAD][1..], Some(1)) == [];
  }

  lemma ExecuteThree(s: State, a: Command, b: Command, c: Command)
    ensures Execute(s, [a, b, c]) == Apply(Apply(Apply(s, a).0, b).0, c).0
  {
    hide Apply, Execute;
    var t := Apply(s, a).0;
    ExecuteNext(s, [a, b, c], a, [b, c]);
    ExecuteNext(t, [b, c], b, [c]);
    t := Apply(t, b).0;
    ExecuteNext(t, [c], c, []);
    ExecuteNone(Apply(t, c).0);
  }

  // ---------------------------------------------------------------- after an interruption

  /** The worker's dispatch was interrupted by a restart. */
  ghost predicate WasCut(s: State) {
    s.teams == map[0 := Team(2, [LEAD, WorkerIs(Idle)])] && s.tasks == map[3 := Work(1, TaskFailed, Some(RESTARTED_TEXT))] &&
    s.runs == map[4 := RunIs(RunInterrupted, 1, Restarted)] && s.dispatches == map[5 := Its(Interrupted)] && s.reconciled == {}
  }

  lemma RepairedCut(s: State)
    requires At(s, MemberStatus.Busy, Work(1, TaskRunning, None), RunIs(RunRunning, 1, NoReason), Its(Running))
    ensures var p := Repaired(s);
            p.teams == s.teams && p.tasks == map[3 := Work(1, TaskFailed, Some(RESTARTED_TEXT))] && p.reconciled == {} &&
            p.runs == map[4 := RunIs(RunInterrupted, 1, Restarted)] && p.dispatches == map[5 := Its(Interrupted)]
  {
    assert 5 in RunningIn(s.dispatches, 4);
  }

  lemma NothingWaits(s: State)
    requires At(s, MemberStatus.Busy, Work(1, TaskRunning, None), RunIs(RunRunning, 1, NoReason), Its(Running))
    ensures WasInterrupted(s) && Adopt(Repaired(s), 0, Repaired(s).nextId) == Ok(Repaired(s))
  {
    RepairedCut(s);
    hide Repaired;
    NothingToAdopt(Repaired(s), 0, Repaired(s).nextId);
    assert s.dispatches[5].status == Running;
  }

  lemma RestartCuts(s: State)
    requires At(s, MemberStatus.Busy, Work(1, TaskRunning, None), RunIs(RunRunning, 1, NoReason), Its(Running))
    ensures Restart(s).Ok? && WasCut(Restart(s).value)
  {
    RepairedCut(s);
    NothingWaits(s);
    hide Repaired, Adopt, WasInterrupted, NeedsAdoption;
    TeamIdles(s.teams);
  }

  lemma TeamIdles(teams: map<Id, Team>)
    requires teams == map[0 := Team(2, [LEAD, WorkerIs(MemberStatus.Busy)])]
    ensures (map k | k in teams :: teams[k].(members := AllIdle(teams[k].members))) == map[0 := Team(2, [LEAD, WorkerIs(Idle)])]
  {
    assert AllIdle(teams[0].members) == [LEAD, WorkerIs(Idle)];
  }

  /** The restart after the worker's dispatch had begun. */
  lemma Interruption() returns (s: State)
    ensures Valid(s) && WasCut(s)
    ensures s == Execute(Empty, [NewTeam("Lead"), Join(0, "Worker"), QUEUE_WORK, Begin(5), Reopen])
  {
    hide Apply, Valid, At, Execute, WasCut, Restart;
    var r := WorkRuns();
    RestartCuts(r);
    StepValid(r, Reopen);
    ReopenApplies(r);
    s := Apply(r, Reopen).0;
    ExecuteFive(Empty, NewTeam("Lead"), Join(0, "Worker"), QUEUE_WORK, Begin(5), Reopen);
  }

  lemma ReopenApplies(s: State)
    requires Restart(s).Ok?
    ensures Apply(s, Reopen).0 == Restart(s).value
  {
    hide Restart;
  }

  /** Its run, paused with no work left, waits for nobody. */
  lemma PauseStrands()
    ensures var s := Execute(Empty, [NewTeam("Lead"), Join(0, "Worker"), QUEUE_WORK, Begin(5), Reopen]);
            Valid(s) && Live(s) && !Live(Apply(s, Control(0, 4, Pause)).0)
  {
    hide Apply, Valid, WasCut, Execute, Strands, Live;
    var s := Interruption();
    CutHasNoWork(s);
    StrandedOnlyBy(s, Control(0, 4, Pause));
  }

  lemma CutHasNoWork(s: State)
    requires WasCut(s)
    ensures Live(s) && Strands(s, Control(0, 4, Pause))
  {
  }

  /** The worker whose dispatch was interrupted is removed: the interrupted work can no longer be listed. */
  lemma AccountingStops()
    ensures var s := Execute(Empty, [NewTeam("Lead"), Join(0, "Worker"), QUEUE_WORK, Begin(5), Reopen]);
            Valid(s) && InterruptedExecutions(s).Ok? && RemoveMember(s, 0, 2).Ok? &&
            Apply(s, Leave(0, 2)).0 == RemoveMember(s, 0, 2).value && InterruptedExecutions(Apply(s, Leave(0, 2)).0).Err?
  {
    hide Apply, Valid, WasCut, Execute, RemoveMember, InterruptedExecutions, NeedsReconciling;
    var s := Interruption();
    WorkerLeaves(s);
    LeavingStopsAccounting(s, 0, 2);
    LeaveApplies(s, 0, 2);
  }

  lemma LeaveApplies(s: State, teamId: Id, memberId: Id)
    requires RemoveMember(s, teamId, memberId).Ok?
    ensures Apply(s, Leave(teamId, memberId)).0 == RemoveMember(s, teamId, memberId).value
  {
    hide RemoveMember;
  }

  lemma WorkerLeaves(s: State)
    requires WasCut(s)
    ensures InterruptedExecutions(s).Ok? && RemoveMember(s, 0, 2).Ok?
    ensures 5 in s.dispatches && NeedsReconciling(s, 5) && s.dispatches[5].teamId == 0 && s.dispatches[5].memberId == 2
  {
    assert s.teams[0].members[1].id == 2;
    assert !HasActiveWork(s, 2);
  }

  // ---------------------------------------------------------------- a report is too long

  lemma WorkerReports(s: State)
    requires At(s, MemberStatus.Busy, Work(1, TaskRunning, None), RunIs(RunRunning, 1, NoReason), Its(Running))
    ensures 5 in s.dispatches && s.dispatches[5].status == Running && s.dispatches[5].runId in s.runs &&
            s.dispatches[5].teamId in s.teams && ReportsToLead(s, 5)
  {
  }

  /** The worker's result is one code unit too long: it is refused, and nothing changes. */
  lemma ReportRefused(text: string)
    requires |text| == 65477 && !IsSpace(text[65476])
    ensures var s := Execute(Empty, [NewTeam("Lead"), Join(0, "Worker"), QUEUE_WORK, Begin(5)]);
            Valid(s) && 5 in s.dispatches && s.dispatches[5].status == Running &&
            Apply(s, Finish(5, Finished(Some(text)))).0 == s && Apply(s, Finish(5, Finished(Some(text)))).1.Err?
  {
    hide Apply, Valid, At, Execute, ReportsToLead;
    var s := WorkRuns();
    WorkerReports(s);
    LongReportRollsBack(s, 5, text);
    ExecuteFour(Empty, NewTeam("Lead"), Join(0, "Worker"), QUEUE_WORK, Begin(5));
  }

  /** The turn failed with an error text as long: the fallback does not help, and the dispatch goes on running. */
  lemma ErrorTooLong(error: string)
    requires |TrimEnd(error)| > REPORT_LIMIT
    ensures var s := Execute(Empty, [NewTeam("Lead"), Join(0, "Worker"), QUEUE_WORK, Begin(5)]);
            var t := Conclude(s, 5, Failure(error), "").0;
            5 in t.dispatches && t.dispatches[5].status == Running
  {
    hide Apply, Valid, At, Execute, ReportsToLead, Conclude, TrimEnd;
    var s := WorkRuns();
    WorkerReports(s);
    NoText();
    ConcludeSettles(s, 5, Failure(error), "");
    ExecuteFour(Empty, NewTeam("Lead"), Join(0, "Worker"), QUEUE_WORK, Begin(5));
  }

  lemma NoText()
    ensures TrimEnd("") == ""
  {
  }

  lemma ExecuteFour(s: State, a: Command, b: Command, c: Command, d: Command)
    ensures Execute(s, [a, b, c, d]) == Apply(Apply(Apply(Apply(s, a).0, b).0, c).0, d).0
  {
    hide Apply, Execute;
    var t := Apply(s, a).0;
    ExecuteNext(s, [a, b, c, d], a, [b, c, d]);
    ExecuteThree(t, b, c, d);
  }
}
