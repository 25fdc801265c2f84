/** Laws over every command and every sequence of commands, with the exact exceptions. */
module TeamLaws {
  import opened Common
  import opened Texts
  import opened TeamModel
  import opened TeamDependencies
  import opened TeamInvariant
  import opened TeamFrames
  import opened TeamProofs
  import opened TeamOperations
  import opened TeamControl
  import opened TeamCancel
  import opened TeamRoster
  import opened TeamRestart
  import opened TeamCommands
  import opened TeamEffects
  import opened TeamSteps
  import opened TeamTheorems

  // ---------------------------------------------------------------- every step is orderly

  /** Deferring a dispatch whose task was closed while it ran puts the finished task back in the queue. */
  ghost predicate Reopens(s: State, c: Command) {
    c.Defer? && c.dispatchId in s.dispatches &&
    var item := s.dispatches[c.dispatchId];
    item.status == Running && !item.submitted && item.taskId.Some? && item.taskId.value in s.tasks &&
    Final(s.tasks[item.taskId.value].status)
  }

  /**
   The calls that leave an unfinished run with nothing to do and nobody told: cancelling an active task that is the last
   work of its run, pausing an unfinished run without work, and a message to nobody in a team without such a run.
   */
  ghost predicate Strands(s: State, c: Command) {
    match c
    case Stop(teamId, taskId) =>
      taskId in s.tasks && s.tasks[taskId].teamId == teamId && ActiveTask(s.tasks[taskId].status) && teamId in s.teams &&
      OnlyWork(s, taskId)
    case Control(teamId, runId, Pause) =>
      runId in s.runs && s.runs[runId].teamId == teamId && Unfinished(s.runs[runId].status) &&
      !Outstanding(s.dispatches, runId)
    case Post(teamId, from, to, body, _) =>
      teamId in s.teams && (from.Some? ==> HasMember(s.teams[teamId], from.value)) && Accepted(body, TEXT_LIMIT) &&
      Targets(s.teams[teamId], from, to) == [] && MailRun(s, teamId) !in s.runs
    case _ => false
  }

  /** What one step may do, in one relation. */
  ghost predicate Lawful(s: State, c: Command, t: State) {
    StartsInOrder(s, t) && EventsGoOn(s, t) &&
    (FinishedStay(s, t) || Reopens(s, c)) &&
    (NoneCompletes(s, t) || (c.Finish? && ClosedByLead(s, c.dispatchId, c.report))) &&
    (Live(s) ==> (Live(t) <==> !Strands(s, c))) &&
    (forall x :: x in t.tasks && x !in s.tasks ==> HasDispatch(t.dispatches, x)) &&
    (KeepsDispatches(s, t) || c.Drop?) &&
    (forall x :: c.Drop? && x in t.tasks && HasDispatch(s.dispatches, x) ==> HasDispatch(t.dispatches, x))
  }

  lemma QuietLawful(s: State, c: Command, t: State)
    requires Orderly(s, t) && FinishedStay(s, t) && (Live(s) ==> (Live(t) <==> !Strands(s, c)))
    requires forall x :: x in t.tasks && x !in s.tasks ==> HasDispatch(t.dispatches, x)
    requires !c.Drop?
    ensures Lawful(s, c, t)
  {
    hide Strands, Reopens, ClosedByLead, Live;
  }

  lemma SelfLawful(s: State, c: Command)
    requires !Strands(s, c)
    ensures Lawful(s, c, s)
  {
    hide Strands, Reopens, ClosedByLead;
    UnchangedSteps(s);
    SameWorkLive(s, s);
  }

  lemma NotStranding(s: State, c: Command)
    requires !c.Stop? && !c.Post? && !c.Control?
    ensures !Strands(s, c)
  {
  }

  lemma FailureLawful(s: State, c: Command)
    requires Apply(s, c).1.Err? && Apply(s, c).0 == s
    ensures Lawful(s, c, Apply(s, c).0)
  {
    hide Apply, Lawful;
    FailureStrandsNot(s, c);
    SelfLawful(s, c);
  }

  lemma FailureStrandsNot(s: State, c: Command)
    requires Apply(s, c).1.Err?
    ensures !Strands(s, c)
  {
    hide Targets, MailRun, OnlyWork, Outstanding, SendMessage;
    match c
    case Stop(teamId, taskId) =>
    case Control(teamId, runId, action) =>
    case Post(teamId, from, to, body, parentId) => NobodyGuard(s, teamId, from, to, body, parentId);
    case _ =>
  }

  /** A message to nobody is accepted just on its sender and its text. */
  lemma NobodyGuard(s: State, teamId: Id, from: Option<Id>, to: Option<Id>, body: string, parentId: Option<Id>)
    ensures teamId in s.teams && Targets(s.teams[teamId], from, to) == [] ==>
              (SendMessage(s, teamId, from, to, body, parentId).Ok? <==>
               (from.Some? ==> HasMember(s.teams[teamId], from.value)) && Accepted(body, TEXT_LIMIT))
  {
    hide EnsureRun, Accepted, HasMember, OthersThan;
  }

  lemma RosterLawful(s: State, c: Command)
    requires RosterCommand(c)
    ensures Lawful(s, c, Apply(s, c).0)
  {
    hide Apply, Lawful, Live, Strands, Orderly, FinishedStay;
    var t := Apply(s, c).0;
    RosterSteps(s, c);
    RecordsOrderly(s, t);
    SameWorkLive(s, t);
    NotStranding(s, c);
    QuietLawful(s, c, t);
  }

  lemma SameTasksCovered(s: State, t: State)
    requires t.tasks.Keys == s.tasks.Keys
    ensures forall x :: x in t.tasks && x !in s.tasks ==> HasDispatch(t.dispatches, x)
  {
    forall x | x in t.tasks ensures x in s.tasks {
      assert x in s.tasks.Keys;
    }
  }

  lemma WorkLawful(s: State, c: Command)
    requires Valid(s) && Apply(s, c).1.Ok?
    requires c.Queue? || c.EditTask? || c.Launch? || c.Hire? || c.Submit? || c.Defer? || c.PauseIdle? || c.Reopen?
    ensures Lawful(s, c, Apply(s, c).0)
  {
    hide Valid, Live, Strands, Orderly, FinishedStay, Lawful, Reopens, HasDispatch, QueueTask, UpdateTask, StartRun, Recruit;
    hide SubmitDispatch, DeferDispatch, PauseBlocked, Restart;
    var t := Apply(s, c).0;
    NotStranding(s, c);
    match c {
      case Queue(teamId, memberId, title, input, dependsOn, parentId) =>
        QueueTaskSteps(s, teamId, memberId, title, input, dependsOn, parentId);
        assert forall x :: x in t.tasks <==> x in t.tasks.Keys;
        QuietLawful(s, c, t);
      case EditTask(teamId, taskId, version, edit, caller) =>
        EditTaskSteps(s, teamId, taskId, version, edit, caller);
        SameWorkLive(s, t);
        EditedKeys(s, teamId, taskId, version, edit, caller);
        SameTasksCovered(s, t);
        QuietLawful(s, c, t);
      case Launch(teamId, input, target) =>
        StartRunSteps(s, teamId, input, target);
        SameTasksCovered(s, t);
        QuietLawful(s, c, t);
      case Hire(teamId, dispatchId, name) =>
        RecruitSteps(s, teamId, dispatchId, name);
        RecruitForm(s, teamId, dispatchId, name);
        SameTasksCovered(s, t);
        QuietLawful(s, c, t);
      case Submit(dispatchId) =>
        SubmitSteps(s, dispatchId);
        SameTasksCovered(s, t);
        QuietLawful(s, c, t);
      case Defer(dispatchId) =>
        DeferSteps(s, dispatchId);
        SameTasksCovered(s, t);
        DeferLawful(s, c, t);
      case PauseIdle =>
        PauseBlockedSteps(s);
        SameTasksCovered(s, t);
        QuietLawful(s, c, t);
      case Reopen =>
        RestartSteps(s);
        SameTasksCovered(s, t);
        QuietLawful(s, c, t);
    }
  }

  lemma EditedKeys(s: State, teamId: Id, id: Id, version: nat, edit: TaskEdit, caller: Option<Id>)
    requires UpdateTask(s, teamId, id, version, edit, caller).Ok?
    ensures UpdateTask(s, teamId, id, version, edit, caller).value.tasks.Keys == s.tasks.Keys
  {
    hide ValidateDependencies;
  }

  lemma DeferLawful(s: State, c: Command, t: State)
    requires c.Defer? && DeferDispatch(s, c.dispatchId) == Ok(t) && !Strands(s, c)
    requires Orderly(s, t) && (Live(s) ==> Live(t))
    requires forall x :: x in t.tasks && x !in s.tasks ==> HasDispatch(t.dispatches, x)
    ensures Lawful(s, c, t)
  {
    hide Strands, ClosedByLead, Live, HasDispatch;
    DeferReopensIff(s, c.dispatchId);
  }

  /** `deferDispatch` keeps finished tasks finished, exactly unless its own task was closed while it ran. */
  lemma DeferReopensIff(s: State, id: Id)
    requires DeferDispatch(s, id).Ok?
    ensures FinishedStay(s, DeferDispatch(s, id).value) <==> !Reopens(s, Defer(id))
  {
    var t := DeferDispatch(s, id).value;
    if Reopens(s, Defer(id)) {
      var x := s.dispatches[id].taskId.value;
      assert x in t.tasks && t.tasks[x].status == TaskQueued;
    }
  }

  lemma PauseGuard(s: State, teamId: Id, runId: Id)
    ensures ControlRun(s, teamId, runId, Pause).Ok? <==>
              runId in s.runs && s.runs[runId].teamId == teamId && Unfinished(s.runs[runId].status)
  {
  }

  lemma StopGuard(s: State, teamId: Id, taskId: Id)
    ensures CancelTask(s, teamId, taskId).Ok? <==>
              taskId in s.tasks && s.tasks[taskId].teamId == teamId && ActiveTask(s.tasks[taskId].status) &&
              teamId in s.teams
  {
  }

  lemma ControlLawful(s: State, teamId: Id, runId: Id, action: Action)
    requires Valid(s) && ControlRun(s, teamId, runId, action).Ok?
    ensures Lawful(s, Control(teamId, runId, action), ControlRun(s, teamId, runId, action).value)
  {
    hide Valid, Live, Orderly, FinishedStay, Lawful, ControlRun, Outstanding, HasDispatch;
    var t := ControlRun(s, teamId, runId, action).value;
    match action
    case Pause =>
      PauseSteps(s, teamId, runId);
      PauseGuard(s, teamId, runId);
      SameTasksCovered(s, t);
      QuietLawful(s, Control(teamId, runId, action), t);
    case Resume =>
      ResumeSteps(s, teamId, runId);
      SameTasksCovered(s, t);
      QuietLawful(s, Control(teamId, runId, action), t);
    case Cancel =>
      CancelRunSteps(s, teamId, runId);
      SameTasksCovered(s, t);
      QuietLawful(s, Control(teamId, runId, action), t);
  }

  lemma OtherLawful(s: State, c: Command)
    requires Valid(s) && Apply(s, c).1.Ok? && (c.Stop? || c.Post?)
    ensures Lawful(s, c, Apply(s, c).0)
  {
    hide Valid, Live, Orderly, FinishedStay, Lawful, HasDispatch, CancelTask, SendMessage, OnlyWork, Targets, MailRun;
    var t := Apply(s, c).0;
    match c {
      case Stop(teamId, taskId) =>
        CancelTaskSteps(s, teamId, taskId);
        StopGuard(s, teamId, taskId);
        SameTasksCovered(s, t);
        QuietLawful(s, c, t);
      case Post(teamId, from, to, body, parentId) =>
        SendMessageSteps(s, teamId, from, to, body, parentId);
        MessageTeam(s, teamId, from, to, body, parentId);
        NobodyGuard(s, teamId, from, to, body, parentId);
        SameTasksCovered(s, t);
        QuietLawful(s, c, t);
    }
  }

  lemma FinishLawful(s: State, id: Id, report: Report)
    requires Valid(s) && FinishDispatch(s, id, report).Ok?
    ensures Lawful(s, Finish(id, report), FinishDispatch(s, id, report).value)
  {
    hide Valid, Live, Strands, FinishDispatch, Outstanding, HasDispatch, StartsInOrder, FinishedStay, EventsGoOn;
    hide KeepsDispatches, NoneCompletes, ClosedByLead, Reopens;
    FinishSteps(s, id, report);
    SameTasksCovered(s, FinishDispatch(s, id, report).value);
    NotStranding(s, Finish(id, report));
  }

  lemma DropLawful(s: State, teamId: Id)
    requires Valid(s) && DeleteTeam(s, teamId).Ok?
    ensures Lawful(s, Drop(teamId), DeleteTeam(s, teamId).value)
  {
    hide Valid, Live, Strands, DeleteTeam, HasDispatch, StartsInOrder, FinishedStay, EventsGoOn, NoneCompletes;
    hide KeepsDispatches, ClosedByLead, Reopens;
    DropSteps(s, teamId);
    var t := DeleteTeam(s, teamId).value;
    forall x | x in t.tasks ensures x in s.tasks {
      assert x in t.tasks.Keys;
    }
    NotStranding(s, Drop(teamId));
  }

  lemma BeginLawful(s: State, id: Id)
    requires Valid(s)
    ensures Lawful(s, Begin(id), BeginDispatch(s, id).0)
  {
    hide Valid, Live, Strands, BeginDispatch, HasDispatch, Orderly, FinishedStay, Lawful;
    BeginSteps(s, id);
    SameTasksCovered(s, BeginDispatch(s, id).0);
    NotStranding(s, Begin(id));
    QuietLawful(s, Begin(id), BeginDispatch(s, id).0);
  }

  /** Every command, in every valid state, is lawful. */
  lemma StepLawful(s: State, c: Command)
    requires Valid(s)
    ensures Lawful(s, c, Apply(s, c).0)
  {
    hide Valid, Lawful, BeginDispatch, FinishDispatch, ControlRun, DeleteTeam, CancelTask, SendMessage;
    hide UpdateTeam, UpdateMember, RemoveMember, QueueTask, UpdateTask, StartRun, Recruit, SubmitDispatch, DeferDispatch;
    hide PauseBlocked, Restart, AddMember, CreateTeam, Acknowledge;
    if c.Begin? {
      BeginLawful(s, c.dispatchId);
    } else if Apply(s, c).1.Err? {
      FailureLawful(s, c);
    } else if RosterCommand(c) {
      RosterLawful(s, c);
    } else if c.Finish? {
      FinishLawful(s, c.dispatchId, c.report);
    } else if c.Control? {
      ControlLawful(s, c.teamId, c.runId, c.action);
    } else if c.Drop? {
      DropLawful(s, c.teamId);
    } else if c.Stop? || c.Post? {
      OtherLawful(s, c);
    } else {
      WorkLawful(s, c);
    }
  }

  // ---------------------------------------------------------------- laws over one command

  /** A run completes only when its lead's turn succeeds with nothing else outstanding. */
  lemma CompletesOnlyByLead(s: State, c: Command, r: Id)
    requires Valid(s) && r in s.runs && s.runs[r].status != RunCompleted
    requires r in Apply(s, c).0.runs && Apply(s, c).0.runs[r].status == RunCompleted
    ensures c.Finish? && ClosedByLead(s, c.dispatchId, c.report)
  {
    hide Valid, Apply, StartsInOrder, EventsGoOn, FinishedStay, Live, Strands, KeepsDispatches, HasDispatch;
    StepLawful(s, c);
  }

  /**
   No command strands a run that goes on, exactly except: cancelling the task that was its last work, pausing an
   interrupted run with no work, and a broadcast to nobody that opens a run.
   */
  lemma StrandedOnlyBy(s: State, c: Command)
    requires Valid(s) && Live(s)
    ensures Live(Apply(s, c).0) <==> !Strands(s, c)
  {
    hide Valid, Apply, StartsInOrder, EventsGoOn, FinishedStay, Strands, Live, KeepsDispatches, HasDispatch;
    StepLawful(s, c);
  }

  /** Finished tasks stay finished under every command but the reopening `deferDispatch`. */
  lemma FinishedStayFinished(s: State, c: Command)
    requires Valid(s)
    ensures FinishedStay(s, Apply(s, c).0) || Reopens(s, c)
  {
    hide Valid, Apply, StartsInOrder, EventsGoOn, FinishedStay, Strands, Live, KeepsDispatches, HasDispatch, Reopens;
    StepLawful(s, c);
  }

  // ---------------------------------------------------------------- laws over runs of commands

  /** The state together with every task that has at some point succeeded. */
  datatype History = History(state: State, succeeded: set<Id>)

  function Record(h: History, c: Command): History {
    var t := Apply(h.state, c).0;
    History(t, h.succeeded + set x | x in t.tasks && t.tasks[x].status == TaskSucceeded)
  }

  function Replay(h: History, commands: seq<Command>): History
    decreases |commands|
  {
    if commands == [] then h else Replay(Record(h, commands[0]), commands[1..])
  }

  /** Whatever has started did so after each of its dependencies had succeeded. */
  ghost predicate InOrder(h: History) {
    (forall x :: x in h.state.tasks && h.state.tasks[x].status == TaskSucceeded ==> x in h.succeeded) &&
    forall x, i :: x in h.state.tasks && Started(h.state.tasks[x].status) && 0 <= i < |h.state.tasks[x].dependsOn| ==>
      h.state.tasks[x].dependsOn[i] in h.succeeded
  }

  lemma StepInOrder(h: History, c: Command)
    requires Valid(h.state) && InOrder(h)
    ensures InOrder(Record(h, c))
  {
    StepLawful(h.state, c);
    OrderKept(h, c, Apply(h.state, c).0);
  }

  lemma OrderKept(h: History, c: Command, t: State)
    requires InOrder(h) && StartsInOrder(h.state, t) && t == Apply(h.state, c).0
    ensures InOrder(Record(h, c))
  {
    hide Apply;
  }

  /** Over any run from the empty store, tasks start in dependency order. */
  lemma {:induction false} StartsAfterDependencies(h: History, commands: seq<Command>)
    requires Valid(h.state) && InOrder(h)
    ensures InOrder(Replay(h, commands)) && Replay(h, commands).state == Execute(h.state, commands)
    decreases |commands|
  {
    hide Valid, InOrder, Apply;
    if commands != [] {
      StepInOrder(h, commands[0]);
      StepValid(h.state, commands[0]);
      StartsAfterDependencies(Record(h, commands[0]), commands[1..]);
    }
  }

  /** In a store that started empty every task has exactly one dispatch. */
  lemma {:induction false} OneDispatchEach(s: State, commands: seq<Command>)
    requires Valid(s) && Covered(s)
    ensures Covered(Execute(s, commands)) && Valid(Execute(s, commands))
    ensures forall t :: t in Execute(s, commands).tasks ==>
              exists d :: d in Execute(s, commands).dispatches && Execute(s, commands).dispatches[d].taskId == Some(t) &&
                forall e :: e in Execute(s, commands).dispatches && Execute(s, commands).dispatches[e].taskId == Some(t) ==>
                  e == d
    decreases |commands|
  {
    hide Valid, Apply;
    if commands != [] {
      StepValid(s, commands[0]);
      StepCovered(s, commands[0]);
      OneDispatchEach(Apply(s, commands[0]).0, commands[1..]);
    } else {
      OneEach(s);
    }
  }

  lemma OneEach(s: State)
    requires Valid(s) && Covered(s)
    ensures forall t :: t in s.tasks ==>
              exists d :: d in s.dispatches && s.dispatches[d].taskId == Some(t) &&
                forall e :: e in s.dispatches && s.dispatches[e].taskId == Some(t) ==> e == d
  {
    hide TeamsOk, OwnersOk, GraphOk, RunsOk, DispatchesOk, BusyOk, AloneOk, ConcurrencyOk, EventsOk;
    forall t | t in s.tasks
      ensures exists d :: d in s.dispatches && s.dispatches[d].taskId == Some(t) &&
                forall e :: e in s.dispatches && s.dispatches[e].taskId == Some(t) ==> e == d
    {
      var d :| d in s.dispatches && s.dispatches[d].taskId == Some(t);
      forall e | e in s.dispatches && s.dispatches[e].taskId == Some(t) ensures e == d {
        assert SameTask(s.dispatches, e, d);
      }
    }
  }

  lemma StepCovered(s: State, c: Command)
    requires Valid(s) && Covered(s)
    ensures Covered(Apply(s, c).0)
  {
    StepLawful(s, c);
    CoveredKept(s, c, Apply(s, c).0);
  }

  lemma CoveredKept(s: State, c: Command, t: State)
    requires Covered(s) && (KeepsDispatches(s, t) || c.Drop?)
    requires forall x :: x in t.tasks && x !in s.tasks ==> HasDispatch(t.dispatches, x)
    requires forall x :: c.Drop? && x in t.tasks && HasDispatch(s.dispatches, x) ==> HasDispatch(t.dispatches, x)
    ensures Covered(t)
  {
    forall x | x in t.tasks ensures HasDispatch(t.dispatches, x) {
      if x in s.tasks && !c.Drop? {
        var d :| d in s.dispatches && s.dispatches[d].taskId == Some(x);
        assert t.dispatches[d].taskId == Some(x);
      }
    }
  }

  /** A reader that has seen every event up to the counter never meets one of those numbers again. */
  lemma {:induction false} EventNumbersGoOn(s: State, commands: seq<Command>)
    requires Valid(s)
    ensures EventsGoOn(s, Execute(s, commands))
    decreases |commands|
  {
    hide Valid, Apply;
    if commands != [] {
      StepLawful(s, commands[0]);
      StepValid(s, commands[0]);
      EventNumbersGoOn(Apply(s, commands[0]).0, commands[1..]);
    }
  }

  // ---------------------------------------------------------------- the orchestrator's turn

  /** How an engine turn ends for the orchestrator. */
  datatype TurnEnd = Success(result: Option<string>) | Busy | Failure(error: string)

  /** `#execute`: record the result; when that throws, record the error instead. */
  function Conclude(s: State, id: Id, end: TurnEnd, storeError: string): (State, Reply) {
    match end
    case Success(result) =>
      var (t, reply) := Apply(s, Finish(id, Finished(result)));
      if reply.Ok? then (t, reply) else Apply(t, Finish(id, Errored(storeError)))
    case Busy => Apply(s, Defer(id))
    case Failure(error) => Apply(s, Finish(id, Errored(error)))
  }

  /**
   After a turn the dispatch no longer runs, exactly unless the engine was busy after all although the turn had been
   submitted, or a member failed with an error text too long to report.
   */
  lemma ConcludeSettles(s: State, id: Id, end: TurnEnd, storeError: string)
    requires Valid(s) && id in s.dispatches && s.dispatches[id].status == Running
    requires |TrimEnd(storeError)| <= REPORT_LIMIT
    ensures s.dispatches[id].runId in s.runs && s.dispatches[id].teamId in s.teams
    ensures var t := Conclude(s, id, end, storeError).0;
            id in t.dispatches &&
            (t.dispatches[id].status != Running <==>
             !(end.Busy? && s.dispatches[id].submitted) &&
             !(end.Failure? && ReportsToLead(s, id) && |TrimEnd(end.error)| > REPORT_LIMIT))
  {
    hide ValidWhile, FinishDispatch, ReportText;
    DispatchLinksHere(s, id);
    match end
    case Success(result) =>
      FinishSucceedsIff(s, id, Finished(result));
      FinishSucceedsIff(s, id, Errored(storeError));
      FinishEnds(s, id, Finished(result));
      FinishEnds(s, id, Errored(storeError));
      TextOfError(storeError);
    case Busy =>
      DeferEnds(s, id);
    case Failure(error) =>
      FinishSucceedsIff(s, id, Errored(error));
      FinishEnds(s, id, Errored(error));
      TextOfError(error);
  }

  lemma TextOfError(error: string)
    ensures ReportText(Errored(error)) == error
  {
  }

  lemma DeferEnds(s: State, id: Id)
    requires Valid(s) && id in s.dispatches && s.dispatches[id].status == Running
    ensures var t := Apply(s, Defer(id)).0;
            id in t.dispatches && (t.dispatches[id].status == Running <==> s.dispatches[id].submitted)
  {
    hide ValidWhile;
    DispatchLinks(s, id);
  }

  lemma FinishEnds(s: State, id: Id, report: Report)
    requires Valid(s) && id in s.dispatches && s.dispatches[id].status == Running
    ensures FinishDispatch(s, id, report).Ok? ==>
              id in FinishDispatch(s, id, report).value.dispatches &&
              FinishDispatch(s, id, report).value.dispatches[id].status != Running
  {
    hide ValidWhile, Settle, ReportToLead, Moves, SameRoster, SendMessage, Grows;
    if FinishDispatch(s, id, report).Ok? {
      SettleValid(s, id, report);
      SettleMoves(s, id, report);
      var t := Settle(s, id, report).value;
      SettledFacts(s, t, id, s.dispatches[id].taskId, s.dispatches[id].runId);
      var run := t.runs[s.dispatches[id].runId];
      if Unfinished(run.status) && run.status != RunInterrupted {
        ReportKeeps(t, id, s.dispatches[id], run, report);
      }
    }
  }

  lemma ReportKeeps(s: State, id: Id, item: Dispatch, run: Run, report: Report)
    requires Valid(s) && id in s.dispatches && ReportToLead(s, id, item, run, report).Ok?
    ensures var t := ReportToLead(s, id, item, run, report).value;
            id in t.dispatches && t.dispatches[id].status == s.dispatches[id].status
  {
    hide ValidWhile, SendMessage;
    var lead := LeadOf(s.teams[item.teamId].members);
    if lead.value != item.memberId {
      SendMessageGrows(s, item.teamId, Some(item.memberId), lead, ReportBody(report), Some(id));
    }
  }

  // ---------------------------------------------------------------- accounting after a restart

  /**
   Removing a member can stop the accounting of interrupted work: the list of interrupted executions, which the
   orchestrator needs before it runs anything, can still be made iff the member left none behind.
   */
  lemma LeavingStopsAccounting(s: State, teamId: Id, memberId: Id)
    requires Valid(s) && RemoveMember(s, teamId, memberId).Ok? && InterruptedExecutions(s).Ok?
    ensures InterruptedExecutions(RemoveMember(s, teamId, memberId).value).Ok? <==>
              !(exists d :: d in s.dispatches && NeedsReconciling(s, d) && s.dispatches[d].teamId == teamId &&
                            s.dispatches[d].memberId == memberId) &&
              !(exists t :: t in s.tasks && OrphanNeedsReconciling(s, t) && s.tasks[t].teamId == teamId &&
                            s.tasks[t].memberId == memberId)
  {
    hide ValidWhile, HasActiveWork, IsLead, IsBusy;
    var t := RemoveMember(s, teamId, memberId).value;
    PresentAfter(s, t, teamId, memberId);
    forall d | d in s.dispatches ensures NeedsReconciling(s, d) <==> NeedsReconciling(t, d) {
    }
    forall x | x in s.tasks ensures OrphanNeedsReconciling(s, x) <==> OrphanNeedsReconciling(t, x) {
    }
    hide NeedsReconciling, OrphanNeedsReconciling, WorkerPresent, RemoveMember;
  }

  lemma PresentAfter(s: State, t: State, teamId: Id, memberId: Id)
    requires RemoveMember(s, teamId, memberId) == Ok(t)
    ensures forall k, m :: WorkerPresent(t, k, m) <==> WorkerPresent(s, k, m) && !(k == teamId && m == memberId)
    ensures t.dispatches == s.dispatches && t.tasks == s.tasks && t.reconciled == s.reconciled
  {
    hide HasActiveWork, IsLead, IsBusy;
    WithoutMembers(s.teams[teamId].members, memberId);
    var before := s.teams[teamId].members;
    var after := t.teams[teamId].members;
    forall m ensures HasMember(t.teams[teamId], m) <==> HasMember(s.teams[teamId], m) && m != memberId {
      if HasMember(t.teams[teamId], m) {
        var i :| 0 <= i < |after| && after[i].id == m;
        assert after[i] in after;
      }
      if HasMember(s.teams[teamId], m) && m != memberId {
        var i :| 0 <= i < |before| && before[i].id == m;
        assert before[i] in after;
        var k :| 0 <= k < |after| && after[k] == before[i];
      }
    }
  }
}
