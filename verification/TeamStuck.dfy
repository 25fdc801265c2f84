/** A stuck run that `pauseBlockedRuns` does not see stays so, whatever the orchestrator does. */
module TeamStuck {
  import opened Common
  import opened TeamModel
  import opened TeamDependencies
  import opened TeamInvariant
  import opened TeamFrames
  import opened TeamProofs
  import opened TeamOperations
  import opened TeamCommands
  import opened TeamEffects
  import opened TeamSteps
  import opened TeamTheorems
  import opened TeamPausing

  /** The run, its dispatches and the tasks of its team are as they were. */
  ghost predicate RunKept(s: State, t: State, r: Id)
    requires r in s.runs
  {
    r in t.runs && t.runs[r] == s.runs[r] &&
    (forall d :: d in s.dispatches && s.dispatches[d].runId == r ==> d in t.dispatches && t.dispatches[d] == s.dispatches[d]) &&
    (forall d :: d in t.dispatches && t.dispatches[d].runId == r ==> d in s.dispatches && s.dispatches[d].runId == r) &&
    forall x :: x in s.tasks && s.tasks[x].teamId == s.runs[r].teamId ==> x in t.tasks && t.tasks[x] == s.tasks[x]
  }

  /** No attempt to begin work of the run meets a limit. */
  ghost predicate BelowLimits(s: State, r: Id)
    requires r in s.runs
  {
    s.runs[r].dispatchCount < MAX_DISPATCHES && forall d :: WorkOf(s, r, d) ==> s.dispatches[d].depth <= MAX_DEPTH
  }

  /** Stuck, not to be paused for its dependencies, and below its limits. */
  ghost predicate Unseen(s: State, r: Id) {
    Stuck(s, r) && (exists d :: WaitsIndirectly(s, r, d)) && BelowLimits(s, r)
  }

  lemma WorkTeam(s: State, r: Id, d: Id)
    requires Valid(s) && r in s.runs && WorkOf(s, r, d) && s.dispatches[d].taskId.Some?
    ensures s.dispatches[d].taskId.value in s.tasks && s.tasks[s.dispatches[d].taskId.value].teamId == s.runs[r].teamId
  {
    assert DispatchOk(s.teams, s.tasks, s.messages, s.runs, s.dispatches[d]);
  }

  lemma KnownOfTeam(s: State, x: Id, i: nat)
    requires Valid(s) && x in s.tasks && i < |s.tasks[x].dependsOn|
    ensures s.tasks[x].dependsOn[i] in s.tasks && s.tasks[s.tasks[x].dependsOn[i]].teamId == s.tasks[x].teamId
  {
  }

  lemma WorkKept(s: State, t: State, r: Id, d: Id)
    requires r in s.runs && RunKept(s, t, r)
    ensures WorkOf(t, r, d) <==> WorkOf(s, r, d)
    ensures WorkOf(s, r, d) ==> t.dispatches[d] == s.dispatches[d]
  {
  }

  /** The task and what it depends on are as they were. */
  ghost predicate TaskKept(s: State, t: State, x: Id)
    requires x in s.tasks
  {
    x in t.tasks && t.tasks[x] == s.tasks[x] &&
    forall i :: 0 <= i < |s.tasks[x].dependsOn| ==>
      s.tasks[x].dependsOn[i] in s.tasks && s.tasks[x].dependsOn[i] in t.tasks &&
      t.tasks[s.tasks[x].dependsOn[i]] == s.tasks[s.tasks[x].dependsOn[i]]
  }

  lemma TeamTaskKept(s: State, t: State, r: Id, x: Id)
    requires r in s.runs && RunKept(s, t, r) && x in s.tasks && s.tasks[x].teamId == s.runs[r].teamId
    ensures x in t.tasks && t.tasks[x] == s.tasks[x]
  {
  }

  lemma WorkTaskKept(s: State, t: State, r: Id, d: Id)
    requires Valid(s) && r in s.runs && RunKept(s, t, r) && WorkOf(s, r, d) && s.dispatches[d].taskId.Some?
    ensures s.dispatches[d].taskId.value in s.tasks && TaskKept(s, t, s.dispatches[d].taskId.value)
  {
    hide Valid, RunKept;
    var x := s.dispatches[d].taskId.value;
    WorkTeam(s, r, d);
    TeamTaskKept(s, t, r, x);
    forall i | 0 <= i < |s.tasks[x].dependsOn|
      ensures s.tasks[x].dependsOn[i] in s.tasks && s.tasks[x].dependsOn[i] in t.tasks &&
              t.tasks[s.tasks[x].dependsOn[i]] == s.tasks[s.tasks[x].dependsOn[i]]
    {
      KnownOfTeam(s, x, i);
      TeamTaskKept(s, t, r, s.tasks[x].dependsOn[i]);
    }
  }

  lemma TaskDecides(s: State, t: State, x: Id)
    requires x in s.tasks && TaskKept(s, t, x)
    ensures AllSucceeded(t.tasks, t.tasks[x].dependsOn) <==> AllSucceeded(s.tasks, s.tasks[x].dependsOn)
    ensures HasFailedDependency(t.tasks, x) <==> HasFailedDependency(s.tasks, x)
  {
  }

  /** What work waits for, and whether it waits for queued tasks only, is decided by the tasks of its team. */
  lemma WaitingKept(s: State, t: State, r: Id, d: Id)
    requires Valid(s) && r in s.runs && RunKept(s, t, r) && WorkOf(s, r, d)
    ensures Waits(s, d) ==> d in t.dispatches && Waits(t, d)
    ensures WaitsIndirectly(s, r, d) ==> WaitsIndirectly(t, r, d)
  {
    WorkKept(s, t, r, d);
    if s.dispatches[d].taskId.Some? {
      WorkTaskKept(s, t, r, d);
      TaskDecides(s, t, s.dispatches[d].taskId.value);
    }
    hide Valid, RunKept, AllSucceeded, HasFailedDependency;
  }

  lemma UnseenKept(s: State, t: State, r: Id)
    requires Valid(s) && Unseen(s, r) && RunKept(s, t, r)
    ensures Unseen(t, r)
  {
    hide Valid, RunKept, Waits, WaitsIndirectly;
    var e :| WaitsIndirectly(s, r, e);
    IndirectWork(s, r, e);
    forall d ensures WorkOf(t, r, d) <==> WorkOf(s, r, d) {
      WorkKept(s, t, r, d);
    }
    forall d | WorkOf(s, r, d) ensures t.dispatches[d] == s.dispatches[d] && Waits(t, d) {
      WorkKept(s, t, r, d);
      WaitingKept(s, t, r, d);
    }
    WaitingKept(s, t, r, e);
    RunSame(s, t, r);
    assert WorkOf(t, r, e);
  }

  lemma IndirectWork(s: State, r: Id, d: Id)
    requires WaitsIndirectly(s, r, d)
    ensures WorkOf(s, r, d)
  {
  }

  lemma RunSame(s: State, t: State, r: Id)
    requires r in s.runs && RunKept(s, t, r)
    ensures r in t.runs && t.runs[r] == s.runs[r]
  {
  }

  // ---------------------------------------------------------------- steps elsewhere

  /** A running dispatch is of another run, and of another team. */
  lemma RunsElsewhere(s: State, r: Id, d: Id)
    requires Valid(s) && r in s.runs && Unfinished(s.runs[r].status) && d in s.dispatches && Active(s.dispatches[d].status)
    requires s.dispatches[d].runId != r
    ensures s.dispatches[d].runId in s.runs && s.dispatches[d].teamId != s.runs[r].teamId
    ensures s.dispatches[d].taskId.Some? ==>
              s.dispatches[d].taskId.value in s.tasks && s.tasks[s.dispatches[d].taskId.value].teamId != s.runs[r].teamId
  {
    hide TeamsOk, OwnersOk, GraphOk, LinksOk, BusyOk, AloneOk, ConcurrencyOk, EventsOk;
    assert DispatchOk(s.teams, s.tasks, s.messages, s.runs, s.dispatches[d]);
    assert s.dispatches[d].teamId == s.runs[r].teamId ==> Rivals(s.runs, s.dispatches[d].runId, r);
  }

  lemma StuckNotRunning(s: State, r: Id, d: Id)
    requires Stuck(s, r) && d in s.dispatches && s.dispatches[d].status == Running
    ensures s.dispatches[d].runId != r
  {
    assert s.dispatches[d].runId == r ==> WorkOf(s, r, d);
  }

  lemma MovesKept(s: State, t: State, d: Id, x: Option<Id>, r: Id)
    requires r in s.runs && d in s.dispatches && Moves(s, t, d, x, s.dispatches[d].runId) && s.dispatches[d].runId != r
    requires x.Some? ==> x.value in s.tasks && s.tasks[x.value].teamId != s.runs[r].teamId
    ensures RunKept(s, t, r)
  {
    forall y | y in s.tasks ensures y in t.tasks {
      assert y in t.tasks.Keys;
    }
    forall q | q in s.runs ensures q in t.runs {
      assert q in t.runs.Keys;
    }
  }

  lemma GrowsKept(s: State, t: State, run: Id, r: Id)
    requires r in s.runs && Grows(s, t, run) && run != r
    ensures RunKept(s, t, r)
  {
  }

  lemma KeptTrans(a: State, b: State, c: State, r: Id)
    requires r in a.runs && RunKept(a, b, r) && RunKept(b, c, r)
    ensures RunKept(a, c, r)
  {
  }

  lemma KeptSelf(s: State, r: Id)
    requires r in s.runs
    ensures RunKept(s, s, r)
  {
  }

  lemma BeginKeeps(s: State, r: Id, d: Id)
    requires Valid(s) && Unseen(s, r)
    ensures RunKept(s, BeginDispatch(s, d).0, r)
  {
    hide Valid, RunKept, Waits, WaitsIndirectly;
    KeptSelf(s, r);
    var t := BeginDispatch(s, d).0;
    if t != s {
      ActiveToBegin(s, d);
      if s.dispatches[d].runId == r {
        StuckBeginsNot(s, r, d);
      } else {
        RunsElsewhere(s, r, d);
        if BeginDispatch(s, d).1.Err? {
          LimitMoves(s, d);
          hide BeginDispatch;
          MovesKept(s, t, d, None, r);
        } else {
          BeginMoves(s, d);
          hide BeginDispatch;
          MovesKept(s, t, d, s.dispatches[d].taskId, r);
        }
      }
    }
  }

  lemma ActiveToBegin(s: State, d: Id)
    requires BeginDispatch(s, d).0 != s
    ensures d in s.dispatches && s.dispatches[d].status == Queued
  {
  }

  lemma StuckBeginsNot(s: State, r: Id, d: Id)
    requires Stuck(s, r) && BelowLimits(s, r) && d in s.dispatches && s.dispatches[d].runId == r
    ensures BeginDispatch(s, d).0 == s
  {
    if s.dispatches[d].status == Queued {
      assert WorkOf(s, r, d) && Waits(s, d);
    }
  }

  lemma SubmitKeeps(s: State, r: Id, d: Id)
    requires Stuck(s, r)
    ensures RunKept(s, SubmitDispatch(s, d), r)
  {
    if d in s.dispatches && s.dispatches[d].status == Running {
      StuckNotRunning(s, r, d);
    }
  }

  lemma DeferKeeps(s: State, r: Id, d: Id)
    requires Valid(s) && Stuck(s, r) && DeferDispatch(s, d).Ok?
    ensures RunKept(s, DeferDispatch(s, d).value, r)
  {
    hide Valid, Stuck, RunKept, DeferDispatch;
    StuckRuns(s, r);
    DeferIsOf(s, d);
    if s.dispatches[d].status == Running {
      StuckNotRunning(s, r, d);
      RunsElsewhere(s, r, d);
      DeferElsewhere(s, r, d);
    } else {
      DeferNothing(s, d);
      KeptSelf(s, r);
    }
  }

  lemma DeferIsOf(s: State, d: Id)
    requires DeferDispatch(s, d).Ok?
    ensures d in s.dispatches
  {
  }

  lemma DeferNothing(s: State, d: Id)
    requires d in s.dispatches && s.dispatches[d].status != Running
    ensures DeferDispatch(s, d) == Ok(s)
  {
  }

  lemma DeferElsewhere(s: State, r: Id, d: Id)
    requires r in s.runs && DeferDispatch(s, d).Ok? && d in s.dispatches && s.dispatches[d].runId != r
    requires s.dispatches[d].taskId.Some? ==>
               s.dispatches[d].taskId.value in s.tasks && s.tasks[s.dispatches[d].taskId.value].teamId != s.runs[r].teamId
    ensures RunKept(s, DeferDispatch(s, d).value, r)
  {
  }

  lemma FinishKeeps(s: State, r: Id, d: Id, report: Report)
    requires Valid(s) && Stuck(s, r) && FinishDispatch(s, d, report).Ok?
    ensures RunKept(s, FinishDispatch(s, d, report).value, r)
  {
    hide ValidWhile, Settle, ReportToLead, RunKept, Stuck, Moves;
    StuckRuns(s, r);
    KeptSelf(s, r);
    if s.dispatches[d].status == Running {
      var item := s.dispatches[d];
      StuckNotRunning(s, r, d);
      RunsElsewhere(s, r, d);
      DispatchLinksHere(s, d);
      SettleValid(s, d, report);
      SettleMoves(s, d, report);
      var t := Settle(s, d, report).value;
      MovesKept(s, t, d, item.taskId, r);
      SettledFacts(s, t, d, item.taskId, item.runId);
      var run := t.runs[item.runId];
      var told := t;
      if Unfinished(run.status) && run.status != RunInterrupted {
        told := ReportToLead(t, d, item, run, report).value;
        ReportKeepsRun(t, d, item, run, report, r);
        KeptTrans(s, t, told, r);
      }
      EventsKeep(s, told, item.teamId, d, item.runId, r);
    }
  }

  lemma StuckRuns(s: State, r: Id)
    requires Stuck(s, r)
    ensures r in s.runs && s.runs[r].status == RunRunning
  {
  }

  lemma EventsKeep(s: State, t: State, teamId: Id, id: Id, runId: Id, r: Id)
    requires r in s.runs && RunKept(s, t, r)
    ensures RunKept(s, Emit(Emit(t, teamId, DispatchUpdated, id), teamId, RunUpdated, runId), r)
  {
  }

  lemma ReportKeepsRun(s: State, id: Id, item: Dispatch, run: Run, report: Report, r: Id)
    requires Valid(s) && r in s.runs && item.runId in s.runs && run == s.runs[item.runId] && run.teamId == item.teamId
    requires Unfinished(run.status) && item.runId != r && ReportToLead(s, id, item, run, report).Ok?
    ensures RunKept(s, ReportToLead(s, id, item, run, report).value, r)
  {
    hide ValidWhile, SendMessage, Grows, ReportBody;
    var lead := LeadOf(s.teams[item.teamId].members);
    if lead.value != item.memberId {
      SendMessageGrows(s, item.teamId, Some(item.memberId), lead, ReportBody(report), Some(id));
      TheRun(s, item.teamId, item.runId);
      GrowsKept(s, SendMessage(s, item.teamId, Some(item.memberId), lead, ReportBody(report), Some(id)).value.0, item.runId, r);
    }
  }

  lemma PauseKeeps(s: State, r: Id)
    requires Unseen(s, r)
    ensures RunKept(s, PauseBlocked(s, 0, s.nextId), r)
  {
    hide PauseBlocked, Blocked, WaitsIndirectly, Waits;
    PausedAre(s, 0, s.nextId, r);
    BlockedIff(s, r);
  }

  // ---------------------------------------------------------------- any number of them

  /** What the orchestrator does on its own. */
  predicate Orchestrates(c: Command) {
    c.Begin? || c.Submit? || c.Defer? || c.Finish? || c.PauseIdle?
  }

  lemma StepKeepsUnseen(s: State, c: Command, r: Id)
    requires Valid(s) && Unseen(s, r) && Orchestrates(c)
    ensures Unseen(Apply(s, c).0, r)
  {
    hide Valid, RunKept, Waits, WaitsIndirectly, BelowLimits, Stuck;
    hide BeginDispatch, SubmitDispatch, DeferDispatch, FinishDispatch, PauseBlocked;
    StuckRuns(s, r);
    KeptSelf(s, r);
    match c {
      case Begin(d) => BeginKeeps(s, r, d);
      case Submit(d) => SubmitKeeps(s, r, d);
      case Defer(d) =>
        if DeferDispatch(s, d).Ok? {
          DeferKeeps(s, r, d);
        }
      case Finish(d, report) =>
        if FinishDispatch(s, d, report).Ok? {
          FinishKeeps(s, r, d, report);
        }
      case PauseIdle => PauseKeeps(s, r);
    }
    UnseenKept(s, Apply(s, c).0, r);
  }

  /**
   Beginning, submitting, deferring and finishing dispatches and looking for blocked runs, in any order and number,
   leave such a run running and stuck: only a call from outside, or a limit, ends that.
   */
  lemma {:induction false} StaysStuck(s: State, commands: seq<Command>, r: Id)
    requires Valid(s) && Unseen(s, r) && forall i :: 0 <= i < |commands| ==> Orchestrates(commands[i])
    ensures Unseen(Execute(s, commands), r) && Stuck(Execute(s, commands), r)
    decreases |commands|
  {
    hide Valid, Apply, Stuck, WaitsIndirectly, BelowLimits;
    if commands != [] {
      StepValid(s, commands[0]);
      StepKeepsUnseen(s, commands[0], r);
      StaysStuck(Apply(s, commands[0]).0, commands[1..], r);
    }
  }

  /** Three tasks in a row, the first one cancelled: on its own the run stays so for good. */
  lemma LeftForGood(commands: seq<Command>)
    requires forall i :: 0 <= i < |commands| ==> Orchestrates(commands[i])
    ensures var s := Execute(Empty, [NewTeam("Lead"), QueueOne([]), QueueOne([2]), QueueOne([5]), Stop(0, 2), PauseIdle]);
            Stuck(Execute(s, commands), 3)
  {
    hide Apply, Valid, Stuck, WaitsIndirectly, QueueOne, Execute;
    var e := FirstOfThreeCancelled();
    assert Unseen(e, 3);
    StepValid(e, PauseIdle);
    StepKeepsUnseen(e, PauseIdle, 3);
    StaysStuck(Apply(e, PauseIdle).0, commands, 3);
  }
}
