/** Runs in which nothing can start any more: what `pauseBlockedRuns` finds of them, and what it leaves running. */
module TeamPausing {
  import opened Common
  import opened Texts
  import opened TeamModel
  import opened TeamDependencies
  import opened TeamInvariant
  import opened TeamFrames
  import opened TeamProofs
  import opened TeamControl
  import opened TeamCommands
  import opened TeamEffects
  import opened TeamSteps

  predicate Over(status: TaskStatus) {
    status == TaskFailed || status == TaskCancelled
  }

  ghost predicate WorkOf(s: State, r: Id, d: Id) {
    d in s.dispatches && s.dispatches[d].runId == r && Active(s.dispatches[d].status)
  }

  /** Queued for a task of which not all dependencies have succeeded. */
  ghost predicate Waits(s: State, d: Id)
    requires d in s.dispatches
  {
    var item := s.dispatches[d];
    item.status == Queued && item.taskId.Some? && item.taskId.value in s.tasks &&
    !AllSucceeded(s.tasks, s.tasks[item.taskId.value].dependsOn)
  }

  /** A run that goes on, with work, none of which runs or could begin. */
  ghost predicate Stuck(s: State, r: Id) {
    r in s.runs && s.runs[r].status == RunRunning && Outstanding(s.dispatches, r) &&
    forall d :: WorkOf(s, r, d) ==> Waits(s, d)
  }

  /** Queued tasks, each depending on the next one, up to one that failed or was cancelled. */
  ghost predicate Dead(tasks: map<Id, Task>, path: seq<Id>) {
    Chain(tasks, path) && Over(tasks[path[|path| - 1]].status) &&
    forall i :: 0 <= i < |path| - 1 ==> tasks[path[i]].status == TaskQueued
  }

  /** The task waits, directly or through other queued tasks, for one that will not succeed. */
  ghost predicate Doomed(tasks: map<Id, Task>, x: Id) {
    exists path :: Dead(tasks, path) && path[0] == x
  }

  ghost predicate AllDoomed(s: State, r: Id) {
    r in s.runs && s.runs[r].status == RunRunning && Outstanding(s.dispatches, r) &&
    forall d :: WorkOf(s, r, d) ==> ForDoomedTask(s, d)
  }

  ghost predicate ForDoomedTask(s: State, d: Id)
    requires d in s.dispatches
  {
    s.dispatches[d].status == Queued && s.dispatches[d].taskId.Some? && Doomed(s.tasks, s.dispatches[d].taskId.value)
  }

  /** Work that waits for queued tasks only: none of what it depends on has failed or was cancelled itself. */
  ghost predicate WaitsIndirectly(s: State, r: Id, d: Id) {
    WorkOf(s, r, d) && !(s.dispatches[d].taskId.Some? && HasFailedDependency(s.tasks, s.dispatches[d].taskId.value))
  }

  // ---------------------------------------------------------------- stuck runs wait for a failed task

  /** An unfinished task that work of the run depends on is work of the same run. */
  lemma DependencyIsWork(s: State, r: Id, d: Id, y: Id)
    requires Valid(s) && WorkOf(s, r, d) && s.dispatches[d].taskId.Some? && s.dispatches[d].taskId.value in s.tasks
    requires y in s.tasks[s.dispatches[d].taskId.value].dependsOn && y in s.tasks && ActiveTask(s.tasks[y].status)
    ensures exists e :: WorkOf(s, r, e) && s.dispatches[e].taskId == Some(y)
    ensures forall e :: WorkOf(s, r, e) && s.dispatches[e].taskId == Some(y) ==>
              (s.dispatches[e].status == Queued <==> s.tasks[y].status == TaskQueued)
  {
    hide TeamsOk, OwnersOk, BusyOk, AloneOk, ConcurrencyOk, EventsOk, Acyclic;
    var x := s.dispatches[d].taskId.value;
    assert s.tasks[y].teamId == s.tasks[x].teamId;
    assert HasDispatch(s.dispatches, y);
    var e :| e in s.dispatches && s.dispatches[e].taskId == Some(y);
    assert Linked(s.dispatches[e].status, s.tasks[y].status);
    assert DispatchOk(s.teams, s.tasks, s.messages, s.runs, s.dispatches[e]);
    assert DispatchOk(s.teams, s.tasks, s.messages, s.runs, s.dispatches[d]);
    assert Rivals(s.runs, s.dispatches[e].runId, r);
    assert WorkOf(s, r, e);
  }

  ghost predicate QueuedChain(tasks: map<Id, Task>, path: seq<Id>) {
    Chain(tasks, path) && forall i :: 0 <= i < |path| ==> tasks[path[i]].status == TaskQueued
  }

  lemma ChainGrows(tasks: map<Id, Task>, path: seq<Id>, y: Id)
    requires QueuedChain(tasks, path) && y in tasks && y in tasks[path[|path| - 1]].dependsOn
    ensures Chain(tasks, path + [y])
    ensures tasks[y].status == TaskQueued ==> QueuedChain(tasks, path + [y])
    ensures Over(tasks[y].status) ==> Dead(tasks, path + [y])
  {
    var longer := path + [y];
    forall i | 0 <= i < |longer| - 1 ensures longer[i + 1] in tasks[longer[i]].dependsOn {
      if i < |path| - 1 {
        assert path[i + 1] in tasks[path[i]].dependsOn;
      }
    }
  }

  /** The first tasks of a walk. */
  ghost function Met(path: seq<Id>, k: nat): (r: set<Id>)
    requires k <= |path|
    ensures forall x :: x in r <==> x in path[..k]
  {
    if k == 0 then {} else Met(path, k - 1) + {path[k - 1]}
  }

  /** A walk in an acyclic graph meets every task once at most. */
  lemma {:induction false} ChainMeets(tasks: map<Id, Task>, path: seq<Id>, k: nat)
    requires Chain(tasks, path) && Acyclic(tasks) && k <= |path|
    ensures |Met(path, k)| == k
  {
    hide Acyclic, Chain;
    if k > 0 {
      ChainMeets(tasks, path, k - 1);
      forall i | 0 <= i < k - 1 ensures path[i] != path[k - 1] {
        NoReturn(tasks, path, i, k - 1);
      }
    }
  }

  lemma ChainIsShort(tasks: map<Id, Task>, path: seq<Id>)
    requires Chain(tasks, path) && Acyclic(tasks)
    ensures |path| <= |tasks|
  {
    ChainMeets(tasks, path, |path|);
    assert path[..|path|] == path;
    Fewer(Met(path, |path|), tasks.Keys);
    assert |tasks| == |tasks.Keys|;
  }

  lemma NoReturn(tasks: map<Id, Task>, path: seq<Id>, i: nat, j: nat)
    requires Chain(tasks, path) && Acyclic(tasks) && i < j < |path|
    ensures path[i] != path[j]
  {
    var part := path[i..j + 1];
    forall k | 0 <= k < |part| - 1 ensures part[k + 1] in tasks[part[k]].dependsOn {
      assert path[i + k + 1] in tasks[path[i + k]].dependsOn;
    }
    assert Chain(tasks, part);
  }

  lemma {:induction false} Fewer(a: set<Id>, b: set<Id>)
    requires a <= b
    ensures |a| <= |b|
    decreases |a|
  {
    if a != {} {
      var x :| x in a;
      Fewer(a - {x}, b - {x});
    }
  }

  /** From work of a stuck run along what it waits for: the walk ends, at a task that failed or was cancelled. */
  lemma {:induction false} WalkToFailure(s: State, r: Id, d: Id, path: seq<Id>) returns (dead: seq<Id>)
    requires Valid(s) && Stuck(s, r) && path != [] && QueuedChain(s.tasks, path)
    requires WorkOf(s, r, d) && s.dispatches[d].taskId == Some(path[|path| - 1])
    ensures Dead(s.tasks, dead) && dead[0] == path[0]
    decreases |s.tasks| - |path|
  {
    hide Valid, Stuck, Waits, Dead, QueuedChain, Chain, WorkOf;
    var x := path[|path| - 1];
    var y := NextOnWalk(s, r, d);
    assert |(path + [y])| == |path| + 1 && (path + [y])[0] == path[0];
    ChainGrows(s.tasks, path, y);
    if Over(s.tasks[y].status) {
      dead := path + [y];
    } else {
      var e := NextWork(s, r, d, y);
      AcyclicHere(s);
      ChainIsShort(s.tasks, path + [y]);
      dead := WalkToFailure(s, r, e, path + [y]);
    }
  }

  lemma AcyclicHere(s: State)
    requires Valid(s)
    ensures Acyclic(s.tasks)
  {
  }

  lemma WorkWaits(s: State, r: Id, d: Id)
    requires Stuck(s, r) && WorkOf(s, r, d)
    ensures d in s.dispatches && s.dispatches[d].status == Queued && s.dispatches[d].taskId.Some?
    ensures s.dispatches[d].taskId.value in s.tasks
    ensures !AllSucceeded(s.tasks, s.tasks[s.dispatches[d].taskId.value].dependsOn)
  {
    assert Waits(s, d);
  }

  lemma NextOnWalk(s: State, r: Id, d: Id) returns (y: Id)
    requires Valid(s) && Stuck(s, r) && WorkOf(s, r, d)
    ensures d in s.dispatches && s.dispatches[d].taskId.Some? && s.dispatches[d].taskId.value in s.tasks
    ensures y in s.tasks[s.dispatches[d].taskId.value].dependsOn && y in s.tasks && s.tasks[y].status != TaskSucceeded
  {
    WorkWaits(s, r, d);
    hide Stuck, WorkOf;
    y := Unsucceeded(s, s.dispatches[d].taskId.value);
  }

  lemma Unsucceeded(s: State, x: Id) returns (y: Id)
    requires Valid(s) && x in s.tasks && !AllSucceeded(s.tasks, s.tasks[x].dependsOn)
    ensures y in s.tasks[x].dependsOn && y in s.tasks && s.tasks[y].status != TaskSucceeded
  {
    var i :| 0 <= i < |s.tasks[x].dependsOn| &&
             !(s.tasks[x].dependsOn[i] in s.tasks && s.tasks[s.tasks[x].dependsOn[i]].status == TaskSucceeded);
    y := s.tasks[x].dependsOn[i];
    hide TeamsOk, OwnersOk, RunsOk, DispatchesOk, LinksOk, BusyOk, AloneOk, ConcurrencyOk, EventsOk, Acyclic;
  }

  lemma NextWork(s: State, r: Id, d: Id, y: Id) returns (e: Id)
    requires Valid(s) && Stuck(s, r)
    requires WorkOf(s, r, d) && s.dispatches[d].taskId.Some? && s.dispatches[d].taskId.value in s.tasks
    requires y in s.tasks[s.dispatches[d].taskId.value].dependsOn && y in s.tasks && ActiveTask(s.tasks[y].status)
    ensures WorkOf(s, r, e) && s.dispatches[e].taskId == Some(y) && s.tasks[y].status == TaskQueued
  {
    hide Valid;
    DependencyIsWork(s, r, d, y);
    e :| WorkOf(s, r, e) && s.dispatches[e].taskId == Some(y);
    assert Waits(s, e);
  }

  /**
   A run with work of which nothing runs and nothing could begin is exactly a run all of whose work waits, directly
   or through other queued tasks, for tasks that failed or were cancelled.
   */
  lemma StuckIffDoomed(s: State, r: Id)
    requires Valid(s)
    ensures Stuck(s, r) <==> AllDoomed(s, r)
  {
    hide Valid, Waits, ForDoomedTask;
    if Stuck(s, r) {
      forall d | WorkOf(s, r, d) ensures ForDoomedTask(s, d) {
        StuckIsDoomed(s, r, d);
      }
    }
    if AllDoomed(s, r) {
      forall d | WorkOf(s, r, d) ensures Waits(s, d) {
        assert ForDoomedTask(s, d);
        DoomedWaits(s, d);
      }
    }
  }

  lemma StuckIsDoomed(s: State, r: Id, d: Id)
    requires Valid(s) && Stuck(s, r) && WorkOf(s, r, d)
    ensures ForDoomedTask(s, d)
  {
    WaitingTask(s, r, d);
    hide Valid, Stuck, Waits, WorkOf, Dead;
    var dead := WalkToFailure(s, r, d, [s.dispatches[d].taskId.value]);
  }

  lemma WaitingTask(s: State, r: Id, d: Id)
    requires Valid(s) && Stuck(s, r) && WorkOf(s, r, d)
    ensures d in s.dispatches && s.dispatches[d].status == Queued && s.dispatches[d].taskId.Some?
    ensures QueuedChain(s.tasks, [s.dispatches[d].taskId.value])
  {
    hide Valid, Stuck, WorkOf, QueuedChain;
    WorkWaits(s, r, d);
    QueuedTask(s, d);
    OneTask(s.tasks, s.dispatches[d].taskId.value);
  }

  lemma OneTask(tasks: map<Id, Task>, x: Id)
    requires x in tasks && tasks[x].status == TaskQueued
    ensures QueuedChain(tasks, [x])
  {
  }

  lemma QueuedTask(s: State, d: Id)
    requires Valid(s) && d in s.dispatches && s.dispatches[d].status == Queued && s.dispatches[d].taskId.Some?
    ensures s.dispatches[d].taskId.value in s.tasks && s.tasks[s.dispatches[d].taskId.value].status == TaskQueued
  {
    assert Linked(s.dispatches[d].status, s.tasks[s.dispatches[d].taskId.value].status);
  }

  lemma DoomedWaits(s: State, d: Id)
    requires Valid(s) && d in s.dispatches && ForDoomedTask(s, d)
    ensures Waits(s, d)
  {
    QueuedTask(s, d);
    hide Valid;
    var x := s.dispatches[d].taskId.value;
    var path :| Dead(s.tasks, path) && path[0] == x;
    DeadNext(s.tasks, path);
    hide Dead;
    var i :| 0 <= i < |s.tasks[x].dependsOn| && s.tasks[x].dependsOn[i] == path[1];
  }

  lemma DeadNext(tasks: map<Id, Task>, path: seq<Id>)
    requires Dead(tasks, path) && tasks[path[0]].status == TaskQueued
    ensures |path| >= 2 && path[1] in tasks && path[1] in tasks[path[0]].dependsOn && tasks[path[1]].status != TaskSucceeded
  {
    assert |path| >= 2 ==> path[0 + 1] in tasks[path[0]].dependsOn;
  }

  /** Nothing of a stuck run begins. */
  lemma StuckCannotBegin(s: State, r: Id, d: Id)
    requires Stuck(s, r) && d in s.dispatches && s.dispatches[d].runId == r
    ensures BeginDispatch(s, d).1.Err? && BeginDispatch(s, d).0.dispatches == s.dispatches
  {
    if s.dispatches[d].status == Queued {
      assert WorkOf(s, r, d) && Waits(s, d);
    }
  }

  // ---------------------------------------------------------------- which of them are paused

  lemma {:induction false} PausedAre(s: State, first: nat, bound: nat, r: Id)
    requires r in s.runs
    ensures var t := PauseBlocked(s, first, bound);
            r in t.runs && t.tasks == s.tasks && t.dispatches == s.dispatches &&
            t.runs[r] == if first <= r < bound && Blocked(s, r) then s.runs[r].(status := RunPaused, reason := DependencyFailed)
                         else s.runs[r]
    decreases bound - first
  {
    if first < bound {
      if Blocked(s, first) {
        var run := s.runs[first];
        var next := Emit(SetRun(s, first, run.(status := RunPaused, reason := DependencyFailed)), run.teamId, RunUpdated, first);
        assert first < r ==> (Blocked(next, r) <==> Blocked(s, r));
        hide Blocked;
        PausedAre(next, first + 1, bound, r);
      } else {
        hide Blocked;
        PausedAre(s, first + 1, bound, r);
      }
    }
  }

  /**
   `pauseBlockedRuns` pauses only stuck runs, and every stuck run but those with work that waits for queued tasks
   only: such a run goes on being "running" although nothing in it can begin.
   */
  lemma LeftRunningIff(s: State, r: Id)
    requires Valid(s)
    ensures var t := PauseBlocked(s, 0, s.nextId);
            (r in s.runs && r in t.runs && t.runs[r] != s.runs[r] ==> Stuck(s, r) && t.runs[r].status == RunPaused) &&
            (Stuck(t, r) <==> Stuck(s, r) && exists d :: WaitsIndirectly(s, r, d))
  {
    var t := PauseBlocked(s, 0, s.nextId);
    PauseBlockedPauses(s, 0, s.nextId);
    hide PauseBlocked;
    if r in s.runs {
      RunBelow(s, r);
      PausedAre(s, 0, s.nextId, r);
      if Blocked(s, r) {
        BlockedIsStuck(s, r);
      }
      BlockedIff(s, r);
      SameStuck(s, t, r);
      hide Blocked, Valid, WaitsIndirectly, Stuck;
    } else {
      assert r !in t.runs by {
        assert r !in s.runs.Keys;
      }
    }
  }

  lemma SameStuck(s: State, t: State, r: Id)
    requires t.tasks == s.tasks && t.dispatches == s.dispatches && r in s.runs && r in t.runs
    requires t.runs[r].status == RunRunning ==> s.runs[r].status == RunRunning
    ensures Stuck(t, r) <==> Stuck(s, r) && t.runs[r].status == RunRunning
  {
    assert forall d :: WorkOf(s, r, d) <==> WorkOf(t, r, d);
    assert forall d :: WorkOf(s, r, d) ==> (Waits(s, d) <==> Waits(t, d));
  }

  lemma RunBelow(s: State, r: Id)
    requires Valid(s) && r in s.runs
    ensures r < s.nextId
  {
  }

  lemma BlockedIsStuck(s: State, r: Id)
    requires Valid(s) && Blocked(s, r)
    ensures Stuck(s, r)
  {
    forall d | WorkOf(s, r, d) ensures Waits(s, d) {
    }
  }

  lemma BlockedIff(s: State, r: Id)
    requires r in s.runs
    ensures Stuck(s, r) ==> (Blocked(s, r) <==> !exists d :: WaitsIndirectly(s, r, d))
  {
    if Stuck(s, r) && !(exists d :: WaitsIndirectly(s, r, d)) {
      forall d | d in s.dispatches && s.dispatches[d].runId == r && Active(s.dispatches[d].status)
        ensures s.dispatches[d].status == Queued && s.dispatches[d].taskId.Some? &&
                HasFailedDependency(s.tasks, s.dispatches[d].taskId.value)
      {
        assert WorkOf(s, r, d) && Waits(s, d) && !WaitsIndirectly(s, r, d);
      }
    }
    if d :| WaitsIndirectly(s, r, d) {
      assert WorkOf(s, r, d);
    }
  }

  // ---------------------------------------------------------------- one such run

  /** The only team is 0, led by 1, and its only run is 3. */
  ghost predicate OneRun(s: State) {
    s.nextId > 3 && s.teams.Keys == {0} && HasMember(s.teams[0], 1) &&
    s.runs == map[3 := Run(0, RunRunning, 1, 0, 0, NoReason)]
  }

  function QueueOne(dependsOn: seq<Id>): Command {
    Queue(0, 1, "a", "a", dependsOn, None)
  }

  lemma TitleAccepted()
    ensures Accepted("a", 200) && Accepted("a", TEXT_LIMIT)
  {
  }

  /** One more task and its dispatch. */
  lemma QueueMore(s: State, dependsOn: seq<Id>)
    requires OneRun(s) && ValidateDependencies(s.tasks, 0, dependsOn, None).Ok?
    ensures var t := Apply(s, QueueOne(dependsOn)).0;
            OneRun(t) && t.nextId == s.nextId + 2 && t.tasks == s.tasks[s.nextId := Task(0, 1, 1, dependsOn, TaskQueued, None)] &&
            t.dispatches == s.dispatches[s.nextId + 1 := Dispatch(0, 3, 1, Some(s.nextId), [], None, 0, {}, Queued, false)]
  {
    hide ValidateDependencies, LastUnfinished, Accepted;
    TitleAccepted();
    LastUnfinishedFound(s.runs, 0, s.nextId + 1);
    assert 3 in s.runs && Unfinished(s.runs[3].status);
  }

  lemma OneDependency(s: State, x: Id)
    requires Valid(s) && x in s.tasks && s.tasks[x].teamId == 0
    ensures ValidateDependencies(s.tasks, 0, [x], None).Ok?
  {
    VisitDecides(s.tasks, 0, None, x);
    hide Visit, Valid;
    assert [x][1..] == [];
    assert VisitEach(s.tasks, 0, None, [x][1..]).Ok?;
  }

  lemma Founded() returns (s: State)
    ensures s == Apply(Empty, NewTeam("Lead")).0 && Valid(s)
    ensures s.teams == map[0 := Team(1, [Member(1, "Lead", Lead, Idle)])] && s.nextId == 2 && s.runs == map[] && s.tasks == map[]
    ensures s.dispatches == map[] && s.reconciled == {}
  {
    s := Apply(Empty, NewTeam("Lead")).0;
    EmptyValid();
    StepValid(Empty, NewTeam("Lead"));
  }

  lemma FirstQueued(begun: State) returns (s: State)
    requires begun.teams == map[0 := Team(1, [Member(1, "Lead", Lead, Idle)])] && begun.nextId == 2 && begun.runs == map[]
    requires begun.tasks == map[] && begun.dispatches == map[]
    ensures s == Apply(begun, QueueOne([])).0 && OneRun(s) && s.nextId == 5
    ensures s.tasks == map[2 := Task(0, 1, 1, [], TaskQueued, None)]
    ensures s.dispatches == map[4 := Dispatch(0, 3, 1, Some(2), [], None, 0, {}, Queued, false)]
  {
    hide LastUnfinished, Accepted;
    TitleAccepted();
    LastUnfinishedFound(begun.runs, 0, 3);
    assert begun.teams[0].members[0].id == 1;
    s := Apply(begun, QueueOne([])).0;
  }

  /** Three tasks in a row. */
  ghost predicate ThreeInARow(s: State) {
    OneRun(s) && s.nextId == 9 &&
    s.tasks == map[2 := Task(0, 1, 1, [], TaskQueued, None), 5 := Task(0, 1, 1, [2], TaskQueued, None),
                   7 := Task(0, 1, 1, [5], TaskQueued, None)] &&
    s.dispatches == map[4 := Dispatch(0, 3, 1, Some(2), [], None, 0, {}, Queued, false),
                        6 := Dispatch(0, 3, 1, Some(5), [], None, 0, {}, Queued, false),
                        8 := Dispatch(0, 3, 1, Some(7), [], None, 0, {}, Queued, false)]
  }

  lemma ThreeQueued() returns (s: State)
    ensures Valid(s) && ThreeInARow(s)
    ensures s == Apply(Apply(Apply(Apply(Empty, NewTeam("Lead")).0, QueueOne([])).0, QueueOne([2])).0, QueueOne([5])).0
  {
    hide Apply, Valid;
    var a := Founded();
    var b := FirstQueued(a);
    StepValid(a, QueueOne([]));
    OneDependency(b, 2);
    QueueMore(b, [2]);
    StepValid(b, QueueOne([2]));
    var c := Apply(b, QueueOne([2])).0;
    OneDependency(c, 5);
    QueueMore(c, [5]);
    StepValid(c, QueueOne([5]));
    s := Apply(c, QueueOne([5])).0;
  }

  lemma CancelFirst(s: State)
    requires ThreeInARow(s)
    ensures var t := Apply(s, Stop(0, 2)).0;
            t.runs == s.runs && t.tasks == s.tasks[2 := Task(0, 1, 1, [], TaskCancelled, None)] &&
            t.dispatches == s.dispatches[4 := Dispatch(0, 3, 1, Some(2), [], None, 0, {}, Cancelled, false)]
  {
  }

  /** Cancelling the first leaves the run stuck, and the last dispatch waits for a queued task. */
  lemma FirstCancelled(s: State, t: State)
    requires ThreeInARow(s) && t.runs == s.runs && t.tasks == s.tasks[2 := Task(0, 1, 1, [], TaskCancelled, None)]
    requires t.dispatches == s.dispatches[4 := Dispatch(0, 3, 1, Some(2), [], None, 0, {}, Cancelled, false)]
    ensures Stuck(t, 3) && WaitsIndirectly(t, 3, 8)
  {
    assert t.tasks[5].dependsOn[0] == 2 && t.tasks[7].dependsOn[0] == 5;
    assert WorkOf(t, 3, 6);
  }

  lemma ExecuteNext(s: State, commands: seq<Command>, c: Command, rest: seq<Command>)
    requires commands == [c] + rest
    ensures Execute(s, commands) == Execute(Apply(s, c).0, rest)
  {
    hide Apply;
    assert commands[1..] == rest;
  }

  lemma Idles(s: State)
    ensures Apply(s, PauseIdle).0 == PauseBlocked(s, 0, s.nextId)
  {
  }

  /** Three tasks in a row, the first one cancelled. */
  lemma FirstOfThreeCancelled() returns (e: State)
    ensures Valid(e) && Stuck(e, 3) && WaitsIndirectly(e, 3, 8) && 3 in e.runs && e.runs[3].dispatchCount == 0
    ensures forall d :: d in e.dispatches ==> e.dispatches[d].depth == 0
    ensures Execute(Empty, [NewTeam("Lead"), QueueOne([]), QueueOne([2]), QueueOne([5]), Stop(0, 2), PauseIdle]) ==
            Apply(e, PauseIdle).0
  {
    var d := ThreeQueued();
    hide Apply, Valid, Stuck, WaitsIndirectly, QueueOne, Execute;
    CancelFirst(d);
    e := Apply(d, Stop(0, 2)).0;
    StepValid(d, Stop(0, 2));
    FirstCancelled(d, e);
    RunOfSix(d);
  }

  /** Then the run stays "running", with nothing that could start. */
  lemma LeftRunning()
    ensures Stuck(Execute(Empty, [NewTeam("Lead"), QueueOne([]), QueueOne([2]), QueueOne([5]), Stop(0, 2), PauseIdle]), 3)
  {
    hide Apply, Valid, Stuck, WaitsIndirectly, PauseBlocked, QueueOne, Execute;
    var e := FirstOfThreeCancelled();
    LeftRunningIff(e, 3);
    Idles(e);
  }

  lemma RunOfSix(d: State)
    requires d == Apply(Apply(Apply(Apply(Empty, NewTeam("Lead")).0, QueueOne([])).0, QueueOne([2])).0, QueueOne([5])).0
    ensures Execute(Empty, [NewTeam("Lead"), QueueOne([]), QueueOne([2]), QueueOne([5]), Stop(0, 2), PauseIdle]) ==
            Apply(Apply(d, Stop(0, 2)).0, PauseIdle).0
  {
    hide Apply, QueueOne;
    var two, one := [Stop(0, 2), PauseIdle], [PauseIdle];
    var three := [QueueOne([5])] + two;
    var four := [QueueOne([2])] + three;
    var five := [QueueOne([])] + four;
    var a := Apply(Empty, NewTeam("Lead")).0;
    var b := Apply(a, QueueOne([])).0;
    var c := Apply(b, QueueOne([2])).0;
    assert two == [Stop(0, 2)] + one && one == [PauseIdle] + [];
    ExecuteNext(Empty, [NewTeam("Lead")] + five, NewTeam("Lead"), five);
    ExecuteNext(a, five, QueueOne([]), four);
    ExecuteNext(b, four, QueueOne([2]), three);
    ExecuteNext(c, three, QueueOne([5]), two);
    ExecuteNext(d, two, Stop(0, 2), one);
    ExecuteNext(Apply(d, Stop(0, 2)).0, one, PauseIdle, []);
    assert [NewTeam("Lead")] + five ==
           [NewTeam("Lead"), QueueOne([]), QueueOne([2]), QueueOne([5]), Stop(0, 2), PauseIdle];
  }
}
