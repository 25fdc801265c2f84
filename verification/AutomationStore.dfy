/** The automation store as the program runs it: maps changed step by step, and a document saved after each change. */
module AutomationStore {
  import opened Common
  import opened ScheduleModel
  import opened AutomationModel
  import opened Automations

  class Store {
    const world: World
    var definitions: map<Id, Definition>
    var runs: map<RunId, Run>
    /** The runs in the order the map holds them. */
    var order: seq<RunId>
    var reconciled: set<RunId>
    var nextId: nat
    /** The document on disk. */
    var disk: State

    function Memory(): State
      reads this
    {
      State(definitions, runs, order, reconciled, nextId)
    }

    function Current(): AutomationModel.Store
      reads this
    {
      AutomationModel.Store(Memory(), disk)
    }

    ghost predicate Valid(clock: Time)
      reads this
    {
      Sound(world) && StoreOk(Current(), clock)
    }

    /** What the methods use of their document's invariant. */
    lemma Facts(clock: Time)
      requires Valid(clock)
      ensures OrderCovers(Memory()) && nextId !in definitions
      ensures forall id :: id in runs ==> RunOk(runs[id]) && (id.Manual? ==> id.number < nextId)
    {
    }

    /** A start on a saved document: the runs that were running have failed. */
    constructor (world: World, document: State, ghost clock: Time)
      requires Sound(world) && Good(document, clock)
      ensures Valid(clock) && this.world == world && disk == Restart(document) && Memory() == Restart(document)
    {
      this.world := world;
      definitions, runs, order, reconciled := document.definitions, document.runs, document.order, document.reconciled;
      nextId, disk := document.nextId, document;
      new;
      RestartGood(document, clock);
      hide RunsOk, TimesOk;
      var recovered := RecoverRuns();
      if recovered {
        Save();
      }
    }

    method RecoverRuns() returns (recovered: bool)
      requires OrderCovers(Memory())
      modifies this`runs
      ensures Memory() == Restart(old(Memory())) && (!recovered ==> runs == old(runs))
    {
      recovered := false;
      for i := 0 to |order|
        invariant runs.Keys == old(runs).Keys
        invariant forall r :: r in runs ==> runs[r] == if r in order[..i] then Recovered(old(runs)[r]) else old(runs)[r]
        invariant !recovered ==> runs == old(runs)
      {
        var id := order[i];
        assert id in order;
        assert forall r :: r in order[..i + 1] <==> r in order[..i] || r == id;
        if runs[id].status == Running {
          runs := runs[id := Recovered(runs[id])];
          recovered := true;
        }
      }
      assert order[..|order|] == order;
      assert runs == Restart(old(Memory())).runs;
    }

    method Save()
      modifies this`disk
      ensures disk == Memory()
    {
      disk := State(definitions, runs, order, reconciled, nextId);
    }

    method NextRun(schedule: Schedule, now: Time) returns (r: Result<Option<Time>, Error>)
      ensures r == NextRunAt(world, schedule, now)
    {
      hide Scan, Matches;
      if !Admitted(schedule) {
        return Err(BadSchedule(Malformed));
      }
      match schedule {
        case Weekly(days, hour, minute) =>
          var found := FindNext(world, days, hour, minute, now);
          match found {
            case Ok(t) => return Ok(Some(t));
            case Err(e) => return Err(BadSchedule(e));
          }
        case _ => return NextRunAt(world, schedule, now);
      }
    }

    method Create(schedule: Schedule, enabled: bool, ghost clock: Time, now: Time) returns (r: Result<Id, Error>)
      requires Valid(clock) && clock <= now
      modifies this
      ensures r.Ok? <==> Outcome(world, old(Memory()), Add(schedule, enabled), now).Ok?
      ensures r.Ok? ==> r.value !in old(definitions) && r.value in definitions
      ensures Valid(now) && Current() == Apply(world, old(Current()), Add(schedule, enabled), now)
    {
      hide StoreOk, NextRunAt, Admitted;
      StepOk(world, Current(), Add(schedule, enabled), clock, now);
      Facts(clock);
      var _ :- Checked(schedule);
      var next: Option<Time> := None;
      if enabled {
        next :- NextRun(schedule, now);
      }
      r := Ok(nextId);
      definitions, nextId := definitions[nextId := Definition(1, schedule, enabled, next, None)], nextId + 1;
      Save();
    }

    method Update(id: Id, version: nat, schedule: Option<Schedule>, enabled: Option<bool>, ghost clock: Time, now: Time)
      returns (r: Result<Definition, Error>)
      requires Valid(clock) && clock <= now
      modifies this
      ensures r.Ok? <==> Outcome(world, old(Memory()), Change(id, version, schedule, enabled), now).Ok?
      ensures r.Ok? ==> id in definitions && r.value == definitions[id]
      ensures Valid(now) && Current() == Apply(world, old(Current()), Change(id, version, schedule, enabled), now)
    {
      hide StoreOk, NextRunAt, Admitted;
      StepOk(world, Current(), Change(id, version, schedule, enabled), clock, now);
      Facts(clock);
      if id !in definitions {
        return Err(AutomationNotFound);
      }
      var current := definitions[id];
      if current.version != version {
        return Err(VersionConflict);
      }
      if schedule.Some? {
        var _ :- Checked(schedule.value);
      }
      var on := if enabled.Some? then enabled.value else current.enabled;
      var plan := if schedule.Some? then schedule.value else current.schedule;
      var next: Option<Time> := None;
      if on {
        if !current.enabled || schedule.Some? {
          next :- NextRun(plan, now);
        } else {
          next := current.nextRunAt;
        }
      }
      var definition := current.(version := current.version + 1, schedule := plan, enabled := on, nextRunAt := next);
      definitions := definitions[id := definition];
      if enabled == Some(false) {
        CancelScheduled(id);
      }
      Save();
      return Ok(definition);
    }

    method CancelScheduled(id: Id)
      requires OrderCovers(Memory())
      modifies this`runs
      ensures runs == map r | r in old(runs) :: Disabled(r, old(runs)[r], id)
    {
      for i := 0 to |order|
        invariant runs.Keys == old(runs).Keys
        invariant forall r :: r in runs ==> runs[r] == if r in order[..i] then Disabled(r, old(runs)[r], id) else old(runs)[r]
      {
        var run := order[i];
        assert run in order;
        assert forall r :: r in order[..i + 1] <==> r in order[..i] || r == run;
        if run.automation == id && (runs[run].status == Waiting || runs[run].status == Pending) && run.Scheduled? {
          runs := runs[run := runs[run].(status := Cancelled)];
        }
      }
      assert order[..|order|] == order;
    }

    method SomeActive(id: Id) returns (active: bool)
      requires OrderCovers(Memory())
      ensures active <==> HasActive(Memory(), id)
    {
      for i := 0 to |order|
        invariant forall j :: 0 <= j < i ==> !(order[j].automation == id && !Terminal(runs[order[j]].status))
      {
        var run := order[i];
        assert run in order;
        if run.automation == id && !Terminal(runs[run].status) {
          return true;
        }
      }
      return false;
    }

    method Delete(id: Id, ghost clock: Time, now: Time) returns (r: Result<(), Error>)
      requires Valid(clock) && clock <= now
      modifies this
      ensures r.Ok? <==> id in old(definitions) && !HasActive(old(Memory()), id)
      ensures Valid(now) && Current() == Apply(world, old(Current()), Remove(id), now)
    {
      hide StoreOk, HasActive;
      StepOk(world, Current(), Remove(id), clock, now);
      Facts(clock);
      if id !in definitions {
        return Err(AutomationNotFound);
      }
      var active := SomeActive(id);
      if active {
        return Err(HasActiveRun);
      }
      definitions := definitions - {id};
      ForgetRuns(id);
      Save();
      return Ok(());
    }

    method ForgetRuns(id: Id)
      requires OrderCovers(Memory())
      modifies this`runs, this`order
      ensures runs == map r | r in old(runs) && r.automation != id :: old(runs)[r]
      ensures order == Others(old(order), id)
    {
      hide Others;
      ghost var was := order;
      var kept: seq<RunId> := [];
      assert was[..0] == [];
      OthersNone(id);
      for i := 0 to |order|
        invariant order == was && kept == Others(was[..i], id)
        invariant forall r :: r in runs <==> r in old(runs) && !(r in was[..i] && r.automation == id)
        invariant forall r :: r in runs ==> runs[r] == old(runs)[r]
      {
        var run := order[i];
        OthersNext(was, id, i);
        if run.automation == id {
          runs := runs - {run};
        } else {
          kept := kept + [run];
        }
      }
      assert was[..|was|] == was;
      order := kept;
    }

    method RunNow(id: Id, ghost clock: Time, now: Time) returns (r: Result<RunId, Error>)
      requires Valid(clock) && clock <= now
      modifies this
      ensures r.Ok? <==> id in old(definitions)
      ensures r.Ok? ==> r.value !in old(runs) && r.value in runs && runs[r.value] == NEW_RUN
      ensures Valid(now) && Current() == Apply(world, old(Current()), Trigger(id), now)
    {
      hide StoreOk;
      StepOk(world, Current(), Trigger(id), clock, now);
      Facts(clock);
      if id !in definitions {
        return Err(AutomationNotFound);
      }
      var run := Manual(id, nextId);
      runs, order, nextId := runs[run := NEW_RUN], order + [run], nextId + 1;
      Save();
      return Ok(run);
    }

    /**
     The tick: every due automation gets its run and moves on, and the runs that may begin are returned. A schedule
     with no next time ends it at once, with nothing saved.
     */
    method ClaimRunnable(ghost clock: Time, now: Time) returns (r: Result<seq<RunId>, Error>)
      requires Valid(clock) && clock <= now
      modifies this
      ensures r.Ok? <==> Claim(world, old(Memory()), 0, old(nextId), now).1.None?
      ensures r.Ok? ==> forall id :: id in r.value <==> id in runs && Runnable(runs[id], now)
      ensures Valid(now) && Current() == Apply(world, old(Current()), Tick, now)
    {
      hide StoreOk, NextRunAt, Runnable;
      StepOk(world, Current(), Tick, clock, now);
      ghost var was := Memory();
      ghost var moved: Id := 0;
      var changed := false;
      Facts(clock);
      for id := 0 to nextId
        invariant nextId == was.nextId && unchanged(`disk) && unchanged(`nextId)
        invariant Claim(world, was, 0, nextId, now) == Claim(world, Memory(), id, nextId, now)
        invariant OrderCovers(Memory())
        invariant !changed ==> Memory() == was
        invariant changed ==> moved < id && moved in definitions && moved in was.definitions &&
                              definitions[moved] != was.definitions[moved]
        invariant forall d :: id <= d && d in definitions ==> d in was.definitions && definitions[d] == was.definitions[d]
      {
        if id !in definitions || !Due(definitions[id], now) {
          continue;
        }
        var definition := definitions[id];
        var at := definition.nextRunAt.value;
        var run := Scheduled(id, at);
        if run !in runs {
          runs, order := runs[run := NEW_RUN], order + [run];
        }
        if definition.schedule.Once? {
          definitions := definitions[id := definition.(version := definition.version + 1, lastRunAt := Some(at),
                                                       enabled := false, nextRunAt := None)];
        } else {
          var found := NextRun(definition.schedule, now);
          if found.Err? {
            return Err(found.error);
          }
          definitions := definitions[id := definition.(version := definition.version + 1, lastRunAt := Some(at),
                                                       nextRunAt := found.value)];
        }
        changed, moved := true, id;
      }
      if changed {
        Save();
      }
      var ready := RunnableRuns(now);
      return Ok(ready);
    }

    method RunnableRuns(now: Time) returns (ready: seq<RunId>)
      requires OrderCovers(Memory())
      ensures forall id :: id in ready <==> id in runs && Runnable(runs[id], now)
    {
      ready := [];
      for i := 0 to |order|
        invariant forall id :: id in ready <==> id in order[..i] && Runnable(runs[id], now)
      {
        var run := order[i];
        assert run in order;
        assert forall id :: id in order[..i + 1] <==> id in order[..i] || id == run;
        if Runnable(runs[run], now) {
          ready := ready + [run];
        }
      }
      assert order[..|order|] == order;
    }

    /** The scheduler takes a run; the caller's `run` is the one it was given. */
    method Begin(id: RunId, ghost clock: Time, now: Time) returns (r: Result<Run, Error>)
      requires Valid(clock) && clock <= now
      modifies this
      ensures r.Ok? <==> id in old(runs) && (old(runs)[id].status == Pending || old(runs)[id].status == Waiting)
      ensures r.Ok? ==> id in runs && runs[id] == r.value && r.value.status == Running && r.value.attempt == 1 && r.value.begun <= 4
      ensures Valid(now) && Current() == Apply(world, old(Current()), Start(id), now)
    {
      hide StoreOk;
      StepOk(world, Current(), Start(id), clock, now);
      Facts(clock);
      if id !in runs {
        return Err(RunNotFound);
      }
      var run := runs[id];
      if run.status != Pending && run.status != Waiting {
        return Err(RunNotPending);
      }
      run := run.(status := Running, attempt := run.attempt + 1, notBefore := None, begun := run.begun + 1);
      runs := runs[id := run];
      Save();
      return Ok(run);
    }

    method NoteSubmitted(id: RunId, ghost clock: Time, now: Time) returns (r: Result<(), Error>)
      requires Valid(clock) && clock <= now
      modifies this
      ensures r.Ok? <==> id in old(runs)
      ensures Valid(now) && Current() == Apply(world, old(Current()), Submitted(id), now)
    {
      hide StoreOk;
      StepOk(world, Current(), Submitted(id), clock, now);
      if id !in runs {
        return Err(RunNotFound);
      }
      if runs[id].status == Running {
        runs := runs[id := runs[id].(submitted := true)];
        Save();
      }
      return Ok(());
    }

    /** The session was busy: the run waits and may begin again, three times; the fourth time it is skipped. */
    method DeferBusy(id: RunId, ghost clock: Time, now: Time) returns (r: Result<Run, Error>)
      requires Valid(clock) && clock <= now
      modifies this
      ensures r.Ok? ==> id in runs && r.value == runs[id]
      ensures r.Ok? && id in old(runs) && old(runs)[id].status == Running ==>
                r.value.attempt == 0 && (r.value.status == SkippedBusy <==> old(runs)[id].begun == 4)
      ensures Valid(now) && Current() == Apply(world, old(Current()), Busy(id), now)
    {
      hide StoreOk;
      StepOk(world, Current(), Busy(id), clock, now);
      Facts(clock);
      if id !in runs {
        return Err(RunNotFound);
      }
      var run := runs[id];
      if run.status == Cancelled {
        return Ok(run);
      }
      if run.status != Running || run.submitted {
        return Err(RunNotRetryable);
      }
      var exhausted := run.busyRetryCount >= RETRIES;
      run := run.(status := if exhausted then SkippedBusy else Waiting,
                  attempt := OneLess(run.attempt),
                  busyRetryCount := run.busyRetryCount + (if exhausted then 0 else 1),
                  notBefore := if exhausted then None else Some(now + RETRY_DELAY));
      runs := runs[id := run];
      Save();
      return Ok(run);
    }

    method Finish(id: RunId, success: bool, ghost clock: Time, now: Time) returns (r: Result<Run, Error>)
      requires Valid(clock) && clock <= now
      modifies this
      ensures r.Ok? <==> id in old(runs) && (old(runs)[id].status == Cancelled || old(runs)[id].status == Running)
      ensures r.Ok? ==> id in runs && r.value == runs[id] && Terminal(r.value.status)
      ensures Valid(now) && Current() == Apply(world, old(Current()), End(id, success), now)
    {
      hide StoreOk;
      StepOk(world, Current(), End(id, success), clock, now);
      if id !in runs {
        return Err(RunNotFound);
      }
      var run := runs[id];
      if run.status == Cancelled {
        return Ok(run);
      }
      if run.status != Running {
        return Err(RunNotRunning);
      }
      run := run.(status := if success then Succeeded else Failed);
      runs := runs[id := run];
      Save();
      return Ok(run);
    }

    method Cancel(automation: Id, id: RunId, ghost clock: Time, now: Time) returns (r: Result<Run, Error>)
      requires Valid(clock) && clock <= now
      modifies this
      ensures r.Ok? <==> id in old(runs) && id.automation == automation && !Terminal(old(runs)[id].status)
      ensures r.Ok? ==> id in runs && r.value == runs[id] && r.value.status == Cancelled
      ensures Valid(now) && Current() == Apply(world, old(Current()), Stop(automation, id), now)
    {
      hide StoreOk;
      StepOk(world, Current(), Stop(automation, id), clock, now);
      if id !in runs || id.automation != automation {
        return Err(RunNotFound);
      }
      if runs[id].status != Pending && runs[id].status != Waiting && runs[id].status != Running {
        return Err(RunNotCancellable);
      }
      runs := runs[id := runs[id].(status := Cancelled)];
      Save();
      return Ok(runs[id]);
    }

    method AcknowledgeInterrupted(id: RunId, ghost clock: Time, now: Time) returns (r: Result<(), Error>)
      requires Valid(clock) && clock <= now
      modifies this
      ensures r.Ok? ==> !Interrupted(Memory(), id)
      ensures Valid(now) && Current() == Apply(world, old(Current()), Settle(id), now)
    {
      hide StoreOk;
      StepOk(world, Current(), Settle(id), clock, now);
      if id !in runs {
        return Err(RunNotFound);
      }
      if runs[id].status != Failed || !runs[id].restarted {
        return Err(RunNotInterrupted);
      }
      reconciled := reconciled + {id};
      Save();
      return Ok(());
    }
  }

  lemma OthersNone(id: Id)
    ensures Others([], id) == []
  {
  }

  lemma OthersNext(order: seq<RunId>, id: Id, i: nat)
    requires i < |order|
    ensures Others(order[..i + 1], id) == Others(order[..i], id) + (if order[i].automation == id then [] else [order[i]])
    ensures forall r :: r in order[..i + 1] <==> r in order[..i] || r == order[i]
  {
    assert order[..i + 1][..i] == order[..i] && order[..i + 1][i] == order[i];
  }

  ghost predicate OrderCovers(s: State) {
    forall r :: r in s.order <==> r in s.runs
  }
}
