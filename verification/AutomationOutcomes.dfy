/** What becomes of runs and plans under every command: how a run ends, when one is added, and what a plan is for. */
module AutomationOutcomes {
  import opened Common
  import opened ScheduleModel
  import opened AutomationModel
  import opened Automations

  // ---------------------------------------------------------------- runs

  predicate Unbegun(status: Status) {
    status == Pending || status == Waiting
  }

  /** The status of a run after a command that was accepted. */
  function StatusAfter(s: State, c: Command, r: RunId): Status
    requires r in s.runs
  {
    var run := s.runs[r];
    match c
    case Start(q) => if q == r then Running else run.status
    case Busy(q) =>
      if q == r && run.status == Running then (if run.busyRetryCount == 3 then SkippedBusy else Waiting) else run.status
    case End(q, success) => if q == r && run.status == Running then (if success then Succeeded else Failed) else run.status
    case Stop(_, q) => if q == r then Cancelled else run.status
    case Change(id, _, _, Some(false)) =>
      if r.Scheduled? && r.automation == id && Unbegun(run.status) then Cancelled else run.status
    case Reopen => if run.status == Running then Failed else run.status
    case _ => run.status
  }

  /** When a run may begin again, and whether a restart ended it. */
  function RestAfter(s: State, c: Command, r: RunId, now: Time): (Option<Time>, bool)
    requires r in s.runs
  {
    var run := s.runs[r];
    match c
    case Start(q) => (if q == r then None else run.notBefore, run.restarted)
    case Busy(q) =>
      (if q == r && run.status == Running then (if run.busyRetryCount == 3 then None else Some(now + 30000)) else run.notBefore,
       run.restarted)
    case Reopen => (run.notBefore, run.restarted || run.status == Running)
    case _ => (run.notBefore, run.restarted)
  }

  /** A run that was there, and is still, has become what the command says. */
  ghost predicate RunBecomes(s: State, c: Command, t: State, now: Time, r: RunId) {
    r in s.runs && r in t.runs ==>
      t.runs[r].status == StatusAfter(s, c, r) && (t.runs[r].notBefore, t.runs[r].restarted) == RestAfter(s, c, r, now)
  }

  lemma OutcomeBecomes(world: World, s: State, c: Command, clock: Time, now: Time, r: RunId)
    requires Good(s, clock) && !c.Tick? && !c.Reopen? && Outcome(world, s, c, now).Ok?
    ensures RunBecomes(s, c, Outcome(world, s, c, now).value, now, r)
  {
    hide NextRunAt, Checked, HasActive, Others, Good, RunOk;
    if r in s.runs {
      assert RunOk(s.runs[r]) by { RunHere(s, r, clock); }
      if s.runs[r].status == Running {
        RunningRun(s.runs[r]);
      }
    }
    match c
    case Trigger(id) => NotManual(s, id, clock);
    case _ =>
  }

  lemma RunHere(s: State, r: RunId, clock: Time)
    requires Good(s, clock) && r in s.runs
    ensures RunOk(s.runs[r])
  {
  }

  lemma RunningRun(run: Run)
    requires RunOk(run) && run.status == Running
    ensures run.busyRetryCount <= 3
  {
  }

  lemma NotManual(s: State, id: Id, clock: Time)
    requires Good(s, clock)
    ensures Manual(id, s.nextId) !in s.runs
  {
    hide RunsOk, OrderOk;
  }

  lemma SameBecomes(s: State, c: Command, t: State, now: Time, r: RunId)
    requires (c.Tick? || c.Add?) && (r in s.runs && r in t.runs ==> t.runs[r] == s.runs[r])
    ensures RunBecomes(s, c, t, now, r)
  {
  }

  /** What is in memory and on disk of a run is one and the same, or it was never saved and has not begun. */
  lemma SavedRun(store: Store, clock: Time, r: RunId)
    requires StoreOk(store, clock) && r in store.saved.runs
    ensures r in store.memory.runs && store.memory.runs[r] == store.saved.runs[r]
  {
  }

  /** Every command that is accepted, every tick and every restart does just that to every run. */
  lemma StepBecomes(world: World, store: Store, c: Command, clock: Time, now: Time, r: RunId)
    requires Sound(world) && StoreOk(store, clock) && clock <= now
    requires c.Tick? || c.Reopen? || Outcome(world, store.memory, c, now).Ok?
    ensures RunBecomes(store.memory, c, Apply(world, store, c, now).memory, now, r)
  {
    hide Good, Outcome, Claim, Quiet, AllBehind, RunBecomes;
    LaterClock(store.memory, clock, now);
    match c {
      case Tick =>
        ClaimGood(world, store.memory, 0, store.memory.nextId, now);
        SameBecomes(store.memory, c, Apply(world, store, c, now).memory, now, r);
      case Reopen =>
        if r in store.saved.runs {
          SavedRun(store, clock, r);
        }
        RestartBecomes(store, now, r);
      case _ => OutcomeBecomes(world, store.memory, c, clock, now, r);
    }
  }

  lemma RestartBecomes(store: Store, now: Time, r: RunId)
    requires r in store.saved.runs ==> r in store.memory.runs && store.memory.runs[r] == store.saved.runs[r]
    ensures RunBecomes(store.memory, Reopen, Restart(store.saved), now, r)
  {
  }

  /** A run succeeds only when it is running and its end is reported as a success, and then it does. */
  lemma SucceedsOnlyBy(world: World, store: Store, c: Command, clock: Time, now: Time, r: RunId)
    requires Sound(world) && StoreOk(store, clock) && clock <= now && r in store.memory.runs
    requires var t := Apply(world, store, c, now).memory; r in t.runs
    ensures var s, t := store.memory, Apply(world, store, c, now).memory;
            s.runs[r].status != Succeeded ==>
              (t.runs[r].status == Succeeded <==> c == End(r, true) && s.runs[r].status == Running)
  {
    hide StoreOk, Outcome, Claim, Quiet, Restart;
    if c.Tick? || c.Reopen? || Outcome(world, store.memory, c, now).Ok? {
      StepBecomes(world, store, c, clock, now, r);
    } else if c == End(r, true) && store.memory.runs[r].status == Running {
      EndAccepted(world, store.memory, r, now);
    }
  }

  lemma EndAccepted(world: World, s: State, r: RunId, now: Time)
    requires r in s.runs && s.runs[r].status == Running
    ensures Outcome(world, s, End(r, true), now).Ok?
  {
  }

  // ---------------------------------------------------------------- new runs

  /** The run of an automation that is due. */
  predicate IsDueRun(s: State, r: RunId, now: Time) {
    r.Scheduled? && r.automation in s.definitions && s.definitions[r.automation].enabled &&
    s.definitions[r.automation].nextRunAt == Some(r.at) && r.at <= now
  }

  lemma {:induction false} ClaimAdds(world: World, s: State, first: nat, bound: nat, now: Time, r: RunId)
    requires Sound(world)
    requires r !in s.runs && r in Claim(world, s, first, bound, now).0.runs
    ensures IsDueRun(s, r, now) && r.automation >= first
    decreases bound - first
  {
    hide NextTime;
    if first < bound {
      var (next, error) := ClaimOne(world, s, first, now);
      if r !in next.runs {
        hide ClaimOne;
        ClaimAdds(world, next, first + 1, bound, now, r);
        Untouched(world, s, first, now, r.automation);
      }
    }
  }

  lemma Untouched(world: World, s: State, first: Id, now: Time, d: Id)
    requires d != first
    ensures SameDefinition(s, ClaimOne(world, s, first, now).0, d)
  {
  }

  /** A run is added only for an enabled automation whose time has come, by a tick, or at a user's request; it is pending. */
  lemma AddedOnlyBy(world: World, store: Store, c: Command, clock: Time, now: Time, r: RunId)
    requires Sound(world) && StoreOk(store, clock) && clock <= now
    requires r !in store.memory.runs && r in Apply(world, store, c, now).memory.runs
    ensures Apply(world, store, c, now).memory.runs[r] == NEW_RUN
    ensures (c.Tick? && IsDueRun(store.memory, r, now)) || (c.Trigger? && r == Manual(c.id, store.memory.nextId))
  {
    hide Good, Claim, Quiet, AllBehind, NextTime, IsDueRun;
    match c {
      case Tick =>
        LaterClock(store.memory, clock, now);
        ClaimGood(world, store.memory, 0, store.memory.nextId, now);
        ClaimAdds(world, store.memory, 0, store.memory.nextId, now, r);
      case _ =>
    }
  }

  /** A tick that succeeds has given every due automation its run, and none is due after it. */
  lemma TickServes(world: World, store: Store, clock: Time, now: Time, r: RunId)
    requires Sound(world) && StoreOk(store, clock) && clock <= now
    requires Claim(world, store.memory, 0, store.memory.nextId, now).1.None?
    ensures var t := Apply(world, store, Tick, now);
            !IsDueRun(t.memory, r, now) && (IsDueRun(store.memory, r, now) ==> r in t.memory.runs)
  {
    hide Good, Claim, AllBehind, NextTime;
    LaterClock(store.memory, clock, now);
    ClaimServes(world, store.memory, 0, store.memory.nextId, now);
    ClaimGood(world, store.memory, 0, store.memory.nextId, now);
    DefinitionsBelow(store.memory, now);
    if r.Scheduled? && !(r.automation in store.memory.definitions && Due(store.memory.definitions[r.automation], now)) {
      NotDueStays(world, store.memory, 0, store.memory.nextId, now, r.automation);
    }
  }

  lemma {:induction false} NotDueStays(world: World, s: State, first: nat, bound: nat, now: Time, d: Id)
    requires d in s.definitions ==> !Due(s.definitions[d], now)
    ensures SameDefinition(s, Claim(world, s, first, bound, now).0, d)
    decreases bound - first
  {
    hide NextTime, Due;
    if first < bound {
      var (next, error) := ClaimOne(world, s, first, now);
      assert SameDefinition(s, next, d) by {
        if d != first {
          Untouched(world, s, first, now, d);
        }
      }
      if error.None? {
        NotDueStays(world, next, first + 1, bound, now, d);
      }
    }
  }

  lemma DefinitionsBelow(s: State, clock: Time)
    requires Good(s, clock)
    ensures forall d :: d in s.definitions ==> d < s.nextId
  {
    hide RunsOk, OrderOk;
  }

  /** A run that found its session busy is not offered again before half a minute has passed, and then it is. */
  lemma BusyWaits(s: State, r: RunId, now: Time, later: Time)
    requires DeferBusy(s, r, now).Ok? && r in s.runs && s.runs[r].status == Running
    ensures Runnable(DeferBusy(s, r, now).value.runs[r], later) <==> s.runs[r].busyRetryCount < 3 && later >= now + 30000
  {
  }

  /** Nothing but a pending run, or one whose wait is over, is offered, and it can begin. */
  lemma RunnableIff(s: State, r: RunId, now: Time)
    requires r in s.runs
    ensures Runnable(s.runs[r], now) <==>
            Begin(s, r).Ok? && (s.runs[r].status == Waiting ==> s.runs[r].notBefore.Some? && s.runs[r].notBefore.value <= now)
  {
  }

  // ---------------------------------------------------------------- plans

  /** An enabled automation waits for the next time of its schedule as it was at some moment past; others wait for none. */
  ghost predicate Planned(world: World, definition: Definition, clock: Time) {
    if definition.enabled
    then definition.nextRunAt.Some? &&
         exists t: Time :: t <= clock && NextTime(world, definition.schedule, t) == Ok(definition.nextRunAt.value)
    else definition.nextRunAt == None
  }

  ghost predicate AllPlanned(world: World, s: State, clock: Time) {
    forall d :: d in s.definitions ==> Planned(world, s.definitions[d], clock)
  }

  lemma PlannedNow(world: World, definition: Definition, now: Time)
    requires definition.enabled && NextRunAt(world, definition.schedule, now) == Ok(definition.nextRunAt)
    ensures Planned(world, definition, now)
  {
    hide NextTime;
    assert NextTime(world, definition.schedule, now) == Ok(definition.nextRunAt.value);
  }

  lemma PlannedLater(world: World, s: State, clock: Time, now: Time)
    requires AllPlanned(world, s, clock) && clock <= now
    ensures AllPlanned(world, s, now)
  {
    hide NextTime;
    forall d | d in s.definitions ensures Planned(world, s.definitions[d], now) {
      assert Planned(world, s.definitions[d], clock);
    }
  }

  lemma OutcomePlanned(world: World, s: State, c: Command, now: Time)
    requires AllPlanned(world, s, now) && Outcome(world, s, c, now).Ok?
    ensures AllPlanned(world, Outcome(world, s, c, now).value, now)
  {
    hide NextTime, HasActive, Others;
    var t := Outcome(world, s, c, now).value;
    forall d | d in t.definitions ensures Planned(world, t.definitions[d], now) {
      if d in s.definitions {
        assert Planned(world, s.definitions[d], now);
      }
      if !(d in s.definitions && t.definitions[d] == s.definitions[d]) && t.definitions[d].enabled &&
         NextRunAt(world, t.definitions[d].schedule, now) == Ok(t.definitions[d].nextRunAt) {
        PlannedNow(world, t.definitions[d], now);
      }
    }
  }

  lemma {:induction false} ClaimPlanned(world: World, s: State, first: nat, bound: nat, now: Time)
    requires AllPlanned(world, s, now)
    ensures AllPlanned(world, Claim(world, s, first, bound, now).0, now)
    decreases bound - first
  {
    hide AllPlanned, ClaimOne;
    if first < bound {
      ClaimOnePlanned(world, s, first, now);
      ClaimPlanned(world, ClaimOne(world, s, first, now).0, first + 1, bound, now);
    }
  }

  lemma ClaimOnePlanned(world: World, s: State, id: Id, now: Time)
    requires AllPlanned(world, s, now)
    ensures AllPlanned(world, ClaimOne(world, s, id, now).0, now)
  {
    hide NextTime;
    var t := ClaimOne(world, s, id, now).0;
    forall d | d in t.definitions ensures Planned(world, t.definitions[d], now) {
      assert Planned(world, s.definitions[d], now);
      if t.definitions[d] != s.definitions[d] && t.definitions[d].enabled {
        PlannedNow(world, t.definitions[d], now);
      }
    }
  }

  ghost predicate StorePlanned(world: World, store: Store, clock: Time) {
    AllPlanned(world, store.memory, clock) && AllPlanned(world, store.saved, clock)
  }

  lemma StepPlanned(world: World, store: Store, c: Command, clock: Time, now: Time)
    requires StorePlanned(world, store, clock) && clock <= now
    ensures StorePlanned(world, Apply(world, store, c, now), now)
  {
    hide AllPlanned, Outcome, Claim, Quiet;
    PlannedLater(world, store.memory, clock, now);
    PlannedLater(world, store.saved, clock, now);
    match c {
      case Tick => ClaimPlanned(world, store.memory, 0, store.memory.nextId, now);
      case Reopen => SamePlans(world, store.saved, Restart(store.saved), now);
      case _ =>
        if Outcome(world, store.memory, c, now).Ok? {
          OutcomePlanned(world, store.memory, c, now);
        }
    }
  }

  lemma SamePlans(world: World, s: State, t: State, now: Time)
    requires AllPlanned(world, s, now) && t.definitions == s.definitions
    ensures AllPlanned(world, t, now)
  {
    hide NextTime;
  }

  lemma {:induction false} StaysPlanned(world: World, store: Store, uses: seq<Use>, clock: Time)
    requires StorePlanned(world, store, clock) && InTime(uses, clock)
    ensures StorePlanned(world, ApplyAll(world, store, uses), LastTime(uses, clock))
    decreases |uses|
  {
    hide StorePlanned, Apply;
    if uses != [] {
      StepPlanned(world, store, uses[0].command, clock, uses[0].at);
      StaysPlanned(world, Apply(world, store, uses[0].command, uses[0].at), uses[1..], uses[0].at);
    }
  }

  /** Over any use from an empty store, in memory and on disk. */
  lemma AlwaysPlanned(world: World, uses: seq<Use>)
    requires InTime(uses, 0)
    ensures StorePlanned(world, ApplyAll(world, Store(Empty, Empty), uses), LastTime(uses, 0))
  {
    StaysPlanned(world, Store(Empty, Empty), uses, 0);
  }
}
