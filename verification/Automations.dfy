/** What holds of automations and their runs over any use, with restarts, on a clock that does not go back. */
module Automations {
  import opened Common
  import opened ScheduleModel
  import opened AutomationModel

  /** How a run's counters follow its status. */
  ghost predicate RunOk(run: Run) {
    match run.status
    case Pending => run == NEW_RUN
    case Waiting => run.begun == run.busyRetryCount && 1 <= run.busyRetryCount <= RETRIES && run.attempt == 0 && !run.submitted
    case Running => run.begun == run.busyRetryCount + 1 && run.busyRetryCount <= RETRIES && run.attempt == 1
    case Succeeded => run.begun == run.busyRetryCount + 1 && run.busyRetryCount <= RETRIES && run.attempt == 1
    case Failed => run.begun == run.busyRetryCount + 1 && run.busyRetryCount <= RETRIES && run.attempt == 1
    case Cancelled =>
      run.busyRetryCount <= run.begun <= run.busyRetryCount + 1 && run.busyRetryCount <= RETRIES && run.attempt <= 1
    case SkippedBusy => run.begun == RETRIES + 1 && run.busyRetryCount == RETRIES && run.attempt == 0
  }

  ghost predicate RunsOk(s: State) {
    forall r :: r in s.runs ==> RunOk(s.runs[r])
  }

  /** Runs are listed once each, and those of one automation in the order of the times they are for. */
  ghost predicate OrderOk(s: State) {
    (forall r :: r in s.order <==> r in s.runs) &&
    (forall i, j :: 0 <= i < j < |s.order| ==> s.order[i] != s.order[j]) &&
    forall i, j :: 0 <= i < j < |s.order| && SameAutomation(s.order[i], s.order[j]) ==> s.order[i].at < s.order[j].at
  }

  predicate SameAutomation(r: RunId, q: RunId) {
    r.Scheduled? && q.Scheduled? && r.automation == q.automation
  }

  /** Scheduled runs are for times past, and none for a time after the automation's next one. */
  ghost predicate TimesOk(s: State, clock: Time) {
    (forall r :: r in s.runs && r.Scheduled? ==> r.at <= clock) &&
    (forall r :: r in s.runs && r.Scheduled? && r.automation in s.definitions ==>
       s.definitions[r.automation].nextRunAt.Some? ==> r.at <= s.definitions[r.automation].nextRunAt.value) &&
    (forall r :: r in s.runs ==> r.automation in s.definitions && (r.Manual? ==> r.number < s.nextId)) &&
    forall d :: d in s.definitions ==> d < s.nextId && Admitted(s.definitions[d].schedule)
  }

  ghost predicate Good(s: State, clock: Time) {
    RunsOk(s) && OrderOk(s) && TimesOk(s, clock)
  }

  /** What is due in memory is due on disk, no later and by the same schedule. */
  ghost predicate Behind(memory: Definition, saved: Definition) {
    memory.enabled && memory.nextRunAt.Some? ==>
      saved.enabled && saved.schedule == memory.schedule && saved.nextRunAt.Some? &&
      saved.nextRunAt.value <= memory.nextRunAt.value
  }

  ghost predicate AllBehind(memory: State, saved: State) {
    forall d :: d in memory.definitions ==> d in saved.definitions && Behind(memory.definitions[d], saved.definitions[d])
  }

  /** On disk is what is in memory, but for what a failed tick did: runs it added, and definitions it moved on. */
  ghost predicate SavedOk(store: Store) {
    AllBehind(store.memory, store.saved) &&
    (forall r :: r in store.saved.runs ==> r in store.memory.runs && store.memory.runs[r] == store.saved.runs[r]) &&
    forall r :: r in store.memory.runs && r !in store.saved.runs ==> store.memory.runs[r] == NEW_RUN
  }

  ghost predicate StoreOk(store: Store, clock: Time) {
    Good(store.memory, clock) && Good(store.saved, clock) && SavedOk(store)
  }

  lemma LaterClock(s: State, clock: Time, now: Time)
    requires Good(s, clock) && clock <= now
    ensures Good(s, now)
  {
  }

  // ---------------------------------------------------------------- single runs

  /** Changing one run, when its counters still follow its status. */
  lemma SetRunGood(s: State, id: RunId, run: Run, clock: Time)
    requires Good(s, clock) && id in s.runs && RunOk(run)
    ensures Good(SetRun(s, id, run), clock)
  {
  }

  /** A new run at the end of the list. */
  lemma AddRunGood(s: State, id: RunId, clock: Time)
    requires Good(s, clock) && id !in s.runs && id.automation in s.definitions
    requires id.Scheduled? ==> id.at <= clock && s.definitions[id.automation].nextRunAt == Some(id.at)
    requires id.Manual? ==> id.number < s.nextId
    ensures Good(AddRun(s, id), clock)
  {
    var n := AddRun(s, id);
    assert forall i :: 0 <= i < |s.order| ==> n.order[i] == s.order[i] && s.order[i] in s.order;
    assert n.order[|s.order|] == id;
    forall i | 0 <= i < |s.order| && SameAutomation(s.order[i], id) ensures s.order[i].at < id.at {
      assert s.order[i] in s.runs && s.order[i] != id;
    }
  }

  lemma BeginGood(s: State, id: RunId, clock: Time)
    requires Good(s, clock) && Begin(s, id).Ok?
    ensures Good(Begin(s, id).value, clock)
  {
    assert RunOk(s.runs[id]);
    SetRunGood(s, id, Begin(s, id).value.runs[id], clock);
  }

  lemma RunCommandsGood(world: World, s: State, c: Command, clock: Time, now: Time)
    requires Good(s, clock) && (c.Start? || c.Submitted? || c.Busy? || c.End? || c.Stop? || c.Settle?)
    requires Outcome(world, s, c, now).Ok?
    ensures Good(Outcome(world, s, c, now).value, clock)
  {
    hide OrderOk, TimesOk;
    var t := Outcome(world, s, c, now).value;
    match c
    case Start(id) => BeginGood(s, id, clock);
    case Settle(id) => SettleGood(s, id, clock);
    case Submitted(id) => OneRunGood(s, t, id, clock);
    case Busy(id) => OneRunGood(s, t, id, clock);
    case End(id, _) => OneRunGood(s, t, id, clock);
    case Stop(_, id) => OneRunGood(s, t, id, clock);
  }

  lemma SettleGood(s: State, id: RunId, clock: Time)
    requires Good(s, clock) && Acknowledge(s, id).Ok?
    ensures Good(Acknowledge(s, id).value, clock)
  {
    assert Acknowledge(s, id).value.runs == s.runs;
  }

  lemma OneRunGood(s: State, t: State, id: RunId, clock: Time)
    requires Good(s, clock) && id in s.runs && id in t.runs && RunOk(t.runs[id]) && t == SetRun(s, id, t.runs[id])
    ensures Good(t, clock)
  {
    SetRunGood(s, id, t.runs[id], clock);
  }

  // ---------------------------------------------------------------- definitions

  /** Changing one definition, when its next time is not before its runs. */
  lemma SetDefinitionGood(s: State, id: Id, definition: Definition, clock: Time)
    requires Good(s, clock) && id < s.nextId && Admitted(definition.schedule)
    requires definition.nextRunAt.Some? ==>
               forall r :: r in s.runs && r.Scheduled? && r.automation == id ==> r.at <= definition.nextRunAt.value
    ensures Good(s.(definitions := s.definitions[id := definition]), clock)
  {
  }

  lemma ChangeGood(world: World, s: State, id: Id, version: nat, schedule: Option<Schedule>, enabled: Option<bool>,
                   clock: Time, now: Time)
    requires Sound(world) && Good(s, clock) && clock <= now && Update(world, s, id, version, schedule, enabled, now).Ok?
    ensures Good(Update(world, s, id, version, schedule, enabled, now).value, now)
  {
    var t := Update(world, s, id, version, schedule, enabled, now).value;
    var definition := t.definitions[id];
    LaterClock(s, clock, now);
    if definition.nextRunAt.Some? && (!s.definitions[id].enabled || schedule.Some?) {
      NextIsLater(world, definition.schedule, now);
    }
    SetDefinitionGood(s, id, definition, now);
    var changed := s.(definitions := s.definitions[id := definition]);
    assert t == changed.(runs := t.runs);
    forall r | r in t.runs ensures r in s.runs && RunOk(t.runs[r]) {
      assert RunOk(s.runs[r]);
    }
    assert forall r :: r in s.runs ==> r in t.runs;
  }

  lemma {:induction false} OthersAmong(order: seq<RunId>, id: Id)
    ensures forall r :: r in Others(order, id) <==> r in order && r.automation != id
    decreases |order|
  {
    if order != [] {
      OthersAmong(order[..|order| - 1], id);
      assert forall r :: r in order <==> r in order[..|order| - 1] || r == order[|order| - 1];
    }
  }

  /** A run, and one listed after it. */
  predicate Follows(r: RunId, q: RunId) {
    r != q && (SameAutomation(r, q) ==> r.at < q.at)
  }

  ghost predicate Following(order: seq<RunId>) {
    forall i, j :: 0 <= i < j < |order| ==> Follows(order[i], order[j])
  }

  lemma {:induction false} OthersFollow(order: seq<RunId>, id: Id)
    requires Following(order)
    ensures Following(Others(order, id))
    decreases |order|
  {
    if order != [] {
      var init, last := order[..|order| - 1], order[|order| - 1];
      assert Following(init);
      OthersFollow(init, id);
      OthersAmong(init, id);
      var rest := Others(init, id);
      forall i | 0 <= i < |rest| ensures Follows(rest[i], last) {
        assert rest[i] in init;
        var k :| 0 <= k < |init| && init[k] == rest[i];
        assert Follows(order[k], order[|order| - 1]);
      }
    }
  }

  lemma RemoveGood(s: State, id: Id, clock: Time)
    requires Good(s, clock) && Delete(s, id).Ok?
    ensures Good(Delete(s, id).value, clock)
  {
    hide Others, RunOk;
    OthersAmong(s.order, id);
    OthersFollow(s.order, id);
    var kept := Others(s.order, id);
    assert forall i, j :: 0 <= i < j < |kept| ==> Follows(kept[i], kept[j]);
  }

  // ---------------------------------------------------------------- claiming

  lemma ClaimOneGood(world: World, s: State, id: Id, clock: Time, now: Time)
    requires Sound(world) && Good(s, now)
    ensures Good(ClaimOne(world, s, id, now).0, now)
    ensures ClaimOne(world, s, id, now).0.nextId == s.nextId
  {
    if id in s.definitions && Due(s.definitions[id], now) {
      var definition := s.definitions[id];
      var at := definition.nextRunAt.value;
      var run := Scheduled(id, at);
      if run !in s.runs {
        AddRunGood(s, run, now);
      }
      var added := if run in s.runs then s else AddRun(s, run);
      if definition.schedule.Once? {
        SetDefinitionGood(added, id, ClaimOne(world, s, id, now).0.definitions[id], now);
      } else if NextRunAt(world, definition.schedule, now).Ok? {
        NextIsLater(world, definition.schedule, now);
        SetDefinitionGood(added, id, ClaimOne(world, s, id, now).0.definitions[id], now);
      }
    }
  }

  /** A turn adds at most one new run, and changes no other. */
  lemma ClaimOneRuns(world: World, s: State, id: Id, now: Time)
    ensures var t := ClaimOne(world, s, id, now).0;
            t.definitions.Keys == s.definitions.Keys && t.reconciled == s.reconciled &&
            (forall r :: r in s.runs ==> r in t.runs && t.runs[r] == s.runs[r]) &&
            forall r :: r in t.runs && r !in s.runs ==> t.runs[r] == NEW_RUN
  {
  }

  lemma ClaimOneBehind(world: World, s: State, id: Id, now: Time)
    requires Sound(world)
    ensures AllBehind(ClaimOne(world, s, id, now).0, s)
  {
    if id in s.definitions && Due(s.definitions[id], now) {
      var definition := s.definitions[id];
      if !definition.schedule.Once? && NextRunAt(world, definition.schedule, now).Ok? {
        NextIsLater(world, definition.schedule, now);
      }
    }
  }

  lemma BehindTrans(a: State, b: State, c: State)
    requires AllBehind(a, b) && AllBehind(b, c)
    ensures AllBehind(a, c)
  {
  }

  lemma BehindSelf(s: State)
    ensures AllBehind(s, s)
  {
  }

  lemma {:induction false} ClaimBehind(world: World, s: State, first: nat, bound: nat, now: Time)
    requires Sound(world)
    ensures AllBehind(Claim(world, s, first, bound, now).0, s)
    decreases bound - first
  {
    hide AllBehind, ClaimOne;
    BehindSelf(s);
    if first < bound {
      var next := ClaimOne(world, s, first, now).0;
      ClaimOneBehind(world, s, first, now);
      ClaimBehind(world, next, first + 1, bound, now);
      BehindTrans(Claim(world, next, first + 1, bound, now).0, next, s);
    }
  }

  lemma {:induction false} ClaimGood(world: World, s: State, first: nat, bound: nat, now: Time)
    requires Sound(world) && Good(s, now)
    ensures var t := Claim(world, s, first, bound, now).0;
            Good(t, now) && t.nextId == s.nextId &&
            (forall r :: r in s.runs ==> r in t.runs && t.runs[r] == s.runs[r]) &&
            forall r :: r in t.runs && r !in s.runs ==> t.runs[r] == NEW_RUN
    decreases bound - first
  {
    hide Good, ClaimOne;
    if first < bound {
      ClaimOneGood(world, s, first, now, now);
      ClaimOneRuns(world, s, first, now);
      if ClaimOne(world, s, first, now).1.None? {
        ClaimGood(world, ClaimOne(world, s, first, now).0, first + 1, bound, now);
      }
    }
  }

  // ---------------------------------------------------------------- all commands

  lemma AddGood(world: World, s: State, schedule: Schedule, enabled: bool, now: Time)
    requires Good(s, now) && Create(world, s, schedule, enabled, now).Ok?
    ensures Good(Create(world, s, schedule, enabled, now).value, now)
  {
    var t := Create(world, s, schedule, enabled, now).value;
    assert forall r :: r in s.runs ==> r.automation != s.nextId;
  }

  lemma TriggerGood(s: State, id: Id, now: Time)
    requires Good(s, now) && RunNow(s, id).Ok?
    ensures Good(RunNow(s, id).value, now)
  {
    var later := s.(nextId := s.nextId + 1);
    assert Good(later, now);
    AddRunGood(later, Manual(id, s.nextId), now);
  }

  lemma RestartGood(s: State, now: Time)
    requires Good(s, now)
    ensures Good(Restart(s), now)
  {
    var t := Restart(s);
    forall r | r in t.runs ensures RunOk(t.runs[r]) {
      assert RunOk(s.runs[r]);
    }
    assert forall r :: r in t.runs <==> r in s.runs;
  }

  lemma OutcomeGood(world: World, s: State, c: Command, clock: Time, now: Time)
    requires Sound(world) && Good(s, clock) && clock <= now && !c.Tick? && !c.Reopen?
    requires Outcome(world, s, c, now).Ok?
    ensures Good(Outcome(world, s, c, now).value, now)
  {
    hide Good, Update, Create, Delete, RunNow, Begin, Submit, DeferBusy, Finish, Cancel, Acknowledge;
    LaterClock(s, clock, now);
    match c
    case Add(schedule, enabled) => AddGood(world, s, schedule, enabled, now);
    case Change(id, version, schedule, enabled) => ChangeGood(world, s, id, version, schedule, enabled, clock, now);
    case Remove(id) => RemoveGood(s, id, now);
    case Trigger(id) => TriggerGood(s, id, now);
    case Start(_) => RunCommandsGood(world, s, c, now, now);
    case Submitted(_) => RunCommandsGood(world, s, c, now, now);
    case Busy(_) => RunCommandsGood(world, s, c, now, now);
    case End(_, _) => RunCommandsGood(world, s, c, now, now);
    case Stop(_, _) => RunCommandsGood(world, s, c, now, now);
    case Settle(_) => RunCommandsGood(world, s, c, now, now);
  }

  lemma QuietSame(world: World, s: State, c: Command, now: Time)
    requires Quiet(s, c) && Outcome(world, s, c, now).Ok?
    ensures Outcome(world, s, c, now).value == s
  {
  }

  lemma StepOk(world: World, store: Store, c: Command, clock: Time, now: Time)
    requires Sound(world) && StoreOk(store, clock) && clock <= now
    ensures StoreOk(Apply(world, store, c, now), now)
  {
    hide Good, Outcome, Claim, Quiet, Restart, AllBehind;
    LaterClock(store.memory, clock, now);
    LaterClock(store.saved, clock, now);
    BehindSelf(Apply(world, store, c, now).saved);
    match c {
      case Tick =>
        ClaimGood(world, store.memory, 0, store.memory.nextId, now);
        ClaimBehind(world, store.memory, 0, store.memory.nextId, now);
        BehindTrans(Claim(world, store.memory, 0, store.memory.nextId, now).0, store.memory, store.saved);
      case Reopen => RestartGood(store.saved, now);
      case _ =>
        if Outcome(world, store.memory, c, now).Ok? {
          OutcomeGood(world, store.memory, c, clock, now);
          if Quiet(store.memory, c) {
            QuietSame(world, store.memory, c, now);
          }
        }
    }
  }

  // ---------------------------------------------------------------- any use

  datatype Use = Use(command: Command, at: Time)

  function ApplyAll(world: World, store: Store, uses: seq<Use>): Store
    decreases |uses|
  {
    if uses == [] then store else ApplyAll(world, Apply(world, store, uses[0].command, uses[0].at), uses[1..])
  }

  /** The clock does not go back. */
  ghost predicate InTime(uses: seq<Use>, clock: Time) {
    (forall i :: 0 <= i < |uses| ==> clock <= uses[i].at) &&
    forall i, j :: 0 <= i < j < |uses| ==> uses[i].at <= uses[j].at
  }

  function LastTime(uses: seq<Use>, clock: Time): Time {
    if uses == [] then clock else uses[|uses| - 1].at
  }

  lemma {:induction false} AlwaysOk(world: World, store: Store, uses: seq<Use>, clock: Time)
    requires Sound(world) && StoreOk(store, clock) && InTime(uses, clock)
    ensures StoreOk(ApplyAll(world, store, uses), LastTime(uses, clock))
    decreases |uses|
  {
    hide StoreOk, Apply;
    if uses != [] {
      StepOk(world, store, uses[0].command, clock, uses[0].at);
      AlwaysOk(world, Apply(world, store, uses[0].command, uses[0].at), uses[1..], uses[0].at);
    }
  }

  /**
   Over any use: a run begins at most four times, with at most three busy retries and one attempt that counts; and
   the scheduled runs of an automation are for strictly increasing times in the order they were claimed.
   */
  lemma RunsAreBounded(world: World, uses: seq<Use>)
    requires Sound(world) && InTime(uses, 0)
    ensures var s := ApplyAll(world, Store(Empty, Empty), uses).memory;
            (forall r :: r in s.runs ==>
               s.runs[r].begun <= 4 && s.runs[r].attempt <= 1 && s.runs[r].busyRetryCount <= 3) &&
            forall i, j :: 0 <= i < j < |s.order| && SameAutomation(s.order[i], s.order[j]) ==>
              s.order[i].at < s.order[j].at
  {
    AlwaysOk(world, Store(Empty, Empty), uses, 0);
    var s := ApplyAll(world, Store(Empty, Empty), uses).memory;
    assert forall r :: r in s.runs ==> RunOk(s.runs[r]);
  }

  lemma OutcomeAbsorbs(world: World, s: State, c: Command, now: Time, r: RunId)
    requires Good(s, now) && Outcome(world, s, c, now).Ok? && r in s.runs && Terminal(s.runs[r].status)
    requires !(c.Remove? && c.id == r.automation)
    ensures var t := Outcome(world, s, c, now).value; r in t.runs && t.runs[r] == s.runs[r]
  {
    hide NextTime, HasActive, Others, RunsOk, OrderOk;
    match c
    case Remove(id) => assert r.automation != id;
    case Trigger(id) => assert r != Manual(id, s.nextId);
    case Start(run) => assert r != run;
    case Submitted(run) => assert r != run || s.runs[r].status != Running;
    case Busy(run) => assert r != run || s.runs[r].status == Cancelled;
    case End(run, _) => assert r != run || s.runs[r].status == Cancelled;
    case Stop(_, run) => assert r != run;
    case _ =>
  }

  /** A run that is over stays as it is, through restarts too, until its automation is deleted. */
  lemma TerminalAbsorbs(world: World, store: Store, c: Command, clock: Time, now: Time, r: RunId)
    requires Sound(world) && StoreOk(store, clock) && clock <= now && r in store.memory.runs
    requires Terminal(store.memory.runs[r].status) && !(c.Remove? && c.id == r.automation)
    ensures var t := Apply(world, store, c, now).memory; r in t.runs && t.runs[r] == store.memory.runs[r]
  {
    hide Good, Outcome, Claim, Quiet;
    LaterClock(store.memory, clock, now);
    match c {
      case Tick => ClaimGood(world, store.memory, 0, store.memory.nextId, now);
      case Reopen =>
      case _ =>
        if Outcome(world, store.memory, c, now).Ok? {
          OutcomeAbsorbs(world, store.memory, c, now, r);
        }
    }
  }

  // ---------------------------------------------------------------- what a tick does

  /** An automation whose schedule is exhausted. */
  predicate Stuck(world: World, definition: Definition, now: Time) {
    Due(definition, now) && !definition.schedule.Once? && NextTime(world, definition.schedule, now).Err?
  }

  /** A tick fails exactly if some due automation has no next time; then it fails at the first such one. */
  lemma {:induction false} ClaimFailsIff(world: World, s: State, first: nat, bound: nat, now: Time)
    requires Sound(world) && Good(s, now)
    ensures Claim(world, s, first, bound, now).1.Some? <==>
            exists d :: first <= d < bound && d in s.definitions && Stuck(world, s.definitions[d], now)
    decreases bound - first
  {
    hide Good, NextTime, Due;
    if first < bound {
      var (t, error) := ClaimOne(world, s, first, now);
      ClaimOneGood(world, s, first, now, now);
      if error.None? {
        ClaimFailsIff(world, t, first + 1, bound, now);
        assert forall d :: first < d < bound && d in s.definitions ==> d in t.definitions && t.definitions[d] == s.definitions[d];
        assert forall d :: first < d < bound && d in t.definitions ==> d in s.definitions;
      }
    }
  }

  ghost predicate SameDefinition(s: State, t: State, d: Id) {
    (d in t.definitions <==> d in s.definitions) &&
    (d in s.definitions && d in t.definitions ==> t.definitions[d] == s.definitions[d])
  }

  /** After a tick that succeeds every due automation has its run, and none is due any more. */
  lemma {:induction false} ClaimServes(world: World, s: State, first: nat, bound: nat, now: Time)
    requires Sound(world) && Good(s, now) && Claim(world, s, first, bound, now).1.None?
    ensures var t := Claim(world, s, first, bound, now).0;
            (forall d :: first <= d < bound && d in s.definitions && Due(s.definitions[d], now) ==>
               Scheduled(d, s.definitions[d].nextRunAt.value) in t.runs && d in t.definitions &&
               t.definitions[d].lastRunAt == s.definitions[d].nextRunAt && !Due(t.definitions[d], now)) &&
            forall d: Id :: !(first <= d < bound) ==> SameDefinition(s, t, d)
    decreases bound - first
  {
    hide Good, NextTime;
    if first < bound {
      var next := ClaimOne(world, s, first, now).0;
      ClaimOneGood(world, s, first, now, now);
      if first in s.definitions && Due(s.definitions[first], now) && !s.definitions[first].schedule.Once? {
        AdmittedHere(s, first, now);
        NextIsLater(world, s.definitions[first].schedule, now);
      }
      ClaimServes(world, next, first + 1, bound, now);
      ClaimGood(world, next, first + 1, bound, now);
      var t := Claim(world, s, first, bound, now).0;
      assert SameDefinition(next, t, first);
      forall d: Id | !(first <= d < bound) ensures SameDefinition(s, t, d) {
        assert SameDefinition(next, t, d) && SameDefinition(s, next, d);
      }
      forall d | first <= d < bound && d in s.definitions && Due(s.definitions[d], now)
        ensures Scheduled(d, s.definitions[d].nextRunAt.value) in t.runs && d in t.definitions &&
                t.definitions[d].lastRunAt == s.definitions[d].nextRunAt && !Due(t.definitions[d], now)
      {
        if d > first {
          assert next.definitions[d] == s.definitions[d];
        }
      }
    }
  }

  lemma AdmittedHere(s: State, id: Id, now: Time)
    requires Good(s, now) && id in s.definitions
    ensures Admitted(s.definitions[id].schedule)
  {
  }
}
