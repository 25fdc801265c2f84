/** Automations that stall the ones after them: while one is due and has no next time, and on the night a clock goes forward. */
module AutomationStalls {
  import opened Common
  import opened ScheduleModel
  import opened AutomationModel
  import opened Automations

  /** The automation is due, by a schedule that repeats. */
  ghost predicate IsDue(s: State, d: Id, schedule: Schedule, clock: Time) {
    d in s.definitions && s.definitions[d].schedule == schedule && !schedule.Once? && Due(s.definitions[d], clock)
  }

  /** No run for a time was claimed of the automations after it. */
  ghost predicate NoneAfter(s: State, t: State, d: Id) {
    forall r :: r in t.runs && r.Scheduled? && r.automation > d ==> r in s.runs
  }

  predicate Leaves(c: Command, d: Id) {
    !(c.Change? && c.id == d) && !(c.Remove? && c.id == d)
  }

  // ---------------------------------------------------------------- one tick

  /** A tick ends at the automation or before it. */
  lemma {:induction false} ClaimStops(world: World, s: State, first: nat, bound: nat, now: Time, d: Id)
    requires first <= d < bound && d in s.definitions && Stuck(world, s.definitions[d], now)
    ensures var (t, error) := Claim(world, s, first, bound, now);
            error.Some? && d in t.definitions && t.definitions[d] == s.definitions[d] && NoneAfter(s, t, d)
    decreases bound - first
  {
    hide NextTime;
    var (next, error) := ClaimOne(world, s, first, now);
    assert d in next.definitions && next.definitions[d] == s.definitions[d] && NoneAfter(s, next, d);
    if error.None? {
      hide Due;
      assert first != d;
      ClaimStops(world, next, first + 1, bound, now, d);
    }
  }

  lemma OutcomeStalls(world: World, s: State, c: Command, clock: Time, now: Time, d: Id, schedule: Schedule)
    requires Good(s, clock) && IsDue(s, d, schedule, clock) && Leaves(c, d) && Outcome(world, s, c, now).Ok?
    ensures var t := Outcome(world, s, c, now).value; IsDue(t, d, schedule, clock) && NoneAfter(s, t, d)
  {
    hide NextTime, HasActive, Others, RunsOk, OrderOk;
    var t := Outcome(world, s, c, now).value;
    assert d in t.definitions && t.definitions[d] == s.definitions[d];
  }

  lemma StepStalls(world: World, store: Store, c: Command, clock: Time, now: Time, d: Id, schedule: Schedule)
    requires Sound(world) && StoreOk(store, clock) && clock <= now && IsDue(store.memory, d, schedule, clock) && Leaves(c, d)
    requires c.Tick? ==> NextTime(world, schedule, now).Err?
    ensures var t := Apply(world, store, c, now);
            IsDue(t.memory, d, schedule, clock) && NoneAfter(store.memory, t.memory, d) &&
            (c.Tick? ==> t.saved == store.saved)
  {
    hide Good, Outcome, NextTime, Quiet;
    match c {
      case Tick =>
        BelowNext(store.memory, clock, d);
        hide Claim;
        ClaimStops(world, store.memory, 0, store.memory.nextId, now, d);
      case Reopen =>
        assert Behind(store.memory.definitions[d], store.saved.definitions[d]);
      case _ =>
        if Outcome(world, store.memory, c, now).Ok? {
          OutcomeStalls(world, store.memory, c, clock, now, d, schedule);
        }
    }
  }

  lemma BelowNext(s: State, clock: Time, d: Id)
    requires Good(s, clock) && d in s.definitions
    ensures d < s.nextId
  {
  }

  // ---------------------------------------------------------------- as long as it has no next time

  /** Nobody edits or deletes the automation, and whenever a tick comes its schedule has no next time. */
  ghost predicate Stalled(world: World, uses: seq<Use>, d: Id, schedule: Schedule) {
    forall i :: 0 <= i < |uses| ==>
      Leaves(uses[i].command, d) && (uses[i].command.Tick? ==> NextTime(world, schedule, uses[i].at).Err?)
  }

  /**
   Meanwhile, through whatever else is done and through restarts, the automation stays due, and no run for a time is
   added of any automation after it, in memory or on disk.
   */
  lemma {:induction false} NothingClaimed(world: World, store: Store, uses: seq<Use>, clock: Time, d: Id, schedule: Schedule)
    requires Sound(world) && StoreOk(store, clock) && InTime(uses, clock) && Stalled(world, uses, d, schedule)
    requires IsDue(store.memory, d, schedule, clock)
    ensures var t := ApplyAll(world, store, uses);
            IsDue(t.memory, d, schedule, LastTime(uses, clock)) && NoneAfter(store.memory, t.memory, d) &&
            NoneAfter(store.memory, t.saved, d)
    decreases |uses|
  {
    hide Good, Apply, Claim, NextTime;
    if uses != [] {
      var now := uses[0].at;
      var next := Apply(world, store, uses[0].command, now);
      StepStalls(world, store, uses[0].command, clock, now, d, schedule);
      StepOk(world, store, uses[0].command, clock, now);
      assert forall i :: 0 <= i < |uses[1..]| ==> uses[1..][i] == uses[i + 1];
      NothingClaimed(world, next, uses[1..], now, d, schedule);
    }
  }

  /** And every tick meanwhile fails and saves nothing. */
  lemma EveryTickFails(world: World, store: Store, uses: seq<Use>, clock: Time, d: Id, schedule: Schedule, i: nat)
    requires Sound(world) && StoreOk(store, clock) && InTime(uses, clock) && Stalled(world, uses, d, schedule)
    requires IsDue(store.memory, d, schedule, clock) && i < |uses| && uses[i].command.Tick?
    ensures var t := ApplyAll(world, store, uses[..i]);
            Claim(world, t.memory, 0, t.memory.nextId, uses[i].at).1.Some? &&
            Apply(world, t, Tick, uses[i].at).saved == t.saved
  {
    hide Good, Apply, Claim, NextTime;
    var before := uses[..i];
    NothingClaimed(world, store, before, clock, d, schedule);
    AlwaysOk(world, store, before, clock);
    var t := ApplyAll(world, store, before);
    var now := uses[i].at;
    assert LastTime(before, clock) <= now;
    StepStalls(world, t, Tick, LastTime(before, clock), now, d, schedule);
    BelowNext(t.memory, LastTime(before, clock), d);
    ClaimStops(world, t.memory, 0, t.memory.nextId, now, d);
  }

  // ---------------------------------------------------------------- the night a clock goes forward

  const WEEK := 7 * MINUTES_A_DAY

  /** Sundays at half past two in the morning. */
  const NIGHTLY := Weekly({0}, 2, 30)

  /** The first of them, in minutes of the epoch, and the minute, a week less half an hour later, when the clock goes forward. */
  const FIRST_NIGHT := 4470
  const SPRING := FIRST_NIGHT + WEEK - 30

  /** A clock that jumps an hour ahead: on that night it shows no half past two. */
  function SkippingClock(t: Time): Local {
    var minute := t / MINUTE;
    LocalAt(if minute < SPRING then minute else minute + 60)
  }

  /** What the clock shows on such a night says which minute of the week it is. */
  lemma NightIs(m: nat)
    ensures LocalAt(m) == Local(0, 2, 30) <==> m % WEEK == FIRST_NIGHT
  {
    var q, r := m / MINUTES_A_DAY, m % MINUTES_A_DAY;
    HourOf(q * 24 + r / 60, r % 60);
    assert m == (q * 24 + r / 60) * 60 + r % 60;
    var w, d := q / 7, q % 7;
    assert m == w * WEEK + (d * MINUTES_A_DAY + r);
    WeekOf(w, d * MINUTES_A_DAY + r);
    WeekdayOf(w, d + 4);
    assert q + 4 == w * 7 + (d + 4);
  }

  lemma WeekOf(w: nat, r: nat)
    requires r < WEEK
    ensures (w * WEEK + r) % WEEK == r
  {
  }

  lemma MinuteOf(t: Time, m: nat)
    requires t == m * MINUTE
    ensures t / MINUTE == m
  {
  }

  /** When that clock shows the time of the schedule. */
  lemma NightMatches(world: World, m: nat)
    requires world.local == SkippingClock
    ensures Matches(world, {0}, 2, 30, m * MINUTE) <==> Shown(m) == FIRST_NIGHT
  {
    MinuteOf(m * MINUTE, m);
    var shown := if m < SPRING then m else m + 60;
    NightIs(shown);
    hide LocalAt;
    assert world.local(m * MINUTE) == LocalAt(shown);
  }

  /** The minute of a week that the clock shows. */
  function Shown(m: nat): nat {
    (if m < SPRING then m else m + 60) % WEEK
  }

  lemma NoEarlierNight(m: nat)
    requires m < FIRST_NIGHT
    ensures Shown(m) != FIRST_NIGHT
  {
  }

  lemma NoNight(m: nat)
    requires FIRST_NIGHT < m < FIRST_NIGHT + 2 * WEEK - 60
    ensures Shown(m) != FIRST_NIGHT
  {
  }

  lemma Minutes(a: nat, b: nat)
    ensures a * MINUTE + b * MINUTE == (a + b) * MINUTE
  {
  }

  lemma NextMinuteIs(now: Time)
    ensures NextMinute(now) == (now / MINUTE + 1) * MINUTE
  {
  }

  lemma FirstNight(world: World)
    requires world.local == SkippingClock
    ensures NextTime(world, NIGHTLY, 0) == Ok(FIRST_NIGHT * MINUTE)
  {
    NextMinuteIs(0);
    hide Scan, Matches, SkippingClock, NextMinute, Shown;
    var k := ScanFacts(world, {0}, 2, 30, 1 * MINUTE, 0);
    NightMatches(world, FIRST_NIGHT);
    assert Shown(FIRST_NIGHT) == FIRST_NIGHT by {
      NightShown();
    }
    Minutes(1, FIRST_NIGHT - 1);
    assert k <= FIRST_NIGHT - 1;
    Minutes(1, k);
    NightMatches(world, 1 + k);
    if k < FIRST_NIGHT - 1 {
      NoEarlierNight(1 + k);
    }
  }

  lemma NightShown()
    ensures Shown(FIRST_NIGHT) == FIRST_NIGHT
  {
  }

  /** From the first night on there is no next one within eight days, for six days. */
  lemma SkippedNight(world: World, now: Time)
    requires world.local == SkippingClock && FIRST_NIGHT * MINUTE <= now < 13049 * MINUTE
    ensures NextTime(world, NIGHTLY, now) == Err(NoNextRun)
  {
    NextMinuteIs(now);
    hide Scan, Matches, SkippingClock, NextMinute, Shown;
    var c := now / MINUTE + 1;
    MinutesBetween(now);
    var k := ScanFacts(world, {0}, 2, 30, c * MINUTE, 0);
    if k <= SCAN {
      Minutes(c, k);
      NightMatches(world, c + k);
      NoNight(c + k);
    }
  }

  lemma MinutesBetween(now: Time)
    requires FIRST_NIGHT * MINUTE <= now < 13049 * MINUTE
    ensures FIRST_NIGHT <= now / MINUTE < 13049
  {
  }

  const SETTING := [Use(Add(NIGHTLY, true), 0), Use(Add(Interval(60), true), 0)]

  const NIGHT_DEFINITION := Definition(1, NIGHTLY, true, Some(FIRST_NIGHT * MINUTE), None)
  const HOUR_DEFINITION := Definition(1, Interval(60), true, Some(60 * MINUTE), None)
  const BOTH := Empty.(definitions := map[0 := NIGHT_DEFINITION, 1 := HOUR_DEFINITION], nextId := 2)

  lemma BothAdded(world: World)
    requires world.local == SkippingClock
    ensures ApplyAll(world, Store(Empty, Empty), SETTING) == Store(BOTH, BOTH)
  {
    FirstNight(world);
    assert SETTING[1..] == [SETTING[1]] && SETTING[1..][1..] == [];
    HourLater(world);
    hide NextTime;
    var one := Empty.(definitions := map[0 := NIGHT_DEFINITION], nextId := 1);
    AddApplies(world, Store(Empty, Empty), NIGHTLY, Some(FIRST_NIGHT * MINUTE));
    AddApplies(world, Store(one, one), Interval(60), Some(60 * MINUTE));
    assert BOTH == one.(definitions := one.definitions[1 := HOUR_DEFINITION], nextId := 2);
    hide Apply;
    assert ApplyAll(world, Store(one, one), SETTING[1..]) == Store(BOTH, BOTH);
  }

  lemma HourLater(world: World)
    ensures NextTime(world, Interval(60), 0) == Ok(60 * MINUTE)
  {
  }

  lemma AddApplies(world: World, store: Store, schedule: Schedule, next: Option<Time>)
    requires Admitted(schedule) && NextRunAt(world, schedule, 0) == Ok(next)
    ensures var s := store.memory;
            var t := s.(definitions := s.definitions[s.nextId := Definition(1, schedule, true, next, None)], nextId := s.nextId + 1);
            Apply(world, store, Add(schedule, true), 0) == Store(t, t)
  {
    hide NextRunAt;
  }

  /**
   An automation every Sunday night and one every hour. From the Sunday before the clock goes forward every tick fails,
   for six days, and the hourly one, though due, gets no run.
   */
  lemma NightStalls(cron: (string, Time) -> Option<Time>, now: Time)
    requires Sound(World(SkippingClock, cron)) && FIRST_NIGHT * MINUTE <= now < 13049 * MINUTE
    ensures var world := World(SkippingClock, cron);
            var store := ApplyAll(world, Store(Empty, Empty), SETTING);
            StoreOk(store, 0) && IsDue(store.memory, 0, NIGHTLY, now) && 1 in store.memory.definitions &&
            Due(store.memory.definitions[1], now) && Claim(world, store.memory, 0, store.memory.nextId, now).1.Some? &&
            forall at :: Scheduled(1, at) !in Claim(world, store.memory, 0, store.memory.nextId, now).0.runs
  {
    var world := World(SkippingClock, cron);
    SkippedNight(world, now);
    AlwaysOk(world, Store(Empty, Empty), SETTING, 0);
    BothAdded(world);
    hide NextTime, StoreOk, Apply, ApplyAll, Claim;
    ClaimStops(world, BOTH, 0, 2, now, 0);
  }
}
