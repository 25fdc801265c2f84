/** When an automation is due next. Times are milliseconds of the epoch. */
module ScheduleModel {
  import opened Common
  import opened Texts

  type Time = nat

  const MINUTE := 60000
  const MINUTES_A_DAY := 1440
  /** The scan gives up after eight days. */
  const SCAN := 8 * MINUTES_A_DAY

  datatype Schedule =
    | Once(at: Time)
    | Interval(everyMinutes: nat)
    | Cron(expression: string)
    | Weekly(days: set<nat>, hour: nat, minute: nat)

  datatype Local = Local(day: nat, hour: nat, minute: nat)

  /** The clock on the wall, and the library that evaluates cron expressions. */
  datatype World = World(local: Time -> Local, cron: (string, Time) -> Option<Time>)

  datatype ScheduleError = Malformed | OnceInPast | ManualOnly | NoNextRun

  predicate Matches(world: World, days: set<nat>, hour: nat, minute: nat, t: Time) {
    var local := world.local(t);
    local.day in days && local.hour == hour && local.minute == minute
  }

  /** The first whole minute after a time. */
  function NextMinute(after: Time): Time {
    after - after % MINUTE + MINUTE
  }

  /** The first match of a scan of the minutes from a candidate on. */
  function Scan(world: World, days: set<nat>, hour: nat, minute: nat, candidate: Time, offset: nat): Option<Time>
    decreases SCAN + 1 - offset
  {
    if offset > SCAN then None
    else if Matches(world, days, hour, minute, candidate + offset * MINUTE) then Some(candidate + offset * MINUTE)
    else Scan(world, days, hour, minute, candidate, offset + 1)
  }

  /** What the contracts package admits. */
  predicate Admitted(schedule: Schedule) {
    match schedule
    case Once(_) => true
    case Interval(every) => 1 <= every <= 525600
    case Cron(expression) => |expression| <= 200
    case Weekly(days, hour, minute) => days != {} && (forall d :: d in days ==> d < 7) && hour < 24 && minute < 60
  }

  /** `nextScheduleTime`. */
  function NextTime(world: World, schedule: Schedule, after: Time): Result<Time, ScheduleError> {
    if !Admitted(schedule) then Err(Malformed) else NextOf(world, schedule, after)
  }

  function NextOf(world: World, schedule: Schedule, after: Time): Result<Time, ScheduleError> {
    match schedule
    case Once(at) => if at <= after then Err(OnceInPast) else Ok(at)
    case Interval(every) => Ok(after + every * MINUTE)
    case Cron(expression) =>
      if Trim(expression) == "" then Err(ManualOnly)
      else
        (match world.cron(expression, after)
         case None => Err(NoNextRun)
         case Some(t) => Ok(t))
    case Weekly(days, hour, minute) =>
      (match Scan(world, days, hour, minute, NextMinute(after), 0)
       case None => Err(NoNextRun)
       case Some(t) => Ok(t))
  }

  /** What the cron library promises. */
  ghost predicate Sound(world: World) {
    forall expression: string, after: Time, t: Time :: world.cron(expression, after) == Some(t) ==> t > after
  }

  // ---------------------------------------------------------------- the weekly scan

  ghost predicate NoMatch(world: World, days: set<nat>, hour: nat, minute: nat, candidate: Time, from: nat, to: nat) {
    forall j: nat :: from <= j < to ==> !Matches(world, days, hour, minute, candidate + j * MINUTE)
  }

  /** The scan finds the first match, and nothing only if there is none. */
  lemma {:induction false} ScanFacts(world: World, days: set<nat>, hour: nat, minute: nat, candidate: Time, offset: nat)
    returns (k: nat)
    requires offset <= SCAN + 1
    ensures offset <= k <= SCAN + 1 && NoMatch(world, days, hour, minute, candidate, offset, k)
    ensures Scan(world, days, hour, minute, candidate, offset).None? ==> k == SCAN + 1
    ensures Scan(world, days, hour, minute, candidate, offset).Some? ==>
              k <= SCAN && Scan(world, days, hour, minute, candidate, offset).value == candidate + k * MINUTE &&
              Matches(world, days, hour, minute, candidate + k * MINUTE)
    decreases SCAN + 1 - offset
  {
    k := offset;
    if offset <= SCAN && !Matches(world, days, hour, minute, candidate + offset * MINUTE) {
      k := ScanFacts(world, days, hour, minute, candidate, offset + 1);
    }
  }

  lemma NextMinuteFacts(after: Time)
    ensures NextMinute(after) > after && NextMinute(after) % MINUTE == 0 && NextMinute(after) <= after + MINUTE
  {
    var q := after / MINUTE;
    assert after == q * MINUTE + after % MINUTE;
    assert NextMinute(after) == (q + 1) * MINUTE;
  }

  /** A whole minute after a time is the next one or some minutes later. */
  lemma MinuteAfter(after: Time, t: Time) returns (k: nat)
    requires t > after && t % MINUTE == 0
    ensures t == NextMinute(after) + k * MINUTE
  {
    NextMinuteFacts(after);
    var a, b := NextMinute(after) / MINUTE, t / MINUTE;
    assert t == b * MINUTE && NextMinute(after) == a * MINUTE;
    assert b >= a;
    k := b - a;
  }

  /** What the weekly schedule finds is the least matching whole minute after the given time. */
  lemma WeeklyIsLeast(world: World, days: set<nat>, hour: nat, minute: nat, after: Time, t: Time)
    requires NextTime(world, Weekly(days, hour, minute), after) == Ok(t)
    ensures t > after && t % MINUTE == 0 && Matches(world, days, hour, minute, t)
    ensures forall u: Time :: after < u < t && u % MINUTE == 0 ==> !Matches(world, days, hour, minute, u)
  {
    hide Scan, Matches, NextMinute;
    NextMinuteFacts(after);
    var k := ScanFacts(world, days, hour, minute, NextMinute(after), 0);
    MinuteMore(NextMinute(after), k);
    forall u: Time | after < u < t && u % MINUTE == 0 ensures !Matches(world, days, hour, minute, u) {
      var j := MinuteAfter(after, u);
    }
  }

  lemma MinuteMore(t: Time, k: nat)
    requires t % MINUTE == 0
    ensures (t + k * MINUTE) % MINUTE == 0 && (t + k * MINUTE) / MINUTE == t / MINUTE + k
  {
    var q := t / MINUTE;
    assert t + k * MINUTE == (q + k) * MINUTE;
  }

  /**
   A place whose clock is a fixed number of minutes ahead of the epoch's; the epoch began on a Thursday. A place that
   is behind is ahead by a week less.
   */
  function FixedOffset(ahead: nat): Time -> Local {
    (t: Time) => LocalAt(t / MINUTE + ahead)
  }

  function LocalAt(minutes: nat): Local {
    Local((minutes / MINUTES_A_DAY + 4) % 7, minutes % MINUTES_A_DAY / 60, minutes % 60)
  }

  /** Every minute of the week comes round within seven days. */
  lemma ComesRound(start: nat, day: nat, hour: nat, minute: nat) returns (k: nat)
    requires day < 7 && hour < 24 && minute < 60
    ensures k < 7 * MINUTES_A_DAY && LocalAt(start + k) == Local(day, hour, minute)
  {
    var week := 7 * MINUTES_A_DAY;
    var d := if day < 4 then day + 3 else day - 4;
    var goal := d * MINUTES_A_DAY + hour * 60 + minute;
    var weeks, here := start / week, start % week;
    k := if goal >= here then goal - here else goal + week - here;
    var then_weeks := if goal >= here then weeks else weeks + 1;
    assert start + k == then_weeks * week + goal;
    hide LocalAt;
    LocalOfWeek(then_weeks, d, hour, minute);
  }

  lemma LocalOfWeek(weeks: nat, d: nat, hour: nat, minute: nat)
    requires d < 7 && hour < 24 && minute < 60
    ensures LocalAt(weeks * (7 * MINUTES_A_DAY) + (d * MINUTES_A_DAY + hour * 60 + minute)) ==
            Local(if d < 3 then d + 4 else d - 3, hour, minute)
  {
    var m := weeks * (7 * MINUTES_A_DAY) + (d * MINUTES_A_DAY + hour * 60 + minute);
    var days := weeks * 7 + d;
    assert m == days * MINUTES_A_DAY + (hour * 60 + minute);
    DayOf(days, hour * 60 + minute);
    HourOf(hour, minute);
    HourOf(days * 24 + hour, minute);
    assert m == (days * 24 + hour) * 60 + minute;
    WeekdayOf(weeks, d + 4);
  }

  lemma DayOf(q: nat, r: nat)
    requires r < MINUTES_A_DAY
    ensures (q * MINUTES_A_DAY + r) / MINUTES_A_DAY == q && (q * MINUTES_A_DAY + r) % MINUTES_A_DAY == r
  {
  }

  lemma HourOf(q: nat, r: nat)
    requires r < 60
    ensures (q * 60 + r) / 60 == q && (q * 60 + r) % 60 == r
  {
  }

  lemma WeekdayOf(weeks: nat, d: nat)
    requires d < 14
    ensures (weeks * 7 + d) % 7 == if d < 7 then d else d - 7
  {
  }

  /** With a fixed offset and some day to choose, the weekly scan always finds a time. */
  lemma WeeklyAlwaysFinds(world: World, ahead: nat, days: set<nat>, hour: nat, minute: nat, after: Time)
    requires world.local == FixedOffset(ahead) && Admitted(Weekly(days, hour, minute))
    ensures NextTime(world, Weekly(days, hour, minute), after).Ok?
  {
    var day :| day in days;
    var first := NextMinute(after);
    NextMinuteFacts(after);
    var q := first / MINUTE;
    var k := ComesRound(q + ahead, day, hour, minute);
    MinuteMore(first, k);
    assert Matches(world, days, hour, minute, first + k * MINUTE);
    hide Scan, Matches, LocalAt, NextMinute;
    var found := ScanFacts(world, days, hour, minute, first, 0);
    assert found <= k;
  }

  /** Every next time is later than the time it was asked for: an interval later, or the one moment asked for. */
  lemma NextIsLater(world: World, schedule: Schedule, after: Time)
    requires Sound(world) && NextTime(world, schedule, after).Ok?
    ensures NextTime(world, schedule, after).value > after
    ensures schedule.Interval? ==> NextTime(world, schedule, after).value - after == schedule.everyMinutes * 60 * 1000
    ensures schedule.Once? ==> NextTime(world, schedule, after).value == schedule.at
  {
    if schedule.Weekly? {
      WeeklyIsLeast(world, schedule.days, schedule.hour, schedule.minute, after,
                    NextTime(world, schedule, after).value);
    }
  }

  /** The scan as the source runs it. */
  method FindNext(world: World, days: set<nat>, hour: nat, minute: nat, after: Time) returns (r: Result<Time, ScheduleError>)
    requires Admitted(Weekly(days, hour, minute))
    ensures r == NextTime(world, Weekly(days, hour, minute), after)
    ensures r.Ok? ==> r.value > after && Matches(world, days, hour, minute, r.value) &&
                      forall u: Time :: after < u < r.value && u % MINUTE == 0 ==> !Matches(world, days, hour, minute, u)
  {
    var candidate := NextMinute(after);
    for offset := 0 to SCAN + 1
      invariant Scan(world, days, hour, minute, candidate, 0) == Scan(world, days, hour, minute, candidate, offset)
    {
      var value := candidate + offset * MINUTE;
      if Matches(world, days, hour, minute, value) {
        WeeklyIsLeast(world, days, hour, minute, after, value);
        return Ok(value);
      }
    }
    return Err(NoNextRun);
  }
}
