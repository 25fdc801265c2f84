/** Automations and their runs: how they are claimed, begun, retried, finished and cancelled. */
module AutomationModel {
  import opened Common
  import opened ScheduleModel

  type Id = nat

  datatype Definition = Definition(version: nat, schedule: Schedule, enabled: bool, nextRunAt: Option<Time>,
                                   lastRunAt: Option<Time>)

  /** Scheduled runs are named after their automation and time, so a time is claimed once. */
  datatype RunId = Scheduled(automation: Id, at: Time) | Manual(automation: Id, number: nat)

  datatype Status = Pending | Waiting | Running | Succeeded | Failed | Cancelled | SkippedBusy

  /** `begun` is how often the run has begun; nothing depends on it. */
  datatype Run = Run(status: Status, attempt: nat, busyRetryCount: nat, notBefore: Option<Time>, submitted: bool,
                     restarted: bool, begun: nat)

  datatype Error =
    AutomationNotFound | VersionConflict | HasActiveRun | RunNotFound | RunNotPending | RunNotRetryable | RunNotRunning |
    RunNotCancellable | RunNotInterrupted | BadSchedule(reason: ScheduleError)

  /** The document, with the runs in the order they were added. */
  datatype State = State(definitions: map<Id, Definition>, runs: map<RunId, Run>, order: seq<RunId>,
                         reconciled: set<RunId>, nextId: nat)

  const Empty := State(map[], map[], [], {}, 0)

  const RETRIES := 3
  const RETRY_DELAY := 30000

  const NEW_RUN := Run(Pending, 0, 0, None, false, false, 0)

  predicate Terminal(status: Status) {
    status == Succeeded || status == Failed || status == Cancelled || status == SkippedBusy
  }

  function AddRun(s: State, id: RunId): State {
    s.(runs := s.runs[id := NEW_RUN], order := s.order + [id])
  }

  function SetRun(s: State, id: RunId, run: Run): State {
    s.(runs := s.runs[id := run])
  }

  // ---------------------------------------------------------------- definitions

  function NextRunAt(world: World, schedule: Schedule, now: Time): Result<Option<Time>, Error> {
    match NextTime(world, schedule, now)
    case Ok(t) => Ok(Some(t))
    case Err(e) => Err(BadSchedule(e))
  }

  /** The schema of what a caller sends. */
  function Checked(schedule: Schedule): Result<Schedule, Error> {
    if Admitted(schedule) then Ok(schedule) else Err(BadSchedule(Malformed))
  }

  function Create(world: World, s: State, schedule: Schedule, enabled: bool, now: Time): Result<State, Error> {
    var _ :- Checked(schedule);
    var next :- (if enabled then NextRunAt(world, schedule, now) else Ok(None));
    Ok(s.(definitions := s.definitions[s.nextId := Definition(1, schedule, enabled, next, None)], nextId := s.nextId + 1))
  }

  /** Disabling an automation cancels its scheduled runs that have not begun. */
  function Disabled(id: RunId, run: Run, automation: Id): Run {
    if id.Scheduled? && id.automation == automation && (run.status == Pending || run.status == Waiting)
    then run.(status := Cancelled) else run
  }

  function Update(world: World, s: State, id: Id, version: nat, schedule: Option<Schedule>, enabled: Option<bool>, now: Time)
    : Result<State, Error>
  {
    if id !in s.definitions then Err(AutomationNotFound)
    else
      var current := s.definitions[id];
      if current.version != version then Err(VersionConflict)
      else if schedule.Some? && Checked(schedule.value).Err? then Err(BadSchedule(Malformed))
      else
        var on := if enabled.Some? then enabled.value else current.enabled;
        var plan := if schedule.Some? then schedule.value else current.schedule;
        var next :- (if !on then Ok(None)
                     else if !current.enabled || schedule.Some? then NextRunAt(world, plan, now)
                     else Ok(current.nextRunAt));
        var definition := current.(version := current.version + 1, schedule := plan, enabled := on, nextRunAt := next);
        Ok(s.(definitions := s.definitions[id := definition],
              runs := if enabled == Some(false) then map r | r in s.runs :: Disabled(r, s.runs[r], id) else s.runs))
  }

  predicate HasActive(s: State, id: Id) {
    exists r :: r in s.runs && r.automation == id && !Terminal(s.runs[r].status)
  }

  function Others(order: seq<RunId>, id: Id): seq<RunId> {
    if order == [] then []
    else
      var before := Others(order[..|order| - 1], id);
      if order[|order| - 1].automation == id then before else before + [order[|order| - 1]]
  }

  function Delete(s: State, id: Id): Result<State, Error> {
    if id !in s.definitions then Err(AutomationNotFound)
    else if HasActive(s, id) then Err(HasActiveRun)
    else
      Ok(s.(definitions := s.definitions - {id}, runs := map r | r in s.runs && r.automation != id :: s.runs[r],
            order := Others(s.order, id)))
  }

  function RunNow(s: State, id: Id): Result<State, Error> {
    if id !in s.definitions then Err(AutomationNotFound)
    else Ok(AddRun(s, Manual(id, s.nextId)).(nextId := s.nextId + 1))
  }

  // ---------------------------------------------------------------- claiming

  predicate Due(definition: Definition, now: Time) {
    definition.enabled && definition.nextRunAt.Some? && definition.nextRunAt.value <= now
  }

  /** One definition's turn: its run is added, unless it was before, and then it moves to its next time. */
  function ClaimOne(world: World, s: State, id: Id, now: Time): (State, Option<Error>) {
    if id !in s.definitions || !Due(s.definitions[id], now) then (s, None)
    else
      var definition := s.definitions[id];
      var at := definition.nextRunAt.value;
      var added := if Scheduled(id, at) in s.runs then s else AddRun(s, Scheduled(id, at));
      if definition.schedule.Once? then
        (added.(definitions := s.definitions[id := definition.(version := definition.version + 1, lastRunAt := Some(at),
                                                               enabled := false, nextRunAt := None)]), None)
      else
        match NextRunAt(world, definition.schedule, now)
        case Err(e) => (added, Some(e))
        case Ok(next) =>
          (added.(definitions := s.definitions[id := definition.(version := definition.version + 1,
                                                                 lastRunAt := Some(at), nextRunAt := next)]), None)
  }

  /** `claimRunnable`: an error keeps what was done before it, though nothing is saved. */
  function Claim(world: World, s: State, first: nat, bound: nat, now: Time): (State, Option<Error>)
    decreases bound - first
  {
    if first >= bound then (s, None)
    else
      var (next, error) := ClaimOne(world, s, first, now);
      if error.Some? then (next, error) else Claim(world, next, first + 1, bound, now)
  }

  predicate Runnable(run: Run, now: Time) {
    run.status == Pending || (run.status == Waiting && run.notBefore.Some? && run.notBefore.value <= now)
  }

  // ---------------------------------------------------------------- runs

  function Begin(s: State, id: RunId): Result<State, Error> {
    if id !in s.runs then Err(RunNotFound)
    else
      var run := s.runs[id];
      if run.status != Pending && run.status != Waiting then Err(RunNotPending)
      else Ok(SetRun(s, id, run.(status := Running, attempt := run.attempt + 1, notBefore := None, begun := run.begun + 1)))
  }

  function Submit(s: State, id: RunId): Result<State, Error> {
    if id !in s.runs then Err(RunNotFound)
    else if s.runs[id].status != Running then Ok(s)
    else Ok(SetRun(s, id, s.runs[id].(submitted := true)))
  }

  function OneLess(n: nat): nat {
    if n == 0 then 0 else n - 1
  }

  function DeferBusy(s: State, id: RunId, now: Time): Result<State, Error> {
    if id !in s.runs then Err(RunNotFound)
    else
      var run := s.runs[id];
      if run.status == Cancelled then Ok(s)
      else if run.status != Running || run.submitted then Err(RunNotRetryable)
      else
        var exhausted := run.busyRetryCount >= RETRIES;
        Ok(SetRun(s, id, run.(status := if exhausted then SkippedBusy else Waiting,
                              attempt := OneLess(run.attempt),
                              busyRetryCount := run.busyRetryCount + (if exhausted then 0 else 1),
                              notBefore := if exhausted then None else Some(now + RETRY_DELAY))))
  }

  function Finish(s: State, id: RunId, success: bool): Result<State, Error> {
    if id !in s.runs then Err(RunNotFound)
    else if s.runs[id].status == Cancelled then Ok(s)
    else if s.runs[id].status != Running then Err(RunNotRunning)
    else Ok(SetRun(s, id, s.runs[id].(status := if success then Succeeded else Failed)))
  }

  function Cancel(s: State, automation: Id, id: RunId): Result<State, Error> {
    if id !in s.runs || id.automation != automation then Err(RunNotFound)
    else if Terminal(s.runs[id].status) then Err(RunNotCancellable)
    else Ok(SetRun(s, id, s.runs[id].(status := Cancelled)))
  }

  function Recovered(run: Run): Run {
    if run.status == Running then run.(status := Failed, restarted := true) else run
  }

  /** The constructor on a saved document. */
  function Restart(s: State): State {
    s.(runs := map r | r in s.runs :: Recovered(s.runs[r]))
  }

  predicate Interrupted(s: State, id: RunId) {
    id in s.runs && s.runs[id].status == Failed && s.runs[id].restarted && id !in s.reconciled
  }

  function Acknowledge(s: State, id: RunId): Result<State, Error> {
    if id !in s.runs then Err(RunNotFound)
    else if s.runs[id].status != Failed || !s.runs[id].restarted then Err(RunNotInterrupted)
    else Ok(s.(reconciled := s.reconciled + {id}))
  }

  // ---------------------------------------------------------------- commands

  datatype Command =
    | Add(schedule: Schedule, enabled: bool)
    | Change(id: Id, version: nat, newSchedule: Option<Schedule>, newEnabled: Option<bool>)
    | Remove(id: Id)
    | Trigger(id: Id)
    | Tick
    | Start(run: RunId)
    | Submitted(run: RunId)
    | Busy(run: RunId)
    | End(run: RunId, success: bool)
    | Stop(id: Id, run: RunId)
    | Settle(run: RunId)
    | Reopen

  /**
   One command at a time on the clock. A tick that fails leaves what it added in memory, and one that changes nothing
   saves nothing; `saved` is the document on disk, which a restart reads.
   */
  datatype Store = Store(memory: State, saved: State)

  function Apply(world: World, store: Store, c: Command, now: Time): Store {
    var s := store.memory;
    match c
    case Tick =>
      var (t, error) := Claim(world, s, 0, s.nextId, now);
      if error.Some? || t == s then store.(memory := t) else Store(t, t)
    case Reopen => var t := Restart(store.saved); Store(t, t)
    case _ =>
      var r := Outcome(world, s, c, now);
      if r.Err? then store else if Quiet(s, c) then store.(memory := r.value) else Store(r.value, r.value)
  }

  /** The calls that find nothing to do and return without saving. */
  predicate Quiet(s: State, c: Command) {
    match c
    case Submitted(run) => run in s.runs && s.runs[run].status != Running
    case Busy(run) => run in s.runs && s.runs[run].status == Cancelled
    case End(run, _) => run in s.runs && s.runs[run].status == Cancelled
    case _ => false
  }

  function Outcome(world: World, s: State, c: Command, now: Time): Result<State, Error> {
    match c
    case Add(schedule, enabled) => Create(world, s, schedule, enabled, now)
    case Change(id, version, schedule, enabled) => Update(world, s, id, version, schedule, enabled, now)
    case Remove(id) => Delete(s, id)
    case Trigger(id) => RunNow(s, id)
    case Start(run) => Begin(s, run)
    case Submitted(run) => Submit(s, run)
    case Busy(run) => DeferBusy(s, run, now)
    case End(run, success) => Finish(s, run, success)
    case Stop(id, run) => Cancel(s, id, run)
    case Settle(run) => Acknowledge(s, run)
    case _ => Ok(s)
  }
}
