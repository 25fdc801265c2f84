/**
 The persisted values of the AI-team store and the effect of each of its operations.

 Ids are numbers drawn from one counter, so the insertion order of the source's maps is the numeric order of
 their keys: `find` is the least matching id and `findLast` the greatest.
 */
module TeamModel {
  import opened Common
  import opened Texts

  type Id = nat

  datatype Role = Lead | Worker
  datatype MemberStatus = Idle | Busy | Faulted
  datatype Member = Member(id: Id, name: string, role: Role, status: MemberStatus)
  datatype Team = Team(version: nat, members: seq<Member>)

  datatype TaskStatus = TaskQueued | TaskRunning | TaskSucceeded | TaskFailed | TaskCancelled
  datatype Task = Task(teamId: Id, memberId: Id, version: nat, dependsOn: seq<Id>, status: TaskStatus,
                       error: Option<string>)

  datatype RunStatus = RunRunning | RunPaused | RunPausedLimit | RunCompleted | RunCancelled | RunInterrupted
  datatype RunReason =
    NoReason | Restarted | DependencyFailed | RecruitLimit | DispatchBudget | DepthLimit | FanoutLimit | LeadFailed
  datatype Run = Run(teamId: Id, status: RunStatus, segment: nat, dispatchCount: nat, recruitedCount: nat,
                     reason: RunReason)

  datatype DispatchStatus = Queued | Running | Succeeded | Failed | Cancelled | Interrupted
  datatype Dispatch = Dispatch(teamId: Id, runId: Id, memberId: Id, taskId: Option<Id>, messageIds: seq<Id>,
                               parentId: Option<Id>, depth: nat, fanout: set<Id>, status: DispatchStatus,
                               submitted: bool)

  datatype Message = Message(teamId: Id, from: Option<Id>, to: Option<Id>, body: string, read: bool)

  datatype EventKind =
    TeamCreated | TeamUpdated | TeamRemoved | MemberAdded | MemberRemoved | TaskAdded | TaskStarted |
    TaskFinished | TaskStopped | TaskEdited | MailReceived | RunUpdated | DispatchUpdated
  datatype Event = Event(teamId: Id, sequence: nat, kind: EventKind, subject: Id)

  datatype Error =
    TeamNotFound | MemberNotFound | TaskNotFound | RunNotFound | DispatchNotFound | InvalidText |
    VersionConflict | InvalidMemberOrder | NameConflict | MemberBusy | LeadCannotBeRemoved | TeamHasActiveTask |
    InvalidDependencies | DependencyCycle | DependencyOtherTeam | TaskNotQueued | TaskBlocked | TaskNotRunning |
    TaskNotCancellable | TaskForbidden | TaskAlreadyStarted | TaskNotInterrupted | RunRequiresResume |
    RunFinished | RunNotRunning | RecruitLimitReached | DispatchExpired | DispatchNotReady | RunLimitReached |
    OperationConflict

  /** The document written by `#save`, plus the source of fresh ids. */
  datatype State = State(teams: map<Id, Team>, tasks: map<Id, Task>, messages: map<Id, Message>,
                         runs: map<Id, Run>, dispatches: map<Id, Dispatch>, events: seq<Event>, sequence: nat,
                         reconciled: set<Id>, nextId: Id)

  const Empty := State(map[], map[], map[], map[], map[], [], 0, {}, 0)

  const TEXT_LIMIT := 65536
  const MAX_DISPATCHES := 64
  const MAX_DEPTH := 8
  const MAX_FANOUT := 4
  const MAX_CONCURRENT := 4
  const MAX_RECRUITED := 8

  predicate Active(status: DispatchStatus) {
    status == Queued || status == Running
  }

  predicate ActiveTask(status: TaskStatus) {
    status == TaskQueued || status == TaskRunning
  }

  /** A run that the team may still continue. */
  predicate Unfinished(status: RunStatus) {
    status != RunCompleted && status != RunCancelled
  }

  // ---------------------------------------------------------------- lookups

  predicate HasMember(team: Team, id: Id) {
    exists i :: 0 <= i < |team.members| && team.members[i].id == id
  }

  predicate IsLead(team: Team, id: Id) {
    exists i :: 0 <= i < |team.members| && team.members[i].id == id && team.members[i].role == Lead
  }

  predicate IsBusy(team: Team, id: Id) {
    exists i :: 0 <= i < |team.members| && team.members[i].id == id && team.members[i].status == Busy
  }

  /** The team's lead: the first member with that role. */
  function LeadOf(members: seq<Member>): Option<Id> {
    if members == [] then None
    else if members[0].role == Lead then Some(members[0].id)
    else LeadOf(members[1..])
  }

  /** The latest unfinished run of a team among the ids below `bound`. */
  function LastUnfinished(runs: map<Id, Run>, teamId: Id, bound: nat): Option<Id> {
    if bound == 0 then None
    else if bound - 1 in runs && runs[bound - 1].teamId == teamId && Unfinished(runs[bound - 1].status)
      then Some(bound - 1)
    else LastUnfinished(runs, teamId, bound - 1)
  }

  /** A dispatch that a new mailbox message for this member joins. */
  predicate IsMailbox(item: Dispatch, runId: Id, memberId: Id) {
    item.runId == runId && item.memberId == memberId && item.status == Queued && item.taskId == None &&
    item.messageIds != []
  }

  /** The earliest such dispatch with an id in [first, bound). */
  function FirstMailbox(dispatches: map<Id, Dispatch>, runId: Id, memberId: Id, first: nat, bound: nat): Option<Id>
    decreases bound - first
  {
    if first >= bound then None
    else if first in dispatches && IsMailbox(dispatches[first], runId, memberId) then Some(first)
    else FirstMailbox(dispatches, runId, memberId, first + 1, bound)
  }

  function RunningIn(dispatches: map<Id, Dispatch>, runId: Id): set<Id> {
    set d | d in dispatches && dispatches[d].runId == runId && dispatches[d].status == Running
  }

  predicate Outstanding(dispatches: map<Id, Dispatch>, runId: Id) {
    exists d :: d in dispatches && dispatches[d].runId == runId && Active(dispatches[d].status)
  }

  // ---------------------------------------------------------------- small updates

  function Emit(s: State, teamId: Id, kind: EventKind, subject: Id): State {
    s.(events := s.events + [Event(teamId, s.sequence + 1, kind, subject)], sequence := s.sequence + 1)
  }

  function WithStatus(members: seq<Member>, id: Id, status: MemberStatus): seq<Member> {
    seq(|members|, i requires 0 <= i < |members| =>
      if members[i].id == id then members[i].(status := status) else members[i])
  }

  function SetMember(s: State, teamId: Id, memberId: Id, status: MemberStatus): State
    requires teamId in s.teams
  {
    var team := s.teams[teamId];
    s.(teams := s.teams[teamId := team.(members := WithStatus(team.members, memberId, status))])
  }

  function SetDispatch(s: State, id: Id, item: Dispatch): State {
    s.(dispatches := s.dispatches[id := item])
  }

  function SetRun(s: State, id: Id, run: Run): State {
    s.(runs := s.runs[id := run])
  }

  /** `#ensureRun`: the team's unfinished run, or a new running one. */
  function EnsureRun(s: State, teamId: Id): (State, Id) {
    match LastUnfinished(s.runs, teamId, s.nextId)
    case Some(run) => (s, run)
    case None =>
      var id := s.nextId;
      (Emit(SetRun(s, id, Run(teamId, RunRunning, 1, 0, 0, NoReason)).(nextId := id + 1), teamId, RunUpdated, id), id)
  }

  /** `#registerEdge`: records the target on the parent, and pauses the run past a limit; returns the depth. */
  function RegisterEdge(s: State, runId: Id, memberId: Id, parentId: Option<Id>): Result<(State, nat), Error> {
    var parent := if parentId.Some? && parentId.value in s.dispatches then Some(s.dispatches[parentId.value]) else None;
    if parent.Some? && (parent.value.runId != runId || parent.value.status == Cancelled) then Err(DispatchExpired)
    else if runId !in s.runs then Err(RunNotFound)
    else if !Unfinished(s.runs[runId].status) then Err(RunFinished)
    else
      var targets := (if parent.Some? then parent.value.fanout else {}) + {memberId};
      var depth := if parent.Some? then parent.value.depth + 1 else 0;
      var linked := if parent.Some? then SetDispatch(s, parentId.value, parent.value.(fanout := targets)) else s;
      if |targets| > MAX_FANOUT || depth > MAX_DEPTH then
        var reason := if |targets| > MAX_FANOUT then FanoutLimit else DepthLimit;
        var run := s.runs[runId];
        Ok((Emit(SetRun(linked, runId, run.(status := RunPausedLimit, reason := reason)), run.teamId, RunUpdated, runId),
            depth))
      else Ok((linked, depth))
  }

  /** `#enqueue`: adds a queued dispatch to the run. */
  function Enqueue(s: State, runId: Id, memberId: Id, parentId: Option<Id>, taskId: Option<Id>, messageIds: seq<Id>)
    : Result<State, Error>
  {
    var (linked, depth) :- RegisterEdge(s, runId, memberId, parentId);
    if runId !in linked.runs then Err(RunNotFound)
    else
      var teamId := linked.runs[runId].teamId;
      var id := linked.nextId;
      var item := Dispatch(teamId, runId, memberId, taskId, messageIds, parentId, depth, {}, Queued, false);
      Ok(Emit(SetDispatch(linked, id, item).(nextId := id + 1), teamId, DispatchUpdated, id))
  }

  // ---------------------------------------------------------------- dependencies

  /**
   `visit` of `#validateDependencies`: depth-first search from `id` that refuses the task being edited, unknown
   tasks and tasks of other teams; returns every task seen.
   */
  function Visit(tasks: map<Id, Task>, teamId: Id, self: Option<Id>, id: Id, seen: set<Id>): (r: Result<set<Id>, Error>)
    ensures r.Ok? ==> seen + {id} <= r.value
    decreases tasks.Keys - seen, 1, 0
  {
    if Some(id) == self then Err(DependencyCycle)
    else if id in seen then Ok(seen)
    else if id !in tasks then Err(TaskNotFound)
    else if tasks[id].teamId != teamId then Err(DependencyOtherTeam)
    else VisitAll(tasks, teamId, self, tasks[id].dependsOn, seen + {id})
  }

  function VisitAll(tasks: map<Id, Task>, teamId: Id, self: Option<Id>, ids: seq<Id>, seen: set<Id>)
    : (r: Result<set<Id>, Error>)
    ensures r.Ok? ==> seen <= r.value && forall i :: 0 <= i < |ids| ==> ids[i] in r.value
    decreases tasks.Keys - seen, 2, |ids|
  {
    if ids == [] then Ok(seen)
    else
      var first :- Visit(tasks, teamId, self, ids[0], seen);
      VisitAll(tasks, teamId, self, ids[1..], first)
  }

  /** The search starts afresh from each proposed dependency. */
  function VisitEach(tasks: map<Id, Task>, teamId: Id, self: Option<Id>, ids: seq<Id>): Result<bool, Error> {
    if ids == [] then Ok(true)
    else
      var _ :- Visit(tasks, teamId, self, ids[0], {});
      VisitEach(tasks, teamId, self, ids[1..])
  }

  predicate Distinct(ids: seq<Id>) {
    forall i, j :: 0 <= i < j < |ids| ==> ids[i] != ids[j]
  }

  function ValidateDependencies(tasks: map<Id, Task>, teamId: Id, ids: seq<Id>, self: Option<Id>): Result<bool, Error> {
    if !Distinct(ids) then Err(InvalidDependencies) else VisitEach(tasks, teamId, self, ids)
  }

  // ---------------------------------------------------------------- teams and members

  function CreateTeam(s: State, leadName: string): (State, Id) {
    var id := s.nextId;
    var lead := Member(id + 1, leadName, Lead, Idle);
    (Emit(s.(teams := s.teams[id := Team(1, [lead])], nextId := id + 2), id, TeamCreated, id), id)
  }

  function Reordered(members: seq<Member>, order: seq<Id>): seq<Member>
    requires forall k :: 0 <= k < |order| ==> exists i :: 0 <= i < |members| && members[i].id == order[k]
  {
    seq(|order|, k requires 0 <= k < |order| => MemberNamed(members, order[k]))
  }

  function MemberNamed(members: seq<Member>, id: Id): (m: Member)
    requires exists i :: 0 <= i < |members| && members[i].id == id
    ensures m in members && m.id == id
  {
    if members[0].id == id then members[0] else MemberNamed(members[1..], id)
  }

  /** `update`: rename, change the session mode, or reorder the members with the lead kept first. */
  function UpdateTeam(s: State, teamId: Id, expectedVersion: nat, order: Option<seq<Id>>): Result<State, Error> {
    if teamId !in s.teams then Err(TeamNotFound)
    else
      var team := s.teams[teamId];
      if team.version != expectedVersion then Err(VersionConflict)
      else if order.Some? && !ValidOrder(team, order.value) then Err(InvalidMemberOrder)
      else
        var members := if order.Some? then Reordered(team.members, order.value) else team.members;
        Ok(Emit(s.(teams := s.teams[teamId := Team(team.version + 1, members)]), teamId, TeamUpdated, teamId))
  }

  predicate ValidOrder(team: Team, order: seq<Id>) {
    |order| == |team.members| && Distinct(order) && order != [] && LeadOf(team.members) == Some(order[0]) &&
    forall k :: 0 <= k < |order| ==> HasMember(team, order[k])
  }

  predicate NameTaken(team: Team, name: string, except: Option<Id>) {
    exists i :: 0 <= i < |team.members| && team.members[i].name == name && Some(team.members[i].id) != except
  }

  function AddMember(s: State, teamId: Id, name: string): Result<(State, Id), Error> {
    if teamId !in s.teams then Err(TeamNotFound)
    else if NameTaken(s.teams[teamId], name, None) then Err(NameConflict)
    else
      var team := s.teams[teamId];
      var id := s.nextId;
      var grown := Team(team.version + 1, team.members + [Member(id, name, Worker, Idle)]);
      Ok((Emit(s.(teams := s.teams[teamId := grown], nextId := id + 1), teamId, MemberAdded, id), id))
  }

  function Renamed(members: seq<Member>, id: Id, name: string): seq<Member> {
    seq(|members|, i requires 0 <= i < |members| =>
      if members[i].id == id then members[i].(name := name) else members[i])
  }

  function UpdateMember(s: State, teamId: Id, memberId: Id, name: Option<string>): Result<State, Error> {
    if teamId !in s.teams then Err(TeamNotFound)
    else
      var team := s.teams[teamId];
      if !HasMember(team, memberId) then Err(MemberNotFound)
      else if IsBusy(team, memberId) then Err(MemberBusy)
      else if name.Some? && NameTaken(team, name.value, Some(memberId)) then Err(NameConflict)
      else
        var members := if name.Some? then Renamed(team.members, memberId, name.value) else team.members;
        Ok(Emit(s.(teams := s.teams[teamId := Team(team.version + 1, members)]), teamId, TeamUpdated, memberId))
  }

  function Without(members: seq<Member>, id: Id): seq<Member> {
    if members == [] then []
    else if members[0].id == id then Without(members[1..], id)
    else [members[0]] + Without(members[1..], id)
  }

  predicate HasActiveWork(s: State, memberId: Id) {
    (exists d :: d in s.dispatches && s.dispatches[d].memberId == memberId && Active(s.dispatches[d].status)) ||
    (exists t :: t in s.tasks && s.tasks[t].memberId == memberId && ActiveTask(s.tasks[t].status))
  }

  function RemoveMember(s: State, teamId: Id, memberId: Id): Result<State, Error> {
    if teamId !in s.teams then Err(TeamNotFound)
    else
      var team := s.teams[teamId];
      if !HasMember(team, memberId) then Err(MemberNotFound)
      else if IsLead(team, memberId) then Err(LeadCannotBeRemoved)
      else if IsBusy(team, memberId) || HasActiveWork(s, memberId) then Err(MemberBusy)
      else
        var smaller := Team(team.version + 1, Without(team.members, memberId));
        Ok(Emit(s.(teams := s.teams[teamId := smaller]), teamId, MemberRemoved, memberId))
  }

  function RetainedEvents(events: seq<Event>, teamId: Id): seq<Event> {
    if events == [] then []
    else
      var last := events[|events| - 1];
      var rest := RetainedEvents(events[..|events| - 1], teamId);
      if last.teamId == teamId && last.kind != TeamRemoved then rest else rest + [last]
  }

  function DeleteTeam(s: State, teamId: Id): Result<State, Error> {
    if teamId !in s.teams then Err(TeamNotFound)
    else if (exists d :: d in s.dispatches && s.dispatches[d].teamId == teamId && Active(s.dispatches[d].status)) ||
            (exists t :: t in s.tasks && s.tasks[t].teamId == teamId && ActiveTask(s.tasks[t].status))
    then Err(TeamHasActiveTask)
    else
      var logged := Emit(s, teamId, TeamRemoved, teamId);
      Ok(logged.(
         teams := map k | k in s.teams && k != teamId :: s.teams[k],
         runs := map k | k in s.runs && s.runs[k].teamId != teamId :: s.runs[k],
         dispatches := map k | k in s.dispatches && s.dispatches[k].teamId != teamId :: s.dispatches[k],
         tasks := map k | k in s.tasks && s.tasks[k].teamId != teamId :: s.tasks[k],
         messages := map k | k in s.messages && s.messages[k].teamId != teamId :: s.messages[k],
         events := RetainedEvents(logged.events, teamId)))
  }

  // ---------------------------------------------------------------- tasks and messages

  function QueueTask(s: State, teamId: Id, memberId: Id, title: string, input: string, dependsOn: seq<Id>,
                     parentId: Option<Id>): Result<(State, Id), Error>
  {
    if teamId !in s.teams then Err(TeamNotFound)
    else if !HasMember(s.teams[teamId], memberId) then Err(MemberNotFound)
    else
      var _ :- ValidateDependencies(s.tasks, teamId, dependsOn, None);
      if !Accepted(title, 200) || !Accepted(input, TEXT_LIMIT) then Err(InvalidText)
      else
        var id := s.nextId;
        var task := Task(teamId, memberId, 1, dependsOn, TaskQueued, None);
        var (ready, run) := EnsureRun(s.(tasks := s.tasks[id := task], nextId := id + 1), teamId);
        var queued :- Enqueue(ready, run, memberId, parentId, Some(id), []);
        Ok((Emit(queued, teamId, TaskAdded, id), id))
  }

  function BeginTask(s: State, id: Id): Result<State, Error> {
    if id !in s.tasks then Err(TaskNotFound)
    else
      var task := s.tasks[id];
      if task.status != TaskQueued then Err(TaskNotQueued)
      else if task.teamId !in s.teams then Err(TeamNotFound)
      else if !HasMember(s.teams[task.teamId], task.memberId) then Err(MemberNotFound)
      else if exists i :: 0 <= i < |task.dependsOn| &&
                          !(task.dependsOn[i] in s.tasks && s.tasks[task.dependsOn[i]].status == TaskSucceeded)
      then Err(TaskBlocked)
      else if IsBusy(s.teams[task.teamId], task.memberId) then Err(MemberBusy)
      else
        var started := s.(tasks := s.tasks[id := task.(status := TaskRunning)]);
        Ok(Emit(SetMember(started, task.teamId, task.memberId, Busy), task.teamId, TaskStarted, id))
  }

  /** What the engine reports for a dispatch. */
  datatype Report = Finished(result: Option<string>) | Errored(error: string)

  function FinishTask(s: State, id: Id, report: Report): Result<State, Error> {
    if id !in s.tasks then Err(TaskNotFound)
    else
      var task := s.tasks[id];
      if task.status == TaskCancelled then Ok(s)
      else if task.status != TaskRunning then Err(TaskNotRunning)
      else if task.teamId !in s.teams then Err(TeamNotFound)
      else
        var done := if report.Errored? then task.(status := TaskFailed, error := Some(report.error))
                    else task.(status := TaskSucceeded, error := None);
        var idled := SetMember(s.(tasks := s.tasks[id := done]), task.teamId, task.memberId,
                               if report.Errored? then Faulted else Idle);
        Ok(Emit(idled, task.teamId, TaskFinished, id))
  }

  function Stopped(item: Dispatch): Dispatch {
    if Active(item.status) then item.(status := Cancelled) else item
  }

  /** The dispatches after those of a task were stopped. */
  function StoppedFor(dispatches: map<Id, Dispatch>, taskId: Id): map<Id, Dispatch> {
    map d | d in dispatches ::
      if dispatches[d].taskId == Some(taskId) then Stopped(dispatches[d]) else dispatches[d]
  }

  function CancelTask(s: State, teamId: Id, id: Id): Result<State, Error> {
    if id !in s.tasks then Err(TaskNotFound)
    else
      var task := s.tasks[id];
      if task.teamId != teamId then Err(TaskNotFound)
      else if !ActiveTask(task.status) then Err(TaskNotCancellable)
      else if teamId !in s.teams then Err(TeamNotFound)
      else
        var stopped := s.(tasks := s.tasks[id := task.(status := TaskCancelled)],
                          dispatches := StoppedFor(s.dispatches, id));
        var idled := if task.status == TaskRunning then SetMember(stopped, teamId, task.memberId, Idle) else stopped;
        Ok(Emit(idled, teamId, TaskStopped, id))
  }

  function OthersThan(members: seq<Member>, from: Option<Id>): seq<Id> {
    if members == [] then []
    else if Some(members[0].id) == from then OthersThan(members[1..], from)
    else [members[0].id] + OthersThan(members[1..], from)
  }

  /** The recipients of a message: the addressee, or everybody but the sender. */
  function Targets(team: Team, from: Option<Id>, to: Option<Id>): seq<Id> {
    if to.Some? then [to.value] else OthersThan(team.members, from)
  }

  /** One recipient's part of `sendMessage`: join the pending mailbox dispatch, or enqueue a new one. */
  function DeliverTo(s: State, runId: Id, memberId: Id, messageId: Id, parentId: Option<Id>): Result<State, Error> {
    match FirstMailbox(s.dispatches, runId, memberId, 0, s.nextId)
    case None => Enqueue(s, runId, memberId, parentId, None, [messageId])
    case Some(pending) =>
      var (linked, depth) :- RegisterEdge(s, runId, memberId, parentId);
      if pending !in s.dispatches then Err(DispatchNotFound)
      else
        var item := s.dispatches[pending];
        Ok(SetDispatch(linked, pending, item.(depth := if depth > item.depth then depth else item.depth,
                                              messageIds := item.messageIds + [messageId])))
  }

  function Deliver(s: State, runId: Id, targets: seq<Id>, messageId: Id, parentId: Option<Id>): Result<State, Error>
    decreases |targets|
  {
    if targets == [] then Ok(s)
    else
      var next :- DeliverTo(s, runId, targets[0], messageId, parentId);
      Deliver(next, runId, targets[1..], messageId, parentId)
  }

  function SendMessage(s: State, teamId: Id, from: Option<Id>, to: Option<Id>, body: string, parentId: Option<Id>)
    : Result<(State, Id), Error>
  {
    if teamId !in s.teams then Err(TeamNotFound)
    else
      var team := s.teams[teamId];
      if from.Some? && !HasMember(team, from.value) then Err(MemberNotFound)
      else if to.Some? && !HasMember(team, to.value) then Err(MemberNotFound)
      else if !Accepted(body, TEXT_LIMIT) then Err(InvalidText)
      else
        var id := s.nextId;
        var posted := s.(messages := s.messages[id := Message(teamId, from, to, Trim(body), false)], nextId := id + 1);
        var (ready, run) := EnsureRun(posted, teamId);
        var delivered :- Deliver(ready, run, Targets(team, from, to), id, parentId);
        Ok((Emit(delivered, teamId, MailReceived, id), id))
  }

  /** How the assignee or the lead may close a running task. */
  datatype Verdict = Done | GivenUp

  function StatusOf(verdict: Verdict): TaskStatus {
    if verdict.Done? then TaskSucceeded else TaskFailed
  }

  datatype TaskEdit = TaskEdit(title: Option<string>, input: Option<string>, dependsOn: Option<seq<Id>>,
                               outcome: Option<Verdict>)

  function UpdateTask(s: State, teamId: Id, id: Id, version: nat, edit: TaskEdit, caller: Option<Id>)
    : Result<State, Error>
  {
    if id !in s.tasks then Err(TaskNotFound)
    else
      var task := s.tasks[id];
      if task.teamId != teamId then Err(TaskNotFound)
      else if task.version != version then Err(VersionConflict)
      else if edit.outcome.Some? && task.status != TaskRunning then Err(TaskNotRunning)
      else if caller.Some? && task.memberId != caller.value && teamId !in s.teams then Err(TeamNotFound)
      else if caller.Some? && task.memberId != caller.value && !HasMember(s.teams[teamId], caller.value)
      then Err(MemberNotFound)
      else if caller.Some? && task.memberId != caller.value && !IsLead(s.teams[teamId], caller.value)
      then Err(TaskForbidden)
      else
        var _ :- (if edit.dependsOn.Some? then ValidateDependencies(s.tasks, teamId, edit.dependsOn.value, Some(id))
                  else Ok(true));
        if task.status != TaskQueued && ((edit.input.Some? && edit.input.value != "") || edit.dependsOn.Some?)
        then Err(TaskAlreadyStarted)
        else if (edit.title.Some? && !Accepted(edit.title.value, 200)) ||
                (edit.input.Some? && !Accepted(edit.input.value, TEXT_LIMIT))
        then Err(InvalidText)
        else
          var next := task.(version := task.version + 1,
                            dependsOn := if edit.dependsOn.Some? then edit.dependsOn.value else task.dependsOn,
                            status := if edit.outcome.Some? then StatusOf(edit.outcome.value) else task.status);
          Ok(Emit(s.(tasks := s.tasks[id := next]), teamId, TaskEdited, id))
  }

  // ---------------------------------------------------------------- runs

  function StartRun(s: State, teamId: Id, input: string, memberId: Option<Id>): Result<(State, Id), Error> {
    if Trim(input) == "" || |input| > TEXT_LIMIT then Err(InvalidText)
    else if teamId !in s.teams then Err(TeamNotFound)
    else
      var team := s.teams[teamId];
      var target := if memberId.Some? then memberId else LeadOf(team.members);
      if target.None? || !HasMember(team, target.value) then Err(MemberNotFound)
      else
        var (ready, run) := EnsureRun(s, teamId);
        if run !in ready.runs || ready.runs[run].status != RunRunning then Err(RunRequiresResume)
        else
          var queued :- Enqueue(ready, run, target.value, None, None, []);
          Ok((queued, run))
  }

  datatype Action = Pause | Resume | Cancel

  /** One step of the cancellation loop: stop an active dispatch of the run, its task, and idle its member. */
  function CancelItem(s: State, runId: Id, id: Id): Result<State, Error> {
    if id !in s.dispatches || s.dispatches[id].runId != runId || !Active(s.dispatches[id].status) then Ok(s)
    else
      var item := s.dispatches[id];
      var stopped := SetDispatch(s, id, item.(status := Cancelled));
      if item.taskId.Some? && item.taskId.value !in stopped.tasks then Err(TaskNotFound)
      else
        var released :- (if item.taskId.Some? && ActiveTask(stopped.tasks[item.taskId.value].status)
                         then CancelTask(stopped, item.teamId, item.taskId.value) else Ok(stopped));
        if item.teamId !in released.teams then Err(TeamNotFound)
        else Ok(SetMember(released, item.teamId, item.memberId, Idle))
  }

  function CancelItems(s: State, runId: Id, first: nat, bound: nat): Result<State, Error>
    decreases bound - first
  {
    if first >= bound then Ok(s)
    else
      var next :- CancelItem(s, runId, first);
      CancelItems(next, runId, first + 1, bound)
  }

  /** A queued dispatch starts a new segment at depth zero. */
  function Rebased(item: Dispatch, runId: Id): Dispatch {
    if item.runId == runId && item.status == Queued then item.(depth := 0, parentId := None) else item
  }

  function RebasedAll(dispatches: map<Id, Dispatch>, runId: Id): map<Id, Dispatch> {
    map d | d in dispatches :: Rebased(dispatches[d], runId)
  }

  function ControlRun(s: State, teamId: Id, runId: Id, action: Action): Result<State, Error> {
    if runId !in s.runs || s.runs[runId].teamId != teamId then Err(RunNotFound)
    else
      var run := s.runs[runId];
      if !Unfinished(run.status) then Err(RunFinished)
      else
        match action
        case Pause =>
          Ok(Emit(SetRun(s, runId, run.(status := RunPaused, reason := NoReason)), teamId, RunUpdated, runId))
        case Cancel =>
          var cancelled :- CancelItems(SetRun(s, runId, run.(status := RunCancelled, reason := NoReason)),
                                       runId, 0, s.nextId);
          Ok(Emit(cancelled, teamId, RunUpdated, runId))
        case Resume =>
          var ready := SetRun(s, runId, Run(teamId, RunRunning, run.segment + 1, 0, 0, NoReason));
          var rebased := ready.(dispatches := RebasedAll(s.dispatches, runId));
          if run.status == RunInterrupted || run.reason == DependencyFailed then
            if teamId !in s.teams then Err(TeamNotFound)
            else
              var lead := LeadOf(s.teams[teamId].members);
              if lead.None? then Err(MemberNotFound)
              else
                var queued :- Enqueue(rebased, runId, lead.value, None, None, []);
                Ok(Emit(queued, teamId, RunUpdated, runId))
          else Ok(Emit(rebased, teamId, RunUpdated, runId))
  }

  function Recruit(s: State, teamId: Id, parentId: Id, name: string): Result<(State, Id), Error> {
    if parentId !in s.dispatches || s.dispatches[parentId].teamId != teamId ||
       s.dispatches[parentId].status != Running
    then Err(DispatchExpired)
    else
      var runId := s.dispatches[parentId].runId;
      if runId !in s.runs then Err(RunNotFound)
      else
        var run := s.runs[runId];
        if run.status != RunRunning then Err(RunNotRunning)
        else if run.recruitedCount >= MAX_RECRUITED then Err(RecruitLimitReached)
        else
          var (grown, member) :- AddMember(s, teamId, name);
          var counted := run.(recruitedCount := run.recruitedCount + 1);
          var next := if run.recruitedCount + 1 >= MAX_RECRUITED
                      then counted.(status := RunPausedLimit, reason := RecruitLimit) else counted;
          Ok((Emit(SetRun(grown, runId, next), teamId, RunUpdated, runId), member))
  }

  predicate HasFailedDependency(tasks: map<Id, Task>, taskId: Id) {
    taskId in tasks &&
    exists i :: 0 <= i < |tasks[taskId].dependsOn| && tasks[taskId].dependsOn[i] in tasks &&
                (tasks[tasks[taskId].dependsOn[i]].status == TaskFailed ||
                 tasks[tasks[taskId].dependsOn[i]].status == TaskCancelled)
  }

  /** The test of `pauseBlockedRuns`: some work is outstanding, and all of it waits for a failed dependency. */
  predicate Blocked(s: State, runId: Id) {
    runId in s.runs && s.runs[runId].status == RunRunning && Outstanding(s.dispatches, runId) &&
    forall d :: d in s.dispatches && s.dispatches[d].runId == runId && Active(s.dispatches[d].status) ==>
                s.dispatches[d].status == Queued && s.dispatches[d].taskId.Some? &&
                HasFailedDependency(s.tasks, s.dispatches[d].taskId.value)
  }

  function PauseBlocked(s: State, first: nat, bound: nat): State
    decreases bound - first
  {
    if first >= bound then s
    else if Blocked(s, first) then
      var run := s.runs[first];
      PauseBlocked(Emit(SetRun(s, first, run.(status := RunPaused, reason := DependencyFailed)),
                        run.teamId, RunUpdated, first), first + 1, bound)
    else PauseBlocked(s, first + 1, bound)
  }

  // ---------------------------------------------------------------- dispatches

  /** `beginDispatch`. The limit check changes the run and saves it before it throws. */
  function BeginDispatch(s: State, id: Id): (State, Result<bool, Error>) {
    if id !in s.dispatches then (s, Err(DispatchNotFound))
    else
      var item := s.dispatches[id];
      if item.runId !in s.runs then (s, Err(RunNotFound))
      else
        var run := s.runs[item.runId];
        if item.status != Queued || run.status != RunRunning then (s, Err(DispatchNotReady))
        else if item.teamId !in s.teams then (s, Err(TeamNotFound))
        else if !HasMember(s.teams[item.teamId], item.memberId) then (s, Err(MemberNotFound))
        else if IsBusy(s.teams[item.teamId], item.memberId) ||
                |RunningIn(s.dispatches, item.runId)| >= MAX_CONCURRENT
        then (s, Err(MemberBusy))
        else if run.dispatchCount >= MAX_DISPATCHES || item.depth > MAX_DEPTH then
          var reason := if run.dispatchCount >= MAX_DISPATCHES then DispatchBudget else DepthLimit;
          (Emit(SetRun(s, item.runId, run.(status := RunPausedLimit, reason := reason)), item.teamId, RunUpdated,
                item.runId),
           Err(RunLimitReached))
        else
          var begun := if item.taskId.Some? then BeginTask(s, item.taskId.value)
                       else Ok(SetMember(s, item.teamId, item.memberId, Busy));
          match begun
          case Err(e) => (s, Err(e))
          case Ok(next) =>
            var counted := SetRun(next, item.runId, run.(dispatchCount := run.dispatchCount + 1));
            (Emit(SetDispatch(counted, id, item.(status := Running)), item.teamId, DispatchUpdated, id), Ok(true))
  }

  function SubmitDispatch(s: State, id: Id): State {
    if id !in s.dispatches || s.dispatches[id].status != Running then s
    else
      var item := s.dispatches[id];
      s.(dispatches := s.dispatches[id := item.(submitted := true)],
         messages := map m | m in s.messages ::
           if m in item.messageIds then s.messages[m].(read := true) else s.messages[m])
  }

  /** `deferDispatch`: the session was busy, so the dispatch and its task go back to the queue. */
  function DeferDispatch(s: State, id: Id): Result<State, Error> {
    if id !in s.dispatches then Err(DispatchNotFound)
    else
      var item := s.dispatches[id];
      if item.status != Running || item.submitted then Ok(s)
      else if item.runId !in s.runs then Err(RunNotFound)
      else if item.taskId.Some? && item.taskId.value !in s.tasks then Err(TaskNotFound)
      else if item.teamId !in s.teams then Err(TeamNotFound)
      else
        var run := s.runs[item.runId];
        var count := if run.dispatchCount == 0 then 0 else run.dispatchCount - 1;
        var counted := SetRun(SetDispatch(s, id, item.(status := Queued)), item.runId, run.(dispatchCount := count));
        var requeued := if item.taskId.None? then counted
                        else counted.(tasks := s.tasks[item.taskId.value :=
                                                       s.tasks[item.taskId.value].(status := TaskQueued)]);
        Ok(SetMember(requeued, item.teamId, item.memberId, Idle))
  }

  /** A generated dispatch id: "team-dispatch-" and a UUID. Only its length matters here. */
  const DISPATCH_ID_TEXT: string := "team-dispatch-00000000-0000-0000-0000-000000000000"

  /** The message that tells the lead how a member's turn ended. */
  function ReportBody(report: Report): string {
    match report
    case Errored(error) => REPORT_HEAD + DISPATCH_ID_TEXT + FAILED_MARK + error
    case Finished(result) =>
      REPORT_HEAD + DISPATCH_ID_TEXT + FINISHED_MARK + (if result.Some? then result.value else DEFAULT_RESULT)
  }

  const REPORT_HEAD: string := "\U{6210}\U{5458}\U{56DE}\U{5408} "
  const FAILED_MARK: string := " \U{5931}\U{8D25}\U{FF1A}\n"
  const FINISHED_MARK: string := " \U{5B8C}\U{6210}\U{FF1A}\n"
  const DEFAULT_RESULT: string :=
    "\U{5DF2}\U{5B8C}\U{6210}\U{FF0C}\U{8BF7}\U{68C0}\U{67E5}\U{6210}\U{679C}\U{3002}"

  /** The first half of `finishDispatch`: the dispatch, its task and its member. */
  function Settle(s: State, id: Id, report: Report): Result<State, Error>
    requires id in s.dispatches
  {
    var item := s.dispatches[id];
    var closed := SetDispatch(s, id, item.(status := if report.Errored? then Failed else Succeeded));
    if item.taskId.Some? && item.taskId.value !in s.tasks then Err(TaskNotFound)
    else if item.taskId.Some? && s.tasks[item.taskId.value].status == TaskRunning
    then FinishTask(closed, item.taskId.value, report)
    else if item.teamId !in s.teams then Err(TeamNotFound)
    else Ok(SetMember(closed, item.teamId, item.memberId, if report.Errored? then Faulted else Idle))
  }

  /** `finishDispatch`, one transaction: an error leaves the state as it was. */
  function FinishDispatch(s: State, id: Id, report: Report): Result<State, Error> {
    if id !in s.dispatches then Err(DispatchNotFound)
    else if s.dispatches[id].status != Running then Ok(s)
    else
      var item := s.dispatches[id];
      var settled :- Settle(s, id, report);
      if item.runId !in settled.runs then Err(RunNotFound)
      else
        var run := settled.runs[item.runId];
        var told :- (if !Unfinished(run.status) || run.status == RunInterrupted then Ok(settled)
                     else ReportToLead(settled, id, item, run, report));
        Ok(Emit(Emit(told, item.teamId, DispatchUpdated, id), item.teamId, RunUpdated, item.runId))
  }

  /** A member's turn is reported to the lead; a lead's turn with nothing outstanding ends the run. */
  function ReportToLead(s: State, id: Id, item: Dispatch, run: Run, report: Report): Result<State, Error> {
    if item.teamId !in s.teams then Err(TeamNotFound)
    else
      var lead := LeadOf(s.teams[item.teamId].members);
      if lead.None? then Err(MemberNotFound)
      else if lead.value != item.memberId then
        var (sent, _) :- SendMessage(s, item.teamId, Some(item.memberId), lead, ReportBody(report), Some(id));
        Ok(sent)
      else if Outstanding(s.dispatches, item.runId) then Ok(s)
      else
        Ok(SetRun(s, item.runId, if report.Errored? then run.(status := RunInterrupted, reason := LeadFailed)
                                 else run.(status := RunCompleted, reason := NoReason)))
  }

  // ---------------------------------------------------------------- restart

  function RecoverDispatch(item: Dispatch): Dispatch {
    if item.status == Running then item.(status := Interrupted) else item
  }

  function RecoverRun(run: Run, hit: bool): Run {
    if hit then run.(status := RunInterrupted, reason := Restarted) else run
  }

  const RESTARTED_TEXT: string := "runtime_restarted"

  function RecoverTask(task: Task): Task {
    if task.status == TaskRunning then task.(status := TaskFailed, error := Some(RESTARTED_TEXT)) else task
  }

  function DropFinished(item: Dispatch, tasks: map<Id, Task>): Dispatch {
    if item.status == Queued && item.taskId.Some? && item.taskId.value in tasks &&
       !ActiveTask(tasks[item.taskId.value].status)
    then item.(status := Cancelled)
    else item
  }

  function AllIdle(members: seq<Member>): seq<Member> {
    seq(|members|, i requires 0 <= i < |members| =>
      if members[i].status == Busy then members[i].(status := Idle) else members[i])
  }

  predicate WasInterrupted(s: State) {
    (exists d :: d in s.dispatches && s.dispatches[d].status == Running) ||
    (exists t :: t in s.tasks && s.tasks[t].status == TaskRunning)
  }

  predicate HasDispatch(dispatches: map<Id, Dispatch>, taskId: Id) {
    exists d :: d in dispatches && dispatches[d].taskId == Some(taskId)
  }

  /** Queued tasks of documents written before dispatches existed get one. */
  function Adopt(s: State, first: nat, bound: nat): Result<State, Error>
    decreases bound - first
  {
    if first >= bound then Ok(s)
    else if first in s.tasks && s.tasks[first].status == TaskQueued && !HasDispatch(s.dispatches, first) then
      var (ready, run) := EnsureRun(s, s.tasks[first].teamId);
      var queued :- Enqueue(ready, run, s.tasks[first].memberId, None, Some(first), []);
      Adopt(queued, first + 1, bound)
    else Adopt(s, first + 1, bound)
  }

  predicate NeedsAdoption(s: State) {
    exists t :: t in s.tasks && s.tasks[t].status == TaskQueued && !HasDispatch(s.dispatches, t)
  }

  function MaxSequence(events: seq<Event>, least: nat): nat {
    if events == [] then least
    else
      var rest := MaxSequence(events[1..], least);
      if events[0].sequence > rest then events[0].sequence else rest
  }

  /** The statuses the constructor repairs before it looks for tasks without a dispatch. */
  function Repaired(doc: State): State {
    var tasks := map t | t in doc.tasks :: RecoverTask(doc.tasks[t]);
    doc.(tasks := tasks,
         runs := map r | r in doc.runs :: RecoverRun(doc.runs[r], RunningIn(doc.dispatches, r) != {}),
         dispatches := map d | d in doc.dispatches :: DropFinished(RecoverDispatch(doc.dispatches[d]), tasks),
         sequence := MaxSequence(doc.events, doc.sequence))
  }

  /** The constructor on a saved document. */
  function Restart(doc: State): Result<State, Error> {
    var repaired := Repaired(doc);
    var adopted :- Adopt(repaired, 0, repaired.nextId);
    if WasInterrupted(doc) || NeedsAdoption(repaired) then
      Ok(adopted.(teams := map k | k in adopted.teams ::
                    adopted.teams[k].(members := AllIdle(adopted.teams[k].members))))
    else Ok(adopted)
  }

  // ---------------------------------------------------------------- accounting for interrupted work

  predicate NeedsReconciling(s: State, d: Id) {
    d in s.dispatches && s.dispatches[d].status == Interrupted && d !in s.reconciled
  }

  /** A failed task of an older document, interrupted without a dispatch. */
  predicate OrphanNeedsReconciling(s: State, t: Id) {
    t in s.tasks && s.tasks[t].status == TaskFailed && s.tasks[t].error == Some(RESTARTED_TEXT) &&
    t !in s.reconciled &&
    !exists d :: d in s.dispatches && s.dispatches[d].taskId == Some(t) && s.dispatches[d].status == Interrupted
  }

  predicate WorkerPresent(s: State, teamId: Id, memberId: Id) {
    teamId in s.teams && HasMember(s.teams[teamId], memberId)
  }

  /** `interruptedExecutions`: it throws as soon as one worker is gone. */
  function InterruptedExecutions(s: State): Result<set<Id>, Error> {
    var dispatches := set d | d in s.dispatches && NeedsReconciling(s, d);
    var orphans := set t | t in s.tasks && OrphanNeedsReconciling(s, t);
    if (exists d :: d in dispatches && !WorkerPresent(s, s.dispatches[d].teamId, s.dispatches[d].memberId)) ||
       (exists t :: t in orphans && !WorkerPresent(s, s.tasks[t].teamId, s.tasks[t].memberId))
    then Err(MemberNotFound)
    else Ok(dispatches + orphans)
  }

  function Acknowledge(s: State, id: Id): Result<State, Error> {
    if id in s.dispatches && s.dispatches[id].status == Interrupted then Ok(s.(reconciled := s.reconciled + {id}))
    else if id !in s.tasks then Err(TaskNotFound)
    else if s.tasks[id].status != TaskFailed || s.tasks[id].error != Some(RESTARTED_TEXT) then Err(TaskNotInterrupted)
    else Ok(s.(reconciled := s.reconciled + {id}))
  }
}
