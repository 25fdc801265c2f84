/** What holds of the team store between operations. */
module TeamInvariant {
  import opened Common
  import opened TeamModel
  import opened TeamDependencies

  ghost predicate DistinctIds(members: seq<Member>) {
    forall i, j :: 0 <= i < j < |members| ==> members[i].id != members[j].id
  }

  /** Member ids are distinct and old, and there is exactly one lead. */
  ghost predicate TeamOk(team: Team, bound: nat) {
    DistinctIds(team.members) &&
    (forall i :: 0 <= i < |team.members| ==> team.members[i].id < bound) &&
    LeadOf(team.members).Some? &&
    forall i :: 0 <= i < |team.members| && team.members[i].role == Lead ==>
      LeadOf(team.members) == Some(team.members[i].id)
  }

  ghost predicate TeamsOk(teams: map<Id, Team>, bound: nat) {
    forall k :: k in teams ==> k < bound && TeamOk(teams[k], bound)
  }

  /** Tasks, messages and runs belong to a team that exists; ids stay below the counter. */
  ghost predicate OwnersOk(teams: map<Id, Team>, tasks: map<Id, Task>, messages: map<Id, Message>,
                           runs: map<Id, Run>, bound: nat)
  {
    (forall t :: t in tasks ==> t < bound && tasks[t].teamId in teams) &&
    (forall m :: m in messages ==> m < bound && messages[m].teamId in teams) &&
    forall r :: r in runs ==> r < bound && runs[r].teamId in teams
  }

  ghost predicate GraphOk(tasks: map<Id, Task>) {
    Closed(tasks) && Acyclic(tasks)
  }

  ghost predicate Rivals(runs: map<Id, Run>, r: Id, q: Id) {
    r in runs && q in runs && runs[r].teamId == runs[q].teamId &&
    Unfinished(runs[r].status) && Unfinished(runs[q].status)
  }

  /** Counters keep their limits, and a team has at most one unfinished run. */
  ghost predicate RunsOk(runs: map<Id, Run>) {
    (forall r :: r in runs ==> runs[r].dispatchCount <= MAX_DISPATCHES && runs[r].recruitedCount <= MAX_RECRUITED) &&
    forall r, q :: Rivals(runs, r, q) ==> r == q
  }

  /** What a dispatch refers to exists; outstanding work belongs to an unfinished run and to a current member. */
  ghost predicate DispatchOk(teams: map<Id, Team>, tasks: map<Id, Task>, messages: map<Id, Message>,
                             runs: map<Id, Run>, item: Dispatch)
  {
    item.teamId in teams &&
    item.runId in runs && runs[item.runId].teamId == item.teamId &&
    (item.taskId.Some? ==> item.taskId.value in tasks && tasks[item.taskId.value].teamId == item.teamId &&
                           tasks[item.taskId.value].memberId == item.memberId) &&
    (forall i :: 0 <= i < |item.messageIds| ==>
       item.messageIds[i] in messages && messages[item.messageIds[i]].teamId == item.teamId) &&
    (Active(item.status) ==> Unfinished(runs[item.runId].status) && HasMember(teams[item.teamId], item.memberId)) &&
    (item.status == Running ==> item.depth <= MAX_DEPTH)
  }

  ghost predicate DispatchesOk(teams: map<Id, Team>, tasks: map<Id, Task>, messages: map<Id, Message>,
                               runs: map<Id, Run>, dispatches: map<Id, Dispatch>, bound: nat)
  {
    forall d :: d in dispatches ==> d < bound && DispatchOk(teams, tasks, messages, runs, dispatches[d])
  }

  /** How the status of a task follows that of its dispatch. The lead may have closed a running task early. */
  predicate Linked(dispatch: DispatchStatus, task: TaskStatus) {
    (dispatch == Queued <==> task == TaskQueued) &&
    (task == TaskRunning ==> dispatch == Running) &&
    (dispatch == Running ==> task != TaskCancelled)
  }

  ghost predicate SameTask(dispatches: map<Id, Dispatch>, d: Id, e: Id) {
    d in dispatches && e in dispatches && dispatches[d].taskId.Some? && dispatches[d].taskId == dispatches[e].taskId
  }

  /**
   A task has at most one dispatch, and one while it is active unless it still waits for it; statuses agree.
   */
  ghost predicate LinksOk(tasks: map<Id, Task>, dispatches: map<Id, Dispatch>, waiting: set<Id>) {
    (forall d :: d in dispatches && dispatches[d].taskId.Some? ==>
       dispatches[d].taskId.value in tasks && Linked(dispatches[d].status, tasks[dispatches[d].taskId.value].status)) &&
    (forall d, e :: SameTask(dispatches, d, e) ==> d == e) &&
    forall t :: t in tasks && ActiveTask(tasks[t].status) && t !in waiting ==> HasDispatch(dispatches, t)
  }

  ghost predicate RunsFor(dispatches: map<Id, Dispatch>, d: Id, teamId: Id, memberId: Id) {
    d in dispatches && dispatches[d].status == Running && dispatches[d].teamId == teamId &&
    dispatches[d].memberId == memberId
  }

  ghost predicate IsRunning(dispatches: map<Id, Dispatch>, teamId: Id, memberId: Id) {
    exists d :: RunsFor(dispatches, d, teamId, memberId)
  }

  /** A member is busy iff one of its dispatches is running ... */
  ghost predicate BusyOk(teams: map<Id, Team>, dispatches: map<Id, Dispatch>) {
    forall k, i :: k in teams && 0 <= i < |teams[k].members| ==>
      (teams[k].members[i].status == Busy <==> IsRunning(dispatches, k, teams[k].members[i].id))
  }

  /** ... and never two of them. */
  ghost predicate AloneOk(dispatches: map<Id, Dispatch>) {
    forall d, e, k, m :: RunsFor(dispatches, d, k, m) && RunsFor(dispatches, e, k, m) ==> d == e
  }

  ghost predicate ConcurrencyOk(dispatches: map<Id, Dispatch>) {
    forall r :: |RunningIn(dispatches, r)| <= MAX_CONCURRENT
  }

  /** Event numbers increase and none is above the counter, so a new event never reuses one. */
  ghost predicate EventsOk(events: seq<Event>, sequence: nat) {
    (forall i :: 0 <= i < |events| ==> events[i].sequence <= sequence) &&
    forall i, j :: 0 <= i < j < |events| ==> events[i].sequence < events[j].sequence
  }

  /** The invariant, but for tasks in `waiting`, which are about to be given a dispatch. */
  ghost predicate ValidWhile(s: State, waiting: set<Id>) {
    match s
    case State(teams, tasks, messages, runs, dispatches, events, sequence, _, nextId) =>
      TeamsOk(teams, nextId) &&
      OwnersOk(teams, tasks, messages, runs, nextId) &&
      GraphOk(tasks) &&
      RunsOk(runs) &&
      DispatchesOk(teams, tasks, messages, runs, dispatches, nextId) &&
      LinksOk(tasks, dispatches, waiting) &&
      BusyOk(teams, dispatches) &&
      AloneOk(dispatches) &&
      ConcurrencyOk(dispatches) &&
      EventsOk(events, sequence)
  }

  ghost predicate Valid(s: State) {
    ValidWhile(s, {})
  }

  /** Every task was given a dispatch. Documents older than dispatches may lack this for finished tasks. */
  ghost predicate Covered(s: State) {
    forall t :: t in s.tasks ==> HasDispatch(s.dispatches, t)
  }

  lemma EmptyValid()
    ensures Valid(Empty) && Covered(Empty)
  {
    assert forall r :: RunningIn(Empty.dispatches, r) == {};
  }
}
