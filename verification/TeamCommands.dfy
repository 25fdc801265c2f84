/** The store's public operations as commands, and what every sequence of them keeps. */
module TeamCommands {
  import opened Common
  import opened TeamModel
  import opened TeamInvariant
  import opened TeamOperations
  import opened TeamControl
  import opened TeamCancel
  import opened TeamRoster
  import opened TeamRestart

  datatype Command =
    | NewTeam(leadName: string)
    | EditTeam(teamId: Id, version: nat, order: Option<seq<Id>>)
    | Join(teamId: Id, name: string)
    | EditMember(teamId: Id, memberId: Id, newName: Option<string>)
    | Leave(teamId: Id, memberId: Id)
    | Drop(teamId: Id)
    | Queue(teamId: Id, memberId: Id, title: string, input: string, dependsOn: seq<Id>, parentId: Option<Id>)
    | Stop(teamId: Id, taskId: Id)
    | Post(teamId: Id, from: Option<Id>, to: Option<Id>, body: string, parentId: Option<Id>)
    | EditTask(teamId: Id, taskId: Id, version: nat, edit: TaskEdit, caller: Option<Id>)
    | Launch(teamId: Id, input: string, target: Option<Id>)
    | Control(teamId: Id, runId: Id, action: Action)
    | Hire(teamId: Id, dispatchId: Id, name: string)
    | Begin(dispatchId: Id)
    | Submit(dispatchId: Id)
    | Defer(dispatchId: Id)
    | Finish(dispatchId: Id, report: Report)
    | PauseIdle
    | Account(executionId: Id)
    | Reopen

  type Reply = Result<Option<Id>, Error>

  /** A transaction: the new state, or the old one with the error. */
  function Commit(s: State, r: Result<State, Error>): (State, Reply) {
    match r
    case Ok(t) => (t, Ok(None))
    case Err(e) => (s, Err(e))
  }

  function CommitNew(s: State, r: Result<(State, Id), Error>): (State, Reply) {
    match r
    case Ok((t, id)) => (t, Ok(Some(id)))
    case Err(e) => (s, Err(e))
  }

  /** `Reopen` is a crash and restart: every operation ends by saving, so the saved document is the state. */
  function Apply(s: State, c: Command): (State, Reply) {
    match c
    case NewTeam(leadName) => CommitNew(s, Ok(CreateTeam(s, leadName)))
    case EditTeam(teamId, version, order) => Commit(s, UpdateTeam(s, teamId, version, order))
    case Join(teamId, name) => CommitNew(s, AddMember(s, teamId, name))
    case EditMember(teamId, memberId, newName) => Commit(s, UpdateMember(s, teamId, memberId, newName))
    case Leave(teamId, memberId) => Commit(s, RemoveMember(s, teamId, memberId))
    case Drop(teamId) => Commit(s, DeleteTeam(s, teamId))
    case Queue(teamId, memberId, title, input, dependsOn, parentId) =>
      CommitNew(s, QueueTask(s, teamId, memberId, title, input, dependsOn, parentId))
    case Stop(teamId, taskId) => Commit(s, CancelTask(s, teamId, taskId))
    case Post(teamId, from, to, body, parentId) => CommitNew(s, SendMessage(s, teamId, from, to, body, parentId))
    case EditTask(teamId, taskId, version, edit, caller) => Commit(s, UpdateTask(s, teamId, taskId, version, edit, caller))
    case Launch(teamId, input, target) => CommitNew(s, StartRun(s, teamId, input, target))
    case Control(teamId, runId, action) => Commit(s, ControlRun(s, teamId, runId, action))
    case Hire(teamId, dispatchId, name) => CommitNew(s, Recruit(s, teamId, dispatchId, name))
    case Begin(dispatchId) =>
      var (t, result) := BeginDispatch(s, dispatchId);
      (t, if result.Ok? then Ok(None) else Err(result.error))
    case Submit(dispatchId) => (SubmitDispatch(s, dispatchId), Ok(None))
    case Defer(dispatchId) => Commit(s, DeferDispatch(s, dispatchId))
    case Finish(dispatchId, report) => Commit(s, FinishDispatch(s, dispatchId, report))
    case PauseIdle => (PauseBlocked(s, 0, s.nextId), Ok(None))
    case Account(executionId) => Commit(s, Acknowledge(s, executionId))
    case Reopen => Commit(s, Restart(s))
  }

  function Execute(s: State, commands: seq<Command>): State
    decreases |commands|
  {
    if commands == [] then s else Execute(Apply(s, commands[0]).0, commands[1..])
  }

  lemma StepValid(s: State, c: Command)
    requires Valid(s)
    ensures Valid(Apply(s, c).0)
  {
    hide ValidWhile, UpdateTeam, UpdateMember, RemoveMember, DeleteTeam, QueueTask, CancelTask, SendMessage, UpdateTask;
    hide StartRun, ControlRun, Recruit, BeginDispatch, SubmitDispatch, DeferDispatch, FinishDispatch, Restart;
    if Apply(s, c).1.Err? && !c.Begin? {
      return;
    }
    match c
    case NewTeam(leadName) => CreateTeamValid(s, leadName);
    case EditTeam(teamId, version, order) => UpdateTeamValid(s, teamId, version, order);
    case Join(teamId, name) => AddMemberValid(s, teamId, name);
    case EditMember(teamId, memberId, newName) => UpdateMemberValid(s, teamId, memberId, newName);
    case Leave(teamId, memberId) => RemoveMemberValid(s, teamId, memberId);
    case Drop(teamId) => DeleteTeamValid(s, teamId);
    case Queue(teamId, memberId, title, input, dependsOn, parentId) =>
      QueueTaskValid(s, teamId, memberId, title, input, dependsOn, parentId);
    case Stop(teamId, taskId) => CancelTaskValid(s, teamId, taskId);
    case Post(teamId, from, to, body, parentId) => SendMessageValid(s, teamId, from, to, body, parentId);
    case EditTask(teamId, taskId, version, edit, caller) => UpdateTaskValid(s, teamId, taskId, version, edit, caller);
    case Launch(teamId, input, target) => StartRunValid(s, teamId, input, target);
    case Control(teamId, runId, action) => ControlRunValid(s, teamId, runId, action);
    case Hire(teamId, dispatchId, name) => RecruitValid(s, teamId, dispatchId, name);
    case Begin(dispatchId) => BeginDispatchValid(s, dispatchId);
    case Submit(dispatchId) => SubmitDispatchValid(s, dispatchId);
    case Defer(dispatchId) => DeferDispatchValid(s, dispatchId);
    case Finish(dispatchId, report) => FinishDispatchValid(s, dispatchId, report);
    case PauseIdle => PauseBlockedValid(s, 0, s.nextId);
    case Account(executionId) => AcknowledgeValid(s, executionId);
    case Reopen =>
      ValidIsLoadable(s);
      RestartValid(s);
  }

  lemma AcknowledgeValid(s: State, id: Id)
    requires Valid(s) && Acknowledge(s, id).Ok?
    ensures Valid(Acknowledge(s, id).value)
  {
    hide TeamsOk, OwnersOk, GraphOk, RunsOk, DispatchesOk, LinksOk, BusyOk, AloneOk, ConcurrencyOk, EventsOk;
  }

  /** The invariant holds in every state the store can reach, crashes and restarts included. */
  lemma {:induction false} ReachableValid(s: State, commands: seq<Command>)
    requires Valid(s)
    ensures Valid(Execute(s, commands))
    decreases |commands|
  {
    hide ValidWhile;
    if commands != [] {
      StepValid(s, commands[0]);
      ReachableValid(Apply(s, commands[0]).0, commands[1..]);
    }
  }
}
