/** The store itself: fields changed step by step, proved against the effects of `TeamModel`. */
module Teams {
  import opened Common
  import opened Texts
  import opened TeamModel
  import opened TeamInvariant
  import opened TeamRestart
  import opened TeamCommands
  import opened TeamReceipts

  class TeamStore {
    var teams: map<Id, Team>
    var tasks: map<Id, Task>
    var messages: map<Id, Message>
    var runs: map<Id, Run>
    var dispatches: map<Id, Dispatch>
    var events: seq<Event>
    var sequence: nat
    var reconciled: set<Id>
    var nextId: Id
    var receipts: map<OperationId, Receipt>
    /** The document last written and renamed into place. */
    var disk: Ledger

    function Contents(): State
      reads this
    {
      State(teams, tasks, messages, runs, dispatches, events, sequence, reconciled, nextId)
    }

    /** Between operations the contents are valid, and a crash would restart from them. */
    ghost predicate Good()
      reads this
    {
      Valid(Contents()) && Loadable(disk.state) && Restart(disk.state) == Restart(Contents()) &&
      disk.receipts == receipts
    }

    method Save()
      modifies this`disk
      ensures disk == Ledger(Contents(), receipts)
    {
      disk := Ledger(Contents(), receipts);
    }

    /** Rolls a failed transaction back. */
    method Restore(before: State)
      modifies this
      ensures Contents() == before && disk == old(disk) && receipts == old(receipts)
    {
      teams, tasks, messages, runs := before.teams, before.tasks, before.messages, before.runs;
      dispatches, events, sequence := before.dispatches, before.events, before.sequence;
      reconciled, nextId := before.reconciled, before.nextId;
    }

    method Log(teamId: Id, kind: EventKind, subject: Id)
      modifies this`events, this`sequence
      ensures Contents() == Emit(old(Contents()), teamId, kind, subject)
    {
      sequence := sequence + 1;
      events := events + [Event(teamId, sequence, kind, subject)];
    }

    method OpenRun(teamId: Id) returns (run: Id)
      modifies this`runs, this`events, this`sequence, this`nextId
      ensures (Contents(), run) == EnsureRun(old(Contents()), teamId)
    {
      var active := LastUnfinished(runs, teamId, nextId);
      if active.Some? {
        return active.value;
      }
      run := nextId;
      nextId := nextId + 1;
      runs := runs[run := Run(teamId, RunRunning, 1, 0, 0, NoReason)];
      Log(teamId, RunUpdated, run);
    }

    method LinkParent(runId: Id, memberId: Id, parentId: Option<Id>) returns (r: Result<nat, Error>)
      modifies this`dispatches, this`runs, this`events, this`sequence
      ensures match RegisterEdge(old(Contents()), runId, memberId, parentId)
              case Ok((t, depth)) => Contents() == t && r == Ok(depth)
              case Err(e) => Contents() == old(Contents()) && r == Err(e)
    {
      var parent := if parentId.Some? && parentId.value in dispatches then Some(dispatches[parentId.value]) else None;
      if parent.Some? && (parent.value.runId != runId || parent.value.status == Cancelled) {
        return Err(DispatchExpired);
      }
      if runId !in runs {
        return Err(RunNotFound);
      }
      if !Unfinished(runs[runId].status) {
        return Err(RunFinished);
      }
      var targets := (if parent.Some? then parent.value.fanout else {}) + {memberId};
      var depth := if parent.Some? then parent.value.depth + 1 else 0;
      if parent.Some? {
        dispatches := dispatches[parentId.value := parent.value.(fanout := targets)];
      }
      if |targets| > MAX_FANOUT || depth > MAX_DEPTH {
        var reason := if |targets| > MAX_FANOUT then FanoutLimit else DepthLimit;
        var run := runs[runId];
        runs := runs[runId := run.(status := RunPausedLimit, reason := reason)];
        Log(run.teamId, RunUpdated, runId);
      }
      return Ok(depth);
    }

    method AddDispatch(runId: Id, memberId: Id, parentId: Option<Id>, taskId: Option<Id>, messageIds: seq<Id>)
      returns (r: Result<bool, Error>)
      modifies this`dispatches, this`runs, this`events, this`sequence, this`nextId
      ensures match Enqueue(old(Contents()), runId, memberId, parentId, taskId, messageIds)
              case Ok(t) => Contents() == t && r == Ok(true)
              case Err(e) => Contents() == old(Contents()) && r == Err(e)
    {
      var depth := LinkParent(runId, memberId, parentId);
      if depth.Err? {
        return Err(depth.error);
      }
      var id, teamId := nextId, runs[runId].teamId;
      nextId := nextId + 1;
      dispatches := dispatches[id := Dispatch(teamId, runId, memberId, taskId, messageIds, parentId, depth.value, {},
                                              Queued, false)];
      Log(teamId, DispatchUpdated, id);
      return Ok(true);
    }

    method SetMemberStatus(teamId: Id, memberId: Id, status: MemberStatus)
      requires teamId in teams
      modifies this`teams
      ensures Contents() == SetMember(old(Contents()), teamId, memberId, status)
    {
      var team := teams[teamId];
      teams := teams[teamId := team.(members := WithStatus(team.members, memberId, status))];
    }

    // -------------------------------------------------------------- dependencies

    method VisitTask(teamId: Id, self: Option<Id>, id: Id, seen: set<Id>) returns (r: Result<set<Id>, Error>)
      ensures r == Visit(tasks, teamId, self, id, seen)
      decreases tasks.Keys - seen
    {
      if Some(id) == self {
        return Err(DependencyCycle);
      }
      if id in seen {
        return Ok(seen);
      }
      if id !in tasks {
        return Err(TaskNotFound);
      }
      var task := tasks[id];
      if task.teamId != teamId {
        return Err(DependencyOtherTeam);
      }
      var visited := seen + {id};
      for i := 0 to |task.dependsOn|
        invariant seen + {id} <= visited
        invariant VisitAll(tasks, teamId, self, task.dependsOn, seen + {id}) ==
                  VisitAll(tasks, teamId, self, task.dependsOn[i..], visited)
      {
        r := VisitTask(teamId, self, task.dependsOn[i], visited);
        assert task.dependsOn[i..][1..] == task.dependsOn[i + 1..];
        if r.Err? {
          return;
        }
        visited := r.value;
      }
      return Ok(visited);
    }

    method Validate(teamId: Id, ids: seq<Id>, self: Option<Id>) returns (r: Result<bool, Error>)
      ensures r == ValidateDependencies(tasks, teamId, ids, self)
    {
      if !Distinct(ids) {
        return Err(InvalidDependencies);
      }
      for i := 0 to |ids|
        invariant VisitEach(tasks, teamId, self, ids) == VisitEach(tasks, teamId, self, ids[i..])
      {
        var visited := VisitTask(teamId, self, ids[i], {});
        assert ids[i..][1..] == ids[i + 1..];
        if visited.Err? {
          return Err(visited.error);
        }
      }
      return Ok(true);
    }

    // -------------------------------------------------------------- tasks

    method QueueTask(teamId: Id, memberId: Id, title: string, input: string, dependsOn: seq<Id>, parentId: Option<Id>)
      returns (r: Reply)
      modifies this
      ensures unchanged(`disk, `receipts)
      ensures match TeamModel.QueueTask(old(Contents()), teamId, memberId, title, input, dependsOn, parentId)
              case Ok((t, id)) => Contents() == t && r == Ok(Some(id))
              case Err(e) => r == Err(e)
    {
      hide EnsureRun, Enqueue, ValidateDependencies;
      if teamId !in teams {
        return Err(TeamNotFound);
      }
      if !HasMember(teams[teamId], memberId) {
        return Err(MemberNotFound);
      }
      var checked := Validate(teamId, dependsOn, None);
      if checked.Err? {
        return Err(checked.error);
      }
      if !Accepted(title, 200) || !Accepted(input, TEXT_LIMIT) {
        return Err(InvalidText);
      }
      var id := nextId;
      nextId := nextId + 1;
      tasks := tasks[id := Task(teamId, memberId, 1, dependsOn, TaskQueued, None)];
      var run := OpenRun(teamId);
      var queued := AddDispatch(run, memberId, parentId, Some(id), []);
      if queued.Err? {
        return Err(queued.error);
      }
      Log(teamId, TaskAdded, id);
      return Ok(Some(id));
    }

    method FinishTask(id: Id, report: Report) returns (r: Result<bool, Error>)
      modifies this`tasks, this`teams, this`events, this`sequence
      ensures match TeamModel.FinishTask(old(Contents()), id, report)
              case Ok(t) => Contents() == t && r == Ok(true)
              case Err(e) => Contents() == old(Contents()) && r == Err(e)
    {
      if id !in tasks {
        return Err(TaskNotFound);
      }
      var task := tasks[id];
      if task.status == TaskCancelled {
        return Ok(true);
      }
      if task.status != TaskRunning {
        return Err(TaskNotRunning);
      }
      if task.teamId !in teams {
        return Err(TeamNotFound);
      }
      var done := if report.Errored? then task.(status := TaskFailed, error := Some(report.error))
                  else task.(status := TaskSucceeded, error := None);
      tasks := tasks[id := done];
      SetMemberStatus(task.teamId, task.memberId, if report.Errored? then Faulted else Idle);
      Log(task.teamId, TaskFinished, id);
      return Ok(true);
    }

    /** The loop over the map of dispatches, in insertion order. */
    method StopDispatchesOf(taskId: Id)
      requires forall d :: d in dispatches ==> d < nextId
      modifies this`dispatches
      ensures dispatches == StoppedFor(old(dispatches), taskId)
    {
      for d := 0 to nextId
        invariant dispatches.Keys == old(dispatches).Keys
        invariant forall e :: e in dispatches ==>
                    dispatches[e] == if e < d then StoppedFor(old(dispatches), taskId)[e] else old(dispatches)[e]
      {
        if d in dispatches && dispatches[d].taskId == Some(taskId) && Active(dispatches[d].status) {
          dispatches := dispatches[d := dispatches[d].(status := Cancelled)];
        }
      }
      assert dispatches.Keys == StoppedFor(old(dispatches), taskId).Keys;
    }

    method CancelTask(teamId: Id, id: Id) returns (r: Reply)
      requires forall d :: d in dispatches ==> d < nextId
      modifies this
      ensures unchanged(`disk, `receipts)
      ensures unchanged(`nextId) && dispatches.Keys == old(dispatches).Keys
      ensures (Contents(), r) == Commit(old(Contents()), TeamModel.CancelTask(old(Contents()), teamId, id))
    {
      if id !in tasks || tasks[id].teamId != teamId {
        return Err(TaskNotFound);
      }
      var task := tasks[id];
      if !ActiveTask(task.status) {
        return Err(TaskNotCancellable);
      }
      if teamId !in teams {
        return Err(TeamNotFound);
      }
      tasks := tasks[id := task.(status := TaskCancelled)];
      StopDispatchesOf(id);
      if task.status == TaskRunning {
        SetMemberStatus(teamId, task.memberId, Idle);
      }
      Log(teamId, TaskStopped, id);
      return Ok(None);
    }

    method UpdateTask(teamId: Id, id: Id, version: nat, edit: TaskEdit, caller: Option<Id>) returns (r: Reply)
      modifies this
      ensures unchanged(`disk, `receipts)
      ensures (Contents(), r) ==
              Commit(old(Contents()), TeamModel.UpdateTask(old(Contents()), teamId, id, version, edit, caller))
    {
      hide ValidateDependencies, Accepted;
      if id !in tasks || tasks[id].teamId != teamId {
        return Err(TaskNotFound);
      }
      var task := tasks[id];
      if task.version != version {
        return Err(VersionConflict);
      }
      if edit.outcome.Some? && task.status != TaskRunning {
        return Err(TaskNotRunning);
      }
      if caller.Some? && task.memberId != caller.value {
        if teamId !in teams {
          return Err(TeamNotFound);
        }
        if !HasMember(teams[teamId], caller.value) {
          return Err(MemberNotFound);
        }
        if !IsLead(teams[teamId], caller.value) {
          return Err(TaskForbidden);
        }
      }
      if edit.dependsOn.Some? {
        var checked := Validate(teamId, edit.dependsOn.value, Some(id));
        if checked.Err? {
          return Err(checked.error);
        }
      }
      if task.status != TaskQueued && ((edit.input.Some? && edit.input.value != "") || edit.dependsOn.Some?) {
        return Err(TaskAlreadyStarted);
      }
      if (edit.title.Some? && !Accepted(edit.title.value, 200)) ||
         (edit.input.Some? && !Accepted(edit.input.value, TEXT_LIMIT))
      {
        return Err(InvalidText);
      }
      tasks := tasks[id := task.(version := task.version + 1,
                                 dependsOn := if edit.dependsOn.Some? then edit.dependsOn.value else task.dependsOn,
                                 status := if edit.outcome.Some? then StatusOf(edit.outcome.value) else task.status)];
      Log(teamId, TaskEdited, id);
      return Ok(None);
    }

    // -------------------------------------------------------------- messages

    /** One turn of the loop over recipients. */
    method DeliverTo(runId: Id, memberId: Id, messageId: Id, parentId: Option<Id>) returns (r: Result<bool, Error>)
      modifies this`dispatches, this`runs, this`events, this`sequence, this`nextId
      ensures match TeamModel.DeliverTo(old(Contents()), runId, memberId, messageId, parentId)
              case Ok(t) => Contents() == t && r == Ok(true)
              case Err(e) => r == Err(e)
    {
      var pending := FirstMailbox(dispatches, runId, memberId, 0, nextId);
      if pending.None? {
        r := AddDispatch(runId, memberId, parentId, None, [messageId]);
        return;
      }
      var known := pending.value in dispatches;
      var item := if known then Some(dispatches[pending.value]) else None;
      var linked := LinkParent(runId, memberId, parentId);
      if linked.Err? {
        return Err(linked.error);
      }
      if item.None? {
        return Err(DispatchNotFound);
      }
      var depth := if linked.value > item.value.depth then linked.value else item.value.depth;
      dispatches := dispatches[pending.value := item.value.(depth := depth,
                                                            messageIds := item.value.messageIds + [messageId])];
      return Ok(true);
    }

    method SendMessage(teamId: Id, from: Option<Id>, to: Option<Id>, body: string, parentId: Option<Id>)
      returns (r: Reply)
      modifies this
      ensures unchanged(`disk, `receipts)
      ensures match TeamModel.SendMessage(old(Contents()), teamId, from, to, body, parentId)
              case Ok((t, id)) => Contents() == t && r == Ok(Some(id))
              case Err(e) => r == Err(e)
    {
      hide EnsureRun, TeamModel.DeliverTo, Targets;
      if teamId !in teams {
        return Err(TeamNotFound);
      }
      var team := teams[teamId];
      if from.Some? && !HasMember(team, from.value) {
        return Err(MemberNotFound);
      }
      if to.Some? && !HasMember(team, to.value) {
        return Err(MemberNotFound);
      }
      if !Accepted(body, TEXT_LIMIT) {
        return Err(InvalidText);
      }
      var id := nextId;
      nextId := nextId + 1;
      messages := messages[id := Message(teamId, from, to, Trim(body), false)];
      var run := OpenRun(teamId);
      var targets := Targets(team, from, to);
      ghost var ready := Contents();
      for i := 0 to |targets|
        invariant unchanged(`disk, `receipts)
        invariant Deliver(ready, run, targets, id, parentId) == Deliver(Contents(), run, targets[i..], id, parentId)
      {
        var sent := DeliverTo(run, targets[i], id, parentId);
        assert targets[i..][1..] == targets[i + 1..];
        if sent.Err? {
          return Err(sent.error);
        }
      }
      Log(teamId, MailReceived, id);
      return Ok(Some(id));
    }

    // -------------------------------------------------------------- teams and members

    method Create(leadName: string) returns (r: Reply)
      modifies this
      ensures unchanged(`disk, `receipts)
      ensures (Contents(), r) == CommitNew(old(Contents()), Ok(CreateTeam(old(Contents()), leadName)))
    {
      var id := nextId;
      nextId := nextId + 2;
      teams := teams[id := Team(1, [Member(id + 1, leadName, Lead, Idle)])];
      Log(id, TeamCreated, id);
      return Ok(Some(id));
    }

    method Update(teamId: Id, version: nat, order: Option<seq<Id>>) returns (r: Reply)
      modifies this
      ensures unchanged(`disk, `receipts)
      ensures (Contents(), r) == Commit(old(Contents()), UpdateTeam(old(Contents()), teamId, version, order))
    {
      if teamId !in teams {
        return Err(TeamNotFound);
      }
      var team := teams[teamId];
      if team.version != version {
        return Err(VersionConflict);
      }
      if order.Some? && !ValidOrder(team, order.value) {
        return Err(InvalidMemberOrder);
      }
      var members := team.members;
      if order.Some? {
        members := Reordered(team.members, order.value);
      }
      teams := teams[teamId := Team(team.version + 1, members)];
      Log(teamId, TeamUpdated, teamId);
      return Ok(None);
    }

    method AddMember(teamId: Id, name: string) returns (r: Reply)
      modifies this
      ensures unchanged(`disk, `receipts)
      ensures (Contents(), r) == CommitNew(old(Contents()), TeamModel.AddMember(old(Contents()), teamId, name))
    {
      hide NameTaken;
      if teamId !in teams {
        return Err(TeamNotFound);
      }
      var team := teams[teamId];
      if NameTaken(team, name, None) {
        return Err(NameConflict);
      }
      var id := nextId;
      nextId := nextId + 1;
      teams := teams[teamId := Team(team.version + 1, team.members + [Member(id, name, Worker, Idle)])];
      Log(teamId, MemberAdded, id);
      return Ok(Some(id));
    }

    method UpdateMember(teamId: Id, memberId: Id, name: Option<string>) returns (r: Reply)
      modifies this
      ensures unchanged(`disk, `receipts)
      ensures (Contents(), r) == Commit(old(Contents()), TeamModel.UpdateMember(old(Contents()), teamId, memberId, name))
    {
      hide NameTaken, HasMember, IsBusy, Renamed;
      if teamId !in teams {
        return Err(TeamNotFound);
      }
      var team := teams[teamId];
      if !HasMember(team, memberId) {
        return Err(MemberNotFound);
      }
      if IsBusy(team, memberId) {
        return Err(MemberBusy);
      }
      if name.Some? && NameTaken(team, name.value, Some(memberId)) {
        return Err(NameConflict);
      }
      var members := if name.Some? then Renamed(team.members, memberId, name.value) else team.members;
      teams := teams[teamId := Team(team.version + 1, members)];
      Log(teamId, TeamUpdated, memberId);
      return Ok(None);
    }

    method RemoveMember(teamId: Id, memberId: Id) returns (r: Reply)
      modifies this
      ensures unchanged(`disk, `receipts)
      ensures (Contents(), r) == Commit(old(Contents()), TeamModel.RemoveMember(old(Contents()), teamId, memberId))
    {
      hide HasMember, IsLead, IsBusy, HasActiveWork, Without;
      if teamId !in teams {
        return Err(TeamNotFound);
      }
      var team := teams[teamId];
      if !HasMember(team, memberId) {
        return Err(MemberNotFound);
      }
      if IsLead(team, memberId) {
        return Err(LeadCannotBeRemoved);
      }
      if IsBusy(team, memberId) || HasActiveWork(Contents(), memberId) {
        return Err(MemberBusy);
      }
      teams := teams[teamId := Team(team.version + 1, Without(team.members, memberId))];
      Log(teamId, MemberRemoved, memberId);
      return Ok(None);
    }

    /** Splices a team's events out, from the last to the first, but for the notice of its removal. */
    method DropEvents(teamId: Id)
      modifies this`events
      ensures events == RetainedEvents(old(events), teamId)
    {
      var index := |events|;
      assert events[..index] == events;
      while index > 0
        invariant 0 <= index <= |old(events)|
        invariant index <= |events| && events[..index] == old(events)[..index]
        invariant RetainedEvents(old(events), teamId) ==
                  RetainedEvents(old(events)[..index], teamId) + events[index..]
      {
        index := index - 1;
        ghost var kept := events;
        assert old(events)[..index + 1][..index] == old(events)[..index];
        assert kept[index] == old(events)[index];
        if events[index].teamId == teamId && events[index].kind != TeamRemoved {
          events := events[..index] + events[index + 1..];
          assert events[index..] == kept[index + 1..];
        } else {
          assert kept[index..] == [kept[index]] + kept[index + 1..];
        }
      }
    }

    static predicate TeamIsActive(dispatches: map<Id, Dispatch>, tasks: map<Id, Task>, teamId: Id) {
      (exists d :: d in dispatches && dispatches[d].teamId == teamId && Active(dispatches[d].status)) ||
      exists t :: t in tasks && tasks[t].teamId == teamId && ActiveTask(tasks[t].status)
    }

    method Delete(teamId: Id) returns (r: Reply)
      requires forall k :: k in runs || k in dispatches || k in tasks || k in messages ==> k < nextId
      modifies this
      ensures disk == old(disk)
      ensures (Contents(), r) == Commit(old(Contents()), DeleteTeam(old(Contents()), teamId))
      ensures receipts == if r.Ok? then WithoutTeam(old(receipts), teamId) else old(receipts)
    {
      hide DeleteTeam, TeamIsActive;
      DeleteRefused(Contents(), teamId);
      if teamId !in teams {
        return Err(TeamNotFound);
      }
      if TeamIsActive(dispatches, tasks, teamId) {
        return Err(TeamHasActiveTask);
      }
      Erase(teamId);
      return Ok(None);
    }

    method Erase(teamId: Id)
      requires DeleteTeam(Contents(), teamId).Ok?
      requires forall k :: k in runs || k in dispatches || k in tasks || k in messages ==> k < nextId
      modifies this
      ensures disk == old(disk) && receipts == WithoutTeam(old(receipts), teamId)
      ensures DeleteTeam(old(Contents()), teamId) == Ok(Contents())
    {
      hide RetainedEvents, DeleteTeam, WithoutTeam;
      ghost var s := Contents();
      Log(teamId, TeamRemoved, teamId);
      teams := teams - {teamId};
      DropRecords(teamId);
      receipts := WithoutTeam(receipts, teamId);
      DropEvents(teamId);
      DeletedRecords(s, Contents(), teamId);
    }

    method DropRecords(teamId: Id)
      requires forall k :: k in runs || k in dispatches || k in tasks || k in messages ==> k < nextId
      modifies this`runs, this`dispatches, this`tasks, this`messages
      ensures runs == map k | k in old(runs) && old(runs)[k].teamId != teamId :: old(runs)[k]
      ensures dispatches == map k | k in old(dispatches) && old(dispatches)[k].teamId != teamId :: old(dispatches)[k]
      ensures tasks == map k | k in old(tasks) && old(tasks)[k].teamId != teamId :: old(tasks)[k]
      ensures messages == map k | k in old(messages) && old(messages)[k].teamId != teamId :: old(messages)[k]
    {
      DropRuns(teamId);
      DropDispatches(teamId);
      DropTasks(teamId);
      DropMessages(teamId);
    }

    lemma DeletedRecords(s: State, t: State, teamId: Id)
      requires DeleteTeam(s, teamId).Ok?
      requires t.teams == s.teams - {teamId}
      requires t.runs == map k | k in s.runs && s.runs[k].teamId != teamId :: s.runs[k]
      requires t.dispatches == map k | k in s.dispatches && s.dispatches[k].teamId != teamId :: s.dispatches[k]
      requires t.tasks == map k | k in s.tasks && s.tasks[k].teamId != teamId :: s.tasks[k]
      requires t.messages == map k | k in s.messages && s.messages[k].teamId != teamId :: s.messages[k]
      requires t.events == RetainedEvents(Emit(s, teamId, TeamRemoved, teamId).events, teamId)
      requires t.sequence == s.sequence + 1 && t.reconciled == s.reconciled && t.nextId == s.nextId
      ensures DeleteTeam(s, teamId) == Ok(t)
    {
      hide RetainedEvents;
      var deleted := DeleteTeam(s, teamId).value;
      assert t.teams == deleted.teams && t.runs == deleted.runs && t.dispatches == deleted.dispatches;
      assert t.tasks == deleted.tasks && t.messages == deleted.messages;
    }

    lemma DeleteRefused(s: State, teamId: Id)
      ensures teamId !in s.teams ==> DeleteTeam(s, teamId) == Err(TeamNotFound)
      ensures teamId in s.teams ==>
                DeleteTeam(s, teamId) ==
                if TeamIsActive(s.dispatches, s.tasks, teamId) then Err(TeamHasActiveTask)
                else Ok(DeleteTeam(s, teamId).value)
    {
      hide RetainedEvents;
    }

    method DropRuns(teamId: Id)
      requires forall k :: k in runs ==> k < nextId
      modifies this`runs
      ensures runs == map k | k in old(runs) && old(runs)[k].teamId != teamId :: old(runs)[k]
    {
      for id := 0 to nextId
        invariant runs == map k | k in old(runs) && (k >= id || old(runs)[k].teamId != teamId) :: old(runs)[k]
      {
        if id in runs && runs[id].teamId == teamId {
          runs := runs - {id};
        }
      }
    }

    method DropDispatches(teamId: Id)
      requires forall k :: k in dispatches ==> k < nextId
      modifies this`dispatches
      ensures dispatches == map k | k in old(dispatches) && old(dispatches)[k].teamId != teamId :: old(dispatches)[k]
    {
      for id := 0 to nextId
        invariant dispatches == map k | k in old(dispatches) && (k >= id || old(dispatches)[k].teamId != teamId) :: old(dispatches)[k]
      {
        if id in dispatches && dispatches[id].teamId == teamId {
          dispatches := dispatches - {id};
        }
      }
    }

    method DropTasks(teamId: Id)
      requires forall k :: k in tasks ==> k < nextId
      modifies this`tasks
      ensures tasks == map k | k in old(tasks) && old(tasks)[k].teamId != teamId :: old(tasks)[k]
    {
      for id := 0 to nextId
        invariant tasks == map k | k in old(tasks) && (k >= id || old(tasks)[k].teamId != teamId) :: old(tasks)[k]
      {
        if id in tasks && tasks[id].teamId == teamId {
          tasks := tasks - {id};
        }
      }
    }

    method DropMessages(teamId: Id)
      requires forall k :: k in messages ==> k < nextId
      modifies this`messages
      ensures messages == map k | k in old(messages) && old(messages)[k].teamId != teamId :: old(messages)[k]
    {
      for id := 0 to nextId
        invariant messages == map k | k in old(messages) && (k >= id || old(messages)[k].teamId != teamId) :: old(messages)[k]
      {
        if id in messages && messages[id].teamId == teamId {
          messages := messages - {id};
        }
      }
    }

    // -------------------------------------------------------------- runs

    method StartRun(teamId: Id, input: string, memberId: Option<Id>) returns (r: Reply)
      modifies this
      ensures unchanged(`disk, `receipts)
      ensures match TeamModel.StartRun(old(Contents()), teamId, input, memberId)
              case Ok((t, id)) => Contents() == t && r == Ok(Some(id))
              case Err(e) => r == Err(e)
    {
      hide EnsureRun, Enqueue, HasMember, LeadOf;
      if Trim(input) == "" || |input| > TEXT_LIMIT {
        return Err(InvalidText);
      }
      if teamId !in teams {
        return Err(TeamNotFound);
      }
      var target := if memberId.Some? then memberId else LeadOf(teams[teamId].members);
      if target.None? || !HasMember(teams[teamId], target.value) {
        return Err(MemberNotFound);
      }
      var run := OpenRun(teamId);
      if run !in runs || runs[run].status != RunRunning {
        return Err(RunRequiresResume);
      }
      var queued := AddDispatch(run, target.value, None, None, []);
      if queued.Err? {
        return Err(queued.error);
      }
      return Ok(Some(run));
    }

    method CancelItem(runId: Id, id: Id) returns (r: Result<bool, Error>)
      requires forall d :: d in dispatches ==> d < nextId
      modifies this
      ensures unchanged(`disk, `receipts, `nextId) && dispatches.Keys == old(dispatches).Keys
      ensures match TeamModel.CancelItem(old(Contents()), runId, id)
              case Ok(t) => Contents() == t && r == Ok(true)
              case Err(e) => r == Err(e)
    {
      hide TeamModel.CancelTask, SetMember;
      if id !in dispatches || dispatches[id].runId != runId || !Active(dispatches[id].status) {
        return Ok(true);
      }
      var item := dispatches[id];
      dispatches := dispatches[id := item.(status := Cancelled)];
      if item.taskId.Some? && item.taskId.value !in tasks {
        return Err(TaskNotFound);
      }
      if item.taskId.Some? && ActiveTask(tasks[item.taskId.value].status) {
        var cancelled := CancelTask(item.teamId, item.taskId.value);
        if cancelled.Err? {
          return Err(cancelled.error);
        }
      }
      if item.teamId !in teams {
        return Err(TeamNotFound);
      }
      SetMemberStatus(item.teamId, item.memberId, Idle);
      return Ok(true);
    }

    method Rebase(runId: Id)
      requires forall d :: d in dispatches ==> d < nextId
      modifies this`dispatches
      ensures dispatches == RebasedAll(old(dispatches), runId)
    {
      for d := 0 to nextId
        invariant dispatches ==
                  map e | e in old(dispatches) :: if e < d then Rebased(old(dispatches)[e], runId) else old(dispatches)[e]
      {
        if d in dispatches && dispatches[d].runId == runId && dispatches[d].status == Queued {
          dispatches := dispatches[d := dispatches[d].(depth := 0, parentId := None)];
        }
      }
    }

    method CancelRun(runId: Id) returns (r: Result<bool, Error>)
      requires forall d :: d in dispatches ==> d < nextId
      modifies this
      ensures unchanged(`disk, `receipts)
      ensures match CancelItems(old(Contents()), runId, 0, old(nextId))
              case Ok(t) => Contents() == t && r == Ok(true)
              case Err(e) => r == Err(e)
    {
      hide TeamModel.CancelItem;
      for d := 0 to nextId
        invariant unchanged(`disk, `receipts, `nextId) && dispatches.Keys == old(dispatches).Keys
        invariant forall e :: e in dispatches ==> e in dispatches.Keys
        invariant CancelItems(old(Contents()), runId, 0, old(nextId)) == CancelItems(Contents(), runId, d, old(nextId))
      {
        r := CancelItem(runId, d);
        if r.Err? {
          return;
        }
      }
      return Ok(true);
    }

    ghost predicate Controllable(teamId: Id, runId: Id)
      reads this
    {
      runId in runs && runs[runId].teamId == teamId && Unfinished(runs[runId].status) &&
      forall d :: d in dispatches ==> d < nextId
    }

    method CancelWhole(teamId: Id, runId: Id) returns (r: Reply)
      requires Controllable(teamId, runId)
      modifies this
      ensures unchanged(`disk, `receipts)
      ensures match TeamModel.ControlRun(old(Contents()), teamId, runId, Cancel)
              case Ok(t) => Contents() == t && r == Ok(None)
              case Err(e) => r == Err(e)
    {
      hide CancelItems;
      runs := runs[runId := runs[runId].(status := RunCancelled, reason := NoReason)];
      var cancelled := CancelRun(runId);
      if cancelled.Err? {
        return Err(cancelled.error);
      }
      Log(teamId, RunUpdated, runId);
      return Ok(None);
    }

    method Resume(teamId: Id, runId: Id) returns (r: Reply)
      requires Controllable(teamId, runId)
      modifies this
      ensures unchanged(`disk, `receipts)
      ensures match TeamModel.ControlRun(old(Contents()), teamId, runId, Action.Resume)
              case Ok(t) => Contents() == t && r == Ok(None)
              case Err(e) => r == Err(e)
    {
      hide Enqueue, LeadOf, RebasedAll;
      var run := runs[runId];
      runs := runs[runId := Run(teamId, RunRunning, run.segment + 1, 0, 0, NoReason)];
      Rebase(runId);
      if run.status == RunInterrupted || run.reason == DependencyFailed {
        if teamId !in teams {
          return Err(TeamNotFound);
        }
        var lead := LeadOf(teams[teamId].members);
        if lead.None? {
          return Err(MemberNotFound);
        }
        var queued := AddDispatch(runId, lead.value, None, None, []);
        if queued.Err? {
          return Err(queued.error);
        }
      }
      Log(teamId, RunUpdated, runId);
      return Ok(None);
    }

    method ControlRun(teamId: Id, runId: Id, action: Action) returns (r: Reply)
      requires forall d :: d in dispatches ==> d < nextId
      modifies this
      ensures unchanged(`disk, `receipts)
      ensures match TeamModel.ControlRun(old(Contents()), teamId, runId, action)
              case Ok(t) => Contents() == t && r == Ok(None)
              case Err(e) => r == Err(e)
    {
      if runId !in runs || runs[runId].teamId != teamId {
        return Err(RunNotFound);
      }
      if !Unfinished(runs[runId].status) {
        return Err(RunFinished);
      }
      match action {
        case Pause =>
          runs := runs[runId := runs[runId].(status := RunPaused, reason := NoReason)];
          Log(teamId, RunUpdated, runId);
          return Ok(None);
        case Cancel =>
          r := CancelWhole(teamId, runId);
        case Resume =>
          r := Resume(teamId, runId);
      }
    }

    method Recruit(teamId: Id, parentId: Id, name: string) returns (r: Reply)
      modifies this
      ensures unchanged(`disk, `receipts)
      ensures match TeamModel.Recruit(old(Contents()), teamId, parentId, name)
              case Ok((t, id)) => Contents() == t && r == Ok(Some(id))
              case Err(e) => r == Err(e)
    {
      hide NameTaken;
      if parentId !in dispatches || dispatches[parentId].teamId != teamId || dispatches[parentId].status != Running {
        return Err(DispatchExpired);
      }
      var runId := dispatches[parentId].runId;
      if runId !in runs {
        return Err(RunNotFound);
      }
      var run := runs[runId];
      if run.status != RunRunning {
        return Err(RunNotRunning);
      }
      if run.recruitedCount >= MAX_RECRUITED {
        return Err(RecruitLimitReached);
      }
      r := AddMember(teamId, name);
      if r.Err? {
        return;
      }
      var counted := run.(recruitedCount := run.recruitedCount + 1);
      if run.recruitedCount + 1 >= MAX_RECRUITED {
        counted := counted.(status := RunPausedLimit, reason := RecruitLimit);
      }
      runs := runs[runId := counted];
      Log(teamId, RunUpdated, runId);
    }

    method PauseBlockedRuns()
      modifies this
      ensures unchanged(`disk, `receipts)
      ensures Contents() == PauseBlocked(old(Contents()), 0, old(nextId))
    {
      hide Blocked;
      for run := 0 to nextId
        invariant unchanged(`disk, `receipts, `nextId)
        invariant PauseBlocked(old(Contents()), 0, old(nextId)) == PauseBlocked(Contents(), run, old(nextId))
      {
        if IsBlocked(run) {
          runs := runs[run := runs[run].(status := RunPaused, reason := DependencyFailed)];
          Log(runs[run].teamId, RunUpdated, run);
        }
      }
    }

    predicate IsBlocked(run: Id)
      reads this
      ensures IsBlocked(run) == Blocked(Contents(), run)
      ensures IsBlocked(run) ==> run in runs
    {
      Blocked(Contents(), run)
    }

    // -------------------------------------------------------------- dispatches

    method BeginTask(id: Id) returns (r: Result<bool, Error>)
      modifies this
      ensures unchanged(`disk, `receipts)
      ensures match TeamModel.BeginTask(old(Contents()), id)
              case Ok(t) => Contents() == t && r == Ok(true)
              case Err(e) => Contents() == old(Contents()) && r == Err(e)
    {
      hide HasMember, IsBusy, SetMember;
      if id !in tasks {
        return Err(TaskNotFound);
      }
      var task := tasks[id];
      if task.status != TaskQueued {
        return Err(TaskNotQueued);
      }
      if task.teamId !in teams {
        return Err(TeamNotFound);
      }
      if !HasMember(teams[task.teamId], task.memberId) {
        return Err(MemberNotFound);
      }
      if exists i :: 0 <= i < |task.dependsOn| &&
                     !(task.dependsOn[i] in tasks && tasks[task.dependsOn[i]].status == TaskSucceeded)
      {
        return Err(TaskBlocked);
      }
      if IsBusy(teams[task.teamId], task.memberId) {
        return Err(MemberBusy);
      }
      tasks := tasks[id := task.(status := TaskRunning)];
      SetMemberStatus(task.teamId, task.memberId, Busy);
      Log(task.teamId, TaskStarted, id);
      return Ok(true);
    }

    method BeginDispatch(id: Id) returns (r: Reply)
      modifies this
      ensures unchanged(`disk, `receipts)
      ensures (Contents(), r) == Apply(old(Contents()), Begin(id))
    {
      hide HasMember, IsBusy, TeamModel.BeginTask, SetMember, RunningIn;
      if id !in dispatches {
        return Err(DispatchNotFound);
      }
      var item := dispatches[id];
      if item.runId !in runs {
        return Err(RunNotFound);
      }
      var run := runs[item.runId];
      if item.status != Queued || run.status != RunRunning {
        return Err(DispatchNotReady);
      }
      if item.teamId !in teams {
        return Err(TeamNotFound);
      }
      if !HasMember(teams[item.teamId], item.memberId) {
        return Err(MemberNotFound);
      }
      if IsBusy(teams[item.teamId], item.memberId) || |RunningIn(dispatches, item.runId)| >= MAX_CONCURRENT {
        return Err(MemberBusy);
      }
      if run.dispatchCount >= MAX_DISPATCHES || item.depth > MAX_DEPTH {
        var reason := if run.dispatchCount >= MAX_DISPATCHES then DispatchBudget else DepthLimit;
        runs := runs[item.runId := run.(status := RunPausedLimit, reason := reason)];
        Log(item.teamId, RunUpdated, item.runId);
        return Err(RunLimitReached);
      }
      if item.taskId.Some? {
        var begun := BeginTask(item.taskId.value);
        if begun.Err? {
          return Err(begun.error);
        }
      } else {
        SetMemberStatus(item.teamId, item.memberId, Busy);
      }
      runs := runs[item.runId := run.(dispatchCount := run.dispatchCount + 1)];
      dispatches := dispatches[id := item.(status := Running)];
      Log(item.teamId, DispatchUpdated, id);
      return Ok(None);
    }

    method SubmittedDispatch(id: Id)
      requires id in dispatches ==> forall i :: 0 <= i < |dispatches[id].messageIds| ==> dispatches[id].messageIds[i] in messages
      modifies this
      ensures unchanged(`disk, `receipts)
      ensures Contents() == SubmitDispatch(old(Contents()), id)
    {
      if id !in dispatches || dispatches[id].status != Running {
        return;
      }
      var item := dispatches[id];
      dispatches := dispatches[id := item.(submitted := true)];
      for i := 0 to |item.messageIds|
        invariant Contents() == old(Contents()).(dispatches := dispatches, messages := messages)
        invariant unchanged(`disk, `receipts)
        invariant dispatches == old(dispatches)[id := item.(submitted := true)]
        invariant messages == map m | m in old(messages) ::
                    if m in item.messageIds[..i] then old(messages)[m].(read := true) else old(messages)[m]
      {
        var messageId := item.messageIds[i];
        assert item.messageIds[..i + 1] == item.messageIds[..i] + [messageId];
        messages := messages[messageId := messages[messageId].(read := true)];
      }
      assert item.messageIds[..|item.messageIds|] == item.messageIds;
    }

    method DeferDispatch(id: Id) returns (r: Reply)
      modifies this
      ensures unchanged(`disk, `receipts)
      ensures match TeamModel.DeferDispatch(old(Contents()), id)
              case Ok(t) => Contents() == t && r == Ok(None)
              case Err(e) => Contents() == old(Contents()) && r == Err(e)
    {
      hide SetMember;
      if id !in dispatches {
        return Err(DispatchNotFound);
      }
      var item := dispatches[id];
      if item.status != Running || item.submitted {
        return Ok(None);
      }
      if item.runId !in runs {
        return Err(RunNotFound);
      }
      if item.taskId.Some? && item.taskId.value !in tasks {
        return Err(TaskNotFound);
      }
      if item.teamId !in teams {
        return Err(TeamNotFound);
      }
      var run := runs[item.runId];
      dispatches := dispatches[id := item.(status := Queued)];
      runs := runs[item.runId := run.(dispatchCount := if run.dispatchCount == 0 then 0 else run.dispatchCount - 1)];
      if item.taskId.Some? {
        tasks := tasks[item.taskId.value := tasks[item.taskId.value].(status := TaskQueued)];
      }
      SetMemberStatus(item.teamId, item.memberId, Idle);
      return Ok(None);
    }

    method SettleDispatch(id: Id, report: Report) returns (r: Result<bool, Error>)
      requires id in dispatches
      modifies this
      ensures unchanged(`disk, `receipts)
      ensures match Settle(old(Contents()), id, report)
              case Ok(t) => Contents() == t && r == Ok(true)
              case Err(e) => r == Err(e)
    {
      hide TeamModel.FinishTask, SetMember;
      var item := dispatches[id];
      dispatches := dispatches[id := item.(status := if report.Errored? then Failed else Succeeded)];
      if item.taskId.Some? && item.taskId.value !in tasks {
        return Err(TaskNotFound);
      }
      if item.taskId.Some? && tasks[item.taskId.value].status == TaskRunning {
        r := FinishTask(item.taskId.value, report);
        return;
      }
      if item.teamId !in teams {
        return Err(TeamNotFound);
      }
      SetMemberStatus(item.teamId, item.memberId, if report.Errored? then Faulted else Idle);
      return Ok(true);
    }

    /** Tells the lead how a member's turn ended, or ends the run with the lead's own turn. */
    method Conclude(id: Id, item: Dispatch, run: Run, report: Report) returns (r: Result<bool, Error>)
      modifies this
      ensures unchanged(`disk, `receipts)
      ensures match ReportToLead(old(Contents()), id, item, run, report)
              case Ok(t) => Contents() == t && r == Ok(true)
              case Err(e) => r == Err(e)
    {
      hide TeamModel.SendMessage, Outstanding, LeadOf, ReportBody;
      if item.teamId !in teams {
        return Err(TeamNotFound);
      }
      var lead := LeadOf(teams[item.teamId].members);
      if lead.None? {
        return Err(MemberNotFound);
      }
      if lead.value != item.memberId {
        var sent := SendMessage(item.teamId, Some(item.memberId), lead, ReportBody(report), Some(id));
        return if sent.Ok? then Ok(true) else Err(sent.error);
      }
      if !Outstanding(dispatches, item.runId) {
        runs := runs[item.runId := if report.Errored? then run.(status := RunInterrupted, reason := LeadFailed)
                                   else run.(status := RunCompleted, reason := NoReason)];
      }
      return Ok(true);
    }

    method FinishDispatch(id: Id, report: Report) returns (r: Reply)
      modifies this
      ensures unchanged(`disk, `receipts)
      ensures match TeamModel.FinishDispatch(old(Contents()), id, report)
              case Ok(t) => Contents() == t && r == Ok(None)
              case Err(e) => r == Err(e)
    {
      hide Settle, ReportToLead;
      if id !in dispatches {
        return Err(DispatchNotFound);
      }
      var item := dispatches[id];
      if item.status != Running {
        return Ok(None);
      }
      var settled := SettleDispatch(id, report);
      if settled.Err? {
        return Err(settled.error);
      }
      if item.runId !in runs {
        return Err(RunNotFound);
      }
      var run := runs[item.runId];
      if Unfinished(run.status) && run.status != RunInterrupted {
        var told := Conclude(id, item, run, report);
        if told.Err? {
          return Err(told.error);
        }
      }
      Log(item.teamId, DispatchUpdated, id);
      Log(item.teamId, RunUpdated, item.runId);
      return Ok(None);
    }

    method AcknowledgeExecution(id: Id) returns (r: Reply)
      modifies this
      ensures unchanged(`disk, `receipts)
      ensures (Contents(), r) == Commit(old(Contents()), Acknowledge(old(Contents()), id))
    {
      if id in dispatches && dispatches[id].status == Interrupted {
        reconciled := reconciled + {id};
        return Ok(None);
      }
      if id !in tasks {
        return Err(TaskNotFound);
      }
      if tasks[id].status != TaskFailed || tasks[id].error != Some(RESTARTED_TEXT) {
        return Err(TaskNotInterrupted);
      }
      reconciled := reconciled + {id};
      return Ok(None);
    }

    // -------------------------------------------------------------- restart

    /** Opens the store on the document that was last saved. */
    constructor (document: Ledger)
      requires Loadable(document.state)
      ensures Good() && receipts == document.receipts && Restart(document.state) == Ok(Contents())
    {
      hide Repaired, Restart, Valid, Loadable, WasInterrupted, NeedsAdoption, Adopt;
      var doc := document.state;
      teams, tasks, messages, runs, dispatches := doc.teams, doc.tasks, doc.messages, doc.runs, doc.dispatches;
      events, sequence, reconciled, nextId := doc.events, doc.sequence, doc.reconciled, doc.nextId;
      receipts, disk := document.receipts, document;
      new;
      LoadableBounds(doc);
      RestartValid(doc);
      var interrupted := Repair(doc);
      RestartIdempotent(doc);
      InterruptedHere(doc);
      assert forall t :: t in tasks ==> t in tasks.Keys;
      var adopted := AdoptQueued();
      RestartedHere(doc, Contents());
      if interrupted || adopted {
        IdleMembers();
        Save();
        ValidIsLoadable(Contents());
      }
    }

    method Repair(ghost doc: State) returns (interrupted: bool)
      requires Contents() == doc && Loadable(doc)
      modifies this
      ensures unchanged(`disk, `receipts) && Contents() == Repaired(doc) && interrupted == WasInterrupted(doc)
    {
      hide Repaired, Restart, Loadable, WasInterrupted, RunsAfter, DispatchesAfter, RanBefore, TasksAfter, TaskRan;
      hide WithoutFinished, MaxSequence, Valid, ValidWhile, AdoptionFrame, RestartTeams, Adopt;
      LoadableBounds(doc);
      RestartValid(doc);
      var ran := InterruptDispatches(doc);
      var failed := FailTasks(doc);
      NextDispatch(doc, doc.nextId);
      CloseFinished();
      CountEvents();
      RepairedHere(doc, Contents());
      InterruptedHere(doc);
      return ran || failed;
    }

    static lemma LoadableBounds(doc: State)
      requires Loadable(doc)
      ensures forall k :: k in doc.dispatches.Keys || k in doc.tasks.Keys || k in doc.runs || k in doc.teams ==>
                k < doc.nextId
      ensures forall d :: d in doc.dispatches ==> doc.dispatches[d].runId in doc.runs
    {
      hide GraphOk, RunsOk, LinksOk;
    }

    static lemma InterruptedHere(doc: State)
      requires Restart(doc).Ok? && forall d :: d in doc.dispatches ==> d < doc.nextId
      ensures Adopt(Repaired(doc), 0, doc.nextId).Ok? && Repaired(doc).nextId == doc.nextId
      ensures Repaired(doc).tasks.Keys == doc.tasks.Keys
      ensures WasInterrupted(doc) <==>
                RanBefore(doc, doc.nextId) || TaskRan(doc)
    {
    }

    static ghost predicate TaskRan(doc: State) {
      exists t :: t in doc.tasks && doc.tasks[t].status == TaskRunning
    }

    static ghost function TasksAfter(doc: State): map<Id, Task> {
      map t | t in doc.tasks :: RecoverTask(doc.tasks[t])
    }

    static ghost function WithoutFinished(dispatches: map<Id, Dispatch>, tasks: map<Id, Task>): (left: map<Id, Dispatch>)
      ensures left.Keys == dispatches.Keys
    {
      map d | d in dispatches :: DropFinished(dispatches[d], tasks)
    }

    static ghost predicate RanBefore(doc: State, bound: nat) {
      exists d :: d in doc.dispatches && d < bound && doc.dispatches[d].status == Running
    }

    static ghost function RunsAfter(doc: State, bound: nat): map<Id, Run> {
      map r | r in doc.runs ::
        RecoverRun(doc.runs[r], exists d :: d in doc.dispatches && d < bound && doc.dispatches[d].runId == r &&
                                            doc.dispatches[d].status == Running)
    }

    static ghost function DispatchesAfter(doc: State, bound: nat): map<Id, Dispatch> {
      map d | d in doc.dispatches :: if d < bound then RecoverDispatch(doc.dispatches[d]) else doc.dispatches[d]
    }

    /** The first loop of the constructor: running dispatches were interrupted, and so were their runs. */
    method InterruptDispatches(ghost doc: State) returns (found: bool)
      requires Contents() == doc
      requires forall d :: d in dispatches.Keys ==> d < nextId && dispatches[d].runId in runs
      modifies this`dispatches, this`runs
      ensures dispatches == DispatchesAfter(doc, nextId) && runs == RunsAfter(doc, nextId)
      ensures found <==> RanBefore(doc, nextId)
    {
      hide RunsAfter, DispatchesAfter, RanBefore;
      found := false;
      NoneYet(doc);
      for d := 0 to nextId
        invariant dispatches == DispatchesAfter(doc, d) && runs == RunsAfter(doc, d)
        invariant found <==> RanBefore(doc, d)
      {
        NextDispatch(doc, d);
        if d in dispatches && dispatches[d].status == Running {
          found := true;
          var item := dispatches[d];
          dispatches := dispatches[d := item.(status := Interrupted)];
          runs := runs[item.runId := runs[item.runId].(status := RunInterrupted, reason := Restarted)];
          InterruptedAlso(doc, d);
        } else {
          NoneInterrupted(doc, d);
        }
      }
    }

    static lemma NoneYet(doc: State)
      ensures DispatchesAfter(doc, 0) == doc.dispatches && RunsAfter(doc, 0) == doc.runs && !RanBefore(doc, 0)
    {
    }

    static lemma NextDispatch(doc: State, d: Id)
      ensures DispatchesAfter(doc, d).Keys == doc.dispatches.Keys && RunsAfter(doc, d).Keys == doc.runs.Keys
      ensures d in doc.dispatches ==> DispatchesAfter(doc, d)[d] == doc.dispatches[d]
      ensures d in doc.dispatches && doc.dispatches[d].status == Running ==>
                DispatchesAfter(doc, d + 1) ==
                DispatchesAfter(doc, d)[d := doc.dispatches[d].(status := Interrupted)]
      ensures d !in doc.dispatches || doc.dispatches[d].status != Running ==>
                DispatchesAfter(doc, d + 1) == DispatchesAfter(doc, d)
      ensures RanBefore(doc, d + 1) <==>
                RanBefore(doc, d) || (d in doc.dispatches && doc.dispatches[d].status == Running)
    {
      if RanBefore(doc, d) {
        var e :| e in doc.dispatches && e < d && doc.dispatches[e].status == Running;
        assert e < d + 1;
      }
    }

    static lemma NoneInterrupted(doc: State, d: Id)
      requires d !in doc.dispatches || doc.dispatches[d].status != Running
      ensures RunsAfter(doc, d + 1) == RunsAfter(doc, d)
    {
      forall r | r in doc.runs ensures RunsAfter(doc, d + 1)[r] == RunsAfter(doc, d)[r] {
        if exists e :: e in doc.dispatches && e < d + 1 && doc.dispatches[e].runId == r && doc.dispatches[e].status == Running {
          var e :| e in doc.dispatches && e < d + 1 && doc.dispatches[e].runId == r && doc.dispatches[e].status == Running;
          assert e < d;
        }
      }
    }

    static lemma InterruptedAlso(doc: State, d: Id)
      requires d in doc.dispatches && doc.dispatches[d].status == Running && doc.dispatches[d].runId in doc.runs
      ensures var r := doc.dispatches[d].runId;
              RunsAfter(doc, d + 1) ==
              RunsAfter(doc, d)[r := RunsAfter(doc, d)[r].(status := RunInterrupted, reason := Restarted)]
    {
      forall r | r in doc.runs && r != doc.dispatches[d].runId ensures RunsAfter(doc, d + 1)[r] == RunsAfter(doc, d)[r] {
        if exists e :: e in doc.dispatches && e < d + 1 && doc.dispatches[e].runId == r && doc.dispatches[e].status == Running {
          var e :| e in doc.dispatches && e < d + 1 && doc.dispatches[e].runId == r && doc.dispatches[e].status == Running;
          assert e < d;
        }
      }
    }

    /** The second loop: running tasks have failed. */
    method FailTasks(ghost doc: State) returns (found: bool)
      requires tasks == doc.tasks && forall t :: t in tasks ==> t < nextId
      modifies this`tasks
      ensures tasks == TasksAfter(doc)
      ensures found <==> TaskRan(doc)
    {
      found := false;
      for t := 0 to nextId
        invariant tasks == map e | e in doc.tasks :: if e < t then RecoverTask(doc.tasks[e]) else doc.tasks[e]
        invariant found <==> exists e :: e in doc.tasks && e < t && doc.tasks[e].status == TaskRunning
      {
        if t in tasks && tasks[t].status == TaskRunning {
          found := true;
          tasks := tasks[t := tasks[t].(status := TaskFailed, error := Some(RESTARTED_TEXT))];
        }
      }
    }

    /** The third loop: dispatches left in the queue for a task that is over are cancelled. */
    method CloseFinished()
      requires forall d :: d in dispatches.Keys ==> d < nextId
      modifies this`dispatches
      ensures dispatches == WithoutFinished(old(dispatches), tasks)
    {
      for d := 0 to nextId
        invariant dispatches == map e | e in old(dispatches) ::
                                  if e < d then DropFinished(old(dispatches)[e], tasks) else old(dispatches)[e]
      {
        if d in dispatches && dispatches[d].status == Queued && dispatches[d].taskId.Some? &&
           dispatches[d].taskId.value in tasks && !ActiveTask(tasks[dispatches[d].taskId.value].status)
        {
          dispatches := dispatches[d := dispatches[d].(status := Cancelled)];
        }
      }
    }

    method CountEvents()
      modifies this`sequence
      ensures sequence == MaxSequence(events, old(sequence))
    {
      var i := |events|;
      while i > 0
        invariant 0 <= i <= |events| && sequence == MaxSequence(events[i..], old(sequence))
      {
        i := i - 1;
        assert events[i..][1..] == events[i + 1..];
        if events[i].sequence > sequence {
          sequence := events[i].sequence;
        }
      }
    }

    static lemma RepairedHere(doc: State, s: State)
      requires s.tasks == TasksAfter(doc)
      requires s.runs == RunsAfter(doc, doc.nextId) && forall d :: d in doc.dispatches ==> d < doc.nextId
      requires s.dispatches == WithoutFinished(DispatchesAfter(doc, doc.nextId), s.tasks)
      requires s == doc.(tasks := s.tasks, runs := s.runs, dispatches := s.dispatches,
                         sequence := MaxSequence(doc.events, doc.sequence))
      ensures s == Repaired(doc)
    {
      forall r | r in doc.runs ensures s.runs[r] == Repaired(doc).runs[r] {
        if exists d :: d in doc.dispatches && d < doc.nextId && doc.dispatches[d].runId == r && doc.dispatches[d].status == Running {
          var d :| d in doc.dispatches && d < doc.nextId && doc.dispatches[d].runId == r && doc.dispatches[d].status == Running;
          assert d in RunningIn(doc.dispatches, r);
        } else {
          assert RunningIn(doc.dispatches, r) == {};
        }
      }
      assert s.runs == Repaired(doc).runs;
      assert s.dispatches == Repaired(doc).dispatches;
    }

    static lemma RestartedHere(doc: State, adopted: State)
      requires Adopt(Repaired(doc), 0, Repaired(doc).nextId) == Ok(adopted)
      ensures Restart(doc) ==
              Ok(if WasInterrupted(doc) || NeedsAdoption(Repaired(doc)) then adopted.(teams := IdleTeams(adopted.teams))
                 else adopted)
      ensures Restart(doc).Ok? && Valid(Restart(doc).value) ==> forall k :: k in adopted.teams ==> k < adopted.nextId
    {
      hide Repaired, Adopt, WasInterrupted, NeedsAdoption;
      hide OwnersOk, GraphOk, RunsOk, DispatchesOk, LinksOk, BusyOk, AloneOk, ConcurrencyOk, EventsOk;
      var t := Restart(doc).value;
      assert forall k :: k in adopted.teams ==> k in t.teams;
    }

    /** The fourth loop: queued tasks without a dispatch get one. */
    method AdoptQueued() returns (found: bool)
      requires Adopt(Contents(), 0, nextId).Ok?
      requires forall t :: t in tasks ==> t < nextId
      modifies this
      ensures unchanged(`disk, `receipts)
      ensures Adopt(old(Contents()), 0, old(nextId)) == Ok(Contents())
      ensures found <==> NeedsAdoption(old(Contents()))
    {
      hide EnsureRun, Enqueue, HasDispatch;
      found := false;
      for t := 0 to nextId
        invariant unchanged(`disk, `receipts) && tasks == old(tasks)
        invariant Adopt(old(Contents()), 0, old(nextId)) == Adopt(Contents(), t, old(nextId))
        invariant found ==> NeedsAdoption(old(Contents()))
        invariant !found ==> Contents() == old(Contents())
        invariant !found ==> forall x :: x in tasks && x < t && tasks[x].status == TaskQueued ==> HasDispatch(dispatches, x)
      {
        if t in tasks && tasks[t].status == TaskQueued && !HasDispatch(dispatches, t) {
          found := true;
          ghost var before := Contents();
          var run := OpenRun(tasks[t].teamId);
          var queued := AddDispatch(run, tasks[t].memberId, None, Some(t), []);
          TasksStay(before, t);
        }
      }
    }

    static lemma TasksStay(s: State, t: Id)
      requires t in s.tasks
      ensures var (ready, run) := EnsureRun(s, s.tasks[t].teamId);
              ready.tasks == s.tasks &&
              (Enqueue(ready, run, s.tasks[t].memberId, None, Some(t), []).Ok? ==>
                 Enqueue(ready, run, s.tasks[t].memberId, None, Some(t), []).value.tasks == s.tasks)
    {
    }

    method IdleMembers()
      requires forall k :: k in teams ==> k < nextId
      modifies this`teams
      ensures teams == IdleTeams(old(teams))
    {
      for k := 0 to nextId
        invariant teams == map e | e in old(teams) ::
                             if e < k then old(teams)[e].(members := AllIdle(old(teams)[e].members)) else old(teams)[e]
      {
        if k in teams {
          teams := teams[k := teams[k].(members := AllIdle(teams[k].members))];
        }
      }
    }

    // -------------------------------------------------------------- whole operations

    function Book(): Ledger
      reads this
    {
      Ledger(Contents(), receipts)
    }

    static lemma WithinBounds(s: State)
      requires Valid(s)
      ensures forall k :: k in s.runs || k in s.dispatches || k in s.tasks || k in s.messages ==> k < s.nextId
      ensures forall d, i :: d in s.dispatches && 0 <= i < |s.dispatches[d].messageIds| ==>
                s.dispatches[d].messageIds[i] in s.messages
    {
      hide TeamsOk, GraphOk, RunsOk, LinksOk, BusyOk, AloneOk, ConcurrencyOk, EventsOk;
    }

    /** Operations on teams and members. */
    method RunOnTeams(c: Command) returns (r: Reply)
      requires Valid(Contents()) && (c.NewTeam? || c.EditTeam? || c.Join? || c.EditMember? || c.Leave? || c.Drop?)
      modifies this
      ensures disk == old(disk)
      ensures (Book(), r) == Perform(old(Book()), c)
    {
      hide CreateTeam, UpdateTeam, TeamModel.AddMember, TeamModel.UpdateMember, TeamModel.RemoveMember, DeleteTeam;
      hide Valid, WithoutTeam;
      WithinBounds(Contents());
      match c {
        case NewTeam(leadName) => r := Create(leadName);
        case EditTeam(teamId, version, order) => r := Update(teamId, version, order);
        case Join(teamId, name) => r := AddMember(teamId, name);
        case EditMember(teamId, memberId, newName) => r := UpdateMember(teamId, memberId, newName);
        case Leave(teamId, memberId) => r := RemoveMember(teamId, memberId);
        case Drop(teamId) => r := Delete(teamId);
      }
    }

    /** Operations on tasks, messages and runs. Those that fail may leave work to roll back. */
    method RunOnWork(c: Command) returns (r: Reply)
      requires Valid(Contents())
      requires c.Queue? || c.Stop? || c.Post? || c.EditTask? || c.Launch? || c.Control? || c.Hire?
      modifies this
      ensures unchanged(`disk, `receipts)
      ensures r == Apply(old(Contents()), c).1
      ensures r.Ok? ==> Contents() == Apply(old(Contents()), c).0
    {
      hide TeamModel.QueueTask, TeamModel.CancelTask, TeamModel.SendMessage, TeamModel.UpdateTask;
      hide TeamModel.StartRun, TeamModel.ControlRun, TeamModel.Recruit, Valid;
      WithinBounds(Contents());
      match c {
        case Queue(teamId, memberId, title, input, dependsOn, parentId) =>
          r := QueueTask(teamId, memberId, title, input, dependsOn, parentId);
        case Stop(teamId, taskId) => r := CancelTask(teamId, taskId);
        case Post(teamId, from, to, body, parentId) => r := SendMessage(teamId, from, to, body, parentId);
        case EditTask(teamId, taskId, version, edit, caller) => r := UpdateTask(teamId, taskId, version, edit, caller);
        case Launch(teamId, input, target) => r := StartRun(teamId, input, target);
        case Control(teamId, runId, action) => r := ControlRun(teamId, runId, action);
        case Hire(teamId, dispatchId, name) => r := Recruit(teamId, dispatchId, name);
      }
    }

    /** Operations on dispatches. */
    method RunOnDispatches(c: Command) returns (r: Reply)
      requires Valid(Contents())
      requires c.Begin? || c.Submit? || c.Defer? || c.Finish? || c.PauseIdle? || c.Account?
      modifies this
      ensures unchanged(`disk, `receipts)
      ensures r == Apply(old(Contents()), c).1
      ensures r.Ok? || c.Begin? ==> Contents() == Apply(old(Contents()), c).0
    {
      hide TeamModel.BeginDispatch, SubmitDispatch, TeamModel.DeferDispatch, TeamModel.FinishDispatch, PauseBlocked;
      hide Acknowledge, Valid;
      WithinBounds(Contents());
      match c {
        case Begin(dispatchId) => r := BeginDispatch(dispatchId);
        case Submit(dispatchId) =>
          SubmittedDispatch(dispatchId);
          r := Ok(None);
        case Defer(dispatchId) => r := DeferDispatch(dispatchId);
        case Finish(dispatchId, report) => r := FinishDispatch(dispatchId, report);
        case PauseIdle =>
          PauseBlockedRuns();
          r := Ok(None);
        case Account(executionId) => r := AcknowledgeExecution(executionId);
      }
    }

    /** One operation: a transaction that is saved when it succeeds and rolled back when it fails. */
    method Transact(c: Command) returns (r: Reply)
      requires Valid(Contents()) && !c.Reopen?
      modifies this
      ensures disk == old(disk)
      ensures (Book(), r) == Perform(old(Book()), c)
    {
      hide Valid, Apply, WithoutTeam;
      var before := Contents();
      FailureKeeps(before, c);
      if c.NewTeam? || c.EditTeam? || c.Join? || c.EditMember? || c.Leave? || c.Drop? {
        r := RunOnTeams(c);
      } else if c.Queue? || c.Stop? || c.Post? || c.EditTask? || c.Launch? || c.Control? || c.Hire? {
        r := RunOnWork(c);
        if r.Err? {
          Restore(before);
        }
      } else {
        r := RunOnDispatches(c);
        if r.Err? && !c.Begin? {
          Restore(before);
        }
      }
    }

    static lemma FailureKeeps(s: State, c: Command)
      ensures Apply(s, c).1.Err? && !c.Begin? ==> Apply(s, c).0 == s
    {
      hide CreateTeam, UpdateTeam, TeamModel.AddMember, TeamModel.UpdateMember, TeamModel.RemoveMember, DeleteTeam;
      hide TeamModel.QueueTask, TeamModel.CancelTask, TeamModel.SendMessage, TeamModel.UpdateTask;
      hide TeamModel.StartRun, TeamModel.ControlRun, TeamModel.Recruit;
      hide TeamModel.BeginDispatch, SubmitDispatch, TeamModel.DeferDispatch, TeamModel.FinishDispatch, PauseBlocked;
      hide Acknowledge, Restart;
    }

    /** A request as the API makes it, with or without an operation id. */
    method Serve(request: Request) returns (r: Reply)
      requires Good() && !request.command.Reopen?
      modifies this
      ensures Good()
      ensures (Book(), r) == Handle(old(Book()), request)
    {
      hide Valid, Apply, Restart, Perform, Loadable;
      StepValid(Contents(), request.command);
      PerformState(Book(), request.command);
      match request {
        case Plain(c) =>
          r := Transact(c);
          Save();
          ValidIsLoadable(Contents());
        case Keyed(id, input, c) =>
          if id in receipts {
            return if receipts[id].input == input then Ok(receipts[id].reply) else Err(OperationConflict);
          }
          var before, known := Contents(), receipts;
          r := Transact(c);
          if r.Err? {
            Restore(before);
            receipts := known;
            return;
          }
          receipts := receipts[id := Receipt(input, r.value)];
          Save();
          ValidIsLoadable(Contents());
      }
    }

    static lemma PerformState(l: Ledger, c: Command)
      ensures Perform(l, c).0.state == Apply(l.state, c).0
    {
      hide Apply, WithoutTeam;
    }

    /** A crash at any time between operations: the store opened on the disk is the one that was lost, restarted. */
    static method Crash(lost: TeamStore) returns (next: TeamStore)
      requires lost.Good()
      ensures fresh(next) && next.Good()
      ensures (next.Book(), Ok(None)) == Perform(lost.Book(), Reopen)
    {
      hide Valid, Restart, Loadable;
      next := new TeamStore(lost.disk);
    }
  }
}
