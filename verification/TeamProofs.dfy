/** Every operation that queues, messages, runs or edits keeps the team invariant. */
module TeamProofs {
  import opened Common
  import opened Texts
  import opened TeamModel
  import opened TeamDependencies
  import opened TeamInvariant
  import opened TeamFrames

  lemma EmitEventsOk(events: seq<Event>, sequence: nat, event: Event)
    requires EventsOk(events, sequence) && event.sequence == sequence + 1
    ensures EventsOk(events + [event], sequence + 1)
  {
  }

  lemma EmitValid(s: State, waiting: set<Id>, teamId: Id, kind: EventKind, subject: Id)
    requires ValidWhile(s, waiting)
    ensures ValidWhile(Emit(s, teamId, kind, subject), waiting)
  {
    hide TeamsOk, OwnersOk, GraphOk, RunsOk, DispatchesOk, LinksOk, BusyOk, AloneOk, ConcurrencyOk, EventsOk;
    EmitEventsOk(s.events, s.sequence, Event(teamId, s.sequence + 1, kind, subject));
  }

  // ---------------------------------------------------------------- runs

  lemma {:induction false} LastUnfinishedFound(runs: map<Id, Run>, teamId: Id, bound: nat)
    ensures match LastUnfinished(runs, teamId, bound)
            case Some(r) => r < bound && r in runs && runs[r].teamId == teamId && Unfinished(runs[r].status)
            case None => forall r :: r in runs && r < bound && runs[r].teamId == teamId ==> !Unfinished(runs[r].status)
  {
    if bound > 0 {
      LastUnfinishedFound(runs, teamId, bound - 1);
    }
  }

  lemma NewRunOk(s: State, teamId: Id, t: State)
    requires OwnersOk(s.teams, s.tasks, s.messages, s.runs, s.nextId) && RunsOk(s.runs) && teamId in s.teams
    requires forall r :: r in s.runs && r < s.nextId && s.runs[r].teamId == teamId ==> !Unfinished(s.runs[r].status)
    requires t == s.(runs := s.runs[s.nextId := Run(teamId, RunRunning, 1, 0, 0, NoReason)], nextId := s.nextId + 1)
    ensures RunsOk(t.runs) && OwnersOk(t.teams, t.tasks, t.messages, t.runs, t.nextId) && Keeps(s, t)
  {
    forall r, q | Rivals(t.runs, r, q) ensures r == q {
      assert r != s.nextId && q != s.nextId ==> Rivals(s.runs, r, q);
    }
  }

  lemma EnsureRunValid(s: State, waiting: set<Id>, teamId: Id)
    requires ValidWhile(s, waiting) && teamId in s.teams
    ensures ValidWhile(EnsureRun(s, teamId).0, waiting)
  {
    hide TeamsOk, OwnersOk, GraphOk, RunsOk, DispatchesOk, LinksOk, BusyOk, AloneOk, ConcurrencyOk, EventsOk;
    LastUnfinishedFound(s.runs, teamId, s.nextId);
    if LastUnfinished(s.runs, teamId, s.nextId).None? {
      var t := SetRun(s, s.nextId, Run(teamId, RunRunning, 1, 0, 0, NoReason)).(nextId := s.nextId + 1);
      NewRunOk(s, teamId, t);
      TeamsStayOk(s.teams, s.nextId, t.nextId);
      DispatchesStayOk(s, t);
      EmitValid(t, waiting, teamId, RunUpdated, s.nextId);
    }
  }

  /** What `#ensureRun` returns and leaves alone. */
  lemma EnsureRunFacts(s: State, teamId: Id)
    ensures var (t, run) := EnsureRun(s, teamId);
            run in t.runs && t.runs[run].teamId == teamId && Unfinished(t.runs[run].status) &&
            t.teams == s.teams && t.tasks == s.tasks && t.messages == s.messages && t.dispatches == s.dispatches &&
            s.nextId <= t.nextId
    ensures var (t, run) := EnsureRun(s, teamId);
            (run in s.runs && t == s) || (run == s.nextId && t.runs[run].status == RunRunning && t.runs == s.runs[run := t.runs[run]])
  {
    LastUnfinishedFound(s.runs, teamId, s.nextId);
  }

  /** A run record changes within its limits; it may finish only when nothing is outstanding. */
  lemma RunChangeValid(s: State, waiting: set<Id>, r: Id, run: Run)
    requires ValidWhile(s, waiting) && r in s.runs && run.teamId == s.runs[r].teamId
    requires run.dispatchCount <= MAX_DISPATCHES && run.recruitedCount <= MAX_RECRUITED
    requires Unfinished(s.runs[r].status) && (Unfinished(run.status) || !Outstanding(s.dispatches, r))
    ensures ValidWhile(SetRun(s, r, run), waiting)
  {
    hide TeamsOk, OwnersOk, GraphOk, RunsOk, DispatchesOk, LinksOk, BusyOk, AloneOk, ConcurrencyOk, EventsOk;
    var t := SetRun(s, r, run);
    RunEditedOk(s.runs, r, run);
    OwnersStayOk(s, t);
    RunChangeDispatchesOk(s, r, run);
  }

  lemma RunChangeDispatchesOk(s: State, r: Id, run: Run)
    requires DispatchesOk(s.teams, s.tasks, s.messages, s.runs, s.dispatches, s.nextId)
    requires r in s.runs && run.teamId == s.runs[r].teamId
    requires Unfinished(run.status) || !Outstanding(s.dispatches, r)
    ensures DispatchesOk(s.teams, s.tasks, s.messages, s.runs[r := run], s.dispatches, s.nextId)
  {
    forall d | d in s.dispatches ensures DispatchOk(s.teams, s.tasks, s.messages, s.runs[r := run], s.dispatches[d]) {
      assert DispatchOk(s.teams, s.tasks, s.messages, s.runs, s.dispatches[d]);
    }
  }

  // ---------------------------------------------------------------- notes on dispatches

  lemma NotesValid(s: State, waiting: set<Id>, t: State)
    requires ValidWhile(s, waiting) && t == s.(dispatches := t.dispatches) && AllSameWork(s.dispatches, t.dispatches)
    requires forall d, i :: d in t.dispatches && 0 <= i < |t.dispatches[d].messageIds| ==>
               t.dispatches[d].messageIds[i] in s.messages &&
               s.messages[t.dispatches[d].messageIds[i]].teamId == t.dispatches[d].teamId
    ensures ValidWhile(t, waiting)
  {
    hide TeamsOk, OwnersOk, GraphOk, RunsOk, DispatchesOk, LinksOk, BusyOk, AloneOk, ConcurrencyOk, EventsOk;
    LinksStayOk(s.tasks, s.dispatches, t.dispatches, waiting);
    SameWorkRuns(s.dispatches, t.dispatches);
    BusyStaysOk(s.teams, s.dispatches, t.dispatches);
    AloneStaysOk(s.dispatches, t.dispatches);
    ConcurrencyStaysOk(s.dispatches, t.dispatches);
    NotesDispatchesOk(s, t);
  }

  lemma NotesDispatchesOk(s: State, t: State)
    requires DispatchesOk(s.teams, s.tasks, s.messages, s.runs, s.dispatches, s.nextId)
    requires t == s.(dispatches := t.dispatches) && AllSameWork(s.dispatches, t.dispatches)
    requires forall d, i :: d in t.dispatches && 0 <= i < |t.dispatches[d].messageIds| ==>
               t.dispatches[d].messageIds[i] in s.messages &&
               s.messages[t.dispatches[d].messageIds[i]].teamId == t.dispatches[d].teamId
    ensures DispatchesOk(t.teams, t.tasks, t.messages, t.runs, t.dispatches, t.nextId)
  {
    forall d | d in t.dispatches
      ensures d < t.nextId && DispatchOk(t.teams, t.tasks, t.messages, t.runs, t.dispatches[d])
    {
      assert d in s.dispatches.Keys;
      assert DispatchOk(s.teams, s.tasks, s.messages, s.runs, s.dispatches[d]);
    }
  }

  /** Message ids noted on dispatches are those of messages of the same team. */
  lemma MailKnown(s: State)
    requires DispatchesOk(s.teams, s.tasks, s.messages, s.runs, s.dispatches, s.nextId)
    ensures forall d, i :: d in s.dispatches && 0 <= i < |s.dispatches[d].messageIds| ==>
              s.dispatches[d].messageIds[i] in s.messages &&
              s.messages[s.dispatches[d].messageIds[i]].teamId == s.dispatches[d].teamId
  {
  }

  // ---------------------------------------------------------------- enqueueing

  lemma RegisterEdgeValid(s: State, waiting: set<Id>, runId: Id, memberId: Id, parentId: Option<Id>)
    requires ValidWhile(s, waiting) && RegisterEdge(s, runId, memberId, parentId).Ok?
    ensures ValidWhile(RegisterEdge(s, runId, memberId, parentId).value.0, waiting)
  {
    hide TeamsOk, OwnersOk, GraphOk, RunsOk, DispatchesOk, LinksOk, BusyOk, AloneOk, ConcurrencyOk, EventsOk;
    var parent := if parentId.Some? && parentId.value in s.dispatches then Some(s.dispatches[parentId.value]) else None;
    var targets := (if parent.Some? then parent.value.fanout else {}) + {memberId};
    var linked := if parent.Some? then SetDispatch(s, parentId.value, parent.value.(fanout := targets)) else s;
    MailKnown(s);
    NotesValid(s, waiting, linked);
    RunLimits(linked, waiting, runId);
    var run := s.runs[runId];
    var reason := if |targets| > MAX_FANOUT then FanoutLimit else DepthLimit;
    RunChangeValid(linked, waiting, runId, run.(status := RunPausedLimit, reason := reason));
    EmitValid(SetRun(linked, runId, run.(status := RunPausedLimit, reason := reason)), waiting, run.teamId, RunUpdated,
              runId);
  }

  lemma RunLimits(s: State, waiting: set<Id>, r: Id)
    requires ValidWhile(s, waiting) && r in s.runs
    ensures s.runs[r].dispatchCount <= MAX_DISPATCHES && s.runs[r].recruitedCount <= MAX_RECRUITED
    ensures r < s.nextId && s.runs[r].teamId in s.teams
  {
  }

  /** What registering an edge leaves alone. */
  lemma RegisterEdgeFacts(s: State, runId: Id, memberId: Id, parentId: Option<Id>)
    requires RegisterEdge(s, runId, memberId, parentId).Ok?
    ensures var t := RegisterEdge(s, runId, memberId, parentId).value.0;
            t.teams == s.teams && t.tasks == s.tasks && t.messages == s.messages && t.nextId == s.nextId &&
            t.reconciled == s.reconciled
    ensures var t := RegisterEdge(s, runId, memberId, parentId).value.0;
            AllSameWork(s.dispatches, t.dispatches) &&
            forall d :: d in s.dispatches ==> t.dispatches[d].messageIds == s.dispatches[d].messageIds
    ensures var t := RegisterEdge(s, runId, memberId, parentId).value.0;
            runId in s.runs && Unfinished(s.runs[runId].status) &&
            (t.runs == s.runs || exists reason ::
               t.runs == s.runs[runId := s.runs[runId].(status := RunPausedLimit, reason := reason)])
  {
    var parent := if parentId.Some? && parentId.value in s.dispatches then Some(s.dispatches[parentId.value]) else None;
    var t := RegisterEdge(s, runId, memberId, parentId).value.0;
    if parent.Some? {
      var fanout := parent.value.fanout + {memberId};
      assert t.dispatches == s.dispatches[parentId.value := parent.value.(fanout := fanout)];
    } else {
      assert t.dispatches == s.dispatches;
    }
  }

  /** A fresh queued dispatch joins an unfinished run. */
  lemma NewDispatchValid(s: State, waiting: set<Id>, item: Dispatch)
    requires ValidWhile(s, waiting) && item.status == Queued
    requires DispatchOk(s.teams, s.tasks, s.messages, s.runs, item)
    requires item.taskId.Some? ==>
               s.tasks[item.taskId.value].status == TaskQueued && !HasDispatch(s.dispatches, item.taskId.value)
    ensures ValidWhile(SetDispatch(s, s.nextId, item).(nextId := s.nextId + 1),
                       if item.taskId.Some? then waiting - {item.taskId.value} else waiting)
  {
    hide TeamsOk, OwnersOk, GraphOk, RunsOk, DispatchesOk, LinksOk, BusyOk, AloneOk, ConcurrencyOk, EventsOk;
    var t := SetDispatch(s, s.nextId, item).(nextId := s.nextId + 1);
    NextIsFresh(s);
    TeamsStayOk(s.teams, s.nextId, t.nextId);
    OwnersStayOk(s, t);
    DispatchesStayOk(s, t);
    DispatchEditedOk(t, s.dispatches, s.nextId, item);
    IdleChangeBusyOk(s.teams, s.dispatches, s.nextId, item);
    NoneStartsOk(s.dispatches, t.dispatches);
    NewLinkOk(s.tasks, s.dispatches, waiting, s.nextId, item);
  }

  lemma NextIsFresh(s: State)
    requires DispatchesOk(s.teams, s.tasks, s.messages, s.runs, s.dispatches, s.nextId)
    ensures s.nextId !in s.dispatches
  {
  }

  lemma NewLinkOk(tasks: map<Id, Task>, dispatches: map<Id, Dispatch>, waiting: set<Id>, d: Id, item: Dispatch)
    requires LinksOk(tasks, dispatches, waiting) && d !in dispatches && item.status == Queued
    requires item.taskId.Some? ==>
               item.taskId.value in tasks && tasks[item.taskId.value].status == TaskQueued &&
               !HasDispatch(dispatches, item.taskId.value)
    ensures LinksOk(tasks, dispatches[d := item],
                    if item.taskId.Some? then waiting - {item.taskId.value} else waiting)
  {
    var next := dispatches[d := item];
    forall e, f | SameTask(next, e, f) ensures e == f {
      assert e != d && f != d ==> SameTask(dispatches, e, f);
    }
    forall t | t in tasks && ActiveTask(tasks[t].status) && (t !in waiting || Some(t) == item.taskId)
      ensures HasDispatch(next, t)
    {
      if Some(t) == item.taskId {
        assert next[d].taskId == Some(t);
      } else {
        var e :| e in dispatches && dispatches[e].taskId == Some(t);
        assert next[e].taskId == Some(t);
      }
    }
  }

  lemma EnqueueValid(s: State, waiting: set<Id>, runId: Id, memberId: Id, parentId: Option<Id>, taskId: Option<Id>,
                     messageIds: seq<Id>)
    requires ValidWhile(s, waiting) && Enqueue(s, runId, memberId, parentId, taskId, messageIds).Ok?
    requires runId in s.runs && s.runs[runId].teamId in s.teams && HasMember(s.teams[s.runs[runId].teamId], memberId)
    requires taskId.Some? ==>
               taskId.value in s.tasks && s.tasks[taskId.value].teamId == s.runs[runId].teamId &&
               s.tasks[taskId.value].memberId == memberId && s.tasks[taskId.value].status == TaskQueued &&
               !HasDispatch(s.dispatches, taskId.value)
    requires forall i :: 0 <= i < |messageIds| ==>
               messageIds[i] in s.messages && s.messages[messageIds[i]].teamId == s.runs[runId].teamId
    ensures ValidWhile(Enqueue(s, runId, memberId, parentId, taskId, messageIds).value,
                       if taskId.Some? then waiting - {taskId.value} else waiting)
  {
    hide TeamsOk, OwnersOk, GraphOk, RunsOk, DispatchesOk, LinksOk, BusyOk, AloneOk, ConcurrencyOk, EventsOk;
    RegisterEdgeValid(s, waiting, runId, memberId, parentId);
    RegisterEdgeFacts(s, runId, memberId, parentId);
    var (t, depth) := RegisterEdge(s, runId, memberId, parentId).value;
    var item := Dispatch(t.runs[runId].teamId, runId, memberId, taskId, messageIds, parentId, depth, {}, Queued, false);
    if taskId.Some? {
      SameWorkHasDispatch(s.dispatches, t.dispatches, taskId.value);
    }
    NewDispatchValid(t, waiting, item);
    var rest := if taskId.Some? then waiting - {taskId.value} else waiting;
    EmitValid(SetDispatch(t, t.nextId, item).(nextId := t.nextId + 1), rest, item.teamId, DispatchUpdated, t.nextId);
  }

  lemma SameWorkHasDispatch(before: map<Id, Dispatch>, after: map<Id, Dispatch>, t: Id)
    requires AllSameWork(before, after)
    ensures HasDispatch(before, t) <==> HasDispatch(after, t)
  {
    if HasDispatch(before, t) {
      var d :| d in before && before[d].taskId == Some(t);
      assert after[d].taskId == Some(t);
    }
    if HasDispatch(after, t) {
      var d :| d in after && after[d].taskId == Some(t);
      assert d in before.Keys;
      assert before[d].taskId == Some(t);
    }
  }
}
