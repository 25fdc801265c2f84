/** Restarting from a saved document: nothing runs any more, and no queued work is lost. */
module TeamRestart {
  import opened Common
  import opened TeamModel
  import opened TeamDependencies
  import opened TeamInvariant
  import opened TeamFrames
  import opened TeamProofs
  import opened TeamOperations

  /** Event numbers of a document increase; the stored counter may be missing, and is then 0. */
  ghost predicate Numbered(events: seq<Event>) {
    forall i, j :: 0 <= i < j < |events| ==> events[i].sequence < events[j].sequence
  }

  ghost predicate WorkerKnown(doc: State, t: Id)
    requires t in doc.tasks
  {
    doc.tasks[t].teamId in doc.teams && HasMember(doc.teams[doc.tasks[t].teamId], doc.tasks[t].memberId)
  }

  ghost predicate SomebodyBusy(teams: map<Id, Team>) {
    exists k, i :: k in teams && 0 <= i < |teams[k].members| && teams[k].members[i].status == Busy
  }

  /**
   Documents the constructor may meet: every valid state, and also older documents, whose active tasks may lack
   a dispatch and whose busy members may have nothing but a running task.
   */
  ghost predicate Loadable(doc: State) {
    TeamsOk(doc.teams, doc.nextId) &&
    OwnersOk(doc.teams, doc.tasks, doc.messages, doc.runs, doc.nextId) &&
    GraphOk(doc.tasks) &&
    RunsOk(doc.runs) &&
    DispatchesOk(doc.teams, doc.tasks, doc.messages, doc.runs, doc.dispatches, doc.nextId) &&
    LinksOk(doc.tasks, doc.dispatches, doc.tasks.Keys) &&
    Numbered(doc.events) &&
    (forall t :: t in doc.tasks && doc.tasks[t].status == TaskQueued ==> WorkerKnown(doc, t)) &&
    (SomebodyBusy(doc.teams) ==> WasInterrupted(doc) || NeedsAdoption(Repaired(doc)))
  }

  lemma ValidIsLoadable(s: State)
    requires Valid(s)
    ensures Loadable(s)
  {
    hide TeamsOk, OwnersOk, GraphOk, RunsOk;
    forall t | t in s.tasks && s.tasks[t].status == TaskQueued ensures WorkerKnown(s, t) {
      assert HasDispatch(s.dispatches, t);
      var d :| d in s.dispatches && s.dispatches[d].taskId == Some(t);
      assert DispatchOk(s.teams, s.tasks, s.messages, s.runs, s.dispatches[d]);
    }
    if SomebodyBusy(s.teams) {
      var k, i :| k in s.teams && 0 <= i < |s.teams[k].members| && s.teams[k].members[i].status == Busy;
      assert IsRunning(s.dispatches, k, s.teams[k].members[i].id);
    }
  }

  // ---------------------------------------------------------------- the repaired document

  function IdleTeams(teams: map<Id, Team>): map<Id, Team> {
    map k | k in teams :: teams[k].(members := AllIdle(teams[k].members))
  }

  function Unserved(s: State): set<Id> {
    set t | t in s.tasks && s.tasks[t].status == TaskQueued && !HasDispatch(s.dispatches, t)
  }

  lemma IdleTeamsOk(teams: map<Id, Team>, bound: nat)
    requires TeamsOk(teams, bound)
    ensures TeamsOk(IdleTeams(teams), bound) && KeepsTeams(teams, IdleTeams(teams))
  {
    forall k | k in teams
      ensures TeamOk(IdleTeams(teams)[k], bound) && forall m :: HasMember(teams[k], m) ==> HasMember(IdleTeams(teams)[k], m)
    {
      SameRosterOk(teams[k], IdleTeams(teams)[k], bound);
    }
  }

  lemma RepairedRunsOk(doc: State)
    requires RunsOk(doc.runs)
    requires DispatchesOk(doc.teams, doc.tasks, doc.messages, doc.runs, doc.dispatches, doc.nextId)
    ensures RunsOk(Repaired(doc).runs) && KeepsRuns(doc.runs, Repaired(doc).runs)
    ensures forall r :: r in doc.runs && Unfinished(Repaired(doc).runs[r].status) ==> Unfinished(doc.runs[r].status)
  {
    var runs := Repaired(doc).runs;
    forall r | r in doc.runs && RunningIn(doc.dispatches, r) != {} ensures Unfinished(doc.runs[r].status) {
      var d :| d in RunningIn(doc.dispatches, r);
      assert DispatchOk(doc.teams, doc.tasks, doc.messages, doc.runs, doc.dispatches[d]);
    }
    forall r, q | Rivals(runs, r, q) ensures r == q {
      assert Rivals(doc.runs, r, q);
    }
  }

  lemma RepairedRecordsOk(doc: State)
    requires OwnersOk(doc.teams, doc.tasks, doc.messages, doc.runs, doc.nextId) && GraphOk(doc.tasks)
    ensures OwnersOk(doc.teams, Repaired(doc).tasks, doc.messages, Repaired(doc).runs, doc.nextId)
    ensures GraphOk(Repaired(doc).tasks) && KeepsTasks(doc.tasks, Repaired(doc).tasks)
  {
    GraphStaysOk(doc.tasks, Repaired(doc).tasks);
  }

  /** What happens to one dispatch of a loadable document. */
  lemma RepairedDispatch(doc: State, d: Id)
    requires LinksOk(doc.tasks, doc.dispatches, doc.tasks.Keys) && d in doc.dispatches
    ensures Repaired(doc).dispatches[d] == RecoverDispatch(doc.dispatches[d])
  {
  }

  lemma RepairedDispatchesOk(doc: State)
    requires LinksOk(doc.tasks, doc.dispatches, doc.tasks.Keys)
    requires DispatchesOk(doc.teams, doc.tasks, doc.messages, doc.runs, doc.dispatches, doc.nextId)
    requires KeepsTasks(doc.tasks, Repaired(doc).tasks) && KeepsRuns(doc.runs, Repaired(doc).runs)
    ensures var r := Repaired(doc);
            DispatchesOk(r.teams, r.tasks, r.messages, r.runs, r.dispatches, r.nextId)
  {
    var r := Repaired(doc);
    forall d | d in r.dispatches ensures DispatchOk(r.teams, r.tasks, r.messages, r.runs, r.dispatches[d]) {
      RepairedDispatch(doc, d);
      assert DispatchOk(doc.teams, doc.tasks, doc.messages, doc.runs, doc.dispatches[d]);
    }
  }

  lemma RepairedLinksOk(doc: State)
    requires LinksOk(doc.tasks, doc.dispatches, doc.tasks.Keys)
    ensures LinksOk(Repaired(doc).tasks, Repaired(doc).dispatches, Unserved(Repaired(doc)))
    ensures forall d :: d in Repaired(doc).dispatches ==> Repaired(doc).dispatches[d].status != Running
  {
    var r := Repaired(doc);
    forall d | d in r.dispatches
      ensures r.dispatches[d].status != Running
      ensures r.dispatches[d].taskId.Some? ==>
                r.dispatches[d].taskId.value in r.tasks &&
                Linked(r.dispatches[d].status, r.tasks[r.dispatches[d].taskId.value].status)
    {
      RepairedDispatch(doc, d);
    }
    forall d, e | SameTask(r.dispatches, d, e) ensures d == e {
      RepairedDispatch(doc, d);
      RepairedDispatch(doc, e);
      assert SameTask(doc.dispatches, d, e);
    }
  }

  lemma QuietOk(teams: map<Id, Team>, dispatches: map<Id, Dispatch>)
    requires forall d :: d in dispatches ==> dispatches[d].status != Running
    requires !SomebodyBusy(teams)
    ensures BusyOk(teams, dispatches) && AloneOk(dispatches) && ConcurrencyOk(dispatches)
  {
    forall r ensures RunningIn(dispatches, r) == {} {
    }
  }

  lemma {:induction false} MaxSequenceBounds(events: seq<Event>, least: nat)
    ensures least <= MaxSequence(events, least)
    ensures forall i :: 0 <= i < |events| ==> events[i].sequence <= MaxSequence(events, least)
    ensures (forall i :: 0 <= i < |events| ==> events[i].sequence <= least) ==> MaxSequence(events, least) == least
  {
    if events != [] {
      MaxSequenceBounds(events[1..], least);
    }
  }

  /** The repaired document with everybody idle is valid, but for the tasks that still need a dispatch. */
  lemma RepairedValid(doc: State, teams: map<Id, Team>)
    requires Loadable(doc) && TeamsOk(teams, doc.nextId) && KeepsTeams(doc.teams, teams) && !SomebodyBusy(teams)
    ensures ValidWhile(Repaired(doc).(teams := teams), Unserved(Repaired(doc)))
  {
    hide TeamsOk, OwnersOk, GraphOk, RunsOk, DispatchesOk, LinksOk, BusyOk, AloneOk, ConcurrencyOk, EventsOk;
    hide Repaired, Unserved, KeepsRuns, KeepsTasks;
    RepairedFrame(doc);
    RepairedRunsOk(doc);
    RepairedRecordsOk(doc);
    RepairedDispatchesOk(doc);
    RepairedLinksOk(doc);
    QuietOk(teams, Repaired(doc).dispatches);
    MaxSequenceBounds(doc.events, doc.sequence);
    RepairedEventsOk(doc);
    RepairedOwners(Repaired(doc), teams);
    KeepsItself(Repaired(doc));
    DispatchesStayOk(Repaired(doc), Repaired(doc).(teams := teams));
  }

  lemma RepairedFrame(doc: State)
    ensures var r := Repaired(doc);
            r.teams == doc.teams && r.messages == doc.messages && r.nextId == doc.nextId && r.events == doc.events &&
            r.sequence == MaxSequence(doc.events, doc.sequence)
  {
  }

  lemma KeepsItself(s: State)
    ensures KeepsTasks(s.tasks, s.tasks) && KeepsRuns(s.runs, s.runs) && KeepsMessages(s.messages, s.messages)
  {
  }

  lemma RepairedOwners(s: State, teams: map<Id, Team>)
    requires OwnersOk(s.teams, s.tasks, s.messages, s.runs, s.nextId) && KeepsTeams(s.teams, teams)
    ensures OwnersOk(teams, s.tasks, s.messages, s.runs, s.nextId)
  {
  }

  lemma RepairedEventsOk(doc: State)
    requires Numbered(doc.events)
    ensures EventsOk(doc.events, MaxSequence(doc.events, doc.sequence))
  {
    MaxSequenceBounds(doc.events, doc.sequence);
  }

  // ---------------------------------------------------------------- tasks without a dispatch

  /** Adoption adds to runs, dispatches and events, and leaves the rest of the state alone. */
  ghost predicate AdoptionFrame(s: State, t: State) {
    t.teams == s.teams && t.tasks == s.tasks && t.messages == s.messages && t.reconciled == s.reconciled &&
    (forall d :: d in s.dispatches ==> d in t.dispatches && t.dispatches[d] == s.dispatches[d]) &&
    (forall d :: d in t.dispatches && d !in s.dispatches ==> t.dispatches[d].status == Queued) &&
    (forall r :: r in s.runs ==> r in t.runs && t.runs[r] == s.runs[r]) &&
    s.events <= t.events && s.sequence <= t.sequence && s.nextId <= t.nextId &&
    forall i :: |s.events| <= i < |t.events| ==> s.sequence < t.events[i].sequence
  }

  /** One step of the loop. */
  function AdoptOne(s: State, id: Id): Result<State, Error>
    requires id in s.tasks
  {
    var (ready, run) := EnsureRun(s, s.tasks[id].teamId);
    Enqueue(ready, run, s.tasks[id].memberId, None, Some(id), [])
  }

  /** Without a parent no limit is in sight: the dispatch starts at depth 0 and the run stays as it is. */
  lemma AdoptOneFrame(s: State, id: Id)
    requires id in s.tasks && s.nextId !in s.dispatches && s.nextId !in s.runs && s.nextId + 1 !in s.dispatches
    requires OwnersOk(s.teams, s.tasks, s.messages, s.runs, s.nextId)
    ensures AdoptOne(s, id).Ok? && AdoptionFrame(s, AdoptOne(s, id).value)
  {
    EnsureRunFacts(s, s.tasks[id].teamId);
    var (ready, run) := EnsureRun(s, s.tasks[id].teamId);
    assert |{} + {s.tasks[id].memberId}| == 1;
    assert RegisterEdge(ready, run, s.tasks[id].memberId, None) == Ok((ready, 0));
    var t := AdoptOne(s, id).value;
    assert t.dispatches == s.dispatches[ready.nextId := t.dispatches[ready.nextId]];
  }

  lemma AdoptOneValid(s: State, waiting: set<Id>, id: Id)
    requires ValidWhile(s, waiting) && id in s.tasks && s.tasks[id].status == TaskQueued
    requires !HasDispatch(s.dispatches, id) && WorkerKnown(s, id)
    ensures AdoptOne(s, id).Ok? && ValidWhile(AdoptOne(s, id).value, waiting - {id})
    ensures AdoptionFrame(s, AdoptOne(s, id).value)
  {
    hide TeamsOk, OwnersOk, GraphOk, RunsOk, DispatchesOk, LinksOk, BusyOk, AloneOk, ConcurrencyOk, EventsOk;
    hide EnsureRun, Enqueue, AdoptionFrame;
    NextFree(s);
    AdoptOneFrame(s, id);
    EnsureRunValid(s, waiting, s.tasks[id].teamId);
    EnsureRunFacts(s, s.tasks[id].teamId);
    var (ready, run) := EnsureRun(s, s.tasks[id].teamId);
    EnqueueValid(ready, waiting, run, s.tasks[id].memberId, None, Some(id), []);
  }

  lemma NextFree(s: State)
    requires OwnersOk(s.teams, s.tasks, s.messages, s.runs, s.nextId)
    requires DispatchesOk(s.teams, s.tasks, s.messages, s.runs, s.dispatches, s.nextId)
    ensures s.nextId !in s.dispatches && s.nextId !in s.runs && s.nextId + 1 !in s.dispatches
  {
  }

  lemma AdoptionTrans(a: State, b: State, c: State)
    requires AdoptionFrame(a, b) && AdoptionFrame(b, c)
    ensures AdoptionFrame(a, c)
  {
    forall i | |a.events| <= i < |c.events| ensures a.sequence < c.events[i].sequence {
      if i < |b.events| {
        assert c.events[i] == b.events[i];
      }
    }
  }

  lemma ServedOk(s: State, waiting: set<Id>, id: Id)
    requires ValidWhile(s, waiting)
    requires id in s.tasks && s.tasks[id].status == TaskQueued ==> HasDispatch(s.dispatches, id)
    requires id in s.tasks ==> s.tasks[id].status != TaskRunning
    ensures ValidWhile(s, waiting - {id})
  {
    hide TeamsOk, OwnersOk, GraphOk, RunsOk, DispatchesOk, BusyOk, AloneOk, ConcurrencyOk, EventsOk;
  }

  lemma {:induction false} AdoptValid(s: State, waiting: set<Id>, first: nat, bound: nat)
    requires ValidWhile(s, waiting) && forall t :: t in waiting ==> first <= t < bound
    requires forall t :: t in s.tasks && s.tasks[t].status == TaskQueued ==> WorkerKnown(s, t)
    requires forall t :: t in s.tasks ==> s.tasks[t].status != TaskRunning
    ensures Adopt(s, first, bound).Ok? && Valid(Adopt(s, first, bound).value)
    ensures AdoptionFrame(s, Adopt(s, first, bound).value)
    decreases bound - first
  {
    hide TeamsOk, OwnersOk, GraphOk, RunsOk, DispatchesOk, LinksOk, BusyOk, AloneOk, ConcurrencyOk, EventsOk;
    hide WorkerKnown, HasDispatch;
    if first >= bound {
      assert waiting == {};
    } else if first in s.tasks && s.tasks[first].status == TaskQueued && !HasDispatch(s.dispatches, first) {
      AdoptOneValid(s, waiting, first);
      var next := AdoptOne(s, first).value;
      StillKnown(s, next);
      AdoptValid(next, waiting - {first}, first + 1, bound);
      AdoptionTrans(s, next, Adopt(next, first + 1, bound).value);
    } else {
      ServedOk(s, waiting, first);
      AdoptValid(s, waiting - {first}, first + 1, bound);
    }
  }

  lemma StillKnown(s: State, t: State)
    requires t.teams == s.teams && t.tasks == s.tasks
    requires forall x :: x in s.tasks && s.tasks[x].status == TaskQueued ==> WorkerKnown(s, x)
    ensures forall x :: x in t.tasks && t.tasks[x].status == TaskQueued ==> WorkerKnown(t, x)
  {
  }

  /** The loop does not look at teams. */
  lemma {:induction false} AdoptIgnoresTeams(s: State, teams: map<Id, Team>, first: nat, bound: nat)
    ensures Adopt(s.(teams := teams), first, bound) ==
            match Adopt(s, first, bound)
            case Ok(t) => Ok(t.(teams := teams))
            case Err(e) => Err(e)
    decreases bound - first
  {
    if first < bound {
      if first in s.tasks && s.tasks[first].status == TaskQueued && !HasDispatch(s.dispatches, first) {
        AdoptOneIgnoresTeams(s, teams, first);
        var next := AdoptOne(s, first);
        if next.Ok? {
          AdoptIgnoresTeams(next.value, teams, first + 1, bound);
        }
      } else {
        AdoptIgnoresTeams(s, teams, first + 1, bound);
      }
    }
  }

  lemma AdoptOneIgnoresTeams(s: State, teams: map<Id, Team>, id: Id)
    requires id in s.tasks
    ensures AdoptOne(s.(teams := teams), id) ==
            match AdoptOne(s, id)
            case Ok(t) => Ok(t.(teams := teams))
            case Err(e) => Err(e)
  {
  }

  // ---------------------------------------------------------------- the whole constructor

  /** The teams after a restart. */
  function RestartTeams(doc: State): map<Id, Team> {
    if WasInterrupted(doc) || NeedsAdoption(Repaired(doc)) then IdleTeams(doc.teams) else doc.teams
  }

  lemma NobodyBusyAfter(doc: State)
    requires Loadable(doc)
    ensures TeamsOk(RestartTeams(doc), doc.nextId) && KeepsTeams(doc.teams, RestartTeams(doc))
    ensures !SomebodyBusy(RestartTeams(doc))
  {
    hide OwnersOk, GraphOk, RunsOk, DispatchesOk, LinksOk, TeamsOk;
    IdleTeamsOk(doc.teams, doc.nextId);
  }

  /** `Restart` as one pass over the repaired document. */
  lemma RestartForm(doc: State)
    ensures Restart(doc) == Adopt(Repaired(doc).(teams := RestartTeams(doc)), 0, doc.nextId)
  {
    var r := Repaired(doc);
    AdoptIgnoresTeams(r, RestartTeams(doc), 0, doc.nextId);
    AdoptIgnoresTeams(r, doc.teams, 0, doc.nextId);
    assert r.(teams := doc.teams) == r;
  }

  /** Every loadable document restarts, in a valid state that only adds to the repaired document. */
  lemma RestartValid(doc: State)
    requires Loadable(doc)
    ensures Restart(doc).Ok? && Valid(Restart(doc).value)
    ensures AdoptionFrame(Repaired(doc).(teams := RestartTeams(doc)), Restart(doc).value)
  {
    hide TeamsOk, OwnersOk, GraphOk, RunsOk, DispatchesOk, LinksOk, BusyOk, AloneOk, ConcurrencyOk, EventsOk;
    hide Adopt, Restart, RestartTeams, KeepsTeams, WorkerKnown, SomebodyBusy, AdoptionFrame;
    var start := Repaired(doc).(teams := RestartTeams(doc));
    NobodyBusyAfter(doc);
    RepairedValid(doc, RestartTeams(doc));
    RepairedTasks(doc, RestartTeams(doc));
    RestartForm(doc);
    AdoptValid(start, Unserved(Repaired(doc)), 0, doc.nextId);
  }

  lemma RepairedTasks(doc: State, teams: map<Id, Team>)
    requires Loadable(doc) && KeepsTeams(doc.teams, teams)
    ensures var s := Repaired(doc).(teams := teams);
            (forall t :: t in s.tasks && s.tasks[t].status == TaskQueued ==> WorkerKnown(s, t)) &&
            (forall t :: t in s.tasks ==> s.tasks[t].status != TaskRunning)
    ensures forall t :: t in Unserved(Repaired(doc)) ==> 0 <= t < doc.nextId
  {
    hide TeamsOk, GraphOk, RunsOk, DispatchesOk, LinksOk;
    forall t | t in Repaired(doc).tasks && Repaired(doc).tasks[t].status == TaskQueued
      ensures WorkerKnown(Repaired(doc).(teams := teams), t)
    {
      assert WorkerKnown(doc, t);
    }
  }

  /**
   After a restart nothing is running: tasks, dispatches or members. What ran is failed or interrupted, and its
   run waits for the user. Queued work is still queued, untouched, in an unfinished run, and every queued task has
   a dispatch. Event numbers go on above all stored ones.
   */
  lemma RestartResumes(doc: State)
    requires Loadable(doc)
    ensures Restart(doc).Ok? && Valid(Restart(doc).value)
    ensures var t := Restart(doc).value;
            !WasInterrupted(t) && !SomebodyBusy(t.teams) &&
            (forall d :: d in doc.dispatches ==>
               d in t.dispatches &&
               t.dispatches[d] == if doc.dispatches[d].status == Running
                                  then doc.dispatches[d].(status := Interrupted) else doc.dispatches[d]) &&
            (forall d :: d in doc.dispatches && doc.dispatches[d].status == Running ==>
               t.runs[doc.dispatches[d].runId].status == RunInterrupted) &&
            (forall r :: r in doc.runs ==>
               r in t.runs && (Unfinished(t.runs[r].status) <==> Unfinished(doc.runs[r].status))) &&
            (forall x :: x in doc.tasks ==>
               x in t.tasks && t.tasks[x].status == (if doc.tasks[x].status == TaskRunning then TaskFailed
                                                     else doc.tasks[x].status)) &&
            (forall x :: x in doc.tasks && doc.tasks[x].status == TaskQueued ==> HasDispatch(t.dispatches, x))
    ensures var t := Restart(doc).value;
            doc.events <= t.events &&
            forall i, j :: 0 <= i < |doc.events| <= j < |t.events| ==> doc.events[i].sequence < t.events[j].sequence
  {
    hide TeamsOk, OwnersOk, GraphOk, RunsOk, DispatchesOk, LinksOk, BusyOk, AloneOk, ConcurrencyOk, EventsOk;
    RestartValid(doc);
    NobodyBusyAfter(doc);
    RestartStatuses(doc);
    RepairedRunsOk(doc);
    MaxSequenceBounds(doc.events, doc.sequence);
    QueuedServed(Restart(doc).value);
  }

  lemma QueuedServed(t: State)
    requires Valid(t)
    ensures forall x :: x in t.tasks && t.tasks[x].status == TaskQueued ==> HasDispatch(t.dispatches, x)
  {
    hide TeamsOk, OwnersOk, GraphOk, RunsOk, DispatchesOk, BusyOk, AloneOk, ConcurrencyOk, EventsOk;
  }

  lemma RestartStatuses(doc: State)
    requires LinksOk(doc.tasks, doc.dispatches, doc.tasks.Keys)
    requires DispatchesOk(doc.teams, doc.tasks, doc.messages, doc.runs, doc.dispatches, doc.nextId)
    ensures forall d :: d in doc.dispatches ==> Repaired(doc).dispatches[d] == RecoverDispatch(doc.dispatches[d])
    ensures forall d :: d in doc.dispatches && doc.dispatches[d].status == Running ==>
              doc.dispatches[d].runId in doc.runs &&
              Repaired(doc).runs[doc.dispatches[d].runId].status == RunInterrupted
  {
    forall d | d in doc.dispatches ensures Repaired(doc).dispatches[d] == RecoverDispatch(doc.dispatches[d]) {
      RepairedDispatch(doc, d);
    }
    forall d | d in doc.dispatches && doc.dispatches[d].status == Running
      ensures doc.dispatches[d].runId in doc.runs &&
              Repaired(doc).runs[doc.dispatches[d].runId].status == RunInterrupted
    {
      assert DispatchOk(doc.teams, doc.tasks, doc.messages, doc.runs, doc.dispatches[d]);
      assert d in RunningIn(doc.dispatches, doc.dispatches[d].runId);
    }
  }

  // ---------------------------------------------------------------- restarting twice

  lemma {:induction false} NothingToAdopt(s: State, first: nat, bound: nat)
    requires !NeedsAdoption(s)
    ensures Adopt(s, first, bound) == Ok(s)
    decreases bound - first
  {
    if first < bound {
      NothingToAdopt(s, first + 1, bound);
    }
  }

  /** A second restart finds nothing to repair. */
  lemma RestartIdempotent(doc: State)
    requires Loadable(doc)
    ensures Restart(doc).Ok? && Restart(Restart(doc).value) == Restart(doc)
  {
    hide TeamsOk, OwnersOk, GraphOk, RunsOk, DispatchesOk, LinksOk, BusyOk, AloneOk, ConcurrencyOk, EventsOk;
    RestartResumes(doc);
    QuietRestart(Restart(doc).value);
  }

  lemma QuietRestart(s: State)
    requires Valid(s) && !WasInterrupted(s) && !SomebodyBusy(s.teams)
    ensures Restart(s) == Ok(s)
  {
    hide TeamsOk, OwnersOk, GraphOk, RunsOk, DispatchesOk, BusyOk, AloneOk, ConcurrencyOk;
    MaxSequenceBounds(s.events, s.sequence);
    assert Repaired(s).tasks == s.tasks;
    forall r ensures RunningIn(s.dispatches, r) == {} {
    }
    assert Repaired(s).runs == s.runs;
    forall d | d in s.dispatches ensures Repaired(s).dispatches[d] == s.dispatches[d] {
      RepairedDispatch(s, d);
    }
    assert Repaired(s).dispatches == s.dispatches;
    assert Repaired(s) == s;
    NothingToAdopt(s, 0, s.nextId);
  }
}
