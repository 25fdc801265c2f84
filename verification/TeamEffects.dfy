/** What each operation changes: dispatches and runs grow, tasks move forward, event numbers go up. */
module TeamEffects {
  import opened Common
  import opened Texts
  import opened TeamModel
  import opened TeamDependencies
  import opened TeamInvariant
  import opened TeamFrames
  import opened TeamProofs
  import opened TeamOperations
  import opened TeamControl
  import opened TeamCancel
  import opened TeamRestart
  import opened TeamCommands

  // ---------------------------------------------------------------- relations between states

  predicate Started(status: TaskStatus) {
    status == TaskRunning || status == TaskSucceeded || status == TaskFailed
  }

  predicate Final(status: TaskStatus) {
    !ActiveTask(status)
  }

  predicate AllSucceeded(tasks: map<Id, Task>, ids: seq<Id>) {
    forall i :: 0 <= i < |ids| ==> ids[i] in tasks && tasks[ids[i]].status == TaskSucceeded
  }

  /** A task that has started had the same dependencies before, and starts only when all have succeeded. */
  ghost predicate StartsInOrder(s: State, t: State) {
    forall x :: x in t.tasks && Started(t.tasks[x].status) ==>
      x in s.tasks && t.tasks[x].dependsOn == s.tasks[x].dependsOn &&
      (Started(s.tasks[x].status) || AllSucceeded(s.tasks, s.tasks[x].dependsOn))
  }

  /** Finished tasks stay as they are: an edit can still give one a new title, and so a new version. */
  ghost predicate FinishedStay(s: State, t: State) {
    forall x :: x in s.tasks && x in t.tasks && Final(s.tasks[x].status) ==>
      s.tasks[x].version <= t.tasks[x].version && t.tasks[x] == s.tasks[x].(version := t.tasks[x].version)
  }

  /** Events that were not there before have numbers above every number given out before. */
  ghost predicate EventsGoOn(s: State, t: State) {
    s.sequence <= t.sequence && forall e :: e in t.events ==> e in s.events || s.sequence < e.sequence
  }

  ghost predicate NoneCompletes(s: State, t: State) {
    forall r :: r in s.runs && r in t.runs && t.runs[r].status == RunCompleted ==> s.runs[r].status == RunCompleted
  }

  /** Every dispatch is kept, for the same task. */
  ghost predicate KeepsDispatches(s: State, t: State) {
    forall d :: d in s.dispatches ==> d in t.dispatches && t.dispatches[d].taskId == s.dispatches[d].taskId
  }

  /** New work for one unfinished run of the team: everything else is as before. */
  ghost predicate Grows(s: State, t: State, run: Id) {
    t.teams == s.teams && t.tasks == s.tasks &&
    (forall d :: d in s.dispatches ==>
       d in t.dispatches && SameWork(s.dispatches[d], t.dispatches[d]) &&
       (s.dispatches[d].runId != run ==> t.dispatches[d] == s.dispatches[d])) &&
    (forall d :: d in t.dispatches && d !in s.dispatches ==> t.dispatches[d].status == Queued && t.dispatches[d].runId == run) &&
    run in t.runs && Unfinished(t.runs[run].status) &&
    (forall r :: r in s.runs ==> r in t.runs && t.runs[r].teamId == s.runs[r].teamId) &&
    (forall r :: r in t.runs && r != run ==> r in s.runs && t.runs[r] == s.runs[r]) &&
    (run in s.runs ==> Unfinished(s.runs[run].status)) &&
    EventsGoOn(s, t)
  }

  lemma GrowsTrans(a: State, b: State, c: State, run: Id)
    requires Grows(a, b, run) && Grows(b, c, run)
    ensures Grows(a, c, run)
  {
  }

  lemma GrowsEmit(a: State, b: State, run: Id, teamId: Id, kind: EventKind, subject: Id)
    requires Grows(a, b, run)
    ensures Grows(a, Emit(b, teamId, kind, subject), run)
  {
  }

  lemma EnsureRunGrows(s: State, teamId: Id)
    requires s.nextId !in s.runs
    ensures Grows(s, EnsureRun(s, teamId).0, EnsureRun(s, teamId).1)
  {
    LastUnfinishedFound(s.runs, teamId, s.nextId);
  }

  lemma RegisterEdgeGrows(s: State, runId: Id, memberId: Id, parentId: Option<Id>)
    requires RegisterEdge(s, runId, memberId, parentId).Ok?
    ensures Grows(s, RegisterEdge(s, runId, memberId, parentId).value.0, runId)
  {
    RegisterEdgeFacts(s, runId, memberId, parentId);
    RegisterEdgeEvents(s, runId, memberId, parentId);
    hide RegisterEdge;
    var t := RegisterEdge(s, runId, memberId, parentId).value.0;
    assert s.dispatches.Keys == t.dispatches.Keys;
  }

  lemma RegisterEdgeEvents(s: State, runId: Id, memberId: Id, parentId: Option<Id>)
    requires RegisterEdge(s, runId, memberId, parentId).Ok?
    ensures EventsGoOn(s, RegisterEdge(s, runId, memberId, parentId).value.0)
  {
  }

  lemma NewDispatchGrows(s: State, run: Id, item: Dispatch)
    requires run in s.runs && Unfinished(s.runs[run].status) && s.nextId !in s.dispatches && item.status == Queued && item.runId == run
    ensures Grows(s, SetDispatch(s, s.nextId, item).(nextId := s.nextId + 1), run)
  {
  }

  /** A dispatch is added, so the run has work. */
  lemma EnqueueGrows(s: State, runId: Id, memberId: Id, parentId: Option<Id>, taskId: Option<Id>, messageIds: seq<Id>)
    requires Enqueue(s, runId, memberId, parentId, taskId, messageIds).Ok? && s.nextId !in s.dispatches
    ensures var t := Enqueue(s, runId, memberId, parentId, taskId, messageIds).value;
            Grows(s, t, runId)
  {
    hide RegisterEdge, Grows;
    RegisterEdgeGrows(s, runId, memberId, parentId);
    RegisterEdgeKeys(s, runId, memberId, parentId);
    var (linked, depth) := RegisterEdge(s, runId, memberId, parentId).value;
    AddQueuedGrows(s, linked, runId, Dispatch(linked.runs[runId].teamId, runId, memberId, taskId, messageIds, parentId,
                                              depth, {}, Queued, false));
  }

  lemma RegisterEdgeKeys(s: State, runId: Id, memberId: Id, parentId: Option<Id>)
    requires RegisterEdge(s, runId, memberId, parentId).Ok? && s.nextId !in s.dispatches
    ensures var linked := RegisterEdge(s, runId, memberId, parentId).value.0;
            linked.nextId == s.nextId && linked.nextId !in linked.dispatches && runId in linked.runs
  {
  }

  lemma AddQueuedGrows(s: State, linked: State, run: Id, item: Dispatch)
    requires Grows(s, linked, run) && linked.nextId !in linked.dispatches && item.status == Queued && item.runId == run
    ensures Grows(s, Emit(SetDispatch(linked, linked.nextId, item).(nextId := linked.nextId + 1), item.teamId,
                          DispatchUpdated, linked.nextId), run)
  {
    GrowsUnfinished(s, linked, run);
    hide Grows;
    NewDispatchGrows(linked, run, item);
    var added := SetDispatch(linked, linked.nextId, item).(nextId := linked.nextId + 1);
    GrowsTrans(s, linked, added, run);
    GrowsEmit(s, added, run, item.teamId, DispatchUpdated, linked.nextId);
  }

  lemma EnqueueAdds(s: State, runId: Id, memberId: Id, parentId: Option<Id>, taskId: Option<Id>, messageIds: seq<Id>)
    requires Enqueue(s, runId, memberId, parentId, taskId, messageIds).Ok?
    ensures var t := Enqueue(s, runId, memberId, parentId, taskId, messageIds).value;
            s.nextId in t.dispatches && t.dispatches[s.nextId].taskId == taskId &&
            t.dispatches[s.nextId].memberId == memberId && t.dispatches[s.nextId].messageIds == messageIds &&
            t.dispatches[s.nextId].runId == runId && t.dispatches[s.nextId].status == Queued &&
            Outstanding(t.dispatches, runId)
  {
    RegisterEdgeFacts(s, runId, memberId, parentId);
    hide RegisterEdge;
    var t := Enqueue(s, runId, memberId, parentId, taskId, messageIds).value;
    assert t.dispatches[s.nextId].status == Queued;
  }

  lemma JoinMailboxGrows(s: State, run: Id, pending: Id, item: Dispatch)
    requires run in s.runs && Unfinished(s.runs[run].status) && pending in s.dispatches
    requires SameWork(s.dispatches[pending], item) && item.runId == run
    ensures Grows(s, SetDispatch(s, pending, item), run)
  {
  }

  lemma DeliverToGrows(s: State, runId: Id, memberId: Id, messageId: Id, parentId: Option<Id>)
    requires DeliverTo(s, runId, memberId, messageId, parentId).Ok? && s.nextId !in s.dispatches
    ensures Grows(s, DeliverTo(s, runId, memberId, messageId, parentId).value, runId)
    ensures Outstanding(DeliverTo(s, runId, memberId, messageId, parentId).value.dispatches, runId)
  {
    hide Grows, Enqueue, RegisterEdge;
    FirstMailboxFound(s.dispatches, runId, memberId, 0, s.nextId);
    match FirstMailbox(s.dispatches, runId, memberId, 0, s.nextId)
    case None =>
      EnqueueGrows(s, runId, memberId, parentId, None, [messageId]);
      EnqueueAdds(s, runId, memberId, parentId, None, [messageId]);
    case Some(pending) =>
      RegisterEdgeGrows(s, runId, memberId, parentId);
      RegisterEdgeFacts(s, runId, memberId, parentId);
      var linked := RegisterEdge(s, runId, memberId, parentId).value.0;
      GrowsUnfinished(s, linked, runId);
      var t := DeliverTo(s, runId, memberId, messageId, parentId).value;
      JoinMailboxGrows(linked, runId, pending, t.dispatches[pending]);
      GrowsTrans(s, linked, t, runId);
      assert t.dispatches[pending].status == Queued && t.dispatches[pending].runId == runId;
  }

  lemma OutstandingKept(s: State, t: State, run: Id, r: Id)
    requires Grows(s, t, run) && Outstanding(s.dispatches, r)
    ensures Outstanding(t.dispatches, r)
  {
    var d :| d in s.dispatches && s.dispatches[d].runId == r && Active(s.dispatches[d].status);
    assert SameWork(s.dispatches[d], t.dispatches[d]);
  }

  lemma {:induction false} DeliverGrows(s: State, runId: Id, targets: seq<Id>, messageId: Id, parentId: Option<Id>)
    requires Valid(s) && Deliver(s, runId, targets, messageId, parentId).Ok?
    requires runId in s.runs && s.runs[runId].teamId in s.teams && Unfinished(s.runs[runId].status)
    requires forall i :: 0 <= i < |targets| ==> HasMember(s.teams[s.runs[runId].teamId], targets[i])
    requires messageId in s.messages && s.messages[messageId].teamId == s.runs[runId].teamId
    ensures Grows(s, Deliver(s, runId, targets, messageId, parentId).value, runId)
    ensures targets != [] ==> Outstanding(Deliver(s, runId, targets, messageId, parentId).value.dispatches, runId)
    decreases |targets|
  {
    hide TeamsOk, OwnersOk, GraphOk, RunsOk, DispatchesOk, LinksOk, BusyOk, AloneOk, ConcurrencyOk, EventsOk;
    if targets != [] {
      NextIsFresh(s);
      DeliverToGrows(s, runId, targets[0], messageId, parentId);
      DeliverToValid(s, runId, targets[0], messageId, parentId);
      DeliverToFrame(s, runId, targets[0], messageId, parentId);
      hide DeliverTo, Grows, Outstanding;
      var next := DeliverTo(s, runId, targets[0], messageId, parentId).value;
      GrowsUnfinished(s, next, runId);
      DeliverGrows(next, runId, targets[1..], messageId, parentId);
      var last := Deliver(next, runId, targets[1..], messageId, parentId).value;
      GrowsTrans(s, next, last, runId);
      OutstandingKept(next, last, runId, runId);
    } else {
      GrowsSelf(s, runId);
    }
  }

  lemma GrowsUnfinished(s: State, t: State, run: Id)
    requires Grows(s, t, run)
    ensures run in t.runs && Unfinished(t.runs[run].status)
  {
  }

  lemma GrowsSelf(s: State, run: Id)
    requires run in s.runs && Unfinished(s.runs[run].status)
    ensures Grows(s, s, run)
  {
  }

  lemma GrowsRebase(s: State, posted: State, t: State, run: Id)
    requires posted == s.(messages := posted.messages, nextId := posted.nextId) && Grows(posted, t, run)
    ensures Grows(s, t, run)
  {
  }

  function Posted(s: State, teamId: Id, from: Option<Id>, to: Option<Id>, body: string): State {
    s.(messages := s.messages[s.nextId := Message(teamId, from, to, Trim(body), false)], nextId := s.nextId + 1)
  }

  /** The run that a new message joins or opens. */
  function MailRun(s: State, teamId: Id): Id {
    EnsureRun(s.(nextId := s.nextId + 1), teamId).1
  }

  lemma PostedValid(s: State, teamId: Id, from: Option<Id>, to: Option<Id>, body: string)
    requires Valid(s) && teamId in s.teams
    ensures Valid(Posted(s, teamId, from, to, body)) && s.nextId + 1 !in s.runs
  {
    hide TeamsOk, OwnersOk, GraphOk, RunsOk, DispatchesOk, LinksOk, BusyOk, AloneOk, ConcurrencyOk, EventsOk;
    var posted := Posted(s, teamId, from, to, body);
    NewMessageOk(s, posted.messages[s.nextId], posted);
    TeamsStayOk(s.teams, s.nextId, posted.nextId);
    DispatchesStayOk(s, posted);
    NextFree(posted);
  }

  /** The state in which delivery starts. */
  lemma MailReady(s: State, teamId: Id, from: Option<Id>, to: Option<Id>, body: string)
    requires Valid(s) && teamId in s.teams
    ensures var posted := Posted(s, teamId, from, to, body);
            var (ready, run) := EnsureRun(posted, teamId);
            run == MailRun(s, teamId) && Valid(ready) && Grows(posted, ready, run) && ready.runs[run].teamId == teamId &&
            ready.messages == posted.messages && ready.teams == s.teams && ready.dispatches == s.dispatches &&
            (if run in s.runs then ready.runs == s.runs else ready.runs[run].status == RunRunning)
  {
    hide Valid, Grows;
    PostedValid(s, teamId, from, to, body);
    var posted := Posted(s, teamId, from, to, body);
    EnsureRunValidHere(posted, teamId);
    EnsureRunFacts(posted, teamId);
    EnsureRunGrows(posted, teamId);
  }

  lemma EnsureRunValidHere(s: State, teamId: Id)
    requires Valid(s) && teamId in s.teams
    ensures Valid(EnsureRun(s, teamId).0)
  {
    hide ValidWhile;
    EnsureRunValid(s, {}, teamId);
  }

  /** A message joins the team's unfinished run, or opens one, and gives every recipient work there. */
  lemma SendMessageGrows(s: State, teamId: Id, from: Option<Id>, to: Option<Id>, body: string, parentId: Option<Id>)
    requires Valid(s) && SendMessage(s, teamId, from, to, body, parentId).Ok?
    ensures var t := SendMessage(s, teamId, from, to, body, parentId).value.0;
            var run := MailRun(s, teamId);
            Grows(s, t, run) && (Targets(s.teams[teamId], from, to) != [] ==> Outstanding(t.dispatches, run))
  {
    hide Valid, Grows, Outstanding, EnsureRun, Deliver, Targets;
    var posted := Posted(s, teamId, from, to, body);
    var (ready, run) := EnsureRun(posted, teamId);
    var targets := Targets(s.teams[teamId], from, to);
    MailReady(s, teamId, from, to, body);
    GrowsUnfinished(posted, ready, run);
    TargetsAreMembers(s.teams[teamId], from, to);
    DeliverGrows(ready, run, targets, s.nextId, parentId);
    var delivered := Deliver(ready, run, targets, s.nextId, parentId).value;
    GrowsTrans(posted, ready, delivered, run);
    GrowsEmit(posted, delivered, run, teamId, MailReceived, s.nextId);
    GrowsRebase(s, posted, Emit(delivered, teamId, MailReceived, s.nextId), run);
  }

  /** Without recipients nothing is queued, and the run is the old one or a new empty one. */
  lemma NobodyReceives(s: State, teamId: Id, from: Option<Id>, to: Option<Id>, body: string, parentId: Option<Id>)
    requires Valid(s) && SendMessage(s, teamId, from, to, body, parentId).Ok? && Targets(s.teams[teamId], from, to) == []
    ensures var t := SendMessage(s, teamId, from, to, body, parentId).value.0;
            var run := MailRun(s, teamId);
            t.dispatches == s.dispatches &&
            if run in s.runs then t.runs == s.runs else run in t.runs && t.runs[run].status == RunRunning
  {
    hide Valid, EnsureRun, Targets;
    MailReady(s, teamId, from, to, body);
    var (ready, run) := EnsureRun(Posted(s, teamId, from, to, body), teamId);
    assert Deliver(ready, run, [], s.nextId, parentId) == Ok(ready);
  }
}
