/** Where work comes from: who handed it on, to whom and how deep, and what stays of a dispatch, a message and a task. */
module TeamHandOver {
  import opened Common
  import opened Texts
  import opened TeamModel
  import opened TeamInvariant
  import opened TeamProofs
  import opened TeamOperations
  import opened TeamCancel
  import opened TeamRestart
  import opened TeamCommands
  import opened TeamEffects
  import opened TeamSteps
  import opened TeamOutcomes
  import opened TeamLimits
  import TeamMail

  /** Work in the name of a turn is one level below it; other work is at the top. */
  function Level(s: State, p: Option<Id>): nat {
    if IsParent(s, p) then s.dispatches[p.value].depth + 1 else 0
  }

  function Deeper(a: nat, b: nat): nat {
    if a < b then b else a
  }

  /** Work that was there: its turn has handed on to `more`, and a message that joins it can only take it deeper. */
  predicate OldWork(a: Dispatch, b: Dispatch, more: set<Id>, level: nat) {
    b.teamId == a.teamId && b.runId == a.runId && b.memberId == a.memberId && b.taskId == a.taskId &&
    b.parentId == a.parentId && b.submitted == a.submitted && b.fanout == a.fanout + more &&
    a.messageIds <= b.messageIds && b.depth == if b.messageIds == a.messageIds then a.depth else Deeper(a.depth, level)
  }

  predicate NewWork(b: Dispatch, r: Id, p: Option<Id>, level: nat, members: set<Id>) {
    b.runId == r && b.memberId in members && b.parentId == p && b.depth == level && b.fanout == {} && !b.submitted
  }

  /** The members that the turn hands work to when these get work in the name of `p`. */
  function Share(d: Id, p: Option<Id>, members: set<Id>): set<Id> {
    if p == Some(d) then members else {}
  }

  ghost predicate Handed(s: State, t: State, d: Id, r: Id, p: Option<Id>, members: set<Id>) {
    (d in s.dispatches ==> d in t.dispatches && OldWork(s.dispatches[d], t.dispatches[d], Share(d, p, members), Level(s, p))) &&
    (d in t.dispatches && d !in s.dispatches ==> NewWork(t.dispatches[d], r, p, Level(s, p), members))
  }

  /** The dispatches with the members noted at the turn that hands on to them. */
  function WithShare(s: State, p: Option<Id>, members: set<Id>): map<Id, Dispatch> {
    if IsParent(s, p) then s.dispatches[p.value := s.dispatches[p.value].(fanout := s.dispatches[p.value].fanout + members)]
    else s.dispatches
  }

  lemma EdgeForm(s: State, r: Id, m: Id, p: Option<Id>)
    requires RegisterEdge(s, r, m, p).Ok?
    ensures var (t, depth) := RegisterEdge(s, r, m, p).value;
            t.dispatches == WithShare(s, p, {m}) && depth == Level(s, p) && t.nextId == s.nextId &&
            r in s.runs && r in t.runs && t.runs[r].teamId == s.runs[r].teamId
  {
  }

  function NewItem(s: State, r: Id, m: Id, p: Option<Id>, x: Option<Id>, mail: seq<Id>): Dispatch
    requires r in s.runs
  {
    Dispatch(s.runs[r].teamId, r, m, x, mail, p, Level(s, p), {}, Queued, false)
  }

  lemma EnqueueForm(s: State, r: Id, m: Id, p: Option<Id>, x: Option<Id>, mail: seq<Id>)
    requires Enqueue(s, r, m, p, x, mail).Ok?
    ensures r in s.runs &&
            Enqueue(s, r, m, p, x, mail).value.dispatches == WithShare(s, p, {m})[s.nextId := NewItem(s, r, m, p, x, mail)]
  {
    hide RegisterEdge, Level, WithShare;
    EdgeForm(s, r, m, p);
  }

  lemma NewItemWorks(s: State, t: State, r: Id, m: Id, p: Option<Id>, x: Option<Id>, mail: seq<Id>, d: Id)
    requires r in s.runs && s.nextId !in s.dispatches
    requires t.dispatches == WithShare(s, p, {m})[s.nextId := NewItem(s, r, m, p, x, mail)]
    ensures Handed(s, t, d, r, p, {m})
    ensures d in t.dispatches && d !in s.dispatches ==> t.dispatches[d].taskId == x
  {
    hide Level;
  }

  /** The waiting work that a message joins. */
  function JoinedItem(s: State, e: Id, p: Option<Id>, mail: Id): Dispatch
    requires e in s.dispatches
  {
    s.dispatches[e].(depth := Deeper(s.dispatches[e].depth, Level(s, p)), messageIds := s.dispatches[e].messageIds + [mail])
  }

  lemma DeliverToForm(s: State, r: Id, m: Id, mail: Id, p: Option<Id>) returns (joins: Option<Id>)
    requires DeliverTo(s, r, m, mail, p).Ok?
    ensures joins.None? ==> r in s.runs && DeliverTo(s, r, m, mail, p).value.dispatches ==
                              WithShare(s, p, {m})[s.nextId := NewItem(s, r, m, p, None, [mail])]
    ensures joins.Some? ==> joins.value in s.dispatches && s.dispatches[joins.value].status == Queued &&
                            DeliverTo(s, r, m, mail, p).value.dispatches ==
                              WithShare(s, p, {m})[joins.value := JoinedItem(s, joins.value, p, mail)]
  {
    hide RegisterEdge, Level, WithShare, Enqueue;
    joins := FirstMailbox(s.dispatches, r, m, 0, s.nextId);
    FirstMailboxFound(s.dispatches, r, m, 0, s.nextId);
    if joins.None? {
      EnqueueForm(s, r, m, p, None, [mail]);
    } else {
      EdgeForm(s, r, m, p);
    }
  }

  lemma JoinedItemWorks(s: State, t: State, r: Id, m: Id, p: Option<Id>, mail: Id, e: Id, d: Id)
    requires e in s.dispatches && s.dispatches[e].status == Queued && HasBegun(s, p)
    requires t.dispatches == WithShare(s, p, {m})[e := JoinedItem(s, e, p, mail)]
    ensures Handed(s, t, d, r, p, {m}) && ForMail(s, t, d)
  {
    hide Level;
  }

  /** Work that is new is for no task. */
  predicate ForMail(s: State, t: State, d: Id) {
    d in t.dispatches && d !in s.dispatches ==> t.dispatches[d].taskId == None
  }

  lemma DeliverToWorks(s: State, r: Id, m: Id, mail: Id, p: Option<Id>, d: Id)
    requires DeliverTo(s, r, m, mail, p).Ok? && s.nextId !in s.dispatches && HasBegun(s, p)
    ensures Handed(s, DeliverTo(s, r, m, mail, p).value, d, r, p, {m}) && ForMail(s, DeliverTo(s, r, m, mail, p).value, d)
  {
    hide DeliverTo, Handed, Level, WithShare, HasBegun;
    var joins := DeliverToForm(s, r, m, mail, p);
    if joins.None? {
      NewItemWorks(s, DeliverTo(s, r, m, mail, p).value, r, m, p, None, [mail], d);
    } else {
      JoinedItemWorks(s, DeliverTo(s, r, m, mail, p).value, r, m, p, mail, joins.value, d);
    }
  }

  lemma WorksTwice(s: State, t: State, u: State, d: Id, r: Id, p: Option<Id>, m: Id, more: set<Id>)
    requires Handed(s, t, d, r, p, {m}) && Handed(t, u, d, r, p, more) && Level(t, p) == Level(s, p)
    requires IsParent(u, p) ==> IsParent(s, p)
    ensures Handed(s, u, d, r, p, {m} + more) && (ForMail(s, t, d) && ForMail(t, u, d) ==> ForMail(s, u, d))
  {
    if d in s.dispatches {
      var a, b, c := s.dispatches[d], t.dispatches[d], u.dispatches[d];
      assert |a.messageIds| <= |b.messageIds| <= |c.messageIds|;
    }
  }

  ghost predicate Below(s: State) {
    forall e :: e in s.dispatches ==> e < s.nextId
  }

  lemma DeliverToBelow(s: State, r: Id, m: Id, mail: Id, p: Option<Id>)
    requires DeliverTo(s, r, m, mail, p).Ok? && Below(s) && HasBegun(s, p)
    ensures var t := DeliverTo(s, r, m, mail, p).value;
            Below(t) && s.nextId <= t.nextId && Level(t, p) == Level(s, p) && HasBegun(t, p) && (IsParent(t, p) ==> IsParent(s, p))
  {
    hide Level, HasBegun;
    DeliverToRuns(s, r, m, mail, p);
    NotedLevel(s, DeliverTo(s, r, m, mail, p).value, p, m);
    var joins := DeliverToForm(s, r, m, mail, p);
    DeliverToNext(s, r, m, mail, p);
    hide DeliverTo;
  }

  lemma NotedLevel(s: State, t: State, p: Option<Id>, m: Id)
    requires Noted(s, t, p, {m})
    ensures Level(t, p) == Level(s, p)
  {
  }

  lemma DeliverToNext(s: State, r: Id, m: Id, mail: Id, p: Option<Id>)
    requires DeliverTo(s, r, m, mail, p).Ok?
    ensures var t := DeliverTo(s, r, m, mail, p).value;
            s.nextId <= t.nextId && (s.nextId !in s.dispatches && s.nextId in t.dispatches ==> s.nextId < t.nextId)
  {
    FirstMailboxFound(s.dispatches, r, m, 0, s.nextId);
    EdgeNext(s, r, m, p);
    hide RegisterEdge;
  }

  lemma EdgeNext(s: State, r: Id, m: Id, p: Option<Id>)
    requires RegisterEdge(s, r, m, p).Ok?
    ensures RegisterEdge(s, r, m, p).value.0.nextId == s.nextId
    ensures s.nextId !in s.dispatches ==> s.nextId !in RegisterEdge(s, r, m, p).value.0.dispatches
  {
  }

  lemma {:induction false} DeliverWorks(s: State, r: Id, targets: seq<Id>, mail: Id, p: Option<Id>, d: Id)
    requires Deliver(s, r, targets, mail, p).Ok? && Below(s) && HasBegun(s, p)
    ensures Handed(s, Deliver(s, r, targets, mail, p).value, d, r, p, Of(targets))
    ensures ForMail(s, Deliver(s, r, targets, mail, p).value, d)
    ensures IsParent(Deliver(s, r, targets, mail, p).value, p) ==> IsParent(s, p)
    decreases |targets|
  {
    hide DeliverTo, Handed, Level, HasBegun, Below;
    if targets == [] {
      WorksNone(s, d, r, p);
      assert Of(targets) == {};
    } else {
      var next := DeliverTo(s, r, targets[0], mail, p).value;
      BelowFree(s);
      DeliverToBelow(s, r, targets[0], mail, p);
      DeliverToWorks(s, r, targets[0], mail, p, d);
      DeliverWorks(next, r, targets[1..], mail, p, d);
      WorksTwice(s, next, Deliver(s, r, targets, mail, p).value, d, r, p, targets[0], Of(targets[1..]));
      assert Of(targets) == {targets[0]} + Of(targets[1..]);
    }
  }

  lemma BelowFree(s: State)
    requires Below(s)
    ensures s.nextId !in s.dispatches
  {
  }

  lemma WorksNone(s: State, d: Id, r: Id, p: Option<Id>)
    ensures Handed(s, s, d, r, p, {})
  {
  }

  // ---------------------------------------------------------------- the law

  /** The turn ended, and its run's lead is told. */
  predicate Tells(s: State, d: Id) {
    IsTurn(s, d) && s.dispatches[d].runId in s.runs && s.dispatches[d].teamId in s.teams &&
    Unfinished(s.runs[s.dispatches[d].runId].status) && s.runs[s.dispatches[d].runId].status != RunInterrupted &&
    !IsLead(s.teams[s.dispatches[d].teamId], s.dispatches[d].memberId)
  }

  function LeadsOf(s: State, k: Id): set<Id> {
    if k in s.teams && LeadOf(s.teams[k].members).Some? then {LeadOf(s.teams[k].members).value} else {}
  }

  /** In whose name a command makes work. */
  function GivenBy(c: Command): Option<Id> {
    match c
    case Queue(_, _, _, _, _, p) => p
    case Post(_, _, _, _, p) => p
    case Finish(d, _) => Some(d)
    case _ => None
  }

  /** And for whom. */
  function GivenTo(s: State, c: Command): set<Id> {
    match c
    case Queue(_, m, _, _, _, _) => {m}
    case Post(k, from, to, _, _) => if k in s.teams then Recipients(s.teams[k], from, to) else {}
    case Finish(d, _) => if Tells(s, d) then LeadsOf(s, s.dispatches[d].teamId) else {}
    case Launch(k, _, m) => if m.Some? then {m.value} else LeadsOf(s, k)
    case Control(k, _, Resume) => LeadsOf(s, k)
    case _ => {}
  }

  /** What the other commands make of work: a turn is submitted, and queued work of a resumed run starts again at the top. */
  function Rest(s: State, c: Command, d: Id): Dispatch
    requires d in s.dispatches
  {
    var item := s.dispatches[d];
    match c
    case Submit(e) => if e == d && item.status == Running then item.(submitted := true) else item
    case Control(_, r, Resume) => if item.runId == r && item.status == Queued then item.(depth := 0, parentId := None) else item
    case _ => item
  }

  ghost predicate WorkBecomes(s: State, c: Command, t: State, d: Id) {
    d in t.dispatches ==>
      if d in s.dispatches
      then OldWork(Rest(s, c, d), t.dispatches[d], Share(d, GivenBy(c), GivenTo(s, c)), Level(s, GivenBy(c)))
      else NewWork(t.dispatches[d], t.dispatches[d].runId, GivenBy(c), Level(s, GivenBy(c)), GivenTo(s, c)) &&
           t.dispatches[d].taskId == if c.Queue? then Some(s.nextId) else None
  }

  lemma DispatchesBelow(s: State)
    requires Valid(s)
    ensures Below(s)
  {
    hide TeamsOk, OwnersOk, GraphOk, RunsOk, LinksOk, BusyOk, AloneOk, ConcurrencyOk, EventsOk;
  }

  lemma QueueWork(s: State, k: Id, m: Id, title: string, input: string, dependsOn: seq<Id>, p: Option<Id>, d: Id)
    requires Valid(s) && QueueTask(s, k, m, title, input, dependsOn, p).Ok?
    ensures WorkBecomes(s, Queue(k, m, title, input, dependsOn, p), QueueTask(s, k, m, title, input, dependsOn, p).value.0, d)
  {
    hide Valid, Enqueue, ValidateDependencies, EnsureRun, Accepted, Level, WithShare, OldWork;
    var added := s.(tasks := s.tasks[s.nextId := Task(k, m, 1, dependsOn, TaskQueued, None)], nextId := s.nextId + 1);
    DispatchesBelow(s);
    RunsBelow(s);
    CurrentRun(added, k);
    var (ready, run) := EnsureRun(added, k);
    EnqueueForm(ready, run, m, p, Some(s.nextId), []);
    SameLevel(s, ready, p);
    NewItemWorks(ready, QueueTask(s, k, m, title, input, dependsOn, p).value.0, run, m, p, Some(s.nextId), [], d);
  }

  lemma SameLevel(s: State, t: State, p: Option<Id>)
    requires t.dispatches == s.dispatches
    ensures Level(t, p) == Level(s, p)
  {
  }

  lemma PostWorks(s: State, k: Id, from: Option<Id>, to: Option<Id>, body: string, p: Option<Id>, d: Id) returns (run: Id)
    requires Valid(s) && SendMessage(s, k, from, to, body, p).Ok? && HasBegun(s, p)
    ensures k in s.teams && Handed(s, SendMessage(s, k, from, to, body, p).value.0, d, run, p, Recipients(s.teams[k], from, to))
    ensures ForMail(s, SendMessage(s, k, from, to, body, p).value.0, d)
  {
    hide Valid, Deliver, EnsureRun, Targets, Recipients, HasBegun, Accepted, Level, OldWork, NewWork;
    var posted := Posted(s, k, from, to, body);
    var targets := Targets(s.teams[k], from, to);
    DispatchesBelow(s);
    RunsBelow(s);
    CurrentRun(posted, k);
    var (ready, id) := EnsureRun(posted, k);
    run := id;
    RecipientsAre(s.teams[k], from, to);
    StillBegun(s, ready, p);
    SameLevel(s, ready, p);
    DeliverWorks(ready, run, targets, s.nextId, p, d);
  }

  lemma PostWork(s: State, k: Id, from: Option<Id>, to: Option<Id>, body: string, p: Option<Id>, d: Id)
    requires Valid(s) && SendMessage(s, k, from, to, body, p).Ok? && HasBegun(s, p)
    ensures WorkBecomes(s, Post(k, from, to, body, p), SendMessage(s, k, from, to, body, p).value.0, d)
  {
    hide Valid, SendMessage, Recipients, HasBegun, Level, OldWork;
    var run := PostWorks(s, k, from, to, body, p, d);
  }

  lemma LaunchWork(s: State, k: Id, input: string, target: Option<Id>, d: Id)
    requires Valid(s) && StartRun(s, k, input, target).Ok?
    ensures WorkBecomes(s, Launch(k, input, target), StartRun(s, k, input, target).value.0, d)
  {
    hide Valid, EnsureRun, Enqueue, Trim, LeadOf, HasMember;
    DispatchesBelow(s);
    RunsBelow(s);
    CurrentRun(s, k);
    var (ready, run) := EnsureRun(s, k);
    var m := if target.Some? then target.value else LeadOf(s.teams[k].members).value;
    EnqueueForm(ready, run, m, None, None, []);
    NewItemWorks(ready, StartRun(s, k, input, target).value.0, run, m, None, None, [], d);
  }

  lemma ResumeWork(s: State, k: Id, r: Id, d: Id)
    requires Valid(s) && ControlRun(s, k, r, Resume).Ok?
    ensures WorkBecomes(s, Control(k, r, Resume), ControlRun(s, k, r, Resume).value, d)
  {
    hide Valid, Enqueue, LeadOf;
    DispatchesBelow(s);
    var run := s.runs[r];
    if run.status == RunInterrupted || run.reason == DependencyFailed {
      var rebased := SetRun(s, r, Run(k, RunRunning, run.segment + 1, 0, 0, NoReason)).(dispatches := RebasedAll(s.dispatches, r));
      var lead := LeadOf(s.teams[k].members).value;
      EnqueueForm(rebased, r, lead, None, None, []);
      NewItemWorks(rebased, ControlRun(s, k, r, Resume).value, r, lead, None, None, [], d);
    }
  }

  /** Commands that make no work, and change of the work that is there only its status, or that it is submitted. */
  predicate MakesNone(c: Command) {
    !c.Queue? && !c.Post? && !c.Finish? && !c.Launch? && !(c.Control? && c.action != Pause)
  }

  lemma SameWorkBecomes(s: State, c: Command, t: State, d: Id)
    requires MakesNone(c) && (d in t.dispatches ==> d in s.dispatches && SameButStatus(Rest(s, c, d), t.dispatches[d]))
    ensures WorkBecomes(s, c, t, d)
  {
  }

  predicate SameButStatus(a: Dispatch, b: Dispatch) {
    b == a.(status := b.status)
  }

  lemma CancelWork(s: State, k: Id, r: Id, d: Id)
    requires Valid(s) && ControlRun(s, k, r, Cancel).Ok?
    ensures WorkBecomes(s, Control(k, r, Cancel), ControlRun(s, k, r, Cancel).value, d)
  {
    hide Valid, Quiets, ControlRun;
    CancelledRun(s, k, r);
    QuietWork(s, ControlRun(s, k, r, Cancel).value, r, d);
  }

  lemma QuietWork(s: State, t: State, r: Id, d: Id)
    requires Quiets(s, t.(runs := s.runs), r)
    ensures d in t.dispatches ==> d in s.dispatches && SameButStatus(s.dispatches[d], t.dispatches[d])
  {
    assert d in t.dispatches <==> d in s.dispatches.Keys;
  }

  lemma SettledOld(s: State, t: State, u: State, e: Id, d: Id, r: Id, p: Option<Id>, members: set<Id>)
    requires SettledWork(s, t, e) && Handed(t, u, d, r, p, members) && ForMail(t, u, d)
    ensures Handed(s, u, d, r, p, members) && ForMail(s, u, d)
  {
    assert Level(t, p) == Level(s, p);
  }

  lemma SettledSame(s: State, t: State, e: Id, d: Id, report: Report)
    requires SettledWork(s, t, e) && !Tells(s, e)
    ensures WorkBecomes(s, Finish(e, report), t, d)
  {
  }

  lemma WorksBecome(s: State, u: State, e: Id, d: Id, r: Id, lead: Id, report: Report)
    requires Handed(s, u, d, r, Some(e), {lead}) && ForMail(s, u, d) && GivenTo(s, Finish(e, report)) == {lead}
    ensures WorkBecomes(s, Finish(e, report), u, d)
  {
  }

  lemma FinishWork(s: State, e: Id, report: Report, d: Id)
    requires Valid(s) && FinishDispatch(s, e, report).Ok?
    ensures WorkBecomes(s, Finish(e, report), FinishDispatch(s, e, report).value, d)
  {
    hide Valid, Settle, HasBegun, SendMessage, ReportBody, SettledWork, Level, OldWork, NewWork, LeadOf, IsLead, WorkBecomes, Handed;
    if IsTurn(s, e) {
      var t, item := Settle(s, e, report).value, s.dispatches[e];
      SettledHere(s, e, report);
      DispatchRun(s, e);
      DispatchIs(s, e);
      LeadIs(s, item.teamId, item.memberId);
      var u := FinishDispatch(s, e, report).value;
      if Tells(s, e) {
        var lead := LeadOf(s.teams[item.teamId].members).value;
        HandingAfter(s.runs[item.runId], s, t, e, {});
        var run := PostWorks(t, item.teamId, Some(item.memberId), Some(lead), ReportBody(report), Some(e), d);
        var sent := SendMessage(t, item.teamId, Some(item.memberId), Some(lead), ReportBody(report), Some(e)).value.0;
        SettledOld(s, t, sent, e, d, run, Some(e), {lead});
        assert u.dispatches == sent.dispatches;
        SameWorks(s, sent, u, d, run, Some(e), {lead});
        WorksBecome(s, u, e, d, run, lead, report);
      } else {
        SettledSame(s, t, e, d, report);
        assert u.dispatches == t.dispatches;
        SameDispatches(s, Finish(e, report), t, u, d);
      }
    } else {
      NotATurn(s, e, report, d);
    }
  }

  lemma NotATurn(s: State, e: Id, report: Report, d: Id)
    requires !IsTurn(s, e)
    ensures WorkBecomes(s, Finish(e, report), s, d)
  {
  }

  lemma SameWorks(s: State, t: State, u: State, d: Id, r: Id, p: Option<Id>, members: set<Id>)
    requires Handed(s, t, d, r, p, members) && ForMail(s, t, d) && u.dispatches == t.dispatches
    ensures Handed(s, u, d, r, p, members) && ForMail(s, u, d)
  {
  }

  lemma SameDispatches(s: State, c: Command, t: State, u: State, d: Id)
    requires WorkBecomes(s, c, t, d) && u.dispatches == t.dispatches
    ensures WorkBecomes(s, c, u, d)
  {
  }

  // ---------------------------------------------------------------- commands that make no work

  lemma MovedWork(s: State, c: Command, d: Id)
    requires Valid(s) && MakesNone(c) && Apply(s, c).1.Ok?
    ensures var t := Apply(s, c).0;
            d in t.dispatches ==> d in s.dispatches && SameButStatus(Rest(s, c, d), t.dispatches[d])
  {
    hide Valid, UpdateTeam, UpdateMember, RemoveMember, AddMember, CreateTeam, Acknowledge, RetainedEvents, Recruit, PauseBlocked;
    hide UpdateTask, Restart, WithStatus, BeginDispatch, CancelTask, Orderly, FinishedStay, Pauses, EventsGoOn;
    hide ControlRun, DeleteTeam, SubmitDispatch, DeferDispatch;
    var t := Apply(s, c).0;
    match c {
      case Begin(e) =>
        BeginWork(s, e);
      case Hire(k, e, name) => RecruitForm(s, k, e, name);
      case PauseIdle =>
        PauseBlockedPauses(s, 0, s.nextId);
        PausesWork(s, t);
      case Reopen => ReopenWork(s, d);
      case Stop(k, x) => StopWork(s, k, x, d);
      case Control(k, r, action) => PauseWork(s, k, r);
      case Drop(k) => DropWork(s, k, d);
      case Submit(e) => SubmitWork(s, e, d);
      case Defer(e) => DeferWork(s, e, d);
      case EditTask(k, x, version, edit, caller) => EditWork(s, k, x, version, edit, caller);
      case _ => RosterSteps(s, c);
    }
  }

  lemma BeginWork(s: State, e: Id)
    requires BeginDispatch(s, e).1.Ok?
    ensures e in s.dispatches &&
            BeginDispatch(s, e).0.dispatches == s.dispatches[e := s.dispatches[e].(status := Running)]
  {
    hide RunningIn, IsBusy, HasMember, WithStatus;
  }

  lemma EditWork(s: State, k: Id, x: Id, version: nat, edit: TaskEdit, caller: Option<Id>)
    requires UpdateTask(s, k, x, version, edit, caller).Ok?
    ensures UpdateTask(s, k, x, version, edit, caller).value.dispatches == s.dispatches
  {
  }

  lemma PauseWork(s: State, k: Id, r: Id)
    requires ControlRun(s, k, r, Pause).Ok?
    ensures ControlRun(s, k, r, Pause).value.dispatches == s.dispatches
  {
  }

  lemma DropWork(s: State, k: Id, d: Id)
    requires DeleteTeam(s, k).Ok?
    ensures var t := DeleteTeam(s, k).value; d in t.dispatches ==> d in s.dispatches && t.dispatches[d] == s.dispatches[d]
  {
    hide RetainedEvents;
  }

  lemma SubmitWork(s: State, e: Id, d: Id)
    ensures var t := SubmitDispatch(s, e); d in t.dispatches ==> d in s.dispatches && SameButStatus(Rest(s, Submit(e), d), t.dispatches[d])
  {
  }

  lemma DeferWork(s: State, e: Id, d: Id)
    requires DeferDispatch(s, e).Ok?
    ensures var t := DeferDispatch(s, e).value;
            d in t.dispatches ==> d in s.dispatches && SameButStatus(s.dispatches[d], t.dispatches[d])
  {
    hide WithStatus;
  }

  lemma StopWork(s: State, k: Id, x: Id, d: Id)
    requires CancelTask(s, k, x).Ok?
    ensures var t := CancelTask(s, k, x).value;
            d in t.dispatches ==> d in s.dispatches && SameButStatus(s.dispatches[d], t.dispatches[d])
  {
    hide WithStatus;
  }

  lemma ReopenWork(s: State, d: Id)
    requires Valid(s) && Restart(s).Ok?
    ensures var t := Restart(s).value;
            d in t.dispatches ==> d in s.dispatches && SameButStatus(s.dispatches[d], t.dispatches[d])
  {
    hide Restart, RestartTeams, BusyOk, AloneOk, ConcurrencyOk, EventsOk, TeamsOk, OwnersOk, GraphOk, RunsOk, DispatchesOk;
    NoAdoption(s);
    if d in s.dispatches {
      RepairedDispatch(s, d);
    }
  }

  /**
   Every command that is accepted leaves the work that is there as it was, but for its status, for the members its turn
   handed on to and for the messages that join it; new work is that of the command, one level below the turn it comes from.
   */
  lemma StepWork(s: State, c: Command, d: Id)
    requires Valid(s) && Apply(s, c).1.Ok? && !ForWaiting(s, c)
    ensures WorkBecomes(s, c, Apply(s, c).0, d)
  {
    hide Valid, FinishDispatch, ControlRun, SendMessage, QueueTask, StartRun, WorkBecomes, HasBegun, SameButStatus, GivenTo, Rest;
    match c {
      case Queue(k, m, title, input, dependsOn, p) => QueueWork(s, k, m, title, input, dependsOn, p, d);
      case Post(k, from, to, body, p) => PostWork(s, k, from, to, body, p, d);
      case Finish(e, report) => FinishWork(s, e, report, d);
      case Launch(k, input, target) => LaunchWork(s, k, input, target, d);
      case Control(k, r, Resume) => ResumeWork(s, k, r, d);
      case Control(k, r, Cancel) => CancelWork(s, k, r, d);
      case _ =>
        MovedWork(s, c, d);
        SameWorkBecomes(s, c, Apply(s, c).0, d);
    }
  }

  /** When a message joins the very work in whose name it is sent, that work does not note the recipient. */
  lemma JoinedForgets(s: State, r: Id, m: Id, mail: Id, d: Id)
    requires d in s.dispatches && FirstMailbox(s.dispatches, r, m, 0, s.nextId) == Some(d)
    requires DeliverTo(s, r, m, mail, Some(d)).Ok?
    ensures d in DeliverTo(s, r, m, mail, Some(d)).value.dispatches &&
            DeliverTo(s, r, m, mail, Some(d)).value.dispatches[d].fanout == s.dispatches[d].fanout
  {
  }

  // ---------------------------------------------------------------- messages

  /** A message is marked as read when a turn that carries it was submitted; nothing else of it changes. */
  ghost predicate MessageBecomes(s: State, c: Command, t: State, m: Id) {
    m in s.messages && m in t.messages ==>
      t.messages[m] == s.messages[m].(read := s.messages[m].read ||
        (c.Submit? && IsTurn(s, c.dispatchId) && m in s.dispatches[c.dispatchId].messageIds))
  }

  /** No message of the old state is changed. */
  predicate KeepsMail(s: State, t: State) {
    forall m :: m in s.messages && m in t.messages ==> t.messages[m] == s.messages[m]
  }

  lemma EnqueueKeepsMail(s: State, r: Id, m: Id, p: Option<Id>, x: Option<Id>, mail: seq<Id>)
    requires Enqueue(s, r, m, p, x, mail).Ok?
    ensures Enqueue(s, r, m, p, x, mail).value.messages == s.messages
  {
    hide RegisterEdge;
    RegisterEdgeFacts(s, r, m, p);
  }

  lemma QueueKeepsMail(s: State, k: Id, m: Id, title: string, input: string, dependsOn: seq<Id>, p: Option<Id>)
    requires QueueTask(s, k, m, title, input, dependsOn, p).Ok?
    ensures KeepsMail(s, QueueTask(s, k, m, title, input, dependsOn, p).value.0)
  {
    hide Enqueue, ValidateDependencies, EnsureRun, Accepted;
    var added := s.(tasks := s.tasks[s.nextId := Task(k, m, 1, dependsOn, TaskQueued, None)], nextId := s.nextId + 1);
    EnsureRunFacts(added, k);
    var (ready, run) := EnsureRun(added, k);
    EnqueueKeepsMail(ready, run, m, p, Some(s.nextId), []);
  }

  lemma PostKeepsMail(s: State, k: Id, from: Option<Id>, to: Option<Id>, body: string, p: Option<Id>)
    requires Valid(s) && SendMessage(s, k, from, to, body, p).Ok?
    ensures KeepsMail(s, SendMessage(s, k, from, to, body, p).value.0)
  {
    hide Valid, SendMessage, TeamMail.IsFor, TeamMail.Carries, TeamMail.Delivered;
    TeamMail.MailReachesEverybody(s, k, from, to, body, p);
  }

  lemma LaunchKeepsMail(s: State, k: Id, input: string, target: Option<Id>)
    requires StartRun(s, k, input, target).Ok?
    ensures KeepsMail(s, StartRun(s, k, input, target).value.0)
  {
    hide EnsureRun, Enqueue, Trim, LeadOf, HasMember;
    EnsureRunFacts(s, k);
    var (ready, run) := EnsureRun(s, k);
    EnqueueKeepsMail(ready, run, if target.Some? then target.value else LeadOf(s.teams[k].members).value, None, None, []);
  }

  lemma {:induction false} CancelItemsKeepMail(s: State, r: Id, first: nat, bound: nat)
    requires CancelItems(s, r, first, bound).Ok?
    ensures CancelItems(s, r, first, bound).value.messages == s.messages
    decreases bound - first
  {
    hide CancelItem;
    if first < bound {
      CancelItemKeepsMail(s, r, first);
      CancelItemsKeepMail(CancelItem(s, r, first).value, r, first + 1, bound);
    }
  }

  lemma CancelItemKeepsMail(s: State, r: Id, d: Id)
    requires CancelItem(s, r, d).Ok?
    ensures CancelItem(s, r, d).value.messages == s.messages
  {
    hide WithStatus, StoppedFor;
  }

  lemma {:induction false} PauseKeepsMail(s: State, first: nat, bound: nat)
    ensures PauseBlocked(s, first, bound).messages == s.messages
    decreases bound - first
  {
    if first < bound {
      if Blocked(s, first) {
        var run := s.runs[first];
        PauseKeepsMail(Emit(SetRun(s, first, run.(status := RunPaused, reason := DependencyFailed)), run.teamId, RunUpdated, first),
                       first + 1, bound);
      } else {
        PauseKeepsMail(s, first + 1, bound);
      }
    }
  }

  lemma ControlKeepsMail(s: State, k: Id, r: Id, action: Action)
    requires ControlRun(s, k, r, action).Ok?
    ensures KeepsMail(s, ControlRun(s, k, r, action).value)
  {
    hide CancelItems, Enqueue, RebasedAll, LeadOf;
    var run := s.runs[r];
    match action
    case Pause =>
    case Cancel => CancelItemsKeepMail(SetRun(s, r, run.(status := RunCancelled, reason := NoReason)), r, 0, s.nextId);
    case Resume =>
      var rebased := SetRun(s, r, Run(k, RunRunning, run.segment + 1, 0, 0, NoReason)).(dispatches := RebasedAll(s.dispatches, r));
      if run.status == RunInterrupted || run.reason == DependencyFailed {
        EnqueueKeepsMail(rebased, r, LeadOf(s.teams[k].members).value, None, None, []);
      }
  }

  lemma FinishKeepsMail(s: State, d: Id, report: Report)
    requires Valid(s) && FinishDispatch(s, d, report).Ok?
    ensures KeepsMail(s, FinishDispatch(s, d, report).value)
  {
    hide Valid, Settle, SendMessage, ReportBody, LeadOf, Outstanding;
    if IsTurn(s, d) {
      var t, item := Settle(s, d, report).value, s.dispatches[d];
      SettledHere(s, d, report);
      SettleKeepsMail(s, d, report);
      var lead := LeadOf(t.teams[item.teamId].members);
      if Unfinished(t.runs[item.runId].status) && t.runs[item.runId].status != RunInterrupted && lead.value != item.memberId {
        PostKeepsMail(t, item.teamId, Some(item.memberId), lead, ReportBody(report), Some(d));
      }
    }
  }

  lemma SettleKeepsMail(s: State, d: Id, report: Report)
    requires IsTurn(s, d) && Settle(s, d, report).Ok?
    ensures Settle(s, d, report).value.messages == s.messages
  {
    hide WithStatus;
  }

  lemma OtherKeepsMail(s: State, c: Command)
    requires Valid(s) && Apply(s, c).1.Ok?
    requires c.Begin? || c.Defer? || c.EditTask? || c.Stop? || c.Hire? || c.Drop? || c.Reopen? || RosterCommand(c)
    ensures KeepsMail(s, Apply(s, c).0)
  {
    hide Valid, WithStatus, RunningIn, IsBusy, HasMember, Reordered, Renamed, Without, HasActiveWork, ValidOrder, NameTaken;
    hide RetainedEvents, StoppedFor, ValidateDependencies, Accepted, Restart, RestartTeams, MaxSequence, AllIdle;
    if c.Reopen? {
      NoAdoption(s);
    }
  }

  /** Every command keeps the messages, but for the mark that they were read. */
  lemma StepMessages(s: State, c: Command, m: Id)
    requires Valid(s) && Apply(s, c).1.Ok?
    ensures MessageBecomes(s, c, Apply(s, c).0, m)
  {
    hide Valid, BeginDispatch, FinishDispatch, ControlRun, DeleteTeam, CancelTask, SendMessage, QueueTask, UpdateTask, StartRun;
    hide UpdateTeam, UpdateMember, RemoveMember, Recruit, DeferDispatch, PauseBlocked, Restart, AddMember, CreateTeam, Acknowledge;
    match c {
      case Submit(_) =>
      case Finish(d, report) => FinishKeepsMail(s, d, report);
      case Queue(k, w, title, input, dependsOn, p) => QueueKeepsMail(s, k, w, title, input, dependsOn, p);
      case Post(k, from, to, body, p) => PostKeepsMail(s, k, from, to, body, p);
      case Launch(k, input, target) => LaunchKeepsMail(s, k, input, target);
      case Control(k, r, action) => ControlKeepsMail(s, k, r, action);
      case PauseIdle => PauseKeepsMail(s, 0, s.nextId);
      case _ => OtherKeepsMail(s, c);
    }
  }
}
