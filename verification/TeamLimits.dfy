/** What becomes of the runs under every command, and how far the work of one segment can go. */
module TeamLimits {
  import opened Common
  import opened Texts
  import opened TeamModel
  import opened TeamDependencies
  import opened TeamInvariant
  import opened TeamFrames
  import opened TeamProofs
  import opened TeamOperations
  import opened TeamControl
  import opened TeamCancel
  import opened TeamRestart
  import opened TeamRoster
  import opened TeamCommands
  import opened TeamEffects
  import opened TeamSteps
  import opened TeamPausing
  import opened TeamOutcomes
  import opened TeamTheorems
  import TeamMail

  // ---------------------------------------------------------------- what a command does to a run

  predicate IsParent(s: State, p: Option<Id>) {
    p.Some? && p.value in s.dispatches
  }

  /** The run after a turn handed work to these members: no more than four of them, and no deeper than eight levels. */
  function HandedOn(run: Run, s: State, p: Option<Id>, more: set<Id>): Run {
    if !IsParent(s, p) || more == {} then run
    else if |s.dispatches[p.value].fanout + more| > 4 then run.(status := RunPausedLimit, reason := FanoutLimit)
    else if s.dispatches[p.value].depth >= 8 then run.(status := RunPausedLimit, reason := DepthLimit)
    else run
  }

  /** The members that a message is for. */
  function Recipients(team: Team, from: Option<Id>, to: Option<Id>): set<Id> {
    if to.Some? then {to.value}
    else set i | 0 <= i < |team.members| && Some(team.members[i].id) != from :: team.members[i].id
  }

  predicate Goes(run: Run, teamId: Id) {
    run.teamId == teamId && Unfinished(run.status)
  }

  predicate TurnOf(s: State, d: Id, r: Id) {
    d in s.dispatches && s.dispatches[d].runId == r && s.dispatches[d].status == Running
  }

  ghost predicate OthersActive(s: State, d: Id, r: Id) {
    exists e :: e != d && e in s.dispatches && s.dispatches[e].runId == r && Active(s.dispatches[e].status)
  }

  /** A turn of the run has ended: the lead's ends the run, a member's is handed on to the lead. */
  ghost function Ended(s: State, d: Id, r: Id, succeeded: bool): Run
    requires r in s.runs && TurnOf(s, d, r) && s.dispatches[d].teamId in s.teams
  {
    var run, team := s.runs[r], s.teams[s.dispatches[d].teamId];
    if !Unfinished(run.status) || run.status == RunInterrupted then run
    else if !IsLead(team, s.dispatches[d].memberId) then
      (match LeadOf(team.members) case None => run case Some(lead) => HandedOn(run, s, Some(d), {lead}))
    else if OthersActive(s, d, r) then run
    else if succeeded then run.(status := RunCompleted, reason := NoReason)
    else run.(status := RunInterrupted, reason := LeadFailed)
  }

  /** A run after a command that was accepted. */
  ghost function RunAfter(s: State, c: Command, r: Id): Run
    requires r in s.runs
  {
    var run := s.runs[r];
    match c
    case Begin(d) =>
      if d in s.dispatches && s.dispatches[d].runId == r then run.(dispatchCount := run.dispatchCount + 1) else run
    case Defer(d) =>
      if TurnOf(s, d, r) && !s.dispatches[d].submitted
      then run.(dispatchCount := if run.dispatchCount > 0 then run.dispatchCount - 1 else 0) else run
    case Finish(d, report) =>
      if TurnOf(s, d, r) && s.dispatches[d].teamId in s.teams then Ended(s, d, r, report.Finished?) else run
    case Queue(teamId, m, _, _, _, p) => if Goes(run, teamId) then HandedOn(run, s, p, {m}) else run
    case Post(teamId, from, to, _, p) =>
      if Goes(run, teamId) && teamId in s.teams then HandedOn(run, s, p, Recipients(s.teams[teamId], from, to)) else run
    case Control(_, q, action) =>
      if q != r then run
      else (match action
            case Pause => run.(status := RunPaused, reason := NoReason)
            case Cancel => run.(status := RunCancelled, reason := NoReason)
            case Resume =>
              run.(status := RunRunning, reason := NoReason, segment := run.segment + 1, dispatchCount := 0, recruitedCount := 0))
    case Hire(_, d, _) =>
      if !TurnOf(s, d, r) then run
      else if run.recruitedCount < 7 then run.(recruitedCount := run.recruitedCount + 1)
      else run.(recruitedCount := 8, status := RunPausedLimit, reason := RecruitLimit)
    case PauseIdle => 
      if Stuck(s, r) && !exists d :: WaitsIndirectly(s, r, d) then run.(status := RunPaused, reason := DependencyFailed) else run
    case Reopen => if exists d :: TurnOf(s, d, r) then run.(status := RunInterrupted, reason := Restarted) else run
    case _ => run
  }

  /** Whoever hands work on does not wait itself: waiting work can be what a recipient's message joins. */
  predicate HasBegun(s: State, p: Option<Id>) {
    p.Some? ==> p.value < s.nextId && (p.value in s.dispatches ==> s.dispatches[p.value].status != Queued)
  }

  predicate ForWaiting(s: State, c: Command) {
    c.Post? && !HasBegun(s, c.parentId)
  }

  function Fresh(teamId: Id): Run {
    Run(teamId, RunRunning, 1, 0, 0, NoReason)
  }

  /** A run that was there, and is still, has become what the command says; a new one has only just begun. */
  ghost predicate RunBecomes(s: State, c: Command, t: State, r: Id) {
    r in t.runs ==>
      var before := if r in s.runs then s.runs[r] else Fresh(t.runs[r].teamId);
      t.runs[r] == (if r in s.runs then RunAfter(s, c, r) else before) ||
      (ForWaiting(s, c) && Goes(before, c.teamId) && Limited(before, t.runs[r]))
  }

  /** The run is as it was, or was paused at a limit. */
  predicate Limited(a: Run, b: Run) {
    b == a || b == a.(status := RunPausedLimit, reason := b.reason)
  }

  // ---------------------------------------------------------------- handing work on

  lemma EdgeRuns(s: State, r: Id, m: Id, p: Option<Id>)
    requires RegisterEdge(s, r, m, p).Ok?
    ensures r in s.runs && RegisterEdge(s, r, m, p).value.0.runs == s.runs[r := HandedOn(s.runs[r], s, p, {m})]
  {
    if !(IsParent(s, p)) {
      assert s.runs == s.runs[r := s.runs[r]];
    }
  }

  lemma EdgeParent(s: State, r: Id, m: Id, p: Option<Id>)
    requires RegisterEdge(s, r, m, p).Ok?
    ensures var t := RegisterEdge(s, r, m, p).value.0;
            t.dispatches == if IsParent(s, p)
                            then s.dispatches[p.value := s.dispatches[p.value].(fanout := s.dispatches[p.value].fanout + {m})]
                            else s.dispatches
  {
  }

  lemma EnqueueRuns(s: State, r: Id, m: Id, p: Option<Id>, x: Option<Id>, mail: seq<Id>)
    requires Enqueue(s, r, m, p, x, mail).Ok?
    ensures r in s.runs && Enqueue(s, r, m, p, x, mail).value.runs == s.runs[r := HandedOn(s.runs[r], s, p, {m})]
  {
    hide RegisterEdge, HandedOn;
    EdgeRuns(s, r, m, p);
  }

  /** The turn that hands work on: still there, no longer waiting, with these members noted. */
  predicate Noted(s: State, t: State, p: Option<Id>, more: set<Id>) {
    (IsParent(s, p) <==> IsParent(t, p)) &&
    (IsParent(s, p) ==>
       t.dispatches[p.value].status == s.dispatches[p.value].status && t.dispatches[p.value].depth == s.dispatches[p.value].depth &&
       t.dispatches[p.value].fanout == s.dispatches[p.value].fanout + more)
  }

  lemma DeliverToRuns(s: State, r: Id, m: Id, mail: Id, p: Option<Id>)
    requires DeliverTo(s, r, m, mail, p).Ok? && HasBegun(s, p)
    ensures var t := DeliverTo(s, r, m, mail, p).value;
            r in s.runs && t.runs == s.runs[r := HandedOn(s.runs[r], s, p, {m})] && Noted(s, t, p, {m}) && HasBegun(t, p)
  {
    hide RegisterEdge, HandedOn;
    FirstMailboxFound(s.dispatches, r, m, 0, s.nextId);
    EdgeRuns(s, r, m, p);
    EdgeParent(s, r, m, p);
    RegisterEdgeFacts(s, r, m, p);
  }

  /** Handing on to one member and then to others is handing on to all of them. */
  lemma HandedOnTwice(run: Run, s: State, t: State, p: Option<Id>, m: Id, more: set<Id>)
    requires Noted(s, t, p, {m})
    ensures HandedOn(HandedOn(run, s, p, {m}), t, p, more) == HandedOn(run, s, p, {m} + more)
  {
    if IsParent(s, p) {
      var fanout := s.dispatches[p.value].fanout;
      assert fanout + {m} + more == fanout + ({m} + more);
      Fewer(fanout + {m}, fanout + {m} + more);
    }
  }

  function Of(ids: seq<Id>): set<Id> {
    set id | id in ids
  }

  lemma {:induction false} DeliverRuns(s: State, r: Id, targets: seq<Id>, mail: Id, p: Option<Id>)
    requires Deliver(s, r, targets, mail, p).Ok? && HasBegun(s, p) && r in s.runs
    ensures var t := Deliver(s, r, targets, mail, p).value;
            t.runs == s.runs[r := HandedOn(s.runs[r], s, p, Of(targets))]
    decreases |targets|
  {
    hide DeliverTo, HandedOn, HasBegun, Noted;
    if targets == [] {
      assert Of(targets) == {};
      NobodyHanded(s.runs[r], s, p);
      assert s.runs == s.runs[r := s.runs[r]];
    } else {
      var next := DeliverTo(s, r, targets[0], mail, p).value;
      DeliverToRuns(s, r, targets[0], mail, p);
      DeliverRuns(next, r, targets[1..], mail, p);
      HandedOnTwice(s.runs[r], s, next, p, targets[0], Of(targets[1..]));
      assert Of(targets) == {targets[0]} + Of(targets[1..]);
      var after := HandedOn(s.runs[r], s, p, Of(targets));
      assert next.runs[r := after] == s.runs[r := after];
    }
  }

  lemma NobodyHanded(run: Run, s: State, p: Option<Id>)
    ensures HandedOn(run, s, p, {}) == run
  {
  }

  lemma {:induction false} DeliverLimits(s: State, r: Id, targets: seq<Id>, mail: Id, p: Option<Id>)
    requires Deliver(s, r, targets, mail, p).Ok? && r in s.runs
    ensures var t := Deliver(s, r, targets, mail, p).value;
            t.runs.Keys == s.runs.Keys && Limited(s.runs[r], t.runs[r]) && forall q :: q in s.runs && q != r ==> t.runs[q] == s.runs[q]
    decreases |targets|
  {
    hide DeliverTo;
    if targets != [] {
      var next := DeliverTo(s, r, targets[0], mail, p).value;
      DeliverToLimits(s, r, targets[0], mail, p);
      DeliverLimits(next, r, targets[1..], mail, p);
    }
  }

  lemma DeliverToLimits(s: State, r: Id, m: Id, mail: Id, p: Option<Id>)
    requires DeliverTo(s, r, m, mail, p).Ok? && r in s.runs
    ensures var t := DeliverTo(s, r, m, mail, p).value;
            t.runs.Keys == s.runs.Keys && Limited(s.runs[r], t.runs[r]) && forall q :: q in s.runs && q != r ==> t.runs[q] == s.runs[q]
  {
    hide RegisterEdge;
    EdgeRuns(s, r, m, p);
  }

  // ---------------------------------------------------------------- the run that work joins

  /** New work joins the one unfinished run of its team, or begins a run. */
  lemma CurrentRun(s: State, teamId: Id)
    requires RunsOk(s.runs) && (forall r :: r in s.runs ==> r < s.nextId)
    ensures var (t, run) := EnsureRun(s, teamId);
            (run in s.runs ==> t == s && Goes(s.runs[run], teamId) && forall r :: r in s.runs && Goes(s.runs[r], teamId) ==> r == run) &&
            (run !in s.runs ==>
               run == s.nextId && t.runs == s.runs[run := Fresh(teamId)] && t.dispatches == s.dispatches && s.nextId <= t.nextId &&
               forall r :: r in s.runs ==> !Goes(s.runs[r], teamId))
  {
    LastUnfinishedFound(s.runs, teamId, s.nextId);
    var last := LastUnfinished(s.runs, teamId, s.nextId);
    if last.Some? {
      forall r | r in s.runs && Goes(s.runs[r], teamId) ensures r == last.value {
        assert Rivals(s.runs, r, last.value);
      }
    }
  }

  lemma RunsBelow(s: State)
    requires Valid(s)
    ensures RunsOk(s.runs) && forall r :: r in s.runs ==> r < s.nextId
  {
    hide TeamsOk, GraphOk, RunsOk, DispatchesOk, LinksOk, BusyOk, AloneOk, ConcurrencyOk, EventsOk;
  }

  lemma DispatchRun(s: State, d: Id)
    requires Valid(s) && d in s.dispatches
    ensures s.dispatches[d].runId in s.runs && s.runs[s.dispatches[d].runId].teamId == s.dispatches[d].teamId
    ensures s.dispatches[d].teamId in s.teams && d < s.nextId
    ensures Active(s.dispatches[d].status) ==> Unfinished(s.runs[s.dispatches[d].runId].status)
  {
    hide TeamsOk, OwnersOk, GraphOk, RunsOk, LinksOk, BusyOk, AloneOk, ConcurrencyOk, EventsOk;
    assert DispatchOk(s.teams, s.tasks, s.messages, s.runs, s.dispatches[d]);
  }

  /** The run that new work of the team joins. */
  ghost predicate Joins(s: State, teamId: Id, run: Id) {
    (run in s.runs ==> Goes(s.runs[run], teamId)) && forall r :: r in s.runs && r != run ==> !Goes(s.runs[r], teamId)
  }

  function Before(s: State, teamId: Id, run: Id): Run {
    if run in s.runs then s.runs[run] else Fresh(teamId)
  }

  lemma QueueJoins(s: State, teamId: Id, m: Id, title: string, input: string, dependsOn: seq<Id>, p: Option<Id>)
    returns (run: Id)
    requires Valid(s) && QueueTask(s, teamId, m, title, input, dependsOn, p).Ok?
    ensures Joins(s, teamId, run) && (IsParent(s, p) ==> run in s.runs)
    ensures QueueTask(s, teamId, m, title, input, dependsOn, p).value.0.runs ==
            s.runs[run := HandedOn(Before(s, teamId, run), s, p, {m})]
  {
    hide Valid, Enqueue, ValidateDependencies, HandedOn, EnsureRun, Accepted;
    var added := s.(tasks := s.tasks[s.nextId := Task(teamId, m, 1, dependsOn, TaskQueued, None)], nextId := s.nextId + 1);
    RunsBelow(s);
    CurrentRun(added, teamId);
    var (ready, id) := EnsureRun(added, teamId);
    run := id;
    EnqueueRuns(ready, run, m, p, Some(s.nextId), []);
    SameHanding(Before(s, teamId, run), s, ready, p, {m});
    if IsParent(s, p) {
      ParentsRun(s, ready, run, m, p, Some(s.nextId));
    }
  }

  lemma SameHanding(run: Run, s: State, t: State, p: Option<Id>, more: set<Id>)
    requires t.dispatches == s.dispatches
    ensures HandedOn(run, t, p, more) == HandedOn(run, s, p, more)
  {
  }

  lemma ParentsRun(s: State, ready: State, run: Id, m: Id, p: Option<Id>, x: Option<Id>)
    requires Valid(s) && ready.dispatches == s.dispatches && Enqueue(ready, run, m, p, x, []).Ok? && IsParent(s, p)
    ensures run in s.runs
  {
    hide Valid;
    DispatchRun(s, p.value);
  }

  lemma QueueRuns(s: State, teamId: Id, m: Id, title: string, input: string, dependsOn: seq<Id>, p: Option<Id>)
    requires Valid(s) && QueueTask(s, teamId, m, title, input, dependsOn, p).Ok?
    ensures forall r :: RunBecomes(s, Queue(teamId, m, title, input, dependsOn, p),
                                   QueueTask(s, teamId, m, title, input, dependsOn, p).value.0, r)
  {
    hide Valid, QueueTask;
    var run := QueueJoins(s, teamId, m, title, input, dependsOn, p);
  }

  // ---------------------------------------------------------------- messages

  lemma RecipientsAre(team: Team, from: Option<Id>, to: Option<Id>)
    ensures Of(Targets(team, from, to)) == Recipients(team, from, to)
  {
    forall m ensures m in Of(Targets(team, from, to)) <==> m in Recipients(team, from, to) {
      TeamMail.TargetsAre(team, from, to, m);
      assert m in Of(Targets(team, from, to)) <==> m in Targets(team, from, to);
      if to.None? && m in Recipients(team, from, to) {
        var i :| 0 <= i < |team.members| && Some(team.members[i].id) != from && team.members[i].id == m;
      }
    }
  }

  lemma DeliverParent(s: State, ready: State, run: Id, targets: seq<Id>, mail: Id, p: Option<Id>)
    requires Valid(s) && ready.dispatches == s.dispatches && Deliver(ready, run, targets, mail, p).Ok? && IsParent(s, p)
    ensures targets == [] || run in s.runs
  {
    hide Valid;
    DispatchRun(s, p.value);
  }

  lemma PostJoins(s: State, teamId: Id, from: Option<Id>, to: Option<Id>, body: string, p: Option<Id>) returns (run: Id)
    requires Valid(s) && SendMessage(s, teamId, from, to, body, p).Ok?
    ensures teamId in s.teams && Joins(s, teamId, run)
    ensures var t := SendMessage(s, teamId, from, to, body, p).value.0;
            t.runs.Keys == s.runs.Keys + {run} && Limited(Before(s, teamId, run), t.runs[run]) &&
            (forall r :: r in s.runs && r != run ==> t.runs[r] == s.runs[r]) &&
            (HasBegun(s, p) ==>
               t.runs[run] == HandedOn(Before(s, teamId, run), s, p, Recipients(s.teams[teamId], from, to)) &&
               (run !in s.runs ==> t.runs[run] == Fresh(teamId)))
  {
    hide Valid, Deliver, HandedOn, EnsureRun, Targets, Recipients, HasBegun, Accepted, Limited;
    var posted := Posted(s, teamId, from, to, body);
    var targets := Targets(s.teams[teamId], from, to);
    RunsBelow(s);
    CurrentRun(posted, teamId);
    var (ready, id) := EnsureRun(posted, teamId);
    run := id;
    RecipientsAre(s.teams[teamId], from, to);
    DeliverLimits(ready, run, targets, s.nextId, p);
    if HasBegun(s, p) {
      StillBegun(s, ready, p);
      DeliverRuns(ready, run, targets, s.nextId, p);
      SameHanding(Before(s, teamId, run), s, ready, p, Of(targets));
      if IsParent(s, p) {
        DeliverParent(s, ready, run, targets, s.nextId, p);
      }
      NewHanding(s, teamId, p, targets);
    }
  }

  lemma PostRuns(s: State, teamId: Id, from: Option<Id>, to: Option<Id>, body: string, p: Option<Id>)
    requires Valid(s) && SendMessage(s, teamId, from, to, body, p).Ok?
    ensures forall r :: RunBecomes(s, Post(teamId, from, to, body, p), SendMessage(s, teamId, from, to, body, p).value.0, r)
  {
    hide Valid, SendMessage, HandedOn, Recipients, HasBegun;
    var run := PostJoins(s, teamId, from, to, body, p);
  }

  lemma StillBegun(s: State, t: State, p: Option<Id>)
    requires HasBegun(s, p) && t.dispatches == s.dispatches && s.nextId <= t.nextId
    ensures HasBegun(t, p)
  {
  }

  lemma NewHanding(s: State, teamId: Id, p: Option<Id>, targets: seq<Id>)
    ensures !IsParent(s, p) || targets == [] ==> HandedOn(Fresh(teamId), s, p, Of(targets)) == Fresh(teamId)
  {
    assert targets == [] ==> Of(targets) == {};
  }

  // ---------------------------------------------------------------- turns that end

  lemma SettledHere(s: State, d: Id, report: Report)
    requires Valid(s) && IsTurn(s, d) && Settle(s, d, report).Ok?
    ensures var t := Settle(s, d, report).value;
            Valid(t) && t.runs == s.runs && t.nextId == s.nextId && SettledWork(s, t, d) &&
            s.dispatches[d].teamId in s.teams && s.dispatches[d].teamId in t.teams &&
            LeadOf(t.teams[s.dispatches[d].teamId].members) == LeadOf(s.teams[s.dispatches[d].teamId].members)
  {
    hide Valid, WithStatus, SameRoster;
    SettleValidHere(s, d, report);
    DispatchRun(s, d);
    SettleRoster(s, d, report);
    SameTeam(s, Settle(s, d, report).value, s.dispatches[d].teamId);
  }

  /** The turn is over, and nothing else has changed. */
  ghost predicate SettledWork(s: State, t: State, d: Id) {
    d in s.dispatches && d in t.dispatches && !Active(t.dispatches[d].status) &&
    t.dispatches == s.dispatches[d := s.dispatches[d].(status := t.dispatches[d].status)]
  }

  lemma OutstandingAfter(s: State, t: State, d: Id, r: Id)
    requires SettledWork(s, t, d)
    ensures Outstanding(t.dispatches, r) <==> OthersActive(s, d, r)
  {
    if Outstanding(t.dispatches, r) {
      var e :| e in t.dispatches && t.dispatches[e].runId == r && Active(t.dispatches[e].status);
      assert e != d && e in s.dispatches && s.dispatches[e] == t.dispatches[e];
    }
    if OthersActive(s, d, r) {
      var e :| e != d && e in s.dispatches && s.dispatches[e].runId == r && Active(s.dispatches[e].status);
      assert e in t.dispatches && s.dispatches[e] == t.dispatches[e];
    }
  }

  lemma HandingAfter(run: Run, s: State, t: State, d: Id, more: set<Id>)
    requires SettledWork(s, t, d)
    ensures HandedOn(run, t, Some(d), more) == HandedOn(run, s, Some(d), more) && HasBegun(t, Some(d)) == (d < t.nextId)
  {
  }

  lemma LeadIs(s: State, k: Id, m: Id)
    requires Valid(s) && k in s.teams && HasMember(s.teams[k], m)
    ensures LeadOf(s.teams[k].members).Some? && (IsLead(s.teams[k], m) <==> LeadOf(s.teams[k].members) == Some(m))
  {
    hide OwnersOk, GraphOk, RunsOk, DispatchesOk, LinksOk, BusyOk, AloneOk, ConcurrencyOk, EventsOk;
    LeadIsMember(s.teams[k].members);
  }

  /** A turn that ended, told to the lead or not, changes the runs as said. */
  lemma FinishRuns(s: State, d: Id, report: Report)
    requires Valid(s) && FinishDispatch(s, d, report).Ok?
    ensures forall r :: RunBecomes(s, Finish(d, report), FinishDispatch(s, d, report).value, r)
  {
    hide Valid, Settle, HandedOn, Recipients, HasBegun, SendMessage, ReportBody, SettledWork, Ended;
    if IsTurn(s, d) {
      var t, item := Settle(s, d, report).value, s.dispatches[d];
      SettledHere(s, d, report);
      DispatchRun(s, d);
      EndedRuns(s, t, d, report);
    }
  }

  lemma EndedRuns(s: State, t: State, d: Id, report: Report)
    requires Valid(s) && Valid(t) && IsTurn(s, d) && SettledWork(s, t, d) && t.runs == s.runs && t.nextId == s.nextId
    requires s.dispatches[d].runId in s.runs && s.dispatches[d].teamId in s.teams && s.dispatches[d].teamId in t.teams
    requires LeadOf(t.teams[s.dispatches[d].teamId].members) == LeadOf(s.teams[s.dispatches[d].teamId].members)
    requires var run := s.runs[s.dispatches[d].runId];
             Unfinished(run.status) && run.status != RunInterrupted ==>
               ReportToLead(t, d, s.dispatches[d], run, report).Ok?
    ensures var r, item := s.dispatches[d].runId, s.dispatches[d];
            var run := s.runs[r];
            var u := if Unfinished(run.status) && run.status != RunInterrupted
                     then ReportToLead(t, d, item, run, report).value else t;
            u.runs == s.runs[r := Ended(s, d, r, report.Finished?)]
  {
    hide Valid, HandedOn, Recipients, HasBegun, SendMessage, ReportBody, SettledWork, IsLead, LeadOf, HasMember;
    var r, item := s.dispatches[d].runId, s.dispatches[d];
    var run := s.runs[r];
    DispatchIs(s, d);
    LeadIs(s, item.teamId, item.memberId);
    OutstandingAfter(s, t, d, r);
    var lead := LeadOf(s.teams[item.teamId].members);
    if Unfinished(run.status) && run.status != RunInterrupted && lead.value != item.memberId {
      ToldRuns(s, t, d, lead.value, ReportBody(report));
    } else if !Unfinished(run.status) || run.status == RunInterrupted || OthersActive(s, d, r) {
      assert s.runs == s.runs[r := run];
    }
  }

  /** The report to the lead is a message in the name of the turn. */
  lemma ToldRuns(s: State, t: State, d: Id, lead: Id, body: string)
    requires Valid(s) && Valid(t) && IsTurn(s, d) && SettledWork(s, t, d) && t.runs == s.runs && t.nextId == s.nextId
    requires SendMessage(t, s.dispatches[d].teamId, Some(s.dispatches[d].memberId), Some(lead), body, Some(d)).Ok?
    ensures var r, item := s.dispatches[d].runId, s.dispatches[d];
            r in s.runs &&
            SendMessage(t, item.teamId, Some(item.memberId), Some(lead), body, Some(d)).value.0.runs ==
              s.runs[r := HandedOn(s.runs[r], s, Some(d), {lead})]
  {
    hide Valid, HandedOn, HasBegun, SendMessage, SettledWork;
    var r, item := s.dispatches[d].runId, s.dispatches[d];
    var run := PostJoins(t, item.teamId, Some(item.memberId), Some(lead), body, Some(d));
    DispatchRun(s, d);
    HandingAfter(s.runs[r], s, t, d, {lead});
    assert run == r;
  }

  // ---------------------------------------------------------------- the other commands

  lemma BeginRuns(s: State, d: Id)
    requires BeginDispatch(s, d).1.Ok?
    ensures forall r :: RunBecomes(s, Begin(d), BeginDispatch(s, d).0, r)
  {
    hide RunningIn, IsBusy, HasMember, WithStatus, HandedOn, Recipients, Ended, HasBegun;
  }

  lemma DeferRuns(s: State, d: Id)
    requires DeferDispatch(s, d).Ok?
    ensures forall r :: RunBecomes(s, Defer(d), DeferDispatch(s, d).value, r)
  {
    hide WithStatus, HandedOn, Recipients, Ended, HasBegun;
  }

  lemma HireRuns(s: State, teamId: Id, d: Id, name: string)
    requires Valid(s) && Recruit(s, teamId, d, name).Ok?
    ensures forall r :: RunBecomes(s, Hire(teamId, d, name), Recruit(s, teamId, d, name).value.0, r)
  {
    hide Valid, HandedOn, Recipients, Ended, HasBegun, NameTaken;
  }

  lemma LaunchRuns(s: State, teamId: Id, input: string, target: Option<Id>)
    requires Valid(s) && StartRun(s, teamId, input, target).Ok?
    ensures forall r :: RunBecomes(s, Launch(teamId, input, target), StartRun(s, teamId, input, target).value.0, r)
  {
    hide Valid, EnsureRun, Enqueue, Trim, LeadOf, HasMember;
    RunsBelow(s);
    CurrentRun(s, teamId);
    var (ready, run) := EnsureRun(s, teamId);
    var m := if target.Some? then target.value else LeadOf(s.teams[teamId].members).value;
    EnqueueRuns(ready, run, m, None, None, []);
    assert ready.runs == ready.runs[run := ready.runs[run]];
  }

  lemma ControlRuns(s: State, teamId: Id, q: Id, action: Action)
    requires ControlRun(s, teamId, q, action).Ok?
    ensures forall r :: RunBecomes(s, Control(teamId, q, action), ControlRun(s, teamId, q, action).value, r)
  {
    hide Enqueue, CancelItems, LeadOf, Rebased;
    var run := s.runs[q];
    match action
    case Pause =>
    case Cancel =>
      var cancelled := s.runs[q := run.(status := RunCancelled, reason := NoReason)];
      CancelItemsIgnoreRuns(s, cancelled, q, 0, s.nextId);
      assert SetRun(s, q, run.(status := RunCancelled, reason := NoReason)) == s.(runs := cancelled);
    case Resume =>
      if run.status == RunInterrupted || run.reason == DependencyFailed {
        var renewed := Run(teamId, RunRunning, run.segment + 1, 0, 0, NoReason);
        var rebased := SetRun(s, q, renewed).(dispatches := RebasedAll(s.dispatches, q));
        EnqueueRuns(rebased, q, LeadOf(s.teams[teamId].members).value, None, None, []);
      }
  }

  /** The source pauses runs with work, all of it waiting for a task whose own dependency failed. */
  lemma BlockedIff(s: State, r: Id)
    requires Valid(s)
    ensures Blocked(s, r) <==> Stuck(s, r) && !exists d :: WaitsIndirectly(s, r, d)
  {
    hide HasFailedDependency, TeamsOk, OwnersOk, GraphOk, RunsOk, BusyOk, AloneOk, ConcurrencyOk, EventsOk;
    if Blocked(s, r) {
      forall d | WorkOf(s, r, d) ensures Waits(s, d) {
        FailedWaits(s, d);
      }
    }
    if Stuck(s, r) && !exists d :: WaitsIndirectly(s, r, d) {
      forall d | d in s.dispatches && s.dispatches[d].runId == r && Active(s.dispatches[d].status)
        ensures s.dispatches[d].status == Queued && s.dispatches[d].taskId.Some? &&
                HasFailedDependency(s.tasks, s.dispatches[d].taskId.value)
      {
        assert WorkOf(s, r, d) && !WaitsIndirectly(s, r, d);
      }
    }
  }

  lemma FailedWaits(s: State, d: Id)
    requires d in s.dispatches && s.dispatches[d].status == Queued && s.dispatches[d].taskId.Some?
    requires HasFailedDependency(s.tasks, s.dispatches[d].taskId.value)
    ensures Waits(s, d)
  {
  }

  lemma PauseIdleRuns(s: State)
    requires Valid(s)
    ensures forall r :: RunBecomes(s, PauseIdle, PauseBlocked(s, 0, s.nextId), r)
  {
    hide Valid, Blocked, Stuck, WaitsIndirectly;
    RunsBelow(s);
    PauseBlockedPauses(s, 0, s.nextId);
    var t := PauseBlocked(s, 0, s.nextId);
    hide PauseBlocked;
    assert t.runs.Keys == s.runs.Keys;
    forall r ensures RunBecomes(s, PauseIdle, t, r) {
      if r in s.runs {
        PausedAre(s, 0, s.nextId, r);
        BlockedIff(s, r);
      }
    }
  }

  lemma ReopenRuns(s: State)
    requires Valid(s) && Restart(s).Ok?
    ensures forall r :: RunBecomes(s, Reopen, Restart(s).value, r)
  {
    hide Valid, Restart, RestartTeams;
    NoAdoption(s);
    forall r | r in s.runs ensures RunBecomes(s, Reopen, Restart(s).value, r) {
      assert RunningIn(s.dispatches, r) != {} <==> exists d :: TurnOf(s, d, r) by {
        if d :| d in RunningIn(s.dispatches, r) {
          assert TurnOf(s, d, r);
        }
        if d :| TurnOf(s, d, r) {
          assert d in RunningIn(s.dispatches, r);
        }
      }
    }
  }

  /** Every command that is accepted does to every run what is said above, and nothing else. */
  lemma StepRuns(s: State, c: Command)
    requires Valid(s) && Apply(s, c).1.Ok?
    ensures forall r :: RunBecomes(s, c, Apply(s, c).0, r)
  {
    hide Valid, BeginDispatch, FinishDispatch, ControlRun, DeleteTeam, CancelTask, SendMessage, HandedOn, Ended, Recipients;
    hide UpdateTeam, UpdateMember, RemoveMember, QueueTask, UpdateTask, StartRun, Recruit, SubmitDispatch, DeferDispatch;
    hide PauseBlocked, Restart, AddMember, CreateTeam, Acknowledge, HasBegun, Stuck, WaitsIndirectly, RunBecomes;
    match c {
      case Begin(d) => BeginRuns(s, d);
      case Finish(d, report) => FinishRuns(s, d, report);
      case Defer(d) => DeferRuns(s, d);
      case Queue(k, m, title, input, dependsOn, p) => QueueRuns(s, k, m, title, input, dependsOn, p);
      case Post(k, from, to, body, p) => PostRuns(s, k, from, to, body, p);
      case Launch(k, input, target) => LaunchRuns(s, k, input, target);
      case Control(k, q, action) => ControlRuns(s, k, q, action);
      case Hire(k, d, name) => HireRuns(s, k, d, name);
      case PauseIdle => PauseIdleRuns(s);
      case Reopen => ReopenRuns(s);
      case _ => OtherRuns(s, c);
    }
  }

  predicate LeavesRuns(c: Command) {
    RosterCommand(c) || c.EditTask? || c.Stop? || c.Submit? || c.Drop?
  }

  lemma OtherRuns(s: State, c: Command)
    requires LeavesRuns(c) && Apply(s, c).1.Ok?
    ensures forall r :: RunBecomes(s, c, Apply(s, c).0, r)
  {
    hide UpdateTeam, UpdateMember, RemoveMember, AddMember, CreateTeam, Acknowledge, RetainedEvents, HandedOn, Ended;
    hide ValidateDependencies, Accepted, WithStatus, Recipients, HasBegun, Stuck, WaitsIndirectly, StoppedFor;
    if RosterCommand(c) {
      RosterSteps(s, c);
    }
  }

  // ---------------------------------------------------------------- when a turn begins

  /** All that a turn waits for is there: its run goes on, its member is free and is no fifth at work in the run. */
  ghost predicate Ready(s: State, d: Id) {
    d in s.dispatches && s.dispatches[d].status == Queued && s.dispatches[d].runId in s.runs &&
    s.runs[s.dispatches[d].runId].status == RunRunning && !AtWork(s, s.dispatches[d].teamId, s.dispatches[d].memberId) &&
    |RunningIn(s.dispatches, s.dispatches[d].runId)| < 4
  }

  ghost predicate AtWork(s: State, k: Id, m: Id) {
    exists e :: e in s.dispatches && s.dispatches[e].teamId == k && s.dispatches[e].memberId == m &&
                s.dispatches[e].status == Running
  }

  /** The run has begun 64 turns since it was last resumed, or the turn is more than eight levels deep. */
  predicate OverLimit(s: State, d: Id)
    requires d in s.dispatches && s.dispatches[d].runId in s.runs
  {
    s.runs[s.dispatches[d].runId].dispatchCount >= 64 || s.dispatches[d].depth > 8
  }

  /** What the task of a turn depends on has succeeded. */
  predicate TaskReady(s: State, d: Id)
    requires d in s.dispatches
  {
    s.dispatches[d].taskId.Some? ==>
      s.dispatches[d].taskId.value in s.tasks && AllSucceeded(s.tasks, s.tasks[s.dispatches[d].taskId.value].dependsOn)
  }

  lemma BusyIffAtWork(s: State, k: Id, m: Id)
    requires Valid(s) && k in s.teams && HasMember(s.teams[k], m)
    ensures IsBusy(s.teams[k], m) <==> AtWork(s, k, m)
  {
    hide OwnersOk, GraphOk, RunsOk, DispatchesOk, LinksOk, AloneOk, ConcurrencyOk, EventsOk;
    assert IsRunning(s.dispatches, k, m) <==> AtWork(s, k, m) by {
      RunningIsAtWork(s, k, m);
    }
    hide IsRunning, AtWork;
    var i :| 0 <= i < |s.teams[k].members| && s.teams[k].members[i].id == m;
  }

  lemma RunningIsAtWork(s: State, k: Id, m: Id)
    ensures IsRunning(s.dispatches, k, m) <==> AtWork(s, k, m)
  {
    if d :| RunsFor(s.dispatches, d, k, m) {
      assert s.dispatches[d].teamId == k;
    }
    if e :| e in s.dispatches && s.dispatches[e].teamId == k && s.dispatches[e].memberId == m &&
            s.dispatches[e].status == Running {
      assert RunsFor(s.dispatches, e, k, m);
    }
  }

  /** The task of queued work is queued, for the same member. */
  lemma QueuedTask(s: State, d: Id)
    requires Valid(s) && d in s.dispatches && s.dispatches[d].status == Queued
    ensures var item := s.dispatches[d];
            item.teamId in s.teams && HasMember(s.teams[item.teamId], item.memberId) && item.runId in s.runs &&
            (item.taskId.Some? ==> item.taskId.value in s.tasks && s.tasks[item.taskId.value].teamId == item.teamId &&
                                   s.tasks[item.taskId.value].memberId == item.memberId &&
                                   s.tasks[item.taskId.value].status == TaskQueued)
  {
    hide TeamsOk, OwnersOk, GraphOk, RunsOk, BusyOk, AloneOk, ConcurrencyOk, EventsOk;
    assert DispatchOk(s.teams, s.tasks, s.messages, s.runs, s.dispatches[d]);
  }

  /** The run after a turn was refused. */
  ghost function Refused(s: State, d: Id): map<Id, Run> {
    if Ready(s, d) && OverLimit(s, d) then
      var r := s.dispatches[d].runId;
      s.runs[r := s.runs[r].(status := RunPausedLimit,
                             reason := if s.runs[r].dispatchCount >= 64 then DispatchBudget else DepthLimit)]
    else s.runs
  }

  /**
   A turn begins exactly when everything it waits for is there and no limit is passed; a turn that is refused only because
   of a limit pauses its run, and any other refusal changes nothing.
   */
  lemma BeginsIff(s: State, d: Id)
    requires Valid(s)
    ensures BeginDispatch(s, d).1.Ok? <==> Ready(s, d) && !OverLimit(s, d) && TaskReady(s, d)
    ensures BeginDispatch(s, d).1.Err? ==>
              BeginDispatch(s, d).0.runs == Refused(s, d) && (BeginDispatch(s, d).0 == s || (Ready(s, d) && OverLimit(s, d)))
  {
    hide Valid, AtWork, IsBusy, HasMember, WithStatus, RunningIn;
    if d in s.dispatches && s.dispatches[d].status == Queued {
      QueuedTask(s, d);
      BusyIffAtWork(s, s.dispatches[d].teamId, s.dispatches[d].memberId);
    }
  }

  // ---------------------------------------------------------------- the budget of a segment

  /** The turns begun in a run, and not handed back, since it was last resumed. */
  ghost function SpentAfter(s: State, c: Command, r: Id, spent: nat): nat {
    if r !in s.runs then 0
    else if Apply(s, c).1.Err? then spent
    else
      match c
      case Control(_, q, Resume) => if q == r then 0 else spent
      case Begin(d) => if d in s.dispatches && s.dispatches[d].runId == r then spent + 1 else spent
      case Defer(d) => if TurnOf(s, d, r) && !s.dispatches[d].submitted && spent > 0 then spent - 1 else spent
      case _ => spent
  }

  ghost function Spent(s: State, commands: seq<Command>, r: Id, spent: nat): nat
    decreases |commands|
  {
    if commands == [] then spent
    else Spent(Apply(s, commands[0]).0, commands[1..], r, SpentAfter(s, commands[0], r, spent))
  }

  /** The members hired by turns of a run since it was last resumed. */
  ghost function HiredAfter(s: State, c: Command, r: Id, hired: nat): nat {
    if r !in s.runs then 0
    else if Apply(s, c).1.Err? then hired
    else
      match c
      case Control(_, q, Resume) => if q == r then 0 else hired
      case Hire(_, d, _) => if TurnOf(s, d, r) then hired + 1 else hired
      case _ => hired
  }

  ghost function Hired(s: State, commands: seq<Command>, r: Id, hired: nat): nat
    decreases |commands|
  {
    if commands == [] then hired
    else Hired(Apply(s, commands[0]).0, commands[1..], r, HiredAfter(s, commands[0], r, hired))
  }

  ghost predicate Counts(s: State, r: Id, spent: nat, hired: nat) {
    if r in s.runs then s.runs[r].dispatchCount == spent && s.runs[r].recruitedCount == hired else spent == 0 && hired == 0
  }

  lemma HandedOnCounts(run: Run, s: State, p: Option<Id>, more: set<Id>)
    ensures HandedOn(run, s, p, more).dispatchCount == run.dispatchCount
    ensures HandedOn(run, s, p, more).recruitedCount == run.recruitedCount
  {
  }

  lemma AfterCounts(s: State, c: Command, r: Id, spent: nat, hired: nat)
    requires r in s.runs && Counts(s, r, spent, hired) && hired <= 8 && Apply(s, c).1.Ok?
    requires c.Hire? && TurnOf(s, c.dispatchId, r) ==> hired < 8
    ensures RunAfter(s, c, r).dispatchCount == SpentAfter(s, c, r, spent)
    ensures RunAfter(s, c, r).recruitedCount == HiredAfter(s, c, r, hired)
  {
    hide Apply, HandedOn, Recipients, Stuck, WaitsIndirectly;
    forall run, p, more {
      HandedOnCounts(run, s, p, more);
    }
  }

  lemma HiresBelow(s: State, teamId: Id, d: Id, name: string)
    requires Recruit(s, teamId, d, name).Ok?
    ensures d in s.dispatches && s.dispatches[d].runId in s.runs && s.runs[s.dispatches[d].runId].recruitedCount < 8
  {
  }

  lemma CountsKept(s: State, c: Command, r: Id, spent: nat, hired: nat)
    requires Valid(s) && Counts(s, r, spent, hired)
    ensures var t := Apply(s, c).0;
            if r in t.runs then Counts(t, r, SpentAfter(s, c, r, spent), HiredAfter(s, c, r, hired)) else true
  {
    hide Valid, Apply, RunAfter;
    if Apply(s, c).1.Ok? {
      StepRuns(s, c);
      assert RunBecomes(s, c, Apply(s, c).0, r);
      if r in s.runs {
        BelowLimits(s, r);
        if c.Hire? {
          HiresBelowHere(s, c);
        }
        AfterCounts(s, c, r, spent, hired);
      }
    } else {
      RefusedRuns(s, c);
    }
  }

  lemma BelowLimits(s: State, r: Id)
    requires Valid(s) && r in s.runs
    ensures s.runs[r].dispatchCount <= 64 && s.runs[r].recruitedCount <= 8
  {
    hide TeamsOk, OwnersOk, GraphOk, DispatchesOk, LinksOk, BusyOk, AloneOk, ConcurrencyOk, EventsOk;
  }

  lemma HiresBelowHere(s: State, c: Command)
    requires c.Hire? && Apply(s, c).1.Ok?
    ensures c.dispatchId in s.dispatches && s.dispatches[c.dispatchId].runId in s.runs &&
            s.runs[s.dispatches[c.dispatchId].runId].recruitedCount < 8
  {
    hide Recruit;
    HiresBelow(s, c.teamId, c.dispatchId, c.name);
  }

  /** A command that is refused leaves the runs alone, but for a turn that meets a limit. */
  lemma RefusedRuns(s: State, c: Command)
    requires Valid(s) && Apply(s, c).1.Err?
    ensures Apply(s, c).0.runs == if c.Begin? then Refused(s, c.dispatchId) else s.runs
  {
    hide Valid, FinishDispatch, ControlRun, DeleteTeam, CancelTask, SendMessage, BeginDispatch, LastUnfinished;
    hide UpdateTeam, UpdateMember, RemoveMember, QueueTask, UpdateTask, StartRun, Recruit, SubmitDispatch, DeferDispatch;
    hide PauseBlocked, Restart, AddMember, CreateTeam, Acknowledge, Ready;
    if c.Begin? {
      BeginsIff(s, c.dispatchId);
    }
  }

  /**
   Between two resumptions a run begins at most 64 turns, those handed back not counted, and hires at most eight members: its
   counters are these numbers in every state that the store can reach.
   */
  lemma {:induction false} SegmentBudget(s: State, commands: seq<Command>, r: Id, spent: nat, hired: nat)
    requires Valid(s) && Counts(s, r, spent, hired)
    ensures var t := Execute(s, commands);
            r in t.runs ==> t.runs[r].dispatchCount == Spent(s, commands, r, spent) <= 64 &&
                            t.runs[r].recruitedCount == Hired(s, commands, r, hired) <= 8
    decreases |commands|
  {
    hide Valid, Apply, SpentAfter, HiredAfter;
    if commands == [] {
      if r in s.runs {
        BelowLimits(s, r);
      }
    } else {
      var t := Apply(s, commands[0]).0;
      StepValid(s, commands[0]);
      CountsKept(s, commands[0], r, spent, hired);
      if r in t.runs {
        SegmentBudget(t, commands[1..], r, SpentAfter(s, commands[0], r, spent), HiredAfter(s, commands[0], r, hired));
      } else {
        SegmentBudget(t, commands[1..], r, 0, 0);
        NoRunNoCount(t, commands[1..], r, SpentAfter(s, commands[0], r, spent), HiredAfter(s, commands[0], r, hired));
      }
    }
  }

  lemma NoRunNoCount(s: State, commands: seq<Command>, r: Id, spent: nat, hired: nat)
    requires r !in s.runs
    ensures commands != [] ==> Spent(s, commands, r, spent) == Spent(s, commands, r, 0)
    ensures commands != [] ==> Hired(s, commands, r, hired) == Hired(s, commands, r, 0)
  {
    hide Apply;
  }
}
