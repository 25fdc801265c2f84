/** How each part of the team invariant survives the elementary changes that operations are made of. */
module TeamFrames {
  import opened Common
  import opened TeamModel
  import opened TeamDependencies
  import opened TeamInvariant

  // ---------------------------------------------------------------- members

  ghost predicate SameRoster(a: seq<Member>, b: seq<Member>) {
    |a| == |b| && forall i :: 0 <= i < |a| ==> a[i].id == b[i].id && a[i].role == b[i].role
  }

  lemma {:induction false} SameLead(a: seq<Member>, b: seq<Member>)
    requires SameRoster(a, b)
    ensures LeadOf(a) == LeadOf(b)
  {
    if a != [] {
      SameLead(a[1..], b[1..]);
    }
  }

  lemma {:induction false} LeadIsMember(members: seq<Member>)
    requires LeadOf(members).Some?
    ensures exists i :: 0 <= i < |members| && members[i].id == LeadOf(members).value && members[i].role == Lead
  {
    if members[0].role != Lead {
      LeadIsMember(members[1..]);
      var i :| 0 <= i < |members[1..]| && members[1..][i].id == LeadOf(members).value && members[1..][i].role == Lead;
      assert members[i + 1] == members[1..][i];
    } else {
      assert members[0].id == LeadOf(members).value;
    }
  }

  lemma {:induction false} LeadExists(members: seq<Member>, i: nat)
    requires i < |members| && members[i].role == Lead
    ensures LeadOf(members).Some?
  {
    if members[0].role != Lead {
      LeadExists(members[1..], i - 1);
    }
  }

  lemma SameRosterOk(a: Team, b: Team, bound: nat)
    requires TeamOk(a, bound) && SameRoster(a.members, b.members)
    ensures TeamOk(b, bound) && forall m :: HasMember(a, m) <==> HasMember(b, m)
  {
    SameLead(a.members, b.members);
    forall m ensures HasMember(a, m) <==> HasMember(b, m) {
      if HasMember(a, m) {
        var i :| 0 <= i < |a.members| && a.members[i].id == m;
        assert b.members[i].id == m;
      }
      if HasMember(b, m) {
        var i :| 0 <= i < |b.members| && b.members[i].id == m;
        assert a.members[i].id == m;
      }
    }
  }

  lemma WithStatusRoster(team: Team, id: Id, status: MemberStatus)
    ensures SameRoster(team.members, WithStatus(team.members, id, status))
  {
  }

  // ---------------------------------------------------------------- teams, owners and the graph

  lemma TeamsStayOk(teams: map<Id, Team>, bound: nat, higher: nat)
    requires TeamsOk(teams, bound) && bound <= higher
    ensures TeamsOk(teams, higher)
  {
  }

  lemma TeamEditedOk(teams: map<Id, Team>, bound: nat, k: Id, team: Team, higher: nat)
    requires TeamsOk(teams, bound) && bound <= higher && k < higher && TeamOk(team, higher)
    ensures TeamsOk(teams[k := team], higher)
  {
  }

  /** The records of `after` are among those of `before`, with the same owners. */
  ghost predicate SameOwners(s: State, t: State) {
    (forall k :: k in s.teams ==> k in t.teams) && s.nextId <= t.nextId &&
    (forall x :: x in t.tasks ==> x in s.tasks && t.tasks[x].teamId == s.tasks[x].teamId) &&
    (forall x :: x in t.messages ==> x in s.messages && t.messages[x].teamId == s.messages[x].teamId) &&
    forall x :: x in t.runs ==> x in s.runs && t.runs[x].teamId == s.runs[x].teamId
  }

  lemma OwnersStayOk(s: State, t: State)
    requires OwnersOk(s.teams, s.tasks, s.messages, s.runs, s.nextId) && SameOwners(s, t)
    ensures OwnersOk(t.teams, t.tasks, t.messages, t.runs, t.nextId)
  {
  }

  ghost predicate SameEdges(before: map<Id, Task>, after: map<Id, Task>) {
    before.Keys == after.Keys &&
    forall t :: t in after ==> after[t].dependsOn == before[t].dependsOn && after[t].teamId == before[t].teamId
  }

  lemma GraphStaysOk(before: map<Id, Task>, after: map<Id, Task>)
    requires GraphOk(before) && SameEdges(before, after)
    ensures GraphOk(after)
  {
    FewerEdgesAcyclic(before, after);
    forall t, i | t in after && 0 <= i < |after[t].dependsOn|
      ensures after[t].dependsOn[i] in after && after[after[t].dependsOn[i]].teamId == after[t].teamId
    {
      assert before[t].dependsOn[i] in before.Keys;
    }
  }

  lemma RunEditedOk(runs: map<Id, Run>, r: Id, run: Run)
    requires RunsOk(runs) && r in runs && run.teamId == runs[r].teamId
    requires Unfinished(run.status) ==> Unfinished(runs[r].status)
    requires run.dispatchCount <= MAX_DISPATCHES && run.recruitedCount <= MAX_RECRUITED
    ensures RunsOk(runs[r := run])
  {
    var after := runs[r := run];
    forall p, q | Rivals(after, p, q) ensures p == q {
      assert Rivals(runs, p, q);
    }
  }

  // ---------------------------------------------------------------- what references survive

  ghost predicate KeepsTeams(before: map<Id, Team>, after: map<Id, Team>) {
    forall k :: k in before ==> k in after && forall m :: HasMember(before[k], m) ==> HasMember(after[k], m)
  }

  ghost predicate KeepsTasks(before: map<Id, Task>, after: map<Id, Task>) {
    forall t :: t in before ==>
      t in after && after[t].teamId == before[t].teamId && after[t].memberId == before[t].memberId
  }

  ghost predicate KeepsMessages(before: map<Id, Message>, after: map<Id, Message>) {
    forall m :: m in before ==> m in after && after[m].teamId == before[m].teamId
  }

  ghost predicate KeepsRuns(before: map<Id, Run>, after: map<Id, Run>) {
    forall r :: r in before ==> r in after && after[r].teamId == before[r].teamId &&
                                (Unfinished(before[r].status) ==> Unfinished(after[r].status))
  }

  ghost predicate Keeps(s: State, t: State) {
    KeepsTeams(s.teams, t.teams) && KeepsTasks(s.tasks, t.tasks) && KeepsMessages(s.messages, t.messages) &&
    KeepsRuns(s.runs, t.runs) && s.nextId <= t.nextId
  }

  lemma DispatchesStayOk(s: State, t: State)
    requires DispatchesOk(s.teams, s.tasks, s.messages, s.runs, s.dispatches, s.nextId) && Keeps(s, t)
    ensures DispatchesOk(t.teams, t.tasks, t.messages, t.runs, s.dispatches, t.nextId)
  {
    forall d | d in s.dispatches ensures DispatchOk(t.teams, t.tasks, t.messages, t.runs, s.dispatches[d]) {
      assert DispatchOk(s.teams, s.tasks, s.messages, s.runs, s.dispatches[d]);
    }
  }

  lemma DispatchEditedOk(t: State, dispatches: map<Id, Dispatch>, d: Id, item: Dispatch)
    requires DispatchesOk(t.teams, t.tasks, t.messages, t.runs, dispatches, t.nextId) && d < t.nextId
    requires DispatchOk(t.teams, t.tasks, t.messages, t.runs, item)
    ensures DispatchesOk(t.teams, t.tasks, t.messages, t.runs, dispatches[d := item], t.nextId)
  {
  }

  // ---------------------------------------------------------------- dispatches that change without changing hands

  /** Same work in the same state; only notes on it differ. */
  ghost predicate SameWork(a: Dispatch, b: Dispatch) {
    a.teamId == b.teamId && a.runId == b.runId && a.memberId == b.memberId && a.taskId == b.taskId &&
    a.status == b.status && (a.status == Running ==> b.depth == a.depth)
  }

  ghost predicate AllSameWork(before: map<Id, Dispatch>, after: map<Id, Dispatch>) {
    before.Keys == after.Keys && forall d :: d in before ==> d in after && SameWork(before[d], after[d])
  }

  lemma LinksStayOk(tasks: map<Id, Task>, before: map<Id, Dispatch>, after: map<Id, Dispatch>, waiting: set<Id>)
    requires LinksOk(tasks, before, waiting) && AllSameWork(before, after)
    ensures LinksOk(tasks, after, waiting)
  {
    forall d, e | SameTask(after, d, e) ensures d == e {
      assert d in before.Keys && e in before.Keys;
      assert SameTask(before, d, e);
    }
    forall t | t in tasks && ActiveTask(tasks[t].status) && t !in waiting ensures HasDispatch(after, t) {
      var d :| d in before && before[d].taskId == Some(t);
      assert after[d].taskId == Some(t);
    }
    forall d | d in after ensures d in before {
      assert d in before.Keys;
    }
  }

  lemma SameWorkRuns(before: map<Id, Dispatch>, after: map<Id, Dispatch>)
    requires AllSameWork(before, after)
    ensures forall d, k, m :: RunsFor(before, d, k, m) <==> RunsFor(after, d, k, m)
    ensures forall r :: RunningIn(before, r) == RunningIn(after, r)
  {
    forall d, k, m ensures RunsFor(before, d, k, m) <==> RunsFor(after, d, k, m) {
      assert d in before <==> d in before.Keys;
    }
    forall r ensures RunningIn(before, r) == RunningIn(after, r) {
      forall d ensures d in RunningIn(before, r) <==> d in RunningIn(after, r) {
        assert d in before <==> d in before.Keys;
      }
    }
  }

  lemma BusyStaysOk(teams: map<Id, Team>, before: map<Id, Dispatch>, after: map<Id, Dispatch>)
    requires BusyOk(teams, before)
    requires forall d, k, m :: RunsFor(before, d, k, m) <==> RunsFor(after, d, k, m)
    ensures BusyOk(teams, after)
  {
    forall k, m ensures IsRunning(before, k, m) <==> IsRunning(after, k, m) {
      if IsRunning(before, k, m) {
        var d :| RunsFor(before, d, k, m);
        assert RunsFor(after, d, k, m);
      }
      if IsRunning(after, k, m) {
        var d :| RunsFor(after, d, k, m);
        assert RunsFor(before, d, k, m);
      }
    }
  }

  lemma AloneStaysOk(before: map<Id, Dispatch>, after: map<Id, Dispatch>)
    requires AloneOk(before)
    requires forall d, k, m :: RunsFor(after, d, k, m) ==> RunsFor(before, d, k, m)
    ensures AloneOk(after)
  {
  }

  lemma ConcurrencyStaysOk(before: map<Id, Dispatch>, after: map<Id, Dispatch>)
    requires ConcurrencyOk(before)
    requires forall r :: RunningIn(after, r) <= RunningIn(before, r)
    ensures ConcurrencyOk(after)
  {
    forall r ensures |RunningIn(after, r)| <= MAX_CONCURRENT {
      SmallerSet(RunningIn(after, r), RunningIn(before, r));
    }
  }

  lemma SmallerSet(a: set<Id>, b: set<Id>)
    requires a <= b
    ensures |a| <= |b|
  {
    assert b == a + (b - a);
  }

  // ---------------------------------------------------------------- dispatches that change state

  /** Any number of dispatches that leave the running state, or never entered it. */
  ghost predicate NoneStarts(before: map<Id, Dispatch>, after: map<Id, Dispatch>) {
    forall d :: d in after && after[d].status == Running ==>
      d in before && before[d].status == Running && before[d].runId == after[d].runId &&
      before[d].teamId == after[d].teamId && before[d].memberId == after[d].memberId
  }

  lemma NoneStartsOk(before: map<Id, Dispatch>, after: map<Id, Dispatch>)
    requires AloneOk(before) && ConcurrencyOk(before) && NoneStarts(before, after)
    ensures AloneOk(after) && ConcurrencyOk(after)
  {
    AloneStaysOk(before, after);
    forall r ensures RunningIn(after, r) <= RunningIn(before, r) {
      forall d | d in RunningIn(after, r) ensures d in RunningIn(before, r) {
      }
    }
    ConcurrencyStaysOk(before, after);
  }

  /** One dispatch leaves the running state and its member stops being busy. */
  lemma LeaveBusyOk(teams: map<Id, Team>, before: map<Id, Dispatch>, d: Id, item: Dispatch, status: MemberStatus)
    requires BusyOk(teams, before) && AloneOk(before) && d in before && item.teamId in teams && status != Busy
    requires before[d].status == Running && item.status != Running
    requires item.teamId == before[d].teamId && item.memberId == before[d].memberId
    ensures BusyOk(teams[item.teamId := teams[item.teamId].(members :=
                                          WithStatus(teams[item.teamId].members, item.memberId, status))],
                   before[d := item])
  {
    var after := before[d := item];
    assert RunsFor(before, d, item.teamId, item.memberId);
    forall k, m ensures IsRunning(after, k, m) <==> IsRunning(before, k, m) && !(k == item.teamId && m == item.memberId) {
      if IsRunning(before, k, m) && !(k == item.teamId && m == item.memberId) {
        var e :| RunsFor(before, e, k, m);
        assert RunsFor(after, e, k, m);
      }
      if IsRunning(after, k, m) {
        var e :| RunsFor(after, e, k, m);
        assert e != d && RunsFor(before, e, k, m);
      }
    }
  }

  /** One dispatch that was not running changes to another such state. */
  lemma IdleChangeBusyOk(teams: map<Id, Team>, before: map<Id, Dispatch>, d: Id, item: Dispatch)
    requires BusyOk(teams, before) && item.status != Running && (d in before ==> before[d].status != Running)
    ensures BusyOk(teams, before[d := item])
  {
    var after := before[d := item];
    forall e, k, m ensures RunsFor(before, e, k, m) <==> RunsFor(after, e, k, m) {
    }
    BusyStaysOk(teams, before, after);
  }

  /** One dispatch starts for a member that was not busy. */
  lemma StartBusyOk(teams: map<Id, Team>, before: map<Id, Dispatch>, d: Id, item: Dispatch)
    requires BusyOk(teams, before) && AloneOk(before) && item.teamId in teams
    requires d in before && before[d].status != Running && item.status == Running
    requires !IsRunning(before, item.teamId, item.memberId)
    ensures BusyOk(teams[item.teamId := teams[item.teamId].(members :=
                                          WithStatus(teams[item.teamId].members, item.memberId, Busy))],
                   before[d := item])
    ensures AloneOk(before[d := item])
  {
    var after := before[d := item];
    assert RunsFor(after, d, item.teamId, item.memberId);
    forall e, k, m | e != d ensures RunsFor(before, e, k, m) <==> RunsFor(after, e, k, m) {
    }
    forall k, m ensures IsRunning(after, k, m) <==> IsRunning(before, k, m) || (k == item.teamId && m == item.memberId) {
      if IsRunning(before, k, m) {
        var e :| RunsFor(before, e, k, m);
        assert RunsFor(after, e, k, m);
      }
      if IsRunning(after, k, m) && !(k == item.teamId && m == item.memberId) {
        var e :| RunsFor(after, e, k, m);
        assert RunsFor(before, e, k, m);
      }
    }
  }

  lemma StartConcurrencyOk(before: map<Id, Dispatch>, d: Id, item: Dispatch)
    requires ConcurrencyOk(before) && |RunningIn(before, item.runId)| < MAX_CONCURRENT
    ensures ConcurrencyOk(before[d := item])
  {
    var after := before[d := item];
    forall r ensures |RunningIn(after, r)| <= MAX_CONCURRENT {
      if r == item.runId {
        SmallerSet(RunningIn(after, r), RunningIn(before, r) + {d});
      } else {
        SmallerSet(RunningIn(after, r), RunningIn(before, r));
      }
    }
  }

  /** A dispatch and its task change state together. */
  lemma LinkedChangeOk(tasks: map<Id, Task>, dispatches: map<Id, Dispatch>, waiting: set<Id>, d: Id, item: Dispatch,
                       after: map<Id, Task>)
    requires LinksOk(tasks, dispatches, waiting) && d in dispatches && item.taskId == dispatches[d].taskId
    requires item.taskId.Some? ==> item.taskId.value in after && Linked(item.status, after[item.taskId.value].status)
    requires tasks.Keys == after.Keys && forall t :: t in tasks && Some(t) != item.taskId ==> after[t] == tasks[t]
    ensures LinksOk(after, dispatches[d := item], waiting)
  {
    var next := dispatches[d := item];
    forall e | e in next && next[e].taskId.Some?
      ensures next[e].taskId.value in after && Linked(next[e].status, after[next[e].taskId.value].status)
    {
      if e != d {
        assert next[e].taskId.value in tasks.Keys;
        assert SameTask(dispatches, d, e) ==> d == e;
      }
    }
    forall e, f | SameTask(next, e, f) ensures e == f {
      assert SameTask(dispatches, e, f);
    }
    forall t | t in after && ActiveTask(after[t].status) && t !in waiting ensures HasDispatch(next, t) {
      assert t in tasks.Keys;
      if Some(t) == item.taskId {
        assert next[d].taskId == Some(t);
      } else {
        var e :| e in dispatches && dispatches[e].taskId == Some(t);
        assert next[e].taskId == Some(t);
      }
    }
  }
}
