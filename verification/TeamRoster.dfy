/** Creating, editing and deleting teams and their members keeps the invariant. */
module TeamRoster {
  import opened Common
  import opened TeamModel
  import opened TeamDependencies
  import opened TeamInvariant
  import opened TeamFrames
  import opened TeamProofs
  import opened TeamControl

  // ---------------------------------------------------------------- one team record changes

  /** The busy marks of the record agree with the running dispatches, and everybody with work is still there. */
  ghost predicate FitsWork(s: State, teamId: Id, team: Team) {
    (forall i :: 0 <= i < |team.members| ==>
       (team.members[i].status == Busy <==> IsRunning(s.dispatches, teamId, team.members[i].id))) &&
    forall d :: d in s.dispatches && s.dispatches[d].teamId == teamId && Active(s.dispatches[d].status) ==>
      HasMember(team, s.dispatches[d].memberId)
  }

  lemma TeamEditDispatchesOk(s: State, teamId: Id, team: Team, bound: nat)
    requires DispatchesOk(s.teams, s.tasks, s.messages, s.runs, s.dispatches, s.nextId)
    requires FitsWork(s, teamId, team) && s.nextId <= bound
    ensures DispatchesOk(s.teams[teamId := team], s.tasks, s.messages, s.runs, s.dispatches, bound)
  {
    forall d | d in s.dispatches
      ensures DispatchOk(s.teams[teamId := team], s.tasks, s.messages, s.runs, s.dispatches[d])
    {
      assert DispatchOk(s.teams, s.tasks, s.messages, s.runs, s.dispatches[d]);
    }
  }

  lemma TeamEditBusyOk(s: State, teamId: Id, team: Team)
    requires BusyOk(s.teams, s.dispatches) && FitsWork(s, teamId, team)
    ensures BusyOk(s.teams[teamId := team], s.dispatches)
  {
  }

  lemma TeamEditValid(s: State, teamId: Id, team: Team, bound: nat, kind: EventKind, subject: Id)
    requires Valid(s) && s.nextId <= bound && teamId < bound && TeamOk(team, bound) && FitsWork(s, teamId, team)
    ensures Valid(Emit(s.(teams := s.teams[teamId := team], nextId := bound), teamId, kind, subject))
  {
    hide TeamsOk, OwnersOk, GraphOk, RunsOk, DispatchesOk, LinksOk, BusyOk, AloneOk, ConcurrencyOk, EventsOk;
    var t := s.(teams := s.teams[teamId := team], nextId := bound);
    TeamEditedOk(s.teams, s.nextId, teamId, team, bound);
    OwnersStayOk(s, t);
    TeamEditDispatchesOk(s, teamId, team, bound);
    TeamEditBusyOk(s, teamId, team);
    EmitValid(t, {}, teamId, kind, subject);
  }

  /** Nobody outside the team works for it, and ids not yet given out do no work. */
  lemma WorkersAreMembers(s: State, teamId: Id)
    requires TeamsOk(s.teams, s.nextId)
    requires DispatchesOk(s.teams, s.tasks, s.messages, s.runs, s.dispatches, s.nextId)
    ensures forall d :: d in s.dispatches && s.dispatches[d].teamId == teamId && Active(s.dispatches[d].status) ==>
              teamId in s.teams && HasMember(s.teams[teamId], s.dispatches[d].memberId)
    ensures forall m: Id :: IsRunning(s.dispatches, teamId, m) ==>
              teamId in s.teams && HasMember(s.teams[teamId], m) && m < s.nextId
  {
    hide TeamsOk, DispatchesOk;
    forall d | d in s.dispatches && s.dispatches[d].teamId == teamId && Active(s.dispatches[d].status)
      ensures teamId in s.teams && HasMember(s.teams[teamId], s.dispatches[d].memberId)
    {
      DispatchInTeam(s, d);
    }
    forall m: Id | IsRunning(s.dispatches, teamId, m)
      ensures teamId in s.teams && HasMember(s.teams[teamId], m) && m < s.nextId
    {
      var d :| RunsFor(s.dispatches, d, teamId, m);
      DispatchInTeam(s, d);
      MemberBelow(s, teamId, m);
    }
  }

  lemma DispatchInTeam(s: State, d: Id)
    requires DispatchesOk(s.teams, s.tasks, s.messages, s.runs, s.dispatches, s.nextId) && d in s.dispatches
    ensures var item := s.dispatches[d];
            item.teamId in s.teams && (Active(item.status) ==> HasMember(s.teams[item.teamId], item.memberId))
  {
    assert DispatchOk(s.teams, s.tasks, s.messages, s.runs, s.dispatches[d]);
  }

  lemma MemberBelow(s: State, teamId: Id, m: Id)
    requires TeamsOk(s.teams, s.nextId) && teamId in s.teams && HasMember(s.teams[teamId], m)
    ensures m < s.nextId
  {
    assert TeamOk(s.teams[teamId], s.nextId);
  }

  lemma TeamRecord(s: State, teamId: Id)
    requires Valid(s) && teamId in s.teams
    ensures TeamOk(s.teams[teamId], s.nextId) && teamId < s.nextId
    ensures forall i :: 0 <= i < |s.teams[teamId].members| ==>
              (s.teams[teamId].members[i].status == Busy <==>
               IsRunning(s.dispatches, teamId, s.teams[teamId].members[i].id))
  {
    hide OwnersOk, GraphOk, RunsOk, DispatchesOk, LinksOk, AloneOk, ConcurrencyOk, EventsOk;
  }

  lemma CreateTeamValid(s: State, leadName: string)
    requires Valid(s)
    ensures Valid(CreateTeam(s, leadName).0)
  {
    hide TeamsOk, OwnersOk, GraphOk, RunsOk, DispatchesOk, LinksOk, BusyOk, AloneOk, ConcurrencyOk, EventsOk;
    var id := s.nextId;
    var team := Team(1, [Member(id + 1, leadName, Lead, Idle)]);
    WorkersAreMembers(s, id);
    NextTeamIsFresh(s);
    TeamEditValid(s, id, team, id + 2, TeamCreated, id);
  }

  lemma NextTeamIsFresh(s: State)
    requires TeamsOk(s.teams, s.nextId)
    ensures s.nextId !in s.teams
  {
  }

  /** The same people in the same state of work, whatever their names. */
  lemma SamePeopleValid(s: State, teamId: Id, team: Team, kind: EventKind, subject: Id)
    requires Valid(s) && teamId in s.teams && SameRoster(s.teams[teamId].members, team.members)
    requires forall i :: 0 <= i < |team.members| ==> team.members[i].status == s.teams[teamId].members[i].status
    ensures Valid(Emit(s.(teams := s.teams[teamId := team]), teamId, kind, subject))
  {
    hide TeamsOk, OwnersOk, GraphOk, RunsOk, DispatchesOk, LinksOk, BusyOk, AloneOk, ConcurrencyOk, EventsOk;
    TeamRecord(s, teamId);
    WorkersAreMembers(s, teamId);
    SameRosterOk(s.teams[teamId], team, s.nextId);
    TeamEditValid(s, teamId, team, s.nextId, kind, subject);
  }

  lemma UpdateMemberValid(s: State, teamId: Id, memberId: Id, name: Option<string>)
    requires Valid(s) && UpdateMember(s, teamId, memberId, name).Ok?
    ensures Valid(UpdateMember(s, teamId, memberId, name).value)
  {
    hide TeamsOk, OwnersOk, GraphOk, RunsOk, DispatchesOk, LinksOk, BusyOk, AloneOk, ConcurrencyOk, EventsOk;
    var team := s.teams[teamId];
    var members := if name.Some? then Renamed(team.members, memberId, name.value) else team.members;
    SamePeopleValid(s, teamId, Team(team.version + 1, members), TeamUpdated, memberId);
  }

  lemma {:induction false} LeadOfAppend(members: seq<Member>, m: Member)
    requires LeadOf(members).Some?
    ensures LeadOf(members + [m]) == LeadOf(members)
  {
    if members[0].role != Lead {
      assert (members + [m])[1..] == members[1..] + [m];
      LeadOfAppend(members[1..], m);
    }
  }

  lemma GrownTeamOk(team: Team, bound: nat, name: string)
    requires TeamOk(team, bound)
    ensures TeamOk(Team(team.version + 1, team.members + [Member(bound, name, Worker, Idle)]), bound + 1)
    ensures forall m :: HasMember(team, m) ==>
              HasMember(Team(team.version + 1, team.members + [Member(bound, name, Worker, Idle)]), m)
  {
    var grown := team.members + [Member(bound, name, Worker, Idle)];
    LeadOfAppend(team.members, Member(bound, name, Worker, Idle));
    forall m | HasMember(team, m) ensures HasMember(Team(team.version + 1, grown), m) {
      var i :| 0 <= i < |team.members| && team.members[i].id == m;
      assert grown[i].id == m;
    }
  }

  lemma AddMemberValid(s: State, teamId: Id, name: string)
    requires Valid(s) && AddMember(s, teamId, name).Ok?
    ensures Valid(AddMember(s, teamId, name).value.0)
  {
    hide TeamsOk, OwnersOk, GraphOk, RunsOk, DispatchesOk, LinksOk, BusyOk, AloneOk, ConcurrencyOk, EventsOk;
    var team := s.teams[teamId];
    var grown := Team(team.version + 1, team.members + [Member(s.nextId, name, Worker, Idle)]);
    TeamRecord(s, teamId);
    WorkersAreMembers(s, teamId);
    GrownTeamOk(team, s.nextId, name);
    GrownTeamFits(s, teamId, grown, name);
    TeamEditValid(s, teamId, grown, s.nextId + 1, MemberAdded, s.nextId);
  }

  lemma GrownTeamFits(s: State, teamId: Id, grown: Team, name: string)
    requires teamId in s.teams && grown.members == s.teams[teamId].members + [Member(s.nextId, name, Worker, Idle)]
    requires FitsWork(s, teamId, s.teams[teamId]) && !IsRunning(s.dispatches, teamId, s.nextId)
    requires forall m :: HasMember(s.teams[teamId], m) ==> HasMember(grown, m)
    ensures FitsWork(s, teamId, grown)
  {
  }

  lemma {:induction false} WithoutMembers(members: seq<Member>, id: Id)
    ensures forall m :: m in Without(members, id) <==> m in members && m.id != id
  {
    if members != [] {
      WithoutMembers(members[1..], id);
      assert members == [members[0]] + members[1..];
    }
  }

  lemma {:induction false} WithoutDistinct(members: seq<Member>, id: Id)
    requires DistinctIds(members)
    ensures DistinctIds(Without(members, id))
  {
    if members != [] {
      WithoutDistinct(members[1..], id);
      WithoutMembers(members[1..], id);
      var rest := Without(members[1..], id);
      forall j | 0 <= j < |rest| ensures members[0].id != rest[j].id {
        assert rest[j] in members[1..];
      }
    }
  }

  lemma {:induction false} WithoutLead(members: seq<Member>, id: Id)
    requires forall i :: 0 <= i < |members| && members[i].id == id ==> members[i].role != Lead
    ensures LeadOf(Without(members, id)) == LeadOf(members)
  {
    if members != [] {
      WithoutLead(members[1..], id);
    }
  }

  lemma SmallerTeamOk(team: Team, bound: nat, id: Id)
    requires TeamOk(team, bound) && !IsLead(team, id)
    ensures TeamOk(Team(team.version + 1, Without(team.members, id)), bound)
    ensures forall m :: HasMember(team, m) && m != id ==> HasMember(Team(team.version + 1, Without(team.members, id)), m)
  {
    var rest := Without(team.members, id);
    WithoutMembers(team.members, id);
    WithoutDistinct(team.members, id);
    WithoutLead(team.members, id);
    forall i | 0 <= i < |rest| ensures rest[i] in team.members {
      assert rest[i] in rest;
    }
    forall m | HasMember(team, m) && m != id ensures HasMember(Team(team.version + 1, rest), m) {
      var i :| 0 <= i < |team.members| && team.members[i].id == m;
      assert team.members[i] in rest;
      var k :| 0 <= k < |rest| && rest[k] == team.members[i];
      assert rest[k].id == m;
    }
  }

  lemma RemoveMemberValid(s: State, teamId: Id, memberId: Id)
    requires Valid(s) && RemoveMember(s, teamId, memberId).Ok?
    ensures Valid(RemoveMember(s, teamId, memberId).value)
  {
    hide TeamsOk, OwnersOk, GraphOk, RunsOk, DispatchesOk, LinksOk, BusyOk, AloneOk, ConcurrencyOk, EventsOk;
    var team := s.teams[teamId];
    var smaller := Team(team.version + 1, Without(team.members, memberId));
    TeamRecord(s, teamId);
    WorkersAreMembers(s, teamId);
    SmallerTeamOk(team, s.nextId, memberId);
    SubsetFits(s, teamId, smaller, memberId);
    TeamEditValid(s, teamId, smaller, s.nextId, MemberRemoved, memberId);
  }

  lemma SubsetFits(s: State, teamId: Id, smaller: Team, memberId: Id)
    requires teamId in s.teams && smaller.members == Without(s.teams[teamId].members, memberId)
    requires FitsWork(s, teamId, s.teams[teamId]) && !HasActiveWork(s, memberId)
    requires forall m :: HasMember(s.teams[teamId], m) && m != memberId ==> HasMember(smaller, m)
    ensures FitsWork(s, teamId, smaller)
  {
    WithoutMembers(s.teams[teamId].members, memberId);
    forall i | 0 <= i < |smaller.members| ensures smaller.members[i] in s.teams[teamId].members {
      assert smaller.members[i] in smaller.members;
    }
  }

  // ---------------------------------------------------------------- reordering

  lemma {:induction false} IdsOf(members: seq<Member>) returns (ids: set<Id>)
    requires DistinctIds(members)
    ensures |ids| == |members| && forall m :: m in ids <==> exists i :: 0 <= i < |members| && members[i].id == m
  {
    if members == [] {
      ids := {};
    } else {
      var last := |members| - 1;
      var rest := IdsOf(members[..last]);
      ids := rest + {members[last].id};
      forall m ensures m in ids <==> exists i :: 0 <= i < |members| && members[i].id == m {
        if m in rest {
          var i :| 0 <= i < last && members[..last][i].id == m;
          assert members[i].id == m;
        }
        if i :| 0 <= i < |members| && members[i].id == m {
          assert i < last ==> members[..last][i].id == m;
        }
      }
      assert members[last].id !in rest;
    }
  }

  /** As many distinct ids of members as there are members: everybody is listed. */
  lemma OrderListsEverybody(team: Team, members: seq<Member>)
    requires |members| == |team.members|
    requires DistinctIds(members)
    requires DistinctIds(team.members)
    requires forall i :: 0 <= i < |members| ==> HasMember(team, members[i].id)
    ensures forall m :: HasMember(team, m) ==> HasMember(Team(team.version + 1, members), m)
  {
    var all := IdsOf(team.members);
    var listed := IdsOf(members);
    assert listed <= all;
    EqualSets(listed, all);
    forall m | HasMember(team, m) ensures HasMember(Team(team.version + 1, members), m) {
      assert m in all;
    }
  }

  lemma EqualSets(a: set<Id>, b: set<Id>)
    requires a <= b && |a| == |b|
    ensures a == b
  {
    assert b == a + (b - a);
  }

  lemma ReorderedOk(team: Team, order: seq<Id>, bound: nat)
    requires TeamOk(team, bound) && ValidOrder(team, order)
    ensures var next := Team(team.version + 1, Reordered(team.members, order));
            TeamOk(next, bound) && (forall m :: HasMember(team, m) ==> HasMember(next, m)) &&
            forall i :: 0 <= i < |next.members| ==> next.members[i] in team.members
  {
    var members := Reordered(team.members, order);
    forall i | 0 <= i < |members| ensures members[i] in team.members && HasMember(team, members[i].id) {
      assert members[i].id == order[i];
    }
    LeadIsMember(team.members);
    var lead :| 0 <= lead < |team.members| && team.members[lead].id == LeadOf(team.members).value &&
                team.members[lead].role == Lead;
    assert members[0] == team.members[lead];
    OrderListsEverybody(team, members);
  }

  lemma UpdateTeamValid(s: State, teamId: Id, expectedVersion: nat, order: Option<seq<Id>>)
    requires Valid(s) && UpdateTeam(s, teamId, expectedVersion, order).Ok?
    ensures Valid(UpdateTeam(s, teamId, expectedVersion, order).value)
  {
    hide TeamsOk, OwnersOk, GraphOk, RunsOk, DispatchesOk, LinksOk, BusyOk, AloneOk, ConcurrencyOk, EventsOk;
    hide Reordered;
    var team := s.teams[teamId];
    if order.Some? {
      TeamRecord(s, teamId);
      WorkersAreMembers(s, teamId);
      ReorderedOk(team, order.value, s.nextId);
      var next := Team(team.version + 1, Reordered(team.members, order.value));
      TeamEditValid(s, teamId, next, s.nextId, TeamUpdated, teamId);
    } else {
      SamePeopleValid(s, teamId, Team(team.version + 1, team.members), TeamUpdated, teamId);
    }
  }

  lemma RecruitValid(s: State, teamId: Id, parentId: Id, name: string)
    requires Valid(s) && Recruit(s, teamId, parentId, name).Ok?
    ensures Valid(Recruit(s, teamId, parentId, name).value.0)
  {
    hide TeamsOk, OwnersOk, GraphOk, RunsOk, DispatchesOk, LinksOk, BusyOk, AloneOk, ConcurrencyOk, EventsOk;
    var runId := s.dispatches[parentId].runId;
    var run := s.runs[runId];
    AddMemberValid(s, teamId, name);
    var grown := AddMember(s, teamId, name).value.0;
    var counted := run.(recruitedCount := run.recruitedCount + 1);
    var next := if run.recruitedCount + 1 >= MAX_RECRUITED
                then counted.(status := RunPausedLimit, reason := RecruitLimit) else counted;
    RunLimits(s, {}, runId);
    RunChangeValid(grown, {}, runId, next);
    EmitValid(SetRun(grown, runId, next), {}, teamId, RunUpdated, runId);
  }

  // ---------------------------------------------------------------- delete

  lemma {:induction false} RetainedOk(events: seq<Event>, sequence: nat, teamId: Id)
    requires EventsOk(events, sequence)
    ensures EventsOk(RetainedEvents(events, teamId), sequence)
    ensures forall e :: e in RetainedEvents(events, teamId) ==> e in events
  {
    if events != [] {
      var n := |events| - 1;
      RetainedOk(events[..n], sequence, teamId);
      var rest := RetainedEvents(events[..n], teamId);
      forall i | 0 <= i < |rest| ensures rest[i].sequence < events[n].sequence {
        assert rest[i] in events[..n];
      }
    }
  }

  lemma DeletedTeamsOk(s: State, t: State, teamId: Id)
    requires TeamsOk(s.teams, s.nextId) && DeleteTeam(s, teamId) == Ok(t)
    requires OwnersOk(s.teams, s.tasks, s.messages, s.runs, s.nextId)
    ensures TeamsOk(t.teams, t.nextId) && OwnersOk(t.teams, t.tasks, t.messages, t.runs, t.nextId)
  {
    hide LeadOf;
  }

  lemma DeletedGraphOk(tasks: map<Id, Task>, after: map<Id, Task>, teamId: Id)
    requires GraphOk(tasks) && after == map k | k in tasks && tasks[k].teamId != teamId :: tasks[k]
    ensures GraphOk(after)
  {
    FewerEdgesAcyclic(tasks, after);
    forall t, i | t in after && 0 <= i < |after[t].dependsOn|
      ensures after[t].dependsOn[i] in after && after[after[t].dependsOn[i]].teamId == after[t].teamId
    {
      assert tasks[t].dependsOn[i] in tasks;
    }
  }

  lemma DeletedRunsOk(runs: map<Id, Run>, after: map<Id, Run>, teamId: Id)
    requires RunsOk(runs) && after == map k | k in runs && runs[k].teamId != teamId :: runs[k]
    ensures RunsOk(after)
  {
    forall r, q | Rivals(after, r, q) ensures r == q {
      assert Rivals(runs, r, q);
    }
  }

  lemma DeletedDispatchesOk(s: State, t: State, teamId: Id)
    requires DispatchesOk(s.teams, s.tasks, s.messages, s.runs, s.dispatches, s.nextId) && DeleteTeam(s, teamId) == Ok(t)
    ensures DispatchesOk(t.teams, t.tasks, t.messages, t.runs, t.dispatches, t.nextId)
  {
    forall d | d in t.dispatches
      ensures d < t.nextId && DispatchOk(t.teams, t.tasks, t.messages, t.runs, t.dispatches[d])
    {
      assert DispatchOk(s.teams, s.tasks, s.messages, s.runs, s.dispatches[d]);
    }
  }

  lemma DeletedLinksOk(s: State, t: State, teamId: Id)
    requires LinksOk(s.tasks, s.dispatches, {}) && DeleteTeam(s, teamId) == Ok(t)
    requires DispatchesOk(s.teams, s.tasks, s.messages, s.runs, s.dispatches, s.nextId)
    ensures LinksOk(t.tasks, t.dispatches, {})
  {
    forall d, e | SameTask(t.dispatches, d, e) ensures d == e {
      assert SameTask(s.dispatches, d, e);
    }
    forall x | x in t.tasks && ActiveTask(t.tasks[x].status) ensures HasDispatch(t.dispatches, x) {
      var d :| d in s.dispatches && s.dispatches[d].taskId == Some(x);
      assert DispatchOk(s.teams, s.tasks, s.messages, s.runs, s.dispatches[d]);
      assert d in t.dispatches;
    }
    forall d | d in t.dispatches && t.dispatches[d].taskId.Some? ensures t.dispatches[d].taskId.value in t.tasks {
      assert DispatchOk(s.teams, s.tasks, s.messages, s.runs, s.dispatches[d]);
    }
  }

  lemma DeletedBusyOk(s: State, t: State, teamId: Id)
    requires BusyOk(s.teams, s.dispatches) && DeleteTeam(s, teamId) == Ok(t)
    ensures BusyOk(t.teams, t.dispatches)
  {
    forall k, m | k != teamId ensures IsRunning(s.dispatches, k, m) <==> IsRunning(t.dispatches, k, m) {
      if IsRunning(s.dispatches, k, m) {
        var d :| RunsFor(s.dispatches, d, k, m);
        assert RunsFor(t.dispatches, d, k, m);
      }
      if IsRunning(t.dispatches, k, m) {
        var d :| RunsFor(t.dispatches, d, k, m);
        assert RunsFor(s.dispatches, d, k, m);
      }
    }
  }

  lemma DeleteTeamValid(s: State, teamId: Id)
    requires Valid(s) && DeleteTeam(s, teamId).Ok?
    ensures Valid(DeleteTeam(s, teamId).value)
  {
    hide TeamsOk, OwnersOk, GraphOk, RunsOk, DispatchesOk, LinksOk, BusyOk, AloneOk, ConcurrencyOk, EventsOk;
    var t := DeleteTeam(s, teamId).value;
    DeletedTeamsOk(s, t, teamId);
    DeletedGraphOk(s.tasks, t.tasks, teamId);
    DeletedRunsOk(s.runs, t.runs, teamId);
    DeletedDispatchesOk(s, t, teamId);
    DeletedLinksOk(s, t, teamId);
    DeletedBusyOk(s, t, teamId);
    NoneStartsOk(s.dispatches, t.dispatches);
    EmitEventsOk(s.events, s.sequence, Event(teamId, s.sequence + 1, TeamRemoved, teamId));
    RetainedOk(Emit(s, teamId, TeamRemoved, teamId).events, s.sequence + 1, teamId);
  }
}
