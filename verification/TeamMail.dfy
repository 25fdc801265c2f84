/** Who a message reaches, and what it costs the run when a turn addresses too many. */
module TeamMail {
  import opened Common
  import opened Texts
  import opened TeamModel
  import opened TeamDependencies
  import opened TeamInvariant
  import opened TeamFrames
  import opened TeamProofs
  import opened TeamOperations
  import opened TeamCommands
  import opened TeamEffects
  import opened TeamSteps
  import opened TeamTheorems

  /** The member has a queued dispatch of the run that carries the message. */
  ghost predicate Delivered(dispatches: map<Id, Dispatch>, runId: Id, memberId: Id, messageId: Id) {
    exists d :: d in dispatches && dispatches[d].runId == runId && dispatches[d].memberId == memberId &&
                dispatches[d].status == Queued && messageId in dispatches[d].messageIds
  }

  lemma DeliveredStays(s: State, runId: Id, memberId: Id, other: Id, messageId: Id, parentId: Option<Id>)
    requires DeliverTo(s, runId, other, messageId, parentId).Ok? && s.nextId !in s.dispatches
    requires Delivered(s.dispatches, runId, memberId, messageId)
    ensures Delivered(DeliverTo(s, runId, other, messageId, parentId).value.dispatches, runId, memberId, messageId)
  {
    hide DeliverTo;
    var d :| d in s.dispatches && s.dispatches[d].runId == runId && s.dispatches[d].memberId == memberId &&
             s.dispatches[d].status == Queued && messageId in s.dispatches[d].messageIds;
    MailStays(s, runId, other, messageId, parentId, d);
  }

  /** Work that is there stays what it is, with its messages. */
  lemma MailStays(s: State, runId: Id, other: Id, messageId: Id, parentId: Option<Id>, d: Id)
    requires DeliverTo(s, runId, other, messageId, parentId).Ok? && s.nextId !in s.dispatches && d in s.dispatches
    ensures var t := DeliverTo(s, runId, other, messageId, parentId).value;
            d in t.dispatches && SameWork(s.dispatches[d], t.dispatches[d]) &&
            s.dispatches[d].messageIds <= t.dispatches[d].messageIds
  {
    hide RegisterEdge;
    FirstMailboxFound(s.dispatches, runId, other, 0, s.nextId);
    RegisterEdgeFacts(s, runId, other, parentId);
  }

  lemma DeliverToDelivers(s: State, runId: Id, memberId: Id, messageId: Id, parentId: Option<Id>)
    requires DeliverTo(s, runId, memberId, messageId, parentId).Ok?
    ensures Delivered(DeliverTo(s, runId, memberId, messageId, parentId).value.dispatches, runId, memberId, messageId)
  {
    hide RegisterEdge;
    FirstMailboxFound(s.dispatches, runId, memberId, 0, s.nextId);
    RegisterEdgeFacts(s, runId, memberId, parentId);
    var t := DeliverTo(s, runId, memberId, messageId, parentId).value;
    match FirstMailbox(s.dispatches, runId, memberId, 0, s.nextId)
    case None =>
      assert t.dispatches[s.nextId].messageIds == [messageId];
    case Some(pending) =>
      assert t.dispatches[pending].messageIds == s.dispatches[pending].messageIds + [messageId];
  }

  lemma {:induction false} DeliverReachesAll(s: State, runId: Id, targets: seq<Id>, messageId: Id, parentId: Option<Id>)
    requires Valid(s) && Deliver(s, runId, targets, messageId, parentId).Ok?
    requires runId in s.runs && s.runs[runId].teamId in s.teams
    requires forall i :: 0 <= i < |targets| ==> HasMember(s.teams[s.runs[runId].teamId], targets[i])
    requires messageId in s.messages && s.messages[messageId].teamId == s.runs[runId].teamId
    ensures forall m :: m in targets || Delivered(s.dispatches, runId, m, messageId) ==>
              Delivered(Deliver(s, runId, targets, messageId, parentId).value.dispatches, runId, m, messageId)
    decreases |targets|
  {
    hide TeamsOk, OwnersOk, GraphOk, RunsOk, DispatchesOk, LinksOk, BusyOk, AloneOk, ConcurrencyOk, EventsOk;
    hide DeliverTo, Delivered;
    if targets != [] {
      var next := DeliverTo(s, runId, targets[0], messageId, parentId).value;
      NextIsFresh(s);
      DeliverToValid(s, runId, targets[0], messageId, parentId);
      DeliverToFrame(s, runId, targets[0], messageId, parentId);
      DeliverToDelivers(s, runId, targets[0], messageId, parentId);
      forall m | Delivered(s.dispatches, runId, m, messageId) ensures Delivered(next.dispatches, runId, m, messageId) {
        DeliveredStays(s, runId, m, targets[0], messageId, parentId);
      }
      DeliverReachesAll(next, runId, targets[1..], messageId, parentId);
      assert forall m :: m in targets ==> m == targets[0] || m in targets[1..];
    }
  }

  /** Some dispatch of the member carries the message. */
  ghost predicate Carries(dispatches: map<Id, Dispatch>, memberId: Id, messageId: Id) {
    exists d :: d in dispatches && dispatches[d].memberId == memberId && messageId in dispatches[d].messageIds
  }

  lemma DeliverToOnly(s: State, runId: Id, memberId: Id, messageId: Id, parentId: Option<Id>, m: Id)
    requires DeliverTo(s, runId, memberId, messageId, parentId).Ok?
    requires Carries(DeliverTo(s, runId, memberId, messageId, parentId).value.dispatches, m, messageId)
    ensures m == memberId || Carries(s.dispatches, m, messageId)
  {
    hide RegisterEdge;
    FirstMailboxFound(s.dispatches, runId, memberId, 0, s.nextId);
    RegisterEdgeFacts(s, runId, memberId, parentId);
    var t := DeliverTo(s, runId, memberId, messageId, parentId).value;
    var d :| d in t.dispatches && t.dispatches[d].memberId == m && messageId in t.dispatches[d].messageIds;
    if m != memberId {
      assert d in s.dispatches && s.dispatches[d].memberId == m && messageId in s.dispatches[d].messageIds;
    }
  }

  lemma {:induction false} DeliverReachesOnly(s: State, runId: Id, targets: seq<Id>, messageId: Id, parentId: Option<Id>, m: Id)
    requires Deliver(s, runId, targets, messageId, parentId).Ok?
    requires Carries(Deliver(s, runId, targets, messageId, parentId).value.dispatches, m, messageId)
    ensures m in targets || Carries(s.dispatches, m, messageId)
    decreases |targets|
  {
    hide DeliverTo, Carries;
    if targets != [] {
      var next := DeliverTo(s, runId, targets[0], messageId, parentId).value;
      DeliverReachesOnly(next, runId, targets[1..], messageId, parentId, m);
      if m !in targets[1..] {
        DeliverToOnly(s, runId, targets[0], messageId, parentId, m);
      }
    }
  }

  lemma DeliveredCarries(dispatches: map<Id, Dispatch>, runId: Id, m: Id, messageId: Id)
    requires Delivered(dispatches, runId, m, messageId)
    ensures Carries(dispatches, m, messageId)
  {
  }

  lemma NothingCarriesNext(s: State, m: Id)
    requires Valid(s)
    ensures !Carries(s.dispatches, m, s.nextId)
  {
    hide TeamsOk, GraphOk, RunsOk, LinksOk, BusyOk, AloneOk, ConcurrencyOk, EventsOk;
    forall d | d in s.dispatches ensures s.nextId !in s.dispatches[d].messageIds {
      assert DispatchOk(s.teams, s.tasks, s.messages, s.runs, s.dispatches[d]);
      assert s.nextId !in s.messages;
    }
  }

  /** Whom a message is for: its addressee, or every member of the team but its sender. */
  predicate IsFor(team: Team, from: Option<Id>, to: Option<Id>, m: Id) {
    if to.Some? then m == to.value else HasMember(team, m) && Some(m) != from
  }

  lemma {:induction false} OthersAre(members: seq<Member>, from: Option<Id>, m: Id)
    ensures m in OthersThan(members, from) <==> Some(m) != from && exists i :: 0 <= i < |members| && members[i].id == m
  {
    if members != [] {
      OthersAre(members[1..], from, m);
      assert (exists i :: 0 <= i < |members| && members[i].id == m) <==>
             members[0].id == m || exists i :: 0 <= i < |members[1..]| && members[1..][i].id == m by {
        if i :| 0 <= i < |members| && members[i].id == m && i > 0 {
          assert members[1..][i - 1].id == m;
        }
        if i :| 0 <= i < |members[1..]| && members[1..][i].id == m {
          assert members[i + 1].id == m;
        }
      }
    }
  }

  lemma TargetsAre(team: Team, from: Option<Id>, to: Option<Id>, m: Id)
    ensures m in Targets(team, from, to) <==> IsFor(team, from, to, m)
  {
    OthersAre(team.members, from, m);
  }

  /**
   A message is kept as it was sent, trimmed, and a member gets work that carries it exactly if the message is for it:
   queued work of the team's run.
   */
  lemma MailReachesEverybody(s: State, teamId: Id, from: Option<Id>, to: Option<Id>, body: string, parentId: Option<Id>)
    requires Valid(s) && SendMessage(s, teamId, from, to, body, parentId).Ok?
    ensures var (t, id) := SendMessage(s, teamId, from, to, body, parentId).value;
            teamId in s.teams && id !in s.messages && t.messages == s.messages[id := Message(teamId, from, to, Trim(body), false)] &&
            forall m :: (IsFor(s.teams[teamId], from, to, m) <==> Carries(t.dispatches, m, id)) &&
                        (IsFor(s.teams[teamId], from, to, m) <==> Delivered(t.dispatches, MailRun(s, teamId), m, id))
  {
    hide Valid, EnsureRun, Deliver, Targets, Delivered, IsFor, Carries;
    var (ready, run) := EnsureRun(Posted(s, teamId, from, to, body), teamId);
    var targets := Targets(s.teams[teamId], from, to);
    MailReady(s, teamId, from, to, body);
    TargetsAreMembers(s.teams[teamId], from, to);
    DeliverReachesAll(ready, run, targets, s.nextId, parentId);
    MessagesKept(ready, run, targets, s.nextId, parentId);
    NextMessage(s);
    var t := SendMessage(s, teamId, from, to, body, parentId).value.0;
    assert t.dispatches == Deliver(ready, run, targets, s.nextId, parentId).value.dispatches;
    forall m
      ensures (IsFor(s.teams[teamId], from, to, m) <==> Carries(t.dispatches, m, s.nextId)) &&
              (IsFor(s.teams[teamId], from, to, m) <==> Delivered(t.dispatches, MailRun(s, teamId), m, s.nextId))
    {
      TargetsAre(s.teams[teamId], from, to, m);
      NothingCarriesNext(s, m);
      if Delivered(t.dispatches, run, m, s.nextId) {
        DeliveredCarries(t.dispatches, run, m, s.nextId);
      }
      if Carries(t.dispatches, m, s.nextId) {
        DeliverReachesOnly(ready, run, targets, s.nextId, parentId, m);
      }
    }
  }

  lemma NextMessage(s: State)
    requires Valid(s)
    ensures s.nextId !in s.messages
  {
    hide TeamsOk, GraphOk, RunsOk, LinksOk, BusyOk, AloneOk, ConcurrencyOk, EventsOk, DispatchesOk;
  }

  lemma {:induction false} MessagesKept(s: State, runId: Id, targets: seq<Id>, messageId: Id, parentId: Option<Id>)
    requires Deliver(s, runId, targets, messageId, parentId).Ok?
    ensures Deliver(s, runId, targets, messageId, parentId).value.messages == s.messages
    decreases |targets|
  {
    hide DeliverTo;
    if targets != [] {
      DeliverToFrame(s, runId, targets[0], messageId, parentId);
      MessagesKept(DeliverTo(s, runId, targets[0], messageId, parentId).value, runId, targets[1..], messageId, parentId);
    }
  }
}
