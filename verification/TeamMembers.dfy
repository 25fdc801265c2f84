/** What becomes of the members under every command that leaves a team's roster alone. */
module TeamMembers {
  import opened Common
  import opened Texts
  import opened TeamModel
  import opened TeamInvariant
  import opened TeamProofs
  import opened TeamOperations
  import opened TeamCancel
  import opened TeamRestart
  import opened TeamCommands
  import opened TeamEffects
  import opened TeamSteps
  import opened TeamOutcomes
  import opened TeamLimits

  predicate IsOf(s: State, d: Id, k: Id, m: Id) {
    d in s.dispatches && s.dispatches[d].teamId == k && s.dispatches[d].memberId == m
  }

  /** The member has outstanding work in the run. */
  ghost predicate WorksIn(s: State, r: Id, k: Id, m: Id) {
    exists d :: IsOf(s, d, k, m) && s.dispatches[d].runId == r && Active(s.dispatches[d].status)
  }

  /** The status of a member after a command that was accepted. */
  ghost function MemberAfter(s: State, c: Command, k: Id, member: Member): MemberStatus {
    match c
    case Begin(d) => if IsOf(s, d, k, member.id) then Busy else member.status
    case Finish(d, report) =>
      if IsTurn(s, d) && IsOf(s, d, k, member.id)
      then match report { case Finished(_) => Idle case Errored(_) => Faulted } else member.status
    case Defer(d) =>
      if IsTurn(s, d) && !s.dispatches[d].submitted && IsOf(s, d, k, member.id) then Idle else member.status
    case Stop(team, x) =>
      if team == k && x in s.tasks && s.tasks[x].status == TaskRunning && s.tasks[x].memberId == member.id
      then Idle else member.status
    case Control(_, r, Cancel) => if WorksIn(s, r, k, member.id) then Idle else member.status
    case Reopen => if member.status == Busy then Idle else member.status
    case _ => member.status
  }

  /** Members keep their place, name and role, and have become what the command says. */
  ghost predicate MembersBecome(s: State, c: Command, t: State, k: Id) {
    k in s.teams && k in t.teams ==>
      |t.teams[k].members| == |s.teams[k].members| &&
      forall i :: 0 <= i < |s.teams[k].members| ==>
        t.teams[k].members[i] == s.teams[k].members[i].(status := MemberAfter(s, c, k, s.teams[k].members[i]))
  }

  /** Commands that change who is in a team, how members are called or how they are ordered. */
  predicate ChangesRoster(c: Command) {
    c.Join? || c.Hire? || c.Leave? || c.EditTeam? || c.EditMember?
  }

  lemma OneMember(s: State, c: Command, t: State, team: Id, m: Id, status: MemberStatus, k: Id)
    requires team in s.teams
    requires t.teams == s.teams[team := s.teams[team].(members := WithStatus(s.teams[team].members, m, status))]
    requires forall member: Member :: MemberAfter(s, c, k, member) ==
                                      if k == team && member.id == m then status else member.status
    ensures MembersBecome(s, c, t, k)
  {
    hide MemberAfter;
  }

  lemma NoMember(s: State, c: Command, t: State, k: Id)
    requires k in s.teams && k in t.teams ==> t.teams[k] == s.teams[k]
    requires forall member: Member :: MemberAfter(s, c, k, member) == member.status
    ensures MembersBecome(s, c, t, k)
  {
    hide MemberAfter;
  }

  // ---------------------------------------------------------------- commands

  lemma BeginSets(s: State, d: Id)
    requires Valid(s) && BeginDispatch(s, d).1.Ok?
    ensures d in s.dispatches &&
            var item := s.dispatches[d];
            item.teamId in s.teams && BeginDispatch(s, d).0.teams ==
              s.teams[item.teamId := s.teams[item.teamId].(members := WithStatus(s.teams[item.teamId].members, item.memberId, Busy))]
  {
    hide Valid, RunningIn, IsBusy, HasMember, WithStatus;
    QueuedTask(s, d);
  }

  lemma BeginMembers(s: State, d: Id, k: Id)
    requires Valid(s) && BeginDispatch(s, d).1.Ok?
    ensures MembersBecome(s, Begin(d), BeginDispatch(s, d).0, k)
  {
    hide Valid, BeginDispatch, WithStatus;
    BeginSets(s, d);
    OneMember(s, Begin(d), BeginDispatch(s, d).0, s.dispatches[d].teamId, s.dispatches[d].memberId, Busy, k);
  }

  lemma FinishTeams(s: State, d: Id, report: Report)
    requires Valid(s) && IsTurn(s, d) && FinishDispatch(s, d, report).Ok?
    ensures Settle(s, d, report).Ok? && FinishDispatch(s, d, report).value.teams == Settle(s, d, report).value.teams
  {
    hide Valid, Settle, ReportToLead, Grows;
    var t, item := Settle(s, d, report).value, s.dispatches[d];
    SettleValidHere(s, d, report);
    if Unfinished(t.runs[item.runId].status) && t.runs[item.runId].status != RunInterrupted {
      ReportAdds(t, d, item, t.runs[item.runId], report);
    }
  }

  lemma FinishMembers(s: State, d: Id, report: Report, k: Id)
    requires Valid(s) && FinishDispatch(s, d, report).Ok?
    ensures MembersBecome(s, Finish(d, report), FinishDispatch(s, d, report).value, k)
  {
    hide Valid, Settle, WithStatus, MembersBecome;
    if IsTurn(s, d) {
      FinishTeams(s, d, report);
      DispatchIs(s, d);
      SettledTeams(s, d, report);
      hide FinishDispatch;
      OneMember(s, Finish(d, report), FinishDispatch(s, d, report).value, s.dispatches[d].teamId, s.dispatches[d].memberId,
                if report.Finished? then Idle else Faulted, k);
    } else {
      NoMember(s, Finish(d, report), s, k);
    }
  }

  lemma DeferMembers(s: State, d: Id, k: Id)
    requires DeferDispatch(s, d).Ok?
    ensures MembersBecome(s, Defer(d), DeferDispatch(s, d).value, k)
  {
    hide WithStatus, MembersBecome;
    if IsTurn(s, d) && !s.dispatches[d].submitted {
      OneMember(s, Defer(d), DeferDispatch(s, d).value, s.dispatches[d].teamId, s.dispatches[d].memberId, Idle, k);
    } else {
      NoMember(s, Defer(d), s, k);
    }
  }

  lemma StopMembers(s: State, team: Id, x: Id, k: Id)
    requires CancelTask(s, team, x).Ok?
    ensures MembersBecome(s, Stop(team, x), CancelTask(s, team, x).value, k)
  {
    hide WithStatus, MembersBecome, StoppedFor;
    if s.tasks[x].status == TaskRunning {
      OneMember(s, Stop(team, x), CancelTask(s, team, x).value, team, s.tasks[x].memberId, Idle, k);
    } else {
      NoMember(s, Stop(team, x), CancelTask(s, team, x).value, k);
    }
  }

  lemma ReopenMembers(s: State, k: Id)
    requires Valid(s) && Restart(s).Ok?
    ensures MembersBecome(s, Reopen, Restart(s).value, k)
  {
    hide Restart, Repaired, TeamsOk, OwnersOk, GraphOk, RunsOk, DispatchesOk, AloneOk, ConcurrencyOk, EventsOk;
    NoAdoption(s);
  }

  // ---------------------------------------------------------------- cancelling a run

  /** The members after those with work of the run among these dispatches were let go. */
  ghost predicate LetGo(s: State, t: State, r: Id, first: nat, bound: nat, k: Id) {
    (k in s.teams <==> k in t.teams) &&
    (k in s.teams ==>
       |t.teams[k].members| == |s.teams[k].members| &&
       forall i :: 0 <= i < |s.teams[k].members| ==>
         t.teams[k].members[i] ==
           if WorksAmong(s, r, first, bound, k, s.teams[k].members[i].id)
           then s.teams[k].members[i].(status := Idle) else s.teams[k].members[i])
  }

  ghost predicate WorksAmong(s: State, r: Id, first: nat, bound: nat, k: Id, m: Id) {
    exists d :: first <= d < bound && IsOf(s, d, k, m) && s.dispatches[d].runId == r && Active(s.dispatches[d].status)
  }

  lemma AmongNext(s: State, r: Id, first: nat, bound: nat, k: Id, m: Id)
    requires first < bound
    ensures WorksAmong(s, r, first, bound, k, m) <==>
            (IsOf(s, first, k, m) && s.dispatches[first].runId == r && Active(s.dispatches[first].status)) ||
            WorksAmong(s, r, first + 1, bound, k, m)
  {
  }

  lemma HaltedAmong(s: State, r: Id, first: nat, bound: nat, k: Id, m: Id)
    requires first in s.dispatches && s.dispatches[first].teamId in s.teams
    ensures WorksAmong(Halted(s, first), r, first + 1, bound, k, m) <==> WorksAmong(s, r, first + 1, bound, k, m)
  {
    hide WithStatus;
    var n := Halted(s, first);
    assert forall d :: d != first && d in s.dispatches ==> d in n.dispatches && n.dispatches[d] == s.dispatches[d];
    assert forall d :: d in n.dispatches ==> d in s.dispatches;
    if WorksAmong(s, r, first + 1, bound, k, m) {
      var d :| first + 1 <= d < bound && IsOf(s, d, k, m) && s.dispatches[d].runId == r && Active(s.dispatches[d].status);
      assert IsOf(n, d, k, m);
    }
    if WorksAmong(n, r, first + 1, bound, k, m) {
      var d :| first + 1 <= d < bound && IsOf(n, d, k, m) && n.dispatches[d].runId == r && Active(n.dispatches[d].status);
      assert IsOf(s, d, k, m);
    }
  }

  lemma HaltedTeams(s: State, d: Id)
    requires d in s.dispatches && s.dispatches[d].teamId in s.teams
    ensures var item := s.dispatches[d];
            Halted(s, d).teams ==
              s.teams[item.teamId := s.teams[item.teamId].(members := WithStatus(s.teams[item.teamId].members, item.memberId, Idle))]
  {
    hide WithStatus;
  }

  lemma LetGoNext(s: State, t: State, r: Id, first: nat, bound: nat, k: Id)
    requires first < bound && first in s.dispatches && s.dispatches[first].teamId in s.teams
    requires s.dispatches[first].runId == r && Active(s.dispatches[first].status)
    requires LetGo(Halted(s, first), t, r, first + 1, bound, k)
    ensures LetGo(s, t, r, first, bound, k)
  {
    HaltedTeams(s, first);
    hide Halted, WorksAmong;
    if k in s.teams {
      forall i | 0 <= i < |s.teams[k].members|
        ensures i < |t.teams[k].members| && t.teams[k].members[i] ==
                if WorksAmong(s, r, first, bound, k, s.teams[k].members[i].id)
                then s.teams[k].members[i].(status := Idle) else s.teams[k].members[i]
      {
        AmongNext(s, r, first, bound, k, s.teams[k].members[i].id);
        HaltedAmong(s, r, first, bound, k, s.teams[k].members[i].id);
      }
    }
  }

  lemma LetGoSkips(s: State, t: State, r: Id, first: nat, bound: nat, k: Id)
    requires first < bound
    requires !(first in s.dispatches && s.dispatches[first].runId == r && Active(s.dispatches[first].status))
    requires LetGo(s, t, r, first + 1, bound, k)
    ensures LetGo(s, t, r, first, bound, k)
  {
    hide WorksAmong;
    if k in s.teams {
      forall i | 0 <= i < |s.teams[k].members|
        ensures WorksAmong(s, r, first, bound, k, s.teams[k].members[i].id) <==>
                WorksAmong(s, r, first + 1, bound, k, s.teams[k].members[i].id)
      {
        AmongNext(s, r, first, bound, k, s.teams[k].members[i].id);
      }
    }
  }

  lemma LetGoNone(s: State, r: Id, first: nat, bound: nat, k: Id)
    requires first >= bound
    ensures LetGo(s, s, r, first, bound, k)
  {
  }

  lemma {:induction false} CancelItemsLetGo(s: State, r: Id, first: nat, bound: nat, k: Id)
    requires r in s.runs && Halting(s, s.runs[r].teamId) && CancelItems(s, r, first, bound).Ok?
    ensures LetGo(s, CancelItems(s, r, first, bound).value, r, first, bound, k)
    decreases bound - first
  {
    hide TeamsOk, OwnersOk, GraphOk, RunsOk, DispatchesOk, LinksOk, BusyOk, AloneOk, ConcurrencyOk, EventsOk;
    hide HalfBusy, CancelItem, LetGo;
    if first < bound {
      if first in s.dispatches && s.dispatches[first].runId == r && Active(s.dispatches[first].status) {
        DispatchTeam(s, first);
        CancelItemForm(s, r, first);
        HaltedKeeps(s, first);
        CancelItemsLetGo(Halted(s, first), r, first + 1, bound, k);
        LetGoNext(s, CancelItems(Halted(s, first), r, first + 1, bound).value, r, first, bound, k);
      } else {
        SkippedItem(s, r, first);
        CancelItemsLetGo(s, r, first + 1, bound, k);
        LetGoSkips(s, CancelItems(s, r, first + 1, bound).value, r, first, bound, k);
      }
    } else {
      LetGoNone(s, r, first, bound, k);
    }
  }

  lemma CancelMembers(s: State, team: Id, r: Id, k: Id)
    requires Valid(s) && ControlRun(s, team, r, Cancel).Ok?
    ensures MembersBecome(s, Control(team, r, Cancel), ControlRun(s, team, r, Cancel).value, k)
  {
    hide TeamsOk, OwnersOk, GraphOk, RunsOk, DispatchesOk, LinksOk, BusyOk, AloneOk, ConcurrencyOk, EventsOk;
    hide CancelItems, LetGo, HalfBusy, MembersBecome;
    var run := s.runs[r].(status := RunCancelled, reason := NoReason);
    BusyIsHalfBusy(s.teams, s.dispatches, team);
    CancelItemsIgnoreRuns(s, s.runs[r := run], r, 0, s.nextId);
    CancelItemsHalt(s, r, 0, s.nextId);
    CancelItemsLetGo(s, r, 0, s.nextId, k);
    LetGoBecomes(s, CancelItems(s, r, 0, s.nextId).value, ControlRun(s, team, r, Cancel).value, team, r, k);
  }

  lemma LetGoBecomes(s: State, q: State, t: State, team: Id, r: Id, k: Id)
    requires Valid(s) && LetGo(s, q, r, 0, s.nextId, k) && t.teams == q.teams
    ensures MembersBecome(s, Control(team, r, Cancel), t, k)
  {
    hide Valid, WorksAmong, WorksIn;
    if k in s.teams {
      forall i | 0 <= i < |s.teams[k].members|
        ensures i < |t.teams[k].members| && t.teams[k].members[i] ==
                s.teams[k].members[i].(status := MemberAfter(s, Control(team, r, Cancel), k, s.teams[k].members[i]))
      {
        AmongAll(s, r, k, s.teams[k].members[i].id);
      }
    }
  }

  lemma AmongAll(s: State, r: Id, k: Id, m: Id)
    requires Valid(s)
    ensures WorksAmong(s, r, 0, s.nextId, k, m) <==> WorksIn(s, r, k, m)
  {
    hide Valid;
    if WorksIn(s, r, k, m) {
      var d :| IsOf(s, d, k, m) && s.dispatches[d].runId == r && Active(s.dispatches[d].status);
      DispatchRun(s, d);
    }
  }

  // ---------------------------------------------------------------- the law

  lemma {:induction false} PauseTeams(s: State, first: nat, bound: nat)
    ensures PauseBlocked(s, first, bound).teams == s.teams
    decreases bound - first
  {
    if first < bound {
      if Blocked(s, first) {
        var run := s.runs[first];
        PauseTeams(Emit(SetRun(s, first, run.(status := RunPaused, reason := DependencyFailed)), run.teamId, RunUpdated, first),
                   first + 1, bound);
      } else {
        PauseTeams(s, first + 1, bound);
      }
    }
  }

  lemma GrownTeams(s: State, c: Command)
    requires Valid(s) && Apply(s, c).1.Ok?
    requires c.Queue? || c.Post? || c.Launch? || c.PauseIdle? || c.Submit? || c.EditTask? || c.Account? ||
             (c.Control? && c.action != Cancel)
    ensures Apply(s, c).0.teams == s.teams
  {
    hide Valid, Grows, SendMessage, StartRun, PauseBlocked, QueueTask, ControlRun, ValidateDependencies, Accepted;
    match c {
      case Queue(_, _, _, _, _, _) =>
        var run := QueueGrows(s, c);
        assert Grows(s.(tasks := s.tasks[s.nextId := Task(c.teamId, c.memberId, 1, c.dependsOn, TaskQueued, None)],
                        nextId := s.nextId + 1), Apply(s, c).0, run);
        GrowsTeams(s.(tasks := s.tasks[s.nextId := Task(c.teamId, c.memberId, 1, c.dependsOn, TaskQueued, None)],
                      nextId := s.nextId + 1), Apply(s, c).0, run);
      case Post(k, from, to, body, p) =>
        SendMessageGrows(s, k, from, to, body, p);
        GrowsTeams(s, Apply(s, c).0, MailRun(s, k));
      case Launch(k, input, target) =>
        StartRunGrows(s, k, input, target);
        var run :| Grows(s, Apply(s, c).0, run);
        GrowsTeams(s, Apply(s, c).0, run);
      case PauseIdle => PauseTeams(s, 0, s.nextId);
      case Control(k, r, action) =>
        if action == Pause {
          PausedTeams(s, k, r);
        } else {
          ResumeGrows(s, k, r);
          GrowsTeams(s, Apply(s, c).0, r);
        }
      case _ =>
    }
  }

  lemma PausedTeams(s: State, k: Id, r: Id)
    requires ControlRun(s, k, r, Pause).Ok?
    ensures ControlRun(s, k, r, Pause).value.teams == s.teams
  {
  }

  lemma DropTeams(s: State, team: Id, k: Id)
    requires DeleteTeam(s, team).Ok? && k in DeleteTeam(s, team).value.teams
    ensures k in s.teams && DeleteTeam(s, team).value.teams[k] == s.teams[k]
  {
    hide RetainedEvents;
  }

  /** Every accepted command that leaves the roster alone does to every member what is said above, and nothing else. */
  lemma StepMembers(s: State, c: Command, k: Id)
    requires Valid(s) && Apply(s, c).1.Ok? && !ChangesRoster(c)
    ensures MembersBecome(s, c, Apply(s, c).0, k)
  {
    hide Valid, BeginDispatch, FinishDispatch, ControlRun, DeleteTeam, CancelTask, SendMessage, MembersBecome;
    hide QueueTask, UpdateTask, StartRun, SubmitDispatch, DeferDispatch, PauseBlocked, Restart, Acknowledge;
    match c {
      case Begin(d) => BeginMembers(s, d, k);
      case Finish(d, report) => FinishMembers(s, d, report, k);
      case Defer(d) => DeferMembers(s, d, k);
      case Stop(team, x) => StopMembers(s, team, x, k);
      case Control(team, r, Cancel) => CancelMembers(s, team, r, k);
      case Reopen => ReopenMembers(s, k);
      case NewTeam(_) => NewTeamMembers(s, c, k);
      case Drop(team) =>
        if k in Apply(s, c).0.teams {
          DropTeams(s, team, k);
        }
        NoMember(s, c, Apply(s, c).0, k);
      case _ =>
        GrownTeams(s, c);
        NoMember(s, c, Apply(s, c).0, k);
    }
  }

  lemma NewTeamMembers(s: State, c: Command, k: Id)
    requires Valid(s) && c.NewTeam?
    ensures MembersBecome(s, c, Apply(s, c).0, k)
  {
    hide OwnersOk, GraphOk, RunsOk, DispatchesOk, LinksOk, BusyOk, AloneOk, ConcurrencyOk, EventsOk;
  }

  /** A new member, hired by a turn or added by a user, is an idle worker after all others; nobody else changes. */
  lemma NewMember(s: State, c: Command, k: Id)
    requires Apply(s, c).1.Ok? && (c.Join? || c.Hire?) && k in s.teams
    ensures var t := Apply(s, c).0;
            k in t.teams && t.teams[k].members ==
              s.teams[k].members + (if k == c.teamId then [Member(s.nextId, c.name, Worker, Idle)] else [])
  {
    hide NameTaken, UpdateTeam, UpdateMember, RemoveMember, DeleteTeam, QueueTask, CancelTask, SendMessage, UpdateTask, StartRun;
    hide ControlRun, BeginDispatch, FinishDispatch, DeferDispatch, PauseBlocked, Restart, Acknowledge, SubmitDispatch, CreateTeam;
  }
}
