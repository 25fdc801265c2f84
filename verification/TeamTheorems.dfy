/** Theorems about the team store over all operations and all runs. */
module TeamTheorems {
  import opened Common
  import opened Texts
  import opened TeamModel
  import opened TeamDependencies
  import opened TeamInvariant
  import opened TeamFrames
  import opened TeamProofs
  import opened TeamOperations
  import opened TeamControl
  import opened TeamCancel
  import opened TeamRestart
  import opened TeamCommands
  import opened TeamEffects
  import opened TeamSteps

  // ---------------------------------------------------------------- when finishDispatch succeeds

  /** The text of a report after "finished" or "failed". */
  function ReportText(report: Report): string {
    match report
    case Errored(error) => error
    case Finished(result) => if result.Some? then result.value else DEFAULT_RESULT
  }

  /** A mailbox message holds 65536 code units; sixty of them introduce the report. */
  const REPORT_LIMIT := TEXT_LIMIT - 60

  lemma ReportLength(report: Report)
    ensures Accepted(ReportBody(report), TEXT_LIMIT) <==> |TrimEnd(ReportText(report))| <= REPORT_LIMIT
  {
    var mark := if report.Errored? then FAILED_MARK else FINISHED_MARK;
    var head := REPORT_HEAD + DISPATCH_ID_TEXT + mark[..4];
    var tail := "\n" + ReportText(report);
    assert mark == mark[..4] + "\n";
    assert |head| == 59 && head[0] == '\U{6210}' && head[58] == '\U{FF1A}';
    assert ReportBody(report) == head + tail;
    assert TrimStart(head + tail) == head + tail;
    TrimEndAppend(head, tail);
    TrimEndLine(ReportText(report));
  }

  lemma TrimEndLine(text: string)
    ensures |TrimEnd("\n" + text)| == if TrimEnd(text) == "" then 0 else 1 + |TrimEnd(text)|
    decreases |text|
  {
    var line := "\n" + text;
    if text == "" {
      assert line[..|line| - 1] == "";
    } else {
      assert line[|line| - 1] == text[|text| - 1];
      assert line[..|line| - 1] == "\n" + text[..|text| - 1];
      if IsSpace(text[|text| - 1]) {
        TrimEndLine(text[..|text| - 1]);
      }
    }
  }

  /** The guard of the branch that can fail: a member reports to the lead of a run that still goes on. */
  predicate ReportsToLead(s: State, id: Id)
    requires id in s.dispatches && s.dispatches[id].runId in s.runs && s.dispatches[id].teamId in s.teams
  {
    s.runs[s.dispatches[id].runId].status != RunInterrupted &&
    LeadOf(s.teams[s.dispatches[id].teamId].members) != Some(s.dispatches[id].memberId)
  }

  lemma SettleMoves(s: State, id: Id, report: Report)
    requires id in s.dispatches && s.dispatches[id].status == Running && Settle(s, id, report).Ok?
    ensures var t := Settle(s, id, report).value;
            var item := s.dispatches[id];
            Moves(s, t, id, item.taskId, item.runId) && t.runs == s.runs && t.messages == s.messages &&
            t.nextId == s.nextId && t.dispatches[id] == item.(status := if report.Errored? then Failed else Succeeded)
    ensures var t := Settle(s, id, report).value;
            forall x :: x in s.tasks ==>
              (Started(t.tasks[x].status) ==> Started(s.tasks[x].status)) &&
              (Final(s.tasks[x].status) ==> t.tasks[x] == s.tasks[x])
  {
    hide WithStatus;
    var t := Settle(s, id, report).value;
    var item := s.dispatches[id].(status := if report.Errored? then Failed else Succeeded);
    assert t.dispatches == s.dispatches[id := item];
    if s.dispatches[id].taskId.Some? && s.tasks[s.dispatches[id].taskId.value].status == TaskRunning {
      var x := s.dispatches[id].taskId.value;
      assert t.tasks == s.tasks[x := t.tasks[x]];
      AppendedGoOn(s, t, Event(s.tasks[x].teamId, s.sequence + 1, TaskFinished, x));
    }
  }

  lemma SettleRoster(s: State, id: Id, report: Report)
    requires id in s.dispatches && s.dispatches[id].status == Running && Settle(s, id, report).Ok?
    ensures var t := Settle(s, id, report).value;
            forall k :: k in s.teams ==> k in t.teams && SameRoster(s.teams[k].members, t.teams[k].members)
  {
  }

  /** A team whose members only changed status has the same lead and the same people. */
  lemma SameTeam(s: State, t: State, k: Id)
    requires k in s.teams && k in t.teams && SameRoster(s.teams[k].members, t.teams[k].members)
    ensures LeadOf(t.teams[k].members) == LeadOf(s.teams[k].members)
    ensures forall m :: HasMember(s.teams[k], m) ==> HasMember(t.teams[k], m)
  {
    SameLead(s.teams[k].members, t.teams[k].members);
    forall m | HasMember(s.teams[k], m) ensures HasMember(t.teams[k], m) {
      var i :| 0 <= i < |s.teams[k].members| && s.teams[k].members[i].id == m;
      assert t.teams[k].members[i].id == m;
    }
  }

  /** The message to the lead can only fail on its length. */
  lemma ReportSendable(s: State, id: Id, item: Dispatch, lead: Id, body: string)
    requires Valid(s) && id in s.dispatches && s.dispatches[id].runId == item.runId && item.runId in s.runs
    requires s.dispatches[id].status != Cancelled && item.teamId in s.teams && s.runs[item.runId].teamId == item.teamId
    requires Unfinished(s.runs[item.runId].status)
    requires HasMember(s.teams[item.teamId], item.memberId) && HasMember(s.teams[item.teamId], lead)
    ensures SendMessage(s, item.teamId, Some(item.memberId), Some(lead), body, Some(id)).Ok? <==>
            Accepted(body, TEXT_LIMIT)
    ensures MailRun(s, item.teamId) == item.runId
  {
    hide Valid, FirstMailbox, Grows;
    TheRun(s, item.teamId, item.runId);
    if Accepted(body, TEXT_LIMIT) {
      MailReady(s, item.teamId, Some(item.memberId), Some(lead), body);
      var (ready, run) := EnsureRun(Posted(s, item.teamId, Some(item.memberId), Some(lead), body), item.teamId);
      assert ready.runs == s.runs && run == item.runId;
      EdgeAllowed(ready, run, lead, id);
      MailboxKnown(ready, run, lead);
      assert DeliverTo(ready, run, lead, s.nextId, Some(id)).Ok?;
      var next := DeliverTo(ready, run, lead, s.nextId, Some(id)).value;
      assert Deliver(next, run, [lead][1..], s.nextId, Some(id)) == Ok(next);
    }
  }

  lemma MailboxKnown(s: State, runId: Id, memberId: Id)
    ensures match FirstMailbox(s.dispatches, runId, memberId, 0, s.nextId)
            case Some(d) => d in s.dispatches
            case None => true
  {
    FirstMailboxFound(s.dispatches, runId, memberId, 0, s.nextId);
  }

  lemma EdgeAllowed(s: State, runId: Id, memberId: Id, parent: Id)
    requires parent in s.dispatches && s.dispatches[parent].runId == runId && s.dispatches[parent].status != Cancelled
    requires runId in s.runs && Unfinished(s.runs[runId].status)
    ensures RegisterEdge(s, runId, memberId, Some(parent)).Ok?
    ensures forall m :: Enqueue(s, runId, memberId, Some(parent), None, m).Ok?
  {
  }

  /** The team's unfinished run is the one that mail joins. */
  lemma TheRun(s: State, teamId: Id, runId: Id)
    requires Valid(s) && runId in s.runs && s.runs[runId].teamId == teamId && Unfinished(s.runs[runId].status)
    ensures MailRun(s, teamId) == runId
  {
    hide TeamsOk, GraphOk, DispatchesOk, LinksOk, BusyOk, AloneOk, ConcurrencyOk, EventsOk;
    LastUnfinishedFound(s.runs, teamId, s.nextId + 1);
    var found := LastUnfinished(s.runs, teamId, s.nextId + 1);
    assert found.Some? ==> Rivals(s.runs, found.value, runId);
  }

  /**
   `finishDispatch` on a running dispatch: it succeeds, unless a member's report to the lead is longer than a
   mailbox message may be. Then the whole transaction is rolled back. The session id that a success carries is taken
   as not empty, since an empty one would not pass the check of the finished task.
   */
  lemma FinishSucceedsIff(s: State, id: Id, report: Report)
    requires Valid(s) && id in s.dispatches && s.dispatches[id].status == Running
    ensures s.dispatches[id].runId in s.runs && s.dispatches[id].teamId in s.teams
    ensures FinishDispatch(s, id, report).Ok? <==>
              !ReportsToLead(s, id) || |TrimEnd(ReportText(report))| <= REPORT_LIMIT
  {
    hide ValidWhile, Settle, SendMessage, ReportBody, ReportText, SameRoster, Moves;
    var item := s.dispatches[id];
    DispatchLinksHere(s, id);
    SettleValid(s, id, report);
    SettleMoves(s, id, report);
    SettleRoster(s, id, report);
    var t := Settle(s, id, report).value;
    SettledFacts(s, t, id, item.taskId, item.runId);
    SameTeam(s, t, item.teamId);
    LeadOfValid(t, item.teamId);
    ReportLength(report);
    var lead := LeadOf(t.teams[item.teamId].members).value;
    ReportSendable(t, id, item, lead, ReportBody(report));
  }

  lemma DispatchLinksHere(s: State, d: Id)
    requires Valid(s) && d in s.dispatches && Active(s.dispatches[d].status)
    ensures var item := s.dispatches[d];
            item.teamId in s.teams && item.runId in s.runs && s.runs[item.runId].teamId == item.teamId &&
            Unfinished(s.runs[item.runId].status) && HasMember(s.teams[item.teamId], item.memberId)
  {
    DispatchLinks(s, d);
  }

  lemma SettledFacts(s: State, t: State, d: Id, x: Option<Id>, r: Id)
    requires Moves(s, t, d, x, r)
    ensures d in t.dispatches && t.dispatches[d].runId == s.dispatches[d].runId
  {
  }

  /** Such an input: any result of 65477 code units that does not end in white space. The state stays as it was. */
  lemma LongReportRollsBack(s: State, id: Id, text: string)
    requires Valid(s) && id in s.dispatches && s.dispatches[id].status == Running
    requires s.dispatches[id].runId in s.runs && s.dispatches[id].teamId in s.teams && ReportsToLead(s, id)
    requires |text| == 65477 && !IsSpace(text[65476])
    ensures Apply(s, Finish(id, Finished(Some(text)))).0 == s && Apply(s, Finish(id, Finished(Some(text)))).1.Err?
  {
    hide ValidWhile, FinishDispatch;
    FinishSucceedsIff(s, id, Finished(Some(text)));
    assert TrimEnd(text) == text;
  }

  // ---------------------------------------------------------------- what finishDispatch leaves behind

  /** After a report the run is over, interrupted, or still has work: it is never stranded. */
  lemma FinishSteps(s: State, id: Id, report: Report)
    requires Valid(s) && FinishDispatch(s, id, report).Ok?
    ensures var t := FinishDispatch(s, id, report).value;
            StartsInOrder(s, t) && FinishedStay(s, t) && EventsGoOn(s, t) && KeepsDispatches(s, t) &&
            (Live(s) ==> Live(t)) && t.tasks.Keys == s.tasks.Keys
    ensures var t := FinishDispatch(s, id, report).value;
            id in s.dispatches && s.dispatches[id].status == Running ==>
              s.dispatches[id].runId in t.runs &&
              (t.runs[s.dispatches[id].runId].status == RunCompleted ||
               t.runs[s.dispatches[id].runId].status == RunInterrupted ||
               Outstanding(t.dispatches, s.dispatches[id].runId))
    ensures var t := FinishDispatch(s, id, report).value;
            NoneCompletes(s, t) || ClosedByLead(s, id, report)
  {
    hide ValidWhile, Settle, ReportToLead, Live, Orderly, StartsInOrder, FinishedStay, EventsGoOn, KeepsDispatches;
    hide NoneCompletes, Outstanding, Moves, SameRoster, ClosedByLead;
    if s.dispatches[id].status != Running {
      UnchangedSteps(s);
    } else {
      var item := s.dispatches[id];
      DispatchLinksHere(s, id);
      SettleValid(s, id, report);
      SettleMoves(s, id, report);
      SettleRoster(s, id, report);
      var t := Settle(s, id, report).value;
      SettleSteps(s, t, id);
      SettledFacts(s, t, id, item.taskId, item.runId);
      SameTeam(s, t, item.teamId);
      var run := s.runs[item.runId];
      if run.status == RunInterrupted {
        TwoEvents(s, t, item.teamId, id, item.runId);
        OtherRunsLive(s, t, t, id);
      } else {
        ReportSteps(s, t, id, item, run, report);
        var told := ReportToLead(t, id, item, run, report).value;
        TwoEvents(s, told, item.teamId, id, item.runId);
      }
    }
  }

  /** The one way a run completes: the lead's turn succeeds and nothing else is outstanding in the run. */
  ghost predicate ClosedByLead(s: State, id: Id, report: Report) {
    id in s.dispatches && s.dispatches[id].status == Running && report.Finished? &&
    s.dispatches[id].teamId in s.teams &&
    LeadOf(s.teams[s.dispatches[id].teamId].members) == Some(s.dispatches[id].memberId) &&
    forall d :: d in s.dispatches && d != id && s.dispatches[d].runId == s.dispatches[id].runId ==>
      !Active(s.dispatches[d].status)
  }

  lemma UnchangedSteps(s: State)
    ensures StartsInOrder(s, s) && FinishedStay(s, s) && EventsGoOn(s, s) && KeepsDispatches(s, s) && NoneCompletes(s, s)
  {
  }

  lemma SettleSteps(s: State, t: State, id: Id)
    requires id in s.dispatches && Moves(s, t, id, s.dispatches[id].taskId, s.dispatches[id].runId) && t.runs == s.runs
    requires forall x :: x in s.tasks ==>
               (Started(t.tasks[x].status) ==> Started(s.tasks[x].status)) &&
               (Final(s.tasks[x].status) ==> t.tasks[x] == s.tasks[x])
    ensures Orderly(s, t) && StartsInOrder(s, t) && FinishedStay(s, t) && EventsGoOn(s, t) && KeepsDispatches(s, t)
    ensures NoneCompletes(s, t) && t.tasks.Keys == s.tasks.Keys
  {
    MovesOrderly(s, t, id, s.dispatches[id].taskId, s.dispatches[id].runId);
  }

  /** The two closing events change nothing else. */
  lemma TwoEvents(s: State, t: State, teamId: Id, id: Id, runId: Id)
    requires StartsInOrder(s, t) && FinishedStay(s, t) && EventsGoOn(s, t) && KeepsDispatches(s, t)
    ensures var u := Emit(Emit(t, teamId, DispatchUpdated, id), teamId, RunUpdated, runId);
            StartsInOrder(s, u) && FinishedStay(s, u) && EventsGoOn(s, u) && KeepsDispatches(s, u) &&
            (Live(t) <==> Live(u)) && (NoneCompletes(s, t) <==> NoneCompletes(s, u))
  {
    SameWorkLive(t, Emit(Emit(t, teamId, DispatchUpdated, id), teamId, RunUpdated, runId));
  }

  /** Runs other than that of the finished dispatch keep their work; this one is not going. */
  lemma OtherRunsLive(s: State, t: State, u: State, id: Id)
    requires id in s.dispatches && Moves(s, t, id, s.dispatches[id].taskId, s.dispatches[id].runId) && t.runs == s.runs
    requires u.dispatches == t.dispatches && s.dispatches[id].runId in t.runs && u.runs.Keys == t.runs.Keys
    requires forall r :: r in t.runs && r != s.dispatches[id].runId ==> u.runs[r] == t.runs[r]
    requires !Going(u.runs[s.dispatches[id].runId].status) || Outstanding(t.dispatches, s.dispatches[id].runId)
    ensures Live(s) ==> Live(u)
  {
    forall r | Live(s) && r in u.runs && Going(u.runs[r].status) ensures Outstanding(u.dispatches, r) {
      assert r in t.runs.Keys;
      if r != s.dispatches[id].runId {
        var d :| d in s.dispatches && s.dispatches[d].runId == r && Active(s.dispatches[d].status);
        assert t.dispatches[d] == s.dispatches[d];
      }
    }
  }

  lemma ReportSteps(s: State, t: State, id: Id, item: Dispatch, run: Run, report: Report)
    requires Valid(s) && Valid(t) && id in s.dispatches && item == s.dispatches[id] && item.status == Running
    requires item.runId in s.runs && run == s.runs[item.runId] && Going(run.status) && run.teamId == item.teamId
    requires item.teamId in s.teams && item.teamId in t.teams
    requires LeadOf(t.teams[item.teamId].members) == LeadOf(s.teams[item.teamId].members)
    requires Moves(s, t, id, item.taskId, item.runId) && t.runs == s.runs
    requires t.dispatches[id] == item.(status := if report.Errored? then Failed else Succeeded)
    requires StartsInOrder(s, t) && FinishedStay(s, t) && EventsGoOn(s, t) && KeepsDispatches(s, t)
    requires NoneCompletes(s, t) && t.tasks.Keys == s.tasks.Keys
    requires ReportToLead(t, id, item, run, report).Ok?
    ensures var u := ReportToLead(t, id, item, run, report).value;
            StartsInOrder(s, u) && FinishedStay(s, u) && EventsGoOn(s, u) && KeepsDispatches(s, u) &&
            (Live(s) ==> Live(u)) && u.tasks.Keys == s.tasks.Keys
    ensures var u := ReportToLead(t, id, item, run, report).value;
            item.runId in u.runs &&
            (u.runs[item.runId].status == RunCompleted || u.runs[item.runId].status == RunInterrupted ||
             Outstanding(u.dispatches, item.runId)) &&
            (NoneCompletes(s, u) || ClosedByLead(s, id, report))
  {
    hide ValidWhile, SendMessage, Live, StartsInOrder, FinishedStay, EventsGoOn, KeepsDispatches, NoneCompletes, Outstanding;
    hide Moves, ClosedByLead, ReportBody;
    var lead := LeadOf(t.teams[item.teamId].members);
    if lead.value != item.memberId {
      MailToLead(s, t, id, item, run, lead.value, ReportBody(report));
    } else if Outstanding(t.dispatches, item.runId) {
      OtherRunsLive(s, t, t, id);
    } else {
      var next := if report.Errored? then run.(status := RunInterrupted, reason := LeadFailed)
                  else run.(status := RunCompleted, reason := NoReason);
      RunCloses(s, t, item.runId, next);
      OtherRunsLive(s, t, SetRun(t, item.runId, next), id);
      if report.Finished? {
        LeadCloses(s, t, id, report);
      }
    }
  }

  lemma RunCloses(s: State, t: State, r: Id, run: Run)
    requires StartsInOrder(s, t) && FinishedStay(s, t) && EventsGoOn(s, t) && KeepsDispatches(s, t)
    requires NoneCompletes(s, t) && r in t.runs
    ensures var u := SetRun(t, r, run);
            StartsInOrder(s, u) && FinishedStay(s, u) && EventsGoOn(s, u) && KeepsDispatches(s, u) &&
            (run.status != RunCompleted ==> NoneCompletes(s, u)) && u.runs.Keys == t.runs.Keys
  {
  }

  lemma LeadCloses(s: State, t: State, id: Id, report: Report)
    requires id in s.dispatches && s.dispatches[id].status == Running && report.Finished?
    requires Moves(s, t, id, s.dispatches[id].taskId, s.dispatches[id].runId)
    requires s.dispatches[id].teamId in s.teams
    requires LeadOf(s.teams[s.dispatches[id].teamId].members) == Some(s.dispatches[id].memberId)
    requires !Outstanding(t.dispatches, s.dispatches[id].runId)
    ensures ClosedByLead(s, id, report)
  {
    forall d | d in s.dispatches && d != id && s.dispatches[d].runId == s.dispatches[id].runId
      ensures !Active(s.dispatches[d].status)
    {
      assert t.dispatches[d] == s.dispatches[d];
    }
  }

  lemma MailToLead(s: State, t: State, id: Id, item: Dispatch, run: Run, lead: Id, body: string)
    requires Valid(s) && Valid(t) && id in s.dispatches && item == s.dispatches[id]
    requires item.runId in s.runs && run == s.runs[item.runId] && Going(run.status) && run.teamId == item.teamId
    requires Moves(s, t, id, item.taskId, item.runId) && t.runs == s.runs
    requires StartsInOrder(s, t) && FinishedStay(s, t) && EventsGoOn(s, t) && KeepsDispatches(s, t)
    requires NoneCompletes(s, t) && t.tasks.Keys == s.tasks.Keys
    requires SendMessage(t, item.teamId, Some(item.memberId), Some(lead), body, Some(id)).Ok?
    ensures var u := SendMessage(t, item.teamId, Some(item.memberId), Some(lead), body, Some(id)).value.0;
            StartsInOrder(s, u) && FinishedStay(s, u) && EventsGoOn(s, u) && KeepsDispatches(s, u) &&
            (Live(s) ==> Live(u)) && u.tasks.Keys == s.tasks.Keys && NoneCompletes(s, u) &&
            item.runId in u.runs && Outstanding(u.dispatches, item.runId)
  {
    hide ValidWhile, SendMessage, Live, StartsInOrder, FinishedStay, EventsGoOn, KeepsDispatches, NoneCompletes, Outstanding;
    hide Moves, Grows;
    SendMessageGrows(t, item.teamId, Some(item.memberId), Some(lead), body, Some(id));
    TheRun(t, item.teamId, item.runId);
    var u := SendMessage(t, item.teamId, Some(item.memberId), Some(lead), body, Some(id)).value.0;
    MailTeam(t, item.teamId, Some(item.memberId), Some(lead), body, Some(id));
    GrownAfter(s, t, u, item.runId);
    MovedLive(s, t, u, id);
  }

  lemma MailTeam(s: State, teamId: Id, from: Option<Id>, to: Option<Id>, body: string, parentId: Option<Id>)
    requires SendMessage(s, teamId, from, to, body, parentId).Ok? && to.Some?
    ensures teamId in s.teams && Targets(s.teams[teamId], from, to) != []
  {
  }

  lemma GrownAfter(s: State, t: State, u: State, run: Id)
    requires StartsInOrder(s, t) && FinishedStay(s, t) && EventsGoOn(s, t) && KeepsDispatches(s, t)
    requires NoneCompletes(s, t) && t.tasks.Keys == s.tasks.Keys && Grows(t, u, run)
    requires forall r :: r in s.runs ==> r in t.runs
    ensures StartsInOrder(s, u) && FinishedStay(s, u) && EventsGoOn(s, u) && KeepsDispatches(s, u)
    ensures NoneCompletes(s, u) && u.tasks.Keys == s.tasks.Keys && run in u.runs
  {
  }

  lemma MovedLive(s: State, t: State, u: State, id: Id)
    requires id in s.dispatches && Moves(s, t, id, s.dispatches[id].taskId, s.dispatches[id].runId) && t.runs == s.runs
    requires Grows(t, u, s.dispatches[id].runId) && Outstanding(u.dispatches, s.dispatches[id].runId)
    ensures Live(s) ==> Live(u)
  {
    forall r | Live(s) && r in u.runs && Going(u.runs[r].status) ensures Outstanding(u.dispatches, r) {
      if r != s.dispatches[id].runId {
        var d :| d in s.dispatches && s.dispatches[d].runId == r && Active(s.dispatches[d].status);
        assert t.dispatches[d] == s.dispatches[d];
        assert SameWork(t.dispatches[d], u.dispatches[d]);
      }
    }
  }
}
