/** What the quota journal guarantees over every interleaving, with crashes at any point. */
module QuotaTheorems {
  import opened Common
  import opened QuotaModel
  import opened QuotaProofs

  /** The first process, before anything was journaled. */
  function Fresh(configured: bool): World {
    World(configured, map[], [], map[], map[], map[], {}, Ended(true), map[], [], map[], map[], {}, Past(map[], {}, {}, {}), 0)
  }

  ghost predicate Allowed(w: World, events: seq<Event>)
    decreases |events|
  {
    events == [] ||
    (Possible(w, events[0]) && Polite(w, events[0]) && Allowed(Next(w, events[0]), events[1..]))
  }

  function Run(w: World, events: seq<Event>): World
    decreases |events|
  {
    if events == [] then w else if Possible(w, events[0]) then Run(Next(w, events[0]), events[1..]) else w
  }

  lemma FreshOk(configured: bool)
    ensures Inv(Fresh(configured))
  {
  }

  lemma {:induction false} RunOk(w: World, events: seq<Event>)
    requires Inv(w) && Allowed(w, events)
    ensures Inv(Run(w, events))
    decreases |events|
  {
    hide Inv, Next, Possible, Polite;
    if events != [] {
      NextOk(w, events[0]);
      RunOk(Next(w, events[0]), events[1..]);
    }
  }

  ghost predicate Journaled(w: World, r: RunId) {
    exists i :: 0 <= i < |w.disk| && w.disk[i].runId == r
  }

  lemma JournaledIff(w: World, r: RunId)
    requires Inv(w)
    ensures Journaled(w, r) <==> r in w.entries
  {
    hide OpenOk, PastOk, SentOk, OpsOk, CallsOk;
    if Journaled(w, r) {
      var i :| 0 <= i < |w.disk| && w.disk[i].runId == r;
      assert w.entries[i] in w.entries && w.disk[i] == w.cells[w.entries[i]];
    }
    if r in w.entries {
      var i :| 0 <= i < |w.entries| && w.entries[i] == r;
      assert w.disk[i] == w.cells[r];
    }
  }

  /**
   Whenever the process dies, the journal on disk knows every reservation that is asked for by this process, every one
   that an earlier process asked for unless its run was forgotten, and every open one unless it is lost. A run is
   forgotten when a settlement was answered that it has no reservation, and lost when it gets one all the same.
   */
  lemma OpenIsJournaledIff(configured: bool, events: seq<Event>, r: RunId)
    requires Allowed(Fresh(configured), events)
    ensures var w := Run(Fresh(configured), events);
            (Flying(w, r) ==> Journaled(w, r)) &&
            (r in w.past.adrift && r !in w.ledger ==> (Journaled(w, r) <==> r !in w.past.forgot)) &&
            (IsOpen(w, r) ==> (Journaled(w, r) <==> r !in w.past.lost))
  {
    FreshOk(configured);
    RunOk(Fresh(configured), events);
    hide SentOk, OpsOk, CallsOk, EntriesOk, Run;
    JournaledIff(Run(Fresh(configured), events), r);
  }

  /**
   All settle requests ever sent for a run while it was journaled carry one amount, restarts included, and that is
   the amount the ledger charges, unless the run is lost, whatever requests got lost, repeated or reordered.
   */
  lemma OneAmount(configured: bool, events: seq<Event>, r: RunId, a: nat, b: nat)
    requires Allowed(Fresh(configured), events)
    ensures var w := Run(Fresh(configured), events);
            Sent(r, a, true) in w.sent ==>
              (Sent(r, b, true) in w.sent ==> a == b) &&
              (r in w.ledger && w.ledger[r].Settled? && r !in w.past.lost ==> w.ledger[r] == Settled(a))
  {
    FreshOk(configured);
    RunOk(Fresh(configured), events);
    hide EntriesOk, OpenOk, PastOk, OpsOk, CallsOk;
    var w := Run(Fresh(configured), events);
    if r in w.ledger && w.ledger[r].Settled? && r !in w.past.lost {
      assert Sent(r, w.ledger[r].amount, true) in w.sent;
    }
  }

  /** A charge is final. */
  lemma {:induction false} ChargeIsFinal(w: World, events: seq<Event>, r: RunId)
    requires r in w.ledger && w.ledger[r].Settled?
    ensures r in Run(w, events).ledger && Run(w, events).ledger[r] == w.ledger[r]
    decreases |events|
  {
    hide Next, Possible;
    if events != [] && Possible(w, events[0]) {
      LedgerStep(w, events[0], r);
      ChargeIsFinal(Next(w, events[0]), events[1..], r);
    }
  }

  lemma {:induction false} ReleaseAllLedger(w: World, runs: seq<RunId>)
    ensures ReleaseAll(w, runs).0.ledger == w.ledger && ReleaseAll(w, runs).0.past == w.past && ReleaseAll(w, runs).0.calls == w.calls &&
            ReleaseAll(w, runs).0.released == w.released
    decreases |runs|
  {
    hide StartRelease;
    if runs != [] {
      StartReleaseShape(w, runs[0]);
      ReleaseAllLedger(StartRelease(w, runs[0]).0, runs[1..]);
    }
  }

  lemma LoopTurnLedger(w: World, loop: LoopStage, chosen: bool)
    ensures var n := LoopTurn(w, loop, chosen).0;
            n.ledger == w.ledger && n.past == w.past && n.calls == w.calls && n.released == w.released
  {
    hide StartRelease;
    if loop.Looping? && loop.rest != [] {
      StartReleaseShape(w, loop.rest[0]);
    }
  }

  lemma LedgerStep(w: World, e: Event, r: RunId)
    requires Possible(w, e) && r in w.ledger && w.ledger[r].Settled?
    ensures r in Next(w, e).ledger && Next(w, e).ledger[r] == w.ledger[r]
  {
    if e.Crash? {
      assert Next(w, e) == Restarted(w);
    } else if e.StrayLands? {
      assert Next(w, e) == Stray(w, e.runId);
    } else {
      hide Next, Possible;
      StepTame(w, e, 0, 0);
    }
  }

  // ---------------------------------------------------------------- deleted sessions

  ghost predicate AdmittedIn(w: World, c: CallId, s: SessionId) {
    c in w.calls && w.calls[c].Begin? && w.calls[c].sessionId == s && w.calls[c].stage.Admitted?
  }

  /** A reservation that took effect although a settlement of its run had been answered that there is none. */
  predicate Overtaken(w: World, r: RunId) {
    r in w.past.denied && r in w.ledger
  }

  /**
   Settled accounts, released sessions and refusals stay; nothing of a released session is admitted; and no
   reservation overtakes an answer, but for one that is in flight.
   */
  ghost predicate Tame(w: World, n: World, c: CallId, s: SessionId) {
    (forall r :: Overtaken(n, r) ==> Overtaken(w, r) || (Flying(w, r) && r in w.past.denied)) &&
    (forall r :: r in w.ledger && w.ledger[r].Settled? ==> r in n.ledger && n.ledger[r] == w.ledger[r]) &&
    w.released <= n.released && (AdmittedIn(n, c, s) && s in w.released ==> AdmittedIn(w, c, s))
  }

  lemma SetTame(w: World, n: World, b: CallId, call: Call, c: CallId, s: SessionId)
    requires n.ledger == w.ledger && n.past.denied == w.past.denied && n.calls == w.calls[b := call] && w.released <= n.released
    requires call.Begin? && call.stage.Admitted? ==> call.sessionId !in w.released
    ensures Tame(w, n, c, s)
  {
  }

  lemma DrainTame(w: World, b: CallId, c: CallId, s: SessionId)
    requires Possible(w, ResumeBegin(b)) && w.calls[b].stage.AtDrain?
    ensures Tame(w, BeginDrain(w, b), c, s)
  {
    hide BeginDrain, Tame;
    DrainShape(w, b);
    var n := BeginDrain(w, b);
    SetTame(w, n, b, n.calls[b], c, s);
  }

  lemma DrainShape(w: World, b: CallId)
    requires b in w.calls && w.calls[b].Begin? && w.calls[b].stage.AtDrain?
    ensures var n := BeginDrain(w, b);
            n.ledger == w.ledger && n.past == w.past && n.released == w.released && b in n.calls && n.calls == w.calls[b := n.calls[b]] &&
            n.calls[b].Begin? && !n.calls[b].stage.Admitted?
  {
    hide LoopTurn, Journal, PendingOf;
    var call := w.calls[b];
    var finished := call.stage.rest != [] && CellOf(w.cells, call.stage.rest[0]).finished;
    LoopTurnLedger(w, Looping(call.stage.rest, call.stage.waiting), finished);
  }

  lemma ReservedTame(w: World, b: CallId, c: CallId, s: SessionId)
    requires Possible(w, ResumeBegin(b)) && w.calls[b].stage.AtReserve?
    ensures Tame(w, BeginReserved(w, b), c, s)
  {
    hide StartRelease, PendingOf, Tame, AdmittedIn;
    var n := BeginReserved(w, b);
    StartReleaseShape(w, w.calls[b].stage.runId);
    assert n.ledger == w.ledger && n.past == w.past && n.released == w.released && n.calls == w.calls[b := n.calls[b]];
    SetTame(w, n, b, n.calls[b], c, s);
  }

  lemma SameTame(w: World, n: World, c: CallId, s: SessionId)
    requires n.ledger == w.ledger && n.past.denied == w.past.denied && n.calls == w.calls && w.released <= n.released
    ensures Tame(w, n, c, s)
  {
  }

  lemma ReadyTame(w: World, b: CallId, c: CallId, s: SessionId)
    requires b in w.calls && w.calls[b].Begin? && w.ready.Ended?
    ensures Tame(w, BeginReady(w, b), c, s)
  {
    hide Tame;
    var n := BeginReady(w, b);
    SetTame(w, n, b, n.calls[b], c, s);
  }

  lemma StageTame(w: World, b: CallId, stage: BeginStage, c: CallId, s: SessionId)
    requires b in w.calls && w.calls[b].Begin? && !stage.Admitted?
    ensures Tame(w, SetStage(w, b, stage), c, s)
  {
    hide Tame;
    SetTame(w, SetStage(w, b, stage), b, w.calls[b].(stage := stage), c, s);
  }

  lemma SettlingTame(w: World, b: CallId, c: CallId, s: SessionId)
    requires b in w.calls && w.calls[b].Begin? && w.calls[b].stage.AtSettling?
    ensures Tame(w, BeginSettled(w, b), c, s)
  {
    hide Tame, SetStage, OpDone, OpOk;
    StageTame(w, b, Refused, c, s);
    StageTame(w, b, AtDrain(w.entries, None), c, s);
    SameTame(w, w, c, s);
  }

  lemma CleanedTame(w: World, b: CallId, c: CallId, s: SessionId)
    requires b in w.calls && w.calls[b].Begin? && w.calls[b].stage.AtCleanup?
    ensures Tame(w, BeginCleaned(w, b), c, s)
  {
    hide Tame, PendingOf;
    var n := BeginCleaned(w, b);
    SetTame(w, n, b, n.calls[b], c, s);
  }

  lemma BeginTame(w: World, b: CallId, c: CallId, s: SessionId)
    requires Possible(w, ResumeBegin(b))
    ensures Tame(w, Next(w, ResumeBegin(b)), c, s)
  {
    hide BeginDrain, BeginReserved, BeginReady, BeginSettled, BeginCleaned, Tame;
    match w.calls[b].stage {
      case AtReady => ReadyTame(w, b, c, s);
      case AtSettling(_) => SettlingTame(w, b, c, s);
      case AtDrain(_, _) => DrainTame(w, b, c, s);
      case AtReserve(_) => ReservedTame(w, b, c, s);
      case AtCleanup(_, _) => CleanedTame(w, b, c, s);
    }
  }

  lemma PendingTame(w: World, b: CallId, c: CallId, s: SessionId)
    requires b in w.calls && w.calls[b].CloseSession? && w.calls[b].session.AtPending?
    ensures Tame(w, SessionPending(w, b), c, s)
  {
    hide ReleaseAll, OfSession, Tame;
    ReleaseAllLedger(w, OfSession(w, w.entries, w.calls[b].sessionId));
    var n := SessionPending(w, b);
    if n == w {
      SameTame(w, n, c, s);
    } else {
      SetTame(w, n, b, n.calls[b], c, s);
    }
  }

  lemma SessionTame(w: World, b: CallId, ok: bool, c: CallId, s: SessionId)
    requires b in w.calls && w.calls[b].CloseSession?
    ensures Tame(w, SetCall(w, b, w.calls[b].(session := Done(ok))), c, s)
  {
    hide Tame;
    SetTame(w, SetCall(w, b, w.calls[b].(session := Done(ok))), b, w.calls[b].(session := Done(ok)), c, s);
  }

  lemma DoneTame(w: World, b: CallId, c: CallId, s: SessionId)
    requires b in w.calls && w.calls[b].CloseSession? && w.calls[b].session.AtReleases?
    ensures Tame(w, SessionDone(w, b), c, s)
  {
    hide Tame, SetCall, OpDone, OpOk;
    SessionTame(w, b, false, c, s);
    SessionTame(w, b, true, c, s);
    SameTame(w, w, c, s);
  }

  lemma TurnTame(w: World, b: CallId, c: CallId, s: SessionId)
    requires b in w.calls && w.calls[b].CloseTurn?
    ensures Tame(w, TurnStep(w, b), c, s)
  {
    hide LoopTurn;
    LoopTurnLedger(w, w.calls[b].loop, TurnMatches(w, w.calls[b]));
  }

  lemma RecoverTame(w: World, c: CallId, s: SessionId)
    requires w.ready.Looping?
    ensures Tame(w, LoopTurn(w, w.ready, true).0.(ready := LoopTurn(w, w.ready, true).1), c, s)
  {
    hide LoopTurn;
    LoopTurnLedger(w, w.ready, true);
  }

  lemma ReleaseTame(w: World, r: RunId, c: CallId, s: SessionId)
    ensures Tame(w, StartRelease(w, r).0, c, s)
  {
    hide StartRelease, Journal, Tame;
    StartReleaseShape(w, r);
    SameTame(w, StartRelease(w, r).0, c, s);
  }

  lemma ContinueTame(w: World, o: OpId, c: CallId, s: SessionId)
    requires o in w.ops && w.ops[o].phase.Answered?
    ensures Tame(w, ContinueRelease(w, o), c, s)
  {
    hide ContinueRelease, Tame;
    ContinueKeeps(w, o);
    SameTame(w, ContinueRelease(w, o), c, s);
  }

  lemma ContinueKeeps(w: World, o: OpId)
    requires o in w.ops && w.ops[o].phase.Answered?
    ensures var n := ContinueRelease(w, o);
            n.ledger == w.ledger && n.past.denied == w.past.denied && n.calls == w.calls && n.released == w.released
  {
    hide Removed, Journal, Dropped;
    if w.ops[o].phase.answer.Broken? {
    } else {
      assert ContinueRelease(w, o).ledger == w.ledger;
    }
  }

  lemma FinallyTame(w: World, o: OpId, c: CallId, s: SessionId)
    requires o in w.ops && w.ops[o].phase.Returned?
    ensures Tame(w, FinallyRelease(w, o), c, s)
  {
    SameTame(w, FinallyRelease(w, o), c, s);
  }

  lemma StartTame(w: World, session: SessionId, t: TurnId, c: CallId, s: SessionId)
    ensures Tame(w, Start(w, session, t), c, s) && Tame(w, CallCloseSession(w, session), c, s)
  {
    hide Journal, PendingOf;
  }

  lemma StepTame(w: World, e: Event, c: CallId, s: SessionId)
    requires Possible(w, e) && !e.Crash? && !e.StrayLands?
    ensures Tame(w, Next(w, e), c, s)
  {
    hide Tame;
    if e.ResumeBegin? {
      hide Next, Possible;
      BeginTame(w, e.call, c, s);
    } else {
      OtherTame(w, e, c, s);
    }
  }

  lemma NewsTame(w: World, e: Event, c: CallId, s: SessionId)
    requires Possible(w, e)
    requires e.CallBegin? || e.CallEnded? || e.ReserveLands? || e.ReserveReplies? || e.SettleLands? || e.SettleReplies?
    ensures Tame(w, Next(w, e), c, s)
  {
  }

  lemma OtherTame(w: World, e: Event, c: CallId, s: SessionId)
    requires Possible(w, e) && !e.Crash? && !e.StrayLands? && !e.ResumeBegin?
    ensures Tame(w, Next(w, e), c, s)
  {
    hide StartRelease, LoopTurn, BeginDrain, BeginReserved, BeginReady, BeginSettled, BeginCleaned;
    hide SessionPending, SessionDone, TurnStep, Start, ContinueRelease, FinallyRelease, CallCloseSession, Tame;
    if e.CallBegin? || e.CallEnded? || e.ReserveLands? || e.ReserveReplies? || e.SettleLands? || e.SettleReplies? {
      NewsTame(w, e, c, s);
      return;
    }
    match e {
      case CallRelease(r) => ReleaseTame(w, r, c, s);
      case Continue(o) => ContinueTame(w, o, c, s);
      case Finally(o) => FinallyTame(w, o, c, s);
      case ResumeSession(b) =>
        if w.calls[b].session.AtPending? {
          PendingTame(w, b, c, s);
        } else {
          DoneTame(w, b, c, s);
        }
      case ResumeEnded(b) => TurnTame(w, b, c, s);
      case Recover => RecoverTame(w, c, s);
      case Started(session, t) => StartTame(w, session, t, c, s);
      case CallReleaseSession(session) => StartTame(w, session, 0, c, s);
      case _ =>
    }
  }

  /**
   Once `releaseSession` has begun, no `begin` of that session that has not yet returned a run id ever does, in any
   interleaving of this process.
   */
  lemma {:induction false} NoLateAdmission(w: World, events: seq<Event>, c: CallId, s: SessionId)
    requires s in w.released && !AdmittedIn(w, c, s) && forall i :: 0 <= i < |events| ==> !events[i].Crash?
    ensures !AdmittedIn(Run(w, events), c, s)
    decreases |events|
  {
    hide Next, Possible, AdmittedIn;
    if events != [] && Possible(w, events[0]) {
      if events[0].StrayLands? {
        StrayAdmits(w, events[0].runId, c, s);
      } else {
        StepTame(w, events[0], c, s);
      }
      NoLateAdmission(Next(w, events[0]), events[1..], c, s);
    }
  }

  lemma StrayAdmits(w: World, r: RunId, c: CallId, s: SessionId)
    requires Possible(w, StrayLands(r))
    ensures var n := Next(w, StrayLands(r)); n.released == w.released && (AdmittedIn(n, c, s) <==> AdmittedIn(w, c, s))
  {
    assert Next(w, StrayLands(r)) == Stray(w, r);
  }

  /** Of a session nothing is in the journal, nothing on its way, and nothing open. */
  ghost predicate SessionClean(w: World, s: SessionId) {
    (forall i :: 0 <= i < |w.disk| ==> w.disk[i].sessionId != s) &&
    forall r :: r in w.cells && w.cells[r].sessionId == s ==> !Flying(w, r) && !IsOpen(w, r)
  }

  /**
   When `releaseSession` resolves, no reservation of the session is in the journal or on its way, and each is settled
   or never took effect, exactly unless one of them is lost and still open. Whatever is open in all processes and not
   lost belongs to another session.
   */
  lemma ReleasedMeansSettledIff(configured: bool, events: seq<Event>, c: CallId)
    requires Allowed(Fresh(configured), events)
    requires var w := Run(Fresh(configured), events); c in w.calls && w.calls[c].CloseSession? && w.calls[c].session == Done(true)
    ensures var w := Run(Fresh(configured), events);
            var s := w.calls[c].sessionId;
            (SessionClean(w, s) <==>
             forall r :: r in w.cells && w.cells[r].sessionId == s && r in w.past.lost ==> !IsOpen(w, r)) &&
            (forall i :: 0 <= i < |w.disk| ==> w.disk[i].sessionId != s) &&
            forall r :: IsOpen(w, r) && r !in w.past.lost ==> r in w.cells && w.cells[r].sessionId != s
  {
    FreshOk(configured);
    RunOk(Fresh(configured), events);
    hide SentOk, OpsOk, Run;
    var w := Run(Fresh(configured), events);
    assert CallOk(w, w.calls[c]);
    forall i | 0 <= i < |w.disk| ensures w.disk[i].sessionId != w.calls[c].sessionId {
      assert w.entries[i] in w.entries && w.disk[i] == CellOf(w.cells, w.entries[i]);
    }
  }

  // ---------------------------------------------------------------- reservations that do not overtake

  /** No reservation takes effect after a settlement of its run was answered that there is none. */
  predicate OnTime(w: World, e: Event) {
    e.StrayLands? ==> e.runId !in w.past.denied
  }

  ghost predicate AllowedOnTime(w: World, events: seq<Event>)
    decreases |events|
  {
    events == [] ||
    (Possible(w, events[0]) && Polite(w, events[0]) && OnTime(w, events[0]) && AllowedOnTime(Next(w, events[0]), events[1..]))
  }

  ghost predicate NoneOvertaken(w: World) {
    forall r :: !Overtaken(w, r)
  }

  lemma StepOnTime(w: World, e: Event)
    requires Inv(w) && Possible(w, e) && OnTime(w, e) && NoneOvertaken(w)
    ensures NoneOvertaken(Next(w, e))
  {
    if e.Crash? {
      var n := Next(w, e);
      assert n == Restarted(w);
      assert forall r :: Overtaken(n, r) <==> Overtaken(w, r);
    } else if e.StrayLands? {
      var n := Next(w, e);
      assert n == Stray(w, e.runId);
      assert forall r :: Overtaken(n, r) ==> Overtaken(w, r);
    } else {
      DeniedNotFlying(w);
      hide Inv, Next, Possible;
      StepTame(w, e, 0, 0);
      TameOnTime(w, Next(w, e));
    }
  }

  lemma TameOnTime(w: World, n: World)
    requires Tame(w, n, 0, 0) && NoneOvertaken(w) && forall r :: r in w.past.denied ==> !Flying(w, r)
    ensures NoneOvertaken(n)
  {
  }

  lemma DeniedNotFlying(w: World)
    requires Inv(w)
    ensures forall r :: r in w.past.denied ==> !Flying(w, r)
  {
  }

  lemma {:induction false} RunOnTime(w: World, events: seq<Event>)
    requires Inv(w) && NoneOvertaken(w) && AllowedOnTime(w, events)
    ensures Allowed(w, events) && NoneOvertaken(Run(w, events))
    decreases |events|
  {
    hide Inv, Next, Possible, Polite, OnTime, NoneOvertaken;
    if events != [] {
      NextOk(w, events[0]);
      StepOnTime(w, events[0]);
      RunOnTime(Next(w, events[0]), events[1..]);
    }
  }

  /** While reservations are on time none is lost. */
  lemma NothingLost(configured: bool, events: seq<Event>)
    requires AllowedOnTime(Fresh(configured), events)
    ensures Allowed(Fresh(configured), events) && Run(Fresh(configured), events).past.lost == {}
  {
    FreshOk(configured);
    RunOnTime(Fresh(configured), events);
    RunOk(Fresh(configured), events);
    hide Run, EntriesOk, OpenOk, SentOk, OpsOk, CallsOk;
    var w := Run(Fresh(configured), events);
    assert forall r :: r in w.past.lost ==> Overtaken(w, r);
  }

  /** Then the journal on disk knows every open reservation, and every one that this process asked for. */
  lemma OpenIsJournaled(configured: bool, events: seq<Event>, r: RunId)
    requires AllowedOnTime(Fresh(configured), events)
    ensures var w := Run(Fresh(configured), events); IsOpen(w, r) || Flying(w, r) ==> Journaled(w, r)
  {
    NothingLost(configured, events);
    OpenIsJournaledIff(configured, events, r);
  }

  /** And when `releaseSession` resolves, every reservation of the session is settled or never took effect. */
  lemma ReleasedMeansSettled(configured: bool, events: seq<Event>, c: CallId)
    requires AllowedOnTime(Fresh(configured), events)
    ensures var w := Run(Fresh(configured), events);
            c in w.calls && w.calls[c].CloseSession? && w.calls[c].session == Done(true) ==>
              SessionClean(w, w.calls[c].sessionId) &&
              forall r :: IsOpen(w, r) ==> r in w.cells && w.cells[r].sessionId != w.calls[c].sessionId
  {
    NothingLost(configured, events);
    hide Run, Allowed, AllowedOnTime, SessionClean;
    var w := Run(Fresh(configured), events);
    if c in w.calls && w.calls[c].CloseSession? && w.calls[c].session == Done(true) {
      ReleasedMeansSettledIff(configured, events, c);
    }
  }

  // ---------------------------------------------------------------- why callers must be polite

  /**
   If a turn is reported as ended while a reservation made for it is still on its way, the journal can forget the
   reservation before it takes effect: from any such state four steps lead there.
   */
  lemma EarlyEndLosesReservation(w: World, c: CallId)
    requires Inv(w) && Possible(w, ResumeEnded(c)) && !Polite(w, ResumeEnded(c))
    requires w.calls[c].loop.rest[0] !in w.ledger
    ensures var r := w.calls[c].loop.rest[0];
            var o := w.nextId;
            var n := Run(w, [ResumeEnded(c), SettleReplies(o, Missing), Continue(o), ReserveLands(r)]);
            IsOpen(n, r) && !Journaled(n, r)
  {
    var r := w.calls[c].loop.rest[0];
    var o := w.nextId;
    NotSettling(w, r);
    EntriesHere(w);
    EarlyTurn(w, c);
    RemovedFacts(w.entries, r);
    var w1 := TurnStep(w, c);
    MissingForgets(w1, o, r);
    hide Inv, Next, Journaled;
    assert Next(w, ResumeEnded(c)) == w1 by {
      TurnIsNext(w, c);
    }
    FourSteps(w, ResumeEnded(c), SettleReplies(o, Missing), Continue(o), ReserveLands(r));
  }

  lemma TurnIsNext(w: World, c: CallId)
    requires Possible(w, ResumeEnded(c))
    ensures Next(w, ResumeEnded(c)) == TurnStep(w, c)
  {
    hide TurnStep;
  }

  lemma EntriesHere(w: World)
    requires Inv(w)
    ensures DistinctRuns(w.entries) && forall x :: x in w.entries ==> x in w.cells && w.cells[x].runId == x
  {
  }

  /** A settlement that finds no reservation forgets the entry; the reservation may land afterwards. */
  lemma MissingForgets(w: World, o: OpId, r: RunId)
    requires o in w.ops && w.ops[o] == Op(r, Awaiting) && r !in w.ledger && Flying(w, r) && r in w.cells
    requires forall x :: x in Removed(w.entries, r) ==> x != r && x in w.cells && w.cells[x].runId == x
    ensures Possible(w, SettleReplies(o, Missing))
    ensures var w2 := Next(w, SettleReplies(o, Missing));
            Possible(w2, Continue(o)) && Possible(Next(w2, Continue(o)), ReserveLands(r)) &&
            var n := Next(Next(w2, Continue(o)), ReserveLands(r));
            IsOpen(n, r) && !Journaled(n, r)
  {
    hide Removed;
    var n := Next(Next(Next(w, SettleReplies(o, Missing)), Continue(o)), ReserveLands(r));
    var left := Removed(w.entries, r);
    assert n.disk == Journal(w.cells, left);
    forall i | 0 <= i < |n.disk| ensures n.disk[i].runId != r {
      assert left[i] in left;
    }
  }

  lemma FourSteps(w: World, a: Event, b: Event, c: Event, d: Event)
    requires Possible(w, a) && Possible(Next(w, a), b) && Possible(Next(Next(w, a), b), c)
    requires Possible(Next(Next(Next(w, a), b), c), d)
    ensures Run(w, [a, b, c, d]) == Next(Next(Next(Next(w, a), b), c), d)
  {
    hide Next, Possible;
    var w1 := Next(w, a);
    var w2 := Next(w1, b);
    var w3 := Next(w2, c);
    assert [a, b, c, d][1..] == [b, c, d] && [b, c, d][1..] == [c, d] && [c, d][1..] == [d];
    assert Run(w3, [d]) == Next(w3, d);
    assert Run(w2, [c, d]) == Run(w3, [d]);
    assert Run(w1, [b, c, d]) == Run(w2, [c, d]);
  }

  lemma NotSettling(w: World, r: RunId)
    requires Inv(w) && Flying(w, r)
    ensures r !in w.settling && r in w.cells && r in w.entries && w.configured
  {
    assert r in w.settling ==> OpOkay(w, w.ops[w.settling[r]]);
  }

  lemma EarlyTurn(w: World, c: CallId)
    requires Inv(w) && Possible(w, ResumeEnded(c)) && !Polite(w, ResumeEnded(c))
    ensures var r := w.calls[c].loop.rest[0];
            var n := TurnStep(w, c);
            n.entries == w.entries && n.ledger == w.ledger && n.reserving == w.reserving && r in n.cells &&
            n.cells.Keys == w.cells.Keys && (forall x :: x in n.cells ==> n.cells[x].runId == w.cells[x].runId) &&
            w.nextId in n.ops && n.ops[w.nextId] == Op(r, Awaiting)
  {
    var r := w.calls[c].loop.rest[0];
    NotSettling(w, r);
    StartReleaseShape(w, r);
    hide StartRelease, Inv;
  }
}
