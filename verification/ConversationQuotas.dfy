/**
 The conversation quota as the program runs it. A method runs from one await to the next, changing the fields step by
 step; which method runs next is up to the event loop, the ledger and the network.
 */
module ConversationQuotas {
  import opened Common
  import opened QuotaModel
  import opened QuotaProofs

  class ConversationQuota {
    const configured: bool
    /** The entry objects, and the list of those in the journal. */
    var cells: map<RunId, Entry>
    var entries: seq<RunId>
    /** Promises: settlements under way, what they came to, and reservations. */
    var settling: map<RunId, OpId>
    var ops: map<OpId, Op>
    var reserving: map<RunId, Reservation>
    var pending: map<SessionId, set<RunId>>
    var released: set<SessionId>
    var ready: LoopStage
    var calls: map<CallId, Call>
    /** The journal on disk. */
    var disk: seq<Entry>
    var nextId: nat
    /** The ledger, and what was sent to it. */
    ghost var ledger: map<RunId, Account>
    ghost var sent: set<Sent>
    ghost var past: Past

    ghost function Seen(): World
      reads this
    {
      World(configured, cells, entries, settling, ops, pending, released, ready, calls, disk, reserving, ledger, sent, past, nextId)
    }

    /** A process that starts on the journal of the one before it, whose ledger and requests stay. */
    constructor (before: World)
      ensures Seen() == Restarted(before)
    {
      configured, disk, nextId := before.configured, before.disk, before.nextId;
      cells, entries, settling, ops := Reloaded(before.disk), RunIds(before.disk), map[], map[];
      pending, released, calls, reserving := map[], {}, map[], map[];
      ready := Looping(RunIds(before.disk), None);
      ledger, sent, past := before.ledger, before.sent, before.past.(adrift := Adrift(before));
    }

    method Save()
      modifies this`disk
      ensures Seen() == Saved(old(Seen()))
    {
      disk := Journal(cells, entries);
    }

    // -------------------------------------------------------------- release

    method Release(run: RunId) returns (o: OpId)
      modifies this
      ensures (Seen(), o) == StartRelease(old(Seen()), run)
    {
      if run in settling {
        return settling[run];
      }
      o := nextId;
      nextId := nextId + 1;
      if !configured {
        ops := ops[o := Op(run, Returned(false))];
      } else {
        var amount, listed := 0, run in entries && run in cells;
        if listed {
          amount := Amount(cells[run]);
          cells := cells[run := cells[run].(finished := true)];
          Save();
        }
        sent := sent + {Sent(run, amount, listed)};
        ops := ops[o := Op(run, Awaiting)];
      }
      settling := settling[run := o];
    }

    /** `findIndex` and `splice` */
    method Splice(run: RunId)
      modifies this`entries
      ensures entries == Removed(old(entries), run)
    {
      var index := 0;
      assert entries[..0] + Removed(entries[0..], run) == Removed(entries, run);
      while index < |entries| && entries[index] != run
        invariant 0 <= index <= |entries| && entries[..index] + Removed(entries[index..], run) == Removed(entries, run)
      {
        assert entries[index..][1..] == entries[index + 1..];
        assert entries[..index + 1] == entries[..index] + [entries[index]];
        index := index + 1;
      }
      if index < |entries| {
        assert entries[index..][1..] == entries[index + 1..];
        entries := entries[..index] + entries[index + 1..];
      } else {
        assert entries[..index] + [] == entries;
      }
    }

    method ContinueSettling(o: OpId)
      requires o in ops && ops[o].phase.Answered?
      modifies this
      ensures Seen() == ContinueRelease(old(Seen()), o)
    {
      var op := ops[o];
      if op.phase.answer.Broken? {
        ops := ops[o := Op(op.runId, Returned(false))];
        return;
      }
      if op.phase.answer.Missing? {
        past := Dropped(Seen(), op.runId);
      }
      Splice(op.runId);
      Save();
      ops := ops[o := Op(op.runId, Returned(true))];
    }

    method EndSettling(o: OpId)
      requires o in ops && ops[o].phase.Returned?
      modifies this
      ensures Seen() == FinallyRelease(old(Seen()), o)
    {
      settling := settling - {ops[o].runId};
      ops := ops[o := Op(ops[o].runId, Resolved(ops[o].phase.ok))];
    }

    /** `Promise.all` over releases */
    method ReleaseEach(runs: seq<RunId>) returns (started: set<OpId>)
      modifies this
      ensures (Seen(), started) == ReleaseAll(old(Seen()), runs)
    {
      started := {};
      assert runs[0..] == runs;
      for i := 0 to |runs|
        invariant ReleaseAll(old(Seen()), runs).0 == ReleaseAll(Seen(), runs[i..]).0
        invariant ReleaseAll(old(Seen()), runs).1 == started + ReleaseAll(Seen(), runs[i..]).1
      {
        ghost var before := Seen();
        assert runs[i..][1..] == runs[i + 1..];
        var o := Release(runs[i]);
        assert ReleaseAll(before, runs[i..]).1 == ReleaseAll(Seen(), runs[i + 1..]).1 + {o};
        started := started + {o};
      }
    }

    /** One turn of a loop that awaits the release of each entry chosen. */
    method Turn(loop: LoopStage, chosen: bool) returns (next: LoopStage)
      modifies this
      ensures (Seen(), next) == LoopTurn(old(Seen()), loop, chosen)
    {
      match loop {
        case Ended(_) => return loop;
        case Looping(rest, Some(o)) =>
          if !(o in ops && ops[o].phase.Resolved?) {
            return loop;
          }
          return if ops[o].phase.ok then Looping(rest, None) else Ended(false);
        case Looping(rest, None) =>
          if rest == [] {
            return Ended(true);
          }
          if !chosen {
            return Looping(rest[1..], None);
          }
          var o := Release(rest[0]);
          return Looping(rest[1..], Some(o));
      }
    }

    method RecoverNext()
      requires ready.Looping?
      modifies this
      ensures Seen() == QuotaModel.Next(old(Seen()), Recover)
    {
      ready := Turn(ready, true);
    }

    // -------------------------------------------------------------- begin

    method CallBegins(s: SessionId, units: nat, turn: Option<TurnId>, engine: Option<Engine>)
      modifies this
      ensures Seen() == QuotaModel.Next(old(Seen()), CallBegin(s, units, turn, engine))
    {
      calls := calls[nextId := Begin(s, units, turn, engine, AtReady)];
      nextId := nextId + 1;
    }

    method Move(c: CallId, stage: BeginStage)
      requires c in calls && calls[c].Begin?
      modifies this`calls
      ensures Seen() == SetStage(old(Seen()), c, stage)
    {
      calls := calls[c := calls[c].(stage := stage)];
    }

    method AfterReady(c: CallId)
      requires c in calls && calls[c].Begin? && ready.Ended?
      modifies this
      ensures Seen() == BeginReady(old(Seen()), c)
    {
      if !ready.ok || !configured || calls[c].sessionId in released {
        Move(c, Refused);
      } else {
        Move(c, AtSettling(settling.Values));
      }
    }

    method AfterSettlements(c: CallId)
      requires c in calls && calls[c].Begin? && calls[c].stage.AtSettling?
      modifies this
      ensures Seen() == BeginSettled(old(Seen()), c)
    {
      var failed, done := AllDone(calls[c].stage.awaited);
      if failed {
        Move(c, Refused);
      } else if done {
        Move(c, AtDrain(entries, None));
      }
    }

    /** How `Promise.all` stands: it fails with the first that failed, and is done when all have succeeded. */
    method AllDone(awaited: set<OpId>) returns (failed: bool, done: bool)
      ensures failed <==> exists o :: o in awaited && OpDone(Seen(), o) && !OpOk(Seen(), o)
      ensures done <==> forall o :: o in awaited ==> OpOk(Seen(), o)
    {
      failed, done := false, true;
      var left := awaited;
      while left != {}
        invariant left <= awaited
        invariant failed <==> exists o :: o in awaited && o !in left && OpDone(Seen(), o) && !OpOk(Seen(), o)
        invariant done <==> forall o :: o in awaited && o !in left ==> OpOk(Seen(), o)
        decreases |left|
      {
        var o :| o in left;
        left := left - {o};
        if o in ops && ops[o].phase.Resolved? {
          assert OpDone(Seen(), o);
          if !ops[o].phase.ok {
            failed, done := true, false;
          }
        } else {
          assert !OpOk(Seen(), o);
          done := false;
        }
      }
    }

    /** The loop over finished entries, and after it everything up to the request to the ledger. */
    method DrainNext(c: CallId)
      requires c in calls && calls[c].Begin? && calls[c].stage.AtDrain?
      modifies this
      ensures Seen() == BeginDrain(old(Seen()), c)
    {
      var call := calls[c];
      var finished := call.stage.rest != [] && CellOf(cells, call.stage.rest[0]).finished;
      TurnKeepsCalls(Seen(), Looping(call.stage.rest, call.stage.waiting), finished);
      var loop := Turn(Looping(call.stage.rest, call.stage.waiting), finished);
      match loop {
        case Looping(rest, waiting) => calls := calls[c := call.(stage := AtDrain(rest, waiting))];
        case Ended(ok) =>
          if !ok || call.sessionId in released {
            calls := calls[c := call.(stage := Refused)];
          } else {
            Reserve(c);
          }
      }
    }

    method Reserve(c: CallId)
      requires c in calls && calls[c].Begin?
      modifies this
      ensures Seen() == BeginReserve(old(Seen()), c)
    {
      var call, run := calls[c], nextId;
      nextId := nextId + 1;
      cells := cells[run := Entry(run, call.sessionId, call.engine, Some(call.units), call.turn, false)];
      entries := entries + [run];
      Save();
      reserving := reserving[run := InFlight];
      var waiting := if call.sessionId in pending then pending[call.sessionId] else {};
      pending := pending[call.sessionId := waiting + {run}];
      Move(c, AtReserve(run));
    }

    method Forget(s: SessionId, run: RunId)
      modifies this`pending
      ensures Seen() == Unpend(old(Seen()), s, run)
    {
      var left := (if s in pending then pending[s] else {}) - {run};
      if left == {} {
        pending := pending - {s};
      } else {
        pending := pending[s := left];
      }
    }

    method AfterReservation(c: CallId)
      requires c in calls && calls[c].Begin? && calls[c].stage.AtReserve?
      requires calls[c].stage.runId in reserving && !reserving[calls[c].stage.runId].InFlight?
      modifies this
      ensures Seen() == BeginReserved(old(Seen()), c)
    {
      var call := calls[c];
      var run := call.stage.runId;
      if reserving[run].Failed? {
        var o := Release(run);
        calls := calls[c := call.(stage := AtCleanup(run, o))];
      } else {
        Forget(call.sessionId, run);
        calls := calls[c := call.(stage := if call.sessionId in released then Refused else Admitted(run))];
      }
    }

    method AfterCleanup(c: CallId)
      requires c in calls && calls[c].Begin? && calls[c].stage.AtCleanup?
      modifies this
      ensures Seen() == BeginCleaned(old(Seen()), c)
    {
      Forget(calls[c].sessionId, calls[c].stage.runId);
      Move(c, Refused);
    }

    // -------------------------------------------------------------- started, ended, releaseSession

    method MarkStarted(s: SessionId, t: TurnId)
      modifies this
      ensures Seen() == Start(old(Seen()), s, t)
    {
      for i := 0 to |entries|
        invariant Seen() == old(Seen()).(cells := cells) && cells.Keys == old(cells).Keys
        invariant forall r :: r in cells ==> cells[r] == if r in entries[..i] then WithTurn(old(cells)[r], s, t) else old(cells)[r]
      {
        var run := entries[i];
        assert forall r :: r in entries[..i + 1] <==> r in entries[..i] || r == run;
        if run in cells {
          WithTurnTwice(old(cells)[run], s, t);
          cells := cells[run := WithTurn(cells[run], s, t)];
        }
      }
      assert entries[..|entries|] == entries;
      Save();
    }

    method CallEnds(s: SessionId, t: TurnId)
      modifies this
      ensures Seen() == QuotaModel.Next(old(Seen()), CallEnded(s, t))
    {
      calls := calls[nextId := CloseTurn(s, t, Looping(entries, None))];
      nextId := nextId + 1;
    }

    method EndNext(c: CallId)
      requires c in calls && calls[c].CloseTurn?
      modifies this
      ensures Seen() == TurnStep(old(Seen()), c)
    {
      var call := calls[c];
      var chosen := call.loop.Looping? && call.loop.waiting.None? && call.loop.rest != [] &&
                    CellOf(cells, call.loop.rest[0]).sessionId == call.sessionId &&
                    CellOf(cells, call.loop.rest[0]).turnId == Some(call.ended);
      var loop := Turn(call.loop, chosen);
      calls := calls[c := call.(loop := loop)];
    }

    method CallReleases(s: SessionId)
      modifies this
      ensures Seen() == CallCloseSession(old(Seen()), s)
    {
      released := released + {s};
      calls := calls[nextId := CloseSession(s, AtPending(if s in pending then pending[s] else {}))];
      nextId := nextId + 1;
    }

    method EntriesOf(s: SessionId) returns (mine: seq<RunId>)
      ensures mine == OfSession(Seen(), entries, s)
    {
      mine := [];
      assert entries[0..] == entries;
      for i := 0 to |entries|
        invariant OfSession(Seen(), entries, s) == mine + OfSession(Seen(), entries[i..], s)
      {
        assert entries[i..][1..] == entries[i + 1..];
        if CellOf(cells, entries[i]).sessionId == s {
          mine := mine + [entries[i]];
        }
      }
    }

    method AfterPending(c: CallId)
      requires c in calls && calls[c].CloseSession? && calls[c].session.AtPending?
      modifies this
      ensures Seen() == SessionPending(old(Seen()), c)
    {
      var call := calls[c];
      hide ReleaseAll, OfSession;
      if exists r :: r in call.session.awaited && r in reserving && reserving[r].InFlight? {
        assert exists r :: r in call.session.awaited && Flying(Seen(), r);
        return;
      }
      assert !exists r :: r in call.session.awaited && Flying(Seen(), r);
      var mine := EntriesOf(call.sessionId);
      var started := ReleaseEach(mine);
      calls := calls[c := call.(session := AtReleases(started))];
    }

    method AfterReleases(c: CallId)
      requires c in calls && calls[c].CloseSession? && calls[c].session.AtReleases?
      modifies this
      ensures Seen() == SessionDone(old(Seen()), c)
    {
      var failed, done := AllDone(calls[c].session.ops);
      if failed {
        calls := calls[c := calls[c].(session := Done(false))];
      } else if done {
        calls := calls[c := calls[c].(session := Done(true))];
      }
    }

    // -------------------------------------------------------------- any order of steps

    /** Whatever comes next, but a crash: the event loop resumes a call, a caller calls, or the network has news. */
    method Take(e: Event)
      requires Inv(Seen()) && Possible(Seen(), e) && Polite(Seen(), e) && !e.Crash?
      modifies this
      ensures Seen() == QuotaModel.Next(old(Seen()), e) && Inv(Seen())
    {
      NextOk(Seen(), e);
      hide Inv, Polite, QuotaModel.Next;
      if e.ReserveLands? || e.ReserveReplies? || e.StrayLands? || e.SettleLands? || e.SettleReplies? {
        TakeNews(e);
      } else {
        Resume(e);
      }
    }

    method Resume(e: Event)
      requires Possible(Seen(), e) && !e.Crash?
      requires !e.ReserveLands? && !e.ReserveReplies? && !e.StrayLands? && !e.SettleLands? && !e.SettleReplies?
      modifies this
      ensures Seen() == QuotaModel.Next(old(Seen()), e)
    {
      hide StartRelease, LoopTurn, BeginReady, BeginSettled, BeginDrain, BeginReserved, BeginCleaned, ReleaseAll;
      hide ContinueRelease, FinallyRelease, Start, SessionPending, SessionDone, TurnStep;
      match e {
        case CallBegin(s, units, turn, engine) => CallBegins(s, units, turn, engine);
        case ResumeBegin(c) => ResumeBeginning(c);
        case CallRelease(run) => var _ := Release(run);
        case CallReleaseSession(s) => CallReleases(s);
        case ResumeSession(c) =>
          if calls[c].session.AtPending? {
            AfterPending(c);
          } else {
            AfterReleases(c);
          }
        case CallEnded(s, t) => CallEnds(s, t);
        case ResumeEnded(c) => EndNext(c);
        case Started(s, t) => MarkStarted(s, t);
        case Recover => RecoverNext();
        case Continue(o) => ContinueSettling(o);
        case Finally(o) => EndSettling(o);
        case _ =>
      }
    }

    /** The ledger or the network has news. */
    method TakeNews(e: Event)
      requires Possible(Seen(), e) && (e.ReserveLands? || e.ReserveReplies? || e.StrayLands? || e.SettleLands? || e.SettleReplies?)
      modifies this
      ensures Seen() == QuotaModel.Next(old(Seen()), e)
    {
      match e {
        case ReserveLands(run) =>
          ledger := ledger[run := Reserved(UnitsOf(Seen(), run))];
        case StrayLands(run) =>
          ledger, past := Stray(Seen(), run).ledger, Stray(Seen(), run).past;
        case ReserveReplies(run, reply) => reserving := reserving[run := reply];
        case SettleLands(request) =>
          if !ledger[request.runId].Settled? {
            ledger := ledger[request.runId := Settled(request.amount)];
          }
        case SettleReplies(o, answer) =>
          if answer.Missing? {
            past := Denied(Seen(), ops[o].runId);
          }
          ops := ops[o := Op(ops[o].runId, Answered(answer))];
        case _ =>
      }
    }

    method ResumeBeginning(c: CallId)
      requires Possible(Seen(), ResumeBegin(c))
      modifies this
      ensures Seen() == QuotaModel.Next(old(Seen()), ResumeBegin(c))
    {
      hide BeginReady, BeginSettled, BeginDrain, BeginReserved, BeginCleaned;
      match calls[c].stage {
        case AtReady => AfterReady(c);
        case AtSettling(_) => AfterSettlements(c);
        case AtDrain(_, _) => DrainNext(c);
        case AtReserve(_) => AfterReservation(c);
        case AtCleanup(_, _) => AfterCleanup(c);
        case Admitted(_) =>
        case Refused =>
      }
    }
  }

  /** An entry that got its turn does not get another. */
  lemma WithTurnTwice(entry: Entry, s: SessionId, t: TurnId)
    ensures WithTurn(WithTurn(entry, s, t), s, t) == WithTurn(entry, s, t)
  {
  }

  lemma TurnKeepsCalls(w: World, loop: LoopStage, chosen: bool)
    ensures LoopTurn(w, loop, chosen).0.calls == w.calls && LoopTurn(w, loop, chosen).0.released == w.released
  {
  }
}
