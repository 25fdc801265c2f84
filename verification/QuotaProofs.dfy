/** What every interleaving of the quota journal keeps. */
module QuotaProofs {
  import opened Common
  import opened QuotaModel

  ghost predicate DistinctRuns(entries: seq<RunId>) {
    forall i, j :: 0 <= i < j < |entries| ==> entries[i] != entries[j]
  }

  ghost predicate EntriesOk(w: World) {
    DistinctRuns(w.entries) && (forall r :: r in w.entries ==> r in w.cells) &&
    (forall r :: r in w.cells ==> w.cells[r].runId == r && r < w.nextId) &&
    w.disk == Journal(w.cells, w.entries)
  }

  /** An open reservation is in the journal or lost, and one that is asked for is in the journal. */
  ghost predicate OpenOk(w: World) {
    (forall r :: r in w.ledger ==> r < w.nextId) &&
    (forall r :: IsOpen(w, r) ==> r in w.entries || r in w.past.lost) &&
    forall r :: Flying(w, r) ==> r in w.entries && r in w.cells && !w.cells[r].finished &&
                                 r in PendingOf(w, w.cells[r].sessionId) && w.configured
  }

  /** A reservation that may still take effect is in the journal, unless its run was forgotten. */
  ghost predicate PastOk(w: World) {
    (forall r :: r in w.past.adrift ==> r < w.nextId && !Flying(w, r)) &&
    (forall r :: r in w.past.adrift ==> r in w.ledger || r in w.entries || r in w.past.forgot) &&
    (forall r :: r in w.past.denied ==> r < w.nextId && !Flying(w, r)) &&
    (forall r :: r in w.past.forgot ==> r in w.past.denied && r !in w.entries) &&
    forall r :: r in w.past.lost ==> r in w.ledger && r in w.past.forgot
  }

  /** Settle requests for a journaled run carry the amount its entry is frozen at. */
  ghost predicate SentOk(w: World) {
    (forall x :: x in w.sent ==> x.runId < w.nextId && !Flying(w, x.runId)) &&
    (forall x :: x in w.sent && !x.journaled ==> x.runId !in w.entries) &&
    (forall x :: x in w.sent && x.journaled && x.runId in w.entries ==>
       x.runId in w.cells && w.cells[x.runId].finished && x.amount == Amount(w.cells[x.runId])) &&
    (forall x, y :: x in w.sent && y in w.sent && x.journaled && y.journaled && x.runId == y.runId ==>
       x.amount == y.amount) &&
    forall r :: r in w.ledger && w.ledger[r].Settled? ==> Sent(r, w.ledger[r].amount, true) in w.sent || r in w.past.lost
  }

  ghost predicate OpOkay(w: World, op: Op) {
    op.runId < w.nextId && !Flying(w, op.runId) &&
    match op.phase
    case Awaiting => true
    case Answered(Accepted) => op.runId in w.ledger && w.ledger[op.runId].Settled?
    case Answered(Missing) => op.runId in w.past.denied
    case Answered(Broken) => true
    case Returned(ok) => ok ==> op.runId !in w.entries
    case Resolved(ok) => ok ==> op.runId !in w.entries
  }

  ghost predicate OpsOk(w: World) {
    (forall o :: o in w.ops ==> o < w.nextId && OpOkay(w, w.ops[o])) &&
    forall r :: r in w.settling ==> w.settling[r] in w.ops && w.ops[w.settling[r]].runId == r
  }

  ghost predicate Covers(w: World, ops: set<OpId>, s: SessionId) {
    forall r :: r in w.entries && CellOf(w.cells, r).sessionId == s ==> Served(w, ops, r)
  }

  /** One of the settlements is of this run. */
  ghost predicate Served(w: World, ops: set<OpId>, r: RunId) {
    exists o :: o in ops && o in w.ops && w.ops[o].runId == r
  }

  ghost predicate CallOk(w: World, call: Call) {
    match call
    case Begin(_, _, _, _, stage) =>
      (stage.AtReady? || stage.Refused? || w.configured) &&
      (match stage
       case AtReserve(r) => r < w.nextId
       case AtCleanup(r, _) => r < w.nextId && !Flying(w, r)
       case Admitted(r) => r < w.nextId && !Flying(w, r)
       case _ => true)
    case CloseSession(s, stage) =>
      s in w.released &&
      (match stage
       case AtPending(awaited) =>
         forall r :: Flying(w, r) && CellOf(w.cells, r).sessionId == s ==> r in awaited
       case AtReleases(ops) => Covers(w, ops, s)
       case Done(ok) => ok ==> forall r :: r in w.entries ==> CellOf(w.cells, r).sessionId != s)
    case CloseTurn(_, _, _) => true
  }

  ghost predicate CallsOk(w: World) {
    forall c :: c in w.calls ==> c < w.nextId && CallOk(w, w.calls[c])
  }

  ghost predicate RecoveryOk(w: World) {
    w.ready.Looping? ==> forall r :: r in w.ready.rest ==> r < w.nextId && !Flying(w, r)
  }

  ghost predicate Inv(w: World) {
    EntriesOk(w) && OpenOk(w) && PastOk(w) && SentOk(w) && OpsOk(w) && CallsOk(w) && RecoveryOk(w)
  }

  lemma {:induction false} RemovedMembers(entries: seq<RunId>, r: RunId, x: RunId)
    requires DistinctRuns(entries)
    ensures x in Removed(entries, r) <==> x in entries && x != r
    decreases |entries|
  {
    if entries != [] {
      var tail := entries[1..];
      assert entries == [entries[0]] + tail;
      assert DistinctRuns(tail) && entries[0] !in tail;
      if entries[0] != r {
        RemovedMembers(tail, r, x);
      }
    }
  }

  lemma {:induction false} RemovedDistinct(entries: seq<RunId>, r: RunId)
    requires DistinctRuns(entries)
    ensures DistinctRuns(Removed(entries, r))
    decreases |entries|
  {
    if entries != [] {
      var tail := entries[1..];
      assert entries == [entries[0]] + tail;
      assert DistinctRuns(tail) && entries[0] !in tail;
      if entries[0] != r {
        RemovedMembers(tail, r, entries[0]);
        RemovedDistinct(tail, r);
      }
    }
  }

  lemma RemovedFacts(entries: seq<RunId>, r: RunId)
    requires DistinctRuns(entries)
    ensures DistinctRuns(Removed(entries, r))
    ensures forall x :: x in Removed(entries, r) <==> x in entries && x != r
  {
    RemovedDistinct(entries, r);
    forall x: RunId ensures x in Removed(entries, r) <==> x in entries && x != r {
      RemovedMembers(entries, r, x);
    }
  }

  // ---------------------------------------------------------------- what steps leave alone

  /**
   From w to n no known run is journaled again or put in flight again, settled runs stay settled, sessions and
   operations keep their runs, and new runs belong to sessions that are not released.
   */
  ghost predicate Relax(w: World, n: World) {
    n.configured == w.configured && w.nextId <= n.nextId && w.released <= n.released && w.past.denied <= n.past.denied &&
    (forall r: RunId :: r < w.nextId && Flying(n, r) ==> Flying(w, r)) &&
    (forall r: RunId :: r < w.nextId && r in n.entries ==> r in w.entries) &&
    (forall r: RunId :: r < w.nextId ==> CellOf(n.cells, r).sessionId == CellOf(w.cells, r).sessionId) &&
    (forall r: RunId :: r in w.ledger && w.ledger[r].Settled? ==> r in n.ledger && n.ledger[r].Settled?) &&
    (forall r: RunId :: r >= w.nextId && (r in n.entries || Flying(n, r)) ==> CellOf(n.cells, r).sessionId !in n.released) &&
    forall o :: o in w.ops ==> o in n.ops && n.ops[o].runId == w.ops[o].runId
  }

  lemma OpRelaxes(w: World, n: World, op: Op)
    requires Relax(w, n) && OpOkay(w, op)
    ensures OpOkay(n, op)
  {
  }

  lemma CallRelaxes(w: World, n: World, call: Call)
    requires Relax(w, n) && CallOk(w, call)
    ensures CallOk(n, call)
  {
    if call.CloseSession? && call.session.AtReleases? {
      var ops := call.session.ops;
      forall r | r in n.entries && CellOf(n.cells, r).sessionId == call.sessionId
        ensures exists o :: o in ops && o in n.ops && n.ops[o].runId == r
      {
        assert r in w.entries && CellOf(w.cells, r).sessionId == call.sessionId;
        var o :| o in ops && o in w.ops && w.ops[o].runId == r;
        assert n.ops[o].runId == r;
      }
    }
  }

  lemma OpsRelax(w: World, n: World, o: OpId)
    requires Relax(w, n) && OpsOk(w) && n.ops.Keys <= w.ops.Keys + {o} && o < n.nextId
    requires forall k :: k in w.ops && k != o ==> n.ops[k] == w.ops[k]
    requires o in n.ops ==> OpOkay(n, n.ops[o])
    requires forall r :: r in n.settling ==>
               (r in w.settling && n.settling[r] == w.settling[r]) ||
               (n.settling[r] == o && o in n.ops && n.ops[o].runId == r)
    ensures OpsOk(n)
  {
    forall k | k in n.ops ensures k < n.nextId && OpOkay(n, n.ops[k]) {
      assert k in n.ops.Keys;
      if k != o {
        OpRelaxes(w, n, w.ops[k]);
      }
    }
  }

  lemma SameOpsRelax(w: World, n: World)
    requires Relax(w, n) && OpsOk(w) && n.ops == w.ops && n.settling == w.settling
    ensures OpsOk(n)
  {
    forall k | k in n.ops ensures k < n.nextId && OpOkay(n, n.ops[k]) {
      OpRelaxes(w, n, w.ops[k]);
    }
  }

  lemma CallsRelax(w: World, n: World)
    requires Relax(w, n) && CallsOk(w) && n.calls == w.calls
    ensures CallsOk(n)
  {
    forall c | c in n.calls ensures c < n.nextId && CallOk(n, n.calls[c]) {
      CallRelaxes(w, n, w.calls[c]);
    }
  }

  lemma CallRelax(w: World, n: World, c: CallId)
    requires Relax(w, n) && CallsOk(w) && c < n.nextId && c in n.calls && CallOk(n, n.calls[c])
    requires n.calls == w.calls[c := n.calls[c]]
    ensures CallsOk(n)
  {
    forall k | k in n.calls ensures k < n.nextId && CallOk(n, n.calls[k]) {
      if k != c {
        CallRelaxes(w, n, w.calls[k]);
      }
    }
  }

  /** Nothing in the journal, on the network or in the ledger changed. */
  ghost predicate SameBooks(w: World, n: World) {
    n.configured == w.configured && n.cells == w.cells && n.entries == w.entries && n.disk == w.disk &&
    n.pending == w.pending && n.reserving == w.reserving && n.ledger == w.ledger && n.sent == w.sent &&
    n.past == w.past && w.released <= n.released && w.nextId <= n.nextId
  }

  lemma SameBooksOk(w: World, n: World)
    requires SameBooks(w, n) && EntriesOk(w) && OpenOk(w) && PastOk(w) && SentOk(w)
    ensures EntriesOk(n) && OpenOk(n) && PastOk(n) && SentOk(n)
  {
  }

  lemma SameBooksRelax(w: World, n: World)
    requires SameBooks(w, n) && EntriesOk(w) && OpenOk(w)
    requires forall o :: o in w.ops ==> o in n.ops && n.ops[o].runId == w.ops[o].runId
    ensures Relax(w, n)
  {
  }

  // ---------------------------------------------------------------- starting a release

  /** What starting releases leaves as it was. */
  ghost predicate Starts(w: World, n: World) {
    n.configured == w.configured && n.entries == w.entries && n.pending == w.pending && n.released == w.released &&
    n.ready == w.ready && n.calls == w.calls && n.reserving == w.reserving && n.ledger == w.ledger &&
    n.past == w.past && w.nextId <= n.nextId && n.cells.Keys == w.cells.Keys &&
    (forall r :: r in w.cells ==> n.cells[r].sessionId == w.cells[r].sessionId) &&
    forall o :: o in w.ops ==> o in n.ops && n.ops[o] == w.ops[o]
  }

  lemma StartsTrans(a: World, b: World, c: World)
    requires Starts(a, b) && Starts(b, c)
    ensures Starts(a, c)
  {
    assert forall r :: r in a.cells ==> r in a.cells.Keys;
  }

  lemma StartsRelax(w: World, n: World)
    requires Starts(w, n) && EntriesOk(w) && OpenOk(w)
    ensures Relax(w, n)
  {
    forall r ensures CellOf(n.cells, r).sessionId == CellOf(w.cells, r).sessionId {
      assert r in w.cells.Keys <==> r in n.cells.Keys;
    }
  }

  predicate Marks(w: World, r: RunId) {
    r !in w.settling && w.configured && r in w.entries && r in w.cells
  }

  lemma StartReleaseShape(w: World, r: RunId)
    ensures var (n, o) := StartRelease(w, r);
            n == w.(cells := n.cells, disk := n.disk, ops := n.ops, settling := n.settling, sent := n.sent,
                    nextId := n.nextId) &&
            n.cells == (if Marks(w, r) then w.cells[r := w.cells[r].(finished := true)] else w.cells) &&
            n.disk == (if Marks(w, r) then Journal(n.cells, w.entries) else w.disk) &&
            n.sent == (if r in w.settling || !w.configured then w.sent
                       else w.sent + {Sent(r, if Marks(w, r) then Amount(w.cells[r]) else 0, Marks(w, r))}) &&
            (if r in w.settling then n.ops == w.ops && n.settling == w.settling && o == w.settling[r] && n.nextId == w.nextId
             else o == w.nextId && n.nextId == o + 1 && n.settling == w.settling[r := o] &&
                  n.ops == w.ops[o := Op(r, if w.configured then Awaiting else Returned(false))])
  {
  }

  lemma StartReleaseStarts(w: World, r: RunId)
    requires OpsOk(w)
    ensures var (n, o) := StartRelease(w, r); Starts(w, n) && o in n.ops && n.ops[o].runId == r
  {
    hide StartRelease, Journal, OpOkay;
    StartReleaseShape(w, r);
  }

  lemma StartReleaseBooks(w: World, r: RunId)
    requires EntriesOk(w) && OpenOk(w) && PastOk(w) && r < w.nextId && !Flying(w, r)
    ensures var n := StartRelease(w, r).0; EntriesOk(n) && OpenOk(n) && PastOk(n)
  {
    hide StartRelease, Journal;
    StartReleaseShape(w, r);
  }

  lemma StartReleaseSent(w: World, r: RunId)
    requires EntriesOk(w) && OpenOk(w) && SentOk(w) && r < w.nextId && !Flying(w, r)
    ensures SentOk(StartRelease(w, r).0)
  {
    hide StartRelease, Journal;
    StartReleaseShape(w, r);
  }

  lemma StartReleaseOps(w: World, r: RunId)
    requires EntriesOk(w) && OpenOk(w) && OpsOk(w) && r < w.nextId && !Flying(w, r)
    ensures OpsOk(StartRelease(w, r).0)
  {
    hide StartRelease, EntriesOk, OpenOk, PastOk, Starts, Relax;
    var (n, o) := StartRelease(w, r);
    StartReleaseShape(w, r);
    StartReleaseStarts(w, r);
    StartsRelax(w, n);
    assert OpOkay(n, Op(r, Awaiting)) && OpOkay(n, Op(r, Returned(false)));
    if r !in w.settling {
      OpsRelax(w, n, w.nextId);
    }
  }

  lemma StartReleaseOk(w: World, r: RunId)
    requires Inv(w) && r < w.nextId && !Flying(w, r)
    ensures var (n, o) := StartRelease(w, r); Inv(n) && Starts(w, n) && o in n.ops && n.ops[o].runId == r
  {
    hide StartRelease, EntriesOk, OpenOk, PastOk, SentOk, OpsOk, CallsOk;
    StartReleaseStarts(w, r);
    StartsRelax(w, StartRelease(w, r).0);
    StartReleaseBooks(w, r);
    StartReleaseSent(w, r);
    StartReleaseOps(w, r);
    CallsRelax(w, StartRelease(w, r).0);
  }

  lemma {:induction false} ReleaseAllOk(w: World, runs: seq<RunId>)
    requires Inv(w) && forall i :: 0 <= i < |runs| ==> runs[i] < w.nextId && !Flying(w, runs[i])
    ensures var (n, ops) := ReleaseAll(w, runs);
            Inv(n) && Starts(w, n) &&
            forall r :: r in runs ==> Served(n, ops, r)
    decreases |runs|
  {
    hide Inv, StartRelease;
    if runs != [] {
      StartReleaseOk(w, runs[0]);
      var (next, o) := StartRelease(w, runs[0]);
      ReleaseAllOk(next, runs[1..]);
      var (n, ops) := ReleaseAll(next, runs[1..]);
      StartsTrans(w, next, n);
      forall r | r in runs ensures Served(n, ops + {o}, r) {
        if r == runs[0] {
          assert o in n.ops && n.ops[o].runId == r;
        } else {
          assert r in runs[1..];
          var p :| p in ops && p in n.ops && n.ops[p].runId == r;
          assert p in ops + {o};
        }
      }
    }
  }

  /** A loop turn either changes nothing but the loop, or starts one release. */
  lemma LoopTurnOk(w: World, loop: LoopStage, chosen: bool)
    requires Inv(w)
    requires chosen && loop.Looping? && loop.waiting.None? && loop.rest != [] ==>
               loop.rest[0] < w.nextId && !Flying(w, loop.rest[0])
    ensures var (n, _) := LoopTurn(w, loop, chosen); Inv(n) && Starts(w, n)
  {
    hide Inv, StartRelease;
    if loop.Looping? && loop.waiting.None? && loop.rest != [] && chosen {
      StartReleaseOk(w, loop.rest[0]);
    }
  }

  // ---------------------------------------------------------------- single steps

  /** Replacing or adding one call, when the books do not change. */
  lemma CallStepOk(w: World, n: World, c: CallId)
    requires Inv(w) && SameBooks(w, n) && n.ops == w.ops && n.settling == w.settling && n.ready == w.ready
    requires c < n.nextId && c in n.calls && n.calls == w.calls[c := n.calls[c]] && CallOk(n, n.calls[c])
    ensures Inv(n)
  {
    hide EntriesOk, OpenOk, PastOk, SentOk, OpsOk, CallsOk, CallOk, Relax;
    SameBooksOk(w, n);
    SameBooksRelax(w, n);
    SameOpsRelax(w, n);
    CallRelax(w, n, c);
  }

  /** Moving one operation on, when the books do not change. */
  lemma OpStepOk(w: World, n: World, o: OpId)
    requires Inv(w) && SameBooks(w, n) && n.calls == w.calls && n.ready == w.ready
    requires o in w.ops && o in n.ops && n.ops[o].runId == w.ops[o].runId && OpOkay(n, n.ops[o])
    requires n.ops == w.ops[o := n.ops[o]]
    requires forall r :: r in n.settling ==> r in w.settling && n.settling[r] == w.settling[r]
    ensures Inv(n)
  {
    assert o < n.nextId;
    hide EntriesOk, OpenOk, PastOk, SentOk, OpsOk, CallsOk, OpOkay, Relax;
    SameBooksOk(w, n);
    SameBooksRelax(w, n);
    OpsRelax(w, n, o);
    CallsRelax(w, n);
  }

  lemma FinallyOk(w: World, o: OpId)
    requires Inv(w) && o in w.ops && w.ops[o].phase.Returned?
    ensures Inv(FinallyRelease(w, o))
  {
    hide EntriesOk, OpenOk, PastOk, SentOk, CallsOk;
    assert OpOkay(w, w.ops[o]);
    OpStepOk(w, FinallyRelease(w, o), o);
  }

  lemma AnswerOk(w: World, o: OpId, answer: Answer)
    requires Inv(w) && Possible(w, SettleReplies(o, answer))
    ensures Inv(Next(w, SettleReplies(o, answer)))
  {
    assert OpOkay(w, w.ops[o]) && o < w.nextId;
    hide EntriesOk, OpenOk, PastOk, SentOk, CallsOk, OpsOk, RecoveryOk;
    if answer.Missing? {
      DeniedOk(w, w.ops[o].runId);
      var told := w.(past := Denied(w, w.ops[o].runId));
      assert Next(w, SettleReplies(o, answer)) == told.(ops := w.ops[o := Op(w.ops[o].runId, Answered(Missing))]);
      OpStepOk(told, Next(w, SettleReplies(o, answer)), o);
    } else {
      OpStepOk(w, Next(w, SettleReplies(o, answer)), o);
    }
  }

  lemma DeniedBooks(w: World, r: RunId)
    requires EntriesOk(w) && OpenOk(w) && PastOk(w) && SentOk(w) && r < w.nextId && !Flying(w, r)
    ensures var n := w.(past := Denied(w, r)); EntriesOk(n) && OpenOk(n) && PastOk(n) && SentOk(n) && Relax(w, n)
  {
    hide Journal, DistinctRuns;
  }

  lemma DeniedOk(w: World, r: RunId)
    requires Inv(w) && r < w.nextId && !Flying(w, r)
    ensures Inv(w.(past := Denied(w, r)))
  {
    hide EntriesOk, OpenOk, PastOk, SentOk, OpsOk, CallsOk, RecoveryOk, Relax;
    var n := w.(past := Denied(w, r));
    DeniedBooks(w, r);
    SameOpsRelax(w, n);
    CallsRelax(w, n);
    OldRunsRest(w, n);
  }

  ghost predicate Spliced(w: World, n: World, r: RunId) {
    DistinctRuns(n.entries) && (forall x :: x in n.entries <==> x in w.entries && x != r) &&
    n.cells == w.cells && n.disk == Journal(n.cells, n.entries) && n.ledger == w.ledger && n.sent == w.sent &&
    n.reserving == w.reserving && n.pending == w.pending && n.configured == w.configured && n.nextId == w.nextId &&
    n.released == w.released && n.past.denied == w.past.denied && w.past.lost <= n.past.lost && (IsOpen(w, r) ==> r in n.past.lost)
  }

  lemma SplicedEntries(w: World, n: World, r: RunId)
    requires EntriesOk(w) && Spliced(w, n, r)
    ensures EntriesOk(n)
  {
    hide Journal;
  }

  /** An entry is spliced out only when its reservation is settled, or never existed, or is lost. */
  lemma SplicedOpen(w: World, n: World, r: RunId)
    requires OpenOk(w) && Spliced(w, n, r) && !Flying(w, r)
    ensures OpenOk(n)
  {
    hide Journal, DistinctRuns;
  }

  ghost predicate Forgets(w: World, n: World, r: RunId) {
    (r in w.ledger && n.past == w.past) || (r in w.past.denied && n.past == Dropped(w, r))
  }

  lemma SplicedPast(w: World, n: World, r: RunId)
    requires PastOk(w) && Spliced(w, n, r) && !Flying(w, r) && r < w.nextId
    requires Forgets(w, n, r)
    ensures PastOk(n)
  {
    hide Journal, DistinctRuns;
  }

  lemma SplicedSent(w: World, n: World, r: RunId)
    requires SentOk(w) && Spliced(w, n, r)
    ensures SentOk(n)
  {
    hide Journal, DistinctRuns;
  }

  lemma SplicedRelax(w: World, n: World, r: RunId)
    requires Spliced(w, n, r) && EntriesOk(w) && OpenOk(w)
    requires forall o :: o in w.ops ==> o in n.ops && n.ops[o].runId == w.ops[o].runId
    ensures Relax(w, n)
  {
    hide Journal, DistinctRuns;
  }

  lemma OpHere(w: World, o: OpId)
    requires Inv(w) && o in w.ops
    ensures o < w.nextId && OpOkay(w, w.ops[o]) && DistinctRuns(w.entries)
  {
    hide OpenOk, PastOk, SentOk, CallsOk;
  }

  lemma ContinueShape(w: World, o: OpId)
    requires o in w.ops && w.ops[o].phase.Answered? && !w.ops[o].phase.answer.Broken? && DistinctRuns(w.entries)
    requires OpOkay(w, w.ops[o])
    ensures var n := ContinueRelease(w, o);
            Spliced(w, n, w.ops[o].runId) && Forgets(w, n, w.ops[o].runId) && n.calls == w.calls && n.ready == w.ready && n.settling == w.settling &&
            n.ops == w.ops[o := Op(w.ops[o].runId, Returned(true))]
  {
    hide Removed, Journal, DistinctRuns;
    RemovedFacts(w.entries, w.ops[o].runId);
  }

  lemma SplicedOk(w: World, n: World, o: OpId)
    requires Inv(w) && o in w.ops && w.ops[o].phase.Answered? && !w.ops[o].phase.answer.Broken?
    requires Spliced(w, n, w.ops[o].runId) && Forgets(w, n, w.ops[o].runId)
    requires n.calls == w.calls && n.ready == w.ready && n.settling == w.settling
    requires n.ops == w.ops[o := Op(w.ops[o].runId, Returned(true))]
    ensures Inv(n)
  {
    hide EntriesOk, OpenOk, PastOk, SentOk, OpsOk, CallsOk, RecoveryOk, Relax, DistinctRuns;
    var r := w.ops[o].runId;
    OpHere(w, o);
    SplicedEntries(w, n, r);
    SplicedOpen(w, n, r);
    SplicedPast(w, n, r);
    SplicedSent(w, n, r);
    SplicedRelax(w, n, r);
    CallsRelax(w, n);
    OpsRelax(w, n, o);
    OldRunsRest(w, n);
  }

  lemma ContinueOk(w: World, o: OpId)
    requires Inv(w) && o in w.ops && w.ops[o].phase.Answered?
    ensures Inv(ContinueRelease(w, o))
  {
    hide Inv, Spliced, Removed;
    OpHere(w, o);
    if w.ops[o].phase.answer.Broken? {
      OpStepOk(w, ContinueRelease(w, o), o);
    } else {
      ContinueShape(w, o);
      SplicedOk(w, ContinueRelease(w, o), o);
    }
  }

  lemma UnpendBooks(w: World, s: SessionId, r: RunId)
    requires EntriesOk(w) && OpenOk(w) && PastOk(w) && SentOk(w) && !Flying(w, r)
    ensures var n := Unpend(w, s, r); EntriesOk(n) && OpenOk(n) && PastOk(n) && SentOk(n) && Relax(w, n)
  {
    var n := Unpend(w, s, r);
    forall x | Flying(n, x) ensures x in PendingOf(n, n.cells[x].sessionId) {
      assert Flying(w, x);
    }
  }

  lemma UnpendOk(w: World, s: SessionId, r: RunId)
    requires Inv(w) && !Flying(w, r)
    ensures Inv(Unpend(w, s, r)) && Unpend(w, s, r) == w.(pending := Unpend(w, s, r).pending)
  {
    hide EntriesOk, OpenOk, PastOk, SentOk, OpsOk, CallsOk, Relax;
    UnpendBooks(w, s, r);
    SameOpsRelax(w, Unpend(w, s, r));
    CallsRelax(w, Unpend(w, s, r));
  }

  ghost predicate Admits(w: World, n: World, r: RunId, entry: Entry) {
    r == w.nextId && n.nextId == r + 1 && entry.runId == r && !entry.finished && w.configured && n.configured &&
    entry.sessionId !in w.released && n.released == w.released &&
    n.cells == w.cells[r := entry] && n.entries == w.entries + [r] && n.disk == Journal(n.cells, n.entries) &&
    n.ledger == w.ledger && n.sent == w.sent && n.reserving == w.reserving[r := InFlight] && n.ops == w.ops &&
    n.past == w.past &&
    n.pending == w.pending[entry.sessionId := PendingOf(w, entry.sessionId) + {r}]
  }

  lemma AdmittedEntries(w: World, n: World, r: RunId, entry: Entry)
    requires EntriesOk(w) && Admits(w, n, r, entry)
    ensures EntriesOk(n)
  {
    hide Journal;
    assert forall i :: 0 <= i < |w.entries| ==> w.entries[i] in w.entries;
    assert forall x :: x in n.entries <==> x in w.entries || x == r;
  }

  lemma AdmittedOpen(w: World, n: World, r: RunId, entry: Entry)
    requires OpenOk(w) && Admits(w, n, r, entry)
    ensures OpenOk(n)
  {
    hide Journal;
    forall x | Flying(n, x)
      ensures x in n.entries && x in n.cells && !n.cells[x].finished && x in PendingOf(n, n.cells[x].sessionId)
    {
      if x != r {
        assert Flying(w, x);
      }
    }
  }

  lemma AdmittedPast(w: World, n: World, r: RunId, entry: Entry)
    requires PastOk(w) && Admits(w, n, r, entry)
    ensures PastOk(n)
  {
    hide Journal;
    assert forall x :: x in n.entries <==> x in w.entries || x == r;
    assert forall x :: Flying(n, x) ==> Flying(w, x) || x == r;
  }

  lemma AdmittedSent(w: World, n: World, r: RunId, entry: Entry)
    requires SentOk(w) && Admits(w, n, r, entry)
    ensures SentOk(n)
  {
    hide Journal;
  }

  lemma AdmittedRelax(w: World, n: World, r: RunId, entry: Entry)
    requires EntriesOk(w) && OpenOk(w) && Admits(w, n, r, entry)
    ensures Relax(w, n)
  {
    hide Journal;
    assert forall x :: x in n.entries <==> x in w.entries || x == r;
    assert forall x :: Flying(n, x) ==> Flying(w, x) || x == r;
  }

  lemma BeginReserveBooks(w: World, c: CallId)
    requires EntriesOk(w) && OpenOk(w) && PastOk(w) && SentOk(w) && c in w.calls && w.calls[c].Begin?
    requires w.calls[c].sessionId !in w.released && w.configured
    ensures var n := BeginReserve(w, c); EntriesOk(n) && OpenOk(n) && PastOk(n) && SentOk(n) && Relax(w, n)
  {
    hide Journal, EntriesOk, OpenOk, PastOk, SentOk, Relax;
    var n := BeginReserve(w, c);
    var entry := n.cells[w.nextId];
    AdmittedEntries(w, n, w.nextId, entry);
    AdmittedOpen(w, n, w.nextId, entry);
    AdmittedPast(w, n, w.nextId, entry);
    AdmittedSent(w, n, w.nextId, entry);
    AdmittedRelax(w, n, w.nextId, entry);
  }

  lemma BeginReserveOk(w: World, c: CallId)
    requires Inv(w) && c in w.calls && w.calls[c].Begin? && w.calls[c].sessionId !in w.released && w.configured
    ensures Inv(BeginReserve(w, c))
  {
    assert c < w.nextId;
    hide EntriesOk, OpenOk, PastOk, SentOk, OpsOk, CallsOk, Relax;
    var n := BeginReserve(w, c);
    BeginReserveBooks(w, c);
    SameOpsRelax(w, n);
    CallRelax(w, n, c);
    OldRunsRest(w, n);
  }

  lemma OldRunsRest(w: World, n: World)
    requires RecoveryOk(w) && Relax(w, n) && n.ready == w.ready
    ensures RecoveryOk(n)
  {
  }

  lemma CallHere(w: World, c: CallId)
    requires Inv(w) && c in w.calls
    ensures c < w.nextId && CallOk(w, w.calls[c])
  {
  }

  lemma SetCallOk(w: World, c: CallId, call: Call)
    requires Inv(w) && c < w.nextId && CallOk(w, call)
    ensures Inv(SetCall(w, c, call))
  {
    hide Inv;
    CallStays(w, SetCall(w, c, call), call);
    CallStepOk(w, SetCall(w, c, call), c);
  }

  lemma CallStays(w: World, n: World, call: Call)
    requires Inv(w) && CallOk(w, call) && SameBooks(w, n) && n.ops == w.ops
    ensures CallOk(n, call)
  {
    SameBooksRelax(w, n);
    CallRelaxes(w, n, call);
  }

  lemma BeginReservedOk(w: World, c: CallId)
    requires Inv(w) && Possible(w, ResumeBegin(c)) && w.calls[c].stage.AtReserve?
    ensures Inv(BeginReserved(w, c))
  {
    hide Inv, StartRelease, Unpend;
    var call := w.calls[c];
    var r := call.stage.runId;
    CallHere(w, c);
    if w.reserving[r].Failed? {
      StartReleaseOk(w, r);
      var (next, o) := StartRelease(w, r);
      SetCallOk(next, c, call.(stage := AtCleanup(r, o)));
    } else {
      UnpendOk(w, call.sessionId, r);
      SetCallOk(Unpend(w, call.sessionId, r), c, call.(stage := if call.sessionId in w.released then Refused else Admitted(r)));
    }
  }

  lemma BeginDrainOk(w: World, c: CallId)
    requires Inv(w) && c in w.calls && w.calls[c].Begin? && w.calls[c].stage.AtDrain? && w.configured
    ensures Inv(BeginDrain(w, c))
  {
    var call := w.calls[c];
    var finished := call.stage.rest != [] && CellOf(w.cells, call.stage.rest[0]).finished;
    assert finished ==> call.stage.rest[0] < w.nextId && !Flying(w, call.stage.rest[0]);
    CallHere(w, c);
    hide Inv, LoopTurn;
    var (next, loop) := LoopTurn(w, Looping(call.stage.rest, call.stage.waiting), finished);
    LoopTurnOk(w, Looping(call.stage.rest, call.stage.waiting), finished);
    match loop {
      case Looping(rest, waiting) => SetCallOk(next, c, call.(stage := AtDrain(rest, waiting)));
      case Ended(ok) =>
        if !ok || call.sessionId in w.released {
          SetCallOk(next, c, call.(stage := Refused));
        } else {
          BeginReserveOk(w, c);
        }
    }
  }

  lemma BeginOk(w: World, c: CallId)
    requires Inv(w) && Possible(w, ResumeBegin(c))
    ensures Inv(Next(w, ResumeBegin(c)))
  {
    hide Inv, BeginDrain, BeginReserved, Unpend;
    CallHere(w, c);
    var call := w.calls[c];
    match call.stage
    case AtReady =>
      SetCallOk(w, c, call.(stage := Refused));
      if w.configured {
        SetCallOk(w, c, call.(stage := AtSettling(w.settling.Values)));
      }
    case AtSettling(_) =>
      SetCallOk(w, c, call.(stage := Refused));
      SetCallOk(w, c, call.(stage := AtDrain(w.entries, None)));
    case AtDrain(_, _) => BeginDrainOk(w, c);
    case AtReserve(_) => BeginReservedOk(w, c);
    case AtCleanup(r, _) =>
      UnpendOk(w, call.sessionId, r);
      SetCallOk(Unpend(w, call.sessionId, r), c, call.(stage := Refused));
  }

  // ---------------------------------------------------------------- sessions and turns

  lemma {:induction false} OfSessionFacts(w: World, runs: seq<RunId>, s: SessionId)
    ensures forall r :: r in OfSession(w, runs, s) <==> r in runs && CellOf(w.cells, r).sessionId == s
    decreases |runs|
  {
    if runs != [] {
      OfSessionFacts(w, runs[1..], s);
      assert forall r :: r in runs <==> r == runs[0] || r in runs[1..];
    }
  }

  lemma NoneFlying(w: World, c: CallId)
    requires Inv(w) && c in w.calls && w.calls[c].CloseSession? && w.calls[c].session.AtPending?
    requires forall r :: r in w.calls[c].session.awaited ==> !Flying(w, r)
    ensures forall r :: r in OfSession(w, w.entries, w.calls[c].sessionId) ==> r < w.nextId && !Flying(w, r)
  {
    hide SentOk, OpsOk, OfSession;
    OfSessionFacts(w, w.entries, w.calls[c].sessionId);
    CallHere(w, c);
  }

  lemma SessionPendingOk(w: World, c: CallId)
    requires Inv(w) && c in w.calls && w.calls[c].CloseSession? && w.calls[c].session.AtPending?
    ensures Inv(SessionPending(w, c))
  {
    hide Inv, ReleaseAll, OfSession, Served, Covers;
    var call := w.calls[c];
    if exists r :: r in call.session.awaited && Flying(w, r) {
    } else {
      var runs := OfSession(w, w.entries, call.sessionId);
      OfSessionFacts(w, w.entries, call.sessionId);
      NoneFlying(w, c);
      CallHere(w, c);
      assert forall i :: 0 <= i < |runs| ==> runs[i] in runs;
      ReleaseAllOk(w, runs);
      var (n, ops) := ReleaseAll(w, runs);
      AllCovered(w, n, runs, ops, call.sessionId);
      SetCallOk(n, c, call.(session := AtReleases(ops)));
    }
  }

  lemma AllCovered(w: World, n: World, runs: seq<RunId>, ops: set<OpId>, s: SessionId)
    requires Starts(w, n) && forall r :: r in runs <==> r in w.entries && CellOf(w.cells, r).sessionId == s
    requires forall r :: r in runs ==> Served(n, ops, r)
    ensures Covers(n, ops, s)
  {
    forall r | r in n.entries && CellOf(n.cells, r).sessionId == s ensures Served(n, ops, r) {
      assert r in w.cells.Keys <==> r in n.cells.Keys;
      assert r in runs;
    }
  }

  lemma SessionDoneOk(w: World, c: CallId)
    requires Inv(w) && c in w.calls && w.calls[c].CloseSession? && w.calls[c].session.AtReleases?
    ensures Inv(SessionDone(w, c))
  {
    CallHere(w, c);
    var call := w.calls[c];
    var ops := call.session.ops;
    if forall o :: o in ops ==> OpOk(w, o) {
      assert forall o :: o in ops && o in w.ops ==> OpOk(w, o) && OpOkay(w, w.ops[o]);
      SetCallOk(w, c, call.(session := Done(true)));
    }
    SetCallOk(w, c, call.(session := Done(false)));
  }

  lemma TurnStepOk(w: World, c: CallId)
    requires Inv(w) && Possible(w, ResumeEnded(c)) && Polite(w, ResumeEnded(c))
    ensures Inv(TurnStep(w, c))
  {
    var call := w.calls[c];
    assert TurnMatches(w, call) ==> call.loop.rest[0] < w.nextId;
    CallHere(w, c);
    hide Inv, LoopTurn;
    LoopTurnOk(w, call.loop, TurnMatches(w, call));
    var (next, loop) := LoopTurn(w, call.loop, TurnMatches(w, call));
    SetCallOk(next, c, call.(loop := loop));
  }

  lemma StartShape(w: World, s: SessionId, t: TurnId)
    ensures var n := Start(w, s, t);
            n == w.(cells := n.cells, disk := Journal(n.cells, w.entries)) && n.cells.Keys == w.cells.Keys &&
            forall r :: r in w.cells ==>
              n.cells[r] == if r in w.entries then WithTurn(w.cells[r], s, t) else w.cells[r]
  {
  }

  lemma StartedEntries(w: World, s: SessionId, t: TurnId)
    requires EntriesOk(w)
    ensures EntriesOk(Start(w, s, t)) && Start(w, s, t).cells.Keys == w.cells.Keys
  {
    hide Start, Journal, DistinctRuns;
    StartShape(w, s, t);
    var n := Start(w, s, t);
    assert forall r :: r in n.cells <==> r in n.cells.Keys;
    assert forall r :: r in w.cells <==> r in w.cells.Keys;
  }

  lemma StartedOpen(w: World, s: SessionId, t: TurnId)
    requires EntriesOk(w) && OpenOk(w) && PastOk(w)
    ensures var n := Start(w, s, t); OpenOk(n) && PastOk(n)
  {
    hide Start, Journal, DistinctRuns;
    StartShape(w, s, t);
    var n := Start(w, s, t);
    assert forall r :: r in w.cells ==> r in w.cells.Keys && r in n.cells;
  }

  lemma StartedSent(w: World, s: SessionId, t: TurnId)
    requires EntriesOk(w) && SentOk(w)
    ensures SentOk(Start(w, s, t))
  {
    hide Start, Journal, DistinctRuns;
    StartShape(w, s, t);
    var n := Start(w, s, t);
    assert forall r :: r in w.cells ==> r in w.cells.Keys && r in n.cells;
  }

  lemma StartedRelax(w: World, s: SessionId, t: TurnId)
    requires EntriesOk(w) && OpenOk(w)
    ensures Relax(w, Start(w, s, t))
  {
    hide Start, Journal, DistinctRuns;
    StartShape(w, s, t);
    var n := Start(w, s, t);
    assert forall r :: r in n.cells <==> r in n.cells.Keys;
    assert forall r :: r in w.cells <==> r in w.cells.Keys;
  }

  lemma StartOk(w: World, s: SessionId, t: TurnId)
    requires Inv(w)
    ensures Inv(Start(w, s, t))
  {
    hide EntriesOk, OpenOk, PastOk, SentOk, OpsOk, CallsOk, Relax;
    StartedEntries(w, s, t);
    StartedOpen(w, s, t);
    StartedSent(w, s, t);
    StartedRelax(w, s, t);
    SameOpsRelax(w, Start(w, s, t));
    CallsRelax(w, Start(w, s, t));
  }

  lemma RecoverOk(w: World)
    requires Inv(w) && w.ready.Looping?
    ensures Inv(Next(w, Recover))
  {
    hide StartRelease;
    assert w.ready.rest != [] ==> w.ready.rest[0] in w.ready.rest;
    LoopTurnOk(w, w.ready, true);
    var (next, loop) := LoopTurn(w, w.ready, true);
    assert loop.Looping? ==> forall r :: r in loop.rest ==> r in w.ready.rest;
    ReadyStays(next, loop);
  }

  lemma ReadyStays(w: World, loop: LoopStage)
    requires Inv(w) && RecoveryOk(w.(ready := loop))
    ensures Inv(w.(ready := loop))
  {
    hide EntriesOk, OpenOk, PastOk, SentOk, OpsOk, CallsOk, RecoveryOk, Relax;
    var n := w.(ready := loop);
    SameBooksOk(w, n);
    SameBooksRelax(w, n);
    SameOpsRelax(w, n);
    CallsRelax(w, n);
  }

  // ---------------------------------------------------------------- the network

  /** Only the ledger and the replies changed: a flying run was reserved or answered, or an open one settled. */
  ghost predicate Networked(w: World, n: World) {
    n == w.(ledger := n.ledger, reserving := n.reserving) &&
    (forall r :: Flying(n, r) ==> Flying(w, r)) &&
    (forall r :: r in n.ledger ==>
       (r in w.ledger && n.ledger[r] == w.ledger[r]) ||
       (Flying(w, r) && n.ledger[r].Reserved?) ||
       (r in w.ledger && w.ledger[r].Reserved? && n.ledger[r].Settled? &&
        exists journaled :: Sent(r, n.ledger[r].amount, journaled) in w.sent)) &&
    forall r :: r in w.ledger ==> r in n.ledger && (w.ledger[r].Settled? ==> n.ledger[r] == w.ledger[r])
  }

  lemma NetworkOpen(w: World, n: World)
    requires EntriesOk(w) && OpenOk(w) && PastOk(w) && Networked(w, n)
    ensures EntriesOk(n) && OpenOk(n) && PastOk(n)
  {
    hide Journal, DistinctRuns;
    forall r | r in n.ledger ensures r < n.nextId && (IsOpen(n, r) ==> r in n.entries || r in n.past.lost) {
      if Flying(w, r) {
        assert r in w.entries;
      }
    }
  }

  lemma NetworkSent(w: World, n: World)
    requires OpenOk(w) && SentOk(w) && Networked(w, n)
    ensures SentOk(n)
  {
    forall r | r in n.ledger && n.ledger[r].Settled? ensures Sent(r, n.ledger[r].amount, true) in n.sent || r in n.past.lost {
      if !(r in w.ledger && n.ledger[r] == w.ledger[r]) {
        var journaled :| Sent(r, n.ledger[r].amount, journaled) in w.sent;
        assert IsOpen(w, r);
      }
    }
  }

  lemma NetworkRelax(w: World, n: World)
    requires EntriesOk(w) && OpenOk(w) && Networked(w, n)
    ensures Relax(w, n)
  {
    hide Journal, DistinctRuns;
  }

  lemma NetworkShape(w: World, e: Event)
    requires Possible(w, e) && (e.ReserveLands? || e.ReserveReplies? || e.SettleLands?)
    ensures Networked(w, Next(w, e))
  {
    var n := Next(w, e);
    if e.SettleLands? {
      assert Sent(e.request.runId, e.request.amount, e.request.journaled) in w.sent;
    }
  }

  lemma NetworkOk(w: World, e: Event)
    requires Inv(w) && Possible(w, e) && (e.ReserveLands? || e.ReserveReplies? || e.SettleLands?)
    ensures Inv(Next(w, e))
  {
    hide EntriesOk, OpenOk, PastOk, SentOk, OpsOk, CallsOk, RecoveryOk, Relax, Networked, Possible;
    var n := Next(w, e);
    NetworkShape(w, e);
    NetworkOpen(w, n);
    NetworkSent(w, n);
    NetworkRelax(w, n);
    SameOpsRelax(w, n);
    CallsRelax(w, n);
    OldRunsRest(w, n);
  }

  /** A reservation lands whose process died: it is journaled, or lost. */
  lemma StrayOpen(w: World, r: RunId)
    requires EntriesOk(w) && OpenOk(w) && PastOk(w) && Possible(w, StrayLands(r))
    ensures var n := Stray(w, r); EntriesOk(n) && OpenOk(n) && PastOk(n)
  {
    hide Journal, DistinctRuns;
  }

  lemma StraySent(w: World, r: RunId)
    requires SentOk(w) && Possible(w, StrayLands(r))
    ensures SentOk(Stray(w, r))
  {
  }

  lemma StrayRelax(w: World, r: RunId)
    requires EntriesOk(w) && OpenOk(w) && Possible(w, StrayLands(r))
    ensures Relax(w, Stray(w, r))
  {
    hide Journal, DistinctRuns;
  }

  lemma StrayOk(w: World, r: RunId)
    requires Inv(w) && Possible(w, StrayLands(r))
    ensures Inv(Stray(w, r))
  {
    hide EntriesOk, OpenOk, PastOk, SentOk, OpsOk, CallsOk, RecoveryOk, Relax;
    var n := Stray(w, r);
    StrayOpen(w, r);
    StraySent(w, r);
    StrayRelax(w, r);
    SameOpsRelax(w, n);
    CallsRelax(w, n);
    OldRunsRest(w, n);
  }

  // ---------------------------------------------------------------- crash

  lemma {:induction false} ReloadedFacts(disk: seq<Entry>)
    requires forall i, j :: 0 <= i < j < |disk| ==> disk[i].runId != disk[j].runId
    ensures forall i :: 0 <= i < |disk| ==> disk[i].runId in Reloaded(disk) && Reloaded(disk)[disk[i].runId] == disk[i]
    ensures forall r :: r in Reloaded(disk) ==> exists i :: 0 <= i < |disk| && disk[i].runId == r && disk[i] == Reloaded(disk)[r]
    decreases |disk|
  {
    if disk != [] {
      ReloadedFacts(disk[..|disk| - 1]);
    }
  }

  lemma ReloadedJournal(w: World)
    requires EntriesOk(w)
    ensures RunIds(w.disk) == w.entries && Journal(Reloaded(w.disk), RunIds(w.disk)) == w.disk
    ensures forall r :: r in Reloaded(w.disk) <==> r in w.entries
    ensures forall r :: r in w.entries ==> Reloaded(w.disk)[r] == w.cells[r]
  {
    forall i | 0 <= i < |w.disk| ensures w.disk[i].runId == w.entries[i] && w.disk[i] == w.cells[w.entries[i]] {
      assert w.entries[i] in w.entries;
    }
    ReloadedFacts(w.disk);
    assert RunIds(w.disk) == w.entries;
  }

  lemma CrashedBooks(w: World)
    requires EntriesOk(w) && OpenOk(w)
    ensures EntriesOk(Restarted(w)) && OpenOk(Restarted(w))
  {
    hide Reloaded, RunIds, Journal, Adrift;
    ReloadedJournal(w);
  }

  lemma CrashedPast(w: World)
    requires EntriesOk(w) && OpenOk(w) && PastOk(w)
    ensures PastOk(Restarted(w))
  {
    hide Reloaded, RunIds, Journal;
    ReloadedJournal(w);
    assert forall r :: r in Adrift(w) ==> r in w.past.adrift || Flying(w, r);
  }

  lemma CrashedSent(w: World)
    requires EntriesOk(w) && SentOk(w)
    ensures SentOk(Restarted(w))
  {
    hide Reloaded, RunIds, Journal, Adrift;
    ReloadedJournal(w);
  }

  lemma CrashedRecovery(w: World)
    requires EntriesOk(w)
    ensures RecoveryOk(Restarted(w))
  {
    hide Reloaded, RunIds, Journal, Adrift;
    ReloadedJournal(w);
  }

  lemma CrashOk(w: World)
    requires Inv(w)
    ensures Inv(Restarted(w))
  {
    hide EntriesOk, OpenOk, PastOk, SentOk, OpsOk, CallsOk, RecoveryOk, Reloaded, RunIds, Journal, Adrift;
    CrashedBooks(w);
    CrashedPast(w);
    CrashedSent(w);
    CrashedRecovery(w);
    Idle(Restarted(w));
  }

  lemma Idle(n: World)
    requires n.ops == map[] && n.settling == map[] && n.calls == map[]
    ensures OpsOk(n) && CallsOk(n)
  {
  }

  // ---------------------------------------------------------------- all steps

  lemma NewCallOk(w: World, e: Event)
    requires Inv(w) && (e.CallBegin? || e.CallReleaseSession? || e.CallEnded?)
    ensures Inv(Next(w, e))
  {
    var n := Next(w, e);
    assert CallOk(n, n.calls[w.nextId]) by {
      assert forall r :: Flying(n, r) ==> CellOf(n.cells, r) == n.cells[r];
    }
    hide Inv, CallOk;
    CallStepOk(w, n, w.nextId);
  }

  lemma CallReleaseOk(w: World, r: RunId)
    requires Inv(w) && Possible(w, CallRelease(r))
    ensures Inv(StartRelease(w, r).0)
  {
    hide Inv, StartRelease;
    var c :| c in w.calls && w.calls[c].Begin? && w.calls[c].stage == Admitted(r);
    CallHere(w, c);
    StartReleaseOk(w, r);
  }

  /** Every step a polite caller and this network can take keeps the invariant. */
  lemma NextOk(w: World, e: Event)
    requires Inv(w) && Possible(w, e) && Polite(w, e)
    ensures Inv(Next(w, e))
  {
    hide Inv, StartRelease, TurnStep, SessionPending, SessionDone, Start, ContinueRelease, FinallyRelease, Restarted, Stray;
    hide LoopTurn;
    match e
    case CallBegin(_, _, _, _) => NewCallOk(w, e);
    case ResumeBegin(c) => BeginOk(w, c);
    case CallRelease(r) => CallReleaseOk(w, r);
    case CallReleaseSession(_) => NewCallOk(w, e);
    case ResumeSession(c) =>
      if w.calls[c].session.AtPending? {
        SessionPendingOk(w, c);
      } else {
        SessionDoneOk(w, c);
      }
    case CallEnded(_, _) => NewCallOk(w, e);
    case ResumeEnded(c) => TurnStepOk(w, c);
    case Started(s, t) => StartOk(w, s, t);
    case Recover => RecoverOk(w);
    case Continue(o) => ContinueOk(w, o);
    case Finally(o) => FinallyOk(w, o);
    case ReserveLands(_) => NetworkOk(w, e);
    case ReserveReplies(_, _) => NetworkOk(w, e);
    case StrayLands(r) => StrayOk(w, r);
    case SettleLands(_) => NetworkOk(w, e);
    case SettleReplies(o, answer) => AnswerOk(w, o, answer);
    case Crash => CrashOk(w);
  }
}
