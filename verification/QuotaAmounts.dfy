/** What a run is charged, told from the calls alone: who asked for it, and when its turn was reported. */
module QuotaAmounts {
  import opened Common
  import opened QuotaModel
  import opened QuotaProofs
  import opened QuotaTheorems

  /** A `begin`, as it was called. */
  datatype Asked = Asked(sessionId: SessionId, units: nat, turn: Option<TurnId>, engine: Option<Engine>)

  /** A run, as it was asked for, and the turn it has been given since. */
  datatype Story = Story(sessionId: SessionId, units: nat, engine: Option<Engine>, turn: Option<TurnId>)

  datatype Tale = Tale(begins: map<CallId, Asked>, stories: map<RunId, Story>)

  /** The run's settlement has begun: a settle request was sent for it while it was in the journal. */
  ghost predicate Closed(sent: set<Sent>, r: RunId) {
    exists a :: Sent(r, a, true) in sent
  }

  /** A reservation is on its way for a run that did not exist before. */
  predicate Makes(w: World, n: World) {
    Flying(n, w.nextId)
  }

  /** `started` gives its turn to the runs of its session that have none and whose settlement has not begun. */
  ghost function Given(sent: set<Sent>, stories: map<RunId, Story>, s: SessionId, t: TurnId): map<RunId, Story> {
    map r | r in stories ::
      if stories[r].sessionId == s && stories[r].turn.None? && !Closed(sent, r) then stories[r].(turn := Some(t))
      else stories[r]
  }

  ghost function Told(t: Tale, w: World, e: Event): Tale
    requires Possible(w, e)
  {
    match e
    case CallBegin(s, units, turn, engine) => t.(begins := t.begins[w.nextId := Asked(s, units, turn, engine)])
    case ResumeBegin(c) =>
      if c in t.begins && Makes(w, Next(w, e)) then
        var asked := t.begins[c];
        t.(stories := t.stories[w.nextId := Story(asked.sessionId, asked.units, asked.engine, asked.turn)])
      else t
    case Started(s, turn) => t.(stories := Given(w.sent, t.stories, s, turn))
    case _ => t
  }

  ghost function Tell(t: Tale, w: World, events: seq<Event>): Tale
    decreases |events|
  {
    if events == [] || !Possible(w, events[0]) then t else Tell(Told(t, w, events[0]), Next(w, events[0]), events[1..])
  }

  /** What a run costs: its estimate if it is one of the ACP engine and got a turn before its settlement began. */
  function Due(story: Story): nat {
    if story.engine == Some(Acp) && story.turn.Some? then story.units else 0
  }

  // ---------------------------------------------------------------- the tale fits the world

  ghost predicate CallsFit(w: World, t: Tale) {
    forall c :: c in w.calls && w.calls[c].Begin? ==>
      c in t.begins && t.begins[c] == Asked(w.calls[c].sessionId, w.calls[c].units, w.calls[c].turn, w.calls[c].engine)
  }

  ghost predicate EntryFits(w: World, t: Tale, r: RunId) {
    r in w.cells && r in t.stories &&
    var story := t.stories[r];
    w.cells[r] == Entry(r, story.sessionId, story.engine, Some(story.units), story.turn, w.cells[r].finished) &&
    (w.cells[r].finished <==> Closed(w.sent, r))
  }

  ghost predicate EntriesFit(w: World, t: Tale) {
    forall r :: r in w.entries ==> EntryFits(w, t, r)
  }

  ghost predicate SentFit(w: World, t: Tale) {
    forall x :: x in w.sent && x.journaled ==> x.runId in t.stories && x.amount == Due(t.stories[x.runId])
  }

  ghost predicate LedgerFit(w: World, t: Tale) {
    (forall r :: r in w.ledger && w.ledger[r].Reserved? ==> r in t.stories && w.ledger[r].units == t.stories[r].units) &&
    (forall r :: r in w.past.adrift ==> r in t.stories && w.past.adrift[r] == t.stories[r].units) &&
    forall r :: r in t.stories ==> r < w.nextId
  }

  ghost predicate Fits(w: World, t: Tale) {
    CallsFit(w, t) && EntriesFit(w, t) && SentFit(w, t) && LedgerFit(w, t)
  }

  // ---------------------------------------------------------------- steps that make no run and give no turn

  ghost predicate KeepsCalls(w: World, n: World) {
    forall c :: c in n.calls && n.calls[c].Begin? ==>
      c in w.calls && w.calls[c].Begin? && n.calls[c] == w.calls[c].(stage := n.calls[c].stage)
  }

  ghost predicate KeepsEntry(w: World, n: World, r: RunId) {
    r in w.cells && r in n.cells && n.cells[r] == w.cells[r].(finished := n.cells[r].finished) &&
    ((w.cells[r].finished <==> Closed(w.sent, r)) ==> (n.cells[r].finished <==> Closed(n.sent, r)))
  }

  /** Runs may begin to be settled, at what their entries say. */
  ghost predicate KeepsBooks(w: World, n: World) {
    (forall r :: r in n.entries ==> r in w.entries && KeepsEntry(w, n, r)) && w.sent <= n.sent &&
    (forall x :: x in n.sent && x.journaled && x !in w.sent ==>
       x.runId in w.entries && x.runId in w.cells && x.amount == Amount(w.cells[x.runId])) &&
    n.ledger == w.ledger && n.past.adrift == w.past.adrift && w.nextId <= n.nextId
  }

  lemma KeepsFits(w: World, n: World, t: Tale)
    requires Fits(w, t) && KeepsCalls(w, n) && KeepsBooks(w, n)
    ensures Fits(n, t)
  {
    forall r | r in n.entries ensures EntryFits(n, t, r) {
      assert EntryFits(w, t, r) && KeepsEntry(w, n, r);
      ClosedMore(w.sent, n.sent, r);
    }
    forall x | x in n.sent && x.journaled ensures x.runId in t.stories && x.amount == Due(t.stories[x.runId]) {
      if x !in w.sent {
        assert EntryFits(w, t, x.runId);
      }
    }
  }

  lemma ClosedMore(a: set<Sent>, b: set<Sent>, r: RunId)
    requires a <= b
    ensures Closed(a, r) ==> Closed(b, r)
  {
  }

  lemma BooksTrans(a: World, b: World, c: World)
    requires KeepsBooks(a, b) && KeepsBooks(b, c)
    ensures KeepsBooks(a, c)
  {
    forall r | r in c.entries ensures r in a.entries && KeepsEntry(a, c, r) {
      assert KeepsEntry(b, c, r) && KeepsEntry(a, b, r);
      ClosedMore(a.sent, b.sent, r);
      ClosedMore(b.sent, c.sent, r);
    }
    forall x | x in c.sent && x.journaled && x !in a.sent
      ensures x.runId in a.entries && x.runId in a.cells && x.amount == Amount(a.cells[x.runId])
    {
      if x !in b.sent {
        assert KeepsEntry(a, b, x.runId);
      }
    }
  }

  /** What releases leave alone. */
  predicate Beside(w: World, n: World) {
    n.calls == w.calls && n.reserving == w.reserving
  }

  lemma StartReleaseBooks(w: World, r: RunId)
    requires EntriesOk(w)
    ensures var n := StartRelease(w, r).0; KeepsBooks(w, n) && Beside(w, n) && EntriesOk(n)
  {
    hide StartRelease, Journal, Amount;
    StartReleaseShape(w, r);
    var n := StartRelease(w, r).0;
    if Marks(w, r) {
      assert Closed(n.sent, r) by { assert Sent(r, Amount(w.cells[r]), true) in n.sent; }
      forall x | x != r && Closed(n.sent, x) ensures Closed(w.sent, x) {
        var a :| Sent(x, a, true) in n.sent;
      }
    } else {
      forall x | Closed(n.sent, x) ensures Closed(w.sent, x) {
        var a :| Sent(x, a, true) in n.sent;
      }
    }
  }

  lemma {:induction false} ReleaseAllBooks(w: World, runs: seq<RunId>)
    requires EntriesOk(w)
    ensures var n := ReleaseAll(w, runs).0;
            KeepsBooks(w, n) && Beside(w, n) && EntriesOk(n)
    decreases |runs|
  {
    hide EntriesOk, KeepsBooks, StartRelease;
    if runs == [] {
      SameBooksKept(w, w);
    } else {
      StartReleaseBooks(w, runs[0]);
      var next := StartRelease(w, runs[0]).0;
      ReleaseAllBooks(next, runs[1..]);
      BooksTrans(w, next, ReleaseAll(next, runs[1..]).0);
    }
  }

  lemma SameBooksKept(w: World, n: World)
    requires EntriesOk(w) && n.cells == w.cells && n.entries == w.entries && n.sent == w.sent && n.ledger == w.ledger
    requires n.past.adrift == w.past.adrift && w.nextId <= n.nextId
    ensures KeepsBooks(w, n)
  {
  }

  lemma LoopTurnBooks(w: World, loop: LoopStage, chosen: bool)
    requires EntriesOk(w)
    ensures var n := LoopTurn(w, loop, chosen).0; KeepsBooks(w, n) && Beside(w, n)
  {
    hide EntriesOk, KeepsBooks, StartRelease;
    if loop.Looping? && loop.rest != [] {
      StartReleaseBooks(w, loop.rest[0]);
    }
    SameBooksKept(w, w);
  }

  /** A step that makes no run and gives no turn. */
  ghost predicate Quietly(w: World, n: World) {
    KeepsCalls(w, n) && KeepsBooks(w, n) && !Makes(w, n)
  }

  lemma NothingMade(w: World, n: World)
    requires Inv(w) && n.reserving == w.reserving
    ensures !Makes(w, n)
  {
    hide PastOk, SentOk, OpsOk, CallsOk, RecoveryOk, Journal;
    assert Flying(n, w.nextId) ==> Flying(w, w.nextId);
  }

  /** Releases begin, and a call moves on after them. */
  lemma MovesOn(w: World, m: World, n: World, c: CallId)
    requires Inv(w) && KeepsBooks(w, m) && Beside(w, m) && c in w.calls && c in n.calls && n.calls == w.calls[c := n.calls[c]]
    requires n.cells == m.cells && n.entries == m.entries && n.sent == m.sent && n.ledger == m.ledger && n.past == m.past
    requires n.reserving == m.reserving && m.nextId <= n.nextId
    requires n.calls[c].Begin? ==> w.calls[c].Begin? && n.calls[c] == w.calls[c].(stage := n.calls[c].stage)
    ensures Quietly(w, n)
  {
    NothingMade(w, n);
    hide Inv;
  }

  /** Likewise when no call moves on. */
  lemma GoesOn(w: World, m: World, n: World)
    requires Inv(w) && KeepsBooks(w, m) && Beside(w, m) && n.calls == m.calls
    requires n.cells == m.cells && n.entries == m.entries && n.sent == m.sent && n.ledger == m.ledger
    requires n.past.adrift == m.past.adrift && n.reserving == m.reserving && m.nextId <= n.nextId
    ensures Quietly(w, n)
  {
    NothingMade(w, n);
    hide Inv;
  }

  lemma EntriesHold(w: World)
    requires Inv(w)
    ensures EntriesOk(w) && KeepsBooks(w, w)
  {
    SameBooksKept(w, w);
  }

  // ---------------------------------------------------------------- begin

  /** A new run with a fresh id, unfinished, and as its call asked. */
  ghost predicate MakesRun(w: World, n: World, c: CallId) {
    var r := w.nextId;
    c in w.calls && w.calls[c].Begin? && KeepsCalls(w, n) && Flying(n, r) &&
    n.cells == w.cells[r := Entry(r, w.calls[c].sessionId, w.calls[c].engine, Some(w.calls[c].units), w.calls[c].turn, false)] &&
    n.entries == w.entries + [r] && n.sent == w.sent && n.ledger == w.ledger && n.past == w.past && n.nextId == r + 1
  }

  lemma MadeFits(w: World, n: World, c: CallId, t: Tale)
    requires Inv(w) && Fits(w, t) && MakesRun(w, n, c) && c in t.begins
    ensures var asked := t.begins[c];
            Fits(n, t.(stories := t.stories[w.nextId := Story(asked.sessionId, asked.units, asked.engine, asked.turn)]))
  {
    hide OpsOk, CallsOk, RecoveryOk, Journal, PastOk;
    var asked, r := t.begins[c], w.nextId;
    var told := t.(stories := t.stories[r := Story(asked.sessionId, asked.units, asked.engine, asked.turn)]);
    assert r !in t.stories && !Closed(w.sent, r);
    forall x | x in n.entries ensures EntryFits(n, told, x) {
      if x != r {
        assert x in w.entries && EntryFits(w, t, x);
      }
    }
  }

  lemma BeginKeeps(w: World, c: CallId)
    requires Inv(w) && Possible(w, ResumeBegin(c))
    ensures var n := Next(w, ResumeBegin(c)); MakesRun(w, n, c) || Quietly(w, n)
  {
    hide Inv, MakesRun, Quietly, BeginReady, BeginSettled, BeginDrain, BeginReserved, BeginCleaned;
    match w.calls[c].stage {
      case AtReady => ReadyKeeps(w, c);
      case AtSettling(_) => SettlingKeeps(w, c);
      case AtDrain(_, _) => DrainKeeps(w, c);
      case AtReserve(_) => ReservedKeeps(w, c);
      case AtCleanup(_, _) => CleanedKeeps(w, c);
    }
  }

  lemma StageKeeps(w: World, c: CallId, stage: BeginStage)
    requires Inv(w) && c in w.calls && w.calls[c].Begin?
    ensures Quietly(w, SetStage(w, c, stage)) && Quietly(w, w)
  {
    hide Inv, Quietly, KeepsBooks;
    EntriesHold(w);
    MovesOn(w, w, SetStage(w, c, stage), c);
    GoesOn(w, w, w);
  }

  lemma ReadyKeeps(w: World, c: CallId)
    requires Inv(w) && c in w.calls && w.calls[c].Begin? && w.ready.Ended?
    ensures Quietly(w, BeginReady(w, c))
  {
    hide Inv, Quietly, SetStage;
    StageKeeps(w, c, Refused);
    StageKeeps(w, c, AtSettling(w.settling.Values));
  }

  lemma SettlingKeeps(w: World, c: CallId)
    requires Inv(w) && c in w.calls && w.calls[c].Begin? && w.calls[c].stage.AtSettling?
    ensures Quietly(w, BeginSettled(w, c))
  {
    hide Inv, Quietly, SetStage, OpDone, OpOk;
    StageKeeps(w, c, Refused);
    StageKeeps(w, c, AtDrain(w.entries, None));
  }

  lemma DrainKeeps(w: World, c: CallId)
    requires Inv(w) && c in w.calls && w.calls[c].Begin? && w.calls[c].stage.AtDrain?
    ensures var n := BeginDrain(w, c); MakesRun(w, n, c) || Quietly(w, n)
  {
    hide Inv, Quietly, KeepsBooks, LoopTurn, MakesRun, BeginReserve;
    EntriesHold(w);
    var call := w.calls[c];
    var finished := call.stage.rest != [] && CellOf(w.cells, call.stage.rest[0]).finished;
    var (next, loop) := LoopTurn(w, Looping(call.stage.rest, call.stage.waiting), finished);
    LoopTurnBooks(w, Looping(call.stage.rest, call.stage.waiting), finished);
    if loop.Ended? && loop.ok && call.sessionId !in w.released {
      ReserveMakes(w, c);
    } else {
      MovesOn(w, next, BeginDrain(w, c), c);
    }
  }

  lemma ReserveMakes(w: World, c: CallId)
    requires c in w.calls && w.calls[c].Begin?
    ensures MakesRun(w, BeginReserve(w, c), c)
  {
    hide Journal, PendingOf;
  }

  lemma ReservedKeeps(w: World, c: CallId)
    requires Inv(w) && c in w.calls && w.calls[c].Begin? && w.calls[c].stage.AtReserve?
    requires w.calls[c].stage.runId in w.reserving && !w.reserving[w.calls[c].stage.runId].InFlight?
    ensures Quietly(w, BeginReserved(w, c))
  {
    hide Inv, Quietly, KeepsBooks, StartRelease, PendingOf;
    EntriesHold(w);
    var r := w.calls[c].stage.runId;
    StartReleaseBooks(w, r);
    MovesOn(w, if w.reserving[r].Failed? then StartRelease(w, r).0 else w, BeginReserved(w, c), c);
  }

  lemma CleanedKeeps(w: World, c: CallId)
    requires Inv(w) && c in w.calls && w.calls[c].Begin? && w.calls[c].stage.AtCleanup?
    ensures Quietly(w, BeginCleaned(w, c))
  {
    hide Inv, Quietly, KeepsBooks, PendingOf;
    EntriesHold(w);
    MovesOn(w, w, BeginCleaned(w, c), c);
  }

  // ---------------------------------------------------------------- the other steps

  lemma PendingKeeps(w: World, c: CallId)
    requires Inv(w) && c in w.calls && w.calls[c].CloseSession? && w.calls[c].session.AtPending?
    ensures Quietly(w, SessionPending(w, c))
  {
    hide Inv, Quietly, KeepsBooks, ReleaseAll, OfSession, Flying;
    EntriesHold(w);
    GoesOn(w, w, w);
    var runs := OfSession(w, w.entries, w.calls[c].sessionId);
    ReleaseAllBooks(w, runs);
    var (next, ops) := ReleaseAll(w, runs);
    MovesOn(w, next, SetCall(next, c, w.calls[c].(session := AtReleases(ops))), c);
  }

  lemma DoneKeeps(w: World, c: CallId)
    requires Inv(w) && c in w.calls && w.calls[c].CloseSession? && w.calls[c].session.AtReleases?
    ensures Quietly(w, SessionDone(w, c))
  {
    hide Inv, Quietly, KeepsBooks, OpDone, OpOk;
    EntriesHold(w);
    GoesOn(w, w, w);
    MovesOn(w, w, SetCall(w, c, w.calls[c].(session := Done(true))), c);
    MovesOn(w, w, SetCall(w, c, w.calls[c].(session := Done(false))), c);
  }

  lemma EndedKeeps(w: World, c: CallId)
    requires Inv(w) && c in w.calls && w.calls[c].CloseTurn?
    ensures Quietly(w, TurnStep(w, c))
  {
    hide Inv, Quietly, KeepsBooks, LoopTurn, TurnMatches;
    EntriesHold(w);
    LoopTurnBooks(w, w.calls[c].loop, TurnMatches(w, w.calls[c]));
    MovesOn(w, LoopTurn(w, w.calls[c].loop, TurnMatches(w, w.calls[c])).0, TurnStep(w, c), c);
  }

  lemma RecoverKeeps(w: World)
    requires Inv(w) && Possible(w, Recover)
    ensures Quietly(w, Next(w, Recover))
  {
    hide Inv, Quietly, KeepsBooks, LoopTurn;
    EntriesHold(w);
    LoopTurnBooks(w, w.ready, true);
    GoesOn(w, LoopTurn(w, w.ready, true).0, Next(w, Recover));
  }

  lemma ReleaseKeeps(w: World, r: RunId)
    requires Inv(w)
    ensures Quietly(w, StartRelease(w, r).0)
  {
    hide Inv, Quietly, KeepsBooks, StartRelease;
    EntriesHold(w);
    StartReleaseBooks(w, r);
    GoesOn(w, StartRelease(w, r).0, StartRelease(w, r).0);
  }

  lemma ContinueKeepsBooks(w: World, o: OpId)
    requires Inv(w) && o in w.ops && w.ops[o].phase.Answered?
    ensures Quietly(w, ContinueRelease(w, o))
  {
    hide Inv, KeepsBooks, KeepsCalls, Quietly, Spliced, Forgets, Removed, Journal;
    EntriesHold(w);
    OpHere(w, o);
    var n := ContinueRelease(w, o);
    if w.ops[o].phase.answer.Broken? {
      GoesOn(w, w, n);
    } else {
      ContinueShape(w, o);
      hide ContinueRelease;
      CallsKept(w, n, 0);
      SplicedBooks(w, n, w.ops[o].runId);
      QuietlyIs(w, n);
    }
  }

  lemma SplicedBooks(w: World, n: World, r: RunId)
    requires EntriesOk(w) && Spliced(w, n, r) && Forgets(w, n, r)
    ensures KeepsBooks(w, n) && n.reserving == w.reserving
  {
    hide Journal, IsOpen;
  }

  lemma QuietlyIs(w: World, n: World)
    requires Inv(w) && KeepsCalls(w, n) && KeepsBooks(w, n) && n.reserving == w.reserving
    ensures Quietly(w, n)
  {
    hide Inv, KeepsBooks, KeepsCalls;
    NothingMade(w, n);
  }

  lemma WaitsKeeps(w: World, n: World)
    requires Inv(w) && n.cells == w.cells && n.entries == w.entries && n.sent == w.sent && n.ledger == w.ledger
    requires n.past.adrift == w.past.adrift && w.nextId <= n.nextId && n.reserving == w.reserving
    requires KeepsCalls(w, n)
    ensures Quietly(w, n)
  {
    hide Inv, KeepsBooks, KeepsCalls;
    EntriesHold(w);
    NothingMade(w, n);
    SameBooksKeptHere(w, n);
  }

  lemma SameBooksKeptHere(w: World, n: World)
    requires Inv(w) && n.cells == w.cells && n.entries == w.entries && n.sent == w.sent && n.ledger == w.ledger
    requires n.past.adrift == w.past.adrift && w.nextId <= n.nextId
    ensures KeepsBooks(w, n)
  {
    hide KeepsBooks;
    SameBooksKept(w, n);
  }

  lemma CallsKept(w: World, n: World, c: CallId)
    requires n.calls == w.calls || (c in n.calls && !n.calls[c].Begin? && n.calls == w.calls[c := n.calls[c]])
    ensures KeepsCalls(w, n)
  {
  }

  /** Steps of promises and of callers that only wait. */
  lemma OtherKeeps(w: World, e: Event)
    requires Inv(w) && Possible(w, e)
    requires e.Finally? || e.SettleReplies? || e.CallReleaseSession? || e.CallEnded?
    ensures Quietly(w, Next(w, e))
  {
    hide Inv, Quietly, KeepsBooks, KeepsCalls, PendingOf;
    CallsKept(w, Next(w, e), w.nextId);
    WaitsKeeps(w, Next(w, e));
  }

  // ---------------------------------------------------------------- every step

  lemma QuietFits(w: World, n: World, t: Tale)
    requires Fits(w, t) && Quietly(w, n)
    ensures Fits(n, t)
  {
    hide Fits, KeepsCalls, KeepsBooks;
    KeepsFits(w, n, t);
  }

  lemma BeginFits(w: World, c: CallId, t: Tale)
    requires Inv(w) && Fits(w, t) && Possible(w, ResumeBegin(c))
    ensures Fits(Next(w, ResumeBegin(c)), Told(t, w, ResumeBegin(c)))
  {
    BeginKeeps(w, c);
    var n := Next(w, ResumeBegin(c));
    if MakesRun(w, n, c) {
      assert c in t.begins;
      MadeFits(w, n, c, t);
    } else {
      QuietFits(w, n, t);
    }
    hide Next, Fits, Inv, KeepsBooks, KeepsCalls;
  }

  lemma CallFits(w: World, s: SessionId, units: nat, turn: Option<TurnId>, engine: Option<Engine>, t: Tale)
    requires Fits(w, t)
    ensures var e := CallBegin(s, units, turn, engine); Fits(Next(w, e), Told(t, w, e))
  {
    var e := CallBegin(s, units, turn, engine);
    var n, told := Next(w, e), Told(t, w, e);
    forall r | r in n.entries ensures EntryFits(n, told, r) {
      assert EntryFits(w, t, r);
    }
  }

  lemma StartedFits(w: World, s: SessionId, turn: TurnId, t: Tale)
    requires Fits(w, t)
    ensures Fits(Start(w, s, turn), t.(stories := Given(w.sent, t.stories, s, turn)))
  {
    hide Journal, Closed;
    var n, told := Start(w, s, turn), t.(stories := Given(w.sent, t.stories, s, turn));
    forall r | r in n.entries ensures EntryFits(n, told, r) {
      assert EntryFits(w, t, r);
    }
    forall x | x in n.sent && x.journaled ensures x.runId in told.stories && x.amount == Due(told.stories[x.runId]) {
      SentCloses(w.sent, x);
    }
  }

  lemma SentCloses(sent: set<Sent>, x: Sent)
    requires x in sent && x.journaled
    ensures Closed(sent, x.runId)
  {
    assert x == Sent(x.runId, x.amount, true);
  }

  lemma LandsFits(w: World, r: RunId, t: Tale)
    requires Inv(w) && Fits(w, t) && Flying(w, r)
    ensures Fits(w.(ledger := w.ledger[r := Reserved(UnitsOf(w, r))]), t)
  {
    hide EntriesOk, PastOk, SentOk, OpsOk, CallsOk, RecoveryOk, PendingOf, Closed;
    var n := w.(ledger := w.ledger[r := Reserved(UnitsOf(w, r))]);
    assert EntryFits(w, t, r);
    SameEntries(w, n, t);
  }

  lemma SameEntries(w: World, n: World, t: Tale)
    requires EntriesFit(w, t) && n.entries == w.entries && n.cells == w.cells && n.sent == w.sent
    ensures EntriesFit(n, t)
  {
    hide Closed;
    forall r | r in n.entries ensures EntryFits(n, t, r) {
      assert EntryFits(w, t, r);
    }
  }

  lemma StrayFits(w: World, r: RunId, t: Tale)
    requires Fits(w, t) && r in w.past.adrift
    ensures Fits(Stray(w, r), t)
  {
    hide Closed, EntriesFit;
    SameEntries(w, Stray(w, r), t);
  }

  /** Other steps of the ledger and the network. */
  lemma NetworkFits(w: World, n: World, t: Tale)
    requires Fits(w, t) && n == w.(ledger := n.ledger, reserving := n.reserving)
    requires forall r :: r in n.ledger && n.ledger[r].Reserved? ==> r in w.ledger && w.ledger[r] == n.ledger[r]
    ensures Fits(n, t)
  {
    hide Closed, EntriesFit;
    SameEntries(w, n, t);
  }

  lemma CrashFits(w: World, t: Tale)
    requires Inv(w) && Fits(w, t)
    ensures Fits(Restarted(w), t)
  {
    hide PastOk, SentOk, OpsOk, CallsOk, RecoveryOk, PendingOf, Reloaded, RunIds, Journal, DistinctRuns;
    ReloadedJournal(w);
    var n := Restarted(w);
    forall r | r in n.entries ensures EntryFits(n, t, r) {
      assert EntryFits(w, t, r);
    }
    forall r | r in n.past.adrift ensures r in t.stories && n.past.adrift[r] == t.stories[r].units {
      if r !in w.past.adrift {
        assert Flying(w, r) && EntryFits(w, t, r);
      }
    }
  }

  lemma StepFits(w: World, e: Event, t: Tale)
    requires Inv(w) && Fits(w, t) && Possible(w, e)
    ensures Fits(Next(w, e), Told(t, w, e))
  {
    hide Inv, Fits, Quietly, Makes, StartRelease, SessionPending, SessionDone, TurnStep, Start, ContinueRelease, FinallyRelease;
    hide LoopTurn, Restarted, Given, BeginReady, BeginSettled, BeginDrain, BeginReserved, BeginCleaned, Stray;
    var n := Next(w, e);
    match e {
      case CallBegin(s, units, turn, engine) => CallFits(w, s, units, turn, engine, t);
      case ResumeBegin(c) => BeginFits(w, c, t);
      case Started(s, turn) => StartedFits(w, s, turn, t);
      case ReserveLands(r) => LandsFits(w, r, t);
      case StrayLands(r) => StrayFits(w, r, t);
      case SettleLands(_) => NetworkFits(w, n, t);
      case ReserveReplies(_, _) => NetworkFits(w, n, t);
      case Crash => CrashFits(w, t);
      case _ =>
        QuietStep(w, e);
        QuietFits(w, n, t);
    }
  }

  lemma QuietStep(w: World, e: Event)
    requires Inv(w) && Possible(w, e)
    requires e.CallRelease? || e.ResumeSession? || e.ResumeEnded? || e.Recover? || e.Continue? || e.Finally? ||
             e.SettleReplies? || e.CallReleaseSession? || e.CallEnded?
    ensures Quietly(w, Next(w, e))
  {
    hide Inv, Quietly, StartRelease, SessionPending, SessionDone, TurnStep, ContinueRelease, LoopTurn;
    match e
    case CallRelease(r) => ReleaseKeeps(w, r);
    case ResumeSession(c) =>
      if w.calls[c].session.AtPending? {
        PendingKeeps(w, c);
      } else {
        DoneKeeps(w, c);
      }
    case ResumeEnded(c) => EndedKeeps(w, c);
    case Recover => RecoverKeeps(w);
    case Continue(o) => ContinueKeepsBooks(w, o);
    case _ => OtherKeeps(w, e);
  }

  // ---------------------------------------------------------------- what is charged

  const NOTHING_TOLD := Tale(map[], map[])

  lemma {:induction false} TellFits(w: World, events: seq<Event>, t: Tale)
    requires Inv(w) && Fits(w, t) && Allowed(w, events)
    ensures Fits(Run(w, events), Tell(t, w, events))
    decreases |events|
  {
    hide Inv, Fits, Next, Possible, Polite, Told;
    if events != [] {
      NextOk(w, events[0]);
      StepFits(w, events[0], t);
      TellFits(Next(w, events[0]), events[1..], Told(t, w, events[0]));
    }
  }

  /**
   Over any history: a settle request for a journaled run asks for the estimate its `begin` named, if the engine was ACP
   and a turn was given to it, by that `begin` or by `started` before its settlement began, and for nothing otherwise.
   The ledger reserves the estimate and charges just that, unless the reservation was lost.
   */
  lemma AmountIsDue(configured: bool, events: seq<Event>, r: RunId, amount: nat)
    requires Allowed(Fresh(configured), events)
    ensures var w, stories := Run(Fresh(configured), events), Tell(NOTHING_TOLD, Fresh(configured), events).stories;
            (Sent(r, amount, true) in w.sent ==> r in stories && amount == Due(stories[r])) &&
            (r in w.ledger && w.ledger[r].Settled? && r !in w.past.lost ==>
               r in stories && w.ledger[r] == Settled(Due(stories[r]))) &&
            (r in w.ledger && w.ledger[r].Reserved? ==> r in stories && w.ledger[r] == Reserved(stories[r].units))
  {
    hide Run, Tell, Inv, Fits, Allowed, Fresh, Due;
    FreshFits(configured);
    RunOk(Fresh(configured), events);
    TellFits(Fresh(configured), events, NOTHING_TOLD);
    var w := Run(Fresh(configured), events);
    ChargedWasSent(w, r);
    FitsAt(w, Tell(NOTHING_TOLD, Fresh(configured), events), r, amount);
  }

  lemma FreshFits(configured: bool)
    ensures Inv(Fresh(configured)) && Fits(Fresh(configured), NOTHING_TOLD)
  {
    FreshOk(configured);
  }

  lemma FitsAt(w: World, t: Tale, r: RunId, amount: nat)
    requires Fits(w, t)
    ensures Sent(r, amount, true) in w.sent ==> r in t.stories && amount == Due(t.stories[r])
    ensures r in w.ledger && w.ledger[r].Settled? && Sent(r, w.ledger[r].amount, true) in w.sent ==>
              r in t.stories && w.ledger[r] == Settled(Due(t.stories[r]))
    ensures r in w.ledger && w.ledger[r].Reserved? ==> r in t.stories && w.ledger[r] == Reserved(t.stories[r].units)
  {
    hide CallsFit, EntriesFit, Due;
  }

  lemma ChargedWasSent(w: World, r: RunId)
    requires Inv(w)
    ensures r in w.ledger && w.ledger[r].Settled? && r !in w.past.lost ==> Sent(r, w.ledger[r].amount, true) in w.sent
  {
    hide EntriesOk, OpenOk, PastOk, OpsOk, CallsOk, RecoveryOk, Amount;
  }
}
