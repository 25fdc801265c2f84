/** What shared turns guarantee over every interleaving, with crashes at any point. */
module SharedTurnTheorems {
  import opened Common
  import opened SharedTurnModel
  import opened SharedTurns

  const FRESH := World(map[], map[], {}, map[], Idle, map[], map[], map[], {}, {}, {}, map[], 0)

  /** Events that can happen one after the other. */
  ghost predicate Allowed(w: World, events: seq<Event>)
    decreases |events|
  {
    events == [] || (Possible(w, events[0]) && Allowed(Next(w, events[0]), events[1..]))
  }

  /** A ledger that always tells whether a run was claimed. */
  predicate AllTelling(events: seq<Event>) {
    forall i :: 0 <= i < |events| ==> Telling(events[i])
  }

  function Run(w: World, events: seq<Event>): World
    decreases |events|
  {
    if events == [] then w else if Possible(w, events[0]) then Run(Next(w, events[0]), events[1..]) else w
  }

  lemma {:induction false} RunOk(w: World, events: seq<Event>)
    requires Inv(w) && Allowed(w, events)
    ensures Inv(Run(w, events))
    decreases |events|
  {
    hide Inv, Next, Possible;
    if events != [] {
      NextOk(w, events[0]);
      RunOk(Next(w, events[0]), events[1..]);
    }
  }

  lemma ReachableOk(events: seq<Event>)
    requires Allowed(FRESH, events)
    ensures Inv(Run(FRESH, events))
  {
    RunOk(FRESH, events);
  }

  /** Wherever the process dies, a run that was claimed and is not settled is in the journal on disk. */
  lemma ClaimedIsJournaled(events: seq<Event>, r: RunId)
    requires Allowed(FRESH, events)
    ensures var w := Run(FRESH, events); IsClaimed(w, r) && !IsSettled(w, r) ==> r in w.disk && w.disk[r].runId == r
  {
    ReachableOk(events);
    hide ClaimsOk, CallsOk, SentOk, HeldOk, LookOk, Run, Allowed;
    var w := Run(FRESH, events);
    assert FiledOk(w) && JournaledOk(w);
  }

  /** The engine starts at most once per run, in all processes together. */
  lemma EngineOnce(events: seq<Event>, c: CallId, d: CallId)
    requires Allowed(FRESH, events)
    ensures var w := Run(FRESH, events);
            (c in w.engine && d in w.engine && c in w.claims && d in w.claims && w.claims[c].runId == w.claims[d].runId ==>
               c == d) &&
            (c in w.calls && w.calls[c].stage.Claiming? ==> c !in w.engine) &&
            (c in w.engine ==> c in w.claims && IsClaimed(w, w.claims[c].runId))
  {
    ReachableOk(events);
    hide FiledOk, JournaledOk, SentOk, HeldOk, LookOk, Run, Allowed, Filed, Untouched;
    var w := Run(FRESH, events);
    assert c in w.engine ==> WonBy(w, c);
    assert d in w.engine ==> WonBy(w, d);
    assert c in w.calls ==> CallOk(w, c, w.calls[c]);
  }

  /**
   Whatever is sent for a run, in all processes together, but blindly, is one charge, and the ledger charges it unless a
   blind request settled the run.
   */
  lemma OneCharge(events: seq<Event>, x: Request, y: Request)
    requires Allowed(FRESH, events)
    ensures var w := Run(FRESH, events);
            x in w.sent && x !in w.blind ==>
              (y in w.sent && y !in w.blind && x.runId == y.runId ==> x.charge == y.charge) &&
              (IsSettled(w, x.runId) ==>
                 w.ledger[x.runId].settled == Some(x.charge) || Request(x.runId, w.ledger[x.runId].settled.value) in w.blind)
  {
    ReachableOk(events);
    hide FiledOk, JournaledOk, ClaimsOk, CallsOk, HeldOk, LookOk, Run, Allowed;
    var w := Run(FRESH, events);
    assert SentOk(w);
    if x in w.sent && x !in w.blind {
      assert Agrees(w, x.runId, x.charge);
    }
  }

  // ---------------------------------------------------------------- a ledger that tells

  /** Nothing was sent blindly, and nothing will be for the lookup that was answered. */
  predicate NotBlind(w: World) {
    w.blind == {} &&
    (w.reconciler.Looking? && w.reconciler.reply.Some? && w.reconciler.reply.value.Found? ==>
       w.reconciler.reply.value.claimed.Some?)
  }

  lemma NotBlindNext(w: World, e: Event)
    requires NotBlind(w) && Possible(w, e) && Telling(e)
    ensures NotBlind(Next(w, e))
  {
    hide Snapshot, Active, ClaimResult;
    hide Execute, Claimed, Closed, Turn, Looked, Reconciled, Restarted, Conclude;
    match e {
      case Start(r, payer, bytes) => ExecuteSees(w, r, payer, bytes);
      case ClaimReplies(c, lost) => ClaimedSees(w, c, lost);
      case EngineEnds(c, success) => ConcludeSees(w, c, success);
      case SettleReplies(c, ok) => ClosedSees(w, c, ok);
      case ReconcileTurn => TurnSees(w);
      case LookupReplies => LookedSees(w);
      case ReconcileReplies(ok) => ReconciledSees(w, ok);
      case Crash => CrashSees(w);
      case _ =>
    }
  }

  lemma CrashSees(w: World)
    ensures Restarted(w).blind == w.blind && Restarted(w).reconciler == Idle
  {
  }

  lemma ExecuteSees(w: World, r: RunId, payer: nat, bytes: nat)
    ensures Execute(w, r, payer, bytes).blind == w.blind && Execute(w, r, payer, bytes).reconciler == w.reconciler
  {
    hide Snapshot, Active;
  }

  lemma ConcludeSees(w: World, c: CallId, success: bool)
    requires c in w.calls
    ensures Conclude(w, c, success).blind == w.blind && Conclude(w, c, success).reconciler == w.reconciler
  {
    hide Snapshot;
  }

  lemma ClaimedSees(w: World, c: CallId, lost: bool)
    requires Possible(w, ClaimReplies(c, lost))
    ensures Claimed(w, c, lost).blind == w.blind && Claimed(w, c, lost).reconciler == w.reconciler
  {
    hide Conclude, Snapshot;
    ConcludeSees(w, c, false);
  }

  lemma ClosedSees(w: World, c: CallId, ok: bool)
    requires c in w.calls
    ensures Closed(w, c, ok).blind == w.blind && Closed(w, c, ok).reconciler == w.reconciler
  {
    hide Snapshot;
  }

  lemma TurnSees(w: World)
    requires w.reconciler.Turning?
    ensures Turn(w).blind == w.blind && (Turn(w).reconciler.Looking? ==> Turn(w).reconciler.reply.None?)
  {
    TurnMoves(w);
  }

  /** A turn of the loop changes nothing but where reconciliation stands. */
  lemma TurnMoves(w: World)
    requires w.reconciler.Turning?
    ensures Turn(w) == w.(reconciler := Turn(w).reconciler)
    ensures Turn(w).reconciler.Looking? ==> Turn(w).reconciler.reply.None?
  {
    hide Active;
    var rest := w.reconciler.rest;
    if rest != [] {
      if rest[0] in w.cells && Active(w, w.cells[rest[0]].runId) {
        assert Turn(w) == w.(reconciler := Turning(rest[1..]));
      } else {
        assert Turn(w) == w.(reconciler := Looking(rest[0], rest[1..], None));
      }
    }
  }

  lemma LookedSees(w: World)
    requires NotBlind(w) && Possible(w, LookupReplies)
    ensures NotBlind(Looked(w))
  {
    hide Active, Snapshot;
  }

  lemma ReconciledSees(w: World, ok: bool)
    requires Possible(w, ReconcileReplies(ok)) && NotBlind(w)
    ensures NotBlind(Reconciled(w, ok))
  {
    hide Snapshot;
  }

  /** With a ledger that tells nothing is sent blindly. */
  lemma {:induction false} NothingBlind(w: World, events: seq<Event>)
    requires NotBlind(w) && Allowed(w, events) && AllTelling(events)
    ensures NotBlind(Run(w, events))
    decreases |events|
  {
    hide Next, Possible, NotBlind;
    if events != [] {
      NotBlindNext(w, events[0]);
      NothingBlind(Next(w, events[0]), events[1..]);
    }
  }

  lemma QuietOutcomes(w: World, r: RunId, payer: nat, bytes: nat)
    ensures Execute(w, r, payer, bytes).outcomes == w.outcomes
  {
    hide Snapshot, Active;
  }

  lemma RestartedOutcomes(w: World)
    ensures Restarted(w).outcomes == w.outcomes
  {
  }

  lemma ClosedOutcomes(w: World, c: CallId, ok: bool)
    requires c in w.calls
    ensures Closed(w, c, ok).outcomes == w.outcomes
  {
    hide Snapshot;
  }

  lemma TurnOutcomes(w: World)
    requires w.reconciler.Turning?
    ensures Turn(w).outcomes == w.outcomes
  {
    TurnMoves(w);
  }

  lemma LookedOutcomes(w: World)
    requires w.reconciler.Looking? && w.reconciler.reply.Some? && w.reconciler.entry in w.cells
    ensures Looked(w).outcomes == w.outcomes
  {
    hide Release, Active;
    ReleaseOutcomes(w, w.cells[w.reconciler.entry].runId);
  }

  lemma ReleaseOutcomes(w: World, r: RunId)
    ensures Release(w, r).outcomes == w.outcomes
  {
    hide Snapshot;
  }

  lemma ReconciledOutcomes(w: World, ok: bool)
    requires w.reconciler.Settling? && w.reconciler.entry in w.cells
    ensures Reconciled(w, ok).outcomes == w.outcomes
  {
    hide Release;
    ReleaseOutcomes(w, w.cells[w.reconciler.entry].runId);
  }

  lemma ConcludedOutcomes(w: World, c: CallId, success: bool, r: RunId)
    requires Inv(w) && c in w.calls && (w.calls[c].stage.Running? || (w.calls[c].stage.Claiming? && WonBy(w, c))) && r in w.outcomes
    ensures r in Conclude(w, c, success).outcomes && Conclude(w, c, success).outcomes[r] == w.outcomes[r]
  {
    hide FiledOk, JournaledOk, ClaimsOk, SentOk, HeldOk, LookOk, Filed, Snapshot;
    assert CallOk(w, c, w.calls[c]);
  }

  lemma ClaimedOutcomes(w: World, c: CallId, lost: bool, r: RunId)
    requires Inv(w) && Possible(w, ClaimReplies(c, lost)) && r in w.outcomes
    ensures r in Claimed(w, c, lost).outcomes && Claimed(w, c, lost).outcomes[r] == w.outcomes[r]
  {
    hide Inv, Conclude, Snapshot;
    if !lost && w.claims[c].reply == Some(Won) {
      ConcludedOutcomes(w, c, false, r);
    }
  }

  /** An outcome, once recorded, is never replaced. */
  lemma OutcomeStep(w: World, e: Event, r: RunId)
    requires Inv(w) && Possible(w, e) && r in w.outcomes
    ensures r in Next(w, e).outcomes && Next(w, e).outcomes[r] == w.outcomes[r]
  {
    hide Inv, Execute, Claimed, Conclude, Closed, Turn, Looked, Reconciled, Active, ClaimResult, Restarted;
    match e {
      case Start(run, payer, bytes) => QuietOutcomes(w, run, payer, bytes);
      case ClaimReplies(c, lost) => ClaimedOutcomes(w, c, lost, r);
      case EngineEnds(c, success) => ConcludedOutcomes(w, c, success, r);
      case SettleReplies(c, ok) => ClosedOutcomes(w, c, ok);
      case ReconcileTurn => TurnOutcomes(w);
      case LookupReplies => LookedOutcomes(w);
      case ReconcileReplies(ok) => ReconciledOutcomes(w, ok);
      case Crash => RestartedOutcomes(w);
      case _ =>
    }
  }

  lemma {:induction false} OutcomeStays(w: World, events: seq<Event>, r: RunId)
    requires Inv(w) && Allowed(w, events) && r in w.outcomes
    ensures r in Run(w, events).outcomes && Run(w, events).outcomes[r] == w.outcomes[r]
    decreases |events|
  {
    hide Inv, Next, Possible;
    if events != [] {
      OutcomeStep(w, events[0], r);
      NextOk(w, events[0]);
      OutcomeStays(Next(w, events[0]), events[1..], r);
    }
  }

  /**
   A successful run is only ever settled at its estimate, which is not zero, and a failed one only ever at zero,
   whatever is retried, recovered or replayed afterwards, but for blind requests.
   */
  lemma OutcomeIsCharged(events: seq<Event>, c: CallId, success: bool, more: seq<Event>)
    requires Allowed(FRESH, events) && Possible(Run(FRESH, events), EngineEnds(c, success))
    requires Allowed(Next(Run(FRESH, events), EngineEnds(c, success)), more)
    ensures var w := Run(FRESH, events);
            var end := Run(Next(w, EngineEnds(c, success)), more);
            var r := w.calls[c].runId;
            w.calls[c].entry in w.cells &&
            var entry := w.cells[w.calls[c].entry];
            entry.estimated > 0 &&
            var charge := Charge(if success then entry.estimated else 0, entry.payer);
            (forall x :: x in end.sent && x.runId == r ==> x.charge == charge || x in end.blind) &&
            (IsSettled(end, r) ==> end.ledger[r].settled == Some(charge) || Request(r, end.ledger[r].settled.value) in end.blind) &&
            (AllTelling(events) && AllTelling(more) ==> end.blind == {})
  {
    hide Run, Allowed, Next, Inv, NotBlind;
    ReachableOk(events);
    var w := Run(FRESH, events);
    Concluded(w, c, success);
    var n := Next(w, EngineEnds(c, success));
    NextOk(w, EngineEnds(c, success));
    OutcomeStays(n, more, w.calls[c].runId);
    RunOk(n, more);
    OutcomeRules(Run(n, more), w.calls[c].runId);
    if AllTelling(events) && AllTelling(more) {
      FreshSees();
      NothingBlind(FRESH, events);
      NotBlindNext(w, EngineEnds(c, success));
      NothingBlind(n, more);
      SeesNothing(Run(n, more));
    }
  }

  lemma FreshSees()
    ensures NotBlind(FRESH)
  {
  }

  lemma SeesNothing(w: World)
    requires NotBlind(w)
    ensures w.blind == {}
  {
  }

  lemma Concluded(w: World, c: CallId, success: bool)
    requires Inv(w) && Possible(w, EngineEnds(c, success))
    ensures var r := w.calls[c].runId;
            w.calls[c].entry in w.cells &&
            var entry := w.cells[w.calls[c].entry];
            entry.estimated > 0 && r in Next(w, EngineEnds(c, success)).outcomes &&
            Next(w, EngineEnds(c, success)).outcomes[r] == Charge(if success then entry.estimated else 0, entry.payer)
  {
    hide JournaledOk, ClaimsOk, SentOk, HeldOk, LookOk, Snapshot;
    assert CallOk(w, c, w.calls[c]);
  }

  lemma OutcomeRules(w: World, r: RunId)
    requires Inv(w) && r in w.outcomes
    ensures forall x :: x in w.sent && x.runId == r ==> x.charge == w.outcomes[r] || x in w.blind
    ensures IsSettled(w, r) ==> w.ledger[r].settled == Some(w.outcomes[r]) || Request(r, w.ledger[r].settled.value) in w.blind
  {
    hide FiledOk, JournaledOk, ClaimsOk, CallsOk, HeldOk, LookOk;
    assert forall x :: x in w.sent && x !in w.blind ==> Agrees(w, x.runId, x.charge);
  }

  // ---------------------------------------------------------------- why the ledger must tell

  /** A failed run is charged exactly if recovery settled it, for more than nothing, while the ledger left out the claim. */
  lemma FailureChargedIff(events: seq<Event>, r: RunId)
    requires Allowed(FRESH, events)
    requires var w := Run(FRESH, events); r in w.outcomes && w.outcomes[r].units == 0 && IsSettled(w, r)
    ensures var w := Run(FRESH, events);
            w.ledger[r].settled.value.units > 0 <==>
              exists x :: x in w.blind && x.runId == r && x.charge.units > 0 && w.ledger[r].settled == Some(x.charge)
  {
    hide Run, Allowed, Inv;
    ReachableOk(events);
    var w := Run(FRESH, events);
    OutcomeRules(w, r);
    if w.ledger[r].settled.value.units > 0 {
      assert Request(r, w.ledger[r].settled.value) in w.blind;
    }
  }

  /**
   A ledger that leaves out whether a run was claimed lets recovery settle an unclaimed run at its estimate; a later
   execution that fails, and records zero, is then charged all the same.
   */
  lemma UntoldClaimChargesFailure(payer: nat, bytes: nat)
    ensures var w := Run(FRESH, Untold(payer, bytes));
            0 in w.outcomes && w.outcomes[0].units == 0 && IsSettled(w, 0) && w.ledger[0].settled.value.units > 0
    ensures Untold(payer, bytes)[5] == LookupLands(Found(None, false)) && !Telling(Untold(payer, bytes)[5])
  {
    var all := Untold(payer, bytes);
    FirstHalf(payer, bytes);
    SecondHalf(payer, bytes);
    assert all == Lost(payer, bytes) + Failed(payer, bytes);
    RunAppend(FRESH, Lost(payer, bytes), Failed(payer, bytes));
  }

  function Lost(payer: nat, bytes: nat): seq<Event> {
    [Admit(0), Start(0, payer, bytes), ClaimReplies(0, true), Reconcile([0]), ReconcileTurn]
  }

  function Failed(payer: nat, bytes: nat): seq<Event> {
    [LookupLands(Found(None, false)), LookupReplies, Start(0, payer, bytes), ClaimLands(1), ClaimReplies(1, false),
     EngineEnds(1, false), SettleLands(Request(0, Charge(EstimatedUnits(bytes), payer)))]
  }

  function Untold(payer: nat, bytes: nat): seq<Event> {
    Lost(payer, bytes) + Failed(payer, bytes)
  }

  function BeforeLookup(payer: nat, bytes: nat): World {
    var entry := Entry(0, payer, EstimatedUnits(bytes), None);
    World(map[Made(0) := entry], map[0 := Made(0)], {}, map[], Looking(Made(0), [], None), map[0 := entry],
          map[0 := Admission(false, None)], map[0 := Claim(0, None)], {}, {}, {}, map[], 1)
  }

  lemma {:induction false} RunAppend(w: World, first: seq<Event>, second: seq<Event>)
    requires Allowed(w, first)
    ensures Run(w, first + second) == Run(Run(w, first), second)
    decreases |first|
  {
    hide Next, Possible;
    if first == [] {
      assert first + second == second;
    } else {
      assert (first + second)[1..] == first[1..] + second;
      RunAppend(Next(w, first[0]), first[1..], second);
    }
  }

  /** The first execution is journaled, and its claim is out. */
  function Awaiting(payer: nat, bytes: nat): World {
    var w := BeforeLookup(payer, bytes);
    w.(reconciler := Idle, calls := map[0 := Call(0, Made(0), Claiming)])
  }

  lemma FirstStart(payer: nat, bytes: nat)
    ensures Next(Next(FRESH, Admit(0)), Start(0, payer, bytes)) == Awaiting(payer, bytes)
  {
    var w := Next(FRESH, Admit(0));
    var n := Next(w, Start(0, payer, bytes));
    assert !Active(w, 0);
    assert n.calls == map[0 := Call(0, Made(0), Claiming)] && n.disk == map[0 := BeforeLookup(payer, bytes).disk[0]];
  }

  lemma FirstHalf(payer: nat, bytes: nat)
    ensures Allowed(FRESH, Lost(payer, bytes)) && Run(FRESH, Lost(payer, bytes)) == BeforeLookup(payer, bytes)
  {
    var es := Lost(payer, bytes);
    FirstStart(payer, bytes);
    StartPossible(Next(FRESH, es[0]), 0, payer, bytes);
    var w2 := Awaiting(payer, bytes);
    var w3 := Next(w2, es[2]);
    assert w3.calls == map[] && w3.cancelled == {};
    var w4 := Next(w3, es[3]);
    assert w4.reconciler == Turning([Made(0)]);
    assert !Active(w4, 0) && [Made(0)][1..] == [];
    var w5 := Next(w4, es[4]);
    assert w5 == BeforeLookup(payer, bytes);
    hide Next, Possible, Awaiting, BeforeLookup;
    FiveSteps(FRESH, es, Next(FRESH, es[0]), w2, w3, w4, w5);
  }

  lemma FiveSteps(w: World, es: seq<Event>, w1: World, w2: World, w3: World, w4: World, w5: World)
    requires |es| == 5 && Possible(w, es[0]) && w1 == Next(w, es[0]) && Possible(w1, es[1]) && w2 == Next(w1, es[1])
    requires Possible(w2, es[2]) && w3 == Next(w2, es[2]) && Possible(w3, es[3]) && w4 == Next(w3, es[3])
    requires Possible(w4, es[4]) && w5 == Next(w4, es[4])
    ensures Allowed(w, es) && Run(w, es) == w5
  {
    hide Next, Possible;
    assert es[1..][1..] == es[2..] && es[2..][1..] == es[3..] && es[3..][1..] == es[4..] && es[4..][1..] == [];
    assert Allowed(w5, []) && Run(w5, []) == w5;
    assert Allowed(w4, es[4..]) && Run(w4, es[4..]) == w5;
    assert Allowed(w3, es[3..]) && Run(w3, es[3..]) == w5;
    assert Allowed(w2, es[2..]) && Run(w2, es[2..]) == w5;
    assert Allowed(w1, es[1..]) && Run(w1, es[1..]) == w5;
  }

  /** The late settle request is out, and the engine has won the claim. */
  function BeforeFailure(payer: nat, bytes: nat): World {
    var w := BeforeLookup(payer, bytes);
    w.(reconciler := Settling(Made(0), []), sent := {Request(0, Charge(EstimatedUnits(bytes), payer))},
       blind := {Request(0, Charge(EstimatedUnits(bytes), payer))}, calls := map[1 := Call(0, Made(0), Running)], engine := {1}, nextId := 2,
       ledger := map[0 := Admission(true, None)], claims := map[0 := Claim(0, None), 1 := Claim(0, Some(Won))])
  }

  function Sending(payer: nat, bytes: nat): World {
    BeforeLookup(payer, bytes).(reconciler := Settling(Made(0), []),
                                sent := {Request(0, Charge(EstimatedUnits(bytes), payer))},
                                blind := {Request(0, Charge(EstimatedUnits(bytes), payer))})
  }

  lemma LookupSends(payer: nat, bytes: nat)
    ensures var (w, e, f) := (BeforeLookup(payer, bytes), LookupLands(Found(None, false)), LookupReplies);
            Possible(w, e) && Possible(Next(w, e), f) && Next(Next(w, e), f) == Sending(payer, bytes)
  {
    var w1 := Next(BeforeLookup(payer, bytes), LookupLands(Found(None, false)));
    assert !Active(w1, 0);
  }

  function Reclaiming(payer: nat, bytes: nat): World {
    Sending(payer, bytes).(calls := map[1 := Call(0, Made(0), Claiming)], nextId := 2,
                           claims := map[0 := Claim(0, None), 1 := Claim(0, None)])
  }

  lemma SecondStart(payer: nat, bytes: nat)
    ensures Next(Sending(payer, bytes), Start(0, payer, bytes)) == Reclaiming(payer, bytes)
  {
    var w := Sending(payer, bytes);
    var n := Next(w, Start(0, payer, bytes));
    assert !Active(w, 0) && w.journal[0 := Made(0)] == w.journal;
    assert Snapshot(w.cells, w.journal) == w.disk;
    assert n.calls == map[1 := Call(0, Made(0), Claiming)];
  }

  lemma SecondClaim(payer: nat, bytes: nat)
    ensures var (w, e, f) := (Reclaiming(payer, bytes), ClaimLands(1), ClaimReplies(1, false));
            Possible(w, e) && Possible(Next(w, e), f) && Next(Next(w, e), f) == BeforeFailure(payer, bytes)
  {
    var w := Next(Reclaiming(payer, bytes), ClaimLands(1));
    assert w.ledger == map[0 := Admission(true, None)];
    assert w.claims == map[0 := Claim(0, None), 1 := Claim(0, Some(Won))];
    assert w.calls[1 := Call(0, Made(0), Running)] == map[1 := Call(0, Made(0), Running)];
  }

  lemma ThirdQuarter(payer: nat, bytes: nat)
    ensures Allowed(BeforeLookup(payer, bytes), Failed(payer, bytes)[..5])
    ensures Run(BeforeLookup(payer, bytes), Failed(payer, bytes)[..5]) == BeforeFailure(payer, bytes)
  {
    hide Next, Possible, BeforeLookup, Sending, Reclaiming, BeforeFailure;
    var es := Failed(payer, bytes);
    var w0 := BeforeLookup(payer, bytes);
    LookupSends(payer, bytes);
    SecondStart(payer, bytes);
    SecondClaim(payer, bytes);
    StartPossible(Sending(payer, bytes), 0, payer, bytes);
    FiveSteps(w0, es[..5], Next(w0, es[0]), Sending(payer, bytes), Reclaiming(payer, bytes),
              Next(Reclaiming(payer, bytes), es[3]), BeforeFailure(payer, bytes));
  }

  lemma StartPossible(w: World, r: RunId, payer: nat, bytes: nat)
    ensures Possible(w, Start(r, payer, bytes))
  {
  }

  lemma SecondHalf(payer: nat, bytes: nat)
    ensures var w := Run(BeforeLookup(payer, bytes), Failed(payer, bytes));
            0 in w.outcomes && w.outcomes[0].units == 0 && IsSettled(w, 0) && w.ledger[0].settled.value.units > 0
  {
    var es := Failed(payer, bytes);
    ThirdQuarter(payer, bytes);
    assert es == es[..5] + [es[5], es[6]];
    RunAppend(BeforeLookup(payer, bytes), es[..5], [es[5], es[6]]);
    var w5 := BeforeFailure(payer, bytes);
    var w6 := Next(w5, es[5]);
    var w7 := Next(w6, es[6]);
    assert [es[5], es[6]][1..] == [es[6]];
    assert Run(w7, []) == w7 && [es[6]][1..] == [];
    assert Run(w6, [es[6]]) == w7;
  }
}
