/** Who pays for a shared turn, and how much: the member it was started for, for as long as it is journaled. */
module SharedTurnPayers {
  import opened Common
  import opened SharedTurnModel
  import opened SharedTurns
  import opened SharedTurnTheorems

  /** A turn as it was started. */
  datatype Ask = Ask(runId: RunId, payer: nat, bytes: nat)

  function Asks(events: seq<Event>): set<Ask> {
    set i | 0 <= i < |events| && events[i].Start? :: Ask(events[i].runId, events[i].payer, events[i].bytes)
  }

  /** A token for every four bytes begun, and 1024 more. */
  predicate IsEstimate(units: nat, bytes: nat) {
    bytes <= 4 * (units - 1024) < bytes + 4
  }

  predicate IsFor(a: Ask, r: RunId, payer: nat, units: nat) {
    a.runId == r && a.payer == payer && IsEstimate(units, a.bytes)
  }

  ghost predicate EntryAsked(asks: set<Ask>, entry: Entry) {
    (entry.actual.Some? ==> entry.actual.value == 0 || entry.actual.value == entry.estimated) &&
    exists a :: a in asks && IsFor(a, entry.runId, entry.payer, entry.estimated)
  }

  /** The run is charged to who asked for it, its estimate or nothing. */
  ghost predicate ChargeAsked(asks: set<Ask>, r: RunId, charge: Charge) {
    exists a, units :: a in asks && IsFor(a, r, charge.payer, units) && (charge.units == units || charge.units == 0)
  }

  ghost predicate AllAsked(w: World, asks: set<Ask>) {
    (forall o :: o in w.cells ==> EntryAsked(asks, w.cells[o])) &&
    (forall r :: r in w.disk ==> EntryAsked(asks, w.disk[r])) &&
    (forall x :: x in w.sent ==> ChargeAsked(asks, x.runId, x.charge)) &&
    forall r :: IsSettled(w, r) ==> ChargeAsked(asks, r, w.ledger[r].settled.value)
  }

  lemma EntryCharge(asks: set<Ask>, entry: Entry)
    requires EntryAsked(asks, entry)
    ensures ChargeAsked(asks, entry.runId, ChargeOf(entry))
  {
    var a :| a in asks && IsFor(a, entry.runId, entry.payer, entry.estimated);
    assert IsFor(a, entry.runId, ChargeOf(entry).payer, entry.estimated);
  }

  lemma MoreAsks(w: World, asks: set<Ask>, more: set<Ask>)
    requires AllAsked(w, asks) && asks <= more
    ensures AllAsked(w, more)
  {
    forall o | o in w.cells ensures EntryAsked(more, w.cells[o]) {
      assert EntryAsked(asks, w.cells[o]);
    }
    forall r | r in w.disk ensures EntryAsked(more, w.disk[r]) {
      assert EntryAsked(asks, w.disk[r]);
    }
    forall x | x in w.sent ensures ChargeAsked(more, x.runId, x.charge) {
      assert ChargeAsked(asks, x.runId, x.charge);
    }
    forall r | IsSettled(w, r) ensures ChargeAsked(more, r, w.ledger[r].settled.value) {
      assert ChargeAsked(asks, r, w.ledger[r].settled.value);
    }
  }

  /** No entry, request or charge is new, but entries may be in other places. */
  ghost predicate NothingNew(w: World, n: World) {
    (forall o :: o in n.cells ==> (o in w.cells && n.cells[o] == w.cells[o]) || (o.Loaded? && o.runId in w.disk && n.cells[o] == w.disk[o.runId])) &&
    (n.disk == w.disk || n.disk == Snapshot(n.cells, n.journal)) && n.sent == w.sent &&
    forall r :: IsSettled(n, r) ==> IsSettled(w, r) && n.ledger[r].settled == w.ledger[r].settled
  }

  lemma NothingNewAsked(w: World, n: World, asks: set<Ask>)
    requires AllAsked(w, asks) && NothingNew(w, n)
    ensures AllAsked(n, asks)
  {
    hide EntryAsked, ChargeAsked;
  }

  lemma ReleaseNothing(w: World, r: RunId)
    ensures NothingNew(w, Release(w, r))
  {
    hide Snapshot;
  }

  /** One request is new, of an entry. */
  lemma OneRequest(w: World, n: World, asks: set<Ask>, entry: Entry)
    requires AllAsked(w, asks) && EntryAsked(asks, entry) && n.cells == w.cells && n.disk == w.disk && n.ledger == w.ledger
    requires n.sent == w.sent + {Request(entry.runId, ChargeOf(entry))}
    ensures AllAsked(n, asks)
  {
    EntryCharge(asks, entry);
    hide EntryAsked, ChargeAsked, ChargeOf;
  }

  lemma ExecuteAsked(w: World, r: RunId, payer: nat, bytes: nat, asks: set<Ask>)
    requires AllAsked(w, asks) && Ask(r, payer, bytes) in asks
    ensures AllAsked(Execute(w, r, payer, bytes), asks)
  {
    var a, entry := Ask(r, payer, bytes), Entry(r, payer, EstimatedUnits(bytes), None);
    assert IsFor(a, r, payer, entry.estimated);
    assert EntryAsked(asks, entry);
    hide EntryAsked, ChargeAsked, Active, EstimatedUnits;
  }

  lemma SnapshotAsked(cells: map<Ref, Entry>, journal: map<RunId, Ref>, asks: set<Ask>)
    requires forall o :: o in cells ==> EntryAsked(asks, cells[o])
    ensures forall r :: r in Snapshot(cells, journal) ==> EntryAsked(asks, Snapshot(cells, journal)[r])
  {
    hide EntryAsked;
  }

  /** An entry gets its outcome. */
  lemma OutcomeAsked(asks: set<Ask>, before: Entry, entry: Entry, success: bool)
    requires EntryAsked(asks, before) && entry == before.(actual := Some(if success then before.estimated else 0))
    ensures EntryAsked(asks, entry)
  {
    var a :| a in asks && IsFor(a, before.runId, before.payer, before.estimated);
    assert IsFor(a, entry.runId, entry.payer, entry.estimated);
  }

  lemma ConcludeAsked(w: World, c: CallId, success: bool, asks: set<Ask>)
    requires AllAsked(w, asks) && c in w.calls && (w.calls[c].entry in w.cells ==> w.cells[w.calls[c].entry].runId == w.calls[c].runId)
    ensures AllAsked(Conclude(w, c, success), asks)
  {
    hide EntryAsked, ChargeAsked, ChargeOf, Snapshot;
    var call := w.calls[c];
    if call.entry in w.cells {
      var before := w.cells[call.entry];
      var entry := before.(actual := Some(if success then before.estimated else 0));
      OutcomeAsked(asks, before, entry, success);
      EntryCharge(asks, entry);
      SnapshotAsked(w.cells[call.entry := entry], w.journal[call.runId := call.entry], asks);
    }
  }

  lemma CallEntry(w: World, c: CallId)
    requires Inv(w) && c in w.calls
    ensures w.calls[c].entry in w.cells && w.cells[w.calls[c].entry].runId == w.calls[c].runId
  {
    hide FiledOk, JournaledOk, ClaimsOk, SentOk, HeldOk, LookOk;
    assert CallOk(w, c, w.calls[c]);
  }

  lemma ClaimedAsked(w: World, c: CallId, lost: bool, asks: set<Ask>)
    requires Inv(w) && AllAsked(w, asks) && Possible(w, ClaimReplies(c, lost))
    ensures AllAsked(Claimed(w, c, lost), asks)
  {
    hide Inv, AllAsked, Conclude, Release, NothingNew, Snapshot;
    CallEntry(w, c);
    ConcludeAsked(w, c, false, asks);
    ReleaseNothing(w, w.calls[c].runId);
    NothingNewAsked(w, Release(w, w.calls[c].runId), asks);
    var n := Claimed(w, c, lost);
    SameAsked(w, n, asks);
    SameAsked(Release(w, w.calls[c].runId), n, asks);
  }

  lemma SameAsked(w: World, n: World, asks: set<Ask>)
    requires AllAsked(w, asks)
    ensures n.cells == w.cells && n.disk == w.disk && n.sent == w.sent && n.ledger == w.ledger ==> AllAsked(n, asks)
  {
    hide EntryAsked, ChargeAsked;
  }

  lemma LookedAsked(w: World, asks: set<Ask>)
    requires AllAsked(w, asks) && w.reconciler.Looking? && w.reconciler.reply.Some? && w.reconciler.entry in w.cells
    ensures AllAsked(Looked(w), asks)
  {
    hide AllAsked, Release, Active, ChargeOf;
    var entry := w.cells[w.reconciler.entry];
    if Resends(w) {
      EntryHere(w, asks, w.reconciler.entry);
      OneRequest(w, Resent(w), asks, entry);
      assert Looked(w) == Resent(w);
    } else {
      ReleasesAsked(w, Looked(w), entry.runId, asks);
    }
  }

  lemma EntryHere(w: World, asks: set<Ask>, o: Ref)
    requires AllAsked(w, asks) && o in w.cells
    ensures EntryAsked(asks, w.cells[o])
  {
  }

  lemma ReleasesAsked(w: World, n: World, r: RunId, asks: set<Ask>)
    requires AllAsked(w, asks)
    requires var m := Release(w, r);
             (n.cells == m.cells && n.disk == m.disk && n.sent == m.sent && n.ledger == m.ledger) ||
             (n.cells == w.cells && n.disk == w.disk && n.sent == w.sent && n.ledger == w.ledger)
    ensures AllAsked(n, asks)
  {
    hide AllAsked, Release, NothingNew;
    ReleaseNothing(w, r);
    NothingNewAsked(w, Release(w, r), asks);
    SameAsked(w, n, asks);
    SameAsked(Release(w, r), n, asks);
  }

  lemma SettleAsked(w: World, request: Request, asks: set<Ask>)
    requires AllAsked(w, asks) && request in w.sent && request.runId in w.ledger
    ensures AllAsked(Next(w, SettleLands(request)), asks)
  {
    hide EntryAsked, ChargeAsked;
  }

  lemma AdmittedAsked(w: World, n: World, asks: set<Ask>)
    requires AllAsked(w, asks) && n.cells == w.cells && n.disk == w.disk && n.sent == w.sent
    requires forall r :: IsSettled(n, r) ==> IsSettled(w, r) && n.ledger[r].settled == w.ledger[r].settled
    ensures AllAsked(n, asks)
  {
    hide EntryAsked, ChargeAsked;
  }

  lemma LoadedAre(disk: map<RunId, Entry>)
    ensures forall o :: o in LoadedCells(disk) ==> o.Loaded? && o.runId in disk && LoadedCells(disk)[o] == disk[o.runId]
  {
  }

  lemma CrashAsked(w: World, asks: set<Ask>)
    requires AllAsked(w, asks)
    ensures AllAsked(Restarted(w), asks)
  {
    LoadedAre(w.disk);
    hide LoadedCells, AllAsked;
    NothingNewAsked(w, Restarted(w), asks);
  }

  lemma StepAsked(w: World, e: Event, asks: set<Ask>)
    requires Inv(w) && AllAsked(w, asks) && Possible(w, e)
    requires e.Start? ==> Ask(e.runId, e.payer, e.bytes) in asks
    ensures AllAsked(Next(w, e), asks)
  {
    hide Inv, AllAsked, Execute, Claimed, Conclude, Closed, Turn, Looked, Reconciled, Restarted, Active;
    match e
    case Start(r, payer, bytes) => ExecuteAsked(w, r, payer, bytes, asks);
    case ClaimReplies(c, lost) => ClaimedAsked(w, c, lost, asks);
    case EngineEnds(c, success) =>
      CallEntry(w, c);
      ConcludeAsked(w, c, success, asks);
    case SettleLands(request) => SettleAsked(w, request, asks);
    case SettleReplies(c, ok) => ClosedAsked(w, c, ok, asks);
    case ReconcileTurn => TurnAsked(w, asks);
    case LookupReplies => LookedAsked(w, asks);
    case ReconcileReplies(ok) => ReconciledAsked(w, ok, asks);
    case Crash => CrashAsked(w, asks);
    case Admit(r) => AdmittedAsked(w, Next(w, e), asks);
    case ClaimLands(c) => AdmittedAsked(w, Next(w, e), asks);
    case _ => SameAsked(w, Next(w, e), asks);
  }

  lemma ClosedAsked(w: World, c: CallId, ok: bool, asks: set<Ask>)
    requires AllAsked(w, asks) && c in w.calls
    ensures AllAsked(Closed(w, c, ok), asks)
  {
    hide AllAsked, Release;
    ReleasesAsked(w, Closed(w, c, ok), w.calls[c].runId, asks);
  }

  lemma TurnAsked(w: World, asks: set<Ask>)
    requires AllAsked(w, asks) && w.reconciler.Turning?
    ensures AllAsked(Turn(w), asks)
  {
    hide AllAsked, Turn;
    TurnMoves(w);
    SameAsked(w, Turn(w), asks);
  }

  lemma ReconciledAsked(w: World, ok: bool, asks: set<Ask>)
    requires AllAsked(w, asks) && w.reconciler.Settling? && w.reconciler.entry in w.cells
    ensures AllAsked(Reconciled(w, ok), asks)
  {
    hide AllAsked, Release;
    ReleasesAsked(w, Reconciled(w, ok), w.cells[w.reconciler.entry].runId, asks);
  }

  lemma {:induction false} RunAsked(w: World, events: seq<Event>, asks: set<Ask>)
    requires Inv(w) && AllAsked(w, asks) && Allowed(w, events) && Asks(events) <= asks
    ensures AllAsked(Run(w, events), asks)
    decreases |events|
  {
    hide Inv, AllAsked, Next, Possible;
    if events != [] {
      var e := events[0];
      assert e.Start? ==> Ask(e.runId, e.payer, e.bytes) in Asks(events);
      forall a | a in Asks(events[1..]) ensures a in asks {
        var i :| 0 <= i < |events[1..]| && events[1..][i].Start? &&
                 a == Ask(events[1..][i].runId, events[1..][i].payer, events[1..][i].bytes);
        assert events[i + 1] == events[1..][i] && a in Asks(events);
      }
      NextOk(w, e);
      StepAsked(w, e, asks);
      RunAsked(Next(w, e), events[1..], asks);
    }
  }

  lemma FreshAsked()
    ensures Inv(FRESH) && AllAsked(FRESH, {})
  {
  }

  /**
   Over any history, crashes included: what is sent for a run, and what the ledger charges for it, goes to a member for whom
   that run was started, and is the estimate of the text it was started with, or nothing.
   */
  lemma ChargedAsStarted(events: seq<Event>, x: Request)
    requires Allowed(FRESH, events)
    ensures var w := Run(FRESH, events);
            (x in w.sent ==> ChargeAsked(Asks(events), x.runId, x.charge)) &&
            (IsSettled(w, x.runId) ==> ChargeAsked(Asks(events), x.runId, w.ledger[x.runId].settled.value))
  {
    hide Inv, EntryAsked, ChargeAsked, Run, Allowed;
    FreshAsked();
    MoreAsks(FRESH, {}, Asks(events));
    RunAsked(FRESH, events, Asks(events));
  }

  // ---------------------------------------------------------------- frozen while journaled

  /** The same run, payer and estimate. */
  predicate SameTerms(a: Entry, b: Entry) {
    a.(actual := None) == b.(actual := None)
  }

  ghost predicate Frozen(w: World, n: World) {
    forall r :: r in w.disk && r in n.disk ==> SameTerms(w.disk[r], n.disk[r])
  }

  lemma SnapshotFrozen(w: World, n: World)
    requires FiledOk(w) && (n.disk == w.disk || n.disk == Snapshot(n.cells, n.journal))
    requires forall r :: r in n.journal && r in w.journal ==> n.journal[r] == w.journal[r]
    requires forall o :: o in w.cells && o in n.cells ==> SameTerms(w.cells[o], n.cells[o])
    ensures Frozen(w, n)
  {
  }

  lemma JournalHere(w: World)
    requires Inv(w)
    ensures FiledOk(w)
  {
    hide JournaledOk, ClaimsOk, CallsOk, SentOk, HeldOk, LookOk;
  }

  lemma FreshRef(w: World)
    requires Inv(w)
    ensures FiledOk(w) && Made(w.nextId) !in w.cells
  {
    hide JournaledOk, ClaimsOk, CallsOk, SentOk, HeldOk, LookOk;
  }

  lemma ExecuteIs(w: World, r: RunId, payer: nat, bytes: nat)
    ensures var n := Execute(w, r, payer, bytes);
            n == w ||
            ((n.cells == w.cells || n.cells == w.cells[Made(w.nextId) := Entry(r, payer, EstimatedUnits(bytes), None)]) &&
             n.journal == w.journal[r := if r in w.journal then w.journal[r] else Made(w.nextId)] &&
             n.disk == Snapshot(n.cells, n.journal))
  {
    hide Active, Snapshot, EstimatedUnits;
  }

  lemma ExecuteFrozen(w: World, r: RunId, payer: nat, bytes: nat)
    requires Inv(w)
    ensures Frozen(w, Execute(w, r, payer, bytes))
  {
    hide Frozen, Snapshot, Execute, Inv, FiledOk, EstimatedUnits;
    FreshRef(w);
    ExecuteIs(w, r, payer, bytes);
    SnapshotFrozen(w, Execute(w, r, payer, bytes));
  }

  lemma SameJournal(w: World, c: CallId)
    requires Inv(w) && c in w.calls
    ensures w.calls[c].runId in w.journal ==> w.journal[w.calls[c].runId] == w.calls[c].entry
  {
    hide FiledOk, JournaledOk, ClaimsOk, SentOk, HeldOk, LookOk, Filed, Untouched;
    assert CallOk(w, c, w.calls[c]);
  }

  lemma ConcludeFrozen(w: World, c: CallId, success: bool)
    requires Inv(w) && c in w.calls
    ensures Frozen(w, Conclude(w, c, success))
  {
    JournalHere(w);
    SameJournal(w, c);
    hide Frozen, Snapshot, Inv, ChargeOf;
    SnapshotFrozen(w, Conclude(w, c, success));
  }

  lemma ReleaseFrozen(w: World, n: World, r: RunId)
    requires Inv(w) && (n.disk == w.disk || n.disk == Release(w, r).disk)
    ensures Frozen(w, n)
  {
    JournalHere(w);
    hide Inv;
  }

  lemma ClaimedFrozen(w: World, c: CallId, lost: bool)
    requires Inv(w) && Possible(w, ClaimReplies(c, lost))
    ensures Frozen(w, Claimed(w, c, lost))
  {
    hide Inv, Frozen, Conclude, Release;
    ConcludeFrozen(w, c, false);
    if Claimed(w, c, lost) != Conclude(w, c, false) {
      ReleaseFrozen(w, Claimed(w, c, lost), w.calls[c].runId);
    }
  }

  lemma LookedIs(w: World)
    requires w.reconciler.Looking? && w.reconciler.reply.Some? && w.reconciler.entry in w.cells
    ensures var n := Looked(w);
            if Resends(w) then n == Resent(w)
            else n == w.(reconciler := n.reconciler) ||
                 n == Release(w, w.cells[w.reconciler.entry].runId).(reconciler := n.reconciler)
  {
    hide Release, Active, ChargeOf;
  }

  lemma LookedFrozen(w: World)
    requires Inv(w) && w.reconciler.Looking? && w.reconciler.reply.Some? && w.reconciler.entry in w.cells
    ensures Frozen(w, Looked(w))
  {
    hide Inv, Frozen, Release, Active, Looked, ChargeOf;
    LookedIs(w);
    ReleaseFrozen(w, Looked(w), w.cells[w.reconciler.entry].runId);
  }

  /** Other steps leave the journal alone. */
  lemma OtherDisk(w: World, e: Event)
    requires Possible(w, e)
    requires e.Admit? || e.ClaimLands? || e.Cancel? || e.SettleLands? || e.Reconcile? || e.LookupLands? || e.Crash?
    ensures Next(w, e).disk == w.disk
  {
    hide Active, ClaimResult, LoadedCells;
  }

  /** Whatever happens in one step, a run that stays in the journal on disk keeps its payer and its estimate. */
  lemma TermsAreFrozen(w: World, e: Event)
    requires Inv(w) && Possible(w, e)
    ensures Frozen(w, Next(w, e))
  {
    hide Inv, Frozen, Execute, Claimed, Conclude, Turn, Release, Active, ChargeOf, Looked, Closed, Reconciled, Restarted, ClaimResult;
    match e
    case Start(r, payer, bytes) => ExecuteFrozen(w, r, payer, bytes);
    case ClaimReplies(c, lost) => ClaimedFrozen(w, c, lost);
    case EngineEnds(c, success) => ConcludeFrozen(w, c, success);
    case SettleReplies(c, ok) => ClosedFrozen(w, c, ok);
    case ReconcileTurn =>
      TurnMoves(w);
      ReleaseFrozen(w, Next(w, e), 0);
    case LookupReplies => LookedFrozen(w);
    case ReconcileReplies(ok) => ReconciledFrozen(w, ok);
    case _ =>
      OtherDisk(w, e);
      ReleaseFrozen(w, Next(w, e), 0);
  }

  lemma ClosedFrozen(w: World, c: CallId, ok: bool)
    requires Inv(w) && c in w.calls
    ensures Frozen(w, Closed(w, c, ok))
  {
    hide Inv, Frozen, Release;
    ReleaseFrozen(w, Closed(w, c, ok), w.calls[c].runId);
  }

  lemma ReconciledFrozen(w: World, ok: bool)
    requires Inv(w) && w.reconciler.Settling? && w.reconciler.entry in w.cells
    ensures Frozen(w, Reconciled(w, ok))
  {
    hide Inv, Frozen, Release;
    ReleaseFrozen(w, Reconciled(w, ok), w.cells[w.reconciler.entry].runId);
  }
}
