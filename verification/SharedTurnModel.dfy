/**
 Shared turns: a run that the Portal admitted is claimed, executed and settled against the payer frozen in the
 journal. A world is one process with its journal, and the remote ledger. Journal entries are objects, because the
 executing call, the journal and a reconciliation pass may hold the same one.
 */
module SharedTurnModel {
  import opened Common

  type RunId = nat
  type CallId = nat

  /** An entry object: made by a call, or loaded when the process started. */
  datatype Ref = Made(call: CallId) | Loaded(runId: RunId)

  datatype Charge = Charge(units: nat, payer: nat)

  datatype Entry = Entry(runId: RunId, payer: nat, estimated: nat, actual: Option<nat>)

  function Max(a: nat, b: nat): nat {
    if a < b then b else a
  }

  /** `estimatedAutomationUnits` of a text of this many bytes. */
  function EstimatedUnits(bytes: nat): (units: nat)
    ensures units >= 1024 && bytes <= 4 * (units - 1024) < bytes + 4
  {
    Max(1, (bytes + 3) / 4 + 1024)
  }

  /** What a settle request for the entry carries. */
  function ChargeOf(entry: Entry): Charge {
    Charge(if entry.actual.Some? then entry.actual.value else entry.estimated, entry.payer)
  }

  /** An admission in the remote ledger. */
  datatype Admission = Admission(claimed: bool, settled: Option<Charge>)

  /** What a claim got, when the ledger processed it. */
  datatype ClaimReply = Won | AlreadyAccepted | AlreadySettled | NotAdmitted
  datatype Claim = Claim(runId: RunId, reply: Option<ClaimReply>)

  datatype Request = Request(runId: RunId, charge: Charge)

  datatype Stage = Claiming | Running | Closing
  datatype Call = Call(runId: RunId, entry: Ref, stage: Stage)

  datatype LookupReply = Found(claimed: Option<bool>, settled: bool) | Unknown | Failed

  datatype Reconciler =
    | Idle
    | Turning(rest: seq<Ref>)
    | Looking(entry: Ref, rest: seq<Ref>, reply: Option<LookupReply>)
    | Settling(entry: Ref, rest: seq<Ref>)

  /**
   `blind` has the requests that reconciliation sent although the ledger had left out whether the run was claimed;
   nothing depends on it.
   */
  datatype World = World(
    cells: map<Ref, Entry>,
    journal: map<RunId, Ref>,
    cancelled: set<RunId>,
    calls: map<CallId, Call>,
    reconciler: Reconciler,
    disk: map<RunId, Entry>,
    ledger: map<RunId, Admission>,
    claims: map<CallId, Claim>,
    sent: set<Request>,
    blind: set<Request>,
    engine: set<CallId>,
    outcomes: map<RunId, Charge>,
    nextId: nat)

  predicate Active(w: World, r: RunId) {
    exists c :: c in w.calls && w.calls[c].runId == r
  }

  predicate IsSettled(w: World, r: RunId) {
    r in w.ledger && w.ledger[r].settled.Some?
  }

  predicate IsClaimed(w: World, r: RunId) {
    r in w.ledger && w.ledger[r].claimed
  }

  function Snapshot(cells: map<Ref, Entry>, journal: map<RunId, Ref>): map<RunId, Entry> {
    map r | r in journal && journal[r] in cells :: cells[journal[r]]
  }

  /** `track` of an entry object. */
  function Track(w: World, r: RunId, entry: Ref): World {
    var journal := w.journal[r := entry];
    w.(journal := journal, disk := Snapshot(w.cells, journal))
  }

  /** `release`. */
  function Release(w: World, r: RunId): World {
    if r !in w.journal then w
    else
      var journal := w.journal - {r};
      w.(journal := journal, disk := Snapshot(w.cells, journal))
  }

  function Leave(w: World, c: CallId): World
    requires c in w.calls
  {
    w.(calls := w.calls - {c}, cancelled := w.cancelled - {w.calls[c].runId})
  }

  // ---------------------------------------------------------------- executeSharedTurn

  /** Up to the first await: the entry is tracked before the claim is sent. */
  function Execute(w: World, r: RunId, payer: nat, bytes: nat): World {
    if Active(w, r) then w
    else
      var c := w.nextId;
      var known := r in w.journal;
      var entry := if known then w.journal[r] else Made(c);
      var ready := w.(cells := if known then w.cells else w.cells[entry := Entry(r, payer, EstimatedUnits(bytes), None)],
                      nextId := c + 1);
      Track(ready, r, entry).(calls := w.calls[c := Call(r, entry, Claiming)], claims := w.claims[c := Claim(r, None)])
  }

  /** After the claim was answered, or failed without an answer. */
  function Claimed(w: World, c: CallId, lost: bool): World
    requires c in w.calls && w.calls[c].stage.Claiming? && c in w.claims && (lost || w.claims[c].reply.Some?)
  {
    var call := w.calls[c];
    if lost then Leave(w, c)
    else
      match w.claims[c].reply.value
      case AlreadySettled => Leave(Release(w, call.runId), c)
      case AlreadyAccepted => Leave(w, c)
      case NotAdmitted => Leave(w, c)
      case Won =>
        if call.runId in w.cancelled then Conclude(w, c, false)
        else w.(calls := w.calls[c := call.(stage := Running)], engine := w.engine + {c})
  }

  /** The outcome is recorded in the journal before it is sent: nothing for a failure, the estimate for a success. */
  function Conclude(w: World, c: CallId, success: bool): World
    requires c in w.calls
  {
    var call := w.calls[c];
    if call.entry !in w.cells then w
    else
      var before := w.cells[call.entry];
      var entry := before.(actual := Some(if success then before.estimated else 0));
      Track(w.(cells := w.cells[call.entry := entry]), call.runId, call.entry).(
        calls := w.calls[c := call.(stage := Closing)], sent := w.sent + {Request(call.runId, ChargeOf(entry))},
        outcomes := w.outcomes[call.runId := ChargeOf(entry)])
  }

  function Closed(w: World, c: CallId, ok: bool): World
    requires c in w.calls
  {
    Leave(if ok then Release(w, w.calls[c].runId) else w, c)
  }

  // ---------------------------------------------------------------- reconcileInterrupted

  /** The next journaled entry, unless its run is active. */
  function Turn(w: World): World
    requires w.reconciler.Turning?
  {
    var rest := w.reconciler.rest;
    if rest == [] then w.(reconciler := Idle)
    else if rest[0] in w.cells && Active(w, w.cells[rest[0]].runId) then w.(reconciler := Turning(rest[1..]))
    else w.(reconciler := Looking(rest[0], rest[1..], None))
  }

  /** After the lookup. */
  function Looked(w: World): World
    requires w.reconciler.Looking? && w.reconciler.reply.Some? && w.reconciler.entry in w.cells
  {
    var o, rest := w.reconciler.entry, w.reconciler.rest;
    var r := w.cells[o].runId;
    match w.reconciler.reply.value
    case Failed => w.(reconciler := Turning(rest))
    case Unknown => w.(reconciler := Turning(rest))
    case Found(claimed, settled) =>
      if Active(w, r) then w.(reconciler := Turning(rest))
      else if settled then Release(w, r).(reconciler := Turning(rest))
      else if claimed == Some(false) then w.(reconciler := Turning(rest))
      else
        var request := Request(r, ChargeOf(w.cells[o]));
        w.(reconciler := Settling(o, rest), sent := w.sent + {request},
           blind := if claimed.None? then w.blind + {request} else w.blind)
  }

  function Reconciled(w: World, ok: bool): World
    requires w.reconciler.Settling? && w.reconciler.entry in w.cells
  {
    (if ok then Release(w, w.cells[w.reconciler.entry].runId) else w).(reconciler := Turning(w.reconciler.rest))
  }

  // ---------------------------------------------------------------- steps

  datatype Event =
    | Admit(runId: RunId)
    | Start(runId: RunId, payer: nat, bytes: nat)
    | ClaimLands(call: CallId)
    | ClaimReplies(call: CallId, lost: bool)
    | Cancel(runId: RunId)
    | EngineEnds(call: CallId, success: bool)
    | SettleLands(request: Request)
    | SettleReplies(call: CallId, ok: bool)
    | Reconcile(order: seq<RunId>)
    | ReconcileTurn
    | LookupLands(reply: LookupReply)
    | LookupReplies
    | ReconcileReplies(ok: bool)
    | Crash

  /**
   What the ledger and the network may do: a claim succeeds at most once; settling is idempotent and its answers
   are truthful; requests may be lost, repeated, or processed late, also after a crash.
   */
  predicate Possible(w: World, e: Event) {
    match e
    case Admit(r) => r !in w.ledger
    case Start(_, _, _) => true
    case ClaimLands(c) => c in w.claims && w.claims[c].reply.None?
    case ClaimReplies(c, lost) =>
      c in w.calls && w.calls[c].stage.Claiming? && c in w.claims && (lost || w.claims[c].reply.Some?)
    case Cancel(_) => true
    case EngineEnds(c, _) => c in w.calls && w.calls[c].stage.Running?
    case SettleLands(request) => request in w.sent && request.runId in w.ledger
    case SettleReplies(c, ok) => c in w.calls && w.calls[c].stage.Closing? && (ok ==> IsSettled(w, w.calls[c].runId))
    case Reconcile(order) =>
      w.reconciler.Idle? && forall i :: 0 <= i < |order| ==> order[i] in w.journal
    case ReconcileTurn => w.reconciler.Turning?
    case LookupLands(reply) =>
      w.reconciler.Looking? && w.reconciler.reply.None? && w.reconciler.entry in w.cells &&
      var r := w.cells[w.reconciler.entry].runId;
      (match reply
       case Failed => true
       case Unknown => r !in w.ledger
       case Found(claimed, settled) =>
         r in w.ledger && settled == IsSettled(w, r) && (claimed.Some? ==> claimed.value == IsClaimed(w, r)))
    case LookupReplies => w.reconciler.Looking? && w.reconciler.reply.Some? && w.reconciler.entry in w.cells
    case ReconcileReplies(ok) =>
      w.reconciler.Settling? && w.reconciler.entry in w.cells &&
      (ok ==> IsSettled(w, w.cells[w.reconciler.entry].runId))
    case Crash => true
  }

  /** A ledger that says of every reservation whether it was claimed. Older ones do not. */
  predicate Telling(e: Event) {
    e.LookupLands? && e.reply.Found? ==> e.reply.claimed.Some?
  }

  function ClaimResult(w: World, r: RunId): ClaimReply {
    if r !in w.ledger then NotAdmitted
    else if w.ledger[r].settled.Some? then AlreadySettled
    else if w.ledger[r].claimed then AlreadyAccepted
    else Won
  }

  /** `pending`: a copy of the list, but not of the entries. */
  function RefsOf(journal: map<RunId, Ref>, order: seq<RunId>): (refs: seq<Ref>)
    requires forall i :: 0 <= i < |order| ==> order[i] in journal
    ensures |refs| == |order| && forall i :: 0 <= i < |order| ==> refs[i] == journal[order[i]]
  {
    seq(|order|, i requires 0 <= i < |order| => journal[order[i]])
  }

  function LoadedCells(disk: map<RunId, Entry>): map<Ref, Entry> {
    map r | r in disk :: Loaded(r) := disk[r]
  }

  /** A new process reads the journal; its entries are new objects. */
  function Restarted(w: World): World {
    w.(cells := LoadedCells(w.disk), journal := map r | r in w.disk :: Loaded(r), cancelled := {}, calls := map[],
       reconciler := Idle)
  }

  function Next(w: World, e: Event): World
    requires Possible(w, e)
  {
    match e
    case Admit(r) => w.(ledger := w.ledger[r := Admission(false, None)])
    case Start(r, payer, bytes) => Execute(w, r, payer, bytes)
    case ClaimLands(c) =>
      var r := w.claims[c].runId;
      var reply := ClaimResult(w, r);
      w.(claims := w.claims[c := Claim(r, Some(reply))],
         ledger := if reply.Won? then w.ledger[r := Admission(true, None)] else w.ledger)
    case ClaimReplies(c, lost) => Claimed(w, c, lost)
    case Cancel(r) => if Active(w, r) then w.(cancelled := w.cancelled + {r}) else w
    case EngineEnds(c, success) => Conclude(w, c, success)
    case SettleLands(request) =>
      if w.ledger[request.runId].settled.Some? then w
      else w.(ledger := w.ledger[request.runId := w.ledger[request.runId].(settled := Some(request.charge))])
    case SettleReplies(c, ok) => Closed(w, c, ok)
    case Reconcile(order) =>
      w.(reconciler := Turning(RefsOf(w.journal, order)))
    case ReconcileTurn => Turn(w)
    case LookupLands(reply) => w.(reconciler := w.reconciler.(reply := Some(reply)))
    case LookupReplies => Looked(w)
    case ReconcileReplies(ok) => Reconciled(w, ok)
    case Crash => Restarted(w)
  }
}
