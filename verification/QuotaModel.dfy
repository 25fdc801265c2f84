/**
 Conversation quota: reserve, run, settle, with every await of the source an interleaving point.

 A world is one process of `ConversationQuota` with its journal on disk, the calls it is serving, and the remote
 ledger. Entry objects are kept in `cells`, because loops over a copied entry list still see later changes to the
 objects in it.
 */
module QuotaModel {
  import opened Common

  type RunId = nat
  type SessionId = nat
  type TurnId = nat
  type OpId = nat
  type CallId = nat

  datatype Engine = Harness | Codex | Kimi | Acp

  datatype Entry = Entry(runId: RunId, sessionId: SessionId, engine: Option<Engine>, units: Option<nat>,
                         turnId: Option<TurnId>, finished: bool)

  /** What the remote ledger holds for a run. */
  datatype Account = Reserved(units: nat) | Settled(amount: nat)

  /** A settle request that left the process, and whether the run was in the journal then. */
  datatype Sent = Sent(runId: RunId, amount: nat, journaled: bool)

  datatype Answer = Accepted | Missing | Broken

  /** The promise of one `#release`: waiting, answered, returned but still in `#settling`, or resolved. */
  datatype Phase = Awaiting | Answered(answer: Answer) | Returned(ok: bool) | Resolved(ok: bool)
  datatype Op = Op(runId: RunId, phase: Phase)

  datatype Reservation = InFlight | Confirmed | Failed

  datatype BeginStage =
    | AtReady
    | AtSettling(awaited: set<OpId>)
    | AtDrain(rest: seq<RunId>, waiting: Option<OpId>)
    | AtReserve(runId: RunId)
    | AtCleanup(runId: RunId, op: OpId)
    | Admitted(runId: RunId)
    | Refused

  datatype SessionStage = AtPending(awaited: set<RunId>) | AtReleases(ops: set<OpId>) | Done(ok: bool)

  /** A sequential loop of releases over a copied entry list. */
  datatype LoopStage = Looping(rest: seq<RunId>, waiting: Option<OpId>) | Ended(ok: bool)

  datatype Call =
    | Begin(sessionId: SessionId, units: nat, turn: Option<TurnId>, engine: Option<Engine>, stage: BeginStage)
    | CloseSession(sessionId: SessionId, session: SessionStage)
    | CloseTurn(sessionId: SessionId, ended: TurnId, loop: LoopStage)

  /**
   What outlives a process besides its journal. `adrift` are reserve requests that were under way when their process
   died, with what they ask for: they may still take effect. The rest is history, on which nothing depends: of the runs
   in `denied` a settlement was answered that they have no reservation, those in `forgot` were dropped from the journal
   for it, and those in `lost` had their reservation take effect all the same.
   */
  datatype Past = Past(adrift: map<RunId, nat>, denied: set<RunId>, forgot: set<RunId>, lost: set<RunId>)

  datatype World = World(
    configured: bool,
    cells: map<RunId, Entry>,
    entries: seq<RunId>,
    settling: map<RunId, OpId>,
    ops: map<OpId, Op>,
    pending: map<SessionId, set<RunId>>,
    released: set<SessionId>,
    ready: LoopStage,
    calls: map<CallId, Call>,
    disk: seq<Entry>,
    reserving: map<RunId, Reservation>,
    ledger: map<RunId, Account>,
    sent: set<Sent>,
    past: Past,
    nextId: nat)

  const BLANK := Entry(0, 0, None, None, None, false)

  function CellOf(cells: map<RunId, Entry>, r: RunId): Entry {
    if r in cells then cells[r] else BLANK
  }

  function Journal(cells: map<RunId, Entry>, entries: seq<RunId>): seq<Entry> {
    seq(|entries|, i requires 0 <= i < |entries| => CellOf(cells, entries[i]))
  }

  function Saved(w: World): World {
    w.(disk := Journal(w.cells, w.entries))
  }

  /** The amount a run is charged: the estimate of an ACP turn that was submitted, and nothing otherwise. */
  function Amount(entry: Entry): nat {
    if entry.engine == Some(Acp) && entry.turnId.Some? then (if entry.units.Some? then entry.units.value else 0) else 0
  }

  /** `findIndex` and `splice`. */
  function Removed(entries: seq<RunId>, r: RunId): seq<RunId> {
    if entries == [] then []
    else if entries[0] == r then entries[1..]
    else [entries[0]] + Removed(entries[1..], r)
  }

  predicate Flying(w: World, r: RunId) {
    r in w.reserving && w.reserving[r].InFlight?
  }

  predicate OpDone(w: World, o: OpId) {
    o in w.ops && w.ops[o].phase.Resolved?
  }

  predicate OpOk(w: World, o: OpId) {
    OpDone(w, o) && w.ops[o].phase.ok
  }

  // ---------------------------------------------------------------- release

  /** `release`: joins the settlement under way, or starts one up to its first await. */
  function StartRelease(w: World, r: RunId): (World, OpId) {
    if r in w.settling then (w, w.settling[r])
    else
      var o := w.nextId;
      if !w.configured then
        (w.(ops := w.ops[o := Op(r, Returned(false))], settling := w.settling[r := o], nextId := o + 1), o)
      else
        var listed := r in w.entries && r in w.cells;
        var marked := if listed then Saved(w.(cells := w.cells[r := w.cells[r].(finished := true)])) else w;
        (marked.(ops := w.ops[o := Op(r, Awaiting)], settling := w.settling[r := o], nextId := o + 1,
                 sent := w.sent + {Sent(r, if listed then Amount(w.cells[r]) else 0, listed)}), o)
  }

  predicate IsOpen(w: World, r: RunId) {
    r in w.ledger && w.ledger[r].Reserved?
  }

  function Denied(w: World, r: RunId): Past {
    w.past.(denied := w.past.denied + {r})
  }

  /** A run is dropped for want of a reservation. If it has one by now, that is lost. */
  function Dropped(w: World, r: RunId): (past: Past)
    ensures past.denied == w.past.denied && past.adrift == w.past.adrift
  {
    w.past.(forgot := w.past.forgot + {r}, lost := if IsOpen(w, r) then w.past.lost + {r} else w.past.lost)
  }

  /** `#release` after its await. A missing reservation counts as settled; other errors keep the entry. */
  function ContinueRelease(w: World, o: OpId): World
    requires o in w.ops && w.ops[o].phase.Answered?
  {
    var op := w.ops[o];
    if op.phase.answer.Broken? then w.(ops := w.ops[o := Op(op.runId, Returned(false))])
    else
      Saved(w.(entries := Removed(w.entries, op.runId), ops := w.ops[o := Op(op.runId, Returned(true))],
               past := if op.phase.answer.Missing? then Dropped(w, op.runId) else w.past))
  }

  /** The `finally` of `release`. */
  function FinallyRelease(w: World, o: OpId): World
    requires o in w.ops && w.ops[o].phase.Returned?
  {
    var op := w.ops[o];
    w.(ops := w.ops[o := Op(op.runId, Resolved(op.phase.ok))], settling := w.settling - {op.runId})
  }

  /** `Promise.all` over releases of a list of runs: they all start at once. */
  function ReleaseAll(w: World, runs: seq<RunId>): (World, set<OpId>)
    decreases |runs|
  {
    if runs == [] then (w, {})
    else
      var (next, o) := StartRelease(w, runs[0]);
      var (last, ops) := ReleaseAll(next, runs[1..]);
      (last, ops + {o})
  }

  /** One turn of `for (const entry of list) if (test) await this.release(entry.runId)`. */
  function LoopTurn(w: World, loop: LoopStage, chosen: bool): (World, LoopStage) {
    match loop
    case Ended(_) => (w, loop)
    case Looping(rest, Some(o)) =>
      if !OpDone(w, o) then (w, loop)
      else if w.ops[o].phase.ok then (w, Looping(rest, None)) else (w, Ended(false))
    case Looping(rest, None) =>
      if rest == [] then (w, Ended(true))
      else if !chosen then (w, Looping(rest[1..], None))
      else
        var (next, o) := StartRelease(w, rest[0]);
        (next, Looping(rest[1..], Some(o)))
  }

  function SetCall(w: World, c: CallId, call: Call): World {
    w.(calls := w.calls[c := call])
  }

  // ---------------------------------------------------------------- begin

  function SetStage(w: World, c: CallId, stage: BeginStage): World
    requires c in w.calls && w.calls[c].Begin?
  {
    SetCall(w, c, w.calls[c].(stage := stage))
  }

  /** After `await this.ready`. */
  function BeginReady(w: World, c: CallId): World
    requires c in w.calls && w.calls[c].Begin? && w.ready.Ended?
  {
    if !w.ready.ok || !w.configured || w.calls[c].sessionId in w.released then SetStage(w, c, Refused)
    else SetStage(w, c, AtSettling(w.settling.Values))
  }

  /** After `Promise.all(this.#settling.values())`. */
  function BeginSettled(w: World, c: CallId): World
    requires c in w.calls && w.calls[c].Begin? && w.calls[c].stage.AtSettling?
  {
    var awaited := w.calls[c].stage.awaited;
    if exists o :: o in awaited && OpDone(w, o) && !OpOk(w, o) then SetStage(w, c, Refused)
    else if forall o :: o in awaited ==> OpOk(w, o) then SetStage(w, c, AtDrain(w.entries, None))
    else w
  }

  /** The loop over finished entries, and after it everything up to the reserve request. */
  function BeginDrain(w: World, c: CallId): World
    requires c in w.calls && w.calls[c].Begin? && w.calls[c].stage.AtDrain?
  {
    var call := w.calls[c];
    var finished := call.stage.rest != [] && CellOf(w.cells, call.stage.rest[0]).finished;
    var (next, loop) := LoopTurn(w, Looping(call.stage.rest, call.stage.waiting), finished);
    match loop
    case Looping(rest, waiting) => next.(calls := next.calls[c := call.(stage := AtDrain(rest, waiting))])
    case Ended(ok) =>
      if !ok || call.sessionId in w.released then SetCall(next, c, call.(stage := Refused)) else BeginReserve(w, c)
  }

  function PendingOf(w: World, s: SessionId): set<RunId> {
    if s in w.pending then w.pending[s] else {}
  }

  function BeginReserve(w: World, c: CallId): World
    requires c in w.calls && w.calls[c].Begin?
  {
    var call := w.calls[c];
    var r := w.nextId;
    var entry := Entry(r, call.sessionId, call.engine, Some(call.units), call.turn, false);
    Saved(w.(cells := w.cells[r := entry], entries := w.entries + [r], nextId := r + 1,
             reserving := w.reserving[r := InFlight],
             pending := w.pending[call.sessionId := PendingOf(w, call.sessionId) + {r}],
             calls := w.calls[c := call.(stage := AtReserve(r))]))
  }

  function Unpend(w: World, s: SessionId, r: RunId): World {
    var left := PendingOf(w, s) - {r};
    w.(pending := if left == {} then w.pending - {s} else w.pending[s := left])
  }

  /** After `await reservation`: success is admitted unless the session was released meanwhile. */
  function BeginReserved(w: World, c: CallId): World
    requires c in w.calls && w.calls[c].Begin? && w.calls[c].stage.AtReserve?
    requires w.calls[c].stage.runId in w.reserving && !w.reserving[w.calls[c].stage.runId].InFlight?
  {
    var call := w.calls[c];
    var r := call.stage.runId;
    if w.reserving[r].Failed? then
      var (next, o) := StartRelease(w, r);
      SetCall(next, c, call.(stage := AtCleanup(r, o)))
    else
      SetCall(Unpend(w, call.sessionId, r), c,
              call.(stage := if call.sessionId in w.released then Refused else Admitted(r)))
  }

  /** After the failed reservation was released, successfully or not. */
  function BeginCleaned(w: World, c: CallId): World
    requires c in w.calls && w.calls[c].Begin? && w.calls[c].stage.AtCleanup?
  {
    var call := w.calls[c];
    SetCall(Unpend(w, call.sessionId, call.stage.runId), c, call.(stage := Refused))
  }

  // ---------------------------------------------------------------- started, ended, releaseSession

  function WithTurn(entry: Entry, s: SessionId, t: TurnId): Entry {
    if entry.sessionId == s && entry.turnId.None? && !entry.finished then entry.(turnId := Some(t)) else entry
  }

  /** `started`: the open entries of the session that have no turn get this one. */
  function Start(w: World, s: SessionId, t: TurnId): World {
    Saved(w.(cells := map r | r in w.cells :: if r in w.entries then WithTurn(w.cells[r], s, t) else w.cells[r]))
  }

  function OfSession(w: World, runs: seq<RunId>, s: SessionId): seq<RunId> {
    if runs == [] then []
    else if CellOf(w.cells, runs[0]).sessionId == s then [runs[0]] + OfSession(w, runs[1..], s)
    else OfSession(w, runs[1..], s)
  }

  function CallCloseSession(w: World, s: SessionId): World {
    w.(released := w.released + {s}, calls := w.calls[w.nextId := CloseSession(s, AtPending(PendingOf(w, s)))],
       nextId := w.nextId + 1)
  }

  /** After every reservation promise of the session has settled one way or the other. */
  function SessionPending(w: World, c: CallId): World
    requires c in w.calls && w.calls[c].CloseSession? && w.calls[c].session.AtPending?
  {
    if exists r :: r in w.calls[c].session.awaited && Flying(w, r) then w
    else
      var (next, ops) := ReleaseAll(w, OfSession(w, w.entries, w.calls[c].sessionId));
      SetCall(next, c, w.calls[c].(session := AtReleases(ops)))
  }

  function SessionDone(w: World, c: CallId): World
    requires c in w.calls && w.calls[c].CloseSession? && w.calls[c].session.AtReleases?
  {
    var ops := w.calls[c].session.ops;
    if exists o :: o in ops && OpDone(w, o) && !OpOk(w, o) then SetCall(w, c, w.calls[c].(session := Done(false)))
    else if forall o :: o in ops ==> OpOk(w, o) then SetCall(w, c, w.calls[c].(session := Done(true)))
    else w
  }

  /** Whether the next entry of an `ended` loop belongs to the turn. */
  predicate TurnMatches(w: World, call: Call)
    requires call.CloseTurn?
  {
    call.loop.Looping? && call.loop.waiting.None? && call.loop.rest != [] &&
    CellOf(w.cells, call.loop.rest[0]).sessionId == call.sessionId &&
    CellOf(w.cells, call.loop.rest[0]).turnId == Some(call.ended)
  }

  function TurnStep(w: World, c: CallId): World
    requires c in w.calls && w.calls[c].CloseTurn?
  {
    var call := w.calls[c];
    var (next, loop) := LoopTurn(w, call.loop, TurnMatches(w, call));
    SetCall(next, c, call.(loop := loop))
  }

  // ---------------------------------------------------------------- steps

  datatype Event =
    | CallBegin(sessionId: SessionId, units: nat, turn: Option<TurnId>, engine: Option<Engine>)
    | ResumeBegin(call: CallId)
    | CallRelease(runId: RunId)
    | CallReleaseSession(sessionId: SessionId)
    | ResumeSession(call: CallId)
    | CallEnded(sessionId: SessionId, ended: TurnId)
    | ResumeEnded(call: CallId)
    | Started(sessionId: SessionId, ended: TurnId)
    | Recover
    | Continue(op: OpId)
    | Finally(op: OpId)
    | ReserveLands(runId: RunId)
    | ReserveReplies(runId: RunId, reply: Reservation)
    | StrayLands(runId: RunId)
    | SettleLands(request: Sent)
    | SettleReplies(op: OpId, answer: Answer)
    | Crash

  /**
   What the ledger and the network may do: a reservation takes effect only before its request is answered, and is
   confirmed only if it did; settling is idempotent and its answers are truthful when given; and a request that got no
   answer may still be processed at any later time, after a crash too: a settlement any number of times, a reservation
   once.
   */
  predicate Possible(w: World, e: Event) {
    match e
    case CallBegin(_, _, _, _) => true
    case ResumeBegin(c) =>
      c in w.calls && w.calls[c].Begin? &&
      (match w.calls[c].stage
       case AtReady => w.ready.Ended?
       case AtReserve(r) => r in w.reserving && !w.reserving[r].InFlight?
       case AtCleanup(_, o) => OpDone(w, o)
       case Admitted(_) => false
       case Refused => false
       case _ => true)
    case CallRelease(r) => exists c :: c in w.calls && w.calls[c].Begin? && w.calls[c].stage == Admitted(r)
    case CallReleaseSession(_) => true
    case ResumeSession(c) => c in w.calls && w.calls[c].CloseSession? && !w.calls[c].session.Done?
    case CallEnded(_, _) => true
    case ResumeEnded(c) => c in w.calls && w.calls[c].CloseTurn? && w.calls[c].loop.Looping?
    case Started(_, _) => true
    case Recover => w.ready.Looping?
    case Continue(o) => o in w.ops && w.ops[o].phase.Answered?
    case Finally(o) => o in w.ops && w.ops[o].phase.Returned?
    case ReserveLands(r) => Flying(w, r) && r in w.cells && r !in w.ledger
    case ReserveReplies(r, reply) => Flying(w, r) && !reply.InFlight? && (reply.Confirmed? ==> r in w.ledger)
    case StrayLands(r) => r in w.past.adrift && r !in w.ledger
    case SettleLands(request) => request in w.sent && request.runId in w.ledger
    case SettleReplies(o, answer) =>
      o in w.ops && w.ops[o].phase.Awaiting? &&
      (answer.Accepted? ==> w.ops[o].runId in w.ledger && w.ledger[w.ops[o].runId].Settled?) &&
      (answer.Missing? ==> w.ops[o].runId !in w.ledger)
    case Crash => true
  }

  /** The callers' part: a turn is reported as ended only after the reservations made for it were answered. */
  predicate Polite(w: World, e: Event) {
    e.ResumeEnded? && e.call in w.calls && w.calls[e.call].CloseTurn? && TurnMatches(w, w.calls[e.call]) ==>
      !Flying(w, w.calls[e.call].loop.rest[0])
  }

  function Reloaded(disk: seq<Entry>): map<RunId, Entry> {
    if disk == [] then map[] else Reloaded(disk[..|disk| - 1])[disk[|disk| - 1].runId := disk[|disk| - 1]]
  }

  function RunIds(disk: seq<Entry>): seq<RunId> {
    seq(|disk|, i requires 0 <= i < |disk| => disk[i].runId)
  }

  function UnitsOf(w: World, r: RunId): nat {
    var entry := CellOf(w.cells, r);
    if entry.units.Some? then entry.units.value else 0
  }

  /** The reserve requests that a dying process leaves behind, with those left behind before. */
  function Adrift(w: World): map<RunId, nat> {
    map r | r in w.past.adrift.Keys + w.reserving.Keys && (r in w.past.adrift || Flying(w, r)) ::
      if r in w.past.adrift then w.past.adrift[r] else UnitsOf(w, r)
  }

  /** A new process on the journal. The old one gets no more answers, but its requests are still on their way. */
  function Restarted(w: World): World {
    World(w.configured, Reloaded(w.disk), RunIds(w.disk), map[], map[], map[], {}, Looping(RunIds(w.disk), None),
          map[], w.disk, map[], w.ledger, w.sent, w.past.(adrift := Adrift(w)), w.nextId)
  }

  /** A reservation takes effect whose process died. */
  function Stray(w: World, r: RunId): World
    requires r in w.past.adrift
  {
    w.(ledger := w.ledger[r := Reserved(w.past.adrift[r])],
       past := if r in w.past.forgot then w.past.(lost := w.past.lost + {r}) else w.past)
  }

  function Next(w: World, e: Event): World
    requires Possible(w, e)
  {
    match e
    case CallBegin(s, units, turn, engine) =>
      w.(calls := w.calls[w.nextId := Begin(s, units, turn, engine, AtReady)], nextId := w.nextId + 1)
    case ResumeBegin(c) =>
      (match w.calls[c].stage
       case AtReady => BeginReady(w, c)
       case AtSettling(_) => BeginSettled(w, c)
       case AtDrain(_, _) => BeginDrain(w, c)
       case AtReserve(_) => BeginReserved(w, c)
       case _ => BeginCleaned(w, c))
    case CallRelease(r) => StartRelease(w, r).0
    case CallReleaseSession(s) => CallCloseSession(w, s)
    case ResumeSession(c) => if w.calls[c].session.AtPending? then SessionPending(w, c) else SessionDone(w, c)
    case CallEnded(s, t) =>
      w.(calls := w.calls[w.nextId := CloseTurn(s, t, Looping(w.entries, None))], nextId := w.nextId + 1)
    case ResumeEnded(c) => TurnStep(w, c)
    case Started(s, t) => Start(w, s, t)
    case Recover =>
      var (next, loop) := LoopTurn(w, w.ready, true);
      next.(ready := loop)
    case Continue(o) => ContinueRelease(w, o)
    case Finally(o) => FinallyRelease(w, o)
    case ReserveLands(r) =>
      w.(ledger := w.ledger[r := Reserved(UnitsOf(w, r))])
    case StrayLands(r) => Stray(w, r)
    case ReserveReplies(r, reply) => w.(reserving := w.reserving[r := reply])
    case SettleLands(request) =>
      if w.ledger[request.runId].Settled? then w else w.(ledger := w.ledger[request.runId := Settled(request.amount)])
    case SettleReplies(o, answer) =>
      w.(ops := w.ops[o := Op(w.ops[o].runId, Answered(answer))],
         past := if answer.Missing? then Denied(w, w.ops[o].runId) else w.past)
    case Crash => Restarted(w)
  }
}
