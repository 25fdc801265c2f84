/**
 The journal and the runner of shared turns as the program runs them. A method runs from one await to the next; which
 one runs next is up to the event loop, the ledger and the network.
 */
module SharedTurnRunner {
  import opened Common
  import opened SharedTurnModel
  import opened SharedTurns

  class QuotaSharedTurnRunner {
    /** The entry objects, and the journal's map to them. */
    var cells: map<Ref, Entry>
    var journal: map<RunId, Ref>
    var cancelled: set<RunId>
    /** The executions under way; their runs are `#active`. */
    var calls: map<CallId, Call>
    var reconciler: Reconciler
    /** The journal on disk. */
    var disk: map<RunId, Entry>
    var claims: map<CallId, Claim>
    var nextId: nat
    /** The ledger, which is another process, what was sent to it, what the engine started, and how it ended. */
    var ledger: map<RunId, Admission>
    ghost var sent: set<Request>
    /** What recovery sent blindly. */
    ghost var blind: set<Request>
    ghost var engine: set<CallId>
    ghost var outcomes: map<RunId, Charge>

    ghost function Seen(): World
      reads this
    {
      World(cells, journal, cancelled, calls, reconciler, disk, ledger, claims, sent, blind, engine, outcomes, nextId)
    }

    /** A process that starts on the journal of the one before it. */
    constructor (before: World)
      ensures Seen() == Restarted(before)
    {
      cells := LoadedCells(before.disk);
      journal := map r | r in before.disk :: Loaded(r);
      cancelled, calls, reconciler := {}, map[], Idle;
      disk, claims, nextId := before.disk, before.claims, before.nextId;
      ledger, sent, blind, engine, outcomes := before.ledger, before.sent, before.blind, before.engine, before.outcomes;
    }

    // -------------------------------------------------------------- the journal

    method Save()
      modifies this`disk
      ensures disk == Snapshot(cells, journal)
    {
      disk := Snapshot(cells, journal);
    }

    method TrackEntry(run: RunId, entry: Ref)
      modifies this`journal, this`disk
      ensures Seen() == Track(old(Seen()), run, entry)
    {
      journal := journal[run := entry];
      Save();
    }

    method ReleaseRun(run: RunId)
      modifies this`journal, this`disk
      ensures Seen() == Release(old(Seen()), run)
    {
      if run in journal {
        journal := journal - {run};
        Save();
      }
    }

    method IsActive(run: RunId) returns (active: bool)
      ensures active <==> Active(Seen(), run)
    {
      active := false;
      var left := calls.Keys;
      while left != {}
        invariant left <= calls.Keys
        invariant active <==> exists c :: c in calls && c !in left && calls[c].runId == run
        decreases |left|
      {
        var c :| c in left;
        left := left - {c};
        if calls[c].runId == run {
          active := true;
        }
      }
    }

    // -------------------------------------------------------------- executeSharedTurn

    /** The entry is in the journal before the claim is sent; a run that is active already is refused. */
    method ExecuteSharedTurn(run: RunId, payer: nat, bytes: nat) returns (call: Option<CallId>)
      requires run in journal ==> journal[run] in cells
      modifies this
      ensures Seen() == Execute(old(Seen()), run, payer, bytes)
      ensures call.None? <==> Active(old(Seen()), run)
      ensures call.Some? ==> run in disk && call.value in calls
    {
      hide Active;
      var active := IsActive(run);
      if active {
        return None;
      }
      var c := nextId;
      nextId := nextId + 1;
      var entry := Made(c);
      if run in journal {
        entry := journal[run];
      } else {
        cells := cells[entry := Entry(run, payer, EstimatedUnits(bytes), None)];
      }
      TrackEntry(run, entry);
      calls := calls[c := Call(run, entry, Claiming)];
      claims := claims[c := Claim(run, None)];
      return Some(c);
    }

    /** The `finally` of an execution. */
    method LeaveCall(c: CallId)
      requires c in calls
      modifies this`calls, this`cancelled
      ensures Seen() == Leave(old(Seen()), c)
    {
      cancelled := cancelled - {calls[c].runId};
      calls := calls - {c};
    }

    /** After the claim: only the one that won it goes on to the engine. */
    method AfterClaim(c: CallId, lost: bool)
      requires c in calls && calls[c].stage.Claiming? && c in claims && (lost || claims[c].reply.Some?)
      requires calls[c].entry in cells
      modifies this
      ensures Seen() == Claimed(old(Seen()), c, lost)
    {
      if lost {
        LeaveCall(c);
        return;
      }
      match claims[c].reply.value {
        case AlreadySettled =>
          ReleaseRun(calls[c].runId);
          LeaveCall(c);
        case AlreadyAccepted => LeaveCall(c);
        case NotAdmitted => LeaveCall(c);
        case Won =>
          if calls[c].runId in cancelled {
            EngineEnded(c, false);
          } else {
            calls := calls[c := calls[c].(stage := Running)];
            engine := engine + {c};
          }
      }
    }

    /** The outcome is in the journal before it is sent. */
    method EngineEnded(c: CallId, success: bool)
      requires c in calls && calls[c].entry in cells
      modifies this
      ensures Seen() == Conclude(old(Seen()), c, success)
    {
      var call := calls[c];
      var entry := cells[call.entry];
      entry := entry.(actual := Some(if success then entry.estimated else 0));
      cells := cells[call.entry := entry];
      TrackEntry(call.runId, call.entry);
      sent := sent + {Request(call.runId, ChargeOf(entry))};
      outcomes := outcomes[call.runId := ChargeOf(entry)];
      calls := calls[c := call.(stage := Closing)];
    }

    method AfterSettle(c: CallId, ok: bool)
      requires c in calls
      modifies this
      ensures Seen() == Closed(old(Seen()), c, ok)
    {
      if ok {
        ReleaseRun(calls[c].runId);
      }
      LeaveCall(c);
    }

    method CancelSharedTurn(run: RunId)
      modifies this`cancelled
      ensures Seen() == Next(old(Seen()), SharedTurnModel.Event.Cancel(run))
    {
      hide Active;
      var active := IsActive(run);
      if active {
        cancelled := cancelled + {run};
      }
    }

    // -------------------------------------------------------------- reconcileInterrupted

    /** The entries of the journal, in its order. */
    method BeginReconciling(order: seq<RunId>)
      requires reconciler.Idle? && forall i :: 0 <= i < |order| ==> order[i] in journal
      modifies this`reconciler
      ensures Seen() == Next(old(Seen()), SharedTurnModel.Event.Reconcile(order))
    {
      var rest: seq<Ref> := [];
      for i := 0 to |order|
        invariant |rest| == i && forall j :: 0 <= j < i ==> rest[j] == journal[order[j]]
      {
        rest := rest + [journal[order[i]]];
      }
      assert rest == RefsOf(journal, order);
      reconciler := Turning(rest);
    }

    method ReconcileNext()
      requires reconciler.Turning?
      modifies this`reconciler
      ensures Seen() == Turn(old(Seen()))
    {
      hide Active;
      var rest := reconciler.rest;
      if rest == [] {
        reconciler := Idle;
        return;
      }
      if rest[0] in cells {
        var active := IsActive(cells[rest[0]].runId);
        if active {
          reconciler := Turning(rest[1..]);
          return;
        }
      }
      reconciler := Looking(rest[0], rest[1..], None);
    }

    method AfterLookup()
      requires reconciler.Looking? && reconciler.reply.Some? && reconciler.entry in cells
      modifies this
      ensures Seen() == Looked(old(Seen()))
    {
      hide Active;
      var o, rest := reconciler.entry, reconciler.rest;
      match reconciler.reply.value {
        case Failed => reconciler := Turning(rest);
        case Unknown => reconciler := Turning(rest);
        case Found(claimed, settled) =>
          var run := cells[o].runId;
          var active := IsActive(run);
          if active {
            reconciler := Turning(rest);
          } else if settled {
            ReleaseRun(run);
            reconciler := Turning(rest);
          } else if claimed == Some(false) {
            reconciler := Turning(rest);
          } else {
            sent := sent + {Request(run, ChargeOf(cells[o]))};
            blind := if claimed.None? then blind + {Request(run, ChargeOf(cells[o]))} else blind;
            reconciler := SharedTurnModel.Reconciler.Settling(o, rest);
          }
      }
    }

    method AfterRecoverySettle(ok: bool)
      requires reconciler.Settling? && reconciler.entry in cells
      modifies this
      ensures Seen() == Reconciled(old(Seen()), ok)
    {
      if ok {
        ReleaseRun(cells[reconciler.entry].runId);
      }
      reconciler := Turning(reconciler.rest);
    }

    // -------------------------------------------------------------- any order of steps

    /** Whatever comes next, but a crash: the event loop resumes a call, a caller calls, or the network has news. */
    method Take(e: SharedTurnModel.Event)
      requires Inv(Seen()) && Possible(Seen(), e) && !e.Crash?
      modifies this
      ensures Seen() == Next(old(Seen()), e) && Inv(Seen())
    {
      hide Inv, Next;
      NextOk(Seen(), e);
      EntriesAreThere(Seen());
      if e.Admit? || e.ClaimLands? || e.SettleLands? || e.LookupLands? {
        TakeNews(e);
      } else if e.Reconcile? || e.ReconcileTurn? || e.LookupReplies? || e.ReconcileReplies? {
        TakeRecovery(e);
      } else {
        TakeExecution(e);
      }
    }

    /** The ledger processes a request. */
    method TakeNews(e: SharedTurnModel.Event)
      requires Possible(Seen(), e) && (e.Admit? || e.ClaimLands? || e.SettleLands? || e.LookupLands?)
      modifies this
      ensures Seen() == Next(old(Seen()), e)
    {
      match e {
        case Admit(run) => ledger := ledger[run := Admission(false, None)];
        case ClaimLands(c) =>
          var run := claims[c].runId;
          var reply := if run !in ledger then NotAdmitted else if ledger[run].settled.Some? then AlreadySettled
                       else if ledger[run].claimed then AlreadyAccepted else Won;
          claims := claims[c := Claim(run, Some(reply))];
          if reply == Won {
            ledger := ledger[run := Admission(true, None)];
          }
        case SettleLands(request) =>
          if !ledger[request.runId].settled.Some? {
            ledger := ledger[request.runId := ledger[request.runId].(settled := Some(request.charge))];
          }
        case LookupLands(reply) => reconciler := reconciler.(reply := Some(reply));
        case _ =>
      }
    }

    method TakeRecovery(e: SharedTurnModel.Event)
      requires Possible(Seen(), e) && (e.Reconcile? || e.ReconcileTurn? || e.LookupReplies? || e.ReconcileReplies?)
      modifies this
      ensures Seen() == Next(old(Seen()), e)
    {
      hide Turn, Looked, Reconciled;
      match e {
        case Reconcile(order) => BeginReconciling(order);
        case ReconcileTurn => ReconcileNext();
        case LookupReplies => AfterLookup();
        case ReconcileReplies(ok) => AfterRecoverySettle(ok);
        case _ =>
      }
    }

    method TakeExecution(e: SharedTurnModel.Event)
      requires Possible(Seen(), e)
      requires e.Start? || e.ClaimReplies? || e.Cancel? || e.EngineEnds? || e.SettleReplies?
      requires (forall c :: c in calls ==> calls[c].entry in cells) && forall r :: r in journal ==> journal[r] in cells
      modifies this
      ensures Seen() == Next(old(Seen()), e)
    {
      hide Execute, Claimed, Conclude, Closed;
      match e {
        case Start(run, payer, bytes) => var _ := ExecuteSharedTurn(run, payer, bytes);
        case ClaimReplies(c, lost) => AfterClaim(c, lost);
        case Cancel(run) => CancelSharedTurn(run);
        case EngineEnds(c, success) => EngineEnded(c, success);
        case SettleReplies(c, ok) => AfterSettle(c, ok);
        case _ =>
      }
    }
  }

  lemma EntriesAreThere(w: World)
    requires Inv(w)
    ensures forall c :: c in w.calls ==> w.calls[c].entry in w.cells
    ensures forall r :: r in w.journal ==> w.journal[r] in w.cells
  {
  }
}
