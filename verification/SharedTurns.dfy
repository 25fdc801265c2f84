/** What every interleaving of shared turns keeps. */
module SharedTurns {
  import opened Common
  import opened SharedTurnModel

  /** Entries are filed under their run, and the journal on disk is the one in memory. */
  ghost predicate FiledOk(w: World) {
    (forall r :: r in w.journal ==> w.journal[r] in w.cells && w.cells[w.journal[r]].runId == r) &&
    (forall o :: o in w.cells ==> w.cells[o].estimated > 0 && (o.Made? ==> o.call < w.nextId)) &&
    w.disk == Snapshot(w.cells, w.journal)
  }

  ghost predicate ClaimSent(w: World, r: RunId) {
    exists c :: c in w.claims && w.claims[c].runId == r
  }

  /** A claim that is out was journaled, so a claimed run is in the journal until it is settled. */
  ghost predicate JournaledOk(w: World) {
    forall r :: (IsClaimed(w, r) || ClaimSent(w, r)) && !IsSettled(w, r) ==> r in w.journal
  }

  ghost predicate WonBy(w: World, c: CallId) {
    c in w.claims && w.claims[c].reply == Some(Won)
  }

  /** One claim per run is won, and only its call starts the engine. */
  ghost predicate ClaimsOk(w: World) {
    (forall c :: c in w.claims ==> c < w.nextId) &&
    (forall c :: WonBy(w, c) ==> IsClaimed(w, w.claims[c].runId)) &&
    (forall c :: c in w.claims && w.claims[c].reply == Some(AlreadySettled) ==> IsSettled(w, w.claims[c].runId)) &&
    (forall c, d :: WonBy(w, c) && WonBy(w, d) && w.claims[c].runId == w.claims[d].runId ==> c == d) &&
    forall c :: c in w.engine ==> WonBy(w, c)
  }

  /** The entry object is the journal's own for the run, unless the run is settled. */
  ghost predicate Filed(w: World, o: Ref, r: RunId) {
    o in w.cells && w.cells[o].runId == r && (IsSettled(w, r) || (r in w.journal && w.journal[r] == o))
  }

  /** Nothing was recorded for the run, and nothing sent but blindly. */
  ghost predicate Untouched(w: World, r: RunId) {
    r !in w.outcomes && forall x :: x in w.sent && x !in w.blind ==> x.runId != r
  }

  ghost predicate CallOk(w: World, c: CallId, call: Call) {
    c < w.nextId && c in w.claims && w.claims[c].runId == call.runId && Filed(w, call.entry, call.runId) &&
    (call.runId in w.journal ==> w.journal[call.runId] == call.entry) &&
    (call.stage.Claiming? ==> c !in w.engine) &&
    (!call.stage.Claiming? ==> WonBy(w, c)) &&
    (!call.stage.Closing? && WonBy(w, c) ==> Untouched(w, call.runId))
  }

  ghost predicate CallsOk(w: World) {
    (forall c :: c in w.calls ==> CallOk(w, c, w.calls[c])) &&
    forall c, d :: c in w.calls && d in w.calls && w.calls[c].runId == w.calls[d].runId ==> c == d
  }

  /** All that was recorded for the run, or sent but blindly, is this charge. */
  ghost predicate Agrees(w: World, r: RunId, charge: Charge) {
    (forall x :: x in w.sent && x !in w.blind && x.runId == r ==> x.charge == charge) &&
    (r in w.outcomes ==> w.outcomes[r] == charge)
  }

  /** Whatever was sent for a run agrees, with the outcome and with the journal; the ledger charges nothing else. */
  ghost predicate SentOk(w: World) {
    (forall x :: x in w.sent && x !in w.blind ==> IsClaimed(w, x.runId) && Agrees(w, x.runId, x.charge)) &&
    (forall r :: r in w.outcomes ==> IsClaimed(w, r)) &&
    (forall r :: r in w.journal && w.journal[r] in w.cells && !IsSettled(w, r) ==>
       Agrees(w, r, ChargeOf(w.cells[w.journal[r]]))) &&
    forall r :: IsSettled(w, r) ==> Request(r, w.ledger[r].settled.value) in w.sent
  }

  ghost predicate RestOk(w: World, rest: seq<Ref>) {
    forall i :: 0 <= i < |rest| ==> rest[i] in w.cells && Filed(w, rest[i], w.cells[rest[i]].runId)
  }

  function Held(reconciler: Reconciler): seq<Ref> {
    match reconciler
    case Idle => []
    case Turning(rest) => rest
    case Looking(o, rest, _) => [o] + rest
    case Settling(o, rest) => [o] + rest
  }

  /** An entry of the run of a call that won is that of the call. */
  ghost predicate Shared(w: World, o: Ref) {
    forall c :: c in w.calls && WonBy(w, c) && o in w.cells && w.cells[o].runId == w.calls[c].runId ==> o == w.calls[c].entry
  }

  /** Entries that reconciliation holds are filed, and those of runs that are executed are the executing call's. */
  ghost predicate HeldOk(w: World) {
    RestOk(w, Held(w.reconciler)) && forall i :: 0 <= i < |Held(w.reconciler)| ==> Shared(w, Held(w.reconciler)[i])
  }

  /** A reply that will lead to settling came for a claimed run, and the entry agrees with all that was sent. */
  ghost predicate LookOk(w: World) {
    w.reconciler.Looking? && w.reconciler.reply.Some? && w.reconciler.reply.value.Found? && w.reconciler.entry in w.cells ==>
      var o, reply := w.reconciler.entry, w.reconciler.reply.value;
      var r := w.cells[o].runId;
      (reply.settled ==> IsSettled(w, r)) &&
      (reply.claimed == Some(true) && !reply.settled ==> IsClaimed(w, r) && Agrees(w, r, ChargeOf(w.cells[o])))
  }

  ghost predicate Inv(w: World) {
    FiledOk(w) && JournaledOk(w) && ClaimsOk(w) && CallsOk(w) && SentOk(w) && HeldOk(w) && LookOk(w)
  }

  /** Reconciliation is about to settle an entry. */
  predicate Resends(w: World) {
    w.reconciler.Looking? && w.reconciler.reply.Some? && w.reconciler.entry in w.cells &&
    w.reconciler.reply.value.Found? && !w.reconciler.reply.value.settled &&
    w.reconciler.reply.value.claimed != Some(false) && !Active(w, w.cells[w.reconciler.entry].runId)
  }

  function Resent(w: World): World
    requires Resends(w)
  {
    var o := w.reconciler.entry;
    var request := Request(w.cells[o].runId, ChargeOf(w.cells[o]));
    w.(reconciler := Settling(o, w.reconciler.rest), sent := w.sent + {request},
       blind := if w.reconciler.reply.value.claimed.None? then w.blind + {request} else w.blind)
  }

  function Begun(w: World, c: CallId): World
    requires c in w.calls
  {
    w.(calls := w.calls[c := w.calls[c].(stage := Running)], engine := w.engine + {c})
  }

  // ---------------------------------------------------------------- steps, part by part

  lemma ExecuteFiled(w: World, r: RunId, payer: nat, bytes: nat)
    requires FiledOk(w)
    ensures FiledOk(Execute(w, r, payer, bytes))
  {
  }

  lemma ExecuteJournaled(w: World, r: RunId, payer: nat, bytes: nat)
    requires FiledOk(w) && JournaledOk(w)
    ensures JournaledOk(Execute(w, r, payer, bytes))
  {
  }

  lemma ExecuteClaims(w: World, r: RunId, payer: nat, bytes: nat)
    requires ClaimsOk(w)
    ensures ClaimsOk(Execute(w, r, payer, bytes))
  {
  }

  lemma ExecuteCalls(w: World, r: RunId, payer: nat, bytes: nat)
    requires FiledOk(w) && ClaimsOk(w) && CallsOk(w)
    ensures CallsOk(Execute(w, r, payer, bytes))
  {
    hide Execute, CallOk;
    ExecuteShape(w, r, payer, bytes);
    var n := Execute(w, r, payer, bytes);
    if !Active(w, r) {
      ExecuteNewCall(w, r, payer, bytes);
      forall d | d in w.calls ensures CallOk(n, d, n.calls[d]) {
        ExecuteOldCall(w, r, payer, bytes, d);
      }
      assert forall d :: d in n.calls ==> d == w.nextId || d in w.calls;
    }
  }

  lemma ExecuteSent(w: World, r: RunId, payer: nat, bytes: nat)
    requires FiledOk(w) && JournaledOk(w) && SentOk(w)
    ensures SentOk(Execute(w, r, payer, bytes))
  {
  }

  lemma ExecuteHeld(w: World, r: RunId, payer: nat, bytes: nat)
    requires FiledOk(w) && HeldOk(w)
    ensures HeldOk(Execute(w, r, payer, bytes))
  {
  }

  lemma ExecuteLook(w: World, r: RunId, payer: nat, bytes: nat)
    requires FiledOk(w) && HeldOk(w) && LookOk(w)
    ensures LookOk(Execute(w, r, payer, bytes))
  {
    assert w.reconciler.Looking? ==> Held(w.reconciler)[0] == w.reconciler.entry;
  }

  lemma ExecuteOk(w: World, r: RunId, payer: nat, bytes: nat)
    requires Inv(w)
    ensures Inv(Execute(w, r, payer, bytes))
  {
    hide FiledOk, JournaledOk, ClaimsOk, CallsOk, SentOk, HeldOk, LookOk, Execute, Conclude, Release, Leave;
    ExecuteFiled(w, r, payer, bytes);
    ExecuteJournaled(w, r, payer, bytes);
    ExecuteClaims(w, r, payer, bytes);
    ExecuteCalls(w, r, payer, bytes);
    ExecuteSent(w, r, payer, bytes);
    ExecuteHeld(w, r, payer, bytes);
    ExecuteLook(w, r, payer, bytes);
  }

  lemma ClaimLandsBooks(w: World, c: CallId)
    requires FiledOk(w) && JournaledOk(w)
    requires Possible(w, ClaimLands(c))
    ensures FiledOk(Next(w, ClaimLands(c))) && JournaledOk(Next(w, ClaimLands(c)))
  {
  }

  lemma ClaimLandsClaims(w: World, c: CallId)
    requires ClaimsOk(w)
    requires Possible(w, ClaimLands(c))
    ensures ClaimsOk(Next(w, ClaimLands(c)))
  {
  }

  lemma ClaimLandsCalls(w: World, c: CallId)
    requires ClaimsOk(w) && CallsOk(w) && SentOk(w)
    requires Possible(w, ClaimLands(c))
    ensures CallsOk(Next(w, ClaimLands(c)))
  {
  }

  lemma ClaimLandsSent(w: World, c: CallId)
    requires FiledOk(w) && SentOk(w)
    requires Possible(w, ClaimLands(c))
    ensures SentOk(Next(w, ClaimLands(c)))
  {
  }

  lemma ClaimLandsReconciler(w: World, c: CallId)
    requires FiledOk(w) && CallsOk(w) && HeldOk(w) && LookOk(w)
    requires Possible(w, ClaimLands(c))
    ensures HeldOk(Next(w, ClaimLands(c))) && LookOk(Next(w, ClaimLands(c)))
  {
    var n := Next(w, ClaimLands(c));
    var held := Held(w.reconciler);
    forall i | 0 <= i < |held| ensures held[i] in w.cells && Filed(w, held[i], w.cells[held[i]].runId) && Shared(n, held[i]) {
      ClaimLandsShares(w, c, held[i]);
    }
    hide Shared, CallOk;
  }

  /** A claim is won while its run is not settled, so the call's entry and a held one are both the journal's. */
  lemma ClaimLandsShares(w: World, c: CallId, o: Ref)
    requires CallsOk(w) && Possible(w, ClaimLands(c)) && o in w.cells && Filed(w, o, w.cells[o].runId) && Shared(w, o)
    ensures Shared(Next(w, ClaimLands(c)), o)
  {
    var n := Next(w, ClaimLands(c));
    forall d | d in n.calls && WonBy(n, d) && w.cells[o].runId == n.calls[d].runId ensures o == n.calls[d].entry {
      assert CallOk(w, d, w.calls[d]);
      assert d != c ==> WonBy(w, d);
    }
  }

  lemma ClaimLandsOk(w: World, c: CallId)
    requires Inv(w)
    requires Possible(w, ClaimLands(c))
    ensures Inv(Next(w, ClaimLands(c)))
  {
    hide FiledOk, JournaledOk, ClaimsOk, CallsOk, SentOk, HeldOk, LookOk, Execute, Conclude, Release, Leave;
    ClaimLandsBooks(w, c);
    ClaimLandsClaims(w, c);
    ClaimLandsCalls(w, c);
    ClaimLandsSent(w, c);
    ClaimLandsReconciler(w, c);
  }

  lemma BeginBooks(w: World, c: CallId)
    requires FiledOk(w) && JournaledOk(w)
    requires c in w.calls && w.calls[c].stage.Claiming? && WonBy(w, c)
    ensures FiledOk(Begun(w, c)) && JournaledOk(Begun(w, c))
  {
  }

  lemma BeginClaims(w: World, c: CallId)
    requires ClaimsOk(w)
    requires c in w.calls && w.calls[c].stage.Claiming? && WonBy(w, c)
    ensures ClaimsOk(Begun(w, c))
  {
  }

  lemma BeginCalls(w: World, c: CallId)
    requires ClaimsOk(w) && CallsOk(w)
    requires c in w.calls && w.calls[c].stage.Claiming? && WonBy(w, c)
    ensures CallsOk(Begun(w, c))
  {
  }

  lemma BeginSent(w: World, c: CallId)
    requires FiledOk(w) && SentOk(w)
    requires c in w.calls && w.calls[c].stage.Claiming? && WonBy(w, c)
    ensures SentOk(Begun(w, c))
  {
  }

  lemma BeginReconciler(w: World, c: CallId)
    requires FiledOk(w) && HeldOk(w) && LookOk(w)
    requires c in w.calls && w.calls[c].stage.Claiming? && WonBy(w, c)
    ensures HeldOk(Begun(w, c)) && LookOk(Begun(w, c))
  {
  }

  lemma BeginOk(w: World, c: CallId)
    requires Inv(w)
    requires c in w.calls && w.calls[c].stage.Claiming? && WonBy(w, c)
    ensures Inv(Begun(w, c))
  {
    hide FiledOk, JournaledOk, ClaimsOk, CallsOk, SentOk, HeldOk, LookOk, Execute, Conclude, Release, Leave;
    BeginBooks(w, c);
    BeginClaims(w, c);
    BeginCalls(w, c);
    BeginSent(w, c);
    BeginReconciler(w, c);
  }

  lemma ConcludeFiled(w: World, c: CallId, success: bool)
    requires FiledOk(w) && CallsOk(w) && SentOk(w)
    requires c in w.calls && !w.calls[c].stage.Closing? && WonBy(w, c)
    ensures FiledOk(Conclude(w, c, success))
  {
    hide Conclude;
    ConcludeShape(w, c, success);
  }

  lemma ConcludeJournaled(w: World, c: CallId, success: bool)
    requires FiledOk(w) && JournaledOk(w) && CallsOk(w) && SentOk(w)
    requires c in w.calls && !w.calls[c].stage.Closing? && WonBy(w, c)
    ensures JournaledOk(Conclude(w, c, success))
  {
    hide Conclude;
    ConcludeShape(w, c, success);
  }

  lemma ConcludeClaims(w: World, c: CallId, success: bool)
    requires ClaimsOk(w)
    requires c in w.calls && !w.calls[c].stage.Closing? && WonBy(w, c)
    ensures ClaimsOk(Conclude(w, c, success))
  {
  }

  lemma ConcludeCalls(w: World, c: CallId, success: bool)
    requires FiledOk(w) && CallsOk(w) && SentOk(w)
    requires c in w.calls && !w.calls[c].stage.Closing? && WonBy(w, c)
    ensures CallsOk(Conclude(w, c, success))
  {
    hide Conclude, JournaledOk, Snapshot;
    ConcludeShape(w, c, success);
    var n := Conclude(w, c, success);
    forall d | d in n.calls ensures CallOk(n, d, n.calls[d]) {
      assert CallOk(w, d, w.calls[d]);
    }
  }

  lemma ConcludeSent(w: World, c: CallId, success: bool)
    requires FiledOk(w) && ClaimsOk(w) && CallsOk(w) && SentOk(w)
    requires c in w.calls && !w.calls[c].stage.Closing? && WonBy(w, c)
    ensures SentOk(Conclude(w, c, success))
  {
    hide Conclude, ClaimsOk, Snapshot;
    WinnerClaimed(w, c);
    ConcludeShape(w, c, success);
    var n := Conclude(w, c, success);
    var r := w.calls[c].runId;
    var o := w.calls[c].entry;
    forall x | x in n.sent && x !in n.blind ensures IsClaimed(n, x.runId) && Agrees(n, x.runId, x.charge) {
      assert x.runId != r ==> x in w.sent && Agrees(w, x.runId, x.charge);
    }
    forall q | q in n.journal && n.journal[q] in n.cells && !IsSettled(n, q)
      ensures Agrees(n, q, ChargeOf(n.cells[n.journal[q]]))
    {
      assert q != r ==> Agrees(w, q, ChargeOf(w.cells[w.journal[q]]));
    }
  }

  lemma ConcludeHeld(w: World, c: CallId, success: bool)
    requires FiledOk(w) && CallsOk(w) && SentOk(w) && HeldOk(w)
    requires c in w.calls && !w.calls[c].stage.Closing? && WonBy(w, c)
    ensures HeldOk(Conclude(w, c, success))
  {
    hide Conclude;
    ConcludeShape(w, c, success);
  }

  lemma ConcludeLook(w: World, c: CallId, success: bool)
    requires FiledOk(w) && CallsOk(w) && SentOk(w) && HeldOk(w) && LookOk(w)
    requires c in w.calls && !w.calls[c].stage.Closing? && WonBy(w, c)
    ensures LookOk(Conclude(w, c, success))
  {
    hide Conclude;
    ConcludeShape(w, c, success);
    assert w.reconciler.Looking? ==> Held(w.reconciler)[0] == w.reconciler.entry;
  }

  lemma ConcludeOk(w: World, c: CallId, success: bool)
    requires Inv(w)
    requires c in w.calls && !w.calls[c].stage.Closing? && WonBy(w, c)
    ensures Inv(Conclude(w, c, success))
  {
    hide FiledOk, JournaledOk, ClaimsOk, CallsOk, SentOk, HeldOk, LookOk, Execute, Conclude, Release, Leave;
    ConcludeFiled(w, c, success);
    ConcludeJournaled(w, c, success);
    ConcludeClaims(w, c, success);
    ConcludeCalls(w, c, success);
    ConcludeSent(w, c, success);
    ConcludeHeld(w, c, success);
    ConcludeLook(w, c, success);
  }

  lemma ReleaseBooks(w: World, r: RunId)
    requires FiledOk(w) && JournaledOk(w)
    requires IsSettled(w, r)
    ensures FiledOk(Release(w, r)) && JournaledOk(Release(w, r))
  {
  }

  lemma ReleaseClaims(w: World, r: RunId)
    requires ClaimsOk(w)
    requires IsSettled(w, r)
    ensures ClaimsOk(Release(w, r))
  {
  }

  lemma ReleaseCalls(w: World, r: RunId)
    requires FiledOk(w) && CallsOk(w)
    requires IsSettled(w, r)
    ensures CallsOk(Release(w, r))
  {
  }

  lemma ReleaseSent(w: World, r: RunId)
    requires FiledOk(w) && SentOk(w)
    requires IsSettled(w, r)
    ensures SentOk(Release(w, r))
  {
  }

  lemma ReleaseReconciler(w: World, r: RunId)
    requires FiledOk(w) && HeldOk(w) && LookOk(w)
    requires IsSettled(w, r)
    ensures HeldOk(Release(w, r)) && LookOk(Release(w, r))
  {
  }

  lemma ReleaseOk(w: World, r: RunId)
    requires Inv(w)
    requires IsSettled(w, r)
    ensures Inv(Release(w, r))
  {
    hide FiledOk, JournaledOk, ClaimsOk, CallsOk, SentOk, HeldOk, LookOk, Execute, Conclude, Release, Leave;
    ReleaseBooks(w, r);
    ReleaseClaims(w, r);
    ReleaseCalls(w, r);
    ReleaseSent(w, r);
    ReleaseReconciler(w, r);
  }

  lemma LeaveBooks(w: World, c: CallId)
    requires FiledOk(w) && JournaledOk(w)
    requires c in w.calls
    ensures FiledOk(Leave(w, c)) && JournaledOk(Leave(w, c))
  {
  }

  lemma LeaveClaims(w: World, c: CallId)
    requires ClaimsOk(w)
    requires c in w.calls
    ensures ClaimsOk(Leave(w, c))
  {
  }

  lemma LeaveCalls(w: World, c: CallId)
    requires FiledOk(w) && CallsOk(w)
    requires c in w.calls
    ensures CallsOk(Leave(w, c))
  {
  }

  lemma LeaveSent(w: World, c: CallId)
    requires FiledOk(w) && SentOk(w)
    requires c in w.calls
    ensures SentOk(Leave(w, c))
  {
  }

  lemma LeaveReconciler(w: World, c: CallId)
    requires FiledOk(w) && HeldOk(w) && LookOk(w)
    requires c in w.calls
    ensures HeldOk(Leave(w, c)) && LookOk(Leave(w, c))
  {
  }

  lemma LeaveOk(w: World, c: CallId)
    requires Inv(w)
    requires c in w.calls
    ensures Inv(Leave(w, c))
  {
    hide FiledOk, JournaledOk, ClaimsOk, CallsOk, SentOk, HeldOk, LookOk, Execute, Conclude, Release, Leave;
    LeaveBooks(w, c);
    LeaveClaims(w, c);
    LeaveCalls(w, c);
    LeaveSent(w, c);
    LeaveReconciler(w, c);
  }

  lemma SettleLandsBooks(w: World, request: Request)
    requires FiledOk(w) && JournaledOk(w)
    requires Possible(w, SettleLands(request))
    ensures FiledOk(Next(w, SettleLands(request))) && JournaledOk(Next(w, SettleLands(request)))
  {
  }

  lemma SettleLandsClaims(w: World, request: Request)
    requires ClaimsOk(w)
    requires Possible(w, SettleLands(request))
    ensures ClaimsOk(Next(w, SettleLands(request)))
  {
  }

  lemma SettleLandsCalls(w: World, request: Request)
    requires FiledOk(w) && CallsOk(w)
    requires Possible(w, SettleLands(request))
    ensures CallsOk(Next(w, SettleLands(request)))
  {
  }

  lemma SettleLandsSent(w: World, request: Request)
    requires FiledOk(w) && SentOk(w)
    requires Possible(w, SettleLands(request))
    ensures SentOk(Next(w, SettleLands(request)))
  {
  }

  lemma SettleLandsReconciler(w: World, request: Request)
    requires FiledOk(w) && HeldOk(w) && LookOk(w)
    requires Possible(w, SettleLands(request))
    ensures HeldOk(Next(w, SettleLands(request))) && LookOk(Next(w, SettleLands(request)))
  {
  }

  lemma SettleLandsOk(w: World, request: Request)
    requires Inv(w)
    requires Possible(w, SettleLands(request))
    ensures Inv(Next(w, SettleLands(request)))
  {
    hide FiledOk, JournaledOk, ClaimsOk, CallsOk, SentOk, HeldOk, LookOk, Execute, Conclude, Release, Leave;
    SettleLandsBooks(w, request);
    SettleLandsClaims(w, request);
    SettleLandsCalls(w, request);
    SettleLandsSent(w, request);
    SettleLandsReconciler(w, request);
  }

  lemma AdmitBooks(w: World, r: RunId)
    requires FiledOk(w) && JournaledOk(w)
    requires r !in w.ledger
    ensures FiledOk(Next(w, Admit(r))) && JournaledOk(Next(w, Admit(r)))
  {
  }

  lemma AdmitClaims(w: World, r: RunId)
    requires ClaimsOk(w)
    requires r !in w.ledger
    ensures ClaimsOk(Next(w, Admit(r)))
  {
  }

  lemma AdmitCalls(w: World, r: RunId)
    requires FiledOk(w) && CallsOk(w)
    requires r !in w.ledger
    ensures CallsOk(Next(w, Admit(r)))
  {
  }

  lemma AdmitSent(w: World, r: RunId)
    requires FiledOk(w) && SentOk(w)
    requires r !in w.ledger
    ensures SentOk(Next(w, Admit(r)))
  {
  }

  lemma AdmitReconciler(w: World, r: RunId)
    requires FiledOk(w) && HeldOk(w) && LookOk(w)
    requires r !in w.ledger
    ensures HeldOk(Next(w, Admit(r))) && LookOk(Next(w, Admit(r)))
  {
  }

  lemma AdmitOk(w: World, r: RunId)
    requires Inv(w)
    requires r !in w.ledger
    ensures Inv(Next(w, Admit(r)))
  {
    hide FiledOk, JournaledOk, ClaimsOk, CallsOk, SentOk, HeldOk, LookOk, Execute, Conclude, Release, Leave;
    AdmitBooks(w, r);
    AdmitClaims(w, r);
    AdmitCalls(w, r);
    AdmitSent(w, r);
    AdmitReconciler(w, r);
  }

  lemma ResendBooks(w: World)
    requires FiledOk(w) && JournaledOk(w)
    requires Resends(w)
    ensures FiledOk(Resent(w)) && JournaledOk(Resent(w))
  {
  }

  lemma ResendClaims(w: World)
    requires ClaimsOk(w)
    requires Resends(w)
    ensures ClaimsOk(Resent(w))
  {
  }

  lemma ResendCalls(w: World)
    requires FiledOk(w) && CallsOk(w)
    requires Resends(w)
    ensures CallsOk(Resent(w))
  {
  }

  lemma ResendSent(w: World)
    requires FiledOk(w) && SentOk(w) && HeldOk(w) && LookOk(w)
    requires Resends(w)
    ensures SentOk(Resent(w))
  {
    assert w.reconciler.Looking? ==> Held(w.reconciler)[0] == w.reconciler.entry;
    hide Active;
    var n, o := Resent(w), w.reconciler.entry;
    var claimed := w.reconciler.reply.value.claimed;
    if claimed.Some? {
      assert claimed.value && claimed == Some(true);
    }
    forall x | x in n.sent && x !in n.blind ensures IsClaimed(n, x.runId) && Agrees(n, x.runId, x.charge) {
      assert x in w.sent && x !in w.blind ==> Agrees(w, x.runId, x.charge);
      assert x !in w.sent ==> Agrees(w, x.runId, ChargeOf(w.cells[o]));
    }
    forall q | q in n.journal && n.journal[q] in n.cells && !IsSettled(n, q)
      ensures Agrees(n, q, ChargeOf(n.cells[n.journal[q]]))
    {
      assert Agrees(w, q, ChargeOf(w.cells[w.journal[q]]));
    }
  }

  lemma ResendReconciler(w: World)
    requires FiledOk(w) && HeldOk(w) && LookOk(w)
    requires Resends(w)
    ensures HeldOk(Resent(w)) && LookOk(Resent(w))
  {
    assert w.reconciler.Looking? ==> Held(w.reconciler)[0] == w.reconciler.entry;
  }

  lemma ResendOk(w: World)
    requires Inv(w)
    requires Resends(w)
    ensures Inv(Resent(w))
  {
    hide FiledOk, JournaledOk, ClaimsOk, CallsOk, SentOk, HeldOk, LookOk, Execute, Conclude, Release, Leave;
    ResendBooks(w);
    ResendClaims(w);
    ResendCalls(w);
    ResendSent(w);
    ResendReconciler(w);
  }

  lemma CrashFiled(w: World)
    requires FiledOk(w)
    ensures FiledOk(Restarted(w))
  {
  }

  lemma CrashJournaled(w: World)
    requires FiledOk(w) && JournaledOk(w)
    ensures JournaledOk(Restarted(w))
  {
  }

  lemma CrashClaims(w: World)
    requires ClaimsOk(w)
    ensures ClaimsOk(Restarted(w))
  {
    hide LoadedCells;
    assert forall c :: WonBy(Restarted(w), c) <==> WonBy(w, c);
  }

  lemma CrashCalls(w: World)
    requires CallsOk(w)
    ensures CallsOk(Restarted(w))
  {
  }

  lemma CrashSent(w: World)
    requires FiledOk(w) && SentOk(w)
    ensures SentOk(Restarted(w))
  {
    hide CallsOk, ClaimsOk, JournaledOk;
    var n := Restarted(w);
    forall r | r in n.journal && n.journal[r] in n.cells && !IsSettled(n, r)
      ensures Agrees(n, r, ChargeOf(n.cells[n.journal[r]]))
    {
      assert n.cells[Loaded(r)] == w.cells[w.journal[r]];
      assert Agrees(w, r, ChargeOf(w.cells[w.journal[r]]));
    }
  }

  lemma CrashHeld(w: World)
    requires HeldOk(w)
    ensures HeldOk(Restarted(w))
  {
  }

  lemma CrashLook(w: World)
    requires LookOk(w)
    ensures LookOk(Restarted(w))
  {
  }

  lemma CrashOk(w: World)
    requires Inv(w)
    ensures Inv(Restarted(w))
  {
    hide FiledOk, JournaledOk, ClaimsOk, CallsOk, SentOk, HeldOk, LookOk, Execute, Conclude, Release, Leave;
    CrashFiled(w);
    CrashJournaled(w);
    CrashClaims(w);
    CrashCalls(w);
    CrashSent(w);
    CrashHeld(w);
    CrashLook(w);
  }

  lemma CancelsBooks(w: World, cancelled: set<RunId>)
    requires FiledOk(w) && JournaledOk(w)
    ensures FiledOk(w.(cancelled := cancelled)) && JournaledOk(w.(cancelled := cancelled))
  {
  }

  lemma CancelsClaims(w: World, cancelled: set<RunId>)
    requires ClaimsOk(w)
    ensures ClaimsOk(w.(cancelled := cancelled))
  {
  }

  lemma CancelsCalls(w: World, cancelled: set<RunId>)
    requires FiledOk(w) && CallsOk(w)
    ensures CallsOk(w.(cancelled := cancelled))
  {
  }

  lemma CancelsSent(w: World, cancelled: set<RunId>)
    requires FiledOk(w) && SentOk(w)
    ensures SentOk(w.(cancelled := cancelled))
  {
  }

  lemma CancelsReconciler(w: World, cancelled: set<RunId>)
    requires FiledOk(w) && HeldOk(w) && LookOk(w)
    ensures HeldOk(w.(cancelled := cancelled)) && LookOk(w.(cancelled := cancelled))
  {
  }

  lemma CancelsOk(w: World, cancelled: set<RunId>)
    requires Inv(w)
    ensures Inv(w.(cancelled := cancelled))
  {
    hide FiledOk, JournaledOk, ClaimsOk, CallsOk, SentOk, HeldOk, LookOk, Execute, Conclude, Release, Leave;
    CancelsBooks(w, cancelled);
    CancelsClaims(w, cancelled);
    CancelsCalls(w, cancelled);
    CancelsSent(w, cancelled);
    CancelsReconciler(w, cancelled);
  }

  lemma MovesBooks(w: World, reconciler: Reconciler)
    requires FiledOk(w) && JournaledOk(w)
    requires HeldOk(w.(reconciler := reconciler)) && LookOk(w.(reconciler := reconciler))
    ensures FiledOk(w.(reconciler := reconciler)) && JournaledOk(w.(reconciler := reconciler))
  {
  }

  lemma MovesClaims(w: World, reconciler: Reconciler)
    requires ClaimsOk(w)
    requires HeldOk(w.(reconciler := reconciler)) && LookOk(w.(reconciler := reconciler))
    ensures ClaimsOk(w.(reconciler := reconciler))
  {
  }

  lemma MovesCalls(w: World, reconciler: Reconciler)
    requires FiledOk(w) && CallsOk(w)
    requires HeldOk(w.(reconciler := reconciler)) && LookOk(w.(reconciler := reconciler))
    ensures CallsOk(w.(reconciler := reconciler))
  {
  }

  lemma MovesSent(w: World, reconciler: Reconciler)
    requires FiledOk(w) && SentOk(w)
    requires HeldOk(w.(reconciler := reconciler)) && LookOk(w.(reconciler := reconciler))
    ensures SentOk(w.(reconciler := reconciler))
  {
  }

  lemma MovesReconciler(w: World, reconciler: Reconciler)
    requires HeldOk(w) && LookOk(w)
    requires HeldOk(w.(reconciler := reconciler)) && LookOk(w.(reconciler := reconciler))
    ensures HeldOk(w.(reconciler := reconciler)) && LookOk(w.(reconciler := reconciler))
  {
  }

  lemma MovesOk(w: World, reconciler: Reconciler)
    requires Inv(w)
    requires HeldOk(w.(reconciler := reconciler)) && LookOk(w.(reconciler := reconciler))
    ensures Inv(w.(reconciler := reconciler))
  {
    hide FiledOk, JournaledOk, ClaimsOk, CallsOk, SentOk, HeldOk, LookOk, Execute, Conclude, Release, Leave;
    MovesBooks(w, reconciler);
    MovesClaims(w, reconciler);
    MovesCalls(w, reconciler);
    MovesSent(w, reconciler);
    MovesReconciler(w, reconciler);
  }

  lemma WinnerClaimed(w: World, c: CallId)
    requires ClaimsOk(w) && CallsOk(w) && c in w.calls && WonBy(w, c)
    ensures IsClaimed(w, w.calls[c].runId)
  {
    assert CallOk(w, c, w.calls[c]);
  }

  /** What concluding changes: the winner's entry becomes the journal's if it is not, and nothing was sent before but blindly. */
  lemma ConcludeShape(w: World, c: CallId, success: bool)
    requires FiledOk(w) && CallsOk(w) && SentOk(w)
    requires c in w.calls && !w.calls[c].stage.Closing? && WonBy(w, c)
    ensures var n := Conclude(w, c, success);
            var (r, o) := (w.calls[c].runId, w.calls[c].entry);
            Untouched(w, r) && (IsSettled(w, r) || (r in w.journal && w.journal[r] == o)) && o in w.cells &&
            w.cells[o].runId == r &&
            var entry := w.cells[o].(actual := Some(if success then w.cells[o].estimated else 0));
            var journal := w.journal[r := o];
            n == w.(cells := w.cells[o := entry], journal := journal, disk := Snapshot(w.cells[o := entry], journal),
                    calls := w.calls[c := w.calls[c].(stage := Closing)],
                    sent := w.sent + {Request(r, ChargeOf(entry))}, outcomes := w.outcomes[r := ChargeOf(entry)])
  {
    var (r, o) := (w.calls[c].runId, w.calls[c].entry);
    assert CallOk(w, c, w.calls[c]);
  }

  lemma ExecuteShape(w: World, r: RunId, payer: nat, bytes: nat)
    requires CallsOk(w)
    ensures var (n, c) := (Execute(w, r, payer, bytes), w.nextId);
            if Active(w, r) then n == w
            else
              n.calls.Keys == w.calls.Keys + {c} && c !in w.calls && n.nextId == c + 1 &&
              (forall d :: d in w.calls ==> n.calls[d] == w.calls[d] && w.calls[d].runId != r) && n.calls[c].runId == r
  {
    hide CallOk, Snapshot;
    CallIsOld(w, w.nextId);
  }

  lemma CallIsOld(w: World, c: CallId)
    requires c in w.calls ==> CallOk(w, c, w.calls[c])
    ensures c in w.calls ==> c < w.nextId
  {
  }

  lemma ExecuteNewCall(w: World, r: RunId, payer: nat, bytes: nat)
    requires FiledOk(w) && ClaimsOk(w) && !Active(w, r)
    ensures var n := Execute(w, r, payer, bytes); w.nextId in n.calls && CallOk(n, w.nextId, n.calls[w.nextId])
  {
    hide Snapshot;
  }

  lemma ExecuteOldCall(w: World, r: RunId, payer: nat, bytes: nat, d: CallId)
    requires FiledOk(w) && d in w.calls && CallOk(w, d, w.calls[d]) && !Active(w, r)
    ensures var n := Execute(w, r, payer, bytes); d in n.calls && CallOk(n, d, n.calls[d])
  {
    hide Snapshot;
    assert w.calls[d].runId != r;
  }

  // ---------------------------------------------------------------- all steps

  lemma CallHere(w: World, c: CallId)
    requires Inv(w) && c in w.calls
    ensures CallOk(w, c, w.calls[c])
    ensures c in w.claims && w.claims[c].reply == Some(AlreadySettled) ==> IsSettled(w, w.calls[c].runId)
  {
    hide FiledOk, JournaledOk, SentOk, HeldOk, LookOk, Filed, Untouched;
  }

  lemma ClaimRepliesOk(w: World, c: CallId, lost: bool)
    requires Inv(w) && Possible(w, ClaimReplies(c, lost))
    ensures Inv(Claimed(w, c, lost))
  {
    hide Inv, Leave, Release, Conclude;
    CallHere(w, c);
    if lost {
      LeaveOk(w, c);
    } else {
      match w.claims[c].reply.value
      case AlreadySettled =>
        ReleaseOk(w, w.calls[c].runId);
        ReleaseKeepsCalls(w, w.calls[c].runId);
        LeaveOk(Release(w, w.calls[c].runId), c);
      case AlreadyAccepted => LeaveOk(w, c);
      case NotAdmitted => LeaveOk(w, c);
      case Won =>
        if w.calls[c].runId in w.cancelled {
          ConcludeOk(w, c, false);
        } else {
          BeginOk(w, c);
        }
    }
  }

  lemma ReleaseKeepsCalls(w: World, r: RunId)
    ensures var n := Release(w, r);
            n.calls == w.calls && n.cells == w.cells && n.ledger == w.ledger && n.reconciler == w.reconciler
  {
  }

  lemma SettleRepliesOk(w: World, c: CallId, ok: bool)
    requires Inv(w) && Possible(w, SettleReplies(c, ok))
    ensures Inv(Closed(w, c, ok))
  {
    hide Inv, Leave, Release;
    if ok {
      ReleaseOk(w, w.calls[c].runId);
      ReleaseKeepsCalls(w, w.calls[c].runId);
      LeaveOk(Release(w, w.calls[c].runId), c);
    } else {
      LeaveOk(w, c);
    }
  }

  lemma HeldHere(w: World)
    requires Inv(w)
    ensures HeldOk(w) && LookOk(w)
  {
    hide FiledOk, JournaledOk, ClaimsOk, CallsOk, SentOk, HeldOk, LookOk;
  }

  /** Reconciliation goes on to the rest of its list. */
  lemma RestStays(w: World, rest: seq<Ref>)
    requires HeldOk(w) && (Held(w.reconciler) == rest || (Held(w.reconciler) != [] && Held(w.reconciler)[1..] == rest))
    ensures HeldOk(w.(reconciler := Turning(rest))) && LookOk(w.(reconciler := Turning(rest)))
  {
    var held := Held(w.reconciler);
    assert forall i :: 0 <= i < |rest| ==> rest[i] == (if held == rest then held[i] else held[i + 1]);
  }

  lemma TurnsOk(w: World, rest: seq<Ref>)
    requires Inv(w) && (Held(w.reconciler) == rest || (Held(w.reconciler) != [] && Held(w.reconciler)[1..] == rest))
    ensures Inv(w.(reconciler := Turning(rest)))
  {
    hide Inv, HeldOk, LookOk;
    HeldHere(w);
    RestStays(w, rest);
    MovesOk(w, Turning(rest));
  }

  lemma ReconcileOk(w: World, order: seq<RunId>)
    requires Inv(w) && Possible(w, Reconcile(order))
    ensures Inv(Next(w, Reconcile(order)))
  {
    hide JournaledOk, ClaimsOk, SentOk, Inv;
    var n := Next(w, Reconcile(order));
    FiledHere(w);
    assert forall c :: c in w.calls ==> CallOk(w, c, w.calls[c]);
    MovesOk(w, n.reconciler);
  }

  lemma FiledHere(w: World)
    requires Inv(w)
    ensures FiledOk(w) && JournaledOk(w) && ClaimsOk(w) && CallsOk(w) && SentOk(w)
  {
    hide FiledOk, JournaledOk, ClaimsOk, CallsOk, SentOk, HeldOk, LookOk;
  }

  lemma TurnOk(w: World)
    requires Inv(w) && w.reconciler.Turning?
    ensures Inv(Turn(w))
  {
    hide Inv, Active;
    HeldHere(w);
    var rest := w.reconciler.rest;
    if rest == [] {
      MovesOk(w, Idle);
    } else {
      TurnsOk(w, rest[1..]);
      assert [rest[0]] + rest[1..] == rest;
      MovesOk(w, Looking(rest[0], rest[1..], None));
    }
  }

  lemma LookupLandsOk(w: World, reply: LookupReply)
    requires Inv(w) && Possible(w, LookupLands(reply))
    ensures Inv(Next(w, LookupLands(reply)))
  {
    hide Inv, Active;
    HeldHere(w);
    FiledHere(w);
    var o := w.reconciler.entry;
    assert Held(w.reconciler)[0] == o;
    hide FiledOk, CallsOk, ClaimsOk;
    MovesOk(w, w.reconciler.(reply := Some(reply)));
  }

  lemma LookedOk(w: World)
    requires Inv(w) && Possible(w, LookupReplies)
    ensures Inv(Looked(w))
  {
    hide Inv, Release;
    HeldHere(w);
    var o, rest := w.reconciler.entry, w.reconciler.rest;
    var r := w.cells[o].runId;
    assert Held(w.reconciler)[1..] == rest;
    TurnsOk(w, rest);
    if w.reconciler.reply.value.Found? {
      if w.reconciler.reply.value.settled {
        ReleaseOk(w, r);
        ReleaseKeepsCalls(w, r);
        TurnsOk(Release(w, r), rest);
      } else if w.reconciler.reply.value.claimed != Some(false) && !Active(w, r) {
        ResendOk(w);
        assert Looked(w) == Resent(w);
      } else {
        assert Looked(w) == w.(reconciler := Turning(rest));
      }
    }
  }

  lemma ReconciledOk(w: World, ok: bool)
    requires Inv(w) && Possible(w, ReconcileReplies(ok))
    ensures Inv(Reconciled(w, ok))
  {
    hide Inv, Release;
    var r := w.cells[w.reconciler.entry].runId;
    assert Held(w.reconciler)[1..] == w.reconciler.rest;
    TurnsOk(w, w.reconciler.rest);
    if ok {
      ReleaseOk(w, r);
      ReleaseKeepsCalls(w, r);
      TurnsOk(Release(w, r), w.reconciler.rest);
    }
  }

  /** Every step keeps the invariant, whether or not lookups say that a run was claimed. */
  lemma NextOk(w: World, e: Event)
    requires Inv(w) && Possible(w, e)
    ensures Inv(Next(w, e))
  {
    hide Inv, Execute, Claimed, Conclude, Closed, Turn, Looked, Reconciled, Restarted, Active;
    match e
    case Admit(r) => AdmitOk(w, r);
    case Start(r, payer, bytes) => ExecuteOk(w, r, payer, bytes);
    case ClaimLands(c) => ClaimLandsOk(w, c);
    case ClaimReplies(c, lost) => ClaimRepliesOk(w, c, lost);
    case Cancel(r) => CancelsOk(w, w.cancelled + {r});
    case EngineEnds(c, success) =>
      CallHere(w, c);
      ConcludeOk(w, c, success);
    case SettleLands(request) => SettleLandsOk(w, request);
    case SettleReplies(c, ok) => SettleRepliesOk(w, c, ok);
    case Reconcile(order) => ReconcileOk(w, order);
    case ReconcileTurn => TurnOk(w);
    case LookupLands(reply) => LookupLandsOk(w, reply);
    case LookupReplies => LookedOk(w);
    case ReconcileReplies(ok) => ReconciledOk(w, ok);
    case Crash => CrashOk(w);
  }
}
