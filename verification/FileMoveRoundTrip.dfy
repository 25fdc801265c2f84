/** The undo round trip, from the request to the last rename. */
module FileMoveRoundTrip {
  import opened Common
  import opened FileMoveModel
  import opened FileMoveCrash
  import opened FileMoveTrees
  import opened FileMoveRows
  import opened FileMoveInvariant
  import opened FileMoveUndo

  /** What a successful check says about a batch. */
  lemma {:induction false} CheckedFacts(w: Files, op: Operation, i: nat)
    requires i <= |op.moves| && Check(w, op, i) == Ok(true)
    ensures forall j :: i <= j < |op.moves| ==>
              op.workspaceId in w.trees && op.moves[j].source in w.trees[op.workspaceId] &&
              op.moves[j].destination !in w.trees[op.workspaceId] && Legal(op.moves[j].source) &&
              Legal(op.moves[j].destination) &&
              FindId(w.store.files, op.workspaceId, op.moves[j].fileId) == Some(op.moves[j].source)
    decreases |op.moves| - i
  {
    if i < |op.moves| {
      CheckedFacts(w, op, i + 1);
    }
  }

  /** The batch right after its check and tracking. */
  function Ready(w: Files, o: nat, list: Listing): Files
    requires o < |w.store.operations| && w.store.operations[o].workspaceId in w.trees
  {
    var op := w.store.operations[o];
    var tracked := Track(w.store, op.workspaceId, list(w.trees[op.workspaceId]), op.moves);
    w.(store := SetOperation(tracked, o, op.(state := Moving)))
  }

  /** Every path at or below a source has a legal name. */
  predicate Trackable(w: Files, o: nat, list: Listing)
    requires o < |w.store.operations| && w.store.operations[o].workspaceId in w.trees
  {
    AllLegal(Tracked(list(w.trees[w.store.operations[o].workspaceId]), w.store.operations[o].moves))
  }

  /** A batch that was executed and completed. */
  ghost predicate Done(w: Files, o: nat, list: Listing) {
    Good(w) && Lists(list) && o < |w.store.operations| && w.store.operations[o].state == Queued &&
    w.store.operations[o].workspaceId in w.trees && Execute(w, o, list).store.operations[o].state == Completed
  }

  lemma DoneRan(w: Files, o: nat, list: Listing)
    requires Done(w, o, list)
    ensures Check(w, w.store.operations[o], 0) == Ok(true) && Trackable(w, o, list)
    ensures Execute(w, o, list) == MoveRest(Ready(w, o, list), o)
  {
    hide Good, Lists, Check, Track, MoveRest;
    OnlyTrue(w, w.store.operations[o], 0);
  }

  lemma {:induction false} OnlyTrue(w: Files, op: Operation, i: nat)
    requires i <= |op.moves|
    ensures Check(w, op, i).Ok? ==> Check(w, op, i) == Ok(true)
    decreases |op.moves| - i
  {
    hide Resolve, Reference;
    if i < |op.moves| {
      OnlyTrue(w, op, i + 1);
    }
  }

  lemma CheckedPlanned(w: Files, o: nat)
    requires Good(w) && o < |w.store.operations| && w.store.operations[o].workspaceId in w.trees
    requires Check(w, w.store.operations[o], 0) == Ok(true)
    ensures var op := w.store.operations[o]; Planned(w.trees[op.workspaceId], op.moves) && LegalMoves(op.moves)
  {
    var op := w.store.operations[o];
    CheckedFacts(w, op, 0);
    assert OperationOk(op);
  }

  lemma ReadyFacts(w: Files, o: nat, list: Listing)
    requires Done(w, o, list)
    ensures var (r, op) := (Ready(w, o, list), w.store.operations[o]);
            IdsOk(r.store) && LiveDistinct(r.store.files) && |w.store.files| <= |r.store.files| &&
            r.store.files[..|w.store.files|] == w.store.files && r.trees == w.trees && r.assets == w.assets &&
            r.store.leases == w.store.leases && r.store.revision == w.store.revision &&
            r.store.operations == w.store.operations[o := op.(state := Moving)] &&
            RootedAll(r.store.files, w.trees) &&
            forall i, p :: 0 <= i < |op.moves| && p in w.trees[op.workspaceId] && Covers(op.moves[i].source, p) ==>
              Known(r.store.files, op.workspaceId, p)
  {
    hide Execute, TreesOk, OperationsOk;
    var op := w.store.operations[o];
    var listed := list(w.trees[op.workspaceId]);
    TrackFacts(w.store, op.workspaceId, listed, op.moves);
    forall p | p in SetOf(listed) ensures p in w.trees[op.workspaceId] {
      var i :| 0 <= i < |listed| && listed[i] == p;
      assert p in listed;
    }
    GrownRooted(w.store, Track(w.store, op.workspaceId, listed, op.moves), op.workspaceId, SetOf(listed), w.trees);
  }

  /** What a completed batch did. */
  lemma DoneFacts(w: Files, o: nat, list: Listing)
    requires Done(w, o, list)
    ensures var (r, n, op) := (Ready(w, o, list), Execute(w, o, list), w.store.operations[o]);
            UnderWay(r, n, o) && Completes(r, n, o) && Planned(w.trees[op.workspaceId], op.moves) &&
            LegalMoves(op.moves) && Good(n) && n.store.operations[o].moves == op.moves &&
            n.store.operations[o].workspaceId == op.workspaceId && n.store.operations[o].applied == |op.moves|
  {
    hide IdsOk, LiveDistinct, RootedAll, Rooted, Closed, Planned, Track, MoveRest, UnderWay, Lists;
    var op := w.store.operations[o];
    DoneRan(w, o, list);
    CheckedPlanned(w, o);
    ReadyFacts(w, o, list);
    assert Closed(w.trees[op.workspaceId]) && OperationOk(op);
    StartUnderWay(Ready(w, o, list), o);
    CompletedDoesAll(Ready(w, o, list), Ready(w, o, list), o);
    ExecuteGood(w, o, list);
  }

  /** The row at a place under a source is live at the corresponding place afterwards. */
  lemma RowFollows(w: Files, o: nat, list: Listing, k: nat, j: nat)
    requires Done(w, o, list) && k < |Ready(w, o, list).store.files| && j < |w.store.operations[o].moves|
    requires var (row, op) := (Ready(w, o, list).store.files[k], w.store.operations[o]);
             LiveAt(row, op.workspaceId, row.path) && Covers(op.moves[j].source, row.path)
    ensures var (row, op) := (Ready(w, o, list).store.files[k], w.store.operations[o]);
            var n := Execute(w, o, list).store.files;
            k < |n| && n[k].id == row.id &&
            LiveAt(n[k], op.workspaceId, Relocated(row.path, op.moves[j].source, op.moves[j].destination))
  {
    hide Good, Lists, Planned, Closed, MovedBy, Ready, Execute;
    var op := w.store.operations[o];
    DoneFacts(w, o, list);
    ReadyFacts(w, o, list);
    RowMoves(w.trees[op.workspaceId], Ready(w, o, list).store.files[k], op.workspaceId, op.moves, |op.moves|, j);
  }

  /** The identity of every move is live at its source. */
  ghost predicate AtSources(s: Store, ws: WorkspaceId, moves: seq<Move>) {
    forall i :: 0 <= i < |moves| ==> LiveIdAt(s.files, ws, moves[i].fileId, moves[i].source)
  }

  lemma DoneAtDestinations(w: Files, o: nat, list: Listing)
    requires Done(w, o, list)
    ensures var op := w.store.operations[o];
            AtDestinations(Execute(w, o, list).store, op.workspaceId, op.moves)
  {
    hide Good, Lists, Ready, Execute;
    var op := w.store.operations[o];
    var n := Execute(w, o, list);
    var r := Ready(w, o, list);
    DoneIds(w, o, list);
    forall i | 0 <= i < |op.moves|
      ensures LiveIdAt(n.store.files, op.workspaceId, op.moves[i].fileId, op.moves[i].destination)
    {
      assert LiveIdAt(r.store.files, op.workspaceId, op.moves[i].fileId, op.moves[i].source);
      var k :| 0 <= k < |r.store.files| && r.store.files[k].id == op.moves[i].fileId &&
               LiveAt(r.store.files[k], op.workspaceId, op.moves[i].source);
      RowFollows(w, o, list, k, i);
      assert Relocated(op.moves[i].source, op.moves[i].source, op.moves[i].destination) == op.moves[i].destination;
    }
  }

  lemma DoneIds(w: Files, o: nat, list: Listing)
    requires Done(w, o, list)
    ensures o < |w.store.operations| && w.store.operations[o].workspaceId in w.trees
    ensures AtSources(Ready(w, o, list).store, w.store.operations[o].workspaceId, w.store.operations[o].moves)
  {
    hide Good, Lists, Ready, Execute;
    var op := w.store.operations[o];
    var r := Ready(w, o, list);
    DoneRan(w, o, list);
    CheckedFacts(w, op, 0);
    ReadyFacts(w, o, list);
    forall i | 0 <= i < |op.moves|
      ensures LiveIdAt(r.store.files, op.workspaceId, op.moves[i].fileId, op.moves[i].source)
    {
      FindIdFirst(w.store.files, op.workspaceId, op.moves[i].fileId);
      var k :| 0 <= k < |w.store.files| && w.store.files[k].id == op.moves[i].fileId &&
               LiveAt(w.store.files[k], op.workspaceId, op.moves[i].source);
      assert r.store.files[k] == r.store.files[..|w.store.files|][k];
    }
  }

  /** Everything below a destination is known after the batch, so undoing it makes no new identities. */
  lemma DoneKnown(w: Files, o: nat, list: Listing, i: nat, p: Path)
    requires Done(w, o, list) && DestinationsApart(w.store.operations[o].moves) && i < |w.store.operations[o].moves|
    requires w.store.operations[o].workspaceId in Execute(w, o, list).trees
    requires p in Execute(w, o, list).trees[w.store.operations[o].workspaceId]
    requires Covers(w.store.operations[o].moves[i].destination, p)
    ensures Known(Execute(w, o, list).store.files, w.store.operations[o].workspaceId, p)
  {
    hide Ready, Execute, Good, Lists;
    var op := w.store.operations[o];
    var m := op.moves[i];
    CameFrom(w, o, list, i, p);
    var from := m.source + p[|m.destination|..];
    KnownBefore(w, o, list, i, from);
    var k :| 0 <= k < |Ready(w, o, list).store.files| && LiveAt(Ready(w, o, list).store.files[k], op.workspaceId, from);
    RowFollows(w, o, list, k, i);
    assert Relocated(from, m.source, m.destination) == p;
  }

  lemma KnownBefore(w: Files, o: nat, list: Listing, i: nat, p: Path)
    requires Done(w, o, list) && i < |w.store.operations[o].moves|
    requires p in w.trees[w.store.operations[o].workspaceId] && Covers(w.store.operations[o].moves[i].source, p)
    ensures Known(Ready(w, o, list).store.files, w.store.operations[o].workspaceId, p)
  {
    hide Ready, Execute, Good, Lists;
    ReadyFacts(w, o, list);
  }

  lemma CameFrom(w: Files, o: nat, list: Listing, i: nat, p: Path)
    requires Done(w, o, list) && DestinationsApart(w.store.operations[o].moves) && i < |w.store.operations[o].moves|
    requires w.store.operations[o].workspaceId in Execute(w, o, list).trees
    requires p in Execute(w, o, list).trees[w.store.operations[o].workspaceId]
    requires Covers(w.store.operations[o].moves[i].destination, p)
    ensures var op := w.store.operations[o];
            op.workspaceId in w.trees && Brought(w.trees[op.workspaceId], op.moves[i], p)
  {
    hide Ready, Execute, Good, Lists;
    var op := w.store.operations[o];
    DoneFacts(w, o, list);
    ReadyFacts(w, o, list);
    OnlyBrought(w.trees[op.workspaceId], Execute(w, o, list).trees[op.workspaceId], op.moves, i, p);
  }

  lemma OnlyBrought(before: Tree, after: Tree, moves: seq<Move>, i: nat, p: Path)
    requires Closed(before) && Planned(before, moves) && DestinationsApart(moves) && i < |moves|
    requires MovedBy(before, after, moves, |moves|) && p in after && Covers(moves[i].destination, p)
    ensures Brought(before, moves[i], p)
  {
    hide MovedBy, Planned, Closed;
    assert p !in before by {
      if p in before {
        DestinationAbove(before, moves, i, p);
      }
    }
    forall k | 0 <= k < |moves| && k != i ensures !Covers(moves[k].destination, p) && !(p < moves[k].destination) {
      OtherDestination(moves, i, k, p);
    }
    OnlyFrom(before, after, moves, i, p);
  }

  lemma OtherDestination(moves: seq<Move>, i: nat, k: nat, p: Path)
    requires DestinationsApart(moves) && i < |moves| && k < |moves| && k != i && Covers(moves[i].destination, p)
    ensures !Covers(moves[k].destination, p) && !(p < moves[k].destination)
  {
    if Covers(moves[k].destination, p) {
      Comparable(moves[k].destination, moves[i].destination, p);
    }
    assert p < moves[k].destination ==> Covers(moves[i].destination, moves[k].destination);
  }

  lemma OnlyFrom(before: Tree, after: Tree, moves: seq<Move>, i: nat, p: Path)
    requires i < |moves| && MovedBy(before, after, moves, |moves|) && p in after && p !in before
    requires Covers(moves[i].destination, p)
    requires forall k :: 0 <= k < |moves| && k != i ==> !Covers(moves[k].destination, p) && !(p < moves[k].destination)
    ensures Brought(before, moves[i], p)
  {
  }

  // ---------------------------------------------------------------- undo

  /** The store right after the undo was requested: one more queued operation. */
  function Requested(n: Files, ws: WorkspaceId, moves: seq<Move>): Files {
    n.(store := n.store.(operations := n.store.operations +
                           [Operation(n.store.nextId, ws, Inverse(moves), Queued, 0, None, None)],
                         nextId := n.store.nextId + 1))
  }

  lemma DoneReturnable(w: Files, o: nat, list: Listing)
    requires Done(w, o, list) && DestinationsApart(w.store.operations[o].moves)
    ensures var op := w.store.operations[o]; Returnable(Execute(w, o, list), op.workspaceId, op.moves)
  {
    hide Ready, Execute, Lists, Closed, Planned, DestinationsApart, MovedBy, AtDestinations;
    var op := w.store.operations[o];
    DoneFacts(w, o, list);
    ReadyFacts(w, o, list);
    DoneAtDestinations(w, o, list);
    InversePlanned(w.trees[op.workspaceId], Execute(w, o, list).trees[op.workspaceId], op.moves);
  }

  lemma EnqueueBack(n: Files, ws: WorkspaceId, moves: seq<Move>)
    requires Returnable(n, ws, moves) && 0 < |moves| <= MAX_MOVES
    requires forall j, k :: 0 <= j < k < |moves| ==> moves[j].source != moves[k].source
    ensures Enqueue(n, ws, Reversed(moves), false) == (Requested(n, ws, moves), Ok(n.store.nextId))
  {
    hide Plan, Returnable;
    PlanBack(n, ws, moves, 0);
    assert Inverse(moves)[..0] == [];
  }

  lemma RequestedReturnable(n: Files, ws: WorkspaceId, moves: seq<Move>)
    requires Returnable(n, ws, moves)
    ensures Returnable(Requested(n, ws, moves), ws, moves)
  {
    hide Closed, Planned, LiveDistinct, LiveIdAt;
    var r := Requested(n, ws, moves);
    assert r.store.files == n.store.files && r.trees == n.trees;
  }

  /** Tracking the way back makes no new identities. */
  lemma NothingToTrack(w: Files, o: nat, list: Listing, n: Files, again: Listing)
    requires Done(w, o, list) && DestinationsApart(w.store.operations[o].moves) && Lists(again)
    requires n == Requested(Execute(w, o, list), w.store.operations[o].workspaceId, w.store.operations[o].moves)
    ensures var op := w.store.operations[o];
            op.workspaceId in n.trees &&
            Track(n.store, op.workspaceId, again(n.trees[op.workspaceId]), Inverse(op.moves)) == n.store
  {
    hide Ready, Execute, Good, Track;
    var op := w.store.operations[o];
    var back := Inverse(op.moves);
    DoneReturnable(w, o, list);
    RequestedReturnable(Execute(w, o, list), op.workspaceId, op.moves);
    forall i, p | 0 <= i < |back| && p in again(n.trees[op.workspaceId]) && Covers(back[i].source, p)
      ensures Known(n.store.files, op.workspaceId, p)
    {
      DoneKnown(w, o, list, i, p);
    }
    TrackFacts(n.store, op.workspaceId, again(n.trees[op.workspaceId]), back);
  }

  lemma LegalBefore(w: Files, o: nat, list: Listing, i: nat, p: Path)
    requires Done(w, o, list) && i < |w.store.operations[o].moves|
    requires p in w.trees[w.store.operations[o].workspaceId] && Covers(w.store.operations[o].moves[i].source, p)
    ensures Legal(p)
  {
    var op := w.store.operations[o];
    var listed := list(w.trees[op.workspaceId]);
    DoneRan(w, o, list);
    assert p in listed;
    hide Good, Execute, Legal;
    TrackedHas(listed, op.moves, i, p);
    var k :| 0 <= k < |Tracked(listed, op.moves)| && Tracked(listed, op.moves)[k] == p;
  }

  lemma {:induction false} TrackedHas(listed: seq<Path>, moves: seq<Move>, i: nat, p: Path)
    requires i < |moves| && p in listed && Covers(moves[i].source, p)
    ensures p in Tracked(listed, moves)
    decreases |moves|
  {
    if i == 0 {
      UnderFacts(listed, moves[0].source);
    } else {
      TrackedHas(listed, moves[1..], i - 1, p);
    }
  }

  lemma {:induction false} TrackedFrom(listed: seq<Path>, moves: seq<Move>, p: Path) returns (i: nat)
    requires p in Tracked(listed, moves)
    ensures i < |moves| && p in listed && Covers(moves[i].source, p)
    decreases |moves|
  {
    UnderFacts(listed, moves[0].source);
    if p in Under(listed, moves[0].source) {
      i := 0;
    } else {
      i := TrackedFrom(listed, moves[1..], p);
      i := i + 1;
    }
  }

  lemma LegalLanding(m: Move, p: Path)
    requires Legal(m.destination) && Covers(m.destination, p) && Legal(m.source + p[|m.destination|..])
    ensures Legal(p)
  {
    var from := m.source + p[|m.destination|..];
    forall k | 0 <= k < |p| ensures LegalName(p[k]) {
      if k < |m.destination| {
        assert p[k] == m.destination[k];
      } else {
        assert p[k] == from[|m.source| + k - |m.destination|];
      }
    }
  }

  /** What was moved had legal names, and so it has where it is now. */
  lemma BackTrackable(w: Files, o: nat, list: Listing, again: Listing)
    requires Done(w, o, list) && DestinationsApart(w.store.operations[o].moves) && Lists(again)
    ensures var op := w.store.operations[o];
            var n := Requested(Execute(w, o, list), op.workspaceId, op.moves);
            op.workspaceId in n.trees && Trackable(n, |w.store.operations|, again)
  {
    hide Ready, Execute, Good, Legal, LegalMoves, Closed, Planned, MovedBy;
    var op := w.store.operations[o];
    var done := Execute(w, o, list);
    DoneFacts(w, o, list);
    ReadyFacts(w, o, list);
    DoneReturnable(w, o, list);
    RequestedReturnable(done, op.workspaceId, op.moves);
    var n := Requested(done, op.workspaceId, op.moves);
    var back := Inverse(op.moves);
    var listed := again(n.trees[op.workspaceId]);
    var paths := Tracked(listed, back);
    forall k | 0 <= k < |paths| ensures Legal(paths[k]) {
      var i := TrackedFrom(listed, back, paths[k]);
      assert paths[k] in n.trees[op.workspaceId];
      BackLegal(w, o, list, i, paths[k]);
    }
  }

  lemma BackLegal(w: Files, o: nat, list: Listing, i: nat, p: Path)
    requires Done(w, o, list) && DestinationsApart(w.store.operations[o].moves) && i < |w.store.operations[o].moves|
    requires w.store.operations[o].workspaceId in Execute(w, o, list).trees
    requires p in Execute(w, o, list).trees[w.store.operations[o].workspaceId]
    requires Covers(w.store.operations[o].moves[i].destination, p)
    ensures Legal(p)
  {
    hide Ready, Execute, Good, Legal;
    var m := w.store.operations[o].moves[i];
    CameFrom(w, o, list, i, p);
    LegalBefore(w, o, list, i, m.source + p[|m.destination|..]);
    DoneFacts(w, o, list);
    LegalLanding(m, p);
  }

  /** The way back runs to its end. */
  lemma BackRuns(w: Files, o: nat, list: Listing, again: Listing)
    requires Done(w, o, list) && DestinationsApart(w.store.operations[o].moves) && Lists(again)
    ensures var op := w.store.operations[o];
            var n := Requested(Execute(w, o, list), op.workspaceId, op.moves);
            var last := |w.store.operations|;
            |n.store.operations| == last + 1 &&
            var start := n.(store := SetOperation(n.store, last, n.store.operations[last].(state := Moving)));
            Execute(n, last, again) == MoveRest(start, last) &&
            UnderWay(start, MoveRest(start, last), last) && Completes(start, MoveRest(start, last), last)
  {
    hide Ready, Execute, Good, Track, Check, MoveRest, Lists, Closed, Planned, MovedBy, DestinationsApart, Completes;
    var op := w.store.operations[o];
    var done := Execute(w, o, list);
    var n := Requested(done, op.workspaceId, op.moves);
    var last := |w.store.operations|;
    var start := n.(store := SetOperation(n.store, last, n.store.operations[last].(state := Moving)));
    DoneFacts(w, o, list);
    ReadyFacts(w, o, list);
    DoneReturnable(w, o, list);
    RequestedReturnable(done, op.workspaceId, op.moves);
    CheckBack(n, n.store.operations[last], op.moves, 0);
    NothingToTrack(w, o, list, n, again);
    BackTrackable(w, o, list, again);
    ExecuteIs(n, last, again);
    StartUnderWay(start, last);
    BackCompletes(w.trees[op.workspaceId], start, start, last, op.moves);
    CompletedDoesAll(start, start, last);
  }

  lemma ExecuteIs(n: Files, o: nat, list: Listing)
    requires o < |n.store.operations| && Check(n, n.store.operations[o], 0) == Ok(true)
    requires n.store.operations[o].workspaceId in n.trees && Trackable(n, o, list)
    requires Track(n.store, n.store.operations[o].workspaceId, list(n.trees[n.store.operations[o].workspaceId]),
                   n.store.operations[o].moves) == n.store
    ensures Execute(n, o, list) ==
            MoveRest(n.(store := SetOperation(n.store, o, n.store.operations[o].(state := Moving))), o)
  {
    hide Check, Track, MoveRest;
  }

  lemma {:induction false} FindsIt(operations: seq<Operation>, o: nat, first: nat)
    requires first <= o < |operations| && forall j, k :: 0 <= j < k < |operations| ==> operations[j].id != operations[k].id
    ensures FindOperation(operations, operations[o].workspaceId, operations[o].id, first) == Some(o)
    decreases o - first
  {
    if first < o {
      FindsIt(operations, o, first + 1);
    }
  }

  /** Nothing else waits for the workspace: no other queued batch, and no editor's lease. */
  ghost predicate Quiet(w: Files, o: nat, now: int)
    requires o < |w.store.operations|
  {
    var ws := w.store.operations[o].workspaceId;
    (forall k :: 0 <= k < |w.store.operations| && k != o && w.store.operations[k].workspaceId == ws ==>
       w.store.operations[k].state != Queued) &&
    forall owner :: owner in w.store.leases && w.store.leases[owner].workspaceId == ws ==> w.store.leases[owner].until <= now
  }

  /** The undo request executes the way back, and only that. */
  lemma UndoRuns(w: Files, o: nat, list: Listing, again: Listing, now: int)
    requires Done(w, o, list) && DestinationsApart(w.store.operations[o].moves) && Lists(again) && Quiet(w, o, now)
    ensures var op := w.store.operations[o];
            var n := Execute(w, o, list);
            Undo(n, op.workspaceId, op.id, false, now, again) ==
            (Execute(Requested(n, op.workspaceId, op.moves), |w.store.operations|, again), Ok(n.store.nextId))
  {
    hide Ready, Execute, Good, Lists, Track, Closed, Planned, MovedBy, DestinationsApart, Returnable, UnderWay, Enqueue;
    var op := w.store.operations[o];
    var done := Execute(w, o, list);
    var n := Requested(done, op.workspaceId, op.moves);
    var last := |w.store.operations|;
    DoneFacts(w, o, list);
    ReadyFacts(w, o, list);
    DoneReturnable(w, o, list);
    BatchSize(w, o);
    EnqueueBack(done, op.workspaceId, op.moves);
    OnlyLast(w, o, list, again, now);
    DrainOne(n, op.workspaceId, 0, last, now, again);
    IdsDiffer(done);
    FindsIt(done.store.operations, o, 0);
  }

  lemma IdsDiffer(w: Files)
    requires Good(w)
    ensures forall j, k :: 0 <= j < k < |w.store.operations| ==> w.store.operations[j].id != w.store.operations[k].id
  {
  }

  lemma BatchSize(w: Files, o: nat)
    requires Good(w) && o < |w.store.operations|
    ensures var moves := w.store.operations[o].moves;
            0 < |moves| <= MAX_MOVES && forall j, k :: 0 <= j < k < |moves| ==> moves[j].source != moves[k].source
  {
    var moves := w.store.operations[o].moves;
    assert OperationOk(w.store.operations[o]);
    forall j, k | 0 <= j < k < |moves| ensures moves[j].source != moves[k].source {
      assert !Covers(moves[j].source, moves[k].source);
    }
  }

  lemma OnlyLast(w: Files, o: nat, list: Listing, again: Listing, now: int)
    requires Done(w, o, list) && DestinationsApart(w.store.operations[o].moves) && Lists(again) && Quiet(w, o, now)
    ensures var op := w.store.operations[o];
            var n := Requested(Execute(w, o, list), op.workspaceId, op.moves);
            var last := |w.store.operations|;
            |n.store.operations| == last + 1 && n.store.operations[last].workspaceId == op.workspaceId &&
            n.store.operations[last].state == Queued && !Leased(n.store, n.store.operations[last], now) &&
            (forall k :: 0 <= k < last ==>
               n.store.operations[k].workspaceId != op.workspaceId || n.store.operations[k].state != Queued) &&
            forall k :: 0 <= k < last ==> Execute(n, last, again).store.operations[k] == n.store.operations[k]
  {
    hide Ready, Execute, Good, Lists, Track, Closed, Planned, MovedBy, DestinationsApart, Returnable, UnderWay, MoveRest;
    DoneFacts(w, o, list);
    ReadyFacts(w, o, list);
    BackRuns(w, o, list, again);
  }

  /** Everything is back: every file with its content, every identity, every artifact that had a file. */
  ghost predicate Restored(w: Files, end: Files, op: Operation) {
    op.workspaceId in w.trees && op.workspaceId in end.trees && |w.store.files| <= |end.store.files| &&
    (forall p :: p in w.trees[op.workspaceId] ==>
       p in end.trees[op.workspaceId] && end.trees[op.workspaceId][p] == w.trees[op.workspaceId][p]) &&
    (forall p :: p in end.trees[op.workspaceId] && p !in w.trees[op.workspaceId] ==>
       end.trees[op.workspaceId][p] == Folder && MadeFor(op.moves, |op.moves|, p)) &&
    (forall ws :: ws != op.workspaceId ==> (ws in end.trees <==> ws in w.trees)) &&
    (forall ws :: ws != op.workspaceId && ws in w.trees ==> end.trees[ws] == w.trees[ws]) &&
    (forall i :: 0 <= i < |w.store.files| ==>
       end.store.files[i].id == w.store.files[i].id && end.store.files[i].path == w.store.files[i].path &&
       end.store.files[i].deleted == w.store.files[i].deleted) &&
    forall a :: a in w.assets && (w.assets[a].workspaceId == op.workspaceId ==> w.assets[a].path in w.trees[op.workspaceId]) ==>
      a in end.assets && end.assets[a] == w.assets[a]
  }

  /**
   The undo round trip: a batch that completed, and whose destinations do not lie under one another, can be undone,
   and the undo puts every file, identity and artifact back, up to folders made on the way.
   */
  lemma UndoRestores(w: Files, o: nat, list: Listing, again: Listing, now: int)
    requires Done(w, o, list) && DestinationsApart(w.store.operations[o].moves) && Lists(again) && Quiet(w, o, now)
    ensures var op := w.store.operations[o];
            var (end, reply) := Undo(Execute(w, o, list), op.workspaceId, op.id, false, now, again);
            reply.Ok? && |end.store.operations| == |w.store.operations| + 1 &&
            end.store.operations[|w.store.operations|].id == reply.value &&
            end.store.operations[|w.store.operations|].state == Completed && Restored(w, end, op)
  {
    hide Ready, Execute, Good, Lists, Track, Closed, Planned, MovedBy, DestinationsApart, Returnable, UnderWay, MoveRest;
    hide Undo, Restored, Quiet, Completes;
    UndoRuns(w, o, list, again, now);
    BackRuns(w, o, list, again);
    BackEnds(w, o, list, again);
    BackRestores(w, o, list, again);
  }

  lemma BackEnds(w: Files, o: nat, list: Listing, again: Listing)
    requires Done(w, o, list) && DestinationsApart(w.store.operations[o].moves) && Lists(again)
    ensures var op := w.store.operations[o];
            var n := Execute(w, o, list);
            var end := Execute(Requested(n, op.workspaceId, op.moves), |w.store.operations|, again);
            |n.store.operations| == |w.store.operations| && |end.store.operations| == |w.store.operations| + 1 &&
            end.store.operations[|w.store.operations|].id == n.store.nextId &&
            end.store.operations[|w.store.operations|].state == Completed
  {
    hide Ready, Execute, Good, Lists, Track, Closed, Planned, MovedBy, DestinationsApart, Returnable, UnderWay, MoveRest;
    BackRuns(w, o, list, again);
  }

  lemma BackRestores(w: Files, o: nat, list: Listing, again: Listing)
    requires Done(w, o, list) && DestinationsApart(w.store.operations[o].moves) && Lists(again)
    ensures var op := w.store.operations[o];
            Restored(w, Execute(Requested(Execute(w, o, list), op.workspaceId, op.moves), |w.store.operations|, again), op)
  {
    hide Ready, Execute, Good, Lists, Track, MovedBy, DestinationsApart, MoveRest, Closed, Planned, RootedAll, Rooted;
    var op := w.store.operations[o];
    var before := w.trees[op.workspaceId];
    var mid := Execute(w, o, list);
    var r := Ready(w, o, list);
    var end := Execute(Requested(mid, op.workspaceId, op.moves), |w.store.operations|, again);
    DoneFacts(w, o, list);
    ReadyFacts(w, o, list);
    DoneReturnable(w, o, list);
    BackRuns(w, o, list, again);
    TreeRoundTrip(before, mid.trees[op.workspaceId], end.trees[op.workspaceId], op.moves);
    forall i | 0 <= i < |w.store.files|
      ensures i < |end.store.files| && end.store.files[i].id == w.store.files[i].id &&
              end.store.files[i].path == w.store.files[i].path && end.store.files[i].deleted == w.store.files[i].deleted
    {
      assert r.store.files[i] == r.store.files[..|w.store.files|][i];
      RowWasThere(r, op.workspaceId, i);
      RowReturns(before, mid.trees[op.workspaceId], r.store.files[i], op.workspaceId, op.moves);
    }
    forall a | a in w.assets && (w.assets[a].workspaceId == op.workspaceId ==> w.assets[a].path in before)
      ensures a in end.assets && end.assets[a] == w.assets[a]
    {
      AssetReturns(before, mid.trees[op.workspaceId], w.assets[a], op.workspaceId, op.moves);
    }
  }

  lemma RowWasThere(r: Files, ws: WorkspaceId, i: nat)
    requires RootedAll(r.store.files, r.trees) && ws in r.trees && i < |r.store.files|
    ensures r.store.files[i].workspaceId == ws && !r.store.files[i].deleted ==> r.store.files[i].path in r.trees[ws]
  {
    assert Rooted(r.store.files, ws, r.trees[ws]);
  }

  // ---------------------------------------------------------------- when undo is refused

  /** What holds of a completed batch whether or not its destinations lie under one another. */
  ghost predicate Landed(w: Files, ws: WorkspaceId, moves: seq<Move>) {
    ws in w.trees && LegalMoves(moves) && IdsOk(w.store) && LiveDistinct(w.store.files) &&
    AtDestinations(w.store, ws, moves) &&
    (forall i :: 0 <= i < |moves| ==> moves[i].destination in w.trees[ws] && moves[i].source !in w.trees[ws]) &&
    forall j, k :: 0 <= j < k < |moves| ==> moves[j].source != moves[k].source
  }

  lemma DoneLanded(w: Files, o: nat, list: Listing)
    requires Done(w, o, list)
    ensures Landed(Execute(w, o, list), w.store.operations[o].workspaceId, w.store.operations[o].moves)
  {
    hide Ready, Execute, Lists, Closed, Planned, MovedBy, AtDestinations;
    var op := w.store.operations[o];
    var n := Execute(w, o, list);
    DoneFacts(w, o, list);
    ReadyFacts(w, o, list);
    DoneAtDestinations(w, o, list);
    BatchSize(w, o);
    forall i | 0 <= i < |op.moves|
      ensures op.moves[i].destination in n.trees[op.workspaceId] && op.moves[i].source !in n.trees[op.workspaceId]
    {
      SourceGone(w.trees[op.workspaceId], n.trees[op.workspaceId], op.moves, i);
      Arrived(w.trees[op.workspaceId], n.trees[op.workspaceId], op.moves, i);
    }
  }

  lemma Arrived(before: Tree, after: Tree, moves: seq<Move>, i: nat)
    requires Planned(before, moves) && MovedBy(before, after, moves, |moves|) && i < |moves|
    ensures moves[i].destination in after
  {
    assert Relocated(moves[i].source, moves[i].source, moves[i].destination) == moves[i].destination;
    assert Covers(moves[i].source, moves[i].source);
  }

  lemma PlanOneLanded(w: Files, ws: WorkspaceId, moves: seq<Move>, i: nat, taken: set<Path>)
    requires Landed(w, ws, moves) && i < |moves| && moves[i].source !in taken
    ensures PlanOne(w, ws, Reversed(moves), i, false, taken) ==
            if Overlaps(Reversed(moves), i) then Err(InvalidMove) else Ok(moves[i].source)
    ensures Identify(w.store, ws, moves[i].destination) == (w.store, moves[i].fileId)
  {
    hide Overlaps, IdsOk, LiveDistinct, AtDestinations;
    FoundAt(w.store, ws, moves, i);
  }

  lemma {:induction false} PlanRefused(w: Files, ws: WorkspaceId, moves: seq<Move>, i: nat, k: nat)
    requires Landed(w, ws, moves) && i <= k < |moves| && Overlaps(Reversed(moves), k)
    ensures Plan(w, ws, Reversed(moves), i, false, Inverse(moves)[..i]) == (w.store, Err(InvalidMove))
    decreases k - i
  {
    hide PlanOne, Identify, Overlaps;
    var back := Inverse(moves);
    var taken := set m | m in back[..i] :: m.destination;
    forall m | m in back[..i] ensures m.destination != moves[i].source {
      var j :| 0 <= j < i && back[..i][j] == m;
      assert m.destination == moves[j].source;
    }
    PlanOneLanded(w, ws, moves, i, taken);
    if !Overlaps(Reversed(moves), i) {
      assert back[..i] + [back[i]] == back[..i + 1];
      PlanRefused(w, ws, moves, i + 1, k);
    }
  }

  /** Undo is accepted exactly when no destination lies under another; otherwise it is refused and nothing changes. */
  lemma UndoAcceptedIff(w: Files, o: nat, list: Listing, again: Listing, now: int)
    requires Done(w, o, list) && Lists(again) && Quiet(w, o, now)
    ensures var op := w.store.operations[o];
            var n := Execute(w, o, list);
            var (end, reply) := Undo(n, op.workspaceId, op.id, false, now, again);
            (reply.Ok? <==> DestinationsApart(op.moves)) && (reply.Err? ==> end == n && reply.error == InvalidMove)
  {
    hide Ready, Execute, Good, Lists, Closed, Planned, MovedBy, UnderWay, Undo, Requested, Quiet, Completes;
    var op := w.store.operations[o];
    var n := Execute(w, o, list);
    if DestinationsApart(op.moves) {
      UndoRuns(w, o, list, again, now);
    } else {
      var i, j :| 0 <= i < |op.moves| && 0 <= j < |op.moves| && i != j &&
                  Covers(op.moves[i].destination, op.moves[j].destination);
      DoneLanded(w, o, list);
      assert Overlaps(Reversed(op.moves), i) by {
        assert Reversed(op.moves)[i].source == op.moves[i].destination && Reversed(op.moves)[j].source == op.moves[j].destination;
      }
      PlanRefused(n, op.workspaceId, op.moves, 0, i);
      RefusedUndo(w, o, list, again, now);
    }
  }

  lemma RefusedUndo(w: Files, o: nat, list: Listing, again: Listing, now: int)
    requires Done(w, o, list)
    requires var (op, n) := (w.store.operations[o], Execute(w, o, list));
             Plan(n, op.workspaceId, Reversed(op.moves), 0, false, Inverse(op.moves)[..0]) == (n.store, Err(InvalidMove))
    ensures var (op, n) := (w.store.operations[o], Execute(w, o, list));
            Undo(n, op.workspaceId, op.id, false, now, again) == (n, Err(InvalidMove))
  {
    hide Ready, Execute, Good, Lists, Closed, Planned, MovedBy, UnderWay, Plan, Drain;
    var op := w.store.operations[o];
    var n := Execute(w, o, list);
    DoneFacts(w, o, list);
    BatchSize(w, o);
    IdsDiffer(n);
    ExecutedId(w, o, list);
    FindsIt(n.store.operations, o, 0);
    assert Inverse(op.moves)[..0] == [];
  }

  lemma ExecutedId(w: Files, o: nat, list: Listing)
    requires Done(w, o, list)
    ensures Execute(w, o, list).store.operations[o].id == w.store.operations[o].id
  {
    hide Good, Lists, Track, Check, MoveRest;
    DoneRan(w, o, list);
    MoveRestKeepsId(Ready(w, o, list), o);
  }

  // ---------------------------------------------------------------- crashes amid an execution

  /**
   Whatever crashes interrupt a batch from the moment it is journaled as moving, recovery ends it exactly as an
   execution without a crash would have.
   */
  lemma ExecuteSurvivesCrashes(w: Files, o: nat, list: Listing, crashes: seq<bool>)
    requires Good(w) && o < |w.store.operations| && w.store.operations[o].workspaceId in w.trees
    requires Check(w, w.store.operations[o], 0) == Ok(true) && Trackable(w, o, list)
    ensures var start := Started(Ready(w, o, list), o);
            FileMoveCrash.Inv(start) && FileMoveCrash.Inv(Play(start, crashes)) &&
            RunOut(Play(start, crashes)).disk == Execute(w, o, list) &&
            (!Play(start, crashes).stage.Finished? ==> Recover(Play(start, crashes).disk, 0) == Execute(w, o, list))
  {
    hide Track, MoveRest, Play, RunOut, Recover, Check;
    var op := w.store.operations[o];
    var ready := Ready(w, o, list);
    CheckedPlanned(w, o);
    assert MovesApart(ready.store.operations[o]) by {
      forall i | 0 <= i < |op.moves| ensures Apart(op.moves[i]) {
        assert Closed(w.trees[op.workspaceId]);
        SourceApart(w.trees[op.workspaceId], op.moves, i);
      }
    }
    CrashReplay(ready, o, crashes);
    assert forall k :: 0 <= k < |w.store.operations| ==> OperationOk(w.store.operations[k]);
    if !Play(Started(ready, o), crashes).stage.Finished? {
      RestartFinishes(ready, o, crashes);
    }
  }

  /** An identity that can be looked up names a file that is there. */
  lemma ReferenceIsThere(w: Files, ws: WorkspaceId, path: Path, id: FileId)
    requires Good(w) && Reference(w.store, ws, path, Some(id)).Ok?
    ensures ws in w.trees && Reference(w.store, ws, path, Some(id)).value in w.trees[ws]
  {
    FindIdFirst(w.store.files, ws, id);
    assert ws in w.trees ==> Rooted(w.store.files, ws, w.trees[ws]);
  }
}
