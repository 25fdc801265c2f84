/** Undo takes a completed batch back: files, identities and artifacts are where they were. */
module FileMoveUndo {
  import opened Common
  import opened FileMoveModel
  import opened FileMoveCrash
  import opened FileMoveTrees
  import opened FileMoveRows
  import opened FileMoveInvariant

  /** No destination lies under another one. */
  ghost predicate DestinationsApart(moves: seq<Move>) {
    forall i, j :: 0 <= i < |moves| && 0 <= j < |moves| && i != j ==> !Covers(moves[i].destination, moves[j].destination)
  }

  function Inverse(moves: seq<Move>): seq<Move> {
    seq(|moves|, i requires 0 <= i < |moves| => Move(moves[i].destination, moves[i].source, moves[i].fileId))
  }

  // ---------------------------------------------------------------- trees

  /** After the batch the way back is planned as well. */
  lemma InversePlanned(before: Tree, after: Tree, moves: seq<Move>)
    requires Closed(before) && Planned(before, moves) && DestinationsApart(moves)
    requires MovedBy(before, after, moves, |moves|)
    ensures Planned(after, Inverse(moves))
  {
    var back := Inverse(moves);
    forall i | 0 <= i < |moves|
      ensures moves[i].destination in after && moves[i].source !in after && moves[i].source != []
    {
      assert Relocated(moves[i].source, moves[i].source, moves[i].destination) == moves[i].destination;
      assert Covers(moves[i].source, moves[i].source);
      SourceGone(before, after, moves, i);
    }
    forall i, j | 0 <= i < |moves| && 0 <= j < |moves| ensures !Covers(moves[i].destination, moves[j].source) {
      DestinationAbove(before, moves, i, moves[j].source);
    }
  }

  lemma SourceGone(before: Tree, after: Tree, moves: seq<Move>, i: nat)
    requires Closed(before) && Planned(before, moves) && MovedBy(before, after, moves, |moves|) && i < |moves|
    ensures moves[i].source !in after
  {
    var q := moves[i].source;
    forall j | 0 <= j < |moves| ensures !Brought(before, moves[j], q) {
      DestinationAbove(before, moves, j, q);
    }
    assert forall j :: 0 <= j < |moves| && q < moves[j].destination ==> Covers(q, moves[j].destination);
    assert !Unmoved(moves, |moves|, q);
  }

  lemma ProperPrefix(a: Path, folder: Path, path: Path)
    requires folder < path
    ensures Covers(a, folder) ==> Covers(a, path) && a != path
  {
  }

  /** The folders a source lay in are still there when it comes back. */
  lemma WayBackClear(before: Tree, after: Tree, tree: Tree, moves: seq<Move>, n: nat)
    requires Closed(before) && Planned(before, moves) && DestinationsApart(moves)
    requires MovedBy(before, after, moves, |moves|) && n < |moves| && MovedBy(after, tree, Inverse(moves), n)
    ensures !FileInWay(tree, moves[n].source)
  {
    var source := moves[n].source;
    forall k | 0 < k < |source| ensures source[..k] in tree && tree[source[..k]].Folder? {
      var folder := source[..k];
      PrefixesIn(before, source, k);
      forall j | 0 <= j < |moves| ensures !Covers(moves[j].source, folder) {
        ProperPrefix(moves[j].source, folder, source);
      }
      assert folder in after && after[folder] == before[folder];
      forall j | 0 <= j < n ensures !Covers(Inverse(moves)[j].source, folder) {
        DestinationAbove(before, moves, j, folder);
      }
    }
  }

  /** So every move back succeeds. */
  lemma MoveBackSucceeds(before: Tree, after: Tree, tree: Tree, moves: seq<Move>, n: nat)
    requires Closed(before) && Closed(after) && Planned(before, moves) && DestinationsApart(moves)
    requires MovedBy(before, after, moves, |moves|) && n < |moves| && MovedBy(after, tree, Inverse(moves), n)
    ensures MoveTree(tree, Inverse(moves)[n]).1 == None
  {
    hide FileInWay, Renamed, Parents;
    var back := Inverse(moves);
    InversePlanned(before, after, moves);
    WayBackClear(before, after, tree, moves, n);
    var m := back[n];
    assert Unmoved(back, n, m.source);
    assert m.destination !in tree by {
      NotBackYet(after, tree, back, n);
    }
  }

  lemma NotBackYet(after: Tree, tree: Tree, back: seq<Move>, n: nat)
    requires Planned(after, back) && n < |back| && MovedBy(after, tree, back, n)
    requires forall i, j :: 0 <= i < |back| && 0 <= j < |back| && i != j ==> !Covers(back[i].destination, back[j].destination)
    ensures back[n].destination !in tree
  {
    var q := back[n].destination;
    assert forall j :: 0 <= j < n ==> !Covers(back[j].destination, q);
    assert forall j :: 0 <= j < n ==> !(q < back[j].destination);
  }

  /** There and back: nothing is lost or changed, and all that is left are folders made on the way. */
  lemma TreeRoundTrip(before: Tree, after: Tree, end: Tree, moves: seq<Move>)
    requires Closed(before) && Closed(end) && Planned(before, moves) && DestinationsApart(moves)
    requires MovedBy(before, after, moves, |moves|) && MovedBy(after, end, Inverse(moves), |moves|)
    ensures forall p :: p in before ==> p in end && end[p] == before[p]
    ensures forall q :: q in end && q !in before ==> end[q] == Folder && MadeFor(moves, |moves|, q)
  {
    forall p | p in before ensures p in end && end[p] == before[p] {
      PathReturns(before, after, end, moves, p);
    }
    forall q | q in end && q !in before ensures end[q] == Folder && MadeFor(moves, |moves|, q) {
      NothingElse(before, after, end, moves, q);
    }
  }

  lemma PathReturns(before: Tree, after: Tree, end: Tree, moves: seq<Move>, p: Path)
    requires Closed(before) && Planned(before, moves) && p in before
    requires MovedBy(before, after, moves, |moves|) && MovedBy(after, end, Inverse(moves), |moves|)
    ensures p in end && end[p] == before[p]
  {
    if Unmoved(moves, |moves|, p) {
      forall j | 0 <= j < |moves| ensures !Covers(Inverse(moves)[j].source, p) {
        DestinationAbove(before, moves, j, p);
      }
      assert Unmoved(Inverse(moves), |moves|, p);
    } else {
      var j :| 0 <= j < |moves| && Covers(moves[j].source, p);
      var q := Relocated(p, moves[j].source, moves[j].destination);
      RelocatedBack(moves[j], p);
      assert q in after && after[q] == before[p];
      assert Covers(Inverse(moves)[j].source, q);
      assert Relocated(q, moves[j].destination, moves[j].source) == p;
    }
  }

  lemma NothingElse(before: Tree, after: Tree, end: Tree, moves: seq<Move>, q: Path)
    requires Closed(before) && Planned(before, moves) && DestinationsApart(moves) && q in end && q !in before && q != []
    requires MovedBy(before, after, moves, |moves|) && MovedBy(after, end, Inverse(moves), |moves|)
    ensures end[q] == Folder && MadeFor(moves, |moves|, q)
  {
    var back := Inverse(moves);
    forall j | 0 <= j < |moves| ensures !Brought(after, back[j], q) {
      if Covers(moves[j].source, q) {
        NotBroughtTwice(before, after, moves, j, q);
      }
    }
    forall j | 0 <= j < |moves| ensures !(q < moves[j].source) {
      if q < moves[j].source {
        FolderWasThere(before, moves, j, q);
      }
    }
    hide Closed, Planned, DestinationsApart;
    LeftOver(before, after, end, moves, q);
  }

  /** What is left over was there after the batch, and was neither there before nor brought. */
  lemma LeftOver(before: Tree, after: Tree, end: Tree, moves: seq<Move>, q: Path)
    requires q in end && q !in before
    requires MovedBy(before, after, moves, |moves|) && MovedBy(after, end, Inverse(moves), |moves|)
    requires forall j :: 0 <= j < |moves| ==> !Brought(after, Inverse(moves)[j], q) && !(q < moves[j].source)
    ensures end[q] == Folder && MadeFor(moves, |moves|, q)
  {
    var back := Inverse(moves);
    assert !MadeFor(back, |moves|, q);
    assert q in after && Unmoved(back, |moves|, q) && end[q] == after[q];
    assert forall j :: 0 <= j < |moves| && Brought(before, moves[j], q) ==> Covers(back[j].source, q);
  }

  lemma FolderWasThere(before: Tree, moves: seq<Move>, j: nat, q: Path)
    requires Closed(before) && Planned(before, moves) && j < |moves| && q < moves[j].source && q != []
    ensures q in before
  {
    PrefixesIn(before, moves[j].source, |q|);
    assert q == moves[j].source[..|q|];
  }

  /** What lies under a destination after the batch came from its own source. */
  lemma NotBroughtTwice(before: Tree, after: Tree, moves: seq<Move>, j: nat, q: Path)
    requires Closed(before) && Planned(before, moves) && DestinationsApart(moves) && q !in before && j < |moves|
    requires MovedBy(before, after, moves, |moves|) && Covers(moves[j].source, q)
    ensures moves[j].destination + q[|moves[j].source|..] !in after
  {
    var p := moves[j].destination + q[|moves[j].source|..];
    assert Covers(moves[j].destination, p) && moves[j].source + p[|moves[j].destination|..] == q;
    forall k | 0 <= k < |moves| ensures !Brought(before, moves[k], p) {
      if k != j && Covers(moves[k].destination, p) {
        Comparable(moves[k].destination, moves[j].destination, p);
      }
    }
    assert p !in before by {
      if p in before {
        DestinationAbove(before, moves, j, p);
      }
    }
    assert forall k :: 0 <= k < |moves| && p < moves[k].destination ==> Covers(moves[j].destination, moves[k].destination);
    assert !MadeFor(moves, |moves|, p) by {
      assert forall k :: 0 <= k < |moves| && p < moves[k].destination ==> k == j && |p| < |moves[j].destination|;
    }
  }

  // ---------------------------------------------------------------- identities and artifacts

  /** An identity that was somewhere in the tree is there again. */
  lemma RowReturns(before: Tree, after: Tree, row: Row, ws: WorkspaceId, moves: seq<Move>)
    requires Closed(before) && Closed(after) && Planned(before, moves) && Planned(after, Inverse(moves))
    requires row.workspaceId == ws && !row.deleted ==> row.path in before
    ensures RowAfter(RowAfter(row, ws, moves, |moves|), ws, Inverse(moves), |moves|).path == row.path
  {
    var moved := RowAfter(row, ws, moves, |moves|);
    if row.workspaceId != ws || row.deleted || Unmoved(moves, |moves|, row.path) {
      RowStays(row, ws, moves, |moves|);
      if row.workspaceId == ws && !row.deleted {
        forall j | 0 <= j < |moves| ensures !Covers(Inverse(moves)[j].source, row.path) {
          DestinationAbove(before, moves, j, row.path);
        }
      }
      RowStays(row, ws, Inverse(moves), |moves|);
    } else {
      var j :| 0 <= j < |moves| && Covers(moves[j].source, row.path);
      RowMoves(before, row, ws, moves, |moves|, j);
      RelocatedBack(moves[j], row.path);
      RowMoves(after, moved, ws, Inverse(moves), |moves|, j);
    }
  }

  lemma AssetReturns(before: Tree, after: Tree, asset: Asset, ws: WorkspaceId, moves: seq<Move>)
    requires Closed(before) && Closed(after) && Planned(before, moves) && Planned(after, Inverse(moves))
    requires asset.workspaceId == ws ==> asset.path in before
    ensures AssetAfter(AssetAfter(asset, ws, moves, |moves|), ws, Inverse(moves), |moves|) == asset
  {
    if asset.workspaceId != ws || Unmoved(moves, |moves|, asset.path) {
      AssetStays(asset, ws, moves, |moves|);
      if asset.workspaceId == ws {
        forall j | 0 <= j < |moves| ensures !Covers(Inverse(moves)[j].source, asset.path) {
          DestinationAbove(before, moves, j, asset.path);
        }
      }
      AssetStays(asset, ws, Inverse(moves), |moves|);
    } else {
      var j :| 0 <= j < |moves| && Covers(moves[j].source, asset.path);
      AssetMoves(before, asset, ws, moves, |moves|, j);
      RelocatedBack(moves[j], asset.path);
      AssetMoves(after, AssetAfter(asset, ws, moves, |moves|), ws, Inverse(moves), |moves|, j);
    }
  }

  // ---------------------------------------------------------------- the request for the way back

  /** The identity of every move is live at its destination. */
  ghost predicate AtDestinations(s: Store, ws: WorkspaceId, moves: seq<Move>) {
    forall i :: 0 <= i < |moves| ==> LiveIdAt(s.files, ws, moves[i].fileId, moves[i].destination)
  }

  ghost predicate LiveIdAt(files: seq<Row>, ws: WorkspaceId, id: FileId, path: Path) {
    exists k :: 0 <= k < |files| && files[k].id == id && LiveAt(files[k], ws, path)
  }

  ghost predicate LegalMoves(moves: seq<Move>) {
    forall i :: 0 <= i < |moves| ==> Legal(moves[i].source) && Legal(moves[i].destination)
  }

  /** Everything the way back needs, once the batch is done. */
  ghost predicate Returnable(w: Files, ws: WorkspaceId, moves: seq<Move>) {
    ws in w.trees && Closed(w.trees[ws]) && Planned(w.trees[ws], Inverse(moves)) && LegalMoves(moves) && IdsOk(w.store) &&
    LiveDistinct(w.store.files) && AtDestinations(w.store, ws, moves)
  }

  lemma FoundAt(s: Store, ws: WorkspaceId, moves: seq<Move>, i: nat)
    requires IdsOk(s) && LiveDistinct(s.files) && AtDestinations(s, ws, moves) && i < |moves|
    ensures FindId(s.files, ws, moves[i].fileId) == Some(moves[i].destination)
    ensures FindLive(s.files, ws, moves[i].destination) == Some(moves[i].fileId)
  {
    assert LiveIdAt(s.files, ws, moves[i].fileId, moves[i].destination);
    var k :| 0 <= k < |s.files| && s.files[k].id == moves[i].fileId && LiveAt(s.files[k], ws, moves[i].destination);
    FindIdAt(s, ws, k);
    FindLiveAt(s.files, ws, moves[i].destination, k);
  }

  lemma ReversedClear(tree: Tree, moves: seq<Move>, i: nat)
    requires Planned(tree, Inverse(moves)) && i < |moves|
    ensures !Overlaps(Reversed(moves), i)
  {
    var back := Inverse(moves);
    var wishes := Reversed(moves);
    assert forall j :: 0 <= j < |moves| ==> wishes[j].source == back[j].source && wishes[j].destination == back[j].destination;
  }

  lemma PlanOneBack(w: Files, ws: WorkspaceId, moves: seq<Move>, i: nat, taken: set<Path>)
    requires Returnable(w, ws, moves) && i < |moves| && moves[i].source !in taken
    ensures PlanOne(w, ws, Reversed(moves), i, false, taken) == Ok(moves[i].source)
  {
    hide Overlaps, Closed, IdsOk, LiveDistinct, AtDestinations;
    ReversedClear(w.trees[ws], moves, i);
    FoundAt(w.store, ws, moves, i);
    var back := Inverse(moves);
    assert back[i].source in w.trees[ws] && back[i].destination !in w.trees[ws];
  }

  lemma {:induction false} PlanBack(w: Files, ws: WorkspaceId, moves: seq<Move>, i: nat)
    requires Returnable(w, ws, moves) && i <= |moves|
    requires forall j, k :: 0 <= j < k < |moves| ==> moves[j].source != moves[k].source
    ensures Plan(w, ws, Reversed(moves), i, false, Inverse(moves)[..i]) == (w.store, Ok(Inverse(moves)))
    decreases |moves| - i
  {
    hide PlanOne, Returnable;
    var back := Inverse(moves);
    if i == |moves| {
      assert back[..i] == back;
    } else {
      var taken := set m | m in back[..i] :: m.destination;
      forall m | m in back[..i] ensures m.destination != moves[i].source {
        var k :| 0 <= k < i && back[..i][k] == m;
        assert m.destination == moves[k].source;
      }
      PlanOneBack(w, ws, moves, i, taken);
      IdentityBack(w, ws, moves, i);
      assert back[..i] + [back[i]] == back[..i + 1];
      PlanBack(w, ws, moves, i + 1);
    }
  }

  lemma IdentityBack(w: Files, ws: WorkspaceId, moves: seq<Move>, i: nat)
    requires Returnable(w, ws, moves) && i < |moves|
    ensures Identify(w.store, ws, moves[i].destination) == (w.store, moves[i].fileId)
  {
    FoundAt(w.store, ws, moves, i);
  }

  lemma {:induction false} CheckBack(w: Files, op: Operation, moves: seq<Move>, i: nat)
    requires Returnable(w, op.workspaceId, moves) && op.moves == Inverse(moves) && i <= |moves|
    ensures Check(w, op, i) == Ok(true)
    decreases |moves| - i
  {
    hide IdsOk, LiveDistinct, AtDestinations, Closed;
    if i < |moves| {
      FoundAt(w.store, op.workspaceId, moves, i);
      assert op.moves[i].source in w.trees[op.workspaceId] && op.moves[i].destination !in w.trees[op.workspaceId];
      CheckBack(w, op, moves, i + 1);
    }
  }

  // ---------------------------------------------------------------- running the way back

  /** Every move of the way back succeeds, so it completes. */
  lemma {:induction false} BackCompletes(before: Tree, start: Files, w: Files, o: nat, moves: seq<Move>)
    requires UnderWay(start, w, o) && w.store.operations[o].moves == Inverse(moves)
    requires Closed(before) && Planned(before, moves) && DestinationsApart(moves)
    requires MovedBy(before, start.trees[w.store.operations[o].workspaceId], moves, |moves|)
    ensures MoveRest(w, o).store.operations[o].state == Completed
    decreases |w.store.operations[o].moves| - w.store.operations[o].applied
  {
    hide MoveTree, Closed, Planned, MovedBy, RelinkRow, RemapAsset, DestinationsApart;
    var op := w.store.operations[o];
    if op.applied < |op.moves| {
      var m := op.moves[op.applied];
      MoveBackSucceeds(before, start.trees[op.workspaceId], w.trees[op.workspaceId], moves, op.applied);
      UnderWayNext(start, w, o);
      BackCompletes(before, start,
                    Files(Record(w.store, o), w.trees[op.workspaceId := MoveTree(w.trees[op.workspaceId], m).0],
                          Remap(w.assets, op.workspaceId, m)), o, moves);
    }
  }

  lemma StartUnderWay(w: Files, o: nat)
    requires o < |w.store.operations| && w.store.operations[o].applied == 0
    requires w.store.operations[o].workspaceId in w.trees && Closed(w.trees[w.store.operations[o].workspaceId])
    requires Planned(w.trees[w.store.operations[o].workspaceId], w.store.operations[o].moves)
    ensures UnderWay(w, w, o)
  {
    var op := w.store.operations[o];
    MovedByNone(w.trees[op.workspaceId], op.moves);
    assert RowsAfter(w.store.files, op.workspaceId, op.moves, 0) == w.store.files;
    assert AssetsAfter(w.assets, op.workspaceId, op.moves, 0) == w.assets;
  }

  lemma {:induction false} DrainNothing(w: Files, ws: WorkspaceId, from: nat, now: int, list: Listing)
    requires forall k :: from <= k < |w.store.operations| ==>
               w.store.operations[k].workspaceId != ws || w.store.operations[k].state != Queued
    ensures Drain(w, ws, from, now, list) == w
    decreases |w.store.operations| - from
  {
    hide Execute, Leased;
    if from < |w.store.operations| {
      DrainNothing(w, ws, from + 1, now, list);
    }
  }

  lemma {:induction false} DrainOne(w: Files, ws: WorkspaceId, from: nat, o: nat, now: int, list: Listing)
    requires from <= o < |w.store.operations| && w.store.operations[o].workspaceId == ws
    requires w.store.operations[o].state == Queued && !Leased(w.store, w.store.operations[o], now)
    requires forall k :: from <= k < |w.store.operations| && k != o ==>
               w.store.operations[k].workspaceId != ws || w.store.operations[k].state != Queued
    requires forall k :: 0 <= k < |w.store.operations| && k != o ==>
               Execute(w, o, list).store.operations[k] == w.store.operations[k]
    ensures Drain(w, ws, from, now, list) == Execute(w, o, list)
    decreases o - from
  {
    hide Execute, Leased;
    if from < o {
      DrainOne(w, ws, from + 1, o, now, list);
    } else {
      DrainNothing(Execute(w, o, list), ws, o + 1, now, list);
    }
  }
}
