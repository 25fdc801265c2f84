/** Where a file is found after it was moved: by its identity, and by every path it once had. */
module FileMoveAliases {
  import opened Common
  import opened FileMoveModel
  import opened FileMoveCrash
  import opened FileMoveTrees
  import opened FileMoveRows
  import opened FileMoveInvariant
  import opened FileMoveUndo
  import opened FileMoveRoundTrip
  import opened FileMoveStops
  import opened FileMoveHistory

  // ---------------------------------------------------------------- looking up

  predicate HasAlias(row: Row, ws: WorkspaceId, path: Path) {
    row.workspaceId == ws && path in row.aliases
  }

  /** No other identity of the workspace once had the path. */
  predicate OnlyAlias(files: seq<Row>, ws: WorkspaceId, path: Path, k: nat) {
    forall i :: 0 <= i < |files| && i != k ==> !HasAlias(files[i], ws, path)
  }

  lemma {:induction false} NobodyAliased(files: seq<Row>, ws: WorkspaceId, path: Path)
    ensures Aliased(files, ws, path) == [] <==> forall i :: 0 <= i < |files| ==> !HasAlias(files[i], ws, path)
    decreases |files|
  {
    if files != [] {
      NobodyAliased(files[1..], ws, path);
      assert forall i :: 0 <= i < |files[1..]| ==> files[1..][i] == files[i + 1];
      if forall i :: 0 <= i < |files[1..]| ==> !HasAlias(files[1..][i], ws, path) {
        assert forall i :: 0 < i < |files| ==> files[i] == files[1..][i - 1];
      }
    }
  }

  lemma {:induction false} AliasedIs(files: seq<Row>, ws: WorkspaceId, path: Path, k: nat)
    requires k < |files| && HasAlias(files[k], ws, path)
    ensures |Aliased(files, ws, path)| >= 1
    ensures |Aliased(files, ws, path)| == 1 <==> OnlyAlias(files, ws, path, k)
    ensures OnlyAlias(files, ws, path, k) ==> Aliased(files, ws, path) == [files[k]]
    decreases |files|
  {
    var rest := files[1..];
    assert forall i :: 0 <= i < |rest| ==> rest[i] == files[i + 1];
    if k == 0 {
      NobodyAliased(rest, ws, path);
      assert OnlyAlias(files, ws, path, 0) <==> forall i :: 0 <= i < |rest| ==> !HasAlias(rest[i], ws, path) by {
        if forall i :: 0 <= i < |rest| ==> !HasAlias(rest[i], ws, path) {
          assert forall i :: 0 < i < |files| ==> files[i] == rest[i - 1];
        }
      }
    } else {
      AliasedIs(rest, ws, path, k - 1);
      assert OnlyAlias(files, ws, path, k) <==> !HasAlias(files[0], ws, path) && OnlyAlias(rest, ws, path, k - 1) by {
        if !HasAlias(files[0], ws, path) && OnlyAlias(rest, ws, path, k - 1) {
          assert forall i :: 0 < i < |files| ==> files[i] == rest[i - 1];
        }
      }
    }
  }

  /** A path that one identity once had leads to where that one is; one that several had is ambiguous. */
  lemma AliasLookup(s: Store, ws: WorkspaceId, path: Path, k: nat)
    requires k < |s.files| && HasAlias(s.files[k], ws, path)
    ensures Reference(s, ws, path, None) ==
            if !OnlyAlias(s.files, ws, path, k) then Err(AmbiguousReference)
            else if s.files[k].deleted then Err(FileNotFound)
            else Ok(s.files[k].path)
  {
    AliasedIs(s.files, ws, path, k);
  }

  /** A path that no identity has left is taken as it is. */
  lemma PlainLookup(s: Store, ws: WorkspaceId, path: Path)
    requires forall i :: 0 <= i < |s.files| ==> !HasAlias(s.files[i], ws, path)
    ensures Reference(s, ws, path, None) == Ok(path)
  {
    NobodyAliased(s.files, ws, path);
  }

  lemma IdLookup(s: Store, k: nat, path: Path)
    requires IdsOk(s) && k < |s.files|
    ensures var row := s.files[k];
            Reference(s, row.workspaceId, path, Some(row.id)) == if row.deleted then Err(FileNotFound) else Ok(row.path)
  {
    var row := s.files[k];
    FindIdFirst(s.files, row.workspaceId, row.id);
    var found := FindId(s.files, row.workspaceId, row.id);
    if found.Some? {
      var i :| 0 <= i < |s.files| && s.files[i].id == row.id && LiveAt(s.files[i], row.workspaceId, found.value);
      assert i == k;
    }
  }

  // ---------------------------------------------------------------- after a batch

  /** A live row under a source remembers where it was, and forgets nothing. */
  lemma {:induction false} RowRemembers(tree: Tree, row: Row, ws: WorkspaceId, moves: seq<Move>, n: nat, j: nat)
    requires Closed(tree) && Planned(tree, moves) && j < n <= |moves| && Covers(moves[j].source, row.path)
    requires row.workspaceId == ws && !row.deleted
    ensures var after := RowAfter(row, ws, moves, n);
            after.path == Relocated(row.path, moves[j].source, moves[j].destination) &&
            forall p :: p in after.aliases <==> p in row.aliases || p == row.path
    decreases n
  {
    hide Closed, Planned, Unmoved, Brought;
    var landed := Relocated(row.path, moves[j].source, moves[j].destination);
    if n == j + 1 {
      UnmovedBefore(tree, moves, j, row.path);
      RowStays(row, ws, moves, j);
    } else {
      RowRemembers(tree, row, ws, moves, n - 1, j);
      LandedCovered(row.path, moves[j]);
      BroughtElsewhere(tree, moves, n - 1, j, landed);
    }
  }

  /**
   After a batch is done, every file and folder that was at or below one of its sources is at the corresponding place,
   with its content; its identity names that place; and the path it had leads there, unless another identity has had it.
   */
  lemma MovedPathIsFound(w: Files, o: nat, list: Listing, j: nat, p: Path) returns (k: nat)
    requires Done(w, o, list) && j < |w.store.operations[o].moves|
    requires p in w.trees[w.store.operations[o].workspaceId] && Covers(w.store.operations[o].moves[j].source, p)
    ensures var (op, n) := (w.store.operations[o], Execute(w, o, list));
            var q := Relocated(p, op.moves[j].source, op.moves[j].destination);
            op.workspaceId in n.trees && q in n.trees[op.workspaceId] &&
            n.trees[op.workspaceId][q] == w.trees[op.workspaceId][p] &&
            k < |n.store.files| && LiveAt(n.store.files[k], op.workspaceId, q) && p in n.store.files[k].aliases &&
            Reference(n.store, op.workspaceId, p, Some(n.store.files[k].id)) == Ok(q) &&
            Reference(n.store, op.workspaceId, p, None) ==
              if OnlyAlias(n.store.files, op.workspaceId, p, k) then Ok(q) else Err(AmbiguousReference)
    ensures k < |w.store.files| ==> LiveAt(w.store.files[k], w.store.operations[o].workspaceId, p)
  {
    hide Good, Lists, Ready, Execute, Planned, Closed, Reference;
    var op, n := w.store.operations[o], Execute(w, o, list);
    KnownBefore(w, o, list, j, p);
    var ready := Ready(w, o, list);
    k :| 0 <= k < |ready.store.files| && LiveAt(ready.store.files[k], op.workspaceId, p);
    RowEnds(w, o, list, k);
    DoneFacts(w, o, list);
    hide MovedBy;
    PathLands(w, o, list, j, p);
    RowRemembers(w.trees[op.workspaceId], ready.store.files[k], op.workspaceId, op.moves, |op.moves|, j);
    IdsKept(n);
    IdLookup(n.store, k, p);
    AliasLookup(n.store, op.workspaceId, p, k);
  }

  lemma IdsKept(w: Files)
    requires Good(w)
    ensures IdsOk(w.store)
  {
  }

  lemma RowEnds(w: Files, o: nat, list: Listing, k: nat)
    requires Done(w, o, list) && k < |Ready(w, o, list).store.files|
    ensures var op := w.store.operations[o];
            k < |Execute(w, o, list).store.files| &&
            Execute(w, o, list).store.files[k] == RowAfter(Ready(w, o, list).store.files[k], op.workspaceId, op.moves, |op.moves|)
    ensures k < |w.store.files| ==> Ready(w, o, list).store.files[k] == w.store.files[k]
    ensures Closed(w.trees[w.store.operations[o].workspaceId]) && Planned(w.trees[w.store.operations[o].workspaceId], w.store.operations[o].moves)
  {
    hide Good, Lists, Planned, Closed, MovedBy, Ready, Execute;
    DoneFacts(w, o, list);
    ReadyFacts(w, o, list);
    assert k < |w.store.files| ==> Ready(w, o, list).store.files[..|w.store.files|][k] == w.store.files[k];
  }

  lemma PathLands(w: Files, o: nat, list: Listing, j: nat, p: Path)
    requires Done(w, o, list) && j < |w.store.operations[o].moves|
    requires p in w.trees[w.store.operations[o].workspaceId] && Covers(w.store.operations[o].moves[j].source, p)
    ensures var (op, n) := (w.store.operations[o], Execute(w, o, list));
            var q := Relocated(p, op.moves[j].source, op.moves[j].destination);
            op.workspaceId in n.trees && q in n.trees[op.workspaceId] &&
            n.trees[op.workspaceId][q] == w.trees[op.workspaceId][p]
  {
    hide Good, Lists, Planned, Closed, Ready, Execute;
    DoneFacts(w, o, list);
    ReadyFacts(w, o, list);
  }

  /** The artifacts of a moved file follow it, and others stay. */
  lemma ArtifactsFollow(w: Files, o: nat, list: Listing, a: AssetId)
    requires Done(w, o, list) && a in w.assets
    ensures var (op, n) := (w.store.operations[o], Execute(w, o, list));
            a in n.assets && n.assets[a].workspaceId == w.assets[a].workspaceId &&
            (forall j :: 0 <= j < |op.moves| && w.assets[a].workspaceId == op.workspaceId &&
                         Covers(op.moves[j].source, w.assets[a].path) ==>
               n.assets[a].path == Relocated(w.assets[a].path, op.moves[j].source, op.moves[j].destination)) &&
            ((forall j :: 0 <= j < |op.moves| ==>
                w.assets[a].workspaceId != op.workspaceId || !Covers(op.moves[j].source, w.assets[a].path)) ==>
               n.assets[a] == w.assets[a])
  {
    hide Good, Lists, Planned, Closed, MovedBy, Ready, Execute;
    var op, n := w.store.operations[o], Execute(w, o, list);
    DoneFacts(w, o, list);
    ReadyFacts(w, o, list);
    forall j | 0 <= j < |op.moves| && w.assets[a].workspaceId == op.workspaceId && Covers(op.moves[j].source, w.assets[a].path)
      ensures n.assets[a] == Asset(op.workspaceId, Relocated(w.assets[a].path, op.moves[j].source, op.moves[j].destination))
    {
      AssetMoves(w.trees[op.workspaceId], w.assets[a], op.workspaceId, op.moves, |op.moves|, j);
    }
    if forall j :: 0 <= j < |op.moves| ==> w.assets[a].workspaceId != op.workspaceId || !Covers(op.moves[j].source, w.assets[a].path) {
      AssetStays(w.assets[a], op.workspaceId, op.moves, |op.moves|);
    }
  }

  // ---------------------------------------------------------------- over any use

  /** An identity stays itself, keeps its aliases, and a path it has left is one of them. */
  ghost predicate RowKept(a: Row, b: Row) {
    b.id == a.id && b.workspaceId == a.workspaceId && (a.deleted ==> b.deleted) &&
    (forall p :: p in a.aliases ==> p in b.aliases) && (b.path != a.path ==> a.path in b.aliases)
  }

  ghost predicate Remembers(s: Store, t: Store) {
    |s.files| <= |t.files| && forall i :: 0 <= i < |s.files| ==> RowKept(s.files[i], t.files[i])
  }

  lemma RemembersTrans(a: Store, b: Store, c: Store)
    requires Remembers(a, b) && Remembers(b, c)
    ensures Remembers(a, c)
  {
    forall i | 0 <= i < |a.files| ensures RowKept(a.files[i], c.files[i]) {
      assert RowKept(a.files[i], b.files[i]) && RowKept(b.files[i], c.files[i]);
    }
  }

  lemma SameFilesRemember(s: Store, t: Store)
    requires t.files == s.files
    ensures Remembers(s, t)
  {
  }

  lemma IdentifyRemembers(s: Store, ws: WorkspaceId, path: Path)
    ensures Remembers(s, Identify(s, ws, path).0)
  {
  }

  lemma {:induction false} IdentifyAllRemembers(s: Store, ws: WorkspaceId, paths: seq<Path>)
    ensures Remembers(s, IdentifyAll(s, ws, paths))
    decreases |paths|
  {
    hide Remembers, Identify;
    SameFilesRemember(s, s);
    if paths != [] {
      var next := Identify(s, ws, paths[0]).0;
      IdentifyRemembers(s, ws, paths[0]);
      IdentifyAllRemembers(next, ws, paths[1..]);
      RemembersTrans(s, next, IdentifyAll(next, ws, paths[1..]));
    }
  }

  lemma {:induction false} TrackRemembers(s: Store, ws: WorkspaceId, listed: seq<Path>, moves: seq<Move>)
    ensures Remembers(s, Track(s, ws, listed, moves))
    decreases |moves|
  {
    hide Remembers, IdentifyAll;
    SameFilesRemember(s, s);
    if moves != [] {
      var next := IdentifyAll(s, ws, Under(listed, moves[0].source));
      IdentifyAllRemembers(s, ws, Under(listed, moves[0].source));
      TrackRemembers(next, ws, listed, moves[1..]);
      RemembersTrans(s, next, Track(next, ws, listed, moves[1..]));
    }
  }

  lemma RecordRemembers(s: Store, o: nat)
    requires o < |s.operations| && s.operations[o].applied < |s.operations[o].moves|
    ensures Remembers(s, Record(s, o))
  {
  }

  lemma {:induction false} MoveRestRemembers(w: Files, o: nat)
    requires o < |w.store.operations|
    ensures Remembers(w.store, MoveRest(w, o).store)
    decreases |w.store.operations[o].moves| - w.store.operations[o].applied
  {
    hide Remembers, MoveTree, Remap, Relink;
    var op := w.store.operations[o];
    if op.applied < |op.moves| && op.workspaceId in w.trees && MoveTree(w.trees[op.workspaceId], op.moves[op.applied]).1.None? {
      var m := op.moves[op.applied];
      var next := Files(Record(w.store, o), w.trees[op.workspaceId := MoveTree(w.trees[op.workspaceId], m).0],
                        Remap(w.assets, op.workspaceId, m));
      RecordRemembers(w.store, o);
      MoveRestRemembers(next, o);
      RemembersTrans(w.store, next.store, MoveRest(next, o).store);
    } else {
      SameFilesRemember(w.store, MoveRest(w, o).store);
    }
  }

  lemma ExecuteRemembers(w: Files, o: nat, list: Listing)
    requires o < |w.store.operations|
    ensures Remembers(w.store, Execute(w, o, list).store)
  {
    hide Remembers, Check, MoveRest, Track, IdentifyAll, Legals, AllLegal;
    var op := w.store.operations[o];
    SameFilesRemember(w.store, w.store);
    if Check(w, op, 0).Err? {
      SameFilesRemember(w.store, Execute(w, o, list).store);
    } else if op.workspaceId in w.trees {
      var listed := list(w.trees[op.workspaceId]);
      var paths := Tracked(listed, op.moves);
      if !AllLegal(paths) {
        var some := IdentifyAll(w.store, op.workspaceId, paths[..Legals(paths)]);
        IdentifyAllRemembers(w.store, op.workspaceId, paths[..Legals(paths)]);
        SameFilesRemember(some, Execute(w, o, list).store);
        RemembersTrans(w.store, some, Execute(w, o, list).store);
      } else {
        var tracked := Track(w.store, op.workspaceId, listed, op.moves);
        var ready := w.(store := SetOperation(tracked, o, op.(state := Moving)));
        TrackRemembers(w.store, op.workspaceId, listed, op.moves);
        SameFilesRemember(tracked, ready.store);
        MoveRestRemembers(ready, o);
        RemembersTrans(w.store, tracked, ready.store);
        RemembersTrans(w.store, ready.store, MoveRest(ready, o).store);
      }
    }
  }

  lemma {:induction false} DrainRemembers(w: Files, ws: WorkspaceId, o: nat, now: int, list: Listing)
    ensures Remembers(w.store, Drain(w, ws, o, now, list).store)
    decreases |w.store.operations| - o
  {
    hide Remembers, Execute, Leased;
    SameFilesRemember(w.store, w.store);
    if o < |w.store.operations| {
      var op := w.store.operations[o];
      if op.workspaceId != ws || op.state != Queued {
        DrainRemembers(w, ws, o + 1, now, list);
      } else if !Leased(w.store, op, now) {
        var next := Execute(w, o, list);
        ExecuteRemembers(w, o, list);
        ExecuteLength(w, o, list);
        DrainRemembers(next, ws, o + 1, now, list);
        RemembersTrans(w.store, next.store, Drain(next, ws, o + 1, now, list).store);
      }
    }
  }

  lemma ExecuteLength(w: Files, o: nat, list: Listing)
    requires o < |w.store.operations|
    ensures |Execute(w, o, list).store.operations| == |w.store.operations|
  {
  }

  lemma {:induction false} PlanRemembers(w: Files, ws: WorkspaceId, wishes: seq<Wish>, i: nat, keepBoth: bool, moves: seq<Move>)
    requires i <= |wishes|
    ensures Remembers(w.store, Plan(w, ws, wishes, i, keepBoth, moves).0)
    decreases |wishes| - i
  {
    hide Remembers, PlanOne, Identify;
    SameFilesRemember(w.store, w.store);
    if i < |wishes| {
      var planned := PlanOne(w, ws, wishes, i, keepBoth, set m | m in moves :: m.destination);
      if planned.Ok? {
        var (s, id) := Identify(w.store, ws, wishes[i].source);
        var more := moves + [Move(wishes[i].source, planned.value, id)];
        IdentifyRemembers(w.store, ws, wishes[i].source);
        PlanRemembers(w.(store := s), ws, wishes, i + 1, keepBoth, more);
        RemembersTrans(w.store, s, Plan(w.(store := s), ws, wishes, i + 1, keepBoth, more).0);
      }
    }
  }

  lemma EnqueueRemembers(w: Files, ws: WorkspaceId, wishes: seq<Wish>, keepBoth: bool)
    ensures Remembers(w.store, Enqueue(w, ws, wishes, keepBoth).0.store)
  {
    hide Remembers, Plan;
    SameFilesRemember(w.store, w.store);
    if wishes != [] && |wishes| <= MAX_MOVES {
      PlanRemembers(w, ws, wishes, 0, keepBoth, []);
      var s := Plan(w, ws, wishes, 0, keepBoth, []).0;
      SameFilesRemember(s, Enqueue(w, ws, wishes, keepBoth).0.store);
      RemembersTrans(w.store, s, Enqueue(w, ws, wishes, keepBoth).0.store);
    }
  }

  lemma RequestRemembers(w: Files, ws: WorkspaceId, wishes: seq<Wish>, keepBoth: bool, busy: bool, now: int, list: Listing)
    ensures Remembers(w.store, Request(w, ws, wishes, keepBoth, busy, now, list).0.store)
  {
    hide Remembers, Enqueue, Drain;
    EnqueueRemembers(w, ws, wishes, keepBoth);
    var queued := Enqueue(w, ws, wishes, keepBoth).0;
    DrainRemembers(queued, ws, 0, now, list);
    RemembersTrans(w.store, queued.store, Drain(queued, ws, 0, now, list).store);
  }

  lemma {:induction false} LeftByPlanRemembers(w: Files, ws: WorkspaceId, wishes: seq<Wish>, i: nat, keepBoth: bool, moves: seq<Move>,
                                               saved: nat)
    requires i <= |wishes|
    ensures Remembers(w.store, LeftByPlan(w, ws, wishes, i, keepBoth, moves, saved))
    decreases |wishes| - i
  {
    hide Remembers, PlanOne, Identify;
    SameFilesRemember(w.store, w.store);
    if i < |wishes| && saved > 0 {
      var planned := PlanOne(w, ws, wishes, i, keepBoth, set m | m in moves :: m.destination);
      if planned.Ok? {
        var (s, id) := Identify(w.store, ws, wishes[i].source);
        var more := moves + [Move(wishes[i].source, planned.value, id)];
        IdentifyRemembers(w.store, ws, wishes[i].source);
        LeftByPlanRemembers(w.(store := s), ws, wishes, i + 1, keepBoth, more, saved - 1);
        RemembersTrans(w.store, s, LeftByPlan(w.(store := s), ws, wishes, i + 1, keepBoth, more, saved - 1));
      }
    }
  }

  /** A batch stopped at any point, and what the next start makes of it. */
  lemma StoppedRemembers(w: Files, o: nat, list: Listing, point: Point)
    requires Good(w) && Lists(list) && o < |w.store.operations| && w.store.operations[o].state == Queued
    ensures Remembers(w.store, Recover(LeftByExecute(w, o, list, point), 0).store)
  {
    hide Good, Lists, Remembers, Check, Recover, Execute, IdentifyAll, Play, AllLegal;
    var op := w.store.operations[o];
    NothingToRecover(w, 0);
    SameFilesRemember(w.store, w.store);
    if Check(w, op, 0).Ok? && op.workspaceId in w.trees {
      if point.Moves? {
        if AllLegal(Tracked(list(w.trees[op.workspaceId]), op.moves)) {
          StoppedBatch(w, o, list, point);
          ExecuteRemembers(w, o, list);
        }
      } else {
        var paths := Tracked(list(w.trees[op.workspaceId]), op.moves);
        var some := paths[..if point.saved <= Legals(paths) then point.saved else Legals(paths)];
        IdentifyAllRemembers(w.store, op.workspaceId, some);
        StoppedTracking(w, o, list, point.saved);
        TrackingLeft(w, o, list, point.saved);
      }
    }
  }

  /** Nothing is left to recover of a batch stopped while it was tracked. */
  lemma TrackingLeft(w: Files, o: nat, list: Listing, saved: nat)
    requires Good(w) && Lists(list) && o < |w.store.operations|
    ensures Recover(LeftByExecute(w, o, list, Tracking(saved)), 0) == LeftByExecute(w, o, list, Tracking(saved))
  {
    hide Good, Check, Recover, IdentifyAll;
    var op := w.store.operations[o];
    NothingToRecover(w, 0);
    if Check(w, op, 0).Ok? && op.workspaceId in w.trees {
      var listed := list(w.trees[op.workspaceId]);
      var paths := Tracked(listed, op.moves);
      TrackedListed(listed, op.moves);
      var some := paths[..if saved <= Legals(paths) then saved else Legals(paths)];
      assert forall p :: p in some ==> p in paths;
      assert forall p :: p in listed ==> p in w.trees[op.workspaceId];
      hide Lists;
      IdentifyAllGood(w, op.workspaceId, some);
      NothingToRecover(w.(store := IdentifyAll(w.store, op.workspaceId, some)), 0);
    }
  }

  lemma {:induction false} StoppedDrainRemembers(w: Files, ws: WorkspaceId, o: nat, now: int, list: Listing, batches: nat, point: Point)
    requires Good(w) && Lists(list)
    ensures Remembers(w.store, Recover(LeftByDrain(w, ws, o, now, list, batches, point), 0).store)
    decreases |w.store.operations| - o
  {
    hide Good, Lists, Remembers, Execute, Leased, LeftByExecute, Recover;
    SameFilesRemember(w.store, w.store);
    NothingToRecover(w, 0);
    if o < |w.store.operations| {
      var op := w.store.operations[o];
      if op.workspaceId != ws || op.state != Queued {
        StoppedDrainRemembers(w, ws, o + 1, now, list, batches, point);
      } else if !Leased(w.store, op, now) {
        if batches > 0 {
          var next := Execute(w, o, list);
          ExecuteGood(w, o, list);
          ExecuteRemembers(w, o, list);
          ExecuteLength(w, o, list);
          StoppedDrainRemembers(next, ws, o + 1, now, list, batches - 1, point);
          RemembersTrans(w.store, next.store, Recover(LeftByDrain(next, ws, o + 1, now, list, batches - 1, point), 0).store);
        } else {
          StoppedRemembers(w, o, list, point);
        }
      }
    }
  }

  lemma StoppedRequestRemembers(w: Files, ws: WorkspaceId, wishes: seq<Wish>, keepBoth: bool, busy: bool, now: int, list: Listing,
                                halt: Halt)
    requires Good(w) && Lists(list)
    ensures Remembers(w.store, Recover(LeftByRequest(w, ws, wishes, keepBoth, busy, now, list, halt), 0).store)
  {
    hide Good, Lists, LeftByDrain, LeftByPlan, Recover, Remembers, Enqueue;
    SameFilesRemember(w.store, w.store);
    NothingToRecover(w, 0);
    match halt {
      case Planning(saved) =>
        StoppedPlan(w, ws, wishes, 0, keepBoth, [], saved);
        LeftByPlanRemembers(w, ws, wishes, 0, keepBoth, [], saved);
        NothingToRecover(w.(store := LeftByPlan(w, ws, wishes, 0, keepBoth, [], saved)), 0);
      case InBatch(batches, point) =>
        var queued := Enqueue(w, ws, wishes, keepBoth).0;
        EnqueueGood(w, ws, wishes, keepBoth);
        EnqueueRemembers(w, ws, wishes, keepBoth);
        NothingToRecover(queued, 0);
        StoppedDrainRemembers(queued, ws, 0, now, list, batches, point);
        RemembersTrans(w.store, queued.store, Recover(LeftByDrain(queued, ws, 0, now, list, batches, point), 0).store);
    }
  }

  lemma DieRemembers(w: Files, c: Command, halt: Halt, list: Listing)
    requires Good(w) && Lists(list)
    ensures Remembers(w.store, Recover(LeftBy(w, c, halt, list), 0).store)
  {
    hide Good, Lists, LeftByRequest, LeftByDrain, Recover, FindOperation, Reversed, Remembers;
    SameFilesRemember(w.store, w.store);
    NothingToRecover(w, 0);
    match c
    case Ask(ws, wishes, keepBoth, busy, now) => StoppedRequestRemembers(w, ws, wishes, keepBoth, busy, now, list, halt);
    case TakeBack(ws, id, busy, now) =>
      var found := FindOperation(w.store.operations, ws, id, 0);
      if found.Some? && found.value < |w.store.operations| {
        StoppedRequestRemembers(w, ws, Reversed(w.store.operations[found.value].moves), false, busy, now, list, halt);
      }
    case Attend(ws, now) =>
      if halt.InBatch? {
        StoppedDrainRemembers(w, ws, 0, now, list, halt.batches, halt.point);
      }
    case _ =>
  }

  lemma MarkedRemembers(s: Store, t: Store, ws: WorkspaceId, path: Path)
    requires t.files == Marked(s.files, ws, path)
    ensures Remembers(s, t)
  {
  }

  lemma StepRemembers(w: Files, c: Command, list: Listing)
    requires Good(w) && Lists(list)
    ensures Remembers(w.store, Apply(w, c, list).store)
  {
    hide Good, Lists, Request, Drain, Recover, Marked, Remembers, Identify, LeftBy, FindOperation;
    SameFilesRemember(w.store, w.store);
    match c
    case Ask(ws, wishes, keepBoth, busy, now) => RequestRemembers(w, ws, wishes, keepBoth, busy, now, list);
    case TakeBack(ws, id, busy, now) =>
      var found := FindOperation(w.store.operations, ws, id, 0);
      if found.Some? && found.value < |w.store.operations| {
        RequestRemembers(w, ws, Reversed(w.store.operations[found.value].moves), false, busy, now, list);
      }
    case Withdraw(ws, id) => SameFilesRemember(w.store, Apply(w, c, list).store);
    case Attend(ws, now) => DrainRemembers(w, ws, 0, now, list);
    case Know(ws, path) => IdentifyRemembers(w.store, ws, path);
    case Erase(ws, path) => MarkedRemembers(w.store, Delete(w.store, ws, path), ws, path);
    case Forget(ws) => MarkedRemembers(w.store, RemoveWorkspace(w.store, ws), ws, []);
    case Reopen => NothingToRecover(w, 0);
    case Die(call, halt) => DieRemembers(w, call, halt, list);
  }

  lemma {:induction false} AlwaysRemembers(w: Files, commands: seq<Command>, list: Listing)
    requires Good(w) && Lists(list)
    ensures Remembers(w.store, ApplyAll(w, commands, list).store)
    decreases |commands|
  {
    hide Good, Lists, Apply, Remembers;
    SameFilesRemember(w.store, w.store);
    if commands != [] {
      var next := Apply(w, commands[0], list);
      StepGood(w, commands[0], list);
      StepRemembers(w, commands[0], list);
      AlwaysRemembers(next, commands[1..], list);
      RemembersTrans(w.store, next.store, ApplyAll(next, commands[1..], list).store);
    }
  }

  /**
   However the store is used from any moment on, with processes dying in calls: an identity leads to where its file is
   now; a path it had at that moment and has left, or had left before, leads there too, unless another identity has had it,
   and to the error for missing files once the file is deleted.
   */
  lemma OldPathsLead(w: Files, commands: seq<Command>, list: Listing, k: nat, p: Path)
    requires Good(w) && Lists(list) && k < |w.store.files|
    ensures var row, s := w.store.files[k], ApplyAll(w, commands, list).store;
            k < |s.files| && s.files[k].id == row.id && s.files[k].workspaceId == row.workspaceId &&
            var now := if s.files[k].deleted then Err(FileNotFound) else Ok(s.files[k].path);
            Reference(s, row.workspaceId, p, Some(row.id)) == now &&
            (p in row.aliases || (p == row.path && s.files[k].path != p) ==>
               Reference(s, row.workspaceId, p, None) ==
                 if OnlyAlias(s.files, row.workspaceId, p, k) then now else Err(AmbiguousReference))
  {
    hide Good, Lists, Apply, ApplyAll, Reference;
    AlwaysGood(w, commands, list);
    AlwaysRemembers(w, commands, list);
    var n := ApplyAll(w, commands, list);
    var row := w.store.files[k];
    assert RowKept(row, n.store.files[k]);
    IdsKept(n);
    IdLookup(n.store, k, p);
    if p in n.store.files[k].aliases {
      AliasLookup(n.store, row.workspaceId, p, k);
    }
  }
}
