/** A process that dies inside a call: the disks it can leave, and what the next process makes of them. */
module FileMoveStops {
  import opened Common
  import opened FileMoveModel
  import opened FileMoveCrash
  import opened FileMoveTrees
  import opened FileMoveRows
  import opened FileMoveInvariant
  import opened FileMoveRoundTrip

  /** Inside one batch: after some identities were saved, or after some small steps of the moves. */
  datatype Point = Tracking(saved: nat) | Moves(steps: seq<bool>)

  /** Inside a call: after some identities of the plan were saved, or in a batch after some others were executed. */
  datatype Halt = Planning(saved: nat) | InBatch(batches: nat, point: Point)

  function LeftByExecute(w: Files, o: nat, list: Listing, point: Point): (r: Files)
    requires o < |w.store.operations|
  {
    var op := w.store.operations[o];
    if Check(w, op, 0).Err? || op.workspaceId !in w.trees then w
    else
      match point
      case Tracking(saved) =>
        var paths := Tracked(list(w.trees[op.workspaceId]), op.moves);
        var legal := Legals(paths);
        w.(store := IdentifyAll(w.store, op.workspaceId, paths[..if saved <= legal then saved else legal]))
      case Moves(steps) =>
        if !AllLegal(Tracked(list(w.trees[op.workspaceId]), op.moves)) then w
        else Play(Started(Ready(w, o, list), o), steps).disk
  }

  function LeftByDrain(w: Files, ws: WorkspaceId, o: nat, now: int, list: Listing, batches: nat, point: Point): Files
    decreases |w.store.operations| - o
  {
    if o >= |w.store.operations| then w
    else
      var op := w.store.operations[o];
      if op.workspaceId != ws || op.state != Queued then LeftByDrain(w, ws, o + 1, now, list, batches, point)
      else if Leased(w.store, op, now) then w
      else if batches > 0 then LeftByDrain(Execute(w, o, list), ws, o + 1, now, list, batches - 1, point)
      else LeftByExecute(w, o, list, point)
  }

  function LeftByPlan(w: Files, ws: WorkspaceId, wishes: seq<Wish>, i: nat, keepBoth: bool, moves: seq<Move>, saved: nat): Store
    requires i <= |wishes|
    decreases |wishes| - i
  {
    if i == |wishes| || saved == 0 then w.store
    else
      match PlanOne(w, ws, wishes, i, keepBoth, set m | m in moves :: m.destination)
      case Err(_) => w.store
      case Ok(destination) =>
        var (s, id) := Identify(w.store, ws, wishes[i].source);
        LeftByPlan(w.(store := s), ws, wishes, i + 1, keepBoth, moves + [Move(wishes[i].source, destination, id)], saved - 1)
  }

  function LeftByRequest(w: Files, ws: WorkspaceId, wishes: seq<Wish>, keepBoth: bool, busy: bool, now: int, list: Listing,
                         halt: Halt): Files
  {
    match halt
    case Planning(saved) =>
      if wishes == [] || |wishes| > MAX_MOVES then w
      else w.(store := LeftByPlan(w, ws, wishes, 0, keepBoth, [], saved))
    case InBatch(batches, point) =>
      var (queued, reply) := Enqueue(w, ws, wishes, keepBoth);
      if reply.Err? || busy then queued else LeftByDrain(queued, ws, 0, now, list, batches, point)
  }

  // ---------------------------------------------------------------- what the next process finds

  lemma {:induction false} NothingToRecover(w: Files, o: nat)
    requires Good(w)
    ensures Recover(w, o) == w
    decreases |w.store.operations| - o
  {
    if o < |w.store.operations| {
      assert OperationOk(w.store.operations[o]);
      NothingToRecover(w, o + 1);
    }
  }

  /** A batch stopped while tracking waits on, with more identities; one stopped while moving is finished. */
  lemma StoppedBatch(w: Files, o: nat, list: Listing, point: Point)
    requires Good(w) && Lists(list) && o < |w.store.operations| && w.store.operations[o].state == Queued
    ensures var n := Recover(LeftByExecute(w, o, list, point), 0);
            Good(n) && (n == Execute(w, o, list) || (n == w.(store := n.store) && MoreIdentities(w.store, n.store)))
    ensures point.Moves? && Check(w, w.store.operations[o], 0).Ok? && w.store.operations[o].workspaceId in w.trees &&
            Trackable(w, o, list) ==>
              Recover(LeftByExecute(w, o, list, point), 0) == Execute(w, o, list)
  {
    hide Good, Check, Recover, Execute, IdentifyAll, Play, Lists;
    var op := w.store.operations[o];
    ExecuteGood(w, o, list);
    if Check(w, op, 0).Err? || op.workspaceId !in w.trees {
      NothingToRecover(w, 0);
    } else {
      match point {
        case Tracking(saved) => StoppedTracking(w, o, list, saved);
        case Moves(steps) =>
          OnlyTrue(w, op, 0);
          NothingToRecover(w, 0);
          if Trackable(w, o, list) {
            ExecuteSurvivesCrashes(w, o, list, steps);
            var p := Play(Started(Ready(w, o, list), o), steps);
            if p.stage.Finished? {
              NothingToRecover(p.disk, 0);
            }
          }
      }
    }
  }

  lemma StoppedTracking(w: Files, o: nat, list: Listing, saved: nat)
    requires Good(w) && Lists(list) && o < |w.store.operations|
    ensures var n := Recover(LeftByExecute(w, o, list, Tracking(saved)), 0);
            Good(n) && n == w.(store := n.store) && MoreIdentities(w.store, n.store)
  {
    hide Good, Check, Recover, IdentifyAll;
    var op := w.store.operations[o];
    NothingToRecover(w, 0);
    if Check(w, op, 0).Ok? && op.workspaceId in w.trees {
      var listed := list(w.trees[op.workspaceId]);
      var paths := Tracked(listed, op.moves);
      TrackedListed(listed, op.moves);
      var some := paths[..if saved <= Legals(paths) then saved else Legals(paths)];
      assert forall p :: p in some ==> p in paths;
      assert forall p :: p in listed ==> p in w.trees[op.workspaceId];
      hide Lists;
      IdentifyAllGood(w, op.workspaceId, some);
      NothingToRecover(w.(store := IdentifyAll(w.store, op.workspaceId, some)), 0);
    }
  }

  lemma {:induction false} StoppedPlan(w: Files, ws: WorkspaceId, wishes: seq<Wish>, i: nat, keepBoth: bool, moves: seq<Move>, saved: nat)
    requires Good(w) && i <= |wishes|
    ensures var n := LeftByPlan(w, ws, wishes, i, keepBoth, moves, saved);
            Good(w.(store := n)) && MoreIdentities(w.store, n)
    decreases |wishes| - i
  {
    hide PlanOne, Good;
    if i < |wishes| && saved > 0 {
      var taken := set m | m in moves :: m.destination;
      var planned := PlanOne(w, ws, wishes, i, keepBoth, taken);
      if planned.Ok? {
        PlanOneFacts(w, ws, wishes, i, keepBoth, taken);
        IdentifyGood(w, ws, wishes[i].source);
        var (s, id) := Identify(w.store, ws, wishes[i].source);
        StoppedPlan(w.(store := s), ws, wishes, i + 1, keepBoth, moves + [Move(wishes[i].source, planned.value, id)], saved - 1);
      }
    }
  }

  lemma {:induction false} StoppedDrainGood(w: Files, ws: WorkspaceId, o: nat, now: int, list: Listing, batches: nat, point: Point)
    requires Good(w) && Lists(list)
    ensures Good(Recover(LeftByDrain(w, ws, o, now, list, batches, point), 0))
    decreases |w.store.operations| - o
  {
    hide Good, Execute, Leased, Lists, LeftByExecute, Recover;
    NothingToRecover(w, 0);
    if o < |w.store.operations| {
      var op := w.store.operations[o];
      if op.workspaceId != ws || op.state != Queued {
        StoppedDrainGood(w, ws, o + 1, now, list, batches, point);
      } else if !Leased(w.store, op, now) {
        if batches > 0 {
          ExecuteGood(w, o, list);
          StoppedDrainGood(Execute(w, o, list), ws, o + 1, now, list, batches - 1, point);
        } else {
          StoppedBatch(w, o, list, point);
        }
      }
    }
  }

  lemma StoppedRequestGood(w: Files, ws: WorkspaceId, wishes: seq<Wish>, keepBoth: bool, busy: bool, now: int, list: Listing,
                           halt: Halt)
    requires Good(w) && Lists(list)
    ensures Good(Recover(LeftByRequest(w, ws, wishes, keepBoth, busy, now, list, halt), 0))
  {
    hide Good, Enqueue, LeftByDrain, LeftByPlan, Lists, Recover;
    match halt {
      case Planning(saved) =>
        NothingToRecover(w, 0);
        StoppedPlan(w, ws, wishes, 0, keepBoth, [], saved);
        NothingToRecover(w.(store := LeftByPlan(w, ws, wishes, 0, keepBoth, [], saved)), 0);
      case InBatch(batches, point) =>
        EnqueueGood(w, ws, wishes, keepBoth);
        var queued := Enqueue(w, ws, wishes, keepBoth).0;
        NothingToRecover(queued, 0);
        StoppedDrainGood(queued, ws, 0, now, list, batches, point);
    }
  }

  // ---------------------------------------------------------------- the one stop that does harm

  function Without(tree: Tree, path: Path): Tree {
    map p | p in tree && !Covers(path, p) :: tree[p]
  }

  /** A live identity at the path or below it. */
  ghost predicate KnownBelow(files: seq<Row>, ws: WorkspaceId, path: Path) {
    exists i :: 0 <= i < |files| && files[i].workspaceId == ws && !files[i].deleted && Covers(path, files[i].path)
  }

  /**
   Files are removed first, and the store is told next. A stop between the two leaves live identities of files that
   are gone, for ever, exactly if something removed had an identity.
   */
  lemma EraseUntoldIff(w: Files, ws: WorkspaceId, path: Path)
    requires Good(w) && ws in w.trees
    ensures var n := w.(trees := w.trees[ws := Without(w.trees[ws], path)]);
            Recover(n, 0) == n && (Good(n) <==> !KnownBelow(w.store.files, ws, path))
  {
    var tree := Without(w.trees[ws], path);
    var n := w.(trees := w.trees[ws := tree]);
    SameOperations(w, n, 0);
    if i :| 0 <= i < |w.store.files| && w.store.files[i].workspaceId == ws && !w.store.files[i].deleted &&
            Covers(path, w.store.files[i].path) {
      assert n.store.files[i].path !in tree;
      assert !Rooted(n.store.files, ws, tree);
    } else {
      assert Rooted(w.store.files, ws, w.trees[ws]) && Closed(w.trees[ws]);
      forall v | v in n.trees ensures Rooted(n.store.files, v, n.trees[v]) && Closed(n.trees[v]) {
        assert v != ws ==> Rooted(w.store.files, v, w.trees[v]) && Closed(w.trees[v]);
      }
    }
  }

  lemma {:induction false} SameOperations(w: Files, n: Files, o: nat)
    requires Good(w) && n.store == w.store
    ensures Recover(n, o) == n
    decreases |n.store.operations| - o
  {
    if o < |n.store.operations| {
      assert OperationOk(w.store.operations[o]);
      SameOperations(w, n, o + 1);
    }
  }
}
