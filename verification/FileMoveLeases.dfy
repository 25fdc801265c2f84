/** What an editor's lease holds up: a queued batch that touches it, and every batch queued after it. */
module FileMoveLeases {
  import opened Common
  import opened FileMoveModel

  /** A lease that has not run out on a path at or under a place that the batch moves from or to. */
  ghost predicate HeldBy(s: Store, op: Operation, owner: string, now: int) {
    owner in s.leases && s.leases[owner].workspaceId == op.workspaceId && now < s.leases[owner].until &&
    exists i :: 0 <= i < |op.moves| && (op.moves[i].source <= s.leases[owner].path || op.moves[i].destination <= s.leases[owner].path)
  }

  ghost predicate HeldUp(s: Store, op: Operation, now: int) {
    exists owner :: HeldBy(s, op, owner, now)
  }

  predicate Waits(op: Operation, ws: WorkspaceId) {
    op.workspaceId == ws && op.state == Queued
  }

  lemma LeasedIff(s: Store, op: Operation, now: int)
    ensures Leased(s, op, now) <==> HeldUp(s, op, now)
  {
    if HeldUp(s, op, now) {
      var owner :| HeldBy(s, op, owner, now);
      assert owner in s.leases;
    }
    if Leased(s, op, now) {
      var owner :| owner in s.leases && s.leases[owner].workspaceId == op.workspaceId && s.leases[owner].until > now &&
        exists i :: 0 <= i < |op.moves| &&
          (Covers(op.moves[i].source, s.leases[owner].path) || Covers(op.moves[i].destination, s.leases[owner].path));
      assert HeldBy(s, op, owner, now);
    }
  }

  /** Executing one batch leaves the leases and the other batches alone, and it waits no longer. */
  ghost predicate Ran(w: Files, n: Files, o: nat) {
    n.store.leases == w.store.leases && |n.store.operations| == |w.store.operations| && o < |w.store.operations| &&
    n.store.operations[o].state != Queued && forall k :: 0 <= k < |w.store.operations| && k != o ==>
      n.store.operations[k] == w.store.operations[k]
  }

  lemma {:induction false} MoveRestRan(w: Files, o: nat)
    requires o < |w.store.operations| && w.store.operations[o].state == Moving
    ensures Ran(w, MoveRest(w, o), o)
    decreases |w.store.operations[o].moves| - w.store.operations[o].applied
  {
    var op := w.store.operations[o];
    if op.applied < |op.moves| && op.workspaceId in w.trees {
      var m := op.moves[op.applied];
      var (tree, error) := MoveTree(w.trees[op.workspaceId], m);
      hide MoveTree, Relink, Remap;
      if error.None? {
        var n := Files(Record(w.store, o), w.trees[op.workspaceId := tree], Remap(w.assets, op.workspaceId, m));
        MoveRestRan(n, o);
      }
    }
  }

  lemma {:induction false} IdentifyAllLeases(s: Store, ws: WorkspaceId, paths: seq<Path>)
    ensures IdentifyAll(s, ws, paths).leases == s.leases
    decreases |paths|
  {
    if paths != [] {
      IdentifyAllLeases(Identify(s, ws, paths[0]).0, ws, paths[1..]);
    }
  }

  lemma {:induction false} TrackLeases(s: Store, ws: WorkspaceId, listed: seq<Path>, moves: seq<Move>)
    ensures Track(s, ws, listed, moves).leases == s.leases
    decreases |moves|
  {
    if moves != [] {
      IdentifyAllLeases(s, ws, Under(listed, moves[0].source));
      TrackLeases(IdentifyAll(s, ws, Under(listed, moves[0].source)), ws, listed, moves[1..]);
    }
  }

  lemma ExecuteRan(w: Files, o: nat, list: Listing)
    requires o < |w.store.operations| && (Check(w, w.store.operations[o], 0).Ok? ==> w.store.operations[o].workspaceId in w.trees)
    ensures Ran(w, Execute(w, o, list), o)
  {
    hide Check, MoveRest, IdentifyAll, Track, Under, Tracked, AllLegal;
    var op := w.store.operations[o];
    if Check(w, op, 0).Ok? {
      var listed := list(w.trees[op.workspaceId]);
      var paths := Tracked(listed, op.moves);
      IdentifyAllLeases(w.store, op.workspaceId, paths[..Legals(paths)]);
      TrackLeases(w.store, op.workspaceId, listed, op.moves);
      if AllLegal(paths) {
        var ready := w.(store := SetOperation(Track(w.store, op.workspaceId, listed, op.moves), o, op.(state := Moving)));
        MoveRestRan(ready, o);
      }
    }
  }

  lemma CheckFindsTree(w: Files, op: Operation)
    requires op.moves != [] && Check(w, op, 0).Ok?
    ensures op.workspaceId in w.trees
  {
  }

  /** From the batch o on, those of the workspace wait only behind one that is held up, or behind an earlier one. */
  ghost predicate StopsAtLease(s: Store, ws: WorkspaceId, o: nat, now: int) {
    forall k :: o <= k < |s.operations| && Waits(s.operations[k], ws) ==>
      exists j :: o <= j <= k && Waits(s.operations[j], ws) && HeldUp(s, s.operations[j], now)
  }

  /**
   After a workspace's queue was worked off, what still waits waits for an editor: the first batch that waits is held up
   by a lease. No batch runs that is held up. (Every batch moves something: a request for nothing is refused.)
   */
  lemma {:induction false} DrainStopsAtLease(w: Files, ws: WorkspaceId, o: nat, now: int, list: Listing)
    requires forall k :: o <= k < |w.store.operations| ==> w.store.operations[k].moves != []
    ensures var n := Drain(w, ws, o, now, list);
            StopsAtLease(n.store, ws, o, now) && n.store.leases == w.store.leases &&
            |n.store.operations| == |w.store.operations| &&
            forall k :: 0 <= k < |w.store.operations| &&
                        (k < o || !Waits(w.store.operations[k], ws) || HeldUp(w.store, w.store.operations[k], now)) ==>
              n.store.operations[k] == w.store.operations[k]
    decreases |w.store.operations| - o
  {
    hide Execute, Leased, HeldUp;
    if o < |w.store.operations| {
      var op := w.store.operations[o];
      LeasedIff(w.store, op, now);
      if !Waits(op, ws) {
        DrainStopsAtLease(w, ws, o + 1, now, list);
      } else if !Leased(w.store, op, now) {
        var n := Execute(w, o, list);
        if Check(w, op, 0).Ok? {
          CheckFindsTree(w, op);
        }
        ExecuteRan(w, o, list);
        forall k | 0 <= k < |w.store.operations| ensures HeldUp(n.store, w.store.operations[k], now) <==> HeldUp(w.store, w.store.operations[k], now) {
          SameLeases(w.store, n.store, w.store.operations[k], now);
        }
        DrainStopsAtLease(n, ws, o + 1, now, list);
      }
    }
  }

  lemma SameLeases(s: Store, t: Store, op: Operation, now: int)
    requires t.leases == s.leases
    ensures HeldUp(t, op, now) <==> HeldUp(s, op, now)
  {
    if HeldUp(s, op, now) {
      var owner :| HeldBy(s, op, owner, now);
      assert HeldBy(t, op, owner, now);
    }
    if HeldUp(t, op, now) {
      var owner :| HeldBy(t, op, owner, now);
      assert HeldBy(s, op, owner, now);
    }
  }
}
