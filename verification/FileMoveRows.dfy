/** Identities: how they are found, made, and carried along by moves. */
module FileMoveRows {
  import opened Common
  import opened FileMoveModel
  import opened FileMoveCrash
  import opened FileMoveTrees

  /** Ids are distinct and old. */
  ghost predicate IdsOk(s: Store) {
    (forall i :: 0 <= i < |s.files| ==> s.files[i].id < s.nextId) &&
    forall i, j :: 0 <= i < j < |s.files| ==> s.files[i].id != s.files[j].id
  }

  /** No two live identities of a workspace are at one path. */
  ghost predicate LiveDistinct(files: seq<Row>) {
    forall i, j, ws, path :: 0 <= i < |files| && 0 <= j < |files| && LiveAt(files[i], ws, path) && LiveAt(files[j], ws, path) ==>
      i == j
  }

  ghost predicate Known(files: seq<Row>, ws: WorkspaceId, path: Path) {
    exists i :: 0 <= i < |files| && LiveAt(files[i], ws, path)
  }

  lemma {:induction false} FindLiveFirst(files: seq<Row>, ws: WorkspaceId, path: Path)
    ensures FindLive(files, ws, path).None? <==> !Known(files, ws, path)
    ensures FindLive(files, ws, path).Some? ==>
              exists i :: 0 <= i < |files| && LiveAt(files[i], ws, path) && files[i].id == FindLive(files, ws, path).value
    decreases |files|
  {
    if files != [] {
      FindLiveFirst(files[1..], ws, path);
      assert forall i :: 0 <= i < |files[1..]| ==> files[1..][i] == files[i + 1];
      if LiveAt(files[0], ws, path) {
        assert Known(files, ws, path);
      } else {
        assert Known(files, ws, path) ==> Known(files[1..], ws, path) by {
          if Known(files, ws, path) {
            var i :| 0 <= i < |files| && LiveAt(files[i], ws, path);
            assert LiveAt(files[1..][i - 1], ws, path);
          }
        }
      }
    }
  }

  lemma FindLiveAt(files: seq<Row>, ws: WorkspaceId, path: Path, i: nat)
    requires LiveDistinct(files) && i < |files| && LiveAt(files[i], ws, path)
    ensures FindLive(files, ws, path) == Some(files[i].id)
  {
    FindLiveFirst(files, ws, path);
  }

  lemma {:induction false} FindIdFirst(files: seq<Row>, ws: WorkspaceId, id: FileId)
    ensures FindId(files, ws, id).Some? ==>
              exists i :: 0 <= i < |files| && files[i].id == id && LiveAt(files[i], ws, FindId(files, ws, id).value)
    ensures FindId(files, ws, id).None? ==>
              forall i :: 0 <= i < |files| ==> !(files[i].id == id && LiveAt(files[i], ws, files[i].path))
    decreases |files|
  {
    if files != [] {
      FindIdFirst(files[1..], ws, id);
      assert forall i :: 0 <= i < |files[1..]| ==> files[1..][i] == files[i + 1];
      assert forall i :: 0 < i < |files| ==> files[i] == files[1..][i - 1];
    }
  }

  lemma FindIdAt(s: Store, ws: WorkspaceId, i: nat)
    requires IdsOk(s) && i < |s.files| && s.files[i].workspaceId == ws && !s.files[i].deleted
    ensures FindId(s.files, ws, s.files[i].id) == Some(s.files[i].path)
  {
    FindIdFirst(s.files, ws, s.files[i].id);
    assert LiveAt(s.files[i], ws, s.files[i].path);
  }

  // ---------------------------------------------------------------- making identities

  /** New live identities of the workspace were added at the end, for paths of a set, and nothing else changed. */
  ghost predicate Grown(s: Store, n: Store, ws: WorkspaceId, paths: set<Path>) {
    n == s.(files := n.files, nextId := n.nextId) && s.nextId <= n.nextId && |s.files| <= |n.files| &&
    n.files[..|s.files|] == s.files &&
    forall i :: |s.files| <= i < |n.files| ==>
      n.files[i].workspaceId == ws && !n.files[i].deleted && n.files[i].path in paths
  }

  lemma IdentifyFacts(s: Store, ws: WorkspaceId, path: Path)
    requires IdsOk(s) && LiveDistinct(s.files)
    ensures var (n, id) := Identify(s, ws, path);
            IdsOk(n) && LiveDistinct(n.files) && Grown(s, n, ws, {path}) && Known(n.files, ws, path) &&
            FindLive(n.files, ws, path) == Some(id) && (Known(s.files, ws, path) ==> n == s)
  {
    var (n, id) := Identify(s, ws, path);
    FindLiveFirst(s.files, ws, path);
    if FindLive(s.files, ws, path).None? {
      var last := |s.files|;
      assert n.files[last] == Row(s.nextId, ws, path, [], false);
      assert LiveAt(n.files[last], ws, path);
      assert forall i :: 0 <= i < last ==> n.files[i] == s.files[i];
      assert forall k :: 0 <= k < last ==> !LiveAt(s.files[k], ws, path);
      assert LiveDistinct(n.files);
      FindLiveAt(n.files, ws, path, last);
    }
  }

  lemma GrownKnown(s: Store, n: Store, ws: WorkspaceId, paths: set<Path>, v: WorkspaceId, path: Path)
    requires Grown(s, n, ws, paths) && Known(s.files, v, path)
    ensures Known(n.files, v, path)
  {
    var i :| 0 <= i < |s.files| && LiveAt(s.files[i], v, path);
    assert n.files[i] == s.files[i];
  }

  lemma GrownTrans(a: Store, b: Store, c: Store, ws: WorkspaceId, p: set<Path>, q: set<Path>)
    requires Grown(a, b, ws, p) && Grown(b, c, ws, q)
    ensures Grown(a, c, ws, p + q)
  {
    assert c.files[..|a.files|] == c.files[..|b.files|][..|a.files|];
    forall i | |a.files| <= i < |c.files|
      ensures c.files[i].workspaceId == ws && !c.files[i].deleted && c.files[i].path in p + q
    {
      if i < |b.files| {
        assert c.files[i] == c.files[..|b.files|][i];
      }
    }
  }

  function SetOf(paths: seq<Path>): set<Path> {
    set i | 0 <= i < |paths| :: paths[i]
  }

  lemma {:induction false} IdentifyAllFacts(s: Store, ws: WorkspaceId, paths: seq<Path>)
    requires IdsOk(s) && LiveDistinct(s.files)
    ensures var n := IdentifyAll(s, ws, paths);
            IdsOk(n) && LiveDistinct(n.files) && Grown(s, n, ws, SetOf(paths)) &&
            (forall p :: p in paths ==> Known(n.files, ws, p)) &&
            ((forall p :: p in paths ==> Known(s.files, ws, p)) ==> n == s)
    decreases |paths|
  {
    if paths != [] {
      IdentifyFacts(s, ws, paths[0]);
      var next := Identify(s, ws, paths[0]).0;
      var n := IdentifyAll(next, ws, paths[1..]);
      IdentifyAllFacts(next, ws, paths[1..]);
      GrownTrans(s, next, n, ws, {paths[0]}, SetOf(paths[1..]));
      assert {paths[0]} + SetOf(paths[1..]) == SetOf(paths);
      assert forall p :: p in paths ==> p == paths[0] || p in paths[1..];
      GrownKnown(next, n, ws, SetOf(paths[1..]), ws, paths[0]);
    }
  }

  lemma {:induction false} UnderFacts(paths: seq<Path>, source: Path)
    ensures forall p :: p in Under(paths, source) <==> p in paths && Covers(source, p)
    decreases |paths|
  {
    if paths != [] {
      UnderFacts(paths[1..], source);
      assert forall p :: p in paths <==> p == paths[0] || p in paths[1..];
    }
  }

  /** Everything at or below a source is known after tracking; nothing new is if it was known before. */
  lemma {:induction false} TrackFacts(s: Store, ws: WorkspaceId, listed: seq<Path>, moves: seq<Move>)
    requires IdsOk(s) && LiveDistinct(s.files)
    ensures var n := Track(s, ws, listed, moves);
            IdsOk(n) && LiveDistinct(n.files) && Grown(s, n, ws, SetOf(listed)) &&
            (forall i, p :: 0 <= i < |moves| && p in listed && Covers(moves[i].source, p) ==> Known(n.files, ws, p)) &&
            ((forall i, p :: 0 <= i < |moves| && p in listed && Covers(moves[i].source, p) ==> Known(s.files, ws, p)) ==>
               n == s)
    decreases |moves|
  {
    if moves != [] {
      var here := Under(listed, moves[0].source);
      UnderFacts(listed, moves[0].source);
      IdentifyAllFacts(s, ws, here);
      var next := IdentifyAll(s, ws, here);
      var n := Track(next, ws, listed, moves[1..]);
      TrackFacts(next, ws, listed, moves[1..]);
      GrownTrans(s, next, n, ws, SetOf(here), SetOf(listed));
      assert SetOf(here) + SetOf(listed) == SetOf(listed) by {
        forall i | 0 <= i < |here| ensures here[i] in SetOf(listed) {
          assert here[i] in here;
          var k :| 0 <= k < |listed| && listed[k] == here[i];
        }
      }
      forall i, p | 0 <= i < |moves| && p in listed && Covers(moves[i].source, p) ensures Known(n.files, ws, p) {
        if i == 0 {
          GrownKnown(next, n, ws, SetOf(listed), ws, p);
        } else {
          assert moves[1..][i - 1] == moves[i];
        }
      }
      if forall i, p :: 0 <= i < |moves| && p in listed && Covers(moves[i].source, p) ==> Known(s.files, ws, p) {
        assert next == s;
        assert forall i :: 0 <= i < |moves[1..]| ==> moves[1..][i] == moves[i + 1];
      }
    } else {
      assert s.files[..|s.files|] == s.files;
    }
  }

  lemma {:induction false} IdentifyAllJoins(s: Store, ws: WorkspaceId, a: seq<Path>, b: seq<Path>)
    ensures IdentifyAll(s, ws, a + b) == IdentifyAll(IdentifyAll(s, ws, a), ws, b)
    decreases |a|
  {
    hide Identify;
    if a == [] {
      assert a + b == b;
    } else {
      assert (a + b)[1..] == a[1..] + b;
      IdentifyAllJoins(Identify(s, ws, a[0]).0, ws, a[1..], b);
    }
  }

  /** Tracking is saving the identities of these paths, one after the other. */
  lemma {:induction false} TrackIsAll(s: Store, ws: WorkspaceId, listed: seq<Path>, moves: seq<Move>)
    ensures Track(s, ws, listed, moves) == IdentifyAll(s, ws, Tracked(listed, moves))
    decreases |moves|
  {
    hide Identify;
    if moves != [] {
      var here := Under(listed, moves[0].source);
      IdentifyAllJoins(s, ws, here, Tracked(listed, moves[1..]));
      TrackIsAll(IdentifyAll(s, ws, here), ws, listed, moves[1..]);
    }
  }

  /** Tracking one path after the other, up to one that is refused. */
  function Tracking(s: Store, ws: WorkspaceId, paths: seq<Path>): (Store, bool)
    decreases |paths|
  {
    if paths == [] then (s, true)
    else if !Legal(paths[0]) then (s, false)
    else Tracking(Identify(s, ws, paths[0]).0, ws, paths[1..])
  }

  lemma {:induction false} TrackingIs(s: Store, ws: WorkspaceId, paths: seq<Path>)
    ensures Tracking(s, ws, paths) == (IdentifyAll(s, ws, paths[..Legals(paths)]), AllLegal(paths))
    decreases |paths|
  {
    hide Identify, Legal;
    if paths != [] {
      TrackingIs(Identify(s, ws, paths[0]).0, ws, paths[1..]);
      assert AllLegal(paths) <==> Legal(paths[0]) && AllLegal(paths[1..]);
      if Legal(paths[0]) {
        assert paths[..Legals(paths)][1..] == paths[1..][..Legals(paths[1..])];
      }
    }
  }

  // ---------------------------------------------------------------- identities in a batch

  /** A row after the first n moves. */
  function RowAfter(row: Row, ws: WorkspaceId, moves: seq<Move>, n: nat): (after: Row)
    requires n <= |moves|
    ensures after.id == row.id && after.workspaceId == row.workspaceId && after.deleted == row.deleted
  {
    if n == 0 then row else RelinkRow(RowAfter(row, ws, moves, n - 1), ws, moves[n - 1])
  }

  function RowsAfter(files: seq<Row>, ws: WorkspaceId, moves: seq<Move>, n: nat): seq<Row>
    requires n <= |moves|
  {
    seq(|files|, i requires 0 <= i < |files| => RowAfter(files[i], ws, moves, n))
  }

  function AssetAfter(asset: Asset, ws: WorkspaceId, moves: seq<Move>, n: nat): Asset
    requires n <= |moves|
  {
    if n == 0 then asset else RemapAsset(AssetAfter(asset, ws, moves, n - 1), ws, moves[n - 1])
  }

  function AssetsAfter(assets: map<AssetId, Asset>, ws: WorkspaceId, moves: seq<Move>, n: nat): map<AssetId, Asset>
    requires n <= |moves|
  {
    map a | a in assets :: AssetAfter(assets[a], ws, moves, n)
  }

  /** Rows of other workspaces, deleted rows and rows not under any source stay. */
  lemma {:induction false} RowStays(row: Row, ws: WorkspaceId, moves: seq<Move>, n: nat)
    requires n <= |moves| && (row.workspaceId != ws || row.deleted || Unmoved(moves, n, row.path))
    ensures RowAfter(row, ws, moves, n) == row
  {
    if n > 0 {
      assert Unmoved(moves, n, row.path) ==> Unmoved(moves, n - 1, row.path);
      RowStays(row, ws, moves, n - 1);
    }
  }

  lemma LandedCovered(path: Path, m: Move)
    requires Covers(m.source, path)
    ensures Covers(m.destination, Relocated(path, m.source, m.destination))
  {
  }

  /** A live row under a source ends at the corresponding place under its destination. */
  lemma {:induction false} RowMoves(tree: Tree, row: Row, ws: WorkspaceId, moves: seq<Move>, n: nat, j: nat)
    requires Closed(tree) && Planned(tree, moves) && j < n <= |moves| && Covers(moves[j].source, row.path)
    requires row.workspaceId == ws && !row.deleted
    ensures RowAfter(row, ws, moves, n).path == Relocated(row.path, moves[j].source, moves[j].destination)
    decreases n
  {
    hide Closed, Planned, Unmoved, Brought;
    var landed := Relocated(row.path, moves[j].source, moves[j].destination);
    if n == j + 1 {
      UnmovedBefore(tree, moves, j, row.path);
      RowStays(row, ws, moves, j);
    } else {
      RowMoves(tree, row, ws, moves, n - 1, j);
      LandedCovered(row.path, moves[j]);
      BroughtElsewhere(tree, moves, n - 1, j, landed);
    }
  }

  lemma {:induction false} AssetStays(asset: Asset, ws: WorkspaceId, moves: seq<Move>, n: nat)
    requires n <= |moves| && (asset.workspaceId != ws || Unmoved(moves, n, asset.path))
    ensures AssetAfter(asset, ws, moves, n) == asset
  {
    if n > 0 {
      assert Unmoved(moves, n, asset.path) ==> Unmoved(moves, n - 1, asset.path);
      AssetStays(asset, ws, moves, n - 1);
    }
  }

  lemma {:induction false} AssetMoves(tree: Tree, asset: Asset, ws: WorkspaceId, moves: seq<Move>, n: nat, j: nat)
    requires Closed(tree) && Planned(tree, moves) && j < n <= |moves| && Covers(moves[j].source, asset.path)
    requires asset.workspaceId == ws
    ensures AssetAfter(asset, ws, moves, n) ==
            Asset(ws, Relocated(asset.path, moves[j].source, moves[j].destination))
    decreases n
  {
    hide Closed, Planned, Unmoved, Brought;
    var landed := Relocated(asset.path, moves[j].source, moves[j].destination);
    if n == j + 1 {
      UnmovedBefore(tree, moves, j, asset.path);
      AssetStays(asset, ws, moves, j);
    } else {
      AssetMoves(tree, asset, ws, moves, n - 1, j);
      LandedCovered(asset.path, moves[j]);
      BroughtElsewhere(tree, moves, n - 1, j, landed);
    }
  }

  // ---------------------------------------------------------------- a completed batch

  /** A batch under way: the first `applied` moves are done. */
  ghost predicate UnderWay(start: Files, w: Files, o: nat) {
    o < |w.store.operations| &&
    var op := w.store.operations[o];
    op.workspaceId in start.trees && op.workspaceId in w.trees && op.applied <= |op.moves| &&
    Closed(start.trees[op.workspaceId]) && Closed(w.trees[op.workspaceId]) &&
    Planned(start.trees[op.workspaceId], op.moves) &&
    MovedBy(start.trees[op.workspaceId], w.trees[op.workspaceId], op.moves, op.applied) &&
    w.store.files == RowsAfter(start.store.files, op.workspaceId, op.moves, op.applied) &&
    w.assets == AssetsAfter(start.assets, op.workspaceId, op.moves, op.applied)
  }

  lemma UnderWayNext(start: Files, w: Files, o: nat)
    requires UnderWay(start, w, o) && w.store.operations[o].applied < |w.store.operations[o].moves|
    requires MoveTree(w.trees[w.store.operations[o].workspaceId], w.store.operations[o].moves[w.store.operations[o].applied]).1 == None
    ensures var op := w.store.operations[o];
            var m := op.moves[op.applied];
            UnderWay(start, Files(Record(w.store, o), w.trees[op.workspaceId := MoveTree(w.trees[op.workspaceId], m).0],
                                  Remap(w.assets, op.workspaceId, m)), o)
  {
    hide MoveTree, Closed, Planned, MovedBy, RelinkRow, RemapAsset;
    var op := w.store.operations[o];
    var m := op.moves[op.applied];
    MovedByNext(start.trees[op.workspaceId], w.trees[op.workspaceId], op.moves, op.applied);
    assert Relink(w.store.files, op.workspaceId, m) == RowsAfter(start.store.files, op.workspaceId, op.moves, op.applied + 1);
    assert Remap(w.assets, op.workspaceId, m) == AssetsAfter(start.assets, op.workspaceId, op.moves, op.applied + 1);
  }

  /** The batch is recorded as completed, at the next revision, and no other workspace's files changed. */
  ghost predicate Completes(w: Files, n: Files, o: nat)
    requires o < |w.store.operations|
  {
    var op := w.store.operations[o];
    op.workspaceId in n.trees && n.trees == w.trees[op.workspaceId := n.trees[op.workspaceId]] &&
    n.store == w.store.(files := n.store.files, revision := w.store.revision + 1,
                        operations := w.store.operations[o := op.(applied := |op.moves|, state := Completed,
                                                                  revision := Some(w.store.revision + 1))])
  }

  lemma CompletesNext(w: Files, next: Files, n: Files, o: nat)
    requires o < |w.store.operations| && w.store.operations[o].workspaceId in w.trees
    requires w.store.operations[o].applied < |w.store.operations[o].moves|
    requires next.store == Record(w.store, o)
    requires next.trees.Keys == w.trees.Keys
    requires forall k :: k in w.trees && k != w.store.operations[o].workspaceId ==> next.trees[k] == w.trees[k]
    requires Completes(next, n, o)
    ensures Completes(w, n, o)
  {
    var ws := w.store.operations[o].workspaceId;
    assert w.store.operations[o := n.store.operations[o]] == n.store.operations;
    assert n.trees == w.trees[ws := n.trees[ws]] by {
      assert forall k :: k in n.trees <==> k in w.trees.Keys;
    }
  }

  /** A batch that completes did all its moves. */
  lemma {:induction false} CompletedDoesAll(start: Files, w: Files, o: nat)
    requires UnderWay(start, w, o) && MoveRest(w, o).store.operations[o].state == Completed
    ensures UnderWay(start, MoveRest(w, o), o) && Completes(w, MoveRest(w, o), o)
    decreases |w.store.operations[o].moves| - w.store.operations[o].applied
  {
    hide MoveTree, Closed, Planned, MovedBy, RelinkRow, RemapAsset, Completes;
    var op := w.store.operations[o];
    if op.applied < |op.moves| {
      var m := op.moves[op.applied];
      assert MoveTree(w.trees[op.workspaceId], m).1 == None;
      UnderWayNext(start, w, o);
      var next := Files(Record(w.store, o), w.trees[op.workspaceId := MoveTree(w.trees[op.workspaceId], m).0],
                        Remap(w.assets, op.workspaceId, m));
      CompletedDoesAll(start, next, o);
      CompletesNext(w, next, MoveRest(w, o), o);
    } else {
      CompletesNow(w, o);
    }
  }

  lemma CompletesNow(w: Files, o: nat)
    requires o < |w.store.operations| && w.store.operations[o].workspaceId in w.trees
    requires w.store.operations[o].applied == |w.store.operations[o].moves|
    ensures Completes(w, w.(store := Complete(w.store, o)), o)
  {
    var ws := w.store.operations[o].workspaceId;
    assert w.trees == w.trees[ws := w.trees[ws]];
  }
}
