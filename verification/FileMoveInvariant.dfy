/** Live identities are where their files are: kept by every operation on workspace files. */
module FileMoveInvariant {
  import opened Common
  import opened FileMoveModel
  import opened FileMoveCrash
  import opened FileMoveTrees
  import opened FileMoveRows

  /** A listing shows every path of a tree, and nothing else. */
  ghost predicate Lists(list: Listing) {
    forall tree: Tree, p: Path :: p in list(tree) <==> p in tree
  }

  /** Sources are apart from each other and from all destinations. */
  ghost predicate Shaped(moves: seq<Move>) {
    (forall i, j :: 0 <= i < |moves| && 0 <= j < |moves| ==> !Covers(moves[i].source, moves[j].destination)) &&
    (forall i, j :: 0 <= i < |moves| && 0 <= j < |moves| && i != j ==> !Covers(moves[i].source, moves[j].source)) &&
    forall i :: 0 <= i < |moves| ==> moves[i].destination != []
  }

  /** Every live identity of the workspace names a path of its tree. */
  ghost predicate Rooted(files: seq<Row>, ws: WorkspaceId, tree: Tree) {
    forall i :: 0 <= i < |files| && files[i].workspaceId == ws && !files[i].deleted ==> files[i].path in tree
  }

  ghost predicate TreesOk(trees: map<WorkspaceId, Tree>) {
    forall ws :: ws in trees ==> Closed(trees[ws])
  }

  ghost predicate RootedAll(files: seq<Row>, trees: map<WorkspaceId, Tree>) {
    (forall i :: 0 <= i < |files| && !files[i].deleted ==> files[i].workspaceId in trees) &&
    forall ws :: ws in trees ==> Rooted(files, ws, trees[ws])
  }

  ghost predicate OperationOk(op: Operation) {
    0 < |op.moves| <= MAX_MOVES && Shaped(op.moves) && op.state != Moving && (op.state == Queued ==> op.applied == 0)
  }

  ghost predicate OperationsOk(s: Store) {
    (forall o :: 0 <= o < |s.operations| ==> s.operations[o].id < s.nextId && OperationOk(s.operations[o])) &&
    forall o, k :: 0 <= o < k < |s.operations| ==> s.operations[o].id != s.operations[k].id
  }

  /** Between operations: closed trees, distinct identities at existing paths, well-planned batches. */
  ghost predicate Good(w: Files) {
    TreesOk(w.trees) && IdsOk(w.store) && LiveDistinct(w.store.files) && RootedAll(w.store.files, w.trees) &&
    OperationsOk(w.store)
  }

  // ---------------------------------------------------------------- one move

  /** What moving does to the path of a row that was in the tree. */
  lemma RelinkedPath(tree: Tree, m: Move, row: Row, ws: WorkspaceId)
    requires Closed(tree) && MoveTree(tree, m).1 == None && !Covers(m.source, m.destination) && m.destination != []
    requires row.workspaceId == ws && !row.deleted && row.path in tree
    ensures RelinkRow(row, ws, m).path in MoveTree(tree, m).0
    ensures Covers(m.source, row.path) <==> Covers(m.destination, RelinkRow(row, ws, m).path) && m.source in tree
  {
    if m.source in tree {
      NotAbove(tree, m);
      RenamedFacts(tree, m);
      if !Covers(m.source, row.path) && Covers(m.destination, row.path) {
        CoveredIn(tree, m.destination, row.path);
      }
    } else if Covers(m.source, row.path) {
      CoveredOrRoot(tree, m, row.path);
    }
  }

  lemma CoveredOrRoot(tree: Tree, m: Move, path: Path)
    requires Closed(tree) && path in tree && Covers(m.source, path) && !Covers(m.source, m.destination)
    ensures m.source in tree
  {
    assert m.source != [];
    CoveredIn(tree, m.source, path);
  }

  lemma NotAbove(tree: Tree, m: Move)
    requires Closed(tree) && m.source in tree && m.destination !in tree && !Covers(m.source, m.destination)
    requires m.destination != []
    ensures Apart(m)
  {
    if Covers(m.destination, m.source) {
      CoveredIn(tree, m.destination, m.source);
    }
  }

  lemma MoveKeepsClosed(tree: Tree, m: Move)
    requires Closed(tree) && !Covers(m.source, m.destination) && m.destination != []
    ensures Closed(MoveTree(tree, m).0)
  {
    hide Renamed, Parents, FileInWay, Closed;
    if m.source in tree && m.destination !in tree && !FileInWay(tree, m.destination) {
      NotAbove(tree, m);
      RenamedClosed(tree, m);
    }
  }

  lemma SameLanding(a: Row, b: Row, ws: WorkspaceId, m: Move)
    requires a.workspaceId == ws && b.workspaceId == ws && !a.deleted && !b.deleted
    requires Covers(m.source, a.path) && Covers(m.source, b.path)
    requires RelinkRow(a, ws, m).path == RelinkRow(b, ws, m).path
    ensures a.path == b.path
  {
    assert a.path == m.source + a.path[|m.source|..] && b.path == m.source + b.path[|m.source|..];
    var landed := RelinkRow(a, ws, m).path;
    assert landed[|m.destination|..] == a.path[|m.source|..] && landed[|m.destination|..] == b.path[|m.source|..];
  }

  lemma MoveKeepsRows(tree: Tree, files: seq<Row>, ws: WorkspaceId, m: Move)
    requires Closed(tree) && MoveTree(tree, m).1 == None && !Covers(m.source, m.destination) && m.destination != []
    requires LiveDistinct(files) && Rooted(files, ws, tree)
    ensures LiveDistinct(Relink(files, ws, m)) && Rooted(Relink(files, ws, m), ws, MoveTree(tree, m).0)
  {
    hide MoveTree, Closed, RelinkRow;
    var after := Relink(files, ws, m);
    forall i | 0 <= i < |after| && after[i].workspaceId == ws && !after[i].deleted
      ensures after[i].path in MoveTree(tree, m).0
    {
      RelinkedRow(files[i], ws, m);
      RelinkedPath(tree, m, files[i], ws);
    }
    forall i, j, v, path | 0 <= i < |after| && 0 <= j < |after| && LiveAt(after[i], v, path) && LiveAt(after[j], v, path)
      ensures i == j
    {
      DistinctAfter(tree, files, ws, m, i, j);
    }
  }

  lemma RelinkedRow(row: Row, ws: WorkspaceId, m: Move)
    ensures var after := RelinkRow(row, ws, m);
            after.id == row.id && after.workspaceId == row.workspaceId && after.deleted == row.deleted &&
            (row.workspaceId != ws || row.deleted ==> after == row) && (!Covers(m.source, row.path) ==> after == row)
  {
  }

  lemma DistinctAfter(tree: Tree, files: seq<Row>, ws: WorkspaceId, m: Move, i: nat, j: nat)
    requires Closed(tree) && MoveTree(tree, m).1 == None && !Covers(m.source, m.destination) && m.destination != []
    requires LiveDistinct(files) && Rooted(files, ws, tree) && i < |files| && j < |files|
    requires var (a, b) := (RelinkRow(files[i], ws, m), RelinkRow(files[j], ws, m));
             a.workspaceId == b.workspaceId && !a.deleted && !b.deleted && a.path == b.path
    ensures i == j
  {
    hide MoveTree, Closed, RelinkRow;
    var (a, b) := (files[i], files[j]);
    RelinkedRow(a, ws, m);
    RelinkedRow(b, ws, m);
    if a.workspaceId == ws {
      RelinkedPath(tree, m, a, ws);
      RelinkedPath(tree, m, b, ws);
      if Covers(m.source, a.path) && Covers(m.source, b.path) {
        SameLanding(a, b, ws, m);
      }
    }
    assert LiveAt(a, a.workspaceId, a.path) && LiveAt(b, a.workspaceId, a.path);
  }

  // ---------------------------------------------------------------- execution

  /** The state of a batch under way, as far as identities and trees go. */
  ghost predicate GoodButFor(w: Files, o: nat) {
    TreesOk(w.trees) && IdsOk(w.store) && LiveDistinct(w.store.files) && RootedAll(w.store.files, w.trees) &&
    o < |w.store.operations| && 0 < |w.store.operations[o].moves| <= MAX_MOVES && Shaped(w.store.operations[o].moves)
  }

  lemma RootedAllMoves(files: seq<Row>, trees: map<WorkspaceId, Tree>, ws: WorkspaceId, m: Move)
    requires ws in trees && RootedAll(files, trees) && Rooted(Relink(files, ws, m), ws, MoveTree(trees[ws], m).0)
    ensures RootedAll(Relink(files, ws, m), trees[ws := MoveTree(trees[ws], m).0])
  {
    hide MoveTree, RelinkRow;
    var after := Relink(files, ws, m);
    forall i | 0 <= i < |after| ensures after[i].workspaceId == files[i].workspaceId && after[i].deleted == files[i].deleted {
      RelinkedRow(files[i], ws, m);
    }
    forall v | v in trees && v != ws ensures Rooted(after, v, trees[v]) {
      assert Rooted(files, v, trees[v]);
      forall i | 0 <= i < |after| && after[i].workspaceId == v && !after[i].deleted ensures after[i].path in trees[v] {
        RelinkedRow(files[i], ws, m);
      }
    }
  }

  lemma RecordGood(w: Files, o: nat)
    requires GoodButFor(w, o) && w.store.operations[o].applied < |w.store.operations[o].moves|
    requires var op := w.store.operations[o];
             op.workspaceId in w.trees && MoveTree(w.trees[op.workspaceId], op.moves[op.applied]).1 == None
    ensures var op := w.store.operations[o];
            var m := op.moves[op.applied];
            GoodButFor(Files(Record(w.store, o), w.trees[op.workspaceId := MoveTree(w.trees[op.workspaceId], m).0],
                             Remap(w.assets, op.workspaceId, m)), o)
  {
    hide MoveTree, Closed, RelinkRow, Rooted, LiveDistinct;
    var op := w.store.operations[o];
    var m := op.moves[op.applied];
    assert Rooted(w.store.files, op.workspaceId, w.trees[op.workspaceId]);
    MoveKeepsClosed(w.trees[op.workspaceId], m);
    MoveKeepsRows(w.trees[op.workspaceId], w.store.files, op.workspaceId, m);
    RootedAllMoves(w.store.files, w.trees, op.workspaceId, m);
    forall i | 0 <= i < |w.store.files| ensures Relink(w.store.files, op.workspaceId, m)[i].id == w.store.files[i].id {
      RelinkedRow(w.store.files[i], op.workspaceId, m);
    }
  }

  lemma {:induction false} MoveRestGood(w: Files, o: nat)
    requires GoodButFor(w, o)
    ensures GoodButFor(MoveRest(w, o), o)
    decreases |w.store.operations[o].moves| - w.store.operations[o].applied
  {
    hide MoveTree, Closed, Relink, Rooted, LiveDistinct, Shaped;
    var op := w.store.operations[o];
    if op.applied < |op.moves| && op.workspaceId in w.trees {
      var m := op.moves[op.applied];
      var (tree, error) := MoveTree(w.trees[op.workspaceId], m);
      if error.None? {
        RecordGood(w, o);
        MoveRestGood(Files(Record(w.store, o), w.trees[op.workspaceId := tree], Remap(w.assets, op.workspaceId, m)), o);
      } else {
        FailedTree(w, o);
      }
    }
  }

  /** A move that fails changes nothing in the tree. */
  lemma FailedTree(w: Files, o: nat)
    requires GoodButFor(w, o) && w.store.operations[o].applied < |w.store.operations[o].moves|
    requires var op := w.store.operations[o];
             op.workspaceId in w.trees && MoveTree(w.trees[op.workspaceId], op.moves[op.applied]).1.Some?
    ensures var op := w.store.operations[o];
            w.trees[op.workspaceId := MoveTree(w.trees[op.workspaceId], op.moves[op.applied]).0] == w.trees
  {
  }

  lemma GrownRooted(s: Store, n: Store, ws: WorkspaceId, paths: set<Path>, trees: map<WorkspaceId, Tree>)
    requires Grown(s, n, ws, paths) && RootedAll(s.files, trees) && ws in trees
    requires forall p :: p in paths ==> p in trees[ws]
    ensures RootedAll(n.files, trees)
  {
    assert forall i :: 0 <= i < |s.files| ==> n.files[i] == s.files[i];
    forall v | v in trees ensures Rooted(n.files, v, trees[v]) {
      assert Rooted(s.files, v, trees[v]);
    }
  }

  lemma TrackGood(w: Files, o: nat, list: Listing)
    requires Good(w) && o < |w.store.operations| && w.store.operations[o].workspaceId in w.trees && Lists(list)
    ensures var op := w.store.operations[o];
            var tracked := Track(w.store, op.workspaceId, list(w.trees[op.workspaceId]), op.moves);
            GoodButFor(w.(store := SetOperation(tracked, o, op.(state := Moving))), o)
  {
    var op := w.store.operations[o];
    var listed := list(w.trees[op.workspaceId]);
    var tracked := Track(w.store, op.workspaceId, listed, op.moves);
    TrackFacts(w.store, op.workspaceId, listed, op.moves);
    forall p | p in SetOf(listed) ensures p in w.trees[op.workspaceId] {
      var i :| 0 <= i < |listed| && listed[i] == p;
      assert p in listed;
    }
    GrownRooted(w.store, tracked, op.workspaceId, SetOf(listed), w.trees);
  }

  lemma EndedGood(w: Files, n: Files, o: nat)
    requires OperationsOk(w.store) && o < |w.store.operations| && GoodButFor(n, o)
    requires |n.store.operations| == |w.store.operations| && w.store.nextId <= n.store.nextId
    requires n.store.operations[o].id == w.store.operations[o].id
    requires n.store.operations[o].state == Completed || n.store.operations[o].state == Failed
    requires forall k :: 0 <= k < |w.store.operations| && k != o ==> n.store.operations[k] == w.store.operations[k]
    ensures Good(n)
  {
    hide TreesOk, IdsOk, LiveDistinct, RootedAll, Shaped;
    forall k | 0 <= k < |n.store.operations|
      ensures n.store.operations[k].id == w.store.operations[k].id && OperationOk(n.store.operations[k])
    {
      assert OperationOk(w.store.operations[k]);
    }
  }

  lemma {:induction false} MoveRestKeepsId(w: Files, o: nat)
    requires o < |w.store.operations|
    ensures MoveRest(w, o).store.operations[o].id == w.store.operations[o].id
    decreases |w.store.operations[o].moves| - w.store.operations[o].applied
  {
    hide MoveTree, Relink, Remap;
    var op := w.store.operations[o];
    if op.applied < |op.moves| && op.workspaceId in w.trees {
      var m := op.moves[op.applied];
      MoveRestKeepsId(Files(Record(w.store, o), w.trees[op.workspaceId := MoveTree(w.trees[op.workspaceId], m).0],
                            Remap(w.assets, op.workspaceId, m)), o);
    }
  }

  lemma {:induction false} TrackedListed(listed: seq<Path>, moves: seq<Move>)
    ensures forall p :: p in Tracked(listed, moves) ==> p in listed
    decreases |moves|
  {
    if moves != [] {
      UnderFacts(listed, moves[0].source);
      TrackedListed(listed, moves[1..]);
    }
  }

  /** Only identities were added. */
  ghost predicate MoreIdentities(s: Store, n: Store) {
    n == s.(files := n.files, nextId := n.nextId)
  }

  lemma {:induction false} IdentifyAllGood(w: Files, ws: WorkspaceId, paths: seq<Path>)
    requires Good(w) && (paths != [] ==> ws in w.trees && forall p :: p in paths ==> p in w.trees[ws])
    ensures Good(w.(store := IdentifyAll(w.store, ws, paths))) && MoreIdentities(w.store, IdentifyAll(w.store, ws, paths))
    decreases |paths|
  {
    hide Good;
    if paths != [] {
      var next := Identify(w.store, ws, paths[0]).0;
      IdentifyGood(w, ws, paths[0]);
      hide Identify;
      IdentifyAllGood(w.(store := next), ws, paths[1..]);
    }
  }

  lemma ExecuteGood(w: Files, o: nat, list: Listing)
    requires Good(w) && o < |w.store.operations| && w.store.operations[o].state == Queued && Lists(list)
    ensures Good(Execute(w, o, list))
    ensures forall k :: 0 <= k < |w.store.operations| && k != o ==>
              Execute(w, o, list).store.operations[k] == w.store.operations[k]
  {
    hide TreesOk, IdsOk, LiveDistinct, RootedAll, MoveRest, Shaped, Lists, Track;
    var op := w.store.operations[o];
    var n := Execute(w, o, list);
    match Check(w, op, 0) {
      case Err(e) =>
        FailGood(w, o, e);
      case Ok(_) =>
        if op.workspaceId in w.trees && !AllLegal(Tracked(list(w.trees[op.workspaceId]), op.moves)) {
          IllegalGood(w, o, list);
        } else if op.workspaceId in w.trees {
          var tracked := Track(w.store, op.workspaceId, list(w.trees[op.workspaceId]), op.moves);
          var ready := w.(store := SetOperation(tracked, o, op.(state := Moving)));
          TrackGood(w, o, list);
          TrackNext(w.store, op.workspaceId, list(w.trees[op.workspaceId]), op.moves);
          MoveRestGood(ready, o);
          MoveRestFrame(ready, o);
          MoveRestKeepsId(ready, o);
          EndedGood(w, n, o);
        }
    }
  }

  /** The batch fails with the identities that were made before the path that is refused. */
  lemma IllegalGood(w: Files, o: nat, list: Listing)
    requires Good(w) && o < |w.store.operations| && w.store.operations[o].workspaceId in w.trees && Lists(list)
    ensures var op := w.store.operations[o];
            var paths := Tracked(list(w.trees[op.workspaceId]), op.moves);
            var s := IdentifyAll(w.store, op.workspaceId, paths[..Legals(paths)]);
            MoreIdentities(w.store, s) && Good(w.(store := Fail(s, o, InvalidMove)))
  {
    var op := w.store.operations[o];
    var listed := list(w.trees[op.workspaceId]);
    var paths := Tracked(listed, op.moves);
    TrackedListed(listed, op.moves);
    assert forall p :: p in paths[..Legals(paths)] ==> p in paths;
    assert forall p :: p in listed ==> p in w.trees[op.workspaceId];
    hide Lists, Good, IdentifyAll, Fail;
    IdentifyAllGood(w, op.workspaceId, paths[..Legals(paths)]);
    FailGood(w.(store := IdentifyAll(w.store, op.workspaceId, paths[..Legals(paths)])), o, InvalidMove);
  }

  lemma TrackNext(s: Store, ws: WorkspaceId, listed: seq<Path>, moves: seq<Move>)
    requires IdsOk(s) && LiveDistinct(s.files)
    ensures s.nextId <= Track(s, ws, listed, moves).nextId
  {
    TrackFacts(s, ws, listed, moves);
  }

  lemma FailGood(w: Files, o: nat, e: Error)
    requires Good(w) && o < |w.store.operations|
    ensures Good(w.(store := Fail(w.store, o, e)))
  {
    hide TreesOk, LiveDistinct, RootedAll;
    var n := w.(store := Fail(w.store, o, e));
    assert OperationOk(w.store.operations[o]);
    forall k | 0 <= k < |n.store.operations|
      ensures n.store.operations[k].id == w.store.operations[k].id && OperationOk(n.store.operations[k])
    {
      assert OperationOk(w.store.operations[k]);
    }
  }

  lemma {:induction false} DrainGood(w: Files, ws: WorkspaceId, o: nat, now: int, list: Listing)
    requires Good(w) && Lists(list)
    ensures Good(Drain(w, ws, o, now, list))
    decreases |w.store.operations| - o
  {
    hide Good, Execute, Leased, Lists;
    if o < |w.store.operations| {
      var op := w.store.operations[o];
      if op.workspaceId != ws || op.state != Queued {
        DrainGood(w, ws, o + 1, now, list);
      } else {
        ExecuteGood(w, o, list);
        DrainGood(Execute(w, o, list), ws, o + 1, now, list);
      }
    }
  }

  // ---------------------------------------------------------------- planning

  /** "Keep both" changes the last name only. */
  lemma {:induction false} FreeFacts(occupied: set<Path>, destination: Path, folder: bool, keepBoth: bool, n: nat, limit: nat)
    requires Free(occupied, destination, folder, keepBoth, n, limit).Ok? && destination != []
    ensures var found := Free(occupied, destination, folder, keepBoth, n, limit).value;
            found !in occupied && |found| == |destination| &&
            found[..|found| - 1] == destination[..|destination| - 1]
    decreases limit - n
  {
    if Candidate(destination, folder, n) in occupied {
      FreeFacts(occupied, destination, folder, keepBoth, n + 1, limit);
    }
  }

  /** A free destination next to a wished one is no more under a source than that was. */
  lemma FreeNotCovered(tree: Tree, source: Path, wished: Path, found: Path)
    requires source in tree && found !in tree && !Covers(source, wished)
    requires |found| == |wished| && |found| > 0 && found[..|found| - 1] == wished[..|wished| - 1]
    ensures !Covers(source, found)
  {
    assert |source| == |found| && Covers(source, found) ==> source == found;
    if |source| < |found| {
      assert found[..|source|] == found[..|found| - 1][..|source|];
      assert wished[..|source|] == wished[..|wished| - 1][..|source|];
    }
  }

  /** The moves planned so far: their sources are the wishes', and each destination was free. */
  ghost predicate PlannedSoFar(tree: Tree, wishes: seq<Wish>, moves: seq<Move>) {
    |moves| <= |wishes| &&
    (forall i :: 0 <= i < |moves| ==>
       moves[i].source == wishes[i].source && moves[i].source in tree && moves[i].destination !in tree &&
       moves[i].destination != [] && !Overlaps(wishes, i) && wishes[i].destination != [] &&
       |moves[i].destination| == |wishes[i].destination| &&
       moves[i].destination[..|moves[i].destination| - 1] == wishes[i].destination[..|wishes[i].destination| - 1]) &&
    forall i, j :: 0 <= i < j < |moves| ==> moves[i].destination != moves[j].destination
  }

  lemma SoFarShaped(tree: Tree, wishes: seq<Wish>, moves: seq<Move>)
    requires PlannedSoFar(tree, wishes, moves) && |moves| == |wishes|
    ensures Shaped(moves)
  {
    forall i, j | 0 <= i < |moves| && 0 <= j < |moves| ensures !Covers(moves[i].source, moves[j].destination) {
      assert !Overlaps(wishes, j);
      FreeNotCovered(tree, moves[i].source, wishes[j].destination, moves[j].destination);
    }
    forall i, j | 0 <= i < |moves| && 0 <= j < |moves| && i != j ensures !Covers(moves[i].source, moves[j].source) {
      assert !Overlaps(wishes, j);
    }
  }

  lemma PlanOneFacts(w: Files, ws: WorkspaceId, wishes: seq<Wish>, i: nat, keepBoth: bool, taken: set<Path>)
    requires i < |wishes| && PlanOne(w, ws, wishes, i, keepBoth, taken).Ok?
    ensures ws in w.trees && wishes[i].source in w.trees[ws] && !Overlaps(wishes, i) && wishes[i].destination != []
    ensures var found := PlanOne(w, ws, wishes, i, keepBoth, taken).value;
            found !in w.trees[ws] && found !in taken && |found| == |wishes[i].destination| &&
            found[..|found| - 1] == wishes[i].destination[..|wishes[i].destination| - 1]
  {
    hide Free, Overlaps;
    var occupied := w.trees[ws].Keys + taken;
    FreeFacts(occupied, wishes[i].destination, wishes[i].source in w.trees[ws] && w.trees[ws][wishes[i].source].Folder?,
              keepBoth, 0, |occupied|);
  }

  lemma {:induction false} PlanFacts(w: Files, ws: WorkspaceId, wishes: seq<Wish>, i: nat, keepBoth: bool, moves: seq<Move>)
    requires Good(w) && |moves| == i <= |wishes|
    requires ws in w.trees ==> PlannedSoFar(w.trees[ws], wishes, moves)
    requires ws !in w.trees ==> i == 0
    ensures var (s, planned) := Plan(w, ws, wishes, i, keepBoth, moves);
            Good(w.(store := s)) && s.operations == w.store.operations &&
            (planned.Ok? ==>
               |planned.value| == |wishes| && moves <= planned.value && (wishes != [] ==> Shaped(planned.value)))
    decreases |wishes| - i
  {
    hide PlanOne, Identify, Good, Shaped;
    if i == |wishes| {
      if wishes != [] {
        SoFarShaped(w.trees[ws], wishes, moves);
      }
    } else {
      var taken := set m | m in moves :: m.destination;
      if PlanOne(w, ws, wishes, i, keepBoth, taken).Ok? {
        PlanOneFacts(w, ws, wishes, i, keepBoth, taken);
        IdentifyGood(w, ws, wishes[i].source);
        var (s, id) := Identify(w.store, ws, wishes[i].source);
        var next := moves + [Move(wishes[i].source, PlanOne(w, ws, wishes, i, keepBoth, taken).value, id)];
        assert forall k :: 0 <= k < i ==> moves[k].destination in taken;
        PlanFacts(w.(store := s), ws, wishes, i + 1, keepBoth, next);
      }
    }
  }

  lemma IdentifyGood(w: Files, ws: WorkspaceId, path: Path)
    requires Good(w) && ws in w.trees && path in w.trees[ws]
    ensures Good(w.(store := Identify(w.store, ws, path).0))
  {
    hide Identify;
    IdentifyFacts(w.store, ws, path);
    GrownRooted(w.store, Identify(w.store, ws, path).0, ws, {path}, w.trees);
  }

  lemma EnqueueGood(w: Files, ws: WorkspaceId, wishes: seq<Wish>, keepBoth: bool)
    requires Good(w)
    ensures Good(Enqueue(w, ws, wishes, keepBoth).0)
  {
    hide Plan, TreesOk, LiveDistinct, RootedAll, Shaped;
    PlanFacts(w, ws, wishes, 0, keepBoth, []);
    var (s, planned) := Plan(w, ws, wishes, 0, keepBoth, []);
    if wishes != [] && |wishes| <= MAX_MOVES && planned.Ok? {
      var op := Operation(s.nextId, ws, planned.value, Queued, 0, None, None);
      assert OperationOk(op);
    }
  }

  // ---------------------------------------------------------------- public operations

  lemma RequestGood(w: Files, ws: WorkspaceId, wishes: seq<Wish>, keepBoth: bool, busy: bool, now: int, list: Listing)
    requires Good(w) && Lists(list)
    ensures Good(Request(w, ws, wishes, keepBoth, busy, now, list).0)
  {
    hide Good, Enqueue, Drain, Lists;
    EnqueueGood(w, ws, wishes, keepBoth);
    DrainGood(Enqueue(w, ws, wishes, keepBoth).0, ws, 0, now, list);
  }

  lemma UndoGood(w: Files, ws: WorkspaceId, id: OperationId, busy: bool, now: int, list: Listing)
    requires Good(w) && Lists(list)
    ensures Good(Undo(w, ws, id, busy, now, list).0)
  {
    hide Good, Request, Lists, Reversed;
    match FindOperation(w.store.operations, ws, id, 0) {
      case None =>
      case Some(o) =>
        if o < |w.store.operations| {
          RequestGood(w, ws, Reversed(w.store.operations[o].moves), false, busy, now, list);
        }
    }
  }

  lemma CancelGood(w: Files, ws: WorkspaceId, id: OperationId)
    requires Good(w)
    ensures Good(Cancel(w, ws, id).0)
  {
    hide TreesOk, LiveDistinct, RootedAll, Shaped, FindOperation;
    var n := Cancel(w, ws, id).0;
    forall k | 0 <= k < |n.store.operations|
      ensures n.store.operations[k].id == w.store.operations[k].id && OperationOk(n.store.operations[k])
    {
      assert OperationOk(w.store.operations[k]);
    }
  }

  lemma MarkedGood(w: Files, ws: WorkspaceId, path: Path)
    requires Good(w)
    ensures Good(w.(store := Delete(w.store, ws, path)))
  {
    hide OperationOk, TreesOk;
    var n := Delete(w.store, ws, path).files;
    var s := w.store.files;
    assert forall i :: 0 <= i < |n| ==>
        n[i].id == s[i].id && n[i].workspaceId == s[i].workspaceId && n[i].path == s[i].path && (s[i].deleted ==> n[i].deleted);
    assert forall i, v, p :: 0 <= i < |n| && LiveAt(n[i], v, p) ==> LiveAt(s[i], v, p);
    forall v | v in w.trees ensures Rooted(n, v, w.trees[v]) {
      assert Rooted(s, v, w.trees[v]);
    }
  }

  lemma RemoveWorkspaceGood(w: Files, ws: WorkspaceId)
    requires Good(w)
    ensures Good(w.(store := RemoveWorkspace(w.store, ws)))
  {
    hide TreesOk, LiveDistinct, RootedAll, Shaped, Marked;
    MarkedGood(w, ws, []);
    var n := RemoveWorkspace(w.store, ws);
    forall k | 0 <= k < |n.operations|
      ensures n.operations[k].id == w.store.operations[k].id && OperationOk(n.operations[k])
    {
      assert OperationOk(w.store.operations[k]);
    }
  }
}
