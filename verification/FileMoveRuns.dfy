/** Runs from a new store: a completed batch that cannot be undone, and a removed file whose identity stays. */
module FileMoveRuns {
  import opened Common
  import opened FileMoveModel
  import opened FileMoveTrees
  import opened FileMoveRows
  import opened FileMoveInvariant
  import opened FileMoveUndo
  import opened FileMoveRoundTrip
  import opened FileMoveStops
  import opened FileMoveHistory

  const A: Path := ["a"]
  const B: Path := ["b"]
  const D: Path := ["d"]
  const DB: Path := ["d", "b"]

  /** A folder and a file. */
  const BEFORE: Tree := map[A := Folder, B := File(0)]
  const WISHES := [Wish(A, D, None), Wish(B, DB, None)]
  const PLANNED := [Move(A, D, 0), Move(B, DB, 1)]
  const START := Files(EMPTY_STORE, map[0 := BEFORE], map[])

  /** The folder is renamed, and the file moved into it. */
  const BATCH := Operation(2, 0, PLANNED, Queued, 0, None, None)
  const ROWS := [Row(0, 0, A, [], false), Row(1, 0, B, [], false)]
  const QUEUED := START.(store := Store(ROWS, [BATCH], map[], 0, 3))

  lemma Distinct()
    ensures A != B && A != D && B != D && A != DB && B != DB && D != DB && Covers(D, DB)
    ensures !Covers(A, D) && !Covers(A, DB) && !Covers(B, D) && !Covers(B, DB) && !Covers(A, B) && !Covers(B, A)
    ensures Legal(A) && Legal(B) && Legal(D) && Legal(DB) && !Covers(A, D) && !Covers(DB, D)
  {
    assert A[0] == "a" && B[0] == "b" && D[0] == "d" && DB[0] == "d";
    assert "a"[0] != "b"[0] && "a"[0] != "d"[0] && "b"[0] != "d"[0] && |".workagent"| == 10;
  }

  /** After the first wish, and after the second. */
  const ONE := EMPTY_STORE.(files := [Row(0, 0, A, [], false)], nextId := 1)
  const TWO := EMPTY_STORE.(files := ROWS, nextId := 2)

  lemma Identified()
    ensures Identify(EMPTY_STORE, 0, A) == (ONE, 0) && Identify(ONE, 0, B) == (TWO, 1)
  {
    Distinct();
    hide Covers, Legal;
    var row := Row(0, 0, A, [], false);
    assert FindLive(EMPTY_STORE.files, 0, A) == None;
    assert EMPTY_STORE.files + [row] == ONE.files;
    assert ONE.files[0] == row && ONE.files[1..] == [] && !LiveAt(row, 0, B);
    assert FindLive(ONE.files, 0, B) == None;
    assert ONE.files + [Row(1, 0, B, [], false)] == ROWS;
  }

  lemma Planned(w: Files, i: nat, taken: set<Path>)
    requires i < 2 && w.trees == map[0 := BEFORE] && taken == if i == 0 then {} else {D}
    ensures PlanOne(w, 0, WISHES, i, false, taken) == Ok(WISHES[i].destination)
  {
    Distinct();
    NoOverlap(i);
    hide Covers, Legal, Overlaps;
    assert WISHES[i].destination !in BEFORE.Keys + taken;
  }

  lemma NoOverlap(i: nat)
    requires i < 2
    ensures !Overlaps(WISHES, i)
  {
    Distinct();
  }

  lemma BothPlanned()
    ensures Enqueue(START, 0, WISHES, false) == (QUEUED, Ok(2))
  {
    Identified();
    hide PlanOne, Identify;
    Planned(START, 0, {});
    var none: seq<Move> := [];
    assert (set m | m in none :: m.destination) == {};
    var moves := [Move(A, D, 0)];
    assert none + [Move(A, D, 0)] == moves;
    assert (set m | m in moves :: m.destination) == {D};
    var w := START.(store := ONE);
    Planned(w, 1, {D});
    assert moves + [Move(B, DB, 1)] == PLANNED;
    assert Plan(START.(store := TWO), 0, WISHES, 2, false, PLANNED) == (TWO, Ok(PLANNED));
    assert Plan(w, 0, WISHES, 1, false, moves) == (TWO, Ok(PLANNED));
    assert Plan(START, 0, WISHES, 0, false, none) == (TWO, Ok(PLANNED));
    assert TWO.operations + [BATCH] == [BATCH];
  }

  // ---------------------------------------------------------------- both are moved

  lemma Checked()
    ensures Check(QUEUED, BATCH, 0).Ok?
  {
    Distinct();
    hide Covers, Legal;
    assert ROWS[1..] == [Row(1, 0, B, [], false)];
    assert FindId(ROWS, 0, 0) == Some(A) && FindId(ROWS[1..], 0, 1) == Some(B);
    assert Check(QUEUED, BATCH, 2).Ok?;
    assert Check(QUEUED, BATCH, 1).Ok?;
  }

  lemma Landing()
    ensures MoveTree(BEFORE, PLANNED[0]).1.None?
    ensures var tree := MoveTree(BEFORE, PLANNED[0]).0;
            B in tree && DB !in tree && D in tree && tree[D].Folder? && MoveTree(tree, PLANNED[1]).1.None?
  {
    Distinct();
    assert Parents(BEFORE, D) == BEFORE;
    var tree := Renamed(BEFORE, A, D);
    assert Relocated(A, A, D) == D;
    assert D in FileMoveModel.Landed(BEFORE, A, D) && A + D[|D|..] == A;
    assert forall p :: p in BEFORE && Covers(A, p) ==> p == A;
    assert DB[..1] == D;
  }

  lemma Moved(w: Files)
    requires w.trees == map[0 := BEFORE] && w.store.operations == [BATCH.(state := Moving)]
    ensures MoveRest(w, 0).store.operations[0].state == Completed
  {
    Landing();
    hide MoveTree, Relink, Remap;
    var tree := MoveTree(BEFORE, PLANNED[0]).0;
    var one := Files(Record(w.store, 0), w.trees[0 := tree], Remap(w.assets, 0, PLANNED[0]));
    assert one.store.operations[0].applied == 1 && one.trees[0] == tree;
    var two := Files(Record(one.store, 0), one.trees[0 := MoveTree(tree, PLANNED[1]).0], Remap(one.assets, 0, PLANNED[1]));
    assert MoveRest(two, 0).store.operations[0].state == Completed;
  }

  lemma NamesLegal(list: Listing)
    requires Lists(list)
    ensures Trackable(QUEUED, 0, list)
  {
    var listed := list(BEFORE);
    Distinct();
    TrackedListed(listed, PLANNED);
    forall i | 0 <= i < |Tracked(listed, PLANNED)| ensures Legal(Tracked(listed, PLANNED)[i]) {
      assert Tracked(listed, PLANNED)[i] in BEFORE;
    }
  }

  lemma Executed(list: Listing)
    requires Lists(list)
    ensures Done(QUEUED, 0, list)
  {
    QueuedGood();
    Checked();
    NamesLegal(list);
    hide Good, Lists, Check, Track, MoveRest, Tracked, AllLegal;
    Moved(Ready(QUEUED, 0, list));
  }

  lemma StartGood()
    ensures Good(START)
  {
    Distinct();
    assert |A| == 1 && |B| == 1;
  }

  lemma Drained(list: Listing, now: int)
    ensures Drain(QUEUED, 0, 0, now, list) == Execute(QUEUED, 0, list)
  {
    hide Execute;
    assert !Leased(QUEUED.store, BATCH, now);
  }

  lemma AskedFor(list: Listing, now: int)
    ensures Apply(START, Ask(0, WISHES, false, false, now), list) == Execute(QUEUED, 0, list)
  {
    hide Execute, Enqueue, Drain;
    BothPlanned();
    Drained(list, now);
  }

  lemma Nested()
    ensures !DestinationsApart(PLANNED) && forall now: int :: Quiet(QUEUED, 0, now)
  {
    Distinct();
    assert Covers(PLANNED[0].destination, PLANNED[1].destination);
  }

  /** Asked for and done; but the way back would move a folder and the file in it, and is refused. */
  lemma UndoRefused(list: Listing, now: int)
    requires Lists(list)
    ensures var w := Apply(START, Ask(0, WISHES, false, false, now), list);
            |w.store.operations| == 1 && w.store.operations[0].state == Completed && w.store.operations[0].id == 2 &&
            Undo(w, 0, 2, false, now, list) == (w, Err(InvalidMove))
  {
    hide Good, Lists, Execute, Enqueue, Undo, Apply, DestinationsApart, Quiet;
    Executed(list);
    AskedFor(list, now);
    Nested();
    ExecutedId(QUEUED, 0, list);
    UndoAcceptedIff(QUEUED, 0, list, list, now);
  }

  // ---------------------------------------------------------------- a removal cut short

  lemma KnownB()
    ensures KnownBelow(ROWS, 0, B) && FindLive(ROWS, 0, B) == Some(1) && B !in Without(BEFORE, B)
  {
    Distinct();
    assert Covers(B, B);
    assert ROWS[1].path == B && !LiveAt(ROWS[0], 0, B);
    var rest := ROWS[1..];
    assert rest == [ROWS[1]] && FindLive(rest, 0, B) == Some(1);
  }

  lemma QueuedGood()
    ensures Enqueue(START, 0, WISHES, false).0 == QUEUED && Good(QUEUED)
  {
    hide Good, Enqueue;
    StartGood();
    BothPlanned();
    EnqueueGood(START, 0, WISHES, false);
  }

  /** A file of the queued batch is removed, and the process stops before the store is told: its identity stays live. */
  lemma EraseStopped()
    ensures Enqueue(START, 0, WISHES, false).0 == QUEUED && Good(QUEUED)
    ensures var n := QUEUED.(trees := map[0 := Without(BEFORE, B)]);
            Recover(n, 0) == n && !Good(n) && FindLive(n.store.files, 0, B) == Some(1) && B !in n.trees[0]
  {
    hide Good, Enqueue, KnownBelow, Recover, FindLive, Without;
    QueuedGood();
    KnownB();
    EraseUntoldIff(QUEUED, 0, B);
    assert QUEUED.trees[0 := Without(BEFORE, B)] == map[0 := Without(BEFORE, B)];
  }
}
