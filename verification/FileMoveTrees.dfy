/** What a batch of moves does to the tree as a whole. */
module FileMoveTrees {
  import opened Common
  import opened FileMoveModel
  import opened FileMoveCrash

  /** Every path lies in a folder of the tree. */
  ghost predicate Closed(tree: Tree) {
    [] !in tree && forall p :: p in tree && |p| > 1 ==> p[..|p| - 1] in tree && tree[p[..|p| - 1]].Folder?
  }

  lemma {:induction false} PrefixesIn(tree: Tree, path: Path, n: nat)
    requires Closed(tree) && path in tree && 0 < n < |path|
    ensures path[..n] in tree && tree[path[..n]].Folder?
    decreases |path|
  {
    var parent := path[..|path| - 1];
    if n == |path| - 1 {
      assert parent == path[..n];
    } else {
      PrefixesIn(tree, parent, n);
      assert parent[..n] == path[..n];
    }
  }

  /** A path is in the tree with everything it lies under. */
  lemma CoveredIn(tree: Tree, parent: Path, path: Path)
    requires Closed(tree) && path in tree && Covers(parent, path) && parent != []
    ensures parent in tree
  {
    assert parent == path[..|parent|];
    if parent == path {
    } else {
      PrefixesIn(tree, path, |parent|);
    }
  }

  /** The plan of a batch against the tree it was made for. */
  ghost predicate Planned(tree: Tree, moves: seq<Move>) {
    (forall i :: 0 <= i < |moves| ==> moves[i].source in tree && moves[i].destination !in tree &&
                                      moves[i].destination != []) &&
    (forall i, j :: 0 <= i < |moves| && 0 <= j < |moves| ==> !Covers(moves[i].source, moves[j].destination)) &&
    forall i, j :: 0 <= i < |moves| && 0 <= j < |moves| && i != j ==> !Covers(moves[i].source, moves[j].source)
  }

  ghost predicate Unmoved(moves: seq<Move>, n: nat, path: Path)
    requires n <= |moves|
  {
    forall j :: 0 <= j < n ==> !Covers(moves[j].source, path)
  }

  /** A path that move j brought to its destination. */
  ghost predicate Brought(tree: Tree, m: Move, path: Path) {
    Covers(m.destination, path) && m.source + path[|m.destination|..] in tree
  }

  ghost predicate MadeFor(moves: seq<Move>, n: nat, path: Path)
    requires n <= |moves|
  {
    exists j :: 0 <= j < n && path < moves[j].destination
  }

  /** The first n moves turned `before` into `after`: nothing is lost, nothing else appears but folders on the way. */
  ghost predicate MovedBy(before: Tree, after: Tree, moves: seq<Move>, n: nat)
    requires n <= |moves|
  {
    (forall j, p :: 0 <= j < n && p in before && Covers(moves[j].source, p) ==>
       Relocated(p, moves[j].source, moves[j].destination) in after &&
       after[Relocated(p, moves[j].source, moves[j].destination)] == before[p]) &&
    (forall p :: p in before && Unmoved(moves, n, p) ==> p in after && after[p] == before[p]) &&
    forall q :: q in after ==>
      (q in before && Unmoved(moves, n, q)) ||
      (exists j :: 0 <= j < n && Brought(before, moves[j], q)) ||
      (q !in before && after[q] == Folder && MadeFor(moves, n, q))
  }

  lemma MovedByNone(tree: Tree, moves: seq<Move>)
    ensures MovedBy(tree, tree, moves, 0)
  {
  }

  /** In a closed tree no planned destination lies above anything that is there. */
  lemma DestinationAbove(tree: Tree, moves: seq<Move>, j: nat, path: Path)
    requires Closed(tree) && Planned(tree, moves) && j < |moves| && path in tree
    ensures !Covers(moves[j].destination, path)
  {
    if Covers(moves[j].destination, path) {
      CoveredIn(tree, moves[j].destination, path);
    }
  }

  /** Sources and what was brought elsewhere never meet. */
  lemma BroughtElsewhere(tree: Tree, moves: seq<Move>, i: nat, j: nat, path: Path)
    requires Closed(tree) && Planned(tree, moves) && i < |moves| && j < |moves|
    requires Covers(moves[j].destination, path)
    ensures !Covers(moves[i].source, path)
  {
    if Covers(moves[i].source, path) {
      Comparable(moves[i].source, moves[j].destination, path);
      DestinationAbove(tree, moves, j, moves[i].source);
    }
  }

  // ---------------------------------------------------------------- one move

  ghost predicate Renames(tree: Tree, after: Tree, m: Move) {
    (forall p :: p in tree && Covers(m.source, p) ==>
       Relocated(p, m.source, m.destination) in after &&
       after[Relocated(p, m.source, m.destination)] == tree[p]) &&
    (forall p :: p in tree && !Covers(m.source, p) ==> p in after && after[p] == tree[p]) &&
    forall q :: q in after ==>
      (q in tree && !Covers(m.source, q)) || Brought(tree, m, q) ||
      (q !in tree && after[q] == Folder && q < m.destination && q != [])
  }

  /** What one rename with the folders on the way does. */
  lemma RenamedFacts(tree: Tree, m: Move)
    requires Apart(m) && m.source in tree && m.destination !in tree && m.destination != [] && Closed(tree)
    ensures Renames(tree, Renamed(Parents(tree, m.destination), m.source, m.destination), m)
  {
    var n := |m.destination| - 1;
    var made := Parents(tree, m.destination);
    FoldersMade(tree, m.destination, n);
    var after := Renamed(made, m.source, m.destination);
    forall p | p in tree && Covers(m.source, p)
      ensures Relocated(p, m.source, m.destination) in after && after[Relocated(p, m.source, m.destination)] == tree[p]
    {
      RelocatedBack(m, p);
      assert p in made && made[p] == tree[p];
    }
    forall p | p in tree && !Covers(m.source, p) ensures p in after && after[p] == tree[p] {
      if Covers(m.destination, p) {
        CoveredIn(tree, m.destination, p);
      }
    }
    forall q | q in after
      ensures (q in tree && !Covers(m.source, q)) || Brought(tree, m, q) ||
              (q !in tree && after[q] == Folder && q < m.destination && q != [])
    {
      if q in Landed(made, m.source, m.destination) {
        LandedBrought(tree, m, q);
      } else if q !in tree {
        var k :| 1 <= k <= n && q == m.destination[..k];
        assert made[q] == Folder;
      }
    }
  }

  lemma RelocatedBack(m: Move, p: Path)
    requires Covers(m.source, p)
    ensures var q := Relocated(p, m.source, m.destination);
            Covers(m.destination, q) && m.source + q[|m.destination|..] == p
  {
  }

  /** The folders made on the way are not under the source. */
  lemma LandedBrought(tree: Tree, m: Move, q: Path)
    requires Apart(m) && m.destination != []
    requires q in Landed(Parents(tree, m.destination), m.source, m.destination)
    ensures Brought(tree, m, q)
  {
    var p := m.source + q[|m.destination|..];
    FoldersMade(tree, m.destination, |m.destination| - 1);
    assert forall k :: 1 <= k < |m.destination| && Covers(m.source, m.destination[..k]) ==>
                         Covers(m.source, m.destination);
  }

  /** Renaming keeps the tree closed. */
  lemma RenamedClosed(tree: Tree, m: Move)
    requires Apart(m) && m.source in tree && m.destination !in tree && m.destination != [] && Closed(tree)
    requires !FileInWay(tree, m.destination)
    ensures Closed(Renamed(Parents(tree, m.destination), m.source, m.destination))
  {
    var n := |m.destination| - 1;
    var after := Renamed(Parents(tree, m.destination), m.source, m.destination);
    FoldersMade(tree, m.destination, n);
    RenamedFacts(tree, m);
    forall q | q in after ensures q != [] && (|q| > 1 ==> q[..|q| - 1] in after && after[q[..|q| - 1]].Folder?) {
      ParentIn(tree, m, q);
    }
  }

  lemma KeptParent(tree: Tree, after: Tree, m: Move, q: Path)
    requires Closed(tree) && Renames(tree, after, m) && q in tree && !Covers(m.source, q)
    ensures q != [] && (|q| > 1 ==> q[..|q| - 1] in after && after[q[..|q| - 1]].Folder?)
  {
    if |q| > 1 {
      assert Covers(m.source, q[..|q| - 1]) ==> Covers(m.source, q);
    }
  }

  lemma ParentRelocated(m: Move, q: Path)
    requires Covers(m.destination, q) && q != m.destination
    ensures var p := m.source + q[|m.destination|..];
            |q| > |m.destination| && |p| > |m.source| && Covers(m.source, p[..|p| - 1]) &&
            Relocated(p[..|p| - 1], m.source, m.destination) == q[..|q| - 1]
  {
    var rest := q[|m.destination|..|q| - 1];
    var p := m.source + q[|m.destination|..];
    assert q == m.destination + q[|m.destination|..];
    assert p[..|p| - 1] == m.source + rest;
    assert q[..|q| - 1] == m.destination + rest;
  }

  lemma BroughtParent(tree: Tree, after: Tree, m: Move, q: Path)
    requires Closed(tree) && Renames(tree, after, m) && Brought(tree, m, q) && q != m.destination
    requires m.destination != [] && m.source != []
    ensures q != [] && (|q| > 1 ==> q[..|q| - 1] in after && after[q[..|q| - 1]].Folder?)
  {
    hide Brought, Relocated;
    assert Covers(m.destination, q) && m.source + q[|m.destination|..] in tree by {
      BroughtHere(tree, m, q);
    }
    ParentRelocated(m, q);
  }

  lemma BroughtHere(tree: Tree, m: Move, q: Path)
    requires Brought(tree, m, q)
    ensures Covers(m.destination, q) && m.source + q[|m.destination|..] in tree
  {
  }

  lemma ParentIn(tree: Tree, m: Move, q: Path)
    requires Apart(m) && m.source in tree && m.destination !in tree && m.destination != [] && Closed(tree)
    requires !FileInWay(tree, m.destination)
    requires q in Renamed(Parents(tree, m.destination), m.source, m.destination)
    ensures var after := Renamed(Parents(tree, m.destination), m.source, m.destination);
            q != [] && (|q| > 1 ==> q[..|q| - 1] in after && after[q[..|q| - 1]].Folder?)
  {
    hide Renamed, Parents, FileInWay, Brought;
    var after := Renamed(Parents(tree, m.destination), m.source, m.destination);
    RenamedFacts(tree, m);
    if q in tree && !Covers(m.source, q) {
      KeptParent(tree, after, m, q);
    } else if q == m.destination {
      FolderThere(tree, m, |q| - 1);
    } else if Brought(tree, m, q) {
      BroughtParent(tree, after, m, q);
    } else {
      assert q == m.destination[..|q|];
      FolderThere(tree, m, |q| - 1);
      assert q[..|q| - 1] == m.destination[..|q| - 1];
    }
  }

  /** The folders above the destination are there after the move. */
  lemma FolderThere(tree: Tree, m: Move, n: nat)
    requires Apart(m) && m.source in tree && m.destination !in tree && m.destination != [] && Closed(tree)
    requires !FileInWay(tree, m.destination) && n < |m.destination|
    ensures var after := Renamed(Parents(tree, m.destination), m.source, m.destination);
            n > 0 ==> m.destination[..n] in after && after[m.destination[..n]].Folder?
  {
    if n > 0 {
      var folder := m.destination[..n];
      var made := Parents(tree, m.destination);
      FoldersMade(tree, m.destination, |m.destination| - 1);
      assert folder in made && made[folder].Folder?;
      assert !Covers(m.source, folder) by {
        assert Covers(m.source, folder) ==> Covers(m.source, m.destination);
      }
      assert !Covers(m.destination, folder);
    }
  }

  // ---------------------------------------------------------------- a batch

  lemma SourceApart(tree: Tree, moves: seq<Move>, n: nat)
    requires Closed(tree) && Planned(tree, moves) && n < |moves|
    ensures Apart(moves[n])
  {
    DestinationAbove(tree, moves, n, moves[n].source);
  }

  lemma MoveRenames(before: Tree, tree: Tree, moves: seq<Move>, n: nat)
    requires Closed(before) && Closed(tree) && Planned(before, moves) && n < |moves| && MovedBy(before, tree, moves, n)
    requires MoveTree(tree, moves[n]).1 == None
    ensures moves[n].source in tree && Renames(tree, MoveTree(tree, moves[n]).0, moves[n])
    ensures Closed(MoveTree(tree, moves[n]).0)
  {
    hide Renamed, Parents, FileInWay, Renames, Brought, MadeFor;
    assert Unmoved(moves, n, moves[n].source);
    SourceApart(before, moves, n);
    RenamedFacts(tree, moves[n]);
    RenamedClosed(tree, moves[n]);
  }

  lemma NextBrought(before: Tree, tree: Tree, moves: seq<Move>, n: nat)
    requires Closed(before) && Closed(tree) && Planned(before, moves) && n < |moves| && MovedBy(before, tree, moves, n)
    requires MoveTree(tree, moves[n]).1 == None
    ensures var after := MoveTree(tree, moves[n]).0;
            forall j, p :: 0 <= j < n + 1 && p in before && Covers(moves[j].source, p) ==>
              Relocated(p, moves[j].source, moves[j].destination) in after &&
              after[Relocated(p, moves[j].source, moves[j].destination)] == before[p]
  {
    var after := MoveTree(tree, moves[n]).0;
    MoveRenames(before, tree, moves, n);
    hide MoveTree, Closed;
    forall j, p | 0 <= j < n + 1 && p in before && Covers(moves[j].source, p)
      ensures Relocated(p, moves[j].source, moves[j].destination) in after &&
              after[Relocated(p, moves[j].source, moves[j].destination)] == before[p]
    {
      if j < n {
        var q := Relocated(p, moves[j].source, moves[j].destination);
        BroughtElsewhere(before, moves, n, j, q);
      } else {
        UnmovedBefore(before, moves, n, p);
      }
    }
  }

  lemma UnmovedBefore(tree: Tree, moves: seq<Move>, n: nat, p: Path)
    requires Planned(tree, moves) && n < |moves| && Covers(moves[n].source, p)
    ensures Unmoved(moves, n, p)
  {
    forall j | 0 <= j < n ensures !Covers(moves[j].source, p) {
      if Covers(moves[j].source, p) {
        Comparable(moves[j].source, moves[n].source, p);
      }
    }
  }

  lemma NextRest(before: Tree, tree: Tree, moves: seq<Move>, n: nat)
    requires Closed(before) && Closed(tree) && Planned(before, moves) && n < |moves| && MovedBy(before, tree, moves, n)
    requires MoveTree(tree, moves[n]).1 == None
    ensures var after := MoveTree(tree, moves[n]).0;
            forall p :: p in before && Unmoved(moves, n + 1, p) ==> p in after && after[p] == before[p]
  {
    MoveRenames(before, tree, moves, n);
    hide MoveTree, Closed;
    forall p | p in before && Unmoved(moves, n + 1, p)
      ensures p in MoveTree(tree, moves[n]).0 && MoveTree(tree, moves[n]).0[p] == before[p]
    {
      assert Unmoved(moves, n, p);
    }
  }

  lemma NextOnly(before: Tree, tree: Tree, moves: seq<Move>, n: nat)
    requires Closed(before) && Closed(tree) && Planned(before, moves) && n < |moves| && MovedBy(before, tree, moves, n)
    requires MoveTree(tree, moves[n]).1 == None
    ensures var after := MoveTree(tree, moves[n]).0;
            forall q :: q in after ==>
              (q in before && Unmoved(moves, n + 1, q)) ||
              (exists j :: 0 <= j < n + 1 && Brought(before, moves[j], q)) ||
              (q !in before && after[q] == Folder && MadeFor(moves, n + 1, q))
  {
    var m := moves[n];
    var after := MoveTree(tree, m).0;
    MoveRenames(before, tree, moves, n);
    hide MoveTree, Closed;
    forall q | q in after
      ensures (q in before && Unmoved(moves, n + 1, q)) ||
              (exists j :: 0 <= j < n + 1 && Brought(before, moves[j], q)) ||
              (q !in before && after[q] == Folder && MadeFor(moves, n + 1, q))
    {
      if q in tree && !Covers(m.source, q) {
        OldStays(before, tree, moves, n, q);
      } else if Brought(tree, m, q) {
        BroughtFrom(before, tree, moves, n, q);
      } else {
        NewFolderElsewhere(before, tree, moves, n, q);
      }
    }
  }

  lemma OldStays(before: Tree, tree: Tree, moves: seq<Move>, n: nat, q: Path)
    requires n < |moves| && MovedBy(before, tree, moves, n) && q in tree && !Covers(moves[n].source, q)
    ensures (q in before && Unmoved(moves, n + 1, q)) ||
            (exists j :: 0 <= j < n + 1 && Brought(before, moves[j], q)) ||
            (q !in before && tree[q] == Folder && MadeFor(moves, n + 1, q))
  {
    if exists j :: 0 <= j < n && Brought(before, moves[j], q) {
      var j :| 0 <= j < n && Brought(before, moves[j], q);
      assert j < n + 1;
    } else if !(q in before && Unmoved(moves, n, q)) {
      var j :| 0 <= j < n && q < moves[j].destination;
      assert j < n + 1;
    }
  }

  /** What the next move brings was still under its source in the first tree. */
  lemma BroughtFrom(before: Tree, tree: Tree, moves: seq<Move>, n: nat, q: Path)
    requires Closed(before) && Planned(before, moves) && n < |moves| && MovedBy(before, tree, moves, n)
    requires Brought(tree, moves[n], q)
    ensures Brought(before, moves[n], q)
  {
    hide Closed;
    var p := moves[n].source + q[|moves[n].destination|..];
    assert Covers(moves[n].source, p);
    forall j | 0 <= j < n ensures !Brought(before, moves[j], p) {
      if Covers(moves[j].destination, p) {
        BroughtElsewhere(before, moves, n, j, p);
      }
    }
    assert forall j :: 0 <= j < n && p < moves[j].destination ==> Covers(moves[n].source, moves[j].destination);
  }

  /** A folder made for the next move was not in the first tree either. */
  lemma NewFolderElsewhere(before: Tree, tree: Tree, moves: seq<Move>, n: nat, q: Path)
    requires Planned(before, moves) && n < |moves| && MovedBy(before, tree, moves, n)
    requires q !in tree && q < moves[n].destination
    ensures q !in before
  {
    assert forall j :: 0 <= j < n && Covers(moves[j].source, q) ==> Covers(moves[j].source, moves[n].destination);
    assert Unmoved(moves, n, q);
  }

  /** One more move of a planned batch. */
  lemma MovedByNext(before: Tree, tree: Tree, moves: seq<Move>, n: nat)
    requires Closed(before) && Closed(tree) && Planned(before, moves) && n < |moves| && MovedBy(before, tree, moves, n)
    requires MoveTree(tree, moves[n]).1 == None
    ensures var after := MoveTree(tree, moves[n]).0; Closed(after) && MovedBy(before, after, moves, n + 1)
  {
    hide MoveTree, Closed, Planned, Renames, Brought, MadeFor, Unmoved;
    MoveRenames(before, tree, moves, n);
    NextBrought(before, tree, moves, n);
    NextRest(before, tree, moves, n);
    NextOnly(before, tree, moves, n);
  }
}
