/** What is planned for what a caller asks: the same sources, and the wished destinations or the next free names. */
module FileMoveWishes {
  import opened Common
  import opened FileMoveModel
  import opened FileMoveTrees
  import opened FileMoveRows
  import opened FileMoveInvariant
  import opened FileMoveNames

  predicate NoDot(s: string) {
    forall i :: 0 <= i < |s| ==> s[i] != '.'
  }

  /** The extension of a file's name is what begins with its last dot, unless that is its first character. */
  predicate ExtensionAt(name: Name, cut: nat) {
    cut <= |name| && (cut < |name| ==> cut > 0 && name[cut] == '.' && NoDot(name[cut + 1..])) &&
    (cut == |name| ==> name == "" || NoDot(name[1..]))
  }

  /** The name with a number before its extension; a folder's name has none. */
  ghost predicate IsNumbered(name: Name, folder: bool, n: nat, numbered: Name) {
    exists cut: nat, digits :: cut <= |name| && (if folder then cut == |name| else ExtensionAt(name, cut)) &&
                          numbered == name[..cut] + " (" + digits + ")" + name[cut..] && ValueOf(digits) == n
  }

  lemma {:induction false} DotIs(name: Name, i: nat)
    requires i <= |name| && NoDot(name[i..])
    ensures i >= 1 || name == "" ==> ExtensionAt(name, DotOf(name, i))
    decreases i
  {
    if i > 1 {
      if name[i - 1] == '.' {
        assert name[i - 1 + 1..] == name[i..];
      } else {
        assert name[i - 1..] == [name[i - 1]] + name[i..];
        DotIs(name, i - 1);
      }
    }
  }

  lemma NumberedIs(name: Name, folder: bool, n: nat)
    ensures IsNumbered(name, folder, n, Numbered(name, folder, n))
  {
    hide DotOf;
    assert name[|name|..] == "";
    DotIs(name, |name|);
    DigitsValue(n);
    var cut := if folder then |name| else DotOf(name, |name|);
    assert cut <= |name| && Numbered(name, folder, n) == name[..cut] + " (" + Digits(n) + ")" + name[cut..];
  }

  /** The place next to the wished one whose name has the number. */
  ghost predicate IsCandidate(destination: Path, folder: bool, n: nat, path: Path) {
    if n == 0 then path == destination
    else
      destination != [] && |path| == |destination| &&
      path[..|path| - 1] == destination[..|destination| - 1] &&
      IsNumbered(destination[|destination| - 1], folder, n, path[|path| - 1])
  }

  lemma CandidateIs(destination: Path, folder: bool, n: nat)
    requires destination != []
    ensures IsCandidate(destination, folder, n, Candidate(destination, folder, n))
  {
    hide Numbered, IsNumbered;
    NumberedIs(destination[|destination| - 1], folder, n);
  }

  /** The first free of the places: the wished one, and with "keep both" the numbered ones. */
  ghost predicate FirstFree(occupied: set<Path>, destination: Path, folder: bool, keepBoth: bool, path: Path) {
    path !in occupied && (path != destination ==> keepBoth) &&
    exists n: nat :: IsCandidate(destination, folder, n, path) && AllTaken(occupied, destination, folder, n)
  }

  ghost predicate AllTaken(occupied: set<Path>, destination: Path, folder: bool, n: nat) {
    forall k: nat :: k < n ==> Taken(occupied, destination, folder, k)
  }

  ghost predicate Taken(occupied: set<Path>, destination: Path, folder: bool, n: nat) {
    exists q :: q in occupied && IsCandidate(destination, folder, n, q)
  }

  lemma {:induction false} FreeIsFirst(occupied: set<Path>, destination: Path, folder: bool, keepBoth: bool, n: nat, limit: nat)
    requires destination != [] && AllTaken(occupied, destination, folder, n) && (n > 0 ==> keepBoth)
    requires Free(occupied, destination, folder, keepBoth, n, limit).Ok?
    ensures FirstFree(occupied, destination, folder, keepBoth, Free(occupied, destination, folder, keepBoth, n, limit).value)
    decreases limit - n
  {
    hide IsCandidate, Candidate;
    var candidate := Candidate(destination, folder, n);
    CandidateIs(destination, folder, n);
    if candidate in occupied {
      assert Taken(occupied, destination, folder, n);
      FreeIsFirst(occupied, destination, folder, keepBoth, n + 1, limit);
    } else {
      if n == 0 {
        FirstCandidate(destination, folder);
      }
    }
  }

  lemma FirstCandidate(destination: Path, folder: bool)
    ensures Candidate(destination, folder, 0) == destination
  {
  }

  predicate IsFolder(tree: Tree, path: Path) {
    path in tree && tree[path].Folder?
  }

  function DestinationsOf(moves: seq<Move>, n: nat): set<Path>
    requires n <= |moves|
  {
    set m | m in moves[..n] :: m.destination
  }

  /** What one wish becomes: its file, by its identity, at the first free place that is not taken by an earlier move. */
  ghost predicate Grants(tree: Tree, wishes: seq<Wish>, keepBoth: bool, moves: seq<Move>, i: nat)
    requires i < |wishes| && i < |moves|
  {
    moves[i].source == wishes[i].source &&
    FirstFree(tree.Keys + DestinationsOf(moves, i), wishes[i].destination, IsFolder(tree, wishes[i].source), keepBoth,
              moves[i].destination)
  }

  lemma PlanOneGrants(w: Files, ws: WorkspaceId, wishes: seq<Wish>, i: nat, keepBoth: bool, taken: set<Path>)
    requires i < |wishes| && PlanOne(w, ws, wishes, i, keepBoth, taken).Ok?
    ensures ws in w.trees
    ensures FirstFree(w.trees[ws].Keys + taken, wishes[i].destination, IsFolder(w.trees[ws], wishes[i].source), keepBoth,
                      PlanOne(w, ws, wishes, i, keepBoth, taken).value)
  {
    PlanOneFacts(w, ws, wishes, i, keepBoth, taken);
    hide Free, Overlaps, FirstFree;
    var occupied := w.trees[ws].Keys + taken;
    FreeIsFirst(occupied, wishes[i].destination, IsFolder(w.trees[ws], wishes[i].source), keepBoth, 0, |occupied|);
  }

  lemma {:induction false} PlanGrants(w: Files, ws: WorkspaceId, wishes: seq<Wish>, i: nat, keepBoth: bool, moves: seq<Move>)
    requires |moves| == i <= |wishes| && Plan(w, ws, wishes, i, keepBoth, moves).1.Ok?
    requires ws in w.trees ==> forall k :: 0 <= k < i ==> Grants(w.trees[ws], wishes, keepBoth, moves, k)
    requires ws !in w.trees ==> i == 0
    ensures var planned := Plan(w, ws, wishes, i, keepBoth, moves).1.value;
            |planned| == |wishes| && (wishes != [] ==> ws in w.trees) &&
            forall k :: 0 <= k < |wishes| ==> ws in w.trees && Grants(w.trees[ws], wishes, keepBoth, planned, k)
    decreases |wishes| - i
  {
    hide PlanOne, FirstFree, Identify;
    if i < |wishes| {
      var taken := set m | m in moves :: m.destination;
      var planned := PlanOne(w, ws, wishes, i, keepBoth, taken);
      PlanOneGrants(w, ws, wishes, i, keepBoth, taken);
      var (s, id) := Identify(w.store, ws, wishes[i].source);
      var more := moves + [Move(wishes[i].source, planned.value, id)];
      assert more[..i] == moves;
      forall k | 0 <= k < i + 1 ensures Grants(w.trees[ws], wishes, keepBoth, more, k) {
        if k < i {
          assert Grants(w.trees[ws], wishes, keepBoth, moves, k);
          assert more[..k] == moves[..k] && more[k] == moves[k];
        }
      }
      PlanGrants(w.(store := s), ws, wishes, i + 1, keepBoth, more);
    }
  }

  /**
   A request that is accepted queues one batch: every wish's source, to the wished place if it is free and no earlier
   wish of the batch gets it, and else, with "keep both", to the same place with the least free number before its extension.
   */
  lemma GrantedAsWished(w: Files, ws: WorkspaceId, wishes: seq<Wish>, keepBoth: bool)
    requires Enqueue(w, ws, wishes, keepBoth).1.Ok?
    ensures var (n, reply) := Enqueue(w, ws, wishes, keepBoth);
            ws in w.trees && n.trees == w.trees && |n.store.operations| > 0 &&
            var op := n.store.operations[|n.store.operations| - 1];
            op.id == reply.value && op.workspaceId == ws && op.state == Queued && |op.moves| == |wishes| &&
            forall k :: 0 <= k < |wishes| ==> Grants(w.trees[ws], wishes, keepBoth, op.moves, k)
  {
    hide Plan, Grants;
    PlanGrants(w, ws, wishes, 0, keepBoth, []);
  }
}
