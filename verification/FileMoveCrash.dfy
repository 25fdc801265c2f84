/** A crash at any point of a batch move changes nothing about how it ends. */
module FileMoveCrash {
  import opened Common
  import opened FileMoveModel

  /** How far the loop has come with the next move. */
  datatype Stage = AtMove | MadeFolders(n: nat) | MovedFile | RelinkedRows | RemappedAssets | Finished

  /** A process executing one operation: what is on disk, and the store in memory. */
  datatype Process = Process(disk: Files, memory: Store, o: nat, stage: Stage)

  function Started(disk: Files, o: nat): Process {
    Process(disk, disk.store, o, AtMove)
  }

  function OpOf(p: Process): Operation
    requires p.o < |p.memory.operations|
  {
    p.memory.operations[p.o]
  }

  function Ended(p: Process, store: Store): Process {
    Process(p.disk.(store := store), store, p.o, Finished)
  }

  function SetTree(p: Process, ws: WorkspaceId, tree: Tree, stage: Stage): Process {
    p.(disk := p.disk.(trees := p.disk.trees[ws := tree]), stage := stage)
  }

  /** The smallest step between two points at which the process may die. */
  function Step(p: Process): Process
    requires p.o < |p.memory.operations| && !p.stage.Finished?
    requires !p.stage.AtMove? ==> OpOf(p).applied < |OpOf(p).moves| && OpOf(p).workspaceId in p.disk.trees
  {
    var op := OpOf(p);
    if p.stage.AtMove? && op.applied >= |op.moves| then Ended(p, Complete(p.memory, p.o))
    else if p.stage.AtMove? && op.workspaceId !in p.disk.trees then Ended(p, Fail(p.memory, p.o, WorkspaceNotFound))
    else
      var m := op.moves[op.applied];
      var tree := p.disk.trees[op.workspaceId];
      match p.stage
      case AtMove =>
        if m.source in tree then
          if m.destination in tree then Ended(p, Fail(p.memory, p.o, DestinationExists))
          else if FileInWay(tree, m.destination) then Ended(p, Fail(p.memory, p.o, NotAFolder))
          else p.(stage := MadeFolders(0))
        else if m.destination in tree then p.(stage := MovedFile)
        else Ended(p, Fail(p.memory, p.o, FileNotFound))
      case MadeFolders(n) =>
        if n + 1 < |m.destination|
        then SetTree(p, op.workspaceId, WithFolders(tree, m.destination, n + 1), MadeFolders(n + 1))
        else SetTree(p, op.workspaceId, Renamed(tree, m.source, m.destination), MovedFile)
      case MovedFile =>
        p.(memory := p.memory.(files := Relink(p.memory.files, op.workspaceId, m)), stage := RelinkedRows)
      case RelinkedRows =>
        p.(disk := p.disk.(assets := Remap(p.disk.assets, op.workspaceId, m)), stage := RemappedAssets)
      case RemappedAssets =>
        var saved := SetOperation(p.memory, p.o, op.(applied := op.applied + 1));
        Process(p.disk.(store := saved), saved, p.o, AtMove)
  }

  /** The process dies; a new one reads the saved store and starts the loop where that left off. */
  function Crashed(p: Process): Process {
    if p.stage.Finished? then p else Started(p.disk, p.o)
  }

  predicate Apart(m: Move) {
    !Covers(m.source, m.destination) && !Covers(m.destination, m.source)
  }

  ghost predicate MovesApart(op: Operation) {
    forall i :: 0 <= i < |op.moves| ==> Apart(op.moves[i])
  }

  /** What holds at every point of the loop. */
  ghost predicate Inv(p: Process) {
    p.o < |p.memory.operations| && |p.disk.store.operations| == |p.memory.operations| && MovesApart(OpOf(p)) &&
    (p.stage.AtMove? || p.stage.Finished? ==> p.disk.store == p.memory) &&
    (p.stage.AtMove? || p.stage.Finished? ||
     (OpOf(p).applied < |OpOf(p).moves| && OpOf(p).workspaceId in p.disk.trees &&
      OpOf(p) == p.disk.store.operations[p.o] && Between(p)))
  }

  ghost predicate Between(p: Process)
    requires p.o < |p.memory.operations| && OpOf(p).applied < |OpOf(p).moves| && OpOf(p).workspaceId in p.disk.trees
  {
    var op := OpOf(p);
    var m := op.moves[op.applied];
    var tree := p.disk.trees[op.workspaceId];
    match p.stage
    case MadeFolders(n) =>
      m.source in tree && m.destination !in tree && !FileInWay(tree, m.destination) && (n == 0 || n < |m.destination|) &&
      (n <= |m.destination| ==> WithFolders(tree, m.destination, n) == tree) && p.memory == p.disk.store
    case MovedFile => m.source !in tree && m.destination in tree && p.memory == p.disk.store
    case RelinkedRows =>
      m.source !in tree && m.destination in tree &&
      p.memory == p.disk.store.(files := Relink(p.disk.store.files, op.workspaceId, m))
    case RemappedAssets =>
      m.source !in tree && m.destination in tree && Remap(p.disk.assets, op.workspaceId, m) == p.disk.assets &&
      p.memory == p.disk.store.(files := Relink(p.disk.store.files, op.workspaceId, m))
    case _ => true
  }

  /** Where the operation will end up from here. */
  function Outcome(p: Process): Files
    requires p.o < |p.disk.store.operations|
  {
    if p.stage.Finished? then p.disk else MoveRest(p.disk, p.o)
  }

  // ---------------------------------------------------------------- trees

  lemma {:induction false} FoldersMade(tree: Tree, path: Path, n: nat)
    requires n <= |path|
    ensures forall p :: p in WithFolders(tree, path, n) <==> p in tree || exists k :: 1 <= k <= n && p == path[..k]
    ensures forall p :: p in tree ==> WithFolders(tree, path, n)[p] == tree[p]
    ensures forall p :: p in WithFolders(tree, path, n) && p !in tree ==> WithFolders(tree, path, n)[p] == Folder
    decreases n
  {
    if n > 0 {
      FoldersMade(tree, path, n - 1);
    }
  }

  lemma {:induction false} FoldersAgain(tree: Tree, path: Path, k: nat, n: nat)
    requires k <= n <= |path|
    ensures WithFolders(WithFolders(tree, path, k), path, n) == WithFolders(tree, path, n)
    decreases n
  {
    if n == k {
      FoldersMade(tree, path, n);
      FoldersMade(WithFolders(tree, path, n), path, n);
    } else {
      FoldersAgain(tree, path, k, n - 1);
    }
  }

  lemma RenamedEnds(tree: Tree, m: Move)
    requires Apart(m) && m.source in tree
    ensures m.source !in Renamed(tree, m.source, m.destination) && m.destination in Renamed(tree, m.source, m.destination)
  {
    assert Relocated(m.source, m.source, m.destination) == m.destination;
  }

  lemma RemapTwice(assets: map<AssetId, Asset>, ws: WorkspaceId, m: Move)
    requires Apart(m)
    ensures Remap(Remap(assets, ws, m), ws, m) == Remap(assets, ws, m)
  {
    var once := Remap(assets, ws, m);
    forall a | a in assets ensures RemapAsset(once[a], ws, m) == once[a] {
      if assets[a].workspaceId == ws && Covers(m.source, assets[a].path) {
        var landed := Relocated(assets[a].path, m.source, m.destination);
        if Covers(m.source, landed) {
          Comparable(m.source, m.destination, landed);
        }
      }
    }
  }

  /** Two prefixes of one path are comparable. */
  lemma Comparable(a: Path, b: Path, path: Path)
    requires a <= path && b <= path
    ensures a <= b || b <= a
  {
    assert a == path[..|a|] && b == path[..|b|];
    if |a| <= |b| {
      assert b[..|a|] == a;
    } else {
      assert a[..|b|] == b;
    }
  }

  // ---------------------------------------------------------------- steps

  lemma StepFromMove(p: Process)
    requires Inv(p) && p.stage.AtMove?
    ensures Inv(Step(p)) && Outcome(Step(p)) == Outcome(p)
  {
  }

  /** A folder made on the way does not change what the move will do. */
  lemma FolderOnTheWay(tree: Tree, m: Move, n: nat)
    requires Apart(m) && m.source in tree && m.destination !in tree && !FileInWay(tree, m.destination)
    requires n < |m.destination|
    ensures var made := WithFolders(tree, m.destination, n);
            MoveTree(made, m) == MoveTree(tree, m) && m.source in made && m.destination !in made &&
            !FileInWay(made, m.destination) && WithFolders(made, m.destination, n) == made
  {
    hide Renamed, Kept, Landed;
    var made := WithFolders(tree, m.destination, n);
    FoldersMade(tree, m.destination, n);
    FoldersAgain(tree, m.destination, n, |m.destination| - 1);
    FoldersAgain(tree, m.destination, n, n);
  }

  lemma StepFolder(p: Process)
    requires Inv(p) && p.stage.MadeFolders? && p.stage.n + 1 < |OpOf(p).moves[OpOf(p).applied].destination|
    ensures Inv(Step(p)) && Outcome(Step(p)) == Outcome(p)
  {
    hide MoveTree, WithFolders, FileInWay;
    var op := OpOf(p);
    var m := op.moves[op.applied];
    var tree := p.disk.trees[op.workspaceId];
    FolderOnTheWay(tree, m, p.stage.n + 1);
    var made := WithFolders(tree, m.destination, p.stage.n + 1);
    assert p.disk.trees[op.workspaceId := made][op.workspaceId := MoveTree(tree, m).0] ==
           p.disk.trees[op.workspaceId := MoveTree(tree, m).0];
  }

  lemma StepRename(p: Process)
    requires Inv(p) && p.stage.MadeFolders? && p.stage.n + 1 >= |OpOf(p).moves[OpOf(p).applied].destination|
    ensures Inv(Step(p)) && Outcome(Step(p)) == Outcome(p)
  {
    var op := OpOf(p);
    var m := op.moves[op.applied];
    var tree := p.disk.trees[op.workspaceId];
    assert m.destination != [] by {
      assert m.destination == [] ==> m.destination <= m.source;
    }
    assert Parents(tree, m.destination) == tree;
    RenamedEnds(tree, m);
    var moved := Renamed(tree, m.source, m.destination);
    assert MoveTree(moved, m) == (moved, None) && MoveTree(tree, m) == (moved, None);
    assert p.disk.trees[op.workspaceId := moved][op.workspaceId := moved] == p.disk.trees[op.workspaceId := moved];
  }

  lemma StepAfter(p: Process)
    requires Inv(p) && (p.stage.MovedFile? || p.stage.RelinkedRows? || p.stage.RemappedAssets?)
    ensures Inv(Step(p)) && Outcome(Step(p)) == Outcome(p)
  {
    var op := OpOf(p);
    var m := op.moves[op.applied];
    var tree := p.disk.trees[op.workspaceId];
    assert MoveTree(tree, m) == (tree, None);
    assert p.disk.trees[op.workspaceId := tree] == p.disk.trees;
    if p.stage.RelinkedRows? {
      RemapTwice(p.disk.assets, op.workspaceId, m);
    }
  }

  lemma StepKeepsOutcome(p: Process)
    requires Inv(p) && !p.stage.Finished?
    ensures Inv(Step(p)) && Outcome(Step(p)) == Outcome(p)
  {
    hide Inv, Outcome;
    match p.stage
    case AtMove => StepFromMove(p);
    case MadeFolders(n) => StepMade(p);
    case MovedFile => StepAfter(p);
    case RelinkedRows => StepAfter(p);
    case RemappedAssets => StepAfter(p);
  }

  lemma StepMade(p: Process)
    requires Inv(p) && p.stage.MadeFolders?
    ensures Inv(Step(p)) && Outcome(Step(p)) == Outcome(p)
  {
    if p.stage.n + 1 < |OpOf(p).moves[OpOf(p).applied].destination| {
      StepFolder(p);
    } else {
      StepRename(p);
    }
  }

  lemma CrashKeepsOutcome(p: Process)
    requires Inv(p)
    ensures Inv(Crashed(p)) && Outcome(Crashed(p)) == Outcome(p)
  {
  }

  // ---------------------------------------------------------------- whole runs

  /** A run of steps with crashes among them. */
  function Play(p: Process, crashes: seq<bool>): Process
    decreases |crashes|
  {
    if crashes == [] || p.stage.Finished? then p
    else if crashes[0] then Play(Crashed(p), crashes[1..])
    else if p.o < |p.memory.operations| &&
            (p.stage.AtMove? || (OpOf(p).applied < |OpOf(p).moves| && OpOf(p).workspaceId in p.disk.trees))
    then Play(Step(p), crashes[1..])
    else p
  }

  lemma {:induction false} PlayKeepsOutcome(p: Process, crashes: seq<bool>)
    requires Inv(p)
    ensures Inv(Play(p, crashes)) && Outcome(Play(p, crashes)) == Outcome(p)
    decreases |crashes|
  {
    hide Outcome, Step, Between;
    if crashes != [] && !p.stage.Finished? {
      if crashes[0] {
        CrashKeepsOutcome(p);
        PlayKeepsOutcome(Crashed(p), crashes[1..]);
      } else {
        StepKeepsOutcome(p);
        PlayKeepsOutcome(Step(p), crashes[1..]);
      }
    }
  }

  function Rank(stage: Stage, folders: nat): nat {
    match stage
    case AtMove => folders + 6
    case MadeFolders(n) => if n <= folders then folders - n + 4 else 4
    case MovedFile => 3
    case RelinkedRows => 2
    case RemappedAssets => 1
    case Finished => 0
  }

  function FoldersLeft(p: Process): nat
    requires p.o < |p.memory.operations|
  {
    if OpOf(p).applied < |OpOf(p).moves| then |OpOf(p).moves[OpOf(p).applied].destination| else 0
  }

  function MovesLeft(p: Process): nat
    requires p.o < |p.memory.operations|
  {
    if OpOf(p).applied < |OpOf(p).moves| then |OpOf(p).moves| - OpOf(p).applied else 0
  }

  lemma StepProgresses(p: Process)
    requires Inv(p) && !p.stage.Finished? && Inv(Step(p))
    ensures MovesLeft(Step(p)) < MovesLeft(p) ||
            (MovesLeft(Step(p)) == MovesLeft(p) && FoldersLeft(Step(p)) == FoldersLeft(p) &&
             Rank(Step(p).stage, FoldersLeft(p)) < Rank(p.stage, FoldersLeft(p)))
  {
    hide MoveTree, WithFolders, FileInWay, Renamed, Relink, Remap;
  }

  /** Without a further crash the loop comes to its end. */
  ghost function RunOut(p: Process): (q: Process)
    requires Inv(p)
    ensures Inv(q) && q.stage.Finished? && Outcome(q) == Outcome(p) && q.disk == Outcome(p)
    decreases MovesLeft(p), Rank(p.stage, FoldersLeft(p))
  {
    if p.stage.Finished? then p
    else
      StepKeepsOutcome(p);
      StepProgresses(p);
      RunOut(Step(p))
  }

  /**
   From a batch journaled as moving, any number of crashes at any points, each followed by recovery, ends in the
   same files, identities, aliases, artifacts, number of applied moves and state as a run without a crash.
   */
  lemma CrashReplay(disk: Files, o: nat, crashes: seq<bool>)
    requires o < |disk.store.operations| && MovesApart(disk.store.operations[o])
    ensures Inv(Started(disk, o)) && Inv(Play(Started(disk, o), crashes))
    ensures RunOut(Play(Started(disk, o), crashes)).disk == MoveRest(disk, o)
    ensures RunOut(Started(disk, o)).disk == MoveRest(disk, o)
  {
    hide RunOut, Step;
    PlayKeepsOutcome(Started(disk, o), crashes);
  }

  // ---------------------------------------------------------------- the constructor

  /** Executing one operation leaves the others alone, and ends it. */
  lemma {:induction false} MoveRestFrame(w: Files, o: nat)
    requires o < |w.store.operations|
    ensures var n := MoveRest(w, o);
            |n.store.operations| == |w.store.operations| &&
            (n.store.operations[o].state == Completed || n.store.operations[o].state == Failed) &&
            n.store.operations[o].moves == w.store.operations[o].moves &&
            n.store.operations[o].workspaceId == w.store.operations[o].workspaceId &&
            n.store.leases == w.store.leases && n.store.nextId == w.store.nextId && n.trees.Keys == w.trees.Keys &&
            (forall k :: k in w.trees && k != w.store.operations[o].workspaceId ==> n.trees[k] == w.trees[k]) &&
            forall k :: 0 <= k < |w.store.operations| && k != o ==> n.store.operations[k] == w.store.operations[k]
    decreases |w.store.operations[o].moves| - w.store.operations[o].applied
  {
    var op := w.store.operations[o];
    if op.applied < |op.moves| && op.workspaceId in w.trees {
      var m := op.moves[op.applied];
      var (tree, error) := MoveTree(w.trees[op.workspaceId], m);
      if error.None? {
        MoveRestFrame(Files(Record(w.store, o), w.trees[op.workspaceId := tree], Remap(w.assets, op.workspaceId, m)), o);
      }
    }
  }

  lemma {:induction false} RecoverNothing(w: Files, from: nat)
    requires forall k :: from <= k < |w.store.operations| ==> w.store.operations[k].state != Moving
    ensures Recover(w, from) == w
    decreases |w.store.operations| - from
  {
    if from < |w.store.operations| {
      RecoverNothing(w, from + 1);
    }
  }

  lemma {:induction false} RecoverOne(w: Files, o: nat, from: nat)
    requires from <= o < |w.store.operations| && w.store.operations[o].state == Moving
    requires forall k :: from <= k < |w.store.operations| && k != o ==> w.store.operations[k].state != Moving
    ensures Recover(w, from) == MoveRest(w, o)
    decreases o - from
  {
    hide MoveRest;
    if from < o {
      RecoverOne(w, o, from + 1);
    } else {
      MoveRestFrame(w, o);
      RecoverNothing(MoveRest(w, o), o + 1);
    }
  }

  /** Opening the store after a crash amid one batch ends it as if nothing had happened. */
  lemma RestartFinishes(disk: Files, o: nat, crashes: seq<bool>)
    requires o < |disk.store.operations| && MovesApart(disk.store.operations[o]) && disk.store.operations[o].state == Moving
    requires forall k :: 0 <= k < |disk.store.operations| && k != o ==> disk.store.operations[k].state != Moving
    requires !Play(Started(disk, o), crashes).stage.Finished?
    ensures Recover(Play(Started(disk, o), crashes).disk, 0) == MoveRest(disk, o)
  {
    hide Step, MoveRest, Between;
    PlayKeepsOutcome(Started(disk, o), crashes);
    PlayOthers(Started(disk, o), crashes);
    RecoverOne(Play(Started(disk, o), crashes).disk, o, 0);
  }

  lemma StepOthers(p: Process)
    requires Inv(p) && !p.stage.Finished? && !Step(p).stage.Finished?
    ensures var n := Step(p).disk.store.operations;
            |n| == |p.disk.store.operations| && Step(p).o == p.o &&
            n[p.o].state == p.disk.store.operations[p.o].state &&
            forall k :: 0 <= k < |n| && k != p.o ==> n[k] == p.disk.store.operations[k]
  {
    hide MoveTree, WithFolders, FileInWay, Renamed, Relink, Remap;
    StepKeepsOutcome(p);
  }

  lemma {:induction false} PlayOthers(p: Process, crashes: seq<bool>)
    requires Inv(p) && !Play(p, crashes).stage.Finished?
    ensures var n := Play(p, crashes).disk.store.operations;
            Play(p, crashes).o == p.o && |n| == |p.disk.store.operations| &&
            n[p.o].state == p.disk.store.operations[p.o].state &&
            forall k :: 0 <= k < |n| && k != p.o ==> n[k] == p.disk.store.operations[k]
    decreases |crashes|
  {
    hide Step, Between;
    if crashes != [] && !p.stage.Finished? {
      if crashes[0] {
        CrashKeepsOutcome(p);
        PlayOthers(Crashed(p), crashes[1..]);
      } else {
        StepKeepsOutcome(p);
        assert Play(p, crashes) == Play(Step(p), crashes[1..]);
        assert !Step(p).stage.Finished?;
        StepOthers(p);
        PlayOthers(Step(p), crashes[1..]);
      }
    }
  }
}
