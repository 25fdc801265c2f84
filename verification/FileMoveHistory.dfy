/** Workspace files over any use: what every sequence of calls keeps, and what agents are told about moved files. */
module FileMoveHistory {
  import opened Common
  import opened FileMoveModel
  import opened FileMoveCrash
  import opened FileMoveTrees
  import opened FileMoveRows
  import opened FileMoveInvariant
  import opened FileMoveStops

  /**
   The public calls. `Identify` is asked for paths that exist; `Erase` is told of a path its caller removed. `Die` is a
   call during which the process dies, and the start of the next one; a call that saves once dies before it saves.
   Dying after the removal of files and before `Erase` is in `EraseUntoldIff`.
   */
  datatype Command =
    | Ask(ws: WorkspaceId, wishes: seq<Wish>, keepBoth: bool, busy: bool, now: int)
    | TakeBack(ws: WorkspaceId, id: OperationId, busy: bool, now: int)
    | Withdraw(ws: WorkspaceId, id: OperationId)
    | Attend(ws: WorkspaceId, now: int)
    | Know(ws: WorkspaceId, path: Path)
    | Erase(ws: WorkspaceId, path: Path)
    | Forget(ws: WorkspaceId)
    | Reopen
    | Die(call: Command, halt: Halt)

  /** What is on disk if the process dies there. */
  function LeftBy(w: Files, c: Command, halt: Halt, list: Listing): Files {
    match c
    case Ask(ws, wishes, keepBoth, busy, now) => LeftByRequest(w, ws, wishes, keepBoth, busy, now, list, halt)
    case TakeBack(ws, id, busy, now) =>
      (match FindOperation(w.store.operations, ws, id, 0)
       case None => w
       case Some(o) =>
         if o >= |w.store.operations| || w.store.operations[o].state != Completed then w
         else LeftByRequest(w, ws, Reversed(w.store.operations[o].moves), false, busy, now, list, halt))
    case Attend(ws, now) => if halt.InBatch? then LeftByDrain(w, ws, 0, now, list, halt.batches, halt.point) else w
    case _ => w
  }

  function Apply(w: Files, c: Command, list: Listing): Files {
    match c
    case Ask(ws, wishes, keepBoth, busy, now) => Request(w, ws, wishes, keepBoth, busy, now, list).0
    case TakeBack(ws, id, busy, now) => Undo(w, ws, id, busy, now, list).0
    case Withdraw(ws, id) => Cancel(w, ws, id).0
    case Attend(ws, now) => Drain(w, ws, 0, now, list)
    case Know(ws, path) =>
      if ws in w.trees && path in w.trees[ws] then w.(store := Identify(w.store, ws, path).0) else w
    case Erase(ws, path) =>
      if ws in w.trees then w.(store := Delete(w.store, ws, path), trees := w.trees[ws := Without(w.trees[ws], path)]) else w
    case Forget(ws) => w.(store := RemoveWorkspace(w.store, ws))
    case Reopen => Recover(w, 0)
    case Die(call, halt) => Recover(LeftBy(w, call, halt, list), 0)
  }

  function ApplyAll(w: Files, commands: seq<Command>, list: Listing): Files
    decreases |commands|
  {
    if commands == [] then w else ApplyAll(Apply(w, commands[0], list), commands[1..], list)
  }

  // ---------------------------------------------------------------- identities stay where their files are

  lemma EraseGood(w: Files, ws: WorkspaceId, path: Path)
    requires Good(w) && ws in w.trees
    ensures Good(Apply(w, Erase(ws, path), _ => []))
  {
    MarkedGood(w, ws, path);
    var marked := w.(store := Delete(w.store, ws, path));
    var tree := Without(w.trees[ws], path);
    assert Rooted(marked.store.files, ws, w.trees[ws]);
    var n := marked.(trees := w.trees[ws := tree]);
    forall v | v in n.trees ensures Rooted(n.store.files, v, n.trees[v]) && Closed(n.trees[v]) {
      assert Rooted(marked.store.files, v, w.trees[v]) && Closed(w.trees[v]);
    }
  }

  lemma DieGood(w: Files, c: Command, halt: Halt, list: Listing)
    requires Good(w) && Lists(list)
    ensures Good(Recover(LeftBy(w, c, halt, list), 0))
  {
    hide Good, Lists, LeftByRequest, LeftByDrain, Recover, FindOperation, Reversed;
    NothingToRecover(w, 0);
    match c
    case Ask(ws, wishes, keepBoth, busy, now) => StoppedRequestGood(w, ws, wishes, keepBoth, busy, now, list, halt);
    case TakeBack(ws, id, busy, now) =>
      var found := FindOperation(w.store.operations, ws, id, 0);
      if found.Some? && found.value < |w.store.operations| {
        StoppedRequestGood(w, ws, Reversed(w.store.operations[found.value].moves), false, busy, now, list, halt);
      }
    case Attend(ws, now) =>
      if halt.InBatch? {
        StoppedDrainGood(w, ws, 0, now, list, halt.batches, halt.point);
      }
    case _ =>
  }

  lemma StepGood(w: Files, c: Command, list: Listing)
    requires Good(w) && Lists(list)
    ensures Good(Apply(w, c, list))
  {
    match c
    case Ask(ws, wishes, keepBoth, busy, now) =>
      hide Good, Request, Lists;
      RequestGood(w, ws, wishes, keepBoth, busy, now, list);
    case TakeBack(ws, id, busy, now) =>
      hide Good, Undo, Lists;
      UndoGood(w, ws, id, busy, now, list);
    case Withdraw(ws, id) => CancelGood(w, ws, id);
    case Attend(ws, now) => DrainGood(w, ws, 0, now, list);
    case Know(ws, path) =>
      if ws in w.trees && path in w.trees[ws] {
        IdentifyGood(w, ws, path);
      }
    case Erase(ws, path) =>
      if ws in w.trees {
        EraseGood(w, ws, path);
      }
    case Forget(ws) => RemoveWorkspaceGood(w, ws);
    case Reopen => NothingToRecover(w, 0);
    case Die(call, halt) => DieGood(w, call, halt, list);
  }

  /** However the store is used, and wherever a process dies in a call, every live identity names a path that is there. */
  lemma {:induction false} AlwaysGood(w: Files, commands: seq<Command>, list: Listing)
    requires Good(w) && Lists(list)
    ensures Good(ApplyAll(w, commands, list))
    decreases |commands|
  {
    hide Good, Lists, Apply;
    if commands != [] {
      StepGood(w, commands[0], list);
      AlwaysGood(Apply(w, commands[0], list), commands[1..], list);
    }
  }

  const EMPTY_STORE := Store([], [], map[], 0, 0)

  ghost function Listed(paths: set<Path>): (list: seq<Path>)
    ensures forall p :: p in list <==> p in paths
    decreases |paths|
  {
    if paths == {} then []
    else
      var p :| p in paths;
      [p] + Listed(paths - {p})
  }

  /** In particular from a new store over any trees. */
  lemma FromNothing(trees: map<WorkspaceId, Tree>, assets: map<AssetId, Asset>, commands: seq<Command>) returns (list: Listing)
    requires TreesOk(trees)
    ensures Lists(list) && Good(ApplyAll(Files(EMPTY_STORE, trees, assets), commands, list))
  {
    ghost var listing: Listing := (tree: Tree) => Listed(tree.Keys);
    list := listing;
    assert Good(Files(EMPTY_STORE, trees, assets));
    AlwaysGood(Files(EMPTY_STORE, trees, assets), commands, list);
  }

  // ---------------------------------------------------------------- what agents are told

  /** A batch that moved something is told under its revision, which is not above the store's. */
  ghost predicate ToldOk(op: Operation, revision: nat) {
    (op.revision.Some? <==> op.applied > 0) && (op.revision.Some? ==> op.revision.value <= revision) &&
    (op.applied > 0 ==> op.state == Completed || op.state == Failed)
  }

  ghost predicate ToldAll(s: Store) {
    forall k :: 0 <= k < |s.operations| ==> ToldOk(s.operations[k], s.revision)
  }

  /** The revisions given out between two states are new, and batches that were told stay. */
  ghost predicate Later(s: Store, t: Store) {
    s.revision <= t.revision && |s.operations| <= |t.operations| &&
    (forall k :: 0 <= k < |s.operations| && s.operations[k].revision.Some? ==> t.operations[k] == s.operations[k]) &&
    forall k :: 0 <= k < |t.operations| && t.operations[k].revision.Some? && !ToldIn(s, k) ==>
      t.operations[k].revision.value > s.revision
  }

  predicate ToldIn(s: Store, k: nat) {
    k < |s.operations| && s.operations[k].revision.Some?
  }

  lemma LaterTrans(a: Store, b: Store, c: Store)
    requires Later(a, b) && Later(b, c)
    ensures Later(a, c)
  {
    forall k: nat | k < |c.operations| && c.operations[k].revision.Some? && !ToldIn(a, k)
      ensures c.operations[k].revision.value > a.revision
    {
      if ToldIn(b, k) {
        assert c.operations[k] == b.operations[k];
      }
    }
  }

  /** One batch comes to its end. */
  lemma {:induction false} MoveRestTells(w: Files, o: nat)
    requires o < |w.store.operations| && w.store.operations[o].revision.None?
    requires |w.store.operations[o].moves| > 0
    requires forall k :: 0 <= k < |w.store.operations| && k != o ==> ToldOk(w.store.operations[k], w.store.revision)
    ensures ToldAll(MoveRest(w, o).store) && Later(w.store, MoveRest(w, o).store)
    decreases |w.store.operations[o].moves| - w.store.operations[o].applied
  {
    hide MoveTree, Relink, Remap;
    var op := w.store.operations[o];
    if op.applied < |op.moves| && op.workspaceId in w.trees {
      var m := op.moves[op.applied];
      var (tree, error) := MoveTree(w.trees[op.workspaceId], m);
      if error.None? {
        var next := Files(Record(w.store, o), w.trees[op.workspaceId := tree], Remap(w.assets, op.workspaceId, m));
        MoveRestTells(next, o);
        assert Later(w.store, next.store);
        LaterTrans(w.store, next.store, MoveRest(next, o).store);
      }
    }
  }

  lemma LaterSelf(s: Store)
    ensures Later(s, s)
  {
  }

  lemma ExecuteTells(w: Files, o: nat, list: Listing)
    requires Good(w) && Lists(list) && ToldAll(w.store) && o < |w.store.operations| && w.store.operations[o].state == Queued
    ensures ToldAll(Execute(w, o, list).store) && Later(w.store, Execute(w, o, list).store)
  {
    hide Good, Lists, MoveRest, Check, Track, IdentifyAll;
    var op := w.store.operations[o];
    assert op.applied == 0 && |op.moves| > 0 by {
      QueuedIsNew(w, o);
    }
    assert op.revision.None?;
    match Check(w, op, 0) {
      case Err(_) =>
      case Ok(_) =>
        if op.workspaceId in w.trees && !AllLegal(Tracked(list(w.trees[op.workspaceId]), op.moves)) {
          var paths := Tracked(list(w.trees[op.workspaceId]), op.moves);
          var s := IdentifyAll(w.store, op.workspaceId, paths[..Legals(paths)]);
          IllegalGood(w, o, list);
          FailTells(w.store, s, o);
        } else if op.workspaceId in w.trees {
          var tracked := Track(w.store, op.workspaceId, list(w.trees[op.workspaceId]), op.moves);
          TrackKeepsRevision(w.store, op.workspaceId, list(w.trees[op.workspaceId]), op.moves);
          var ready := w.(store := SetOperation(tracked, o, op.(state := Moving)));
          MoveRestTells(ready, o);
          assert Later(w.store, ready.store);
          LaterTrans(w.store, ready.store, MoveRest(ready, o).store);
        }
    }
  }

  lemma FailTells(s: Store, n: Store, o: nat)
    requires ToldAll(s) && MoreIdentities(s, n) && o < |s.operations| && s.operations[o].applied == 0
    ensures ToldAll(Fail(n, o, InvalidMove)) && Later(s, Fail(n, o, InvalidMove))
  {
  }

  lemma QueuedIsNew(w: Files, o: nat)
    requires Good(w) && o < |w.store.operations|
    ensures w.store.operations[o].state == Queued ==> w.store.operations[o].applied == 0
    ensures |w.store.operations[o].moves| > 0 && w.store.operations[o].state != Moving
  {
    assert OperationOk(w.store.operations[o]);
  }

  lemma {:induction false} IdentifyAllKeepsRevision(s: Store, ws: WorkspaceId, paths: seq<Path>)
    ensures IdentifyAll(s, ws, paths).revision == s.revision
    decreases |paths|
  {
    if paths != [] {
      IdentifyAllKeepsRevision(Identify(s, ws, paths[0]).0, ws, paths[1..]);
    }
  }

  lemma {:induction false} TrackKeepsRevision(s: Store, ws: WorkspaceId, listed: seq<Path>, moves: seq<Move>)
    ensures Track(s, ws, listed, moves).revision == s.revision
    decreases |moves|
  {
    if moves != [] {
      IdentifyAllKeepsRevision(s, ws, Under(listed, moves[0].source));
      TrackKeepsRevision(IdentifyAll(s, ws, Under(listed, moves[0].source)), ws, listed, moves[1..]);
    }
  }

  lemma {:induction false} DrainTells(w: Files, ws: WorkspaceId, o: nat, now: int, list: Listing)
    requires Good(w) && Lists(list) && ToldAll(w.store)
    ensures ToldAll(Drain(w, ws, o, now, list).store) && Later(w.store, Drain(w, ws, o, now, list).store)
    decreases |w.store.operations| - o
  {
    hide Good, Lists, ToldAll, Later, Execute, Leased;
    LaterSelf(w.store);
    if o < |w.store.operations| {
      var op := w.store.operations[o];
      if op.workspaceId != ws || op.state != Queued {
        DrainTells(w, ws, o + 1, now, list);
      } else if !Leased(w.store, op, now) {
        ExecuteGood(w, o, list);
        ExecuteTells(w, o, list);
        var next := Execute(w, o, list);
        DrainTells(next, ws, o + 1, now, list);
        LaterTrans(w.store, next.store, Drain(next, ws, o + 1, now, list).store);
      }
    }
  }

  lemma {:induction false} PlanKeepsRevision(w: Files, ws: WorkspaceId, wishes: seq<Wish>, i: nat, keepBoth: bool, moves: seq<Move>)
    requires i <= |wishes|
    ensures Plan(w, ws, wishes, i, keepBoth, moves).0.revision == w.store.revision
    ensures Plan(w, ws, wishes, i, keepBoth, moves).0.operations == w.store.operations
    decreases |wishes| - i
  {
    hide PlanOne;
    if i < |wishes| {
      var planned := PlanOne(w, ws, wishes, i, keepBoth, set m | m in moves :: m.destination);
      if planned.Ok? {
        var (s, id) := Identify(w.store, ws, wishes[i].source);
        PlanKeepsRevision(w.(store := s), ws, wishes, i + 1, keepBoth, moves + [Move(wishes[i].source, planned.value, id)]);
      }
    }
  }

  lemma RequestTells(w: Files, ws: WorkspaceId, wishes: seq<Wish>, keepBoth: bool, busy: bool, now: int, list: Listing)
    requires Good(w) && Lists(list) && ToldAll(w.store)
    ensures var n := Request(w, ws, wishes, keepBoth, busy, now, list).0; ToldAll(n.store) && Later(w.store, n.store)
  {
    hide Good, Lists, Drain, Enqueue;
    var (queued, reply) := Enqueue(w, ws, wishes, keepBoth);
    EnqueueTells(w, ws, wishes, keepBoth);
    if reply.Ok? && !busy {
      EnqueueGood(w, ws, wishes, keepBoth);
      DrainTells(queued, ws, 0, now, list);
      LaterTrans(w.store, queued.store, Drain(queued, ws, 0, now, list).store);
    }
  }

  lemma MoreTells(s: Store, n: Store)
    requires MoreIdentities(s, n) && ToldAll(s)
    ensures ToldAll(n) && Later(s, n)
  {
  }

  lemma {:induction false} StoppedDrainTells(w: Files, ws: WorkspaceId, o: nat, now: int, list: Listing, batches: nat, point: Point)
    requires Good(w) && Lists(list) && ToldAll(w.store)
    ensures var n := Recover(LeftByDrain(w, ws, o, now, list, batches, point), 0); ToldAll(n.store) && Later(w.store, n.store)
    decreases |w.store.operations| - o
  {
    hide Good, Lists, ToldAll, Later, Execute, Leased, LeftByExecute, Recover;
    LaterSelf(w.store);
    NothingToRecover(w, 0);
    if o < |w.store.operations| {
      var op := w.store.operations[o];
      if op.workspaceId != ws || op.state != Queued {
        StoppedDrainTells(w, ws, o + 1, now, list, batches, point);
      } else if !Leased(w.store, op, now) {
        ExecuteTells(w, o, list);
        if batches > 0 {
          ExecuteGood(w, o, list);
          var next := Execute(w, o, list);
          StoppedDrainTells(next, ws, o + 1, now, list, batches - 1, point);
          LaterTrans(w.store, next.store, Recover(LeftByDrain(next, ws, o + 1, now, list, batches - 1, point), 0).store);
        } else {
          StoppedBatch(w, o, list, point);
          var n := Recover(LeftByExecute(w, o, list, point), 0);
          if n != Execute(w, o, list) {
            MoreTells(w.store, n.store);
          }
        }
      }
    }
  }

  lemma StoppedRequestTells(w: Files, ws: WorkspaceId, wishes: seq<Wish>, keepBoth: bool, busy: bool, now: int, list: Listing,
                            halt: Halt)
    requires Good(w) && Lists(list) && ToldAll(w.store)
    ensures var n := Recover(LeftByRequest(w, ws, wishes, keepBoth, busy, now, list, halt), 0);
            ToldAll(n.store) && Later(w.store, n.store)
  {
    hide Good, Lists, LeftByDrain, LeftByPlan, Recover, ToldAll, Later, Enqueue;
    match halt {
      case Planning(saved) =>
        LaterSelf(w.store);
        NothingToRecover(w, 0);
        StoppedPlan(w, ws, wishes, 0, keepBoth, [], saved);
        var s := LeftByPlan(w, ws, wishes, 0, keepBoth, [], saved);
        NothingToRecover(w.(store := s), 0);
        MoreTells(w.store, s);
      case InBatch(batches, point) =>
        var queued := Enqueue(w, ws, wishes, keepBoth).0;
        EnqueueGood(w, ws, wishes, keepBoth);
        EnqueueTells(w, ws, wishes, keepBoth);
        NothingToRecover(queued, 0);
        StoppedDrainTells(queued, ws, 0, now, list, batches, point);
        LaterTrans(w.store, queued.store, Recover(LeftByDrain(queued, ws, 0, now, list, batches, point), 0).store);
    }
  }

  lemma EnqueueTells(w: Files, ws: WorkspaceId, wishes: seq<Wish>, keepBoth: bool)
    requires ToldAll(w.store)
    ensures var n := Enqueue(w, ws, wishes, keepBoth).0; ToldAll(n.store) && Later(w.store, n.store)
  {
    hide Plan;
    PlanKeepsRevision(w, ws, wishes, 0, keepBoth, []);
  }

  lemma DieTells(w: Files, c: Command, halt: Halt, list: Listing)
    requires Good(w) && Lists(list) && ToldAll(w.store)
    ensures var n := Recover(LeftBy(w, c, halt, list), 0); ToldAll(n.store) && Later(w.store, n.store)
  {
    hide Good, Lists, LeftByRequest, LeftByDrain, Recover, FindOperation, Reversed, ToldAll, Later;
    LaterSelf(w.store);
    NothingToRecover(w, 0);
    match c
    case Ask(ws, wishes, keepBoth, busy, now) => StoppedRequestTells(w, ws, wishes, keepBoth, busy, now, list, halt);
    case TakeBack(ws, id, busy, now) =>
      var found := FindOperation(w.store.operations, ws, id, 0);
      if found.Some? && found.value < |w.store.operations| {
        StoppedRequestTells(w, ws, Reversed(w.store.operations[found.value].moves), false, busy, now, list, halt);
      }
    case Attend(ws, now) =>
      if halt.InBatch? {
        StoppedDrainTells(w, ws, 0, now, list, halt.batches, halt.point);
      }
    case _ =>
  }

  lemma StepTells(w: Files, c: Command, list: Listing)
    requires Good(w) && Lists(list) && ToldAll(w.store)
    ensures ToldAll(Apply(w, c, list).store) && Later(w.store, Apply(w, c, list).store)
  {
    hide Good, Lists, Request, Drain, Recover, Marked;
    LaterSelf(w.store);
    match c
    case Ask(ws, wishes, keepBoth, busy, now) => RequestTells(w, ws, wishes, keepBoth, busy, now, list);
    case TakeBack(ws, id, busy, now) =>
      var found := FindOperation(w.store.operations, ws, id, 0);
      if found.Some? && found.value < |w.store.operations| {
        RequestTells(w, ws, Reversed(w.store.operations[found.value].moves), false, busy, now, list);
      }
    case Withdraw(ws, id) =>
    case Attend(ws, now) => DrainTells(w, ws, 0, now, list);
    case Know(ws, path) =>
    case Erase(ws, path) =>
    case Forget(ws) =>
    case Reopen => NothingToRecover(w, 0);
    case Die(call, halt) => DieTells(w, call, halt, list);
  }

  /** `context`: the revision, and the batches of a workspace told since another one. */
  function Context(s: Store, ws: WorkspaceId, since: nat): (nat, set<nat>) {
    (s.revision, set k | 0 <= k < |s.operations| && s.operations[k].workspaceId == ws &&
                         s.operations[k].revision.Some? && s.operations[k].revision.value > since)
  }

  /**
   An agent that asks each time with the revision it was told last is told of every batch that moved something, once:
   what is new since then is just what had moved nothing then.
   */
  lemma ToldExactlyOnce(w: Files, commands: seq<Command>, list: Listing, ws: WorkspaceId)
    requires Good(w) && Lists(list) && ToldAll(w.store)
    ensures var t := ApplyAll(w, commands, list).store; var (revision, _) := Context(w.store, ws, 0);
            forall k :: k in Context(t, ws, revision).1 <==>
              0 <= k < |t.operations| && t.operations[k].workspaceId == ws && t.operations[k].applied > 0 &&
              !(k < |w.store.operations| && w.store.operations[k].applied > 0)
  {
    var t := ApplyAll(w, commands, list).store;
    AlwaysTells(w, commands, list);
    forall k | 0 <= k < |t.operations| && t.operations[k].applied > 0
      ensures t.operations[k].revision.value > w.store.revision <==>
              !(k < |w.store.operations| && w.store.operations[k].applied > 0)
    {
      assert ToldOk(t.operations[k], t.revision);
      if k < |w.store.operations| {
        assert ToldOk(w.store.operations[k], w.store.revision);
      }
    }
  }

  lemma {:induction false} AlwaysTells(w: Files, commands: seq<Command>, list: Listing)
    requires Good(w) && Lists(list) && ToldAll(w.store)
    ensures var t := ApplyAll(w, commands, list).store; ToldAll(t) && Later(w.store, t)
    decreases |commands|
  {
    hide Good, Lists, Apply, ToldAll, Later;
    LaterSelf(w.store);
    if commands != [] {
      var next := Apply(w, commands[0], list);
      StepGood(w, commands[0], list);
      StepTells(w, commands[0], list);
      AlwaysTells(next, commands[1..], list);
      LaterTrans(w.store, next.store, ApplyAll(next, commands[1..], list).store);
    }
  }
}
