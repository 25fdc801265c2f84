/** The store of identities and batches, changed step by step as the source does. */
module FileMoveStore {
  import opened Common
  import opened FileMoveModel
  import opened FileMoveRows
  import opened FileMoveInvariant

  class FileMoves {
    var files: seq<Row>
    var operations: seq<Operation>
    var leases: map<string, Lease>
    var revision: nat
    var nextId: nat
    /** The workspaces' files, and the artifacts told of changes. */
    var trees: map<WorkspaceId, Tree>
    var assets: map<AssetId, Asset>
    /** The document last renamed into place. */
    var disk: Store

    function Memory(): Store
      reads this
    {
      Store(files, operations, leases, revision, nextId)
    }

    function Contents(): Files
      reads this
    {
      Files(Memory(), trees, assets)
    }

    method Save()
      modifies this`disk
      ensures disk == Memory()
    {
      disk := Memory();
    }

    // -------------------------------------------------------------- identities

    method Identify(ws: WorkspaceId, path: Path) returns (id: FileId)
      modifies this`files, this`nextId, this`disk
      ensures (Memory(), id) == FileMoveModel.Identify(old(Memory()), ws, path)
      ensures disk == old(disk) || disk == Memory()
    {
      for i := 0 to |files|
        invariant FindLive(files, ws, path) == FindLive(files[i..], ws, path)
      {
        assert files[i..][1..] == files[i + 1..];
        if LiveAt(files[i], ws, path) {
          return files[i].id;
        }
      }
      id := nextId;
      nextId := nextId + 1;
      files := files + [Row(id, ws, path, [], false)];
      Save();
    }

    method Lookup(ws: WorkspaceId, path: Path, fileId: Option<FileId>) returns (r: Result<Path, Error>)
      ensures r == Reference(Memory(), ws, path, fileId)
    {
      if fileId.Some? {
        for i := 0 to |files|
          invariant FindId(files, ws, fileId.value) == FindId(files[i..], ws, fileId.value)
        {
          assert files[i..][1..] == files[i + 1..];
          if files[i].workspaceId == ws && files[i].id == fileId.value && !files[i].deleted {
            return Ok(files[i].path);
          }
        }
        return Err(FileNotFound);
      }
      var found: seq<Row> := [];
      var i := |files|;
      while i > 0
        invariant 0 <= i <= |files| && found == Aliased(files[i..], ws, path)
      {
        i := i - 1;
        assert files[i..][1..] == files[i + 1..];
        if files[i].workspaceId == ws && path in files[i].aliases {
          found := [files[i]] + found;
        }
      }
      if |found| > 1 {
        return Err(AmbiguousReference);
      }
      if |found| == 1 {
        return if found[0].deleted then Err(FileNotFound) else Ok(found[0].path);
      }
      return Ok(path);
    }

    method MarkDeleted(ws: WorkspaceId, path: Path)
      modifies this`files, this`disk
      ensures Memory() == FileMoveModel.Delete(old(Memory()), ws, path) && disk == Memory()
    {
      for i := 0 to |files|
        invariant |files| == |old(files)|
        invariant forall k :: 0 <= k < |files| ==> files[k] == if k < i then Marked(old(files), ws, path)[k] else old(files)[k]
      {
        if files[i].workspaceId == ws && Covers(path, files[i].path) {
          files := files[i := files[i].(deleted := true)];
        }
      }
      assert files == Marked(old(files), ws, path);
      Save();
    }

    method ForgetWorkspace(ws: WorkspaceId)
      modifies this`files, this`operations, this`disk
      ensures Memory() == RemoveWorkspace(old(Memory()), ws) && disk == Memory()
    {
      for o := 0 to |operations|
        invariant unchanged(`files) && |operations| == |old(operations)|
        invariant forall k :: 0 <= k < |operations| ==>
                    operations[k] == if k < o then RemoveWorkspace(old(Memory()), ws).operations[k] else old(operations)[k]
      {
        if operations[o].workspaceId == ws && operations[o].state == Queued {
          operations := operations[o := operations[o].(state := Cancelled)];
        }
      }
      assert operations == RemoveWorkspace(old(Memory()), ws).operations;
      MarkDeleted(ws, []);
    }

    // -------------------------------------------------------------- request

    /** The destination to use, trying numbered names if both files are to be kept. */
    method ChooseDestination(occupied: set<Path>, destination: Path, folder: bool, keepBoth: bool)
      returns (r: Result<Path, Error>)
      ensures r == Free(occupied, destination, folder, keepBoth, 0, |occupied|)
    {
      var suffix := 0;
      while Candidate(destination, folder, suffix) in occupied && keepBoth && suffix < |occupied|
        invariant suffix <= |occupied|
        invariant Free(occupied, destination, folder, keepBoth, 0, |occupied|) ==
                  Free(occupied, destination, folder, keepBoth, suffix, |occupied|)
        decreases |occupied| - suffix
      {
        suffix := suffix + 1;
      }
      if Candidate(destination, folder, suffix) in occupied {
        return Err(DestinationExists);
      }
      return Ok(Candidate(destination, folder, suffix));
    }

    method PlanOne(ws: WorkspaceId, wishes: seq<Wish>, i: nat, keepBoth: bool, taken: set<Path>)
      returns (r: Result<Path, Error>)
      requires i < |wishes|
      ensures r == FileMoveModel.PlanOne(Contents(), ws, wishes, i, keepBoth, taken)
    {
      hide Overlaps, Free;
      var wish := wishes[i];
      var tree := Resolve(trees, ws, wish.source, false);
      if tree.Err? {
        return Err(tree.error);
      }
      if wish.fileId.Some? {
        var here := Lookup(ws, wish.source, wish.fileId);
        if here.Err? {
          return here;
        }
        if here.value != wish.source {
          return Err(FileChanged);
        }
      }
      var room := Resolve(trees, ws, wish.destination, true);
      if room.Err? {
        return Err(room.error);
      }
      if Overlaps(wishes, i) {
        return Err(InvalidMove);
      }
      r := ChooseDestination(tree.value.Keys + taken, wish.destination,
                             wish.source in tree.value && tree.value[wish.source].Folder?, keepBoth);
    }

    method Plan(ws: WorkspaceId, wishes: seq<Wish>, keepBoth: bool) returns (r: Result<seq<Move>, Error>)
      modifies this`files, this`nextId, this`disk
      ensures (Memory(), r) == FileMoveModel.Plan(old(Contents()), ws, wishes, 0, keepBoth, [])
    {
      hide FileMoveModel.PlanOne, FileMoveModel.Identify;
      var moves: seq<Move> := [];
      for i := 0 to |wishes|
        invariant unchanged(`trees, `assets, `operations, `leases, `revision)
        invariant FileMoveModel.Plan(old(Contents()), ws, wishes, 0, keepBoth, []) ==
                  FileMoveModel.Plan(Contents(), ws, wishes, i, keepBoth, moves)
      {
        var destination := PlanOne(ws, wishes, i, keepBoth, set m | m in moves :: m.destination);
        if destination.Err? {
          return Err(destination.error);
        }
        ghost var before := Contents();
        var id := Identify(ws, wishes[i].source);
        assert Contents() == before.(store := FileMoveModel.Identify(before.store, ws, wishes[i].source).0);
        moves := moves + [Move(wishes[i].source, destination.value, id)];
      }
      return Ok(moves);
    }

    method Request(ws: WorkspaceId, wishes: seq<Wish>, keepBoth: bool, busy: bool, now: int, list: Listing)
      returns (r: Result<OperationId, Error>)
      modifies this
      ensures (Contents(), r) == FileMoveModel.Request(old(Contents()), ws, wishes, keepBoth, busy, now, list)
    {
      hide FileMoveModel.Plan, FileMoveModel.Drain;
      if wishes == [] || |wishes| > MAX_MOVES {
        return Err(InvalidMove);
      }
      var planned := Plan(ws, wishes, keepBoth);
      if planned.Err? {
        return Err(planned.error);
      }
      var id := nextId;
      nextId := nextId + 1;
      operations := operations + [Operation(id, ws, planned.value, Queued, 0, None, None)];
      Save();
      if !busy {
        Drain(ws, now, list);
      }
      return Ok(id);
    }

    // -------------------------------------------------------------- execute

    method Recheck(o: nat) returns (r: Result<bool, Error>)
      requires o < |operations|
      ensures r == Check(Contents(), operations[o], 0)
    {
      hide Reference;
      var op := operations[o];
      for i := 0 to |op.moves|
        invariant Check(Contents(), op, 0) == Check(Contents(), op, i)
      {
        var m := op.moves[i];
        var tree := Resolve(trees, op.workspaceId, m.source, false);
        if tree.Err? {
          return Err(tree.error);
        }
        var here := Lookup(op.workspaceId, m.source, Some(m.fileId));
        if here.Err? {
          return Err(here.error);
        }
        if here.value != m.source {
          return Err(FileChanged);
        }
        var room := Resolve(trees, op.workspaceId, m.destination, true);
        if room.Err? {
          return Err(room.error);
        }
        if m.destination in room.value {
          return Err(DestinationExists);
        }
      }
      return Ok(true);
    }

    /** Every path at or below a source gets an identity, unless one of them is refused. */
    method Track(ws: WorkspaceId, listed: seq<Path>, moves: seq<Move>) returns (r: Result<bool, Error>)
      modifies this`files, this`nextId, this`disk
      ensures var paths := Tracked(listed, moves);
              Memory() == IdentifyAll(old(Memory()), ws, paths[..Legals(paths)]) &&
              r == if AllLegal(paths) then Ok(true) else Err(InvalidMove)
      ensures r.Ok? ==> Memory() == FileMoveModel.Track(old(Memory()), ws, listed, moves)
    {
      hide FileMoveModel.Identify, Legal;
      ghost var all := Tracked(listed, moves);
      TrackingIs(Memory(), ws, all);
      TrackIsAll(Memory(), ws, listed, moves);
      assert all[..|all|] == all;
      for j := 0 to |moves|
        invariant unchanged(`operations, `leases, `revision)
        invariant Tracking(old(Memory()), ws, all) == Tracking(Memory(), ws, Tracked(listed, moves[j..]))
      {
        var paths := Under(listed, moves[j].source);
        ghost var rest := Tracked(listed, moves[j + 1..]);
        assert moves[j..][1..] == moves[j + 1..];
        for i := 0 to |paths|
          invariant unchanged(`operations, `leases, `revision)
          invariant Tracking(old(Memory()), ws, all) == Tracking(Memory(), ws, paths[i..] + rest)
        {
          assert (paths[i..] + rest)[0] == paths[i] && (paths[i..] + rest)[1..] == paths[i + 1..] + rest;
          if !Legal(paths[i]) {
            return Err(InvalidMove);
          }
          var _ := Identify(ws, paths[i]);
        }
        assert paths[|paths|..] + rest == rest;
      }
      return Ok(true);
    }

    /** The loop over rows after a rename. */
    method FollowRename(ws: WorkspaceId, m: Move)
      modifies this`files
      ensures files == Relink(old(files), ws, m)
    {
      for i := 0 to |files|
        invariant |files| == |old(files)|
        invariant forall k :: 0 <= k < |files| ==> files[k] == if k < i then RelinkRow(old(files)[k], ws, m) else old(files)[k]
      {
        var row := files[i];
        if row.workspaceId == ws && !row.deleted && Covers(m.source, row.path) {
          if row.path !in row.aliases {
            row := row.(aliases := row.aliases + [row.path]);
          }
          files := files[i := row.(path := Relocated(row.path, m.source, m.destination))];
        }
      }
    }

    method Abandon(o: nat, error: Error)
      requires o < |operations|
      modifies this`operations, this`revision, this`disk
      ensures Memory() == Fail(old(Memory()), o, error) && disk == Memory()
    {
      var op := operations[o].(state := Failed, error := Some(error));
      if op.applied != 0 {
        revision := revision + 1;
        op := op.(revision := Some(revision));
      }
      operations := operations[o := op];
      Save();
    }

    /** One turn of the loop over moves: rename, carry identities and artifacts along, record, save. */
    method MoveNext(o: nat) returns (ended: bool)
      requires o < |operations| && operations[o].applied < |operations[o].moves|
      modifies this
      ensures |operations| == |old(operations)| && disk == Memory()
      ensures ended ==> Contents() == MoveRest(old(Contents()), o)
      ensures !ended ==> MoveRest(Contents(), o) == MoveRest(old(Contents()), o)
      ensures !ended ==> operations[o] == old(operations)[o].(applied := old(operations)[o].applied + 1)
    {
      hide Renamed, Parents, FileInWay, Relink, Remap;
      var op := operations[o];
      var m := op.moves[op.applied];
      if op.workspaceId !in trees {
        Abandon(o, WorkspaceNotFound);
        return true;
      }
      SameTree(op.workspaceId);
      var tree := trees[op.workspaceId];
      if m.source in tree {
        if m.destination in tree {
          Abandon(o, DestinationExists);
          return true;
        }
        if FileInWay(tree, m.destination) {
          Abandon(o, NotAFolder);
          return true;
        }
        tree := Renamed(Parents(tree, m.destination), m.source, m.destination);
      } else if m.destination !in tree {
        Abandon(o, FileNotFound);
        return true;
      }
      trees := trees[op.workspaceId := tree];
      FollowRename(op.workspaceId, m);
      assets := Remap(assets, op.workspaceId, m);
      operations := operations[o := op.(applied := op.applied + 1)];
      Save();
      return false;
    }

    method MoveOn(o: nat)
      requires o < |operations|
      modifies this
      ensures Contents() == MoveRest(old(Contents()), o) && disk == Memory()
    {
      hide MoveTree, Relink, Remap;
      while operations[o].applied < |operations[o].moves|
        invariant o < |operations|
        invariant MoveRest(old(Contents()), o) == MoveRest(Contents(), o)
        decreases |operations[o].moves| - operations[o].applied
      {
        var ended := MoveNext(o);
        if ended {
          return;
        }
      }
      revision := revision + 1;
      operations := operations[o := operations[o].(state := Completed, revision := Some(revision))];
      Save();
    }

    lemma SameTree(ws: WorkspaceId)
      requires ws in trees
      ensures trees == trees[ws := trees[ws]]
    {
    }

    method Execute(o: nat, list: Listing)
      requires o < |operations|
      modifies this
      ensures Contents() == FileMoveModel.Execute(old(Contents()), o, list)
      ensures |operations| == |old(operations)|
    {
      hide Check, FileMoveModel.Track, MoveRest, IdentifyAll, Tracked, AllLegal;
      var op := operations[o];
      var checked := Recheck(o);
      if checked.Err? {
        Abandon(o, checked.error);
        return;
      }
      if op.workspaceId !in trees {
        return;
      }
      var tracked := Track(op.workspaceId, list(trees[op.workspaceId]), op.moves);
      if tracked.Err? {
        Abandon(o, tracked.error);
        return;
      }
      operations := operations[o := op.(state := Moving)];
      Save();
      MoveOn(o);
    }

    method Drain(ws: WorkspaceId, now: int, list: Listing)
      modifies this
      ensures Contents() == FileMoveModel.Drain(old(Contents()), ws, 0, now, list)
    {
      hide FileMoveModel.Execute, Leased;
      var count := |operations|;
      for o := 0 to count
        invariant |operations| == count
        invariant FileMoveModel.Drain(old(Contents()), ws, 0, now, list) ==
                  FileMoveModel.Drain(Contents(), ws, o, now, list)
      {
        if operations[o].workspaceId == ws && operations[o].state == Queued {
          if Leased(Memory(), operations[o], now) {
            return;
          }
          Execute(o, list);
        }
      }
    }

    // -------------------------------------------------------------- undo, cancel, restart

    method Find(ws: WorkspaceId, id: OperationId) returns (o: Option<nat>)
      ensures o == FindOperation(operations, ws, id, 0)
      ensures o.Some? ==> o.value < |operations|
    {
      for i := 0 to |operations|
        invariant FindOperation(operations, ws, id, 0) == FindOperation(operations, ws, id, i)
      {
        if operations[i].workspaceId == ws && operations[i].id == id {
          return Some(i);
        }
      }
      return None;
    }

    method Undo(ws: WorkspaceId, id: OperationId, busy: bool, now: int, list: Listing) returns (r: Result<OperationId, Error>)
      modifies this
      ensures (Contents(), r) == FileMoveModel.Undo(old(Contents()), ws, id, busy, now, list)
    {
      hide FileMoveModel.Request;
      var o := Find(ws, id);
      if o.None? || operations[o.value].state != Completed {
        return Err(MoveNotCompleted);
      }
      r := Request(ws, Reversed(operations[o.value].moves), false, busy, now, list);
    }

    method Cancel(ws: WorkspaceId, id: OperationId) returns (r: Result<OperationId, Error>)
      modifies this`operations, this`disk
      ensures (Contents(), r) == FileMoveModel.Cancel(old(Contents()), ws, id)
    {
      var o := Find(ws, id);
      if o.None? || operations[o.value].state != Queued {
        return Err(MoveNotPending);
      }
      operations := operations[o.value := operations[o.value].(state := Cancelled)];
      Save();
      return Ok(id);
    }

    /** A new process: the saved document is read, and interrupted batches are finished. */
    constructor (saved: Files)
      ensures Contents() == Recover(saved, 0)
    {
      files, operations, leases := saved.store.files, saved.store.operations, saved.store.leases;
      revision, nextId, disk := saved.store.revision, saved.store.nextId, saved.store;
      trees, assets := saved.trees, saved.assets;
      new;
      hide MoveRest;
      var count := |operations|;
      for o := 0 to count
        invariant |operations| == count && Recover(saved, 0) == Recover(Contents(), o)
      {
        if operations[o].state == Moving {
          MoveOn(o);
        }
      }
    }
  }
}
