/**
 Batch moves of workspace files with durable identities.

 Paths are sequences of case-folded names, so `covers` is the prefix relation; a workspace's files are one map from
 paths to nodes.
 */
module FileMoveModel {
  import opened Common

  type Name = string
  type Path = seq<Name>
  type WorkspaceId = nat
  type FileId = nat
  type AssetId = nat
  type OperationId = nat

  datatype Node = File(content: nat) | Folder
  type Tree = map<Path, Node>

  datatype Row = Row(id: FileId, workspaceId: WorkspaceId, path: Path, aliases: seq<Path>, deleted: bool)

  datatype Error =
    InvalidMove | FileChanged | FileNotFound | DestinationExists | AmbiguousReference | WorkspaceNotFound |
    NotAFolder | MoveNotPending | MoveNotCompleted

  /** What a caller asks for, and what is planned for it. */
  datatype Wish = Wish(source: Path, destination: Path, fileId: Option<FileId>)
  datatype Move = Move(source: Path, destination: Path, fileId: FileId)

  datatype OpState = Queued | Moving | Completed | Failed | Cancelled
  datatype Operation = Operation(id: OperationId, workspaceId: WorkspaceId, moves: seq<Move>, state: OpState,
                                 applied: nat, revision: Option<nat>, error: Option<Error>)

  datatype Lease = Lease(workspaceId: WorkspaceId, path: Path, until: int)

  /** The document saved by `#save`. */
  datatype Store = Store(files: seq<Row>, operations: seq<Operation>, leases: map<string, Lease>, revision: nat,
                         nextId: nat)

  datatype Asset = Asset(workspaceId: WorkspaceId, path: Path)

  /** The store with the trees it moves files in, and the artifacts that follow the files. */
  datatype Files = Files(store: Store, trees: map<WorkspaceId, Tree>, assets: map<AssetId, Asset>)

  predicate Covers(parent: Path, child: Path) {
    parent <= child
  }

  predicate LegalName(name: Name) {
    name != "" && name != "." && name != ".." && !(".workagent" <= name) && ':' !in name && '/' !in name && '\\' !in name
  }

  /** What `resolve` accepts. */
  predicate Legal(path: Path) {
    path != [] && forall i :: 0 <= i < |path| ==> LegalName(path[i])
  }

  function Resolve(trees: map<WorkspaceId, Tree>, ws: WorkspaceId, path: Path, missing: bool): Result<Tree, Error> {
    if ws !in trees then Err(WorkspaceNotFound)
    else if !Legal(path) then Err(InvalidMove)
    else if !missing && path !in trees[ws] then Err(FileNotFound)
    else Ok(trees[ws])
  }

  // ---------------------------------------------------------------- identities

  predicate LiveAt(row: Row, ws: WorkspaceId, path: Path) {
    row.workspaceId == ws && !row.deleted && row.path == path
  }

  function FindLive(files: seq<Row>, ws: WorkspaceId, path: Path): Option<FileId> {
    if files == [] then None
    else if LiveAt(files[0], ws, path) then Some(files[0].id)
    else FindLive(files[1..], ws, path)
  }

  /** `identify`: the live identity of a path, made on first use. */
  function Identify(s: Store, ws: WorkspaceId, path: Path): (r: (Store, FileId))
    ensures r.0.operations == s.operations
  {
    match FindLive(s.files, ws, path)
    case Some(id) => (s, id)
    case None => (s.(files := s.files + [Row(s.nextId, ws, path, [], false)], nextId := s.nextId + 1), s.nextId)
  }

  function FindId(files: seq<Row>, ws: WorkspaceId, id: FileId): Option<Path> {
    if files == [] then None
    else if files[0].workspaceId == ws && files[0].id == id && !files[0].deleted then Some(files[0].path)
    else FindId(files[1..], ws, id)
  }

  function Aliased(files: seq<Row>, ws: WorkspaceId, path: Path): seq<Row> {
    if files == [] then []
    else
      var rest := Aliased(files[1..], ws, path);
      if files[0].workspaceId == ws && path in files[0].aliases then [files[0]] + rest else rest
  }

  /** `reference`: where a file is now, by its id or by a path it once had. */
  function Reference(s: Store, ws: WorkspaceId, path: Path, fileId: Option<FileId>): Result<Path, Error> {
    if fileId.Some? then
      match FindId(s.files, ws, fileId.value)
      case None => Err(FileNotFound)
      case Some(found) => Ok(found)
    else
      var rows := Aliased(s.files, ws, path);
      if |rows| > 1 then Err(AmbiguousReference)
      else if |rows| == 1 then (if rows[0].deleted then Err(FileNotFound) else Ok(rows[0].path))
      else Ok(path)
  }

  function Marked(files: seq<Row>, ws: WorkspaceId, path: Path): seq<Row> {
    seq(|files|, i requires 0 <= i < |files| =>
      if files[i].workspaceId == ws && Covers(path, files[i].path) then files[i].(deleted := true) else files[i])
  }

  /** `deleted`. */
  function Delete(s: Store, ws: WorkspaceId, path: Path): Store {
    s.(files := Marked(s.files, ws, path))
  }

  /** `removeWorkspace`. */
  function RemoveWorkspace(s: Store, ws: WorkspaceId): Store {
    s.(files := Marked(s.files, ws, []),
       operations := seq(|s.operations|, i requires 0 <= i < |s.operations| =>
         if s.operations[i].workspaceId == ws && s.operations[i].state == Queued
         then s.operations[i].(state := Cancelled) else s.operations[i]))
  }

  // ---------------------------------------------------------------- names for "keep both"

  function Digits(n: nat): string {
    if n < 10 then [('0' as int + n) as char] else Digits(n / 10) + [('0' as int + n % 10) as char]
  }

  /** Where the extension of a name begins: at its last dot, unless that is its first character. */
  function DotOf(name: Name, i: nat): nat
    requires i <= |name|
  {
    if i <= 1 then |name| else if name[i - 1] == '.' then i - 1 else DotOf(name, i - 1)
  }

  function Numbered(name: Name, folder: bool, n: nat): Name {
    var dot := if folder then |name| else DotOf(name, |name|);
    if dot > |name| then name else name[..dot] + " (" + Digits(n) + ")" + name[dot..]
  }

  /** The destination itself, then the same name with (1), (2), ... before its extension. */
  function Candidate(destination: Path, folder: bool, n: nat): Path {
    if n == 0 || destination == [] then destination
    else destination[..|destination| - 1] + [Numbered(destination[|destination| - 1], folder, n)]
  }

  // ---------------------------------------------------------------- request

  const MAX_MOVES := 500

  /** The first free candidate, or the error when the destination must not be renamed. `limit` is never reached. */
  function Free(occupied: set<Path>, destination: Path, folder: bool, keepBoth: bool, n: nat, limit: nat)
    : Result<Path, Error>
    decreases limit - n
  {
    var candidate := Candidate(destination, folder, n);
    if candidate !in occupied then Ok(candidate)
    else if !keepBoth || n >= limit then Err(DestinationExists)
    else Free(occupied, destination, folder, keepBoth, n + 1, limit)
  }

  predicate Overlaps(wishes: seq<Wish>, i: nat)
    requires i < |wishes|
  {
    (exists j :: 0 <= j < |wishes| && Covers(wishes[j].source, wishes[i].destination)) ||
    exists j :: 0 <= j < |wishes| && j != i &&
      (Covers(wishes[j].source, wishes[i].source) || Covers(wishes[i].source, wishes[j].source))
  }

  /** The plan for one wish: its free destination. */
  function PlanOne(w: Files, ws: WorkspaceId, wishes: seq<Wish>, i: nat, keepBoth: bool, taken: set<Path>)
    : Result<Path, Error>
    requires i < |wishes|
  {
    var wish := wishes[i];
    var tree :- Resolve(w.trees, ws, wish.source, false);
    var here :- (if wish.fileId.Some? then Reference(w.store, ws, wish.source, wish.fileId) else Ok(wish.source));
    if here != wish.source then Err(FileChanged)
    else
      var _ :- Resolve(w.trees, ws, wish.destination, true);
      if Overlaps(wishes, i) then Err(InvalidMove)
      else
        var occupied := tree.Keys + taken;
        Free(occupied, wish.destination, wish.source in tree && tree[wish.source].Folder?, keepBoth, 0, |occupied|)
  }

  /** Plans the wishes from i on; identities made on the way stay, also when a later wish is refused. */
  function Plan(w: Files, ws: WorkspaceId, wishes: seq<Wish>, i: nat, keepBoth: bool, moves: seq<Move>)
    : (Store, Result<seq<Move>, Error>)
    requires i <= |wishes|
    decreases |wishes| - i
  {
    if i == |wishes| then (w.store, Ok(moves))
    else
      match PlanOne(w, ws, wishes, i, keepBoth, set m | m in moves :: m.destination)
      case Err(e) => (w.store, Err(e))
      case Ok(destination) =>
        var (s, id) := Identify(w.store, ws, wishes[i].source);
        Plan(w.(store := s), ws, wishes, i + 1, keepBoth, moves + [Move(wishes[i].source, destination, id)])
  }

  /** `request` up to its drain: the planned operation is queued. */
  function Enqueue(w: Files, ws: WorkspaceId, wishes: seq<Wish>, keepBoth: bool): (Files, Result<OperationId, Error>) {
    if wishes == [] || |wishes| > MAX_MOVES then (w, Err(InvalidMove))
    else
      var (s, planned) := Plan(w, ws, wishes, 0, keepBoth, []);
      match planned
      case Err(e) => (w.(store := s), Err(e))
      case Ok(moves) =>
        var op := Operation(s.nextId, ws, moves, Queued, 0, None, None);
        (w.(store := s.(operations := s.operations + [op], nextId := s.nextId + 1)), Ok(s.nextId))
  }

  // ---------------------------------------------------------------- execute

  /** A directory listing: the paths of a tree in some order. */
  type Listing = Tree -> seq<Path>

  function Under(paths: seq<Path>, source: Path): seq<Path> {
    if paths == [] then []
    else if Covers(source, paths[0]) then [paths[0]] + Under(paths[1..], source)
    else Under(paths[1..], source)
  }

  function IdentifyAll(s: Store, ws: WorkspaceId, paths: seq<Path>): (r: Store)
    ensures r.operations == s.operations
    decreases |paths|
  {
    if paths == [] then s else IdentifyAll(Identify(s, ws, paths[0]).0, ws, paths[1..])
  }

  /** `track`: every source, and everything below it, gets an identity. */
  function Track(s: Store, ws: WorkspaceId, listed: seq<Path>, moves: seq<Move>): (r: Store)
    ensures r.operations == s.operations
    decreases |moves|
  {
    if moves == [] then s
    else Track(IdentifyAll(s, ws, Under(listed, moves[0].source)), ws, listed, moves[1..])
  }

  /** The paths that get an identity when a batch is tracked, in the order in which they get it. */
  function Tracked(listed: seq<Path>, moves: seq<Move>): seq<Path>
    decreases |moves|
  {
    if moves == [] then [] else Under(listed, moves[0].source) + Tracked(listed, moves[1..])
  }

  predicate AllLegal(paths: seq<Path>) {
    forall i :: 0 <= i < |paths| ==> Legal(paths[i])
  }

  /** How many are tracked before `resolve` refuses one. */
  function Legals(paths: seq<Path>): (n: nat)
    ensures n <= |paths| && AllLegal(paths[..n]) && (n < |paths| ==> !Legal(paths[n])) && (n == |paths| <==> AllLegal(paths))
  {
    if paths == [] || !Legal(paths[0]) then 0 else 1 + Legals(paths[1..])
  }

  /** The whole batch is checked again before anything moves. */
  function Check(w: Files, op: Operation, i: nat): Result<bool, Error>
    requires i <= |op.moves|
    decreases |op.moves| - i
  {
    if i == |op.moves| then Ok(true)
    else
      var m := op.moves[i];
      var _ :- Resolve(w.trees, op.workspaceId, m.source, false);
      var here :- Reference(w.store, op.workspaceId, m.source, Some(m.fileId));
      if here != m.source then Err(FileChanged)
      else
        var tree :- Resolve(w.trees, op.workspaceId, m.destination, true);
        if m.destination in tree then Err(DestinationExists) else Check(w, op, i + 1)
  }

  /** `mkdirSync` of the parent with `recursive`: refused, changing nothing, if a file is in the way. */
  predicate FileInWay(tree: Tree, path: Path) {
    exists n :: 0 < n < |path| && path[..n] in tree && tree[path[..n]].File?
  }

  /** The first n directories of the path's ancestors made. */
  function WithFolders(tree: Tree, path: Path, n: nat): Tree
    requires n <= |path|
  {
    if n == 0 then tree
    else
      var made := WithFolders(tree, path, n - 1);
      if path[..n] in made then made else made[path[..n] := Folder]
  }

  function Parents(tree: Tree, path: Path): Tree {
    if path == [] then tree else WithFolders(tree, path, |path| - 1)
  }

  function Relocated(path: Path, source: Path, destination: Path): Path
    requires Covers(source, path)
  {
    destination + path[|source|..]
  }

  /** `renameSync`: everything under the source is now under the destination. */
  function Renamed(tree: Tree, source: Path, destination: Path): Tree {
    map p | p in Kept(tree, source) + Landed(tree, source, destination) ::
      if p in Landed(tree, source, destination) then tree[source + p[|destination|..]] else tree[p]
  }

  function Kept(tree: Tree, source: Path): set<Path> {
    set p | p in tree && !Covers(source, p)
  }

  function Landed(tree: Tree, source: Path, destination: Path): (landed: set<Path>)
    ensures forall p :: p in landed ==> Covers(destination, p) && source + p[|destination|..] in tree
  {
    var landed := set p | p in tree && Covers(source, p) :: Relocated(p, source, destination);
    assert forall p :: p in tree && Covers(source, p) ==> source + p[|source|..] == p;
    assert forall p :: p in tree && Covers(source, p) ==> Relocated(p, source, destination)[|destination|..] == p[|source|..];
    landed
  }

  /** One move in the tree. A missing source with the destination in place was moved before a crash. */
  function MoveTree(tree: Tree, m: Move): (Tree, Option<Error>) {
    if m.source in tree then
      if m.destination in tree then (tree, Some(DestinationExists))
      else if FileInWay(tree, m.destination) then (tree, Some(NotAFolder))
      else (Renamed(Parents(tree, m.destination), m.source, m.destination), None)
    else if m.destination in tree then (tree, None)
    else (tree, Some(FileNotFound))
  }

  function RelinkRow(row: Row, ws: WorkspaceId, m: Move): Row {
    if row.workspaceId != ws || row.deleted || !Covers(m.source, row.path) then row
    else row.(aliases := if row.path in row.aliases then row.aliases else row.aliases + [row.path],
              path := Relocated(row.path, m.source, m.destination))
  }

  /** Live identities follow the files and remember where they were. */
  function Relink(files: seq<Row>, ws: WorkspaceId, m: Move): seq<Row> {
    seq(|files|, i requires 0 <= i < |files| => RelinkRow(files[i], ws, m))
  }

  function RemapAsset(asset: Asset, ws: WorkspaceId, m: Move): Asset {
    if asset.workspaceId == ws && Covers(m.source, asset.path)
    then asset.(path := Relocated(asset.path, m.source, m.destination)) else asset
  }

  /** The `changed` callback: artifacts follow the files. */
  function Remap(assets: map<AssetId, Asset>, ws: WorkspaceId, m: Move): map<AssetId, Asset> {
    map a | a in assets :: RemapAsset(assets[a], ws, m)
  }

  function SetOperation(s: Store, o: nat, op: Operation): Store
    requires o < |s.operations|
  {
    s.(operations := s.operations[o := op])
  }

  function Fail(s: Store, o: nat, e: Error): Store
    requires o < |s.operations|
  {
    var op := s.operations[o].(state := Failed, error := Some(e));
    if op.applied == 0 then SetOperation(s, o, op)
    else SetOperation(s, o, op.(revision := Some(s.revision + 1))).(revision := s.revision + 1)
  }

  function Complete(s: Store, o: nat): Store
    requires o < |s.operations|
  {
    SetOperation(s, o, s.operations[o].(state := Completed, revision := Some(s.revision + 1))).(
      revision := s.revision + 1)
  }

  /** A move is recorded: rows, and one more applied. */
  function Record(s: Store, o: nat): Store
    requires o < |s.operations| && s.operations[o].applied < |s.operations[o].moves|
  {
    var op := s.operations[o];
    SetOperation(s.(files := Relink(s.files, op.workspaceId, op.moves[op.applied])), o, op.(applied := op.applied + 1))
  }

  /** The loop of `#execute`, from the first move not yet applied. */
  function MoveRest(w: Files, o: nat): (r: Files)
    requires o < |w.store.operations|
    ensures |r.store.operations| == |w.store.operations|
    decreases |w.store.operations[o].moves| - w.store.operations[o].applied
  {
    var op := w.store.operations[o];
    if op.applied >= |op.moves| then w.(store := Complete(w.store, o))
    else if op.workspaceId !in w.trees then w.(store := Fail(w.store, o, WorkspaceNotFound))
    else
      var m := op.moves[op.applied];
      var (tree, error) := MoveTree(w.trees[op.workspaceId], m);
      var trees := w.trees[op.workspaceId := tree];
      if error.Some? then w.(trees := trees, store := Fail(w.store, o, error.value))
      else MoveRest(Files(Record(w.store, o), trees, Remap(w.assets, op.workspaceId, m)), o)
  }

  /** `#execute` of a queued operation; a path below a source that `resolve` refuses fails it before anything moves. */
  function Execute(w: Files, o: nat, list: Listing): (r: Files)
    requires o < |w.store.operations|
    ensures |r.store.operations| == |w.store.operations|
  {
    var op := w.store.operations[o];
    match Check(w, op, 0)
    case Err(e) => w.(store := Fail(w.store, o, e))
    case Ok(_) =>
      if op.workspaceId !in w.trees then w
      else
        var listed := list(w.trees[op.workspaceId]);
        var paths := Tracked(listed, op.moves);
        if !AllLegal(paths) then
          w.(store := Fail(IdentifyAll(w.store, op.workspaceId, paths[..Legals(paths)]), o, InvalidMove))
        else
          var tracked := Track(w.store, op.workspaceId, listed, op.moves);
          var ready := w.(store := SetOperation(tracked, o, op.(state := Moving)));
          MoveRest(ready, o)
  }

  // ---------------------------------------------------------------- drain, undo, cancel

  predicate Leased(s: Store, op: Operation, now: int) {
    exists owner :: owner in s.leases && s.leases[owner].workspaceId == op.workspaceId && s.leases[owner].until > now &&
      exists i :: 0 <= i < |op.moves| &&
        (Covers(op.moves[i].source, s.leases[owner].path) || Covers(op.moves[i].destination, s.leases[owner].path))
  }

  /** `drain` of a workspace that is not busy: queued operations in order, up to one that an editor holds up. */
  function Drain(w: Files, ws: WorkspaceId, o: nat, now: int, list: Listing): Files
    decreases |w.store.operations| - o
  {
    if o >= |w.store.operations| then w
    else
      var op := w.store.operations[o];
      if op.workspaceId != ws || op.state != Queued then Drain(w, ws, o + 1, now, list)
      else if Leased(w.store, op, now) then w
      else
        Drain(Execute(w, o, list), ws, o + 1, now, list)
  }

  /** `request`. */
  function Request(w: Files, ws: WorkspaceId, wishes: seq<Wish>, keepBoth: bool, busy: bool, now: int, list: Listing)
    : (Files, Result<OperationId, Error>)
  {
    var (queued, reply) := Enqueue(w, ws, wishes, keepBoth);
    if reply.Err? || busy then (queued, reply) else (Drain(queued, ws, 0, now, list), reply)
  }

  function FindOperation(operations: seq<Operation>, ws: WorkspaceId, id: OperationId, first: nat): Option<nat>
    decreases |operations| - first
  {
    if first >= |operations| then None
    else if operations[first].workspaceId == ws && operations[first].id == id then Some(first)
    else FindOperation(operations, ws, id, first + 1)
  }

  function Reversed(moves: seq<Move>): seq<Wish> {
    seq(|moves|, i requires 0 <= i < |moves| => Wish(moves[i].destination, moves[i].source, Some(moves[i].fileId)))
  }

  /** `undo`: a request for the moves back. */
  function Undo(w: Files, ws: WorkspaceId, id: OperationId, busy: bool, now: int, list: Listing)
    : (Files, Result<OperationId, Error>)
  {
    match FindOperation(w.store.operations, ws, id, 0)
    case None => (w, Err(MoveNotCompleted))
    case Some(o) =>
      if o >= |w.store.operations| || w.store.operations[o].state != Completed then (w, Err(MoveNotCompleted))
      else Request(w, ws, Reversed(w.store.operations[o].moves), false, busy, now, list)
  }

  /** `cancel`. */
  function Cancel(w: Files, ws: WorkspaceId, id: OperationId): (Files, Result<OperationId, Error>) {
    match FindOperation(w.store.operations, ws, id, 0)
    case None => (w, Err(MoveNotPending))
    case Some(o) =>
      if o >= |w.store.operations| || w.store.operations[o].state != Queued then (w, Err(MoveNotPending))
      else (w.(store := SetOperation(w.store, o, w.store.operations[o].(state := Cancelled))), Ok(id))
  }

  /** The constructor: operations that a crash caught moving are finished, whether or not the workspace is busy. */
  function Recover(w: Files, o: nat): Files
    decreases |w.store.operations| - o
  {
    if o >= |w.store.operations| then w
    else if w.store.operations[o].state != Moving then Recover(w, o + 1)
    else
      Recover(MoveRest(w, o), o + 1)
  }
}
