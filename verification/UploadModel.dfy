/** Resumable uploads: what is on disk, and what every disk the program passes through has in common. */
module UploadModel {
  import opened Common
  import opened SessionFile

  type Id = nat
  type Time = nat
  type Bytes = seq<Byte>

  const CHUNK_LIMIT := 8 * 1024 * 1024
  const LIFETIME := 7 * 24 * 60 * 60 * 1000
  const UPLOAD_LIMIT := 32
  const NAME_LIMIT := 255
  const MAX_UPLOAD_BYTES := 5 * 1024 * 1024 * 1024
  const MAX_SAFE_INTEGER := 0x1F_FFFF_FFFF_FFFF

  /** A saved upload. `completed` is the receipt: which commit stored it. */
  datatype Row = Row(workspace: nat, path: string, size: nat, offset: nat, updatedAt: Time, completed: Option<nat>)

  /** A file stored in a workspace. */
  datatype Commit = Commit(id: Id, workspace: nat, path: string, size: nat, bytes: Bytes)

  /** The metadata files, the data files, and what the workspaces have received. */
  datatype Disk = Disk(rows: map<Id, Row>, parts: map<Id, Bytes>, committed: seq<Commit>)

  datatype Error =
    | InvalidUpload | TooLarge | NotAllowed | LimitReached | NotFound | DataMissing | Busy | OffsetConflict
    | InvalidChunk | SourceFailed | Incomplete | CommitFailed

  /** Whether a workspace may take a path; asked anew on every call. */
  type Policy = (nat, string) -> bool

  /** `get`: the length of the data, not the saved offset, says how far an upload has come. */
  function Get(d: Disk, allowed: Policy, workspace: nat, id: Id): Result<Row, Error> {
    if id !in d.rows || d.rows[id].workspace != workspace then Err(NotFound)
    else if d.rows[id].completed.Some? then (if allowed(workspace, "") then Ok(d.rows[id]) else Err(NotAllowed))
    else if !allowed(workspace, d.rows[id].path) then Err(NotAllowed)
    else if id !in d.parts then Err(DataMissing)
    else Ok(d.rows[id].(offset := |d.parts[id]|))
  }

  /** The uploads that `list` shows: those of a workspace without a receipt. */
  predicate Shown(d: Disk, workspace: nat, id: Id) {
    id in d.rows && d.rows[id].workspace == workspace && d.rows[id].completed.None?
  }

  /** Each with how far its data has come. */
  function Listed(d: Disk, workspace: nat): map<Id, Row> {
    map id | id in d.rows && id in d.parts && Shown(d, workspace, id) :: d.rows[id].(offset := |d.parts[id]|)
  }

  /** One upload whose path is refused, or whose data is gone, is enough for `list` to throw. */
  ghost predicate Listable(d: Disk, allowed: Policy, workspace: nat) {
    forall id :: Shown(d, workspace, id) ==> allowed(workspace, d.rows[id].path) && id in d.parts
  }

  predicate Expired(row: Row, now: Time) {
    now - row.updatedAt > LIFETIME
  }

  /** `cleanup`, which leaves the uploads that are being worked on. */
  function Cleaned(d: Disk, busy: set<Id>, now: Time): (clean: Disk)
    ensures clean.rows.Keys <= d.rows.Keys && clean.parts.Keys <= d.parts.Keys && clean.committed == d.committed
  {
    var gone := set id | id in d.rows && Expired(d.rows[id], now) && id !in busy;
    d.(rows := d.rows - gone, parts := d.parts - gone)
  }

  function Joined(chunks: seq<Bytes>): Bytes
    decreases |chunks|
  {
    if chunks == [] then [] else Joined(chunks[..|chunks| - 1]) + chunks[|chunks| - 1]
  }

  /** The client's file for each upload. */
  type Client = Id -> Bytes

  /** A client sends its file's bytes from the offset it names; it may stop early or send too much of its file. */
  ghost predicate Honest(client: Client, id: Id, offset: nat, chunks: seq<Bytes>) {
    offset <= |client(id)| && Joined(chunks) <= client(id)[offset..]
  }

  /** Data that is the beginning of the client's file, and no longer than announced. */
  ghost predicate Begun(client: Client, id: Id, size: nat, data: Bytes) {
    data <= client(id) && |data| <= size
  }

  ghost predicate PartsOk(d: Disk, client: Client) {
    forall id :: id in d.parts ==>
      if id in d.rows then Begun(client, id, d.rows[id].size, d.parts[id]) else d.parts[id] == []
  }

  ghost predicate CommitsOk(d: Disk, client: Client) {
    forall i :: 0 <= i < |d.committed| ==>
      Begun(client, d.committed[i].id, d.committed[i].size, d.committed[i].bytes) &&
      |d.committed[i].bytes| == d.committed[i].size
  }

  /** A receipt names a commit of this very upload. */
  ghost predicate ReceiptsOk(d: Disk) {
    forall id :: id in d.rows && d.rows[id].completed.Some? ==> Receipt(d, id)
  }

  ghost predicate Receipt(d: Disk, id: Id)
    requires id in d.rows && d.rows[id].completed.Some?
  {
    var row := d.rows[id];
    row.offset == row.size && row.completed.value < |d.committed| &&
    var c := d.committed[row.completed.value];
    (id in d.parts ==> |d.parts[id]| == row.size) && c.id == id && c.workspace == row.workspace && c.path == row.path && c.size == row.size
  }

  /** What every disk keeps, whenever the process stops. */
  ghost predicate Sound(d: Disk, client: Client) {
    PartsOk(d, client) && CommitsOk(d, client) && ReceiptsOk(d)
  }

  // ---------------------------------------------------------------- writing

  /** Bytes written over a file at a position within it. */
  function WrittenAt(data: Bytes, position: nat, bytes: Bytes): Bytes
    requires position <= |data|
  {
    if position + |bytes| <= |data| then data[..position] + bytes + data[position + |bytes|..] else data[..position] + bytes
  }

  lemma {:induction false} JoinedSplit(chunks: seq<Bytes>, k: nat)
    requires k <= |chunks|
    ensures Joined(chunks[..k]) <= Joined(chunks)
    decreases |chunks|
  {
    if k == |chunks| {
      assert chunks[..k] == chunks;
    } else {
      var init := chunks[..|chunks| - 1];
      JoinedSplit(init, k);
      assert init[..k] == chunks[..k];
    }
  }

  lemma JoinedNext(chunks: seq<Bytes>, i: nat)
    requires i < |chunks|
    ensures Joined(chunks[..i + 1]) == Joined(chunks[..i]) + chunks[i]
    ensures Joined(chunks[..i + 1]) <= Joined(chunks)
  {
    assert chunks[..i + 1][..i] == chunks[..i];
    JoinedSplit(chunks, i + 1);
  }

  /** What a client has sent so far of its file, put after what was stored of it. */
  lemma StillBegun(client: Client, id: Id, size: nat, stored: Bytes, sent: Bytes, all: Bytes)
    requires Begun(client, id, size, stored) && all <= client(id)[|stored|..] && sent <= all && |stored| + |sent| <= size
    ensures Begun(client, id, size, stored + sent)
  {
    var file := client(id);
    assert file == file[..|stored|] + file[|stored|..];
  }

  /** The next piece of a chunk, written where the last one ended. */
  lemma PieceWritten(stored: Bytes, value: Bytes, position: nat, written: nat)
    requires position + written <= |value|
    ensures stored + value[..position] + value[position..position + written] == stored + value[..position + written]
    ensures stored + value[..position + written] <= stored + value
  {
    assert value[..position + written] == value[..position] + value[position..position + written];
  }

  lemma SetPart(d: Disk, client: Client, id: Id, data: Bytes)
    requires Sound(d, client) && id in d.rows && Begun(client, id, d.rows[id].size, data)
    requires d.rows[id].completed.Some? ==> |data| == d.rows[id].size
    ensures Sound(d.(parts := d.parts[id := data]), client)
  {
    var n := d.(parts := d.parts[id := data]);
    forall other | other in n.rows && n.rows[other].completed.Some? ensures Receipt(n, other) {
      assert Receipt(d, other);
    }
  }

  /** An empty data file of an upload that has no metadata yet. */
  lemma AddPart(d: Disk, client: Client, id: Id)
    requires Sound(d, client) && id !in d.rows
    ensures Sound(d.(parts := d.parts[id := []]), client)
  {
    var n := d.(parts := d.parts[id := []]);
    forall other | other in n.rows && n.rows[other].completed.Some? ensures Receipt(n, other) {
      assert Receipt(d, other);
    }
  }

  lemma SetRow(d: Disk, client: Client, id: Id, row: Row)
    requires Sound(d, client) && (id in d.parts ==> Begun(client, id, row.size, d.parts[id]))
    requires row.completed.Some? ==> Receipt(d.(rows := d.rows[id := row]), id)
    ensures Sound(d.(rows := d.rows[id := row]), client)
  {
    var n := d.(rows := d.rows[id := row]);
    forall other | other in n.rows && n.rows[other].completed.Some? ensures Receipt(n, other) {
      if other != id {
        assert Receipt(d, other);
      }
    }
  }

  lemma DropPart(d: Disk, client: Client, id: Id)
    requires Sound(d, client)
    ensures Sound(d.(parts := d.parts - {id}), client)
  {
    var n := d.(parts := d.parts - {id});
    forall other | other in n.rows && n.rows[other].completed.Some? ensures Receipt(n, other) {
      assert Receipt(d, other);
    }
  }

  lemma DropRow(d: Disk, client: Client, id: Id)
    requires Sound(d, client) && id !in d.parts
    ensures Sound(d.(rows := d.rows - {id}), client)
  {
    var n := d.(rows := d.rows - {id});
    forall other | other in n.rows && n.rows[other].completed.Some? ensures Receipt(n, other) {
      assert Receipt(d, other);
    }
  }

  lemma AddCommit(d: Disk, client: Client, c: Commit)
    requires Sound(d, client) && Begun(client, c.id, c.size, c.bytes) && |c.bytes| == c.size
    ensures Sound(d.(committed := d.committed + [c]), client)
  {
    var n := d.(committed := d.committed + [c]);
    forall other | other in n.rows && n.rows[other].completed.Some? ensures Receipt(n, other) {
      assert Receipt(d, other);
    }
  }

  // ---------------------------------------------------------------- what a reader gets

  /** Whenever the process stopped, an unfinished upload resumes at the end of a beginning of the client's file. */
  lemma ResumesWhereItStopped(d: Disk, client: Client, allowed: Policy, workspace: nat, id: Id)
    requires Sound(d, client) && Get(d, allowed, workspace, id).Ok?
    ensures var row := Get(d, allowed, workspace, id).value;
            row.offset <= row.size && row.offset <= |client(id)| &&
            (row.completed.None? ==> d.parts[id] == client(id)[..row.offset]) &&
            (row.completed.Some? ==> row.offset == row.size && d.committed[row.completed.value].bytes == client(id)[..row.size])
  {
    if d.rows[id].completed.Some? {
      assert Receipt(d, id);
    }
  }

  /** Data files that no row names. */
  function Unnamed(d: Disk): (r: set<Id>)
    ensures forall id :: id in r <==> id in d.parts && id !in d.rows
  {
    d.parts.Keys - d.rows.Keys
  }

  /** The uploads with data that a clean-up leaves. */
  function Remaining(d: Disk, busy: set<Id>, now: Time): (r: set<Id>)
    ensures forall id :: id in r <==> id in d.parts && id in d.rows && (id in busy || now - d.rows[id].updatedAt <= LIFETIME)
  {
    set id | id in d.parts && id in d.rows && (id in busy || !Expired(d.rows[id], now))
  }

  /** One expired upload is removed, and what is left to clean is the same. */
  lemma CleanedNext(d: Disk, busy: set<Id>, now: Time, id: Id)
    requires id in d.rows && Expired(d.rows[id], now) && id !in busy
    ensures Cleaned(d.(rows := d.rows - {id}, parts := d.parts - {id}), busy, now) == Cleaned(d, busy, now)
  {
  }

  lemma CleanedAlready(d: Disk, busy: set<Id>, now: Time)
    requires forall id :: id in d.rows ==> id in busy || !Expired(d.rows[id], now)
    ensures Cleaned(d, busy, now) == d
  {
  }

  /** What counts against the limit: the uploads left, and every data file without a row, however old. */
  lemma CountedAgainstLimit(d: Disk, busy: set<Id>, now: Time)
    ensures |Cleaned(d, busy, now).parts| == |Unnamed(d)| + |Remaining(d, busy, now)|
  {
    var clean := Cleaned(d, busy, now);
    assert Unnamed(d) !! Remaining(d, busy, now) && clean.parts.Keys == Unnamed(d) + Remaining(d, busy, now);
    assert |clean.parts| == |clean.parts.Keys|;
  }

  lemma {:induction false} SubsetIsSmaller(a: set<Id>, b: set<Id>)
    requires a <= b
    ensures |a| <= |b|
    decreases |a|
  {
    if a != {} {
      var x :| x in a;
      SubsetIsSmaller(a - {x}, b - {x});
    }
  }
}
