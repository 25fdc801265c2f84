/** The upload store as the program runs it, one disk write at a time. */
module ResumableUploads {
  import opened Common
  import opened UploadModel
  import opened UploadHistory

  class Uploads {
    const keepReceipts: bool
    ghost const client: Client
    var rows: map<Id, Row>
    var parts: map<Id, Bytes>
    var busy: set<Id>
    /** What the workspaces have received, which the store only adds to. */
    var committed: seq<Commit>
    /** Every disk so far; a process that stops leaves one of them. */
    ghost var passed: seq<Disk>
    /** Where this process stands among the runs of all its kind, and where it started. */
    ghost var process: Process
    ghost const start: Process

    function Contents(): Disk
      reads this
    {
      Disk(rows, parts, committed)
    }

    /** What holds after every write; each of them is a step of `UploadHistory`. */
    ghost predicate Written()
      reads this
    {
      (forall d :: d in passed ==> Sound(d, client)) && passed != [] && passed[|passed| - 1] == Contents() &&
      process.disk == Contents() && process.held.Keys <= busy && Reaches(keepReceipts, client, start, process)
    }

    ghost predicate Valid()
      reads this
    {
      Written() && process.making.None?
    }

    /** Data files without a row are never fewer than at the start. */
    lemma OrphansStay()
      requires Valid() && start.making.None?
      ensures Unnamed(start.disk) <= Unnamed(Contents())
    {
      var steps :| Legal(keepReceipts, client, start, steps) && After(keepReceipts, client, start, steps) == process;
      OrphansAre(keepReceipts, client, start, steps);
      assert Orphans(start) == Unnamed(start.disk) && Orphans(process) == Unnamed(Contents());
    }

    /** A start on whatever disk the last process left. */
    constructor (disk: Disk, keepReceipts: bool, ghost client: Client, now: Time)
      requires Sound(disk, client)
      ensures Valid() && Contents() == Cleaned(disk, {}, now) && busy == {}
      ensures this.keepReceipts == keepReceipts && this.client == client && start == Started(disk)
    {
      this.keepReceipts, this.client := keepReceipts, client;
      rows, parts, committed, busy, passed := disk.rows, disk.parts, disk.committed, {}, [disk];
      process, start := Started(disk), Started(disk);
      new;
      ReachesItself(keepReceipts, client, start);
      Cleanup(now);
    }

    // -------------------------------------------------------------- single writes

    /** What was just written is the next step of the run. */
    ghost method Record(step: Step)
      requires Reaches(keepReceipts, client, start, process) && Possible(keepReceipts, client, process, step)
      requires Next(keepReceipts, client, process, step).disk == Contents()
      requires Next(keepReceipts, client, process, step).held.Keys <= busy
      requires (forall d :: d in passed ==> Sound(d, client)) && Sound(Contents(), client)
      modifies this`passed, this`process
      ensures Written() && passed == old(passed) + [Contents()]
      ensures process == Next(keepReceipts, client, old(process), step)
    {
      hide Possible, Next, Reaches, Sound;
      ReachesNext(keepReceipts, client, start, process, step);
      passed := passed + [Contents()];
      process := Next(keepReceipts, client, process, step);
    }

    method AddData(id: Id)
      requires Valid() && Unused(Contents(), id) && |parts| < UPLOAD_LIMIT
      modifies this`parts, this`passed, this`process
      ensures Written() && parts == old(parts)[id := []] && passed == old(passed) + [Contents()]
      ensures process.making == Some(id) && process.held == old(process.held)
    {
      hide Sound, Reaches;
      AddPart(Contents(), client, id);
      parts := parts[id := []];
      Record(NewData(id));
    }

    method AddRow(id: Id, row: Row)
      requires Written() && process.making == Some(id) && id in parts && parts[id] == []
      requires row.offset == 0 && row.completed.None?
      modifies this`rows, this`passed, this`process
      ensures Valid() && rows == old(rows)[id := row] && passed == old(passed) + [Contents()]
      ensures process.held == old(process.held)
    {
      hide Sound, Reaches;
      SetRow(Contents(), client, id, row);
      rows := rows[id := row];
      Record(NewRow(id, row));
    }

    /** The file of an upload that is on its own is opened for writing; nothing on disk changes. */
    ghost method Begin(id: Id)
      requires Valid() && id in busy && Present(Contents(), id) && id !in process.held
      modifies this`process
      ensures Valid() && process.held == old(process.held)[id := Appending(parts[id])]
    {
      hide Sound, Reaches;
      ReachesNext(keepReceipts, client, start, process, Open(id));
      process := Next(keepReceipts, client, process, Open(id));
    }

    method PutPiece(id: Id, position: nat, piece: Bytes)
      requires Valid() && Present(Contents(), id) && id in process.held && process.held[id].Appending?
      requires position == |parts[id]| && rows[id].completed.None? && piece != [] && Begun(client, id, rows[id].size, parts[id] + piece)
      requires |parts[id]| + |piece| <= |process.held[id].stored| + CHUNK_LIMIT
      modifies this`parts, this`passed, this`process
      ensures Valid() && parts == old(parts)[id := old(parts)[id] + piece] && passed == old(passed) + [Contents()]
      ensures process.held == old(process.held)
    {
      hide Sound, Reaches, Begun;
      SetPart(Contents(), client, id, parts[id] + piece);
      assert WrittenAt(parts[id], position, piece) == parts[id] + piece;
      parts := parts[id := WrittenAt(parts[id], position, piece)];
      Record(Piece(id, piece));
    }

    method KeepOffset(id: Id, row: Row, ghost now: Time)
      requires Valid() && Present(Contents(), id) && id in process.held && process.held[id].Appending?
      requires row == rows[id].(offset := |parts[id]|, updatedAt := now) && Begun(client, id, row.size, parts[id])
      requires row.completed.Some? ==> Receipt(Contents().(rows := rows[id := row]), id)
      modifies this`rows, this`passed, this`process
      ensures Valid() && rows == old(rows)[id := row] && passed == old(passed) + [Contents()]
      ensures process.held == old(process.held) - {id}
    {
      hide Sound, Reaches, Begun, Receipt;
      SetRow(Contents(), client, id, row);
      rows := rows[id := row];
      Record(SaveOffset(id, now));
    }

    method Receive(id: Id)
      requires Valid() && id in busy && id !in process.held && Unreceipted(Contents(), id)
      requires |parts[id]| == rows[id].size && Begun(client, id, rows[id].size, parts[id])
      modifies this`committed, this`passed, this`process
      ensures Valid() && committed == old(committed) + [Handed(old(Contents()), id)] && passed == old(passed) + [Contents()]
      ensures process.held == old(process.held)[id := Storing(|old(committed)|)]
    {
      hide Sound, Reaches, Begun;
      var c := Commit(id, rows[id].workspace, rows[id].path, rows[id].size, parts[id]);
      AddCommit(Contents(), client, c);
      committed := committed + [c];
      Record(Store(id));
    }

    method KeepReceipt(id: Id, row: Row, ghost now: Time)
      requires Valid() && keepReceipts && Present(Contents(), id) && id in process.held && process.held[id].Storing?
      requires row == WithReceipt(rows[id], process.held[id].receipt, now) && Begun(client, id, row.size, parts[id])
      requires Receipt(Contents().(rows := rows[id := row]), id)
      modifies this`rows, this`passed, this`process
      ensures Valid() && rows == old(rows)[id := row] && passed == old(passed) + [Contents()]
      ensures process.held == old(process.held)[id := Receipted]
    {
      hide Sound, Reaches, Begun, Receipt;
      SetRow(Contents(), client, id, row);
      rows := rows[id := row];
      Record(SaveReceipt(id, now));
    }

    method RemoveData(id: Id)
      requires Valid() && id in rows
      requires id in process.held ==> if keepReceipts then process.held[id].Receipted? else process.held[id].Storing?
      modifies this`parts, this`passed, this`process
      ensures Valid() && parts == old(parts) - {id} && passed == old(passed) + [Contents()]
      ensures process.held == if keepReceipts then old(process.held) - {id} else old(process.held)
    {
      hide Sound, Reaches;
      DropPart(Contents(), client, id);
      parts := parts - {id};
      Record(EraseData(id));
    }

    method RemoveRow(id: Id)
      requires Valid() && id in rows && id !in parts
      requires id in process.held ==> !keepReceipts && process.held[id].Storing?
      modifies this`rows, this`passed, this`process
      ensures Valid() && rows == old(rows) - {id} && passed == old(passed) + [Contents()]
      ensures process.held == old(process.held) - {id}
    {
      hide Sound, Reaches;
      DropRow(Contents(), client, id);
      rows := rows - {id};
      Record(EraseRow(id));
    }

    /** A chunk is written in as many pieces as the system takes. */
    method Write(id: Id, offset: nat, value: Bytes, ghost before: Disk, ghost n: nat)
      requires Valid() && id in rows && id in parts && |parts[id]| == offset
      requires Begun(client, id, rows[id].size, parts[id] + value) && (rows[id].completed.Some? ==> value == [])
      requires KeepsBeginning(before, Contents(), id) && Since(before, n, passed, id)
      requires id in process.held && process.held[id].Appending?
      requires |parts[id]| + |value| <= |process.held[id].stored| + CHUNK_LIMIT
      modifies this`parts, this`passed, this`process
      ensures Valid() && parts == old(parts)[id := old(parts)[id] + value] && process.held == old(process.held)
      ensures KeepsBeginning(before, Contents(), id)
      ensures |old(passed)| <= |passed| && Since(before, n, passed, id)
    {
      hide Sound, Possible, Next, Reaches, KeepsBeginning;
      ghost var stored := parts[id];
      var position := 0;
      assert stored + value[..0] == stored;
      while position < |value|
        invariant 0 <= position <= |value| && Valid() && process.held == old(process.held)
        invariant parts == old(parts)[id := stored + value[..position]]
        invariant KeepsBeginning(before, Contents(), id)
        invariant |old(passed)| <= |passed| && Since(before, n, passed, id)
      {
        var written: nat :| 1 <= written <= |value| - position;
        PieceWritten(stored, value, position, written);
        var piece := value[position..position + written];
        MoreKept(before, Contents(), id, parts[id] + piece);
        PutPiece(id, offset + position, piece);
        position := position + written;
      }
      assert value[..|value|] == value;
      assert value == [] ==> stored + value == stored;
    }

    method CutBack(id: Id, offset: nat, ghost before: Disk, ghost n: nat)
      requires Valid() && id in rows && id in parts && offset <= |parts[id]|
      requires Begun(client, id, rows[id].size, parts[id]) && (rows[id].completed.Some? ==> offset == rows[id].size)
      requires id in before.parts && before.parts[id] == parts[id][..offset]
      requires KeepsBeginning(before, Contents(), id) && Since(before, n, passed, id)
      requires id in process.held && process.held[id] == Appending(parts[id][..offset])
      modifies this`parts, this`passed, this`process
      ensures Valid() && parts == old(parts)[id := old(parts)[id][..offset]] && process.held == old(process.held) - {id}
      ensures KeepsBeginning(before, Contents(), id)
      ensures |old(passed)| <= |passed| && Since(before, n, passed, id)
    {
      hide Sound, Reaches;
      SetPart(Contents(), client, id, parts[id][..offset]);
      parts := parts[id := parts[id][..offset]];
      Record(Cut(id));
    }

    /** The stream's chunks, one after another; one that is too much is the end, and everything is cut back. */
    method TakeChunks(id: Id, offset: nat, size: nat, chunks: seq<Bytes>, ghost before: Disk, ghost n: nat)
      returns (added: nat, fit: bool)
      requires Valid() && Present(Contents(), id) && rows[id].size == size && |parts[id]| == offset
      requires id in process.held && process.held[id] == Appending(parts[id]) && Honest(client, id, offset, chunks)
      requires Begun(client, id, size, parts[id]) && (rows[id].completed.Some? ==> offset == size)
      requires before == Contents() && Since(before, n, passed, id) && KeepsBeginning(before, before, id)
      modifies this`parts, this`passed, this`process
      ensures Valid() && KeepsBeginning(before, Contents(), id)
      ensures |old(passed)| <= |passed| && Since(before, n, passed, id)
      ensures fit <==> |Joined(chunks)| <= CHUNK_LIMIT && offset + |Joined(chunks)| <= size
      ensures fit ==> added == |Joined(chunks)| && parts == old(parts)[id := old(parts)[id] + Joined(chunks)] &&
                      Begun(client, id, size, parts[id]) && process.held == old(process.held)
      ensures !fit ==> parts == old(parts) && process.held == old(process.held) - {id}
    {
      assert offset <= size;
      hide Sound, Begun, Honest, KeepsBeginning, Possible, Next, Reaches;
      added := 0;
      ghost var stored := parts[id];
      assert stored + Joined(chunks[..0]) == stored;
      for i := 0 to |chunks|
        invariant Valid() && process.held == old(process.held) && parts == old(parts)[id := stored + Joined(chunks[..i])]
        invariant Begun(client, id, size, stored + Joined(chunks[..i])) && KeepsBeginning(before, Contents(), id)
        invariant added == |Joined(chunks[..i])| <= CHUNK_LIMIT && offset + added <= size
        invariant |old(passed)| <= |passed| && Since(before, n, passed, id)
      {
        var value := chunks[i];
        JoinedNext(chunks, i);
        added := added + |value|;
        if added > CHUNK_LIMIT || offset + added > size {
          assert parts[id][..offset] == stored;
          CutBack(id, offset, before, n);
          return added, false;
        }
        ChunkFits(client, id, size, stored, chunks, i);
        Write(id, offset + added - |value|, value, before, n);
      }
      assert chunks[..|chunks|] == chunks;
      fit := true;
    }

    // -------------------------------------------------------------- operations

    method Cleanup(now: Time)
      requires Valid()
      modifies this`rows, this`parts, this`passed, this`process
      ensures Valid() && Contents() == Cleaned(old(Contents()), busy, now)
    {
      hide Sound, Possible, Next, Reaches, Cleaned, Expired;
      var left := rows.Keys;
      while left != {}
        invariant Valid() && left <= old(rows).Keys && left <= rows.Keys
        invariant Cleaned(Contents(), busy, now) == Cleaned(old(Contents()), busy, now)
        invariant forall id :: id in rows && id !in left ==> id in busy || !Expired(rows[id], now)
        decreases |left|
      {
        var id :| id in left;
        left := left - {id};
        if Expired(rows[id], now) && id !in busy {
          CleanedNext(Contents(), busy, now, id);
          RemoveData(id);
          RemoveRow(id);
        }
      }
      CleanedAlready(Contents(), busy, now);
    }

    /** The rows are read in whatever order the directory gives them. */
    method List(workspace: nat, allowed: Policy, now: Time) returns (r: Result<map<Id, Row>, Error>)
      requires Valid()
      modifies this`rows, this`parts, this`passed, this`process
      ensures Valid()
      ensures Contents() == if allowed(workspace, "") then Cleaned(old(Contents()), busy, now) else old(Contents())
      ensures r.Ok? <==> allowed(workspace, "") && Listable(Cleaned(old(Contents()), busy, now), allowed, workspace)
      ensures r.Ok? ==> r.value == Listed(Contents(), workspace)
    {
      hide Sound, Possible, Next, Reaches, Cleaned;
      if !allowed(workspace, "") {
        return Err(NotAllowed);
      }
      Cleanup(now);
      var left, shown := rows.Keys, map[];
      while left != {}
        invariant left <= rows.Keys
        invariant forall id :: Shown(Contents(), workspace, id) && id !in left ==>
                    allowed(workspace, rows[id].path) && id in parts
        invariant forall id :: id in shown <==> Shown(Contents(), workspace, id) && id !in left
        invariant forall id :: id in shown ==> id in parts && shown[id] == rows[id].(offset := |parts[id]|)
        decreases |left|
      {
        var id :| id in left;
        left := left - {id};
        if rows[id].workspace == workspace && rows[id].completed.None? {
          var got := Get(Contents(), allowed, workspace, id);
          if got.Err? {
            assert Shown(Contents(), workspace, id);
            return Err(got.error);
          }
          shown := shown[id := got.value];
        }
      }
      return Ok(shown);
    }

    method Create(id: Id, workspace: nat, path: string, name: string, size: nat, lastModified: nat, allowed: Policy, now: Time)
      returns (r: Result<Row, Error>)
      requires Valid() && Unused(Contents(), id)
      modifies this`rows, this`parts, this`passed, this`process
      ensures Valid()
      ensures r.Ok? <==> MayBegin(workspace, path, name, size, lastModified, allowed) &&
                         |Unnamed(old(Contents()))| + |Remaining(old(Contents()), busy, now)| < UPLOAD_LIMIT
      ensures r == Err(LimitReached) <==> MayBegin(workspace, path, name, size, lastModified, allowed) &&
                                          |Unnamed(old(Contents()))| + |Remaining(old(Contents()), busy, now)| >= UPLOAD_LIMIT
      ensures r.Ok? ==> r.value == Row(workspace, path, size, 0, now, None) &&
                        var clean := Cleaned(old(Contents()), busy, now);
                        Contents() == clean.(rows := clean.rows[id := r.value], parts := clean.parts[id := []]) &&
                        |passed| >= 2 && passed[|passed| - 2] == clean.(parts := clean.parts[id := []]) && id !in clean.rows
      ensures r.Err? ==> Contents() == if r.error == LimitReached then Cleaned(old(Contents()), busy, now) else old(Contents())
    {
      hide Sound, Cleaned, Possible, Next, Reaches;
      if path == "" || |name| > NAME_LIMIT || size > MAX_SAFE_INTEGER || lastModified > MAX_SAFE_INTEGER {
        return Err(InvalidUpload);
      }
      if size > MAX_UPLOAD_BYTES {
        return Err(TooLarge);
      }
      if !allowed(workspace, path) {
        return Err(NotAllowed);
      }
      CountedAgainstLimit(Contents(), busy, now);
      Cleanup(now);
      if |parts| >= UPLOAD_LIMIT {
        return Err(LimitReached);
      }
      var row := Row(workspace, path, size, 0, now, None);
      AddData(id);
      AddRow(id, row);
      return Ok(row);
    }

    /**
     Chunks are written after what is stored; if one is too much, or the client's stream breaks, the file is cut back
     to where it was.
     */
    method Append(id: Id, workspace: nat, offset: nat, chunks: seq<Bytes>, breaks: bool, allowed: Policy, now: Time)
      returns (r: Result<Row, Error>)
      requires Valid() && Honest(client, id, offset, chunks)
      modifies this`rows, this`parts, this`passed, this`process, this`busy
      ensures Valid() && busy == old(busy)
      ensures r.Ok? <==> id !in busy && Get(old(Contents()), allowed, workspace, id).Ok? &&
                         var row := Get(old(Contents()), allowed, workspace, id).value;
                         id in old(parts) && offset == row.offset && !breaks &&
                         |Joined(chunks)| <= CHUNK_LIMIT && offset + |Joined(chunks)| <= row.size
      ensures r.Err? ==> Contents() == old(Contents())
      ensures r.Ok? ==> id in old(rows) && id in old(parts) && parts == old(parts)[id := old(parts)[id] + Joined(chunks)] &&
                        rows == old(rows)[id := r.value] &&
                        r.value == old(rows)[id].(offset := offset + |Joined(chunks)|, updatedAt := now)
      ensures Since(old(Contents()), |old(passed)|, passed, id)
    {
      hide Sound, Begun, Honest, Possible, Next, Reaches;
      if id in busy {
        return Err(Busy);
      }
      busy := busy + {id};
      r := AppendHeld(id, workspace, offset, chunks, breaks, allowed, now);
      busy := busy - {id};
    }

    method AppendHeld(id: Id, workspace: nat, offset: nat, chunks: seq<Bytes>, breaks: bool, allowed: Policy, now: Time)
      returns (r: Result<Row, Error>)
      requires Valid() && Honest(client, id, offset, chunks) && id in busy && id !in process.held
      modifies this`rows, this`parts, this`passed, this`process
      ensures Valid() && id !in process.held
      ensures r.Ok? <==> Get(old(Contents()), allowed, workspace, id).Ok? &&
                         var row := Get(old(Contents()), allowed, workspace, id).value;
                         id in old(parts) && offset == row.offset && !breaks &&
                         |Joined(chunks)| <= CHUNK_LIMIT && offset + |Joined(chunks)| <= row.size
      ensures r.Err? ==> Contents() == old(Contents())
      ensures r.Ok? ==> id in old(rows) && id in old(parts) && parts == old(parts)[id := old(parts)[id] + Joined(chunks)] &&
                        rows == old(rows)[id := r.value] &&
                        r.value == old(rows)[id].(offset := offset + |Joined(chunks)|, updatedAt := now)
      ensures Since(old(Contents()), |old(passed)|, passed, id)
    {
      hide Sound, Begun, Honest, KeepsBeginning, Possible, Next, Reaches;
      var got := Get(Contents(), allowed, workspace, id);
      if got.Err? {
        return Err(got.error);
      }
      var row := got.value;
      if offset != row.offset {
        return Err(OffsetConflict);
      }
      if id !in parts {
        return Err(DataMissing);
      }
      Begin(id);
      ghost var stored := parts[id];
      assert Sound(Contents(), client);
      StoredIsBegun(Contents(), client, allowed, workspace, id);
      ghost var before, n := Contents(), |passed|;
      var added, fit := TakeChunks(id, offset, row.size, chunks, before, n);
      if !fit {
        return Err(InvalidChunk);
      }
      assert parts[id][..offset] == stored;
      if breaks {
        CutBack(id, offset, before, n);
        return Err(SourceFailed);
      }
      SameReceipt(Contents(), client, id, offset, added, now);
      row := row.(offset := row.offset + added, updatedAt := now);
      RowKept(before, Contents(), id, row);
      KeepOffset(id, row, now);
      return Ok(row);
    }

    /**
     The whole file is handed to the workspace, and the receipt kept if receipts are. A receipt that is there already
     is returned, and nothing is stored again.
     */
    method Finish(id: Id, workspace: nat, accepted: bool, allowed: Policy, now: Time) returns (r: Result<nat, Error>)
      requires Valid()
      modifies this`rows, this`parts, this`passed, this`process, this`committed, this`busy
      ensures Valid() && busy == old(busy)
      ensures r.Ok? <==> id !in busy && Get(old(Contents()), allowed, workspace, id).Ok? &&
                         var row := Get(old(Contents()), allowed, workspace, id).value;
                         row.offset == row.size && (row.completed.Some? || accepted)
      ensures r.Err? ==> Contents() == old(Contents())
      ensures r.Ok? ==> id in old(rows) && Stored(committed, client, id, old(rows)[id], r.value)
      ensures r.Ok? && old(rows)[id].completed.Some? ==> Contents() == old(Contents()) && Some(r.value) == old(rows)[id].completed
      ensures r.Ok? && old(rows)[id].completed.None? ==>
                committed[..|committed| - 1] == old(committed) && r.value == |old(committed)| && parts == old(parts) - {id} &&
                if keepReceipts then id in rows && rows == old(rows)[id := rows[id]] && rows[id].completed == Some(r.value)
                else rows == old(rows) - {id}
      ensures DataUntilReceived(old(Contents()), |old(passed)|, passed, id)
    {
      hide Sound, Begun, Possible, Next, Reaches;
      if id in busy {
        return Err(Busy);
      }
      busy := busy + {id};
      r := FinishHeld(id, workspace, accepted, allowed, now);
      busy := busy - {id};
    }

    method FinishHeld(id: Id, workspace: nat, accepted: bool, allowed: Policy, now: Time) returns (r: Result<nat, Error>)
      requires Valid() && id in busy && id !in process.held
      modifies this`rows, this`parts, this`passed, this`process, this`committed
      ensures Valid() && id !in process.held
      ensures r.Ok? <==> Get(old(Contents()), allowed, workspace, id).Ok? &&
                         var row := Get(old(Contents()), allowed, workspace, id).value;
                         row.offset == row.size && (row.completed.Some? || accepted)
      ensures r.Err? ==> Contents() == old(Contents())
      ensures r.Ok? ==> id in old(rows) && Stored(committed, client, id, old(rows)[id], r.value)
      ensures r.Ok? && old(rows)[id].completed.Some? ==> Contents() == old(Contents()) && Some(r.value) == old(rows)[id].completed
      ensures r.Ok? && old(rows)[id].completed.None? ==>
                committed[..|committed| - 1] == old(committed) && r.value == |old(committed)| && parts == old(parts) - {id} &&
                if keepReceipts then id in rows && rows == old(rows)[id := rows[id]] && rows[id].completed == Some(r.value)
                else rows == old(rows) - {id}
      ensures DataUntilReceived(old(Contents()), |old(passed)|, passed, id)
    {
      var got := Get(Contents(), allowed, workspace, id);
      if got.Err? {
        return Err(got.error);
      }
      var row := got.value;
      assert Sound(Contents(), client);
      if row.offset != row.size {
        return Err(Incomplete);
      }
      if row.completed.Some? {
        assert Receipt(Contents(), id);
        return Ok(row.completed.value);
      }
      StoredIsBegun(Contents(), client, allowed, workspace, id);
      if !accepted {
        return Err(CommitFailed);
      }
      hide Sound, Begun, Possible, Next, Reaches;
      var receipt := |committed|;
      Receive(id);
      if keepReceipts {
        KeepReceipt(id, row.(completed := Some(receipt), updatedAt := now), now);
      }
      RemoveData(id);
      if !keepReceipts {
        RemoveRow(id);
      }
      return Ok(receipt);
    }

    method Cancel(id: Id, workspace: nat, allowed: Policy) returns (r: Result<(), Error>)
      requires Valid()
      modifies this`rows, this`parts, this`passed, this`process
      ensures Valid()
      ensures r.Ok? <==> id !in busy && Get(old(Contents()), allowed, workspace, id).Ok?
      ensures Contents() == if r.Ok? then Disk(old(rows) - {id}, old(parts) - {id}, committed) else old(Contents())
    {
      hide Sound, Begun, Possible, Next, Reaches;
      if id in busy {
        return Err(Busy);
      }
      var got := Get(Contents(), allowed, workspace, id);
      if got.Err? {
        return Err(got.error);
      }
      RemoveData(id);
      RemoveRow(id);
      return Ok(());
    }
  }

  /** The checks of `create` on its input. */
  ghost predicate MayBegin(workspace: nat, path: string, name: string, size: nat, lastModified: nat, allowed: Policy) {
    path != "" && |name| <= NAME_LIMIT && size <= MAX_UPLOAD_BYTES && lastModified <= MAX_SAFE_INTEGER &&
    allowed(workspace, path)
  }

  /** A commit that holds the whole of the client's file, as long as it was announced. */
  ghost predicate Stored(committed: seq<Commit>, client: Client, id: Id, row: Row, receipt: nat) {
    receipt < |committed| && row.size <= |client(id)| &&
    committed[receipt] == Commit(id, row.workspace, row.path, row.size, client(id)[..row.size])
  }

  /** The data of an upload goes only after the workspace has it. */
  ghost predicate DataUntilReceived(before: Disk, n: nat, passed: seq<Disk>, id: Id) {
    forall i :: n <= i < |passed| ==> HasDataOrReceived(before, passed[i], id)
  }

  ghost predicate HasDataOrReceived(before: Disk, d: Disk, id: Id) {
    id in before.parts ==>
      (id in d.parts && d.parts[id] == before.parts[id]) ||
      (|d.committed| == |before.committed| + 1 && d.committed[|before.committed|].id == id &&
       d.committed[|before.committed|].bytes == before.parts[id])
  }

  /** What was stored of an upload is still there, and the other uploads are as they were. */
  ghost predicate KeepsBeginning(before: Disk, d: Disk, id: Id) {
    d.committed == before.committed && d.rows.Keys == before.rows.Keys && d.parts.Keys == before.parts.Keys &&
    (id in before.parts ==> before.parts[id] <= d.parts[id]) &&
    (forall other :: other != id && other in d.parts ==> d.parts[other] == before.parts[other]) &&
    forall other :: other != id && other in d.rows ==> d.rows[other] == before.rows[other]
  }

  /** The data of a readable upload. */
  lemma StoredIsBegun(d: Disk, client: Client, allowed: Policy, workspace: nat, id: Id)
    requires Sound(d, client) && Get(d, allowed, workspace, id).Ok? && id in d.parts
    ensures var row := Get(d, allowed, workspace, id).value;
            row.offset == |d.parts[id]| && row.size == d.rows[id].size && Begun(client, id, row.size, d.parts[id]) &&
            (row.completed.Some? ==> row.offset == row.size)
    ensures KeepsBeginning(d, d, id)
  {
    if d.rows[id].completed.Some? {
      assert Receipt(d, id);
    }
  }

  /** An upload that has its receipt gets no more bytes, so the receipt still fits. */
  lemma SameReceipt(d: Disk, client: Client, id: Id, offset: nat, added: nat, now: Time)
    requires Sound(d, client) && id in d.rows && offset + added <= d.rows[id].size
    requires d.rows[id].completed.Some? ==> offset == d.rows[id].offset
    ensures var row := d.rows[id].(offset := offset + added, updatedAt := now);
            row.completed.Some? ==> Receipt(d.(rows := d.rows[id := row]), id)
  {
    if d.rows[id].completed.Some? {
      assert Receipt(d, id);
    }
  }

  lemma MoreKept(before: Disk, d: Disk, id: Id, data: Bytes)
    requires KeepsBeginning(before, d, id) && id in d.parts && d.parts[id] <= data
    ensures KeepsBeginning(before, d.(parts := d.parts[id := data]), id)
  {
  }

  lemma RowKept(before: Disk, d: Disk, id: Id, row: Row)
    requires KeepsBeginning(before, d, id) && id in d.rows
    ensures KeepsBeginning(before, d.(rows := d.rows[id := row]), id)
  {
  }

  lemma ChunkFits(client: Client, id: Id, size: nat, stored: Bytes, chunks: seq<Bytes>, i: nat)
    requires Begun(client, id, size, stored) && Honest(client, id, |stored|, chunks) && i < |chunks|
    requires |stored| + |Joined(chunks[..i + 1])| <= size
    ensures Begun(client, id, size, stored + Joined(chunks[..i + 1]))
    ensures stored + Joined(chunks[..i + 1]) == stored + Joined(chunks[..i]) + chunks[i]
  {
    JoinedNext(chunks, i);
    StillBegun(client, id, size, stored, Joined(chunks[..i + 1]), Joined(chunks));
  }

  ghost predicate Since(before: Disk, n: nat, passed: seq<Disk>, id: Id) {
    forall i :: n <= i < |passed| ==> KeepsBeginning(before, passed[i], id)
  }
}
