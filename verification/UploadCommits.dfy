/** What the workspaces receive over many lives of the process: the client's files, and how often each. */
module UploadCommits {
  import opened Common
  import opened UploadModel
  import opened UploadHistory

  /** How often an upload was stored. */
  function Times(committed: seq<Commit>, id: Id): nat {
    if committed == [] then 0
    else Times(committed[..|committed| - 1], id) + if committed[|committed| - 1].id == id then 1 else 0
  }

  lemma {:induction false} TimesWas(committed: seq<Commit>, id: Id)
    ensures Times(committed, id) > 0 <==> Was(committed, id)
  {
    if committed != [] {
      var front := committed[..|committed| - 1];
      TimesWas(front, id);
      if Was(front, id) {
        var i :| 0 <= i < |front| && front[i].id == id;
        assert committed[i].id == id;
      }
      if Was(committed, id) {
        var i :| 0 <= i < |committed| && committed[i].id == id;
        if i < |front| {
          assert front[i].id == id;
        }
      }
    }
  }

  lemma TimesMore(committed: seq<Commit>, c: Commit, id: Id)
    ensures Times(committed + [c], id) == Times(committed, id) + if c.id == id then 1 else 0
  {
    assert (committed + [c])[..|committed|] == committed;
  }

  // ---------------------------------------------------------------- what every process keeps

  /** A call knows what it left on disk. */
  ghost predicate HoldOk(d: Disk, id: Id, h: Hold) {
    id in d.rows &&
    match h
    case Appending(stored) =>
      id in d.parts && stored <= d.parts[id] &&
      (d.rows[id].completed.Some? || Was(d.committed, id) ==> |stored| == d.rows[id].size)
    case Storing(receipt) =>
      d.rows[id].completed.None? && receipt < |d.committed| &&
      var c := d.committed[receipt];
      c.id == id && c.workspace == d.rows[id].workspace && c.path == d.rows[id].path && c.size == d.rows[id].size
    case Receipted => d.rows[id].completed.Some?
  }

  ghost predicate HeldOk(p: Process) {
    forall id :: id in p.held ==> HoldOk(p.disk, id, p.held[id])
  }

  /** The data of an upload that was stored is the whole of it. */
  ghost predicate StoredWhole(d: Disk) {
    forall id :: id in d.parts && Was(d.committed, id) ==> id in d.rows && |d.parts[id]| == d.rows[id].size
  }

  ghost predicate NotYetStored(p: Process) {
    p.making.Some? ==> !Was(p.disk.committed, p.making.value)
  }

  ghost predicate Inv(p: Process, client: Client) {
    Sound(p.disk, client) && MakingOk(p) && NotYetStored(p) && HeldOk(p) && StoredWhole(p.disk)
  }

  lemma WasMore(committed: seq<Commit>, c: Commit, id: Id)
    ensures Was(committed + [c], id) <==> Was(committed, id) || c.id == id
  {
    if Was(committed, id) {
      var i :| 0 <= i < |committed| && committed[i].id == id;
      assert (committed + [c])[i].id == id;
    }
    assert (committed + [c])[|committed|] == c;
    if Was(committed + [c], id) {
      var i :| 0 <= i < |committed + [c]| && (committed + [c])[i].id == id;
      assert i < |committed| ==> committed[i].id == id;
    }
  }

  lemma NextSound(keep: bool, client: Client, p: Process, s: Step)
    requires Inv(p, client) && Possible(keep, client, p, s)
    ensures Sound(Next(keep, client, p, s).disk, client)
  {
    var d := p.disk;
    match s {
      case NewData(id) => AddPart(d, client, id);
      case NewRow(id, row) => assert d.parts[id] == []; SetRow(d, client, id, row);
      case Open(id) =>
      case Piece(id, bytes) => SetPart(d, client, id, d.parts[id] + bytes);
      case Cut(id) => SetPart(d, client, id, p.held[id].stored);
      case SaveOffset(id, now) =>
        assert d.rows[id].completed.Some? ==> Receipt(d, id);
        SetRow(d, client, id, d.rows[id].(offset := |d.parts[id]|, updatedAt := now));
      case Store(id) => AddCommit(d, client, Handed(d, id));
      case SaveReceipt(id, now) =>
        SetRow(d, client, id, WithReceipt(d.rows[id], p.held[id].receipt, now));
      case EraseData(id) => DropPart(d, client, id);
      case EraseRow(id) => DropRow(d, client, id);
      case Stop =>
    }
  }

  lemma NextHeld(keep: bool, client: Client, p: Process, s: Step)
    requires Inv(p, client) && Possible(keep, client, p, s)
    ensures HeldOk(Next(keep, client, p, s))
  {
    hide NotYetStored;
    var q := Next(keep, client, p, s);
    if s.Open? && p.disk.rows[s.id].completed.Some? {
      assert Receipt(p.disk, s.id);
    }
    hide Sound;
    if s.Store? {
      forall id ensures Was(q.disk.committed, id) <==> Was(p.disk.committed, id) || id == s.id {
        WasMore(p.disk.committed, Handed(p.disk, s.id), id);
      }
    }
    hide Was;
    forall id | id in q.held ensures HoldOk(q.disk, id, q.held[id]) {
      if id in p.held {
        assert HoldOk(p.disk, id, p.held[id]);
      }
    }
  }

  lemma NextWhole(keep: bool, client: Client, p: Process, s: Step)
    requires Inv(p, client) && Possible(keep, client, p, s)
    ensures StoredWhole(Next(keep, client, p, s).disk) && NotYetStored(Next(keep, client, p, s))
  {
    hide Sound;
    var q := Next(keep, client, p, s);
    if s.Store? {
      forall id ensures Was(q.disk.committed, id) <==> Was(p.disk.committed, id) || id == s.id {
        WasMore(p.disk.committed, Handed(p.disk, s.id), id);
      }
    }
    hide Was;
  }

  /**
   Whatever the calls at work write in whatever order, and wherever the process stops: data on disk is a beginning of
   the client's file, what a workspace received is the whole of it, and a receipt names a commit of its own upload.
   */
  lemma {:induction false} AlwaysSound(keep: bool, client: Client, p: Process, steps: seq<Step>)
    requires Inv(p, client) && Legal(keep, client, p, steps)
    ensures Inv(After(keep, client, p, steps), client)
    decreases |steps|
  {
    hide Possible, Next, Sound, MakingOk, HeldOk, StoredWhole, NotYetStored;
    if steps != [] {
      AlwaysSound(keep, client, p, Front(steps));
      NextKeeps(keep, client, After(keep, client, p, Front(steps)), Final(steps));
    }
  }

  lemma NextKeeps(keep: bool, client: Client, p: Process, s: Step)
    requires Inv(p, client) && Possible(keep, client, p, s)
    ensures Inv(Next(keep, client, p, s), client)
  {
    NextSound(keep, client, p, s);
    NextHeld(keep, client, p, s);
    NextWhole(keep, client, p, s);
    OrphansNext(keep, client, p, s);
  }

  // ---------------------------------------------------------------- how often an upload is stored

  /** The commit is there, and neither the receipt saved nor the data removed. */
  ghost predicate BetweenCommitAndReceipt(p: Process, id: Id) {
    id in p.held && p.held[id].Storing? && Present(p.disk, id)
  }

  ghost function StopsBetween(keep: bool, client: Client, p: Process, steps: seq<Step>, id: Id): nat
    requires Legal(keep, client, p, steps)
    decreases |steps|
  {
    if steps == [] then 0
    else
      StopsBetween(keep, client, p, Front(steps), id) +
      if Final(steps).Stop? && BetweenCommitAndReceipt(After(keep, client, p, Front(steps)), id) then 1 else 0
  }

  /** How often it was stored, and once more if the next `finish` would store it. */
  ghost function Chances(p: Process, id: Id): nat {
    Times(p.disk.committed, id) +
    if Was(p.disk.committed, id) && (!Unreceipted(p.disk, id) || (id in p.held && p.held[id].Storing?)) then 0 else 1
  }

  lemma NextChances(keep: bool, client: Client, p: Process, s: Step, id: Id)
    requires Inv(p, client) && Possible(keep, client, p, s)
    ensures Chances(Next(keep, client, p, s), id) <=
            Chances(p, id) + if s.Stop? && BetweenCommitAndReceipt(p, id) then 1 else 0
  {
    hide Sound, StoredWhole;
    if s.Store? {
      WasMore(p.disk.committed, Handed(p.disk, s.id), id);
      TimesMore(p.disk.committed, Handed(p.disk, s.id), id);
    }
    hide Was, Times;
  }

  /**
   An upload is stored once, and once more at most for each time the process stopped between the commit and the saved
   receipt (or, without receipts, the removal of the data).
   */
  lemma {:induction false} StoredAtMost(keep: bool, client: Client, p: Process, steps: seq<Step>, id: Id)
    requires Inv(p, client) && !Was(p.disk.committed, id) && Legal(keep, client, p, steps)
    ensures Chances(After(keep, client, p, steps), id) <= 1 + StopsBetween(keep, client, p, steps, id)
    ensures Times(After(keep, client, p, steps).disk.committed, id) <= 1 + StopsBetween(keep, client, p, steps, id)
    decreases |steps|
  {
    hide Possible, Next, Inv, BetweenCommitAndReceipt;
    if steps == [] {
      TimesWas(p.disk.committed, id);
    } else {
      var q := After(keep, client, p, Front(steps));
      StoredAtMost(keep, client, p, Front(steps), id);
      AlwaysSound(keep, client, p, Front(steps));
      NextChances(keep, client, q, Final(steps), id);
    }
  }

  /** Some process to come, or this one, stores the upload. */
  ghost predicate StoresAgain(keep: bool, client: Client, p: Process, id: Id) {
    exists q :: Reaches(keep, client, p, q) && Possible(keep, client, q, Store(id))
  }

  /** Stored, and with nothing left that a `finish` would store. */
  ghost predicate Settled(p: Process, id: Id) {
    Was(p.disk.committed, id) && !Unreceipted(p.disk, id)
  }

  lemma NextSettled(keep: bool, client: Client, p: Process, s: Step, id: Id)
    requires Inv(p, client) && Settled(p, id) && Possible(keep, client, p, s)
    ensures Settled(Next(keep, client, p, s), id)
  {
    hide Sound, StoredWhole;
    if s.Store? {
      WasMore(p.disk.committed, Handed(p.disk, s.id), id);
    }
    hide Was;
  }

  lemma {:induction false} StaysSettled(keep: bool, client: Client, p: Process, steps: seq<Step>, id: Id)
    requires Inv(p, client) && Settled(p, id) && Legal(keep, client, p, steps)
    ensures Settled(After(keep, client, p, steps), id)
    decreases |steps|
  {
    hide Possible, Next, Inv, Settled;
    if steps != [] {
      StaysSettled(keep, client, p, Front(steps), id);
      AlwaysSound(keep, client, p, Front(steps));
      NextSettled(keep, client, After(keep, client, p, Front(steps)), Final(steps), id);
    }
  }

  /** What was stored can be stored again exactly while its data is there and its receipt is not. */
  lemma StoresAgainIff(keep: bool, client: Client, p: Process, id: Id)
    requires Inv(p, client) && Was(p.disk.committed, id)
    ensures StoresAgain(keep, client, p, id) <==> Unreceipted(p.disk, id)
  {
    hide Sound, Was;
    if StoresAgain(keep, client, p, id) && !Unreceipted(p.disk, id) {
      var q :| Reaches(keep, client, p, q) && Possible(keep, client, q, Store(id));
      var steps :| Legal(keep, client, p, steps) && After(keep, client, p, steps) == q;
      StaysSettled(keep, client, p, steps, id);
      assert false;
    }
    if Unreceipted(p.disk, id) {
      ReachesItself(keep, client, p);
      ReachesNext(keep, client, p, p, Stop);
      assert Possible(keep, client, Started(p.disk), Store(id));
    }
  }

  /** A store that was never used. */
  lemma FromNothing(client: Client)
    ensures Inv(Started(NOTHING), client)
  {
  }

  /** A file of one byte, sent whole. */
  lemma Uploaded(keep: bool, client: Client, id: Id, row: Row, now: Time) returns (q: Process)
    requires client(id) != [] && row.size == 1 && row.offset == 0 && row.completed.None?
    ensures Reaches(keep, client, Started(NOTHING), q)
    ensures q == Started(Disk(map[id := row.(offset := 1, updatedAt := now)], map[id := client(id)[..1]], []))
  {
    hide Reaches;
    var p, file := Started(NOTHING), client(id)[..1];
    ReachesItself(keep, client, p);
    q := Takes(keep, client, p, p, NewData(id));
    q := Takes(keep, client, p, q, NewRow(id, row));
    q := Takes(keep, client, p, q, Open(id));
    assert q.disk.parts[id] + file == file;
    q := Takes(keep, client, p, q, Piece(id, file));
    q := Takes(keep, client, p, q, SaveOffset(id, now));
  }

  /** The run: the process stops right after the commit, and the client asks the next one to finish. */
  lemma StoredTwice(keep: bool, client: Client, id: Id, workspace: nat, path: string, now: Time) returns (q: Process)
    requires client(id) != []
    ensures Reaches(keep, client, Started(NOTHING), q)
    ensures var c := Commit(id, workspace, path, 1, client(id)[..1]); q.disk.committed == [c, c]
  {
    hide Reaches;
    var p := Started(NOTHING);
    q := Uploaded(keep, client, id, Row(workspace, path, 1, 0, now, None), now);
    q := Takes(keep, client, p, q, Store(id));
    q := Takes(keep, client, p, q, Stop);
    q := Takes(keep, client, p, q, Store(id));
  }

  lemma Takes(keep: bool, client: Client, p: Process, q: Process, s: Step) returns (r: Process)
    requires Reaches(keep, client, p, q) && Possible(keep, client, q, s)
    ensures Reaches(keep, client, p, r) && r == Next(keep, client, q, s)
  {
    ReachesNext(keep, client, p, q, s);
    r := Next(keep, client, q, s);
  }

  // ---------------------------------------------------------------- a removal cut short

  /** Unfinished uploads whose data is gone. */
  ghost function Halves(d: Disk): set<Id> {
    set id | id in d.rows && id !in d.parts && d.rows[id].completed.None?
  }

  /** The unfinished uploads whose data was removed and whose row was not, since. */
  ghost function RemovedHalf(keep: bool, client: Client, p: Process, steps: seq<Step>): set<Id>
    requires Legal(keep, client, p, steps)
    decreases |steps|
  {
    if steps == [] then {}
    else
      var before, q := RemovedHalf(keep, client, p, Front(steps)), After(keep, client, p, Front(steps));
      match Final(steps)
      case EraseData(id) => if Unreceipted(q.disk, id) then before + {id} else before
      case EraseRow(id) => before - {id}
      case _ => before
  }

  /** Where receipts are kept, the data stays until the receipt is saved. */
  ghost predicate StoringThere(keep: bool, p: Process) {
    keep ==> forall id :: id in p.held && p.held[id].Storing? ==> id in p.disk.parts
  }

  lemma NextHalves(keep: bool, client: Client, p: Process, s: Step)
    requires MakingOk(p) && StoringThere(keep, p) && Possible(keep, client, p, s)
    ensures StoringThere(keep, Next(keep, client, p, s))
    ensures Halves(Next(keep, client, p, s).disk) ==
            match s
            case EraseData(id) => if Unreceipted(p.disk, id) then Halves(p.disk) + {id} else Halves(p.disk)
            case EraseRow(id) => Halves(p.disk) - {id}
            case _ => Halves(p.disk)
  {
    hide Was;
  }

  /** Over any history, such uploads are those whose removal is half done, or was left so by a stop, and no others. */
  lemma {:induction false} HalvesAre(keep: bool, client: Client, p: Process, steps: seq<Step>)
    requires Inv(p, client) && StoringThere(keep, p) && Halves(p.disk) == {} && Legal(keep, client, p, steps)
    ensures StoringThere(keep, After(keep, client, p, steps))
    ensures Halves(After(keep, client, p, steps).disk) == RemovedHalf(keep, client, p, steps)
    decreases |steps|
  {
    hide Possible, Next, Sound, MakingOk, HeldOk, StoredWhole, NotYetStored, Halves, Unreceipted, StoringThere;
    if steps != [] {
      HalvesAre(keep, client, p, Front(steps));
      AlwaysSound(keep, client, p, Front(steps));
      NextHalves(keep, client, After(keep, client, p, Front(steps)), Final(steps));
    }
  }

  /** Paths being allowed, `list` throws exactly while one of them is of the workspace and has not expired. */
  lemma ListThrowsIff(d: Disk, busy: set<Id>, allowed: Policy, workspace: nat, now: Time)
    requires forall id :: Shown(d, workspace, id) ==> allowed(workspace, d.rows[id].path)
    ensures !Listable(Cleaned(d, busy, now), allowed, workspace) <==>
            exists id :: id in Halves(d) && d.rows[id].workspace == workspace && (id in busy || !Expired(d.rows[id], now))
  {
    var clean := Cleaned(d, busy, now);
    if id :| Shown(clean, workspace, id) && id !in clean.parts {
      assert Shown(d, workspace, id) && id in Halves(d);
    }
    forall id | id in Halves(d) && d.rows[id].workspace == workspace && (id in busy || !Expired(d.rows[id], now))
      ensures Shown(clean, workspace, id) && id !in clean.parts
    {
    }
    forall id | Shown(clean, workspace, id) ensures allowed(workspace, clean.rows[id].path) {
      assert Shown(d, workspace, id);
    }
  }

  /** Cancelling removes the data first; a stop after that leaves a row without data, which is listed for a day in vain. */
  lemma CancelCutShort(keep: bool, client: Client, id: Id, row: Row) returns (q: Process)
    requires row.offset == 0 && row.completed.None?
    ensures Reaches(keep, client, Started(NOTHING), q) && q == Started(Disk(map[id := row], map[], []))
    ensures forall now :: !Expired(row, now) ==> !Listable(Cleaned(q.disk, {}, now), (w, f) => true, row.workspace)
  {
    hide Reaches;
    var p := Started(NOTHING);
    ReachesItself(keep, client, p);
    q := Takes(keep, client, p, p, NewData(id));
    q := Takes(keep, client, p, q, NewRow(id, row));
    q := Takes(keep, client, p, q, EraseData(id));
    q := Takes(keep, client, p, q, Stop);
    forall now | !Expired(row, now) ensures !Listable(Cleaned(q.disk, {}, now), (w, f) => true, row.workspace) {
      ListThrowsIff(q.disk, {}, (w, f) => true, row.workspace, now);
      assert id in Halves(q.disk);
    }
  }
}
