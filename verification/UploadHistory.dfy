/**
 Uploads over many lives of the process: every single write of the calls at work, in any order the guards allow, with
 a stop between any two of them.
 */
module UploadHistory {
  import opened Common
  import opened UploadModel

  /** Where a call that has an upload to itself stands; `stored` is the data it found. */
  datatype Hold =
    | Appending(stored: Bytes)
    | Storing(receipt: nat)
    | Receipted

  /** `making` is the upload whose data file a `create` has written, and whose row it writes next. */
  datatype Process = Process(disk: Disk, making: Option<Id>, held: map<Id, Hold>)

  datatype Step =
    | NewData(id: Id)
    | NewRow(id: Id, row: Row)
    | Open(id: Id)
    | Piece(id: Id, bytes: Bytes)
    | Cut(id: Id)
    | SaveOffset(id: Id, now: Time)
    | Store(id: Id)
    | SaveReceipt(id: Id, now: Time)
    | EraseData(id: Id)
    | EraseRow(id: Id)
    | Stop

  ghost predicate Was(committed: seq<Commit>, id: Id) {
    exists i :: 0 <= i < |committed| && committed[i].id == id
  }

  /** An id that was never drawn before. */
  ghost predicate Unused(d: Disk, id: Id) {
    id !in d.rows && id !in d.parts && !Was(d.committed, id)
  }

  ghost predicate Present(d: Disk, id: Id) {
    id in d.rows && id in d.parts
  }

  /** Data without a receipt, which a `finish` takes for an upload that no workspace has yet. */
  ghost predicate Unreceipted(d: Disk, id: Id) {
    Present(d, id) && d.rows[id].completed.None?
  }

  /** The guards in front of each write, `keep` being whether receipts are kept. */
  ghost predicate Possible(keep: bool, client: Client, p: Process, s: Step) {
    var d := p.disk;
    match s
    case NewData(id) => p.making.None? && Unused(d, id) && |d.parts| < UPLOAD_LIMIT
    case NewRow(id, row) => p.making == Some(id) && row.offset == 0 && row.completed.None?
    case Open(id) => Present(d, id) && id !in p.held
    case Piece(id, bytes) =>
      Present(d, id) && id in p.held && p.held[id].Appending? && bytes != [] &&
      Begun(client, id, d.rows[id].size, d.parts[id] + bytes) &&
      |d.parts[id]| + |bytes| <= |p.held[id].stored| + CHUNK_LIMIT
    case Cut(id) => Present(d, id) && id in p.held && p.held[id].Appending?
    case SaveOffset(id, now) => Present(d, id) && id in p.held && p.held[id].Appending?
    case Store(id) => Unreceipted(d, id) && id !in p.held && |d.parts[id]| == d.rows[id].size
    case SaveReceipt(id, now) => keep && id in d.rows && id in p.held && p.held[id].Storing?
    case EraseData(id) => id in d.rows && (id in p.held ==> if keep then p.held[id].Receipted? else p.held[id].Storing?)
    case EraseRow(id) => id in d.rows && id !in d.parts && (id in p.held ==> !keep && p.held[id].Storing?)
    case Stop => true
  }

  ghost function Next(keep: bool, client: Client, p: Process, s: Step): Process
    requires Possible(keep, client, p, s)
  {
    var d := p.disk;
    match s
    case NewData(id) => p.(disk := d.(parts := d.parts[id := []]), making := Some(id))
    case NewRow(id, row) => p.(disk := d.(rows := d.rows[id := row]), making := None)
    case Open(id) => p.(held := p.held[id := Appending(d.parts[id])])
    case Piece(id, bytes) => p.(disk := d.(parts := d.parts[id := d.parts[id] + bytes]))
    case Cut(id) => p.(disk := d.(parts := d.parts[id := p.held[id].stored]), held := p.held - {id})
    case SaveOffset(id, now) =>
      p.(disk := d.(rows := d.rows[id := d.rows[id].(offset := |d.parts[id]|, updatedAt := now)]), held := p.held - {id})
    case Store(id) =>
      p.(disk := d.(committed := d.committed + [Handed(d, id)]), held := p.held[id := Storing(|d.committed|)])
    case SaveReceipt(id, now) =>
      p.(disk := d.(rows := d.rows[id := WithReceipt(d.rows[id], p.held[id].receipt, now)]), held := p.held[id := Receipted])
    case EraseData(id) => p.(disk := d.(parts := d.parts - {id}), held := if keep then p.held - {id} else p.held)
    case EraseRow(id) => p.(disk := d.(rows := d.rows - {id}), held := p.held - {id})
    case Stop => Started(d)
  }

  function Handed(d: Disk, id: Id): Commit
    requires id in d.rows && id in d.parts
  {
    Commit(id, d.rows[id].workspace, d.rows[id].path, d.rows[id].size, d.parts[id])
  }

  function WithReceipt(row: Row, receipt: nat, now: Time): Row {
    row.(offset := row.size, completed := Some(receipt), updatedAt := now)
  }

  /** A process on whatever disk the last one left. */
  function Started(d: Disk): Process {
    Process(d, None, map[])
  }

  ghost predicate Legal(keep: bool, client: Client, p: Process, steps: seq<Step>)
    decreases |steps|, 0
  {
    steps == [] ||
    (Legal(keep, client, p, Front(steps)) && Possible(keep, client, After(keep, client, p, Front(steps)), Final(steps)))
  }

  ghost function After(keep: bool, client: Client, p: Process, steps: seq<Step>): Process
    requires Legal(keep, client, p, steps)
    decreases |steps|, 1
  {
    if steps == [] then p else Next(keep, client, After(keep, client, p, Front(steps)), Final(steps))
  }

  function Front(steps: seq<Step>): seq<Step>
    requires steps != []
  {
    steps[..|steps| - 1]
  }

  function Final(steps: seq<Step>): Step
    requires steps != []
  {
    steps[|steps| - 1]
  }

  ghost predicate Reaches(keep: bool, client: Client, p: Process, q: Process) {
    exists steps :: Legal(keep, client, p, steps) && After(keep, client, p, steps) == q
  }

  lemma ReachesItself(keep: bool, client: Client, p: Process)
    ensures Reaches(keep, client, p, p)
  {
    assert Legal(keep, client, p, []) && After(keep, client, p, []) == p;
  }

  lemma ReachesNext(keep: bool, client: Client, p: Process, q: Process, s: Step)
    requires Reaches(keep, client, p, q) && Possible(keep, client, q, s)
    ensures Reaches(keep, client, p, Next(keep, client, q, s))
  {
    var steps :| Legal(keep, client, p, steps) && After(keep, client, p, steps) == q;
    OneMore(keep, client, p, steps, s);
  }

  lemma OneMore(keep: bool, client: Client, p: Process, steps: seq<Step>, s: Step)
    requires Legal(keep, client, p, steps) && Possible(keep, client, After(keep, client, p, steps), s)
    ensures Legal(keep, client, p, steps + [s])
    ensures After(keep, client, p, steps + [s]) == Next(keep, client, After(keep, client, p, steps), s)
  {
    hide Possible, Next;
    assert Front(steps + [s]) == steps;
  }

  // ---------------------------------------------------------------- data files without a row

  /** Data files that no row names, and that no `create` is about to write the row of. */
  ghost function Orphans(p: Process): set<Id> {
    set id | id in p.disk.parts && id !in p.disk.rows && p.making != Some(id)
  }

  /** The uploads at whose creation the process stopped after the first write and before the second. */
  ghost function CutShort(keep: bool, client: Client, p: Process, steps: seq<Step>): set<Id>
    requires Legal(keep, client, p, steps)
    decreases |steps|
  {
    if steps == [] then {}
    else
      CutShort(keep, client, p, Front(steps)) +
      if Final(steps).Stop? then MadeHalf(After(keep, client, p, Front(steps))) else {}
  }

  ghost function MadeHalf(p: Process): set<Id> {
    if p.making.Some? then {p.making.value} else {}
  }

  /** An upload in the making has its data file and no row. */
  ghost predicate MakingOk(p: Process) {
    p.making.Some? ==> p.making.value in p.disk.parts && p.making.value !in p.disk.rows
  }

  lemma OrphansNext(keep: bool, client: Client, p: Process, s: Step)
    requires MakingOk(p) && Possible(keep, client, p, s)
    ensures MakingOk(Next(keep, client, p, s))
    ensures Orphans(Next(keep, client, p, s)) == Orphans(p) + if s.Stop? then MadeHalf(p) else {}
  {
  }

  /**
   Orphans are made by stops between the two writes of a `create`, by nothing else, and nothing ever removes one: not
   appending, finishing, cancelling, cleaning up or starting again.
   */
  lemma {:induction false} OrphansAre(keep: bool, client: Client, p: Process, steps: seq<Step>)
    requires MakingOk(p) && Legal(keep, client, p, steps)
    ensures MakingOk(After(keep, client, p, steps))
    ensures Orphans(After(keep, client, p, steps)) == Orphans(p) + CutShort(keep, client, p, steps)
    decreases |steps|
  {
    hide Possible, Next, Orphans, MadeHalf, MakingOk;
    if steps != [] {
      OrphansAre(keep, client, p, Front(steps));
      OrphansNext(keep, client, After(keep, client, p, Front(steps)), Final(steps));
    }
  }

  /** Once there are as many orphans as uploads may be, no upload is ever created again. */
  lemma RefusedForEver(keep: bool, client: Client, p: Process, steps: seq<Step>, k: nat)
    requires MakingOk(p) && |Orphans(p)| >= UPLOAD_LIMIT && Legal(keep, client, p, steps) && k < |steps|
    ensures !steps[k].NewData?
  {
    LegalFront(keep, client, p, steps, k + 1);
    assert Front(steps[..k + 1]) == steps[..k];
    OrphansAre(keep, client, p, steps[..k]);
    var q := After(keep, client, p, steps[..k]);
    SubsetIsSmaller(Orphans(p), q.disk.parts.Keys);
    assert |q.disk.parts| == |q.disk.parts.Keys|;
  }

  lemma {:induction false} LegalFront(keep: bool, client: Client, p: Process, steps: seq<Step>, k: nat)
    requires Legal(keep, client, p, steps) && k <= |steps|
    ensures Legal(keep, client, p, steps[..k])
    decreases |steps|
  {
    hide Possible, Next;
    if k == |steps| {
      assert steps[..k] == steps;
    } else {
      LegalFront(keep, client, p, Front(steps), k);
      assert Front(steps)[..k] == steps[..k];
    }
  }

  const NOTHING := Disk(map[], map[], [])

  /** The run that gets there: as many stops at a `create`, on a store that was empty. */
  function Stops(n: nat): seq<Step> {
    if n == 0 then [] else Stops(n - 1) + [NewData(n - 1)] + [Stop]
  }

  /** The empty data files that those stops leave. */
  function Halves(n: nat): (parts: map<Id, Bytes>)
    ensures |parts| == n && forall id :: id in parts ==> id < n && parts[id] == []
  {
    if n == 0 then map[] else Halves(n - 1)[n - 1 := []]
  }

  /** Creating an upload and stopping before its row. */
  lemma OneHalf(keep: bool, client: Client, n: nat)
    requires n < UPLOAD_LIMIT
    ensures var p := Started(NOTHING.(parts := Halves(n)));
            Possible(keep, client, p, NewData(n)) && Possible(keep, client, Next(keep, client, p, NewData(n)), Stop) &&
            Next(keep, client, Next(keep, client, p, NewData(n)), Stop) == Started(NOTHING.(parts := Halves(n + 1)))
  {
  }

  lemma {:induction false} StopsLeaveOrphans(keep: bool, client: Client, n: nat)
    requires n <= UPLOAD_LIMIT
    ensures Legal(keep, client, Started(NOTHING), Stops(n))
    ensures After(keep, client, Started(NOTHING), Stops(n)) == Started(NOTHING.(parts := Halves(n)))
    ensures |Orphans(After(keep, client, Started(NOTHING), Stops(n)))| == n
  {
    hide Possible, Next;
    if n > 0 {
      StopsLeaveOrphans(keep, client, n - 1);
      OneHalf(keep, client, n - 1);
      OneMore(keep, client, Started(NOTHING), Stops(n - 1), NewData(n - 1));
      OneMore(keep, client, Started(NOTHING), Stops(n - 1) + [NewData(n - 1)], Stop);
    }
    assert Orphans(Started(NOTHING.(parts := Halves(n)))) == Halves(n).Keys;
    assert |Halves(n).Keys| == |Halves(n)|;
  }

  /** An id that was never drawn: ids do not run out. */
  lemma SomeUnused(d: Disk) returns (id: Id)
    ensures Unused(d, id)
  {
    var ids := d.rows.Keys + d.parts.Keys + set i | 0 <= i < |d.committed| :: d.committed[i].id;
    id := Above(ids);
    forall i | 0 <= i < |d.committed| ensures d.committed[i].id != id {
      assert d.committed[i].id in ids;
    }
  }

  lemma {:induction false} Above(ids: set<Id>) returns (bound: Id)
    ensures forall id :: id in ids ==> id < bound
    decreases |ids|
  {
    if ids == {} {
      bound := 0;
    } else {
      var id :| id in ids;
      var rest := Above(ids - {id});
      bound := if rest > id then rest else id + 1;
      forall other | other in ids ensures other < bound {
        assert other == id || other in ids - {id};
      }
    }
  }

  lemma MayCreate(keep: bool, client: Client, p: Process, id: Id)
    requires p.making.None? && Unused(p.disk, id) && p.disk.parts.Keys == Orphans(p) && |Orphans(p)| < UPLOAD_LIMIT
    ensures Possible(keep, client, p, NewData(id))
  {
    assert |p.disk.parts| == |p.disk.parts.Keys|;
  }

  /** The row of the upload in the making is written, and the process stops and starts again. */
  lemma RowWritten(keep: bool, client: Client, p: Process) returns (q: Process)
    requires MakingOk(p)
    ensures Reaches(keep, client, p, q) && q == Started(q.disk) && Orphans(q) == Orphans(p)
  {
    ReachesItself(keep, client, p);
    q := p;
    if p.making.Some? {
      var step := NewRow(p.making.value, Row(0, "", 0, 0, 0, None));
      ReachesNext(keep, client, p, q, step);
      q := Next(keep, client, p, step);
      assert Orphans(q) == Orphans(p);
    }
    ReachesNext(keep, client, p, q, Stop);
    assert Orphans(Started(q.disk)) == Orphans(q);
    q := Started(q.disk);
  }

  /** All uploads are cancelled, or expire. */
  lemma {:induction false} DataDropped(keep: bool, client: Client, p: Process, q: Process) returns (r: Process)
    requires Reaches(keep, client, p, q) && q == Started(q.disk)
    ensures Reaches(keep, client, p, r) && r == Started(r.disk) && Orphans(r) == Orphans(q) && r.disk.parts.Keys == Orphans(r)
    decreases |q.disk.parts|
  {
    hide Reaches;
    if id :| id in q.disk.parts && id in q.disk.rows {
      ReachesNext(keep, client, p, q, EraseData(id));
      r := Next(keep, client, q, EraseData(id));
      assert Orphans(r) == Orphans(q) && r.held == map[];
      assert r.disk.parts.Keys == q.disk.parts.Keys - {id} && |r.disk.parts| == |r.disk.parts.Keys| && |q.disk.parts| == |q.disk.parts.Keys|;
      r := DataDropped(keep, client, p, r);
    } else {
      r := q;
    }
  }

  /** Some process to come, or this one, creates an upload. */
  ghost predicate CreatesAgain(keep: bool, client: Client, p: Process) {
    exists q, id :: Reaches(keep, client, p, q) && Possible(keep, client, q, NewData(id))
  }

  /** A further upload can be created, sooner or later, exactly while there are fewer orphans than uploads may be. */
  lemma CreatesAgainIff(keep: bool, client: Client, p: Process)
    requires MakingOk(p)
    ensures CreatesAgain(keep, client, p) <==> |Orphans(p)| < UPLOAD_LIMIT
  {
    hide Possible, Next, Orphans, MakingOk;
    if CreatesAgain(keep, client, p) {
      var q, id :| Reaches(keep, client, p, q) && Possible(keep, client, q, NewData(id));
      var steps :| Legal(keep, client, p, steps) && After(keep, client, p, steps) == q;
      OneMore(keep, client, p, steps, NewData(id));
      if |Orphans(p)| >= UPLOAD_LIMIT {
        RefusedForEver(keep, client, p, steps + [NewData(id)], |steps|);
        assert false;
      }
    }
    if |Orphans(p)| < UPLOAD_LIMIT {
      var q := RowWritten(keep, client, p);
      var r := DataDropped(keep, client, p, q);
      var id := SomeUnused(r.disk);
      MayCreate(keep, client, r, id);
    }
  }
}
