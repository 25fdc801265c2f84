/** The migration run, with its crashes: resumable, never overwriting, and done once. */
module Migration {
  import opened Common
  import opened MigrationModel

  /** The moves of a journal: from distinct sources to distinct other names. */
  ghost predicate Disjoint(moves: seq<Move>) {
    (forall i, j :: 0 <= i < j < |moves| ==>
       moves[i].source != moves[j].source && moves[i].destination != moves[j].destination) &&
    forall i, j :: 0 <= i < |moves| && 0 <= j < |moves| ==> moves[i].source != moves[j].destination
  }

  ghost predicate DistinctProjects(index: seq<Project>) {
    forall i, j :: 0 <= i < j < |index| ==> index[i].id != index[j].id
  }

  ghost predicate Settled(index: seq<Project>) {
    forall i :: 0 <= i < |index| ==> index[i].directory.Some?
  }

  /** What planning found so far. */
  ghost predicate PlannedTo(entries: map<Name, Entry>, index: seq<Project>, i: nat, reserved: set<Name>,
                            projects: seq<Project>, moves: seq<Move>)
  {
    i <= |index| && |projects| == i && Settled(projects) && entries.Keys <= reserved &&
    (forall k :: 0 <= k < i ==> projects[k].id == index[k].id && projects[k].name == index[k].name) &&
    (forall k :: 0 <= k < |moves| ==> moves[k].source in entries && moves[k].destination in reserved &&
                                      moves[k].destination !in entries) &&
    (forall k :: 0 <= k < |moves| ==> AmongFirst(index, i, moves[k].source)) &&
    Disjoint(moves)
  }

  ghost predicate AmongFirst(index: seq<Project>, i: nat, id: Name) {
    exists p :: 0 <= p < i && p < |index| && index[p].id == id
  }

  lemma {:induction false} PlanFacts(entries: map<Name, Entry>, index: seq<Project>, i: nat, reserved: set<Name>,
                                     projects: seq<Project>, moves: seq<Move>)
    requires DistinctProjects(index) && PlannedTo(entries, index, i, reserved, projects, moves)
    requires Plan(entries, index, i, reserved, projects, moves).Ok?
    ensures var journal := Plan(entries, index, i, reserved, projects, moves).value;
            !journal.complete && Settled(journal.projects) && Disjoint(journal.moves) &&
            |journal.projects| == |index| &&
            (forall k :: 0 <= k < |index| ==>
               journal.projects[k].id == index[k].id && journal.projects[k].name == index[k].name) &&
            forall k :: 0 <= k < |journal.moves| ==>
              journal.moves[k].source in entries && journal.moves[k].destination !in entries
    decreases |index| - i
  {
    hide Disjoint, DistinctProjects, Settled, AmongFirst, DirectoryName;
    if i < |index| {
      var project := index[i];
      if project.directory.Some? {
        PlanKept(entries, index, i, reserved, projects, moves);
        PlanFacts(entries, index, i + 1, reserved, projects + [project], moves);
      } else {
        var directory := DirectoryName(project.name).value;
        PlanNext(entries, index, i, reserved, projects, moves, directory);
        PlanFacts(entries, index, i + 1, reserved + {directory},
                  projects + [project.(directory := Some(directory))], moves + [Move(project.id, directory)]);
      }
    }
  }

  lemma PlanKept(entries: map<Name, Entry>, index: seq<Project>, i: nat, reserved: set<Name>, projects: seq<Project>,
                 moves: seq<Move>)
    requires PlannedTo(entries, index, i, reserved, projects, moves) && i < |index| && index[i].directory.Some?
    ensures PlannedTo(entries, index, i + 1, reserved, projects + [index[i]], moves)
  {
    forall k | 0 <= k < |moves| ensures AmongFirst(index, i + 1, moves[k].source) {
      assert AmongFirst(index, i, moves[k].source);
    }
  }

  lemma PlanNext(entries: map<Name, Entry>, index: seq<Project>, i: nat, reserved: set<Name>, projects: seq<Project>,
                 moves: seq<Move>, directory: Name)
    requires DistinctProjects(index) && PlannedTo(entries, index, i, reserved, projects, moves) && i < |index|
    requires index[i].id in entries && directory !in reserved
    ensures PlannedTo(entries, index, i + 1, reserved + {directory},
                      projects + [index[i].(directory := Some(directory))], moves + [Move(index[i].id, directory)])
  {
    var project := index[i];
    var next := moves + [Move(project.id, directory)];
    forall k | 0 <= k < |next| ensures AmongFirst(index, i + 1, next[k].source) {
      if k == |moves| {
        assert index[i].id == next[k].source;
      } else {
        assert AmongFirst(index, i, moves[k].source);
      }
    }
    forall k | 0 <= k < |moves| ensures moves[k].source != project.id && moves[k].destination != directory {
      assert AmongFirst(index, i, moves[k].source);
    }
    assert Disjoint(next);
  }

  /** The journals this program writes. */
  ghost predicate JournalOk(disk: Disk) {
    disk.journal.Some? && !disk.journal.value.complete ==>
      Disjoint(disk.journal.value.moves) && Settled(disk.journal.value.projects) &&
      DistinctProjects(disk.journal.value.projects)
  }

  ghost predicate Good(disk: Disk) {
    DistinctProjects(disk.index) && JournalOk(disk)
  }

  lemma JournalFacts(disk: Disk)
    requires Good(disk) && JournalFor(disk).Ok?
    ensures var journal := JournalFor(disk).value;
            !journal.complete && Disjoint(journal.moves) && Settled(journal.projects)
  {
    if !(disk.journal.Some? && !disk.journal.value.complete) {
      PlanFacts(disk.entries, disk.index, 0, disk.entries.Keys, [], []);
    }
  }

  // ---------------------------------------------------------------- renames

  /** Each move finds its directory at exactly one end, and it is a directory. */
  ghost predicate OneEnd(entries: map<Name, Entry>, moves: seq<Move>) {
    forall i :: 0 <= i < |moves| ==>
      (moves[i].source in entries <==> moves[i].destination !in entries) &&
      !Unsafe(entries, moves[i].source) && !Unsafe(entries, moves[i].destination)
  }

  lemma {:induction false} CheckIff(entries: map<Name, Entry>, moves: seq<Move>, i: nat)
    ensures Check(entries, moves, i).Ok? <==>
            forall k :: i <= k < |moves| ==>
              (moves[k].source in entries <==> moves[k].destination !in entries) &&
              !Unsafe(entries, moves[k].source) && !Unsafe(entries, moves[k].destination)
    decreases |moves| - i
  {
    if i < |moves| {
      CheckIff(entries, moves, i + 1);
    }
  }

  /** Renaming one more directory keeps every move at one end and does not change where all end up. */
  lemma RenameKeeps(entries: map<Name, Entry>, moves: seq<Move>, k: nat)
    requires Disjoint(moves) && OneEnd(entries, moves) && k < |moves|
    ensures OneEnd(Rename(entries, moves[k]), moves)
  {
    var n := Rename(entries, moves[k]);
    forall i | 0 <= i < |moves|
      ensures (moves[i].source in n <==> moves[i].destination !in n) &&
              !Unsafe(n, moves[i].source) && !Unsafe(n, moves[i].destination)
    {
      assert i != k ==> moves[i].source != moves[k].source && moves[i].destination != moves[k].destination;
    }
  }

  /** What a move brings to its destination. */
  function Landed(entries: map<Name, Entry>, m: Move): Entry {
    if m.source in entries then entries[m.source]
    else if m.destination in entries then entries[m.destination] else Irregular
  }

  ghost predicate Aside(moves: seq<Move>, n: nat, name: Name)
    requires n <= |moves|
  {
    forall i :: 0 <= i < n ==> name != moves[i].source && name != moves[i].destination
  }

  predicate SameAt(a: map<Name, Entry>, b: map<Name, Entry>, name: Name) {
    (name in a <==> name in b) && (name in a && name in b ==> a[name] == b[name])
  }

  predicate Arrived(entries: map<Name, Entry>, after: map<Name, Entry>, m: Move) {
    m.source !in after && m.destination in after && after[m.destination] == Landed(entries, m)
  }

  /** Where everything ends up after the first n moves. */
  ghost predicate Relocates(entries: map<Name, Entry>, after: map<Name, Entry>, moves: seq<Move>, n: nat)
    requires n <= |moves|
  {
    (forall i :: 0 <= i < n ==> Arrived(entries, after, moves[i])) &&
    forall name :: Aside(moves, n, name) ==> SameAt(entries, after, name)
  }

  lemma {:induction false} RenamesRelocate(entries: map<Name, Entry>, now: map<Name, Entry>, moves: seq<Move>, i: nat)
    requires Disjoint(moves) && OneEnd(entries, moves) && i <= |moves| && Relocates(entries, now, moves, i)
    ensures Relocates(entries, RenameFrom(now, moves, i), moves, |moves|)
    decreases |moves| - i
  {
    if i < |moves| {
      RelocateNext(entries, now, moves, i);
      RenamesRelocate(entries, Rename(now, moves[i]), moves, i + 1);
    }
  }

  lemma RelocateNext(entries: map<Name, Entry>, now: map<Name, Entry>, moves: seq<Move>, i: nat)
    requires Disjoint(moves) && OneEnd(entries, moves) && i < |moves| && Relocates(entries, now, moves, i)
    ensures Relocates(entries, Rename(now, moves[i]), moves, i + 1)
  {
    var m := moves[i];
    var next := Rename(now, m);
    assert Aside(moves, i, m.source) && Aside(moves, i, m.destination);
    assert SameAt(entries, now, m.source) && SameAt(entries, now, m.destination);
    forall k | 0 <= k < i ensures Arrived(entries, next, moves[k]) {
      assert Arrived(entries, now, moves[k]);
      assert moves[k].source != m.source && moves[k].destination != m.destination;
      assert moves[k].source != m.destination && moves[k].destination != m.source;
    }
    forall name | Aside(moves, i + 1, name) ensures SameAt(entries, next, name) {
      assert Aside(moves, i, name) && name != m.source && name != m.destination;
      assert SameAt(entries, now, name);
    }
  }

  /** Two maps that relocate the same entries by the same moves are the same. */
  lemma SameRelocation(entries: map<Name, Entry>, a: map<Name, Entry>, b: map<Name, Entry>, moves: seq<Move>)
    requires Relocates(entries, a, moves, |moves|) && Relocates(entries, b, moves, |moves|)
    ensures a == b
  {
    forall name ensures SameAt(a, b, name) {
      if Aside(moves, |moves|, name) {
        assert SameAt(entries, a, name) && SameAt(entries, b, name);
      } else {
        var i :| 0 <= i < |moves| && (name == moves[i].source || name == moves[i].destination);
        assert Arrived(entries, a, moves[i]) && Arrived(entries, b, moves[i]);
      }
    }
    assert forall name :: name in a ==> SameAt(a, b, name);
    assert forall name :: name in b ==> SameAt(a, b, name);
  }

  lemma RelocatesAll(entries: map<Name, Entry>, moves: seq<Move>)
    requires Disjoint(moves) && OneEnd(entries, moves)
    ensures Relocates(entries, RenameFrom(entries, moves, 0), moves, |moves|)
  {
    RenamesRelocate(entries, entries, moves, 0);
  }

  /** Renames already made before do not change the end. */
  lemma RenamedBefore(entries: map<Name, Entry>, moves: seq<Move>, k: nat)
    requires Disjoint(moves) && OneEnd(entries, moves) && k < |moves|
    ensures RenameFrom(Rename(entries, moves[k]), moves, 0) == RenameFrom(entries, moves, 0)
  {
    var next := Rename(entries, moves[k]);
    RenameKeeps(entries, moves, k);
    RelocatesAll(entries, moves);
    RelocatesAll(next, moves);
    Composed(entries, moves, k, RenameFrom(next, moves, 0));
    SameRelocation(entries, RenameFrom(next, moves, 0), RenameFrom(entries, moves, 0), moves);
  }

  lemma Composed(entries: map<Name, Entry>, moves: seq<Move>, k: nat, after: map<Name, Entry>)
    requires Disjoint(moves) && OneEnd(entries, moves) && k < |moves|
    requires Relocates(Rename(entries, moves[k]), after, moves, |moves|)
    ensures Relocates(entries, after, moves, |moves|)
  {
    var next := Rename(entries, moves[k]);
    forall i | 0 <= i < |moves| ensures Arrived(entries, after, moves[i]) {
      assert Arrived(next, after, moves[i]);
      assert i != k ==> moves[i].source != moves[k].source && moves[i].destination != moves[k].destination;
      assert moves[i].source != moves[k].destination && moves[i].destination != moves[k].source;
    }
    forall name | Aside(moves, |moves|, name) ensures SameAt(entries, after, name) {
      assert SameAt(next, after, name);
    }
  }

  // ---------------------------------------------------------------- sessions

  lemma {:induction false} RedirectedTwice(place: Place, moves: seq<Move>, all: seq<Move>)
    requires Disjoint(all) && forall i :: 0 <= i < |moves| ==> moves[i] in all
    ensures Redirected(Redirected(place, moves), all) == if Redirected(place, moves) == place then Redirected(place, all)
                                                         else Redirected(place, moves)
    decreases |moves|
  {
    if moves != [] && place.Inside? {
      if place.entry == moves[0].source {
        var k :| 0 <= k < |all| && all[k] == moves[0];
        Untouched(Inside(moves[0].destination, place.rest), all);
      } else {
        forall i | 0 <= i < |moves[1..]| ensures moves[1..][i] in all {
          assert moves[1..][i] == moves[i + 1];
        }
        RedirectedTwice(place, moves[1..], all);
      }
    }
  }

  lemma {:induction false} Untouched(place: Place, moves: seq<Move>)
    requires place.Inside? ==> forall i :: 0 <= i < |moves| ==> moves[i].source != place.entry
    ensures Redirected(place, moves) == place
    decreases |moves|
  {
    if moves != [] && place.Inside? {
      Untouched(place, moves[1..]);
    }
  }

  lemma RedirectTwice(session: Session, moves: seq<Move>)
    requires Disjoint(moves)
    ensures RedirectSession(RedirectSession(session, moves), moves) == RedirectSession(session, moves)
  {
    if session.path.Some? {
      RedirectedTwice(session.path.value, moves, moves);
    }
  }

  // ---------------------------------------------------------------- the run, write by write

  datatype Stage = Beginning | Journaled(i: nat) | Renamed | Redirecting(left: set<SessionId>) | Indexed | Finished

  /** A process in the middle of the migration, with the journal it works on. */
  datatype Process = Process(disk: Disk, journal: Journal, stage: Stage)

  /** The next write or rename. Sessions are written one by one, in any order. */
  function Step(p: Process, session: SessionId): Process {
    match p.stage
    case Beginning => Process(p.disk.(journal := Some(p.journal)), p.journal, Journaled(0))
    case Journaled(i) =>
      if i < |p.journal.moves|
      then p.(disk := p.disk.(entries := Rename(p.disk.entries, p.journal.moves[i])), stage := Journaled(i + 1))
      else p.(stage := Renamed)
    case Renamed => p.(stage := Redirecting(p.disk.sessions.Keys))
    case Redirecting(left) =>
      if session in left && session in p.disk.sessions
      then p.(disk := p.disk.(sessions := p.disk.sessions[session := RedirectSession(p.disk.sessions[session],
                                                                                    p.journal.moves)]),
              stage := Redirecting(left - {session}))
      else if left == {} then p.(disk := p.disk.(index := p.journal.projects), stage := Indexed)
      else p
    case Indexed => p.(disk := p.disk.(journal := Some(p.journal.(complete := true))), stage := Finished)
    case Finished => p
  }

  /** Where a run on this disk ends. */
  function End(disk: Disk, journal: Journal): Disk {
    Disk(RenameFrom(disk.entries, journal.moves, 0), journal.projects, RedirectAll(disk.sessions, journal.moves),
         Some(journal.(complete := true)))
  }

  /** The process under way: every move is at one end, and what was done so far is done. */
  ghost predicate UnderWay(p: Process, goal: Disk) {
    !p.journal.complete && p.journal.moves != [] && Disjoint(p.journal.moves) && Settled(p.journal.projects) &&
    OneEnd(p.disk.entries, p.journal.moves) && End(p.disk, p.journal) == goal &&
    (!p.stage.Beginning? && !p.stage.Finished? ==> p.disk.journal == Some(p.journal)) &&
    match p.stage
    case Beginning => JournalFor(p.disk) == Ok(p.journal)
    case Journaled(i) => forall k :: 0 <= k < i && k < |p.journal.moves| ==> p.journal.moves[k].source !in p.disk.entries
    case Renamed => AllMoved(p)
    case Redirecting(left) =>
      AllMoved(p) && left <= p.disk.sessions.Keys &&
      forall s :: s in p.disk.sessions && s !in left ==>
        RedirectSession(p.disk.sessions[s], p.journal.moves) == p.disk.sessions[s]
    case Indexed =>
      AllMoved(p) && p.disk.index == p.journal.projects && RedirectAll(p.disk.sessions, p.journal.moves) == p.disk.sessions
    case Finished => p.disk == goal
  }

  ghost predicate AllMoved(p: Process) {
    forall k :: 0 <= k < |p.journal.moves| ==> p.journal.moves[k].source !in p.disk.entries
  }

  lemma {:induction false} NothingToRename(entries: map<Name, Entry>, moves: seq<Move>, i: nat)
    requires forall k :: i <= k < |moves| ==> moves[k].source !in entries
    ensures RenameFrom(entries, moves, i) == entries
    decreases |moves| - i
  {
    if i < |moves| {
      NothingToRename(entries, moves, i + 1);
    }
  }

  lemma StepKeeps(p: Process, session: SessionId, goal: Disk)
    requires UnderWay(p, goal)
    ensures UnderWay(Step(p, session), goal)
  {
    match p.stage {
      case Journaled(i) => RenameStep(p, session, goal);
      case Redirecting(left) => RedirectStep(p, session, goal);
      case Indexed => NothingToRename(p.disk.entries, p.journal.moves, 0);
      case _ =>
    }
  }

  lemma RenameStep(p: Process, session: SessionId, goal: Disk)
    requires UnderWay(p, goal) && p.stage.Journaled?
    ensures UnderWay(Step(p, session), goal)
  {
    var i := p.stage.i;
    if i < |p.journal.moves| {
      RenameKeeps(p.disk.entries, p.journal.moves, i);
      RenamedBefore(p.disk.entries, p.journal.moves, i);
    }
  }

  lemma RedirectStep(p: Process, session: SessionId, goal: Disk)
    requires UnderWay(p, goal) && p.stage.Redirecting?
    ensures UnderWay(Step(p, session), goal)
  {
    var left := p.stage.left;
    if session in left && session in p.disk.sessions {
      RedirectTwice(p.disk.sessions[session], p.journal.moves);
      assert RedirectAll(Step(p, session).disk.sessions, p.journal.moves) == RedirectAll(p.disk.sessions, p.journal.moves);
    } else if left == {} {
      assert RedirectAll(p.disk.sessions, p.journal.moves) == p.disk.sessions;
    }
  }

  /** A crash at any point: a new run starts on the same disk, and will reach the same end. */
  lemma CrashKeeps(p: Process, goal: Disk)
    requires UnderWay(p, goal) && !p.stage.Finished?
    ensures JournalFor(p.disk) == Ok(p.journal) && Check(p.disk.entries, p.journal.moves, 0).Ok?
    ensures UnderWay(Process(p.disk, p.journal, Beginning), goal)
    ensures Migrate(p.disk, false) == (goal, Ok(p.journal.moves))
  {
    CheckIff(p.disk.entries, p.journal.moves, 0);
  }

  /** From a run's start on, any steps with crashes in between. */
  datatype Turn = Write(session: SessionId) | Crash

  function Play(p: Process, turns: seq<Turn>): Process
    decreases |turns|
  {
    if turns == [] then p
    else if turns[0].Crash? then Play(if p.stage.Finished? then p else Process(p.disk, p.journal, Beginning), turns[1..])
    else Play(Step(p, turns[0].session), turns[1..])
  }

  lemma {:induction false} PlayKeeps(p: Process, turns: seq<Turn>, goal: Disk)
    requires UnderWay(p, goal)
    ensures UnderWay(Play(p, turns), goal)
    decreases |turns|
  {
    hide UnderWay, Step;
    if turns != [] {
      if turns[0].Crash? {
        if p.stage.Finished? {
          PlayKeeps(p, turns[1..], goal);
        } else {
          CrashKeeps(p, goal);
          PlayKeeps(Process(p.disk, p.journal, Beginning), turns[1..], goal);
        }
      } else {
        StepKeeps(p, turns[0].session, goal);
        PlayKeeps(Step(p, turns[0].session), turns[1..], goal);
      }
    }
  }

  lemma StartUnderWay(disk: Disk)
    requires Good(disk) && Migrate(disk, false).1.Ok? && Migrate(disk, false).1.value != []
    ensures JournalFor(disk).Ok? && UnderWay(Process(disk, JournalFor(disk).value, Beginning), Migrate(disk, false).0)
  {
    JournalFacts(disk);
    CheckIff(disk.entries, JournalFor(disk).value.moves, 0);
  }

  /**
   The migration is resumable: whatever crashes between its writes and renames, running it again reaches the same
   directories, index and session paths as one clean run.
   */
  lemma Resumable(disk: Disk, turns: seq<Turn>)
    requires Good(disk) && Migrate(disk, false).1.Ok? && Migrate(disk, false).1.value != []
    ensures JournalFor(disk).Ok?
    ensures var p := Play(Process(disk, JournalFor(disk).value, Beginning), turns);
            if p.stage.Finished? then p.disk == Migrate(disk, false).0
            else Migrate(p.disk, false) == Migrate(disk, false)
  {
    StartUnderWay(disk);
    hide UnderWay, Migrate;
    var p := Play(Process(disk, JournalFor(disk).value, Beginning), turns);
    PlayKeeps(Process(disk, JournalFor(disk).value, Beginning), turns, Migrate(disk, false).0);
    if p.stage.Finished? {
      FinishedIs(p, Migrate(disk, false).0);
    } else {
      CrashKeeps(p, Migrate(disk, false).0);
      SameMoves(Process(disk, JournalFor(disk).value, Beginning), turns);
      MovesAre(disk);
    }
  }

  lemma FinishedIs(p: Process, goal: Disk)
    requires UnderWay(p, goal) && p.stage.Finished?
    ensures p.disk == goal
  {
  }

  lemma MovesAre(disk: Disk)
    requires Migrate(disk, false).1.Ok?
    ensures JournalFor(disk).Ok? && Migrate(disk, false).1 == Ok(JournalFor(disk).value.moves)
  {
  }

  lemma {:induction false} SameMoves(p: Process, turns: seq<Turn>)
    ensures Play(p, turns).journal == p.journal
    decreases |turns|
  {
    if turns != [] {
      SameMoves(if turns[0].Crash? then (if p.stage.Finished? then p else Process(p.disk, p.journal, Beginning))
                else Step(p, turns[0].session), turns[1..]);
    }
  }

  // ---------------------------------------------------------------- what it does

  lemma {:induction false} NothingPlanned(entries: map<Name, Entry>, index: seq<Project>, i: nat, reserved: set<Name>,
                                          projects: seq<Project>)
    requires Settled(index) && i <= |index|
    ensures Plan(entries, index, i, reserved, projects, []) == Ok(Journal(false, projects + index[i..], []))
    decreases |index| - i
  {
    if i < |index| {
      NothingPlanned(entries, index, i + 1, reserved, projects + [index[i]]);
      assert projects + [index[i]] + index[i + 1..] == projects + index[i..];
    } else {
      assert projects + index[i..] == projects;
    }
  }

  /** A further run does nothing. */
  lemma SecondRunDoesNothing(disk: Disk)
    requires Good(disk) && Migrate(disk, false).1.Ok? && Migrate(disk, false).1.value != []
    ensures var done := Migrate(disk, false).0; Good(done) && Migrate(done, false) == (done, Ok([]))
  {
    JournalFacts(disk);
    var done := Migrate(disk, false).0;
    NothingPlanned(done.entries, done.index, 0, done.entries.Keys, []);
    assert done.index[0..] == done.index && [] + done.index == done.index;
    ProjectIds(disk);
  }

  lemma ProjectIds(disk: Disk)
    requires Good(disk) && Migrate(disk, false).1.Ok? && Migrate(disk, false).1.value != []
    requires disk.journal.None? || disk.journal.value.complete || DistinctProjects(disk.journal.value.projects)
    ensures DistinctProjects(Migrate(disk, false).0.index)
  {
    if !(disk.journal.Some? && !disk.journal.value.complete) {
      PlanFacts(disk.entries, disk.index, 0, disk.entries.Keys, [], []);
    }
  }

  /**
   Nothing is overwritten or lost: every directory that was to move is, whole, at its new name; every other entry is
   as it was; and every listed session inside a moved directory points into the new one.
   */
  lemma NothingLost(disk: Disk)
    requires Good(disk) && Migrate(disk, false).1.Ok? && Migrate(disk, false).1.value != []
    ensures var (done, moves) := (Migrate(disk, false).0, Migrate(disk, false).1.value);
            Relocates(disk.entries, done.entries, moves, |moves|) && OneEnd(disk.entries, moves) && Disjoint(moves) &&
            Settled(done.index) && done.sessions.Keys == disk.sessions.Keys &&
            forall s, i, rest ::
              (s in disk.sessions && disk.sessions[s].listed && 0 <= i < |moves| &&
               disk.sessions[s].path == Some(Inside(moves[i].source, rest))) ==>
              done.sessions[s].path == Some(Inside(moves[i].destination, rest))
  {
    JournalFacts(disk);
    var moves := JournalFor(disk).value.moves;
    CheckIff(disk.entries, moves, 0);
    RelocatesAll(disk.entries, moves);
    forall s, i, rest | s in disk.sessions && disk.sessions[s].listed && 0 <= i < |moves| &&
                        disk.sessions[s].path == Some(Inside(moves[i].source, rest))
      ensures Migrate(disk, false).0.sessions[s].path == Some(Inside(moves[i].destination, rest))
    {
      RedirectedTo(moves, i, rest, 0);
      assert moves[0..] == moves;
    }
  }

  lemma {:induction false} RedirectedTo(moves: seq<Move>, i: nat, rest: seq<Name>, from: nat)
    requires Disjoint(moves) && from <= i < |moves|
    ensures Redirected(Inside(moves[i].source, rest), moves[from..]) == Inside(moves[i].destination, rest)
    decreases i - from
  {
    assert moves[from..][0] == moves[from] && moves[from..][1..] == moves[from + 1..];
    if from < i {
      RedirectedTo(moves, i, rest, from + 1);
    }
  }
}
