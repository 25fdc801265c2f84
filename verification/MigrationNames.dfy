/** What the migration of a settled disk moves: each project's directory to the project's name, and nothing else. */
module MigrationNames {
  import opened Common
  import opened Texts
  import opened MigrationModel
  import opened Migration

  /** Where a project's directory is to be. */
  function Home(project: Project): Name {
    if project.directory.Some? then project.directory.value else Trim(project.name)
  }

  ghost predicate IsMoveOf(project: Project, m: Move) {
    project.directory.None? && m == Move(project.id, Home(project))
  }

  /** The first projects are planned: each has its home, and those without a directory have their move. */
  ghost predicate Titled(index: seq<Project>, i: nat, projects: seq<Project>, moves: seq<Move>) {
    i <= |index| && |projects| == i &&
    (forall k :: 0 <= k < i ==> projects[k] == index[k].(directory := Some(Home(index[k])))) &&
    (forall k :: 0 <= k < i && index[k].directory.None? ==>
       LegalName(Home(index[k])) && Move(index[k].id, Home(index[k])) in moves) &&
    forall m :: m in moves ==> exists k :: 0 <= k < i && IsMoveOf(index[k], m)
  }

  lemma TitledNext(index: seq<Project>, i: nat, projects: seq<Project>, moves: seq<Move>)
    requires Titled(index, i, projects, moves) && i < |index|
    ensures index[i].directory.Some? ==> Titled(index, i + 1, projects + [index[i]], moves)
    ensures index[i].directory.None? && LegalName(Home(index[i])) ==>
              Titled(index, i + 1, projects + [index[i].(directory := Some(Home(index[i])))],
                     moves + [Move(index[i].id, Home(index[i]))])
  {
    hide LegalName;
    var more := moves + [Move(index[i].id, Home(index[i]))];
    forall m | m in moves ensures exists k :: 0 <= k < i + 1 && IsMoveOf(index[k], m) {
      var k :| 0 <= k < i && IsMoveOf(index[k], m);
    }
    if index[i].directory.None? {
      forall m | m in more ensures exists k :: 0 <= k < i + 1 && IsMoveOf(index[k], m) {
        if m !in moves {
          assert IsMoveOf(index[i], m);
        }
      }
      assert forall m :: m in moves ==> m in more;
      assert more[|moves|] in more;
    }
  }

  lemma {:induction false} PlanTitles(entries: map<Name, Entry>, index: seq<Project>, i: nat, reserved: set<Name>,
                                      projects: seq<Project>, moves: seq<Move>)
    requires Titled(index, i, projects, moves) && Plan(entries, index, i, reserved, projects, moves).Ok?
    ensures var journal := Plan(entries, index, i, reserved, projects, moves).value;
            Titled(index, |index|, journal.projects, journal.moves)
    decreases |index| - i
  {
    hide Titled, LegalName;
    assert i <= |index| by { TitledWithin(index, i, projects, moves); }
    if i < |index| {
      var project := index[i];
      TitledNext(index, i, projects, moves);
      if project.directory.Some? {
        PlanTitles(entries, index, i + 1, reserved, projects + [project], moves);
      } else {
        PlanTitles(entries, index, i + 1, reserved + {Home(project)}, projects + [project.(directory := Some(Home(project)))],
                   moves + [Move(project.id, Home(project))]);
      }
    }
  }

  lemma TitledWithin(index: seq<Project>, i: nat, projects: seq<Project>, moves: seq<Move>)
    requires Titled(index, i, projects, moves)
    ensures i <= |index|
  {
  }

  /** A session's path lies inside a directory that is moved. */
  ghost predicate MovesAlong(session: Session, moves: seq<Move>) {
    session.listed && session.path.Some? && session.path.value.Inside? &&
    exists i :: 0 <= i < |moves| && moves[i].source == session.path.value.entry
  }

  lemma SessionStays(session: Session, moves: seq<Move>)
    requires !MovesAlong(session, moves)
    ensures RedirectSession(session, moves) == session
  {
    if session.listed && session.path.Some? {
      assert forall i :: 0 <= i < |moves| && session.path.value.Inside? ==> moves[i].source != session.path.value.entry;
      Untouched(session.path.value, moves);
    }
  }

  /** What becomes of a project. */
  ghost predicate Rehoused(disk: Disk, done: Disk, project: Project, after: Project) {
    after == project.(directory := Some(Home(project))) &&
    (project.directory.None? ==>
       LegalName(Home(project)) && project.id in disk.entries && Home(project) !in disk.entries &&
       Home(project) in done.entries && done.entries[Home(project)] == disk.entries[project.id] && project.id !in done.entries)
  }

  /**
   A migration that starts afresh gives every project that has none a directory of its trimmed name, which was free and now
   holds what the directory of its id held; it leaves the directories of the others, and moves nothing else. Sessions
   outside the moved directories, and deleted ones, are as they were.
   */
  lemma MovedAsNamed(disk: Disk)
    requires Good(disk) && !(disk.journal.Some? && !disk.journal.value.complete)
    requires Migrate(disk, false).1.Ok? && Migrate(disk, false).1.value != []
    ensures var (done, moves) := (Migrate(disk, false).0, Migrate(disk, false).1.value);
            |done.index| == |disk.index| &&
            (forall i :: 0 <= i < |disk.index| ==> Rehoused(disk, done, disk.index[i], done.index[i])) &&
            (forall m :: m in moves ==> exists i :: 0 <= i < |disk.index| && IsMoveOf(disk.index[i], m)) &&
            forall s :: s in disk.sessions && !MovesAlong(disk.sessions[s], moves) ==>
              s in done.sessions && done.sessions[s] == disk.sessions[s]
  {
    hide LegalName, MovesAlong, RedirectSession, RenameFrom, Plan, Check, IsMoveOf, Relocates, OneEnd;
    PlanTitles(disk.entries, disk.index, 0, disk.entries.Keys, [], []);
    NothingLost(disk);
    var (done, moves) := (Migrate(disk, false).0, Migrate(disk, false).1.value);
    PlanApart(disk);
    forall i | 0 <= i < |disk.index| ensures Rehoused(disk, done, disk.index[i], done.index[i]) {
      if disk.index[i].directory.None? {
        var m := Move(disk.index[i].id, Home(disk.index[i]));
        var k :| 0 <= k < |moves| && moves[k] == m;
        MoveArrives(disk.entries, done.entries, moves, k);
      }
    }
    forall s | s in disk.sessions && !MovesAlong(disk.sessions[s], moves)
      ensures s in done.sessions && done.sessions[s] == disk.sessions[s]
    {
      SessionStays(disk.sessions[s], moves);
    }
  }

  lemma PlanApart(disk: Disk)
    requires Good(disk) && PlanAll(disk).Ok?
    ensures forall k :: 0 <= k < |PlanAll(disk).value.moves| ==>
              PlanAll(disk).value.moves[k].source in disk.entries && PlanAll(disk).value.moves[k].destination !in disk.entries
  {
    PlanFacts(disk.entries, disk.index, 0, disk.entries.Keys, [], []);
  }

  lemma MoveArrives(entries: map<Name, Entry>, after: map<Name, Entry>, moves: seq<Move>, k: nat)
    requires Relocates(entries, after, moves, |moves|) && k < |moves|
    requires moves[k].source in entries && moves[k].destination !in entries
    ensures moves[k].destination in after && after[moves[k].destination] == entries[moves[k].source]
    ensures moves[k].source !in after
  {
    assert Arrived(entries, after, moves[k]);
  }
}
