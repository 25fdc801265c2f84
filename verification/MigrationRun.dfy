/** The migration as a program over the directories and files it changes. */
module MigrationRun {
  import opened Common
  import opened MigrationModel

  class Migrator {
    var entries: map<Name, Entry>
    var index: seq<Project>
    var sessions: map<SessionId, Session>
    var journal: Option<Journal>

    function Contents(): Disk
      reads this
    {
      Disk(entries, index, sessions, journal)
    }

    constructor (disk: Disk)
      ensures Contents() == disk
    {
      entries, index, sessions, journal := disk.entries, disk.index, disk.sessions, disk.journal;
    }

    /** The loop over projects that builds the moves. */
    method PlanMoves() returns (r: Result<Journal, Error>)
      ensures r == PlanAll(Contents())
    {
      hide DirectoryName;
      var projects: seq<Project> := [];
      var moves: seq<Move> := [];
      var reserved := entries.Keys;
      for i := 0 to |index|
        invariant PlanAll(Contents()) == Plan(entries, index, i, reserved, projects, moves)
      {
        var project := index[i];
        if project.directory.None? {
          var named := DirectoryName(project.name);
          if named.Err? {
            return Err(named.error);
          }
          var directory := named.value;
          if Unsafe(entries, project.id) || Unsafe(entries, directory) {
            return Err(UnsafeRoot);
          }
          if project.id !in entries {
            return Err(SourceMissing(project.id));
          }
          if directory in reserved {
            return Err(DirectoryExists(directory));
          }
          reserved := reserved + {directory};
          moves := moves + [Move(project.id, directory)];
          project := project.(directory := Some(directory));
        }
        projects := projects + [project];
      }
      return Ok(Journal(false, projects, moves));
    }

    method CheckMoves(moves: seq<Move>) returns (r: Result<bool, Error>)
      ensures r == Check(entries, moves, 0)
    {
      for i := 0 to |moves|
        invariant Check(entries, moves, 0) == Check(entries, moves, i)
      {
        var m := moves[i];
        if Unsafe(entries, m.source) || Unsafe(entries, m.destination) {
          return Err(UnsafeRoot);
        }
        if m.source in entries && m.destination in entries {
          return Err(DirectoryExists(m.destination));
        }
        if m.source !in entries && m.destination !in entries {
          return Err(SourceMissing(m.source));
        }
      }
      return Ok(true);
    }

    method RenameDirectories(moves: seq<Move>)
      modifies this`entries
      ensures entries == RenameFrom(old(entries), moves, 0)
    {
      for i := 0 to |moves|
        invariant RenameFrom(old(entries), moves, 0) == RenameFrom(entries, moves, i)
      {
        if moves[i].source in entries {
          entries := (entries - {moves[i].source})[moves[i].destination := entries[moves[i].source]];
        }
      }
    }

    /** The loop over the moves for one session's path. */
    method Redirect(place: Place, moves: seq<Move>) returns (r: Place)
      ensures r == Redirected(place, moves)
    {
      for i := 0 to |moves|
        invariant Redirected(place, moves) == Redirected(place, moves[i..])
      {
        assert moves[i..][1..] == moves[i + 1..];
        if place.Inside? && place.entry == moves[i].source {
          return Inside(moves[i].destination, place.rest);
        }
      }
      return place;
    }

    /** `updateWorkspaceSessionPaths`: one write for every listed session with a path. */
    method UpdateSessionPaths(moves: seq<Move>)
      modifies this`sessions
      ensures sessions == RedirectAll(old(sessions), moves)
    {
      var left := sessions.Keys;
      while left != {}
        invariant left <= sessions.Keys && sessions.Keys == old(sessions).Keys
        invariant forall s :: s in sessions ==>
                    sessions[s] == if s in left then old(sessions)[s] else RedirectSession(old(sessions)[s], moves)
        decreases |left|
      {
        var s :| s in left;
        if sessions[s].listed && sessions[s].path.Some? {
          var path := Redirect(sessions[s].path.value, moves);
          sessions := sessions[s := sessions[s].(path := Some(path))];
        }
        left := left - {s};
      }
    }

    method Run(dryRun: bool) returns (r: Result<seq<Move>, Error>)
      modifies this
      ensures (Contents(), r) == Migrate(old(Contents()), dryRun)
    {
      hide PlanAll, Check, RenameFrom, RedirectAll;
      var work: Journal;
      var resumed := journal.Some? && !journal.value.complete;
      if resumed {
        work := journal.value;
      } else {
        var planned := PlanMoves();
        if planned.Err? {
          return Err(planned.error);
        }
        work := planned.value;
      }
      var checked := CheckMoves(work.moves);
      if checked.Err? {
        return Err(checked.error);
      }
      if dryRun || work.moves == [] {
        return Ok(work.moves);
      }
      if !resumed {
        journal := Some(work);
      }
      RenameDirectories(work.moves);
      UpdateSessionPaths(work.moves);
      index := work.projects;
      journal := Some(work.(complete := true));
      return Ok(work.moves);
    }
  }
}
