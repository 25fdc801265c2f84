/**
 The migration of workspace directories from ids to names: a journaled sequence of writes and renames.

 Names are case-folded. A path is a place under one of the root's entries, or somewhere else.
 */
module MigrationModel {
  import opened Common
  import opened Texts

  type Name = string
  type SessionId = nat

  datatype Place = Inside(entry: Name, rest: seq<Name>) | Elsewhere(path: string)

  datatype Entry = Directory(content: nat) | Irregular

  datatype Project = Project(id: Name, name: Name, directory: Option<Name>)

  /** A session that was deleted is still in the file, but not listed. */
  datatype Session = Session(path: Option<Place>, listed: bool)

  datatype Move = Move(source: Name, destination: Name)
  datatype Journal = Journal(complete: bool, projects: seq<Project>, moves: seq<Move>)

  datatype Error = InvalidName | UnsafeRoot | SourceMissing(id: Name) | DirectoryExists(directory: Name)

  /** What is on disk. */
  datatype Disk = Disk(entries: map<Name, Entry>, index: seq<Project>, sessions: map<SessionId, Session>,
                       journal: Option<Journal>)

  const DEVICES := {"con", "prn", "aux", "nul", "com1", "com2", "com3", "com4", "com5", "com6", "com7", "com8", "com9",
                    "com\U{00B9}", "com\U{00B2}", "com\U{00B3}", "lpt1", "lpt2", "lpt3", "lpt4", "lpt5", "lpt6", "lpt7",
                    "lpt8", "lpt9", "lpt\U{00B9}", "lpt\U{00B2}", "lpt\U{00B3}"}

  const FORBIDDEN := {'<', '>', ':', '"', '/', '\\', '|', '?', '*'}

  function Stem(name: Name): Name {
    if name == "" || name[0] == '.' then "" else [name[0]] + Stem(name[1..])
  }

  predicate LegalName(name: Name) {
    0 < |name| <= 120 && (forall i :: 0 <= i < |name| ==> name[i] !in FORBIDDEN && name[i] as int >= 32) &&
    name[|name| - 1] != '.' && name[|name| - 1] != ' ' && Stem(name) !in DEVICES && !(".workagent" <= name)
  }

  /** `workspaceDirectoryName`: the project's name without white space around it, if a directory may have it. */
  function DirectoryName(name: Name): Result<Name, Error> {
    var trimmed := Trim(name);
    if LegalName(trimmed) then Ok(trimmed) else Err(InvalidName)
  }

  predicate Unsafe(entries: map<Name, Entry>, name: Name) {
    name in entries && entries[name].Irregular?
  }

  // ---------------------------------------------------------------- planning

  /** The loop over projects: those without a directory are to move to one of their name. */
  function Plan(entries: map<Name, Entry>, index: seq<Project>, i: nat, reserved: set<Name>, projects: seq<Project>,
                moves: seq<Move>): Result<Journal, Error>
    decreases |index| - i
  {
    if i >= |index| then Ok(Journal(false, projects, moves))
    else
      var project := index[i];
      if project.directory.Some? then Plan(entries, index, i + 1, reserved, projects + [project], moves)
      else
        var directory :- DirectoryName(project.name);
        if Unsafe(entries, project.id) || Unsafe(entries, directory) then Err(UnsafeRoot)
        else if project.id !in entries then Err(SourceMissing(project.id))
        else if directory in reserved then Err(DirectoryExists(directory))
        else Plan(entries, index, i + 1, reserved + {directory},
                  projects + [project.(directory := Some(directory))], moves + [Move(project.id, directory)])
  }

  function PlanAll(disk: Disk): Result<Journal, Error> {
    Plan(disk.entries, disk.index, 0, disk.entries.Keys, [], [])
  }

  /** The journal to work on: one that is not complete is resumed. */
  function JournalFor(disk: Disk): Result<Journal, Error> {
    if disk.journal.Some? && !disk.journal.value.complete then Ok(disk.journal.value) else PlanAll(disk)
  }

  /** Each move must find its directory at exactly one end. */
  function Check(entries: map<Name, Entry>, moves: seq<Move>, i: nat): Result<bool, Error>
    decreases |moves| - i
  {
    if i >= |moves| then Ok(true)
    else
      var m := moves[i];
      if Unsafe(entries, m.source) || Unsafe(entries, m.destination) then Err(UnsafeRoot)
      else if m.source in entries && m.destination in entries then Err(DirectoryExists(m.destination))
      else if m.source !in entries && m.destination !in entries then Err(SourceMissing(m.source))
      else Check(entries, moves, i + 1)
  }

  // ---------------------------------------------------------------- moving

  function Rename(entries: map<Name, Entry>, m: Move): map<Name, Entry> {
    if m.source in entries then (entries - {m.source})[m.destination := entries[m.source]] else entries
  }

  function RenameFrom(entries: map<Name, Entry>, moves: seq<Move>, i: nat): map<Name, Entry>
    decreases |moves| - i
  {
    if i >= |moves| then entries else RenameFrom(Rename(entries, moves[i]), moves, i + 1)
  }

  /** Where a session's path is after the first move that it lies under. */
  function Redirected(place: Place, moves: seq<Move>): Place {
    if moves == [] || place.Elsewhere? then place
    else if place.entry == moves[0].source then Inside(moves[0].destination, place.rest)
    else Redirected(place, moves[1..])
  }

  function RedirectSession(session: Session, moves: seq<Move>): Session {
    if session.listed && session.path.Some? then session.(path := Some(Redirected(session.path.value, moves))) else session
  }

  /** `updateWorkspaceSessionPaths`. */
  function RedirectAll(sessions: map<SessionId, Session>, moves: seq<Move>): map<SessionId, Session> {
    map s | s in sessions :: RedirectSession(sessions[s], moves)
  }

  /** `migrateWorkspaceDirectories`. */
  function Migrate(disk: Disk, dryRun: bool): (Disk, Result<seq<Move>, Error>) {
    match JournalFor(disk)
    case Err(e) => (disk, Err(e))
    case Ok(journal) =>
      match Check(disk.entries, journal.moves, 0)
      case Err(e) => (disk, Err(e))
      case Ok(_) =>
        if dryRun || journal.moves == [] then (disk, Ok(journal.moves))
        else
          (Disk(RenameFrom(disk.entries, journal.moves, 0), journal.projects,
                RedirectAll(disk.sessions, journal.moves), Some(journal.(complete := true))),
           Ok(journal.moves))
  }
}
