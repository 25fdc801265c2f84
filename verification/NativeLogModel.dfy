/** The events of a native session: how the log grows, and what is read out of it. */
module NativeLogModel {
  import opened Common

  datatype Role = User | Assistant
  datatype Kind = Commentary | Question | Answer
  datatype Row = Row(id: string, sessionId: string, role: Role, kind: Option<Kind>, text: string)

  datatype TurnResult = Completed | NativeCancelled | Failed(message: string, code: string)

  /** What an engine reports, as far as turns and commentary go. */
  datatype Fact =
    | Started(turnId: Option<string>)
    | Finished(turnId: Option<string>, result: TurnResult)
    | Delta(messageId: string, commentary: bool, text: string)
    | OtherFact

  datatype Reason = Reported(result: TurnResult) | Interrupted

  datatype Event =
    | Message(row: Row)
    | Classified(id: string, kind: Kind)
    | UserMessage(id: string)
    | Imported
    | TurnStart(turn: nat)
    | TurnEnd(turn: nat, reason: Reason)
    | Native(fact: Fact)
    | Seeded

  // ---------------------------------------------------------------- reading

  /** The latest classification of every message. */
  function KindsOf(events: seq<Event>): map<string, Kind> {
    if events == [] then map[]
    else
      var before := KindsOf(events[..|events| - 1]);
      var last := events[|events| - 1];
      if last.Classified? then before[last.id := last.kind] else before
  }

  function WithKind(row: Row, kinds: map<string, Kind>): Row {
    if row.id in kinds then row.(kind := Some(kinds[row.id])) else row
  }

  function RowsWith(events: seq<Event>, kinds: map<string, Kind>): seq<Row> {
    if events == [] then []
    else
      var before := RowsWith(events[..|events| - 1], kinds);
      var last := events[|events| - 1];
      if last.Message? then before + [WithKind(last.row, kinds)] else before
  }

  /** `messages`: the batch fold. */
  function Messages(events: seq<Event>): seq<Row> {
    RowsWith(events, KindsOf(events))
  }

  predicate HasId(rows: seq<Row>, id: string) {
    exists i :: 0 <= i < |rows| && rows[i].id == id
  }

  // ---------------------------------------------------------------- the projection

  datatype Projection = Projection(messages: seq<Row>, processes: map<string, string>)

  const NOTHING := Projection([], map[])

  predicate IsCommentary(row: Row) {
    row.role == Assistant && row.kind == Some(Commentary)
  }

  function Without(rows: seq<Row>, id: string): seq<Row> {
    if rows == [] then []
    else
      var before := Without(rows[..|rows| - 1], id);
      if rows[|rows| - 1].id == id then before else before + [rows[|rows| - 1]]
  }

  function FirstWith(rows: seq<Row>, id: string): Option<Row> {
    if rows == [] then None else if rows[0].id == id then Some(rows[0]) else FirstWith(rows[1..], id)
  }

  function Replaced(rows: seq<Row>, row: Row): seq<Row> {
    seq(|rows|, i requires 0 <= i < |rows| => if rows[i].id == row.id then row else rows[i])
  }

  function Process(id: string): string {
    "commentary-" + id
  }

  /** `applyNativeEvent`, the part that keeps messages and commentary. */
  function Project(state: Projection, event: Event): Projection {
    match event
    case Message(row) =>
      if row.id == "" then state
      else if IsCommentary(row)
      then Projection(Without(state.messages, row.id), state.processes[Process(row.id) := row.text])
      else state.(messages := state.messages + [row])
    case Classified(id, kind) =>
      (match FirstWith(state.messages, id)
       case None => state
       case Some(found) =>
         var row := found.(kind := Some(kind));
         if row.id == "" then state
         else if IsCommentary(row)
         then Projection(Without(state.messages, row.id), state.processes[Process(row.id) := row.text])
         else state.(messages := Replaced(state.messages, row)))
    case Native(Delta(id, commentary, text)) =>
      if commentary
      then
        var key := Process(id);
        state.(processes := state.processes[key := (if key in state.processes then state.processes[key] else "") + text])
      else state
    case _ => state
  }

  function ProjectAll(events: seq<Event>): Projection {
    if events == [] then NOTHING
    else Project(ProjectAll(events[..|events| - 1]), events[|events| - 1])
  }

  // ---------------------------------------------------------------- turns

  function LastBoundary(events: seq<Event>): Option<Event> {
    if events == [] then None
    else
      var last := events[|events| - 1];
      if last.TurnStart? || last.TurnEnd? then Some(last) else LastBoundary(events[..|events| - 1])
  }

  function LastStarted(events: seq<Event>): Option<Option<string>> {
    if events == [] then None
    else
      var last := events[|events| - 1];
      if last.Native? && last.fact.Started? then Some(last.fact.turnId) else LastStarted(events[..|events| - 1])
  }

  predicate TurnOpen(events: seq<Event>) {
    LastBoundary(events).Some? && LastBoundary(events).value.TurnStart?
  }

  predicate SeenStarted(events: seq<Event>, turnId: Option<string>) {
    turnId.Some? && exists i :: 0 <= i < |events| && events[i] == Native(Started(turnId))
  }

  /** The number of the boundary's turn. */
  function TurnOf(boundary: Event): nat {
    match boundary
    case TurnStart(turn) => turn
    case TurnEnd(turn, _) => turn
    case _ => 0
  }

  /** What `appendEvent` adds for an engine's report. */
  function AppendFact(events: seq<Event>, fact: Fact): seq<Event> {
    var logged := events + [Native(fact)];
    var boundary := LastBoundary(events);
    match fact
    case Started(turnId) =>
      if !SeenStarted(events, turnId) && !TurnOpen(events)
      then logged + [TurnStart(if boundary.Some? then TurnOf(boundary.value) + 1 else 0)]
      else logged
    case Finished(turnId, result) =>
      if TurnOpen(events) && LastStarted(events).Some? && (turnId.None? || LastStarted(events).value == turnId)
      then logged + [TurnEnd(TurnOf(boundary.value), Reported(result))]
      else logged
    case _ => logged
  }

  // ---------------------------------------------------------------- messages

  function UserIds(events: seq<Event>): set<string> {
    set i | 0 <= i < |events| && events[i].UserMessage? :: events[i].id
  }

  /** The user messages among the first events that have no record of their own yet, in order. */
  function Missing(events: seq<Event>, existing: set<string>): seq<Event>
    decreases |events|
  {
    if events == [] then []
    else
      var first := events[0];
      if first.Message? && first.row.role == User && first.row.id !in existing
      then [UserMessage(first.row.id)] + Missing(events[1..], existing + {first.row.id})
      else Missing(events[1..], existing)
  }

  /** `#ensureUserMessages`, over the events as they are when it starts. */
  function EnsureUsers(events: seq<Event>): seq<Event> {
    events + Missing(events, UserIds(events))
  }

  function AppendMessage(events: seq<Event>, row: Row): seq<Event> {
    if HasId(Messages(events), row.id) then EnsureUsers(events) else EnsureUsers(events + [Message(row)])
  }

  // ---------------------------------------------------------------- open

  /** The import of older messages; one of another session stops it. */
  function Import(events: seq<Event>, sessionId: string, legacy: seq<Row>): (seq<Event>, bool)
    decreases |legacy|
  {
    if legacy == [] then (events, true)
    else if legacy[0].sessionId != sessionId then (events, false)
    else Import(AppendMessage(events, legacy[0]), sessionId, legacy[1..])
  }

  predicate IsImported(events: seq<Event>) {
    Imported in events
  }

  predicate Unclassified(row: Row) {
    row.role == Assistant && row.kind == None
  }

  /** Classifications recovered from the engine's own history for the messages that have none. */
  function Classify(events: seq<Event>, rows: seq<Row>, kinds: map<string, Kind>): seq<Event>
    decreases |rows|
  {
    if rows == [] then events
    else if Unclassified(rows[0]) && rows[0].id in kinds
    then Classify(events + [Classified(rows[0].id, kinds[rows[0].id])], rows[1..], kinds)
    else Classify(events, rows[1..], kinds)
  }

  /** An open turn was interrupted. */
  function CloseTurn(events: seq<Event>): seq<Event> {
    if TurnOpen(events) then events + [TurnEnd(TurnOf(LastBoundary(events).value), Interrupted)] else events
  }

  /** `open` on the recorded events; false if a message of another session stopped the import. */
  function OpenLog(recorded: seq<Event>, sessionId: string, legacy: seq<Row>, kinds: map<string, Kind>): (seq<Event>, bool) {
    var seeded := recorded + [Seeded];
    var (imported, ok) := if IsImported(seeded) then (seeded, true) else Import(seeded, sessionId, legacy);
    if !ok then (imported, false)
    else
      var marked := if IsImported(seeded) then imported else imported + [Imported];
      var users := EnsureUsers(marked);
      (CloseTurn(Classify(users, Messages(users), kinds)), true)
  }

  /** `inspect` and `load`: the recorded events with an open turn closed. */
  function LoadLog(recorded: seq<Event>): seq<Event> {
    CloseTurn(recorded)
  }
}
