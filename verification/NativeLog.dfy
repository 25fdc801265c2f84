/** A live native session: its events, how many of them are written, and the file. */
module NativeLog {
  import opened Common
  import opened NativeLogModel
  import NativeLogTurns
  import opened NativeLogWriter

  class NativeSession {
    var events: seq<Event>
    var written: nat
    /** The records in the file, which a crash may cut anywhere. */
    var file: seq<Event>

    ghost predicate Good()
      reads this
    {
      written <= |events| && file == events[..written] && LogOk(events)
    }

    /** `#persist`: the events not yet written are appended to the file. */
    method Persist()
      requires written <= |events| && file == events[..written]
      modifies this`written, this`file
      ensures file == events && written == |events|
    {
      file := file + events[written..];
      written := |events|;
    }

    /** An append to the session, which its listener persists at once. */
    method Push(e: Event)
      requires written == |events| && file == events
      modifies this
      ensures events == old(events) + [e] && file == events && written == |events|
    {
      events := events + [e];
      Persist();
    }

    method EnsureUsers()
      requires written == |events| && file == events
      modifies this
      ensures events == NativeLogModel.EnsureUsers(old(events)) && file == events && written == |events|
    {
      var existing := UserIds(events);
      var before := events;
      for i := 0 to |before|
        invariant file == events && written == |events|
        invariant before + Missing(before, UserIds(before)) == events + Missing(before[i..], existing)
      {
        var event := before[i];
        assert before[i..][1..] == before[i + 1..];
        if event.Message? && event.row.role == User && event.row.id !in existing {
          ghost var sofar := events;
          Push(UserMessage(event.row.id));
          existing := existing + {event.row.id};
          assert sofar + ([UserMessage(event.row.id)] + Missing(before[i + 1..], existing)) ==
                 events + Missing(before[i + 1..], existing);
        }
      }
    }

    method AppendMessage(row: Row)
      requires Good() && file == events
      modifies this
      ensures events == NativeLogModel.AppendMessage(old(events), row) && Good() && file == events
    {
      hide LogOk, NativeLogModel.EnsureUsers;
      AppendMessageOk(events, row);
      if !HasId(Messages(events), row.id) {
        Push(Message(row));
      }
      EnsureUsers();
    }

    method AppendEvent(fact: Fact)
      requires Good() && file == events
      modifies this
      ensures events == AppendFact(old(events), fact) && Good() && file == events
    {
      hide LogOk, SeenStarted;
      AppendFactOk(events, fact);
      var previous := events;
      Push(Native(fact));
      var boundary := LastBoundary(previous);
      match fact {
        case Started(turnId) =>
          if !SeenStarted(previous, turnId) && !TurnOpen(previous) {
            Push(TurnStart(if boundary.Some? then TurnOf(boundary.value) + 1 else 0));
          }
        case Finished(turnId, result) =>
          if TurnOpen(previous) {
            var started := LastStarted(previous);
            if started.Some? && (turnId.None? || started.value == turnId) {
              Push(TurnEnd(TurnOf(boundary.value), Reported(result)));
            }
          }
        case _ =>
      }
    }

    method CloseOpenTurn()
      requires written == |events| && file == events
      modifies this
      ensures events == CloseTurn(old(events)) && file == events && written == |events|
    {
      if TurnOpen(events) {
        Push(TurnEnd(TurnOf(LastBoundary(events).value), Interrupted));
      }
    }

    /** The import loop of `open`. */
    method ImportMessages(sessionId: string, legacy: seq<Row>) returns (ok: bool)
      requires Good() && file == events
      modifies this
      ensures (events, ok) == Import(old(events), sessionId, legacy) && Good() && file == events
    {
      hide LogOk, NativeLogModel.AppendMessage;
      for i := 0 to |legacy|
        invariant Good() && file == events
        invariant Import(old(events), sessionId, legacy) == Import(events, sessionId, legacy[i..])
      {
        assert legacy[i..][1..] == legacy[i + 1..];
        if legacy[i].sessionId != sessionId {
          return false;
        }
        AppendMessage(legacy[i]);
      }
      return true;
    }

    /** The classification loop of `open`. */
    method ClassifyMessages(kinds: map<string, Kind>)
      requires written == |events| && file == events
      modifies this
      ensures events == Classify(old(events), Messages(old(events)), kinds) && file == events && written == |events|
    {
      var rows := Messages(events);
      for i := 0 to |rows|
        invariant file == events && written == |events|
        invariant Classify(old(events), rows, kinds) == Classify(events, rows[i..], kinds)
      {
        assert rows[i..][1..] == rows[i + 1..];
        if Unclassified(rows[i]) && rows[i].id in kinds {
          Push(Classified(rows[i].id, kinds[rows[i].id]));
        }
      }
    }

    /** `open` on what a crash left of the file; `ok` is false if the import met a message of another session. */
    method Reopen(sessionId: string, legacy: seq<Row>, kinds: map<string, Kind>) returns (ok: bool)
      requires LogOk(file)
      modifies this
      ensures (events, ok) == OpenLog(old(file), sessionId, legacy, kinds) && Good() && file == events
      ensures ok ==> !TurnOpen(events)
    {
      hide LogOk, Import, NativeLogModel.EnsureUsers, Classify, CloseTurn, IsImported;
      OpenOk(file, sessionId, legacy, kinds);
      SeededOk(file);
      events := file + [Seeded];
      written := |file|;
      Persist();
      if !IsImported(events) {
        ok := ImportMessages(sessionId, legacy);
        if !ok {
          return;
        }
        Push(Imported);
      }
      EnsureUsers();
      ClassifyMessages(kinds);
      CloseOpenTurn();
      return true;
    }

    lemma SeededOk(recorded: seq<Event>)
      requires LogOk(recorded)
      ensures LogOk(recorded + [Seeded])
    {
      NativeLogTurns.PlainKeeps(recorded, Seeded);
      OtherKeepsRows(recorded, Seeded);
    }

    /** `load`: the repair is written, but nothing is published. */
    method Load()
      requires LogOk(file)
      modifies this
      ensures events == LoadLog(old(file)) && Good() && file == events && !TurnOpen(events)
    {
      CloseOk(file);
      hide LogOk;
      events := file;
      written := |file|;
      CloseOpenTurn();
    }

    constructor ()
      ensures Good() && file == events && events == []
    {
      events, written, file := [], 0, [];
    }
  }
}
