/** What happens to the messages of a log: they are kept, in order, and only get the classification they lack. */
module NativeLogKept {
  import opened Common
  import opened NativeLogModel
  import opened NativeLogTurns
  import opened NativeLogMessages
  import opened NativeLogWriter

  // ---------------------------------------------------------------- one more event

  lemma MessagesNext(events: seq<Event>, e: Event)
    ensures Messages(events + [e]) ==
            if e.Message? then Messages(events) + [WithKind(e.row, KindsOf(events))]
            else if e.Classified? then Rekinded(Messages(events), e.id, e.kind)
            else Messages(events)
  {
    var n := events + [e];
    assert n[..|n| - 1] == events && n[|events|] == e;
    if e.Classified? {
      RowsRekinded(events, KindsOf(events), e.id, e.kind);
    }
  }

  lemma {:induction false} PlainsKeepMessages(events: seq<Event>, more: seq<Event>)
    requires forall i :: 0 <= i < |more| ==> more[i].UserMessage?
    ensures Messages(events + more) == Messages(events)
    decreases |more|
  {
    hide Messages;
    if more == [] {
      assert events + more == events;
    } else {
      var init, last := more[..|more| - 1], more[|more| - 1];
      PlainsKeepMessages(events, init);
      MessagesNext(events + init, last);
      assert events + more == events + init + [last];
    }
  }

  lemma UsersKeepMessages(events: seq<Event>)
    ensures Messages(EnsureUsers(events)) == Messages(events)
  {
    hide Messages;
    MissingPlain(events, UserIds(events));
    PlainsKeepMessages(events, Missing(events, UserIds(events)));
  }

  /** A message that is not in the log has not been classified in it. */
  lemma NewUnclassified(events: seq<Event>, row: Row)
    requires RowsOk(events) && !HasId(Messages(events), row.id)
    ensures WithKind(row, KindsOf(events)) == row
  {
    NewMessageKeepsRows(events, row);
    NotYetClassified(events, row);
  }

  /** A message is appended to the others, unless one with its id is there; then nothing changes. */
  lemma MessageAppended(events: seq<Event>, row: Row)
    requires LogOk(events)
    ensures Messages(AppendMessage(events, row)) ==
            if HasId(Messages(events), row.id) then Messages(events) else Messages(events) + [row]
  {
    hide Messages, EnsureUsers, TurnsOk, RowsOk;
    UsersKeepMessages(events);
    UsersKeepMessages(events + [Message(row)]);
    MessagesNext(events, Message(row));
    if !HasId(Messages(events), row.id) {
      NewUnclassified(events, row);
    }
  }

  /** Reports of the engine leave the messages alone. */
  lemma FactKeepsMessages(events: seq<Event>, fact: Fact)
    ensures Messages(AppendFact(events, fact)) == Messages(events)
  {
    hide Messages, TurnOpen, SeenStarted, LastStarted, LastBoundary;
    var logged, n := events + [Native(fact)], AppendFact(events, fact);
    MessagesNext(events, Native(fact));
    if |n| > |logged| {
      assert n == logged + [n[|logged|]];
      MessagesNext(logged, n[|logged|]);
    }
  }

  // ---------------------------------------------------------------- import

  ghost predicate AllThere(rows: seq<Row>, legacy: seq<Row>) {
    forall i :: 0 <= i < |legacy| ==> HasId(rows, legacy[i].id)
  }

  lemma HasMore(rows: seq<Row>, more: seq<Row>, id: string)
    requires rows <= more && HasId(rows, id)
    ensures HasId(more, id)
  {
    var i :| 0 <= i < |rows| && rows[i].id == id;
    assert more[i] == rows[i];
  }

  lemma AppendedThere(events: seq<Event>, row: Row)
    requires LogOk(events)
    ensures Messages(events) <= Messages(AppendMessage(events, row)) && HasId(Messages(AppendMessage(events, row)), row.id)
  {
    hide Messages, AppendMessage, LogOk;
    MessageAppended(events, row);
    var n := Messages(AppendMessage(events, row));
    assert !HasId(Messages(events), row.id) ==> n[|Messages(events)|] == row;
  }

  /** Older messages come after those that are there, each once, without a change. */
  lemma {:induction false} ImportAppends(events: seq<Event>, sessionId: string, legacy: seq<Row>)
    requires LogOk(events)
    ensures var (n, ok) := Import(events, sessionId, legacy);
            Messages(events) <= Messages(n) && (ok ==> AllThere(Messages(n), legacy)) &&
            forall k :: |Messages(events)| <= k < |Messages(n)| ==> Messages(n)[k] in legacy
    decreases |legacy|
  {
    hide Messages, AppendMessage, LogOk;
    if legacy != [] && legacy[0].sessionId == sessionId {
      var next := AppendMessage(events, legacy[0]);
      AppendMessageOk(events, legacy[0]);
      AppendedThere(events, legacy[0]);
      MessageAppended(events, legacy[0]);
      ImportAppends(next, sessionId, legacy[1..]);
      var n := Import(next, sessionId, legacy[1..]).0;
      HasMore(Messages(next), Messages(n), legacy[0].id);
      assert forall k :: |Messages(events)| <= k < |Messages(next)| ==> Messages(n)[k] == Messages(next)[k];
    }
  }

  // ---------------------------------------------------------------- classification

  /** One of the rows still to be looked at is an unclassified message with the id. */
  ghost predicate Awaits(rows: seq<Row>, id: string) {
    exists j :: 0 <= j < |rows| && Unclassified(rows[j]) && rows[j].id == id
  }

  function Given(row: Row, kinds: map<string, Kind>): Row
    requires row.id in kinds
  {
    row.(kind := Some(kinds[row.id]))
  }

  lemma {:induction false} ClassifyGives(events: seq<Event>, rows: seq<Row>, kinds: map<string, Kind>)
    ensures var n := Messages(Classify(events, rows, kinds));
            |n| == |Messages(events)| &&
            forall i :: 0 <= i < |n| ==>
              n[i] == if Awaits(rows, Messages(events)[i].id) && Messages(events)[i].id in kinds
                      then Given(Messages(events)[i], kinds) else Messages(events)[i]
    decreases |rows|
  {
    hide Messages;
    if rows != [] {
      var first := rows[0];
      assert forall j :: 0 <= j < |rows[1..]| ==> rows[1..][j] == rows[j + 1];
      forall id ensures Awaits(rows, id) <==> Awaits(rows[1..], id) || (Unclassified(first) && first.id == id) {
        if j :| 0 <= j < |rows| && Unclassified(rows[j]) && rows[j].id == id && j > 0 {
          assert rows[1..][j - 1] == rows[j];
        }
        if j :| 0 <= j < |rows[1..]| && Unclassified(rows[1..][j]) && rows[1..][j].id == id {
          assert rows[j + 1] == rows[1..][j];
        }
      }
      if Unclassified(first) && first.id in kinds {
        var e := Classified(first.id, kinds[first.id]);
        MessagesNext(events, e);
        ClassifyGives(events + [e], rows[1..], kinds);
      } else {
        ClassifyGives(events, rows[1..], kinds);
      }
    }
  }

  /** Of distinct rows, the ones that wait are the unclassified ones. */
  lemma AwaitsItself(rows: seq<Row>, i: nat)
    requires DistinctRows(rows) && i < |rows|
    ensures Awaits(rows, rows[i].id) <==> Unclassified(rows[i])
  {
  }

  /** What opening makes of a message. */
  function Opened(row: Row, kinds: map<string, Kind>): Row {
    if Unclassified(row) && row.id in kinds then row.(kind := Some(kinds[row.id])) else row
  }

  /** The row is one of the older messages. */
  ghost predicate IsImport(row: Row, legacy: seq<Row>, kinds: map<string, Kind>) {
    exists j :: 0 <= j < |legacy| && row == Opened(legacy[j], kinds)
  }

  /** The messages are those from before, and then imported ones, each with the classification it lacks, if it is known. */
  ghost predicate OpensAs(before: seq<Row>, after: seq<Row>, legacy: seq<Row>, kinds: map<string, Kind>) {
    |before| <= |after| && (forall i :: 0 <= i < |before| ==> after[i] == Opened(before[i], kinds)) &&
    forall i :: |before| <= i < |after| ==> IsImport(after[i], legacy, kinds)
  }

  lemma DistinctMessages(events: seq<Event>)
    requires LogOk(events)
    ensures DistinctRows(Messages(events))
  {
    hide TurnsOk;
    RowsDistinct(events, KindsOf(events));
  }

  lemma CloseKeepsMessages(events: seq<Event>)
    ensures Messages(CloseTurn(events)) == Messages(events)
  {
    hide Messages, LastBoundary;
    if TurnOpen(events) {
      MessagesNext(events, TurnEnd(TurnOf(LastBoundary(events).value), Interrupted));
    }
  }

  /** Up to the classification. */
  lemma MarkedMessages(recorded: seq<Event>, sessionId: string, legacy: seq<Row>) returns (users: seq<Event>)
    requires LogOk(recorded)
    ensures var seeded := recorded + [Seeded];
            var (imported, ok) := if IsImported(seeded) then (seeded, true) else Import(seeded, sessionId, legacy);
            ok ==>
              users == EnsureUsers(if IsImported(seeded) then imported else imported + [Imported]) && LogOk(users) &&
              Messages(recorded) <= Messages(users) && (IsImported(seeded) ==> Messages(users) == Messages(recorded)) &&
              (!IsImported(seeded) ==> AllThere(Messages(users), legacy)) &&
              forall k :: |Messages(recorded)| <= k < |Messages(users)| ==> Messages(users)[k] in legacy
  {
    hide Messages, TurnsOk, RowsOk, Import, EnsureUsers;
    var seeded := recorded + [Seeded];
    PlainKeeps(recorded, Seeded);
    OtherKeepsRows(recorded, Seeded);
    MessagesNext(recorded, Seeded);
    ImportOk(seeded, sessionId, legacy);
    ImportAppends(seeded, sessionId, legacy);
    var (imported, ok) := if IsImported(seeded) then (seeded, true) else Import(seeded, sessionId, legacy);
    PlainKeeps(imported, Imported);
    OtherKeepsRows(imported, Imported);
    MessagesNext(imported, Imported);
    var marked := if IsImported(seeded) then imported else imported + [Imported];
    UsersKeep(marked);
    EnsureKeepsRows(marked);
    UsersKeepMessages(marked);
    users := EnsureUsers(marked);
  }

  /**
   Opening a log keeps its messages in order and as they were, but for classifications that were missing and are known; on
   the first time it adds the older messages that it does not have, every one of them.
   */
  lemma OpenKeepsMessages(recorded: seq<Event>, sessionId: string, legacy: seq<Row>, kinds: map<string, Kind>)
    requires LogOk(recorded)
    ensures var (events, ok) := OpenLog(recorded, sessionId, legacy, kinds);
            ok ==>
              OpensAs(Messages(recorded), Messages(events), legacy, kinds) &&
              (IsImported(recorded + [Seeded]) ==> |Messages(events)| == |Messages(recorded)|) &&
              (!IsImported(recorded + [Seeded]) ==> AllThere(Messages(events), legacy))
  {
    hide Messages, LogOk, Import, EnsureUsers, CloseTurn, Classify, Unclassified;
    var users := MarkedMessages(recorded, sessionId, legacy);
    var (events, ok) := OpenLog(recorded, sessionId, legacy, kinds);
    if ok {
      ClassifyGives(users, Messages(users), kinds);
      DistinctMessages(users);
      CloseKeepsMessages(Classify(users, Messages(users), kinds));
      var rows, n := Messages(users), Messages(events);
      forall i | 0 <= i < |rows| ensures n[i] == Opened(rows[i], kinds) {
        AwaitsItself(rows, i);
      }
      SameIds(rows, n, legacy, kinds);
      OpenedRows(Messages(recorded), rows, n, legacy, kinds);
    }
  }

  lemma OpenedRows(before: seq<Row>, rows: seq<Row>, n: seq<Row>, legacy: seq<Row>, kinds: map<string, Kind>)
    requires before <= rows && |n| == |rows| && forall i :: 0 <= i < |rows| ==> n[i] == Opened(rows[i], kinds)
    requires forall k :: |before| <= k < |rows| ==> rows[k] in legacy
    ensures OpensAs(before, n, legacy, kinds)
  {
    forall i | 0 <= i < |before| ensures n[i] == Opened(before[i], kinds) {
      assert rows[i] == before[i];
    }
    forall i | |before| <= i < |n| ensures IsImport(n[i], legacy, kinds) {
      assert rows[i] in legacy;
      var j :| 0 <= j < |legacy| && legacy[j] == rows[i];
      assert n[i] == Opened(legacy[j], kinds);
    }
  }

  lemma SameIds(rows: seq<Row>, n: seq<Row>, legacy: seq<Row>, kinds: map<string, Kind>)
    requires |n| == |rows| && forall i :: 0 <= i < |rows| ==> n[i] == Opened(rows[i], kinds)
    ensures AllThere(rows, legacy) ==> AllThere(n, legacy)
  {
    forall i | 0 <= i < |legacy| && HasId(rows, legacy[i].id) ensures HasId(n, legacy[i].id) {
      var k :| 0 <= k < |rows| && rows[k].id == legacy[i].id;
      assert n[k].id == rows[k].id;
    }
  }
}
