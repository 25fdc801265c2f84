/** Every log that this program writes is in order, whatever is appended and wherever a crash cuts it. */
module NativeLogWriter {
  import opened Common
  import opened NativeLogModel
  import opened NativeLogTurns
  import opened NativeLogMessages

  ghost predicate LogOk(events: seq<Event>) {
    TurnsOk(events) && RowsOk(events)
  }

  /** Appending an event that is about no message. */
  lemma OtherKeepsRows(events: seq<Event>, e: Event)
    requires RowsOk(events) && !e.Message? && !e.Classified? && !e.UserMessage?
    ensures RowsOk(events + [e])
  {
    StillBefore(events, e);
  }

  /** What came before is still before. */
  lemma StillBefore(events: seq<Event>, e: Event)
    ensures var n := events + [e];
            (forall i, id :: 0 <= i <= |events| && OpenBefore(events, i, id) ==> OpenBefore(n, i, id)) &&
            forall i, id, role :: 0 <= i <= |events| && Before(events, i, id, role) ==> Before(n, i, id, role)
  {
    var n := events + [e];
    assert forall j :: 0 <= j < |events| ==> n[j] == events[j];
    forall i, id | 0 <= i <= |events| && OpenBefore(events, i, id) ensures OpenBefore(n, i, id) {
      var j :| 0 <= j < i && events[j].Message? && events[j].row.id == id && Unclassified(events[j].row);
      assert n[j] == events[j];
    }
    forall i, id, role | 0 <= i <= |events| && Before(events, i, id, role) ensures Before(n, i, id, role) {
      var j :| 0 <= j < i && events[j].Message? && events[j].row.id == id && events[j].row.role == role;
      assert n[j] == events[j];
    }
  }

  lemma NewMessageKeepsRows(events: seq<Event>, row: Row)
    requires RowsOk(events) && !HasId(Messages(events), row.id)
    ensures RowsOk(events + [Message(row)])
  {
    StillBefore(events, Message(row));
    RowsAre(events, KindsOf(events));
    forall i | 0 <= i < |events| && events[i].Message? ensures events[i].row.id != row.id {
      assert HasId(Messages(events), events[i].row.id);
    }
  }

  lemma UserKeepsRows(events: seq<Event>, id: string)
    requires RowsOk(events) && Before(events, |events|, id, User) && id !in UserIds(events)
    ensures RowsOk(events + [UserMessage(id)]) && UserIds(events + [UserMessage(id)]) == UserIds(events) + {id}
  {
    var n := events + [UserMessage(id)];
    StillBefore(events, UserMessage(id));
    assert forall i :: 0 <= i < |events| && events[i].UserMessage? ==> events[i].id in UserIds(events);
    forall x ensures x in UserIds(n) <==> x in UserIds(events) + {id} {
      if x in UserIds(events) {
        var i :| 0 <= i < |events| && events[i].UserMessage? && events[i].id == x;
        assert n[i] == events[i];
      }
      if x == id {
        assert n[|events|] == UserMessage(id);
      }
    }
  }

  /** Recording the missing user messages of an earlier part of the log. */
  lemma {:induction false} MissingKeepsRows(events: seq<Event>, rest: seq<Event>, existing: set<string>)
    requires RowsOk(events) && existing == UserIds(events)
    requires forall i :: 0 <= i < |rest| && rest[i].Message? ==>
               Before(events, |events|, rest[i].row.id, rest[i].row.role)
    ensures RowsOk(events + Missing(rest, existing))
    ensures existing <= UserIds(events + Missing(rest, existing))
    ensures forall i :: 0 <= i < |rest| && rest[i].Message? && rest[i].row.role == User ==>
              rest[i].row.id in UserIds(events + Missing(rest, existing))
    decreases |rest|
  {
    if rest == [] {
      assert events + Missing(rest, existing) == events;
    } else {
      var first := rest[0];
      assert forall i :: 0 <= i < |rest[1..]| ==> rest[1..][i] == rest[i + 1];
      assert forall i :: 0 < i < |rest| ==> rest[i] == rest[1..][i - 1];
      if first.Message? && first.row.role == User && first.row.id !in existing {
        var e := UserMessage(first.row.id);
        UserKeepsRows(events, first.row.id);
        StillAll(events, e);
        MissingKeepsRows(events + [e], rest[1..], existing + {first.row.id});
        assert events + Missing(rest, existing) == events + [e] + Missing(rest[1..], existing + {first.row.id});
      } else {
        MissingKeepsRows(events, rest[1..], existing);
      }
    }
  }

  lemma StillAll(events: seq<Event>, e: Event)
    ensures forall id, role :: Before(events, |events|, id, role) ==> Before(events + [e], |events + [e]|, id, role)
  {
    var n := events + [e];
    forall id, role | Before(events, |events|, id, role) ensures Before(n, |n|, id, role) {
      var j :| 0 <= j < |events| && events[j].Message? && events[j].row.id == id && events[j].row.role == role;
      assert n[j] == events[j];
    }
  }

  /** Every user message has its record in the conversation. */
  ghost predicate UsersCovered(events: seq<Event>) {
    forall i :: 0 <= i < |events| && events[i].Message? && events[i].row.role == User ==>
      events[i].row.id in UserIds(events)
  }

  lemma EnsureKeepsRows(events: seq<Event>)
    requires RowsOk(events)
    ensures RowsOk(EnsureUsers(events)) && UsersCovered(EnsureUsers(events))
  {
    var missing := Missing(events, UserIds(events));
    forall i | 0 <= i < |events| && events[i].Message? ensures Before(events, |events|, events[i].row.id, events[i].row.role) {
    }
    MissingKeepsRows(events, events, UserIds(events));
    MissingPlain(events, UserIds(events));
    var n := EnsureUsers(events);
    assert forall k :: |events| <= k < |n| ==> n[k] == missing[k - |events|];
    assert forall k :: 0 <= k < |events| ==> n[k] == events[k];
  }

  /** Anything but a message leaves the user messages recorded. */
  lemma OtherKeepsCovered(events: seq<Event>, e: Event)
    requires UsersCovered(events) && !e.Message?
    ensures UsersCovered(events + [e])
  {
    var n := events + [e];
    assert forall k :: 0 <= k < |events| ==> n[k] == events[k];
    forall i | 0 <= i < |n| && n[i].Message? && n[i].row.role == User ensures n[i].row.id in UserIds(n) {
      assert events[i].row.id in UserIds(events);
    }
  }

  lemma AppendMessageOk(events: seq<Event>, row: Row)
    requires LogOk(events)
    ensures LogOk(AppendMessage(events, row)) && UsersCovered(AppendMessage(events, row))
  {
    hide TurnsOk, RowsOk, UsersCovered, EnsureUsers;
    MessageKeeps(events, row);
    if HasId(Messages(events), row.id) {
      EnsureKeepsRows(events);
    } else {
      NewMessageKeepsRows(events, row);
      EnsureKeepsRows(events + [Message(row)]);
    }
  }

  lemma AppendFactOk(events: seq<Event>, fact: Fact)
    requires LogOk(events)
    ensures LogOk(AppendFact(events, fact))
  {
    hide TurnsOk, RowsOk, TurnOpen, SeenStarted;
    FactKeeps(events, fact);
    var logged := events + [Native(fact)];
    OtherKeepsRows(events, Native(fact));
    var n := AppendFact(events, fact);
    if |n| > |logged| {
      assert n == logged + [n[|logged|]];
      OtherKeepsRows(logged, n[|logged|]);
    }
  }

  lemma {:induction false} ImportOk(events: seq<Event>, sessionId: string, legacy: seq<Row>)
    requires LogOk(events)
    ensures LogOk(Import(events, sessionId, legacy).0)
    decreases |legacy|
  {
    hide LogOk, AppendMessage;
    if legacy != [] && legacy[0].sessionId == sessionId {
      AppendMessageOk(events, legacy[0]);
      ImportOk(AppendMessage(events, legacy[0]), sessionId, legacy[1..]);
    }
  }

  /** The rows still to be looked at are unclassified messages of the log, each at most once. */
  ghost predicate ToClassify(events: seq<Event>, rows: seq<Row>) {
    DistinctRows(rows) &&
    forall i :: 0 <= i < |rows| && Unclassified(rows[i]) ==>
      OpenBefore(events, |events|, rows[i].id) && rows[i].id !in KindsOf(events)
  }

  lemma ClassifiedKeepsRows(events: seq<Event>, id: string, kind: Kind)
    requires RowsOk(events) && OpenBefore(events, |events|, id) && id !in KindsOf(events)
    ensures RowsOk(events + [Classified(id, kind)])
  {
    StillBefore(events, Classified(id, kind));
    KindsAre(events, id);
  }

  lemma {:induction false} ClassifyOk(events: seq<Event>, rows: seq<Row>, kinds: map<string, Kind>)
    requires LogOk(events) && ToClassify(events, rows)
    ensures LogOk(Classify(events, rows, kinds))
    decreases |rows|
  {
    hide TurnsOk, RowsOk, OpenBefore;
    if rows != [] {
      var first := rows[0];
      assert forall i :: 0 <= i < |rows[1..]| ==> rows[1..][i] == rows[i + 1];
      if Unclassified(first) && first.id in kinds {
        var e := Classified(first.id, kinds[first.id]);
        PlainKeeps(events, e);
        ClassifiedKeepsRows(events, first.id, kinds[first.id]);
        StillBefore(events, e);
        assert (events + [e])[..|events|] == events;
        forall i | 0 <= i < |rows[1..]| && Unclassified(rows[1..][i])
          ensures OpenBefore(events + [e], |events + [e]|, rows[1..][i].id) && rows[1..][i].id !in KindsOf(events + [e])
        {
          OpenLater(events, e, rows[1..][i].id);
        }
        ClassifyOk(events + [e], rows[1..], kinds);
      } else {
        ClassifyOk(events, rows[1..], kinds);
      }
    }
  }

  lemma OpenLater(events: seq<Event>, e: Event, id: string)
    requires OpenBefore(events, |events|, id)
    ensures OpenBefore(events + [e], |events + [e]|, id)
  {
    var j :| 0 <= j < |events| && events[j].Message? && events[j].row.id == id && Unclassified(events[j].row);
    assert (events + [e])[j] == events[j];
  }

  lemma {:induction false} ClassifyKeepsCovered(events: seq<Event>, rows: seq<Row>, kinds: map<string, Kind>)
    requires UsersCovered(events)
    ensures UsersCovered(Classify(events, rows, kinds))
    decreases |rows|
  {
    hide UsersCovered;
    if rows != [] {
      if Unclassified(rows[0]) && rows[0].id in kinds {
        OtherKeepsCovered(events, Classified(rows[0].id, kinds[rows[0].id]));
        ClassifyKeepsCovered(events + [Classified(rows[0].id, kinds[rows[0].id])], rows[1..], kinds);
      } else {
        ClassifyKeepsCovered(events, rows[1..], kinds);
      }
    }
  }

  lemma CloseKeepsCovered(events: seq<Event>)
    requires UsersCovered(events)
    ensures UsersCovered(CloseTurn(events))
  {
    hide UsersCovered;
    if TurnOpen(events) {
      OtherKeepsCovered(events, TurnEnd(TurnOf(LastBoundary(events).value), Interrupted));
    }
  }

  lemma AllToClassify(events: seq<Event>)
    requires RowsOk(events)
    ensures ToClassify(events, Messages(events))
  {
    var kinds := KindsOf(events);
    RowsDistinct(events, kinds);
    RowsAre(events, kinds);
    forall i | 0 <= i < |Messages(events)| && Unclassified(Messages(events)[i])
      ensures OpenBefore(events, |events|, Messages(events)[i].id) && Messages(events)[i].id !in kinds
    {
      assert FromMessage(events, kinds, Messages(events)[i]);
    }
  }

  lemma CloseOk(events: seq<Event>)
    requires LogOk(events)
    ensures LogOk(CloseTurn(events)) && !TurnOpen(CloseTurn(events))
  {
    hide TurnsOk, RowsOk;
    CloseKeeps(events);
    if TurnOpen(events) {
      OtherKeepsRows(events, TurnEnd(TurnOf(LastBoundary(events).value), Interrupted));
    }
  }

  /** A log cut anywhere is a log in order. */
  lemma CutOk(events: seq<Event>, n: nat)
    requires LogOk(events) && n <= |events|
    ensures LogOk(events[..n])
  {
    PrefixOk(events, n);
    PrefixRowsOk(events, n);
  }

  /** Opening any log that was in order leaves it in order, with no turn open, and with every user message recorded. */
  lemma OpenOk(recorded: seq<Event>, sessionId: string, legacy: seq<Row>, kinds: map<string, Kind>)
    requires LogOk(recorded)
    ensures var (events, ok) := OpenLog(recorded, sessionId, legacy, kinds);
            LogOk(events) && (ok ==> !TurnOpen(events) && UsersCovered(events))
  {
    hide TurnsOk, RowsOk, CloseTurn, Classify, Import, EnsureUsers, TurnOpen, ToClassify, UsersCovered;
    var seeded := recorded + [Seeded];
    PlainKeeps(recorded, Seeded);
    OtherKeepsRows(recorded, Seeded);
    ImportOk(seeded, sessionId, legacy);
    var (imported, ok) := if IsImported(seeded) then (seeded, true) else Import(seeded, sessionId, legacy);
    if ok {
      PlainKeeps(imported, Imported);
      OtherKeepsRows(imported, Imported);
      var marked := if IsImported(seeded) then imported else imported + [Imported];
      UsersKeep(marked);
      EnsureKeepsRows(marked);
      var users := EnsureUsers(marked);
      AllToClassify(users);
      ClassifyOk(users, Messages(users), kinds);
      ClassifyKeepsCovered(users, Messages(users), kinds);
      CloseOk(Classify(users, Messages(users), kinds));
      CloseKeepsCovered(Classify(users, Messages(users), kinds));
    }
  }

  // ---------------------------------------------------------------- any use of the log

  datatype Use =
    | Append(row: Row)
    | Report(fact: Fact)
    | Reopen(kept: nat, sessionId: string, legacy: seq<Row>, kinds: map<string, Kind>)
    | Reload(kept: nat)

  /** A use of the log; reopening and loading come after a crash that kept any first part of it. */
  function Apply(events: seq<Event>, use: Use): seq<Event> {
    match use
    case Append(row) => AppendMessage(events, row)
    case Report(fact) => AppendFact(events, fact)
    case Reopen(kept, sessionId, legacy, kinds) =>
      OpenLog(if kept <= |events| then events[..kept] else events, sessionId, legacy, kinds).0
    case Reload(kept) => LoadLog(if kept <= |events| then events[..kept] else events)
  }

  function ApplyAll(events: seq<Event>, uses: seq<Use>): seq<Event>
    decreases |uses|
  {
    if uses == [] then events else ApplyAll(Apply(events, uses[0]), uses[1..])
  }

  lemma ApplyOk(events: seq<Event>, use: Use)
    requires LogOk(events)
    ensures LogOk(Apply(events, use))
  {
    hide LogOk, AppendMessage, AppendFact, OpenLog, CloseTurn;
    match use
    case Append(row) => AppendMessageOk(events, row);
    case Report(fact) => AppendFactOk(events, fact);
    case Reopen(kept, sessionId, legacy, kinds) =>
      if kept <= |events| {
        CutOk(events, kept);
      }
      OpenOk(if kept <= |events| then events[..kept] else events, sessionId, legacy, kinds);
    case Reload(kept) =>
      if kept <= |events| {
        CutOk(events, kept);
      }
      CloseOk(if kept <= |events| then events[..kept] else events);
  }

  lemma {:induction false} ApplyAllOk(events: seq<Event>, uses: seq<Use>)
    requires LogOk(events)
    ensures LogOk(ApplyAll(events, uses))
    decreases |uses|
  {
    hide LogOk, Apply;
    if uses != [] {
      ApplyOk(events, uses[0]);
      ApplyAllOk(Apply(events, uses[0]), uses[1..]);
    }
  }

  /**
   However a log came about, crashes included: its turn boundaries read start 0, end 0, start 1, ...; a turn ended with
   what the engine reported right before, or was interrupted; and the projection shows the messages of the batch fold, without commentary and without rows that have no id.
   */
  lemma WrittenLogs(uses: seq<Use>)
    ensures var events := ApplyAll([], uses);
            Alternating(Boundaries(events)) && OpenedOnce(events) && ReasonsOk(events) &&
            ProjectAll(events).messages == Shown(Messages(events))
  {
    ApplyAllOk([], uses);
    ProjectionAgrees(ApplyAll([], uses));
  }

  // ---------------------------------------------------------------- interrupted turns

  predicate InterruptsAt(events: seq<Event>, i: nat) {
    i < |events| && events[i].TurnEnd? && events[i].reason.Interrupted?
  }

  /** What was there before a use of the log, and is still. */
  function KeptBy(events: seq<Event>, use: Use): seq<Event> {
    match use
    case Append(_) => events
    case Report(_) => events
    case Reopen(kept, _, _, _) => if kept <= |events| then events[..kept] else events
    case Reload(kept) => if kept <= |events| then events[..kept] else events
  }

  /** No interruption was added. */
  ghost predicate NoneNew(a: seq<Event>, b: seq<Event>) {
    a <= b && forall i :: |a| <= i < |b| ==> !InterruptsAt(b, i)
  }

  lemma NoneNewTrans(a: seq<Event>, b: seq<Event>, c: seq<Event>)
    requires NoneNew(a, b) && NoneNew(b, c)
    ensures NoneNew(a, c)
  {
    forall i | |a| <= i < |c| ensures !InterruptsAt(c, i) {
      if i < |b| {
        assert c[i] == b[i] && !InterruptsAt(b, i);
      }
    }
  }

  lemma OneNew(events: seq<Event>, e: Event)
    requires !(e.TurnEnd? && e.reason.Interrupted?)
    ensures NoneNew(events, events + [e]) && NoneNew(events, events)
  {
  }

  lemma UsersNoneNew(events: seq<Event>)
    ensures NoneNew(events, EnsureUsers(events))
  {
    MissingPlain(events, UserIds(events));
  }

  lemma MessageNoneNew(events: seq<Event>, row: Row)
    ensures NoneNew(events, AppendMessage(events, row))
  {
    hide NoneNew, EnsureUsers;
    UsersNoneNew(events);
    OneNew(events, Message(row));
    UsersNoneNew(events + [Message(row)]);
    if !HasId(Messages(events), row.id) {
      NoneNewTrans(events, events + [Message(row)], EnsureUsers(events + [Message(row)]));
    }
  }

  lemma {:induction false} ImportNoneNew(events: seq<Event>, sessionId: string, legacy: seq<Row>)
    ensures NoneNew(events, Import(events, sessionId, legacy).0)
    decreases |legacy|
  {
    hide NoneNew, AppendMessage;
    OneNew(events, Seeded);
    if legacy != [] && legacy[0].sessionId == sessionId {
      var next := AppendMessage(events, legacy[0]);
      MessageNoneNew(events, legacy[0]);
      ImportNoneNew(next, sessionId, legacy[1..]);
      NoneNewTrans(events, next, Import(next, sessionId, legacy[1..]).0);
    }
  }

  lemma {:induction false} ClassifyNoneNew(events: seq<Event>, rows: seq<Row>, kinds: map<string, Kind>)
    ensures NoneNew(events, Classify(events, rows, kinds))
    decreases |rows|
  {
    hide NoneNew;
    OneNew(events, Seeded);
    if rows != [] {
      if Unclassified(rows[0]) && rows[0].id in kinds {
        var e := Classified(rows[0].id, kinds[rows[0].id]);
        OneNew(events, e);
        ClassifyNoneNew(events + [e], rows[1..], kinds);
        NoneNewTrans(events, events + [e], Classify(events + [e], rows[1..], kinds));
      } else {
        ClassifyNoneNew(events, rows[1..], kinds);
      }
    }
  }

  /** Up to the closing of an open turn, opening interrupts nothing. */
  lemma OpenedNoneNew(recorded: seq<Event>, sessionId: string, legacy: seq<Row>, kinds: map<string, Kind>) returns (before: seq<Event>)
    ensures NoneNew(recorded, before)
    ensures var (events, ok) := OpenLog(recorded, sessionId, legacy, kinds); events == if ok then CloseTurn(before) else before
  {
    hide NoneNew, CloseTurn, Classify, Import, EnsureUsers;
    var seeded := recorded + [Seeded];
    OneNew(recorded, Seeded);
    ImportNoneNew(seeded, sessionId, legacy);
    var (imported, ok) := if IsImported(seeded) then (seeded, true) else Import(seeded, sessionId, legacy);
    OneNew(seeded, Imported);
    NoneNewTrans(recorded, seeded, imported);
    before := imported;
    if ok {
      var marked := if IsImported(seeded) then imported else imported + [Imported];
      OneNew(imported, Imported);
      NoneNewTrans(recorded, imported, marked);
      UsersNoneNew(marked);
      var users := EnsureUsers(marked);
      NoneNewTrans(recorded, marked, users);
      ClassifyNoneNew(users, Messages(users), kinds);
      before := Classify(users, Messages(users), kinds);
      NoneNewTrans(recorded, users, before);
    }
  }

  /** An interruption is only ever added by opening or loading a log with an open turn, as its last event, for that turn. */
  lemma InterruptedOnlyBy(events: seq<Event>, use: Use, i: nat)
    requires |KeptBy(events, use)| <= i && InterruptsAt(Apply(events, use), i)
    ensures (use.Reopen? || use.Reload?) && i == |Apply(events, use)| - 1
    ensures TurnOpen(Apply(events, use)[..i]) &&
            Apply(events, use)[i].turn == TurnOf(LastBoundary(Apply(events, use)[..i]).value)
  {
    hide OpenLog, AppendMessage, TurnOpen, NoneNew;
    var n, kept := Apply(events, use), KeptBy(events, use);
    match use {
      case Append(row) =>
        MessageNoneNew(events, row);
        NoneAt(events, n, i);
      case Report(fact) =>
      case Reopen(_, sessionId, legacy, kinds) =>
        var before := OpenedNoneNew(kept, sessionId, legacy, kinds);
        ClosedAt(kept, before, n, i);
      case Reload(_) =>
        OneNew(kept, Seeded);
        ClosedAt(kept, kept, n, i);
    }
  }

  lemma NoneAt(a: seq<Event>, b: seq<Event>, i: nat)
    requires NoneNew(a, b) && |a| <= i < |b|
    ensures !InterruptsAt(b, i)
  {
  }

  lemma ClosedAt(kept: seq<Event>, before: seq<Event>, n: seq<Event>, i: nat)
    requires NoneNew(kept, before) && (n == CloseTurn(before) || n == before) && |kept| <= i && InterruptsAt(n, i)
    ensures i == |n| - 1 && n[..i] == before && TurnOpen(before) && n[i].turn == TurnOf(LastBoundary(before).value)
  {
    hide TurnOpen;
    forall j | |kept| <= j < |before| ensures !InterruptsAt(n, j) {
      assert n[j] == before[j] && !InterruptsAt(before, j);
    }
  }

  // ---------------------------------------------------------------- logs that show the exceptions

  lemma NothingMissing(row: Row)
    requires row.role == Assistant
    ensures EnsureUsers([Message(row)]) == [Message(row)]
  {
    var log := [Message(row)];
    assert log[1..] == [] && log[0].row == row;
    assert Missing(log[1..], UserIds(log)) == [];
  }

  lemma OneMessage(row: Row)
    ensures Messages([Message(row)]) == [row]
  {
    var log := [Message(row)];
    assert log[..0] == [];
    assert KindsOf(log[..0]) == map[] && RowsWith(log[..0], map[]) == [];
    assert KindsOf(log) == map[];
  }

  /** An assistant's message without an id, appended to an empty log: the projection does not show it. */
  lemma EmptyIdDropped(row: Row)
    requires row.id == "" && row.role == Assistant && !IsCommentary(row)
    ensures var events := AppendMessage([], row);
            LogOk(events) && ProjectAll(events).messages != WithoutCommentary(Messages(events))
  {
    var events := AppendMessage([], row);
    AppendMessageOk([], row);
    NothingMissing(row);
    assert [] + [Message(row)] == [Message(row)];
    hide EnsureUsers, LogOk, ProjectAll;
    assert !HasId(Messages([]), row.id);
    OneMessage(row);
    AgreementIff(events);
  }

  /** A turn begun twice by explicit boundaries: the log is out of order. */
  lemma BegunTwice()
    ensures TurnsOk([]) && Alternating(Boundaries([TurnStart(0)])) && !Alternating(Boundaries([TurnStart(0), TurnStart(1)]))
  {
    assert [] + [TurnStart(0)] == [TurnStart(0)] && [TurnStart(0)] + [TurnStart(1)] == [TurnStart(0), TurnStart(1)];
    BoundariesNext([], TurnStart(0));
    ExplicitBoundaryIff([], TurnStart(0));
    ExplicitBoundaryIff([TurnStart(0)], TurnStart(1));
  }
}
