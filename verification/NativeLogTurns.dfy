/** Turns in a native log: boundaries alternate, numbered from zero, and a native turn opens at most one. */
module NativeLogTurns {
  import opened Common
  import opened NativeLogModel

  /** The turn boundaries of a log, in order. */
  function Boundaries(events: seq<Event>): seq<Event> {
    if events == [] then []
    else
      var before := Boundaries(events[..|events| - 1]);
      var last := events[|events| - 1];
      if last.TurnStart? || last.TurnEnd? then before + [last] else before
  }

  /** Start 0, end 0, start 1, end 1, ... */
  ghost predicate Alternating(boundaries: seq<Event>) {
    forall i :: 0 <= i < |boundaries| ==>
      if i % 2 == 0 then boundaries[i] == TurnStart(i / 2) else boundaries[i].TurnEnd? && boundaries[i].turn == i / 2
  }

  /** Every turn was opened by a native turn that had not been reported before. */
  ghost predicate OpenedOnce(events: seq<Event>) {
    forall i :: 0 <= i < |events| && events[i].TurnStart? ==>
      i > 0 && events[i - 1].Native? && events[i - 1].fact.Started? &&
      !SeenStarted(events[..i - 1], events[i - 1].fact.turnId)
  }

  /** The report of the engine that ends a turn: it names the turn reported last, or none. */
  predicate Ends(before: seq<Event>, report: Event, result: TurnResult) {
    report.Native? && report.fact.Finished? && report.fact.result == result && LastStarted(before).Some? &&
    (report.fact.turnId.None? || LastStarted(before).value == report.fact.turnId)
  }

  /** A turn that was not interrupted ended with the result of the report right before. */
  ghost predicate ReasonOk(events: seq<Event>, i: nat)
    requires i < |events|
  {
    events[i].TurnEnd? && events[i].reason.Reported? ==> i > 0 && Ends(events[..i - 1], events[i - 1], events[i].reason.result)
  }

  ghost predicate ReasonsOk(events: seq<Event>) {
    forall i :: 0 <= i < |events| ==> ReasonOk(events, i)
  }

  ghost predicate TurnsOk(events: seq<Event>) {
    Alternating(Boundaries(events)) && OpenedOnce(events) && ReasonsOk(events)
  }

  lemma ReasonsNext(events: seq<Event>, e: Event)
    requires ReasonsOk(events)
    requires e.TurnEnd? && e.reason.Reported? ==>
               |events| > 0 && Ends(events[..|events| - 1], events[|events| - 1], e.reason.result)
    ensures ReasonsOk(events + [e])
  {
    hide Ends;
    var n := events + [e];
    forall i | 0 <= i < |n| ensures ReasonOk(n, i) {
      if i < |events| {
        assert ReasonOk(events, i);
        assert n[i] == events[i] && (i > 0 ==> n[..i - 1] == events[..i - 1] && n[i - 1] == events[i - 1]);
      } else {
        assert i > 0 ==> n[..i - 1] == events[..i - 1] && n[i - 1] == events[i - 1];
      }
    }
  }

  /** Appending an event that is no boundary. */
  lemma PlainKeeps(events: seq<Event>, e: Event)
    requires TurnsOk(events) && !e.TurnStart? && !e.TurnEnd?
    ensures TurnsOk(events + [e]) && LastBoundary(events + [e]) == LastBoundary(events)
    ensures TurnOpen(events + [e]) == TurnOpen(events)
  {
    hide ReasonsOk;
    var n := events + [e];
    ReasonsNext(events, e);
    assert n[..|n| - 1] == events;
    forall i | 0 <= i < |n| && n[i].TurnStart?
      ensures i > 0 && n[i - 1].Native? && n[i - 1].fact.Started? && !SeenStarted(n[..i - 1], n[i - 1].fact.turnId)
    {
      assert n[i] == events[i] && n[..i - 1] == events[..i - 1];
    }
  }

  /** What the last boundary says of all of them. */
  lemma {:induction false} LastIs(events: seq<Event>)
    ensures Boundaries(events) == [] <==> LastBoundary(events) == None
    ensures Boundaries(events) != [] ==> LastBoundary(events) == Some(Boundaries(events)[|Boundaries(events)| - 1])
    decreases |events|
  {
    if events != [] {
      LastIs(events[..|events| - 1]);
    }
  }

  lemma OpenMeansOdd(events: seq<Event>)
    requires TurnsOk(events)
    ensures TurnOpen(events) <==> |Boundaries(events)| % 2 == 1
    ensures TurnOpen(events) ==> TurnOf(LastBoundary(events).value) == |Boundaries(events)| / 2
    ensures !TurnOpen(events) ==>
              (if LastBoundary(events).Some? then TurnOf(LastBoundary(events).value) + 1 else 0) == |Boundaries(events)| / 2
  {
    LastIs(events);
  }

  /** One more boundary keeps the order exactly if it is the one that is due. */
  lemma AlternatingNext(boundaries: seq<Event>, e: Event)
    requires Alternating(boundaries)
    ensures Alternating(boundaries + [e]) <==>
            if |boundaries| % 2 == 0 then e == TurnStart(|boundaries| / 2)
            else e.TurnEnd? && e.turn == |boundaries| / 2
  {
    var n := boundaries + [e];
    assert n[|boundaries|] == e;
    assert forall i :: 0 <= i < |boundaries| ==> n[i] == boundaries[i];
  }

  lemma BoundariesNext(events: seq<Event>, e: Event)
    ensures Boundaries(events + [e]) == if e.TurnStart? || e.TurnEnd? then Boundaries(events) + [e] else Boundaries(events)
  {
    assert (events + [e])[..|events|] == events;
  }

  /** A new turn opens after the report of a native turn not seen before, when none is open. */
  lemma StartKeeps(events: seq<Event>, turnId: Option<string>, turn: nat)
    requires TurnsOk(events) && !TurnOpen(events) && !SeenStarted(events, turnId)
    requires turn == |Boundaries(events)| / 2
    ensures TurnsOk(events + [Native(Started(turnId)), TurnStart(turn)])
    ensures TurnOpen(events + [Native(Started(turnId)), TurnStart(turn)])
  {
    hide SeenStarted, Alternating, ReasonsOk;
    var logged := events + [Native(Started(turnId))];
    PlainKeeps(events, Native(Started(turnId)));
    var n := logged + [TurnStart(turn)];
    ReasonsNext(logged, TurnStart(turn));
    assert n == events + [Native(Started(turnId)), TurnStart(turn)];
    assert n[..|n| - 1] == logged;
    OpenMeansOdd(events);
    BoundariesNext(events, Native(Started(turnId)));
    BoundariesNext(logged, TurnStart(turn));
    AlternatingNext(Boundaries(logged), TurnStart(turn));
    forall i | 0 <= i < |n| && n[i].TurnStart?
      ensures i > 0 && n[i - 1].Native? && n[i - 1].fact.Started? && !SeenStarted(n[..i - 1], n[i - 1].fact.turnId)
    {
      if i < |logged| {
        assert n[i] == logged[i] && n[..i - 1] == logged[..i - 1];
      } else {
        assert n[..i - 1] == events;
      }
    }
  }

  /** Ending the open turn. */
  lemma EndKeeps(events: seq<Event>, reason: Reason)
    requires TurnsOk(events) && TurnOpen(events)
    requires reason.Reported? ==> |events| > 0 && Ends(events[..|events| - 1], events[|events| - 1], reason.result)
    ensures var n := events + [TurnEnd(TurnOf(LastBoundary(events).value), reason)]; TurnsOk(n) && !TurnOpen(n)
  {
    hide ReasonsOk, Ends, Alternating, SeenStarted;
    OpenMeansOdd(events);
    var e := TurnEnd(TurnOf(LastBoundary(events).value), reason);
    var n := events + [e];
    ReasonsNext(events, e);
    BoundariesNext(events, e);
    AlternatingNext(Boundaries(events), e);
    assert n[..|n| - 1] == events;
    forall i | 0 <= i < |n| && n[i].TurnStart?
      ensures i > 0 && n[i - 1].Native? && n[i - 1].fact.Started? && !SeenStarted(n[..i - 1], n[i - 1].fact.turnId)
    {
      assert n[i] == events[i] && n[..i - 1] == events[..i - 1];
    }
  }

  /** Any report of the engine, in any order, duplicated or late, keeps the turns in order. */
  lemma FactKeeps(events: seq<Event>, fact: Fact)
    requires TurnsOk(events)
    ensures TurnsOk(AppendFact(events, fact))
  {
    PlainKeeps(events, Native(fact));
    OpenMeansOdd(events);
    var logged := events + [Native(fact)];
    match fact
    case Started(turnId) =>
      if !SeenStarted(events, turnId) && !TurnOpen(events) {
        var turn := if LastBoundary(events).Some? then TurnOf(LastBoundary(events).value) + 1 else 0;
        StartKeeps(events, turnId, turn);
        assert logged + [TurnStart(turn)] == events + [Native(Started(turnId)), TurnStart(turn)];
      }
    case Finished(turnId, result) =>
      if TurnOpen(events) && LastStarted(events).Some? && (turnId.None? || LastStarted(events).value == turnId) {
        assert logged[..|logged| - 1] == events && logged[|logged| - 1] == Native(fact);
        EndKeeps(logged, Reported(result));
      }
    case _ =>
  }

  /** Events that are no boundaries, one after the other. */
  lemma {:induction false} PlainsKeep(events: seq<Event>, more: seq<Event>)
    requires TurnsOk(events) && forall i :: 0 <= i < |more| ==> !more[i].TurnStart? && !more[i].TurnEnd?
    ensures TurnsOk(events + more) && TurnOpen(events + more) == TurnOpen(events)
    decreases |more|
  {
    if more == [] {
      assert events + more == events;
    } else {
      var init := more[..|more| - 1];
      PlainsKeep(events, init);
      PlainKeeps(events + init, more[|more| - 1]);
      assert events + more == events + init + [more[|more| - 1]];
    }
  }

  lemma {:induction false} MissingPlain(events: seq<Event>, existing: set<string>)
    ensures forall i :: 0 <= i < |Missing(events, existing)| ==> Missing(events, existing)[i].UserMessage?
    decreases |events|
  {
    if events != [] {
      var first := events[0];
      if first.Message? && first.row.role == User && first.row.id !in existing {
        MissingPlain(events[1..], existing + {first.row.id});
      } else {
        MissingPlain(events[1..], existing);
      }
    }
  }

  lemma UsersKeep(events: seq<Event>)
    requires TurnsOk(events)
    ensures TurnsOk(EnsureUsers(events)) && TurnOpen(EnsureUsers(events)) == TurnOpen(events)
  {
    MissingPlain(events, UserIds(events));
    PlainsKeep(events, Missing(events, UserIds(events)));
  }

  lemma MessageKeeps(events: seq<Event>, row: Row)
    requires TurnsOk(events)
    ensures TurnsOk(AppendMessage(events, row)) && TurnOpen(AppendMessage(events, row)) == TurnOpen(events)
  {
    hide EnsureUsers, TurnsOk;
    UsersKeep(events);
    PlainKeeps(events, Message(row));
    UsersKeep(events + [Message(row)]);
  }

  lemma {:induction false} ImportKeeps(events: seq<Event>, sessionId: string, legacy: seq<Row>)
    requires TurnsOk(events)
    ensures TurnsOk(Import(events, sessionId, legacy).0)
    decreases |legacy|
  {
    hide TurnsOk, AppendMessage;
    if legacy != [] && legacy[0].sessionId == sessionId {
      MessageKeeps(events, legacy[0]);
      ImportKeeps(AppendMessage(events, legacy[0]), sessionId, legacy[1..]);
    }
  }

  lemma {:induction false} ClassifyKeeps(events: seq<Event>, rows: seq<Row>, kinds: map<string, Kind>)
    requires TurnsOk(events)
    ensures TurnsOk(Classify(events, rows, kinds))
    decreases |rows|
  {
    hide TurnsOk;
    if rows != [] {
      if Unclassified(rows[0]) && rows[0].id in kinds {
        PlainKeeps(events, Classified(rows[0].id, kinds[rows[0].id]));
        ClassifyKeeps(events + [Classified(rows[0].id, kinds[rows[0].id])], rows[1..], kinds);
      } else {
        ClassifyKeeps(events, rows[1..], kinds);
      }
    }
  }

  lemma CloseKeeps(events: seq<Event>)
    requires TurnsOk(events)
    ensures TurnsOk(CloseTurn(events)) && !TurnOpen(CloseTurn(events))
  {
    hide TurnsOk;
    if TurnOpen(events) {
      EndKeeps(events, Interrupted);
    }
  }

  /** Opening a log keeps the turns in order and leaves none open. */
  lemma OpenKeeps(recorded: seq<Event>, sessionId: string, legacy: seq<Row>, kinds: map<string, Kind>)
    requires TurnsOk(recorded)
    ensures var (events, ok) := OpenLog(recorded, sessionId, legacy, kinds);
            TurnsOk(events) && (ok ==> !TurnOpen(events))
  {
    hide TurnsOk, CloseTurn, Classify, Import, EnsureUsers, TurnOpen;
    var seeded := recorded + [Seeded];
    PlainKeeps(recorded, Seeded);
    ImportKeeps(seeded, sessionId, legacy);
    var (imported, ok) := if IsImported(seeded) then (seeded, true) else Import(seeded, sessionId, legacy);
    if ok {
      PlainKeeps(imported, Imported);
      var marked := if IsImported(seeded) then imported else imported + [Imported];
      UsersKeep(marked);
      var users := EnsureUsers(marked);
      ClassifyKeeps(users, Messages(users), kinds);
      CloseKeeps(Classify(users, Messages(users), kinds));
    }
  }

  // ---------------------------------------------------------------- what this means

  /** A report opens a turn if none is open and its turn is new, and closes one if it ends the turn reported last. */
  lemma ReportMoves(events: seq<Event>, fact: Fact)
    ensures events + [Native(fact)] <= AppendFact(events, fact) && |AppendFact(events, fact)| <= |events| + 2
    ensures TurnOpen(AppendFact(events, fact)) <==>
            match fact
            case Started(turnId) => TurnOpen(events) || !SeenStarted(events, turnId)
            case Finished(_, result) => TurnOpen(events) && !Ends(events, Native(fact), result)
            case _ => TurnOpen(events)
  {
    hide SeenStarted, LastStarted;
    var logged, n := events + [Native(fact)], AppendFact(events, fact);
    assert logged[..|logged| - 1] == events;
    assert LastBoundary(logged) == LastBoundary(events);
    assert |n| > |logged| ==> n[..|n| - 1] == logged;
  }

  /** A log cut short, as a crash leaves it, is still in order. */
  lemma {:induction false} PrefixOk(events: seq<Event>, n: nat)
    requires TurnsOk(events) && n <= |events|
    ensures TurnsOk(events[..n])
    decreases |events|
  {
    if n == |events| {
      assert events[..n] == events;
    } else {
      var init := events[..|events| - 1];
      assert Boundaries(init) <= Boundaries(events);
      assert forall i :: 0 <= i < |init| ==> init[i] == events[i];
      forall i | 0 <= i < |init| && init[i].TurnStart?
        ensures i > 0 && init[i - 1].Native? && init[i - 1].fact.Started? &&
                !SeenStarted(init[..i - 1], init[i - 1].fact.turnId)
      {
        assert init[..i - 1] == events[..i - 1];
      }
      ReasonsBefore(events);
      PrefixOk(init, n);
      assert init[..n] == events[..n];
    }
  }

  lemma ReasonsBefore(events: seq<Event>)
    requires events != [] && ReasonsOk(events)
    ensures ReasonsOk(events[..|events| - 1])
  {
    hide Ends;
    var init := events[..|events| - 1];
    forall i | 0 <= i < |init| ensures ReasonOk(init, i) {
      assert ReasonOk(events, i);
      assert i > 0 ==> init[..i - 1] == events[..i - 1] && init[i - 1] == events[i - 1];
    }
  }

  /** A named native turn opens at most one turn. */
  lemma OpensAtMostOne(events: seq<Event>, i: nat, j: nat, id: string)
    requires TurnsOk(events) && 0 < i < j < |events| && events[i].TurnStart? && events[j].TurnStart?
    requires events[i - 1] == Native(Started(Some(id)))
    ensures events[j - 1] != Native(Started(Some(id)))
  {
    assert events[..j - 1][i - 1] == events[i - 1];
  }

  /** An explicit boundary keeps the order exactly if it is the next one due. */
  lemma ExplicitBoundaryIff(events: seq<Event>, e: Event)
    requires Alternating(Boundaries(events)) && (e.TurnStart? || e.TurnEnd?)
    ensures Alternating(Boundaries(events + [e])) <==>
            e.turn == |Boundaries(events)| / 2 && (e.TurnStart? <==> |Boundaries(events)| % 2 == 0)
  {
    BoundariesNext(events, e);
    hide Boundaries, Alternating;
    AlternatingNext(Boundaries(events), e);
  }
}
