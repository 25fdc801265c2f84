/** Runs from the very first process in which a reservation is lost. */
module QuotaLosses {
  import opened Common
  import opened QuotaModel
  import opened QuotaProofs
  import opened QuotaTheorems

  const START := Fresh(true)

  /** One more step of a run. */
  lemma {:induction false} Extend(w: World, events: seq<Event>, e: Event)
    requires Allowed(w, events) && Possible(Run(w, events), e) && Polite(Run(w, events), e)
    ensures Allowed(w, events + [e]) && Run(w, events + [e]) == Next(Run(w, events), e)
    decreases |events|
  {
    hide Next, Possible, Polite;
    if events == [] {
      assert events + [e] == [e] && [e][1..] == [];
      assert Run(w, [e]) == Run(Next(w, e), []);
    } else {
      assert (events + [e])[1..] == events[1..] + [e];
      Extend(Next(w, events[0]), events[1..], e);
    }
  }

  lemma {:induction false} RunAppend(w: World, a: seq<Event>, b: seq<Event>)
    requires Allowed(w, a)
    ensures Run(w, a + b) == Run(Run(w, a), b)
    decreases |a|
  {
    hide Next, Possible, Polite;
    if a == [] {
      assert a + b == b;
    } else {
      assert (a + b)[1..] == a[1..] + b;
      RunAppend(Next(w, a[0]), a[1..], b);
    }
  }

  // ---------------------------------------------------------------- a first reservation on its way

  function BeginEvents(s: SessionId, units: nat, turn: Option<TurnId>): seq<Event> {
    [CallBegin(s, units, turn, None), ResumeBegin(0), ResumeBegin(0), ResumeBegin(0)]
  }

  function FirstEntry(s: SessionId, units: nat, turn: Option<TurnId>): Entry {
    Entry(1, s, None, Some(units), turn, false)
  }

  function Reserving(s: SessionId, units: nat, turn: Option<TurnId>): World {
    World(true, map[1 := FirstEntry(s, units, turn)], [1], map[], map[], map[s := {1}], {}, Ended(true),
          map[0 := Begin(s, units, turn, None, AtReserve(1))], [FirstEntry(s, units, turn)], map[1 := InFlight], map[], {},
          START.past, 2)
  }

  lemma BeginReserves(s: SessionId, units: nat, turn: Option<TurnId>)
    ensures Allowed(START, BeginEvents(s, units, turn)) && Run(START, BeginEvents(s, units, turn)) == Reserving(s, units, turn)
  {
    var w1 := Next(START, CallBegin(s, units, turn, None));
    var w2 := Next(w1, ResumeBegin(0));
    assert w2.calls[0].stage == AtSettling({});
    var w3 := Next(w2, ResumeBegin(0));
    assert w3.calls[0].stage == AtDrain([], None);
    var w4 := Next(w3, ResumeBegin(0));
    ReservesNow(w3, s, units, turn);
    assert Possible(w1, ResumeBegin(0)) && Possible(w2, ResumeBegin(0)) && Possible(w3, ResumeBegin(0));
    hide Next, Possible;
    Extend(START, [], CallBegin(s, units, turn, None));
    var e1 := [] + [CallBegin(s, units, turn, None)];
    Extend(START, e1, ResumeBegin(0));
    Extend(START, e1 + [ResumeBegin(0)], ResumeBegin(0));
    Extend(START, e1 + [ResumeBegin(0)] + [ResumeBegin(0)], ResumeBegin(0));
    assert BeginEvents(s, units, turn) == e1 + [ResumeBegin(0)] + [ResumeBegin(0)] + [ResumeBegin(0)];
  }

  lemma ReservesNow(w: World, s: SessionId, units: nat, turn: Option<TurnId>)
    requires w == START.(calls := map[0 := Begin(s, units, turn, None, AtDrain([], None))], nextId := 1)
    ensures Next(w, ResumeBegin(0)) == Reserving(s, units, turn)
  {
    var n := Next(w, ResumeBegin(0));
    assert n == BeginReserve(w, 0);
    assert PendingOf(w, s) == {} && {} + {1} == {1};
    assert n.entries == [1];
    assert n.pending == map[s := {1}] && n.reserving == map[1 := InFlight];
    assert n.cells == map[1 := FirstEntry(s, units, turn)] && n.nextId == 2 && n.past == START.past;
    assert n.disk == [FirstEntry(s, units, turn)];
    assert n.calls == map[0 := Begin(s, units, turn, None, AtReserve(1))];
  }

  // ---------------------------------------------------------------- an early end

  /** A turn that ends while its reservation is on its way: nine steps lead to an open reservation in no journal. */
  lemma EarlyEndHappens(s: SessionId, units: nat, t: TurnId)
    ensures var w := Run(START, BeginEvents(s, units, Some(t)) + [CallEnded(s, t)] +
                                [ResumeEnded(2), SettleReplies(3, Missing), Continue(3), ReserveLands(1)]);
            IsOpen(w, 1) && !Journaled(w, 1)
  {
    var events := BeginEvents(s, units, Some(t));
    var w4 := Reserving(s, units, Some(t));
    BeginReserves(s, units, Some(t));
    var w5 := Next(w4, CallEnded(s, t));
    assert w5.calls[2] == CloseTurn(s, t, Looping([1], None)) && w5.nextId == 3;
    assert TurnMatches(w5, w5.calls[2]) && Flying(w5, 1);
    Extend(START, events, CallEnded(s, t));
    FreshOk(true);
    RunOk(START, events + [CallEnded(s, t)]);
    assert Possible(w5, ResumeEnded(2)) && !Polite(w5, ResumeEnded(2));
    EarlyEndLosesReservation(w5, 2);
    RunAppend(START, events + [CallEnded(s, t)], [ResumeEnded(2), SettleReplies(3, Missing), Continue(3), ReserveLands(1)]);
  }

  // ---------------------------------------------------------------- a reservation that overtakes an answer

  const AFTER_CRASH: seq<Event> :=
    [Crash, Recover, SettleReplies(2, Missing), Continue(2), Finally(2), Recover, Recover]

  /** What the next process has after it recovered: an empty journal, and a request that is still on its way. */
  function Recovered(s: SessionId, units: nat): World {
    World(true, map[1 := FirstEntry(s, units, None).(finished := true)], [], map[], map[2 := Op(1, Resolved(true))], map[], {},
          Ended(true), map[], [], map[], map[], {Sent(1, 0, true)}, Past(map[1 := units], {1}, {1}, {}), 3)
  }

  lemma RecoveryForgets(s: SessionId, units: nat)
    ensures Allowed(Reserving(s, units, None), AFTER_CRASH)
    ensures Run(Reserving(s, units, None), AFTER_CRASH) == Recovered(s, units)
  {
    var w := Reserving(s, units, None);
    RecoveryBegins(s, units);
    AnswerForgets(s, units);
    RecoveryEnds(s, units);
    var told := [SettleReplies(2, Missing), Continue(2)];
    hide Allowed, Run, Reserving, Settling, Forgotten, Recovered;
    AllowedAppend(w, [Crash, Recover], told);
    RunAppend(w, [Crash, Recover], told);
    AllowedAppend(w, [Crash, Recover] + told, [Finally(2), Recover, Recover]);
    RunAppend(w, [Crash, Recover] + told, [Finally(2), Recover, Recover]);
    assert AFTER_CRASH == [Crash, Recover] + told + [Finally(2), Recover, Recover];
  }

  lemma RecoveryBegins(s: SessionId, units: nat)
    ensures Allowed(Reserving(s, units, None), [Crash, Recover])
    ensures Run(Reserving(s, units, None), [Crash, Recover]) == Settling(s, units)
  {
    var w := Reserving(s, units, None);
    CrashedReserving(s, units);
    RecoverySettles(s, units);
    assert Possible(w, Crash) && Possible(Restored(s, units), Recover);
    hide Next, Possible;
    Extend(w, [], Crash);
    Extend(w, [Crash], Recover);
    assert [] + [Crash] == [Crash] && [Crash] + [Recover] == [Crash, Recover];
  }

  /** The run is dropped from the journal. */
  function Forgotten(s: SessionId, units: nat): World {
    Recovered(s, units).(ops := map[2 := Op(1, Returned(true))], settling := map[1 := 2], ready := Looping([], Some(2)))
  }

  lemma AnswerForgets(s: SessionId, units: nat)
    ensures Allowed(Settling(s, units), [SettleReplies(2, Missing), Continue(2)])
    ensures Run(Settling(s, units), [SettleReplies(2, Missing), Continue(2)]) == Forgotten(s, units)
  {
    var w := Settling(s, units);
    var w1 := Next(w, SettleReplies(2, Missing));
    assert w1 == w.(ops := map[2 := Op(1, Answered(Missing))], past := Past(map[1 := units], {1}, {}, {}));
    var w2 := Next(w1, Continue(2));
    assert Removed(w1.entries, 1) == [] && Journal(w1.cells, []) == [];
    assert w2 == Forgotten(s, units);
    assert Possible(w, SettleReplies(2, Missing)) && Possible(w1, Continue(2));
    hide Next, Possible;
    Extend(w, [], SettleReplies(2, Missing));
    Extend(w, [SettleReplies(2, Missing)], Continue(2));
    assert [] + [SettleReplies(2, Missing)] == [SettleReplies(2, Missing)];
    assert [SettleReplies(2, Missing)] + [Continue(2)] == [SettleReplies(2, Missing), Continue(2)];
  }

  lemma RecoveryEnds(s: SessionId, units: nat)
    ensures Allowed(Forgotten(s, units), [Finally(2), Recover, Recover])
    ensures Run(Forgotten(s, units), [Finally(2), Recover, Recover]) == Recovered(s, units)
  {
    var w := Forgotten(s, units);
    var w1 := Next(w, Finally(2));
    assert w1 == Recovered(s, units).(ready := Looping([], Some(2)));
    var w2 := Next(w1, Recover);
    assert w2 == Recovered(s, units).(ready := Looping([], None));
    var w3 := Next(w2, Recover);
    assert w3 == Recovered(s, units);
    assert Possible(w, Finally(2)) && Possible(w1, Recover) && Possible(w2, Recover);
    hide Next, Possible;
    Extend(w, [], Finally(2));
    Extend(w, [Finally(2)], Recover);
    Extend(w, [Finally(2), Recover], Recover);
    assert [] + [Finally(2)] == [Finally(2)] && [Finally(2)] + [Recover] == [Finally(2), Recover];
    assert [Finally(2), Recover] + [Recover] == [Finally(2), Recover, Recover];
  }

  function Restored(s: SessionId, units: nat): World {
    World(true, map[1 := FirstEntry(s, units, None)], [1], map[], map[], map[], {}, Looping([1], None), map[],
          [FirstEntry(s, units, None)], map[], map[], {}, Past(map[1 := units], {}, {}, {}), 2)
  }

  lemma CrashedReserving(s: SessionId, units: nat)
    ensures Next(Reserving(s, units, None), Crash) == Restored(s, units)
  {
    var w := Reserving(s, units, None);
    var entry := FirstEntry(s, units, None);
    assert w.disk[..0] == [] && Reloaded([]) == map[];
    assert Reloaded(w.disk) == map[1 := entry];
    assert RunIds(w.disk) == [1];
    assert Adrift(w) == map[1 := units];
  }

  /** Recovery settles the run it found in the journal. */
  function Settling(s: SessionId, units: nat): World {
    Restored(s, units).(cells := map[1 := FirstEntry(s, units, None).(finished := true)],
                        disk := [FirstEntry(s, units, None).(finished := true)],
                        ops := map[2 := Op(1, Awaiting)], settling := map[1 := 2], nextId := 3,
                        sent := {Sent(1, 0, true)}, ready := Looping([], Some(2)))
  }

  lemma RecoverySettles(s: SessionId, units: nat)
    ensures Next(Restored(s, units), Recover) == Settling(s, units)
  {
    var w := Restored(s, units);
    StartReleaseShape(w, 1);
    var n := StartRelease(w, 1).0;
    assert n.disk == [FirstEntry(s, units, None).(finished := true)];
    assert w.ready.rest[0] == 1 && w.ready.rest[1..] == [];
    assert n == Settling(s, units).(ready := w.ready);
  }

  const RELEASED: seq<Event> := [ResumeSession(3), ResumeSession(3), StrayLands(1)]

  /**
   A process dies while a reservation is on its way; the next one settles the run, is told that there is no reservation,
   and forgets it; `releaseSession` resolves; and then the reservation takes effect. It is open and in no journal.
   */
  lemma ForgottenReservationLands(s: SessionId, units: nat)
    ensures var events := BeginEvents(s, units, None) + AFTER_CRASH + ([CallReleaseSession(s)] + RELEASED);
            var w := Run(START, events);
            Allowed(START, events) && 3 in w.calls && w.calls[3] == CloseSession(s, Done(true)) &&
            IsOpen(w, 1) && w.ledger[1] == Reserved(units) && !Journaled(w, 1) && !SessionClean(w, s) && w.past.lost == {1}
  {
    BeginReserves(s, units, None);
    RecoveryForgets(s, units);
    AllowedAppend(START, BeginEvents(s, units, None), AFTER_CRASH);
    RunAppend(START, BeginEvents(s, units, None), AFTER_CRASH);
    var before := BeginEvents(s, units, None) + AFTER_CRASH;
    ReleasedThenLands(s, units);
    AllowedAppend(START, before, [CallReleaseSession(s)] + RELEASED);
    RunAppend(START, before, [CallReleaseSession(s)] + RELEASED);
  }

  lemma {:induction false} AllowedAppend(w: World, a: seq<Event>, b: seq<Event>)
    requires Allowed(w, a) && Allowed(Run(w, a), b)
    ensures Allowed(w, a + b)
    decreases |a|
  {
    hide Next, Possible, Polite;
    if a == [] {
      assert a + b == b;
    } else {
      assert (a + b)[1..] == a[1..] + b;
      AllowedAppend(Next(w, a[0]), a[1..], b);
    }
  }

  lemma ReleasedThenLands(s: SessionId, units: nat)
    ensures var w0 := Recovered(s, units);
            var w := Run(w0, [CallReleaseSession(s)] + RELEASED);
            Allowed(w0, [CallReleaseSession(s)] + RELEASED) && 3 in w.calls && w.calls[3] == CloseSession(s, Done(true)) &&
            IsOpen(w, 1) && w.ledger[1] == Reserved(units) && w.disk == [] && w.past.lost == {1} &&
            1 in w.cells && w.cells[1].sessionId == s
  {
    var w0 := Recovered(s, units);
    var w1 := w0.(released := {s}, calls := map[3 := CloseSession(s, AtPending({}))], nextId := 4);
    var w2 := w1.(calls := map[3 := CloseSession(s, AtReleases({}))]);
    var w3 := w1.(calls := map[3 := CloseSession(s, Done(true))]);
    ReleaseResolves(w1, w2, w3, s);
    assert Next(w0, CallReleaseSession(s)) == w1;
    assert Next(w3, StrayLands(1)) == Stray(w3, 1) && Possible(w3, StrayLands(1));
    hide Next, Possible;
    Extend(w0, [], CallReleaseSession(s));
    var e1 := [] + [CallReleaseSession(s)];
    Extend(w0, e1, ResumeSession(3));
    Extend(w0, e1 + [ResumeSession(3)], ResumeSession(3));
    Extend(w0, e1 + [ResumeSession(3)] + [ResumeSession(3)], StrayLands(1));
    assert [CallReleaseSession(s)] + RELEASED == e1 + [ResumeSession(3)] + [ResumeSession(3)] + [StrayLands(1)];
  }

  /** With an empty journal `releaseSession` has nothing to wait for. */
  lemma ReleaseResolves(w1: World, w2: World, w3: World, s: SessionId)
    requires w1.calls == map[3 := CloseSession(s, AtPending({}))] && w1.entries == []
    requires w2 == w1.(calls := map[3 := CloseSession(s, AtReleases({}))])
    requires w3 == w1.(calls := map[3 := CloseSession(s, Done(true))])
    ensures Possible(w1, ResumeSession(3)) && Next(w1, ResumeSession(3)) == w2
    ensures Possible(w2, ResumeSession(3)) && Next(w2, ResumeSession(3)) == w3
  {
    assert OfSession(w1, w1.entries, s) == [];
    assert ReleaseAll(w1, []) == (w1, {});
    assert Next(w1, ResumeSession(3)).calls == w2.calls;
    assert Next(w2, ResumeSession(3)).calls == w3.calls;
  }
}
