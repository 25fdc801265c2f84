/** Personal settlements: amounts written down before they are told to the ledger, and told until it confirms. */
module Settlements {
  import opened Common

  type RunId = nat

  /**
   A settlement is queued, its call to the ledger is under way, or it has ended but is still in the map. `amount` was
   read when it began.
   */
  datatype Work = Queued(amount: nat) | Calling(amount: nat) | Ending

  datatype Charge = Charge(run: RunId, amount: nat)

  /** `saved` is the document on disk; `told` is every call the ledger has been sent. */
  datatype State = State(pending: map<RunId, nat>, saved: map<RunId, nat>, active: map<RunId, Work>, told: seq<Charge>)

  /** One step for each public call, each continuation of a settlement, and a restart. */
  datatype Step =
    | Track(run: RunId, amount: nat)
    | Discard(run: RunId)
    | Settle(run: RunId, amount: nat)
    | Continue(run: RunId)
    | Answer(run: RunId, confirmed: bool)
    | Finally(run: RunId)
    | Restart

  function Tracked(s: State, run: RunId, amount: nat): State {
    if run in s.pending then s
    else s.(pending := s.pending[run := amount], saved := s.pending[run := amount])
  }

  function Discarded(s: State, run: RunId): State {
    if run !in s.pending then s else s.(pending := s.pending - {run}, saved := s.pending - {run})
  }

  function Apply(s: State, step: Step): State {
    match step
    case Track(run, amount) => Tracked(s, run, amount)
    case Discard(run) => Discarded(s, run)
    case Settle(run, amount) =>
      if run in s.active then s
      else
        var t := Tracked(s, run, amount);
        t.(active := t.active[run := Queued(t.pending[run])])
    case Continue(run) =>
      if run !in s.active || !s.active[run].Queued? then s
      else if run !in s.pending then s.(active := s.active[run := Ending])
      else
        var amount := s.active[run].amount;
        s.(active := s.active[run := Calling(amount)], told := s.told + [Charge(run, amount)])
    case Answer(run, confirmed) =>
      if run !in s.active || !s.active[run].Calling? then s
      else
        var t := if confirmed then Discarded(s, run) else s;
        t.(active := t.active[run := Ending])
    case Finally(run) =>
      if run in s.active && s.active[run].Ending? then s.(active := s.active - {run}) else s
    case Restart => State(s.saved, s.saved, map[], s.told)
  }

  function ApplyAll(s: State, steps: seq<Step>): State
    decreases |steps|
  {
    if steps == [] then s else ApplyAll(Apply(s, steps[0]), steps[1..])
  }

  predicate OnDisk(s: State) {
    s.saved == s.pending
  }

  lemma {:induction false} AlwaysOnDisk(s: State, steps: seq<Step>)
    requires OnDisk(s)
    ensures OnDisk(ApplyAll(s, steps))
    decreases |steps|
  {
    if steps != [] {
      AlwaysOnDisk(Apply(s, steps[0]), steps[1..]);
    }
  }

  // ---------------------------------------------------------------- what the ledger is told

  /** The ledger confirmed the run, or its admission was refused for good. */
  predicate Ends(step: Step, run: RunId) {
    step == Discard(run) || step == Answer(run, true)
  }

  predicate GoesOn(steps: seq<Step>, run: RunId) {
    forall i :: 0 <= i < |steps| ==> !Ends(steps[i], run)
  }

  predicate ToldOnly(s: State, t: State, run: RunId, amount: nat) {
    |s.told| <= |t.told| && t.told[..|s.told|] == s.told &&
    forall i :: |s.told| <= i < |t.told| && t.told[i].run == run ==> t.told[i].amount == amount
  }

  /** A settlement of the run is queued that will tell another amount. */
  predicate OtherQueued(s: State, run: RunId, amount: nat) {
    run in s.active && s.active[run].Queued? && s.active[run].amount != amount
  }

  /** A run that is written down with an amount, while no settlement is queued that read another one. */
  predicate Frozen(s: State, run: RunId, amount: nat) {
    OnDisk(s) && run in s.pending && s.pending[run] == amount && !OtherQueued(s, run, amount)
  }

  lemma StepKeepsFrozen(s: State, step: Step, run: RunId, amount: nat)
    requires Frozen(s, run, amount) && !Ends(step, run)
    ensures Frozen(Apply(s, step), run, amount) && ToldOnly(s, Apply(s, step), run, amount)
  {
  }

  /**
   From the moment an amount is written down until the ledger confirms it or its admission is refused, every call tells
   the ledger that amount, whatever is asked meanwhile, in whatever order the settlements go on, and through restarts.
   */
  lemma {:induction false} OneFrozenAmount(s: State, steps: seq<Step>, run: RunId, amount: nat)
    requires Frozen(s, run, amount) && GoesOn(steps, run)
    ensures Frozen(ApplyAll(s, steps), run, amount) && ToldOnly(s, ApplyAll(s, steps), run, amount)
    decreases |steps|
  {
    if steps != [] {
      var next := Apply(s, steps[0]);
      StepKeepsFrozen(s, steps[0], run, amount);
      OneFrozenAmount(next, steps[1..], run, amount);
      var t := ApplyAll(s, steps);
      assert t.told[..|s.told|] == t.told[..|next.told|][..|s.told|];
    }
  }

  /** However it goes on, the ledger is told nothing else of the run until it ends. */
  ghost predicate AlwaysTells(s: State, run: RunId, amount: nat) {
    forall steps: seq<Step> :: GoesOn(steps, run) ==> ToldOnly(s, ApplyAll(s, steps), run, amount)
  }

  /** A run that is written down is told with its amount only, exactly unless a settlement with another one is queued. */
  lemma TrackToldIff(s: State, run: RunId, amount: nat)
    requires OnDisk(s) && run !in s.pending
    ensures AlwaysTells(Apply(s, Track(run, amount)), run, amount) <==> !OtherQueued(s, run, amount)
  {
    var t := Apply(s, Track(run, amount));
    if OtherQueued(s, run, amount) {
      var steps := [Continue(run)];
      OneStep(t, Continue(run));
      var end := ApplyAll(t, steps);
      assert end.told[|t.told|] == Charge(run, s.active[run].amount);
      assert GoesOn(steps, run) && !ToldOnly(t, end, run, amount);
    } else {
      forall steps: seq<Step> | GoesOn(steps, run) ensures ToldOnly(t, ApplyAll(t, steps), run, amount) {
        OneFrozenAmount(t, steps, run, amount);
      }
    }
  }

  lemma OneStep(s: State, step: Step)
    ensures ApplyAll(s, [step]) == Apply(s, step)
  {
    assert [step][1..] == [];
  }

  // ---------------------------------------------------------------- what the ledger confirms

  /** The amount of the call whose answer is awaited: a confirmation discards the run for it. */
  function Awaited(s: State, run: RunId): Option<nat> {
    if run in s.active && s.active[run].Calling? then Some(s.active[run].amount) else None
  }

  /** Any settlement of the run that has not ended has read this amount. */
  predicate OnlyRead(s: State, run: RunId, amount: nat) {
    run in s.active && !s.active[run].Ending? ==> s.active[run].amount == amount
  }

  lemma {:induction false} OnlyReadStays(s: State, steps: seq<Step>, run: RunId, amount: nat)
    requires Frozen(s, run, amount) && OnlyRead(s, run, amount) && GoesOn(steps, run)
    ensures OnlyRead(ApplyAll(s, steps), run, amount)
    decreases |steps|
  {
    if steps != [] {
      StepKeepsFrozen(s, steps[0], run, amount);
      assert OnlyRead(Apply(s, steps[0]), run, amount);
      OnlyReadStays(Apply(s, steps[0]), steps[1..], run, amount);
    }
  }

  /** However it goes on, the run ends by no confirmation but one of this amount. */
  ghost predicate AlwaysConfirms(s: State, run: RunId, amount: nat) {
    forall steps: seq<Step> :: GoesOn(steps, run) ==> ConfirmsOnly(ApplyAll(s, steps), run, amount)
  }

  predicate ConfirmsOnly(s: State, run: RunId, amount: nat) {
    Awaited(s, run).Some? ==> Awaited(s, run).value == amount
  }

  /**
   A confirmation that ends a run is of the amount written down, exactly unless a settlement with another one is queued
   or waits for its answer.
   */
  lemma TrackConfirmedIff(s: State, run: RunId, amount: nat)
    requires OnDisk(s) && run !in s.pending
    ensures AlwaysConfirms(Apply(s, Track(run, amount)), run, amount) <==> OnlyRead(s, run, amount)
  {
    var t := Apply(s, Track(run, amount));
    if OnlyRead(s, run, amount) {
      forall steps: seq<Step> | GoesOn(steps, run) ensures ConfirmsOnly(ApplyAll(t, steps), run, amount) {
        OnlyReadStays(t, steps, run, amount);
      }
    } else if s.active[run].Calling? {
      assert GoesOn([], run) && !ConfirmsOnly(ApplyAll(t, []), run, amount);
    } else {
      OneStep(t, Continue(run));
      assert GoesOn([Continue(run)], run) && !ConfirmsOnly(ApplyAll(t, [Continue(run)]), run, amount);
    }
  }

  lemma Steps(s: State, a: Step, b: Step, c: Step, d: Step)
    ensures ApplyAll(s, [a, b, c, d]) == Apply(Apply(Apply(Apply(s, a), b), c), d)
  {
    hide Apply;
    assert [a, b, c, d][1..] == [b, c, d] && [b, c, d][1..] == [c, d] && [c, d][1..] == [d] && [d][1..] == [];
    var s1 := Apply(s, a);
    var s2 := Apply(s1, b);
    OneStep(Apply(s2, c), d);
    assert ApplyAll(s2, [c, d]) == Apply(Apply(s2, c), d);
    assert ApplyAll(s1, [b, c, d]) == ApplyAll(s2, [c, d]);
  }

  /**
   A run whose admission is refused while its settlement is queued, and which is written down again before that
   settlement goes on: the ledger is told the old amount.
   */
  lemma OldAmountIsTold(run: RunId)
    ensures var s := ApplyAll(State(map[], map[], map[], []), [Settle(run, 0), Discard(run), Track(run, 7), Continue(run)]);
            run in s.pending && s.pending[run] == 7 && s.told == [Charge(run, 0)]
  {
    Steps(State(map[], map[], map[], []), Settle(run, 0), Discard(run), Track(run, 7), Continue(run));
  }

  /** Written down again while the old call waits for its answer: the answer discards the new amount, which is never told. */
  lemma OldAnswerDiscards(run: RunId)
    ensures var s := ApplyAll(ApplyAll(State(map[], map[], map[], []), [Settle(run, 0), Continue(run), Discard(run), Track(run, 7)]),
                              [Answer(run, true)]);
            run !in s.pending && s.told == [Charge(run, 0)]
  {
    Steps(State(map[], map[], map[], []), Settle(run, 0), Continue(run), Discard(run), Track(run, 7));
    OneStep(Apply(Apply(Apply(Apply(State(map[], map[], map[], []), Settle(run, 0)), Continue(run)), Discard(run)), Track(run, 7)),
            Answer(run, true));
  }

  // ---------------------------------------------------------------- the store

  class PersonalQuotaSettlements {
    var pending: map<RunId, nat>
    var active: map<RunId, Work>
    var disk: map<RunId, nat>
    ghost var told: seq<Charge>

    ghost function Contents(): State
      reads this
    {
      State(pending, disk, active, told)
    }

    constructor (document: map<RunId, nat>, ghost before: seq<Charge>)
      ensures Contents() == Apply(State(map[], document, map[], before), Restart)
    {
      pending, disk, active, told := document, document, map[], before;
    }

    method Save(entries: map<RunId, nat>)
      modifies this`disk
      ensures disk == entries
    {
      disk := entries;
    }

    /** The document is saved before the map in memory changes. */
    method TrackAmount(run: RunId, amount: nat)
      modifies this`pending, this`disk
      ensures Contents() == Apply(old(Contents()), Track(run, amount))
    {
      if run in pending {
        return;
      }
      var entries := pending[run := amount];
      Save(entries);
      pending := pending[run := amount];
    }

    method DiscardRun(run: RunId)
      modifies this`pending, this`disk
      ensures Contents() == Apply(old(Contents()), Discard(run))
    {
      if run !in pending {
        return;
      }
      var entries := pending - {run};
      Save(entries);
      pending := pending - {run};
    }

    /** A settlement that is under way already is the one that is returned. */
    method BeginSettling(run: RunId, amount: nat)
      modifies this`pending, this`disk, this`active
      ensures Contents() == Apply(old(Contents()), Settle(run, amount))
    {
      if run in active {
        return;
      }
      TrackAmount(run, amount);
      var completed := pending[run];
      active := active[run := Queued(completed)];
    }

    /** The queued continuation; the result is the call to the ledger, if one is made. */
    method ContinueSettling(run: RunId) returns (call: Option<Charge>)
      requires run in active && active[run].Queued?
      modifies this`active, this`told
      ensures Contents() == Apply(old(Contents()), Continue(run))
      ensures call == if run in pending then Some(Charge(run, old(active)[run].amount)) else None
    {
      if run !in pending {
        active := active[run := Ending];
        return None;
      }
      var completed := active[run].amount;
      call := Some(Charge(run, completed));
      active := active[run := Calling(completed)];
      told := told + [Charge(run, completed)];
    }

    method TakeAnswer(run: RunId, confirmed: bool)
      requires run in active && active[run].Calling?
      modifies this`pending, this`disk, this`active
      ensures Contents() == Apply(old(Contents()), Answer(run, confirmed))
    {
      if confirmed {
        DiscardRun(run);
      }
      active := active[run := Ending];
    }

    method EndSettling(run: RunId)
      requires run in active && active[run].Ending?
      modifies this`active
      ensures Contents() == Apply(old(Contents()), Finally(run))
    {
      active := active - {run};
    }
  }
}
