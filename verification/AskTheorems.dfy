/** What concurrent askers of one actor can rely on. */
module AskTheorems {
  import opened Basics
  import opened Commands
  import opened AskMachine
  import A = ActorMachine
  import T = ActorTheorems

  lemma StartInv<E, R>(s: Sys<E, R>)
    requires Start(s)
    ensures SysInv(s)
  {
    var cap: nat, timed: bool :| s.a == A.Init(cap, timed);
    A.InitInv(cap, timed);
  }

  /** Seen without its commands, every run is a run of the actor or stands still. */
  lemma {:induction false} ActorRun<E, R>(s: Sys<E, R>, evs: seq<Event>) returns (acts: seq<A.Event>)
    requires Runnable(s, evs)
    ensures A.Runnable(s.a, acts) && A.Exec(s.a, acts) == Exec(s, evs).a
    decreases |evs|
  {
    if evs == [] {
      acts := [];
    } else {
      var t := Apply(s, evs[0]);
      var rest := ActorRun(t, evs[1..]);
      if evs[0].Actor? {
        acts := [evs[0].e] + rest;
        assert acts[1..] == rest;
      } else {
        assert t.a == s.a;
        acts := rest;
      }
    }
  }

  /** The delegates that were called are, in order, those of a prefix of the accepted messages. */
  lemma AppliedInOrder<E, R>(s: Sys<E, R>)
    requires SysInv(s)
    ensures s.applied <= s.a.accepted
  {
    assert s.a.executed <= s.a.accepted;
    assert s.applied <= s.a.executed;
  }

  /** The invariant after any run from the start. */
  lemma ReachedInv<E, R>(s0: Sys<E, R>, evs: seq<Event>)
    requires Start(s0) && Runnable(s0, evs)
    ensures SysInv(Exec(s0, evs))
  {
    StartInv(s0);
    RunKeeps(s0, evs);
  }

  /** Ask `c` returned a value. */
  predicate GaveValue<E, R>(s: Sys<E, R>, c: nat) {
    c in s.readers && s.readers[c].Answered? && s.readers[c].val.Some?
  }

  lemma ValueIsPlaced<E, R>(s: Sys<E, R>, c: nat)
    requires SysInv(s) && GaveValue(s, c)
    ensures c in s.cells && s.readers[c].err.None? && s.cells[c].err.None? && Placed(s, c, s.readers[c].val.value)
  {
    hide A.LifeInv, A.FlowInv, Placed, Fold;
    assert c in s.a.accepted && c in s.a.calls;
    ValueOfCell(s, c);
  }

  lemma ValueOfCell<E, R>(s: Sys<E, R>, c: nat)
    requires c in s.cells && CellOk(s, c) && GaveValue(s, c)
    ensures s.readers[c].err.None? && s.cells[c].err.None? && Placed(s, c, s.readers[c].val.value)
  {
  }

  /** Ask `c` returned the error `e` of its command. */
  predicate GaveError<E, R>(s: Sys<E, R>, c: nat, e: CmdError) {
    c in s.readers && s.readers[c].Answered? && s.readers[c].err == Some(OfCommand(e))
  }

  lemma EveryCellOk<E, R>(s: Sys<E, R>, c: nat)
    requires SysInv(s) && c in s.cells
    ensures CellOk(s, c)
  {
  }

  lemma ErrorHasCause<E, R>(s: Sys<E, R>, c: nat, e: CmdError)
    requires SysInv(s) && GaveError(s, c, e)
    ensures s.readers[c].val.None? && Cause(s, c, e)
  {
    hide A.LifeInv, A.FlowInv, Placed, Cause, Fold;
    assert c in s.a.accepted && c in s.a.calls;
    ErrorOfCell(s, c, e);
  }

  lemma ErrorOfCell<E, R>(s: Sys<E, R>, c: nat, e: CmdError)
    requires c in s.cells && CellOk(s, c) && GaveError(s, c, e)
    ensures s.readers[c].val.None? && Cause(s, c, e)
  {
  }

  /** Linearizability. For any number of concurrent askers and any interleaving, the entity is what
      the delegates produce when applied one after the other in the order the channel accepted
      them. Every ask that returned a value returned no error and got its own delegate's result at
      its place in that sequence; every ask that returned its command's error returned no value,
      and its own delegate gives that error, or panics, at its place, or was never applied. */
  lemma AsksLinearize<E, R>(s0: Sys<E, R>, evs: seq<Event>)
    requires Start(s0) && Runnable(s0, evs)
    ensures var s := Exec(s0, evs);
      && s.applied <= s.a.accepted
      && s.entity == Fold(s.fns, s.e0, s.applied)
      && (forall c :: GaveValue(s, c) ==> s.readers[c].err.None? && Placed(s, c, s.readers[c].val.value))
      && (forall c, e :: GaveError(s, c, e) ==> s.readers[c].val.None? && Cause(s, c, e))
  {
    hide SysInv, Placed, Cause, A.Inv, Start;
    ReachedInv(s0, evs);
    var s := Exec(s0, evs);
    AppliedInOrder(s);
    forall c | GaveValue(s, c) ensures s.readers[c].err.None? && Placed(s, c, s.readers[c].val.value) {
      ValueIsPlaced(s, c);
    }
    forall c, e | GaveError(s, c, e) ensures s.readers[c].val.None? && Cause(s, c, e) {
      ErrorHasCause(s, c, e);
    }
  }

  /** What an ask can have returned: its delegate's value and no error, or no value and its own
      context's or timer's error, or no value and the error its command recorded. */
  ghost predicate AnswerOk<E, R>(s: Sys<E, R>, c: nat)
    requires c in s.cells && c in s.readers && s.readers[c].Answered?
  {
    var r, cell := s.readers[c], s.cells[c];
    match r.val
    case Some(v) => r.err == None && cell.err == None && Placed(s, c, v)
    case None =>
      || r.err == Some(ReaderCtx)
      || r.err == Some(AskTimeout)
      || (FailedFor(s, c) && r.err == Wrap(cell.err))
  }

  lemma AnswersOk<E, R>(s: Sys<E, R>, c: nat)
    requires c in s.cells && CellOk(s, c)
    ensures s.cells[c].closes <= 1
    ensures Stage(s, c) == Some(Over) ==> s.cells[c].closes == 1
    ensures ReaderAt(s, c, Waiting) && s.cells[c].state == Finished ==> s.cells[c].held.Some?
    ensures c in s.readers && s.readers[c].Answered? ==> AnswerOk(s, c)
  {
  }

  /** How `Await` and `Execute` agree, in every interleaving: every answer is one of the three of
      `AnswerOk`, so no ask returns neither a value nor an error. Every command that is over has
      closed its channel once, none twice, and a recorded value is never lost while its reader waits. */
  lemma AwaitAgreesWithExecute<E, R>(s0: Sys<E, R>, evs: seq<Event>, c: nat)
    requires Start(s0) && Runnable(s0, evs) && c in Exec(s0, evs).cells
    ensures var s := Exec(s0, evs);
      && s.cells[c].closes <= 1
      && (Stage(s, c) == Some(Over) ==> s.cells[c].closes == 1)
      && (ReaderAt(s, c, Waiting) && s.cells[c].state == Finished ==> s.cells[c].held.Some?)
      && (c in s.readers && s.readers[c].Answered? ==> AnswerOk(s, c))
  {
    hide SysInv, AnswerOk, Stage, Start, CellOk;
    ReachedInv(s0, evs);
    EveryCellOk(Exec(s0, evs), c);
    AnswersOk(Exec(s0, evs), c);
  }

  /** A cell's state goes only from Created to Started to a terminal state, and a terminal one stays. */
  lemma {:induction false} StateMovesForward<E, R>(s: Sys<E, R>, evs: seq<Event>, c: nat)
    requires SysInv(s) && Runnable(s, evs) && c in s.cells
    ensures var t := Exec(s, evs);
      && c in t.cells && Order(s.cells[c].state) <= Order(t.cells[c].state)
      && (Order(s.cells[c].state) == 2 ==> t.cells[c].state == s.cells[c].state && t.cells[c].err == s.cells[c].err)
    decreases |evs|
  {
    if evs != [] {
      StateStep(s, evs[0], c);
      StepKeeps(s, evs[0]);
      StateMovesForward(Apply(s, evs[0]), evs[1..], c);
    }
  }

  lemma StateStep<E, R>(s: Sys<E, R>, ev: Event, c: nat)
    requires SysInv(s) && Enabled(s, ev) && c in s.cells
    ensures var t := Apply(s, ev);
      && c in t.cells && Order(s.cells[c].state) <= Order(t.cells[c].state)
      && (Order(s.cells[c].state) == 2 ==> t.cells[c].state == s.cells[c].state && t.cells[c].err == s.cells[c].err)
  {
    if ev.Execute? && s.a.loop.m == c {
      assert s.a.executed[|s.a.executed| - 1] == c;
      EveryCellOk(s, c);
      ExecuteStateStep(s, c);
    } else {
      OtherStateStep(s, ev, c);
    }
  }

  lemma ExecuteStateStep<E, R>(s: Sys<E, R>, c: nat)
    requires Enabled(s, Execute) && s.a.loop == A.Executing(c) && c in s.a.executed && CellOk(s, c)
    ensures var t := Apply(s, Execute);
      && c in t.cells && Order(s.cells[c].state) <= Order(t.cells[c].state)
      && (Order(s.cells[c].state) == 2 ==> t.cells[c].state == s.cells[c].state && t.cells[c].err == s.cells[c].err)
  {
    assert Stage(s, c) == Some(s.pc);
  }

  lemma OtherStateStep<E, R>(s: Sys<E, R>, ev: Event, c: nat)
    requires Enabled(s, ev) && c in s.cells && !(ev.Execute? && s.a.loop.m == c)
    requires forall d :: d in s.cells ==> d in s.a.calls
    ensures var t := Apply(s, ev);
      c in t.cells && t.cells[c].state == s.cells[c].state && t.cells[c].err == s.cells[c].err
  {
  }

  /** Ask `c` was applied at place `i` of both sequences of `s`. */
  predicate At<E, R>(s: Sys<E, R>, c: nat, i: nat) {
    i < |s.applied| && s.applied[i] == c && i < |s.a.accepted| && s.a.accepted[i] == c
  }

  /** Ask `c` returned what came of applying its delegate: a value, an error or a panic. */
  ghost predicate TookEffect<E, R>(s: Sys<E, R>, c: nat) {
    GaveValue(s, c) || GaveError(s, c, ErrPanic) || exists code :: GaveError(s, c, ErrDelegate(code))
  }

  lemma EffectHasPlace<E, R>(s: Sys<E, R>, c: nat) returns (i: nat)
    requires SysInv(s) && TookEffect(s, c)
    ensures At(s, c, i)
  {
    hide SysInv;
    if GaveValue(s, c) {
      ValueIsPlaced(s, c);
      i :| PlacedAt(s, c, s.readers[c].val.value, i);
    } else if GaveError(s, c, ErrPanic) {
      ErrorHasCause(s, c, ErrPanic);
      i :| BlewAt(s, c, i);
    } else {
      var code :| GaveError(s, c, ErrDelegate(code));
      ErrorHasCause(s, c, ErrDelegate(code));
      i :| RefusedAt(s, c, code, i);
    }
    AppliedInOrder(s);
    assert s.a.accepted[i] == s.applied[i];
  }

  lemma UnissuedNotAccepted<E, R>(s: Sys<E, R>, d: nat)
    requires SysInv(s) && d !in s.a.calls
    ensures forall k :: 0 <= k < |s.a.accepted| ==> s.a.accepted[k] != d
  {
  }

  /** Real-time order: an ask that returned its delegate's value or error before another was issued
      precedes it in the accepted order, in every continuation. */
  lemma RealTimeOrder<E, R>(s0: Sys<E, R>, evs: seq<Event>, more: seq<Event>, c: nat, d: nat, j: nat)
    requires Start(s0) && Runnable(s0, evs) && Runnable(Exec(s0, evs), more)
    requires TookEffect(Exec(s0, evs), c) && d !in Exec(s0, evs).a.calls
    requires var t := Exec(Exec(s0, evs), more); j < |t.a.accepted| && t.a.accepted[j] == d
    ensures exists i: nat :: i < j && At(Exec(Exec(s0, evs), more), c, i)
  {
    hide SysInv, Start, TookEffect;
    ReachedInv(s0, evs);
    var s := Exec(s0, evs);
    var t := Exec(s, more);
    var acts := ActorRun(s, more);
    T.HistoryGrows(s.a, acts);
    AppliedGrows(s, more);
    var i := EffectHasPlace(s, c);
    assert At(t, c, i);
    UnissuedNotAccepted(s, d);
    assert forall k :: 0 <= k < |s.a.accepted| ==> t.a.accepted[k] == s.a.accepted[k];
  }

  lemma {:induction false} AppliedGrows<E, R>(s: Sys<E, R>, evs: seq<Event>)
    requires Runnable(s, evs)
    ensures s.applied <= Exec(s, evs).applied
    decreases |evs|
  {
    if evs != [] { AppliedGrows(Apply(s, evs[0]), evs[1..]); }
  }

  // ---------------------------------------------------------------- who answered

  /** The error of `Await` that the event gives ask `c`. */
  predicate Gives(ev: Event, c: nat, e: AskError) {
    (ev == ReaderCtxEnds(c) && e == ReaderCtx) || (ev == ReaderTimer(c) && e == AskTimeout)
  }

  predicate GaveUp<E, R>(s: Sys<E, R>, c: nat, e: AskError) {
    c in s.readers && s.readers[c].Answered? && s.readers[c].err == Some(e)
  }

  ghost predicate GivenIn(evs: seq<Event>, c: nat, e: AskError) {
    exists k :: 0 <= k < |evs| && Gives(evs[k], c, e)
  }

  lemma GaveUpStep<E, R>(s: Sys<E, R>, ev: Event, c: nat, e: AskError)
    requires Enabled(s, ev) && !e.OfCommand?
    ensures GaveUp(Apply(s, ev), c, e) <==> GaveUp(s, c, e) || Gives(ev, c, e)
  {
  }

  lemma {:induction false} GaveUpRun<E, R>(done: seq<Event>, s: Sys<E, R>, evs: seq<Event>, c: nat, e: AskError)
    requires Runnable(s, evs) && !e.OfCommand? && (GaveUp(s, c, e) <==> GivenIn(done, c, e))
    ensures GaveUp(Exec(s, evs), c, e) <==> GivenIn(done + evs, c, e)
    decreases |evs|
  {
    hide GaveUp, Enabled, Apply;
    if evs == [] {
      assert done + evs == done;
    } else {
      var more := done + [evs[0]];
      assert done + evs == more + evs[1..] && more[|done|] == evs[0];
      assert forall k :: 0 <= k < |done| ==> more[k] == done[k];
      GaveUpStep(s, evs[0], c, e);
      GaveUpRun(more, Apply(s, evs[0]), evs[1..], c, e);
    }
  }

  /** `Await` returns its context's error exactly for an ask whose context ended at its select, and
      the ask timeout exactly for one whose timer fired there. */
  lemma GivesUpIff<E, R>(s0: Sys<E, R>, evs: seq<Event>, c: nat, e: AskError)
    requires Start(s0) && Runnable(s0, evs) && !e.OfCommand?
    ensures GaveUp(Exec(s0, evs), c, e) <==> GivenIn(evs, c, e)
  {
    assert [] + evs == evs;
    GaveUpRun([], s0, evs, c, e);
  }
}
