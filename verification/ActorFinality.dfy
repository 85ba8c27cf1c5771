/** When the last states of `pkg/actor/goactor.go:62-76` are final. The comments there call all four
    terminal; for each this module has a run that overwrites it and the exact condition under
    which none does. */
module ActorFinality {
  import opened Basics
  import opened ActorMachine
  import opened ActorTheorems

  /** The loop is past its selects and its hook. */
  predicate Leaving(loop: Loop) { loop == Closing || loop == Exited }

  /** The stopper that won has stored its state. */
  predicate WinnerStored(s: State) {
    s.winner.Some? && s.winner.value in s.stops && PastWait(s.stops[s.winner.value])
  }

  /** Where each last state comes from. */
  predicate EndInv(s: State) {
    && (s.phase == Done ==> WinnerStored(s))
    && (s.phase == Canceled ==> Leaving(s.loop))
    && (s.phase == StoppedWithError ==> Leaving(s.loop) || s.stopCloses > 0)
  }

  lemma EndStep(s: State, e: Event)
    requires LifeInv(s) && EndInv(s) && Enabled(s, e)
    ensures EndInv(Apply(s, e))
  {
    if OfStopper(e) { EndStopStep(s, e); } else { EndOtherStep(s, e); }
  }

  lemma EndStopStep(s: State, e: Event)
    requires StopInv(s) && EndInv(s) && Enabled(s, e) && OfStopper(e)
    ensures EndInv(Apply(s, e))
  {
    if !e.StopCas? { assert HasWon(s.stops[e.t]) && s.winner == Some(e.t); }
  }

  lemma EndOtherStep(s: State, e: Event)
    requires LifeInv(s) && EndInv(s) && Enabled(s, e) && !OfStopper(e)
    ensures EndInv(Apply(s, e))
  {
    var t := Apply(s, e);
    assert t.stops == s.stops && t.winner == s.winner && t.stopCloses == s.stopCloses;
  }

  lemma {:induction false} EndRun(s: State, evs: seq<Event>)
    requires Inv(s) && EndInv(s) && Runnable(s, evs)
    ensures EndInv(Exec(s, evs))
    decreases |evs|
  {
    if evs != [] {
      StepInv(s, evs[0]);
      EndStep(s, evs[0]);
      EndRun(Apply(s, evs[0]), evs[1..]);
    }
  }

  lemma ReachableEnd(s: State)
    requires Reachable(s)
    ensures Inv(s) && EndInv(s)
  {
    hide Inv;
    ReachableInv(s);
    var cap: nat, timed: bool :| Leads(Init(cap, timed), s);
    var evs :| Runnable(Init(cap, timed), evs) && Exec(Init(cap, timed), evs) == s;
    InitInv(cap, timed);
    EndRun(Init(cap, timed), evs);
  }

  /** The loop is leaving, and a stopper that won has returned. */
  predicate AtRest(s: State) {
    && Leaving(s.loop)
    && (s.winner.Some? && s.winner.value in s.stops ==> s.stops[s.winner.value] == StopReturned(true))
  }

  predicate Last(phase: Phase) { phase == Done || phase == StoppedWithError || phase == Canceled }

  /** The state word is the same in every continuation. */
  ghost predicate Forever(s: State) {
    forall evs :: Runnable(s, evs) ==> Exec(s, evs).phase == s.phase
  }

  lemma RestStep(s: State, e: Event)
    requires LifeInv(s) && Final(s.phase) && AtRest(s) && Enabled(s, e)
    ensures Apply(s, e).phase == s.phase && AtRest(Apply(s, e))
  {
    if OfStopper(e) { RestStopStep(s, e); }
  }

  lemma RestStopStep(s: State, e: Event)
    requires StopInv(s) && Final(s.phase) && AtRest(s) && Enabled(s, e) && OfStopper(e)
    ensures Apply(s, e).phase == s.phase && AtRest(Apply(s, e))
  {
  }

  lemma {:induction false} RestRun(s: State, evs: seq<Event>)
    requires Inv(s) && Final(s.phase) && AtRest(s) && Runnable(s, evs)
    ensures Exec(s, evs).phase == s.phase
    decreases |evs|
  {
    if evs != [] {
      StepInv(s, evs[0]);
      RestStep(s, evs[0]);
      RestRun(Apply(s, evs[0]), evs[1..]);
    }
  }

  /** A stopper that has not returned can go on to a panic in `AfterStop`. */
  lemma StopperPanics(s: State, t: nat) returns (evs: seq<Event>)
    requires StopAt(s, t, Won) || StopAt(s, t, Waiting) || StopAt(s, t, InAfterStop)
    ensures Runnable(s, evs) && Exec(s, evs).phase == Panicked
  {
    var u := s;
    evs := [];
    if StopAt(u, t, Won) { evs := Then(s, evs, u, StopClose(t)); u := Apply(u, StopClose(t)); }
    if StopAt(u, t, Waiting) { evs := Then(s, evs, u, StopTimer(t)); u := Apply(u, StopTimer(t)); }
    evs := Then(s, evs, u, AfterStopEnds(t, true));
  }

  /** A launched loop that is not leaving can go on to a panic in a hook or the handler. */
  lemma LoopPanics(s: State) returns (evs: seq<Event>)
    requires !Unborn(s) && !Leaving(s.loop) && s.stopCloses > 0
    ensures Runnable(s, evs) && Exec(s, evs).phase == Panicked
  {
    var u := s;
    evs := [];
    if u.loop == MarkReady { evs := Then(s, evs, u, CloseReady); u := Apply(u, CloseReady); }
    if u.loop == Outer || u.loop.Holding? { evs := Then(s, evs, u, LoopStop); u := Apply(u, LoopStop); }
    match u.loop
    case InAfterStart => evs := Then(s, evs, u, AfterStartEnds(true));
    case Executing(_) => evs := Then(s, evs, u, HandlerEnds(true));
    case InBeforeStop => evs := Then(s, evs, u, BeforeStopEnds(true));
  }

  lemma RestlessPanics(s: State) returns (evs: seq<Event>)
    requires LifeInv(s) && EndInv(s) && Last(s.phase) && !AtRest(s)
    ensures Runnable(s, evs) && Exec(s, evs).phase == Panicked
  {
    if s.winner.Some? && s.stops[s.winner.value] != StopReturned(true) {
      evs := StopperPanics(s, s.winner.value);
    } else {
      evs := LoopPanics(s);
    }
  }

  /** Done, StoppedWithError and Canceled are final exactly when the actor is at rest: otherwise a
      later panic in a hook or handler stores Panicked over them. */
  lemma LastStateIsFinalIff(s: State)
    requires Reachable(s) && Last(s.phase)
    ensures Forever(s) <==> AtRest(s)
  {
    hide Reachable, AtRest;
    ReachableEnd(s);
    if AtRest(s) {
      forall evs | Runnable(s, evs) ensures Exec(s, evs).phase == s.phase { RestRun(s, evs); }
    } else {
      var evs := RestlessPanics(s);
      assert Runnable(s, evs) && Exec(s, evs).phase != s.phase;
    }
  }

  /** Panicked is final exactly when the actor is settled. */
  lemma PanickedIsFinalIff(s: State)
    requires Reachable(s) && s.phase == Panicked
    ensures Forever(s) <==> Settled(s)
  {
    hide Reachable, Settled;
    ReachableInv(s);
    if Settled(s) {
      forall evs | Runnable(s, evs) ensures Exec(s, evs).phase == s.phase { PanickedStaysWhenSettled(s, evs); }
    } else {
      var evs := PanickedOverwrittenUnlessSettled(s);
      assert Runnable(s, evs) && Exec(s, evs).phase != s.phase;
    }
  }

  // ---------------------------------------------------------------- runs that overwrite them

  /** A run from a new actor to its outer select. */
  const Opening: seq<Event> :=
    [StartCheck(true), BeforeStartEnds(false), StoreStarted, CloseReady, AfterStartEnds(false)]

  /** From a new actor, `run` ends in state `p`, and the event after it overwrites it with `q`. */
  ghost predicate Overwrites(run: seq<Event>, p: Phase, e: Event, q: Phase) {
    && Runnable(Init(0, false), run) && Exec(Init(0, false), run).phase == p
    && Enabled(Exec(Init(0, false), run), e) && Apply(Exec(Init(0, false), run), e).phase == q
  }

  /** The run so far, and where it leads. */
  ghost predicate Path(run: seq<Event>, s: State) { Runnable(Init(0, false), run) && Exec(Init(0, false), run) == s }

  lemma Step(run: seq<Event>, s: State, e: Event) returns (more: seq<Event>, t: State)
    requires Path(run, s) && Enabled(s, e)
    ensures more == run + [e] && t == Apply(s, e) && Path(more, t)
  {
    more := Then(Init(0, false), run, s, e);
    t := Apply(s, e);
  }

  lemma Overwritten(run: seq<Event>, s: State, e: Event, q: Phase)
    requires Path(run, s) && Enabled(s, e) && Apply(s, e).phase == q
    ensures Overwrites(run, s.phase, e, q)
  {
  }

  lemma Launch(panics: bool) returns (run: seq<Event>, s: State)
    ensures run == [StartCheck(true), BeforeStartEnds(panics)] && Path(run, s)
    ensures s == Init(0, false).(phase := Caught(Initialized, panics), starter := StartReturned, loop := Launched)
  {
    hide Runnable, Exec;
    run, s := [], Init(0, false);
    assert Path(run, s) by { EmptyPath(); }
    run, s := Step(run, s, StartCheck(true));
    run, s := Step(run, s, BeforeStartEnds(panics));
  }

  lemma EmptyPath()
    ensures Path([], Init(0, false))
  {
  }

  lemma Store() returns (run: seq<Event>, s: State)
    ensures run == Opening[..3] && Path(run, s)
    ensures s == Init(0, false).(phase := Started, starter := StartReturned, loop := MarkReady)
  {
    hide Path, Runnable, Exec;
    run, s := Launch(false);
    run, s := Step(run, s, StoreStarted);
  }

  lemma Open() returns (run: seq<Event>, s: State)
    ensures run == Opening && Path(run, s)
    ensures s == Init(0, false).(phase := Started, readyCloses := 1, starter := StartReturned, loop := Outer)
  {
    hide Path, Runnable, Exec;
    run, s := Store();
    run, s := Step(run, s, CloseReady);
    run, s := Step(run, s, AfterStartEnds(false));
  }

  /** An actor asked to stop, with the stopper waiting. */
  lemma StopAsked() returns (run: seq<Event>, s: State)
    ensures run == Opening + [StopCas(0), StopClose(0)] && Path(run, s)
    ensures s.phase == Stopping && s.loop == Outer && s.ctx == Live && s.stopCloses == 1 && StopAt(s, 0, Waiting)
  {
    hide Path, Runnable, Exec;
    run, s := Open();
    run, s := Step(run, s, StopCas(0));
    run, s := Step(run, s, StopClose(0));
  }

  /** The same, with the loop on its way out. */
  lemma StopSeen() returns (run: seq<Event>, s: State)
    ensures run == Opening + [StopCas(0), StopClose(0), LoopStop] && Path(run, s)
    ensures s.phase == Stopping && s.loop == InBeforeStop && StopAt(s, 0, Waiting)
  {
    hide Path, Runnable, Exec;
    run, s := StopAsked();
    run, s := Step(run, s, LoopStop);
  }

  /** An actor asked to stop whose context ends before the loop looks. */
  lemma CancelSeen() returns (run: seq<Event>, s: State)
    ensures run == Opening + [StopCas(0), StopClose(0), CtxEnds(CtxCanceled), LoopCtx] && Path(run, s)
    ensures s.phase == Canceled && s.loop == Closing && StopAt(s, 0, Waiting)
  {
    hide Path, Runnable, Exec;
    run, s := StopAsked();
    run, s := Step(run, s, CtxEnds(CtxCanceled));
    run, s := Step(run, s, LoopCtx);
  }

  /** A panic in `BeforeStart` is overwritten by the launched loop. */
  lemma PanickedIsNotTerminal()
    ensures Overwrites([StartCheck(true), BeforeStartEnds(true)], Panicked, StoreStarted, Started)
  {
    hide Path, Overwrites, Runnable, Exec;
    var run, s := Launch(true);
    Overwritten(run, s, StoreStarted, Started);
  }

  /** A panic in `AfterStop` overwrites Done. */
  lemma DoneIsNotTerminal()
    ensures Overwrites(
      Opening + [StopCas(0), StopClose(0), LoopStop, BeforeStopEnds(false), CloseDone, StopSawDone(0)],
      Done, AfterStopEnds(0, true), Panicked)
  {
    hide Path, Overwrites, Runnable, Exec;
    var run, s := StopSeen();
    run, s := Step(run, s, BeforeStopEnds(false));
    run, s := Step(run, s, CloseDone);
    run, s := Step(run, s, StopSawDone(0));
    assert run == Opening + [StopCas(0), StopClose(0), LoopStop, BeforeStopEnds(false), CloseDone, StopSawDone(0)];
    Overwritten(run, s, AfterStopEnds(0, true), Panicked);
  }

  /** A panic in `BeforeStop` overwrites the StoppedWithError of a stopper that timed out. */
  lemma StoppedWithErrorIsNotTerminal()
    ensures Overwrites(
      Opening + [StopCas(0), StopClose(0), LoopStop, StopTimer(0)], StoppedWithError, BeforeStopEnds(true), Panicked)
  {
    hide Path, Overwrites, Runnable, Exec;
    var run, s := StopSeen();
    run, s := Step(run, s, StopTimer(0));
    assert run == Opening + [StopCas(0), StopClose(0), LoopStop, StopTimer(0)];
    Overwritten(run, s, BeforeStopEnds(true), Panicked);
  }

  /** A waiting stopper overwrites Canceled with Done. */
  lemma CanceledIsNotTerminal()
    ensures Overwrites(
      Opening + [StopCas(0), StopClose(0), CtxEnds(CtxCanceled), LoopCtx, CloseDone], Canceled, StopSawDone(0), Done)
  {
    hide Path, Overwrites, Runnable, Exec;
    var run, s := CancelSeen();
    run, s := Step(run, s, CloseDone);
    assert run == Opening + [StopCas(0), StopClose(0), CtxEnds(CtxCanceled), LoopCtx, CloseDone];
    Overwritten(run, s, StopSawDone(0), Done);
  }
}
