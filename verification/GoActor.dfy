/** `GoActor` in its own form: the bodies of `Start`, `Receive`, `Stop` and the loop goroutine,
    with any number of other goroutines running between any two of their atomic actions.
    Each action is shown to be an event of `ActorMachine`, so what is proved of its runs holds
    of this code. */
module GoActors {
  import opened Basics
  import opened ActorMachine
  import opened ActorTheorems

  /** A goroutine, as seen from its own code. */
  datatype Thread = Receiver(c: nat) | StopperOf(t: nat) | LoopRoutine | StarterRoutine

  predicate By(th: Thread, e: Event) {
    match e
    case StartCheck(_) | BeforeStartEnds(_) => th == StarterRoutine
    case StoreStarted | CloseReady | AfterStartEnds(_) | LoopCtx | LoopStop | LoopTake
       | LoopDefault | HandlerEnds(_) | BeforeStopEnds(_) | CloseDone => th == LoopRoutine
    case CtxEnds(_) => false
    case RecvLoad(_, _) | RecvSend(_) | RecvHandoff(_) | RecvStopped(_) | RecvCtx(_) | RecvTimer(_) =>
      th == Receiver(e.c)
    case StopCas(_) | StopClose(_) | StopSawDone(_) | StopTimer(_) | AfterStopEnds(_, _) =>
      th == StopperOf(e.t)
  }

  /** `t` follows from `s` by actions of goroutines other than `th`. */
  ghost predicate Elsewhere(s: State, t: State, th: Thread) {
    exists evs :: Runnable(s, evs) && Exec(s, evs) == t && forall e <- evs :: !By(th, e)
  }

  /** What other goroutines cannot touch: a call's own position, a stopper's, and the loop's,
      which only a hand-off moves, from the outer select to the inner one. */
  predicate SameFor(s: State, t: State, th: Thread) {
    match th
    case Receiver(c) => (c in t.calls <==> c in s.calls) && (c in s.calls ==> t.calls[c] == s.calls[c])
    case StopperOf(u) => (u in t.stops <==> u in s.stops) && (u in s.stops ==> t.stops[u] == s.stops[u])
    case LoopRoutine =>
      && t.executed == s.executed
      && (!s.loop.NotLaunched? ==> t.loop == s.loop || (s.loop == Outer && t.loop.Holding?))
    case StarterRoutine => t.starter == s.starter && (s.starter != StartReturned ==> t.phase == s.phase)
  }

  /** What no goroutine undoes: closed channels and a done context stay so. */
  predicate Monotone(s: State, t: State) {
    && s.stopCloses <= t.stopCloses && s.doneCloses <= t.doneCloses && s.readyCloses <= t.readyCloses
    && (s.ctx != Live ==> t.ctx == s.ctx)
  }

  lemma OtherStep(s: State, e: Event, th: Thread)
    requires LifeInv(s) && Enabled(s, e) && !By(th, e)
    ensures SameFor(s, Apply(s, e), th) && Monotone(s, Apply(s, e))
  {
    if OfStopper(e) { StopperLeaves(s, e, th); }
    else if OfReceiver(e) { ReceiverLeaves(s, e, th); }
    else if OfLoop(e) { LoopLeaves(s, e, th); }
    else { StartLeaves(s, e, th); }
  }

  lemma StopperLeaves(s: State, e: Event, th: Thread)
    requires LifeInv(s) && Enabled(s, e) && !By(th, e) && OfStopper(e)
    ensures SameFor(s, Apply(s, e), th) && Monotone(s, Apply(s, e))
  {
  }

  lemma ReceiverLeaves(s: State, e: Event, th: Thread)
    requires LifeInv(s) && Enabled(s, e) && !By(th, e) && OfReceiver(e)
    ensures SameFor(s, Apply(s, e), th) && Monotone(s, Apply(s, e))
  {
  }

  lemma StartLeaves(s: State, e: Event, th: Thread)
    requires LifeInv(s) && Enabled(s, e) && !By(th, e) && OfStart(e)
    ensures SameFor(s, Apply(s, e), th) && Monotone(s, Apply(s, e))
  {
  }

  lemma LoopLeaves(s: State, e: Event, th: Thread)
    requires LifeInv(s) && Enabled(s, e) && !By(th, e) && OfLoop(e)
    ensures SameFor(s, Apply(s, e), th) && Monotone(s, Apply(s, e))
  {
  }

  lemma {:induction false} OthersLeaveMine(s: State, evs: seq<Event>, th: Thread)
    requires Inv(s) && Runnable(s, evs) && forall e <- evs :: !By(th, e)
    ensures SameFor(s, Exec(s, evs), th) && Monotone(s, Exec(s, evs))
    decreases |evs|
  {
    if evs != [] {
      var t := Apply(s, evs[0]);
      assert !By(th, evs[0]);
      OtherStep(s, evs[0], th);
      StepInv(s, evs[0]);
      assert forall e <- evs[1..] :: e in evs;
      OthersLeaveMine(t, evs[1..], th);
    }
  }

  lemma BornStep(s: State, e: Event)
    requires LoopInv(s) && !Unborn(s) && Enabled(s, e)
    ensures !Unborn(Apply(s, e))
  {
  }

  lemma {:induction false} BornStays(s: State, evs: seq<Event>)
    requires Inv(s) && !Unborn(s) && Runnable(s, evs)
    ensures !Unborn(Exec(s, evs))
    decreases |evs|
  {
    if evs != [] {
      BornStep(s, evs[0]);
      StepInv(s, evs[0]);
      BornStays(Apply(s, evs[0]), evs[1..]);
    }
  }

  /** How a call of `Receive` stands: still blocked in its select, or returned. */
  datatype Outcome = Blocked | Ok | Err(e: RecvError)

  datatype StartOutcome = StartOk | NilEntity | StartMismatch

  datatype StopOutcome = StopBlocked | StopOk | Mismatch

  class GoActor {
    const inputBufSize: nat
    const hasTimeout: bool
    var state: Phase
    var input: seq<nat>   // the buffered channel
    var done: bool        // closed?
    var ready: bool
    var stop: bool
    var ctx: Ctx          // the context given to Start
    var loop: Loop        // where the loop goroutine is; a sender may hand it a message there
    ghost var m: State    // all goroutines together

    ghost predicate Valid() reads this {
      && Leads(Init(inputBufSize, hasTimeout), m)
      && m.cap == inputBufSize && m.timed == hasTimeout
      && m.phase == state && m.buf == input && m.ctx == ctx && m.loop == loop
      && (done <==> m.doneCloses > 0) && (ready <==> m.readyCloses > 0) && (stop <==> m.stopCloses > 0)
    }

    constructor (size: nat, timed: bool)
      ensures Valid() && m == Init(size, timed)
    {
      inputBufSize, hasTimeout := size, timed;
      state, input, ctx, loop := Initialized, [], Live, NotLaunched;
      done, ready, stop := false, false, false;
      m := Init(size, timed);
      new;
      LeadsRefl(m);
    }

    /** Other goroutines run for a while: any run without an action of `th` may happen here.
        (In this body the run is empty; callers know only the contract.) */
    method Interfere(ghost th: Thread)
      requires Valid()
      modifies this
      ensures Valid() && Elsewhere(old(m), m, th)
    {
      assert Runnable(m, []) && Exec(m, []) == m;
    }

    /** The same within a call that began in state `from`, with what the interference cannot
        have changed for `th`. */
    method Pause(ghost th: Thread, ghost from: State)
      requires Valid() && Leads(from, m)
      modifies this
      ensures Valid() && Leads(from, m) && Leads(old(m), m)
      ensures SameFor(old(m), m, th) && Monotone(old(m), m)
    {
      ReachInv(m);
      Interfere(th);
      ghost var evs :| Runnable(old(m), evs) && Exec(old(m), evs) == m && forall e <- evs :: !By(th, e);
      OthersLeaveMine(old(m), evs, th);
      LeadsTrans(from, old(m), m);
    }

    /** The machine takes the step that the caller has just taken on the fields. */
    ghost method Act(e: Event, from: State)
      requires Enabled(m, e) && Leads(from, m) && Leads(Init(inputBufSize, hasTimeout), m)
      modifies this`m
      ensures m == Apply(old(m), e) && Leads(from, m) && Leads(Init(inputBufSize, hasTimeout), m)
    {
      OneStep(m, e);
      m := Apply(m, e);
      LeadsTrans(from, old(m), m);
      LeadsTrans(Init(inputBufSize, hasTimeout), old(m), m);
    }

    lemma ReachInv(s: State)
      requires Leads(Init(inputBufSize, hasTimeout), s)
      ensures Inv(s)
    {
      ReachableInv(s);
    }

    /** A call's message is in the accepted sequence exactly when the call returned nil. */
    lemma TakenIff(s: State, c: nat)
      requires Leads(Init(inputBufSize, hasTimeout), s)
      ensures c in s.accepted <==> c in s.calls && s.calls[c] == Returned(None)
    {
      ReachInv(s);
    }

    lemma StopperFacts(s: State, t: nat)
      requires Leads(Init(inputBufSize, hasTimeout), s)
      ensures t in s.stops ==> (HasWon(s.stops[t]) <==> s.winner == Some(t))
      ensures t !in s.stops ==> s.winner != Some(t)
      ensures StopAt(s, t, Waiting) ==> s.stopCloses > 0
      ensures StopAt(s, t, StopReturned(true)) ==> Final(s.phase)
    {
      ReachInv(s);
    }

    lemma LoopFacts(s: State)
      requires Leads(Init(inputBufSize, hasTimeout), s)
      ensures LoopInv(s)
    {
      ReachInv(s);
    }

    /** Having left Started is kept from `s` on. */
    lemma StillLeft(s: State, t: State)
      requires Leads(Init(inputBufSize, hasTimeout), s) && Leads(s, t)
      ensures Left(s) ==> Left(t)
    {
      if Left(s) {
        var evs :| Runnable(s, evs) && Exec(s, evs) == t;
        ReachInv(s);
        StaysLeft(s, evs);
      }
    }

    /** `Receive` with a fresh call number `c`: returns nil exactly when the channel took the
        message, an error exactly when it never will, whatever runs in between. */
    method Receive(c: nat, isNil: bool) returns (r: Outcome)
      requires Valid() && c !in m.calls
      modifies this
      ensures Valid() && Leads(old(m), m)
      ensures c in m.calls && m.calls[c] == CallOf(r)
      ensures r == Ok <==> c in m.accepted
      ensures isNil ==> r == Err(NilCommand)
      ensures !isNil && Left(old(m)) ==> r == Err(OnStopped)
    {
      hide Leads, Init;
      LeadsRefl(m);
      if isNil {
        Act(RecvLoad(c, true), old(m));
        r := Err(NilCommand);
      } else {
        Pause(Receiver(c), old(m));
        StillLeft(old(m), m);
        LoopFacts(m);
        var loaded := state;
        Act(RecvLoad(c, false), old(m));
        match loaded {
          case Started => r := ProcessExecutable(c, old(m));
          case Initialized => r := Err(NotStarted);
          case _ => r := Err(OnStopped);
        }
      }
      TakenIff(m, c);
    }

    /** The select of `processExecutable` and `processExecutableWithTimeout`. The sender's own
        context and timer may fire at any moment. */
    method ProcessExecutable(c: nat, ghost from: State) returns (r: Outcome)
      requires Valid() && IsSending(m, c) && Leads(from, m)
      modifies this
      ensures Valid() && Leads(from, m)
      ensures c in m.calls && m.calls[c] == CallOf(r)
    {
      hide Leads, Init;
      Pause(Receiver(c), from);
      if {
      case |input| < inputBufSize =>
        Buffer(c, from);
        r := Ok;
      case input == [] && loop == Outer =>
        HandOff(c, from);
        r := Ok;
      case stop =>
        Act(RecvStopped(c), from);
        r := Err(OnStopped);
      case true =>
        Act(RecvCtx(c), from);
        r := Err(SenderCtx);
      case hasTimeout =>
        Act(RecvTimer(c), from);
        r := Err(RecvTimeout);
      case true =>
        r := Blocked;
      }
    }

    method Buffer(c: nat, ghost from: State)
      requires Valid() && IsSending(m, c) && Leads(from, m) && |input| < inputBufSize
      modifies this
      ensures Valid() && Leads(from, m) && m == Apply(old(m), RecvSend(c))
    {
      hide Leads, Init;
      input := input + [c];
      Act(RecvSend(c), from);
    }

    method HandOff(c: nat, ghost from: State)
      requires Valid() && IsSending(m, c) && Leads(from, m) && input == [] && loop == Outer
      modifies this
      ensures Valid() && Leads(from, m) && m == Apply(old(m), RecvHandoff(c))
    {
      hide Leads, Init;
      loop := Holding(c);
      Act(RecvHandoff(c), from);
    }

    /** `Stop`: nil exactly for the call whose compare-and-swap won, and then the actor is in a
        final state; `StopBlocked` while it still waits for `done` or its timer. */
    method Stop(t: nat) returns (r: StopOutcome)
      requires Valid() && t !in m.stops
      modifies this
      ensures Valid() && Leads(old(m), m)
      ensures r == StopOk ==> Final(state) && StopAt(m, t, StopReturned(true))
      ensures r == Mismatch ==> StopAt(m, t, StopReturned(false))
      ensures r == StopBlocked ==> StopAt(m, t, Waiting) && stop
      ensures r != Mismatch <==> m.winner == Some(t)
      ensures Left(old(m)) ==> r == Mismatch
    {
      hide Leads, Init;
      LeadsRefl(m);
      Pause(StopperOf(t), old(m));
      StillLeft(old(m), m);
      var won := CompareAndSwap(t, old(m));
      if won {
        CloseStopChannel(t, old(m));
        r := AwaitDone(t, old(m));
      } else {
        r := Mismatch;
      }
      StopperFacts(m, t);
    }

    /** From Started to Stopping, if it is Started. */
    method CompareAndSwap(t: nat, ghost from: State) returns (won: bool)
      requires Valid() && t !in m.stops && Leads(from, m)
      modifies this
      ensures Valid() && Leads(from, m)
      ensures won <==> old(state) == Started
      ensures StopAt(m, t, if won then Won else StopReturned(false))
    {
      hide Leads, Init;
      won := state == Started;
      if won { state := Stopping; }
      Act(StopCas(t), from);
    }

    method CloseStopChannel(t: nat, ghost from: State)
      requires Valid() && StopAt(m, t, Won) && Leads(from, m)
      modifies this
      ensures Valid() && StopAt(m, t, Waiting) && Leads(from, m)
    {
      hide Leads, Init;
      Pause(StopperOf(t), from);
      stop := true;
      Act(StopClose(t), from);
    }

    /** The second half of `Stop`: the select on `done` and the timer, then `AfterStop`. */
    method AwaitDone(t: nat, ghost from: State) returns (r: StopOutcome)
      requires Valid() && StopAt(m, t, Waiting) && Leads(from, m)
      modifies this
      ensures Valid() && Leads(from, m)
      ensures (r == StopOk && StopAt(m, t, StopReturned(true))) || (r == StopBlocked && StopAt(m, t, Waiting))
    {
      hide Leads, Init;
      Pause(StopperOf(t), from);
      if {
      case done =>
        state := Done;
        Act(StopSawDone(t), from);
        r := StopOk;
      case true =>
        state := StoppedWithError;
        Act(StopTimer(t), from);
        r := StopOk;
      case true =>
        r := StopBlocked;
      }
      if r == StopOk { AfterStop(t, from); }
    }

    /** The `AfterStop` hook under `catchPanic`. */
    method AfterStop(t: nat, ghost from: State)
      requires Valid() && StopAt(m, t, InAfterStop) && Leads(from, m)
      modifies this
      ensures Valid() && Leads(from, m) && StopAt(m, t, StopReturned(true))
    {
      hide Leads, Init;
      Pause(StopperOf(t), from);
      var panics: bool := *;
      if panics { state := Panicked; }
      Act(AfterStopEnds(t, panics), from);
    }

    /** The synchronous part of `Start`: the state check, the provider check and `BeforeStart`. The
        guard is a check and not a compare-and-swap, so a second call is only refused once the loop
        goroutine of the first has stored Started; it then changes nothing. */
    method Start(providable: bool) returns (r: StartOutcome)
      requires Valid() && (m.starter == NotCalled || !Unborn(m))
      modifies this
      ensures Valid() && Leads(old(m), m)
      ensures r == StartMismatch <==> old(m).starter != NotCalled
      ensures r == NilEntity <==> old(m).starter == NotCalled && !providable
      ensures r == StartOk ==> m.starter == StartReturned && !m.loop.NotLaunched?
      ensures r == NilEntity ==> m.starter == NotCalled && state == Initialized
      ensures r == StartMismatch ==> Elsewhere(old(m), m, StarterRoutine)
    {
      hide Leads, Init;
      LeadsRefl(m);
      LoopFacts(m);
      PauseBeforeStart();
      LoopFacts(m);
      if state != Initialized { return StartMismatch; }
      Act(StartCheck(providable), old(m));
      if !providable { return NilEntity; }
      BeforeStart(old(m));
      r := StartOk;
    }

    /** Others run before the state check of a call of `Start`. */
    method PauseBeforeStart()
      requires Valid() && (m.starter == NotCalled || !Unborn(m))
      modifies this
      ensures Valid() && Leads(old(m), m) && Elsewhere(old(m), m, StarterRoutine)
      ensures m.starter == old(m).starter && (!Unborn(old(m)) ==> !Unborn(m))
    {
      ReachInv(m);
      Interfere(StarterRoutine);
      ghost var evs :| Runnable(old(m), evs) && Exec(old(m), evs) == m && forall e <- evs :: !By(StarterRoutine, e);
      OthersLeaveMine(old(m), evs, StarterRoutine);
      if !Unborn(old(m)) { BornStays(old(m), evs); }
    }

    /** The `BeforeStart` hook under `catchPanic`, and the launch of the loop goroutine. */
    method BeforeStart(ghost from: State)
      requires Valid() && m.starter == InBeforeStart && Leads(from, m)
      modifies this
      ensures Valid() && Leads(from, m) && m.starter == StartReturned && loop == Launched
    {
      hide Leads, Init;
      Pause(StarterRoutine, from);
      var panics: bool := *;
      if panics { state := Panicked; }
      loop := Launched;
      Act(BeforeStartEnds(panics), from);
    }

    /** The loop goroutine, followed for at most `rounds` turns of its endless loop. Once shutdown
        has begun it exits within one turn; when it exits it has closed `done`. */
    method Run(rounds: nat) returns (exited: bool)
      requires Valid() && loop == Launched
      modifies this
      ensures Valid() && Leads(old(m), m)
      ensures exited <==> loop == Exited
      ensures exited ==> done && ready
      ensures old(ctx) != Live && rounds > 0 ==> exited
    {
      hide Leads, Init;
      LeadsRefl(m);
      ghost var m0 := m;
      Enter(m0);
      var n := 0;
      exited := false;
      while n < rounds && !exited
        invariant n <= rounds && Valid() && Leads(m0, m)
        invariant if exited then loop == Exited && done && ready else loop == Outer || loop.Holding?
        invariant m0.ctx != Live ==> m.ctx == m0.ctx && (n > 0 ==> exited)
      {
        exited := Turn(m0);
        n := n + 1;
      }
    }

    /** What the loop goroutine does before its loop: store Started, close `ready`, `AfterStart`. */
    method Enter(ghost from: State)
      requires Valid() && loop == Launched && Leads(from, m)
      modifies this
      ensures Valid() && Leads(from, m) && Monotone(old(m), m) && loop == Outer
    {
      hide Leads, Init;
      Pause(LoopRoutine, from);
      state, loop := Started, MarkReady;
      Act(StoreStarted, from);
      CloseReadyChannel(from);
      AfterStart(from);
    }

    method CloseReadyChannel(ghost from: State)
      requires Valid() && loop == MarkReady && Leads(from, m)
      modifies this
      ensures Valid() && Leads(from, m) && Monotone(old(m), m) && loop == InAfterStart
    {
      hide Leads, Init;
      Pause(LoopRoutine, from);
      ready, loop := true, InAfterStart;
      Act(CloseReady, from);
    }

    /** The `AfterStart` hook under `catchPanic`. */
    method AfterStart(ghost from: State)
      requires Valid() && loop == InAfterStart && Leads(from, m)
      modifies this
      ensures Valid() && Leads(from, m) && Monotone(old(m), m) && loop == Outer
    {
      hide Leads, Init;
      Pause(LoopRoutine, from);
      var panics: bool := *;
      if panics { state := Panicked; }
      loop := Outer;
      Act(AfterStartEnds(panics), from);
    }

    /** One turn of the loop: the outer select, and the inner one when a message was taken.
        A turn may find the outer select blocked, or the loop handed a message by a sender. */
    method Turn(ghost from: State) returns (exited: bool)
      requires Valid() && Leads(from, m) && (loop == Outer || loop.Holding?)
      modifies this
      ensures Valid() && Leads(from, m) && Monotone(old(m), m)
      ensures if exited then loop == Exited && done && ready else loop == Outer || loop.Holding?
      ensures Shut(old(m)) ==> exited
    {
      hide Leads, Init;
      Pause(LoopRoutine, from);
      exited := false;
      if loop == Outer {
        if {
        case ctx != Live =>
          LeaveByCtx(from);
          exited := true;
        case stop =>
          LeaveByStop(from);
          exited := true;
        case input != [] =>
          Take(from);
          Pause(LoopRoutine, from);
        case ctx == Live && !stop && input == [] =>
          // blocked
        }
      }
      if !exited && loop.Holding? { exited := Inner(from); }
    }

    method Take(ghost from: State)
      requires Valid() && Leads(from, m) && loop == Outer && input != []
      modifies this
      ensures Valid() && Leads(from, m) && Monotone(old(m), m) && loop.Holding?
    {
      hide Leads, Init;
      loop, input := Holding(input[0]), input[1..];
      Act(LoopTake, from);
    }

    /** The inner select: a message was taken, but shutdown comes first. */
    method Inner(ghost from: State) returns (exited: bool)
      requires Valid() && Leads(from, m) && loop.Holding?
      modifies this
      ensures Valid() && Leads(from, m) && Monotone(old(m), m)
      ensures if exited then loop == Exited && done && ready && Shut(old(m)) && m.executed == old(m).executed
              else loop == Outer && !Shut(old(m)) && m.executed == old(m).executed + [old(loop).m]
    {
      hide Leads, Init;
      if {
      case ctx != Live =>
        LeaveByCtx(from);
        exited := true;
      case stop =>
        LeaveByStop(from);
        exited := true;
      case ctx == Live && !stop =>
        var _, _ := Handle(from);
        exited := false;
      }
    }

    /** `handleCtxErr`, then the deferred close of `done`. */
    method LeaveByCtx(ghost from: State)
      requires Valid() && Leads(from, m) && (loop == Outer || loop.Holding?) && ctx != Live
      modifies this
      ensures Valid() && Leads(from, m) && Gone(old(m), m) && done && ready
    {
      hide Leads, Init;
      state, loop := CtxPhase(ctx), Closing;
      Act(LoopCtx, from);
      CloseDoneChannel(from);
    }

    /** `BeforeStop` under `catchPanic`, then the deferred close of `done`. */
    method LeaveByStop(ghost from: State)
      requires Valid() && Leads(from, m) && (loop == Outer || loop.Holding?) && stop
      modifies this
      ensures Valid() && Leads(from, m) && Gone(old(m), m) && done && ready
    {
      hide Leads, Init;
      loop := InBeforeStop;
      Act(LoopStop, from);
      BeforeStop(from);
      CloseDoneChannel(from);
    }

    method BeforeStop(ghost from: State)
      requires Valid() && Leads(from, m) && loop == InBeforeStop
      modifies this
      ensures Valid() && Leads(from, m) && Monotone(old(m), m) && loop == Closing && m.executed == old(m).executed
    {
      hide Leads, Init;
      Pause(LoopRoutine, from);
      var panics: bool := *;
      if panics { state := Panicked; }
      loop := Closing;
      Act(BeforeStopEnds(panics), from);
    }

    method CloseDoneChannel(ghost from: State)
      requires Valid() && Leads(from, m) && loop == Closing
      modifies this
      ensures Valid() && Leads(from, m) && Gone(old(m), m) && done && ready
    {
      hide Leads, Init;
      Pause(LoopRoutine, from);
      done, loop := true, Exited;
      Act(CloseDone, from);
      LoopFacts(m);
    }

    /** The handler under `catchPanic`, with other goroutines running meanwhile. The state word becomes
        Panicked if the handler panicked, and otherwise is what they left in `before`. */
    method Handle(ghost from: State) returns (panics: bool, ghost before: State)
      requires Valid() && Leads(from, m) && loop.Holding? && ctx == Live && !stop
      modifies this
      ensures Valid() && Leads(from, m) && Monotone(old(m), m) && loop == Outer
      ensures m.executed == old(m).executed + [old(loop).m]
      ensures Leads(from, before) && before.loop == Executing(old(loop).m)
      ensures state == if panics then Panicked else before.phase
    {
      hide Leads, Init;
      loop := Executing(loop.m);
      Act(LoopDefault, from);
      panics, before := HandlerReturns(from);
    }

    method HandlerReturns(ghost from: State) returns (panics: bool, ghost before: State)
      requires Valid() && Leads(from, m) && loop.Executing?
      modifies this
      ensures Valid() && Leads(from, m) && Monotone(old(m), m) && loop == Outer && m.executed == old(m).executed
      ensures Leads(from, before) && before.loop == old(loop)
      ensures state == if panics then Panicked else before.phase
    {
      hide Leads, Init;
      Pause(LoopRoutine, from);
      before := m;
      panics := *;
      if panics { state := Panicked; }
      loop := Outer;
      Act(HandlerEnds(panics), from);
    }
  }

  /** The loop has exited, and ran nothing on the way. */
  predicate Gone(s: State, t: State) { Monotone(s, t) && t.loop == Exited && t.executed == s.executed }

  function CallOf(r: Outcome): Call {
    match r
    case Blocked => Sending
    case Ok => Returned(None)
    case Err(e) => Returned(Some(e))
  }
}
