/** The actor of `pkg/actor/goactor.go` as a transition system.

    One goroutine calls `Start`, one runs the message loop, and any number of goroutines
    call `Receive` and `Stop`. An event is one atomic action of one of them: a load, a
    store or a compare-and-swap of the state word, one channel operation, or the return
    (or panic) of a hook or handler. A `select` is one event per case; which ready case
    fires is not determined. */
module ActorMachine {
  import opened Basics

  /** The state word (`goactor.go:49-77`). */
  datatype Phase = Initialized | Started | Stopping | Done | StoppedWithError | Canceled | Panicked

  /** The context the actor was started with. */
  datatype Ctx = Live | CtxCanceled | CtxDeadline | CtxOther

  datatype RecvError = NilCommand | NotStarted | OnStopped | SenderCtx | RecvTimeout

  /** Where one call of `Receive` is. Calls are numbered; a call's number names its message. */
  datatype Call = Sending | Returned(err: Option<RecvError>)

  /** Where one call of `Stop` is. Only a call whose compare-and-swap succeeded gets past it. */
  datatype Stopper = Won | Waiting | InAfterStop | StopReturned(ok: bool)

  datatype Starter = NotCalled | InBeforeStart | StartReturned

  /** Where the loop goroutine is. */
  datatype Loop =
    | NotLaunched
    | Launched          // before the store of Started
    | MarkReady         // before close(ready)
    | InAfterStart
    | Outer             // at the outer select
    | Holding(m: nat)   // dequeued m, at the inner select
    | Executing(m: nat) // in the handler
    | InBeforeStop
    | Closing           // before close(done)
    | Exited

  /** `winner`, `accepted`, `executed` and `discarded` are history: the stopper whose
      compare-and-swap succeeded, the messages the channel took, those whose handler was
      entered, and the one the inner select threw away. The `…Closes` count channel closes. */
  datatype State = State(
    phase: Phase, ctx: Ctx, cap: nat, timed: bool, buf: seq<nat>,
    stopCloses: nat, doneCloses: nat, readyCloses: nat,
    starter: Starter, loop: Loop,
    calls: map<nat, Call>, stops: map<nat, Stopper>,
    winner: Option<nat>, accepted: seq<nat>, executed: seq<nat>, discarded: seq<nat>)

  function Init(cap: nat, timed: bool): State {
    State(Initialized, Live, cap, timed, [], 0, 0, 0, NotCalled, NotLaunched,
          map[], map[], None, [], [], [])
  }

  datatype Event =
    | StartCheck(providable: bool)
    | BeforeStartEnds(panics: bool)
    | StoreStarted
    | CloseReady
    | AfterStartEnds(panics: bool)
    | CtxEnds(kind: Ctx)
    | LoopCtx
    | LoopStop
    | LoopTake
    | LoopDefault
    | HandlerEnds(panics: bool)
    | BeforeStopEnds(panics: bool)
    | CloseDone
    | RecvLoad(c: nat, isNil: bool)
    | RecvSend(c: nat)
    | RecvHandoff(c: nat)
    | RecvStopped(c: nat)
    | RecvCtx(c: nat)
    | RecvTimer(c: nat)
    | StopCas(t: nat)
    | StopClose(t: nat)
    | StopSawDone(t: nat)
    | StopTimer(t: nat)
    | AfterStopEnds(t: nat, panics: bool)

  predicate IsSending(s: State, c: nat) { c in s.calls && s.calls[c] == Sending }

  predicate StopAt(s: State, t: nat, pc: Stopper) { t in s.stops && s.stops[t] == pc }

  /** The event is an action of a call of `Stop`. */
  predicate OfStopper(e: Event) {
    e.StopCas? || e.StopClose? || e.StopSawDone? || e.StopTimer? || e.AfterStopEnds?
  }

  /** The event is an action of a call of `Receive`. */
  predicate OfReceiver(e: Event) {
    e.RecvLoad? || e.RecvSend? || e.RecvHandoff? || e.RecvStopped? || e.RecvCtx? || e.RecvTimer?
  }

  /** The event is an action of the loop goroutine inside its loop or on the way out of it. */
  predicate OfLoop(e: Event) {
    e.LoopCtx? || e.LoopStop? || e.LoopTake? || e.LoopDefault? || e.HandlerEnds? || e.BeforeStopEnds? || e.CloseDone?
  }

  /** The event leads up to the loop, or ends the actor's context. */
  predicate OfStart(e: Event) { !OfStopper(e) && !OfReceiver(e) && !OfLoop(e) }

  predicate Enabled(s: State, e: Event) {
    if OfStopper(e) then StopEnabled(s, e)
    else if OfReceiver(e) then RecvEnabled(s, e)
    else if OfLoop(e) then LoopEnabled(s, e)
    else StartEnabled(s, e)
  }

  predicate StopEnabled(s: State, e: Event)
    requires OfStopper(e)
  {
    match e
    case StopCas(t) => t !in s.stops
    case StopClose(t) => StopAt(s, t, Won)
    case StopSawDone(t) => StopAt(s, t, Waiting) && s.doneCloses > 0
    case StopTimer(t) => StopAt(s, t, Waiting)
    case AfterStopEnds(t, _) => StopAt(s, t, InAfterStop)
  }

  predicate RecvEnabled(s: State, e: Event)
    requires OfReceiver(e)
  {
    match e
    case RecvLoad(c, _) => c !in s.calls
    case RecvSend(c) => IsSending(s, c) && |s.buf| < s.cap
    case RecvHandoff(c) => IsSending(s, c) && s.buf == [] && s.loop == Outer
    case RecvStopped(c) => IsSending(s, c) && s.stopCloses > 0
    case RecvCtx(c) => IsSending(s, c)
    case RecvTimer(c) => IsSending(s, c) && s.timed
  }

  /** The actions of `Start` and of the loop goroutine up to its loop, and the end of the context. */
  predicate StartEnabled(s: State, e: Event)
    requires OfStart(e)
  {
    match e
    case StartCheck(_) => s.starter == NotCalled && s.phase == Initialized
    case BeforeStartEnds(_) => s.starter == InBeforeStart
    case StoreStarted => s.loop == Launched
    case CloseReady => s.loop == MarkReady
    case AfterStartEnds(_) => s.loop == InAfterStart
    case CtxEnds(kind) => s.ctx == Live && kind != Live
  }

  predicate LoopEnabled(s: State, e: Event)
    requires OfLoop(e)
  {
    match e
    case LoopCtx => (s.loop == Outer || s.loop.Holding?) && s.ctx != Live
    case LoopStop => (s.loop == Outer || s.loop.Holding?) && s.stopCloses > 0
    case LoopTake => s.loop == Outer && s.buf != []
    case LoopDefault => s.loop.Holding? && s.ctx == Live && s.stopCloses == 0
    case HandlerEnds(_) => s.loop.Executing?
    case BeforeStopEnds(_) => s.loop == InBeforeStop
    case CloseDone => s.loop == Closing
  }

  /** `catchPanic`: a recovered panic stores Panicked, a normal return stores nothing. */
  function Caught(phase: Phase, panics: bool): Phase { if panics then Panicked else phase }

  /** What `handleCtxErr` stores for the error the context ended with. */
  function CtxPhase(kind: Ctx): Phase { if kind == CtxCanceled then Canceled else StoppedWithError }

  /** What the state load at the head of `Receive` decides. */
  function Admit(phase: Phase, isNil: bool): Call {
    if isNil then Returned(Some(NilCommand))
    else match phase
      case Started => Sending
      case Initialized => Returned(Some(NotStarted))
      case _ => Returned(Some(OnStopped))
  }

  /** The message the loop holds between its two selects, if any. */
  function Held(loop: Loop): seq<nat> { if loop.Holding? then [loop.m] else [] }

  function Apply(s: State, e: Event): State
    requires Enabled(s, e)
  {
    if OfStopper(e) then ApplyStop(s, e)
    else if OfReceiver(e) then ApplyRecv(s, e)
    else if OfLoop(e) then ApplyLoop(s, e)
    else ApplyStart(s, e)
  }

  function ApplyStop(s: State, e: Event): State
    requires OfStopper(e) && StopEnabled(s, e)
  {
    match e
    case StopCas(t) =>
      if s.phase == Started then s.(phase := Stopping, stops := s.stops[t := Won], winner := Some(t))
      else s.(stops := s.stops[t := StopReturned(false)])
    case StopClose(t) => s.(stopCloses := s.stopCloses + 1, stops := s.stops[t := Waiting])
    case StopSawDone(t) => s.(phase := Done, stops := s.stops[t := InAfterStop])
    case StopTimer(t) => s.(phase := StoppedWithError, stops := s.stops[t := InAfterStop])
    case AfterStopEnds(t, p) => s.(phase := Caught(s.phase, p), stops := s.stops[t := StopReturned(true)])
  }

  function ApplyRecv(s: State, e: Event): State
    requires OfReceiver(e) && RecvEnabled(s, e)
  {
    match e
    case RecvLoad(c, isNil) => s.(calls := s.calls[c := Admit(s.phase, isNil)])
    case RecvSend(c) =>
      s.(calls := s.calls[c := Returned(None)], buf := s.buf + [c], accepted := s.accepted + [c])
    case RecvHandoff(c) =>
      s.(calls := s.calls[c := Returned(None)], loop := Holding(c), accepted := s.accepted + [c])
    case RecvStopped(c) => s.(calls := s.calls[c := Returned(Some(OnStopped))])
    case RecvCtx(c) => s.(calls := s.calls[c := Returned(Some(SenderCtx))])
    case RecvTimer(c) => s.(calls := s.calls[c := Returned(Some(RecvTimeout))])
  }

  function ApplyStart(s: State, e: Event): State
    requires OfStart(e) && StartEnabled(s, e)
  {
    match e
    case StartCheck(providable) => if providable then s.(starter := InBeforeStart) else s
    case BeforeStartEnds(p) => s.(phase := Caught(s.phase, p), starter := StartReturned, loop := Launched)
    case StoreStarted => s.(phase := Started, loop := MarkReady)
    case CloseReady => s.(readyCloses := s.readyCloses + 1, loop := InAfterStart)
    case AfterStartEnds(p) => s.(phase := Caught(s.phase, p), loop := Outer)
    case CtxEnds(kind) => s.(ctx := kind)
  }

  function ApplyLoop(s: State, e: Event): State
    requires OfLoop(e) && LoopEnabled(s, e)
  {
    match e
    case LoopCtx => s.(phase := CtxPhase(s.ctx), loop := Closing, discarded := s.discarded + Held(s.loop))
    case LoopStop => s.(loop := InBeforeStop, discarded := s.discarded + Held(s.loop))
    case LoopTake => s.(loop := Holding(s.buf[0]), buf := s.buf[1..])
    case LoopDefault => s.(loop := Executing(s.loop.m), executed := s.executed + [s.loop.m])
    case HandlerEnds(p) => s.(phase := Caught(s.phase, p), loop := Outer)
    case BeforeStopEnds(p) => s.(phase := Caught(s.phase, p), loop := Closing)
    case CloseDone => s.(doneCloses := s.doneCloses + 1, loop := Exited)
  }

  /** `evs` can happen one after the other from `s`. */
  ghost predicate Runnable(s: State, evs: seq<Event>)
    decreases |evs|
  {
    evs == [] || (Enabled(s, evs[0]) && Runnable(Apply(s, evs[0]), evs[1..]))
  }

  ghost function Exec(s: State, evs: seq<Event>): State
    requires Runnable(s, evs)
    decreases |evs|
  {
    if evs == [] then s else Exec(Apply(s, evs[0]), evs[1..])
  }

  /** `t` is reached from `s` by some run. */
  ghost predicate Leads(s: State, t: State) {
    exists evs :: Runnable(s, evs) && Exec(s, evs) == t
  }

  // ---------------------------------------------------------------- invariants

  /** The loop has not stored Started yet. */
  predicate Unborn(s: State) { s.loop == NotLaunched || s.loop == Launched }

  /** The call's compare-and-swap succeeded. */
  predicate HasWon(pc: Stopper) { pc.Won? || pc.Waiting? || pc.InAfterStop? || pc == StopReturned(true) }

  predicate Final(phase: Phase) {
    phase == Done || phase == StoppedWithError || phase == Canceled || phase == Panicked
  }

  /** The call has stored the state it leaves behind. */
  predicate PastWait(pc: Stopper) { pc == InAfterStop || pc == StopReturned(true) }

  /** The loop's position decides which channels it has closed and what the state word can be. */
  predicate LoopInv(s: State) {
    && (s.loop == NotLaunched <==> s.starter != StartReturned)
    && (Unborn(s) ==> (s.phase == Initialized || s.phase == Panicked) && s.winner == None)
    && (s.starter != StartReturned ==> s.phase == Initialized)
    && (!Unborn(s) ==> s.phase != Initialized)
    && s.readyCloses == (if Unborn(s) || s.loop == MarkReady then 0 else 1)
    && s.doneCloses == (if s.loop == Exited then 1 else 0)
    && (s.phase == Done ==> s.loop == Exited)
  }

  /** At most one call of `Stop` has won its compare-and-swap, and its position decides whether
      `stop` is closed and what the state word can be. */
  ghost predicate StopInv(s: State) {
    && (forall t :: t in s.stops ==> (HasWon(s.stops[t]) <==> s.winner == Some(t)))
    && (s.winner.Some? ==> s.winner.value in s.stops)
    && (s.phase == Started ==> s.winner == None)
    && s.stopCloses == (if s.winner.Some? && s.stops[s.winner.value] != Won then 1 else 0)
    && (s.phase == Stopping ==>
          s.winner.Some? && (s.stops[s.winner.value] == Won || s.stops[s.winner.value] == Waiting))
    && (s.winner.Some? && PastWait(s.stops[s.winner.value]) ==> Final(s.phase))
  }

  ghost predicate LifeInv(s: State) { LoopInv(s) && StopInv(s) }

  /** The messages that ran or are running, the one between the selects or thrown away by
      the inner one, and those still queued. */
  function Pipeline(s: State): seq<nat> { s.executed + Held(s.loop) + s.discarded + s.buf }

  /** Messages: what the channel took is what ran, what is in between, and what is queued. */
  ghost predicate FlowInv(s: State) {
    && s.accepted == Pipeline(s)
    && SizesInv(s)
  }

  /** The messages the channel took are those of the calls of `Receive` that returned nil. */
  ghost predicate TakenInv(s: State) {
    && NoDup(s.accepted)
    && (forall i :: 0 <= i < |s.accepted| ==>
          s.accepted[i] in s.calls && s.calls[s.accepted[i]] == Returned(None))
    && (forall c :: c in s.calls && s.calls[c] == Returned(None) ==> c in s.accepted)
    && (Unborn(s) ==> forall c :: c in s.calls ==> s.calls[c] != Sending)
  }

  ghost predicate Inv(s: State) { LifeInv(s) && FlowInv(s) && TakenInv(s) }

  lemma LoopInvStep(s: State, e: Event)
    requires LifeInv(s) && Enabled(s, e)
    ensures LoopInv(Apply(s, e))
  {
    if OfLoop(e) { LoopKeepsLoopInv(s, e); } else { OthersKeepLoopInv(s, e); }
  }

  lemma LoopKeepsLoopInv(s: State, e: Event)
    requires LoopInv(s) && Enabled(s, e) && OfLoop(e)
    ensures LoopInv(Apply(s, e))
  {
  }

  lemma OthersKeepLoopInv(s: State, e: Event)
    requires LifeInv(s) && Enabled(s, e) && !OfLoop(e)
    ensures LoopInv(Apply(s, e))
  {
  }

  lemma StopperStep(s: State, e: Event)
    requires LifeInv(s) && Enabled(s, e) && OfStopper(e)
    ensures StopInv(Apply(s, e))
  {
    if e.StopCas? { CasStep(s, e); } else { WinnerStep(s, e); }
  }

  lemma CasStep(s: State, e: Event)
    requires LifeInv(s) && Enabled(s, e) && e.StopCas?
    ensures StopInv(Apply(s, e))
  {
  }

  lemma WinnerStep(s: State, e: Event)
    requires LifeInv(s) && Enabled(s, e) && OfStopper(e) && !e.StopCas?
    ensures StopInv(Apply(s, e))
  {
    hide LoopInv;
    assert HasWon(s.stops[e.t]) && s.winner == Some(e.t);
  }

  lemma OthersKeepStopInv(s: State, e: Event)
    requires LifeInv(s) && Enabled(s, e) && !OfStopper(e)
    ensures StopInv(Apply(s, e))
  {
    var t := Apply(s, e);
    assert t.stops == s.stops && t.winner == s.winner && t.stopCloses == s.stopCloses;
    assert t.phase == s.phase || t.phase == Started || Final(t.phase);
  }

  lemma Concat(x: seq<nat>, h: seq<nat>, y: seq<nat>)
    ensures x + h + [] + y == x + [] + h + y == (x + h) + [] + [] + y == x + h + y
  {
  }

  /** The loop's own moves carry a message one place along the pipeline. */
  lemma LoopMovesAlong(s: State, e: Event)
    requires FlowInv(s) && Enabled(s, e)
    requires e == LoopTake || e == LoopDefault || e == LoopCtx || e == LoopStop
    ensures Pipeline(Apply(s, e)) == Pipeline(s)
  {
    if e == LoopTake {
      var m, rest := s.buf[0], s.buf[1..];
      assert s.buf == [m] + rest && s.discarded == [];
      assert Pipeline(s) == s.executed + [] + [] + ([m] + rest) == s.executed + [m] + [] + rest;
    } else if s.loop.Holding? {
      assert s.discarded == [];
      Concat(s.executed, [s.loop.m], s.buf);
    } else {
      assert s.discarded + [] == s.discarded;
    }
  }

  /** The event puts a message into the channel. */
  predicate Takes(e: Event) { e.RecvSend? || e.RecvHandoff? }

  lemma TakesAppend(s: State, e: Event)
    requires FlowInv(s) && Enabled(s, e) && Takes(e)
    ensures Pipeline(Apply(s, e)) == Pipeline(s) + [e.c]
  {
    if e.RecvHandoff? { assert s.discarded == [] && s.buf == []; }
  }

  /** Nothing else touches the pipeline. */
  lemma OthersKeepPipeline(s: State, e: Event)
    requires LifeInv(s) && FlowInv(s) && Enabled(s, e) && !Takes(e)
    requires e != LoopTake && e != LoopDefault && e != LoopCtx && e != LoopStop
    ensures Pipeline(Apply(s, e)) == Pipeline(s)
  {
    var t := Apply(s, e);
    assert t.executed == s.executed && t.discarded == s.discarded && t.buf == s.buf;
    assert Held(t.loop) == Held(s.loop);
  }

  lemma FlowStep(s: State, e: Event)
    requires LifeInv(s) && FlowInv(s) && Enabled(s, e)
    ensures FlowInv(Apply(s, e))
  {
    if Takes(e) { TakesAppend(s, e); }
    else if e == LoopTake || e == LoopDefault || e == LoopCtx || e == LoopStop { LoopMovesAlong(s, e); }
    else { OthersKeepPipeline(s, e); }
    SizesStep(s, e);
  }

  /** The bounds of `FlowInv`. */
  predicate SizesInv(s: State) {
    && |s.buf| <= s.cap
    && |s.discarded| <= 1
    && (s.discarded != [] ==> s.loop == InBeforeStop || s.loop == Closing || s.loop == Exited)
    && (s.loop.Executing? ==> s.executed != [] && s.executed[|s.executed| - 1] == s.loop.m)
  }

  lemma SizesStep(s: State, e: Event)
    requires LoopInv(s) && SizesInv(s) && Enabled(s, e)
    ensures SizesInv(Apply(s, e))
  {
    if OfLoop(e) { LoopSizes(s, e); }
  }

  lemma LoopSizes(s: State, e: Event)
    requires SizesInv(s) && Enabled(s, e) && OfLoop(e)
    ensures SizesInv(Apply(s, e))
  {
  }

  lemma TakenStep(s: State, e: Event)
    requires LifeInv(s) && TakenInv(s) && Enabled(s, e)
    ensures TakenInv(Apply(s, e))
  {
    if Takes(e) { TakeOne(s, e.c, Apply(s, e)); } else { OthersKeepTaken(s, e); }
  }

  lemma OthersKeepTaken(s: State, e: Event)
    requires LifeInv(s) && TakenInv(s) && Enabled(s, e) && !Takes(e)
    ensures TakenInv(Apply(s, e))
  {
    if OfReceiver(e) { RefusedKeepsTaken(s, e); } else { NoCallKeepsTaken(s, e); }
  }

  lemma RefusedKeepsTaken(s: State, e: Event)
    requires LoopInv(s) && TakenInv(s) && Enabled(s, e) && !Takes(e) && OfReceiver(e)
    ensures TakenInv(Apply(s, e))
  {
    var t := Apply(s, e);
    assert (e.RecvLoad? && e.c !in s.calls) || (IsSending(s, e.c) && t.calls[e.c] != Returned(None));
  }

  lemma NoCallKeepsTaken(s: State, e: Event)
    requires LoopInv(s) && TakenInv(s) && Enabled(s, e) && !OfReceiver(e)
    ensures TakenInv(Apply(s, e))
  {
    var t := Apply(s, e);
    assert t.accepted == s.accepted && t.calls == s.calls && (Unborn(t) ==> Unborn(s));
  }

  lemma TakeOne(s: State, c: nat, t: State)
    requires LifeInv(s) && TakenInv(s) && IsSending(s, c)
    requires t.accepted == s.accepted + [c] && t.calls == s.calls[c := Returned(None)]
    requires Unborn(t) ==> Unborn(s)
    ensures TakenInv(t)
  {
    assert c !in s.accepted;
    assert t.accepted[|s.accepted|] == c;
    forall d | d in t.calls && t.calls[d] == Returned(None)
      ensures d in t.accepted
    {
      if d != c { assert d in s.accepted; }
    }
  }

  lemma InitInv(cap: nat, timed: bool)
    ensures Inv(Init(cap, timed))
  {
  }

  lemma StepInv(s: State, e: Event)
    requires Inv(s) && Enabled(s, e)
    ensures Inv(Apply(s, e))
  {
    LoopInvStep(s, e);
    if OfStopper(e) { StopperStep(s, e); } else { OthersKeepStopInv(s, e); }
    FlowStep(s, e);
    TakenStep(s, e);
  }

  /** The invariant holds after every run from a state that has it. */
  lemma {:induction false} InvRun(s: State, evs: seq<Event>)
    requires Inv(s) && Runnable(s, evs)
    ensures Inv(Exec(s, evs))
    decreases |evs|
  {
    if evs != [] {
      StepInv(s, evs[0]);
      InvRun(Apply(s, evs[0]), evs[1..]);
    }
  }

  // ---------------------------------------------------------------- runs

  lemma OneStep(s: State, e: Event)
    requires Enabled(s, e)
    ensures Runnable(s, [e]) && Exec(s, [e]) == Apply(s, e)
  {
    assert [e][1..] == [];
    assert Runnable(Apply(s, e), [e][1..]);
  }

  lemma {:induction false} Then(s: State, evs: seq<Event>, t: State, e: Event) returns (more: seq<Event>)
    requires Runnable(s, evs) && Exec(s, evs) == t && Enabled(t, e)
    ensures more == evs + [e] && Runnable(s, more) && Exec(s, more) == Apply(t, e)
    decreases |evs|
  {
    more := evs + [e];
    if evs == [] {
      OneStep(s, e);
      assert more == [e];
    } else {
      var rest := Then(Apply(s, evs[0]), evs[1..], t, e);
      assert more[0] == evs[0] && more[1..] == rest;
    }
  }

  lemma {:induction false} ExecAppend(s: State, a: seq<Event>, b: seq<Event>)
    requires Runnable(s, a) && Runnable(Exec(s, a), b)
    ensures Runnable(s, a + b) && Exec(s, a + b) == Exec(Exec(s, a), b)
    decreases |a|
  {
    if a == [] {
      assert a + b == b;
    } else {
      assert (a + b)[0] == a[0] && (a + b)[1..] == a[1..] + b;
      ExecAppend(Apply(s, a[0]), a[1..], b);
    }
  }

  lemma LeadsRefl(s: State)
    ensures Leads(s, s)
  {
    assert Runnable(s, []) && Exec(s, []) == s;
  }

  lemma LeadsTrans(s: State, t: State, u: State)
    requires Leads(s, t) && Leads(t, u)
    ensures Leads(s, u)
  {
    var a :| Runnable(s, a) && Exec(s, a) == t;
    var b :| Runnable(t, b) && Exec(t, b) == u;
    ExecAppend(s, a, b);
  }
}
