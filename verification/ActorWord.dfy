/** What the state word, the answers of `Receive` and the hooks of `pkg/actor/goactor.go` are after any
    run, told from the events of the run alone. */
module ActorWord {
  import opened Basics
  import opened ActorMachine
  import opened ActorTheorems

  // ---------------------------------------------------------------- the state word

  /** A hook or handler ended in a panic. */
  predicate Panics(e: Event) {
    (e.BeforeStartEnds? || e.AfterStartEnds? || e.HandlerEnds? || e.BeforeStopEnds? || e.AfterStopEnds?) && e.panics
  }

  /** The event stores into the state word, `winner` being the stopper whose compare-and-swap succeeded. */
  predicate Storing(e: Event, winner: Option<nat>) {
    || e.StoreStarted? || e.LoopCtx? || e.StopSawDone? || e.StopTimer? || Panics(e)
    || (e.StopCas? && winner == Some(e.t))
  }

  /** The state that a storing event names; a done context is told by its error. */
  function Named(e: Event, ctx: Ctx): Phase {
    if e.StoreStarted? then Started
    else if e.StopCas? then Stopping
    else if e.StopSawDone? then Done
    else if e.StopTimer? then StoppedWithError
    else if Panics(e) then Panicked
    else if ctx == CtxCanceled then Canceled
    else StoppedWithError
  }

  /** Event `k` is the last of the run that stores. */
  predicate LastStored(evs: seq<Event>, winner: Option<nat>, k: int) {
    && 0 <= k < |evs| && Storing(evs[k], winner)
    && forall j :: k < j < |evs| ==> !Storing(evs[j], winner)
  }

  /** The state word is what the last storing event named. */
  ghost predicate Tells(evs: seq<Event>, s: State) {
    && (forall k :: LastStored(evs, s.winner, k) ==> s.phase == Named(evs[k], s.ctx))
    && ((forall k :: 0 <= k < |evs| ==> !Storing(evs[k], s.winner)) ==> s.phase == Initialized)
  }

  /** Calls of `Stop` are known by their compare-and-swap, and a loop leaves by the context only when it is done. */
  ghost predicate Known(evs: seq<Event>, s: State) {
    && (forall k :: 0 <= k < |evs| && evs[k].StopCas? ==> evs[k].t in s.stops)
    && (forall k :: 0 <= k < |evs| && evs[k].LoopCtx? ==> s.ctx != Live)
  }

  /** One step stores what it names, and nothing else touches the state word, the winner or a done context. */
  ghost predicate StoresOnly(s: State, e: Event, t: State) {
    && t.phase == (if Storing(e, t.winner) then Named(e, t.ctx) else s.phase)
    && (s.ctx != Live ==> t.ctx == s.ctx)
    && (t.winner == s.winner || (s.winner == None && e.StopCas? && t.winner == Some(e.t)))
  }

  lemma StoreStep(s: State, e: Event)
    requires LifeInv(s) && Enabled(s, e)
    ensures StoresOnly(s, e, Apply(s, e))
  {
    if OfStopper(e) { StopperStore(s, e); }
    else if OfLoop(e) { LoopStore(s, e); }
  }

  lemma StopperStore(s: State, e: Event)
    requires LifeInv(s) && Enabled(s, e) && OfStopper(e)
    ensures StoresOnly(s, e, Apply(s, e))
  {
  }

  lemma LoopStore(s: State, e: Event)
    requires Enabled(s, e) && OfLoop(e)
    ensures StoresOnly(s, e, Apply(s, e))
  {
  }

  lemma KnownNow(s: State, e: Event)
    requires Enabled(s, e)
    ensures var t := Apply(s, e);
      && s.stops.Keys <= t.stops.Keys && (e.StopCas? ==> e.t in t.stops && e.t !in s.stops)
      && (e.LoopCtx? ==> t.ctx != Live) && (s.ctx != Live ==> t.ctx != Live)
  {
  }

  /** What the events before `e` store is the same, seen before it or after it. */
  lemma SameStoring(evs: seq<Event>, s: State, e: Event, t: State)
    requires Known(evs, s) && StoresOnly(s, e, t) && (e.StopCas? ==> e.t !in s.stops)
    ensures forall k :: 0 <= k < |evs| ==> (Storing(evs[k], t.winner) <==> Storing(evs[k], s.winner))
    ensures forall k :: 0 <= k < |evs| && Storing(evs[k], s.winner) ==> Named(evs[k], t.ctx) == Named(evs[k], s.ctx)
  {
  }

  lemma TellsStep(evs: seq<Event>, s: State, e: Event)
    requires LifeInv(s) && Tells(evs, s) && Known(evs, s) && Enabled(s, e)
    ensures Tells(evs + [e], Apply(s, e)) && Known(evs + [e], Apply(s, e))
  {
    hide Enabled, Apply, LifeInv, Named, Storing;
    var t := Apply(s, e);
    StoreStep(s, e);
    KnownNow(s, e);
    SameStoring(evs, s, e, t);
    forall k | LastStored(evs + [e], t.winner, k) ensures t.phase == Named((evs + [e])[k], t.ctx) {
      LastBefore(evs, s.winner, e, t.winner, k);
    }
    if forall k :: 0 <= k < |evs + [e]| ==> !Storing((evs + [e])[k], t.winner) {
      assert !Storing((evs + [e])[|evs|], t.winner);
      assert forall k :: 0 <= k < |evs| ==> (evs + [e])[k] == evs[k];
    }
  }

  lemma LastBefore(evs: seq<Event>, w: Option<nat>, e: Event, w': Option<nat>, k: int)
    requires forall k :: 0 <= k < |evs| ==> (Storing(evs[k], w') <==> Storing(evs[k], w))
    requires LastStored(evs + [e], w', k)
    ensures if Storing(e, w') then k == |evs| else k < |evs| && LastStored(evs, w, k)
  {
    hide Storing;
    var u := evs + [e];
    assert u[|evs|] == e && forall j :: 0 <= j < |evs| ==> u[j] == evs[j];
  }

  lemma {:induction false} TellsRun(done: seq<Event>, s: State, evs: seq<Event>)
    requires Inv(s) && Tells(done, s) && Known(done, s) && Runnable(s, evs)
    ensures Tells(done + evs, Exec(s, evs))
    decreases |evs|
  {
    hide Tells, Known, Enabled, Apply;
    if evs == [] {
      assert done + evs == done;
    } else {
      assert done + evs == (done + [evs[0]]) + evs[1..];
      TellsStep(done, s, evs[0]);
      StepInv(s, evs[0]);
      TellsRun(done + [evs[0]], Apply(s, evs[0]), evs[1..]);
    }
  }

  lemma {:induction false} SomeLast(evs: seq<Event>, winner: Option<nat>, k: nat) returns (l: nat)
    requires k < |evs| && Storing(evs[k], winner)
    ensures LastStored(evs, winner, l)
    decreases |evs| - k
  {
    hide Storing;
    if j: nat :| k < j < |evs| && Storing(evs[j], winner) {
      l := SomeLast(evs, winner, j);
    } else {
      l := k;
    }
  }

  /** The state word. After any run from a new actor it is what the last storing event of the run
      named: the store of Started, the compare-and-swap that won, the two stores of its stopper, the
      store of a loop that saw its context done, or the recovery of a hook or handler that panicked;
      without such an event it is Initialized. So it is Panicked exactly when that event is a panic. */
  lemma WordIsLastStored(cap: nat, timed: bool, evs: seq<Event>)
    requires Runnable(Init(cap, timed), evs)
    ensures Tells(evs, Exec(Init(cap, timed), evs))
    ensures var s := Exec(Init(cap, timed), evs);
      s.phase == Panicked <==> exists k :: LastStored(evs, s.winner, k) && Panics(evs[k])
  {
    hide Tells, Runnable, Exec;
    var s := Exec(Init(cap, timed), evs);
    InitInv(cap, timed);
    assert Tells([], Init(cap, timed)) by { NothingStored(cap, timed); }
    TellsRun([], Init(cap, timed), evs);
    assert [] + evs == evs;
    PanickedIff(evs, s);
  }

  lemma NothingStored(cap: nat, timed: bool)
    ensures Tells([], Init(cap, timed))
  {
  }

  lemma PanickedIff(evs: seq<Event>, s: State)
    requires Tells(evs, s)
    ensures s.phase == Panicked <==> exists k :: LastStored(evs, s.winner, k) && Panics(evs[k])
  {
    if s.phase == Panicked {
      var k: nat :| k < |evs| && Storing(evs[k], s.winner);
      var l := SomeLast(evs, s.winner, k);
      assert LastStored(evs, s.winner, l) && s.phase == Named(evs[l], s.ctx);
    }
  }

  // ---------------------------------------------------------------- an actor left alone

  /** Nothing panics, nobody calls `Stop`, and the context does not end. */
  predicate LeavesAlone(e: Event) { !Panics(e) && !e.StopCas? && !e.CtxEnds? }

  predicate Alone(s: State) {
    && s.ctx == Live && s.stops == map[] && s.stopCloses == 0 && !OnItsWayOut(s.loop)
    && s.phase == (if Unborn(s) then Initialized else Started)
  }

  predicate OnItsWayOut(loop: Loop) { loop == InBeforeStop || loop == Closing || loop == Exited }

  lemma AloneStep(s: State, e: Event)
    requires Alone(s) && LoopInv(s) && Enabled(s, e) && LeavesAlone(e)
    ensures Alone(Apply(s, e))
  {
  }

  lemma {:induction false} AloneRun(s: State, evs: seq<Event>)
    requires Inv(s) && Alone(s) && Runnable(s, evs) && forall e <- evs :: LeavesAlone(e)
    ensures Alone(Exec(s, evs))
    decreases |evs|
  {
    if evs != [] {
      assert LeavesAlone(evs[0]) && forall e <- evs[1..] :: e in evs;
      AloneStep(s, evs[0]);
      StepInv(s, evs[0]);
      AloneRun(Apply(s, evs[0]), evs[1..]);
    }
  }

  /** An actor whose hooks and handlers never panic, that nobody stops and whose context lives is
      Started once its loop goroutine has stored it, lets every later `Receive` into its select and
      every later `Stop` win. */
  lemma UndisturbedIsStarted(cap: nat, timed: bool, evs: seq<Event>, e: Event)
    requires Runnable(Init(cap, timed), evs) && forall e <- evs :: LeavesAlone(e)
    requires var s := Exec(Init(cap, timed), evs); !Unborn(s) && Enabled(s, e)
    ensures var s := Exec(Init(cap, timed), evs);
      && s.phase == Started
      && (e.RecvLoad? && !e.isNil ==> IsSending(Apply(s, e), e.c))
      && (e.StopCas? ==> StopAt(Apply(s, e), e.t, Won))
  {
    InitInv(cap, timed);
    AloneRun(Init(cap, timed), evs);
  }

  // ---------------------------------------------------------------- the answers of `Receive`

  /** The state word that event `k` of the run from `i` found. */
  ghost function WordAt(i: State, evs: seq<Event>, k: int): Phase {
    if 0 <= k <= |evs| && Runnable(i, evs[..k]) then Exec(i, evs[..k]).phase else Initialized
  }

  /** Event `e`, that found the state word `word`, makes call `c` return `err`. */
  predicate Explains(err: Option<RecvError>, e: Event, word: Phase, c: nat) {
    match err
    case None => e == RecvSend(c) || e == RecvHandoff(c)
    case Some(NilCommand) => e == RecvLoad(c, true)
    case Some(NotStarted) => e == RecvLoad(c, false) && word == Initialized
    case Some(OnStopped) => e == RecvStopped(c) || (e == RecvLoad(c, false) && word != Initialized && word != Started)
    case Some(SenderCtx) => e == RecvCtx(c)
    case Some(RecvTimeout) => e == RecvTimer(c)
  }

  predicate HasReturned(s: State, c: nat, err: Option<RecvError>) { c in s.calls && s.calls[c] == Returned(err) }

  ghost predicate ExplainedIn(i: State, evs: seq<Event>, c: nat, err: Option<RecvError>) {
    exists k :: 0 <= k < |evs| && Explains(err, evs[k], WordAt(i, evs, k), c)
  }

  lemma AnswerStep(s: State, e: Event, c: nat, err: Option<RecvError>)
    requires Enabled(s, e)
    ensures HasReturned(Apply(s, e), c, err) <==> HasReturned(s, c, err) || Explains(err, e, s.phase, c)
  {
    if OfReceiver(e) { ReceiverAnswers(s, e, c, err); }
  }

  lemma ReceiverAnswers(s: State, e: Event, c: nat, err: Option<RecvError>)
    requires Enabled(s, e) && OfReceiver(e)
    ensures HasReturned(Apply(s, e), c, err) <==> HasReturned(s, c, err) || Explains(err, e, s.phase, c)
  {
  }

  lemma {:induction false} AnswerRun(
      i: State, done: seq<Event>, s: State, evs: seq<Event>, c: nat, err: Option<RecvError>)
    requires Runnable(i, done) && Exec(i, done) == s && Runnable(s, evs)
    requires HasReturned(s, c, err) <==> ExplainedIn(i, done, c, err)
    ensures HasReturned(Exec(s, evs), c, err) <==> ExplainedIn(i, done + evs, c, err)
    decreases |evs|
  {
    hide ExplainedIn, HasReturned, Enabled, Apply;
    if evs == [] {
      assert done + evs == done;
    } else {
      assert done + evs == (done + [evs[0]]) + evs[1..];
      AnswerStep(s, evs[0], c, err);
      MoreExplained(i, done, s, evs[0], c, err);
      var more := Then(i, done, s, evs[0]);
      AnswerRun(i, done + [evs[0]], Apply(s, evs[0]), evs[1..], c, err);
    }
  }

  lemma MoreExplained(i: State, done: seq<Event>, s: State, e: Event, c: nat, err: Option<RecvError>)
    requires Runnable(i, done) && Exec(i, done) == s
    ensures ExplainedIn(i, done + [e], c, err) <==> ExplainedIn(i, done, c, err) || Explains(err, e, s.phase, c)
  {
    hide Explains, Runnable, Exec;
    var more := done + [e];
    assert more[..|done|] == done;
    assert WordAt(i, more, |done|) == s.phase && more[|done|] == e;
    forall k | 0 <= k < |done| ensures WordAt(i, more, k) == WordAt(i, done, k) && more[k] == done[k] {
      assert more[..k] == done[..k];
    }
  }

  /** The answers of `Receive`, each with its exact condition: a call has returned nil exactly when the
      channel took its message; that the command is nil, or that the actor is not started, exactly
      when its load found that; that the actor is stopped exactly when its load found a state past
      Started or its select saw `stop` closed; and its own context's or the timer's error exactly
      when its select took that case. */
  lemma ReceiveAnswers(cap: nat, timed: bool, evs: seq<Event>, c: nat, err: Option<RecvError>)
    requires Runnable(Init(cap, timed), evs)
    ensures HasReturned(Exec(Init(cap, timed), evs), c, err) <==> ExplainedIn(Init(cap, timed), evs, c, err)
  {
    assert [] + evs == evs;
    AnswerRun(Init(cap, timed), [], Init(cap, timed), evs, c, err);
  }

  /** A blocked `Receive` can always be freed: by room or a receiving loop, by `stop`, by its own
      context, and by a timer exactly when the actor has one. */
  lemma SelectIsOpen(s: State, c: nat)
    requires IsSending(s, c)
    ensures |s.buf| < s.cap ==> Enabled(s, RecvSend(c))
    ensures s.stopCloses > 0 ==> Enabled(s, RecvStopped(c))
    ensures Enabled(s, RecvCtx(c)) && (Enabled(s, RecvTimer(c)) <==> s.timed)
  {
  }

  // ---------------------------------------------------------------- hooks and handlers

  /** What an event says of the way the actor goes: a hook ended, or the loop saw why to leave. */
  datatype Mark = BeforeStartRan | AfterStartRan | BeforeStopRan | SawContext | SawStop

  function MarkOf(e: Event): Option<Mark> {
    match e
    case BeforeStartEnds(_) => Some(BeforeStartRan)
    case AfterStartEnds(_) => Some(AfterStartRan)
    case BeforeStopEnds(_) => Some(BeforeStopRan)
    case LoopCtx => Some(SawContext)
    case LoopStop => Some(SawStop)
    case _ => None
  }

  ghost predicate Happened(evs: seq<Event>, mark: Mark) {
    exists k :: 0 <= k < |evs| && MarkOf(evs[k]) == Some(mark)
  }

  ghost predicate AfterStopRan(evs: seq<Event>, t: nat) {
    exists k :: 0 <= k < |evs| && evs[k].AfterStopEnds? && evs[k].t == t
  }

  function HandlersEnded(evs: seq<Event>): nat {
    if evs == [] then 0
    else HandlersEnded(evs[..|evs| - 1]) + (if evs[|evs| - 1].HandlerEnds? then 1 else 0)
  }

  ghost predicate MarksOk(evs: seq<Event>, s: State) {
    && (Happened(evs, BeforeStartRan) <==> s.starter == StartReturned)
    && (Happened(evs, AfterStartRan) <==> !Unborn(s) && s.loop != MarkReady && s.loop != InAfterStart)
    && (Happened(evs, SawContext) || Happened(evs, SawStop) <==> OnItsWayOut(s.loop))
    && !(Happened(evs, SawContext) && Happened(evs, SawStop))
    && (s.loop == InBeforeStop ==> Happened(evs, SawStop))
    && (Happened(evs, BeforeStopRan) <==> Happened(evs, SawStop) && s.loop != InBeforeStop)
  }

  /** The handler ended once for every executed message but the one that it is at. */
  predicate HandlersOk(evs: seq<Event>, s: State) {
    HandlersEnded(evs) + (if s.loop.Executing? then 1 else 0) == |s.executed|
  }

  lemma OneMoreMark(evs: seq<Event>, e: Event, mark: Mark)
    ensures Happened(evs + [e], mark) <==> Happened(evs, mark) || MarkOf(e) == Some(mark)
  {
    assert (evs + [e])[|evs|] == e;
    if Happened(evs, mark) {
      var k :| 0 <= k < |evs| && MarkOf(evs[k]) == Some(mark);
      assert (evs + [e])[k] == evs[k];
    }
  }

  lemma MarksStep(evs: seq<Event>, s: State, e: Event)
    requires LoopInv(s) && MarksOk(evs, s) && Enabled(s, e)
    ensures MarksOk(evs + [e], Apply(s, e))
  {
    hide Happened;
    OneMoreMark(evs, e, BeforeStartRan);
    OneMoreMark(evs, e, AfterStartRan);
    OneMoreMark(evs, e, BeforeStopRan);
    OneMoreMark(evs, e, SawContext);
    OneMoreMark(evs, e, SawStop);
  }

  lemma HandlersStep(evs: seq<Event>, s: State, e: Event)
    requires LoopInv(s) && HandlersOk(evs, s) && Enabled(s, e)
    ensures HandlersOk(evs + [e], Apply(s, e))
  {
    assert (evs + [e])[..|evs|] == evs;
    HandlerShape(s, e);
  }

  lemma HandlerShape(s: State, e: Event)
    requires LoopInv(s) && Enabled(s, e)
    ensures var t := Apply(s, e);
      |t.executed| - |s.executed| + (if s.loop.Executing? then 1 else 0)
        == (if t.loop.Executing? then 1 else 0) + (if e.HandlerEnds? then 1 else 0)
  {
  }

  lemma AfterStopStep(evs: seq<Event>, s: State, e: Event, t: nat)
    requires Enabled(s, e) && (AfterStopRan(evs, t) <==> StopAt(s, t, StopReturned(true)))
    ensures AfterStopRan(evs + [e], t) <==> StopAt(Apply(s, e), t, StopReturned(true))
  {
    AfterStopNow(s, e, t);
    assert (evs + [e])[|evs|] == e;
    if AfterStopRan(evs, t) {
      var k :| 0 <= k < |evs| && evs[k].AfterStopEnds? && evs[k].t == t;
      assert (evs + [e])[k] == evs[k];
    }
  }

  lemma AfterStopNow(s: State, e: Event, t: nat)
    requires Enabled(s, e)
    ensures StopAt(Apply(s, e), t, StopReturned(true))
      <==> StopAt(s, t, StopReturned(true)) || (e.AfterStopEnds? && e.t == t)
  {
  }

  lemma {:induction false} HooksRun(done: seq<Event>, s: State, evs: seq<Event>, t: nat)
    requires Inv(s) && Runnable(s, evs) && MarksOk(done, s) && HandlersOk(done, s)
    requires AfterStopRan(done, t) <==> StopAt(s, t, StopReturned(true))
    ensures var u := Exec(s, evs);
      && MarksOk(done + evs, u) && HandlersOk(done + evs, u)
      && (AfterStopRan(done + evs, t) <==> StopAt(u, t, StopReturned(true)))
    decreases |evs|
  {
    hide MarksOk, HandlersOk, AfterStopRan, Enabled, Apply, StopAt;
    if evs == [] {
      assert done + evs == done;
    } else {
      assert done + evs == (done + [evs[0]]) + evs[1..];
      MarksStep(done, s, evs[0]);
      HandlersStep(done, s, evs[0]);
      AfterStopStep(done, s, evs[0], t);
      StepInv(s, evs[0]);
      HooksRun(done + [evs[0]], Apply(s, evs[0]), evs[1..], t);
    }
  }

  /** The hooks. After any run from a new actor: `BeforeStart` has run exactly when `Start` has returned,
      `AfterStart` exactly when the loop has come to its selects; a loop that left saw `stop` or its
      context, not both, and ran `BeforeStop` exactly when it saw `stop`; `AfterStop` has run for
      exactly the stopper that returned nil; and the handler ran once for every executed message. */
  lemma HooksRan(cap: nat, timed: bool, evs: seq<Event>, t: nat)
    requires Runnable(Init(cap, timed), evs)
    ensures var s := Exec(Init(cap, timed), evs);
      && MarksOk(evs, s) && HandlersOk(evs, s)
      && (AfterStopRan(evs, t) <==> StopAt(s, t, StopReturned(true)))
  {
    InitInv(cap, timed);
    assert [] + evs == evs;
    HooksRun([], Init(cap, timed), evs, t);
  }
}
