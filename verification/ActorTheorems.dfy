/** What `pkg/actor/goactor.go` keeps over every run, for any number of senders and stoppers. */
module ActorTheorems {
  import opened Basics
  import opened ActorMachine

  ghost predicate Reachable(s: State) {
    exists cap: nat, timed: bool :: Leads(Init(cap, timed), s)
  }

  lemma ReachableInv(s: State)
    requires Reachable(s)
    ensures Inv(s)
  {
    var cap: nat, timed: bool :| Leads(Init(cap, timed), s);
    var evs :| Runnable(Init(cap, timed), evs) && Exec(Init(cap, timed), evs) == s;
    InitInv(cap, timed);
    InvRun(Init(cap, timed), evs);
  }

  // ---------------------------------------------------------------- messages

  /** Every message the channel took has run or is running, is the one the loop holds or threw
      away, or is still queued, in the order of acceptance; a call of `Receive` that returned an
      error was never executed, and no message is executed twice. */
  lemma MessageConservation(s: State)
    requires Reachable(s)
    ensures s.accepted == s.executed + Held(s.loop) + s.discarded + s.buf
    ensures |Held(s.loop) + s.discarded| <= 1 && |s.buf| <= s.cap
    ensures NoDup(s.executed)
    ensures forall c :: c in s.calls && s.calls[c] == Returned(None) <==> c in s.accepted
    ensures forall c :: c in s.calls && s.calls[c] != Returned(None) ==> c !in s.executed
  {
    ReachableInv(s);
    forall i, j | 0 <= i < j < |s.executed| ensures s.executed[i] != s.executed[j] {
      assert s.accepted[i] == s.executed[i] && s.accepted[j] == s.executed[j];
    }
    forall c | c in s.executed ensures c in s.accepted {
      var i :| 0 <= i < |s.executed| && s.executed[i] == c;
      assert s.accepted[i] == c;
    }
    if Held(s.loop) != [] && s.discarded != [] { assert false; }
  }

  lemma HistoryStep(s: State, e: Event)
    requires Enabled(s, e)
    ensures s.accepted <= Apply(s, e).accepted && s.executed <= Apply(s, e).executed
  {
  }

  /** History only grows: a run appends to what was accepted and to what was executed. */
  lemma {:induction false} HistoryGrows(s: State, evs: seq<Event>)
    requires Runnable(s, evs)
    ensures s.accepted <= Exec(s, evs).accepted
    ensures s.executed <= Exec(s, evs).executed
    decreases |evs|
  {
    if evs != [] { HistoryStep(s, evs[0]); HistoryGrows(Apply(s, evs[0]), evs[1..]); }
  }

  /** The state word has left Started for good. */
  predicate Left(s: State) { !Unborn(s) && s.phase != Started }

  lemma LeftStep(s: State, e: Event)
    requires LoopInv(s) && Left(s) && Enabled(s, e)
    ensures Left(Apply(s, e))
  {
  }

  lemma {:induction false} StaysLeft(s: State, evs: seq<Event>)
    requires Inv(s) && Left(s) && Runnable(s, evs)
    ensures Left(Exec(s, evs))
    decreases |evs|
  {
    if evs != [] { StepInv(s, evs[0]); LeftStep(s, evs[0]); StaysLeft(Apply(s, evs[0]), evs[1..]); }
  }

  /** Between `s` and `t` no call entered its select, and only calls that were in it got a message in. */
  ghost predicate OnlySendersOf(s: State, t: State) {
    && (forall c :: IsSending(t, c) ==> IsSending(s, c))
    && s.accepted <= t.accepted
    && (forall i :: |s.accepted| <= i < |t.accepted| ==> IsSending(s, t.accepted[i]))
  }

  lemma FrozenStep(s: State, e: Event)
    requires Inv(s) && Left(s) && Enabled(s, e)
    ensures Left(Apply(s, e)) && OnlySendersOf(s, Apply(s, e))
  {
    LeftStep(s, e);
  }

  lemma OnlySendersTrans(s: State, t: State, u: State)
    requires OnlySendersOf(s, t) && OnlySendersOf(t, u)
    ensures OnlySendersOf(s, u)
  {
    forall i | |s.accepted| <= i < |u.accepted| ensures IsSending(s, u.accepted[i]) {
      if i < |t.accepted| { assert u.accepted[i] == t.accepted[i]; }
    }
  }

  /** Once the state word has left Started, only the calls that had already loaded Started and
      are still in their select can get a message in: nobody joins them, and when none is left
      the accepted sequence never changes again. */
  lemma {:induction false} FrozenIntake(s: State, evs: seq<Event>)
    requires Inv(s) && Left(s) && Runnable(s, evs)
    ensures OnlySendersOf(s, Exec(s, evs))
    ensures (forall c :: !IsSending(s, c)) ==> Exec(s, evs).accepted == s.accepted
    decreases |evs|
  {
    var u := Exec(s, evs);
    if evs != [] {
      var t := Apply(s, evs[0]);
      StepInv(s, evs[0]);
      FrozenStep(s, evs[0]);
      FrozenIntake(t, evs[1..]);
      OnlySendersTrans(s, t, u);
    }
    if |u.accepted| > |s.accepted| { assert IsSending(s, u.accepted[|s.accepted|]); }
  }

  // ---------------------------------------------------------------- shutdown

  /** `stop` is closed or the actor's context is done. */
  predicate Shut(s: State) { s.stopCloses > 0 || s.ctx != Live }

  /** After shutdown begins no message passes the inner select, whichever case the outer one picks. */
  lemma {:induction false} CutOff(s: State, evs: seq<Event>)
    requires Shut(s) && Runnable(s, evs)
    ensures Shut(Exec(s, evs)) && Exec(s, evs).executed == s.executed
    decreases |evs|
  {
    if evs != [] { CutOff(Apply(s, evs[0]), evs[1..]); }
  }

  /** A message is thrown away only by a loop that is shutting down. */
  lemma {:induction false} DiscardsOnlyWhenShut(s: State, evs: seq<Event>)
    requires s.discarded == [] && Runnable(s, evs) && !Shut(Exec(s, evs))
    ensures Exec(s, evs).discarded == []
    decreases |evs|
  {
    if evs != [] {
      var t := Apply(s, evs[0]);
      if Shut(t) { CutOff(t, evs[1..]); }
      DiscardsOnlyWhenShut(t, evs[1..]);
    }
  }

  /** How many more actions the loop goroutine can take once shutdown has begun. */
  function Rank(loop: Loop): nat {
    match loop
    case NotLaunched => 9
    case Launched => 8
    case MarkReady => 7
    case InAfterStart => 6
    case Executing(_) => 5
    case Outer => 4
    case Holding(_) => 3
    case InBeforeStop => 2
    case Closing => 1
    case Exited => 0
  }

  /** The event moves the loop goroutine (a hand-off completes its receive). */
  predicate MovesLoop(e: Event) {
    match e
    case BeforeStartEnds(_) | StoreStarted | CloseReady | AfterStartEnds(_) => true
    case LoopCtx | LoopStop | LoopTake | LoopDefault => true
    case HandlerEnds(_) | BeforeStopEnds(_) | CloseDone | RecvHandoff(_) => true
    case _ => false
  }

  function LoopMoves(evs: seq<Event>): nat {
    if evs == [] then 0 else (if MovesLoop(evs[0]) then 1 else 0) + LoopMoves(evs[1..])
  }

  lemma RankStep(s: State, e: Event)
    requires LifeInv(s) && Shut(s) && Enabled(s, e)
    ensures Shut(Apply(s, e))
    ensures Rank(Apply(s, e).loop) + (if MovesLoop(e) then 1 else 0) <= Rank(s.loop)
  {
    if OfLoop(e) { LoopLowersRank(s, e); }
  }

  lemma LoopLowersRank(s: State, e: Event)
    requires Shut(s) && Enabled(s, e) && OfLoop(e)
    ensures Shut(Apply(s, e))
    ensures Rank(Apply(s, e).loop) < Rank(s.loop)
  {
  }

  /** Once shutdown has begun every action of the loop strictly lowers its rank and nothing
      raises it, so in any continuation it takes at most that many actions. */
  lemma {:induction false} ShutdownTerminates(s: State, evs: seq<Event>)
    requires Inv(s) && Shut(s) && Runnable(s, evs)
    ensures LoopMoves(evs) + Rank(Exec(s, evs).loop) <= Rank(s.loop)
    decreases |evs|
  {
    if evs != [] {
      var t := Apply(s, evs[0]);
      StepInv(s, evs[0]);
      RankStep(s, evs[0]);
      ShutdownTerminates(t, evs[1..]);
    }
  }

  /** The loop is never stuck on the way out: until `done` is closed it has an action of its own. */
  lemma ShutdownProgresses(s: State) returns (e: Event)
    requires Inv(s) && Shut(s) && s.starter == StartReturned
    ensures s.doneCloses == 0 ==> MovesLoop(e) && Enabled(s, e)
    ensures s.doneCloses == 0 || s.loop == Exited
  {
    match s.loop
    case NotLaunched | Launched | Exited => e := StoreStarted;
    case MarkReady => e := CloseReady;
    case InAfterStart => e := AfterStartEnds(false);
    case Outer | Holding(_) => e := if s.ctx != Live then LoopCtx else LoopStop;
    case Executing(_) => e := HandlerEnds(false);
    case InBeforeStop => e := BeforeStopEnds(false);
    case Closing => e := CloseDone;
  }

  // ---------------------------------------------------------------- lifecycle

  /** In every reachable state at most one `Stop` has won its compare-and-swap, no channel was
      closed twice, Stopping means a stopper is under way, and Done means the loop has exited. */
  lemma LifecycleInvariant(s: State)
    requires Reachable(s)
    ensures forall t, u :: t in s.stops && HasWon(s.stops[t]) && u in s.stops && HasWon(s.stops[u]) ==> t == u
    ensures s.stopCloses <= 1 && s.doneCloses <= 1 && s.readyCloses <= 1
    ensures s.phase == Stopping ==> exists t :: StopAt(s, t, Won) || StopAt(s, t, Waiting)
    ensures s.phase == Done ==> s.loop == Exited && s.doneCloses == 1
    ensures s.phase == Started ==> s.stopCloses == 0 && s.readyCloses + (if s.loop == MarkReady then 1 else 0) == 1
  {
    ReachableInv(s);
    if s.phase == Stopping {
      assert StopAt(s, s.winner.value, Won) || StopAt(s, s.winner.value, Waiting);
    }
  }

  /** Started is entered once: a launched actor that has left it never returns, so every later
      `Stop` returns the state-mismatch error and every later `Receive` an error. */
  lemma StartedNotReentered(s: State, evs: seq<Event>, e: Event)
    requires Inv(s) && Left(s) && Runnable(s, evs)
    requires Enabled(Exec(s, evs), e)
    ensures Exec(s, evs).phase != Started
    ensures e.StopCas? ==> Apply(Exec(s, evs), e).stops[e.t] == StopReturned(false)
    ensures e.RecvLoad? ==>
      Apply(Exec(s, evs), e).calls[e.c] == Returned(Some(if e.isNil then NilCommand else OnStopped))
  {
    StaysLeft(s, evs);
    InvRun(s, evs);
  }

  lemma {:induction false} ReturnedStays(s: State, evs: seq<Event>, t: nat)
    requires StopAt(s, t, StopReturned(true)) && Runnable(s, evs)
    ensures StopAt(Exec(s, evs), t, StopReturned(true))
    decreases |evs|
  {
    if evs != [] { ReturnedStays(Apply(s, evs[0]), evs[1..], t); }
  }

  /** After the winning `Stop` returned, whatever the loop, its hooks and late handlers still do,
      the state word stays among Done, StoppedWithError, Canceled and Panicked. */
  lemma FinalAfterStop(s: State, evs: seq<Event>, t: nat)
    requires Inv(s) && StopAt(s, t, StopReturned(true)) && Runnable(s, evs)
    ensures Final(Exec(s, evs).phase)
  {
    ReturnedStays(s, evs, t);
    InvRun(s, evs);
  }

  /** The loop is past its selects on the way out, and no stopper has yet to store its state. */
  predicate Settled(s: State) {
    && (s.loop == InBeforeStop || s.loop == Closing || s.loop == Exited)
    && (s.winner.Some? && s.winner.value in s.stops ==> PastWait(s.stops[s.winner.value]))
  }

  lemma SettledStep(s: State, e: Event)
    requires LifeInv(s) && s.phase == Panicked && Settled(s) && Enabled(s, e)
    ensures Apply(s, e).phase == Panicked && Settled(Apply(s, e))
  {
  }

  /** The comments call Panicked a terminal state. It is final exactly when the actor is settled:
      otherwise a late Started (a panic in `BeforeStart`), a done context or a waiting stopper
      can still overwrite it. */
  lemma {:induction false} PanickedStaysWhenSettled(s: State, evs: seq<Event>)
    requires Inv(s) && s.phase == Panicked && Settled(s) && Runnable(s, evs)
    ensures Exec(s, evs).phase == Panicked
    decreases |evs|
  {
    if evs != [] {
      var t := Apply(s, evs[0]);
      StepInv(s, evs[0]);
      SettledStep(s, evs[0]);
      PanickedStaysWhenSettled(t, evs[1..]);
    }
  }

  lemma PanickedOverwrittenUnlessSettled(s: State) returns (evs: seq<Event>)
    requires Inv(s) && s.phase == Panicked && !Settled(s)
    ensures Runnable(s, evs) && Exec(s, evs).phase != Panicked
  {
    if s.loop == Launched {
      evs := [StoreStarted];
      OneStep(s, StoreStarted);
    } else if s.loop == InBeforeStop || s.loop == Closing || s.loop == Exited {
      var t := s.winner.value;
      var pre := if s.stops[t] == Won then [StopClose(t)] else [];
      var u := if s.stops[t] == Won then Apply(s, StopClose(t)) else s;
      if s.stops[t] == Won { OneStep(s, StopClose(t)); }
      evs := Then(s, pre, u, StopTimer(t));
    } else {
      var pre, u := ToOuter(s);
      if u.ctx == Live {
        var mid := Then(s, pre, u, CtxEnds(CtxCanceled));
        evs := Then(s, mid, Apply(u, CtxEnds(CtxCanceled)), LoopCtx);
      } else {
        evs := Then(s, pre, u, LoopCtx);
      }
    }
  }

  /** From any point before its way out the loop can get to a select with the state word still Panicked. */
  lemma ToOuter(s: State) returns (evs: seq<Event>, t: State)
    requires LifeInv(s) && s.phase == Panicked && !Unborn(s)
    requires s.loop != InBeforeStop && s.loop != Closing && s.loop != Exited
    ensures Runnable(s, evs) && Exec(s, evs) == t && t.ctx == s.ctx
    ensures t.loop == Outer || t.loop.Holding?
  {
    hide LifeInv;
    evs, t := [], s;
    if t.loop == MarkReady { evs := Then(s, evs, t, CloseReady); t := Apply(t, CloseReady); }
    if t.loop == InAfterStart { evs := Then(s, evs, t, AfterStartEnds(false)); t := Apply(t, AfterStartEnds(false)); }
    if t.loop.Executing? { evs := Then(s, evs, t, HandlerEnds(false)); t := Apply(t, HandlerEnds(false)); }
  }
}
