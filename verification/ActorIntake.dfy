/** Which messages still enter an actor that has left Started (`pkg/actor/goactor.go:319-340`), and
    how a message that entered advances while nothing shuts the actor down. */
module ActorIntake {
  import opened Basics
  import opened ActorMachine
  import opened ActorTheorems
  import F = ActorFinality

  /** A call is in its select, and the buffer has room or the loop can still come to its outer select. */
  ghost predicate CanEnter(s: State) {
    && (exists c :: IsSending(s, c))
    && (|s.buf| < s.cap || ToSelect(s))
  }

  predicate ToSelect(s: State) {
    match s.loop
    case MarkReady | InAfterStart | Executing(_) | Outer => true
    case Holding(_) => !Shut(s)
    case _ => false
  }

  ghost predicate NeverAccepts(s: State) {
    forall evs :: Runnable(s, evs) ==> Exec(s, evs).accepted == s.accepted
  }

  /** Without `CanEnter` no step accepts a message or brings it about. */
  lemma ShutOutStep(s: State, e: Event)
    requires Inv(s) && Left(s) && !CanEnter(s) && Enabled(s, e)
    ensures Apply(s, e).accepted == s.accepted && !CanEnter(Apply(s, e))
  {
    FrozenStep(s, e);
    if exists c :: IsSending(s, c) { FullStep(s, e); }
  }

  lemma FullStep(s: State, e: Event)
    requires LoopInv(s) && Left(s) && |s.buf| >= s.cap && !ToSelect(s) && Enabled(s, e)
    ensures Apply(s, e).accepted == s.accepted
    ensures |Apply(s, e).buf| >= Apply(s, e).cap && !ToSelect(Apply(s, e))
  {
  }

  lemma {:induction false} ShutOutRun(s: State, evs: seq<Event>)
    requires Inv(s) && Left(s) && !CanEnter(s) && Runnable(s, evs)
    ensures Exec(s, evs).accepted == s.accepted
    decreases |evs|
  {
    if evs != [] {
      StepInv(s, evs[0]);
      ShutOutStep(s, evs[0]);
      LeftStep(s, evs[0]);
      ShutOutRun(Apply(s, evs[0]), evs[1..]);
    }
  }

  /** `t` is `s` but for the loop, which is at its outer select, and what the loop stored. */
  predicate AtSelect(s: State, t: State) {
    t.loop == Outer && t.calls == s.calls && t.buf == s.buf && t.cap == s.cap && t.accepted == s.accepted
  }

  /** The loop goes on to its outer select, taking and accepting nothing. */
  lemma GoToSelect(s: State) returns (evs: seq<Event>, t: State)
    requires ToSelect(s)
    ensures Runnable(s, evs) && Exec(s, evs) == t && AtSelect(s, t)
  {
    if s.loop.Holding? || s.loop.Executing? { evs, t := FinishMessage(s); } else { evs, t := FinishHook(s); }
  }

  lemma FinishHook(s: State) returns (evs: seq<Event>, t: State)
    requires s.loop == MarkReady || s.loop == InAfterStart || s.loop == Outer
    ensures Runnable(s, evs) && Exec(s, evs) == t && AtSelect(s, t)
  {
    evs, t := [], s;
    if t.loop == MarkReady { evs := Then(s, evs, t, CloseReady); t := Apply(t, CloseReady); }
    if t.loop == InAfterStart { evs := Then(s, evs, t, AfterStartEnds(false)); t := Apply(t, AfterStartEnds(false)); }
  }

  lemma FinishMessage(s: State) returns (evs: seq<Event>, t: State)
    requires s.loop.Executing? || (s.loop.Holding? && !Shut(s))
    ensures Runnable(s, evs) && Exec(s, evs) == t && AtSelect(s, t)
  {
    evs, t := [], s;
    if t.loop.Holding? { evs := Then(s, evs, t, LoopDefault); t := Apply(t, LoopDefault); }
    evs := Then(s, evs, t, HandlerEnds(false));
    t := Apply(t, HandlerEnds(false));
  }

  lemma Enters(s: State, c: nat) returns (evs: seq<Event>)
    requires SizesInv(s) && IsSending(s, c) && (|s.buf| < s.cap || ToSelect(s))
    ensures Runnable(s, evs) && Exec(s, evs).accepted == s.accepted + [c]
  {
    if |s.buf| < s.cap {
      OneStep(s, RecvSend(c));
      evs := [RecvSend(c)];
    } else {
      var pre, t := GoToSelect(s);
      evs := EntersAtSelect(s, pre, t, c);
    }
  }

  lemma EntersAtSelect(s: State, pre: seq<Event>, t: State, c: nat) returns (evs: seq<Event>)
    requires Runnable(s, pre) && Exec(s, pre) == t && t.loop == Outer && IsSending(t, c) && |t.buf| <= t.cap
    ensures Runnable(s, evs) && Exec(s, evs).accepted == t.accepted + [c]
  {
    if t.buf == [] {
      evs := Then(s, pre, t, RecvHandoff(c));
    } else {
      var mid := Then(s, pre, t, LoopTake);
      evs := Then(s, mid, Apply(t, LoopTake), RecvSend(c));
    }
  }

  /** A stopping actor takes no new message, in any continuation, exactly when no call is in its
      select, or the buffer is full and the loop is past its selects for good. */
  lemma IntakeIsOverIff(s: State)
    requires Reachable(s) && Left(s)
    ensures NeverAccepts(s) <==> !CanEnter(s)
  {
    hide Reachable, Left;
    ReachableInv(s);
    if CanEnter(s) {
      var c :| IsSending(s, c);
      var evs := Enters(s, c);
      assert Runnable(s, evs) && Exec(s, evs).accepted != s.accepted;
    } else {
      forall evs | Runnable(s, evs) ensures Exec(s, evs).accepted == s.accepted { ShutOutRun(s, evs); }
    }
  }

  /** A run in which a message enters an actor that is stopping. */
  lemma StoppingActorAccepts()
    ensures var run := F.Opening + [RecvLoad(7, false), StopCas(0)];
      && Runnable(Init(0, false), run)
      && var s := Exec(Init(0, false), run);
      && s.phase == Stopping && s.accepted == []
      && Enabled(s, RecvHandoff(7)) && Apply(s, RecvHandoff(7)).accepted == [7]
  {
    hide F.Path, Runnable, Exec;
    var run, s := F.Open();
    run, s := F.Step(run, s, RecvLoad(7, false));
    run, s := F.Step(run, s, StopCas(0));
    assert run == F.Opening + [RecvLoad(7, false), StopCas(0)];
    PathOf(run, s);
  }

  lemma PathOf(run: seq<Event>, s: State)
    requires F.Path(run, s)
    ensures Runnable(Init(0, false), run) && Exec(Init(0, false), run) == s
  {
  }

  // ---------------------------------------------------------------- progress without shutdown

  predicate OnWayOut(loop: Loop) { loop == InBeforeStop || loop == Closing || loop == Exited }

  /** How many actions the loop is away from handing its next message to the handler. */
  function Offset(loop: Loop): nat {
    match loop
    case NotLaunched => 6
    case Launched => 5
    case MarkReady => 4
    case InAfterStart | Executing(_) => 3
    case Outer => 2
    case _ => 1
  }

  /** How many actions of the loop the message accepted at place `p` still needs to be executed. */
  function Need(s: State, p: nat): nat {
    if p < |s.executed| then 0 else 3 * (p - |s.executed|) + Offset(s.loop)
  }

  lemma NeedStep(s: State, e: Event, p: nat)
    requires Enabled(s, e) && !OnWayOut(s.loop) && !Shut(Apply(s, e))
    requires s.loop.NotLaunched? || !e.BeforeStartEnds?
    ensures !Shut(s) && !OnWayOut(Apply(s, e).loop)
    ensures Need(s, p) > 0 && MovesLoop(e) ==> Need(Apply(s, e), p) == Need(s, p) - 1
    ensures Need(Apply(s, e), p) <= Need(s, p)
  {
  }

  lemma {:induction false} NeedRun(s: State, evs: seq<Event>, p: nat)
    requires Inv(s) && !OnWayOut(s.loop) && Runnable(s, evs) && !Shut(Exec(s, evs))
    ensures !Shut(s)
    ensures Need(Exec(s, evs), p) == 0 || LoopMoves(evs) + Need(Exec(s, evs), p) <= Need(s, p)
    decreases |evs|
  {
    if evs != [] {
      var t := Apply(s, evs[0]);
      if Shut(t) { CutOff(t, evs[1..]); }
      StarterFirst(s, evs[0]);
      NeedStep(s, evs[0], p);
      StepInv(s, evs[0]);
      NeedRun(t, evs[1..], p);
    }
  }

  lemma StarterFirst(s: State, e: Event)
    requires LoopInv(s) && Enabled(s, e)
    ensures s.loop.NotLaunched? || !e.BeforeStartEnds?
  {
  }

  /** Only a shutdown leads the loop out. */
  lemma {:induction false} OnWayOutOnlyWhenShut(s: State, evs: seq<Event>)
    requires Inv(s) && Runnable(s, evs) && (OnWayOut(s.loop) ==> Shut(s))
    ensures OnWayOut(Exec(s, evs).loop) ==> Shut(Exec(s, evs))
    decreases |evs|
  {
    if evs != [] {
      var t := Apply(s, evs[0]);
      StepInv(s, evs[0]);
      if !OnWayOut(s.loop) && !Shut(t) { StarterFirst(s, evs[0]); NeedStep(s, evs[0], 0); }
      if Shut(s) { CutOff(s, [evs[0]]); OneStep(s, evs[0]); }
      OnWayOutOnlyWhenShut(t, evs[1..]);
    }
  }

  lemma ReachableWayOut(s: State)
    requires Reachable(s)
    ensures OnWayOut(s.loop) ==> Shut(s)
  {
    var cap: nat, timed: bool :| Leads(Init(cap, timed), s);
    var evs :| Runnable(Init(cap, timed), evs) && Exec(Init(cap, timed), evs) == s;
    InitInv(cap, timed);
    OnWayOutOnlyWhenShut(Init(cap, timed), evs);
  }

  // ---------------------------------------------------------------- a loop that cannot be stopped

  /** No continuation closes `stop`. */
  ghost predicate NeverStopped(s: State) {
    forall evs :: Runnable(s, evs) ==> Exec(s, evs).stopCloses == 0
  }

  lemma NoWinnerStep(s: State, e: Event)
    requires LifeInv(s) && Left(s) && s.winner == None && Enabled(s, e)
    ensures Apply(s, e).winner == None
  {
    if OfStopper(e) { NoWinnerStop(s, e); }
  }

  lemma NoWinnerStop(s: State, e: Event)
    requires StopInv(s) && Left(s) && s.winner == None && Enabled(s, e) && OfStopper(e)
    ensures Apply(s, e).winner == None
  {
  }

  lemma {:induction false} NoWinnerRun(s: State, evs: seq<Event>)
    requires Inv(s) && Left(s) && s.winner == None && Runnable(s, evs)
    ensures Exec(s, evs).winner == None && Exec(s, evs).stopCloses == 0
    decreases |evs|
  {
    if evs != [] {
      StepInv(s, evs[0]);
      LeftStep(s, evs[0]);
      NoWinnerStep(s, evs[0]);
      NoWinnerRun(Apply(s, evs[0]), evs[1..]);
    }
  }

  /** A stopper that won closes `stop`, if it has not yet. */
  lemma WinnerCloses(s: State) returns (evs: seq<Event>)
    requires Inv(s) && s.winner.Some?
    ensures Runnable(s, evs) && Exec(s, evs).stopCloses > 0
  {
    hide LoopInv, FlowInv, TakenInv;
    var t := s.winner.value;
    if s.stops[t] == Won {
      evs := [StopClose(t)];
      OneStep(s, StopClose(t));
    } else {
      evs := [];
    }
  }

  /** Once the state word has left Started, as after a panic in a handler, `stop` is closed in some
      continuation exactly when a `Stop` has won before. Otherwise no `Stop` ever wins, and the
      loop leaves only when its context ends. */
  lemma StopClosesIff(s: State)
    requires Reachable(s) && Left(s)
    ensures NeverStopped(s) <==> s.winner == None
    ensures s.winner == None ==> forall evs :: Runnable(s, evs) ==>
      Exec(s, evs).winner == None && (OnWayOut(Exec(s, evs).loop) ==> Exec(s, evs).ctx != Live)
  {
    hide Reachable, Left, Inv, OnWayOut;
    ReachableInv(s);
    ReachableWayOut(s);
    if s.winner == None {
      forall evs | Runnable(s, evs)
        ensures Exec(s, evs).winner == None && Exec(s, evs).stopCloses == 0
        ensures OnWayOut(Exec(s, evs).loop) ==> Exec(s, evs).ctx != Live
      {
        NoWinnerRun(s, evs);
        OnWayOutOnlyWhenShut(s, evs);
      }
    } else {
      var evs := WinnerCloses(s);
      assert Runnable(s, evs) && Exec(s, evs).stopCloses > 0;
    }
  }

  /** While a message is queued and nothing shuts the actor down, the loop has an action of its own. */
  lemma LoopGoesOn(s: State) returns (e: Event)
    requires Reachable(s) && s.starter == StartReturned && s.buf != [] && !Shut(s)
    ensures MovesLoop(e) && Enabled(s, e)
  {
    hide Reachable;
    ReachableWayOut(s);
    ReachableInv(s);
    match s.loop
    case Launched => e := StoreStarted;
    case MarkReady => e := CloseReady;
    case InAfterStart => e := AfterStartEnds(false);
    case Outer => e := LoopTake;
    case Holding(_) => e := LoopDefault;
    case Executing(_) => e := HandlerEnds(false);
  }

  /** Progress. In a reachable state take the message at place `k` of the buffer. Whatever the senders
      and stoppers do, if the actor is not shut down, then once the loop has made `3 * (k + 2)`
      actions of its own the message has been executed. */
  lemma QueuedMessageAdvances(s: State, evs: seq<Event>, k: nat)
    requires Reachable(s) && Runnable(s, evs) && k < |s.buf| && !Shut(Exec(s, evs))
    requires LoopMoves(evs) >= 3 * (k + 2)
    ensures s.buf[k] in Exec(s, evs).executed
  {
    hide Reachable, Inv, FlowInv, Need, Shut;
    ReachableWayOut(s);
    ReachableInv(s);
    if Shut(s) { CutOff(s, evs); }
    InvRun(s, evs);
    HistoryGrows(s, evs);
    var p := PlaceOf(s, k);
    NeedRun(s, evs, p);
    ExecutedAt(Exec(s, evs), p);
  }

  /** The place of a queued message among the accepted ones. */
  lemma PlaceOf(s: State, k: nat) returns (p: nat)
    requires Inv(s) && k < |s.buf| && !OnWayOut(s.loop)
    ensures p < |s.accepted| && s.accepted[p] == s.buf[k] && Need(s, p) <= 3 * (k + 2)
  {
    hide LifeInv, TakenInv;
    p := |s.accepted| - |s.buf| + k;
  }

  lemma ExecutedAt(t: State, p: nat)
    requires Inv(t) && Need(t, p) == 0 && p < |t.accepted|
    ensures t.accepted[p] in t.executed
  {
    hide LifeInv, TakenInv;
    assert t.accepted[p] == t.executed[p];
  }
}
