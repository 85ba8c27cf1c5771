/** Runs of the supervisor (`pkg/supervision/supervisor.go`) that show where the conditions of its
    theorems are needed, and the exact extent of one incarnation per child. */
module SupervisorRuns {
  import opened Basics
  import opened RestartWindow
  import opened SupervisorMachine
  import Q = SupervisorQuiescence
  import Th = SupervisorTheorems
  import O = SupervisorOwnership
  import SA = SupervisorStopAll
  import Cov = SupervisorCoverage

  /** The run so far, from a new supervisor, and where it leads. */
  ghost predicate Path(p: Policy, run: seq<Event>, s: State) {
    Runnable(Init(p, 0), run) && Exec(Init(p, 0), run) == s
  }

  lemma Go(p: Policy, run: seq<Event>, s: State, e: Event) returns (more: seq<Event>, t: State)
    requires Path(p, run, s) && Enabled(s, e)
    ensures more == run + [e] && t == Apply(s, e) && Path(p, more, t)
  {
    more := Q.Then(Init(p, 0), run, s, e);
    t := Apply(s, e);
  }

  lemma NoPath(p: Policy)
    ensures Path(p, [], Init(p, 0))
  {
  }

  /** One `StartAll` was called, nobody watches, and no running reference was captured. */
  predicate Here(s: State, p: Policy, children: seq<Child>, refs: seq<Ref>, threads: seq<Pc>) {
    && s.policy == p && !s.core.stopped && s.core.watchers == 0 && s.startAlls == 1 && s.targets == {} && s.clock == 0
    && s.core.children == children && s.refs == refs && s.threads == threads
  }

  // ---------------------------------------------------------------- two incarnations at once

  /** Under AllForOne: child a terminates while `StartAll` is still at child b; the restart finds b
      without a reference, cannot start a, and starts b a second time. */
  const TwoLives: seq<Event> :=
    [AddChild("a"), AddChild("b"), CallStartAll, StartSpec(0, true)]
    + [Install(0), ReadRef(1), RefDone(0), SeeDone(1), Check(1)]
    + [ReadState(1, false), Decide(1), Gate(1), Snapshot(1)]
    + [Bump(1), StopRef(1), Bump(1), Finish(1)]
    + [StartSpec(0, true), Install(0)]
    + [StartSpec(1, false), StartSpec(1, true), Install(1)]

  lemma FirstStart(p: Policy) returns (run: seq<Event>, s: State)
    ensures run == TwoLives[..4] && Path(p, run, s) && s.core.restarts == []
    ensures Here(s, p, [Child("a", None, 0), Child("b", None, 0)], [Ref(0, false, None)], [StartAllInstall(0, 2, 0)])
  {
    hide Path, Runnable, Exec;
    run, s := [], Init(p, 0);
    NoPath(p);
    run, s := Go(p, run, s, AddChild("a"));
    run, s := Go(p, run, s, AddChild("b"));
    run, s := Go(p, run, s, CallStartAll);
    run, s := Go(p, run, s, StartSpec(0, true));
  }

  lemma FirstMonitor(p: Policy) returns (run: seq<Event>, s: State)
    ensures run == TwoLives[..6] && Path(p, run, s) && s.core.restarts == []
    ensures Here(s, p, [Child("a", Some(0), 1), Child("b", None, 0)], [Ref(0, false, Some(1))],
                 [StartAllAt(1, 2), MonitorWait(0, 1, 0)])
  {
    hide Path, Runnable, Exec;
    run, s := FirstStart(p);
    run, s := Go(p, run, s, Install(0));
    run, s := Go(p, run, s, ReadRef(1));
  }

  lemma FirstFailure(p: Policy) returns (run: seq<Event>, s: State)
    ensures run == TwoLives[..9] && Path(p, run, s) && s.core.restarts == []
    ensures Here(s, p, [Child("a", Some(0), 1), Child("b", None, 0)], [Ref(0, true, Some(1))],
                 [StartAllAt(1, 2), HandleRead(0, 0)])
  {
    hide Path, Runnable, Exec;
    run, s := FirstMonitor(p);
    run, s := Go(p, run, s, RefDone(0));
    run, s := Go(p, run, s, SeeDone(1));
    run, s := Go(p, run, s, Check(1));
  }

  lemma Notified(p: Policy) returns (run: seq<Event>, s: State)
    ensures run == TwoLives[..11] && Path(p, run, s) && s.core.restarts == []
    ensures Here(s, p, [Child("a", Some(0), 1), Child("b", None, 0)], [Ref(0, true, Some(1))],
                 [StartAllAt(1, 2), HandleGate(0, 0)])
  {
    hide Path, Runnable, Exec;
    run, s := FirstFailure(p);
    run, s := Go(p, run, s, ReadState(1, false));
    run, s := Go(p, run, s, Decide(1));
  }

  /** The first attempt of all is granted, whatever the limits. */
  lemma FirstIsGranted(k: Core, p: Policy, now: int)
    requires k.restarts == [] && !k.stopped
    ensures GateVerdict(k, p, now) == Granted
  {
    assert [] + [now] == [now] && [now][1..] == [];
    assert Trim([now][1..], now - p.within) == [] && |Trim([now], now - p.within)| <= 1;
  }

  lemma RestartBegins(p: Policy) returns (run: seq<Event>, s: State)
    requires p.strategy == AllForOne
    ensures run == TwoLives[..13] && Path(p, run, s)
    ensures Here(s, p, [Child("a", Some(0), 1), Child("b", None, 0)], [Ref(0, true, Some(1))],
                 [StartAllAt(1, 2), AllStop(0, 2)])
  {
    hide Path, Runnable, Exec, GateVerdict;
    run, s := Notified(p);
    FirstIsGranted(s.core, p, s.clock);
    run, s := Go(p, run, s, Gate(1));
    run, s := Go(p, run, s, Snapshot(1));
  }

  lemma RestartStops(p: Policy) returns (run: seq<Event>, s: State)
    requires p.strategy == AllForOne
    ensures run == TwoLives[..17] && Path(p, run, s)
    ensures Here(s, p, [Child("a", Some(0), 2), Child("b", None, 1)], [Ref(0, true, Some(1))],
                 [StartAllAt(1, 2), AllStart(0, 2)])
  {
    hide Path, Runnable, Exec;
    run, s := RestartBegins(p);
    run, s := Go(p, run, s, Bump(1));
    run, s := Go(p, run, s, StopRef(1));
    run, s := Go(p, run, s, Bump(1));
    run, s := Go(p, run, s, Finish(1));
  }

  lemma StartAllGoesOn(p: Policy) returns (run: seq<Event>, s: State)
    requires p.strategy == AllForOne
    ensures run == TwoLives[..19] && Path(p, run, s)
    ensures Here(s, p, [Child("a", Some(0), 2), Child("b", Some(1), 2)],
                 [Ref(0, true, Some(1)), Ref(1, false, Some(2))],
                 [StartAllAt(2, 2), AllStart(0, 2), MonitorNew(1, 2)])
  {
    hide Path, Runnable, Exec;
    run, s := RestartStops(p);
    run, s := Go(p, run, s, StartSpec(0, true));
    run, s := Go(p, run, s, Install(0));
  }

  lemma SecondStart(p: Policy) returns (run: seq<Event>, s: State)
    requires p.strategy == AllForOne
    ensures run == TwoLives[..21] && Path(p, run, s)
    ensures Here(s, p, [Child("a", Some(0), 2), Child("b", Some(1), 2)],
                 [Ref(0, true, Some(1)), Ref(1, false, Some(2)), Ref(1, false, None)],
                 [StartAllAt(2, 2), AllInstall(1, 2, 2), MonitorNew(1, 2)])
  {
    hide Path, Runnable, Exec;
    run, s := StartAllGoesOn(p);
    run, s := Go(p, run, s, StartSpec(1, false));
    run, s := Go(p, run, s, StartSpec(1, true));
  }

  lemma SecondInstall(p: Policy) returns (s: State)
    requires p.strategy == AllForOne
    ensures Path(p, TwoLives, s) && s.startAlls == 1 && s.targets == {}
    ensures s.refs == [Ref(0, true, Some(1)), Ref(1, false, Some(2)), Ref(1, false, Some(3))]
  {
    hide Path, Runnable, Exec;
    var run;
    run, s := SecondStart(p);
    run, s := Go(p, run, s, Install(1));
    assert run == TwoLives;
  }

  /** Under AllForOne, whatever the limits, one `StartAll` and one failure can leave two incarnations
      of a child running, both installed, and none of them stopped by the restart. */
  lemma TwoIncarnations(p: Policy)
    requires p.strategy == AllForOne
    ensures Runnable(Init(p, 0), TwoLives)
    ensures var s := Exec(Init(p, 0), TwoLives);
      && s.startAlls == 1 && |s.refs| == 3 && 1 !in s.targets && 2 !in s.targets
      && s.refs[1] == Ref(1, false, Some(2)) && s.refs[2] == Ref(1, false, Some(3))
  {
    hide Runnable, Exec;
    var s := SecondInstall(p);
  }

  ghost predicate ReachableUnder(p: Policy, s: State) {
    exists clock: int, evs: seq<Event> :: Runnable(Init(p, clock), evs) && Exec(Init(p, clock), evs) == s
  }

  lemma {:induction false} PolicyStays(s: State, evs: seq<Event>)
    requires Runnable(s, evs)
    ensures Exec(s, evs).policy == s.policy
    decreases |evs|
  {
    if evs != [] { PolicyStays(Apply(s, evs[0]), evs[1..]); }
  }

  /** With one `StartAll`, no child ever has two incarnations running. */
  ghost predicate NeverTwo(p: Policy) {
    forall s: State, c: nat :: ReachableUnder(p, s) && s.startAlls <= 1 ==> O.OneLive(s, c)
  }

  /** With one `StartAll`, a child has at most one running incarnation in every reachable state exactly
      under the policies with the OneForOne strategy. */
  lemma OneIncarnationIff(p: Policy)
    ensures NeverTwo(p) <==> p.strategy == OneForOne
  {
    hide Runnable, Exec, Reachable;
    if p.strategy == OneForOne {
      forall s: State, c: nat | ReachableUnder(p, s) && s.startAlls <= 1 ensures O.OneLive(s, c) {
        OneUnder(p, s, c);
      }
    } else {
      TwoIncarnations(p);
      var s := Exec(Init(p, 0), TwoLives);
      assert ReachableUnder(p, s);
      assert s.refs[1].child == 1 == s.refs[2].child;
      assert !O.OneLive(s, 1);
    }
  }

  lemma OneUnder(p: Policy, s: State, c: nat)
    requires p.strategy == OneForOne && ReachableUnder(p, s) && s.startAlls <= 1
    ensures O.OneLive(s, c)
  {
    var clock: int, evs: seq<Event> :| Runnable(Init(p, clock), evs) && Exec(Init(p, clock), evs) == s;
    PolicyStays(Init(p, clock), evs);
    assert Reachable(s);
    O.ReachableOwn(s);
  }

  // ---------------------------------------------------------------- another incarnation's state

  /** Under AllForOne: both children terminate and both monitors pass their checks; the restart that b's
      termination causes installs a new a before a's goroutine reads the state of a. */
  const LateRead: seq<Event> :=
    [AddChild("a"), AddChild("b"), CallStartAll, StartSpec(0, true)]
    + [Install(0), StartSpec(0, true), Install(0)]
    + [ReadRef(1), RefDone(0), SeeDone(1), Check(1)]
    + [ReadRef(2), RefDone(1), SeeDone(2), Check(2)]
    + [ReadState(2, false), Decide(2)]
    + [Gate(2), Snapshot(2)]
    + [Bump(2), StopRef(2), Bump(2), StopRef(2)]
    + [Finish(2), StartSpec(2, true), Install(2)]
    + [ReadState(1, false)]

  lemma SecondComes(p: Policy) returns (run: seq<Event>, s: State)
    ensures run == LateRead[..6] && Path(p, run, s) && s.core.restarts == []
    ensures Here(s, p, [Child("a", Some(0), 1), Child("b", None, 0)],
                 [Ref(0, false, Some(1)), Ref(1, false, None)], [StartAllInstall(1, 2, 1), MonitorNew(0, 1)])
  {
    hide Path, Runnable, Exec;
    run, s := FirstStart(p);
    run, s := Go(p, run, s, Install(0));
    run, s := Go(p, run, s, StartSpec(0, true));
  }

  lemma BothStarted(p: Policy) returns (run: seq<Event>, s: State)
    ensures run == LateRead[..7] && Path(p, run, s) && s.core.restarts == []
    ensures Here(s, p, [Child("a", Some(0), 1), Child("b", Some(1), 1)],
                 [Ref(0, false, Some(1)), Ref(1, false, Some(1))],
                 [StartAllAt(2, 2), MonitorNew(0, 1), MonitorNew(1, 1)])
  {
    hide Path, Runnable, Exec;
    run, s := SecondComes(p);
    run, s := Go(p, run, s, Install(0));
  }

  lemma FirstDone(p: Policy) returns (run: seq<Event>, s: State)
    ensures run == LateRead[..9] && Path(p, run, s) && s.core.restarts == []
    ensures Here(s, p, [Child("a", Some(0), 1), Child("b", Some(1), 1)],
                 [Ref(0, true, Some(1)), Ref(1, false, Some(1))],
                 [StartAllAt(2, 2), MonitorWait(0, 1, 0), MonitorNew(1, 1)])
  {
    hide Path, Runnable, Exec;
    run, s := BothStarted(p);
    run, s := Go(p, run, s, ReadRef(1));
    run, s := Go(p, run, s, RefDone(0));
  }

  lemma FirstFails(p: Policy) returns (run: seq<Event>, s: State)
    ensures run == LateRead[..11] && Path(p, run, s) && s.core.restarts == []
    ensures Here(s, p, [Child("a", Some(0), 1), Child("b", Some(1), 1)],
                 [Ref(0, true, Some(1)), Ref(1, false, Some(1))],
                 [StartAllAt(2, 2), HandleRead(0, 0), MonitorNew(1, 1)])
  {
    hide Path, Runnable, Exec;
    run, s := FirstDone(p);
    run, s := Go(p, run, s, SeeDone(1));
    run, s := Go(p, run, s, Check(1));
  }

  lemma SecondDone(p: Policy) returns (run: seq<Event>, s: State)
    ensures run == LateRead[..13] && Path(p, run, s) && s.core.restarts == []
    ensures Here(s, p, [Child("a", Some(0), 1), Child("b", Some(1), 1)],
                 [Ref(0, true, Some(1)), Ref(1, true, Some(1))],
                 [StartAllAt(2, 2), HandleRead(0, 0), MonitorWait(1, 1, 1)])
  {
    hide Path, Runnable, Exec;
    run, s := FirstFails(p);
    run, s := Go(p, run, s, ReadRef(2));
    run, s := Go(p, run, s, RefDone(1));
  }

  lemma SecondFails(p: Policy) returns (run: seq<Event>, s: State)
    ensures run == LateRead[..15] && Path(p, run, s) && s.core.restarts == []
    ensures Here(s, p, [Child("a", Some(0), 1), Child("b", Some(1), 1)],
                 [Ref(0, true, Some(1)), Ref(1, true, Some(1))],
                 [StartAllAt(2, 2), HandleRead(0, 0), HandleRead(1, 1)])
  {
    hide Path, Runnable, Exec;
    run, s := SecondDone(p);
    run, s := Go(p, run, s, SeeDone(2));
    run, s := Go(p, run, s, Check(2));
  }

  lemma SecondGoesOn(p: Policy) returns (run: seq<Event>, s: State)
    requires p.strategy == AllForOne
    ensures run == LateRead[..19] && Path(p, run, s)
    ensures Here(s, p, [Child("a", Some(0), 1), Child("b", Some(1), 1)],
                 [Ref(0, true, Some(1)), Ref(1, true, Some(1))],
                 [StartAllAt(2, 2), HandleRead(0, 0), AllStop(0, 2)])
  {
    hide Path, Runnable, Exec, GateVerdict;
    run, s := SecondFails(p);
    run, s := Go(p, run, s, ReadState(2, false));
    run, s := Go(p, run, s, Decide(2));
    FirstIsGranted(s.core, p, s.clock);
    run, s := Go(p, run, s, Gate(2));
    run, s := Go(p, run, s, Snapshot(2));
  }

  lemma SecondStops(p: Policy) returns (run: seq<Event>, s: State)
    requires p.strategy == AllForOne
    ensures run == LateRead[..23] && Path(p, run, s)
    ensures Here(s, p, [Child("a", Some(0), 2), Child("b", Some(1), 2)],
                 [Ref(0, true, Some(1)), Ref(1, true, Some(1))],
                 [StartAllAt(2, 2), HandleRead(0, 0), AllStop(2, 2)])
  {
    hide Path, Runnable, Exec;
    run, s := SecondGoesOn(p);
    run, s := Go(p, run, s, Bump(2));
    run, s := Go(p, run, s, StopRef(2));
    run, s := Go(p, run, s, Bump(2));
    run, s := Go(p, run, s, StopRef(2));
  }

  lemma FirstIsReplaced(p: Policy) returns (run: seq<Event>, s: State)
    requires p.strategy == AllForOne
    ensures run == LateRead[..26] && Path(p, run, s)
    ensures s.startAlls == 1 && s.core.watchers == 0 && |s.threads| == 4 && s.threads[1] == HandleRead(0, 0)
    ensures RefOf(s, 0) == Some(2)
  {
    hide Path, Runnable, Exec;
    run, s := SecondStops(p);
    run, s := Go(p, run, s, Finish(2));
    run, s := Go(p, run, s, StartSpec(2, true));
    run, s := Go(p, run, s, Install(2));
  }

  /** Under AllForOne, whatever the limits, a termination can be handled with the state of a later
      incarnation of the child. */
  lemma ReadsAnotherState(p: Policy)
    requires p.strategy == AllForOne
    ensures Runnable(Init(p, 0), LateRead)
    ensures var s := Exec(Init(p, 0), LateRead);
      s.startAlls == 1 && At(s, 1) && s.threads[1] == HandleNotify(0, 0, 2, false, 0, 0)
  {
    hide Runnable, Exec;
    var run, s := FirstIsReplaced(p);
    run, s := Go(p, run, s, ReadState(1, false));
    assert run == LateRead;
  }

  /** With one `StartAll`, every termination is handled with the state of the reference that terminated. */
  ghost predicate ReadsOwnState(p: Policy) {
    forall s: State, i: nat :: ReachableUnder(p, s) && s.startAlls <= 1 && At(s, i) && s.threads[i].HandleNotify? ==>
      s.threads[i].from == s.threads[i].r
  }

  lemma OwnStateIff(p: Policy)
    ensures ReadsOwnState(p) <==> p.strategy == OneForOne
  {
    hide Runnable, Exec, Reachable;
    if p.strategy == OneForOne {
      forall s: State, i: nat | ReachableUnder(p, s) && s.startAlls <= 1 && At(s, i) && s.threads[i].HandleNotify?
        ensures s.threads[i].from == s.threads[i].r
      {
        OwnStateUnder(p, s, i);
      }
    } else {
      ReadsAnotherState(p);
      var s := Exec(Init(p, 0), LateRead);
      assert ReachableUnder(p, s) && At(s, 1) && s.threads[1].HandleNotify?;
    }
  }

  lemma OwnStateUnder(p: Policy, s: State, i: nat)
    requires p.strategy == OneForOne && ReachableUnder(p, s) && s.startAlls <= 1
    requires At(s, i) && s.threads[i].HandleNotify?
    ensures s.threads[i].from == s.threads[i].r
  {
    var clock: int, evs: seq<Event> :| Runnable(Init(p, clock), evs) && Exec(Init(p, clock), evs) == s;
    PolicyStays(Init(p, clock), evs);
    assert Reachable(s);
    O.IncarnationsFollowOneAnother(s, i);
  }

  // ---------------------------------------------------------------- a child that StopAll misses

  /** A child started and not yet installed when `StopAll` comes. */
  lemma Started(p: Policy) returns (run: seq<Event>, s: State)
    ensures run == [AddChild("a"), CallStartAll, StartSpec(0, true)] && Path(p, run, s)
    ensures Here(s, p, [Child("a", None, 0)], [Ref(0, false, None)], [StartAllInstall(0, 1, 0)])
  {
    hide Path, Runnable, Exec;
    run, s := [], Init(p, 0);
    NoPath(p);
    run, s := Go(p, run, s, AddChild("a"));
    run, s := Go(p, run, s, CallStartAll);
    run, s := Go(p, run, s, StartSpec(0, true));
  }

  /** The `StopAll` that passes its gate in `s` returns within `late`, and child `c` is then running a
      reference that it did not stop. */
  ghost predicate Misses(s: State, late: seq<Event>, c: nat)
    requires Enabled(s, CallStopAll)
  {
    var u, t := Apply(s, CallStopAll), |s.threads|;
    && Runnable(u, late) && Cov.Finished(Exec(u, late), t)
    && Running(Exec(u, late), c) && SA.Turn(c, RefOf(Exec(u, late), c)) !in SA.Stops(u, late, t)
  }

  predicate Running(s: State, c: nat) {
    RefOf(s, c).Some? && RefOf(s, c).value < |s.refs| && !s.refs[RefOf(s, c).value].done
  }

  /** No start is left at the gate of `StopAll`, and yet, when it has returned, the child is running a
      reference that it did not stop: the install came after the child's turn. */
  lemma StopAllMissesAnInstall(p: Policy) returns (s: State)
    ensures Path(p, [AddChild("a"), CallStartAll, StartSpec(0, true)], s)
    ensures Enabled(s, CallStopAll) && forall i :: !Q.CanStart(s, i)
    ensures Misses(s, [TakeForStop(1), Finish(1), Install(0)], 0)
  {
    hide Path, Runnable, Exec, SA.Stops;
    var run;
    run, s := Started(p);
    var u := Apply(s, CallStopAll);
    var y := TurnFindsNothing(s, p);
    InstallLate(y);
    assert [TakeForStop(1), Finish(1)] + [Install(0)] == [TakeForStop(1), Finish(1), Install(0)];
    Th.ExecAppend(u, [TakeForStop(1), Finish(1)], [Install(0)]);
    SA.EndedTakesNoTurn(y, [Install(0)], 1);
    Cov.StopsAppend(u, [TakeForStop(1), Finish(1)], [Install(0)], 1);
  }

  lemma TurnFindsNothing(s: State, p: Policy) returns (y: State)
    requires Here(s, p, [Child("a", None, 0)], [Ref(0, false, None)], [StartAllInstall(0, 1, 0)])
    ensures var u, evs := Apply(s, CallStopAll), [TakeForStop(1), Finish(1)];
      Runnable(u, evs) && Exec(u, evs) == y && SA.Stops(u, evs, 1) == []
    ensures y.core.children == s.core.children && y.refs == s.refs && y.threads == s.threads + [Ended]
  {
    hide Runnable, Exec, SA.Stops;
    var u := Apply(s, CallStopAll);
    var x := Apply(u, TakeForStop(1));
    assert x.threads == s.threads + [StopAllAt(0)];
    y := Apply(x, Finish(1));
    TwoQuiet(u, TakeForStop(1), Finish(1));
  }

  lemma TwoQuiet(u: State, d: Event, e: Event)
    requires Enabled(u, d) && Enabled(Apply(u, d), e) && !d.StopRef? && !e.StopRef?
    ensures Runnable(u, [d, e]) && Exec(u, [d, e]) == Apply(Apply(u, d), e) && SA.Stops(u, [d, e], 1) == []
  {
    hide Enabled, Apply;
    var v := Apply(u, d);
    Q.Solo(v, e);
    assert [d, e][1..] == [e] && [e][1..] == [];
    assert SA.Stops(v, [e], 1) == SA.StopAt(v, e, 1) + SA.Stops(Apply(v, e), [e][1..], 1) == [];
    assert SA.Stops(u, [d, e], 1) == SA.StopAt(u, d, 1) + SA.Stops(v, [d, e][1..], 1);
  }

  lemma InstallLate(y: State)
    requires y.core.children == [Child("a", None, 0)] && y.refs == [Ref(0, false, None)]
    requires y.threads == [StartAllInstall(0, 1, 0)] + [Ended]
    ensures Runnable(y, [Install(0)])
    ensures var v := Exec(y, [Install(0)]); RefOf(v, 0) == Some(0) && Running(v, 0) && Cov.Finished(v, 1)
  {
    Q.Solo(y, Install(0));
  }
}
