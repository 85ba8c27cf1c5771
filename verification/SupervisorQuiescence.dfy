/** What can still be started once `StopAll` has set the stop flag. */
module SupervisorQuiescence {
  import opened SupervisorMachine
  import opened SupervisorVersions

  /** How many more calls of `spec.Start` a goroutine already past the gate can make, with `m`
      children registered. */
  function Budget(pc: Pc, m: nat): nat {
    match pc
    case StartAllAt(i, n) => if i <= n then n - i else 0
    case StartAllInstall(i, n, _) => if i < n then n - i - 1 else 0
    case OneStart(_) => 1
    case AllSnap => m
    case AllStop(_, n) => n
    case AllStopping(_, n, _) => n
    case AllStart(i, n) => if i <= n then n - i else 0
    case AllInstall(i, n, _) => if i < n then n - i - 1 else 0
    case _ => 0
  }

  function Total(pcs: seq<Pc>, m: nat): nat {
    if pcs == [] then 0 else Total(pcs[..|pcs| - 1], m) + Budget(pcs[|pcs| - 1], m)
  }

  function StartsLeft(s: State): nat { Total(s.threads, |s.core.children|) }

  predicate CanStart(s: State, t: nat) { At(s, t) && Budget(s.threads[t], |s.core.children|) > 0 }

  lemma {:induction false} TotalUpdate(pcs: seq<Pc>, i: nat, pc: Pc, m: nat)
    requires i < |pcs|
    ensures Total(pcs[i := pc], m) == Total(pcs, m) - Budget(pcs[i], m) + Budget(pc, m)
    decreases |pcs|
  {
    var n := |pcs| - 1;
    var after := pcs[i := pc];
    if i < n {
      assert after[..n] == pcs[..n][i := pc];
      TotalUpdate(pcs[..n], i, pc, m);
    } else {
      assert after[..n] == pcs[..n];
    }
  }

  lemma TotalAppend(pcs: seq<Pc>, pc: Pc, m: nat)
    ensures Total(pcs + [pc], m) == Total(pcs, m) + Budget(pc, m)
  {
    assert (pcs + [pc])[..|pcs|] == pcs;
  }

  /** One step after the stop: budgets only shrink, and each call of `spec.Start` uses one up. */
  lemma BudgetStep(s: State, e: Event)
    requires s.core.stopped && Enabled(s, e)
    ensures var t := Apply(s, e);
      && t.core.stopped && |t.core.children| == |s.core.children|
      && StartsLeft(t) + (if e.StartSpec? then 1 else 0) <= StartsLeft(s)
      && (forall i :: CanStart(t, i) ==> CanStart(s, i))
  {
    var t := Apply(s, e);
    var m := |s.core.children|;
    if e.Install? {
      InstallBudget(s, e.t);
    } else if Local(e) || e.StartSpec? || e.Check? || e.Bump? {
      MoveBudget(s, e);
      TotalUpdate(s.threads, e.t, t.threads[e.t], m);
    } else {
      assert t.threads == s.threads;
    }
  }

  lemma MoveBudget(s: State, e: Event)
    requires s.core.stopped && Enabled(s, e) && (Local(e) || e.StartSpec? || e.Check? || e.Bump?)
    ensures var t := Apply(s, e);
      && At(s, e.t) && t.threads == s.threads[e.t := t.threads[e.t]]
      && t.core.stopped && |t.core.children| == |s.core.children|
      && Budget(t.threads[e.t], |s.core.children|) + (if e.StartSpec? then 1 else 0)
           <= Budget(s.threads[e.t], |s.core.children|)
  {
  }

  lemma InstallBudget(s: State, i: nat)
    requires s.core.stopped && Enabled(s, Install(i))
    ensures var t := Apply(s, Install(i));
      && t.core.stopped && |t.core.children| == |s.core.children|
      && StartsLeft(t) <= StartsLeft(s) && (forall j :: CanStart(t, j) ==> CanStart(s, j))
  {
    var t := Apply(s, Install(i));
    var m := |s.core.children|;
    var moved := s.threads[i := AfterInstall(s.threads[i])];
    TotalUpdate(s.threads, i, AfterInstall(s.threads[i]), m);
    TotalAppend(moved, t.threads[|s.threads|], m);
    assert Budget(AfterInstall(s.threads[i]), m) <= Budget(s.threads[i], m);
  }

  function Starts(evs: seq<Event>): nat {
    if evs == [] then 0 else (if evs[0].StartSpec? then 1 else 0) + Starts(evs[1..])
  }

  /** Post-stop quiescence: from the moment the stop flag is set, no goroutine joins those that can
      still call `spec.Start`, and all of them together make at most `StartsLeft` more calls. */
  lemma {:induction false} StopBoundsStarts(s: State, evs: seq<Event>)
    requires s.core.stopped && Runnable(s, evs)
    ensures Starts(evs) + StartsLeft(Exec(s, evs)) <= StartsLeft(s)
    ensures forall i :: CanStart(Exec(s, evs), i) ==> CanStart(s, i)
    decreases |evs|
  {
    hide Enabled, Apply, CanStart;
    if evs != [] {
      BudgetStep(s, evs[0]);
      StopBoundsStarts(Apply(s, evs[0]), evs[1..]);
    }
  }

  /** In every continuation the gates of `Add`, `StartAll`, `StopAll` and of a restart stay shut. */
  ghost predicate ShutForGood(s: State) {
    forall evs :: Runnable(s, evs) ==> GatesShut(Exec(s, evs))
  }

  ghost predicate GatesShut(s: State) {
    && !Enabled(s, CallStopAll) && !Enabled(s, CallStartAll) && (forall name :: !Enabled(s, AddChild(name)))
    && (forall p: Policy, now: int :: GateVerdict(s.core, p, now) == GateStopped)
  }

  lemma {:induction false} StoppedStays(s: State, evs: seq<Event>)
    requires s.core.stopped && Runnable(s, evs)
    ensures Exec(s, evs).core.stopped
    decreases |evs|
  {
    hide Enabled, Apply;
    if evs != [] {
      BudgetStep(s, evs[0]);
      StoppedStays(Apply(s, evs[0]), evs[1..]);
    }
  }

  /** The flag that `StopAll` sets is never cleared. */
  lemma StopShutsForGood(s: State)
    requires Enabled(s, CallStopAll)
    ensures ShutForGood(Apply(s, CallStopAll))
  {
    var t := Apply(s, CallStopAll);
    forall evs | Runnable(t, evs) ensures GatesShut(Exec(t, evs)) { StoppedStays(t, evs); }
  }

  lemma NobodyMeansZero(s: State, evs: seq<Event>)
    requires s.core.stopped && Runnable(s, evs) && forall i :: !CanStart(s, i)
    ensures Starts(evs) == 0
  {
    AllZero(s.threads, |s.core.children|, s);
    StopBoundsStarts(s, evs);
  }

  lemma {:induction false} AllZero(pcs: seq<Pc>, m: nat, s: State)
    requires m == |s.core.children| && pcs <= s.threads && forall i :: !CanStart(s, i)
    ensures Total(pcs, m) == 0
    decreases |pcs|
  {
    if pcs != [] {
      assert !CanStart(s, |pcs| - 1);
      AllZero(pcs[..|pcs| - 1], m, s);
    }
  }

  lemma Solo(s: State, e: Event)
    requires Enabled(s, e)
    ensures Runnable(s, [e]) && Exec(s, [e]) == Apply(s, e)
  {
    assert [e][1..] == [];
    assert Runnable(Apply(s, e), [e][1..]);
  }

  lemma {:induction false} Then(s: State, evs: seq<Event>, t: State, e: Event) returns (more: seq<Event>)
    requires Runnable(s, evs) && Exec(s, evs) == t && Enabled(t, e)
    ensures more == evs + [e] && Runnable(s, more) && Exec(s, more) == Apply(t, e)
    decreases |evs|
  {
    more := evs + [e];
    if evs == [] {
      Solo(s, e);
      assert more == [e];
    } else {
      var rest := Then(Apply(s, evs[0]), evs[1..], t, e);
      assert more[0] == evs[0] && more[1..] == rest;
    }
  }

  /** A goroutine past the gate with a start left can go on alone and use it, stopped or not. */
  lemma {:induction false} LeftStartCanHappen(s: State, i: nat) returns (evs: seq<Event>)
    requires VInv(s) && CanStart(s, i)
    ensures Runnable(s, evs) && Starts(evs) > 0
    decreases |s.core.children|, Distance(s.threads[i], |s.core.children|)
  {
    hide VInv;
    var e := Onward(s, i);
    if e.StartSpec? {
      BudgetIsStart(s, i);
      evs := [e];
      Solo(s, e);
    } else {
      OnwardCloser(s, i, e);
      StepKeeps(s, e);
      var rest := LeftStartCanHappen(Apply(s, e), i);
      evs := [e] + rest;
      assert evs[1..] == rest;
    }
  }

  lemma BudgetIsStart(s: State, i: nat)
    requires VInv(s) && CanStart(s, i) && Onward(s, i).StartSpec?
    ensures Enabled(s, Onward(s, i))
  {
    assert ThreadOk(s, s.threads[i]);
  }

  /** After the stop no child is ever started again, in any continuation, exactly when no goroutine
      was past the gate with a start left at that moment. */
  lemma QuietIffNobodyPastTheGate(s: State)
    requires VInv(s) && s.core.stopped
    ensures (forall evs :: Runnable(s, evs) ==> Starts(evs) == 0) <==> (forall i :: !CanStart(s, i))
  {
    if forall i :: !CanStart(s, i) {
      forall evs | Runnable(s, evs) ensures Starts(evs) == 0 { NobodyMeansZero(s, evs); }
    } else {
      var i :| CanStart(s, i);
      var evs := LeftStartCanHappen(s, i);
      assert Runnable(s, evs) && Starts(evs) > 0;
    }
  }

  /** The goroutine's own next action. */
  function Onward(s: State, i: nat): Event
    requires At(s, i)
  {
    match s.threads[i]
    case StartAllInstall(_, _, _) | AllInstall(_, _, _) => Install(i)
    case AllSnap => Snapshot(i)
    case AllStop(j, n) => if j == n then Finish(i) else Bump(i)
    case AllStopping(_, _, _) => StopRef(i)
    case _ => StartSpec(i, true)
  }

  /** How far the goroutine is from its next `spec.Start`. */
  function Distance(pc: Pc, m: nat): nat {
    match pc
    case AllSnap => 2 * m + 3
    case AllStop(j, n) => if j <= n then 2 * (n - j) + 2 else 0
    case AllStopping(j, n, _) => if j < n then 2 * (n - j - 1) + 3 else 0
    case StartAllInstall(_, _, _) => 1
    case AllInstall(_, _, _) => 1
    case _ => 0
  }

  lemma OnwardCloser(s: State, i: nat, e: Event)
    requires VInv(s) && CanStart(s, i) && e == Onward(s, i) && !e.StartSpec?
    ensures Enabled(s, e)
    ensures var t := Apply(s, e);
      && |t.core.children| == |s.core.children| && CanStart(t, i)
      && Distance(t.threads[i], |t.core.children|) < Distance(s.threads[i], |s.core.children|)
  {
    hide TablesOk, Apart, HandledOk, TargetsOk;
    assert ThreadOk(s, s.threads[i]);
  }
}
