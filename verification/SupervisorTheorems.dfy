/** What the supervisor guarantees under both strategies, over every run. */
module SupervisorTheorems {
  import opened Basics
  import opened RestartWindow
  import opened SupervisorMachine
  import opened SupervisorVersions

  /** Restart cascade freedom: a reference that `restartAll` captured while it was still running is
      never handled. Whatever the interleaving, and however many `restartAll`s overlap, every
      monitor that watches it fails the version check, now and after any further run; so its
      termination reaches no watcher and no restart. */
  lemma NoCascade(s: State, evs: seq<Event>, r: nat, i: nat)
    requires Reachable(s) && r in s.targets && Runnable(s, evs)
    ensures var t := Exec(s, evs);
      && r in t.targets && r !in t.handled
      && (forall k :: 0 <= k < |t.calls| ==> t.calls[k].1 != r)
      && (At(t, i) && t.threads[i].MonitorCheck? && t.threads[i].r == r && Enabled(t, Check(i)) ==>
            Apply(t, Check(i)).threads[i] == Ended)
  {
    hide Reachable, VInv, CallsInv;
    TargetsGrow(s, evs);
    ReachableMore(s, evs);
    TargetUnhandled(Exec(s, evs), r, i);
  }

  lemma TargetUnhandled(t: State, r: nat, i: nat)
    requires Reachable(t) && r in t.targets
    ensures r !in t.handled && forall k :: 0 <= k < |t.calls| ==> t.calls[k].1 != r
    ensures At(t, i) && t.threads[i].MonitorCheck? && t.threads[i].r == r && Enabled(t, Check(i)) ==>
      Apply(t, Check(i)).threads[i] == Ended
  {
    hide Reachable;
    ReachedVInv(t);
    ReachableCalls(t);
    if At(t, i) && t.threads[i].MonitorCheck? && t.threads[i].r == r { assert ThreadOk(t, t.threads[i]); }
  }

  /** Whatever `restartAll` is about to stop was terminated already when it was captured, or is one
      of the references of `NoCascade`. */
  lemma StopsOnlyTargetsOrDone(s: State, i: nat)
    requires Reachable(s) && At(s, i) && s.threads[i].AllStopping?
    ensures var r := s.threads[i].r; r < |s.refs| && (s.refs[r].done || r in s.targets)
  {
    ReachedVInv(s);
    assert ThreadOk(s, s.threads[i]);
  }

  lemma TargetStep(s: State, e: Event)
    requires Enabled(s, e)
    ensures s.targets <= Apply(s, e).targets && s.handled <= Apply(s, e).handled
  {
  }

  lemma {:induction false} TargetsGrow(s: State, evs: seq<Event>)
    requires Runnable(s, evs)
    ensures s.targets <= Exec(s, evs).targets && s.handled <= Exec(s, evs).handled
    decreases |evs|
  {
    if evs != [] {
      TargetStep(s, evs[0]);
      TargetsGrow(Apply(s, evs[0]), evs[1..]);
    }
  }

  lemma {:induction false} ExecAppend(s: State, a: seq<Event>, b: seq<Event>)
    requires Runnable(s, a) && Runnable(Exec(s, a), b)
    ensures Runnable(s, a + b) && Exec(s, a + b) == Exec(Exec(s, a), b)
    decreases |a|
  {
    if a == [] {
      assert a + b == b;
    } else {
      assert (a + b)[0] == a[0] && (a + b)[1..] == a[1..] + b;
      ExecAppend(Apply(s, a[0]), a[1..], b);
    }
  }

  lemma ReachableMore(s: State, more: seq<Event>)
    requires Reachable(s) && Runnable(s, more)
    ensures Reachable(Exec(s, more))
  {
    var p: Policy, clock: int, evs: seq<Event> :| Runnable(Init(p, clock), evs) && Exec(Init(p, clock), evs) == s;
    ExecAppend(Init(p, clock), evs, more);
  }

  // ---------------------------------------------------------------- watcher calls

  /** Each watcher was called at most once for a reference, and only by the goroutine handling it. */
  ghost predicate CallsInv(s: State) {
    && NoDup(s.calls)
    && (forall i :: 0 <= i < |s.calls| ==> s.calls[i].1 in s.handled)
    && (forall t :: 0 <= t < |s.threads| ==> CallsSoFar(s, s.threads[t]))
  }

  /** A goroutine about to call watcher `k` for its reference has called only earlier ones. */
  ghost predicate CallsSoFar(s: State, pc: Pc) {
    match pc
    case HandleRead(_, r) => forall i :: 0 <= i < |s.calls| ==> s.calls[i].1 != r
    case HandleNotify(_, r, _, _, k, _) => forall i :: 0 <= i < |s.calls| && s.calls[i].1 == r ==> s.calls[i].0 < k
    case _ => true
  }

  lemma CallsStep(s: State, e: Event)
    requires VInv(s) && CallsInv(s) && Enabled(s, e)
    ensures CallsInv(Apply(s, e))
  {
    if e.Notify? { NotifyStep(s, e.t); }
    else if e.Check? { CheckStep(s, e.t); }
    else { OtherStep(s, e); }
  }

  lemma NotifyStep(s: State, i: nat)
    requires VInv(s) && CallsInv(s) && Enabled(s, Notify(i))
    ensures CallsInv(Apply(s, Notify(i)))
  {
    hide ThreadOk;
    var t := Apply(s, Notify(i));
    var pc := s.threads[i];
    assert CallsSoFar(s, pc) && Handling(pc) == Some(pc.r);
    forall j | 0 <= j < |t.threads| ensures CallsSoFar(t, t.threads[j]) {
      assert CallsSoFar(s, s.threads[j]);
      if j < i { assert !Clash(s.threads[j], s.threads[i]); }
      if j > i { assert !Clash(s.threads[i], s.threads[j]); }
    }
  }

  lemma CheckStep(s: State, i: nat)
    requires VInv(s) && CallsInv(s) && Enabled(s, Check(i))
    ensures CallsInv(Apply(s, Check(i)))
  {
    hide ThreadOk;
    var t := Apply(s, Check(i));
    if s.core.children[s.threads[i].c].version == s.threads[i].ver { CurrentIsNew(s, i); }
    forall j | 0 <= j < |t.threads| ensures CallsSoFar(t, t.threads[j]) {
      assert CallsSoFar(s, s.threads[j]);
    }
  }

  lemma OtherShape(s: State, e: Event, j: nat)
    requires Enabled(s, e) && !e.Notify? && !e.Check? && j < |Apply(s, e).threads|
    ensures var t := Apply(s, e);
      && t.calls == s.calls && t.handled == s.handled
      && (j < |s.threads| && t.threads[j] != s.threads[j] && t.threads[j].HandleNotify? ==>
            s.threads[j].HandleRead? && t.threads[j].r == s.threads[j].r)
      && (t.threads[j].HandleRead? ==> j < |s.threads| && t.threads[j] == s.threads[j])
      && (j >= |s.threads| ==> !t.threads[j].HandleNotify?)
  {
  }

  lemma OtherStep(s: State, e: Event)
    requires CallsInv(s) && Enabled(s, e) && !e.Notify? && !e.Check?
    ensures CallsInv(Apply(s, e))
  {
    hide Enabled;
    var t := Apply(s, e);
    forall j | 0 <= j < |t.threads| ensures CallsSoFar(t, t.threads[j]) {
      OtherShape(s, e, j);
      if j < |s.threads| { assert CallsSoFar(s, s.threads[j]); }
    }
    if |t.threads| == 0 { SameCalls(s, e); } else { OtherShape(s, e, 0); }
  }

  lemma SameCalls(s: State, e: Event)
    requires Enabled(s, e) && !e.Notify? && !e.Check?
    ensures Apply(s, e).calls == s.calls && Apply(s, e).handled == s.handled
  {
  }

  lemma {:induction false} CallsRun(s: State, evs: seq<Event>)
    requires VInv(s) && CallsInv(s) && Runnable(s, evs)
    ensures CallsInv(Exec(s, evs))
    decreases |evs|
  {
    if evs != [] {
      StepKeeps(s, evs[0]);
      CallsStep(s, evs[0]);
      CallsRun(Apply(s, evs[0]), evs[1..]);
    }
  }

  lemma ReachableCalls(s: State)
    requires Reachable(s)
    ensures CallsInv(s)
  {
    var p: Policy, clock: int, evs: seq<Event> :| Runnable(Init(p, clock), evs) && Exec(Init(p, clock), evs) == s;
    CallsRun(Init(p, clock), evs);
  }

  // ---------------------------------------------------------------- versions

  lemma VersionStep(s: State, e: Event, c: nat)
    requires Enabled(s, e) && c < |s.core.children|
    ensures var t := Apply(s, e);
      && c < |t.core.children| && s.core.children[c].version <= t.core.children[c].version
      && (s.core.children[c].version == t.core.children[c].version ==> t.core.children[c] == s.core.children[c])
  {
  }

  /** A child's version never goes back, and while it stands still the reference does too. */
  lemma {:induction false} VersionsGrow(s: State, evs: seq<Event>, c: nat)
    requires Runnable(s, evs) && c < |s.core.children|
    ensures var t := Exec(s, evs);
      && c < |t.core.children| && s.core.children[c].version <= t.core.children[c].version
      && (s.core.children[c].version == t.core.children[c].version ==> t.core.children[c] == s.core.children[c])
    decreases |evs|
  {
    if evs != [] {
      VersionStep(s, evs[0], c);
      VersionsGrow(Apply(s, evs[0]), evs[1..], c);
    }
  }

  /** No two references of one child were installed with the same version. */
  ghost predicate OwnVersions(s: State) {
    forall q, r :: 0 <= q < r < |s.refs| && s.refs[q].child == s.refs[r].child && s.refs[q].ver.Some? ==>
      s.refs[q].ver != s.refs[r].ver
  }

  lemma OwnVersionsStep(s: State, e: Event)
    requires VInv(s) && OwnVersions(s) && Enabled(s, e)
    ensures OwnVersions(Apply(s, e))
  {
    if e.Install? {
      HereOk(s, e.t);
      InstallVersions(s, e.t);
    } else {
      OtherRefs(s, e);
    }
  }

  lemma HereOk(s: State, i: nat)
    requires VInv(s) && At(s, i)
    ensures ThreadOk(s, s.threads[i]) && TablesOk(s)
  {
  }

  lemma InstallVersions(s: State, i: nat)
    requires OwnVersions(s) && TablesOk(s) && Enabled(s, Install(i)) && ThreadOk(s, s.threads[i])
    ensures OwnVersions(Apply(s, Install(i)))
  {
    var (c, r) := ToInstall(s.threads[i]).value;
    var t := Apply(s, Install(i));
    assert t.refs == s.refs[r := s.refs[r].(ver := Some(s.core.children[c].version + 1))];
  }

  lemma OtherRefs(s: State, e: Event)
    requires Enabled(s, e) && !e.Install?
    ensures var t := Apply(s, e);
      && |s.refs| <= |t.refs|
      && (forall r :: 0 <= r < |s.refs| ==> t.refs[r].child == s.refs[r].child && t.refs[r].ver == s.refs[r].ver)
      && (forall r :: |s.refs| <= r < |t.refs| ==> t.refs[r].ver == None)
  {
  }

  lemma {:induction false} OwnVersionsRun(s: State, evs: seq<Event>)
    requires VInv(s) && OwnVersions(s) && Runnable(s, evs)
    ensures OwnVersions(Exec(s, evs))
    decreases |evs|
  {
    if evs != [] {
      StepKeeps(s, evs[0]);
      OwnVersionsStep(s, evs[0]);
      OwnVersionsRun(Apply(s, evs[0]), evs[1..]);
    }
  }

  /** Every installed reference has a version of its own among the references of its child. */
  lemma VersionsNameIncarnations(s: State)
    requires Reachable(s)
    ensures OwnVersions(s)
  {
    var p: Policy, clock: int, evs: seq<Event> :| Runnable(Init(p, clock), evs) && Exec(Init(p, clock), evs) == s;
    OwnVersionsRun(Init(p, clock), evs);
  }

  // ---------------------------------------------------------------- monitor coherence

  /** Monitors of one child hold distinct versions, never above the child's; one whose version is
      current watches the child's current reference, which was installed with that version. */
  lemma MonitorsAreCoherent(s: State, t: nat, u: nat)
    requires Reachable(s) && At(s, t) && At(s, u) && MonitorKey(s.threads[t]).Some?
    ensures var (c, ver) := MonitorKey(s.threads[t]).value;
      && c < |s.core.children| && ver <= s.core.children[c].version
      && (t != u ==> MonitorKey(s.threads[u]) != Some((c, ver)))
      && (ver == s.core.children[c].version ==>
            && s.core.children[c].ref.Some?
            && s.core.children[c].ref.value < |s.refs|
            && s.refs[s.core.children[c].ref.value].ver == Some(ver)
            && (!s.threads[t].MonitorNew? ==> s.core.children[c].ref == Some(s.threads[t].r)))
  {
    ReachedVInv(s);
    assert ThreadOk(s, s.threads[t]);
    if t < u { assert !Clash(s.threads[t], s.threads[u]); }
    if u < t { assert !Clash(s.threads[u], s.threads[t]); }
  }

  /** The references of child `c`. */
  function StartsOf(s: State, c: nat): set<nat> {
    set r | 0 <= r < |s.refs| && s.refs[r].child == c
  }

  function HandledOf(s: State, c: nat): set<nat> {
    set r | r in s.handled && r < |s.refs| && s.refs[r].child == c
  }

  /** The references of child `c` for which watcher `w` was called. */
  function CallsOf(s: State, c: nat, w: nat): set<nat> {
    set r | 0 <= r < |s.refs| && s.refs[r].child == c && (w, r) in s.calls
  }

  lemma SubsetSize(a: set<nat>, b: set<nat>)
    requires a <= b
    ensures |a| <= |b|
  {
    if a != {} {
      var x :| x in a;
      SubsetSize(a - {x}, b - {x});
    }
  }

  /** No termination is handled twice and no watcher is called twice for one: the handled
      terminations of a child never exceed its successful starts, nor do any watcher's calls. */
  lemma HandledAtMostStarted(s: State, c: nat, w: nat)
    requires Reachable(s)
    ensures NoDup(s.handled) && NoDup(s.calls)
    ensures |CallsOf(s, c, w)| <= |HandledOf(s, c)| <= |StartsOf(s, c)|
  {
    ReachedVInv(s);
    ReachableCalls(s);
    assert HandledOf(s, c) <= StartsOf(s, c);
    SubsetSize(HandledOf(s, c), StartsOf(s, c));
    forall r | r in CallsOf(s, c, w) ensures r in HandledOf(s, c) {
      var i :| 0 <= i < |s.calls| && s.calls[i] == (w, r);
      assert s.calls[i].1 in s.handled;
    }
    SubsetSize(CallsOf(s, c, w), HandledOf(s, c));
  }

  // ---------------------------------------------------------------- the limiter

  /** The limiter's list is the replay of the attempts so far, and its verdicts follow from it. */
  ghost predicate LimitInv(s: State) {
    && s.core.restarts == Window(Times(s.hist), s.policy.within)
    && Decided(s.hist, s.policy.maxRestarts, s.policy.within)
    && NonDecreasing(Times(s.hist))
    && (forall i :: 0 <= i < |s.hist| ==> s.hist[i].at <= s.clock)
    && (s.hist != [] ==> s.policy.maxRestarts > 0)
  }

  lemma LimitStep(s: State, e: Event)
    requires LimitInv(s) && Enabled(s, e)
    ensures LimitInv(Apply(s, e))
  {
    if e.Gate? && Judged(s) { GateStep(s, e); } else { LimitSame(s, e); }
  }

  lemma LimitSame(s: State, e: Event)
    requires Enabled(s, e) && !(e.Gate? && Judged(s))
    ensures var t := Apply(s, e);
      t.hist == s.hist && t.core.restarts == s.core.restarts && t.policy == s.policy && s.clock <= t.clock
  {
  }

  lemma GateStep(s: State, e: Event)
    requires LimitInv(s) && Enabled(s, e) && e.Gate? && Judged(s)
    ensures LimitInv(Apply(s, e))
  {
    hide Window, Decided;
    var t := Apply(s, e);
    var granted := GateVerdict(s.core, s.policy, s.clock).Granted?;
    assert t.hist == s.hist + [Attempt(s.clock, granted)];
    DecidedAppend(s.hist, Attempt(s.clock, granted), s.policy.maxRestarts, s.policy.within);
    TimesAppend(s.hist, Attempt(s.clock, granted));
  }

  lemma {:induction false} LimitRun(s: State, evs: seq<Event>)
    requires LimitInv(s) && Runnable(s, evs)
    ensures LimitInv(Exec(s, evs))
    decreases |evs|
  {
    if evs != [] {
      LimitStep(s, evs[0]);
      LimitRun(Apply(s, evs[0]), evs[1..]);
    }
  }

  lemma LimitAtStart(p: Policy, clock: int)
    ensures LimitInv(Init(p, clock))
  {
  }

  lemma ReachableLimit(s: State)
    requires Reachable(s)
    ensures LimitInv(s)
  {
    var p: Policy, clock: int, evs: seq<Event> :| Runnable(Init(p, clock), evs) && Exec(Init(p, clock), evs) == s;
    LimitRun(Init(p, clock), evs);
  }

  /** Sliding-window bound, in every reachable state: the trimmed list is exactly the judged attempts
      (granted and refused) of the last window, and no closed interval of the window's length
      contains more than `maxRestarts` granted restarts. */
  lemma RestartsAreLimited(s: State, a: int)
    requires Reachable(s) && s.policy.maxRestarts > 0
    ensures s.hist != [] ==>
      s.core.restarts == Since(Times(s.hist), s.hist[|s.hist| - 1].at - s.policy.within)
    ensures GrantsIn(s.hist, a, a + s.policy.within) <= s.policy.maxRestarts
  {
    hide Reachable, Window, Decided;
    ReachableLimit(s);
    if s.hist != [] { WindowIsRecentHistory(Times(s.hist), s.policy.within); }
    AtMostMaxPerWindow(s.hist, s.policy.maxRestarts, s.policy.within, a);
  }
}
