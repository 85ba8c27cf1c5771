/** OneForOne with one `StartAll`: every child has at most one owner, so its incarnations follow
    one another. */
module SupervisorOwnership {
  import opened Basics
  import opened SupervisorMachine
  import V = SupervisorVersions

  /** The goroutine will start child `c`, monitors it, or handles its termination. */
  predicate Owns(pc: Pc, c: nat) {
    match pc
    case StartAllAt(i, n) => i <= c < n
    case StartAllInstall(i, n, _) => i <= c < n
    case MonitorNew(d, _) => d == c
    case MonitorWait(d, _, _) => d == c
    case MonitorCheck(d, _, _) => d == c
    case HandleRead(d, _) => d == c
    case HandleNotify(d, _, _, _, _, _) => d == c
    case HandleGate(d, _) => d == c
    case OneStart(d) => d == c
    case OneInstall(d, _) => d == c
    case _ => false
  }

  predicate OfRestartAll(pc: Pc) {
    pc.AllSnap? || pc.AllStop? || pc.AllStopping? || pc.AllStart? || pc.AllInstall?
  }

  ghost predicate NoRefs(s: State, c: nat) {
    forall q :: 0 <= q < |s.refs| ==> s.refs[q].child != c
  }

  /** Every reference of child `c` other than `r` is done. */
  ghost predicate OthersDone(s: State, c: nat, r: nat) {
    forall q :: 0 <= q < |s.refs| && s.refs[q].child == c && q != r ==> s.refs[q].done
  }

  ghost predicate AllDone(s: State, c: nat) {
    forall q :: 0 <= q < |s.refs| && s.refs[q].child == c ==> s.refs[q].done
  }

  predicate Current(s: State, c: nat, r: nat) { c < |s.core.children| && s.core.children[c].ref == Some(r) }

  predicate Version(s: State, c: nat, ver: nat) { c < |s.core.children| && s.core.children[c].version == ver }

  /** What an owner of child `c` can rely on. */
  ghost predicate OwnerOk(s: State, pc: Pc, c: nat)
    requires Owns(pc, c)
  {
    match pc
    case StartAllAt(_, _) => NoRefs(s, c)
    case StartAllInstall(i, _, r) => if c == i then OthersDone(s, c, r) else NoRefs(s, c)
    case MonitorNew(_, ver) => Version(s, c, ver) && exists r :: Current(s, c, r) && OthersDone(s, c, r)
    case MonitorWait(_, ver, r) => Version(s, c, ver) && Current(s, c, r) && OthersDone(s, c, r)
    case MonitorCheck(_, ver, r) => Version(s, c, ver) && Current(s, c, r) && AllDone(s, c)
    case HandleRead(_, r) => Current(s, c, r) && AllDone(s, c)
    case HandleNotify(_, r, from, _, _, _) => from == r && AllDone(s, c)
    case HandleGate(_, _) => AllDone(s, c)
    case OneStart(_) => AllDone(s, c)
    case OneInstall(_, r) => OthersDone(s, c, r)
  }

  ghost predicate OneLive(s: State, c: nat) {
    forall q, r :: 0 <= q < r < |s.refs| && s.refs[q].child == c == s.refs[r].child ==> s.refs[q].done || s.refs[r].done
  }

  predicate Assumed(s: State) { s.policy.strategy == OneForOne && s.startAlls <= 1 }

  ghost predicate OwnInv(s: State) {
    && (forall t :: 0 <= t < |s.threads| ==> !OfRestartAll(s.threads[t]))
    && (s.startAlls == 0 ==> s.refs == [] && forall t, c :: 0 <= t < |s.threads| ==> !Owns(s.threads[t], c))
    && (forall t, u, c :: 0 <= t < u < |s.threads| && Owns(s.threads[t], c) ==> !Owns(s.threads[u], c))
    && (forall t, c :: 0 <= t < |s.threads| && Owns(s.threads[t], c) ==> OwnerOk(s, s.threads[t], c))
    && (forall c: nat :: OneLive(s, c))
  }

  // ---------------------------------------------------------------- frames

  /** For child `c` nothing changed but that references may be done by now. */
  ghost predicate ChildSame(s: State, t: State, c: nat) {
    && (c < |s.core.children| ==> c < |t.core.children| && t.core.children[c] == s.core.children[c])
    && |s.refs| <= |t.refs|
    && (forall q :: 0 <= q < |s.refs| ==> t.refs[q].child == s.refs[q].child && (s.refs[q].done ==> t.refs[q].done))
    && (forall q :: |s.refs| <= q < |t.refs| ==> t.refs[q].child != c)
  }

  lemma OwnerStays(s: State, t: State, pc: Pc, c: nat)
    requires Owns(pc, c) && OwnerOk(s, pc, c) && ChildSame(s, t, c)
    ensures OwnerOk(t, pc, c)
  {
    if pc.MonitorNew? {
      var r :| Current(s, c, r) && OthersDone(s, c, r);
      assert Current(t, c, r) && OthersDone(t, c, r);
    }
  }

  lemma OneLiveStays(s: State, t: State, c: nat)
    requires OneLive(s, c) && ChildSame(s, t, c)
    ensures OneLive(t, c)
  {
  }

  /** Goroutine `i` moved to `pc`, which owns no child it did not own, and owns them rightly. */
  lemma MoveKeeps(s: State, t: State, i: nat, pc: Pc)
    requires OwnInv(s) && i < |s.threads| && t.threads == s.threads[i := pc] && t.startAlls == s.startAlls
    requires !OfRestartAll(pc) && forall c :: Owns(pc, c) ==> Owns(s.threads[i], c) && OwnerOk(t, pc, c)
    requires s.startAlls == 0 ==> t.refs == []
    requires forall c: nat :: Owns(s.threads[i], c) || ChildSame(s, t, c)
    requires forall c: nat :: OneLive(t, c)
    ensures OwnInv(t)
  {
    forall u, c | 0 <= u < |t.threads| && Owns(t.threads[u], c) ensures OwnerOk(t, t.threads[u], c) {
      if u != i {
        assert Owns(s.threads[u], c) && !Owns(s.threads[i], c);
        OwnerStays(s, t, s.threads[u], c);
      }
    }
  }

  // ---------------------------------------------------------------- steps

  lemma LocalShape(s: State, e: Event)
    requires Enabled(s, e) && Local(e) && s.policy.strategy == OneForOne
    requires !OfRestartAll(s.threads[e.t])
    ensures var pc := Next(s, e);
      !OfRestartAll(pc) && forall c :: Owns(pc, c) ==> Owns(s.threads[e.t], c)
  {
  }

  lemma LocalOwner(s: State, e: Event, c: nat)
    requires V.VInv(s) && OwnInv(s) && Enabled(s, e) && Local(e)
    requires Owns(s.threads[e.t], c) && Owns(Next(s, e), c) && s.policy.strategy == OneForOne
    ensures OwnerOk(s, Next(s, e), c)
  {
    hide V.TablesOk, V.Apart, V.HandledOk, V.TargetsOk;
    assert OwnerOk(s, s.threads[e.t], c);
    assert V.ThreadOk(s, s.threads[e.t]);
  }

  lemma LocalKeeps(s: State, e: Event)
    requires V.VInv(s) && OwnInv(s) && Enabled(s, e) && Local(e) && s.policy.strategy == OneForOne
    ensures OwnInv(Apply(s, e))
  {
    hide V.VInv;
    var t := Apply(s, e);
    LocalShape(s, e);
    forall c: nat ensures ChildSame(s, t, c) && OneLive(t, c) { OneLiveStays(s, t, c); }
    forall c | Owns(Next(s, e), c) ensures OwnerOk(t, Next(s, e), c) {
      LocalOwner(s, e, c);
      OwnerStays(s, t, Next(s, e), c);
    }
    MoveKeeps(s, t, e.t, Next(s, e));
  }

  /** A version check never fails here: the owner's version is the child's. */
  lemma CheckKeeps(s: State, i: nat)
    requires OwnInv(s) && Enabled(s, Check(i))
    ensures s.core.children[s.threads[i].c].version == s.threads[i].ver
    ensures OwnInv(Apply(s, Check(i)))
  {
    var t := Apply(s, Check(i));
    var pc := s.threads[i];
    assert Owns(pc, pc.c) && OwnerOk(s, pc, pc.c);
    forall c: nat ensures ChildSame(s, t, c) && OneLive(t, c) { OneLiveStays(s, t, c); }
    assert OwnerOk(t, HandleRead(pc.c, pc.r), pc.c);
    MoveKeeps(s, t, i, HandleRead(pc.c, pc.r));
  }

  /** A start finds every earlier incarnation of the child done. */
  lemma StartFindsAllDone(s: State, i: nat, ok: bool)
    requires OwnInv(s) && Enabled(s, StartSpec(i, ok))
    ensures AllDone(s, ToStart(s.threads[i]).value)
  {
    var c := ToStart(s.threads[i]).value;
    assert !OfRestartAll(s.threads[i]);
    assert Owns(s.threads[i], c) && OwnerOk(s, s.threads[i], c);
  }

  lemma StartOwner(s: State, i: nat, ok: bool, d: nat)
    requires OwnInv(s) && Enabled(s, StartSpec(i, ok)) && Owns(AfterStart(s.threads[i], ok, |s.refs|), d)
    ensures Owns(s.threads[i], d) && OwnerOk(Apply(s, StartSpec(i, ok)), AfterStart(s.threads[i], ok, |s.refs|), d)
  {
    var c := ToStart(s.threads[i]).value;
    assert !OfRestartAll(s.threads[i]);
    StartFindsAllDone(s, i, ok);
    assert Owns(s.threads[i], d) && OwnerOk(s, s.threads[i], d);
  }

  lemma StartKeeps(s: State, i: nat, ok: bool)
    requires OwnInv(s) && Enabled(s, StartSpec(i, ok))
    ensures OwnInv(Apply(s, StartSpec(i, ok)))
  {
    var t := Apply(s, StartSpec(i, ok));
    var pc := AfterStart(s.threads[i], ok, |s.refs|);
    var c := ToStart(s.threads[i]).value;
    assert !OfRestartAll(s.threads[i]) && Owns(s.threads[i], c);
    StartFindsAllDone(s, i, ok);
    forall d: nat ensures (d == c || ChildSame(s, t, d)) && OneLive(t, d) {
      if d != c { OneLiveStays(s, t, d); } else { assert OneLive(s, d); }
    }
    forall d | Owns(pc, d) ensures Owns(s.threads[i], d) && OwnerOk(t, pc, d) { StartOwner(s, i, ok, d); }
    MoveKeeps(s, t, i, pc);
  }

  lemma InstallShape(s: State, i: nat)
    requires OwnInv(s) && Enabled(s, Install(i)) && V.ThreadOk(s, s.threads[i])
    ensures var (c, r) := ToInstall(s.threads[i]).value;
      var t := Apply(s, Install(i));
      var pc, m := AfterInstall(s.threads[i]), MonitorNew(c, s.core.children[c].version + 1);
      && t.threads == s.threads[i := pc] + [m] && t.startAlls == s.startAlls
      && Owns(s.threads[i], c) && !Owns(pc, c) && !OfRestartAll(pc)
      && (forall d :: Owns(pc, d) ==> Owns(s.threads[i], d))
      && (forall d: nat :: d == c || ChildSame(s, t, d))
      && OwnerOk(t, m, c)
  {
    var (c, r) := ToInstall(s.threads[i]).value;
    var t := Apply(s, Install(i));
    assert !OfRestartAll(s.threads[i]);
    assert Owns(s.threads[i], c) && OwnerOk(s, s.threads[i], c);
    assert Current(t, c, r) && OthersDone(t, c, r);
  }

  lemma InstallOwner(s: State, i: nat, d: nat)
    requires OwnInv(s) && Enabled(s, Install(i)) && Owns(AfterInstall(s.threads[i]), d)
    ensures OwnerOk(Apply(s, Install(i)), AfterInstall(s.threads[i]), d)
  {
    assert !OfRestartAll(s.threads[i]);
    assert Owns(s.threads[i], d) && OwnerOk(s, s.threads[i], d);
  }

  lemma NoOtherOwner(s: State, i: nat, c: nat)
    requires OwnInv(s) && At(s, i) && Owns(s.threads[i], c)
    ensures forall u :: 0 <= u < |s.threads| && u != i ==> !Owns(s.threads[u], c)
  {
  }

  /** Installing a reference hands its child from the starter to the new monitor. */
  lemma InstallKeeps(s: State, i: nat)
    requires OwnInv(s) && Enabled(s, Install(i)) && V.ThreadOk(s, s.threads[i])
    ensures OwnInv(Apply(s, Install(i)))
  {
    var t := Apply(s, Install(i));
    var (c, r) := ToInstall(s.threads[i]).value;
    var n := |s.threads|;
    InstallShape(s, i);
    NoOtherOwner(s, i, c);
    forall d: nat ensures OneLive(t, d) { assert OneLive(s, d); }
    forall u, w, d | 0 <= u < w < |t.threads| && Owns(t.threads[u], d) ensures !Owns(t.threads[w], d) {
      assert Owns(s.threads[u], d);
    }
    forall u, d | 0 <= u < |t.threads| && Owns(t.threads[u], d) ensures OwnerOk(t, t.threads[u], d) {
      if u == i {
        InstallOwner(s, i, d);
      } else if u < n {
        OwnerStays(s, t, s.threads[u], d);
      }
    }
  }

  /** A step that only adds children or marks a reference done, and perhaps starts a goroutine
      that owns nothing. */
  lemma QuietKeeps(s: State, t: State)
    requires OwnInv(s) && t.startAlls == s.startAlls && (s.startAlls == 0 ==> t.refs == [])
    requires |s.threads| <= |t.threads| && t.threads[..|s.threads|] == s.threads
    requires forall u :: |s.threads| <= u < |t.threads| ==> !OfRestartAll(t.threads[u])
    requires forall u, c :: |s.threads| <= u < |t.threads| ==> !Owns(t.threads[u], c)
    requires forall c: nat :: ChildSame(s, t, c)
    ensures OwnInv(t)
  {
    assert forall u :: 0 <= u < |s.threads| ==> t.threads[u] == t.threads[..|s.threads|][u];
    forall c: nat ensures OneLive(t, c) { OneLiveStays(s, t, c); }
    forall u, c | 0 <= u < |t.threads| && Owns(t.threads[u], c) ensures OwnerOk(t, t.threads[u], c) {
      OwnerStays(s, t, s.threads[u], c);
    }
  }

  lemma FirstStartAll(s: State)
    requires OwnInv(s) && s.startAlls == 0 && Enabled(s, CallStartAll)
    ensures OwnInv(Apply(s, CallStartAll))
  {
    var t := Apply(s, CallStartAll);
    assert forall u, c :: 0 <= u < |s.threads| ==> t.threads[u] == s.threads[u] && !Owns(s.threads[u], c);
  }

  lemma StepKeeps(s: State, e: Event)
    requires V.VInv(s) && Enabled(s, e) && (Assumed(s) ==> OwnInv(s))
    ensures Assumed(Apply(s, e)) ==> OwnInv(Apply(s, e))
  {
    hide OwnInv, V.VInv;
    var t := Apply(s, e);
    if Assumed(t) {
      AssumedBefore(s, e);
      match e
      case StartSpec(i, ok) => StartKeeps(s, i, ok);
      case Install(i) => HereOk(s, i); InstallKeeps(s, i);
      case Check(i) => CheckKeeps(s, i);
      case Bump(i) => NoBump(s, i);
      case CallStartAll => FirstStartAll(s);
      case AddChild(_) | Watch | RefDone(_) | CtxEnds | Tick(_) | CallStopAll => EnvironmentKeeps(s, e);
      case _ => LocalKeeps(s, e);
    }
  }

  lemma HereOk(s: State, i: nat)
    requires V.VInv(s) && At(s, i)
    ensures V.ThreadOk(s, s.threads[i])
  {
  }

  lemma AssumedBefore(s: State, e: Event)
    requires Enabled(s, e) && Assumed(Apply(s, e))
    ensures Assumed(s) && (e.CallStartAll? ==> s.startAlls == 0)
  {
  }

  lemma NoBump(s: State, i: nat)
    requires OwnInv(s)
    ensures !Enabled(s, Bump(i))
  {
  }

  lemma EnvironmentKeeps(s: State, e: Event)
    requires OwnInv(s) && Enabled(s, e)
    requires e.AddChild? || e.Watch? || e.RefDone? || e.CtxEnds? || e.Tick? || e.CallStopAll?
    ensures OwnInv(Apply(s, e))
  {
    hide OwnInv, Enabled, Apply;
    EnvironmentShape(s, e);
    QuietKeeps(s, Apply(s, e));
  }

  /** The environment, and a new `StopAll`, add no owner and leave every child's references alone. */
  lemma EnvironmentShape(s: State, e: Event)
    requires OwnInv(s) && Enabled(s, e)
    requires e.AddChild? || e.Watch? || e.RefDone? || e.CtxEnds? || e.Tick? || e.CallStopAll?
    ensures var t := Apply(s, e);
      && t.startAlls == s.startAlls && (s.startAlls == 0 ==> t.refs == [])
      && |s.threads| <= |t.threads| && t.threads[..|s.threads|] == s.threads
      && (forall u :: |s.threads| <= u < |t.threads| ==> !OfRestartAll(t.threads[u]))
      && (forall u, c :: |s.threads| <= u < |t.threads| ==> !Owns(t.threads[u], c))
      && (forall c: nat :: ChildSame(s, t, c))
  {
    var t := Apply(s, e);
    assert forall u :: |s.threads| <= u < |t.threads| ==> t.threads[u].StopAllAt?;
  }

  lemma {:induction false} RunKeeps(s: State, evs: seq<Event>)
    requires V.VInv(s) && Runnable(s, evs) && (Assumed(s) ==> OwnInv(s))
    ensures V.VInv(Exec(s, evs)) && (Assumed(Exec(s, evs)) ==> OwnInv(Exec(s, evs)))
    decreases |evs|
  {
    if evs != [] {
      V.StepKeeps(s, evs[0]);
      StepKeeps(s, evs[0]);
      RunKeeps(Apply(s, evs[0]), evs[1..]);
    }
  }

  lemma ReachableOwn(s: State)
    requires Reachable(s) && Assumed(s)
    ensures OwnInv(s)
  {
    var p: Policy, clock: int, evs: seq<Event> :| Runnable(Init(p, clock), evs) && Exec(Init(p, clock), evs) == s;
    RunKeeps(Init(p, clock), evs);
  }

  /** Single ownership. Under OneForOne with one `StartAll`, in every reachable state a child has at
      most one goroutine that will start it, monitors it or handles its termination, and at most
      one incarnation that is not done. */
  lemma SingleOwner(s: State, c: nat, t: nat, u: nat, q: nat, r: nat)
    requires Reachable(s) && Assumed(s)
    requires At(s, t) && At(s, u) && q < |s.refs| && r < |s.refs|
    ensures Owns(s.threads[t], c) && Owns(s.threads[u], c) ==> t == u
    ensures s.refs[q].child == c == s.refs[r].child && !s.refs[q].done && !s.refs[r].done ==> q == r
  {
    ReachableOwn(s);
    assert OneLive(s, c);
    assert t < u && Owns(s.threads[t], c) ==> !Owns(s.threads[u], c);
    assert u < t && Owns(s.threads[u], c) ==> !Owns(s.threads[t], c);
  }

  predicate Fired(s: State, r: nat) { r < |s.refs| && s.refs[r].done }

  /** Incarnations follow one another: `spec.Start` is called for a child only when the `Done` of
      every earlier incarnation has fired; every termination a monitor sees passes its version
      check; and the state read while handling one is that of the incarnation that terminated. */
  lemma IncarnationsFollowOneAnother(s: State, i: nat)
    requires Reachable(s) && Assumed(s) && At(s, i)
    ensures ToStart(s.threads[i]).Some? ==> AllDone(s, ToStart(s.threads[i]).value)
    ensures s.threads[i].MonitorCheck? && Enabled(s, Check(i)) ==> Apply(s, Check(i)).threads[i].HandleRead?
    ensures s.threads[i].HandleNotify? ==> s.threads[i].from == s.threads[i].r && Fired(s, s.threads[i].r)
  {
    ReachableOwn(s);
    V.ReachedVInv(s);
    var pc := s.threads[i];
    if ToStart(pc).Some? {
      assert Enabled(s, StartSpec(i, true));
      StartFindsAllDone(s, i, true);
    }
    if pc.MonitorCheck? && Enabled(s, Check(i)) { CheckKeeps(s, i); }
    if pc.HandleNotify? { assert Owns(pc, pc.c) && OwnerOk(s, pc, pc.c) && V.ThreadOk(s, pc); }
  }
}
