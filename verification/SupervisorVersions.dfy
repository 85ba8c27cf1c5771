/** Versions, monitors and terminations: what holds under both strategies, however the
    goroutines of the supervisor interleave. */
module SupervisorVersions {
  import opened Basics
  import opened SupervisorMachine

  /** The version a monitor was started with, and its child, until it passes or fails the check. */
  function MonitorKey(pc: Pc): Option<(nat, nat)> {
    match pc
    case MonitorNew(c, ver) => Some((c, ver))
    case MonitorWait(c, ver, _) => Some((c, ver))
    case MonitorCheck(c, ver, _) => Some((c, ver))
    case _ => None
  }

  /** The reference whose termination the goroutine is handling. */
  function Handling(pc: Pc): Option<nat> {
    match pc
    case HandleRead(_, r) => Some(r)
    case HandleNotify(_, r, _, _, _, _) => Some(r)
    case HandleGate(_, r) => Some(r)
    case _ => None
  }

  function Installing(pc: Pc): Option<nat> {
    if ToInstall(pc).Some? then Some(ToInstall(pc).value.1) else None
  }

  /** Two goroutines may not have the same version of a child, or the same reference in hand. */
  predicate Clash(p: Pc, q: Pc) {
    || (MonitorKey(p).Some? && MonitorKey(p) == MonitorKey(q))
    || (Handling(p).Some? && Handling(p) == Handling(q))
    || (Installing(p).Some? && Installing(p) == Installing(q))
  }

  ghost predicate Apart(s: State) {
    forall t, u :: 0 <= t < u < |s.threads| ==> !Clash(s.threads[t], s.threads[u])
  }

  ghost predicate TablesOk(s: State) {
    && (forall r :: 0 <= r < |s.refs| ==>
          s.refs[r].child < |s.core.children|
          && (s.refs[r].ver.Some? ==> s.refs[r].ver.value <= s.core.children[s.refs[r].child].version))
    && (forall c :: 0 <= c < |s.core.children| && s.core.children[c].ref.Some? ==>
          Installed(s, c, s.core.children[c].ref.value))
  }

  predicate Installed(s: State, c: nat, r: nat) { r < |s.refs| && s.refs[r].child == c && s.refs[r].ver.Some? }

  /** If `ver` is child `c`'s version, its reference is the one installed with `ver`. */
  predicate Coherent(s: State, c: nat, ver: nat) {
    && c < |s.core.children| && ver <= s.core.children[c].version && s.core.children[c].ref.Some?
    && (ver == s.core.children[c].version ==>
          var r := s.core.children[c].ref.value; r < |s.refs| && s.refs[r].ver == Some(ver))
  }

  /** The monitor's reference is its child's, and the current one if its version is current. */
  predicate Watching(s: State, c: nat, ver: nat, r: nat) {
    && Coherent(s, c, ver) && Installed(s, c, r)
    && (ver == s.core.children[c].version ==> s.core.children[c].ref == Some(r))
  }

  predicate Pending(s: State, c: nat, r: nat) {
    c < |s.core.children| && r < |s.refs| && s.refs[r].child == c && s.refs[r].ver.None?
  }

  predicate HandlingOk(s: State, c: nat, r: nat) {
    c < |s.core.children| && s.core.children[c].ref.Some? && Installed(s, c, r) && s.refs[r].done
  }

  predicate ThreadOk(s: State, pc: Pc) {
    var m := |s.core.children|;
    match pc
    case StartAllAt(i, n) => i <= n <= m
    case StartAllInstall(i, n, r) => i < n <= m && Pending(s, i, r)
    case MonitorNew(c, ver) => Coherent(s, c, ver)
    case MonitorWait(c, ver, r) => Watching(s, c, ver, r)
    case MonitorCheck(c, ver, r) => Watching(s, c, ver, r) && s.refs[r].done
    case HandleRead(c, r) => HandlingOk(s, c, r)
    case HandleNotify(c, r, from, _, k, w) => HandlingOk(s, c, r) && k <= w && Installed(s, c, from)
    case HandleGate(c, r) => HandlingOk(s, c, r)
    case OneStart(c) => c < m
    case OneInstall(c, r) => Pending(s, c, r)
    case AllSnap => true
    case AllStop(i, n) => i <= n <= m
    case AllStopping(i, n, r) => i < n <= m && Installed(s, i, r) && (r in s.targets || s.refs[r].done)
    case AllStart(i, n) => i <= n <= m
    case AllInstall(i, n, r) => i < n <= m && Pending(s, i, r)
    case StopAllAt(i) => i <= m
    case StopAllStopping(i, r) => i < m && Installed(s, i, r)
    case Ended => true
  }

  ghost predicate ThreadsOk(s: State) {
    forall t :: 0 <= t < |s.threads| ==> ThreadOk(s, s.threads[t])
  }

  /** References whose termination was handled: each once, and with no monitor of its version left. */
  ghost predicate HandledOk(s: State) {
    && NoDup(s.handled)
    && (forall r :: r in s.handled ==> r < |s.refs| && s.refs[r].done && s.refs[r].ver.Some? && r !in s.targets)
    && (forall t :: 0 <= t < |s.threads| && Handling(s.threads[t]).Some? ==> Handling(s.threads[t]).value in s.handled)
    && (forall t, r :: 0 <= t < |s.threads| && r in s.handled ==> !Owed(s, s.threads[t], r))
  }

  /** The goroutine is the monitor that was started when `r` was installed. */
  predicate Owed(s: State, pc: Pc, r: nat) {
    r < |s.refs| && MonitorKey(pc).Some? && MonitorKey(pc).value.0 == s.refs[r].child
    && s.refs[r].ver == Some(MonitorKey(pc).value.1)
  }

  /** References `restartAll` captured while they ran: their version was bumped past for good. */
  ghost predicate TargetsOk(s: State) {
    forall r :: r in s.targets ==>
      r < |s.refs| && s.refs[r].child < |s.core.children| && s.refs[r].ver.Some?
      && s.refs[r].ver.value < s.core.children[s.refs[r].child].version
  }

  ghost predicate VInv(s: State) {
    TablesOk(s) && ThreadsOk(s) && Apart(s) && HandledOk(s) && TargetsOk(s)
  }

  // ---------------------------------------------------------------- frames

  /** What every step respects: children and references are only added, versions only grow, an
      installed reference keeps its version, and a child whose version stands still is unchanged. */
  ghost predicate Evolves(s: State, t: State) {
    && |s.core.children| <= |t.core.children| && |s.refs| <= |t.refs| && s.targets <= t.targets
    && (forall c :: 0 <= c < |s.core.children| ==>
          && s.core.children[c].version <= t.core.children[c].version
          && (s.core.children[c].ref.Some? ==> t.core.children[c].ref.Some?)
          && (s.core.children[c].version == t.core.children[c].version ==> t.core.children[c] == s.core.children[c]))
    && (forall r :: 0 <= r < |s.refs| ==>
          && t.refs[r].child == s.refs[r].child && (s.refs[r].done ==> t.refs[r].done)
          && (s.refs[r].ver.Some? ==> t.refs[r].ver == s.refs[r].ver))
  }

  /** The reference the goroutine is about to install is still not installed. */
  predicate StillPending(t: State, pc: Pc) {
    Installing(pc).Some? && Installing(pc).value < |t.refs| ==> t.refs[Installing(pc).value].ver.None?
  }

  lemma ThreadStays(s: State, t: State, pc: Pc)
    requires Evolves(s, t) && ThreadOk(s, pc) && StillPending(t, pc)
    ensures ThreadOk(t, pc)
  {
  }

  /** Goroutine `i` moved and perhaps others were started; the rest stayed where they were. */
  ghost predicate OnlyMoved(s: State, t: State, i: int) {
    && |s.threads| <= |t.threads|
    && (forall j :: 0 <= j < |s.threads| && j != i ==> t.threads[j] == s.threads[j])
  }

  lemma RestStays(s: State, t: State, i: int)
    requires ThreadsOk(s) && Evolves(s, t) && OnlyMoved(s, t, i)
    requires 0 <= i < |s.threads| ==> ThreadOk(t, t.threads[i])
    requires forall j :: |s.threads| <= j < |t.threads| ==> ThreadOk(t, t.threads[j])
    requires forall j :: 0 <= j < |s.threads| && j != i ==> StillPending(t, s.threads[j])
    ensures ThreadsOk(t)
  {
    forall j | 0 <= j < |t.threads| ensures ThreadOk(t, t.threads[j]) {
      if j < |s.threads| && j != i { ThreadStays(s, t, s.threads[j]); }
    }
  }

  /** `q` holds nothing that `p` did not. */
  predicate Lighter(p: Pc, q: Pc) {
    && (MonitorKey(q).Some? ==> MonitorKey(q) == MonitorKey(p))
    && (Handling(q).Some? ==> Handling(q) == Handling(p))
    && (Installing(q).Some? ==> Installing(q) == Installing(p))
  }

  lemma ApartMove(s: State, t: State, i: nat, pc: Pc)
    requires Apart(s) && i < |s.threads| && t.threads == s.threads[i := pc] && Lighter(s.threads[i], pc)
    ensures Apart(t)
  {
    forall j, k | 0 <= j < k < |t.threads| ensures !Clash(t.threads[j], t.threads[k]) {
      assert !Clash(s.threads[j], s.threads[k]);
    }
  }

  lemma PendingKept(s: State, t: State)
    requires ThreadsOk(s) && t.refs == s.refs
    ensures forall j :: 0 <= j < |s.threads| ==> StillPending(t, s.threads[j])
  {
    forall j | 0 <= j < |s.threads| ensures StillPending(t, s.threads[j]) {
      assert ThreadOk(s, s.threads[j]);
    }
  }

  // ---------------------------------------------------------------- local steps

  lemma NextIsLighter(s: State, e: Event)
    requires Enabled(s, e) && Local(e)
    ensures At(s, e.t) && Lighter(s.threads[e.t], Next(s, e)) && Installing(Next(s, e)).None?
  {
  }

  lemma NextIsOk(s: State, e: Event)
    requires TablesOk(s) && Enabled(s, e) && Local(e) && ThreadOk(s, s.threads[e.t])
    ensures ThreadOk(s, Next(s, e))
  {
  }

  lemma LocalKeeps(s: State, e: Event)
    requires VInv(s) && Enabled(s, e) && Local(e)
    ensures VInv(Apply(s, e))
  {
    hide Enabled, Next, ThreadOk;
    var t := Apply(s, e);
    NextIsLighter(s, e);
    NextIsOk(s, e);
    assert t.core.children == s.core.children;
    ThreadStays(s, t, Next(s, e)) by { assert Evolves(s, t); }
    PendingKept(s, t);
    RestStays(s, t, e.t);
    ApartMove(s, t, e.t, Next(s, e));
    HandledMove(s, t, e.t, Next(s, e));
  }

  lemma HandledMove(s: State, t: State, i: nat, pc: Pc)
    requires HandledOk(s) && i < |s.threads| && t.threads == s.threads[i := pc] && Lighter(s.threads[i], pc)
    requires t.handled == s.handled && t.refs == s.refs && t.targets == s.targets
    ensures HandledOk(t)
  {
    forall j, r | 0 <= j < |t.threads| && r in t.handled ensures !Owed(t, t.threads[j], r) {
      assert !Owed(s, s.threads[j], r);
    }
  }

  // ---------------------------------------------------------------- shared steps

  lemma AddChildKeeps(s: State, name: string)
    requires VInv(s) && Enabled(s, AddChild(name))
    ensures VInv(Apply(s, AddChild(name)))
  {
    var t := Apply(s, AddChild(name));
    PendingKept(s, t);
    RestStays(s, t, -1);
    assert forall j, r :: 0 <= j < |t.threads| && r in t.handled ==>
      (Owed(t, t.threads[j], r) <==> Owed(s, s.threads[j], r));
  }

  lemma RefDoneKeeps(s: State, q: nat)
    requires VInv(s) && Enabled(s, RefDone(q))
    ensures VInv(Apply(s, RefDone(q)))
  {
    var t := Apply(s, RefDone(q));
    forall j | 0 <= j < |s.threads| ensures StillPending(t, s.threads[j]) {
      assert ThreadOk(s, s.threads[j]);
    }
    RestStays(s, t, -1);
    assert forall j, r :: 0 <= j < |t.threads| && r in t.handled ==>
      (Owed(t, t.threads[j], r) <==> Owed(s, s.threads[j], r));
  }

  /** A goroutine that starts with nothing in hand. */
  lemma EnterKeeps(s: State, t: State, pc: Pc)
    requires VInv(s) && t.threads == s.threads + [pc] && ThreadOk(s, pc)
    requires MonitorKey(pc).None? && Handling(pc).None? && Installing(pc).None?
    requires t.core.children == s.core.children && t.refs == s.refs && t.handled == s.handled && t.targets == s.targets
    ensures VInv(t)
  {
    hide ThreadOk;
    PendingKept(s, t);
    ThreadStays(s, t, pc);
    RestStays(s, t, -1);
    forall j, k | 0 <= j < k < |t.threads| ensures !Clash(t.threads[j], t.threads[k]) {
      if k < |s.threads| { assert !Clash(s.threads[j], s.threads[k]); }
    }
    forall j, r | 0 <= j < |t.threads| && r in t.handled ensures !Owed(t, t.threads[j], r) {
      if j < |s.threads| { assert !Owed(s, s.threads[j], r); }
    }
  }

  /** Nothing that the invariant speaks of changed. */
  lemma SameKeeps(s: State, t: State)
    requires VInv(s) && t.threads == s.threads
    requires t.core.children == s.core.children && t.refs == s.refs && t.handled == s.handled && t.targets == s.targets
    ensures VInv(t)
  {
    PendingKept(s, t);
    RestStays(s, t, -1);
    assert forall j, r :: 0 <= j < |t.threads| && r in t.handled ==>
      (Owed(t, t.threads[j], r) <==> Owed(s, s.threads[j], r));
  }

  lemma StartKeeps(s: State, i: nat, ok: bool)
    requires VInv(s) && Enabled(s, StartSpec(i, ok))
    ensures VInv(Apply(s, StartSpec(i, ok)))
  {
    hide Enabled, Apply, TablesOk, Apart, HandledOk, TargetsOk, StillPending;
    StartFrame(s, i, ok);
    StartShape(s, i, ok);
    StartPending(s, i, ok);
    RestStays(s, Apply(s, StartSpec(i, ok)), i);
    StartApart(s, i, ok);
    StartOwed(s, i, ok);
  }

  lemma StartFrame(s: State, i: nat, ok: bool)
    requires VInv(s) && Enabled(s, StartSpec(i, ok))
    ensures var t := Apply(s, StartSpec(i, ok));
      && At(s, i) && ThreadOk(s, s.threads[i]) && |t.threads| == |s.threads|
      && Evolves(s, t) && OnlyMoved(s, t, i) && TablesOk(t) && TargetsOk(t)
  {
    hide Apart, HandledOk;
    assert ThreadOk(s, s.threads[i]);
  }

  lemma StartPending(s: State, i: nat, ok: bool)
    requires ThreadsOk(s) && Enabled(s, StartSpec(i, ok))
    ensures forall j :: 0 <= j < |s.threads| ==> StillPending(Apply(s, StartSpec(i, ok)), s.threads[j])
  {
    var t := Apply(s, StartSpec(i, ok));
    forall j | 0 <= j < |s.threads| ensures StillPending(t, s.threads[j]) {
      assert ThreadOk(s, s.threads[j]);
    }
  }

  lemma StartOwed(s: State, i: nat, ok: bool)
    requires HandledOk(s) && Enabled(s, StartSpec(i, ok)) && ThreadOk(s, s.threads[i])
    ensures HandledOk(Apply(s, StartSpec(i, ok)))
  {
    var t := Apply(s, StartSpec(i, ok));
    StartShape(s, i, ok);
    forall j, r | 0 <= j < |t.threads| && r in t.handled ensures !Owed(t, t.threads[j], r) {
      assert !Owed(s, s.threads[j], r);
    }
  }

  lemma StartApart(s: State, i: nat, ok: bool)
    requires ThreadsOk(s) && Apart(s) && Enabled(s, StartSpec(i, ok))
    ensures Apart(Apply(s, StartSpec(i, ok)))
  {
    var t := Apply(s, StartSpec(i, ok));
    assert ThreadOk(s, s.threads[i]);
    StartShape(s, i, ok);
    forall j, k | 0 <= j < k < |t.threads| ensures !Clash(t.threads[j], t.threads[k]) {
      assert !Clash(s.threads[j], s.threads[k]) && ThreadOk(s, s.threads[j]) && ThreadOk(s, s.threads[k]);
    }
  }

  lemma StartShape(s: State, i: nat, ok: bool)
    requires Enabled(s, StartSpec(i, ok)) && ThreadOk(s, s.threads[i])
    ensures At(s, i) && Apply(s, StartSpec(i, ok)).threads == s.threads[i := Apply(s, StartSpec(i, ok)).threads[i]]
    ensures var pc := Apply(s, StartSpec(i, ok)).threads[i];
      && ThreadOk(Apply(s, StartSpec(i, ok)), pc)
      && MonitorKey(pc).None? && Handling(pc).None?
      && (Installing(pc).Some? ==> Installing(pc).value == |s.refs|)
  {
  }

  lemma InstallTables(s: State, t: State, c: nat, r: nat)
    requires TablesOk(s) && Pending(s, c, r) && t.targets == s.targets
    requires t.core.children == InstallRef(s.core, c, r).children
    requires t.refs == s.refs[r := s.refs[r].(ver := Some(s.core.children[c].version + 1))]
    ensures Evolves(s, t) && TablesOk(t)
  {
  }

  lemma InstallShape(s: State, i: nat)
    requires Enabled(s, Install(i)) && ThreadOk(s, s.threads[i])
    ensures var (c, r) := ToInstall(s.threads[i]).value;
      var t := Apply(s, Install(i));
      && Pending(s, c, r) && Installing(s.threads[i]) == Some(r)
      && MonitorKey(t.threads[i]).None? && Handling(t.threads[i]).None? && Installing(t.threads[i]).None?
      && ThreadOk(t, t.threads[i])
      && |t.threads| == |s.threads| + 1 && ThreadOk(t, t.threads[|s.threads|])
      && t.threads[|s.threads|] == MonitorNew(c, s.core.children[c].version + 1)
  {
  }

  lemma InstallKeeps(s: State, i: nat)
    requires VInv(s) && Enabled(s, Install(i))
    ensures VInv(Apply(s, Install(i)))
  {
    var t := Apply(s, Install(i));
    assert ThreadOk(s, s.threads[i]);
    var (c, r) := ToInstall(s.threads[i]).value;
    InstallShape(s, i);
    InstallTables(s, t, c, r);
    InstallRest(s, i);
    RestStays(s, t, i);
    InstallApart(s, i);
    InstallHandled(s, i);
  }

  lemma InstallApart(s: State, i: nat)
    requires ThreadsOk(s) && Apart(s) && Enabled(s, Install(i))
    ensures Apart(Apply(s, Install(i)))
  {
    var t := Apply(s, Install(i));
    assert ThreadOk(s, s.threads[i]);
    InstallShape(s, i);
    forall j, k | 0 <= j < k < |t.threads| ensures !Clash(t.threads[j], t.threads[k]) {
      assert ThreadOk(s, s.threads[j]);
      if k < |s.threads| { assert !Clash(s.threads[j], s.threads[k]); }
    }
  }

  lemma InstallHandled(s: State, i: nat)
    requires TablesOk(s) && ThreadsOk(s) && HandledOk(s) && Enabled(s, Install(i))
    ensures HandledOk(Apply(s, Install(i)))
  {
    var t := Apply(s, Install(i));
    assert ThreadOk(s, s.threads[i]);
    InstallShape(s, i);
    forall j, q | 0 <= j < |t.threads| && q in t.handled ensures !Owed(t, t.threads[j], q) {
      if j < |s.threads| { assert !Owed(s, s.threads[j], q); }
    }
  }

  /** The other goroutines' references are still not installed. */
  lemma InstallRest(s: State, i: nat)
    requires VInv(s) && Enabled(s, Install(i))
    ensures forall j :: 0 <= j < |s.threads| && j != i ==> StillPending(Apply(s, Install(i)), s.threads[j])
  {
    var t := Apply(s, Install(i));
    forall j | 0 <= j < |s.threads| && j != i ensures StillPending(t, s.threads[j]) {
      assert ThreadOk(s, s.threads[j]);
      assert !Clash(s.threads[j], s.threads[i]) && !Clash(s.threads[i], s.threads[j]) by {
        if j < i { assert !Clash(s.threads[j], s.threads[i]); } else { assert !Clash(s.threads[i], s.threads[j]); }
      }
    }
  }

  /** A monitor with a stale version ends; one whose version is current starts handling a
      termination that was never handled and that no `restartAll` brought about. */
  lemma CheckKeeps(s: State, i: nat)
    requires VInv(s) && Enabled(s, Check(i))
    ensures VInv(Apply(s, Check(i)))
  {
    var t := Apply(s, Check(i));
    var pc := s.threads[i];
    assert ThreadOk(s, pc);
    PendingKept(s, t);
    RestStays(s, t, i);
    if s.core.children[pc.c].version != pc.ver {
      ApartMove(s, t, i, Ended);
      HandledMove(s, t, i, Ended);
    } else {
      hide ThreadsOk, TablesOk;
      CurrentIsNew(s, i);
      CheckApart(s, i);
      CheckHandled(s, i);
    }
  }

  lemma CurrentIsNew(s: State, i: nat)
    requires VInv(s) && Enabled(s, Check(i)) && s.core.children[s.threads[i].c].version == s.threads[i].ver
    ensures var r := s.threads[i].r;
      r !in s.handled && r !in s.targets && r < |s.refs| && s.refs[r].ver == Some(s.threads[i].ver)
      && s.refs[r].done && s.refs[r].child == s.threads[i].c && Owed(s, s.threads[i], r)
  {
    var pc := s.threads[i];
    assert ThreadOk(s, pc);
    assert Owed(s, pc, pc.r);
  }

  lemma CheckApart(s: State, i: nat)
    requires VInv(s) && Enabled(s, Check(i)) && s.core.children[s.threads[i].c].version == s.threads[i].ver
    ensures Apart(Apply(s, Check(i)))
  {
    var t := Apply(s, Check(i));
    CurrentIsNew(s, i);
    forall j, k | 0 <= j < k < |t.threads| ensures !Clash(t.threads[j], t.threads[k]) {
      assert !Clash(s.threads[j], s.threads[k]);
      var o := if j == i then k else j;
      assert Handling(s.threads[o]).Some? ==> Handling(s.threads[o]).value in s.handled;
    }
  }

  lemma CheckHandled(s: State, i: nat)
    requires VInv(s) && Enabled(s, Check(i)) && s.core.children[s.threads[i].c].version == s.threads[i].ver
    ensures HandledOk(Apply(s, Check(i)))
  {
    var t := Apply(s, Check(i));
    var r := s.threads[i].r;
    CurrentIsNew(s, i);
    forall j, q | 0 <= j < |t.threads| && q in t.handled ensures !Owed(t, t.threads[j], q) {
      if j != i {
        if q == r {
          assert !Clash(s.threads[j], s.threads[i]) && !Clash(s.threads[i], s.threads[j]) by {
            if j < i { assert !Clash(s.threads[j], s.threads[i]); } else { assert !Clash(s.threads[i], s.threads[j]); }
          }
        } else {
          assert q in s.handled && !Owed(s, s.threads[j], q);
        }
      }
    }
    assert t.handled[|s.handled|] == r;
    forall j | 0 <= j < |t.threads| && Handling(t.threads[j]).Some? ensures Handling(t.threads[j]).value in t.handled {
      if j != i { assert Handling(s.threads[j]).value in s.handled; }
    }
  }

  lemma BumpShape(s: State, i: nat)
    requires TablesOk(s) && Enabled(s, Bump(i)) && ThreadOk(s, s.threads[i])
    ensures var t := Apply(s, Bump(i));
      && Evolves(s, t) && TablesOk(t) && ThreadOk(t, t.threads[i])
      && t.threads == s.threads[i := t.threads[i]] && Lighter(s.threads[i], t.threads[i])
      && t.refs == s.refs && t.handled == s.handled
  {
  }

  /** What `restartAll` captures running was not handled, and its version is passed for good. */
  lemma BumpTargets(s: State, i: nat)
    requires TablesOk(s) && TargetsOk(s) && HandledOk(s) && Enabled(s, Bump(i))
    ensures TargetsOk(Apply(s, Bump(i)))
    ensures forall r :: r in s.handled ==> r !in Apply(s, Bump(i)).targets
  {
    var t := Apply(s, Bump(i));
    assert forall c :: 0 <= c < |s.core.children| ==> s.core.children[c].version <= t.core.children[c].version;
  }

  lemma BumpKeeps(s: State, i: nat)
    requires VInv(s) && Enabled(s, Bump(i))
    ensures VInv(Apply(s, Bump(i)))
  {
    var t := Apply(s, Bump(i));
    assert ThreadOk(s, s.threads[i]);
    BumpShape(s, i);
    BumpTargets(s, i);
    BumpRest(s, t, i);
  }

  lemma BumpRest(s: State, t: State, i: nat)
    requires ThreadsOk(s) && Apart(s) && HandledOk(s) && i < |s.threads| == |t.threads|
    requires Evolves(s, t) && ThreadOk(t, t.threads[i])
    requires t.threads == s.threads[i := t.threads[i]] && Lighter(s.threads[i], t.threads[i])
    requires t.refs == s.refs && t.handled == s.handled && forall r :: r in s.handled ==> r !in t.targets
    ensures ThreadsOk(t) && Apart(t) && HandledOk(t)
  {
    PendingKept(s, t);
    RestStays(s, t, i);
    ApartMove(s, t, i, t.threads[i]);
    forall j, r | 0 <= j < |t.threads| && r in t.handled ensures !Owed(t, t.threads[j], r) {
      assert !Owed(s, s.threads[j], r);
    }
  }

  lemma StepKeeps(s: State, e: Event)
    requires VInv(s) && Enabled(s, e)
    ensures VInv(Apply(s, e))
  {
    hide VInv;
    match e
    case AddChild(name) => AddChildKeeps(s, name);
    case RefDone(r) => RefDoneKeeps(s, r);
    case Watch | CtxEnds | Tick(_) => SameKeeps(s, Apply(s, e));
    case CallStartAll => EnterKeeps(s, Apply(s, e), StartAllAt(0, |s.core.children|));
    case CallStopAll => EnterKeeps(s, Apply(s, e), StopAllAt(|s.core.children|));
    case StartSpec(t, ok) => StartKeeps(s, t, ok);
    case Install(t) => InstallKeeps(s, t);
    case Check(t) => CheckKeeps(s, t);
    case Bump(t) => BumpKeeps(s, t);
    case _ => LocalKeeps(s, e);
  }

  lemma {:induction false} RunKeeps(s: State, evs: seq<Event>)
    requires VInv(s) && Runnable(s, evs)
    ensures VInv(Exec(s, evs))
    decreases |evs|
  {
    if evs != [] {
      StepKeeps(s, evs[0]);
      RunKeeps(Apply(s, evs[0]), evs[1..]);
    }
  }

  lemma ReachedVInv(s: State)
    requires Reachable(s)
    ensures VInv(s)
  {
    var p: Policy, clock: int, evs: seq<Event> :| Runnable(Init(p, clock), evs) && Exec(Init(p, clock), evs) == s;
    RunKeeps(Init(p, clock), evs);
  }
}
