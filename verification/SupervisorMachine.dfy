/** The supervisor of `pkg/supervision/supervisor.go` as a transition system.

    Its goroutines are the callers of `StartAll` and `StopAll` and the monitors; every critical
    section under the mutex, every `spec.Start`, `ref.Stop` and callback is one event, and the
    lock is free between them. A child reference is abstract: each successful `spec.Start` gives
    a new one, and its `Done` may fire at any moment. */
module SupervisorMachine {
  import opened Basics
  import opened RestartWindow

  datatype Strategy = OneForOne | AllForOne
  datatype Policy = Policy(strategy: Strategy, maxRestarts: int, within: int)

  // ---------------------------------------------------------------- the state under the mutex

  datatype Child = Child(name: string, ref: Option<nat>, version: nat)

  datatype Core = Core(children: seq<Child>, restarts: seq<int>, stopped: bool, watchers: nat)

  /** The critical section of `startChild`. */
  function InstallRef(k: Core, c: nat, ref: nat): Core
    requires c < |k.children|
  {
    var ch := k.children[c];
    k.(children := k.children[c := ch.(ref := Some(ref), version := ch.version + 1)])
  }

  /** The critical section of `restartAll`'s stop loop: invalidate the monitors, keep the reference. */
  function BumpVersion(k: Core, c: nat): Core
    requires c < |k.children|
  {
    var ch := k.children[c];
    k.(children := k.children[c := ch.(version := ch.version + 1)])
  }

  datatype Verdict = GateStopped | Refused | Granted

  /** The second critical section of `handleTermination`: the stop gate and the restart limiter. */
  function GateCore(k: Core, p: Policy, now: int): Core {
    if k.stopped || p.maxRestarts <= 0 then k
    else k.(restarts := Trim(k.restarts + [now], now - p.within))
  }

  function GateVerdict(k: Core, p: Policy, now: int): Verdict {
    if k.stopped then GateStopped
    else if p.maxRestarts > 0 && |GateCore(k, p, now).restarts| > p.maxRestarts then Refused
    else Granted
  }

  // ---------------------------------------------------------------- goroutines

  /** A reference handed out by `spec.Start`; `ver` is the version it was installed with, if it was. */
  datatype Ref = Ref(child: nat, done: bool, ver: Option<nat>)

  /** Where a goroutine is. `i` and `n` are the position and length of its copy of `children`. */
  datatype Pc =
    | StartAllAt(i: nat, n: nat)                  // about to start child i, or finished
    | StartAllInstall(i: nat, n: nat, r: nat)     // spec.Start gave r
    | MonitorNew(c: nat, ver: nat)                // about to read the child's reference
    | MonitorWait(c: nat, ver: nat, r: nat)       // at the select on r.Done and ctx
    | MonitorCheck(c: nat, ver: nat, r: nat)      // r.Done fired, version check pending
    | HandleRead(c: nat, r: nat)                  // check passed, about to read the state
    | HandleNotify(c: nat, r: nat, from: nat, clean: bool, k: nat, w: nat) // calling watcher k of w
    | HandleGate(c: nat, r: nat)                  // about to pass the gate
    | OneStart(c: nat)
    | OneInstall(c: nat, r: nat)
    | AllSnap                                     // restartAll, about to copy children
    | AllStop(i: nat, n: nat)
    | AllStopping(i: nat, n: nat, r: nat)         // captured r, about to stop it
    | AllStart(i: nat, n: nat)
    | AllInstall(i: nat, n: nat, r: nat)
    | StopAllAt(i: nat)                           // about to take child i - 1, or finished
    | StopAllStopping(i: nat, r: nat)
    | Ended

  /** History: `startAlls` counts the calls of `StartAll` that passed the gate; `handled` lists the
      references whose monitor passed the version check; `targets` holds those `restartAll`
      captured while they were still running; `calls` lists the watcher calls; `hist` the attempts
      the limiter judged. */
  datatype State = State(
    policy: Policy, core: Core, refs: seq<Ref>, threads: seq<Pc>, ctxDone: bool, clock: int,
    startAlls: nat, handled: seq<nat>, targets: set<nat>, calls: seq<(nat, nat)>, hist: seq<Attempt>)

  function Init(p: Policy, clock: int): State {
    State(p, Core([], [], false, 0), [], [], false, clock, 0, [], {}, [], [])
  }

  datatype Event =
    | AddChild(name: string)      // an Add that succeeds; it needs the supervisor not stopped
    | Watch
    | RefDone(r: nat)
    | CtxEnds
    | Tick(now: int)
    | CallStartAll
    | CallStopAll
    | StartSpec(t: nat, ok: bool)
    | Install(t: nat)
    | ReadRef(t: nat)
    | SeeDone(t: nat)
    | Quit(t: nat)
    | Check(t: nat)
    | ReadState(t: nat, clean: bool)
    | Notify(t: nat)
    | Decide(t: nat)
    | Gate(t: nat)
    | Snapshot(t: nat)
    | Bump(t: nat)
    | StopRef(t: nat)
    | TakeForStop(t: nat)
    | Finish(t: nat)

  /** The child whose `spec.Start` the goroutine is about to call. */
  function ToStart(pc: Pc): Option<nat> {
    match pc
    case StartAllAt(i, n) => if i < n then Some(i) else None
    case OneStart(c) => Some(c)
    case AllStart(i, n) => if i < n then Some(i) else None
    case _ => None
  }

  /** The child and reference the goroutine is about to install. */
  function ToInstall(pc: Pc): Option<(nat, nat)> {
    match pc
    case StartAllInstall(i, _, r) => Some((i, r))
    case OneInstall(c, r) => Some((c, r))
    case AllInstall(i, _, r) => Some((i, r))
    case _ => None
  }

  function AfterStart(pc: Pc, ok: bool, r: nat): Pc
    requires ToStart(pc).Some?
  {
    match pc
    case StartAllAt(i, n) => if ok then StartAllInstall(i, n, r) else Ended
    case OneStart(c) => if ok then OneInstall(c, r) else Ended
    case AllStart(i, n) => if ok then AllInstall(i, n, r) else AllStart(i + 1, n)
  }

  function AfterInstall(pc: Pc): Pc
    requires ToInstall(pc).Some?
  {
    match pc
    case StartAllInstall(i, n, _) => StartAllAt(i + 1, n)
    case OneInstall(_, _) => Ended
    case AllInstall(i, n, _) => AllStart(i + 1, n)
  }

  predicate At(s: State, t: nat) { t < |s.threads| }

  function RefOf(s: State, c: nat): Option<nat> {
    if c < |s.core.children| then s.core.children[c].ref else None
  }

  predicate Enabled(s: State, e: Event) {
    match e
    case AddChild(_) => !s.core.stopped
    case RefDone(r) => r < |s.refs| && !s.refs[r].done
    case Tick(now) => s.clock <= now
    case CallStartAll | CallStopAll => !s.core.stopped
    case Watch | CtxEnds => true
    case StartSpec(t, _) => At(s, t) && ToStart(s.threads[t]).Some?
    case Install(t) =>
      At(s, t) && ToInstall(s.threads[t]).Some? &&
      var (c, r) := ToInstall(s.threads[t]).value; c < |s.core.children| && r < |s.refs|
    case ReadRef(t) => At(s, t) && s.threads[t].MonitorNew? && RefOf(s, s.threads[t].c).Some?
    case SeeDone(t) => At(s, t) && s.threads[t].MonitorWait? && s.threads[t].r < |s.refs| && s.refs[s.threads[t].r].done
    case Quit(t) => At(s, t) && s.threads[t].MonitorWait? && s.ctxDone
    case Check(t) => At(s, t) && s.threads[t].MonitorCheck? && s.threads[t].c < |s.core.children|
    case ReadState(t, _) => At(s, t) && s.threads[t].HandleRead? && RefOf(s, s.threads[t].c).Some?
    case Notify(t) => At(s, t) && s.threads[t].HandleNotify? && s.threads[t].k < s.threads[t].w
    case Decide(t) => At(s, t) && s.threads[t].HandleNotify? && s.threads[t].k == s.threads[t].w
    case Gate(t) => At(s, t) && s.threads[t].HandleGate?
    case Snapshot(t) => At(s, t) && s.threads[t].AllSnap?
    case Bump(t) => At(s, t) && s.threads[t].AllStop? && s.threads[t].i < s.threads[t].n <= |s.core.children|
    case StopRef(t) => At(s, t) && (s.threads[t].AllStopping? || s.threads[t].StopAllStopping?)
    case TakeForStop(t) => At(s, t) && s.threads[t].StopAllAt? && 0 < s.threads[t].i <= |s.core.children|
    case Finish(t) =>
      At(s, t) && match s.threads[t]
        case StartAllAt(i, n) => i == n
        case AllStop(i, n) => i == n
        case AllStart(i, n) => i == n
        case StopAllAt(i) => i == 0
        case _ => false
  }

  /** The event only moves one goroutine; children and references stay as they are. */
  predicate Local(e: Event) {
    e.ReadRef? || e.SeeDone? || e.Quit? || e.ReadState? || e.Notify? || e.Decide? || e.Gate?
    || e.Snapshot? || e.StopRef? || e.TakeForStop? || e.Finish?
  }

  /** Where a local event takes its goroutine. */
  function Next(s: State, e: Event): Pc
    requires Local(e) && Enabled(s, e)
  {
    var pc := s.threads[e.t];
    match e
    case ReadRef(_) => MonitorWait(pc.c, pc.ver, RefOf(s, pc.c).value)
    case SeeDone(_) => MonitorCheck(pc.c, pc.ver, pc.r)
    case Quit(_) => Ended
    case ReadState(_, clean) => HandleNotify(pc.c, pc.r, RefOf(s, pc.c).value, clean, 0, s.core.watchers)
    case Notify(_) => pc.(k := pc.k + 1)
    case Decide(_) => if pc.clean then Ended else HandleGate(pc.c, pc.r)
    case Gate(_) =>
      if !GateVerdict(s.core, s.policy, s.clock).Granted? then Ended
      else if s.policy.strategy == OneForOne then OneStart(pc.c) else AllSnap
    case Snapshot(_) => AllStop(0, |s.core.children|)
    case StopRef(_) => if pc.AllStopping? then AllStop(pc.i + 1, pc.n) else StopAllAt(pc.i)
    case TakeForStop(_) =>
      var ref := RefOf(s, pc.i - 1);
      if ref.Some? then StopAllStopping(pc.i - 1, ref.value) else StopAllAt(pc.i - 1)
    case Finish(_) => if pc.AllStop? then AllStart(0, pc.n) else Ended
  }

  /** The limiter judges the attempt unless the supervisor is stopped or restarts are unlimited. */
  predicate Judged(s: State) { !s.core.stopped && s.policy.maxRestarts > 0 }

  function ApplyLocal(s: State, e: Event): State
    requires Local(e) && Enabled(s, e)
  {
    var pc := s.threads[e.t];
    s.(threads := s.threads[e.t := Next(s, e)],
       calls := if e.Notify? then s.calls + [(pc.k, pc.r)] else s.calls,
       core := if e.Gate? then GateCore(s.core, s.policy, s.clock) else s.core,
       hist := if e.Gate? && Judged(s)
               then s.hist + [Attempt(s.clock, GateVerdict(s.core, s.policy, s.clock).Granted?)] else s.hist)
  }

  function Apply(s: State, e: Event): State
    requires Enabled(s, e)
  {
    if Local(e) then ApplyLocal(s, e) else ApplyShared(s, e)
  }

  function ApplyShared(s: State, e: Event): State
    requires Enabled(s, e) && !Local(e)
  {
    match e
    case AddChild(name) => s.(core := s.core.(children := s.core.children + [Child(name, None, 0)]))
    case Watch => s.(core := s.core.(watchers := s.core.watchers + 1))
    case RefDone(r) => s.(refs := s.refs[r := s.refs[r].(done := true)])
    case CtxEnds => s.(ctxDone := true)
    case Tick(now) => s.(clock := now)
    case CallStartAll => s.(threads := s.threads + [StartAllAt(0, |s.core.children|)], startAlls := s.startAlls + 1)
    case CallStopAll => s.(threads := s.threads + [StopAllAt(|s.core.children|)], core := s.core.(stopped := true))
    case StartSpec(t, ok) => ApplyStart(s, t, ok)
    case Install(t) => ApplyInstall(s, t)
    case Check(t) => ApplyCheck(s, t)
    case Bump(t) => ApplyBump(s, t)
  }

  /** `spec.Start` returned: a new reference, or an error. */
  function ApplyStart(s: State, t: nat, ok: bool): State
    requires Enabled(s, StartSpec(t, ok))
  {
    var pc := s.threads[t];
    s.(threads := s.threads[t := AfterStart(pc, ok, |s.refs|)],
       refs := if ok then s.refs + [Ref(ToStart(pc).value, false, None)] else s.refs)
  }

  /** The critical section of `startChild` and the launch of its monitor. */
  function ApplyInstall(s: State, t: nat): State
    requires Enabled(s, Install(t))
  {
    var (c, r) := ToInstall(s.threads[t]).value;
    var ver := s.core.children[c].version + 1;
    s.(threads := s.threads[t := AfterInstall(s.threads[t])] + [MonitorNew(c, ver)],
       core := InstallRef(s.core, c, r), refs := s.refs[r := s.refs[r].(ver := Some(ver))])
  }

  /** The version check of a monitor whose reference is done. */
  function ApplyCheck(s: State, t: nat): State
    requires Enabled(s, Check(t))
  {
    var pc := s.threads[t];
    if s.core.children[pc.c].version != pc.ver then s.(threads := s.threads[t := Ended])
    else s.(threads := s.threads[t := HandleRead(pc.c, pc.r)], handled := s.handled + [pc.r])
  }

  /** One turn of `restartAll`'s stop loop up to its unlock. */
  function ApplyBump(s: State, t: nat): State
    requires Enabled(s, Bump(t))
  {
    var pc := s.threads[t];
    var ref := s.core.children[pc.i].ref;
    var running := ref.Some? && ref.value < |s.refs| && !s.refs[ref.value].done;
    s.(threads := s.threads[t := if ref.Some? then AllStopping(pc.i, pc.n, ref.value) else AllStop(pc.i + 1, pc.n)],
       core := BumpVersion(s.core, pc.i), targets := if running then s.targets + {ref.value} else s.targets)
  }

  ghost predicate Runnable(s: State, evs: seq<Event>)
    decreases |evs|
  {
    evs == [] || (Enabled(s, evs[0]) && Runnable(Apply(s, evs[0]), evs[1..]))
  }

  ghost function Exec(s: State, evs: seq<Event>): State
    requires Runnable(s, evs)
    decreases |evs|
  {
    if evs == [] then s else Exec(Apply(s, evs[0]), evs[1..])
  }

  ghost predicate Reachable(s: State) {
    exists p: Policy, clock: int, evs: seq<Event> :: Runnable(Init(p, clock), evs) && Exec(Init(p, clock), evs) == s
  }
}
