/** What the goroutines of `pkg/supervision/supervisor.go` do from beginning to end, while all others run
    in between: `StartAll` (194-199), `restartAll` (303-328), `restartOne` (297-301) and the handling
    of a termination (243-259). */
module SupervisorDuties {
  import opened Basics
  import opened SupervisorMachine
  import opened RestartWindow

  /** What a goroutine does that others can see. */
  datatype Act =
    | Tried(c: nat, ok: bool)               // called spec.Start
    | Put(c: nat, r: nat)                   // installed the reference
    | Bumped(c: nat, ref: Option<nat>)      // raised the version and captured the reference
    | Stopped(r: nat)                       // called ref.Stop
    | Read(clean: bool, watchers: nat)      // read the state, and how many watchers there are
    | Told(k: nat, r: nat)                  // called a watcher
    | Judged                                // came to the gate

  predicate Mine(e: Event, t: nat) {
    !e.AddChild? && !e.Watch? && !e.RefDone? && !e.CtxEnds? && !e.Tick? && !e.CallStartAll? && !e.CallStopAll?
    && e.t == t
  }

  function ActOf(s: State, e: Event, t: nat): seq<Act>
    requires Enabled(s, e)
  {
    if !Mine(e, t) then []
    else match e
      case StartSpec(_, ok) => [Tried(ToStart(s.threads[t]).value, ok)]
      case Install(_) => [Put(ToInstall(s.threads[t]).value.0, ToInstall(s.threads[t]).value.1)]
      case Bump(_) => [Bumped(s.threads[t].i, RefOf(s, s.threads[t].i))]
      case StopRef(_) => [Stopped(s.threads[t].r)]
      case ReadState(_, clean) => [Read(clean, s.core.watchers)]
      case Notify(_) => [Told(s.threads[t].k, s.threads[t].r)]
      case Gate(_) => [Judged]
      case _ => []
  }

  /** What goroutine `t` did along the run. */
  ghost function Acts(s: State, evs: seq<Event>, t: nat): seq<Act>
    requires Runnable(s, evs)
    decreases |evs|
  {
    if evs == [] then [] else ActOf(s, evs[0], t) + Acts(Apply(s, evs[0]), evs[1..], t)
  }

  lemma OthersLeave(s: State, e: Event, t: nat)
    requires At(s, t) && Enabled(s, e) && !Mine(e, t)
    ensures At(Apply(s, e), t) && Apply(s, e).threads[t] == s.threads[t]
  {
  }

  predicate Finished(s: State, t: nat) { At(s, t) && s.threads[t] == Ended }

  lemma {:induction false} EndedDoesNothing(s: State, evs: seq<Event>, t: nat)
    requires Finished(s, t) && Runnable(s, evs)
    ensures Acts(s, evs, t) == [] && Finished(Exec(s, evs), t)
    decreases |evs|
  {
    if evs != [] {
      assert !Mine(evs[0], t);
      OthersLeave(s, evs[0], t);
      EndedDoesNothing(Apply(s, evs[0]), evs[1..], t);
    }
  }

  // ---------------------------------------------------------------- parts of what was done

  /** The starts tried, in order, and how they ended. */
  function Tries(acts: seq<Act>): seq<(nat, bool)> {
    if acts == [] then []
    else (if acts[0].Tried? then [(acts[0].c, acts[0].ok)] else []) + Tries(acts[1..])
  }

  function Puts(acts: seq<Act>): seq<nat> {
    if acts == [] then [] else (if acts[0].Put? then [acts[0].c] else []) + Puts(acts[1..])
  }

  function Bumps(acts: seq<Act>): seq<(nat, Option<nat>)> {
    if acts == [] then []
    else (if acts[0].Bumped? then [(acts[0].c, acts[0].ref)] else []) + Bumps(acts[1..])
  }

  function Stops(acts: seq<Act>): seq<nat> {
    if acts == [] then [] else (if acts[0].Stopped? then [acts[0].r] else []) + Stops(acts[1..])
  }

  /** The children whose start succeeded. */
  function Good(tries: seq<(nat, bool)>): seq<nat> {
    if tries == [] then [] else (if tries[0].1 then [tries[0].0] else []) + Good(tries[1..])
  }

  /** The references that were captured. */
  function Captured(bumps: seq<(nat, Option<nat>)>): seq<nat> {
    if bumps == [] then []
    else (if bumps[0].1.Some? then [bumps[0].1.value] else []) + Captured(bumps[1..])
  }

  predicate TriesUpwards(tries: seq<(nat, bool)>, i: nat, n: nat) {
    |tries| == n - i && forall j :: 0 <= j < |tries| ==> tries[j].0 == i + j
  }

  predicate BumpsUpwards(bumps: seq<(nat, Option<nat>)>, i: nat, n: nat) {
    |bumps| == n - i && forall j :: 0 <= j < |bumps| ==> bumps[j].0 == i + j
  }

  /** The children from `i` on are tried in order, up to the first that fails. */
  predicate TriesToFailure(tries: seq<(nat, bool)>, i: nat, n: nat) {
    && |tries| <= n - i
    && (forall j :: 0 <= j < |tries| ==> tries[j].0 == i + j)
    && (forall j :: 0 <= j < |tries| - 1 ==> tries[j].1)
    && (|tries| < n - i ==> tries != [] && !tries[|tries| - 1].1)
  }

  /** Nothing is started before the last stop. */
  predicate StopsFirst(acts: seq<Act>) {
    forall a, b :: 0 <= a < b < |acts| && (acts[a].Tried? || acts[a].Put?) ==> !acts[b].Bumped? && !acts[b].Stopped?
  }

  // ---------------------------------------------------------------- one step of a goroutine that starts children

  predicate Starting(pc: Pc) {
    pc.StartAllAt? || pc.StartAllInstall? || pc.OneStart? || pc.OneInstall?
    || pc.AllStop? || pc.AllStopping? || pc.AllStart? || pc.AllInstall?
  }

  /** The goroutine went from `pc` to `q` and did `act`, or did not move. */
  predicate Moves(pc: Pc, act: seq<Act>, q: Pc) {
    || (act == [] && q == pc)
    || match pc
       case StartAllAt(i, n) =>
         || (i == n && act == [] && q == Ended)
         || (i < n && act == [Tried(i, false)] && q == Ended)
         || (i < n && act == [Tried(i, true)] && q.StartAllInstall? && q.i == i && q.n == n)
       case StartAllInstall(i, n, r) => act == [Put(i, r)] && q == StartAllAt(i + 1, n)
       case OneStart(c) =>
         (act == [Tried(c, false)] && q == Ended) || (act == [Tried(c, true)] && q.OneInstall? && q.c == c)
       case OneInstall(c, r) => act == [Put(c, r)] && q == Ended
       case AllStop(i, n) =>
         || (i == n && act == [] && q == AllStart(0, n))
         || (i < n && act == [Bumped(i, None)] && q == AllStop(i + 1, n))
         || (i < n && q.AllStopping? && act == [Bumped(i, Some(q.r))] && q.i == i && q.n == n)
       case AllStopping(i, n, r) => act == [Stopped(r)] && q == AllStop(i + 1, n)
       case AllStart(i, n) =>
         || (i == n && act == [] && q == Ended)
         || (i < n && act == [Tried(i, false)] && q == AllStart(i + 1, n))
         || (i < n && act == [Tried(i, true)] && q.AllInstall? && q.i == i && q.n == n)
       case AllInstall(i, n, r) => act == [Put(i, r)] && q == AllStart(i + 1, n)
       case _ => false
  }

  lemma StartingMoves(s: State, e: Event, t: nat)
    requires At(s, t) && Starting(s.threads[t]) && Enabled(s, e)
    ensures At(Apply(s, e), t) && Moves(s.threads[t], ActOf(s, e, t), Apply(s, e).threads[t])
  {
    if !Mine(e, t) { OthersLeave(s, e, t); } else { MyMove(s, e, t); }
  }

  lemma MyMove(s: State, e: Event, t: nat)
    requires At(s, t) && Starting(s.threads[t]) && Enabled(s, e) && Mine(e, t)
    ensures At(Apply(s, e), t) && Moves(s.threads[t], ActOf(s, e, t), Apply(s, e).threads[t])
  {
  }

  // ---------------------------------------------------------------- all that is left to do

  /** What a goroutine at `pc` has done when it has ended. */
  predicate Duty(pc: Pc, acts: seq<Act>) {
    match pc
    case StartAllAt(i, n) => TriesToFailure(Tries(acts), i, n) && Puts(acts) == Good(Tries(acts))
    case StartAllInstall(i, n, _) => TriesToFailure(Tries(acts), i + 1, n) && Puts(acts) == [i] + Good(Tries(acts))
    case OneStart(c) => |Tries(acts)| == 1 && Tries(acts)[0].0 == c && Puts(acts) == Good(Tries(acts))
    case OneInstall(c, _) => Tries(acts) == [] && Puts(acts) == [c]
    case AllStop(i, n) => Wave(acts, i, n, [])
    case AllStopping(i, n, r) => Wave(acts, i + 1, n, [r])
    case AllStart(i, n) =>
      Bumps(acts) == [] && Stops(acts) == [] && TriesUpwards(Tries(acts), i, n) && Puts(acts) == Good(Tries(acts))
    case AllInstall(i, n, _) =>
      && Bumps(acts) == [] && Stops(acts) == []
      && TriesUpwards(Tries(acts), i + 1, n) && Puts(acts) == [i] + Good(Tries(acts))
    case Ended => acts == []
    case _ => true
  }

  /** A wave from child `i` on: every child's version is raised and what it runs is stopped, in order,
      with `owed` still to stop; then every child's start is tried, in order, whatever the others do,
      and those that succeed are installed. */
  predicate Wave(acts: seq<Act>, i: nat, n: nat, owed: seq<nat>) {
    && BumpsUpwards(Bumps(acts), i, n) && Stops(acts) == owed + Captured(Bumps(acts))
    && TriesUpwards(Tries(acts), 0, n) && Puts(acts) == Good(Tries(acts))
    && StopsFirst(acts)
  }

  lemma NoBumpNoStop(acts: seq<Act>, b: nat)
    requires Bumps(acts) == [] && Stops(acts) == [] && b < |acts|
    ensures !acts[b].Bumped? && !acts[b].Stopped?
  {
    if b > 0 { NoBumpNoStop(acts[1..], b - 1); }
  }

  lemma StartsOnly(acts: seq<Act>)
    requires Bumps(acts) == [] && Stops(acts) == []
    ensures StopsFirst(acts)
  {
    forall b | 0 <= b < |acts| ensures !acts[b].Bumped? && !acts[b].Stopped? { NoBumpNoStop(acts, b); }
  }

  /** One move before a duty done is a duty done. */
  lemma MoveThenDuty(pc: Pc, act: seq<Act>, q: Pc, rest: seq<Act>)
    requires Starting(pc) && Moves(pc, act, q) && Duty(q, rest)
    ensures Duty(pc, act + rest)
  {
    if act == [] {
      assert act + rest == rest;
      if pc.AllStop? && q.AllStart? { StartsOnly(rest); }
    } else {
      assert act == [act[0]] && (act + rest)[0] == act[0] && (act + rest)[1..] == rest;
      if pc.AllStop? || pc.AllStopping? { WaveMove(pc, act[0], q, rest); } else { StartMove(pc, act[0], q, rest); }
    }
  }

  lemma Parts(a: Act, rest: seq<Act>)
    ensures Tries([a] + rest) == if a.Tried? then [(a.c, a.ok)] + Tries(rest) else Tries(rest)
    ensures Puts([a] + rest) == if a.Put? then [a.c] + Puts(rest) else Puts(rest)
    ensures Bumps([a] + rest) == if a.Bumped? then [(a.c, a.ref)] + Bumps(rest) else Bumps(rest)
    ensures Stops([a] + rest) == if a.Stopped? then [a.r] + Stops(rest) else Stops(rest)
  {
    var acts := [a] + rest;
    assert acts[0] == a && acts[1..] == rest;
    assert [] + Tries(rest) == Tries(rest) && [] + Puts(rest) == Puts(rest);
    assert [] + Bumps(rest) == Bumps(rest) && [] + Stops(rest) == Stops(rest);
  }

  lemma GoodMore(x: (nat, bool), tries: seq<(nat, bool)>)
    ensures Good([x] + tries) == if x.1 then [x.0] + Good(tries) else Good(tries)
  {
    assert ([x] + tries)[1..] == tries && [] + Good(tries) == Good(tries);
  }

  lemma CapturedMore(x: (nat, Option<nat>), bumps: seq<(nat, Option<nat>)>)
    ensures Captured([x] + bumps) == if x.1.Some? then [x.1.value] + Captured(bumps) else Captured(bumps)
  {
    assert ([x] + bumps)[1..] == bumps && [] + Captured(bumps) == Captured(bumps);
  }

  lemma StopsFirstMore(a: Act, rest: seq<Act>)
    requires StopsFirst(rest) && !a.Tried? && !a.Put?
    ensures StopsFirst([a] + rest)
  {
    var acts := [a] + rest;
    assert forall b :: 0 < b < |acts| ==> acts[b] == rest[b - 1];
  }

  lemma WaveMove(pc: Pc, a: Act, q: Pc, rest: seq<Act>)
    requires (pc.AllStop? || pc.AllStopping?) && Moves(pc, [a], q) && Duty(q, rest)
    ensures Duty(pc, [a] + rest)
  {
    hide Tries, Puts, Bumps, Stops, Good, Captured, StopsFirst;
    Parts(a, rest);
    assert a.Bumped? || a.Stopped?;
    StopsFirstMore(a, rest);
    assert [] + Captured(Bumps(rest)) == Captured(Bumps(rest));
    if a.Bumped? {
      CapturedMore((a.c, a.ref), Bumps(rest));
      assert [] + Captured(Bumps([a] + rest)) == Captured(Bumps([a] + rest));
    }
  }

  lemma StartMove(pc: Pc, a: Act, q: Pc, rest: seq<Act>)
    requires Starting(pc) && !pc.AllStop? && !pc.AllStopping? && Moves(pc, [a], q) && Duty(q, rest)
    ensures Duty(pc, [a] + rest)
  {
    hide Tries, Puts, Bumps, Stops, Good, Captured;
    Parts(a, rest);
    if a.Tried? { GoodMore((a.c, a.ok), Tries(rest)); }
    EmptyParts();
    assert a.Put? ==> [a.c] + [] == [a.c];
    assert a.Tried? ==> [(a.c, a.ok)] + [] == [(a.c, a.ok)] && [a.c] + [] == [a.c];
  }

  lemma EmptyParts()
    ensures Tries([]) == [] && Puts([]) == [] && Bumps([]) == [] && Stops([]) == [] && Good([]) == []
  {
  }

  /** A goroutine that starts children has done its duty when it has ended. */
  lemma {:induction false} DutyDone(s: State, evs: seq<Event>, t: nat)
    requires At(s, t) && (Starting(s.threads[t]) || s.threads[t] == Ended)
    requires Runnable(s, evs) && Finished(Exec(s, evs), t)
    ensures Duty(s.threads[t], Acts(s, evs, t))
    decreases |evs|
  {
    hide Enabled, Apply, ActOf, Moves, Duty;
    if s.threads[t] == Ended {
      EndedDoesNothing(s, evs, t);
      assert Duty(Ended, []) by { NothingToDo(); }
    } else {
      var u := Apply(s, evs[0]);
      StartingMoves(s, evs[0], t);
      MovesStay(s.threads[t], ActOf(s, evs[0], t), u.threads[t]);
      DutyDone(u, evs[1..], t);
      MoveThenDuty(s.threads[t], ActOf(s, evs[0], t), u.threads[t], Acts(u, evs[1..], t));
    }
  }

  lemma NothingToDo()
    ensures Duty(Ended, [])
  {
  }

  lemma MovesStay(pc: Pc, act: seq<Act>, q: Pc)
    requires Starting(pc) && Moves(pc, act, q)
    ensures Starting(q) || q == Ended
  {
  }

  // ---------------------------------------------------------------- the duties

  /** `StartAll`: when it has returned it tried its children's starts in order, up to the first that
      failed or to the last, and installed each that succeeded. */
  lemma StartAllTriesInOrder(s: State, evs: seq<Event>)
    requires Enabled(s, CallStartAll) && Runnable(Apply(s, CallStartAll), evs)
    requires Finished(Exec(Apply(s, CallStartAll), evs), |s.threads|)
    ensures var acts := Acts(Apply(s, CallStartAll), evs, |s.threads|);
      TriesToFailure(Tries(acts), 0, |s.core.children|) && Puts(acts) == Good(Tries(acts))
  {
    hide Duty;
    var u, t := Apply(s, CallStartAll), |s.threads|;
    DutyDone(u, evs, t);
    assert u.threads[t] == StartAllAt(0, |s.core.children|);
    DutyOf(u.threads[t], Acts(u, evs, t));
  }

  lemma DutyOf(pc: Pc, acts: seq<Act>)
    requires Duty(pc, acts)
    ensures pc.StartAllAt? ==> TriesToFailure(Tries(acts), pc.i, pc.n) && Puts(acts) == Good(Tries(acts))
    ensures pc.AllStop? ==> Wave(acts, pc.i, pc.n, [])
    ensures pc.OneStart? ==> |Tries(acts)| == 1 && Tries(acts)[0].0 == pc.c && Puts(acts) == Good(Tries(acts))
  {
  }

  /** `restartAll`: when it has ended it raised every child's version in order and stopped exactly the
      references it captured, and after that tried every child's start in order, however the others
      went, and installed each that succeeded. */
  lemma RestartAllIsAWave(s: State, evs: seq<Event>, t: nat)
    requires Enabled(s, Snapshot(t)) && Runnable(Apply(s, Snapshot(t)), evs)
    requires Finished(Exec(Apply(s, Snapshot(t)), evs), t)
    ensures Wave(Acts(Apply(s, Snapshot(t)), evs, t), 0, |s.core.children|, [])
  {
    hide Duty, Wave;
    var u := Apply(s, Snapshot(t));
    assert u.threads[t] == AllStop(0, |s.core.children|);
    DutyDone(u, evs, t);
    DutyOf(u.threads[t], Acts(u, evs, t));
  }

  /** `restartOne`: when it has ended it tried its child's start once and installed it if it succeeded. */
  lemma RestartOneTriesOnce(s: State, evs: seq<Event>, t: nat)
    requires At(s, t) && s.threads[t].OneStart? && Runnable(s, evs) && Finished(Exec(s, evs), t)
    ensures var acts := Acts(s, evs, t);
      |Tries(acts)| == 1 && Tries(acts)[0].0 == s.threads[t].c && Puts(acts) == Good(Tries(acts))
  {
    hide Duty;
    DutyDone(s, evs, t);
    DutyOf(s.threads[t], Acts(s, evs, t));
  }

  // ---------------------------------------------------------------- handling a termination

  predicate InHandling(pc: Pc) { pc.HandleRead? || pc.HandleNotify? }

  /** The watchers from `k` to `w` are told of `r`, in order; then a clean termination is over, and any
      other comes to the gate. */
  predicate Handled(acts: seq<Act>, k: nat, w: nat, r: nat, clean: bool, last: Pc) {
    && k <= w && |acts| >= w - k
    && (forall j :: 0 <= j < w - k ==> acts[j] == Told(k + j, r))
    && (clean ==> |acts| == w - k && last == Ended)
    && (!clean ==> if |acts| == w - k then last.HandleGate? else acts[w - k] == Judged)
  }

  lemma NotifyMoves(s: State, e: Event, t: nat)
    requires At(s, t) && s.threads[t].HandleNotify? && Enabled(s, e)
    ensures At(Apply(s, e), t)
    ensures var pc, q, act := s.threads[t], Apply(s, e).threads[t], ActOf(s, e, t);
      || (act == [] && q == pc)
      || (pc.k < pc.w && act == [Told(pc.k, pc.r)] && q == pc.(k := pc.k + 1))
      || (pc.k == pc.w && act == [] && q == if pc.clean then Ended else HandleGate(pc.c, pc.r))
  {
    if !Mine(e, t) { OthersLeave(s, e, t); }
  }

  lemma {:induction false} FromGate(s: State, evs: seq<Event>, t: nat)
    requires At(s, t) && s.threads[t].HandleGate? && Runnable(s, evs)
    ensures At(Exec(s, evs), t)
    ensures if Acts(s, evs, t) == [] then Exec(s, evs).threads[t] == s.threads[t] else Acts(s, evs, t)[0] == Judged
    decreases |evs|
  {
    if evs != [] {
      var u := Apply(s, evs[0]);
      if Mine(evs[0], t) {
        assert ActOf(s, evs[0], t) == [Judged];
        StaysAt(s, evs, t);
      } else {
        OthersLeave(s, evs[0], t);
        FromGate(u, evs[1..], t);
      }
    }
  }

  lemma StaysStep(s: State, e: Event)
    requires Enabled(s, e)
    ensures |s.threads| <= |Apply(s, e).threads|
  {
  }

  lemma {:induction false} StaysAt(s: State, evs: seq<Event>, t: nat)
    requires At(s, t) && Runnable(s, evs)
    ensures At(Exec(s, evs), t)
    decreases |evs|
  {
    hide Enabled, Apply;
    if evs != [] {
      StaysStep(s, evs[0]);
      StaysAt(Apply(s, evs[0]), evs[1..], t);
    }
  }

  lemma {:induction false} NotifyAll(s: State, evs: seq<Event>, t: nat)
    requires At(s, t) && s.threads[t].HandleNotify? && s.threads[t].k <= s.threads[t].w
    requires Runnable(s, evs) && At(Exec(s, evs), t) && !InHandling(Exec(s, evs).threads[t])
    ensures var pc := s.threads[t];
      Handled(Acts(s, evs, t), pc.k, pc.w, pc.r, pc.clean, Exec(s, evs).threads[t])
    decreases |evs|
  {
    hide Enabled, Apply, ActOf;
    var pc, u := s.threads[t], Apply(s, evs[0]);
    var act, rest := ActOf(s, evs[0], t), Acts(u, evs[1..], t);
    NotifyMoves(s, evs[0], t);
    assert act == [] ==> act + rest == rest;
    if u.threads[t].HandleNotify? {
      NotifyAll(u, evs[1..], t);
      if act != [] { assert (act + rest)[0] == act[0] && (act + rest)[1..] == rest; }
    } else if pc.clean {
      EndedDoesNothing(u, evs[1..], t);
    } else {
      FromGate(u, evs[1..], t);
    }
  }

  /** Handling a termination: the goroutine that read the state of `r` has, when it is past its
      notifications, called every watcher registered at the read once and in order, and none else;
      a clean termination is then over without a restart, and any other comes to the gate. */
  lemma EveryWatcherIsTold(s: State, evs: seq<Event>, t: nat, clean: bool)
    requires Enabled(s, ReadState(t, clean)) && Runnable(Apply(s, ReadState(t, clean)), evs)
    requires var v := Exec(Apply(s, ReadState(t, clean)), evs); At(v, t) && !InHandling(v.threads[t])
    ensures var u := Apply(s, ReadState(t, clean));
      Handled(Acts(u, evs, t), 0, s.core.watchers, s.threads[t].r, clean, Exec(u, evs).threads[t])
  {
    hide Handled;
    var u := Apply(s, ReadState(t, clean));
    assert u.threads[t].HandleNotify? && u.threads[t].k == 0 && u.threads[t].w == s.core.watchers;
    assert u.threads[t].clean == clean && u.threads[t].r == s.threads[t].r;
    NotifyAll(u, evs, t);
  }
}
