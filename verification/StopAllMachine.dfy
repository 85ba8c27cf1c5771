/** Concurrent callers of `ActorSystem.StopAll` and of the registry. The critical section of
    `system.go:179-210` is one step; the stops and events after it are made without the lock. */
module StopAllMachine {
  import opened Basics
  import opened ActorRegistry
  import opened ActorSystems

  /** Where one call of `StopAll` is. */
  datatype Pc =
    | Announce(entries: seq<(string, nat)>)
    | AtEntry(entries: seq<(string, nat)>, k: nat)  // about to stop entry k, or finished
    | AtEvent(entries: seq<(string, nat)>, k: nat)  // stopped entry k, about to report it
    | Returned(entries: seq<(string, nat)>)
    | Rejected

  /** `acts` is what all calls of `StopAll` did; `at` the listing when one of them passed the gate;
      `answers` the answers of the registry calls, each with the flag at that moment. */
  datatype State = State(
    reg: Reg, callers: seq<Pc>, acts: seq<Act>, at: Option<seq<(string, nat)>>, answers: seq<(bool, Answer)>)

  datatype Event =
    | Call                     // a new caller of StopAll takes the lock
    | Advance(t: nat)
    | Registry(op: Op)         // register, Unregister, Get, or the lookup of send

  predicate Enabled(s: State, e: Event) {
    match e
    case Call => true
    case Advance(t) => t < |s.callers| && !s.callers[t].Returned? && !s.callers[t].Rejected?
    case Registry(op) => !op.StopAll?
  }

  function Apply(s: State, e: Event): State
    requires Enabled(s, e)
  {
    match e
    case Call =>
      var (reg, answer) := Step(s.reg, StopAll);
      if answer.ToStop? then
        s.(reg := reg, callers := s.callers + [Announce(answer.entries)], at := Some(Abs(s.reg).entries))
      else s.(callers := s.callers + [Rejected])
    case Advance(t) =>
      var pc := s.callers[t];
      var (next, act) := Go(pc);
      s.(callers := s.callers[t := next], acts := s.acts + act)
    case Registry(op) =>
      var (reg, answer) := Step(s.reg, op);
      s.(reg := reg, answers := s.answers + [(s.reg.stopped, answer)])
  }

  function Go(pc: Pc): (Pc, seq<Act>)
    requires !pc.Returned? && !pc.Rejected?
  {
    match pc
    case Announce(entries) => (AtEntry(entries, 0), [EventSystemStopping])
    case AtEntry(entries, k) =>
      if k < |entries| then (AtEvent(entries, k), [StopCalled(entries[k].1)]) else (Returned(entries), [])
    case AtEvent(entries, k) =>
      (AtEntry(entries, k + 1), if k < |entries| then [EventActorStopped(entries[k].0)] else [])
  }

  ghost predicate Runnable(s: State, evs: seq<Event>)
    decreases |evs|
  {
    evs == [] || (Enabled(s, evs[0]) && Runnable(Apply(s, evs[0]), evs[1..]))
  }

  ghost function Exec(s: State, evs: seq<Event>): State
    requires Runnable(s, evs)
    decreases |evs|
  {
    if evs == [] then s else Exec(Apply(s, evs[0]), evs[1..])
  }

  function Start(): State { State(Init(), [], [], None, []) }

  /** What the system has done when its one stopper is at `pc`. */
  ghost predicate Progress(acts: seq<Act>, pc: Pc, list: seq<(string, nat)>) {
    match pc
    case Announce(es) => es == list && acts == []
    case AtEntry(es, k) => es == list && k <= |es| && acts == Trace(es[..k])
    case AtEvent(es, k) => es == list && k < |es| && acts == Trace(es[..k]) + [StopCalled(es[k].1)]
    case Returned(es) => es == list && acts == Trace(es)
    case Rejected => false
  }

  ghost predicate StopInv(s: State) {
    && Valid(s.reg)
    && (s.reg.stopped <==> s.at.Some?)
    && (s.at.None? ==> s.acts == [] && s.callers == [])
    && (s.at.Some? ==> exists w :: OneStopper(s, w))
    && (forall i :: 0 <= i < |s.answers| && s.answers[i].0 ==> s.answers[i].1 == Failed(ErrSystemStopped))
  }

  /** Caller `w` alone passed the gate, and the system has done what its progress over the listing
      of that moment backwards requires. */
  ghost predicate OneStopper(s: State, w: int) {
    && s.at.Some? && 0 <= w < |s.callers|
    && Progress(s.acts, s.callers[w], Reverse(s.at.value))
    && forall t :: 0 <= t < |s.callers| && t != w ==> s.callers[t].Rejected?
  }

  lemma CallKeeps(s: State)
    requires StopInv(s)
    ensures StopInv(Apply(s, Call))
  {
    var t := Apply(s, Call);
    StepRefines(s.reg, StopAll);
    if s.at.None? {
      SnapshotIsReverse(s.reg.order, s.reg.actors);
      assert OneStopper(t, 0);
    } else {
      var w :| OneStopper(s, w);
      assert OneStopper(t, w);
    }
  }

  lemma AdvanceKeeps(s: State, i: nat)
    requires StopInv(s) && Enabled(s, Advance(i))
    ensures StopInv(Apply(s, Advance(i)))
  {
    var t := Apply(s, Advance(i));
    assert !s.callers[i].Rejected?;
    var w :| OneStopper(s, w);
    assert w == i;
    var pc := s.callers[i];
    GoProgress(s.acts, pc, Reverse(s.at.value));
    assert OneStopper(t, w);
  }

  lemma GoProgress(acts: seq<Act>, pc: Pc, list: seq<(string, nat)>)
    requires Progress(acts, pc, list) && !pc.Returned?
    ensures Progress(acts + Go(pc).1, Go(pc).0, list)
  {
    match pc
    case Announce(es) => assert es[..0] == [];
    case AtEntry(es, k) => if k == |es| { assert es[..k] == es; }
    case AtEvent(es, k) => assert es[..k + 1][..k] == es[..k];
  }

  lemma StepKeeps(s: State, e: Event)
    requires StopInv(s) && Enabled(s, e)
    ensures StopInv(Apply(s, e))
  {
    match e
    case Call => CallKeeps(s);
    case Advance(t) => AdvanceKeeps(s, t);
    case Registry(op) =>
      StepRefines(s.reg, op);
      if s.at.Some? {
        var w :| OneStopper(s, w);
        assert OneStopper(Apply(s, e), w);
      }
  }

  lemma {:induction false} RunKeeps(s: State, evs: seq<Event>)
    requires StopInv(s) && Runnable(s, evs)
    ensures StopInv(Exec(s, evs))
    decreases |evs|
  {
    if evs != [] {
      StepKeeps(s, evs[0]);
      RunKeeps(Apply(s, evs[0]), evs[1..]);
    }
  }

  /** `StopAll` linearizes. In every run of any number of callers: as soon as there is a caller
      exactly one of them has passed the gate and all others are rejected; what the system has done
      so far is the trace of that caller's progress over the listing of its gate backwards, so when
      it has returned, each entry was stopped and reported once, last registered first; and every
      registry call after the gate was answered with ErrSystemStopped. */
  lemma StopAllLinearizes(evs: seq<Event>)
    requires Runnable(Start(), evs)
    ensures var s := Exec(Start(), evs);
      && (s.callers != [] <==> s.at.Some?)
      && (s.callers != [] ==> exists t :: OneStopper(s, t))
      && (forall t, u :: OneStopper(s, t) && OneStopper(s, u) ==> t == u)
      && (forall t :: OneStopper(s, t) && s.callers[t].Returned? ==> s.acts == Trace(Reverse(s.at.value)))
      && (forall i :: 0 <= i < |s.answers| && s.answers[i].0 ==> s.answers[i].1 == Failed(ErrSystemStopped))
  {
    assert StopInv(Start());
    RunKeeps(Start(), evs);
  }

  /** In a trace each entry's stop and event stand at their own two places, so each is stopped once. */
  lemma {:induction false} TraceAt(entries: seq<(string, nat)>, k: nat)
    requires k < |entries|
    ensures |Trace(entries)| == 2 * |entries| + 1 && Trace(entries)[0] == EventSystemStopping
    ensures Trace(entries)[2 * k + 1] == StopCalled(entries[k].1)
    ensures Trace(entries)[2 * k + 2] == EventActorStopped(entries[k].0)
  {
    var n := |entries| - 1;
    if n > 0 { TraceAt(entries[..n], if k < n then k else 0); }
  }
}
