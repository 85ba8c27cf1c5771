/** The limiter of `handleTermination` (`pkg/supervision/supervisor.go:261-295`) and the restarts that
    really begin, told from the events of a run. */
module SupervisorLimit {
  import opened Basics
  import opened RestartWindow
  import opened SupervisorMachine
  import opened SupervisorVersions
  import Th = SupervisorTheorems

  /** When the event is an attempt that the limiter judges: a gate passed while not stopped. */
  function AttemptAt(s: State, e: Event): seq<int> { if e.Gate? && !s.core.stopped then [s.clock] else [] }

  /** When the event takes a goroutine from its gate to the start of its child or of a wave. */
  function BegunAt(s: State, e: Event): seq<int>
    requires Enabled(s, e)
  {
    if e.Gate? && (Apply(s, e).threads[e.t].OneStart? || Apply(s, e).threads[e.t].AllSnap?) then [s.clock] else []
  }

  /** The times of all attempts along the run. */
  ghost function Attempts(s: State, evs: seq<Event>): seq<int>
    requires Runnable(s, evs)
    decreases |evs|
  {
    if evs == [] then [] else AttemptAt(s, evs[0]) + Attempts(Apply(s, evs[0]), evs[1..])
  }

  /** The times at which a restart began along the run. */
  ghost function Begun(s: State, evs: seq<Event>): seq<int>
    requires Runnable(s, evs)
    decreases |evs|
  {
    if evs == [] then [] else BegunAt(s, evs[0]) + Begun(Apply(s, evs[0]), evs[1..])
  }

  /** The times of the granted attempts. */
  function GrantTimes(hist: seq<Attempt>): seq<int> {
    if hist == [] then []
    else GrantTimes(hist[..|hist| - 1]) + (if hist[|hist| - 1].granted then [hist[|hist| - 1].at] else [])
  }

  /** How many of the times lie between `lo` and `hi`, both included. */
  function Within(times: seq<int>, lo: int, hi: int): nat {
    |set i | 0 <= i < |times| && lo <= times[i] <= hi|
  }

  // ---------------------------------------------------------------- the history is what happened

  /** The history is the attempts of the run, and the granted ones are the restarts that began. */
  predicate Recorded(s: State, attempts: seq<int>, begun: seq<int>) {
    Times(s.hist) == attempts && GrantTimes(s.hist) == begun
  }

  lemma RecordStep(s: State, e: Event, attempts: seq<int>, begun: seq<int>)
    requires s.policy.maxRestarts > 0 && Recorded(s, attempts, begun) && Enabled(s, e)
    ensures Recorded(Apply(s, e), attempts + AttemptAt(s, e), begun + BegunAt(s, e))
    ensures Apply(s, e).policy == s.policy
  {
    hide Times, GrantTimes;
    assert attempts + [] == attempts && begun + [] == begun;
    if e.Gate? { GateRecord(s, e); } else { Th.LimitSame(s, e); }
  }

  lemma GateRecord(s: State, e: Event)
    requires s.policy.maxRestarts > 0 && Enabled(s, e) && e.Gate?
    ensures var t := Apply(s, e);
      Times(t.hist) == Times(s.hist) + AttemptAt(s, e) && GrantTimes(t.hist) == GrantTimes(s.hist) + BegunAt(s, e)
  {
    hide Enabled, Apply, Times, GrantTimes, AttemptAt, BegunAt, GateVerdict;
    GateShape(s, e);
    var a := Attempt(s.clock, GateVerdict(s.core, s.policy, s.clock).Granted?);
    if s.core.stopped {
      assert Times(s.hist) + [] == Times(s.hist) && GrantTimes(s.hist) + [] == GrantTimes(s.hist);
    } else {
      TimesAppend(s.hist, a);
      GrantTimesAppend(s.hist, a);
    }
  }

  lemma GrantTimesAppend(hist: seq<Attempt>, a: Attempt)
    ensures GrantTimes(hist + [a]) == GrantTimes(hist) + (if a.granted then [a.at] else [])
  {
    assert (hist + [a])[..|hist|] == hist;
  }

  lemma GateShape(s: State, e: Event)
    requires s.policy.maxRestarts > 0 && Enabled(s, e) && e.Gate?
    ensures var granted := GateVerdict(s.core, s.policy, s.clock).Granted?;
      && Apply(s, e).hist == (if s.core.stopped then s.hist else s.hist + [Attempt(s.clock, granted)])
      && AttemptAt(s, e) == (if s.core.stopped then [] else [s.clock])
      && BegunAt(s, e) == (if granted then [s.clock] else []) && (s.core.stopped ==> !granted)
  {
  }

  lemma {:induction false} RecordRun(s: State, evs: seq<Event>, attempts: seq<int>, begun: seq<int>)
    requires s.policy.maxRestarts > 0 && Recorded(s, attempts, begun) && Runnable(s, evs)
    ensures Recorded(Exec(s, evs), attempts + Attempts(s, evs), begun + Begun(s, evs))
    ensures Exec(s, evs).policy == s.policy
    decreases |evs|
  {
    hide Recorded, Enabled, Apply, AttemptAt, BegunAt;
    if evs == [] {
      assert attempts + [] == attempts && begun + [] == begun;
    } else {
      var e, t := evs[0], Apply(s, evs[0]);
      RecordStep(s, e, attempts, begun);
      RecordRun(t, evs[1..], attempts + AttemptAt(s, e), begun + BegunAt(s, e));
      assert attempts + (AttemptAt(s, e) + Attempts(t, evs[1..])) == attempts + AttemptAt(s, e) + Attempts(t, evs[1..]);
      assert begun + (BegunAt(s, e) + Begun(t, evs[1..])) == begun + BegunAt(s, e) + Begun(t, evs[1..]);
    }
  }

  lemma RunIsRecorded(p: Policy, clock: int, evs: seq<Event>)
    requires p.maxRestarts > 0 && Runnable(Init(p, clock), evs)
    ensures var s := Exec(Init(p, clock), evs);
      && s.policy == p && Th.LimitInv(s)
      && Times(s.hist) == Attempts(Init(p, clock), evs) && GrantTimes(s.hist) == Begun(Init(p, clock), evs)
  {
    hide Th.LimitInv;
    var i := Init(p, clock);
    assert Th.LimitInv(i) by { Th.LimitAtStart(p, clock); }
    Th.LimitRun(i, evs);
    RecordRun(i, evs, [], []);
    assert [] + Attempts(i, evs) == Attempts(i, evs) && [] + Begun(i, evs) == Begun(i, evs);
  }

  // ---------------------------------------------------------------- counting

  lemma WithinAppend(times: seq<int>, x: int, lo: int, hi: int)
    ensures Within(times + [x], lo, hi) == Within(times, lo, hi) + (if lo <= x <= hi then 1 else 0)
  {
    var a := set i | 0 <= i < |times| && lo <= times[i] <= hi;
    var b := set i | 0 <= i < |times + [x]| && lo <= (times + [x])[i] <= hi;
    assert b == a + (if lo <= x <= hi then {|times|} else {});
  }

  lemma {:induction false} GrantsCounted(hist: seq<Attempt>, lo: int, hi: int)
    ensures Within(GrantTimes(hist), lo, hi) == GrantsIn(hist, lo, hi)
  {
    hide Within;
    if hist == [] {
      NoneWithin(lo, hi);
    } else {
      var n := |hist| - 1;
      GrantsCounted(hist[..n], lo, hi);
      if hist[n].granted { WithinAppend(GrantTimes(hist[..n]), hist[n].at, lo, hi); }
      else { assert GrantTimes(hist) == GrantTimes(hist[..n]); }
    }
  }

  lemma NoneWithin(lo: int, hi: int)
    ensures Within([], lo, hi) == 0
  {
  }

  // ---------------------------------------------------------------- what really begins

  /** The restarts that really begin are limited: along any run, in no closed interval as long as the
      window do more goroutines go from their gate to a start than the policy's maximum. */
  lemma BegunAreLimited(p: Policy, clock: int, evs: seq<Event>, a: int)
    requires p.maxRestarts > 0 && Runnable(Init(p, clock), evs)
    ensures Within(Begun(Init(p, clock), evs), a, a + p.within) <= p.maxRestarts
  {
    hide Window, Decided, Within, Runnable, Exec;
    RunIsRecorded(p, clock, evs);
    var s := Exec(Init(p, clock), evs);
    GrantsCounted(s.hist, a, a + p.within);
    AtMostMaxPerWindow(s.hist, p.maxRestarts, p.within, a);
  }

  /** Where the goroutine that handles a termination of child `c` goes from its gate. */
  function PastGate(p: Policy, c: nat): Pc { if p.strategy == OneForOne then OneStart(c) else AllSnap }

  /** The limiter is closed: with this attempt, the attempts of the last window, whether they led to a
      restart or not, are more than the policy allows. */
  ghost predicate TooMany(p: Policy, before: seq<int>, now: int) {
    p.maxRestarts > 0 && |Since(before + [now], now - p.within)| > p.maxRestarts
  }

  lemma GateOf(s: State, i: nat)
    requires Enabled(s, Gate(i))
    ensures At(s, i) && s.threads[i].HandleGate? && At(Apply(s, Gate(i)), i)
    ensures Apply(s, Gate(i)).threads[i]
         == if GateVerdict(s.core, s.policy, s.clock).Granted? then PastGate(s.policy, s.threads[i].c) else Ended
  {
  }

  /** The gate, after any run: the goroutine ends if and only if the supervisor is stopped or the limiter
      is closed, judged by the attempts of the run itself; otherwise it starts the child that
      terminated, or begins a wave, as the strategy says. */
  lemma GateDecides(p: Policy, clock: int, evs: seq<Event>, i: nat)
    requires Runnable(Init(p, clock), evs) && Enabled(Exec(Init(p, clock), evs), Gate(i))
    ensures var s := Exec(Init(p, clock), evs);
      At(Apply(s, Gate(i)), i) && Apply(s, Gate(i)).threads[i] ==
        if s.core.stopped || TooMany(p, Attempts(Init(p, clock), evs), s.clock) then Ended
        else PastGate(p, s.threads[i].c)
  {
    hide Runnable, Exec, Enabled, Apply, Window, Decided, Times, Since;
    var s := Exec(Init(p, clock), evs);
    PolicyKept(Init(p, clock), evs);
    GateOf(s, i);
    if p.maxRestarts > 0 && !s.core.stopped {
      RunIsRecorded(p, clock, evs);
      NextWindow(s);
    }
  }

  /** What the limiter's list will be is the window of the history with the next attempt. */
  lemma NextWindow(s: State)
    requires Th.LimitInv(s)
    ensures Trim(s.core.restarts + [s.clock], s.clock - s.policy.within)
         == Since(Times(s.hist) + [s.clock], s.clock - s.policy.within)
  {
    hide Window, Trim, Since, Decided;
    var ts := Times(s.hist) + [s.clock];
    WindowAppend(Times(s.hist), s.clock, s.policy.within);
    assert forall k :: 0 <= k < |s.hist| ==> Times(s.hist)[k] == s.hist[k].at;
    WindowIsRecentHistory(ts, s.policy.within);
  }

  lemma {:induction false} PolicyKept(s: State, evs: seq<Event>)
    requires Runnable(s, evs)
    ensures Exec(s, evs).policy == s.policy
    decreases |evs|
  {
    if evs != [] { PolicyKept(Apply(s, evs[0]), evs[1..]); }
  }
}
