/** Which terminations are still to be handled (`pkg/supervision/supervisor.go:222-241`): during a burst
    of failures, exactly these start a restart wave of their own. */
module SupervisorWaves {
  import opened Basics
  import opened SupervisorMachine
  import opened SupervisorVersions
  import Q = SupervisorQuiescence
  import Th = SupervisorTheorems

  predicate IsInstalled(s: State, r: nat) {
    r < |s.refs| && s.refs[r].ver.Some? && s.refs[r].child < |s.core.children|
  }

  /** The version `r` was installed with is still its child's, and goroutine `i` is its monitor. */
  predicate WatchedBy(s: State, r: nat, i: nat) {
    && IsInstalled(s, r) && s.core.children[s.refs[r].child].version == s.refs[r].ver.value
    && At(s, i) && Owed(s, s.threads[i], r)
  }

  ghost predicate StillWatched(s: State, r: nat) { exists i :: WatchedBy(s, r, i) }

  /** Some continuation handles the termination of `r`. */
  ghost predicate CanBeHandled(s: State, r: nat) {
    exists evs :: Runnable(s, evs) && r in Exec(s, evs).handled
  }

  // ---------------------------------------------------------------- not watched, never handled

  /** A monitor's key is one it had before, or that of a reference being installed. */
  lemma KeyBefore(s: State, e: Event, i: nat)
    requires Enabled(s, e) && i < |Apply(s, e).threads| && MonitorKey(Apply(s, e).threads[i]).Some?
    ensures var key := MonitorKey(Apply(s, e).threads[i]);
      || (i < |s.threads| && MonitorKey(s.threads[i]) == key)
      || (key.value.0 < |s.core.children| && key.value.1 == s.core.children[key.value.0].version + 1)
  {
  }

  lemma RefsKept(s: State, e: Event, r: nat)
    requires TablesOk(s) && Enabled(s, e) && IsInstalled(s, r)
    requires e.Install? ==> ThreadOk(s, s.threads[e.t])
    ensures var t := Apply(s, e);
      && IsInstalled(t, r) && t.refs[r].ver == s.refs[r].ver && t.refs[r].child == s.refs[r].child
      && s.refs[r].ver.value <= s.core.children[s.refs[r].child].version
      && s.core.children[s.refs[r].child].version <= t.core.children[s.refs[r].child].version
  {
  }

  lemma HandledBy(s: State, e: Event, r: nat)
    requires Enabled(s, e) && r in Apply(s, e).handled && r !in s.handled
    ensures e.Check? && s.threads[e.t].r == r
    ensures s.core.children[s.threads[e.t].c].version == s.threads[e.t].ver
  {
  }

  lemma HandledWasWatched(s: State, e: Event, r: nat)
    requires VInv(s) && Enabled(s, e) && IsInstalled(s, r) && r !in s.handled && r in Apply(s, e).handled
    ensures StillWatched(s, r)
  {
    hide ThreadOk;
    HandledBy(s, e, r);
    CurrentIsNew(s, e.t);
    assert WatchedBy(s, r, e.t);
  }

  lemma WatchedBefore(s: State, e: Event, r: nat, i: nat)
    requires VInv(s) && Enabled(s, e) && IsInstalled(s, r) && WatchedBy(Apply(s, e), r, i)
    ensures WatchedBy(s, r, i)
  {
    hide ThreadOk, Apart, HandledOk, TargetsOk;
    if e.Install? { assert ThreadOk(s, s.threads[e.t]); }
    RefsKept(s, e, r);
    KeyBefore(s, e, i);
  }

  lemma UnwatchedStep(s: State, e: Event, r: nat)
    requires VInv(s) && Enabled(s, e) && IsInstalled(s, r) && r !in s.handled && !StillWatched(s, r)
    ensures var t := Apply(s, e); IsInstalled(t, r) && r !in t.handled && !StillWatched(t, r)
  {
    hide Enabled, Apply, WatchedBy;
    var t := Apply(s, e);
    assert IsInstalled(t, r) by { InstalledStays(s, e, r); }
    if r in t.handled { HandledWasWatched(s, e, r); }
    forall i ensures !WatchedBy(t, r, i) {
      if WatchedBy(t, r, i) { WatchedBefore(s, e, r, i); }
    }
  }

  lemma InstalledStays(s: State, e: Event, r: nat)
    requires VInv(s) && Enabled(s, e) && IsInstalled(s, r)
    ensures IsInstalled(Apply(s, e), r)
  {
    hide ThreadOk, Apart, HandledOk, TargetsOk;
    if e.Install? { assert ThreadOk(s, s.threads[e.t]); }
    RefsKept(s, e, r);
  }

  lemma {:induction false} UnwatchedRun(s: State, evs: seq<Event>, r: nat)
    requires VInv(s) && Runnable(s, evs) && IsInstalled(s, r) && r !in s.handled && !StillWatched(s, r)
    ensures r !in Exec(s, evs).handled
    decreases |evs|
  {
    hide VInv, Enabled, Apply, StillWatched, IsInstalled;
    if evs != [] {
      UnwatchedStep(s, evs[0], r);
      StepKeeps(s, evs[0]);
      UnwatchedRun(Apply(s, evs[0]), evs[1..], r);
    }
  }

  // ---------------------------------------------------------------- watched, handled in some run

  function ToCheck(s: State, r: nat, i: nat): nat
    requires WatchedBy(s, r, i)
  {
    match s.threads[i]
    case MonitorNew(_, _) => 3
    case MonitorWait(_, _, _) => if s.refs[r].done then 1 else 2
    case _ => 0
  }

  /** The monitor's way to its check. */
  lemma OnToCheck(s: State, r: nat, i: nat) returns (e: Event)
    requires VInv(s) && Th.OwnVersions(s) && WatchedBy(s, r, i) && !s.threads[i].MonitorCheck?
    ensures Enabled(s, e)
    ensures WatchedBy(Apply(s, e), r, i) && ToCheck(Apply(s, e), r, i) < ToCheck(s, r, i)
  {
    MonitorOfCurrent(s, r, i);
    if s.threads[i].MonitorNew? {
      e := ReadRef(i);
    } else if s.refs[r].done {
      e := SeeDone(i);
    } else {
      e := RefDone(r);
    }
  }

  /** The monitor of a current version has its child's reference in hand, or is about to read it. */
  lemma MonitorOfCurrent(s: State, r: nat, i: nat)
    requires VInv(s) && Th.OwnVersions(s) && WatchedBy(s, r, i)
    ensures RefOf(s, s.refs[r].child) == Some(r)
    ensures s.threads[i].MonitorNew?
         || ((s.threads[i].MonitorWait? || s.threads[i].MonitorCheck?) && s.threads[i].r == r)
  {
    hide Apart, HandledOk, TargetsOk;
    assert ThreadOk(s, s.threads[i]);
    var q := RefOf(s, s.refs[r].child).value;
    assert s.refs[q].child == s.refs[r].child && s.refs[q].ver == s.refs[r].ver;
    assert !(q < r) && !(r < q);
  }

  lemma {:induction false} WatchedIsHandled(s: State, r: nat, i: nat) returns (evs: seq<Event>)
    requires VInv(s) && Th.OwnVersions(s) && WatchedBy(s, r, i)
    ensures Runnable(s, evs) && r in Exec(s, evs).handled
    decreases ToCheck(s, r, i)
  {
    if s.threads[i].MonitorCheck? {
      evs := [Check(i)];
      CheckHandles(s, r, i);
    } else {
      hide VInv, Enabled, Apply, WatchedBy, Th.OwnVersions;
      var e := OnToCheck(s, r, i);
      StepKeeps(s, e);
      Th.OwnVersionsStep(s, e);
      var rest := WatchedIsHandled(Apply(s, e), r, i);
      evs := [e] + rest;
      assert evs[1..] == rest;
    }
  }

  lemma CheckHandles(s: State, r: nat, i: nat)
    requires VInv(s) && Th.OwnVersions(s) && WatchedBy(s, r, i) && s.threads[i].MonitorCheck?
    ensures Runnable(s, [Check(i)]) && r in Exec(s, [Check(i)]).handled
  {
    MonitorOfCurrent(s, r, i);
    Q.Solo(s, Check(i));
  }

  /** A termination that was not handled yet, of a reference that is running or already done, is handled
      in some continuation exactly when the reference's version is still its child's and its monitor
      has not ended. So a second failure starts its own wave, or does not, by whether a restart
      bumped its version first. */
  lemma HandledLaterIff(s: State, r: nat)
    requires Reachable(s) && IsInstalled(s, r) && r !in s.handled
    ensures CanBeHandled(s, r) <==> StillWatched(s, r)
  {
    hide Reachable, VInv, WatchedBy;
    ReachedVInv(s);
    Th.VersionsNameIncarnations(s);
    if StillWatched(s, r) {
      var i :| WatchedBy(s, r, i);
      var evs := WatchedIsHandled(s, r, i);
      assert Runnable(s, evs) && r in Exec(s, evs).handled;
    } else {
      forall evs | Runnable(s, evs) ensures r !in Exec(s, evs).handled { UnwatchedRun(s, evs, r); }
    }
  }
}
