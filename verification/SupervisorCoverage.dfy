/** When `StopAll` of `pkg/supervision/supervisor.go:331-356` leaves no child running that it did not
    stop: exactly when no start was under way or still to come at its gate. */
module SupervisorCoverage {
  import opened Basics
  import opened SupervisorMachine
  import opened SupervisorStopAll
  import V = SupervisorVersions
  import Q = SupervisorQuiescence
  import Th = SupervisorTheorems

  /** The goroutine is past its gate and will still start a child, or has started one that it has
      not installed. */
  predicate Behind(s: State, i: nat) {
    Q.CanStart(s, i) || (At(s, i) && ToInstall(s.threads[i]).Some?)
  }

  /** The reference of every child that has one is among the stops. */
  ghost predicate Covers(stops: seq<Turn>, s: State) {
    forall c :: 0 <= c < |s.core.children| && RefOf(s, c).Some? ==> Turn(c, RefOf(s, c)) in stops
  }

  /** The `StopAll` that passes its gate in `s` leaves no child uncovered, however it interleaves. */
  ghost predicate AlwaysCovers(s: State)
    requires Enabled(s, CallStopAll)
  {
    var u, t := Apply(s, CallStopAll), |s.threads|;
    forall evs :: Runnable(u, evs) && Finished(Exec(u, evs), t) ==> Covers(Stops(u, evs, t), Exec(u, evs))
  }

  predicate Finished(s: State, t: nat) { At(s, t) && s.threads[t] == Ended }

  // ---------------------------------------------------------------- nobody behind

  predicate SameRefs(s: State, t: State) {
    && |t.core.children| == |s.core.children|
    && forall c :: 0 <= c < |s.core.children| ==> t.core.children[c].ref == s.core.children[c].ref
  }

  ghost predicate NobodyBehind(s: State) { s.core.stopped && forall i :: !Behind(s, i) }

  lemma CalmStep(s: State, e: Event)
    requires V.VInv(s) && NobodyBehind(s) && Enabled(s, e)
    ensures NobodyBehind(Apply(s, e)) && SameRefs(s, Apply(s, e))
  {
    hide V.VInv, Behind;
    var t := Apply(s, e);
    Q.BudgetStep(s, e);
    NoStartNoInstall(s, e);
    CalmShape(s, e);
    forall i ensures !Behind(t, i) {
      assert !Behind(s, i);
      BehindBefore(s, e, i);
    }
  }

  lemma NoStartNoInstall(s: State, e: Event)
    requires V.VInv(s) && NobodyBehind(s) && Enabled(s, e)
    ensures !e.StartSpec? && !e.Install?
  {
    if e.StartSpec? || e.Install? {
      assert V.ThreadOk(s, s.threads[e.t]);
      assert Behind(s, e.t);
    }
  }

  lemma CalmShape(s: State, e: Event)
    requires s.core.stopped && Enabled(s, e) && !e.StartSpec? && !e.Install?
    ensures SameRefs(s, Apply(s, e))
  {
  }

  lemma BehindBefore(s: State, e: Event, i: nat)
    requires s.core.stopped && Enabled(s, e) && !e.StartSpec? && !e.Install?
    requires !Behind(s, i) && (Q.CanStart(Apply(s, e), i) ==> Q.CanStart(s, i))
    ensures !Behind(Apply(s, e), i)
  {
  }

  /** While nobody is behind, every turn finds the reference its child has at the end. */
  lemma {:induction false} CalmTurns(s: State, evs: seq<Event>, t: nat)
    requires V.VInv(s) && NobodyBehind(s) && Runnable(s, evs)
    ensures SameRefs(s, Exec(s, evs))
    ensures forall j :: 0 <= j < |Turns(s, evs, t)| ==>
      var turn := Turns(s, evs, t)[j]; turn.child < |s.core.children| ==> turn.ref == RefOf(s, turn.child)
    decreases |evs|
  {
    hide V.VInv, NobodyBehind, Enabled, Apply;
    if evs != [] {
      CalmStep(s, evs[0]);
      V.StepKeeps(s, evs[0]);
      CalmTurns(Apply(s, evs[0]), evs[1..], t);
    }
  }

  lemma {:induction false} InWithRef(turns: seq<Turn>, j: nat)
    requires j < |turns| && turns[j].ref.Some?
    ensures turns[j] in WithRef(turns)
  {
    if j > 0 { InWithRef(turns[1..], j - 1); }
  }

  lemma CalmCovers(s: State, evs: seq<Event>)
    requires V.VInv(s) && Enabled(s, CallStopAll) && forall i :: !Behind(s, i)
    requires Runnable(Apply(s, CallStopAll), evs) && Finished(Exec(Apply(s, CallStopAll), evs), |s.threads|)
    ensures Covers(Stops(Apply(s, CallStopAll), evs, |s.threads|), Exec(Apply(s, CallStopAll), evs))
  {
    hide V.VInv, Enabled;
    var u, t := Apply(s, CallStopAll), |s.threads|;
    V.StepKeeps(s, CallStopAll);
    assert NobodyBehind(u) by { CalmAtGate(s); }
    StopAllStopsEveryChild(s, evs);
    CalmTurns(u, evs, t);
    CoveredByTurns(Turns(u, evs, t), u, Exec(u, evs));
  }

  lemma CalmAtGate(s: State)
    requires Enabled(s, CallStopAll) && forall i :: !Behind(s, i)
    ensures NobodyBehind(Apply(s, CallStopAll))
  {
    var u := Apply(s, CallStopAll);
    forall i ensures !Behind(u, i) { assert !Behind(s, i); }
  }

  lemma {:induction false} CoveredByTurns(turns: seq<Turn>, u: State, v: State)
    requires Downwards(turns, |u.core.children|) && SameRefs(u, v)
    requires forall j :: 0 <= j < |turns| ==>
      turns[j].child < |u.core.children| ==> turns[j].ref == RefOf(u, turns[j].child)
    ensures Covers(WithRef(turns), v)
  {
    forall c | 0 <= c < |v.core.children| && RefOf(v, c).Some? ensures Turn(c, RefOf(v, c)) in WithRef(turns) {
      var j := |turns| - 1 - c;
      assert turns[j] == Turn(c, RefOf(v, c));
      InWithRef(turns, j);
    }
  }

  // ---------------------------------------------------------------- somebody behind

  /** `StopAll` can go through its loop before anybody else moves. */
  lemma {:induction false} StopAllAlone(s: State, t: nat) returns (evs: seq<Event>, w: State)
    requires V.VInv(s) && At(s, t) && Stopping(s.threads[t])
    ensures Runnable(s, evs) && Exec(s, evs) == w
    ensures w == s.(threads := s.threads[t := Ended])
    decreases s.threads[t].i, s.threads[t].StopAllStopping?
  {
    var e := OwnStep(s, t);
    var u := Apply(s, e);
    if e == Finish(t) {
      evs, w := [e], u;
      Q.Solo(s, e);
    } else {
      V.StepKeeps(s, e);
      var rest;
      rest, w := StopAllAlone(u, t);
      evs := [e] + rest;
      assert evs[1..] == rest;
      assert u.threads[t := Ended] == s.threads[t := Ended];
    }
  }

  lemma OwnStep(s: State, t: nat) returns (e: Event)
    requires V.VInv(s) && At(s, t) && Stopping(s.threads[t])
    ensures Enabled(s, e) && (e == Finish(t) || e == TakeForStop(t) || e == StopRef(t))
    ensures var u := Apply(s, e);
      && u == s.(threads := s.threads[t := u.threads[t]])
      && (e == Finish(t) ==> u.threads[t] == Ended)
      && (e != Finish(t) ==> Stopping(u.threads[t]) && u.threads[t].i <= s.threads[t].i)
      && (e == TakeForStop(t) ==> u.threads[t].i < s.threads[t].i)
      && (e == StopRef(t) ==> s.threads[t].StopAllStopping? && u.threads[t].StopAllAt?)
  {
    assert V.ThreadOk(s, s.threads[t]);
    e := match s.threads[t]
      case StopAllAt(i) => if i == 0 then Finish(t) else TakeForStop(t)
      case _ => StopRef(t);
  }

  /** A reference that was not installed in `s`. */
  predicate NotInstalled(s: State, r: nat) { r < |s.refs| ==> s.refs[r].ver.None? }

  /** Whoever is behind can go on alone and give a child a reference that was not installed before. */
  lemma {:induction false} Arrives(s: State, i: nat) returns (evs: seq<Event>, c: nat, r: nat)
    requires V.VInv(s) && Behind(s, i)
    ensures Runnable(s, evs) && RefOf(Exec(s, evs), c) == Some(r) && NotInstalled(s, r)
    decreases if ToInstall(s.threads[i]).Some? then 0 else 1, |s.core.children|,
      Q.Distance(s.threads[i], |s.core.children|)
  {
    if ToInstall(s.threads[i]).Some? {
      evs, c, r := ArrivesNow(s, i);
    } else {
      var e := Q.Onward(s, i);
      GoesOn(s, i, e);
      var u := Apply(s, e);
      V.StepKeeps(s, e);
      var rest;
      rest, c, r := Arrives(u, i);
      evs := [e] + rest;
      assert evs[1..] == rest;
    }
  }

  lemma ArrivesNow(s: State, i: nat) returns (evs: seq<Event>, c: nat, r: nat)
    requires V.VInv(s) && At(s, i) && ToInstall(s.threads[i]).Some?
    ensures Runnable(s, evs) && RefOf(Exec(s, evs), c) == Some(r) && NotInstalled(s, r)
  {
    hide V.TablesOk, V.Apart, V.HandledOk, V.TargetsOk;
    assert V.ThreadOk(s, s.threads[i]);
    c, r := ToInstall(s.threads[i]).value.0, ToInstall(s.threads[i]).value.1;
    evs := [Install(i)];
    Q.Solo(s, Install(i));
  }

  /** One own action of a goroutine that is to start a child. */
  lemma GoesOn(s: State, i: nat, e: Event)
    requires V.VInv(s) && Q.CanStart(s, i) && ToInstall(s.threads[i]).None? && e == Q.Onward(s, i)
    ensures Enabled(s, e)
    ensures var u := Apply(s, e);
      && Behind(u, i) && s.refs <= u.refs && |u.core.children| == |s.core.children|
      && (forall r :: |s.refs| <= r < |u.refs| ==> u.refs[r].ver.None?)
      && (ToInstall(u.threads[i]).Some?
          || Q.Distance(u.threads[i], |u.core.children|) < Q.Distance(s.threads[i], |s.core.children|))
  {
    hide V.VInv;
    if e.StartSpec? { Q.BudgetIsStart(s, i); } else { Q.OnwardCloser(s, i, e); }
  }

  /** What was stopped had been installed by then. */
  lemma {:induction false} StopsAreInstalled(s: State, evs: seq<Event>, t: nat)
    requires V.VInv(s) && Runnable(s, evs)
    ensures forall turn :: turn in Stops(s, evs, t) ==>
      turn.ref.Some? && V.Installed(Exec(s, evs), turn.child, turn.ref.value)
    decreases |evs|
  {
    hide V.VInv, Enabled, Apply;
    if evs != [] {
      var e, u := evs[0], Apply(s, evs[0]);
      V.StepKeeps(s, e);
      StopsAreInstalled(u, evs[1..], t);
      forall turn | turn in StopAt(s, e, t)
        ensures turn.ref.Some? && V.Installed(Exec(s, evs), turn.child, turn.ref.value)
      {
        StopNow(s, e, t);
        StaysInstalled(s, evs, turn.child, turn.ref.value);
      }
    }
  }

  lemma StopNow(s: State, e: Event, t: nat)
    requires V.VInv(s) && Enabled(s, e)
    ensures forall turn :: turn in StopAt(s, e, t) ==>
      turn.ref.Some? && V.Installed(s, turn.child, turn.ref.value)
  {
    hide V.TablesOk, V.Apart, V.HandledOk, V.TargetsOk;
    if e == StopRef(t) { assert V.ThreadOk(s, s.threads[t]); }
  }

  lemma StaysInstalledStep(s: State, e: Event, c: nat, r: nat)
    requires V.Installed(s, c, r) && Enabled(s, e)
    ensures V.Installed(Apply(s, e), c, r)
  {
  }

  lemma {:induction false} StaysInstalled(s: State, evs: seq<Event>, c: nat, r: nat)
    requires V.Installed(s, c, r) && Runnable(s, evs)
    ensures V.Installed(Exec(s, evs), c, r)
    decreases |evs|
  {
    hide Enabled, Apply;
    if evs != [] {
      StaysInstalledStep(s, evs[0], c, r);
      StaysInstalled(Apply(s, evs[0]), evs[1..], c, r);
    }
  }

  lemma {:induction false} StopsAppend(s: State, a: seq<Event>, b: seq<Event>, t: nat)
    requires Runnable(s, a) && Runnable(Exec(s, a), b) && Runnable(s, a + b)
    ensures Stops(s, a + b, t) == Stops(s, a, t) + Stops(Exec(s, a), b, t)
    decreases |a|
  {
    hide Enabled, Apply, StopAt;
    if a == [] {
      assert a + b == b;
    } else {
      assert (a + b)[0] == a[0] && (a + b)[1..] == a[1..] + b;
      StopsAppend(Apply(s, a[0]), a[1..], b, t);
    }
  }

  lemma {:induction false} StaysFinished(s: State, evs: seq<Event>, t: nat)
    requires Finished(s, t) && Runnable(s, evs)
    ensures Finished(Exec(s, evs), t)
    decreases |evs|
  {
    hide Enabled, Apply;
    if evs != [] {
      EndedStays(s, evs[0], t);
      StaysFinished(Apply(s, evs[0]), evs[1..], t);
    }
  }

  lemma LateInstallEscapes(s: State, i: nat) returns (evs: seq<Event>)
    requires V.VInv(s) && Enabled(s, CallStopAll) && Behind(s, i)
    ensures var u, t := Apply(s, CallStopAll), |s.threads|;
      Runnable(u, evs) && Finished(Exec(u, evs), t) && !Covers(Stops(u, evs, t), Exec(u, evs))
  {
    hide V.VInv, Enabled;
    var u, t := Apply(s, CallStopAll), |s.threads|;
    V.StepKeeps(s, CallStopAll);
    var a, w := StopAllAlone(u, t);
    V.RunKeeps(u, a);
    assert Behind(w, i);
    var b, c, r := Arrives(w, i);
    evs := a + b;
    Th.ExecAppend(u, a, b);
    StopsAppend(u, a, b, t);
    EndedTakesNoTurn(w, b, t);
    StaysFinished(w, b, t);
    StopsAreInstalled(u, a, t);
    assert Turn(c, Some(r)) !in Stops(u, a, t);
  }

  /** `StopAll` is complete, in every interleaving that lets it return, exactly when at its gate no
      goroutine had a start left or a started child to install: then and only then each child's
      reference, as it is when `StopAll` has returned, is one that it stopped. */
  lemma StopAllCoversIff(s: State)
    requires V.VInv(s) && Enabled(s, CallStopAll)
    ensures AlwaysCovers(s) <==> forall i :: !Behind(s, i)
  {
    hide V.VInv, Behind, Covers, Finished, Enabled, Apply;
    var u, t := Apply(s, CallStopAll), |s.threads|;
    if forall i :: !Behind(s, i) {
      forall evs | Runnable(u, evs) && Finished(Exec(u, evs), t)
        ensures Covers(Stops(u, evs, t), Exec(u, evs))
      {
        CalmCovers(s, evs);
      }
    } else {
      var i :| Behind(s, i);
      var evs := LateInstallEscapes(s, i);
    }
  }
}
