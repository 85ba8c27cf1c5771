/** What `StopAll` of `pkg/supervision/supervisor.go:331-356` stops, while monitors and restarts go on
    around it. */
module SupervisorStopAll {
  import opened Basics
  import opened SupervisorMachine

  /** One turn of the loop: a child, and the reference it had when its turn came. */
  datatype Turn = Turn(child: nat, ref: Option<nat>)

  function TurnAt(s: State, e: Event, t: nat): seq<Turn>
    requires Enabled(s, e)
  {
    if e == TakeForStop(t) then var c := s.threads[t].i - 1; [Turn(c, RefOf(s, c))] else []
  }

  function StopAt(s: State, e: Event, t: nat): seq<Turn>
    requires Enabled(s, e)
  {
    if e == StopRef(t) && s.threads[t].StopAllStopping? then [Turn(s.threads[t].i, Some(s.threads[t].r))] else []
  }

  /** The turns that goroutine `t` took along the run. */
  ghost function Turns(s: State, evs: seq<Event>, t: nat): seq<Turn>
    requires Runnable(s, evs)
    decreases |evs|
  {
    if evs == [] then [] else TurnAt(s, evs[0], t) + Turns(Apply(s, evs[0]), evs[1..], t)
  }

  /** The references goroutine `t` stopped along the run, with their children. */
  ghost function Stops(s: State, evs: seq<Event>, t: nat): seq<Turn>
    requires Runnable(s, evs)
    decreases |evs|
  {
    if evs == [] then [] else StopAt(s, evs[0], t) + Stops(Apply(s, evs[0]), evs[1..], t)
  }

  /** The turns whose child had a reference. */
  function WithRef(turns: seq<Turn>): seq<Turn> {
    if turns == [] then []
    else (if turns[0].ref.Some? then [turns[0]] else []) + WithRef(turns[1..])
  }

  /** The turns go down from child `n - 1` to child 0. */
  ghost predicate Downwards(turns: seq<Turn>, n: nat) {
    |turns| == n && forall j :: 0 <= j < n ==> turns[j].child == n - 1 - j
  }

  predicate Stopping(pc: Pc) { pc.StopAllAt? || pc.StopAllStopping? }

  /** The stop the goroutine still owes for the turn it took last. */
  function Owing(pc: Pc): seq<Turn> {
    if pc.StopAllStopping? then [Turn(pc.i, Some(pc.r))] else []
  }

  lemma OthersLeave(s: State, e: Event, t: nat)
    requires At(s, t) && Stopping(s.threads[t]) && Enabled(s, e)
    requires e != TakeForStop(t) && e != StopRef(t) && e != Finish(t)
    ensures At(Apply(s, e), t) && Apply(s, e).threads[t] == s.threads[t]
  {
  }

  /** Each action of the run keeps what was stopped and what is owed in balance with the turns. */
  lemma StepBalances(s: State, e: Event, t: nat)
    requires At(s, t) && Stopping(s.threads[t]) && Enabled(s, e) && e != Finish(t)
    ensures var pc, u, turn := s.threads[t], Apply(s, e), TurnAt(s, e, t);
      && At(u, t) && Stopping(u.threads[t])
      && Owing(pc) + WithRef(turn) == StopAt(s, e, t) + Owing(u.threads[t])
      && u.threads[t].i == pc.i - |turn|
      && (turn == [] || (|turn| == 1 && turn[0].child == pc.i - 1))
  {
    if e != TakeForStop(t) && e != StopRef(t) { OthersLeave(s, e, t); }
  }

  lemma {:induction false} WithRefAppend(a: seq<Turn>, b: seq<Turn>)
    ensures WithRef(a + b) == WithRef(a) + WithRef(b)
  {
    if a == [] {
      assert a + b == b;
    } else {
      assert (a + b)[0] == a[0] && (a + b)[1..] == a[1..] + b;
      WithRefAppend(a[1..], b);
    }
  }

  lemma Regroup(a: seq<Turn>, b: seq<Turn>, c: seq<Turn>)
    ensures a + (b + c) == a + b + c
  {
  }

  /** From its position on, the loop takes the remaining turns downwards and stops what it owes and
      what those turns find. */
  lemma {:induction false} RestOfStopAll(s: State, evs: seq<Event>, t: nat)
    requires At(s, t) && Stopping(s.threads[t]) && Runnable(s, evs)
    requires At(Exec(s, evs), t) && Exec(s, evs).threads[t] == Ended
    ensures Downwards(Turns(s, evs, t), s.threads[t].i)
    ensures Stops(s, evs, t) == Owing(s.threads[t]) + WithRef(Turns(s, evs, t))
    decreases |evs|
  {
    hide Enabled, Apply, TurnAt, StopAt;
    var e, u := evs[0], Apply(s, evs[0]);
    if e == Finish(t) {
      AtFinish(s, evs, t);
    } else {
      StepBalances(s, e, t);
      RestOfStopAll(u, evs[1..], t);
      var turn, rest := TurnAt(s, e, t), Turns(u, evs[1..], t);
      WithRefAppend(turn, rest);
      Regroup(StopAt(s, e, t), Owing(u.threads[t]), WithRef(rest));
      Regroup(Owing(s.threads[t]), WithRef(turn), WithRef(rest));
    }
  }

  lemma AtFinish(s: State, evs: seq<Event>, t: nat)
    requires At(s, t) && Stopping(s.threads[t]) && Runnable(s, evs) && evs != [] && evs[0] == Finish(t)
    ensures s.threads[t] == StopAllAt(0) && Turns(s, evs, t) == [] && Stops(s, evs, t) == []
  {
    EndedTakesNoTurn(Apply(s, evs[0]), evs[1..], t);
  }

  lemma {:induction false} EndedTakesNoTurn(s: State, evs: seq<Event>, t: nat)
    requires At(s, t) && s.threads[t] == Ended && Runnable(s, evs)
    ensures Turns(s, evs, t) == [] && Stops(s, evs, t) == []
    decreases |evs|
  {
    if evs != [] {
      EndedStays(s, evs[0], t);
      EndedTakesNoTurn(Apply(s, evs[0]), evs[1..], t);
    }
  }

  lemma EndedStays(s: State, e: Event, t: nat)
    requires At(s, t) && s.threads[t] == Ended && Enabled(s, e)
    ensures At(Apply(s, e), t) && Apply(s, e).threads[t] == Ended
  {
  }

  /** The stop loop. However restarts and terminations interleave with it, when `StopAll` has returned
      it took one turn for each child the supervisor had at the gate, last added first, and stopped
      exactly the references that children had at their turns, in that order. */
  lemma StopAllStopsEveryChild(s: State, evs: seq<Event>)
    requires Enabled(s, CallStopAll) && Runnable(Apply(s, CallStopAll), evs)
    requires var t := |s.threads|;
      At(Exec(Apply(s, CallStopAll), evs), t) && Exec(Apply(s, CallStopAll), evs).threads[t] == Ended
    ensures var t, u := |s.threads|, Apply(s, CallStopAll);
      && Downwards(Turns(u, evs, t), |s.core.children|)
      && Stops(u, evs, t) == WithRef(Turns(u, evs, t))
  {
    RestOfStopAll(Apply(s, CallStopAll), evs, |s.threads|);
  }
}
