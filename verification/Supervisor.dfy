/** `Supervisor` in its own form: the fields under the mutex and the critical sections that change
    them, each shown to be the corresponding step of `SupervisorMachine`. */
module Supervision {
  import opened Basics
  import opened RestartWindow
  import M = SupervisorMachine
  import V = SupervisorVersions
  import Q = SupervisorQuiescence

  datatype AddError = ErrSupervisorStopped | ErrChildNameEmpty | ErrNilChildSpec | ErrChildNameDuplicate

  class ChildRecord {
    const name: string
    var ref: Option<nat>
    var version: nat

    constructor (name: string)
      ensures this.name == name && ref == None && version == 0
    {
      this.name := name;
      ref, version := None, 0;
    }

    function View(): M.Child reads this { M.Child(name, ref, version) }
  }

  /** What the supervisor's slice of child pointers shows. */
  ghost function Views(cs: seq<ChildRecord>): (vs: seq<M.Child>)
    reads cs
    ensures |vs| == |cs| && forall i :: 0 <= i < |cs| ==> vs[i] == cs[i].View()
  {
    if cs == [] then [] else Views(cs[..|cs| - 1]) + [cs[|cs| - 1].View()]
  }

  class Supervisor {
    const policy: M.Policy
    var children: seq<ChildRecord>
    var names: map<string, nat>  // name to index in children
    var restarts: seq<int>
    var stopped: bool
    var watchers: nat            // how many callbacks are registered

    ghost predicate Valid() reads this, children {
      && (forall i, j :: 0 <= i < j < |children| ==> children[i] != children[j])
      && (forall i :: 0 <= i < |children| ==> children[i].name in names && names[children[i].name] == i)
      && (forall n :: n in names ==> n != "" && names[n] < |children| && children[names[n]].name == n)
    }

    ghost function View(): M.Core reads this, children {
      M.Core(Views(children), restarts, stopped, watchers)
    }

    constructor (policy: M.Policy)
      ensures Valid() && this.policy == policy && View() == M.Init(policy, 0).core
    {
      this.policy := policy;
      children, names, restarts, stopped, watchers := [], map[], [], false, 0;
    }

    method Watch()
      requires Valid()
      modifies this`watchers
      ensures Valid() && View() == old(View()).(watchers := old(watchers) + 1)
    {
      watchers := watchers + 1;
    }

    ghost predicate Taken(name: string) reads this, children {
      exists i :: 0 <= i < |children| && children[i].name == name
    }

    /** `Add`: the first failing check decides the error, and on an error nothing changes. */
    method Add(name: string, nilSpec: bool) returns (err: Option<AddError>)
      requires Valid()
      modifies this
      ensures Valid()
      ensures err == (if old(stopped) then Some(ErrSupervisorStopped)
                      else if name == "" then Some(ErrChildNameEmpty)
                      else if nilSpec then Some(ErrNilChildSpec)
                      else if old(Taken(name)) then Some(ErrChildNameDuplicate)
                      else None)
      ensures err.Some? ==> View() == old(View())
      ensures err.None? ==>
        View() == old(View()).(children := old(View()).children + [M.Child(name, None, 0)])
    {
      if stopped { return Some(ErrSupervisorStopped); }
      if name == "" { return Some(ErrChildNameEmpty); }
      if nilSpec { return Some(ErrNilChildSpec); }
      TakenIffMapped(name);
      if name in names { return Some(ErrChildNameDuplicate); }
      Append(name);
      err := None;
    }

    lemma TakenIffMapped(name: string)
      requires Valid()
      ensures Taken(name) <==> name in names
    {
      if name in names { assert children[names[name]].name == name; }
    }

    method Append(name: string)
      requires Valid() && name != "" && name !in names
      modifies this
      ensures Valid()
      ensures View() == old(View()).(children := old(View()).children + [M.Child(name, None, 0)])
    {
      var c := new ChildRecord(name);
      Link(c);
    }

    method Link(c: ChildRecord)
      requires Valid() && c !in children && c.name != "" && c.name !in names
      modifies this`children, this`names
      ensures Valid()
      ensures View() == old(View()).(children := old(View()).children + [c.View()])
    {
      hide Views;
      ViewsAppend(children, c);
      names := names[c.name := |children|];
      children := children + [c];
    }

    lemma ViewsAppend(cs: seq<ChildRecord>, c: ChildRecord)
      ensures Views(cs + [c]) == Views(cs) + [c.View()]
    {
      assert (cs + [c])[..|cs|] == cs;
    }

    /** The gate of `StartAll`: it passes exactly when the machine lets a call in, and the caller then
        works on the `n` children that the machine's new goroutine has. */
    method StartAllGate(ghost s: M.State) returns (ok: bool, n: nat)
      requires Valid() && View() == s.core
      ensures ok <==> M.Enabled(s, M.CallStartAll)
      ensures ok ==>
        var t := M.Apply(s, M.CallStartAll); t.core == View() && t.threads == s.threads + [M.StartAllAt(0, n)]
    {
      ok, n := !stopped, |children|;
    }

    /** The critical section of `startChild`. */
    method InstallRef(c: nat, ref: nat) returns (ver: nat)
      requires Valid() && c < |children|
      modifies children[c]
      ensures Valid() && View() == M.InstallRef(old(View()), c, ref)
      ensures ver == View().children[c].version == old(View()).children[c].version + 1
      ensures View().children[c].ref == Some(ref) && View().children[c].name == old(View()).children[c].name
      ensures forall d :: 0 <= d < |children| && d != c ==> View().children[d] == old(View()).children[d]
    {
      ghost var before := Views(children);
      children[c].ref := Some(ref);
      children[c].version := children[c].version + 1;
      ver := children[c].version;
      assert Views(children) == before[c := children[c].View()];
    }

    /** The version check of monitor `t`, which saw `ref` terminate. It passes exactly when the
        machine's does; then `ref` is the child's current reference, its termination was never
        handled before, and no `restartAll` stopped it. Otherwise the monitor ends. */
    method IsCurrent(c: nat, version: nat, ghost s: M.State, ghost t: nat, ghost ref: nat) returns (current: bool)
      requires Valid() && View() == s.core && M.Reachable(s)
      requires M.At(s, t) && s.threads[t] == M.MonitorCheck(c, version, ref)
      ensures M.Enabled(s, M.Check(t))
      ensures M.Apply(s, M.Check(t)).threads[t] == if current then M.HandleRead(c, ref) else M.Ended
      ensures current ==> View().children[c].ref == Some(ref) && ref !in s.handled && ref !in s.targets
    {
      MonitorFacts(s, t);
      current := children[c].version == version;
    }

    lemma MonitorFacts(s: M.State, t: nat)
      requires M.Reachable(s) && M.At(s, t) && s.threads[t].MonitorCheck?
      ensures M.Enabled(s, M.Check(t))
      ensures var pc := s.threads[t];
        pc.c < |s.core.children| && (s.core.children[pc.c].version == pc.ver ==>
          s.core.children[pc.c].ref == Some(pc.r) && pc.r !in s.handled && pc.r !in s.targets)
    {
      hide M.Reachable;
      V.ReachedVInv(s);
      assert V.ThreadOk(s, s.threads[t]);
      if s.core.children[s.threads[t].c].version == s.threads[t].ver { V.CurrentIsNew(s, t); }
    }

    /** The gate of `handleTermination`, with its trim loop. */
    method PassGate(now: int) returns (verdict: M.Verdict)
      requires Valid()
      modifies this`restarts
      ensures Valid() && View() == M.GateCore(old(View()), policy, now)
      ensures verdict == M.GateVerdict(old(View()), policy, now)
      ensures verdict == M.GateStopped <==> stopped
      ensures verdict == M.Refused <==> !stopped && policy.maxRestarts > 0 && |restarts| > policy.maxRestarts
      ensures stopped || policy.maxRestarts <= 0 ==> restarts == old(restarts)
      ensures !stopped && policy.maxRestarts > 0 && NonDecreasing(old(restarts) + [now]) ==>
        restarts == Since(old(restarts) + [now], now - policy.within)
    {
      hide Trim, Since, NonDecreasing, Views;
      if NonDecreasing(restarts + [now]) { TrimIsSince(restarts + [now], now - policy.within); }
      if stopped { return M.GateStopped; }
      if policy.maxRestarts > 0 {
        restarts := restarts + [now];
        TrimRestarts(now - policy.within);
        if |restarts| > policy.maxRestarts { return M.Refused; }
      }
      verdict := M.Granted;
    }

    /** The trim loop. */
    method TrimRestarts(cutoff: int)
      modifies this`restarts
      ensures restarts == Trim(old(restarts), cutoff)
    {
      var trimIdx := 0;
      while trimIdx < |restarts| && restarts[trimIdx] < cutoff
        invariant trimIdx <= |restarts|
        invariant Trim(restarts[trimIdx..], cutoff) == Trim(restarts, cutoff)
      {
        trimIdx := trimIdx + 1;
      }
      restarts := restarts[trimIdx..];
    }

    /** One turn of `restartAll`'s stop loop up to its unlock. */
    method BumpVersion(c: nat) returns (ref: Option<nat>)
      requires Valid() && c < |children|
      modifies children[c]
      ensures Valid() && View() == M.BumpVersion(old(View()), c)
      ensures ref == old(View()).children[c].ref == View().children[c].ref
      ensures View().children[c].version == old(View()).children[c].version + 1
      ensures forall d :: 0 <= d < |children| && d != c ==> View().children[d] == old(View()).children[d]
    {
      ghost var before := Views(children);
      children[c].version := children[c].version + 1;
      ref := children[c].ref;
      assert Views(children) == before[c := children[c].View()];
    }

    /** The gate of `StopAll`: it passes exactly when the machine lets a call in, the flag is then set
        for good, and from then on no call of `StopAll`, `StartAll` or `Add` gets through and no
        termination is restarted, in any continuation. */
    method StopAllGate(ghost s: M.State) returns (ok: bool, n: nat)
      requires Valid() && View() == s.core
      modifies this`stopped
      ensures Valid() && stopped
      ensures ok <==> M.Enabled(s, M.CallStopAll)
      ensures !ok ==> View() == s.core
      ensures ok ==> var t := M.Apply(s, M.CallStopAll);
        t.core == View() && t.threads == s.threads + [M.StopAllAt(n)] && Q.ShutForGood(t)
    {
      if !stopped { Q.StopShutsForGood(s); }
      ok, n := !stopped, |children|;
      stopped := true;
    }
  }
}
