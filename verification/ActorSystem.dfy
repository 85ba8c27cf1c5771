/** `ActorSystem` in its own form (`pkg/system/system.go`): the map, the order slice changed in
    place, and the loops of `Unregister` and `StopAll`. */
module ActorSystems {
  import opened Basics
  import opened ActorRegistry

  /** What `StopAll` does outside the lock, in order. */
  datatype Act = EventSystemStopping | StopCalled(managed: nat) | EventActorStopped(name: string)

  /** The events and stops for a stop list: one announcement, then a stop and an event per entry. */
  function Trace(entries: seq<(string, nat)>): seq<Act> {
    if entries == [] then [EventSystemStopping]
    else
      var last := entries[|entries| - 1];
      Trace(entries[..|entries| - 1]) + [StopCalled(last.1), EventActorStopped(last.0)]
  }

  /** The actors whose stop failed, in order. */
  function Failures(entries: seq<(string, nat)>, fails: nat -> bool): seq<nat> {
    if entries == [] then []
    else
      var last := entries[|entries| - 1];
      Failures(entries[..|entries| - 1], fails) + (if fails(last.1) then [last.1] else [])
  }

  /** `errs` are the failed stops of the list, all of them and in order. */
  ghost predicate AllFailures(entries: seq<(string, nat)>, fails: nat -> bool, errs: seq<nat>) {
    exists places: seq<nat> :: Places(entries, fails, errs, places)
  }

  /** `places` are, in order, exactly the places of the list whose stop failed, and `errs` what stood there. */
  ghost predicate Places(entries: seq<(string, nat)>, fails: nat -> bool, errs: seq<nat>, places: seq<nat>) {
    && |places| == |errs|
    && (forall i, j :: 0 <= i < j < |places| ==> places[i] < places[j])
    && (forall j :: 0 <= j < |places| ==> places[j] < |entries| && errs[j] == entries[places[j]].1)
    && (forall k :: 0 <= k < |entries| ==> (fails(entries[k].1) <==> k in places))
  }

  lemma {:induction false} FailuresAreAll(entries: seq<(string, nat)>, fails: nat -> bool)
    ensures AllFailures(entries, fails, Failures(entries, fails))
  {
    if entries == [] {
      assert Places(entries, fails, [], []);
    } else {
      var n := |entries| - 1;
      FailuresAreAll(entries[..n], fails);
      var places :| Places(entries[..n], fails, Failures(entries[..n], fails), places);
      OneMorePlace(entries, fails, Failures(entries[..n], fails), places);
    }
  }

  lemma OneMorePlace(entries: seq<(string, nat)>, fails: nat -> bool, errs: seq<nat>, places: seq<nat>)
    requires entries != [] && Places(entries[..|entries| - 1], fails, errs, places)
    ensures var n := |entries| - 1;
      AllFailures(entries, fails, errs + (if fails(entries[n].1) then [entries[n].1] else []))
  {
    var n := |entries| - 1;
    assert forall k :: 0 <= k < n ==> entries[..n][k] == entries[k];
    if fails(entries[n].1) {
      var more := places + [n];
      assert forall k :: k in more <==> k in places || k == n;
      assert Places(entries, fails, errs + [entries[n].1], more);
    } else {
      assert errs + [] == errs;
      assert Places(entries, fails, errs, places);
    }
  }

  class ActorSystem {
    var actors: map<string, nat>
    var order: seq<string>
    var stopped: bool
    ghost var acts: seq<Act>

    ghost function View(): Reg reads this { Reg(actors, order, stopped) }

    ghost predicate Ok() reads this { Valid(View()) }

    constructor ()
      ensures Ok() && View() == Init() && acts == []
    {
      actors, order, stopped, acts := map[], [], false, [];
    }

    method RegisterActor(name: string, managed: Option<nat>) returns (err: Option<Error>)
      requires Ok()
      modifies this`actors, this`order
      ensures Ok() && (View(), AnswerOf(err)) == Step(old(View()), Register(name, managed))
      ensures err == (if old(stopped) then Some(ErrSystemStopped)
                      else if name == "" then Some(ErrActorNameEmpty)
                      else if managed.None? then Some(ErrActorNilRef)
                      else if Listed(old(Abs(View()).entries), name) then Some(ErrActorNameDuplicate)
                      else None)
      ensures err.Some? ==> View() == old(View())
      ensures err.None? ==>
        && stopped == old(stopped)
        && Abs(View()).entries == old(Abs(View()).entries) + [(name, managed.value)]
    {
      RegisterRefines(View(), name, managed);
      LookupListed(Abs(View()).entries, name);
      if stopped { return Some(ErrSystemStopped); }
      if name == "" { return Some(ErrActorNameEmpty); }
      if managed.None? { return Some(ErrActorNilRef); }
      if name in actors { return Some(ErrActorNameDuplicate); }
      actors := actors[name := managed.value];
      order := order + [name];
      err := None;
    }

    /** The lookup shared by `Get` and `send`; `send` then dispatches without the lock. */
    method Find(name: string) returns (answer: Answer)
      requires Ok()
      ensures (View(), answer) == Step(View(), Get(name))
      ensures match answer
        case Failed(ErrSystemStopped) => stopped
        case Failed(ErrActorNotFound) => !stopped && !Listed(Abs(View()).entries, name)
        case Found(managed) => !stopped && (name, managed) in Abs(View()).entries
        case _ => false
    {
      LookupListed(Abs(View()).entries, name);
      GetRefines(View(), name);
      if stopped { return Failed(ErrSystemStopped); }
      if name !in actors { return Failed(ErrActorNotFound); }
      answer := Found(actors[name]);
    }

    method UnregisterActor(name: string) returns (err: Option<Error>)
      requires Ok()
      modifies this`actors, this`order
      ensures Ok() && (View(), AnswerOf(err)) == Step(old(View()), Unregister(name))
      ensures err == (if old(stopped) then Some(ErrSystemStopped)
                      else if !Listed(old(Abs(View()).entries), name) then Some(ErrActorNotFound)
                      else None)
      ensures err.Some? ==> View() == old(View())
      ensures err.None? ==>
        && stopped == old(stopped)
        && Removed(old(Abs(View()).entries), name, Abs(View()).entries)
    {
      UnregisterRefines(View(), name);
      LookupListed(Abs(View()).entries, name);
      ValidListsOneEach(View());
      if Listed(Abs(View()).entries, name) { WithoutRemoves(Abs(View()).entries, name); }
      if stopped { return Some(ErrSystemStopped); }
      if name !in actors { return Some(ErrActorNotFound); }
      actors := actors - {name};
      Unlink(name);
      err := None;
    }

    /** The loop that empties the first slot holding `name`. */
    method Unlink(name: string)
      modifies this`order
      ensures order == Tombstone(old(order), name)
    {
      ghost var slots := order;
      var i := 0;
      while i < |order|
        invariant 0 <= i <= |order| && order == slots
        invariant Tombstone(slots, name) == slots[..i] + Tombstone(slots[i..], name)
      {
        if order[i] == name {
          TombstoneHere(slots, i, name);
          order := order[i := ""];
          return;
        }
        TombstonePast(slots, i, name);
        i := i + 1;
      }
    }

    method Count() returns (n: nat)
      requires Ok()
      ensures n == |Abs(View()).entries|
    {
      n := |actors|;
      CountIsListing(View());
    }

    /** The critical section of `StopAll`: set the flag, take the stop list, clear the registry. */
    method BeginStop() returns (answer: Answer)
      requires Ok()
      modifies this`actors, this`order, this`stopped
      ensures Ok() && (View(), answer) == Step(old(View()), StopAll)
      ensures !old(stopped) ==> answer == ToStop(Reverse(old(Abs(View())).entries))
    {
      if stopped { return Failed(ErrSystemStopped); }
      SnapshotIsReverse(order, actors);
      stopped := true;
      var entries := StopList();
      actors, order := map[], [];
      answer := ToStop(entries);
    }

    /** The snapshot loop, from the last slot to the first. */
    method StopList() returns (entries: seq<(string, nat)>)
      ensures entries == Snapshot(order, actors)
    {
      entries := [];
      var i := |order|;
      assert order[..i] == order;
      while i > 0
        invariant 0 <= i <= |order|
        invariant entries + Snapshot(order[..i], actors) == Snapshot(order, actors)
      {
        var name := order[i - 1];
        assert order[..i][..i - 1] == order[..i - 1];
        if name != "" && name in actors { entries := entries + [(name, actors[name])]; }
        i := i - 1;
      }
    }

    /** `StopAll`: every entry registered at the critical section is stopped once, last first,
        whatever errors occur, and all errors are reported. */
    method StopEverything(fails: nat -> bool) returns (err: Option<Error>, errs: seq<nat>)
      requires Ok()
      modifies this
      ensures Ok() && View() == Step(old(View()), StopAll).0
      ensures stopped && (!old(stopped) ==> actors == map[] && order == [])
      ensures err == if old(stopped) then Some(ErrSystemStopped) else None
      ensures old(stopped) ==> acts == old(acts) && errs == []
      ensures !old(stopped) ==>
        var entries := Reverse(old(Abs(View())).entries);
        && acts == old(acts) + Trace(entries) && errs == Failures(entries, fails)
        && AllFailures(entries, fails, errs)
    {
      var answer := BeginStop();
      match answer {
        case ToStop(entries) =>
          errs := StopEntries(entries, fails);
          err := None;
        case _ =>
          errs := [];
          err := Some(ErrSystemStopped);
      }
    }

    /** The announcement and the stop loop, made without the lock. */
    method StopEntries(entries: seq<(string, nat)>, fails: nat -> bool) returns (errs: seq<nat>)
      modifies this`acts
      ensures acts == old(acts) + Trace(entries) && errs == Failures(entries, fails)
      ensures AllFailures(entries, fails, errs)
    {
      hide AllFailures;
      errs := [];
      acts := acts + [EventSystemStopping];
      for k := 0 to |entries|
        invariant acts == old(acts) + Trace(entries[..k]) && errs == Failures(entries[..k], fails)
      {
        assert entries[..k + 1][..k] == entries[..k];
        if fails(entries[k].1) { errs := errs + [entries[k].1]; }
        acts := acts + [StopCalled(entries[k].1)];
        acts := acts + [EventActorStopped(entries[k].0)];
      }
      assert entries[..|entries|] == entries;
      FailuresAreAll(entries, fails);
    }
  }

  lemma TombstoneHere(slots: seq<string>, i: nat, name: string)
    requires i < |slots| && slots[i] == name
    ensures slots[..i] + Tombstone(slots[i..], name) == slots[i := ""]
  {
    assert slots[i..][1..] == slots[i + 1..];
  }

  lemma TombstonePast(slots: seq<string>, i: nat, name: string)
    requires i < |slots| && slots[i] != name
    ensures slots[..i] + Tombstone(slots[i..], name) == slots[..i + 1] + Tombstone(slots[i + 1..], name)
  {
    assert slots[i..][1..] == slots[i + 1..];
    assert slots[..i + 1] == slots[..i] + [slots[i]];
  }

  function AnswerOf(err: Option<Error>): Answer {
    match err
    case None => Done
    case Some(e) => Failed(e)
  }

  /** The map's size is the listing's length. */
  lemma CountIsListing(r: Reg)
    requires Valid(r)
    ensures |r.actors| == |Entries(r.order, r.actors)|
  {
    CountSlots(r.order, r.actors);
    assert (set n | n in r.order && n != "" && n in r.actors) == r.actors.Keys;
  }

  lemma {:induction false} CountSlots(order: seq<string>, actors: map<string, nat>)
    requires forall i, j :: 0 <= i < j < |order| && order[i] == order[j] ==> order[i] == ""
    ensures |Entries(order, actors)| == |set n | n in order && n != "" && n in actors|
  {
    if order != [] {
      var rest := order[1..];
      assert forall i :: 0 <= i < |rest| ==> rest[i] == order[i + 1];
      CountSlots(rest, actors);
      var a := set n | n in order && n != "" && n in actors;
      var b := set n | n in rest && n != "" && n in actors;
      if order[0] != "" && order[0] in actors {
        assert order[0] !in rest;
        assert a == b + {order[0]};
      } else {
        assert a == b;
      }
    }
  }
}
