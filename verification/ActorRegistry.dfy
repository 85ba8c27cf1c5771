/** The registry of `pkg/system/system.go`: a map and a registration order in which removed names
    leave an empty slot, against the plain ordered list that it stands for. */
module ActorRegistry {
  import opened Basics

  datatype Error = ErrSystemStopped | ErrActorNameEmpty | ErrActorNilRef | ErrActorNameDuplicate | ErrActorNotFound

  /** The fields under the lock. An actor is a number; its dispatch closure goes with it. */
  datatype Reg = Reg(actors: map<string, nat>, order: seq<string>, stopped: bool)

  datatype Op =
    | Register(name: string, managed: Option<nat>) // no actor: a nil interface
    | Unregister(name: string)
    | Get(name: string)                            // also the lookup of send
    | StopAll

  datatype Answer = Failed(err: Error) | Done | Found(managed: nat) | ToStop(entries: seq<(string, nat)>)

  /** The unlink loop of `Unregister`: the first slot holding `name` becomes empty. */
  function Tombstone(order: seq<string>, name: string): seq<string> {
    if order == [] then []
    else if order[0] == name then [""] + order[1..]
    else [order[0]] + Tombstone(order[1..], name)
  }

  /** The snapshot loop of `StopAll`: registered names from the last slot to the first. */
  function Snapshot(order: seq<string>, actors: map<string, nat>): seq<(string, nat)> {
    if order == [] then []
    else
      var name := order[|order| - 1];
      (if name != "" && name in actors then [(name, actors[name])] else [])
      + Snapshot(order[..|order| - 1], actors)
  }

  function Step(r: Reg, op: Op): (Reg, Answer) {
    if r.stopped then (r, Failed(ErrSystemStopped))
    else match op
      case Register(name, managed) =>
        if name == "" then (r, Failed(ErrActorNameEmpty))
        else if managed.None? then (r, Failed(ErrActorNilRef))
        else if name in r.actors then (r, Failed(ErrActorNameDuplicate))
        else (r.(actors := r.actors[name := managed.value], order := r.order + [name]), Done)
      case Unregister(name) =>
        if name !in r.actors then (r, Failed(ErrActorNotFound))
        else (r.(actors := r.actors - {name}, order := Tombstone(r.order, name)), Done)
      case Get(name) =>
        if name !in r.actors then (r, Failed(ErrActorNotFound)) else (r, Found(r.actors[name]))
      case StopAll => (Reg(map[], [], true), ToStop(Snapshot(r.order, r.actors)))
  }

  // ---------------------------------------------------------------- the list it stands for

  /** Registered actors in registration order, and whether the system is stopped. */
  datatype Listing = Listing(entries: seq<(string, nat)>, stopped: bool)

  /** The actor listed under `name`, if any. */
  function Lookup(entries: seq<(string, nat)>, name: string): Option<nat> {
    if entries == [] then None
    else if entries[0].0 == name then Some(entries[0].1)
    else Lookup(entries[1..], name)
  }

  function Without(entries: seq<(string, nat)>, name: string): seq<(string, nat)> {
    if entries == [] then []
    else (if entries[0].0 == name then [] else [entries[0]]) + Without(entries[1..], name)
  }

  function ListStep(l: Listing, op: Op): (Listing, Answer) {
    if l.stopped then (l, Failed(ErrSystemStopped))
    else match op
      case Register(name, managed) =>
        if name == "" then (l, Failed(ErrActorNameEmpty))
        else if managed.None? then (l, Failed(ErrActorNilRef))
        else if Lookup(l.entries, name).Some? then (l, Failed(ErrActorNameDuplicate))
        else (l.(entries := l.entries + [(name, managed.value)]), Done)
      case Unregister(name) =>
        if Lookup(l.entries, name).None? then (l, Failed(ErrActorNotFound))
        else (l.(entries := Without(l.entries, name)), Done)
      case Get(name) =>
        if Lookup(l.entries, name).None? then (l, Failed(ErrActorNotFound))
        else (l, Found(Lookup(l.entries, name).value))
      case StopAll => (Listing([], true), ToStop(Reverse(l.entries)))
  }

  /** The entries of the non-empty slots. */
  function Entries(order: seq<string>, actors: map<string, nat>): seq<(string, nat)> {
    if order == [] then []
    else (if order[0] != "" && order[0] in actors then [(order[0], actors[order[0]])] else [])
         + Entries(order[1..], actors)
  }

  function Abs(r: Reg): Listing { Listing(Entries(r.order, r.actors), r.stopped) }

  /** The names in the slots are those of the map, each in one slot. */
  ghost predicate Valid(r: Reg) {
    && "" !in r.actors
    && (forall i :: 0 <= i < |r.order| && r.order[i] != "" ==> r.order[i] in r.actors)
    && (forall i, j :: 0 <= i < j < |r.order| && r.order[i] == r.order[j] ==> r.order[i] == "")
    && (forall n :: n in r.actors ==> n in r.order)
  }

  function Init(): Reg { Reg(map[], [], false) }

  // ---------------------------------------------------------------- lemmas about the loops

  lemma {:induction false} EntriesAppend(order: seq<string>, name: string, actors: map<string, nat>)
    ensures Entries(order + [name], actors)
         == Entries(order, actors) + (if name != "" && name in actors then [(name, actors[name])] else [])
  {
    if order == [] {
      assert order + [name] == [name];
    } else {
      assert (order + [name])[0] == order[0] && (order + [name])[1..] == order[1..] + [name];
      EntriesAppend(order[1..], name, actors);
    }
  }

  /** A name that is in no slot does not matter to the listing. */
  lemma {:induction false} EntriesFrame(order: seq<string>, a: map<string, nat>, b: map<string, nat>)
    requires forall i :: 0 <= i < |order| && order[i] != "" ==>
      order[i] in a && order[i] in b && a[order[i]] == b[order[i]]
    ensures Entries(order, a) == Entries(order, b)
  {
    if order != [] {
      assert forall i :: 0 <= i < |order[1..]| ==> order[1..][i] == order[i + 1];
      EntriesFrame(order[1..], a, b);
    }
  }

  lemma {:induction false} LookupSlot(order: seq<string>, actors: map<string, nat>, name: string)
    ensures Lookup(Entries(order, actors), name)
         == if name != "" && name in order && name in actors then Some(actors[name]) else None
  {
    if order != [] {
      LookupSlot(order[1..], actors, name);
      assert name in order <==> name == order[0] || name in order[1..];
      if order[0] != "" && order[0] in actors { assert Entries(order, actors)[1..] == Entries(order[1..], actors); }
      else { assert Entries(order, actors) == Entries(order[1..], actors); }
    }
  }

  lemma {:induction false} TombstoneSlots(order: seq<string>, name: string)
    requires name in order
    ensures |Tombstone(order, name)| == |order|
    ensures exists i :: 0 <= i < |order| && order[i] == name && Tombstone(order, name) == order[i := ""]
  {
    if order[0] == name {
      assert Tombstone(order, name) == order[0 := ""];
    } else {
      assert name in order[1..];
      TombstoneSlots(order[1..], name);
      var i :| 0 <= i < |order[1..]| && order[1..][i] == name && Tombstone(order[1..], name) == order[1..][i := ""];
      assert order[i + 1] == name && Tombstone(order, name) == order[i + 1 := ""];
    }
  }

  lemma {:induction false} WithoutAbsent(order: seq<string>, actors: map<string, nat>, name: string)
    requires name != "" && name !in order
    ensures Without(Entries(order, actors), name) == Entries(order, actors)
    ensures Entries(order, actors - {name}) == Entries(order, actors)
  {
    if order != [] {
      assert name != order[0] && name !in order[1..];
      WithoutAbsent(order[1..], actors, name);
      if order[0] != "" && order[0] in actors {
        assert Entries(order, actors)[1..] == Entries(order[1..], actors);
      } else {
        assert Entries(order, actors) == Entries(order[1..], actors);
      }
    }
  }

  /** Emptying a name's slot and dropping it from the map removes its entry from the listing. */
  lemma {:induction false} TombstoneRemoves(order: seq<string>, actors: map<string, nat>, name: string)
    requires name != "" && name in order
    requires forall i, j :: 0 <= i < j < |order| && order[i] == order[j] ==> order[i] == ""
    ensures Entries(Tombstone(order, name), actors - {name}) == Without(Entries(order, actors), name)
  {
    var rest := order[1..];
    assert forall i :: 0 <= i < |rest| ==> rest[i] == order[i + 1];
    if order[0] == name {
      assert name !in rest;
      WithoutAbsent(rest, actors, name);
      assert Tombstone(order, name)[1..] == rest;
      if name in actors { assert Entries(order, actors)[1..] == Entries(rest, actors); }
      else { assert Entries(order, actors) == Entries(rest, actors); }
    } else {
      assert name in rest;
      TombstoneRemoves(rest, actors, name);
      assert Tombstone(order, name)[1..] == Tombstone(rest, name);
      if order[0] != "" && order[0] in actors { assert Entries(order, actors)[1..] == Entries(rest, actors); }
      else { assert Entries(order, actors) == Entries(rest, actors); }
    }
  }

  lemma {:induction false} ReverseAppend(s: seq<(string, nat)>, t: seq<(string, nat)>)
    ensures Reverse(s + t) == Reverse(t) + Reverse(s)
  {
    var l, r := Reverse(s + t), Reverse(t) + Reverse(s);
    forall i | 0 <= i < |l| ensures l[i] == r[i] {
      if i < |t| { assert l[i] == (s + t)[|s + t| - 1 - i] == t[|t| - 1 - i]; }
    }
  }

  /** The stop list is the listing read backwards. */
  lemma {:induction false} SnapshotIsReverse(order: seq<string>, actors: map<string, nat>)
    ensures Snapshot(order, actors) == Reverse(Entries(order, actors))
  {
    if order != [] {
      var n := |order| - 1;
      SnapshotIsReverse(order[..n], actors);
      assert order[..n] + [order[n]] == order;
      EntriesAppend(order[..n], order[n], actors);
      var last := if order[n] != "" && order[n] in actors then [(order[n], actors[order[n]])] else [];
      ReverseAppend(Entries(order[..n], actors), last);
      assert Reverse(last) == last;
    }
  }

  // ---------------------------------------------------------------- refinement

  lemma RegisterRefines(r: Reg, name: string, managed: Option<nat>)
    requires Valid(r)
    ensures var (r', a) := Step(r, Register(name, managed));
      Valid(r') && ListStep(Abs(r), Register(name, managed)) == (Abs(r'), a)
  {
    if !r.stopped && name != "" && managed.Some? {
      LookupSlot(r.order, r.actors, name);
      if name !in r.actors {
        var actors := r.actors[name := managed.value];
        EntriesAppend(r.order, name, actors);
        EntriesFrame(r.order, r.actors, actors);
        assert forall n :: n in r.order ==> n in r.order + [name];
      }
    }
  }

  lemma UnregisterRefines(r: Reg, name: string)
    requires Valid(r)
    ensures var (r', a) := Step(r, Unregister(name));
      Valid(r') && ListStep(Abs(r), Unregister(name)) == (Abs(r'), a)
  {
    if !r.stopped {
      LookupSlot(r.order, r.actors, name);
      if name in r.actors {
        TombstoneRemoves(r.order, r.actors, name);
        TombstoneValid(r, name);
      }
    }
  }

  lemma TombstoneValid(r: Reg, name: string)
    requires Valid(r) && name in r.actors
    ensures Valid(Reg(r.actors - {name}, Tombstone(r.order, name), r.stopped))
  {
    TombstoneSlots(r.order, name);
    var i :| 0 <= i < |r.order| && r.order[i] == name && Tombstone(r.order, name) == r.order[i := ""];
    forall n | n in r.actors - {name} ensures n in r.order[i := ""] {
      var k :| 0 <= k < |r.order| && r.order[k] == n;
      assert r.order[i := ""][k] == n;
    }
  }

  lemma GetRefines(r: Reg, name: string)
    requires Valid(r)
    ensures ListStep(Abs(r), Get(name)) == (Abs(r), Step(r, Get(name)).1)
  {
    LookupSlot(r.order, r.actors, name);
  }

  lemma StepRefines(r: Reg, op: Op)
    requires Valid(r)
    ensures var (r', a) := Step(r, op);
      Valid(r') && ListStep(Abs(r), op) == (Abs(r'), a)
  {
    match op
    case Register(name, managed) => RegisterRefines(r, name, managed);
    case Unregister(name) => UnregisterRefines(r, name);
    case Get(name) => GetRefines(r, name);
    case StopAll => if !r.stopped { SnapshotIsReverse(r.order, r.actors); }
  }

  // ---------------------------------------------------------------- what the list says

  /** Some actor is registered under `name`. */
  predicate Listed(entries: seq<(string, nat)>, name: string) {
    exists i :: 0 <= i < |entries| && entries[i].0 == name
  }

  /** `after` is `before` without one entry, that of `name`. */
  ghost predicate Removed(before: seq<(string, nat)>, name: string, after: seq<(string, nat)>) {
    exists i :: 0 <= i < |before| && before[i].0 == name && after == before[..i] + before[i + 1..]
  }

  predicate OneEach(entries: seq<(string, nat)>) {
    forall i, j :: 0 <= i < j < |entries| ==> entries[i].0 != entries[j].0
  }

  lemma {:induction false} LookupListed(entries: seq<(string, nat)>, name: string)
    ensures Lookup(entries, name).Some? <==> Listed(entries, name)
    ensures Lookup(entries, name).Some? ==> (name, Lookup(entries, name).value) in entries
  {
    if entries != [] {
      LookupListed(entries[1..], name);
      assert forall i :: 0 < i < |entries| ==> entries[i] == entries[1..][i - 1];
      if entries[0].0 == name { assert entries[0] == (name, entries[0].1); }
    }
  }

  lemma {:induction false} WithoutUnlisted(entries: seq<(string, nat)>, name: string)
    requires !Listed(entries, name)
    ensures Without(entries, name) == entries
  {
    if entries != [] {
      assert entries[0].0 != name;
      assert forall i :: 0 < i < |entries| ==> entries[i] == entries[1..][i - 1];
      WithoutUnlisted(entries[1..], name);
    }
  }

  /** In a list with one entry for each name, `Without` takes out exactly that of `name`. */
  lemma {:induction false} WithoutRemoves(entries: seq<(string, nat)>, name: string)
    requires OneEach(entries) && Listed(entries, name)
    ensures Removed(entries, name, Without(entries, name))
  {
    var rest := entries[1..];
    assert forall i :: 0 < i < |entries| ==> entries[i] == rest[i - 1];
    if entries[0].0 == name {
      assert !Listed(rest, name);
      WithoutUnlisted(rest, name);
      assert Without(entries, name) == entries[..0] + entries[0 + 1..];
    } else {
      WithoutRemoves(rest, name);
      var i :| 0 <= i < |rest| && rest[i].0 == name && Without(rest, name) == rest[..i] + rest[i + 1..];
      assert entries[i + 1].0 == name && Without(entries, name) == entries[..i + 1] + entries[i + 1 + 1..];
    }
  }

  /** Valid slots list one entry for each name. */
  lemma {:induction false} EntriesOneEach(order: seq<string>, actors: map<string, nat>)
    requires forall i, j :: 0 <= i < j < |order| && order[i] == order[j] ==> order[i] == ""
    ensures OneEach(Entries(order, actors))
    ensures forall i :: 0 <= i < |Entries(order, actors)| ==>
      Entries(order, actors)[i].0 in order && Entries(order, actors)[i].0 != ""
  {
    if order != [] {
      var rest := order[1..];
      assert forall i :: 0 <= i < |rest| ==> rest[i] == order[i + 1];
      EntriesOneEach(rest, actors);
      var tail := Entries(rest, actors);
      if order[0] != "" && order[0] in actors {
        assert order[0] !in rest;
        assert Entries(order, actors) == [(order[0], actors[order[0]])] + tail;
      } else {
        assert Entries(order, actors) == tail;
      }
    }
  }

  lemma ValidListsOneEach(r: Reg)
    requires Valid(r)
    ensures OneEach(Abs(r).entries)
  {
    EntriesOneEach(r.order, r.actors);
  }

  function Run(r: Reg, ops: seq<Op>): (Reg, seq<Answer>)
    decreases |ops|
  {
    if ops == [] then (r, [])
    else
      var (r', a) := Step(r, ops[0]);
      var (last, as') := Run(r', ops[1..]);
      (last, [a] + as')
  }

  function ListRun(l: Listing, ops: seq<Op>): (Listing, seq<Answer>)
    decreases |ops|
  {
    if ops == [] then (l, [])
    else
      var (l', a) := ListStep(l, ops[0]);
      var (last, as') := ListRun(l', ops[1..]);
      (last, [a] + as')
  }

  /** Registry refinement: over any sequence of operations, with any re-registration, the map and the
      order with its empty slots give the answers of the plain list; in particular `StopAll`'s
      snapshot is exactly that list backwards. The names in the slots stay duplicate-free and
      exactly the map's keys. */
  lemma {:induction false} RegistryRefinesList(r: Reg, ops: seq<Op>)
    requires Valid(r)
    ensures var (last, answers) := Run(r, ops);
      Valid(last) && ListRun(Abs(r), ops) == (Abs(last), answers)
    decreases |ops|
  {
    if ops != [] {
      StepRefines(r, ops[0]);
      RegistryRefinesList(Step(r, ops[0]).0, ops[1..]);
    }
  }
}
