/** The behaviour stack of `pkg/actor/behavior.go`: a Go slice that is appended to, overwritten
    and resliced in place. A handler is named by a number. */
module Behavior {

  datatype Op = Become(h: nat) | BecomeReplace(h: nat) | Unbecome

  function Step(stack: seq<nat>, op: Op): seq<nat>
    requires stack != []
  {
    match op
    case Become(h) => stack + [h]
    case BecomeReplace(h) => stack[|stack| - 1 := h]
    case Unbecome => if |stack| <= 1 then stack else stack[..|stack| - 1]
  }

  /** The stack is never empty, whatever is done to it. */
  function Run(stack: seq<nat>, ops: seq<Op>): (r: seq<nat>)
    requires stack != []
    ensures r != []
    decreases |ops|
  {
    if ops == [] then stack else Run(Step(stack, ops[0]), ops[1..])
  }

  /** `ops` neither pops nor replaces below `depth` own handlers, and ends with `end` of them. */
  predicate Nested(ops: seq<Op>, depth: nat, end: nat)
    decreases |ops|
  {
    if ops == [] then depth == end
    else match ops[0]
      case Become(_) => Nested(ops[1..], depth + 1, end)
      case BecomeReplace(_) => depth > 0 && Nested(ops[1..], depth, end)
      case Unbecome => depth > 0 && Nested(ops[1..], depth - 1, end)
  }

  /** A nested sequence works on its own handlers only: what lies below them stays as it was. */
  lemma {:induction false} NestedKeepsBelow(below: seq<nat>, own: seq<nat>, ops: seq<Op>, end: nat)
    requires below != [] && Nested(ops, |own|, end)
    ensures var r := Run(below + own, ops); |r| == |below| + end && r[..|below|] == below
    decreases |ops|
  {
    if ops == [] {
      assert (below + own)[..|below|] == below;
    } else {
      var next := match ops[0]
        case Become(h) => own + [h]
        case BecomeReplace(h) => own[|own| - 1 := h]
        case Unbecome => own[..|own| - 1];
      assert Step(below + own, ops[0]) == below + next;
      NestedKeepsBelow(below, next, ops[1..], end);
    }
  }

  /** A block that begins with `Become` and ends with its matching `Unbecome`, with anything nested
      in between and replaces only inside, restores the whole stack. */
  lemma BlockRestoresStack(stack: seq<nat>, h: nat, inside: seq<Op>)
    requires stack != [] && Nested(inside, 1, 1)
    ensures Run(stack, [Become(h)] + inside + [Unbecome]) == stack
  {
    var block := [Become(h)] + inside + [Unbecome];
    assert block[1..] == inside + [Unbecome];
    RunAppend(stack + [h], inside, [Unbecome]);
    NestedKeepsBelow(stack, [h], inside, 1);
    var mid := Run(stack + [h], inside);
    assert Run(mid, [Unbecome]) == Run(Step(mid, Unbecome), [Unbecome][1..]) == stack;
  }

  /** The current handler. After a `Become` or a `BecomeReplace`, and anything nested after it, the
      handler that was given is the current one, and below it lies what lay there before, without
      the handler that was replaced. */
  lemma CurrentIsLastGiven(stack: seq<nat>, h: nat, inside: seq<Op>)
    requires stack != [] && Nested(inside, 0, 0)
    ensures Run(stack, [Become(h)] + inside) == stack + [h]
    ensures Run(stack, [BecomeReplace(h)] + inside) == stack[..|stack| - 1] + [h]
  {
    var n := |stack| - 1;
    assert ([Become(h)] + inside)[1..] == inside && ([BecomeReplace(h)] + inside)[1..] == inside;
    assert stack[n := h] == stack[..n] + [h];
    NestedRestores(stack + [h], inside);
    NestedRestores(stack[..n] + [h], inside);
  }

  /** A nested sequence that ends with none of its own handlers leaves the stack as it was. */
  lemma NestedRestores(stack: seq<nat>, ops: seq<Op>)
    requires stack != [] && Nested(ops, 0, 0)
    ensures Run(stack, ops) == stack
  {
    assert stack + [] == stack;
    NestedKeepsBelow(stack, [], ops, 0);
    var r := Run(stack, ops);
    assert r == r[..|stack|];
  }

  /** Any number of `Unbecome`s uncover the handlers in turn, down to the initial one, which stays. */
  lemma {:induction false} UnbecomesUncover(stack: seq<nat>, ops: seq<Op>)
    requires stack != [] && forall i :: 0 <= i < |ops| ==> ops[i] == Unbecome
    ensures Run(stack, ops) == stack[..if |ops| < |stack| then |stack| - |ops| else 1]
    decreases |ops|
  {
    if ops != [] {
      var below := if |stack| <= 1 then stack else stack[..|stack| - 1];
      UnbecomesUncover(below, ops[1..]);
    }
  }

  lemma {:induction false} RunAppend(stack: seq<nat>, a: seq<Op>, b: seq<Op>)
    requires stack != []
    ensures Run(stack, a + b) == Run(Run(stack, a), b)
    decreases |a|
  {
    if a == [] {
      assert a + b == b;
    } else {
      assert (a + b)[0] == a[0] && (a + b)[1..] == a[1..] + b;
      RunAppend(Step(stack, a[0]), a[1..], b);
    }
  }

  class BehaviorStack {
    var slots: array<nat>  // the slice's backing array
    var len: nat           // the slice's length

    ghost predicate Valid() reads this { 0 < len <= slots.Length }

    ghost function Stack(): (s: seq<nat>)
      reads this, slots
      requires Valid()
      ensures s != []
    {
      slots[..len]
    }

    constructor (initial: nat)
      ensures Valid() && Stack() == [initial] && fresh(slots)
    {
      slots := new nat[1](_ => initial);
      len := 1;
    }

    method Current() returns (h: nat)
      requires Valid()
      ensures h == Stack()[|Stack()| - 1]
    {
      h := slots[len - 1];
    }

    /** `append`: in place while there is room, which overwrites what an earlier pop left there. */
    method DoBecome(h: nat)
      requires Valid()
      modifies this, slots
      ensures Valid() && (slots == old(slots) || fresh(slots))
      ensures Stack() == Step(old(Stack()), Become(h))
      ensures Stack() == old(Stack()) + [h]
    {
      if len == slots.Length {
        var bigger := new nat[2 * len](i requires 0 <= i < 2 * slots.Length reads this, slots =>
          if i < slots.Length then slots[i] else 0);
        slots := bigger;
      }
      slots[len] := h;
      len := len + 1;
    }

    method DoBecomeReplace(h: nat)
      requires Valid()
      modifies slots
      ensures Valid() && Stack() == Step(old(Stack()), BecomeReplace(h))
      ensures Stack() == old(Stack())[..|old(Stack())| - 1] + [h]
    {
      slots[len - 1] := h;
    }

    method DoUnbecome() returns (ok: bool)
      requires Valid()
      modifies this`len
      ensures Valid() && Stack() == Step(old(Stack()), Unbecome)
      ensures ok <==> |old(Stack())| > 1
      ensures Stack() == if ok then old(Stack())[..|old(Stack())| - 1] else old(Stack())
    {
      if len <= 1 { return false; }
      len := len - 1;
      ok := true;
    }
  }
}
