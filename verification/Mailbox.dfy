/** The priority mailbox of `pkg/mailbox/priority.go`: a heap ordered by priority and then by
    insertion number, against one first-in-first-out queue per priority. The heap of go-datalib
    is a bag that gives out a least element. */
module Mailbox {
  import opened Basics

  /** An executable is named by a number; `order` is the insertion number, a uint64. */
  datatype Message = Message(executable: nat, priority: int, order: nat)

  const WORD: nat := 0x1_0000_0000_0000_0000

  /** The comparator given to the heap. */
  predicate Less(a: Message, b: Message) {
    if a.priority != b.priority then a.priority < b.priority else a.order < b.order
  }

  predicate IsLeast(m: Message, heap: multiset<Message>) {
    m in heap && forall x <- heap :: !Less(x, m)
  }

  lemma LeastExists(heap: multiset<Message>)
    requires |heap| > 0
    ensures exists m :: IsLeast(m, heap)
  {
    var x :| x in heap;
    var rest := heap - multiset{x};
    assert heap == rest + multiset{x};
    if |rest| == 0 {
      assert IsLeast(x, heap);
    } else {
      LeastExists(rest);
      var y :| IsLeast(y, rest);
      assert IsLeast(if Less(x, y) then x else y, heap);
    }
  }

  // ---------------------------------------------------------------- the queues

  /** The messages of one priority, in order of arrival. */
  function Level(q: seq<Message>, p: int): seq<Message> {
    if q == [] then []
    else (if q[0].priority == p then [q[0]] else []) + Level(q[1..], p)
  }

  /** The earliest message of the most urgent priority present. */
  function Front(q: seq<Message>): (i: nat)
    requires q != []
    ensures i < |q|
    ensures forall j :: 0 <= j < |q| ==> q[i].priority <= q[j].priority
    ensures forall j :: 0 <= j < i ==> q[i].priority < q[j].priority
  {
    if |q| == 1 then 0
    else
      var k := Front(q[1..]);
      assert forall j :: 1 <= j < |q| ==> q[j] == q[1..][j - 1];
      if q[0].priority <= q[k + 1].priority then 0 else k + 1
  }

  function Remove(q: seq<Message>, i: nat): seq<Message>
    requires i < |q|
  {
    q[..i] + q[i + 1..]
  }

  /** Within each priority, numbers grow in order of arrival. */
  predicate InOrder(q: seq<Message>) {
    forall i, j :: 0 <= i < j < |q| && q[i].priority == q[j].priority ==> q[i].order < q[j].order
  }

  lemma RemoveBag(q: seq<Message>, i: nat)
    requires i < |q|
    ensures multiset(q) == multiset(Remove(q, i)) + multiset{q[i]}
    ensures |Remove(q, i)| == |q| - 1
  {
    assert q == q[..i] + [q[i]] + q[i + 1..];
  }

  lemma RemoveInOrder(q: seq<Message>, i: nat)
    requires i < |q| && InOrder(q)
    ensures InOrder(Remove(q, i))
  {
    var r := Remove(q, i);
    assert forall k :: 0 <= k < |r| ==> r[k] == q[if k < i then k else k + 1];
  }

  /** The heap gives out exactly the front of the queues. */
  lemma LeastIsFront(q: seq<Message>, m: Message)
    requires q != [] && InOrder(q) && IsLeast(m, multiset(q))
    ensures m == q[Front(q)]
    ensures multiset(q) - multiset{m} == multiset(Remove(q, Front(q)))
    ensures InOrder(Remove(q, Front(q)))
  {
    FrontIsLess(q, m);
    RemoveBag(q, Front(q));
    RemoveInOrder(q, Front(q));
  }

  lemma FrontIsLess(q: seq<Message>, m: Message)
    requires q != [] && InOrder(q) && IsLeast(m, multiset(q))
    ensures m == q[Front(q)]
  {
    var i := Front(q);
    assert q[i] in multiset(q) && !Less(q[i], m);
    var j :| 0 <= j < |q| && q[j] == m;
  }

  lemma {:induction false} LevelAppend(q: seq<Message>, r: seq<Message>, p: int)
    ensures Level(q + r, p) == Level(q, p) + Level(r, p)
  {
    if q == [] {
      assert q + r == r;
    } else {
      assert (q + r)[0] == q[0] && (q + r)[1..] == q[1..] + r;
      LevelAppend(q[1..], r, p);
      var h := if q[0].priority == p then [q[0]] else [];
      assert Level(q, p) == h + Level(q[1..], p) && Level(q + r, p) == h + Level(q[1..] + r, p);
    }
  }

  lemma {:induction false} LevelEmpty(q: seq<Message>, p: int)
    requires forall i :: 0 <= i < |q| ==> q[i].priority != p
    ensures Level(q, p) == []
  {
    if q != [] { LevelEmpty(q[1..], p); }
  }

  /** Taking the front takes the head of its priority's queue, which is the most urgent non-empty
      one, and leaves every other queue alone. */
  lemma FrontServesLevels(q: seq<Message>, p: int)
    requires q != []
    ensures var i := Front(q);
      && (p < q[i].priority ==> Level(q, p) == [])
      && (p == q[i].priority ==> Level(q, p) == [q[i]] + Level(Remove(q, i), p))
      && (p != q[i].priority ==> Level(Remove(q, i), p) == Level(q, p))
  {
    var i := Front(q);
    if p < q[i].priority { LevelEmpty(q, p); }
    assert q == q[..i] + ([q[i]] + q[i + 1..]);
    LevelAppend(q[..i], [q[i]] + q[i + 1..], p);
    LevelAppend([q[i]], q[i + 1..], p);
    LevelAppend(q[..i], q[i + 1..], p);
    if p == q[i].priority { LevelEmpty(q[..i], p); }
  }

  /** Popping until the queues are empty. */
  function Drain(q: seq<Message>): seq<Message>
    decreases |q|
  {
    if q == [] then [] else [q[Front(q)]] + Drain(Remove(q, Front(q)))
  }

  predicate ByPriority(q: seq<Message>) {
    forall i, j :: 0 <= i < j < |q| ==> q[i].priority <= q[j].priority
  }

  /** Draining yields the stable sort: the same messages, by priority, and within each priority in
      order of arrival. */
  lemma {:induction false} DrainIsStableSort(q: seq<Message>)
    ensures multiset(Drain(q)) == multiset(q)
    ensures ByPriority(Drain(q))
    ensures forall p :: Level(Drain(q), p) == Level(q, p)
    decreases |q|
  {
    if q != [] {
      var i := Front(q);
      DrainIsStableSort(Remove(q, i));
      RemoveBag(q, i);
      DrainOrdered(q, Drain(Remove(q, i)));
      forall p ensures Level(Drain(q), p) == Level(q, p) { DrainLevel(q, p); }
    }
  }

  lemma DrainOrdered(q: seq<Message>, d: seq<Message>)
    requires q != [] && ByPriority(d) && multiset(d) == multiset(Remove(q, Front(q)))
    ensures ByPriority([q[Front(q)]] + d)
  {
    RemoveBag(q, Front(q));
    forall j | 0 <= j < |d| ensures q[Front(q)].priority <= d[j].priority {
      assert d[j] in multiset(d) && d[j] in multiset(q);
      var k :| 0 <= k < |q| && q[k] == d[j];
    }
  }

  lemma DrainLevel(q: seq<Message>, p: int)
    requires q != [] && Level(Drain(Remove(q, Front(q))), p) == Level(Remove(q, Front(q)), p)
    ensures Level(Drain(q), p) == Level(q, p)
  {
    var i := Front(q);
    FrontServesLevels(q, p);
    LevelAppend([q[i]], Drain(Remove(q, i)), p);
  }

  // ---------------------------------------------------------------- the uint64 counter

  predicate UpTo(q: seq<Message>, n: nat) { forall i :: 0 <= i < |q| ==> q[i].order <= n }

  /** A push keeps its priority's queue in order exactly when the counter does not wrap or the queue
      is empty; fewer than 2^64 pushes never wrap it. */
  lemma PushInOrderIff(q: seq<Message>, e: nat, p: int, counter: nat)
    requires InOrder(q) && UpTo(q, counter) && counter < WORD
    ensures InOrder(q + [Message(e, p, (counter + 1) % WORD)]) <==> counter + 1 < WORD || Level(q, p) == []
  {
    var m := Message(e, p, (counter + 1) % WORD);
    var all := q + [m];
    if counter + 1 < WORD {
      assert m.order == counter + 1;
    } else {
      assert m.order == 0;
      if Level(q, p) == [] {
        NoneAtLevel(q, p);
      } else {
        var i := SomeAtLevel(q, p);
        assert all[i] == q[i] && all[|q|] == m && !(q[i].order < m.order);
      }
    }
  }

  lemma {:induction false} NoneAtLevel(q: seq<Message>, p: int)
    requires Level(q, p) == []
    ensures forall i :: 0 <= i < |q| ==> q[i].priority != p
  {
    if q != [] {
      NoneAtLevel(q[1..], p);
      assert forall i :: 1 <= i < |q| ==> q[i] == q[1..][i - 1];
    }
  }

  lemma {:induction false} SomeAtLevel(q: seq<Message>, p: int) returns (i: nat)
    requires Level(q, p) != []
    ensures i < |q| && q[i].priority == p
  {
    if q[0].priority == p { i := 0; } else { i := SomeAtLevel(q[1..], p); i := i + 1; }
  }

  /** After a wrap the newest message is served before older ones of its priority: with a message
      of priority `p` and a positive number queued, the heap no longer gives out the front. */
  lemma WrapServesNewestFirst(older: Message, e: nat)
    requires older.order > 0
    ensures var m := Message(e, older.priority, (WORD - 1 + 1) % WORD);
      IsLeast(m, multiset([older, m])) && Front([older, m]) == 0 && m != [older, m][0]
  {
  }

  // ---------------------------------------------------------------- histories

  datatype Op = Push(e: nat, p: int) | Pop | Close

  datatype Answer = Accepted(ok: bool) | Popped(e: nat) | Empty | Closed

  /** The mailbox: `heap` is a bag; the insertion number of the last accepted push is `counter`. */
  datatype Box = Box(heap: multiset<Message>, counter: nat, closed: bool, maxSize: int)

  /** The queues it stands for, as the arrivals not yet popped. */
  datatype Queues = Queues(q: seq<Message>, pushes: nat, closed: bool, maxSize: int)

  predicate Room(size: nat, closed: bool, maxSize: int) { !closed && (maxSize <= 0 || size < maxSize) }

  /** One operation may take `b` to `b'` with answer `a`, whichever least element the heap picks. */
  ghost predicate BoxStep(b: Box, op: Op, b': Box, a: Answer) {
    match op
    case Push(e, p) =>
      if !Room(|b.heap|, b.closed, b.maxSize) then b' == b && a == Accepted(false)
      else
        var n := (b.counter + 1) % WORD;
        b' == b.(heap := b.heap + multiset{Message(e, p, n)}, counter := n) && a == Accepted(true)
    case Pop =>
      if |b.heap| == 0 then b' == b && a == Empty
      else exists m :: IsLeast(m, b.heap) && b' == b.(heap := b.heap - multiset{m}) && a == Popped(m.executable)
    case Close => b' == b.(closed := true) && a == Closed
  }

  function QueuesStep(s: Queues, op: Op): (Queues, Answer) {
    match op
    case Push(e, p) =>
      if !Room(|s.q|, s.closed, s.maxSize) then (s, Accepted(false))
      else (s.(q := s.q + [Message(e, p, s.pushes + 1)], pushes := s.pushes + 1), Accepted(true))
    case Pop =>
      if s.q == [] then (s, Empty)
      else (s.(q := Remove(s.q, Front(s.q))), Popped(s.q[Front(s.q)].executable))
    case Close => (s.(closed := true), Closed)
  }

  ghost predicate Stands(b: Box, s: Queues) {
    && b.heap == multiset(s.q) && InOrder(s.q) && UpTo(s.q, s.pushes)
    && b.counter == s.pushes < WORD && b.closed == s.closed && b.maxSize == s.maxSize
    && (s.maxSize > 0 ==> |s.q| <= s.maxSize)
  }

  lemma StepRefines(b: Box, s: Queues, op: Op, b': Box, a: Answer)
    requires Stands(b, s) && BoxStep(b, op, b', a) && (a == Accepted(true) ==> s.pushes + 1 < WORD)
    ensures QueuesStep(s, op).1 == a && Stands(b', QueuesStep(s, op).0)
  {
    assert |b.heap| == |s.q|;
    match op
    case Push(e, p) => PushRefines(b, s, e, p, b', a);
    case Pop => if s.q != [] { PopRefines(b, s, b', a); }
    case Close =>
  }

  lemma PushRefines(b: Box, s: Queues, e: nat, p: int, b': Box, a: Answer)
    requires Stands(b, s) && BoxStep(b, Push(e, p), b', a) && (a == Accepted(true) ==> s.pushes + 1 < WORD)
    ensures QueuesStep(s, Push(e, p)).1 == a && Stands(b', QueuesStep(s, Push(e, p)).0)
  {
    assert |b.heap| == |s.q|;
    if a == Accepted(true) {
      assert (b.counter + 1) % WORD == s.pushes + 1;
      PushInOrderIff(s.q, e, p, s.pushes);
    }
  }

  lemma PopRefines(b: Box, s: Queues, b': Box, a: Answer)
    requires Stands(b, s) && s.q != [] && |b.heap| > 0 && BoxStep(b, Pop, b', a)
    ensures QueuesStep(s, Pop).1 == a && Stands(b', QueuesStep(s, Pop).0)
  {
    var m :| IsLeast(m, b.heap) && b' == b.(heap := b.heap - multiset{m}) && a == Popped(m.executable);
    LeastIsFront(s.q, m);
    RemoveBag(s.q, Front(s.q));
    RemoveUpTo(s.q, Front(s.q), s.pushes);
  }

  lemma RemoveUpTo(q: seq<Message>, i: nat, n: nat)
    requires i < |q| && UpTo(q, n)
    ensures UpTo(Remove(q, i), n)
  {
    var r := Remove(q, i);
    assert forall k :: 0 <= k < |r| ==> r[k] == q[if k < i then k else k + 1];
  }

  /** `boxes` and `answers` are a history of the mailbox under `ops`. */
  ghost predicate History(boxes: seq<Box>, ops: seq<Op>, answers: seq<Answer>) {
    && |boxes| == |ops| + 1 && |answers| == |ops|
    && forall i :: 0 <= i < |ops| ==> BoxStep(boxes[i], ops[i], boxes[i + 1], answers[i])
  }

  function QueuesRun(s: Queues, ops: seq<Op>): (Queues, seq<Answer>)
    decreases |ops|
  {
    if ops == [] then (s, [])
    else
      var n := |ops| - 1;
      var (t, as') := QueuesRun(s, ops[..n]);
      var (u, a) := QueuesStep(t, ops[n]);
      (u, as' + [a])
  }

  function NewQueues(maxSize: int): Queues { Queues([], 0, false, maxSize) }

  /** How many pushes were accepted. */
  function AcceptedIn(answers: seq<Answer>): nat {
    if answers == [] then 0
    else AcceptedIn(answers[..|answers| - 1]) + (if answers[|answers| - 1] == Accepted(true) then 1 else 0)
  }

  lemma {:induction false} PushesCounted(s: Queues, ops: seq<Op>)
    ensures QueuesRun(s, ops).0.pushes == s.pushes + AcceptedIn(QueuesRun(s, ops).1)
    decreases |ops|
  {
    if ops != [] {
      var n := |ops| - 1;
      PushesCounted(s, ops[..n]);
      var (t, before) := QueuesRun(s, ops[..n]);
      var a := QueuesStep(t, ops[n]).1;
      assert (before + [a])[..|before|] == before;
    }
  }

  /** A history from a mailbox that stands for `s` does what the queues do. */
  lemma {:induction false} HistoryRefines(boxes: seq<Box>, ops: seq<Op>, answers: seq<Answer>, s: Queues)
    requires History(boxes, ops, answers) && Stands(boxes[0], s) && s.pushes + AcceptedIn(answers) < WORD
    ensures QueuesRun(s, ops).1 == answers
    ensures Stands(boxes[|ops|], QueuesRun(s, ops).0)
    decreases |ops|
  {
    hide Stands;
    if ops != [] {
      var n := |ops| - 1;
      HistoryRefines(boxes[..n + 1], ops[..n], answers[..n], s);
      PushesCounted(s, ops[..n]);
      assert BoxStep(boxes[n], ops[n], boxes[n + 1], answers[n]);
      StepRefines(boxes[n], QueuesRun(s, ops[..n]).0, ops[n], boxes[n + 1], answers[n]);
      assert answers == answers[..n] + [answers[n]];
    }
  }

  /** Over any history of a new mailbox with fewer than 2^64 accepted pushes, every answer is that of
      one first-in-first-out queue per priority served most urgent first; the heap holds exactly
      what was accepted and not popped; and a positive `maxSize` is never exceeded. */
  lemma MailboxRefinesQueues(boxes: seq<Box>, ops: seq<Op>, answers: seq<Answer>, maxSize: int)
    requires History(boxes, ops, answers) && AcceptedIn(answers) < WORD
    requires boxes[0] == Box(multiset{}, 0, false, maxSize)
    ensures QueuesRun(NewQueues(maxSize), ops).1 == answers
    ensures Stands(boxes[|ops|], QueuesRun(NewQueues(maxSize), ops).0)
  {
    HistoryRefines(boxes, ops, answers, NewQueues(maxSize));
  }

  // ---------------------------------------------------------------- draining

  /** The executables handed out, in order. */
  function Served(answers: seq<Answer>): seq<nat> {
    if answers == [] then []
    else
      var n := |answers| - 1;
      Served(answers[..n]) + (if answers[n].Popped? then [answers[n].e] else [])
  }

  function Pops(ops: seq<Op>): nat {
    if ops == [] then 0 else Pops(ops[..|ops| - 1]) + (if ops[|ops| - 1].Pop? then 1 else 0)
  }

  function Names(q: seq<Message>): (r: seq<nat>)
    ensures |r| == |q| && forall i :: 0 <= i < |q| ==> r[i] == q[i].executable
  {
    if q == [] then [] else [q[0].executable] + Names(q[1..])
  }

  /** How many of the messages of `q` the pops among `ops` hand out, if no push is accepted. */
  function Taken(ops: seq<Op>, q: seq<Message>): nat { if Pops(ops) < |q| then Pops(ops) else |q| }

  lemma DrainSize(q: seq<Message>)
    ensures |Drain(q)| == |q|
  {
    DrainIsStableSort(q);
    assert |multiset(Drain(q))| == |multiset(q)|;
  }

  /** While no push is accepted the queues hand out the head of the drain and keep its tail. */
  lemma {:induction false} QueuesDrain(s: Queues, ops: seq<Op>)
    requires AcceptedIn(QueuesRun(s, ops).1) == 0
    ensures |Drain(s.q)| == |s.q|
    ensures var (t, answers) := QueuesRun(s, ops);
      && Drain(t.q) == Drain(s.q)[Taken(ops, s.q)..]
      && Served(answers) == Names(Drain(s.q)[..Taken(ops, s.q)])
    decreases |ops|
  {
    DrainSize(s.q);
    if ops != [] {
      var n := |ops| - 1;
      var (t, before) := QueuesRun(s, ops[..n]);
      var a := QueuesStep(t, ops[n]).1;
      assert (before + [a])[..|before|] == before;
      QueuesDrain(s, ops[..n]);
      DrainSize(t.q);
      DrainOne(t, ops[n], Drain(s.q), Taken(ops[..n], s.q));
    }
  }

  lemma DrainOne(t: Queues, op: Op, d: seq<Message>, k: nat)
    requires k <= |d| && Drain(t.q) == d[k..] && |t.q| == |d| - k && QueuesStep(t, op).1 != Accepted(true)
    ensures var (u, a) := QueuesStep(t, op);
      if op.Pop? && k < |d| then
        && a == Popped(d[k].executable) && Drain(u.q) == d[k + 1..]
        && Names(d[..k + 1]) == Names(d[..k]) + [d[k].executable]
      else !a.Popped? && u.q == t.q
  {
    if op.Pop? && k < |d| {
      assert d[k..][0] == d[k] && d[k..][1..] == d[k + 1..];
      assert d[..k + 1] == d[..k] + [d[k]];
      assert Names(d[..k + 1]) == Names(d[..k]) + [d[k].executable];
    }
  }

  /** While no push is accepted, a history hands out the messages held at its start in the order of
      the drain, one for each pop as long as there are any, and keeps exactly the others. */
  lemma ServesTheDrain(boxes: seq<Box>, ops: seq<Op>, answers: seq<Answer>, s: Queues)
    requires History(boxes, ops, answers) && Stands(boxes[0], s) && AcceptedIn(answers) == 0
    ensures |Drain(s.q)| == |s.q|
    ensures Served(answers) == Names(Drain(s.q)[..Taken(ops, s.q)])
    ensures boxes[|ops|].heap == multiset(Drain(s.q)[Taken(ops, s.q)..])
  {
    HistoryRefines(boxes, ops, answers, s);
    QueuesDrain(s, ops);
    DrainIsStableSort(QueuesRun(s, ops).0.q);
  }

  /** Draining a mailbox that stands for `s`: as many pops as there are messages hand out the stable
      sort of what is held, and the heap ends empty. */
  lemma DrainingSorts(boxes: seq<Box>, ops: seq<Op>, answers: seq<Answer>, s: Queues)
    requires History(boxes, ops, answers) && Stands(boxes[0], s)
    requires |ops| == |s.q| && forall i :: 0 <= i < |ops| ==> ops[i].Pop?
    ensures |Drain(s.q)| == |s.q|
    ensures forall i :: 0 <= i < |s.q| ==> answers[i] == Popped(Drain(s.q)[i].executable)
    ensures boxes[|s.q|].heap == multiset{}
  {
    forall i | 0 <= i < |answers| ensures answers[i] != Accepted(true) {
      assert BoxStep(boxes[i], ops[i], boxes[i + 1], answers[i]);
    }
    NoneAccepted(answers);
    ServesTheDrain(boxes, ops, answers, s);
    AllPops(ops);
    assert Drain(s.q)[..|s.q|] == Drain(s.q) && Drain(s.q)[|s.q|..] == [];
    AllServed(answers);
  }

  lemma {:induction false} NoneAccepted(answers: seq<Answer>)
    requires forall i :: 0 <= i < |answers| ==> answers[i] != Accepted(true)
    ensures AcceptedIn(answers) == 0
  {
    if answers != [] { NoneAccepted(answers[..|answers| - 1]); }
  }

  lemma {:induction false} AllPops(ops: seq<Op>)
    requires forall i :: 0 <= i < |ops| ==> ops[i].Pop?
    ensures Pops(ops) == |ops|
  {
    if ops != [] { AllPops(ops[..|ops| - 1]); }
  }

  /** As many messages as answers: each answer handed out its own. */
  lemma {:induction false} AllServed(answers: seq<Answer>)
    ensures |Served(answers)| <= |answers|
    ensures |Served(answers)| == |answers| ==>
      forall i :: 0 <= i < |answers| ==> answers[i] == Popped(Served(answers)[i])
  {
    if answers != [] { AllServed(answers[..|answers| - 1]); }
  }

  lemma {:induction false} ClosedStays(boxes: seq<Box>, ops: seq<Op>, answers: seq<Answer>, i: nat)
    requires History(boxes, ops, answers) && boxes[0].closed && i <= |ops|
    ensures boxes[i].closed
  {
    if i > 0 {
      ClosedStays(boxes, ops, answers, i - 1);
      assert BoxStep(boxes[i - 1], ops[i - 1], boxes[i - 1 + 1], answers[i - 1]);
    }
  }

  /** A close blocks pushes and loses nothing: in every later history each push is refused, and the
      pops hand out what was held at the close, in the order of the drain, to the last message. */
  lemma ClosedHistory(boxes: seq<Box>, ops: seq<Op>, answers: seq<Answer>, s: Queues)
    requires History(boxes, ops, answers) && Stands(boxes[0], s) && s.closed
    ensures forall i :: 0 <= i < |ops| && ops[i].Push? ==> answers[i] == Accepted(false)
    ensures |Drain(s.q)| == |s.q|
    ensures Served(answers) == Names(Drain(s.q)[..Taken(ops, s.q)])
    ensures boxes[|ops|].heap == multiset(Drain(s.q)[Taken(ops, s.q)..])
  {
    forall i | 0 <= i < |ops|
      ensures answers[i] != Accepted(true) && (ops[i].Push? ==> answers[i] == Accepted(false))
    {
      ClosedStays(boxes, ops, answers, i);
      assert BoxStep(boxes[i], ops[i], boxes[i + 1], answers[i]);
    }
    NoneAccepted(answers);
    ServesTheDrain(boxes, ops, answers, s);
  }

  // ---------------------------------------------------------------- what is accepted

  function PoppedIn(answers: seq<Answer>): nat {
    if answers == [] then 0
    else PoppedIn(answers[..|answers| - 1]) + (if answers[|answers| - 1].Popped? then 1 else 0)
  }

  ghost predicate ClosedBefore(ops: seq<Op>, i: nat)
    requires i <= |ops|
  {
    exists j :: 0 <= j < i && ops[j].Close?
  }

  /** What a mailbox holds is what it accepted and did not hand out. */
  lemma {:induction false} HeldSoFar(boxes: seq<Box>, ops: seq<Op>, answers: seq<Answer>, maxSize: int, i: nat)
    requires History(boxes, ops, answers) && boxes[0] == Box(multiset{}, 0, false, maxSize) && i <= |ops|
    ensures |boxes[i].heap| == AcceptedIn(answers[..i]) - PoppedIn(answers[..i])
    ensures boxes[i].maxSize == maxSize && (maxSize > 0 ==> |boxes[i].heap| <= maxSize)
    ensures boxes[i].closed <==> ClosedBefore(ops, i)
  {
    if i > 0 {
      var n := i - 1;
      HeldSoFar(boxes, ops, answers, maxSize, n);
      assert BoxStep(boxes[n], ops[n], boxes[n + 1], answers[n]);
      assert answers[..i][..n] == answers[..n] && answers[..i][n] == answers[n];
      assert ClosedBefore(ops, i) <==> ClosedBefore(ops, n) || ops[n].Close?;
    }
  }

  /** A push is refused, in any history of a new mailbox, exactly when a close came before it or the
      accepted pushes that were not popped are as many as a positive `maxSize` allows. */
  lemma RefusedIff(boxes: seq<Box>, ops: seq<Op>, answers: seq<Answer>, maxSize: int, i: nat)
    requires History(boxes, ops, answers) && boxes[0] == Box(multiset{}, 0, false, maxSize)
    requires i < |ops| && ops[i].Push?
    ensures answers[i].Accepted?
    ensures !answers[i].ok <==>
      ClosedBefore(ops, i) || (maxSize > 0 && AcceptedIn(answers[..i]) - PoppedIn(answers[..i]) == maxSize)
  {
    HeldSoFar(boxes, ops, answers, maxSize, i);
    assert BoxStep(boxes[i], ops[i], boxes[i + 1], answers[i]);
  }

  lemma {:induction false} AcceptedAtMost(answers: seq<Answer>)
    ensures AcceptedIn(answers) <= |answers|
  {
    if answers != [] { AcceptedAtMost(answers[..|answers| - 1]); }
  }

  /** A new mailbox accepts as many pushes as it is large, and one without a positive `maxSize` all. */
  lemma NewMailboxAccepts(boxes: seq<Box>, ops: seq<Op>, answers: seq<Answer>, maxSize: int, i: nat)
    requires History(boxes, ops, answers) && boxes[0] == Box(multiset{}, 0, false, maxSize)
    requires i < |ops| && (maxSize <= 0 || i < maxSize) && forall j :: 0 <= j <= i ==> ops[j].Push?
    ensures answers[i] == Accepted(true)
  {
    RefusedIff(boxes, ops, answers, maxSize, i);
    AcceptedAtMost(answers[..i]);
  }

  /** The pushes as messages, numbered from 1. */
  function Numbered(ops: seq<Op>): (q: seq<Message>)
    requires forall i :: 0 <= i < |ops| ==> ops[i].Push?
    ensures |q| == |ops| && forall i :: 0 <= i < |ops| ==> q[i] == Message(ops[i].e, ops[i].p, i + 1)
  {
    if ops == [] then []
    else Numbered(ops[..|ops| - 1]) + [Message(ops[|ops| - 1].e, ops[|ops| - 1].p, |ops|)]
  }

  lemma {:induction false} PushesAreQueued(maxSize: int, ops: seq<Op>)
    requires forall i :: 0 <= i < |ops| ==> ops[i].Push?
    requires AcceptedIn(QueuesRun(NewQueues(maxSize), ops).1) == |ops|
    ensures var s := QueuesRun(NewQueues(maxSize), ops).0; s.q == Numbered(ops) && s.pushes == |ops|
    decreases |ops|
  {
    if ops != [] {
      var n := |ops| - 1;
      var (t, before) := QueuesRun(NewQueues(maxSize), ops[..n]);
      var a := QueuesStep(t, ops[n]).1;
      AnswersLength(NewQueues(maxSize), ops[..n]);
      assert (before + [a])[..|before|] == before;
      AcceptedAtMost(before);
      PushesAreQueued(maxSize, ops[..n]);
    }
  }

  lemma {:induction false} AnswersLength(s: Queues, ops: seq<Op>)
    ensures |QueuesRun(s, ops).1| == |ops|
    decreases |ops|
  {
    if ops != [] { AnswersLength(s, ops[..|ops| - 1]); }
  }

  /** From pushes to pops: the accepted pushes of a new mailbox, popped as often as there were pushes,
      come out as their stable sort by priority. */
  lemma PushedThenDrained(boxes: seq<Box>, ops: seq<Op>, answers: seq<Answer>, maxSize: int, n: nat)
    requires History(boxes, ops, answers) && boxes[0] == Box(multiset{}, 0, false, maxSize)
    requires |ops| == 2 * n && n < WORD
    requires (forall i :: 0 <= i < n ==> ops[i].Push?) && (forall i :: n <= i < |ops| ==> ops[i].Pop?)
    requires AcceptedIn(answers[..n]) == n
    ensures |Drain(Numbered(ops[..n]))| == n
    ensures forall i :: 0 <= i < n ==> answers[n + i] == Popped(Drain(Numbered(ops[..n]))[i].executable)
  {
    hide Drain, Stands, BoxStep;
    var s := Pushed(boxes, ops, answers, maxSize, n);
    Suffix(boxes, ops, answers, n);
    DrainingSorts(boxes[n..], ops[n..], answers[n..], s);
    forall i | 0 <= i < n ensures answers[n + i] == Popped(Drain(Numbered(ops[..n]))[i].executable) {
      assert answers[n..][i] == answers[n + i];
    }
  }

  lemma Pushed(boxes: seq<Box>, ops: seq<Op>, answers: seq<Answer>, maxSize: int, n: nat) returns (s: Queues)
    requires History(boxes, ops, answers) && boxes[0] == Box(multiset{}, 0, false, maxSize)
    requires n <= |ops| && n < WORD && AcceptedIn(answers[..n]) == n && forall i :: 0 <= i < n ==> ops[i].Push?
    ensures Stands(boxes[n], s) && s.q == Numbered(ops[..n])
  {
    hide Stands, BoxStep;
    MailboxRefinesQueues(boxes[..n + 1], ops[..n], answers[..n], maxSize);
    PushesAreQueued(maxSize, ops[..n]);
    s := QueuesRun(NewQueues(maxSize), ops[..n]).0;
    assert boxes[..n + 1][n] == boxes[n];
  }

  lemma Suffix(boxes: seq<Box>, ops: seq<Op>, answers: seq<Answer>, n: nat)
    requires History(boxes, ops, answers) && n <= |ops|
    ensures History(boxes[n..], ops[n..], answers[n..])
  {
    forall i | 0 <= i < |ops[n..]| ensures BoxStep(boxes[n..][i], ops[n..][i], boxes[n..][i + 1], answers[n..][i]) {
      assert BoxStep(boxes[n + i], ops[n + i], boxes[n + i + 1], answers[n + i]);
    }
  }

  // ---------------------------------------------------------------- the mailbox in its own form

  class PriorityMailbox {
    var heap: multiset<Message>
    var counter: nat          // the field seq
    var notify: bool          // the one-place token channel
    var closed: bool
    const maxSize: int

    ghost function View(): Box reads this { Box(heap, counter, closed, maxSize) }

    constructor (maxSize: int)
      ensures View() == Box(multiset{}, 0, false, maxSize) && !notify
    {
      this.maxSize := maxSize;
      heap, counter, closed, notify := multiset{}, 0, false, false;
    }

    /** An accepted push leaves the token in the channel; a refused one touches nothing. */
    method Push(e: nat, priority: int) returns (ok: bool)
      modifies this
      ensures BoxStep(old(View()), Op.Push(e, priority), View(), Accepted(ok))
      ensures ok <==> !old(closed) && (maxSize <= 0 || |old(heap)| < maxSize)
      ensures ok ==> counter == (old(counter) + 1) % WORD
                     && heap == old(heap) + multiset{Message(e, priority, counter)}
      ensures !ok ==> View() == old(View())
      ensures notify == (old(notify) || ok) && closed == old(closed)
    {
      if closed { return false; }
      if maxSize > 0 && |heap| >= maxSize { return false; }
      counter := (counter + 1) % WORD;
      heap := heap + multiset{Message(e, priority, counter)};
      if !notify { notify := true; }
      ok := true;
    }

    method Pop() returns (e: Option<nat>)
      modifies this`heap
      ensures BoxStep(old(View()), Op.Pop, View(), if e.Some? then Popped(e.value) else Empty)
      ensures e.None? <==> |old(heap)| == 0
      ensures e.Some? ==>
        exists m <- old(heap) ::
          && m.executable == e.value && heap == old(heap) - multiset{m}
          && forall x <- old(heap) :: m.priority < x.priority || (m.priority == x.priority && m.order <= x.order)
    {
      if |heap| == 0 { return None; }
      LeastExists(heap);
      var m :| IsLeast(m, heap);
      heap := heap - multiset{m};
      e := Some(m.executable);
    }

    method Close()
      modifies this`closed
      ensures BoxStep(old(View()), Op.Close, View(), Closed)
    {
      closed := true;
    }
  }
}
