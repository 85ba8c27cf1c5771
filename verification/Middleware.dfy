/** Middleware composition under panics: `Chain` (`pkg/actor/middleware.go`), `Recovery` and
    `MetricsMiddleware` (`pkg/middleware`), and the actor's own `catchPanic` around them. */
module Middleware {
  import opened Basics

  /** What a run of the composed handler lets one observe, middleware named by position. */
  datatype Obs = Pre(i: nat) | Handled | Post(i: nat) | Counted(i: nat)

  /** Where the one panic of a message arises, if anywhere. */
  datatype Point = Nowhere | InHandler | InPre(i: nat) | InPost(i: nat)

  /** `panics`: a panic left the handler, as it does when nothing inside recovered it. */
  datatype Run = Run(trace: seq<Obs>, panics: bool)

  type Handler = Point -> Run

  /** A plain middleware has a step before and a step after; Recovery defers a recover; Metrics
      counts after `next` returned, in no deferred function. */
  datatype Kind = Plain | Recovery | Metrics

  function Base(): Handler {
    f => if f == InHandler then Run([], true) else Run([Handled], false)
  }

  /** The middleware of kind `k` at position `i`, as a function of the next handler. */
  function Wrap(k: Kind, i: nat): Handler -> Handler {
    next => f =>
      match k
      case Plain => PlainRun(i, f, next)
      case Recovery => Run(next(f).trace, false)
      case Metrics => if next(f).panics then next(f) else Run(next(f).trace + [Counted(i)], false)
  }

  function PlainRun(i: nat, f: Point, next: Handler): Run {
    if f == InPre(i) then Run([], true)
    else if next(f).panics || f == InPost(i) then Run([Pre(i)] + next(f).trace, true)
    else Run([Pre(i)] + next(f).trace + [Post(i)], false)
  }

  /** The right-to-left fold. */
  function Fold(mws: seq<Handler -> Handler>, next: Handler): Handler {
    if mws == [] then next else mws[0](Fold(mws[1..], next))
  }

  /** `Chain`: the loop from the last middleware to the first. */
  method Chain(mws: seq<Handler -> Handler>, next: Handler) returns (h: Handler)
    ensures h == Fold(mws, next)
  {
    h := next;
    var i := |mws|;
    while i > 0
      invariant 0 <= i <= |mws|
      invariant h == Fold(mws[i..], next)
    {
      i := i - 1;
      assert mws[i..][1..] == mws[i + 1..];
      h := mws[i](h);
    }
  }

  /** The actor's middleware: appended by every `WithMiddleware`, composed once by `buildHandler`. */
  class Pipeline {
    var middleware: seq<Handler -> Handler>
    var handler: Handler

    constructor ()
      ensures middleware == [] && handler == Base()
    {
      middleware, handler := [], Base();
    }

    /** The handler built next runs what was there before around `more`, and `more` around the base. */
    method WithMiddleware(more: seq<Handler -> Handler>)
      modifies this`middleware
      ensures middleware == old(middleware) + more
      ensures forall next: Handler :: Fold(middleware, next) == Fold(old(middleware), Fold(more, next))
    {
      forall next: Handler ensures Fold(middleware + more, next) == Fold(middleware, Fold(more, next)) {
        FoldAppend(middleware, more, next);
      }
      middleware := middleware + more;
    }

    method BuildHandler()
      modifies this`handler
      ensures handler == Fold(middleware, Base())
    {
      if |middleware| == 0 {
        handler := Base();
      } else {
        handler := Chain(middleware, Base());
      }
    }
  }

  /** Composing in two steps is composing once: what was appended later lies inside. */
  lemma {:induction false} FoldAppend(a: seq<Handler -> Handler>, b: seq<Handler -> Handler>, next: Handler)
    ensures Fold(a + b, next) == Fold(a, Fold(b, next))
  {
    if a == [] {
      assert a + b == b;
    } else {
      assert (a + b)[0] == a[0] && (a + b)[1..] == a[1..] + b;
      FoldAppend(a[1..], b, next);
    }
  }

  /** The middlewares of these kinds, the first at position `i`. */
  function Wraps(kinds: seq<Kind>, i: nat): seq<Handler -> Handler> {
    if kinds == [] then [] else [Wrap(kinds[0], i)] + Wraps(kinds[1..], i + 1)
  }

  function Composed(kinds: seq<Kind>, i: nat): Handler { Fold(Wraps(kinds, i), Base()) }

  // ---------------------------------------------------------------- what a run should look like

  /** Pre-steps from the outside in. */
  function Pres(kinds: seq<Kind>, i: nat): seq<Obs> {
    if kinds == [] then [] else PreOf(kinds[0], i) + Pres(kinds[1..], i + 1)
  }

  function PostOf(k: Kind, i: nat): seq<Obs> {
    match k case Plain => [Post(i)] case Metrics => [Counted(i)] case Recovery => []
  }

  /** Post-steps from the inside out. */
  function Posts(kinds: seq<Kind>, i: nat): seq<Obs> {
    if kinds == [] then [] else Posts(kinds[1..], i + 1) + PostOf(kinds[0], i)
  }

  /** The innermost Recovery of the list. */
  function Innermost(kinds: seq<Kind>): (r: Option<nat>)
    ensures r.Some? ==> r.value < |kinds| && kinds[r.value] == Recovery
    ensures forall j :: 0 <= j < |kinds| && kinds[j] == Recovery ==> r.Some? && j <= r.value
  {
    if kinds == [] then None
    else
      var n := |kinds| - 1;
      if kinds[n] == Recovery then Some(n) else Innermost(kinds[..n])
  }

  /** The post-steps outside the innermost Recovery that encloses the panic; none without one. */
  function AfterPanic(outer: seq<Kind>, i: nat): seq<Obs> {
    match Innermost(outer)
    case None => []
    case Some(r) => Posts(outer[..r], i)
  }

  lemma Unfold(kinds: seq<Kind>, i: nat)
    requires kinds != []
    ensures Composed(kinds, i) == Wrap(kinds[0], i)(Composed(kinds[1..], i + 1))
  {
    assert Wraps(kinds, i)[1..] == Wraps(kinds[1..], i + 1);
  }

  function PreOf(k: Kind, i: nat): seq<Obs> { if k == Plain then [Pre(i)] else [] }

  /** One more wrapper around a run: its post-step is lost exactly when a panic comes out of `next`,
      and the panic goes on unless the wrapper is Recovery. */
  lemma WrapOne(k: Kind, i: nat, f: Point, next: Handler)
    requires f != InPre(i) && f != InPost(i)
    ensures Wrap(k, i)(next)(f)
         == Run(PreOf(k, i) + next(f).trace + (if next(f).panics then [] else PostOf(k, i)),
                next(f).panics && k != Recovery)
  {
    assert [] + next(f).trace + [] == next(f).trace;
    assert PreOf(k, i) + next(f).trace + [] == PreOf(k, i) + next(f).trace;
  }

  lemma AroundMiddle(a: seq<Obs>, b: seq<Obs>, m: seq<Obs>, c: seq<Obs>, d: seq<Obs>)
    ensures a + (b + m + c) + d == (a + b) + m + (c + d)
  {
  }

  /** A run without a panic: all pre-steps in order, the handler, all post-steps in reverse. */
  lemma {:induction false} NormalRun(kinds: seq<Kind>, i: nat, f: Point)
    requires f == Nowhere || (f.InPre? && f.i < i) || (f.InPost? && f.i < i)
    ensures Composed(kinds, i)(f) == Run(Pres(kinds, i) + [Handled] + Posts(kinds, i), false)
    decreases |kinds|
  {
    if kinds != [] {
      Unfold(kinds, i);
      NormalRun(kinds[1..], i + 1, f);
      WrapOne(kinds[0], i, f, Composed(kinds[1..], i + 1));
      AroundMiddle(PreOf(kinds[0], i),
                   Pres(kinds[1..], i + 1), [Handled], Posts(kinds[1..], i + 1), PostOf(kinds[0], i));
    }
  }

  /** How a panic that already left the inner handlers with `trace` goes on through `outer`. */
  function Through(outer: seq<Kind>, i: nat, trace: seq<Obs>): Run {
    Run(Pres(outer, i) + trace + AfterPanic(outer, i), Innermost(outer).None?)
  }

  lemma InnermostTail(kinds: seq<Kind>)
    requires kinds != []
    ensures Innermost(kinds) == match Innermost(kinds[1..])
      case Some(r) => Some(r + 1)
      case None => if kinds[0] == Recovery then Some(0) else None
  {
    var r, q := Innermost(kinds), Innermost(kinds[1..]);
    if q.Some? { assert kinds[q.value + 1] == Recovery; }
    if r.Some? && r.value > 0 { assert kinds[1..][r.value - 1] == Recovery; }
  }

  lemma AfterPanicTail(kinds: seq<Kind>, i: nat)
    requires kinds != []
    ensures AfterPanic(kinds, i) == AfterPanic(kinds[1..], i + 1)
      + (if Innermost(kinds[1..]).Some? then PostOf(kinds[0], i) else [])
  {
    InnermostTail(kinds);
    match Innermost(kinds[1..])
    case Some(r) =>
      assert kinds[..r + 1][1..] == kinds[1..][..r];
    case None =>
  }

  /** One more wrapper around a panicking run. */
  lemma ThroughOne(kinds: seq<Kind>, i: nat, trace: seq<Obs>, f: Point, next: Handler)
    requires kinds != [] && f != InPre(i) && f != InPost(i)
    requires next(f) == Through(kinds[1..], i + 1, trace)
    ensures Wrap(kinds[0], i)(next)(f) == Through(kinds, i, trace)
  {
    hide Innermost, AfterPanic, Posts, Wrap, PreOf, PostOf;
    WrapOne(kinds[0], i, f, next);
    InnermostTail(kinds);
    AfterPanicTail(kinds, i);
    AroundMiddle(PreOf(kinds[0], i), Pres(kinds[1..], i + 1), trace,
                 AfterPanic(kinds[1..], i + 1), if next(f).panics then [] else PostOf(kinds[0], i));
  }

  /** A panic in the handler. */
  lemma {:induction false} HandlerPanic(kinds: seq<Kind>, i: nat)
    ensures Composed(kinds, i)(InHandler) == Through(kinds, i, [])
    decreases |kinds|
  {
    if kinds != [] {
      Unfold(kinds, i);
      HandlerPanic(kinds[1..], i + 1);
      ThroughOne(kinds, i, [], InHandler, Composed(kinds[1..], i + 1));
    }
  }

  /** A panic in the pre-step of the plain middleware at `k`: nothing inside it runs. */
  lemma {:induction false} PrePanic(kinds: seq<Kind>, i: nat, k: nat)
    requires k < |kinds| && kinds[k] == Plain
    ensures Composed(kinds, i)(InPre(i + k)) == Through(kinds[..k], i, [])
    decreases |kinds|
  {
    hide Composed, Through, Wrap;
    Unfold(kinds, i);
    if k > 0 {
      PrePanic(kinds[1..], i + 1, k - 1);
      assert kinds[..k][1..] == kinds[1..][..k - 1];
      ThroughOne(kinds[..k], i, [], InPre(i + k), Composed(kinds[1..], i + 1));
    } else {
      PrePanicHere(kinds, i);
      assert kinds[..0] == [];
    }
  }

  lemma PrePanicHere(kinds: seq<Kind>, i: nat)
    requires kinds != [] && kinds[0] == Plain
    requires Composed(kinds, i) == Wrap(kinds[0], i)(Composed(kinds[1..], i + 1))
    ensures Composed(kinds, i)(InPre(i)) == Through([], i, [])
  {
    hide Composed, Pres;
    var next := Composed(kinds[1..], i + 1);
    assert Wrap(Plain, i)(next)(InPre(i)) == PlainRun(i, InPre(i), next);
    NoOuter(i);
  }

  /** What the plain middleware at `k` and everything inside it did before its post-step. */
  function DoneInside(kinds: seq<Kind>, i: nat, k: nat): seq<Obs>
    requires k < |kinds|
  {
    [Pre(i + k)] + (Pres(kinds[k + 1..], i + k + 1) + [Handled] + Posts(kinds[k + 1..], i + k + 1))
  }

  /** A panic in the post-step of the plain middleware at `k`: everything inside it has run. */
  lemma {:induction false} PostPanic(kinds: seq<Kind>, i: nat, k: nat)
    requires k < |kinds| && kinds[k] == Plain
    ensures Composed(kinds, i)(InPost(i + k)) == Through(kinds[..k], i, DoneInside(kinds, i, k))
    decreases |kinds|
  {
    hide Composed, Through, Wrap;
    Unfold(kinds, i);
    if k > 0 {
      PostPanic(kinds[1..], i + 1, k - 1);
      assert kinds[..k][1..] == kinds[1..][..k - 1] && kinds[1..][k..] == kinds[k + 1..];
      assert DoneInside(kinds[1..], i + 1, k - 1) == DoneInside(kinds, i, k);
      ThroughOne(kinds[..k], i, DoneInside(kinds, i, k), InPost(i + k), Composed(kinds[1..], i + 1));
    } else {
      NormalRun(kinds[1..], i + 1, InPost(i));
      PostPanicHere(kinds, i);
    }
  }

  lemma PostPanicHere(kinds: seq<Kind>, i: nat)
    requires kinds != [] && kinds[0] == Plain
    requires Composed(kinds, i) == Wrap(kinds[0], i)(Composed(kinds[1..], i + 1))
    requires Composed(kinds[1..], i + 1)(InPost(i))
          == Run(Pres(kinds[1..], i + 1) + [Handled] + Posts(kinds[1..], i + 1), false)
    ensures Composed(kinds, i)(InPost(i)) == Through([], i, DoneInside(kinds, i, 0))
  {
    hide Composed, Pres, Posts;
    assert Composed(kinds, i)(InPost(i)) == Run(DoneInside(kinds, i, 0), true);
    assert Through([], i, DoneInside(kinds, i, 0)).trace == [] + DoneInside(kinds, i, 0) + [] by { NoOuter(i); }
  }

  lemma NoOuter(i: nat)
    ensures Pres([], i) == [] && AfterPanic([], i) == [] && Innermost([]).None?
  {
  }

  /** The middlewares around the place of the panic. */
  function Enclosing(kinds: seq<Kind>, f: Point): seq<Kind>
    requires f == InHandler || ((f.InPre? || f.InPost?) && f.i < |kinds|)
  {
    if f == InHandler then kinds else kinds[..f.i]
  }

  /** What ran inside the place of the panic before it arose: all of it for a post-step, else nothing. */
  function Inside(kinds: seq<Kind>, f: Point): seq<Obs>
    requires f == InHandler || ((f.InPre? || f.InPost?) && f.i < |kinds|)
  {
    if !f.InPost? then []
    else [Pre(f.i)] + (Pres(kinds[f.i + 1..], f.i + 1) + [Handled] + Posts(kinds[f.i + 1..], f.i + 1))
  }

  /** Chain under a panic: the enclosing pre-steps, what ran inside, and then exactly the post-steps
      outside the innermost enclosing Recovery; and the panic reaches the actor's `catchPanic`
      exactly when no Recovery encloses its place. */
  lemma PanicRun(kinds: seq<Kind>, f: Point)
    requires f == InHandler || ((f.InPre? || f.InPost?) && f.i < |kinds| && kinds[f.i] == Plain)
    ensures var outer, run := Enclosing(kinds, f), Composed(kinds, 0)(f);
      && run.trace == Pres(outer, 0) + Inside(kinds, f) + AfterPanic(outer, 0)
      && (run.panics <==> forall j :: 0 <= j < |outer| ==> outer[j] != Recovery)
  {
    match f
    case InHandler => HandlerPanic(kinds, 0);
    case InPre(k) => PrePanic(kinds, 0, k);
    case InPost(k) => PostPanic(kinds, 0, k);
  }

  /** What ran inside a panicking post-step is its own pre-step and a whole normal run of the rest. */
  lemma InsideIsANormalRun(kinds: seq<Kind>, k: nat)
    requires k < |kinds|
    ensures Inside(kinds, InPost(k)) == [Pre(k)] + Composed(kinds[k + 1..], k + 1)(Nowhere).trace
  {
    NormalRun(kinds[k + 1..], k + 1, Nowhere);
  }

  // ---------------------------------------------------------------- the steps, one by one

  predicate PlaceOf(o: Obs, kinds: seq<Kind>, i: nat) {
    match o
    case Handled => false
    case Pre(j) => i <= j < i + |kinds| && kinds[j - i] == Plain
    case Post(j) => i <= j < i + |kinds| && kinds[j - i] == Plain
    case Counted(j) => i <= j < i + |kinds| && kinds[j - i] == Metrics
  }

  /** Pre-steps from position `i` on, each further in than the one before. */
  predicate Inwards(steps: seq<Obs>, i: nat) {
    && (forall a :: 0 <= a < |steps| ==> steps[a].Pre? && steps[a].i >= i)
    && (forall a, b :: 0 <= a < b < |steps| ==> steps[a].i < steps[b].i)
  }

  /** Post-steps from position `i` on, each further out than the one before. */
  predicate Outwards(steps: seq<Obs>, i: nat) {
    && (forall a :: 0 <= a < |steps| ==> (steps[a].Post? || steps[a].Counted?) && steps[a].i >= i)
    && (forall a, b :: 0 <= a < b < |steps| ==> steps[a].i > steps[b].i)
  }

  lemma InwardsMore(rest: seq<Obs>, i: nat)
    requires Inwards(rest, i + 1)
    ensures Inwards(rest, i) && Inwards([Pre(i)] + rest, i)
  {
    var steps := [Pre(i)] + rest;
    assert forall a :: 0 < a < |steps| ==> steps[a] == rest[a - 1];
  }

  lemma OutwardsMore(rest: seq<Obs>, o: Obs, i: nat)
    requires Outwards(rest, i + 1) && (o == Post(i) || o == Counted(i))
    ensures Outwards(rest + [o], i)
  {
  }

  /** Being in place from the second middleware on, or being the first one's step. */
  lemma PlaceMore(o: Obs, kinds: seq<Kind>, i: nat)
    requires kinds != []
    ensures PlaceOf(o, kinds, i) <==>
      PlaceOf(o, kinds[1..], i + 1) || o in PreOf(kinds[0], i) || o in PostOf(kinds[0], i)
  {
    if !o.Handled? && i < o.i < i + |kinds| { assert kinds[1..][o.i - i - 1] == kinds[o.i - i]; }
  }

  /** The pre-steps are those of the plain middlewares, each once, from the outside in. */
  lemma {:induction false} PresExact(kinds: seq<Kind>, i: nat)
    ensures forall o :: o in Pres(kinds, i) <==> o.Pre? && PlaceOf(o, kinds, i)
    ensures Inwards(Pres(kinds, i), i)
  {
    hide PlaceOf, Inwards;
    if kinds == [] {
      NoPlace(i);
    } else {
      var rest := Pres(kinds[1..], i + 1);
      PresExact(kinds[1..], i + 1);
      InwardsMore(rest, i);
      assert [] + rest == rest;
      forall o ensures o in Pres(kinds, i) <==> o.Pre? && PlaceOf(o, kinds, i) {
        PlaceMore(o, kinds, i);
        assert o in Pres(kinds, i) <==> o in PreOf(kinds[0], i) || o in rest;
      }
    }
  }

  lemma NoPlace(i: nat)
    ensures (forall o :: !PlaceOf(o, [], i)) && Inwards([], i) && Outwards([], i)
  {
  }

  /** The post-steps are those of the plain middlewares and of Metrics, each once, from the inside out. */
  lemma {:induction false} PostsExact(kinds: seq<Kind>, i: nat)
    ensures forall o :: o in Posts(kinds, i) <==> !o.Pre? && PlaceOf(o, kinds, i)
    ensures Outwards(Posts(kinds, i), i)
  {
    hide PlaceOf, Outwards;
    if kinds == [] {
      NoPlace(i);
    } else {
      var rest := Posts(kinds[1..], i + 1);
      PostsExact(kinds[1..], i + 1);
      match kinds[0] {
        case Plain => OutwardsMore(rest, Post(i), i);
        case Metrics => OutwardsMore(rest, Counted(i), i);
        case Recovery => OutwardsLess(rest, i);
      }
      assert rest + [] == rest;
      forall o ensures o in Posts(kinds, i) <==> !o.Pre? && PlaceOf(o, kinds, i) {
        PlaceMore(o, kinds, i);
        assert o in Posts(kinds, i) <==> o in rest || o in PostOf(kinds[0], i);
      }
    }
  }

  lemma OutwardsLess(steps: seq<Obs>, i: nat)
    requires Outwards(steps, i + 1)
    ensures Outwards(steps, i)
  {
  }

  lemma {:induction false} PostsCount(kinds: seq<Kind>, i: nat, j: nat)
    ensures Counted(j) in Posts(kinds, i) <==> i <= j < i + |kinds| && kinds[j - i] == Metrics
  {
    if kinds != [] {
      PostsCount(kinds[1..], i + 1, j);
      assert j > i && j - i < |kinds| ==> kinds[1..][j - i - 1] == kinds[j - i];
    }
  }

  lemma {:induction false} PresDoNotCount(kinds: seq<Kind>, i: nat, j: nat)
    ensures Counted(j) !in Pres(kinds, i)
  {
    if kinds != [] { PresDoNotCount(kinds[1..], i + 1, j); }
  }

  /** Metrics at `j` counts a message with a panic exactly when a Recovery around the place of the
      panic lies inside it, or when it had returned before the panic arose. With one Recovery alone,
      placed first, a message whose handler panicked is never counted. */
  lemma MetricsCountsIff(kinds: seq<Kind>, f: Point, j: nat)
    requires f == InHandler || ((f.InPre? || f.InPost?) && f.i < |kinds| && kinds[f.i] == Plain)
    requires j < |kinds| && kinds[j] == Metrics
    ensures var outer := Enclosing(kinds, f);
      Counted(j) in Composed(kinds, 0)(f).trace <==>
        (exists r :: j < r < |outer| && outer[r] == Recovery) || (f.InPost? && f.i < j)
  {
    var outer := Enclosing(kinds, f);
    PanicRun(kinds, f);
    PresDoNotCount(outer, 0, j);
    InsideCounts(kinds, f, j);
    match Innermost(outer)
    case None =>
    case Some(r) => PostsCount(outer[..r], 0, j);
  }

  /** With Recovery first, as the repository's README advises, a panic in the handler is recovered
      but the message is not counted. */
  lemma RecoveryFirstLosesTheCount()
    ensures Composed([Recovery, Metrics], 0)(InHandler) == Run([], false)
  {
    var kinds := [Recovery, Metrics];
    PanicRun(kinds, InHandler);
    assert kinds[0] == Recovery;
    assert kinds[1..] == [Metrics] && kinds[1..][1..] == [];
    assert Innermost(kinds) == Some(0);
    assert Posts(kinds[..0], 0) == [];
  }

  lemma InsideCounts(kinds: seq<Kind>, f: Point, j: nat)
    requires f == InHandler || ((f.InPre? || f.InPost?) && f.i < |kinds|)
    requires j < |kinds| && kinds[j] == Metrics
    ensures Counted(j) in Inside(kinds, f) <==> f.InPost? && f.i < j
  {
    if f.InPost? {
      PresDoNotCount(kinds[f.i + 1..], f.i + 1, j);
      PostsCount(kinds[f.i + 1..], f.i + 1, j);
    }
  }
}
