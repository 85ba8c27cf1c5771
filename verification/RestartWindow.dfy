/** The restart-frequency limiter of `handleTermination` (`pkg/supervision/supervisor.go:267-284`):
    a list of timestamps, trimmed at the front on every attempt. */
module RestartWindow {

  /** One attempt to restart: when it was made and whether the limiter let it through. */
  datatype Attempt = Attempt(at: int, granted: bool)

  /** The trim loop: drop entries from the front while they are before the cutoff. */
  function Trim(times: seq<int>, cutoff: int): seq<int> {
    if times == [] || times[0] >= cutoff then times else Trim(times[1..], cutoff)
  }

  /** What the list holds after attempts at `times`, each appended and then trimmed to `w`. */
  function Window(times: seq<int>, w: int): seq<int> {
    if times == [] then []
    else
      var n := |times| - 1;
      Trim(Window(times[..n], w) + [times[n]], times[n] - w)
  }

  /** All entries not before `cutoff`, in order. */
  function Since(times: seq<int>, cutoff: int): seq<int> {
    if times == [] then []
    else
      var n := |times| - 1;
      Since(times[..n], cutoff) + (if times[n] >= cutoff then [times[n]] else [])
  }

  /** `Since` leaves out nothing and adds nothing: it is as long as the entries that qualify are many,
      and each of its entries qualifies. */
  lemma {:induction false} SinceExact(times: seq<int>, cutoff: int)
    ensures |Since(times, cutoff)| == |set i | 0 <= i < |times| && times[i] >= cutoff|
    ensures forall x :: x in Since(times, cutoff) <==> x in times && x >= cutoff
  {
    if times != [] {
      var n := |times| - 1;
      SinceExact(times[..n], cutoff);
      var a := set i | 0 <= i < |times[..n]| && times[..n][i] >= cutoff;
      var b := set i | 0 <= i < |times| && times[i] >= cutoff;
      assert b == a + (if times[n] >= cutoff then {n} else {});
    }
  }

  predicate NonDecreasing(times: seq<int>) {
    forall i, j :: 0 <= i < j < |times| ==> times[i] <= times[j]
  }

  function Times(hist: seq<Attempt>): (ts: seq<int>)
    ensures |ts| == |hist|
    ensures forall i :: 0 <= i < |hist| ==> ts[i] == hist[i].at
  {
    if hist == [] then []
    else Times(hist[..|hist| - 1]) + [hist[|hist| - 1].at]
  }

  lemma SinceAppend(s: seq<int>, x: int, c: int)
    ensures Since(s + [x], c) == Since(s, c) + (if x >= c then [x] else [])
  {
    assert (s + [x])[..|s|] == s;
  }

  lemma {:induction false} TrimKeepsLast(s: seq<int>, x: int, cutoff: int)
    requires x >= cutoff
    ensures Trim(s + [x], cutoff) == Trim(s, cutoff) + [x]
  {
    if s != [] && s[0] < cutoff {
      assert (s + [x])[1..] == s[1..] + [x];
      TrimKeepsLast(s[1..], x, cutoff);
    }
  }

  lemma {:induction false} TrimDropsAll(s: seq<int>, cutoff: int)
    requires forall i :: 0 <= i < |s| ==> s[i] < cutoff
    ensures Trim(s, cutoff) == []
  {
    if s != [] { TrimDropsAll(s[1..], cutoff); }
  }

  lemma {:induction false} SinceNone(s: seq<int>, cutoff: int)
    requires forall i :: 0 <= i < |s| ==> s[i] < cutoff
    ensures Since(s, cutoff) == []
  {
    if s != [] { SinceNone(s[..|s| - 1], cutoff); }
  }

  /** On an ordered list, dropping from the front is the same as keeping what is recent enough. */
  lemma {:induction false} TrimIsSince(s: seq<int>, cutoff: int)
    requires NonDecreasing(s)
    ensures Trim(s, cutoff) == Since(s, cutoff)
  {
    if s != [] {
      var n := |s| - 1;
      assert s == s[..n] + [s[n]];
      if s[n] >= cutoff {
        TrimKeepsLast(s[..n], s[n], cutoff);
        TrimIsSince(s[..n], cutoff);
      } else {
        TrimDropsAll(s, cutoff);
        SinceNone(s, cutoff);
      }
    }
  }

  /** A later cutoff subsumes an earlier one. */
  lemma {:induction false} SinceSince(s: seq<int>, c: int, d: int)
    requires c <= d
    ensures Since(Since(s, c), d) == Since(s, d)
  {
    if s != [] {
      var n := |s| - 1;
      SinceSince(s[..n], c, d);
      if s[n] >= c { SinceAppend(Since(s[..n], c), s[n], d); }
      else { assert Since(s, c) == Since(s[..n], c) && Since(s, d) == Since(s[..n], d); }
    }
  }

  lemma {:induction false} SinceOrdered(s: seq<int>, c: int)
    requires NonDecreasing(s)
    ensures NonDecreasing(Since(s, c))
    ensures forall i :: 0 <= i < |Since(s, c)| ==> s != [] && Since(s, c)[i] <= s[|s| - 1]
  {
    if s != [] {
      var n := |s| - 1;
      SinceOrdered(s[..n], c);
      if n > 0 { assert s[n - 1] <= s[n]; }
    }
  }

  /** The list trimmed attempt by attempt is always exactly the attempts of the last window, granted
      and refused alike, when the clock does not go backwards. */
  lemma {:induction false} WindowIsRecentHistory(times: seq<int>, w: int)
    requires NonDecreasing(times) && times != []
    ensures Window(times, w) == Since(times, times[|times| - 1] - w)
  {
    var n := |times| - 1;
    var last := times[n];
    var before := Window(times[..n], w);
    if n > 0 { WindowIsRecentHistory(times[..n], w); }
    RecentBefore(times, w, before);
    TrimIsSince(before + [last], last - w);
    SinceAppend(before, last, last - w);
  }

  lemma RecentBefore(times: seq<int>, w: int, before: seq<int>)
    requires NonDecreasing(times) && times != []
    requires before == if |times| == 1 then [] else Since(times[..|times| - 1], times[|times| - 2] - w)
    ensures NonDecreasing(before + [times[|times| - 1]])
    ensures Since(before, times[|times| - 1] - w) == Since(times[..|times| - 1], times[|times| - 1] - w)
  {
    var n := |times| - 1;
    if n > 0 {
      SinceSince(times[..n], times[n - 1] - w, times[n] - w);
      SinceOrdered(times[..n], times[n - 1] - w);
    }
  }

  /** The limiter's decisions along a history: an attempt is granted when the trimmed list,
      with it, has at most `max` entries. */
  predicate Decided(hist: seq<Attempt>, max: int, w: int) {
    forall i :: 0 <= i < |hist| ==> (hist[i].granted <==> |Window(Times(hist[..i + 1]), w)| <= max)
  }

  /** The granted attempts between `lo` and `hi`, both included. */
  function GrantsIn(hist: seq<Attempt>, lo: int, hi: int): nat {
    if hist == [] then 0
    else
      var h := hist[|hist| - 1];
      GrantsIn(hist[..|hist| - 1], lo, hi) + (if h.granted && lo <= h.at <= hi then 1 else 0)
  }

  lemma {:induction false} GrantsAreAttempts(hist: seq<Attempt>, lo: int, hi: int, c: int)
    requires c <= lo
    ensures GrantsIn(hist, lo, hi) <= |Since(Times(hist), c)|
  {
    if hist != [] {
      var n := |hist| - 1;
      assert Times(hist)[..n] == Times(hist[..n]);
      GrantsAreAttempts(hist[..n], lo, hi, c);
    }
  }

  lemma DecidedPrefix(hist: seq<Attempt>, max: int, w: int, n: nat)
    requires Decided(hist, max, w) && n <= |hist|
    ensures Decided(hist[..n], max, w)
  {
    forall i | 0 <= i < n
      ensures hist[..n][i].granted <==> |Window(Times(hist[..n][..i + 1]), w)| <= max
    {
      assert hist[..n][..i + 1] == hist[..i + 1];
    }
  }

  lemma WindowAppend(times: seq<int>, x: int, w: int)
    ensures Window(times + [x], w) == Trim(Window(times, w) + [x], x - w)
  {
    assert (times + [x])[..|times|] == times;
  }

  /** One more attempt, judged by the list it is appended to and trimmed with. */
  lemma DecidedAppend(hist: seq<Attempt>, a: Attempt, max: int, w: int)
    requires Decided(hist, max, w)
    requires a.granted <==> |Trim(Window(Times(hist), w) + [a.at], a.at - w)| <= max
    ensures Decided(hist + [a], max, w)
    ensures Window(Times(hist + [a]), w) == Trim(Window(Times(hist), w) + [a.at], a.at - w)
  {
    hide Window, Trim, Times;
    var more := hist + [a];
    TimesAppend(hist, a);
    WindowAppend(Times(hist), a.at, w);
    forall i | 0 <= i < |more| ensures more[i].granted <==> |Window(Times(more[..i + 1]), w)| <= max {
      if i < |hist| { assert more[..i + 1] == hist[..i + 1]; } else { assert more[..i + 1] == more; }
    }
  }

  lemma TimesAppend(hist: seq<Attempt>, a: Attempt)
    ensures Times(hist + [a]) == Times(hist) + [a.at]
    ensures Times(hist + [a])[..|hist|] == Times(hist)
  {
    assert (hist + [a])[..|hist|] == hist;
  }

  /** An attempt is granted exactly when it and the attempts of the window before it, granted or
      refused, are at most `max`. */
  lemma GrantedIffRoom(hist: seq<Attempt>, max: int, w: int, i: nat)
    requires Decided(hist, max, w) && NonDecreasing(Times(hist)) && i < |hist|
    ensures hist[i].granted <==> |Since(Times(hist[..i + 1]), hist[i].at - w)| <= max
  {
    hide Window, Since, Times;
    var ts := Times(hist[..i + 1]);
    assert forall k :: 0 <= k < |ts| ==> ts[k] == hist[k].at == Times(hist)[k];
    WindowIsRecentHistory(ts, w);
  }

  /** A granted attempt and the attempts of the window before it are at most `max`. */
  lemma LastGrant(hist: seq<Attempt>, max: int, w: int)
    requires hist != [] && hist[|hist| - 1].granted
    requires Decided(hist, max, w) && NonDecreasing(Times(hist))
    ensures |Since(Times(hist), hist[|hist| - 1].at - w)| <= max
  {
    assert hist[..|hist|] == hist;
    WindowIsRecentHistory(Times(hist), w);
  }

  /** Sliding-window bound: in no closed interval as long as the window are more than `max`
      restarts granted. */
  lemma {:induction false} AtMostMaxPerWindow(hist: seq<Attempt>, max: int, w: int, a: int)
    requires max > 0 && Decided(hist, max, w) && NonDecreasing(Times(hist))
    ensures GrantsIn(hist, a, a + w) <= max
  {
    hide Window, Since;
    if hist != [] {
      var n := |hist| - 1;
      var h := hist[n];
      if h.granted && a <= h.at <= a + w {
        LastGrant(hist, max, w);
        GrantsAreAttempts(hist, a, a + w, h.at - w);
      } else {
        assert Times(hist[..n]) == Times(hist)[..n];
        DecidedPrefix(hist, max, w, n);
        AtMostMaxPerWindow(hist[..n], max, w, a);
      }
    }
  }

  /** Refused attempts occupy the window: with one restart allowed in 10, the attempt at 16 is refused
      although no restart was granted since 6. */
  lemma RefusalsCount()
    ensures var hist := [Attempt(0, true), Attempt(8, false), Attempt(16, false)];
      Decided(hist, 1, 10) && NonDecreasing(Times(hist)) && GrantsIn(hist, 16 - 10, 16) == 0
  {
    hide Window, Trim, Decided, NonDecreasing, GrantsIn, Times;
    var a, b, c := Attempt(0, true), Attempt(8, false), Attempt(16, false);
    assert Decided([], 1, 10) && Window(Times([]), 10) == [] by { Nothing(); }
    assert Trim([0], -10) == [0] && Trim([0, 8], -2) == [0, 8] && Trim([0, 8, 16], 6) == [8, 16] by { Trims(); }
    assert [] + [a] == [a] && [a] + [b] == [a, b] && [a, b] + [c] == [a, b, c];
    assert [] + [0] == [0] && [0] + [8] == [0, 8] && [0, 8] + [16] == [0, 8, 16];
    DecidedAppend([], a, 1, 10);
    DecidedAppend([a], b, 1, 10);
    DecidedAppend([a, b], c, 1, 10);
    assert NonDecreasing(Times([a, b, c])) by { Ordered(a, b, c); }
    OldGrant(a, b, c);
  }

  lemma Nothing()
    ensures Decided([], 1, 10) && Window(Times([]), 10) == []
  {
  }

  lemma Trims()
    ensures Trim([0], -10) == [0] && Trim([0, 8], -2) == [0, 8] && Trim([0, 8, 16], 6) == [8, 16]
  {
    assert [0, 8, 16][1..] == [8, 16];
  }

  lemma Ordered(a: Attempt, b: Attempt, c: Attempt)
    requires a.at <= b.at <= c.at
    ensures NonDecreasing(Times([a, b, c]))
  {
  }

  lemma OldGrant(a: Attempt, b: Attempt, c: Attempt)
    requires a.at < 6 && !b.granted && !c.granted
    ensures GrantsIn([a, b, c], 6, 16) == 0
  {
    assert [a, b, c][..2] == [a, b] && [a, b][..1] == [a] && [a][..0] == [];
    assert GrantsIn([a], 6, 16) == 0;
    assert GrantsIn([a, b], 6, 16) == 0;
  }
}
