/** The per-side smoothing history: two bounded FIFO deques (intercepts and slopes)
    appended together, and the smoothed model taken as their running mean. */
module Smoothing {
  import opened LineModel

  /** The last cap elements of s, or all of s when it is shorter. */
  function Window<T>(s: seq<T>, cap: nat): (w: seq<T>)
    ensures |w| == if |s| < cap then |s| else cap
  {
    if |s| <= cap then s else s[|s| - cap..]
  }

  /** Appending x to a deque of maximum length cap: on overflow the oldest entry is
      dropped first. */
  function Push(d: seq<real>, x: real, cap: nat): (r: seq<real>)
    requires |d| <= cap
    ensures r == Window(d + [x], cap)
    ensures cap > 0 ==> r[|r| - 1] == x
    ensures |d| < cap ==> r == d + [x]
    ensures 0 < cap == |d| ==> r == d[1..] + [x]
  {
    if |d| < cap then d + [x] else (d + [x])[1..]
  }

  /** A side's history: the intercept and slope deques of past per-frame lines. */
  datatype History = History(intercepts: seq<real>, slopes: seq<real>)

  /** The empty history a side starts with. */
  const Empty: History := History([], [])

  /** Both deques hold the same number of entries, at most cap. */
  predicate Bounded(h: History, cap: nat) {
    |h.intercepts| == |h.slopes| <= cap
  }

  /** Appends one per-frame line to both deques of a history. */
  function Record(h: History, l: Line, cap: nat): (r: History)
    requires Bounded(h, cap)
    ensures Bounded(r, cap)
    ensures r.intercepts == Window(h.intercepts + [l.intercept], cap)
    ensures r.slopes == Window(h.slopes + [l.slope], cap)
  {
    History(Push(h.intercepts, l.intercept, cap), Push(h.slopes, l.slope, cap))
  }

  /** The smoothed model of a history: both sums are divided by the number of stored
      intercepts; an empty history leaves the model unset. */
  function Smoothed(h: History): (r: Option<Line>)
    requires |h.intercepts| == |h.slopes|
    ensures r.None? <==> |h.intercepts| == 0
    ensures r.Some? ==> r.value == Line(Average(h.intercepts), Average(h.slopes))
  {
    if |h.intercepts| > 0 then
      Some(Line(Sum(h.intercepts) / |h.intercepts| as real, Sum(h.slopes) / |h.intercepts| as real))
    else
      None
  }

  /** Records a sequence of per-frame lines, oldest first. */
  function RecordAll(h: History, ls: seq<Line>, cap: nat): (r: History)
    requires Bounded(h, cap)
    ensures Bounded(r, cap)
  {
    if |ls| == 0 then h else Record(RecordAll(h, ls[..|ls| - 1], cap), ls[|ls| - 1], cap)
  }

  /** Recording one more line after a run records it last. */
  lemma RecordAllSnoc(h: History, ls: seq<Line>, l: Line, cap: nat)
    requires Bounded(h, cap)
    ensures RecordAll(h, ls + [l], cap) == Record(RecordAll(h, ls, cap), l, cap)
  {
  }

  /** Pushing onto a window of s gives the window of s extended. */
  lemma WindowPush<T>(s: seq<T>, x: T, cap: nat)
    ensures Window(Window(s, cap) + [x], cap) == Window(s + [x], cap)
  {
    if |s| > cap {
      assert Window(s, cap) + [x] == s[|s| - cap..] + [x];
      if cap > 0 {
        assert (s[|s| - cap..] + [x])[1..] == (s + [x])[|s| + 1 - cap..];
      }
    }
  }

  /** The history after a run of detections holds exactly the last cap of all lines
      ever recorded, in order. */
  lemma {:induction false} RecordAllWindow(h: History, ls: seq<Line>, cap: nat)
    requires Bounded(h, cap)
    ensures RecordAll(h, ls, cap).intercepts == Window(h.intercepts + Intercepts(ls), cap)
    ensures RecordAll(h, ls, cap).slopes == Window(h.slopes + Slopes(ls), cap)
  {
    InterceptsWindow(h, ls, cap);
    SlopesWindow(h, ls, cap);
  }

  lemma {:induction false} InterceptsWindow(h: History, ls: seq<Line>, cap: nat)
    requires Bounded(h, cap)
    ensures RecordAll(h, ls, cap).intercepts == Window(h.intercepts + Intercepts(ls), cap)
    decreases |ls|
  {
    if |ls| == 0 {
      assert h.intercepts + Intercepts(ls) == h.intercepts;
    } else {
      var n := |ls| - 1;
      var x := ls[n];
      InterceptsWindow(h, ls[..n], cap);
      ColumnsOfLast(ls);
      var xs := h.intercepts + Intercepts(ls[..n]);
      WindowPush(xs, x.intercept, cap);
      assert xs + [x.intercept] == h.intercepts + (Intercepts(ls[..n]) + [x.intercept]);
    }
  }

  lemma {:induction false} SlopesWindow(h: History, ls: seq<Line>, cap: nat)
    requires Bounded(h, cap)
    ensures RecordAll(h, ls, cap).slopes == Window(h.slopes + Slopes(ls), cap)
    decreases |ls|
  {
    if |ls| == 0 {
      assert h.slopes + Slopes(ls) == h.slopes;
    } else {
      var n := |ls| - 1;
      var x := ls[n];
      SlopesWindow(h, ls[..n], cap);
      ColumnsOfLast(ls);
      var ss := h.slopes + Slopes(ls[..n]);
      WindowPush(ss, x.slope, cap);
      assert ss + [x.slope] == h.slopes + (Slopes(ls[..n]) + [x.slope]);
    }
  }

  /** The columns of a non-empty sequence end with the columns of its last line. */
  lemma ColumnsOfLast(ls: seq<Line>)
    requires |ls| > 0
    ensures Intercepts(ls) == Intercepts(ls[..|ls| - 1]) + [ls[|ls| - 1].intercept]
    ensures Slopes(ls) == Slopes(ls[..|ls| - 1]) + [ls[|ls| - 1].slope]
  {
    var n := |ls| - 1;
    assert forall i :: 0 <= i < n ==> Intercepts(ls)[i] == Intercepts(ls[..n])[i];
    assert forall i :: 0 <= i < n ==> Slopes(ls)[i] == Slopes(ls[..n])[i];
  }

  /** The sum of n copies of x is n times x. */
  lemma {:induction false} SumConstant(xs: seq<real>, x: real)
    requires forall i :: 0 <= i < |xs| ==> xs[i] == x
    ensures Sum(xs) == |xs| as real * x
    decreases |xs|
  {
    if |xs| > 0 {
      SumConstant(xs[..|xs| - 1], x);
    }
  }

  /** A window no wider than a trailing run of copies of x holds only x. */
  lemma WindowOfRun(s: seq<real>, x: real, k: nat, cap: nat)
    requires cap <= k <= |s|
    requires forall i :: |s| - k <= i < |s| ==> s[i] == x
    ensures forall i :: 0 <= i < |Window(s, cap)| ==> Window(s, cap)[i] == x
  {
  }

  /** After at least cap identical detections (cap > 0) the smoothed model is exactly
      the detected line, whatever the history held before. */
  lemma {:induction false} SteadyState(h: History, l: Line, cap: nat, k: nat)
    requires Bounded(h, cap) && 0 < cap <= k
    ensures Smoothed(RecordAll(h, seq(k, _ => l), cap)) == Some(l)
  {
    var ls := seq(k, _ => l);
    var r := RecordAll(h, ls, cap);
    RecordAllWindow(h, ls, cap);
    var xs := h.intercepts + Intercepts(ls);
    var ss := h.slopes + Slopes(ls);
    WindowOfRun(xs, l.intercept, k, cap);
    WindowOfRun(ss, l.slope, k, cap);
    SmoothedOfConstant(r, l);
  }

  /** A non-empty history holding only copies of l smooths to l. */
  lemma SmoothedOfConstant(h: History, l: Line)
    requires 0 < |h.intercepts| == |h.slopes|
    requires forall i :: 0 <= i < |h.intercepts| ==> h.intercepts[i] == l.intercept
    requires forall i :: 0 <= i < |h.slopes| ==> h.slopes[i] == l.slope
    ensures Smoothed(h) == Some(l)
  {
    SumConstant(h.intercepts, l.intercept);
    SumConstant(h.slopes, l.slope);
    var n := |h.intercepts| as real;
    assert Sum(h.intercepts) / n == l.intercept;
    assert Sum(h.slopes) / n == l.slope;
  }

  /** A mean of values all below c is below c. */
  lemma {:induction false} AverageBelow(xs: seq<real>, c: real)
    requires |xs| > 0 && forall i :: 0 <= i < |xs| ==> xs[i] < c
    ensures Average(xs) < c
  {
    SumBelow(xs, c);
    var n := |xs| as real;
    assert Sum(xs) / n * n == Sum(xs);
  }

  lemma {:induction false} SumBelow(xs: seq<real>, c: real)
    requires |xs| > 0 && forall i :: 0 <= i < |xs| ==> xs[i] < c
    ensures Sum(xs) < |xs| as real * c
    decreases |xs|
  {
    if |xs| > 1 {
      SumBelow(xs[..|xs| - 1], c);
    }
  }

  /** A mean of values all above c is above c. */
  lemma {:induction false} AverageAbove(xs: seq<real>, c: real)
    requires |xs| > 0 && forall i :: 0 <= i < |xs| ==> xs[i] > c
    ensures Average(xs) > c
  {
    SumAbove(xs, c);
    var n := |xs| as real;
    assert Sum(xs) / n * n == Sum(xs);
  }

  lemma {:induction false} SumAbove(xs: seq<real>, c: real)
    requires |xs| > 0 && forall i :: 0 <= i < |xs| ==> xs[i] > c
    ensures Sum(xs) > |xs| as real * c
    decreases |xs|
  {
    if |xs| > 1 {
      SumAbove(xs[..|xs| - 1], c);
    }
  }
}
