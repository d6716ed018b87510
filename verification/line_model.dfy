/** Rail lines in the parametrisation x = intercept + slope * y, the conversion of a
    detector segment into that form, and the sums and means taken over lines. */
module LineModel {

  /** An optional value; None is the "unset" line, never confused with a zero line. */
  datatype Option<T> = None | Some(value: T)

  /** A segment from the line detector: endpoints (x1, y1) and (x2, y2) in pixels. */
  datatype Segment = Segment(x1: int, y1: int, x2: int, y2: int)

  /** The line x = intercept + slope * y. Rails are near-vertical, so x is taken as a
      function of the row y. */
  datatype Line = Line(intercept: real, slope: real)

  /** A segment whose endpoints share a row has no slope in this parametrisation. */
  predicate Degenerate(seg: Segment) {
    seg.y1 == seg.y2
  }

  /** The column of line l at row y. */
  function XAt(l: Line, y: real): real {
    l.intercept + l.slope * y
  }

  /** The width of the track at row y: right rail column minus left rail column. */
  function RailWidth(left: Line, right: Line, y: real): real {
    XAt(right, y) - XAt(left, y)
  }

  /** Two lines of equal slope are the same distance apart at every row: the
      difference of their intercepts. */
  lemma ParallelWidth(left: Line, right: Line, y: real)
    requires left.slope == right.slope
    ensures RailWidth(left, right, y) == right.intercept - left.intercept
  {
    var p := left.slope * y;
    assert XAt(left, y) == left.intercept + p;
    assert XAt(right, y) == right.intercept + p;
  }

  /** Line l passes through the pixel (x, y). */
  predicate Through(l: Line, x: int, y: int) {
    XAt(l, y as real) == x as real
  }

  /** The line through both endpoints of a segment; a degenerate segment yields the
      zero line (0, 0) rather than being rejected. */
  function SlopeIntercept(seg: Segment): (l: Line)
    ensures !Degenerate(seg) ==> Through(l, seg.x1, seg.y1) && Through(l, seg.x2, seg.y2)
    ensures Degenerate(seg) ==> l == Line(0.0, 0.0)
  {
    if seg.y2 - seg.y1 != 0 then
      var dy := (seg.y2 - seg.y1) as real;
      var slope := (seg.x2 - seg.x1) as real / dy;
      assert slope * dy == (seg.x2 - seg.x1) as real;
      var l := Line(seg.x1 as real - slope * seg.y1 as real, slope);
      assert XAt(l, seg.y2 as real) == seg.x1 as real + slope * dy;
      l
    else
      Line(0.0, 0.0)
  }

  /** Along the line of a non-degenerate segment, the column at any row is the linear
      interpolation between the two endpoints: the column moves from x1 by the same
      fraction of x2 - x1 as the row moves from y1 towards y2. */
  lemma XAtInterpolates(seg: Segment, y: real)
    requires !Degenerate(seg)
    ensures (XAt(SlopeIntercept(seg), y) - seg.x1 as real) * (seg.y2 - seg.y1) as real
         == (seg.x2 - seg.x1) as real * (y - seg.y1 as real)
  {
  }

  /** For a non-degenerate segment, SlopeIntercept is the one and only line through
      both endpoints. */
  lemma ThroughBothIffSlopeIntercept(seg: Segment, l: Line)
    requires !Degenerate(seg)
    ensures Through(l, seg.x1, seg.y1) && Through(l, seg.x2, seg.y2) <==> l == SlopeIntercept(seg)
  {
    if Through(l, seg.x1, seg.y1) && Through(l, seg.x2, seg.y2) {
      var dy := (seg.y2 - seg.y1) as real;
      assert l.slope * dy == (seg.x2 - seg.x1) as real;
      assert l.slope == (seg.x2 - seg.x1) as real / dy;
    }
  }

  /** Componentwise sum of two lines. */
  function Add(a: Line, b: Line): Line {
    Line(a.intercept + b.intercept, a.slope + b.slope)
  }

  /** Componentwise sum of a sequence of lines. */
  function Total(ls: seq<Line>): Line {
    if |ls| == 0 then Line(0.0, 0.0) else Add(Total(ls[..|ls| - 1]), ls[|ls| - 1])
  }

  /** Column means of a non-empty sequence of (intercept, slope) rows. */
  function MeanLine(ls: seq<Line>): Line
    requires |ls| > 0
  {
    var t := Total(ls);
    Line(t.intercept / |ls| as real, t.slope / |ls| as real)
  }

  /** Sum of a sequence of reals, left to right. */
  function Sum(xs: seq<real>): real {
    if |xs| == 0 then 0.0 else Sum(xs[..|xs| - 1]) + xs[|xs| - 1]
  }

  /** Arithmetic mean of a non-empty sequence of reals. */
  function Average(xs: seq<real>): real
    requires |xs| > 0
  {
    Sum(xs) / |xs| as real
  }

  /** The intercept column of a sequence of lines. */
  function Intercepts(ls: seq<Line>): seq<real> {
    seq(|ls|, i requires 0 <= i < |ls| => ls[i].intercept)
  }

  /** The slope column of a sequence of lines. */
  function Slopes(ls: seq<Line>): seq<real> {
    seq(|ls|, i requires 0 <= i < |ls| => ls[i].slope)
  }

  lemma {:induction false} TotalAppend(a: seq<Line>, b: seq<Line>)
    ensures Total(a + b) == Add(Total(a), Total(b))
    decreases |b|
  {
    if |b| > 0 {
      var n := |b| - 1;
      assert (a + b)[..|a + b| - 1] == a + b[..n];
      TotalAppend(a, b[..n]);
    } else {
      assert a + b == a;
    }
  }

  /** Removing row j takes exactly one copy of b[j] out of the row multiset. */
  lemma MultisetRemoveAt(b: seq<Line>, j: nat)
    requires j < |b|
    ensures multiset(b[..j] + b[j + 1..]) == multiset(b) - multiset{b[j]}
  {
    assert b == b[..j] + [b[j]] + b[j + 1..];
  }

  /** Removing row j takes b[j] out of the column sums. */
  lemma {:induction false} TotalRemoveAt(b: seq<Line>, j: nat)
    requires j < |b|
    ensures Total(b) == Add(Total(b[..j] + b[j + 1..]), b[j])
  {
    var p, x, q := b[..j], b[j], b[j + 1..];
    assert b == (p + [x]) + q;
    assert Total(b) == Add(Total(p + [x]), Total(q)) by {
      TotalAppend(p + [x], q);
    }
    assert Total(p + [x]) == Add(Total(p), x) by {
      TotalAppend(p, [x]);
      TotalOfOne(x);
    }
    assert Total(p + q) == Add(Total(p), Total(q)) by {
      TotalAppend(p, q);
    }
  }

  /** The column sums of a single row are that row. */
  lemma TotalOfOne(x: Line)
    ensures Total([x]) == x
  {
    assert [x][..0] == [];
  }

  /** The sum of the columns does not depend on the order of the rows. */
  lemma {:induction false} TotalPermutation(a: seq<Line>, b: seq<Line>)
    requires multiset(a) == multiset(b)
    ensures Total(a) == Total(b)
    decreases |a|
  {
    if |a| == 0 {
      assert |b| == |multiset(b)| == 0;
    } else {
      var n := |a| - 1;
      var x := a[n];
      assert a == a[..n] + [x];
      assert multiset(a[..n]) == multiset(a) - multiset{x};
      assert x in multiset(b);
      var j :| 0 <= j < |b| && b[j] == x;
      MultisetRemoveAt(b, j);
      TotalPermutation(a[..n], b[..j] + b[j + 1..]);
      TotalRemoveAt(b, j);
    }
  }

  /** Equal row multisets give equal column means. */
  lemma MeanPermutation(a: seq<Line>, b: seq<Line>)
    requires multiset(a) == multiset(b) && |a| > 0
    ensures |b| == |a| && MeanLine(a) == MeanLine(b)
  {
    assert |a| == |multiset(a)| == |multiset(b)| == |b|;
    TotalPermutation(a, b);
  }

  /** The mean of a single row is that row. */
  lemma MeanOfOne(l: Line)
    ensures MeanLine([l]) == l
  {
    assert [l][..0] == [];
    assert Total([l]) == Add(Total([]), l) == l;
  }

  /** A mean below c means a total below c per row. */
  lemma MeanBelow(t: real, n: nat, c: real)
    requires n > 0 && t / n as real < c
    ensures t < c * n as real
  {
    assert t == (t / n as real) * n as real;
  }

  /** A mean above c means a total above c per row. */
  lemma MeanAbove(t: real, n: nat, c: real)
    requires n > 0 && t / n as real > c
    ensures t > c * n as real
  {
    assert t == (t / n as real) * n as real;
  }
}
