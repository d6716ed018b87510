/** Grouping of (intercept, slope) rows by cluster label, and the assignment of a group
    to a rail side by its mean slope against the dead zone. */
module Grouping {
  import opened LineModel

  /** Mean slopes within [-DeadZone, DeadZone] belong to neither rail. */
  const DeadZone: real := 0.05

  datatype Side = Left | Right

  /** The rail side a group with the given mean slope goes to, if any. */
  function SideOf(meanSlope: real): (s: Option<Side>)
    ensures s == Some(Left) <==> meanSlope < -DeadZone
    ensures s == Some(Right) <==> meanSlope > DeadZone
    ensures s == None <==> -DeadZone <= meanSlope <= DeadZone
  {
    if meanSlope < -0.05 then Some(Left)
    else if meanSlope > 0.05 then Some(Right)
    else None
  }

  /** A slope lies beyond the dead zone on the given side. */
  predicate BeyondDeadZone(side: Side, slope: real) {
    match side
    case Left => slope < -DeadZone
    case Right => slope > DeadZone
  }

  /** A label strictly above every label in the sequence: groups 0 .. Bound(labels) - 1
      cover every row. */
  function Bound(labels: seq<nat>): (k: nat)
    ensures forall i :: 0 <= i < |labels| ==> labels[i] < k
  {
    if |labels| == 0 then 0
    else
      var k := Bound(labels[..|labels| - 1]);
      var last := labels[|labels| - 1];
      if last + 1 > k then last + 1 else k
  }

  /** The rows whose label is in S, in row order (a boolean-mask selection). */
  function Select(pts: seq<Line>, labels: seq<nat>, S: set<nat>): (r: seq<Line>)
    requires |labels| == |pts|
    decreases |pts|
  {
    if |pts| == 0 then []
    else
      var n := |pts| - 1;
      Select(pts[..n], labels[..n], S) + (if labels[n] in S then [pts[n]] else [])
  }

  /** The rail side of group g: the side of its members' mean slope; an empty group
      (a label no row carries) goes nowhere. */
  function GroupSide(pts: seq<Line>, labels: seq<nat>, g: nat): Option<Side>
    requires |labels| == |pts|
  {
    var members := Select(pts, labels, {g});
    if |members| == 0 then None else SideOf(MeanLine(members).slope)
  }

  /** The mean (intercept, slope) of the members of group g. */
  function GroupMean(pts: seq<Line>, labels: seq<nat>, g: nat): Line
    requires |labels| == |pts|
    requires |Select(pts, labels, {g})| > 0
  {
    MeanLine(Select(pts, labels, {g}))
  }

  /** The labels below k whose group goes to the given side. */
  function SideLabels(pts: seq<Line>, labels: seq<nat>, side: Side, k: nat): set<nat>
    requires |labels| == |pts|
  {
    set g: nat | g < k && GroupSide(pts, labels, g) == Some(side)
  }

  /** The groups 0 .. k-1 that go to the given side, concatenated in label order. */
  function Pool(pts: seq<Line>, labels: seq<nat>, side: Side, k: nat): (r: seq<Line>)
    requires |labels| == |pts|
    ensures |r| > 0 ==> BeyondDeadZone(side, Total(r).slope / |r| as real)
  {
    if k == 0 then []
    else
      var prev := Pool(pts, labels, side, k - 1);
      var members := Select(pts, labels, {k - 1});
      if GroupSide(pts, labels, k - 1) == Some(side) then
        PoolStep(prev, members, side);
        prev + members
      else
        prev
  }

  /** Appending a group whose mean is beyond the dead zone to a pool whose mean is
      beyond it keeps the pooled mean beyond it. */
  lemma PoolStep(prev: seq<Line>, members: seq<Line>, side: Side)
    requires |members| > 0 && BeyondDeadZone(side, MeanLine(members).slope)
    requires |prev| > 0 ==> BeyondDeadZone(side, Total(prev).slope / |prev| as real)
    ensures BeyondDeadZone(side, Total(prev + members).slope / |prev + members| as real)
  {
    TotalAppend(prev, members);
    if |prev| == 0 {
      assert Total(prev).slope == 0.0;
    }
    match side
    case Left =>
      WeightedBelow(Total(prev).slope, |prev|, Total(members).slope, |members|, -DeadZone);
    case Right =>
      WeightedAbove(Total(prev).slope, |prev|, Total(members).slope, |members|, DeadZone);
  }

  /** Pooling two groups whose means are below c gives a mean below c. */
  lemma WeightedBelow(tp: real, np: nat, tm: real, nm: nat, c: real)
    requires nm > 0 && tm / nm as real < c
    requires np == 0 ==> tp == 0.0
    requires np > 0 ==> tp / np as real < c
    ensures (tp + tm) / (np + nm) as real < c
  {
    MeanBelow(tm, nm, c);
    if np > 0 {
      MeanBelow(tp, np, c);
    }
    var n := (np + nm) as real;
    assert tp + tm < c * n;
    assert (tp + tm) / n * n == tp + tm;
  }

  /** Pooling two groups whose means are above c gives a mean above c. */
  lemma WeightedAbove(tp: real, np: nat, tm: real, nm: nat, c: real)
    requires nm > 0 && tm / nm as real > c
    requires np == 0 ==> tp == 0.0
    requires np > 0 ==> tp / np as real > c
    ensures (tp + tm) / (np + nm) as real > c
  {
    MeanAbove(tm, nm, c);
    if np > 0 {
      MeanAbove(tp, np, c);
    }
    var n := (np + nm) as real;
    assert tp + tm > c * n;
    assert (tp + tm) / n * n == tp + tm;
  }

  /** Selecting by a disjoint union of label sets selects the union of the rows. */
  lemma {:induction false} SelectUnion(pts: seq<Line>, labels: seq<nat>, S: set<nat>, T: set<nat>)
    requires |labels| == |pts| && S !! T
    ensures multiset(Select(pts, labels, S + T))
         == multiset(Select(pts, labels, S)) + multiset(Select(pts, labels, T))
    decreases |pts|
  {
    if |pts| > 0 {
      var n := |pts| - 1;
      SelectUnion(pts[..n], labels[..n], S, T);
    }
  }

  /** A row is selected exactly when its label is in S. */
  lemma {:induction false} SelectMembership(pts: seq<Line>, labels: seq<nat>, S: set<nat>, i: nat)
    requires |labels| == |pts| && i < |pts|
    ensures labels[i] in S ==> pts[i] in Select(pts, labels, S)
    decreases |pts|
  {
    var n := |pts| - 1;
    if i < n {
      SelectMembership(pts[..n], labels[..n], S, i);
    }
  }

  /** The pool of groups 0 .. k-1 for a side holds exactly the rows whose label is one
      of that side's labels below k. */
  lemma {:induction false} PoolIsSideRows(pts: seq<Line>, labels: seq<nat>, side: Side, k: nat)
    requires |labels| == |pts|
    ensures multiset(Pool(pts, labels, side, k))
         == multiset(Select(pts, labels, SideLabels(pts, labels, side, k)))
  {
    PoolIsSideRowsZero(pts, labels, side);
    var i := 0;
    while i < k
      invariant i <= k
      invariant multiset(Pool(pts, labels, side, i))
             == multiset(Select(pts, labels, SideLabels(pts, labels, side, i)))
    {
      i := i + 1;
      PoolIsSideRowsStep(pts, labels, side, i);
    }
  }

  /** No group below 0: both sides are empty. */
  lemma PoolIsSideRowsZero(pts: seq<Line>, labels: seq<nat>, side: Side)
    requires |labels| == |pts|
    ensures multiset(Pool(pts, labels, side, 0))
         == multiset(Select(pts, labels, SideLabels(pts, labels, side, 0)))
  {
    assert SideLabels(pts, labels, side, 0) == {};
    EmptySelect(pts, labels);
  }

  /** One more group keeps the pool equal, as a multiset, to the side's rows. */
  lemma {:induction false} PoolIsSideRowsStep(pts: seq<Line>, labels: seq<nat>, side: Side, k: nat)
    requires |labels| == |pts| && k > 0
    requires multiset(Pool(pts, labels, side, k - 1))
          == multiset(Select(pts, labels, SideLabels(pts, labels, side, k - 1)))
    ensures multiset(Pool(pts, labels, side, k))
         == multiset(Select(pts, labels, SideLabels(pts, labels, side, k)))
  {
    var prevPool := Pool(pts, labels, side, k - 1);
    var members := Select(pts, labels, {k - 1});
    var prev := SideLabels(pts, labels, side, k - 1);
    SideLabelsStep(pts, labels, side, k);
    if GroupSide(pts, labels, k - 1) == Some(side) {
      assert Pool(pts, labels, side, k) == prevPool + members;
      assert SideLabels(pts, labels, side, k) == prev + {k - 1};
      SelectUnion(pts, labels, prev, {k - 1});
    } else {
      assert Pool(pts, labels, side, k) == prevPool;
      assert SideLabels(pts, labels, side, k) == prev;
    }
  }

  /** The side's labels below k are those below k - 1 plus k - 1 when its group goes
      to that side. */
  lemma SideLabelsStep(pts: seq<Line>, labels: seq<nat>, side: Side, k: nat)
    requires |labels| == |pts| && k > 0
    ensures SideLabels(pts, labels, side, k)
         == SideLabels(pts, labels, side, k - 1)
          + (if GroupSide(pts, labels, k - 1) == Some(side) then {k - 1} else {})
  {
  }

  /** Selecting by the empty label set selects nothing. */
  lemma {:induction false} EmptySelect(pts: seq<Line>, labels: seq<nat>)
    requires |labels| == |pts|
    ensures Select(pts, labels, {}) == []
    decreases |pts|
  {
    if |pts| > 0 {
      EmptySelect(pts[..|pts| - 1], labels[..|pts| - 1]);
    }
  }
}
