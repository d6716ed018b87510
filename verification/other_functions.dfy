/** The earlier, function-style version of the rail geometry: the same formulas as the
    tracker, but with a later group on a side overwriting an earlier one instead of
    being pooled, no clamping of the distance, an error when a side has no group, and
    curvature thresholds 0.9 and 1.1. */
module OtherFunctions {
  import opened LineModel
  import opened Grouping
  import opened Curvature
  import RailClusterer
  import DistanceEstimator

  /** Why the rail lines could not be found: the loop never bound that side's line. */
  datatype FitError = LeftLineUnbound | RightLineUnbound

  datatype Result<T> = Success(value: T) | Failure(error: FitError)

  /** The two rail lines of a frame. */
  datatype Rails = Rails(left: Line, right: Line)

  /** The turn reported for a pair of slopes. */
  datatype Turn = TurningLeft | TurningRight | StraightAway {
    /** The text returned for the turn. */
    function Label(): string {
      match this
      case TurningLeft => "turning left"
      case TurningRight => "turning right"
      case StraightAway => "straight away"
    }
  }

  /** The pair [slope, intercept] of a segment: the same line as the tracker's, listed
      slope first. */
  function SlopeIntercept(seg: Segment): (r: (real, real))
    ensures !Degenerate(seg) ==> Through(Line(r.1, r.0), seg.x1, seg.y1) && Through(Line(r.1, r.0), seg.x2, seg.y2)
    ensures Degenerate(seg) ==> r == (0.0, 0.0)
    ensures r == (LineModel.SlopeIntercept(seg).slope, LineModel.SlopeIntercept(seg).intercept)
  {
    if seg.y2 - seg.y1 != 0 then
      var slope := (seg.x2 - seg.x1) as real / (seg.y2 - seg.y1) as real;
      var r := (slope, seg.x1 as real - slope * seg.y1 as real);
      assert Line(r.1, r.0) == LineModel.SlopeIntercept(seg);
      r
    else
      (0.0, 0.0)
  }

  /** The column of the line with the given slope and intercept at row y. */
  function CalculateX(y: real, slope: real, intercept: real): (x: real)
    ensures x == XAt(Line(intercept, slope), y)
  {
    y * slope + intercept
  }

  /** The same column computation, with the arguments in another order. */
  function FindX(slope: real, intercept: real, y: real): (x: real)
    ensures x == CalculateX(y, slope, intercept)
    ensures x == XAt(Line(intercept, slope), y)
  {
    y * slope + intercept
  }

  /** The similar-triangles estimate d0 * w0 / w1 without clamping. */
  function CalculateDistance(w0: real, w1: real, d0: real): (d: real)
    requires w1 != 0.0
    ensures d * w1 == d0 * w0
    ensures w0 == w1 ==> d == d0
    ensures w1 == 2.0 * w0 ==> d == d0 / 2.0
  {
    d0 * (w0 / w1)
  }

  /** Group g is the last group below k (in label order) that goes to the side. */
  predicate IsLastOnSide(pts: seq<Line>, labels: seq<nat>, side: Side, k: nat, g: nat)
    requires |labels| == |pts|
  {
    && g < k && |Select(pts, labels, {g})| > 0 && GroupSide(pts, labels, g) == Some(side)
    && forall h: nat :: g < h < k ==> GroupSide(pts, labels, h) != Some(side)
  }

  /** The group whose line a side ends up with when groups 0 .. k-1 are visited in
      ascending order and each group going to the side overwrites the one before. */
  function LastGroup(pts: seq<Line>, labels: seq<nat>, side: Side, k: nat): (r: Option<nat>)
    requires |labels| == |pts|
    ensures r.None? <==> forall g: nat :: g < k ==> GroupSide(pts, labels, g) != Some(side)
    ensures r.Some? ==> IsLastOnSide(pts, labels, side, k, r.value)
  {
    if k == 0 then None
    else
      var prev := LastGroup(pts, labels, side, k - 1);
      if GroupSide(pts, labels, k - 1) == Some(side) then Some(k - 1) else prev
  }

  /** At most one group is the last to go to a side. */
  lemma LastOnSideUnique(pts: seq<Line>, labels: seq<nat>, side: Side, k: nat, g: nat, g': nat)
    requires |labels| == |pts|
    requires IsLastOnSide(pts, labels, side, k, g) && IsLastOnSide(pts, labels, side, k, g')
    ensures g == g'
  {
  }

  /** The left and right rail lines of labelled rows: for each side, the mean of the
      last group going to that side; the left side is checked first. */
  function FindLineEquations(pts: seq<Line>, labels: seq<nat>): (r: Result<Rails>)
    requires |labels| == |pts|
    ensures r == Failure(LeftLineUnbound) <==>
      forall g: nat :: g < Bound(labels) ==> GroupSide(pts, labels, g) != Some(Left)
    ensures r == Failure(RightLineUnbound) <==>
      && (exists g: nat :: g < Bound(labels) && GroupSide(pts, labels, g) == Some(Left))
      && (forall g: nat :: g < Bound(labels) ==> GroupSide(pts, labels, g) != Some(Right))
    ensures r.Success? ==> r.value.left.slope < -DeadZone && r.value.right.slope > DeadZone
    ensures r.Success? ==> forall g: nat ::
      IsLastOnSide(pts, labels, Left, Bound(labels), g) ==> r.value.left == GroupMean(pts, labels, g)
    ensures r.Success? ==> forall g: nat ::
      IsLastOnSide(pts, labels, Right, Bound(labels), g) ==> r.value.right == GroupMean(pts, labels, g)
  {
    var k := Bound(labels);
    var left := LastGroup(pts, labels, Left, k);
    var right := LastGroup(pts, labels, Right, k);
    if left.None? then Failure(LeftLineUnbound)
    else if right.None? then Failure(RightLineUnbound)
    else
      var l, r := left.value, right.value;
      forall g: nat | IsLastOnSide(pts, labels, Left, k, g) ensures g == l {
        LastOnSideUnique(pts, labels, Left, k, g, l);
      }
      forall g: nat | IsLastOnSide(pts, labels, Right, k, g) ensures g == r {
        LastOnSideUnique(pts, labels, Right, k, g, r);
      }
      Success(Rails(GroupMean(pts, labels, l), GroupMean(pts, labels, r)))
  }

  /** The rail widths at rows y0 and y1 of the found lines fed to the unclamped
      estimate; a missing side is reported as the error of FindLineEquations. */
  function DistanceEstimation(pts: seq<Line>, labels: seq<nat>, y0: real, y1: real, d0: real): (r: Result<real>)
    requires |labels| == |pts|
    requires var rails := FindLineEquations(pts, labels);
      rails.Success? ==> RailWidth(rails.value.left, rails.value.right, y1) != 0.0
    ensures r.Failure? <==> FindLineEquations(pts, labels).Failure?
    ensures r.Failure? ==> r.error == FindLineEquations(pts, labels).error
    ensures r.Success? ==> var rails := FindLineEquations(pts, labels).value;
      r.value == CalculateDistance(RailWidth(rails.left, rails.right, y0), RailWidth(rails.left, rails.right, y1), d0)
  {
    var rails := FindLineEquations(pts, labels);
    if rails.Failure? then Failure(rails.error)
    else
      var left, right := rails.value.left, rails.value.right;
      Success(CalculateDistance(RailWidth(left, right, y0), RailWidth(left, right, y1), d0))
  }

  /** The turn the slope ratio -leftSlope / rightSlope calls for, with thresholds 0.9
      and 1.1. */
  function TurnGuesstimation(leftSlope: real, rightSlope: real): (t: Turn)
    requires rightSlope != 0.0
    ensures rightSlope > 0.0 ==> (t == TurningLeft <==> -leftSlope < 0.9 * rightSlope)
    ensures rightSlope > 0.0 ==> (t == TurningRight <==> -leftSlope > 1.1 * rightSlope)
    ensures rightSlope > 0.0 ==> (t == StraightAway <==> 0.9 * rightSlope <= -leftSlope <= 1.1 * rightSlope)
    ensures rightSlope < 0.0 ==> (t == TurningLeft <==> -leftSlope > 0.9 * rightSlope)
    ensures rightSlope < 0.0 ==> (t == TurningRight <==> -leftSlope < 1.1 * rightSlope)
  {
    match RatioBand(leftSlope, rightSlope, 0.9, 1.1)
    case Below => TurningLeft
    case Above => TurningRight
    case Within => StraightAway
  }

  /** The three returned texts differ, so the text determines the turn. */
  lemma TurnLabelIdentifiesTurn(a: Turn, b: Turn)
    ensures a.Label() == b.Label() <==> a == b
  {
  }

  /** The tracker's wider straight band contains this one: a curve for the tracker is
      a turn the same way here, and straight here is straight for the tracker. */
  lemma TurnBandsNest(leftSlope: real, rightSlope: real)
    requires rightSlope != 0.0
    ensures DistanceEstimator.Classify(leftSlope, rightSlope) == DistanceEstimator.LeftCurve ==>
      TurnGuesstimation(leftSlope, rightSlope) == TurningLeft
    ensures DistanceEstimator.Classify(leftSlope, rightSlope) == DistanceEstimator.RightCurve ==>
      TurnGuesstimation(leftSlope, rightSlope) == TurningRight
    ensures TurnGuesstimation(leftSlope, rightSlope) == StraightAway ==>
      DistanceEstimator.Classify(leftSlope, rightSlope) == DistanceEstimator.StraightTrack
  {
  }

  /** Where the tracker's estimate is not clamped, the two distance formulas agree. */
  lemma DistanceFormulasAgree(w0: real, w1: real, d0: real)
    requires w1 != 0.0
    ensures var d := CalculateDistance(w0, w1, d0);
      DistanceEstimator.CalculateDistance(d0, w0, w1) == if d >= 0.0 then d else 0.0
  {
    var d := CalculateDistance(w0, w1, d0);
    var e := DistanceEstimator.CalculateDistance(d0, w0, w1);
    assert d * (w1 * w1) == d0 * w0 * w1;
    assert w1 * w1 > 0.0;
    if d0 * w0 * w1 >= 0.0 {
      assert e * w1 == d * w1;
    }
  }

  /** When exactly one group goes to a side, overwriting and pooling give the same
      line for that side. */
  lemma {:induction false} OneGroupPerSideAgrees(pts: seq<Line>, labels: seq<nat>, side: Side, g: nat)
    requires |labels| == |pts|
    requires SideLabels(pts, labels, side, Bound(labels)) == {g}
    ensures LastGroup(pts, labels, side, Bound(labels)) == Some(g)
    ensures |Select(pts, labels, {g})| > 0
    ensures RailClusterer.SideEstimate(pts, labels, side) == Some(GroupMean(pts, labels, g))
  {
    var k := Bound(labels);
    assert g in SideLabels(pts, labels, side, k);
    var r := LastGroup(pts, labels, side, k);
    assert r.value in SideLabels(pts, labels, side, k);
  }

  /** Two groups on the same side: the tracker pools their rows, this version keeps
      only the later group. Left-side rows (10, -1) in group 0 and (20, -1) in group 1
      give intercept 15 when pooled and 20 when overwritten. */
  lemma PoolingDiffersFromOverwrite()
    ensures var pts, labels := [Line(10.0, -1.0), Line(20.0, -1.0)], [0, 1];
      && RailClusterer.SideEstimate(pts, labels, Left) == Some(Line(15.0, -1.0))
      && LastGroup(pts, labels, Left, Bound(labels)) == Some(1)
      && GroupMean(pts, labels, 1) == Line(20.0, -1.0)
  {
    PooledExample();
    OverwrittenExample();
  }

  lemma PooledExample()
    ensures var pts, labels := [Line(10.0, -1.0), Line(20.0, -1.0)], [0, 1];
      RailClusterer.SideEstimate(pts, labels, Left) == Some(Line(15.0, -1.0))
  {
    ExampleSideRows();
    ExampleMean();
  }

  lemma ExampleSideRows()
    ensures var pts, labels := [Line(10.0, -1.0), Line(20.0, -1.0)], [0, 1];
      RailClusterer.SideRows(pts, labels, Left) == pts
  {
    var pts, labels := [Line(10.0, -1.0), Line(20.0, -1.0)], [0, 1];
    TwoLeftGroups();
    assert SideLabels(pts, labels, Left, 2) == {0, 1};
    ExampleSelectBoth();
  }

  lemma ExampleSelectBoth()
    ensures var pts, labels := [Line(10.0, -1.0), Line(20.0, -1.0)], [0, 1];
      Select(pts, labels, {0, 1}) == pts
  {
    var pts, labels := [Line(10.0, -1.0), Line(20.0, -1.0)], [0, 1];
    assert pts[..1] == [Line(10.0, -1.0)] && labels[..1] == [0];
    assert [Line(10.0, -1.0)][..0] == [] && [0][..0] == [];
  }

  lemma ExampleMean()
    ensures MeanLine([Line(10.0, -1.0), Line(20.0, -1.0)]) == Line(15.0, -1.0)
  {
    var pts := [Line(10.0, -1.0), Line(20.0, -1.0)];
    assert pts[..1] == [Line(10.0, -1.0)];
    assert Total([Line(10.0, -1.0)]) == Line(10.0, -1.0) by {
      assert [Line(10.0, -1.0)][..0] == [];
    }
    assert Total(pts) == Line(30.0, -2.0);
  }

  lemma OverwrittenExample()
    ensures var pts, labels := [Line(10.0, -1.0), Line(20.0, -1.0)], [0, 1];
      && LastGroup(pts, labels, Left, Bound(labels)) == Some(1)
      && GroupMean(pts, labels, 1) == Line(20.0, -1.0)
  {
    var pts, labels := [Line(10.0, -1.0), Line(20.0, -1.0)], [0, 1];
    TwoLeftGroups();
    assert LastGroup(pts, labels, Left, 1) == Some(0);
  }

  /** Each row of the example forms its own left-side group. */
  lemma TwoLeftGroups()
    ensures var pts, labels := [Line(10.0, -1.0), Line(20.0, -1.0)], [0, 1];
      && Bound(labels) == 2
      && Select(pts, labels, {0}) == [Line(10.0, -1.0)]
      && Select(pts, labels, {1}) == [Line(20.0, -1.0)]
      && GroupMean(pts, labels, 1) == Line(20.0, -1.0)
      && GroupSide(pts, labels, 0) == Some(Left)
      && GroupSide(pts, labels, 1) == Some(Left)
  {
    var pts, labels := [Line(10.0, -1.0), Line(20.0, -1.0)], [0, 1];
    assert pts[..1] == [Line(10.0, -1.0)] && labels[..1] == [0];
    assert [Line(10.0, -1.0)][..0] == [] && [0][..0] == [];
    assert Bound(labels) == 2;
    assert Select(pts, labels, {0}) == [Line(10.0, -1.0)];
    assert Select(pts, labels, {1}) == [Line(20.0, -1.0)];
    MeanOfOne(Line(10.0, -1.0));
    MeanOfOne(Line(20.0, -1.0));
  }
}
