/** One frame's rail estimates: every segment becomes an (intercept, slope) row, rows are
    grouped by their cluster label, groups are sent to a rail side by their mean slope,
    and all rows of the groups on a side are pooled and averaged. The cluster labelling
    itself comes from k-means and is an input here. */
module RailClusterer {
  import opened LineModel
  import opened Grouping

  /** One frame's unsmoothed rail estimates; a side no group went to is unset. */
  datatype FrameLines = FrameLines(left: Option<Line>, right: Option<Line>)

  /** The estimate of one side of a frame. */
  function SideLine(f: FrameLines, side: Side): Option<Line> {
    match side
    case Left => f.left
    case Right => f.right
  }

  /** The (intercept, slope) row of every segment, degenerate segments included. */
  function Points(segs: seq<Segment>): seq<Line> {
    seq(|segs|, i requires 0 <= i < |segs| => SlopeIntercept(segs[i]))
  }

  /** k-means supplies one label per row whenever there are at least two rows. */
  predicate LabelsFit(segs: seq<Segment>, kmeansLabels: seq<nat>) {
    |segs| > 1 ==> |kmeansLabels| == |segs|
  }

  /** The labels the rows end up with: every row starts in group 1 and k-means relabels
      the rows only when there are at least two of them. */
  function RowLabels(segs: seq<Segment>, kmeansLabels: seq<nat>): (labels: seq<nat>)
    requires LabelsFit(segs, kmeansLabels)
    ensures |labels| == |segs|
    ensures |segs| <= 1 ==> forall i :: 0 <= i < |labels| ==> labels[i] == 1
    ensures |segs| > 1 ==> labels == kmeansLabels
  {
    if |segs| > 1 then kmeansLabels else seq(|segs|, _ => 1)
  }

  /** The rows of every group that goes to the given side: the reference description of
      what one side's estimate averages over. */
  function SideRows(pts: seq<Line>, labels: seq<nat>, side: Side): seq<Line>
    requires |labels| == |pts|
  {
    Select(pts, labels, SideLabels(pts, labels, side, Bound(labels)))
  }

  /** The column means of some rows, or unset when there are none. */
  function MeanOrUnset(rows: seq<Line>): Option<Line> {
    if |rows| > 0 then Some(MeanLine(rows)) else None
  }

  /** The estimate of one side: the groups going to that side are concatenated in label
      order and the column means are taken over the concatenation. */
  function SideEstimate(pts: seq<Line>, labels: seq<nat>, side: Side): (r: Option<Line>)
    requires |labels| == |pts|
    ensures r == MeanOrUnset(SideRows(pts, labels, side))
    ensures r.Some? ==> BeyondDeadZone(side, r.value.slope)
  {
    var pooled := Pool(pts, labels, side, Bound(labels));
    PoolIsSideRows(pts, labels, side, Bound(labels));
    var rows := SideRows(pts, labels, side);
    assert |pooled| == |multiset(pooled)| == |multiset(rows)| == |rows|;
    if |pooled| > 0 then
      MeanPermutation(pooled, rows);
      Some(MeanLine(pooled))
    else
      None
  }

  /** The clustering step of one frame (k_cluster_lines without the k-means fit). */
  function ClusterFrame(segs: seq<Segment>, kmeansLabels: seq<nat>): (r: FrameLines)
    requires LabelsFit(segs, kmeansLabels)
    ensures var pts, labels := Points(segs), RowLabels(segs, kmeansLabels);
      && r.left == MeanOrUnset(SideRows(pts, labels, Left))
      && r.right == MeanOrUnset(SideRows(pts, labels, Right))
    ensures var pts, labels := Points(segs), RowLabels(segs, kmeansLabels);
      && (r.left.Some? <==> SideLabels(pts, labels, Left, Bound(labels)) != {})
      && (r.right.Some? <==> SideLabels(pts, labels, Right, Bound(labels)) != {})
    ensures r.left.Some? ==> r.left.value.slope < -DeadZone
    ensures r.right.Some? ==> r.right.value.slope > DeadZone
  {
    var pts := Points(segs);
    var labels := RowLabels(segs, kmeansLabels);
    SetOnlyIfLabels(pts, labels, Left);
    SetOnlyIfLabels(pts, labels, Right);
    FrameLines(SideEstimate(pts, labels, Left), SideEstimate(pts, labels, Right))
  }

  /** A side has rows exactly when some group goes to it. */
  lemma SetOnlyIfLabels(pts: seq<Line>, labels: seq<nat>, side: Side)
    requires |labels| == |pts|
    ensures |SideRows(pts, labels, side)| > 0 <==> SideLabels(pts, labels, side, Bound(labels)) != {}
  {
    var S := SideLabels(pts, labels, side, Bound(labels));
    if S != {} {
      var g :| g in S;
      assert |Select(pts, labels, {g})| > 0;
      SelectGrows(pts, labels, {g}, S);
    } else {
      EmptySelect(pts, labels);
    }
  }

  /** Selecting by a larger label set keeps a non-empty selection non-empty. */
  lemma {:induction false} SelectGrows(pts: seq<Line>, labels: seq<nat>, S: set<nat>, T: set<nat>)
    requires |labels| == |pts| && S <= T
    ensures |Select(pts, labels, T)| >= |Select(pts, labels, S)|
    decreases |pts|
  {
    if |pts| > 0 {
      var n := |pts| - 1;
      SelectGrows(pts[..n], labels[..n], S, T);
    }
  }

  /** With a single segment no clustering takes place: the one row forms group 1, and
      the frame estimate is that row on the side its own slope points to. */
  lemma {:induction false} SingleSegment(seg: Segment, kmeansLabels: seq<nat>)
    ensures var p := SlopeIntercept(seg);
      ClusterFrame([seg], kmeansLabels)
        == FrameLines(if p.slope < -DeadZone then Some(p) else None,
                      if p.slope > DeadZone then Some(p) else None)
  {
    var p := SlopeIntercept(seg);
    var pts, labels := Points([seg]), RowLabels([seg], kmeansLabels);
    assert pts == [p] && labels == [1];
    assert Bound(labels) == 2 by {
      assert labels[..0] == [];
    }
    assert Select(pts, labels, {1}) == [p] by {
      assert pts[..0] == [] && labels[..0] == [];
    }
    assert Select(pts, labels, {0}) == [] by {
      assert pts[..0] == [] && labels[..0] == [];
    }
    MeanOfOne(p);
    assert GroupSide(pts, labels, 0) == None;
    assert GroupSide(pts, labels, 1) == SideOf(p.slope);
    forall side: Side
      ensures SideLabels(pts, labels, side, 2)
           == if SideOf(p.slope) == Some(side) then {1} else {}
    {
    }
  }

  /** A degenerate segment is not filtered out: its zero row joins the pool of whichever
      side its group goes to. */
  lemma DegenerateSegmentIsPooled(segs: seq<Segment>, kmeansLabels: seq<nat>, i: nat, side: Side)
    requires LabelsFit(segs, kmeansLabels) && i < |segs| && Degenerate(segs[i])
    requires var pts, labels := Points(segs), RowLabels(segs, kmeansLabels);
      GroupSide(pts, labels, labels[i]) == Some(side)
    ensures Line(0.0, 0.0) in SideRows(Points(segs), RowLabels(segs, kmeansLabels), side)
    ensures SideLine(ClusterFrame(segs, kmeansLabels), side).Some?
  {
    var pts, labels := Points(segs), RowLabels(segs, kmeansLabels);
    assert labels[i] in SideLabels(pts, labels, side, Bound(labels));
    SelectMembership(pts, labels, SideLabels(pts, labels, side, Bound(labels)), i);
  }
}
