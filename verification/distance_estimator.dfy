/** The stateful rail tracker: each frame's segments are clustered into per-frame rail
    estimates, pushed onto bounded per-side histories, and the exposed rail models are
    the means of those histories; the models give a distance estimate for an image row
    and a classification of the track's curvature. */
module DistanceEstimator {
  import opened LineModel
  import opened Grouping
  import opened RailClusterer
  import opened Smoothing
  import opened Curvature

  /** The curvature classification of the track. */
  datatype Trajectory = LeftCurve | RightCurve | StraightTrack {
    /** The text reported for the classification; it never reads as the error text. */
    function Label(): (s: string)
      ensures s != NoLinesDetected
    {
      match this
      case LeftCurve => "Left Curve"
      case RightCurve => "Right Curve"
      case StraightTrack => "Straight Track"
    }
  }

  /** The text reported when a rail model is unset. */
  const NoLinesDetected: string := "Error: No Lines Detected"

  /** The tracker state: the exposed rail models, their histories, the last
      classification, the history capacity and the distance to the bottom row. */
  datatype Estimator = Estimator(
    left: Option<Line>,
    right: Option<Line>,
    leftHistory: History,
    rightHistory: History,
    trajectory: Option<Trajectory>,
    dequeLength: nat,
    d0: real)

  /** The answer of the curvature classifier, and the state it leaves. */
  datatype TurnOutcome = TurnOutcome(state: Estimator, answer: Option<Trajectory>)

  /** The text the classifier returns: the error text exactly when there is no
      classification, and the classification's label otherwise. */
  function AnswerText(answer: Option<Trajectory>): (s: string)
    ensures answer.None? <==> s == NoLinesDetected
    ensures answer.Some? ==> s == answer.value.Label()
  {
    match answer
    case None => NoLinesDetected
    case Some(t) => t.Label()
  }

  /** No two answers of the classifier read the same, so the returned text determines
      the answer. */
  lemma AnswerTextIdentifiesAnswer(a: Option<Trajectory>, b: Option<Trajectory>)
    ensures AnswerText(a) == AnswerText(b) <==> a == b
  {
  }

  /** The answer of the distance estimator. */
  datatype DistanceReport = Estimate(distance: real) | NoLines

  /** The text the distance estimator returns in place of a number: the error text
      exactly when there is no estimate, and none when a distance is returned. */
  function ReportText(r: DistanceReport): (s: Option<string>)
    ensures s.Some? <==> r.NoLines?
    ensures s.Some? ==> s.value == NoLinesDetected
  {
    if r.NoLines? then Some(NoLinesDetected) else None
  }

  /** A frame: the detected segments and the k-means labelling of their rows. */
  datatype Frame = Frame(segments: seq<Segment>, kmeansLabels: seq<nat>)

  function ModelOf(st: Estimator, side: Side): Option<Line> {
    match side
    case Left => st.left
    case Right => st.right
  }

  function HistoryOf(st: Estimator, side: Side): History {
    match side
    case Left => st.leftHistory
    case Right => st.rightHistory
  }

  /** Every stored slope lies beyond the dead zone on the given side. */
  predicate AllBeyond(side: Side, slopes: seq<real>) {
    forall i :: 0 <= i < |slopes| ==> BeyondDeadZone(side, slopes[i])
  }

  /** The models and histories of both sides stay beyond the dead zone. */
  predicate SidesBeyond(st: Estimator) {
    && AllBeyond(Left, st.leftHistory.slopes)
    && AllBeyond(Right, st.rightHistory.slopes)
    && (st.left.Some? ==> st.left.value.slope < -DeadZone)
    && (st.right.Some? ==> st.right.value.slope > DeadZone)
  }

  /** The classification of the slopes of two rail models, with thresholds 0.8 and 1.2
      on the ratio -leftSlope / rightSlope. */
  function Classify(ls: real, rs: real): (t: Trajectory)
    requires rs != 0.0
    ensures rs > 0.0 ==> (t == LeftCurve <==> -ls < 0.8 * rs)
    ensures rs > 0.0 ==> (t == RightCurve <==> -ls > 1.2 * rs)
    ensures rs > 0.0 ==> (t == StraightTrack <==> 0.8 * rs <= -ls <= 1.2 * rs)
    ensures rs < 0.0 ==> (t == LeftCurve <==> -ls > 0.8 * rs)
    ensures rs < 0.0 ==> (t == RightCurve <==> -ls < 1.2 * rs)
  {
    match RatioBand(ls, rs, 0.8, 1.2)
    case Below => LeftCurve
    case Above => RightCurve
    case Within => StraightTrack
  }

  /** The classification the current models call for, when both are set. */
  function Current(st: Estimator): Option<Trajectory>
    requires st.right.Some? ==> st.right.value.slope > DeadZone
  {
    if st.left.Some? && st.right.Some? then Some(Classify(st.left.value.slope, st.right.value.slope))
    else None
  }

  /** The invariant of every state reachable from Init: bounded, equally long
      histories; every slope beyond the dead zone on its side; with a positive
      capacity each exposed model is the mean of its history; and the stored
      classification is the one the current models call for. */
  predicate Valid(st: Estimator) {
    && Bounded(st.leftHistory, st.dequeLength)
    && Bounded(st.rightHistory, st.dequeLength)
    && SidesBeyond(st)
    && (st.dequeLength > 0 ==> st.left == Smoothed(st.leftHistory))
    && (st.dequeLength > 0 ==> st.right == Smoothed(st.rightHistory))
    && (st.left.Some? && st.right.Some? ==> st.trajectory == Current(st))
    && (st.dequeLength > 0 ==> st.trajectory == Current(st))
  }

  /** The history capacity a tracker is built with when none is given. */
  const DefaultDequeLength: nat := 10

  /** The distance to the bottom row a tracker is built with when none is given. */
  const DefaultDistToCam: real := 9.5

  /** A new tracker: both models unset, both histories empty, no classification. */
  function Init(dequeLength: nat, distToCam: real): (st: Estimator)
    ensures Valid(st)
    ensures st.left.None? && st.right.None? && st.trajectory.None?
    ensures |st.leftHistory.intercepts| == |st.rightHistory.intercepts| == 0
    ensures st.dequeLength == dequeLength && st.d0 == distToCam
  {
    Estimator(None, None, Empty, Empty, None, dequeLength, distToCam)
  }

  /** The clustering step on the state: both models are first reset, then set from the
      frame's estimates; a side no group went to is unset whatever it was before. */
  function KClusterLines(st: Estimator, segs: seq<Segment>, kmeansLabels: seq<nat>): (r: Estimator)
    requires LabelsFit(segs, kmeansLabels)
    ensures var pts, labels := Points(segs), RowLabels(segs, kmeansLabels);
      && r.left == MeanOrUnset(SideRows(pts, labels, Left))
      && r.right == MeanOrUnset(SideRows(pts, labels, Right))
    ensures r.leftHistory == st.leftHistory && r.rightHistory == st.rightHistory
    ensures r.trajectory == st.trajectory && r.dequeLength == st.dequeLength && r.d0 == st.d0
  {
    var f := ClusterFrame(segs, kmeansLabels);
    st.(left := f.left, right := f.right)
  }

  /** One side of the smoothing step: a set per-frame line is appended to the history;
      a non-empty history then replaces the model by its mean, and an empty one leaves
      the per-frame value in place. */
  function FitSide(h: History, frame: Option<Line>, cap: nat): (r: (History, Option<Line>))
    requires Bounded(h, cap)
    ensures Bounded(r.0, cap)
    ensures frame.None? ==> r.0 == h
    ensures frame.Some? ==> r.0 == Record(h, frame.value, cap)
    ensures cap > 0 ==> r.1 == Smoothed(r.0)
    ensures cap == 0 ==> r.1 == frame
  {
    var h' := if frame.Some? then Record(h, frame.value, cap) else h;
    (h', if |h'.intercepts| > 0 then Smoothed(h') else frame)
  }

  /** Every entry of a window of s is an entry of s. */
  lemma WindowKeepsBeyond(side: Side, s: seq<real>, cap: nat)
    requires AllBeyond(side, s)
    ensures AllBeyond(side, Window(s, cap))
  {
    var w := Window(s, cap);
    forall i | 0 <= i < |w|
      ensures BeyondDeadZone(side, w[i])
    {
      assert w[i] == s[|s| - |w| + i];
    }
  }

  /** Smoothing keeps a side's history and model beyond the dead zone. */
  lemma FitSideKeepsSide(h: History, frame: Option<Line>, cap: nat, side: Side)
    requires Bounded(h, cap)
    requires AllBeyond(side, h.slopes) && (frame.Some? ==> BeyondDeadZone(side, frame.value.slope))
    ensures var r := FitSide(h, frame, cap);
      AllBeyond(side, r.0.slopes) && (r.1.Some? ==> BeyondDeadZone(side, r.1.value.slope))
  {
    var r := FitSide(h, frame, cap);
    if frame.Some? {
      assert AllBeyond(side, h.slopes + [frame.value.slope]);
      WindowKeepsBeyond(side, h.slopes + [frame.value.slope], cap);
    }
    if |r.0.intercepts| > 0 {
      match side
      case Left => AverageBelow(r.0.slopes, -DeadZone);
      case Right => AverageAbove(r.0.slopes, DeadZone);
    }
  }

  /** The smoothing step on both sides. */
  function FitLineEquations(st: Estimator): (r: Estimator)
    requires Bounded(st.leftHistory, st.dequeLength) && Bounded(st.rightHistory, st.dequeLength)
    ensures Bounded(r.leftHistory, r.dequeLength) && Bounded(r.rightHistory, r.dequeLength)
    ensures r.leftHistory == if st.left.Some? then Record(st.leftHistory, st.left.value, st.dequeLength) else st.leftHistory
    ensures r.rightHistory == if st.right.Some? then Record(st.rightHistory, st.right.value, st.dequeLength) else st.rightHistory
    ensures st.dequeLength > 0 ==> r.left == Smoothed(r.leftHistory) && r.right == Smoothed(r.rightHistory)
    ensures st.dequeLength == 0 ==> r.left == st.left && r.right == st.right
    ensures r.trajectory == st.trajectory && r.dequeLength == st.dequeLength && r.d0 == st.d0
  {
    var (lh, l) := FitSide(st.leftHistory, st.left, st.dequeLength);
    var (rh, r) := FitSide(st.rightHistory, st.right, st.dequeLength);
    st.(leftHistory := lh, left := l, rightHistory := rh, right := r)
  }

  /** Smoothing both sides keeps every slope of both sides beyond the dead zone. */
  lemma FitLineEquationsKeepsSides(st: Estimator)
    requires Bounded(st.leftHistory, st.dequeLength) && Bounded(st.rightHistory, st.dequeLength)
    requires SidesBeyond(st)
    ensures SidesBeyond(FitLineEquations(st))
  {
    FitSideKeepsSide(st.leftHistory, st.left, st.dequeLength, Left);
    FitSideKeepsSide(st.rightHistory, st.right, st.dequeLength, Right);
  }

  /** The classification step: with both models set it stores and returns the
      classification; otherwise it returns no answer and changes nothing, so the
      stored classification may be older than the models. */
  function TurnGuesstimation(st: Estimator): (r: TurnOutcome)
    requires st.left.Some? && st.right.Some? ==> st.right.value.slope != 0.0
    ensures r.answer.Some? <==> st.left.Some? && st.right.Some?
    ensures r.answer.Some? ==> r.answer == Some(Classify(st.left.value.slope, st.right.value.slope))
    ensures r.answer.Some? ==> r.state == st.(trajectory := r.answer)
    ensures r.answer.None? ==> r.state == st
  {
    if st.left.Some? && st.right.Some? then
      var t := Classify(st.left.value.slope, st.right.value.slope);
      TurnOutcome(st.(trajectory := Some(t)), Some(t))
    else
      TurnOutcome(st, None)
  }

  /** One frame: with at least one segment, cluster, smooth and classify; with none,
      nothing changes at all. */
  function AnalyzeLines(st: Estimator, segs: seq<Segment>, kmeansLabels: seq<nat>): (r: Estimator)
    requires Valid(st) && LabelsFit(segs, kmeansLabels)
    ensures Valid(r)
    ensures |segs| == 0 ==> r == st
    ensures |segs| > 0 ==>
      var f := ClusterFrame(segs, kmeansLabels);
      && r.leftHistory == (if f.left.Some? then Record(st.leftHistory, f.left.value, st.dequeLength) else st.leftHistory)
      && r.rightHistory == (if f.right.Some? then Record(st.rightHistory, f.right.value, st.dequeLength) else st.rightHistory)
    ensures |segs| > 0 && st.dequeLength == 0 ==>
      var f := ClusterFrame(segs, kmeansLabels);
      r.left == f.left && r.right == f.right
    ensures |segs| > 0 ==>
      r.trajectory == (if r.left.Some? && r.right.Some? then Current(r) else st.trajectory)
    ensures r.dequeLength == st.dequeLength && r.d0 == st.d0
  {
    if |segs| > 0 then
      var fitted := FitLineEquations(KClusterLines(st, segs, kmeansLabels));
      FrameKeepsValid(st, segs, kmeansLabels);
      TurnGuesstimation(fitted).state
    else
      st
  }

  /** Clustering then smoothing a frame leaves a state the classifier accepts, and
      classifying it restores the invariant. */
  lemma FrameKeepsValid(st: Estimator, segs: seq<Segment>, kmeansLabels: seq<nat>)
    requires Valid(st) && LabelsFit(segs, kmeansLabels)
    ensures var fitted := FitLineEquations(KClusterLines(st, segs, kmeansLabels));
      && (fitted.right.Some? ==> fitted.right.value.slope > DeadZone)
      && Valid(TurnGuesstimation(fitted).state)
  {
    var f := ClusterFrame(segs, kmeansLabels);
    var c := KClusterLines(st, segs, kmeansLabels);
    assert c.left == f.left && c.right == f.right;
    assert SidesBeyond(c);
    var fitted := FitLineEquations(c);
    FitLineEquationsKeepsSides(c);
    var t := TurnGuesstimation(fitted).state;
    if st.dequeLength > 0 && !(fitted.left.Some? && fitted.right.Some?) {
      assert !(st.left.Some? && st.right.Some?);
    }
  }

  /** The similar-triangles estimate d0 * w0 / w1, clamped at zero: the distance d at
      which the track appears w1 wide, given that it appears w0 wide at distance d0. */
  function CalculateDistance(d0: real, w0: real, w1: real): (d: real)
    requires w1 != 0.0
    ensures d >= 0.0
    ensures d0 * w0 * w1 >= 0.0 ==> d * w1 == d0 * w0
    ensures d0 * w0 * w1 < 0.0 ==> d == 0.0
  {
    var q := d0 * (w0 / w1);
    assert q * w1 == d0 * w0;
    assert q * (w1 * w1) == d0 * w0 * w1;
    assert w1 * w1 > 0.0;
    if 0.0 > q then 0.0 else q
  }

  /** Equal widths give exactly the reference distance (when it is not negative). */
  lemma EqualWidths(d0: real, w: real)
    requires w != 0.0 && d0 >= 0.0
    ensures CalculateDistance(d0, w, w) == d0
  {
    assert d0 * w * w >= 0.0;
  }

  /** A track twice as wide as at the reference row puts the object at half the
      reference distance. */
  lemma DoubleWidthHalvesDistance(d0: real, w: real)
    requires w != 0.0 && d0 >= 0.0
    ensures CalculateDistance(d0, w, 2.0 * w) == d0 / 2.0
  {
    assert d0 * w * (2.0 * w) >= 0.0;
  }

  /** With positive widths and reference distance, the narrower the track appears at
      a row, the farther away that row is. */
  lemma NarrowerIsFarther(d0: real, w0: real, w1: real, w2: real)
    requires d0 > 0.0 && w0 > 0.0 && 0.0 < w1 < w2
    ensures CalculateDistance(d0, w0, w1) > CalculateDistance(d0, w0, w2)
  {
    var a, b := CalculateDistance(d0, w0, w1), CalculateDistance(d0, w0, w2);
    assert d0 * w0 * w1 > 0.0 && d0 * w0 * w2 > 0.0;
    assert a * w1 == b * w2;
    assert b > 0.0 by {
      assert b * w2 == d0 * w0 > 0.0;
    }
  }

  /** The distance to row y1, with y0 the row at distance d0: unset models give no
      estimate; otherwise the rail widths at the two rows give the estimate. */
  function EstimateDistance(st: Estimator, y0: real, y1: real): (r: DistanceReport)
    requires st.left.Some? && st.right.Some? ==> RailWidth(st.left.value, st.right.value, y1) != 0.0
    ensures r.NoLines? <==> st.left.None? || st.right.None?
    ensures r.Estimate? ==> r.distance >= 0.0
    ensures r.Estimate? ==>
      var w0, w1 := RailWidth(st.left.value, st.right.value, y0), RailWidth(st.left.value, st.right.value, y1);
      && (st.d0 * w0 * w1 >= 0.0 ==> r.distance * w1 == st.d0 * w0)
      && (st.d0 * w0 * w1 < 0.0 ==> r.distance == 0.0)
  {
    if st.left.Some? && st.right.Some? then
      var w0 := XAt(st.right.value, y0) - XAt(st.left.value, y0);
      var w1 := XAt(st.right.value, y1) - XAt(st.left.value, y1);
      Estimate(CalculateDistance(st.d0, w0, w1))
    else
      NoLines
  }

  /** Parallel rails in the image (equal widths everywhere) put every row at the
      reference distance. */
  lemma ParallelRailsGiveReferenceDistance(st: Estimator, y0: real, y1: real)
    requires st.left.Some? && st.right.Some? && st.left.value.slope == st.right.value.slope
    requires st.left.value.intercept != st.right.value.intercept && st.d0 >= 0.0
    ensures EstimateDistance(st, y0, y1) == Estimate(st.d0)
  {
    var l, r := st.left.value, st.right.value;
    var w := r.intercept - l.intercept;
    ParallelWidth(l, r, y0);
    ParallelWidth(l, r, y1);
    EqualWidths(st.d0, w);
  }

  /** The distance estimator and the classifier return the same error text, and in
      the same states: exactly when a rail model is unset. */
  lemma SameErrorText(st: Estimator, y0: real, y1: real)
    requires st.left.Some? && st.right.Some? ==> RailWidth(st.left.value, st.right.value, y1) != 0.0
    requires st.left.Some? && st.right.Some? ==> st.right.value.slope != 0.0
    ensures ReportText(EstimateDistance(st, y0, y1)) == Some(NoLinesDetected)
        <==> AnswerText(TurnGuesstimation(st).answer) == NoLinesDetected
  {
  }

  /** In a valid state the stored classification is the one the current slopes call
      for, restated without division: the right slope is positive there. */
  lemma TrajectoryMeaning(st: Estimator)
    requires Valid(st) && st.left.Some? && st.right.Some?
    ensures var ls, rs := st.left.value.slope, st.right.value.slope;
      && rs > DeadZone
      && (st.trajectory == Some(LeftCurve) <==> -ls < 0.8 * rs)
      && (st.trajectory == Some(RightCurve) <==> -ls > 1.2 * rs)
      && (st.trajectory == Some(StraightTrack) <==> 0.8 * rs <= -ls <= 1.2 * rs)
  {
  }

  /** With a positive capacity, a frame that detects no line for a side leaves that
      side's model as it was: the mean of its unchanged history. */
  lemma MissedDetectionKeepsModel(st: Estimator, segs: seq<Segment>, kmeansLabels: seq<nat>, side: Side)
    requires Valid(st) && LabelsFit(segs, kmeansLabels) && st.dequeLength > 0
    requires SideLine(ClusterFrame(segs, kmeansLabels), side).None?
    ensures ModelOf(AnalyzeLines(st, segs, kmeansLabels), side) == ModelOf(st, side)
    ensures HistoryOf(AnalyzeLines(st, segs, kmeansLabels), side) == HistoryOf(st, side)
  {
  }

  /** All frames carry labels that fit their segments. */
  predicate AllFit(frames: seq<Frame>) {
    forall i :: 0 <= i < |frames| ==> LabelsFit(frames[i].segments, frames[i].kmeansLabels)
  }

  /** A session: the frames analysed in order. */
  function Run(st: Estimator, frames: seq<Frame>): (r: Estimator)
    requires Valid(st) && AllFit(frames)
    ensures Valid(r)
    ensures r.dequeLength == st.dequeLength && r.d0 == st.d0
  {
    if |frames| == 0 then st
    else
      var n := |frames| - 1;
      AnalyzeLines(Run(st, frames[..n]), frames[n].segments, frames[n].kmeansLabels)
  }

  /** The per-frame lines a session detects for a side, in frame order: frames with no
      segments, or with no group on that side, contribute nothing. */
  function Detections(frames: seq<Frame>, side: Side): seq<Line>
    requires AllFit(frames)
  {
    if |frames| == 0 then []
    else
      var n := |frames| - 1;
      var f := frames[n];
      var m := SideLine(ClusterFrame(f.segments, f.kmeansLabels), side);
      Detections(frames[..n], side) + (if |f.segments| > 0 && m.Some? then [m.value] else [])
  }

  /** Over a session, each side's history is its previous history with every detection
      of that side recorded in order. */
  lemma {:induction false} RunRecordsDetections(st: Estimator, frames: seq<Frame>, side: Side)
    requires Valid(st) && AllFit(frames)
    ensures HistoryOf(Run(st, frames), side) == RecordAll(HistoryOf(st, side), Detections(frames, side), st.dequeLength)
    decreases |frames|
  {
    if |frames| > 0 {
      var n := |frames| - 1;
      assert AllFit(frames[..n]);
      RunRecordsDetections(st, frames[..n], side);
      RunStep(st, frames, side);
      DetectionsStep(HistoryOf(st, side), frames, side, st.dequeLength);
    }
  }

  /** Recording a session's detections records the earlier frames' detections, then
      the last frame's, if it has one. */
  lemma DetectionsStep(h: History, frames: seq<Frame>, side: Side, cap: nat)
    requires Bounded(h, cap) && AllFit(frames) && |frames| > 0
    ensures var n := |frames| - 1;
      assert AllFit(frames[..n]);
      var f, ds := frames[n], Detections(frames[..n], side);
      var m := SideLine(ClusterFrame(f.segments, f.kmeansLabels), side);
      RecordAll(h, Detections(frames, side), cap)
        == if |f.segments| > 0 && m.Some? then Record(RecordAll(h, ds, cap), m.value, cap)
           else RecordAll(h, ds, cap)
  {
    var n := |frames| - 1;
    assert AllFit(frames[..n]);
    var f, ds := frames[n], Detections(frames[..n], side);
    var m := SideLine(ClusterFrame(f.segments, f.kmeansLabels), side);
    if |f.segments| > 0 && m.Some? {
      assert Detections(frames, side) == ds + [m.value];
      RecordAllSnoc(h, ds, m.value, cap);
    } else {
      assert Detections(frames, side) == ds;
    }
  }

  /** The last frame of a session records the side's detection, if it has one, in the
      history the earlier frames left. */
  lemma RunStep(st: Estimator, frames: seq<Frame>, side: Side)
    requires Valid(st) && AllFit(frames) && |frames| > 0
    ensures var n := |frames| - 1;
      var prev, f := Run(st, frames[..n]), frames[n];
      var m := SideLine(ClusterFrame(f.segments, f.kmeansLabels), side);
      HistoryOf(Run(st, frames), side)
        == if |f.segments| > 0 && m.Some? then Record(HistoryOf(prev, side), m.value, st.dequeLength)
           else HistoryOf(prev, side)
  {
    var n := |frames| - 1;
    assert AllFit(frames[..n]);
    var prev, f := Run(st, frames[..n]), frames[n];
    assert Run(st, frames) == AnalyzeLines(prev, f.segments, f.kmeansLabels);
    AnalyzeRecords(prev, f.segments, f.kmeansLabels, side);
  }

  /** One frame records the side's detection, if it has one, in the side's history. */
  lemma AnalyzeRecords(st: Estimator, segs: seq<Segment>, kmeansLabels: seq<nat>, side: Side)
    requires Valid(st) && LabelsFit(segs, kmeansLabels)
    ensures var m := SideLine(ClusterFrame(segs, kmeansLabels), side);
      HistoryOf(AnalyzeLines(st, segs, kmeansLabels), side)
        == if |segs| > 0 && m.Some? then Record(HistoryOf(st, side), m.value, st.dequeLength)
           else HistoryOf(st, side)
  {
  }

  /** Over a session, each side's history holds the last dequeLength of everything the
      side ever detected, oldest first, and (with a positive capacity) the side's model
      is their mean. */
  lemma {:induction false} ModelIsMeanOfLastDetections(st: Estimator, frames: seq<Frame>, side: Side)
    requires Valid(st) && AllFit(frames)
    ensures var h, ds := HistoryOf(Run(st, frames), side), Detections(frames, side);
      && h.intercepts == Window(HistoryOf(st, side).intercepts + Intercepts(ds), st.dequeLength)
      && h.slopes == Window(HistoryOf(st, side).slopes + Slopes(ds), st.dequeLength)
      && (st.dequeLength > 0 ==> ModelOf(Run(st, frames), side) == Smoothed(h))
  {
    RunRecordsDetections(st, frames, side);
    RecordAllWindow(HistoryOf(st, side), Detections(frames, side), st.dequeLength);
  }

  /** Once the last dequeLength detections of a side are all the same line, the
      side's model is exactly that line. */
  lemma {:induction false} SteadyModel(st: Estimator, frames: seq<Frame>, side: Side, l: Line, k: nat)
    requires Valid(st) && AllFit(frames) && 0 < st.dequeLength <= k
    requires Detections(frames, side) == seq(k, _ => l)
    ensures ModelOf(Run(st, frames), side) == Some(l)
  {
    RunRecordsDetections(st, frames, side);
    SteadyState(HistoryOf(st, side), l, st.dequeLength, k);
  }
}
