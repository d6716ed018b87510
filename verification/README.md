# Rail geometry of a railway obstacle-distance estimator

This project models the track-geometry core of a camera-based railway distance estimator.
Line segments that a Hough transform detects in a video frame are turned into rail lines
of the form `x = intercept + slope * y`. Rows are grouped by a k-means labelling, and each
group goes to the left or right rail by its mean slope, with a dead zone of ±0.05 where a
group goes to neither rail. Each rail keeps a bounded history of per-frame lines, and the
rail model it exposes is the mean of that history. The two rail models give:

- the distance to an image row, by similar triangles on the rail widths, clamped at 0;
- a left curve / right curve / straight classification, from the ratio
  `-leftSlope / rightSlope`.

Modules:

- `LineModel`: segments, lines, and a segment's slope and intercept. It also holds
  column sums and means, with their invariance under reordering of the rows.
- `Grouping`: the dead zone and rail sides, selecting rows by label, and pooling the
  groups that go to a side.
- `RailClusterer`: the clustering step of one frame (`k_cluster_lines` minus the k-means
  fit).
- `Smoothing`: the bounded FIFO histories (`deque(maxlen=N)`) and their running mean.
- `Curvature`: the ratio-against-thresholds comparison, restated without division.
- `DistanceEstimator`: the tracker state (`DistanceEstimator` class) and its steps
  `analyze_lines`, `fit_line_equations`, `estimate_distance`, `calculate_distance` and
  `turn_guesstimation`. It also holds the invariant `Valid` of every reachable state, and
  whole-session properties.
- `OtherFunctions`: the earlier function-style version. A later group on a side
  overwrites an earlier one instead of being pooled, the distance is not clamped, a
  missing side is an error, and the curve thresholds are 0.9 and 1.1.
- `LineDetector`: the region-of-interest crop and the coordinate shift that carries
  segments found in the crop back into the frame.

The k-means labelling is an input (`kmeansLabels`), and so are the segments that the Hough
transform finds. Groups are visited in ascending label order, which is the order
`np.unique` gives. A label that no row carries forms an empty group, and an empty group
goes to no side.

The defaults `deque_length = 10` and `dist_to_cam = 9.5` of a new tracker, and `crop = True`
of the line detector, are the constants `DistanceEstimator.DefaultDequeLength`,
`DistanceEstimator.DefaultDistToCam` and `LineDetector.DefaultCrop`. The operations take
these values as parameters, so the properties hold for any choice.

In these places the code behaves in ways a reader might not expect, and the model keeps
the code's behaviour:

- A segment with `y1 == y2` is not excluded. It becomes the row `(0, 0)` and is clustered
  like any other row (`RailClusterer.DegenerateSegmentIsPooled`).
- A single segment is not rejected as too little data. It forms group 1 and gives a rail
  line when its slope leaves the dead zone (`RailClusterer.SingleSegment`).
- A zero rail width or zero right slope is not guarded; the code divides by it
  directly. The model asks for a nonzero divisor in the distance functions.
  For the curve classifier in the tracker, `Valid` proves the right slope is above 0.05
  in every reachable state, so that division is always defined there.
- With `deque_length = 0` the histories stay empty and the exposed model is the frame's
  own estimate. A frame in which only one side is detected then leaves the stored
  classification as it was, while the models change; `Valid` reflects this.

## Model

| member | source | states |
|---|---|---|
| LineModel.SlopeIntercept | run_files/functions/distance_functions.py:96-112 | for a segment with y1 ≠ y2 the line passes through both endpoints; with y1 = y2 it is the row (0, 0) |
| LineModel.ThroughBothIffSlopeIntercept | run_files/functions/distance_functions.py:107-110 | for y1 ≠ y2, a line passes through both endpoints if and only if it is the computed line |
| LineModel.XAtInterpolates | run_files/functions/distance_functions.py:165-166 | the column `calculate_x` gives at any row on a segment's line is the linear interpolation between the segment's endpoints |
| LineModel.ParallelWidth | run_files/functions/distance_functions.py:154-158 | two rails of equal slope are the same width apart at every row: the difference of their intercepts |
| LineModel.TotalPermutation | run_files/functions/distance_functions.py:78-93 | the column sums of the pooled rows do not depend on the order in which the groups were concatenated |
| LineModel.MeanPermutation | run_files/functions/distance_functions.py:87-93 | rows with the same multiset have the same column means |
| LineModel.MeanOfOne | run_files/functions/distance_functions.py:87-89 | the mean of a single row is that row |
| Grouping.SideOf | run_files/functions/distance_functions.py:74-81 | a mean slope below -0.05 goes left, above 0.05 goes right, and one in [-0.05, 0.05] goes to neither side, each as an if-and-only-if |
| Grouping.Bound | run_files/functions/distance_functions.py:72 | every label is below the bound, so visiting groups 0 .. bound-1 visits every label that occurs |
| Grouping.Pool | run_files/functions/distance_functions.py:72-81 | a non-empty pool of the groups that went to a side has its mean slope beyond the dead zone on that side |
| Grouping.PoolIsSideRows | run_files/functions/distance_functions.py:72-81 | the pool holds exactly the rows whose group's mean slope went to that side, as a multiset |
| Grouping.SelectUnion | run_files/functions/distance_functions.py:73 | selecting rows by a disjoint union of labels selects the union of the two selections |
| Grouping.SideLabelsStep | run_files/functions/distance_functions.py:72-81 | visiting one more group adds it to a side exactly when its mean goes to that side |
| RailClusterer.RowLabels | run_files/functions/distance_functions.py:58-66 | with at most one row every row keeps label 1; otherwise the rows carry the k-means labels |
| RailClusterer.SideEstimate | run_files/functions/distance_functions.py:68-93 | a side's estimate is the column mean over the rows of every group going to that side, unset when there are none, and beyond the dead zone |
| RailClusterer.ClusterFrame | run_files/functions/distance_functions.py:45-93 | both sides are reset and then set from pooled means; a side is set if and only if some group goes to it; left slopes are below -0.05 and right slopes above 0.05 |
| RailClusterer.SetOnlyIfLabels | run_files/functions/distance_functions.py:87-93 | a side has rows to average if and only if some group goes to it |
| RailClusterer.SingleSegment | run_files/functions/distance_functions.py:58-66 | one segment is not clustered: its own row is the estimate of the side its slope points to, and the other side is unset |
| RailClusterer.DegenerateSegmentIsPooled | run_files/functions/distance_functions.py:59 | a segment with y1 = y2 contributes the row (0, 0) to the side its group goes to |
| Smoothing.Push | run_files/functions/distance_functions.py:19-24 | appending to a full deque drops the oldest entry; the result is the last maxlen entries and ends with the new one |
| Smoothing.Record | run_files/functions/distance_functions.py:125-127 | the intercept and slope deques are appended together, stay equally long and never exceed the capacity |
| Smoothing.Smoothed | run_files/functions/distance_functions.py:129-132 | the smoothed model is unset exactly when the history is empty, and is otherwise the mean of the intercepts and of the slopes |
| Smoothing.WindowPush | run_files/functions/distance_functions.py:19-20 | pushing onto the last N entries gives the last N entries of the extended sequence |
| Smoothing.RecordAllWindow | run_files/functions/distance_functions.py:125-136 | after any number of pushes each deque holds exactly the last N values ever pushed, in order |
| Smoothing.SteadyState | run_files/functions/distance_functions.py:129-140 | after at least N pushes of the same line the smoothed model is exactly that line |
| Smoothing.SumConstant | run_files/functions/distance_functions.py:131-132 | n copies of x sum to n times x |
| Smoothing.AverageBelow | run_files/functions/distance_functions.py:131-132 | a mean of values all below c is below c |
| Smoothing.AverageAbove | run_files/functions/distance_functions.py:139-140 | a mean of values all above c is above c |
| Curvature.RatioBand | run_files/functions/distance_functions.py:201-205 | the ratio -ls/rs is below the low threshold, above the high one, or between them, each stated without division and by the sign of rs |
| Curvature.RatioVersus | run_files/functions/distance_functions.py:201-202 | comparing -ls/rs with t is comparing -ls with t·rs, reversed when rs is negative |
| DistanceEstimator.Init | run_files/functions/distance_functions.py:8-31 | a new tracker has both models unset, empty histories, no classification, and satisfies the invariant |
| DistanceEstimator.Classify | run_files/functions/distance_functions.py:199-205 | ratio below 0.8 is a left curve, above 1.2 a right curve, otherwise straight, as if-and-only-ifs without division |
| DistanceEstimator.KClusterLines | run_files/functions/distance_functions.py:84-93 | both models are replaced by the frame's pooled means, a side with no group is unset, and histories and classification are untouched |
| DistanceEstimator.FitSide | run_files/functions/distance_functions.py:125-140 | a detected line is recorded, an undetected side keeps its history, and with a positive capacity the model becomes the history's mean |
| DistanceEstimator.FitSideKeepsSide | run_files/functions/distance_functions.py:125-140 | smoothing keeps every stored slope, and the model's slope, beyond the dead zone on its side |
| DistanceEstimator.WindowKeepsBeyond | run_files/functions/distance_functions.py:19-24 | evicting old entries keeps every remaining slope beyond the dead zone |
| DistanceEstimator.FitLineEquations | run_files/functions/distance_functions.py:115-140 | only detected sides are recorded; with a positive capacity the models become the history means, and with capacity 0 they stay the frame's estimates |
| DistanceEstimator.FitLineEquationsKeepsSides | run_files/functions/distance_functions.py:125-140 | when every stored and exposed slope is beyond the dead zone on its side, smoothing both sides keeps it so |
| DistanceEstimator.TurnGuesstimation | run_files/functions/distance_functions.py:189-207 | with both models set the classification is stored and returned; otherwise there is no answer and the state is unchanged |
| DistanceEstimator.AnswerText | run_files/functions/distance_functions.py:199-207 | the classifier returns "Error: No Lines Detected" exactly when a model is unset, and the stored classification's label otherwise |
| DistanceEstimator.AnswerTextIdentifiesAnswer | run_files/functions/distance_functions.py:200-207 | the four texts "Straight Track", "Left Curve", "Right Curve" and the error text are pairwise different, so the text determines the answer |
| DistanceEstimator.AnalyzeLines | run_files/functions/distance_functions.py:33-42 | a frame keeps the invariant; an empty frame changes nothing; otherwise exactly the detected sides are recorded, with capacity 0 the exposed models are the frame's own estimates, and the classification is recomputed when both models are set and kept as it was otherwise |
| DistanceEstimator.FrameKeepsValid | run_files/functions/distance_functions.py:39-42 | after clustering and smoothing the right slope is above 0.05, so the classifier's division is defined, and classifying restores the invariant |
| DistanceEstimator.CalculateDistance | run_files/functions/distance_functions.py:169-185 | the distance is never negative; it solves d·w1 = d0·w0 when that has a non-negative solution and is 0 otherwise |
| DistanceEstimator.EqualWidths | run_files/functions/distance_functions.py:185 | equal widths give exactly the reference distance |
| DistanceEstimator.DoubleWidthHalvesDistance | run_files/functions/distance_functions.py:185 | a track twice as wide gives half the reference distance |
| DistanceEstimator.NarrowerIsFarther | run_files/functions/distance_functions.py:185 | with positive inputs, a narrower track is farther away |
| DistanceEstimator.EstimateDistance | run_files/functions/distance_functions.py:144-166 | unset models give the no-lines answer; otherwise the non-negative similar-triangles distance of the rail widths at the two rows |
| DistanceEstimator.ReportText | run_files/functions/distance_functions.py:160-163 | the estimator returns "Error: No Lines Detected" exactly when it has no estimate, and a number otherwise |
| DistanceEstimator.SameErrorText | run_files/functions/distance_functions.py:152-163 | the distance estimator returns the error text in exactly the states where the classifier does |
| DistanceEstimator.ParallelRailsGiveReferenceDistance | run_files/functions/distance_functions.py:152-166 | rails of equal slope put every row at the reference distance |
| DistanceEstimator.TrajectoryMeaning | run_files/functions/distance_functions.py:199-205 | in a reachable state with both models set, the right slope is above 0.05 and the stored classification matches the slopes' ratio |
| DistanceEstimator.MissedDetectionKeepsModel | run_files/functions/distance_functions.py:125-140 | with a positive capacity, a side not detected in a frame keeps its history and its model |
| DistanceEstimator.Run | run_files/functions/distance_functions.py:33-42 | a session of frames keeps the invariant, the capacity and the reference distance |
| DistanceEstimator.AnalyzeRecords | run_files/functions/distance_functions.py:39-42 | one frame records the side's detection in its history exactly when the frame has segments and the side was detected |
| DistanceEstimator.RunStep | run_files/functions/distance_functions.py:39-42 | the last frame of a session records the side's detection, if any, in the history the earlier frames left |
| DistanceEstimator.RunRecordsDetections | run_files/functions/distance_functions.py:39-42 | over a session each side's history is its old history with every detection of that side recorded in order |
| DistanceEstimator.ModelIsMeanOfLastDetections | run_files/functions/distance_functions.py:125-140 | after a session each history is the last N detections of its side, and the model is their mean |
| DistanceEstimator.SteadyModel | run_files/functions/distance_functions.py:129-140 | once the last N detections of a side are the same line, that side's model is exactly that line |
| OtherFunctions.SlopeIntercept | functions/other_functions.py:5-23 | the pair lists slope first; it is the tracker's line, passes through both endpoints when y1 ≠ y2, and is (0, 0) otherwise |
| OtherFunctions.CalculateX | functions/other_functions.py:25-26 | the column of the line at row y |
| OtherFunctions.FindX | functions/other_functions.py:84-85 | the same column as calculate_x |
| OtherFunctions.CalculateDistance | functions/other_functions.py:28-35 | d·w1 = d0·w0 without clamping; equal widths give d0 and a doubled width gives d0/2 |
| OtherFunctions.LastGroup | functions/other_functions.py:73-81 | the side's line comes from the last group, in label order, whose mean goes to that side; there is none exactly when no group goes there |
| OtherFunctions.LastOnSideUnique | functions/other_functions.py:73-81 | only one group can be the last to go to a side |
| OtherFunctions.FindLineEquations | functions/other_functions.py:65-81 | fails for the left side exactly when no group goes left, and for the right side exactly when one goes left but none right; otherwise each side is the mean of its last group |
| OtherFunctions.DistanceEstimation | functions/other_functions.py:88-108 | a missing side propagates as the same error; otherwise calculate_distance is applied to the rail widths at y0 and y1 of the found lines |
| OtherFunctions.TurnGuesstimation | functions/other_functions.py:111-123 | ratio below 0.9 is turning left, above 1.1 turning right, otherwise straight away, without division |
| OtherFunctions.TurnLabelIdentifiesTurn | functions/other_functions.py:118-123 | "turning left", "turning right" and "straight away" are pairwise different, so the text determines the turn |
| OtherFunctions.TurnBandsNest | functions/other_functions.py:118-123 | a curve for the tracker (0.8/1.2) is a turn the same way here, and straight here is straight for the tracker |
| OtherFunctions.DistanceFormulasAgree | functions/other_functions.py:28-35 | the tracker's distance is this one clamped at 0 |
| OtherFunctions.OneGroupPerSideAgrees | functions/other_functions.py:73-81 | with exactly one group on a side, overwriting and pooling give the same line |
| OtherFunctions.PoolingDiffersFromOverwrite | functions/other_functions.py:76-79 | with two left groups (10, -1) and (20, -1), pooling gives intercept 15 but overwriting keeps 20 |
| LineDetector.RoiX | functions/hough_functions.py:22-23 | the crop starts at 2·width div 5, and the crop's columns stay within the image |
| LineDetector.RoiWidth | functions/hough_functions.py:23 | the crop is width div 5 columns wide |
| LineDetector.RoiTop | functions/hough_functions.py:26-27 | the crop starts at row height div 2, which keeps the lower half |
| LineDetector.CropImage | functions/hough_functions.py:9-32 | the crop has rows [height div 2, height) and the crop's columns; pixel (r, c) of the crop is pixel (r + top, c + roi_x) of the image; the offsets are returned |
| LineDetector.Shift | functions/hough_functions.py:69-72 | shifting keeps a segment's direction vector and whether it is degenerate |
| LineDetector.Offsets | functions/hough_functions.py:46-61 | the offsets are the crop origin when cropping and (0, 0) otherwise |
| LineDetector.DetectLinesImage | functions/hough_functions.py:34-84 | a missing image gives no result; without cropping the segments are unchanged; with cropping every coordinate is shifted by the crop origin |
| LineDetector.ShiftInverse | functions/hough_functions.py:69-72 | shifting back by the same offsets restores the segment |
| LineDetector.ShiftHitsSamePixel | functions/hough_functions.py:30-32 | a crop point plus the offsets is the same pixel of the image, inside the region of interest |
| LineDetector.DetectedStayInRegion | functions/hough_functions.py:56-72 | segments found inside the crop come back inside the region of interest of the frame, with the same direction |

## Left out

- The k-means fit itself (`KMeans(n_clusters=2)` in the tracker, `n_clusters=3` in the
  earlier version) is a library call. Its labelling is an input.
- `k_cluster_lines` and `putting_it_all_together` in `functions/other_functions.py` are a
  3-cluster k-means wrapper and a printing driver. They are not modelled.
- `height_width` in `functions/other_functions.py` only reads an image's shape.
- OpenCV work is not modelled: image reading, Canny, HoughLinesP, drawing, and the video
  loop. The segments HoughLinesP returns are an input.
- LineDetector.DetectLinesImage: returns the shifted list for any number of segments.
  The source squeezes the Hough result (`functions/hough_functions.py:125`), so with no
  segment it raises a TypeError iterating the 0-d array, and with exactly one it raises
  an IndexError at `functions/hough_functions.py:69`, where it indexes a scalar.
- Printing of line equations and of distance and classification results is not modelled.
- Driver scripts, YOLO inference and CSV output are not modelled.
- Floating point is not modelled: all arithmetic is on exact reals, with no rounding,
  inf or nan.
- DistanceEstimator.CalculateDistance: requires a nonzero width at the object row. The
  code divides by it unguarded, and numpy would give inf or nan.
- DistanceEstimator.EstimateDistance: same nonzero-width requirement at row y1.
- OtherFunctions.CalculateDistance: same nonzero-width requirement.
- OtherFunctions.DistanceEstimation: same nonzero-width requirement.
- OtherFunctions.TurnGuesstimation: requires a nonzero right slope. The function is not
  tied to a state that would guarantee one.
- DistanceEstimator.TurnGuesstimation: requires a nonzero right slope when both models are
  set. `Valid` discharges this in every reachable state.
- OtherFunctions.DistanceEstimation: its success clause is phrased through
  `OtherFunctions.CalculateDistance`, not as the product d·w1 = d0·w0. The product form
  is proved in `OtherFunctions.CalculateDistance`.
- The `is None` test in `distance_estimation` is dead code and is not modelled. A missing
  side raises an unbound-variable error in `find_line_equations` before that test runs.
  The model reports that error as a `Failure`, checking the left side first because the
  return statement reads it first.
- `deque_length` is a natural number. A negative value makes `deque` raise, and that is
  not modelled.
- Pixel coordinates are unbounded integers. The 32-bit wrap-around of numpy's in-place
  `+=` on the Hough array is not modelled, because frame coordinates stay far below it.
