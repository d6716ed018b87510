/** The integer geometry around the Hough line detector: the region of interest cut out
    of a frame (the lower half of the middle fifth) and the shift that carries segments
    found in the cut-out back into the coordinates of the whole frame. The edge and line
    detection itself is an input. */
module LineDetector {
  import opened LineModel

  /** Left column of the region of interest: the start of the middle fifth. */
  function RoiX(width: nat): (x: nat)
    ensures x + RoiWidth(width) <= width
    ensures 5 * x <= 2 * width < 5 * x + 5
  {
    2 * width / 5
  }

  /** Width of the region of interest: a fifth of the frame. */
  function RoiWidth(width: nat): (w: nat)
    ensures 5 * w <= width < 5 * w + 5
  {
    width / 5
  }

  /** First row of the region of interest: the lower half starts at height div 2. */
  function RoiTop(height: nat): (y: nat)
    ensures 2 * y <= height < 2 * y + 2
    ensures y <= height && height - y >= y
  {
    height / 2
  }

  /** Every row of the image holds width pixels. */
  predicate Rectangular<T>(image: seq<seq<T>>, width: nat) {
    forall r :: 0 <= r < |image| ==> |image[r]| == width
  }

  /** The cut-out of an image. */
  datatype Crop<T> = Crop(roi: seq<seq<T>>, x: nat, y: nat)

  /** Cuts rows [height div 2, height) and columns [roi_x, roi_x + roi_width) out of an
      image, and returns them with the column and row the cut-out starts at. */
  function CropImage<T>(image: seq<seq<T>>, width: nat): (c: Crop<T>)
    requires Rectangular(image, width)
    ensures c.x == RoiX(width) && c.y == RoiTop(|image|)
    ensures |c.roi| == |image| - RoiTop(|image|)
    ensures Rectangular(c.roi, RoiWidth(width))
    ensures forall r, col :: 0 <= r < |c.roi| && 0 <= col < RoiWidth(width) ==>
      c.roi[r][col] == image[r + c.y][col + c.x]
  {
    var top, left := RoiTop(|image|), RoiX(width);
    var rows := image[top..];
    Crop(seq(|rows|, i requires 0 <= i < |rows| => rows[i][left..left + RoiWidth(width)]), left, top)
  }

  /** Moves both endpoints of a segment by (dx, dy). */
  function Shift(s: Segment, dx: int, dy: int): (t: Segment)
    ensures t.x2 - t.x1 == s.x2 - s.x1 && t.y2 - t.y1 == s.y2 - s.y1
    ensures Degenerate(t) <==> Degenerate(s)
  {
    Segment(s.x1 + dx, s.y1 + dy, s.x2 + dx, s.y2 + dy)
  }

  /** The offsets added to detected coordinates: the cut-out's origin when cropping,
      none otherwise. */
  function Offsets(height: nat, width: nat, crop: bool): (d: (nat, nat))
    ensures crop ==> d == (RoiX(width), RoiTop(height))
    ensures !crop ==> d == (0, 0)
  {
    if crop then (RoiX(width), RoiTop(height)) else (0, 0)
  }

  /** Whether the detector searches the cut-out rather than the whole frame when the
      caller does not say. */
  const DefaultCrop: bool := true

  /** The segments of a frame in the frame's own coordinates. The frame may be missing
      (unreadable), in which case there is no result; detected holds the segments found
      in the image searched (the cut-out when cropping, the whole frame otherwise). */
  function DetectLinesImage<T>(image: Option<seq<seq<T>>>, width: nat, crop: bool, detected: seq<Segment>)
    : (r: Option<seq<Segment>>)
    requires image.Some? ==> Rectangular(image.value, width)
    ensures r.None? <==> image.None?
    ensures r.Some? ==> |r.value| == |detected|
    ensures r.Some? && !crop ==> r.value == detected
    ensures r.Some? && crop ==> forall i :: 0 <= i < |detected| ==>
      && r.value[i].x1 == detected[i].x1 + RoiX(width) && r.value[i].x2 == detected[i].x2 + RoiX(width)
      && r.value[i].y1 == detected[i].y1 + RoiTop(|image.value|) && r.value[i].y2 == detected[i].y2 + RoiTop(|image.value|)
  {
    if image.None? then None
    else
      var d := Offsets(|image.value|, width, crop);
      var shifted := seq(|detected|, i requires 0 <= i < |detected| => Shift(detected[i], d.0, d.1));
      assert !crop ==> shifted == detected;
      Some(shifted)
  }

  /** Shifting back by the same offsets restores the segment. */
  lemma ShiftInverse(s: Segment, dx: int, dy: int)
    ensures Shift(Shift(s, dx, dy), -dx, -dy) == s
  {
  }

  /** A point of the cut-out, moved by the offsets the detector adds, lands on the
      same pixel of the whole image and inside the region of interest. */
  lemma ShiftHitsSamePixel<T>(image: seq<seq<T>>, width: nat, x: nat, y: nat)
    requires Rectangular(image, width)
    requires var c := CropImage(image, width); y < |c.roi| && x < RoiWidth(width)
    ensures var d := Offsets(|image|, width, true);
      && RoiX(width) <= x + d.0 < RoiX(width) + RoiWidth(width) <= width
      && RoiTop(|image|) <= y + d.1 < |image|
      && CropImage(image, width).roi[y][x] == image[y + d.1][x + d.0]
  {
  }

  /** Every segment found inside the cut-out comes back as a segment inside the
      region of interest of the whole frame, with the same direction. */
  lemma DetectedStayInRegion<T>(image: seq<seq<T>>, width: nat, detected: seq<Segment>)
    requires Rectangular(image, width)
    requires var c := CropImage(image, width);
      forall i :: 0 <= i < |detected| ==> InGrid(detected[i], RoiWidth(width), |c.roi|)
    ensures var r := DetectLinesImage(Some(image), width, true, detected).value;
      forall i :: 0 <= i < |r| ==>
        && InRegion(r[i], RoiX(width), RoiTop(|image|), RoiWidth(width), |image| - RoiTop(|image|))
        && r[i].x2 - r[i].x1 == detected[i].x2 - detected[i].x1
        && r[i].y2 - r[i].y1 == detected[i].y2 - detected[i].y1
  {
    var r := DetectLinesImage(Some(image), width, true, detected).value;
    forall i | 0 <= i < |r|
      ensures InRegion(r[i], RoiX(width), RoiTop(|image|), RoiWidth(width), |image| - RoiTop(|image|))
    {
      assert InGrid(detected[i], RoiWidth(width), |image| - RoiTop(|image|));
    }
  }

  /** Both endpoints lie in the grid [0, w) x [0, h). */
  predicate InGrid(s: Segment, w: int, h: int) {
    InRegion(s, 0, 0, w, h)
  }

  /** Both endpoints lie in the rectangle [x, x + w) x [y, y + h). */
  predicate InRegion(s: Segment, x: int, y: int, w: int, h: int) {
    && x <= s.x1 < x + w && x <= s.x2 < x + w
    && y <= s.y1 < y + h && y <= s.y2 < y + h
  }
}
