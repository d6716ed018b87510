/** Where the slope ratio -leftSlope / rightSlope falls against a pair of thresholds:
    the comparison both turn classifiers are built on. */
module Curvature {

  /** Below the low threshold, above the high one, or neither. */
  datatype Band = Below | Within | Above

  /** The ratio -ls / rs is compared with lo first and with hi second; the result
      is restated without the division, by the sign of rs. */
  function RatioBand(ls: real, rs: real, lo: real, hi: real): (b: Band)
    requires rs != 0.0 && lo <= hi
    ensures b == Below <==> (if rs > 0.0 then -ls < lo * rs else -ls > lo * rs)
    ensures b == Above <==> (if rs > 0.0 then -ls > hi * rs else -ls < hi * rs)
    ensures b == Within <==> (if rs > 0.0 then lo * rs <= -ls <= hi * rs else hi * rs <= -ls <= lo * rs)
  {
    var ratio := -ls / rs;
    RatioVersus(ls, rs, lo);
    RatioVersus(ls, rs, hi);
    if ratio < lo then Below
    else if ratio > hi then Above
    else Within
  }

  /** Comparing -ls / rs with t is comparing -ls with t * rs, the wrong way round when
      rs is negative. */
  lemma RatioVersus(ls: real, rs: real, t: real)
    requires rs != 0.0
    ensures -ls / rs < t <==> (if rs > 0.0 then -ls < t * rs else -ls > t * rs)
    ensures -ls / rs > t <==> (if rs > 0.0 then -ls > t * rs else -ls < t * rs)
  {
    var ratio := -ls / rs;
    assert ratio * rs == -ls;
    if rs > 0.0 {
      assert ratio < t <==> ratio * rs < t * rs;
      assert ratio > t <==> ratio * rs > t * rs;
    } else {
      assert ratio < t <==> ratio * rs > t * rs;
      assert ratio > t <==> ratio * rs < t * rs;
    }
  }
}
