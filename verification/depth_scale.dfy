/**
 * The bar-depth scale of drawBars: a linear map with domain [0, maxLocal]
 * and range [0, BAR_SIZE_HEIGHT]. The lower end of the domain is 0, not
 * the column's minLocal.
 */
module DepthScale {

  /** Depth of a bar with `value`; a zero-width domain gives the lower end of the range. */
  function Depth(maxLocal: real, height: real, value: real): (d: real)
    ensures maxLocal != 0.0 ==> d * maxLocal == value * height
  {
    if maxLocal == 0.0 then 0.0 else value * height / maxLocal
  }

  /** The ends of the domain go to the ends of the range. */
  lemma DepthEndpoints(maxLocal: real, height: real)
    requires maxLocal > 0.0
    ensures Depth(maxLocal, height, 0.0) == 0.0
    ensures Depth(maxLocal, height, maxLocal) == height
  {
  }

  /** A larger value never gives a shallower bar. */
  lemma DepthMonotone(maxLocal: real, height: real, v1: real, v2: real)
    requires maxLocal > 0.0 && height >= 0.0
    requires v1 <= v2
    ensures Depth(maxLocal, height, v1) <= Depth(maxLocal, height, v2)
  {
    var d1, d2 := Depth(maxLocal, height, v1), Depth(maxLocal, height, v2);
    assert (d2 - d1) * maxLocal == (v2 - v1) * height;
    assert (v2 - v1) * height >= 0.0;
  }

  /** Values inside the domain give depths inside the range. */
  lemma DepthBounded(maxLocal: real, height: real, v: real)
    requires maxLocal > 0.0 && height >= 0.0
    requires 0.0 <= v <= maxLocal
    ensures 0.0 <= Depth(maxLocal, height, v) <= height
  {
    DepthEndpoints(maxLocal, height);
    DepthMonotone(maxLocal, height, 0.0, v);
    DepthMonotone(maxLocal, height, v, maxLocal);
  }

  /** The value can be read back from the depth when the range is not degenerate. */
  lemma DepthInverse(maxLocal: real, height: real, v: real)
    requires maxLocal > 0.0 && height != 0.0
    ensures Depth(maxLocal, height, v) * maxLocal / height == v
  {
    var d := Depth(maxLocal, height, v);
    assert d * maxLocal == v * height;
  }
}
