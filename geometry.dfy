/**
 * Box overlap (src/utils/math.ts): intersection-over-union of two axis-aligned
 * boxes, returned as a percentage.
 */
module Geometry {
  import opened Wrappers
  import opened Numbers

  /** An axis-aligned rectangle: top-left corner and size. */
  datatype Box = Box(x: real, y: real, width: real, height: real)

  /** A box whose fields may be NaN, as the prediction file can produce. */
  datatype NumBox = NumBox(x: Num, y: Num, width: Num, height: Num) {
    /** The box when every field is a number. */
    function ToBox(): (b: Option<Box>)
      ensures b.Some? <==> x.Finite? && y.Finite? && width.Finite? && height.Finite?
      ensures b.Some? ==> b.value == Box(x.value, y.value, width.value, height.value)
    {
      if x.Finite? && y.Finite? && width.Finite? && height.Finite?
      then Some(Box(x.value, y.value, width.value, height.value))
      else None
    }
  }

  predicate NonNegative(b: Box) { b.width >= 0.0 && b.height >= 0.0 }

  function Area(b: Box): real { b.width * b.height }

  /** Width of the overlap of the two boxes' x-ranges, clamped at 0. */
  function IntersectionWidth(a: Box, b: Box): (w: real)
    ensures w >= 0.0
  {
    Max(0.0, Min(a.x + a.width, b.x + b.width) - Max(a.x, b.x))
  }

  /** Height of the overlap of the two boxes' y-ranges, clamped at 0. */
  function IntersectionHeight(a: Box, b: Box): (h: real)
    ensures h >= 0.0
  {
    Max(0.0, Min(a.y + a.height, b.y + b.height) - Max(a.y, b.y))
  }

  function IntersectionArea(a: Box, b: Box): (r: real)
    ensures r >= 0.0
  {
    MulNonNegative(IntersectionWidth(a, b), IntersectionHeight(a, b));
    IntersectionWidth(a, b) * IntersectionHeight(a, b)
  }

  /** The area covered by either box; for boxes of non-negative size, at least each box's own area. */
  function UnionArea(a: Box, b: Box): (u: real)
    ensures NonNegative(a) && NonNegative(b) ==> u >= Area(a) && u >= Area(b) && u >= IntersectionArea(a, b)
  {
    assert NonNegative(a) && NonNegative(b) ==>
             IntersectionArea(a, b) <= Area(a) && IntersectionArea(a, b) <= Area(b) by {
      if NonNegative(a) && NonNegative(b) {
        IntersectionWithinArea(a, b);
      }
    }
    Area(a) + Area(b) - IntersectionArea(a, b)
  }

  /**
   * `calculateIoU`: 0 when either box is missing or the union is empty,
   * otherwise the intersection as a percentage of the union.
   */
  function CalculateIoU(box1: Option<Box>, box2: Option<Box>): (r: real)
    ensures box1.None? || box2.None? ==> r == 0.0
    ensures box1.Some? && box2.Some? && UnionArea(box1.value, box2.value) == 0.0 ==> r == 0.0
    ensures box1.Some? && box2.Some? && UnionArea(box1.value, box2.value) != 0.0 ==>
              r * UnionArea(box1.value, box2.value) == 100.0 * IntersectionArea(box1.value, box2.value)
  {
    if box1.None? || box2.None? then 0.0
    else
      var u := UnionArea(box1.value, box2.value);
      if u == 0.0 then 0.0 else (IntersectionArea(box1.value, box2.value) / u) * 100.0
  }

  /**
   * `calculateIoU` on a box whose fields may be NaN: `Math.max`/`Math.min`
   * propagate NaN into the intersection, `unionArea === 0` is then false, and
   * the quotient is NaN.
   */
  function CalculateIoUNum(box1: Box, box2: NumBox): (r: Num)
    ensures r.NaN? <==> box2.ToBox().None?
    ensures r.Finite? ==> r.value == CalculateIoU(Some(box1), box2.ToBox())
  {
    match box2.ToBox()
    case None => NaN
    case Some(b) => Finite(CalculateIoU(Some(box1), Some(b)))
  }

  // ---------------------------------------------------------------------------
  // Properties

  lemma MulNonNegative(p: real, q: real)
    requires p >= 0.0 && q >= 0.0
    ensures p * q >= 0.0
  {
  }

  lemma MulMonotone(p: real, q: real, r: real, s: real)
    requires 0.0 <= p <= r && 0.0 <= q <= s
    ensures p * q <= r * s
  {
    assert p * q <= r * q;
    assert r * q <= r * s;
  }

  /** Swapping the arguments does not change the overlap. */
  lemma IoUSymmetric(a: Option<Box>, b: Option<Box>)
    ensures CalculateIoU(a, b) == CalculateIoU(b, a)
  {
    if a.Some? && b.Some? {
      assert IntersectionWidth(a.value, b.value) == IntersectionWidth(b.value, a.value);
      assert IntersectionHeight(a.value, b.value) == IntersectionHeight(b.value, a.value);
    }
  }

  /** The overlap of two boxes is no larger than either box. */
  lemma IntersectionWithinArea(a: Box, b: Box)
    requires NonNegative(a) && NonNegative(b)
    ensures IntersectionArea(a, b) <= Area(a)
    ensures IntersectionArea(a, b) <= Area(b)
  {
    var w, h := IntersectionWidth(a, b), IntersectionHeight(a, b);
    assert w <= a.width && w <= b.width;
    assert h <= a.height && h <= b.height;
    MulMonotone(w, h, a.width, a.height);
    MulMonotone(w, h, b.width, b.height);
  }

  /** For boxes of non-negative size the result is a percentage in [0, 100]. */
  lemma IoURange(a: Option<Box>, b: Option<Box>)
    requires a.Some? ==> NonNegative(a.value)
    requires b.Some? ==> NonNegative(b.value)
    ensures 0.0 <= CalculateIoU(a, b) <= 100.0
  {
    if a.Some? && b.Some? {
      var i := IntersectionArea(a.value, b.value);
      var u := UnionArea(a.value, b.value);
      IntersectionWithinArea(a.value, b.value);
      MulNonNegative(a.value.width, a.value.height);
      assert i <= u;
      if u != 0.0 {
        QuotientBounds(i, u);
      }
    }
  }

  lemma QuotientBounds(i: real, u: real)
    requires 0.0 <= i <= u && u > 0.0
    ensures 0.0 <= (i / u) * 100.0 <= 100.0
  {
    var q := i / u;
    assert q * u == i;
    assert q <= 1.0;
  }

  /** Boxes that do not overlap on one of the axes have overlap 0. */
  lemma IoUDisjoint(a: Box, b: Box)
    requires a.x + a.width <= b.x || b.x + b.width <= a.x
          || a.y + a.height <= b.y || b.y + b.height <= a.y
    ensures CalculateIoU(Some(a), Some(b)) == 0.0
  {
    assert IntersectionWidth(a, b) == 0.0 || IntersectionHeight(a, b) == 0.0;
    assert IntersectionArea(a, b) == 0.0;
  }

  /** A box of positive area overlaps itself completely. */
  lemma IoUSelf(a: Box)
    requires a.width > 0.0 && a.height > 0.0
    ensures CalculateIoU(Some(a), Some(a)) == 100.0
  {
    assert IntersectionWidth(a, a) == a.width;
    assert IntersectionHeight(a, a) == a.height;
    assert Area(a) > 0.0;
    assert IntersectionArea(a, a) == Area(a);
    assert UnionArea(a, a) == Area(a);
    assert Area(a) / Area(a) == 1.0;
  }
}
