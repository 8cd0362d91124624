/** Intersection-over-union of two axis-aligned boxes (calculate_iou). */
module Geometry {

  /** A box given by its corners (x1, y1) and (x2, y2), in that tuple order. */
  datatype Box = Box(x1: real, y1: real, x2: real, y2: real)

  /** The shape the rest of the pipeline expects: the first corner is the smaller one. */
  predicate WellFormed(b: Box) {
    b.x1 <= b.x2 && b.y1 <= b.y2
  }

  function Max(a: real, b: real): real { if a >= b then a else b }

  function Min(a: real, b: real): real { if a <= b then a else b }

  function Area(b: Box): real {
    (b.x2 - b.x1) * (b.y2 - b.y1)
  }

  /** Signed extent of the overlap along x and along y (negative when the boxes are apart). */
  function OverlapX(a: Box, b: Box): real { Min(a.x2, b.x2) - Max(a.x1, b.x1) }

  function OverlapY(a: Box, b: Box): real { Min(a.y2, b.y2) - Max(a.y1, b.y1) }

  /** Intersection area, each side clamped at zero. */
  function IntersectionArea(a: Box, b: Box): (r: real)
    ensures r >= 0.0
    ensures r > 0.0 <==> OverlapX(a, b) > 0.0 && OverlapY(a, b) > 0.0
  {
    MulPositive(Max(0.0, OverlapX(a, b)), Max(0.0, OverlapY(a, b)));
    Max(0.0, OverlapX(a, b)) * Max(0.0, OverlapY(a, b))
  }

  function UnionArea(a: Box, b: Box): real {
    Area(a) + Area(b) - IntersectionArea(a, b)
  }

  /** IoU; 0 when the union area is not positive. It lies in [0, 1] for any two boxes. */
  function Iou(a: Box, b: Box): (r: real)
    ensures 0.0 <= r <= 1.0
  {
    var inter, union := IntersectionArea(a, b), UnionArea(a, b);
    if union > 0.0 then
      RatioBounds(a, b);
      inter / union
    else
      0.0
  }

  /**
   * The quotient IoU returns when the union is positive lies in [0, 1]. A positive
   * intersection forces both boxes to be well formed (x1 < x2 and y1 < y2 on each);
   * otherwise the quotient is 0.
   */
  lemma RatioBounds(a: Box, b: Box)
    requires UnionArea(a, b) > 0.0
    ensures 0.0 <= IntersectionArea(a, b) / UnionArea(a, b) <= 1.0
  {
    DivNonneg(IntersectionArea(a, b), UnionArea(a, b));
    if IntersectionArea(a, b) > 0.0 {
      assert WellFormed(a) && WellFormed(b);
      IntersectionWithinArea(a, b);
      DivAtMostOne(IntersectionArea(a, b), UnionArea(a, b));
    }
  }

  lemma MulPositive(x: real, y: real)
    requires x >= 0.0 && y >= 0.0
    ensures x * y >= 0.0
    ensures x * y > 0.0 <==> x > 0.0 && y > 0.0
  {
    if x > 0.0 && y > 0.0 {
      assert x * y > 0.0 * y;
    }
  }

  lemma MulMonotone(x: real, y: real, u: real, v: real)
    requires 0.0 <= x <= u && 0.0 <= y <= v
    ensures x * y <= u * v
  {
    assert x * y <= u * y;
    assert u * y <= u * v;
  }

  lemma DivNonneg(x: real, y: real)
    requires x >= 0.0 && y > 0.0
    ensures x / y >= 0.0
  {
  }

  lemma DivAtMostOne(x: real, y: real)
    requires 0.0 <= x <= y && y > 0.0
    ensures x / y <= 1.0
  {
    assert x / y * y == x;
  }

  lemma DivPositive(x: real, y: real)
    requires x > 0.0 && y > 0.0
    ensures x / y > 0.0
  {
  }

  /** For well-formed boxes the intersection never exceeds the area of either box. */
  lemma IntersectionWithinArea(a: Box, b: Box)
    requires WellFormed(a) && WellFormed(b)
    ensures IntersectionArea(a, b) <= Area(a)
    ensures IntersectionArea(a, b) <= Area(b)
  {
    IntersectionWithinFirst(a, b);
    IntersectionWithinFirst(b, a);
    assert IntersectionArea(a, b) == IntersectionArea(b, a) by {
      assert OverlapX(a, b) == OverlapX(b, a) && OverlapY(a, b) == OverlapY(b, a);
    }
  }

  lemma IntersectionWithinFirst(a: Box, b: Box)
    requires WellFormed(a)
    ensures IntersectionArea(a, b) <= Area(a)
  {
    MulMonotone(Max(0.0, OverlapX(a, b)), Max(0.0, OverlapY(a, b)), a.x2 - a.x1, a.y2 - a.y1);
  }

  /** IoU does not depend on the order of its arguments. */
  lemma IouSymmetric(a: Box, b: Box)
    ensures Iou(a, b) == Iou(b, a)
  {
    assert OverlapX(a, b) == OverlapX(b, a) && OverlapY(a, b) == OverlapY(b, a);
    assert IntersectionArea(a, b) == IntersectionArea(b, a);
    assert UnionArea(a, b) == UnionArea(b, a);
  }

  /** A box of positive width and height overlaps itself completely. */
  lemma IouSelf(b: Box)
    requires b.x1 < b.x2 && b.y1 < b.y2
    ensures Iou(b, b) == 1.0
  {
    MulPositive(b.x2 - b.x1, b.y2 - b.y1);
    assert IntersectionArea(b, b) == Area(b);
    assert UnionArea(b, b) == Area(b);
  }

  /** Boxes separated along x or along y (touching counts as separated) have IoU 0. */
  lemma IouDisjoint(a: Box, b: Box)
    requires a.x2 <= b.x1 || b.x2 <= a.x1 || a.y2 <= b.y1 || b.y2 <= a.y1
    ensures Iou(a, b) == 0.0
  {
    assert OverlapX(a, b) <= 0.0 || OverlapY(a, b) <= 0.0;
    assert IntersectionArea(a, b) == 0.0;
  }

  /** IoU is positive exactly when the boxes overlap along both axes. */
  lemma IouPositiveIff(a: Box, b: Box)
    ensures Iou(a, b) > 0.0 <==> OverlapX(a, b) > 0.0 && OverlapY(a, b) > 0.0
  {
    var inter, union := IntersectionArea(a, b), UnionArea(a, b);
    if inter > 0.0 {
      assert WellFormed(a) && WellFormed(b);
      IntersectionWithinArea(a, b);
      assert union > 0.0;
      DivPositive(inter, union);
      assert Iou(a, b) == inter / union;
    } else {
      assert inter == 0.0;
      assert Iou(a, b) == 0.0;
    }
  }
}
