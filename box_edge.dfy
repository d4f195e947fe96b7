/**
 * Where a relationship line leaves a corner-based box: the helper
 * `get_box_edge_point`, which professional_dissertation_diagrams.py and
 * professional_uml_class_diagram.py carry as identical copies.
 */
module BoxEdge {
  import opened Geometry

  /** The point on the left or right edge line (the one facing the target)
      reached by sliding from the centre along the centre-to-target ray. */
  function SidePoint(box: CornerBox, target: Point): (p: Point)
    requires target.x != box.Centre().x
    ensures var dx := target.x - box.Centre().x;
      p.x == (if dx > 0.0 then box.x + box.w else box.x)
  {
    var c := box.Centre();
    var dx, dy := target.x - c.x, target.y - c.y;
    Point(if dx > 0.0 then box.x + box.w else box.x, c.y + dy * (box.w / 2.0) / Abs(dx))
  }

  /** The point on the top or bottom edge line facing the target, reached
      the same way. */
  function TopBottomPoint(box: CornerBox, target: Point): (p: Point)
    requires target.y != box.Centre().y
    ensures var dy := target.y - box.Centre().y;
      p.y == (if dy > 0.0 then box.y + box.h else box.y)
  {
    var c := box.Centre();
    var dx, dy := target.x - c.x, target.y - c.y;
    Point(c.x + dx * (box.h / 2.0) / Abs(dy), if dy > 0.0 then box.y + box.h else box.y)
  }

  /** The helper as written.  It picks the left/right edge when the raw
      horizontal offset to the target dominates, the top/bottom edge
      otherwise (ties included), and slides the other coordinate along the
      centre-to-target ray.  A target at the centre divides by zero. */
  function EdgePoint(box: CornerBox, target: Point): (p: Point)
    requires target != box.Centre()
    ensures var dx, dy := target.x - box.Centre().x, target.y - box.Centre().y;
      Abs(dx) > Abs(dy) ==> p.x == (if dx > 0.0 then box.x + box.w else box.x)
    ensures var dx, dy := target.x - box.Centre().x, target.y - box.Centre().y;
      Abs(dx) <= Abs(dy) ==> p.y == (if dy > 0.0 then box.y + box.h else box.y)
  {
    var c := box.Centre();
    if Abs(target.x - c.x) > Abs(target.y - c.y) then SidePoint(box, target)
    else TopBottomPoint(box, target)
  }

  /** The factor by which the helper scales the centre-to-target vector. */
  function RayScale(box: CornerBox, target: Point): real
    requires target != box.Centre()
  {
    var c := box.Centre();
    var dx, dy := target.x - c.x, target.y - c.y;
    if Abs(dx) > Abs(dy) then (box.w / 2.0) / Abs(dx) else (box.h / 2.0) / Abs(dy)
  }

  /** a * c / b stays within [-d, d] when |a| * c <= b * d. */
  lemma ScaledWithin(a: real, b: real, c: real, d: real)
    requires b > 0.0 && c >= 0.0 && Abs(a) * c <= b * d
    ensures -d <= a * c / b <= d
  {
    var q := a * c / b;
    assert q * b == a * c;
  }

  /** A coordinate slid from the middle c of [lo, lo + span] by
      d * (k / 2) / |lead|, where |d| * k <= |lead| * span, stays in that
      interval. */
  lemma SlideWithin(lo: real, span: real, c: real, d: real, k: real, lead: real, p: real)
    requires span > 0.0 && k >= 0.0 && lead != 0.0
    requires Abs(d) * k <= Abs(lead) * span
    requires c == lo + span / 2.0 && p == c + d * (k / 2.0) / Abs(lead)
    ensures lo <= p <= lo + span
  {
    assert Abs(d) * (k / 2.0) <= Abs(lead) * (span / 2.0);
    ScaledWithin(d, Abs(lead), k / 2.0, span / 2.0);
  }

  /** Sliding along a ray: scaling (d, e) by k / |d| moves d by exactly k
      toward d's sign and moves e by e * k / |d|. */
  lemma ScaleBack(k: real, d: real, e: real)
    requires k > 0.0 && d != 0.0
    ensures k / Abs(d) > 0.0
    ensures (k / Abs(d)) * d == (if d > 0.0 then k else -k)
    ensures e * k / Abs(d) == (k / Abs(d)) * e
  {
  }

  /** A point on a left or right edge line, within the box's height, is on
      the boundary. */
  lemma OnVerticalSide(box: CornerBox, p: Point)
    requires p.x == box.x || p.x == box.x + box.w
    requires box.y <= p.y <= box.y + box.h
    ensures box.OnBoundary(p)
  {
  }

  /** A point on a top or bottom edge line, within the box's width, is on
      the boundary. */
  lemma OnHorizontalSide(box: CornerBox, p: Point)
    requires p.y == box.y || p.y == box.y + box.h
    requires box.x <= p.x <= box.x + box.w
    ensures box.OnBoundary(p)
  {
  }

  /** The slid coordinate of SidePoint, unfolded. */
  lemma SidePointY(box: CornerBox, target: Point)
    requires target.x != box.Centre().x
    ensures SidePoint(box, target).y == box.Centre().y
      + (target.y - box.Centre().y) * (box.w / 2.0) / Abs(target.x - box.Centre().x)
  {
  }

  /** The slid coordinate of TopBottomPoint, unfolded. */
  lemma TopBottomPointX(box: CornerBox, target: Point)
    requires target.y != box.Centre().y
    ensures TopBottomPoint(box, target).x == box.Centre().x
      + (target.x - box.Centre().x) * (box.h / 2.0) / Abs(target.y - box.Centre().y)
  {
  }

  /** SidePoint lies on the box's boundary when the target's offsets are in
      no steeper proportion than the box's own: |dy| * w <= |dx| * h. */
  lemma SidePointOnBoundary(box: CornerBox, target: Point)
    requires box.w > 0.0 && box.h > 0.0 && target.x != box.Centre().x
    requires Abs(target.y - box.Centre().y) * box.w <= Abs(target.x - box.Centre().x) * box.h
    ensures box.OnBoundary(SidePoint(box, target))
  {
    var c := box.Centre();
    SidePointY(box, target);
    SlideWithin(box.y, box.h, c.y, target.y - c.y, box.w, target.x - c.x, SidePoint(box, target).y);
    OnVerticalSide(box, SidePoint(box, target));
  }

  /** TopBottomPoint lies on the box's boundary when |dx| * h <= |dy| * w. */
  lemma TopBottomPointOnBoundary(box: CornerBox, target: Point)
    requires box.w > 0.0 && box.h > 0.0 && target.y != box.Centre().y
    requires Abs(target.x - box.Centre().x) * box.h <= Abs(target.y - box.Centre().y) * box.w
    ensures box.OnBoundary(TopBottomPoint(box, target))
  {
    var c := box.Centre();
    TopBottomPointX(box, target);
    SlideWithin(box.x, box.w, c.x, target.x - c.x, box.h, target.y - c.y, TopBottomPoint(box, target).x);
    OnHorizontalSide(box, TopBottomPoint(box, target));
  }

  /** The centre-to-target ray property when the horizontal offset dominates. */
  lemma SideOnRay(box: CornerBox, target: Point)
    requires target != box.Centre() && box.w > 0.0
    requires Abs(target.x - box.Centre().x) > Abs(target.y - box.Centre().y)
    ensures var c, p, t := box.Centre(), EdgePoint(box, target), RayScale(box, target);
      t > 0.0 && p.x - c.x == t * (target.x - c.x) && p.y - c.y == t * (target.y - c.y)
  {
    var c := box.Centre();
    var dx, dy := target.x - c.x, target.y - c.y;
    var hw := box.w / 2.0;
    ScaleBack(hw, dx, dy);
    assert RayScale(box, target) == hw / Abs(dx);
    assert EdgePoint(box, target) == SidePoint(box, target);
    SidePointY(box, target);
  }

  /** The centre-to-target ray property when the vertical offset dominates or ties. */
  lemma TopBottomOnRay(box: CornerBox, target: Point)
    requires target != box.Centre() && box.h > 0.0
    requires Abs(target.x - box.Centre().x) <= Abs(target.y - box.Centre().y)
    ensures var c, p, t := box.Centre(), EdgePoint(box, target), RayScale(box, target);
      t > 0.0 && p.x - c.x == t * (target.x - c.x) && p.y - c.y == t * (target.y - c.y)
  {
    var c := box.Centre();
    var dx, dy := target.x - c.x, target.y - c.y;
    var hh := box.h / 2.0;
    assert dy != 0.0;
    ScaleBack(hh, dy, dx);
    assert RayScale(box, target) == hh / Abs(dy);
    assert EdgePoint(box, target) == TopBottomPoint(box, target);
    TopBottomPointX(box, target);
  }

  /** For every box of positive size the result lies on the centre-to-target
      ray: p - centre = t * (target - centre) for some t > 0. */
  lemma EdgePointOnRay(box: CornerBox, target: Point)
    requires target != box.Centre() && box.w > 0.0 && box.h > 0.0
    ensures var c, p, t := box.Centre(), EdgePoint(box, target), RayScale(box, target);
      t > 0.0 && p.x - c.x == t * (target.x - c.x) && p.y - c.y == t * (target.y - c.y)
  {
    if Abs(target.x - box.Centre().x) > Abs(target.y - box.Centre().y) {
      SideOnRay(box, target);
    } else {
      TopBottomOnRay(box, target);
    }
  }

  /** On a square, comparing |a| * h with |b| * w is comparing |a| with |b|. */
  lemma SquareComparison(a: real, b: real, w: real, h: real)
    requires w == h && w > 0.0
    ensures (Abs(a) * h > Abs(b) * w) == (Abs(a) > Abs(b))
    ensures (Abs(b) * w <= Abs(a) * h) == (Abs(b) <= Abs(a))
  {
    assert Abs(a) * h == Abs(a) * w;
  }

  /** The helper as written takes its left/right branch. */
  lemma EdgePointSide(box: CornerBox, target: Point)
    requires Abs(target.x - box.Centre().x) > Abs(target.y - box.Centre().y)
    ensures target != box.Centre() && target.x != box.Centre().x
    ensures EdgePoint(box, target) == SidePoint(box, target)
  {
  }

  /** The helper as written takes its top/bottom branch. */
  lemma EdgePointTopBottom(box: CornerBox, target: Point)
    requires target != box.Centre()
    requires Abs(target.x - box.Centre().x) <= Abs(target.y - box.Centre().y)
    ensures target.y != box.Centre().y
    ensures EdgePoint(box, target) == TopBottomPoint(box, target)
  {
  }

  /** For a square box the result is on the boundary, within the span of
      the chosen side. */
  lemma SquareEdgePointOnBoundary(box: CornerBox, target: Point)
    requires target != box.Centre() && box.w == box.h && box.w > 0.0
    ensures box.OnBoundary(EdgePoint(box, target))
  {
    var dx, dy := target.x - box.Centre().x, target.y - box.Centre().y;
    if Abs(dx) > Abs(dy) {
      SquareComparison(dx, dy, box.w, box.h);
      EdgePointSide(box, target);
      SidePointOnBoundary(box, target);
    } else {
      SquareComparison(dy, dx, box.h, box.w);
      EdgePointTopBottom(box, target);
      TopBottomPointOnBoundary(box, target);
    }
  }

  /** The helper as written leaves a non-square box: for a 25 x 20 box and a
      target 10 right of and 9 above the centre it picks the right edge but
      returns a point 11.25 above the centre, beyond the half-height 10. */
  lemma EdgePointLeavesWideBox()
    ensures var box := CornerBox(0.0, 0.0, 25.0, 20.0);
      var p := EdgePoint(box, Point(22.5, 19.0));
      p == Point(25.0, 21.25) && !box.OnBoundary(p)
  {
  }

  /** The same pair of boxes that the dissertation ERD links first (User at
      (10, 85, 25, 20), Subscription at (45, 55, 25, 20)): the line leaves
      User's right side below User's bottom. */
  lemma EdgePointLeavesUserBox()
    ensures var user := CornerBox(10.0, 85.0, 25.0, 20.0);
      var subscription := CornerBox(45.0, 55.0, 25.0, 20.0);
      var p := EdgePoint(user, subscription.Centre());
      p.x == 35.0 && p.y < user.y && !user.OnBoundary(p)
  {
  }

  /** The two worked examples: a 10 x 10 box at the origin meets a target due
      right at the right side's midpoint and a target due above at the top
      side's midpoint. */
  lemma EdgePointExamples()
    ensures EdgePoint(CornerBox(0.0, 0.0, 10.0, 10.0), Point(20.0, 5.0)) == Point(10.0, 5.0)
    ensures EdgePoint(CornerBox(0.0, 0.0, 10.0, 10.0), Point(5.0, 20.0)) == Point(5.0, 10.0)
  {
  }

  /** The evidently intended helper: compare the offsets relative to the
      box's proportions, |dx| * h against |dy| * w. */
  function BoundaryPoint(box: CornerBox, target: Point): (p: Point)
    requires target != box.Centre()
    ensures var dx, dy := target.x - box.Centre().x, target.y - box.Centre().y;
      dx != 0.0 && Abs(dx) * box.h > Abs(dy) * box.w ==>
        p.x == (if dx > 0.0 then box.x + box.w else box.x)
  {
    var c := box.Centre();
    var dx, dy := target.x - c.x, target.y - c.y;
    if dx != 0.0 && Abs(dx) * box.h > Abs(dy) * box.w then SidePoint(box, target)
    else if dy != 0.0 then TopBottomPoint(box, target)
    else
      // reached only by a box of zero height: the target is level with the centre
      Point(if dx > 0.0 then box.x + box.w else box.x, c.y)
  }

  /** On the top/bottom branch of the corrected helper the target is off
      the centre's level, and its comparison holds the other way. */
  lemma TopBottomBranch(dx: real, dy: real, w: real, h: real)
    requires w > 0.0 && h > 0.0 && (dx != 0.0 || dy != 0.0)
    requires !(dx != 0.0 && Abs(dx) * h > Abs(dy) * w)
    ensures dy != 0.0 && Abs(dx) * h <= Abs(dy) * w
  {
    if dx == 0.0 {
      assert Abs(dx) * h == 0.0;
    } else {
      assert Abs(dx) * h > 0.0;
    }
  }

  /** The corrected helper takes its left/right branch. */
  lemma BoundaryPointSide(box: CornerBox, target: Point)
    requires var dx, dy := target.x - box.Centre().x, target.y - box.Centre().y;
      dx != 0.0 && Abs(dx) * box.h > Abs(dy) * box.w
    ensures target != box.Centre() && target.x != box.Centre().x
    ensures BoundaryPoint(box, target) == SidePoint(box, target)
  {
  }

  /** The corrected helper takes its top/bottom branch. */
  lemma BoundaryPointTopBottom(box: CornerBox, target: Point)
    requires var dx, dy := target.x - box.Centre().x, target.y - box.Centre().y;
      !(dx != 0.0 && Abs(dx) * box.h > Abs(dy) * box.w) && dy != 0.0
    ensures target != box.Centre() && target.y != box.Centre().y
    ensures BoundaryPoint(box, target) == TopBottomPoint(box, target)
  {
  }

  /** The corrected helper lands on the boundary of every box of positive
      size. */
  lemma BoundaryPointOnBoundary(box: CornerBox, target: Point)
    requires target != box.Centre() && box.w > 0.0 && box.h > 0.0
    ensures box.OnBoundary(BoundaryPoint(box, target))
  {
    var dx, dy := target.x - box.Centre().x, target.y - box.Centre().y;
    if dx != 0.0 && Abs(dx) * box.h > Abs(dy) * box.w {
      BoundaryPointSide(box, target);
      SidePointOnBoundary(box, target);
    } else {
      TopBottomBranch(dx, dy, box.w, box.h);
      BoundaryPointTopBottom(box, target);
      TopBottomPointOnBoundary(box, target);
    }
  }

  /** On a square box the corrected helper and the helper as written agree. */
  lemma BoundaryPointAgreesOnSquares(box: CornerBox, target: Point)
    requires target != box.Centre() && box.w == box.h && box.w > 0.0
    ensures BoundaryPoint(box, target) == EdgePoint(box, target)
  {
    var dx, dy := target.x - box.Centre().x, target.y - box.Centre().y;
    SquareComparison(dx, dy, box.w, box.h);
    if Abs(dx) > Abs(dy) {
      EdgePointSide(box, target);
      BoundaryPointSide(box, target);
    } else {
      EdgePointTopBottom(box, target);
      BoundaryPointTopBottom(box, target);
    }
  }
}
