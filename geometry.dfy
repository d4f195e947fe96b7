/**
 * Plane geometry shared by every diagram script: points, the two box
 * conventions the scripts use, segments, evenly spaced text rows and
 * row-major grids.  Coordinates are mathematical reals.
 */
module Geometry {

  datatype Point = Point(x: real, y: real)

  function Abs(r: real): (a: real)
    ensures a >= 0.0 && (a == r || a == -r)
  {
    if r < 0.0 then -r else r
  }

  function Max(a: real, b: real): (m: real)
    ensures m >= a && m >= b && (m == a || m == b)
  {
    if a >= b then a else b
  }

  /** A box given by its lower-left corner, width and height (the
      professional_* scripts' `(x, y, w, h)` tuples). */
  datatype CornerBox = CornerBox(x: real, y: real, w: real, h: real) {

    function Centre(): Point {
      Point(x + w / 2.0, y + h / 2.0)
    }

    /** p lies on one of the four sides, within that side's span. */
    predicate OnBoundary(p: Point) {
      ((p.x == x || p.x == x + w) && y <= p.y <= y + h) ||
      ((p.y == y || p.y == y + h) && x <= p.x <= x + w)
    }
  }

  /** Two corner boxes share no interior point. */
  predicate Disjoint(a: CornerBox, b: CornerBox) {
    a.x + a.w <= b.x || b.x + b.w <= a.x || a.y + a.h <= b.y || b.y + b.h <= a.y
  }

  /** A box given by its centre, width and height (the `entity_boxes` and
      `class_boxes` tuples and the `pos`/`width`/`height` records). */
  datatype CentredBox = CentredBox(cx: real, cy: real, w: real, h: real) {

    /** The same box in corner form (what the scripts hand to the patch). */
    function Corner(): (c: CornerBox)
      ensures c.Centre() == Point(cx, cy) && c.w == w && c.h == h
    {
      CornerBox(cx - w / 2.0, cy - h / 2.0, w, h)
    }
  }

  datatype Side = Left | Right | Top | Bottom

  function Opposite(s: Side): Side {
    match s
    case Left => Right
    case Right => Left
    case Top => Bottom
    case Bottom => Top
  }

  /** The midpoint of one side of a centre-based box. */
  function EdgeMid(b: CentredBox, s: Side): Point {
    match s
    case Left => Point(b.cx - b.w / 2.0, b.cy)
    case Right => Point(b.cx + b.w / 2.0, b.cy)
    case Top => Point(b.cx, b.cy + b.h / 2.0)
    case Bottom => Point(b.cx, b.cy - b.h / 2.0)
  }

  /** A side midpoint lies on the box's boundary. */
  lemma EdgeMidOnBoundary(b: CentredBox, s: Side)
    requires b.w >= 0.0 && b.h >= 0.0
    ensures b.Corner().OnBoundary(EdgeMid(b, s))
  {
  }

  datatype Segment = Segment(start: Point, end: Point) {
    function Reversed(): Segment {
      Segment(end, start)
    }
  }

  function Midpoint(s: Segment): (m: Point)
    ensures m.x - s.start.x == s.end.x - m.x
    ensures m.y - s.start.y == s.end.y - m.y
  {
    Point((s.start.x + s.end.x) / 2.0, (s.start.y + s.end.y) / 2.0)
  }

  /** `n` text rows, the first at `start` and each `step` below the previous:
      the `start - i * step` pattern of every attribute and method loop. */
  function Rows(start: real, step: real, n: nat): (r: seq<real>)
    ensures |r| == n
    ensures forall i :: 0 <= i < n ==> r[i] == start - step * (i as real)
  {
    seq(n, i => start - step * (i as real))
  }

  predicate StrictlyDecreasing(s: seq<real>) {
    forall i, j :: 0 <= i < j < |s| ==> s[i] > s[j]
  }

  lemma RowsDecrease(start: real, step: real, n: nat)
    requires step > 0.0
    ensures StrictlyDecreasing(Rows(start, step, n))
  {
    var r := Rows(start, step, n);
    forall i, j | 0 <= i < j < n ensures r[i] > r[j] {
      assert r[i] - r[j] == step * ((j - i) as real);
    }
  }

  /** The last of `n > 0` rows is the lowest; every row lies in [last, start]. */
  lemma RowsWithin(start: real, step: real, n: nat)
    requires step >= 0.0 && n > 0
    ensures forall i :: 0 <= i < n ==>
      start - step * ((n - 1) as real) <= Rows(start, step, n)[i] <= start
  {
    var r := Rows(start, step, n);
    forall i | 0 <= i < n
      ensures start - step * ((n - 1) as real) <= r[i] <= start
    {
      assert r[i] - (start - step * ((n - 1) as real)) == step * ((n - 1 - i) as real);
      assert start - r[i] == step * (i as real);
    }
  }

  /** No row is above the start. */
  lemma RowsAtMost(start: real, step: real, n: nat)
    requires step >= 0.0
    ensures forall i :: 0 <= i < n ==> Rows(start, step, n)[i] <= start
  {
    forall i | 0 <= i < n ensures Rows(start, step, n)[i] <= start {
      assert start - Rows(start, step, n)[i] == step * (i as real);
    }
  }

  /** Every row is at least one step above `start - step * n`, where the
      line after the last row would go. */
  lemma RowsAboveNext(start: real, step: real, n: nat)
    requires step >= 0.0
    ensures forall i :: 0 <= i < n ==> Rows(start, step, n)[i] >= start - step * (n as real) + step
  {
    forall i | 0 <= i < n ensures Rows(start, step, n)[i] >= start - step * (n as real) + step {
      assert Rows(start, step, n)[i] - (start - step * (n as real) + step) == step * ((n - 1 - i) as real);
    }
  }

  /** Row-major grid cell of item `i` with `perRow` items per row:
      Python's `(i // perRow, i % perRow)`, which on non-negative operands
      is Dafny's Euclidean division. */
  function GridCell(i: nat, perRow: nat): (c: (nat, nat))
    requires perRow > 0
    ensures c.1 < perRow && i == c.0 * perRow + c.1
  {
    (i / perRow, i % perRow)
  }

  lemma GridCellInjective(i: nat, j: nat, perRow: nat)
    requires perRow > 0 && i != j
    ensures GridCell(i, perRow) != GridCell(j, perRow)
  {
  }

  /** The box of item i in a row-major grid: columns `colStep` apart from
      `x0`, rows `rowStep` apart going down from `top`; every box has the
      same size. */
  function GridBox(i: nat, perRow: nat, x0: real, colStep: real, top: real, rowStep: real,
                   w: real, h: real): (b: CornerBox)
    requires perRow > 0
    ensures b.w == w && b.h == h
  {
    var c := GridCell(i, perRow);
    CornerBox(x0 + colStep * (c.1 as real), top - rowStep * (c.0 as real), w, h)
  }

  /** A box no wider than the column step, in a column left of another
      column, ends before that column starts. */
  lemma ColumnsApart(x0: real, step: real, a: real, b: real, w: real)
    requires 0.0 <= w <= step && a + 1.0 <= b
    ensures x0 + step * a + w <= x0 + step * b
  {
    var d := b - a - 1.0;
    assert step * d >= 0.0;
    assert step * b == step * a + step + step * d;
  }

  /** A box no taller than the row step, in a row below another row, ends
      before that row starts. */
  lemma RowsApart(top: real, step: real, a: real, b: real, h: real)
    requires 0.0 <= h <= step && a + 1.0 <= b
    ensures top - step * b + h <= top - step * a
  {
    var d := b - a - 1.0;
    assert step * d >= 0.0;
    assert step * b == step * a + step + step * d;
  }

  /** The boxes of two different cells of a grid whose boxes are no wider
      than the column step and no taller than the row step do not overlap. */
  lemma CellBoxesDisjoint(r1: nat, c1: nat, r2: nat, c2: nat, x0: real, colStep: real, top: real,
                          rowStep: real, w: real, h: real, b1: CornerBox, b2: CornerBox)
    requires (r1, c1) != (r2, c2)
    requires 0.0 <= w <= colStep && 0.0 <= h <= rowStep
    requires b1 == CornerBox(x0 + colStep * (c1 as real), top - rowStep * (r1 as real), w, h)
    requires b2 == CornerBox(x0 + colStep * (c2 as real), top - rowStep * (r2 as real), w, h)
    ensures Disjoint(b1, b2)
  {
    if c1 < c2 {
      ColumnsApart(x0, colStep, c1 as real, c2 as real, w);
    } else if c2 < c1 {
      ColumnsApart(x0, colStep, c2 as real, c1 as real, w);
    } else if r1 < r2 {
      RowsApart(top, rowStep, r1 as real, r2 as real, h);
    } else {
      RowsApart(top, rowStep, r2 as real, r1 as real, h);
    }
  }

  /** Boxes no wider than the column step and no taller than the row step
      never overlap. */
  lemma GridBoxesDisjoint(i: nat, j: nat, perRow: nat, x0: real, colStep: real, top: real,
                          rowStep: real, w: real, h: real)
    requires perRow > 0 && i != j
    requires 0.0 <= w <= colStep && 0.0 <= h <= rowStep
    ensures Disjoint(GridBox(i, perRow, x0, colStep, top, rowStep, w, h),
                     GridBox(j, perRow, x0, colStep, top, rowStep, w, h))
  {
    var ci, cj := GridCell(i, perRow), GridCell(j, perRow);
    GridCellInjective(i, j, perRow);
    CellBoxesDisjoint(ci.0, ci.1, cj.0, cj.1, x0, colStep, top, rowStep, w, h,
                      GridBox(i, perRow, x0, colStep, top, rowStep, w, h),
                      GridBox(j, perRow, x0, colStep, top, rowStep, w, h));
  }
}
