/** Triangles: the integer orientation determinant, the edge-function
    containment test over canonically sorted vertices, the bounding-box scan
    rasterizer, validity, and the bounded retry-until-valid mutation. */
module Triangles {
  import opened Utilities
  import opened Oracle
  import opened Points
  import opened Raster

  /** After this many failed attempts one more is made; if that fails too, `mutate` panics. */
  const MaximumMutationAttempts: nat := 100_000_000

  /** The three vertices `[PrimitivePoint; 3]`. */
  type Path = s: seq<Point> | |s| == 3 witness [Point(0, 0), Point(0, 0), Point(0, 0)]

  datatype Triangle = Triangle(color: Rgba, path: Path)

  /** `p0.angle(p1, p2) > MINIMUM_DEGREES`: an `acos` in floating point. */
  type AngleTest = (Point, Point, Point) -> bool

  // ---------------------------------------------------------------------
  // Orientation

  /** The determinant of the columns `(p.x, p.y, 1)`: twice the signed area
      of `p0 p1 p2`, positive when the turn `p0 -> p1 -> p2` is counter-clockwise
      in a y-up frame. */
  function Orient2d(p0: Point, p1: Point, p2: Point): int {
    (p1.x - p0.x) * (p2.y - p0.y) - (p1.y - p0.y) * (p2.x - p0.x)
  }

  lemma Orient2dExamples()
    ensures Orient2d(Point(1, 1), Point(1, 1), Point(1, 1)) == 0
    ensures Orient2d(Point(1, 0), Point(0, 1), Point(1, 1)) == -1
    ensures Orient2d(Point(1, 0), Point(0, 1), Point(0, 0)) == 1
  {
  }

  /** Exchanging two vertices negates the orientation; rotating them keeps it. */
  lemma Orient2dSymmetries(a: Point, b: Point, c: Point)
    ensures Orient2d(b, a, c) == -Orient2d(a, b, c)
    ensures Orient2d(a, c, b) == -Orient2d(a, b, c)
    ensures Orient2d(b, c, a) == Orient2d(a, b, c)
  {
  }

  /** The three edge values of any point sum to the orientation of the
      triangle itself (the barycentric weights are normalised by it). */
  lemma Orient2dSum(p0: Point, p1: Point, p2: Point, q: Point)
    ensures Orient2d(p1, p2, q) + Orient2d(p2, p0, q) + Orient2d(p0, p1, q) == Orient2d(p0, p1, p2)
  {
  }

  // ---------------------------------------------------------------------
  // Validity and construction

  /** No two vertices coincide and, by the floating-point angle test, every
      angle is above the minimum. */
  predicate IsValid(t: Triangle, angleOk: AngleTest) {
    var p0, p1, p2 := t.path[0], t.path[1], t.path[2];
    if p0 == p1 || p0 == p2 || p1 == p2 then false
    else angleOk(p0, p1, p2) && angleOk(p1, p2, p0) && angleOk(p2, p0, p1)
  }

  /** Coincident vertices make a triangle invalid whatever the angle test says. */
  lemma IsValidRejectsCoincident(t: Triangle, angleOk: AngleTest)
    requires t.path[0] == t.path[1] || t.path[0] == t.path[2] || t.path[1] == t.path[2]
    ensures !IsValid(t, angleOk)
  {
  }

  /** A valid triangle has three distinct vertices and passes all three angle tests. */
  lemma IsValidMeansDistinctAndWideAngles(t: Triangle, angleOk: AngleTest)
    ensures IsValid(t, angleOk) <==>
      && t.path[0] != t.path[1] && t.path[0] != t.path[2] && t.path[1] != t.path[2]
      && angleOk(t.path[0], t.path[1], t.path[2])
      && angleOk(t.path[1], t.path[2], t.path[0])
      && angleOk(t.path[2], t.path[0], t.path[1])
  {
  }

  /** `Triangle::new`: panics unless given three vertices. */
  function New(vertices: seq<Point>): (r: Result<Triangle>)
    ensures r.Ok? <==> |vertices| == 3
    ensures r.Ok? ==> r.value.color == FreshColor && r.value.path == vertices
    ensures r.Err? ==> r.fault == WrongVertexCount(|vertices|)
  {
    if |vertices| != 3 then Err(WrongVertexCount(|vertices|))
    else Ok(Triangle(FreshColor, vertices))
  }

  // ---------------------------------------------------------------------
  // Containment

  /** The sign test on the three edge values of `path` at `q`: all
      non-negative, or all non-positive (so the edges themselves are inside). */
  predicate EdgeTest(path: Path, q: Point) {
    var w0 := Orient2d(path[1], path[2], q);
    var w1 := Orient2d(path[2], path[0], q);
    var w2 := Orient2d(path[0], path[1], q);
    (w0 >= 0 && w1 >= 0 && w2 >= 0) || (w0 <= 0 && w1 <= 0 && w2 <= 0)
  }

  /** The six orders of three vertices. */
  function Reorderings(s: Path): set<Path> {
    { [s[0], s[1], s[2]], [s[1], s[0], s[2]], [s[0], s[2], s[1]],
      [s[2], s[1], s[0]], [s[1], s[2], s[0]], [s[2], s[0], s[1]] }
  }

  lemma {:induction false} EdgeTestSwapFirst(s: Path, q: Point)
    ensures EdgeTest([s[1], s[0], s[2]], q) == EdgeTest(s, q)
  {
    Orient2dSymmetries(s[1], s[2], q);
    Orient2dSymmetries(s[2], s[0], q);
    Orient2dSymmetries(s[0], s[1], q);
  }

  lemma {:induction false} EdgeTestRotate(s: Path, q: Point)
    ensures EdgeTest([s[1], s[2], s[0]], q) == EdgeTest(s, q)
  {
  }

  /** The edge test does not depend on the order of the vertices. */
  lemma {:induction false} EdgeTestReordered(s: Path, u: Path, q: Point)
    requires u in Reorderings(s)
    ensures EdgeTest(u, q) == EdgeTest(s, q)
  {
    var s1: Path := [s[1], s[0], s[2]];
    var r1: Path := [s[1], s[2], s[0]];
    var r2: Path := [s[2], s[0], s[1]];
    EdgeTestSwapFirst(s, q);
    EdgeTestRotate(s, q);
    EdgeTestRotate(r1, q);
    EdgeTestRotate(s1, q);
    EdgeTestSwapFirst(r1, q);
    EdgeTestSwapFirst(r2, q);
    assert [r1[1], r1[2], r1[0]] == r2;
    assert [s1[1], s1[2], s1[0]] == [s[0], s[2], s[1]];
    assert [r1[1], r1[0], r1[2]] == [s[2], s[1], s[0]];
    assert [r2[1], r2[0], r2[2]] == [s[0], s[2], s[1]];
  }

  /** The comparator of the `sort_by` in `contains_pixel`: x descending, then y ascending. */
  predicate InOrder(a: Point, b: Point) {
    a.x > b.x || (a.x == b.x && a.y <= b.y)
  }

  /** The path itself and its two adjacent exchanges are reorderings of it. */
  lemma AdjacentExchanges(s: Path)
    ensures s in Reorderings(s)
    ensures [s[1], s[0], s[2]] in Reorderings(s)
    ensures [s[0], s[2], s[1]] in Reorderings(s)
  {
    assert s == [s[0], s[1], s[2]];
  }

  lemma ReorderingsCompose(s: Path, u: Path, v: Path)
    requires u in Reorderings(s) && v in Reorderings(u)
    ensures v in Reorderings(s)
  {
  }

  /** `path2.sort_by(...)` on the copy of the vertices. For three items the
      library's stable insertion sort and these three compare-exchanges give
      the same order. */
  method SortVertices(path: Path) returns (sorted: Path)
    ensures sorted in Reorderings(path)
    ensures InOrder(sorted[0], sorted[1]) && InOrder(sorted[1], sorted[2])
  {
    sorted := path;
    AdjacentExchanges(path);
    if !InOrder(sorted[0], sorted[1]) {
      var next: Path := [sorted[1], sorted[0], sorted[2]];
      AdjacentExchanges(sorted);
      ReorderingsCompose(path, sorted, next);
      sorted := next;
    }
    if !InOrder(sorted[1], sorted[2]) {
      var next: Path := [sorted[0], sorted[2], sorted[1]];
      AdjacentExchanges(sorted);
      ReorderingsCompose(path, sorted, next);
      sorted := next;
    }
    if !InOrder(sorted[0], sorted[1]) {
      var next: Path := [sorted[1], sorted[0], sorted[2]];
      AdjacentExchanges(sorted);
      ReorderingsCompose(path, sorted, next);
      sorted := next;
    }
  }

  /** `contains_pixel(x, y)`: the sign test over the sorted copy of the path,
      which is the sign test over the path as stored. */
  method ContainsPixel(t: Triangle, x: int, y: int) returns (inside: bool)
    ensures inside == EdgeTest(t.path, Point(x, y))
  {
    var p := Point(x, y);
    var path2 := SortVertices(t.path);
    var w0 := Orient2d(path2[1], path2[2], p);
    var w1 := Orient2d(path2[2], path2[0], p);
    var w2 := Orient2d(path2[0], path2[1], p);
    inside := (w0 >= 0 && w1 >= 0 && w2 >= 0) || (w0 <= 0 && w1 <= 0 && w2 <= 0);
    EdgeTestReordered(t.path, path2, p);
  }

  /** Every vertex passes the edge test: two of its edge values vanish. */
  lemma VerticesPassEdgeTest(t: Triangle, i: nat)
    requires i < 3
    ensures EdgeTest(t.path, t.path[i])
  {
  }

  /** The first test triangle `(0,0) (3,0) (0,3)`: its edge values are
      `9 - 3x - 3y`, `3x` and `3y`. */
  lemma FirstTestTriangleEdgeTest(q: Point)
    ensures EdgeTest([Point(0, 0), Point(3, 0), Point(0, 3)], q) <==> 0 <= q.x && 0 <= q.y && q.x + q.y <= 3
  {
    var s: Path := [Point(0, 0), Point(3, 0), Point(0, 3)];
    assert Orient2d(s[1], s[2], q) == 9 - 3 * q.x - 3 * q.y;
    assert Orient2d(s[2], s[0], q) == 3 * q.x;
    assert Orient2d(s[0], s[1], q) == 3 * q.y;
  }

  /** The second test triangle `(5,5) (5,2) (2,5)`: its edge values are
      `21 - 3x - 3y`, `3y - 15` and `3x - 15`. */
  lemma SecondTestTriangleEdgeTest(q: Point)
    ensures EdgeTest([Point(5, 5), Point(5, 2), Point(2, 5)], q) <==> q.x <= 5 && q.y <= 5 && q.x + q.y >= 7
  {
    var s: Path := [Point(5, 5), Point(5, 2), Point(2, 5)];
    assert Orient2d(s[1], s[2], q) == 21 - 3 * q.x - 3 * q.y;
    assert Orient2d(s[2], s[0], q) == 3 * q.y - 15;
    assert Orient2d(s[0], s[1], q) == 3 * q.x - 15;
  }

  lemma ContainsPixelExamples()
    ensures !EdgeTest([Point(5, 5), Point(5, 2), Point(2, 5)], Point(3, 3))
    ensures EdgeTest([Point(5, 5), Point(5, 2), Point(2, 5)], Point(4, 4))
    ensures !EdgeTest([Point(0, 0), Point(3, 0), Point(0, 3)], Point(4, 4))
    ensures EdgeTest([Point(0, 0), Point(3, 0), Point(0, 3)], Point(1, 1))
  {
    SecondTestTriangleEdgeTest(Point(3, 3));
    SecondTestTriangleEdgeTest(Point(4, 4));
    FirstTestTriangleEdgeTest(Point(4, 4));
    FirstTestTriangleEdgeTest(Point(1, 1));
  }

  // ---------------------------------------------------------------------
  // Bounding box and rasterization

  /** `bounding_box`: the tightest box around the three vertices. */
  function BoundingBox(t: Triangle): (b: Box)
    ensures forall i :: 0 <= i < 3 ==> b.lo.x <= t.path[i].x <= b.hi.x && b.lo.y <= t.path[i].y <= b.hi.y
    ensures exists i :: 0 <= i < 3 && t.path[i].x == b.lo.x
    ensures exists i :: 0 <= i < 3 && t.path[i].y == b.lo.y
    ensures exists i :: 0 <= i < 3 && t.path[i].x == b.hi.x
    ensures exists i :: 0 <= i < 3 && t.path[i].y == b.hi.y
  {
    var p0, p1, p2 := t.path[0], t.path[1], t.path[2];
    Box(Point(Min(p0.x, Min(p1.x, p2.x)), Min(p0.y, Min(p1.y, p2.y))),
        Point(Max(p0.x, Max(p1.x, p2.x)), Max(p0.y, Max(p1.y, p2.y))))
  }

  lemma BoundingBoxExample()
    ensures BoundingBox(Triangle(Rgba(0, 0, 0, 0), [Point(5, 5), Point(5, 2), Point(2, 5)]))
         == Box(Point(2, 2), Point(5, 5))
  {
  }

  /** The pixel test of the scan. */
  function Inside(t: Triangle): Keep {
    (x: int, y: int) => EdgeTest(t.path, Point(x, y))
  }

  /** The pixels of `get_pixels`: the inclusive bounding box scanned x then y,
      keeping the points that pass the edge test. */
  function Pixels(t: Triangle): seq<Point> {
    var b := BoundingBox(t);
    Scan(b.lo.x, b.hi.x + 1, b.lo.y, b.hi.y + 1, Inside(t))
  }

  /** `get_pixels`: the nested `for x`, `for y` loops over the bounding box. */
  method GetPixels(t: Triangle) returns (pixels: seq<Point>)
    ensures pixels == Pixels(t)
  {
    var b := BoundingBox(t);
    var minX, minY, maxX, maxY := b.lo.x, b.lo.y, b.hi.x, b.hi.y;
    pixels := [];
    var x := minX;
    while x < maxX + 1
      invariant minX <= x <= maxX + 1
      invariant pixels == Scan(minX, x, minY, maxY + 1, Inside(t))
    {
      var y := minY;
      while y < maxY + 1
        invariant minY <= y <= maxY + 1
        invariant pixels == Scan(minX, x, minY, maxY + 1, Inside(t)) + Column(x, minY, y, Inside(t))
      {
        var inside := ContainsPixel(t, x, y);
        if inside {
          pixels := pixels + [Point(x, y)];
        }
        y := y + 1;
      }
      x := x + 1;
    }
  }

  /** The rasterized pixels are exactly the bounding-box points that pass the
      edge test, strictly increasing in x-then-y order, so without repeats. */
  lemma PixelsAreTheFilteredBox(t: Triangle, q: Point)
    ensures q in Pixels(t) <==>
      BoundingBox(t).lo.x <= q.x <= BoundingBox(t).hi.x &&
      BoundingBox(t).lo.y <= q.y <= BoundingBox(t).hi.y && EdgeTest(t.path, q)
    ensures StrictlyOrdered(Pixels(t))
  {
    var b := BoundingBox(t);
    ScanMember(b.lo.x, b.hi.x + 1, b.lo.y, b.hi.y + 1, Inside(t), q);
    ScanOrdered(b.lo.x, b.hi.x + 1, b.lo.y, b.hi.y + 1, Inside(t));
  }

  /** Every vertex is one of the rasterized pixels. */
  lemma PixelsContainVertices(t: Triangle, i: nat)
    requires i < 3
    ensures t.path[i] in Pixels(t)
  {
    VerticesPassEdgeTest(t, i);
    PixelsAreTheFilteredBox(t, t.path[i]);
  }

  /** The first test triangle's region, as a linear test. */
  function FirstTestRegion(): Keep {
    (x: int, y: int) => 0 <= x && 0 <= y && x + y <= 3
  }

  /** The second test triangle's region, as a linear test. */
  function SecondTestRegion(): Keep {
    (x: int, y: int) => x <= 5 && y <= 5 && x + y >= 7
  }

  lemma FirstTestRegionScan()
    ensures Scan(0, 4, 0, 4, FirstTestRegion()) ==
      [Point(0, 0), Point(0, 1), Point(0, 2), Point(0, 3), Point(1, 0),
       Point(1, 1), Point(1, 2), Point(2, 0), Point(2, 1), Point(3, 0)]
  {
    var keep := FirstTestRegion();
    ColumnRun(0, 0, 4, keep, 0, 4);
    ColumnRun(1, 0, 4, keep, 0, 3);
    ColumnRun(2, 0, 4, keep, 0, 2);
    ColumnRun(3, 0, 4, keep, 0, 1);
    assert Scan(0, 4, 0, 4, keep) == Run(0, 0, 4) + Run(1, 0, 3) + Run(2, 0, 2) + Run(3, 0, 1);
  }

  lemma SecondTestRegionScan()
    ensures Scan(2, 6, 2, 6, SecondTestRegion()) ==
      [Point(2, 5), Point(3, 4), Point(3, 5), Point(4, 3), Point(4, 4),
       Point(4, 5), Point(5, 2), Point(5, 3), Point(5, 4), Point(5, 5)]
  {
    var keep := SecondTestRegion();
    ColumnRun(2, 2, 6, keep, 5, 6);
    ColumnRun(3, 2, 6, keep, 4, 6);
    ColumnRun(4, 2, 6, keep, 3, 6);
    ColumnRun(5, 2, 6, keep, 2, 6);
    assert Scan(2, 6, 2, 6, keep) == Run(2, 5, 6) + Run(3, 4, 6) + Run(4, 3, 6) + Run(5, 2, 6);
  }

  lemma FirstTestTriangleIsRegion(t: Triangle)
    requires t.path == [Point(0, 0), Point(3, 0), Point(0, 3)]
    ensures Scan(0, 4, 0, 4, Inside(t)) == Scan(0, 4, 0, 4, FirstTestRegion())
  {
    forall x, y ensures Inside(t)(x, y) == FirstTestRegion()(x, y) {
      FirstTestTriangleEdgeTest(Point(x, y));
    }
    ScanCongruent(0, 4, 0, 4, Inside(t), FirstTestRegion());
  }

  lemma SecondTestTriangleIsRegion(t: Triangle)
    requires t.path == [Point(5, 5), Point(5, 2), Point(2, 5)]
    ensures Scan(2, 6, 2, 6, Inside(t)) == Scan(2, 6, 2, 6, SecondTestRegion())
  {
    forall x, y ensures Inside(t)(x, y) == SecondTestRegion()(x, y) {
      SecondTestTriangleEdgeTest(Point(x, y));
    }
    ScanCongruent(2, 6, 2, 6, Inside(t), SecondTestRegion());
  }

  lemma PixelsScanTheBox(t: Triangle, b: Box)
    requires BoundingBox(t) == b
    ensures Pixels(t) == Scan(b.lo.x, b.hi.x + 1, b.lo.y, b.hi.y + 1, Inside(t))
  {
  }

  /** Each coordinate of `q`, weighted by the three edge values, is the
      triangle's orientation times that coordinate of `q`. */
  lemma Barycentric(p0: Point, p1: Point, p2: Point, q: Point)
    ensures Orient2d(p1, p2, q) * p0.x + Orient2d(p2, p0, q) * p1.x + Orient2d(p0, p1, q) * p2.x
         == Orient2d(p0, p1, p2) * q.x
    ensures Orient2d(p1, p2, q) * p0.y + Orient2d(p2, p0, q) * p1.y + Orient2d(p0, p1, q) * p2.y
         == Orient2d(p0, p1, p2) * q.y
  {
  }

  /** A mean with non-negative weights is at most the largest value. */
  lemma WeightedMeanAtMost(w0: int, w1: int, w2: int, a0: int, a1: int, a2: int, hi: int, q: int)
    requires w0 >= 0 && w1 >= 0 && w2 >= 0 && w0 + w1 + w2 > 0
    requires a0 <= hi && a1 <= hi && a2 <= hi
    requires w0 * a0 + w1 * a1 + w2 * a2 == (w0 + w1 + w2) * q
    ensures q <= hi
  {
    ScaleMonotone(w0, a0, hi);
    ScaleMonotone(w1, a1, hi);
    ScaleMonotone(w2, a2, hi);
    assert (w0 + w1 + w2) * hi == w0 * hi + w1 * hi + w2 * hi;
    CancelPositive(w0 + w1 + w2, q, hi);
  }

  /** A mean with non-negative weights is at least the least value. */
  lemma WeightedMeanAtLeast(w0: int, w1: int, w2: int, a0: int, a1: int, a2: int, lo: int, q: int)
    requires w0 >= 0 && w1 >= 0 && w2 >= 0 && w0 + w1 + w2 > 0
    requires lo <= a0 && lo <= a1 && lo <= a2
    requires w0 * a0 + w1 * a1 + w2 * a2 == (w0 + w1 + w2) * q
    ensures lo <= q
  {
    ScaleMonotone(w0, lo, a0);
    ScaleMonotone(w1, lo, a1);
    ScaleMonotone(w2, lo, a2);
    assert (w0 + w1 + w2) * lo == w0 * lo + w1 * lo + w2 * lo;
    CancelPositive(w0 + w1 + w2, lo, q);
  }

  lemma WeightedMeanBounds(w0: int, w1: int, w2: int, a0: int, a1: int, a2: int, lo: int, hi: int, q: int)
    requires w0 >= 0 && w1 >= 0 && w2 >= 0 && w0 + w1 + w2 > 0
    requires lo <= a0 <= hi && lo <= a1 <= hi && lo <= a2 <= hi
    requires w0 * a0 + w1 * a1 + w2 * a2 == (w0 + w1 + w2) * q
    ensures lo <= q <= hi
  {
    WeightedMeanAtMost(w0, w1, w2, a0, a1, a2, hi, q);
    WeightedMeanAtLeast(w0, w1, w2, a0, a1, a2, lo, q);
  }

  /** Negating the weights of a weighted sum negates it. */
  lemma NegatedWeights(w0: int, w1: int, w2: int, a0: int, a1: int, a2: int, d: int, q: int)
    requires w0 * a0 + w1 * a1 + w2 * a2 == d * q
    ensures (-w0) * a0 + (-w1) * a1 + (-w2) * a2 == (-d) * q
  {
  }

  /** A point that passes the edge test of a proper (non-degenerate) triangle
      lies in its bounding box. */
  lemma EdgeTestWithinBox(t: Triangle, q: Point)
    requires Orient2d(t.path[0], t.path[1], t.path[2]) != 0
    requires EdgeTest(t.path, q)
    ensures BoundingBox(t).lo.x <= q.x <= BoundingBox(t).hi.x
    ensures BoundingBox(t).lo.y <= q.y <= BoundingBox(t).hi.y
  {
    var p0, p1, p2 := t.path[0], t.path[1], t.path[2];
    var b := BoundingBox(t);
    var w0, w1, w2 := Orient2d(p1, p2, q), Orient2d(p2, p0, q), Orient2d(p0, p1, q);
    Barycentric(p0, p1, p2, q);
    Orient2dSum(p0, p1, p2, q);
    if w0 >= 0 && w1 >= 0 && w2 >= 0 {
      WeightedMeanBounds(w0, w1, w2, p0.x, p1.x, p2.x, b.lo.x, b.hi.x, q.x);
      WeightedMeanBounds(w0, w1, w2, p0.y, p1.y, p2.y, b.lo.y, b.hi.y, q.y);
    } else {
      NegatedWeights(w0, w1, w2, p0.x, p1.x, p2.x, w0 + w1 + w2, q.x);
      NegatedWeights(w0, w1, w2, p0.y, p1.y, p2.y, w0 + w1 + w2, q.y);
      WeightedMeanBounds(-w0, -w1, -w2, p0.x, p1.x, p2.x, b.lo.x, b.hi.x, q.x);
      WeightedMeanBounds(-w0, -w1, -w2, p0.y, p1.y, p2.y, b.lo.y, b.hi.y, q.y);
    }
  }

  /** For a proper triangle the rasterized pixels are exactly the integer
      points of the closed triangle. */
  lemma PixelsOfProperTriangle(t: Triangle, q: Point)
    requires Orient2d(t.path[0], t.path[1], t.path[2]) != 0
    ensures q in Pixels(t) <==> EdgeTest(t.path, q)
  {
    PixelsAreTheFilteredBox(t, q);
    if EdgeTest(t.path, q) {
      EdgeTestWithinBox(t, q);
    }
  }

  /** The first pixel list of the tests, for a triangle of any colour. */
  lemma GetPixelsFirstExample(t: Triangle)
    requires t.path == [Point(0, 0), Point(3, 0), Point(0, 3)]
    ensures Pixels(t) ==
      [Point(0, 0), Point(0, 1), Point(0, 2), Point(0, 3), Point(1, 0),
       Point(1, 1), Point(1, 2), Point(2, 0), Point(2, 1), Point(3, 0)]
  {
    assert BoundingBox(t) == Box(Point(0, 0), Point(3, 3));
    PixelsScanTheBox(t, Box(Point(0, 0), Point(3, 3)));
    FirstTestTriangleIsRegion(t);
    FirstTestRegionScan();
  }

  /** The second pixel list of the tests, for a triangle of any colour. */
  lemma GetPixelsSecondExample(t: Triangle)
    requires t.path == [Point(5, 5), Point(5, 2), Point(2, 5)]
    ensures Pixels(t) ==
      [Point(2, 5), Point(3, 4), Point(3, 5), Point(4, 3), Point(4, 4),
       Point(4, 5), Point(5, 2), Point(5, 3), Point(5, 4), Point(5, 5)]
  {
    assert BoundingBox(t) == Box(Point(2, 2), Point(5, 5));
    PixelsScanTheBox(t, Box(Point(2, 2), Point(5, 5)));
    SecondTestTriangleIsRegion(t);
    SecondTestRegionScan();
  }

  // ---------------------------------------------------------------------
  // Mutation and random generation

  /** Draws consumed by one mutation attempt: the vertex index, then the two
      Gaussian deltas of that vertex. */
  const DrawsPerAttempt: nat := 3

  /** One attempt of `mutate`: the vertex `gen_range(0..3)` chooses is
      perturbed by the next two draws; the colour and the other two vertices
      are kept. */
  function Attempt(t: Triangle, width: nat, height: nat, draws: Draws, pos: nat): (r: Triangle)
    ensures r.color == t.color
    ensures var k := Uniform(draws(pos), 0, 3);
      && r.path[k] == Points.Mutate(t.path[k], width, height, draws(pos + 1), draws(pos + 2))
      && forall j :: 0 <= j < 3 && j != k ==> r.path[j] == t.path[j]
  {
    var k := Uniform(draws(pos), 0, 3);
    t.(path := t.path[k := Points.Mutate(t.path[k], width, height, draws(pos + 1), draws(pos + 2))])
  }

  /** The outcome of `mutate` once `done` attempts have failed, reading the
      next attempt's draws at `pos`: the valid triangle and the position after
      its draws, or the panic. */
  function Mutated(t: Triangle, width: nat, height: nat, angleOk: AngleTest, draws: Draws, pos: nat, done: nat)
    : (r: Result<(Triangle, nat)>)
    requires done <= MaximumMutationAttempts
    ensures r.Ok? ==> IsValid(r.value.0, angleOk) && r.value.0.color == t.color
    ensures r.Ok? ==> pos + DrawsPerAttempt <= r.value.1
    ensures r.Err? ==> r.fault == TooManyMutationAttempts
    decreases MaximumMutationAttempts - done
  {
    var next := Attempt(t, width, height, draws, pos);
    if IsValid(next, angleOk) then Ok((next, pos + DrawsPerAttempt))
    else if done + 1 > MaximumMutationAttempts then Err(TooManyMutationAttempts)
    else Mutated(next, width, height, angleOk, draws, pos + DrawsPerAttempt, done + 1)
  }

  /** A first attempt that yields a valid triangle is the whole mutation. */
  lemma MutatedFirstAttemptValid(t: Triangle, width: nat, height: nat, angleOk: AngleTest, draws: Draws, pos: nat)
    requires IsValid(Attempt(t, width, height, draws, pos), angleOk)
    ensures Mutated(t, width, height, angleOk, draws, pos, 0) == Ok((Attempt(t, width, height, draws, pos), pos + 3))
  {
  }

  /** An angle test that rejects everything exhausts the attempts and panics. */
  lemma {:induction false} MutatedPanicsWhenNothingIsValid(t: Triangle, width: nat, height: nat, draws: Draws, pos: nat, done: nat)
    requires done <= MaximumMutationAttempts
    ensures Mutated(t, width, height, (a: Point, b: Point, c: Point) => false, draws, pos, done) == Err(TooManyMutationAttempts)
    decreases MaximumMutationAttempts - done
  {
    var angleOk: AngleTest := (a: Point, b: Point, c: Point) => false;
    var next := Attempt(t, width, height, draws, pos);
    assert !IsValid(next, angleOk);
    if done + 1 <= MaximumMutationAttempts {
      MutatedPanicsWhenNothingIsValid(next, width, height, draws, pos + DrawsPerAttempt, done + 1);
    }
  }

  /** `mutate`: the counter loop that perturbs one vertex per attempt until the
      triangle is valid, and panics after the attempt that takes the count past
      the maximum. */
  method Mutate(t: Triangle, width: nat, height: nat, angleOk: AngleTest, draws: Draws, pos: nat)
    returns (r: Result<(Triangle, nat)>)
    ensures r == Mutated(t, width, height, angleOk, draws, pos, 0)
  {
    var current := t;
    var at: nat := pos;
    var i: nat := 0;
    while true
      invariant i <= MaximumMutationAttempts
      invariant Mutated(current, width, height, angleOk, draws, at, i) == Mutated(t, width, height, angleOk, draws, pos, 0)
      decreases MaximumMutationAttempts - i
    {
      i := i + 1;
      var k := Uniform(draws(at), 0, 3);
      var moved := Points.Mutate(current.path[k], width, height, draws(at + 1), draws(at + 2));
      current := current.(path := current.path[k := moved]);
      at := at + DrawsPerAttempt;
      if IsValid(current, angleOk) {
        return Ok((current, at));
      }
      if i > MaximumMutationAttempts {
        return Err(TooManyMutationAttempts);
      }
    }
  }

  /** Draws consumed before the mutation of `random`: one point, then two in its radius. */
  const DrawsBeforeMutation: nat := 6

  /** `Triangle::random`: a random first vertex, two vertices within
      `borderExtension` of it, then one `mutate` to make the triangle valid. */
  function Random(width: nat, height: nat, borderExtension: int, angleOk: AngleTest, draws: Draws, pos: nat)
    : (r: Result<(Triangle, nat)>)
    ensures r.Ok? ==> IsValid(r.value.0, angleOk) && r.value.0.color == FreshColor
    ensures r.Err? ==> r.fault == EmptyRange || r.fault == TooManyMutationAttempts
    ensures width == 0 || height == 0 || borderExtension <= 0 ==> r == Err(EmptyRange)
  {
    var p0 := RandomPoint(width, height, draws(pos), draws(pos + 1));
    if p0.Err? then Err(p0.fault)
    else
      var p1 := RandomPointInRadius(p0.value, borderExtension, draws(pos + 2), draws(pos + 3));
      var p2 := RandomPointInRadius(p0.value, borderExtension, draws(pos + 4), draws(pos + 5));
      // Both radius draws panic exactly when `borderExtension <= 0`.
      if p1.Err? then Err(p1.fault)
      else
        var tri := New([p0.value, p1.value, p2.value]);
        Mutated(tri.value, width, height, angleOk, draws, pos + DrawsBeforeMutation, 0)
  }

  /** Before its mutation the random triangle's first vertex lies on the
      canvas and the other two within `borderExtension` of it. */
  lemma RandomStartsAroundACanvasPoint(width: nat, height: nat, borderExtension: int, draws: Draws, pos: nat)
    requires width > 0 && height > 0 && borderExtension > 0
    ensures var p0 := RandomPoint(width, height, draws(pos), draws(pos + 1)).value;
      && 0 <= p0.x < width && 0 <= p0.y < height
      && RandomPointInRadius(p0, borderExtension, draws(pos + 2), draws(pos + 3)).Ok?
      && RandomPointInRadius(p0, borderExtension, draws(pos + 4), draws(pos + 5)).Ok?
  {
  }
}
