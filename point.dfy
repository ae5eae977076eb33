/** The integer point value type, its clamped perturbation and its random
    sampling, and the laws of the (floating-point) rotation about a centre. */
module Points {
  import opened Utilities
  import opened Oracle

  /** An integer pixel coordinate; equality is structural on (x, y). */
  datatype Point = Point(x: int, y: int)

  /** How far outside the canvas a perturbed point may move. */
  const BorderExtension: int := 5

  /** Perturbs both coordinates by the drawn deltas `dx`, `dy` and clamps the
      result to the canvas extended by the border on every side. */
  function Mutate(p: Point, width: nat, height: nat, dx: int, dy: int): (q: Point)
    ensures -BorderExtension <= q.x <= width + BorderExtension
    ensures -BorderExtension <= q.y <= height + BorderExtension
    ensures q.x == Clamp(p.x + dx, -BorderExtension, width + BorderExtension)
    ensures q.y == Clamp(p.y + dy, -BorderExtension, height + BorderExtension)
  {
    Point(Clamp(p.x + dx, -BorderExtension, width + BorderExtension),
          Clamp(p.y + dy, -BorderExtension, height + BorderExtension))
  }

  /** A perturbation that stays inside the extended canvas moves the point by
      exactly the drawn deltas. */
  lemma MutateMovesByDelta(p: Point, width: nat, height: nat, dx: int, dy: int)
    requires -BorderExtension <= p.x + dx <= width + BorderExtension
    requires -BorderExtension <= p.y + dy <= height + BorderExtension
    ensures Mutate(p, width, height, dx, dy) == Point(p.x + dx, p.y + dy)
  {
  }

  /** A uniform point of `[0, width) x [0, height)`; x is drawn first. */
  function RandomPoint(width: nat, height: nat, dx: int, dy: int): (r: Result<Point>)
    ensures r.Ok? <==> width > 0 && height > 0
    ensures r.Ok? ==> 0 <= r.value.x < width && 0 <= r.value.y < height
    ensures r.Err? ==> r.fault == EmptyRange
  {
    var rx := GenRange(dx, 0, width);
    var ry := GenRange(dy, 0, height);
    if rx.Err? then Err(rx.fault)
    else if ry.Err? then Err(ry.fault)
    else Ok(Point(rx.value, ry.value))
  }

  /** A uniform point of the half-open square of half-side `radius` around `p`. */
  function RandomPointInRadius(p: Point, radius: int, dx: int, dy: int): (r: Result<Point>)
    ensures r.Ok? <==> radius > 0
    ensures r.Ok? ==> p.x - radius <= r.value.x < p.x + radius
    ensures r.Ok? ==> p.y - radius <= r.value.y < p.y + radius
    ensures r.Err? ==> r.fault == EmptyRange
  {
    // Both ranges have length 2 * radius, so the first draw panics exactly
    // when the second would.
    if radius <= 0 then Err(EmptyRange)
    else Ok(Point(Uniform(dx, p.x - radius, p.x + radius), Uniform(dy, p.y - radius, p.y + radius)))
  }

  /** Around (5, 5) with radius 5 the sampled square is `[0, 10) x [0, 10)`,
      so the same draws give the same point as `RandomPoint(10, 10)`. */
  lemma RadiusFiveAroundFiveIsCanvasTen(dx: int, dy: int)
    ensures RandomPointInRadius(Point(5, 5), 5, dx, dy) == RandomPoint(10, 10, dx, dy)
  {
  }

  /** `rotate_point(point, center, angle)`: a floating-point rotation by
      `angle` degrees about `center`, truncated back to integers. */
  type Rotation = (Point, Point, nat) -> Point

  /** What is known of the rotation without modelling floating point: a zero
      angle is the identity (cos 0 = 1 and sin 0 = 0 exactly), and the two
      quarter and half turns the source's own examples fix. */
  ghost predicate RotationLaws(rotate: Rotation) {
    && (forall p: Point, center: Point :: rotate(p, center, 0) == p)
    && rotate(Point(20, 10), Point(10, 10), 90) == Point(10, 20)
    && rotate(Point(20, 10), Point(10, 10), 180) == Point(0, 10)
  }
}
