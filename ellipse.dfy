/** Rotated ellipses: the canvas-relative validity test, the bounded
    retry-until-valid mutation with clamped axes and angle, random
    generation, the half-open box scan with the ellipse inequality, and the
    bounds-filtered paint. */
module Ellipses {
  import opened Utilities
  import opened Oracle
  import opened Points
  import opened Raster

  /** After this many failed attempts one more is made; if that fails too, `mutate` panics. */
  const MaximumMutationAttempts: nat := 100_000

  /** The largest angle `mutate` keeps, in degrees. */
  const MaximumAngle: nat := 359

  /** Exclusive upper end of the angle range of `random`. */
  const AngleRange: nat := 360

  /** `a` and `b` are the `i32` semi-axes along x and y; `angle` is a `u32` in degrees. */
  datatype Ellipse = Ellipse(color: Rgba, center: Point, a: int, b: int, angle: nat)

  // ---------------------------------------------------------------------
  // Validity

  /** `(axis as f64) < (side as f64 * 0.1)`, a floating-point comparison. */
  type AxisFits = (int, nat) -> bool

  /** What holds of that comparison without modelling floating point: the
      product `side * 0.1` lies within one part in 2^52 of `side / 10`, so for
      a 32-bit side it is above every integer below `side / 10` and below
      every integer above it. Only an axis of exactly `side / 10` is left
      open, as the rounding decides it. */
  ghost predicate AxisFitsLaws(fits: AxisFits) {
    && (forall axis: int, side: nat :: 10 * axis < side ==> fits(axis, side))
    && (forall axis: int, side: nat :: side < 10 * axis ==> !fits(axis, side))
  }

  /** `is_valid(width, height)`: each semi-axis is under a tenth of its canvas side. */
  predicate IsValid(e: Ellipse, width: nat, height: nat, fits: AxisFits) {
    fits(e.a, width) && fits(e.b, height)
  }

  /** Under the laws of the comparison, a valid ellipse has semi-axes of at
      most a tenth of the canvas sides, and any ellipse with semi-axes
      strictly under a tenth is valid. */
  lemma ValidMeansSmallAxes(e: Ellipse, width: nat, height: nat, fits: AxisFits)
    requires AxisFitsLaws(fits)
    ensures IsValid(e, width, height, fits) ==> 10 * e.a <= width && 10 * e.b <= height
    ensures 10 * e.a < width && 10 * e.b < height ==> IsValid(e, width, height, fits)
  {
  }

  /** On a canvas with a side under 10 pixels no ellipse with positive semi-axes is valid. */
  lemma NarrowCanvasHasNoValidEllipse(e: Ellipse, width: nat, height: nat, fits: AxisFits)
    requires AxisFitsLaws(fits)
    requires e.a >= 1 && e.b >= 1
    requires width < 10 || height < 10
    ensures !IsValid(e, width, height, fits)
  {
  }

  /** The semi-axis bound of `mutate` on a `width` x `height` canvas:
      `clamp(_, 1, max(width, height))`, whose lower bound wins on an empty canvas. */
  function AxisBound(width: nat, height: nat): (m: int)
    ensures m >= 1 && m >= width && m >= height
  {
    Max(1, Max(width, height))
  }

  /** The ranges `mutate` keeps on a `width` x `height` canvas; the semi-axes
      are positive, so the containment test never divides by zero. */
  predicate InRange(e: Ellipse, width: nat, height: nat) {
    && -BorderExtension <= e.center.x <= width + BorderExtension
    && -BorderExtension <= e.center.y <= height + BorderExtension
    && 1 <= e.a <= AxisBound(width, height)
    && 1 <= e.b <= AxisBound(width, height)
    && e.angle <= MaximumAngle
  }

  // ---------------------------------------------------------------------
  // Mutation

  /** `clamp(axis + delta, 1, max(width, height))`. */
  function ClampAxis(axis: int, delta: int, width: nat, height: nat): (s: int)
    ensures 1 <= s <= AxisBound(width, height)
    ensures 1 <= axis + delta <= Max(width, height) ==> s == axis + delta
  {
    Clamp(axis + delta, 1, Max(width, height))
  }

  /** `clamp(angle as i32 + delta, 0, 359) as u32`. */
  function ClampAngle(angle: nat, delta: int): (s: nat)
    ensures s <= MaximumAngle
    ensures 0 <= angle + delta <= MaximumAngle ==> s == angle + delta
  {
    Clamp(angle + delta, 0, MaximumAngle)
  }

  /** Draws consumed by one attempt: the field index, then two Gaussian
      deltas for the centre or one for any other field. */
  function DrawsOfAttempt(draws: Draws, pos: nat): (n: nat)
    ensures 2 <= n <= 3
  {
    if Uniform(draws(pos), 0, 4) == 0 then 3 else 2
  }

  /** One attempt of `mutate`: `gen_range(0..4)` picks the centre (0), `a`
      (1), `b` (2) or the angle (3), and only that field changes. */
  function Attempt(e: Ellipse, width: nat, height: nat, draws: Draws, pos: nat): (r: Ellipse)
    ensures r.color == e.color
    ensures var k := Uniform(draws(pos), 0, 4);
      && (if k == 0 then r.center == Points.Mutate(e.center, width, height, draws(pos + 1), draws(pos + 2))
          else r.center == e.center)
      && (if k == 1 then r.a == ClampAxis(e.a, draws(pos + 1), width, height) else r.a == e.a)
      && (if k == 2 then r.b == ClampAxis(e.b, draws(pos + 1), width, height) else r.b == e.b)
      && (if k == 3 then r.angle == ClampAngle(e.angle, draws(pos + 1)) else r.angle == e.angle)
  {
    match Uniform(draws(pos), 0, 4)
    case 0 => e.(center := Points.Mutate(e.center, width, height, draws(pos + 1), draws(pos + 2)))
    case 1 => e.(a := ClampAxis(e.a, draws(pos + 1), width, height))
    case 2 => e.(b := ClampAxis(e.b, draws(pos + 1), width, height))
    case _ => e.(angle := ClampAngle(e.angle, draws(pos + 1)))
  }

  /** An attempt keeps the ranges of the canvas it is given. */
  lemma AttemptKeepsRanges(e: Ellipse, width: nat, height: nat, draws: Draws, pos: nat)
    ensures InRange(e, width, height) ==> InRange(Attempt(e, width, height, draws, pos), width, height)
  {
  }

  /** An attempt changes at most one of the centre, `a`, `b` and the angle. */
  lemma AttemptChangesOneField(e: Ellipse, width: nat, height: nat, draws: Draws, pos: nat)
    ensures var r := Attempt(e, width, height, draws, pos);
      var same := (if r.center == e.center then 1 else 0) + (if r.a == e.a then 1 else 0)
                + (if r.b == e.b then 1 else 0) + (if r.angle == e.angle then 1 else 0);
      same >= 3
  {
  }

  /** The outcome of `mutate` once `done` attempts have failed, reading the
      next attempt's draws at `pos`: the valid ellipse and the position after
      its draws, or the panic. Ranges that hold before hold after. */
  function Mutated(e: Ellipse, width: nat, height: nat, fits: AxisFits, draws: Draws, pos: nat, done: nat)
    : (r: Result<(Ellipse, nat)>)
    requires done <= MaximumMutationAttempts
    ensures r.Ok? ==> IsValid(r.value.0, width, height, fits) && r.value.0.color == e.color
    ensures r.Ok? ==> pos + 2 <= r.value.1
    ensures r.Ok? && InRange(e, width, height) ==> InRange(r.value.0, width, height)
    ensures r.Err? ==> r.fault == TooManyMutationAttempts
    decreases MaximumMutationAttempts - done
  {
    var next := Attempt(e, width, height, draws, pos);
    var at := pos + DrawsOfAttempt(draws, pos);
    AttemptKeepsRanges(e, width, height, draws, pos);
    if IsValid(next, width, height, fits) then Ok((next, at))
    else if done + 1 > MaximumMutationAttempts then Err(TooManyMutationAttempts)
    else Mutated(next, width, height, fits, draws, at, done + 1)
  }

  /** On a canvas with a side under 10 pixels, every attempt leaves the
      semi-axes positive and so the ellipse invalid: `mutate` panics. */
  lemma {:induction false} MutatedPanicsOnNarrowCanvas(e: Ellipse, width: nat, height: nat, fits: AxisFits, draws: Draws, pos: nat, done: nat)
    requires done <= MaximumMutationAttempts
    requires AxisFitsLaws(fits) && InRange(e, width, height)
    requires width < 10 || height < 10
    ensures Mutated(e, width, height, fits, draws, pos, done) == Err(TooManyMutationAttempts)
    decreases MaximumMutationAttempts - done
  {
    var next := Attempt(e, width, height, draws, pos);
    AttemptKeepsRanges(e, width, height, draws, pos);
    NarrowCanvasHasNoValidEllipse(next, width, height, fits);
    if done + 1 <= MaximumMutationAttempts {
      MutatedPanicsOnNarrowCanvas(next, width, height, fits, draws, pos + DrawsOfAttempt(draws, pos), done + 1);
    }
  }

  /** `mutate`: the counter loop that changes one field per attempt until the
      ellipse is valid, and panics after the attempt that takes the count past
      the maximum. */
  method Mutate(e: Ellipse, width: nat, height: nat, fits: AxisFits, draws: Draws, pos: nat)
    returns (r: Result<(Ellipse, nat)>)
    ensures r == Mutated(e, width, height, fits, draws, pos, 0)
  {
    var current := e;
    var at: nat := pos;
    var i: nat := 0;
    while true
      invariant i <= MaximumMutationAttempts
      invariant Mutated(current, width, height, fits, draws, at, i) == Mutated(e, width, height, fits, draws, pos, 0)
      decreases MaximumMutationAttempts - i
    {
      i := i + 1;
      var k := Uniform(draws(at), 0, 4);
      if k == 0 {
        current := current.(center := Points.Mutate(current.center, width, height, draws(at + 1), draws(at + 2)));
        at := at + 3;
      } else if k == 1 {
        current := current.(a := ClampAxis(current.a, draws(at + 1), width, height));
        at := at + 2;
      } else if k == 2 {
        current := current.(b := ClampAxis(current.b, draws(at + 1), width, height));
        at := at + 2;
      } else {
        current := current.(angle := ClampAngle(current.angle, draws(at + 1)));
        at := at + 2;
      }
      if IsValid(current, width, height, fits) {
        return Ok((current, at));
      }
      if i > MaximumMutationAttempts {
        return Err(TooManyMutationAttempts);
      }
    }
  }

  // ---------------------------------------------------------------------
  // Random generation

  /** Draws consumed before the mutation of `random`: the centre, the two
      semi-axes and the angle. */
  const DrawsBeforeMutation: nat := 5

  /** The ellipse `Ellipse::random` draws before its mutation: a centre on
      the canvas, semi-axes from `1..max(width, height) / 10` and an angle
      from `0..360`. */
  function Drawn(width: nat, height: nat, draws: Draws, pos: nat): (r: Result<Ellipse>)
    ensures r.Ok? <==> width > 0 && height > 0 && Max(width, height) / 10 > 1
    ensures r.Err? ==> r.fault == EmptyRange
    ensures r.Ok? ==> 0 <= r.value.center.x < width && 0 <= r.value.center.y < height
    ensures r.Ok? ==> 1 <= r.value.a < Max(width, height) / 10 && 1 <= r.value.b < Max(width, height) / 10
    ensures r.Ok? ==> r.value.angle < AngleRange && r.value.color == FreshColor
  {
    var center := RandomPoint(width, height, draws(pos), draws(pos + 1));
    var ra := GenRange(draws(pos + 2), 1, Max(width, height) / 10);
    var rb := GenRange(draws(pos + 3), 1, Max(width, height) / 10);
    if center.Err? then Err(center.fault)
    else if ra.Err? then Err(ra.fault)
    else
      // `rb` panics exactly when `ra` does: they share one range.
      Ok(Ellipse(FreshColor, center.value, ra.value, rb.value, Uniform(draws(pos + 4), 0, AngleRange)))
  }

  /** `Ellipse::random`: the drawn ellipse, then one `mutate` on the canvas
      to make it valid. */
  function Random(width: nat, height: nat, fits: AxisFits, draws: Draws, pos: nat): (r: Result<(Ellipse, nat)>)
    ensures r.Ok? ==> IsValid(r.value.0, width, height, fits) && InRange(r.value.0, width, height)
    ensures r.Ok? ==> r.value.0.color == FreshColor
    ensures r.Err? ==> r.fault == EmptyRange || r.fault == TooManyMutationAttempts
    ensures r == Err(EmptyRange) <==> width == 0 || height == 0 || Max(width, height) / 10 <= 1
  {
    var e := Drawn(width, height, draws, pos);
    if e.Err? then Err(e.fault)
    else Mutated(e.value, width, height, fits, draws, pos + DrawsBeforeMutation, 0)
  }

  /** On a canvas of at least 20 pixels along one side and under 10 along
      the other, `random` draws its semi-axes but then always panics. */
  lemma RandomPanicsOnNarrowCanvas(width: nat, height: nat, fits: AxisFits, draws: Draws, pos: nat)
    requires AxisFitsLaws(fits)
    requires width < 10 || height < 10
    ensures Random(width, height, fits, draws, pos).Err?
    ensures width > 0 && height > 0 && Max(width, height) >= 20 ==>
      Random(width, height, fits, draws, pos) == Err(TooManyMutationAttempts)
  {
    var e := Drawn(width, height, draws, pos);
    if e.Ok? {
      MutatedPanicsOnNarrowCanvas(e.value, width, height, fits, draws, pos + DrawsBeforeMutation, 0);
    }
  }

  // ---------------------------------------------------------------------
  // Containment

  /** `un_rotated_contains_pixel(x, y)`: `dx^2 / a^2 + dy^2 / b^2 <= 1`,
      written without division as `dx^2 b^2 + dy^2 a^2 <= a^2 b^2`. A zero
      semi-axis makes the floating-point quotient infinite or NaN, so it
      contains nothing. */
  predicate Contains(e: Ellipse, x: int, y: int) {
    var dx, dy := x - e.center.x, y - e.center.y;
    e.a != 0 && e.b != 0 && dx * dx * (e.b * e.b) + dy * dy * (e.a * e.a) <= e.a * e.a * (e.b * e.b)
  }

  /** The centre and the four ends of the axes are contained. */
  lemma ContainsCentreAndAxisEnds(e: Ellipse)
    requires e.a != 0 && e.b != 0
    ensures Contains(e, e.center.x, e.center.y)
    ensures Contains(e, e.center.x + e.a, e.center.y) && Contains(e, e.center.x - e.a, e.center.y)
    ensures Contains(e, e.center.x, e.center.y + e.b) && Contains(e, e.center.x, e.center.y - e.b)
  {
  }

  /** Containment is symmetric about both axes through the centre. */
  lemma ContainsSymmetric(e: Ellipse, dx: int, dy: int)
    ensures Contains(e, e.center.x + dx, e.center.y + dy) == Contains(e, e.center.x - dx, e.center.y + dy)
    ensures Contains(e, e.center.x + dx, e.center.y + dy) == Contains(e, e.center.x + dx, e.center.y - dy)
  {
    assert (-dx) * (-dx) == dx * dx;
    assert (-dy) * (-dy) == dy * dy;
  }

  /** Beyond `[-a, a]` the square exceeds `a * a`. */
  lemma SquareGrows(d: int, a: int)
    requires a >= 1
    ensures d > a ==> d * d > a * a
    ensures d < -a ==> d * d > a * a
  {
    if d > a {
      assert (d - a) * (d + a) == d * d - a * a;
      MulSign(d - a, d + a);
    } else if d < -a {
      assert (-d - a) * (-d + a) == d * d - a * a;
      MulSign(-d - a, -d + a);
    }
  }

  /** A contained point lies in the closed box `[cx - a, cx + a] x [cy - b, cy + b]`. */
  lemma ContainedWithinAxes(e: Ellipse, x: int, y: int)
    requires e.a >= 1 && e.b >= 1 && Contains(e, x, y)
    ensures e.center.x - e.a <= x <= e.center.x + e.a
    ensures e.center.y - e.b <= y <= e.center.y + e.b
  {
    var dx, dy := x - e.center.x, y - e.center.y;
    var aa, bb := e.a * e.a, e.b * e.b;
    ScaleMonotone(aa, 0, dy * dy);
    ScaleMonotone(bb, 0, dx * dx);
    assert bb * (dx * dx) <= bb * aa;
    assert aa * (dy * dy) <= aa * bb;
    CancelPositive(bb, dx * dx, aa);
    CancelPositive(aa, dy * dy, bb);
    SquareGrows(dx, e.a);
    SquareGrows(dy, e.b);
  }

  /** The first ellipse of the test: centre (2, 2), both semi-axes 2. */
  lemma ContainsFirstExample(e: Ellipse)
    requires e.center == Point(2, 2) && e.a == 2 && e.b == 2
    ensures Contains(e, 2, 2)
    ensures !Contains(e, 0, 0)
  {
  }

  /** The second ellipse of the test: centre (2, 2), both semi-axes 10. */
  lemma ContainsSecondExample(e: Ellipse)
    requires e.center == Point(2, 2) && e.a == 10 && e.b == 10
    ensures Contains(e, 2, -8)
    ensures !Contains(e, 12, -8)
    ensures !Contains(e, 11, -7)
  {
  }

  // ---------------------------------------------------------------------
  // Rasterization and painting

  function Inside(e: Ellipse): Keep {
    (x: int, y: int) => Contains(e, x, y)
  }

  /** The half-open box `[cx - a, cx + a) x [cy - b, cy + b)` scanned x then
      y, keeping the contained points. */
  function UnrotatedPixels(e: Ellipse): seq<Point> {
    var c := e.center;
    Scan(c.x - e.a, c.x + e.a, c.y - e.b, c.y + e.b, Inside(e))
  }

  /** The pixels of `get_pixels`: the filtered scan, each point rotated about the centre. */
  function Pixels(e: Ellipse, rotate: Rotation): seq<Point> {
    RotateAll(UnrotatedPixels(e), e.center, e.angle, rotate)
  }

  /** `get_pixels`: the nested loops over the half-open box, then the in-place rotation. */
  method GetPixels(e: Ellipse, rotate: Rotation) returns (pixels: seq<Point>)
    ensures pixels == Pixels(e, rotate)
  {
    var minX := e.center.x - e.a;
    var minY := e.center.y - e.b;
    var maxX := e.center.x + e.a;
    var maxY := e.center.y + e.b;
    pixels := [];
    var x := minX;
    while x < maxX
      invariant x == minX || minX <= x <= maxX
      invariant pixels == Scan(minX, x, minY, maxY, Inside(e))
    {
      var y := minY;
      while y < maxY
        invariant y == minY || minY <= y <= maxY
        invariant pixels == Scan(minX, x, minY, maxY, Inside(e)) + Column(x, minY, y, Inside(e))
      {
        if Contains(e, x, y) {
          pixels := pixels + [Point(x, y)];
        }
        y := y + 1;
      }
      x := x + 1;
    }
    pixels := RotateInPlace(pixels, e.center, e.angle, rotate);
  }

  /** The scan holds exactly the contained points of its half-open box, in
      strict x-then-y order. With positive semi-axes those are the contained
      points off the right and bottom axis ends. */
  lemma UnrotatedPixelsAreTheEllipse(e: Ellipse, q: Point)
    ensures q in UnrotatedPixels(e) <==>
      e.center.x - e.a <= q.x < e.center.x + e.a &&
      e.center.y - e.b <= q.y < e.center.y + e.b && Contains(e, q.x, q.y)
    ensures e.a >= 1 && e.b >= 1 ==>
      (q in UnrotatedPixels(e) <==> Contains(e, q.x, q.y) && q.x != e.center.x + e.a && q.y != e.center.y + e.b)
    ensures StrictlyOrdered(UnrotatedPixels(e))
  {
    var c := e.center;
    ScanMember(c.x - e.a, c.x + e.a, c.y - e.b, c.y + e.b, Inside(e), q);
    ScanOrdered(c.x - e.a, c.x + e.a, c.y - e.b, c.y + e.b, Inside(e));
    if e.a >= 1 && e.b >= 1 && Contains(e, q.x, q.y) {
      ContainedWithinAxes(e, q.x, q.y);
    }
  }

  /** The half-open scan is not symmetric: the left and top axis ends are
      listed, the right and bottom ones, though contained, are not. */
  lemma UnrotatedPixelsOmitRightAndBottomEnds(e: Ellipse)
    requires e.a >= 1 && e.b >= 1
    ensures Point(e.center.x - e.a, e.center.y) in UnrotatedPixels(e)
    ensures Point(e.center.x, e.center.y - e.b) in UnrotatedPixels(e)
    ensures Point(e.center.x + e.a, e.center.y) !in UnrotatedPixels(e)
    ensures Point(e.center.x, e.center.y + e.b) !in UnrotatedPixels(e)
  {
    ContainsCentreAndAxisEnds(e);
    UnrotatedPixelsAreTheEllipse(e, Point(e.center.x - e.a, e.center.y));
    UnrotatedPixelsAreTheEllipse(e, Point(e.center.x, e.center.y - e.b));
    UnrotatedPixelsAreTheEllipse(e, Point(e.center.x + e.a, e.center.y));
    UnrotatedPixelsAreTheEllipse(e, Point(e.center.x, e.center.y + e.b));
  }

  /** At angle 0 the pixels are the unrotated filtered scan. */
  lemma PixelsAtAngleZero(e: Ellipse, rotate: Rotation)
    requires RotationLaws(rotate) && e.angle == 0
    ensures Pixels(e, rotate) == UnrotatedPixels(e)
  {
    RotateAllByZero(UnrotatedPixels(e), e.center, rotate);
  }

  /** `paint_on`: blends the colour onto a copy of the buffer at every pixel
      strictly inside row 0 and column 0 and within the buffer. */
  method PaintOn(e: Ellipse, image: Image, rotate: Rotation, blend: Blend) returns (output: Image)
    requires image.Wf()
    ensures output == Blended(image, Pixels(e, rotate), e.color, blend)
    ensures output.Wf() && output.width == image.width && output.height == image.height
    ensures forall x, y :: image.InBounds(x, y) && (x == 0 || y == 0 || Point(x, y) !in Pixels(e, rotate)) ==>
      output.At(x, y) == image.At(x, y)
  {
    var pixels := GetPixels(e, rotate);
    output := BlendPixels(image, pixels, e.color, blend);
    forall x, y | image.InBounds(x, y) && (x == 0 || y == 0 || Point(x, y) !in pixels)
      ensures output.At(x, y) == image.At(x, y)
    {
      BlendedUntouched(image, pixels, e.color, blend, x, y);
    }
  }
}
