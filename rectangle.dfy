/** Rotated rectangles: the single-attempt mutation with clamped sides,
    random generation, the inclusive box scan and the bounds-filtered paint. */
module Rectangles {
  import opened Utilities
  import opened Oracle
  import opened Points
  import opened Raster

  /** `width`, `height` and `angle` are `u32`; the angle is in degrees. */
  datatype Rectangle = Rectangle(color: Rgba, center: Point, width: nat, height: nat, angle: nat)

  /** The least side length, and the lower end of every side range. */
  const MinimumSide: nat := 5

  /** Exclusive upper end of the angle range. */
  const AngleRange: nat := 180

  /** `is_valid`: every rectangle is valid. */
  predicate IsValid(rect: Rectangle) {
    true
  }

  /** The side-length bound of `mutate` on a `width` x `height` canvas:
      `clamp(_, 5, max(width, height))`, whose lower bound wins on a canvas
      smaller than 5. */
  function SideBound(width: nat, height: nat): (m: int)
    ensures m >= MinimumSide && m >= width && m >= height
  {
    Max(MinimumSide, Max(width, height))
  }

  /** The ranges `mutate` keeps on a `width` x `height` canvas. */
  predicate InRange(rect: Rectangle, width: nat, height: nat) {
    && -BorderExtension <= rect.center.x <= width + BorderExtension
    && -BorderExtension <= rect.center.y <= height + BorderExtension
    && MinimumSide <= rect.width <= SideBound(width, height)
    && MinimumSide <= rect.height <= SideBound(width, height)
    && rect.angle < AngleRange
  }

  // ---------------------------------------------------------------------
  // Mutation

  /** `clamp(side as i32 + delta, 5, max(width, height) as i32) as u32`; the
      clamp never goes below 5, so the cast back to `u32` is exact. */
  function ClampSide(side: nat, delta: int, width: nat, height: nat): (s: nat)
    ensures MinimumSide <= s <= SideBound(width, height)
    ensures MinimumSide <= side + delta <= Max(width, height) ==> s == side + delta
  {
    Clamp(side + delta, MinimumSide, Max(width, height))
  }

  /** Draws consumed by one attempt: the field index, then two Gaussian
      deltas for the centre or one draw for any other field. */
  function DrawsOfAttempt(draws: Draws, pos: nat): nat {
    if Uniform(draws(pos), 0, 4) == 0 then 3 else 2
  }

  /** One attempt of `mutate`: `gen_range(0..4)` picks the centre (0), the
      width (1), the height (2) or the angle (3), and only that field changes. */
  function Attempt(rect: Rectangle, width: nat, height: nat, draws: Draws, pos: nat): (r: Rectangle)
    ensures r.color == rect.color
    ensures var k := Uniform(draws(pos), 0, 4);
      && (if k == 0 then r.center == Points.Mutate(rect.center, width, height, draws(pos + 1), draws(pos + 2))
          else r.center == rect.center)
      && (if k == 1 then r.width == ClampSide(rect.width, draws(pos + 1), width, height)
          else r.width == rect.width)
      && (if k == 2 then r.height == ClampSide(rect.height, draws(pos + 1), width, height)
          else r.height == rect.height)
      && (if k == 3 then r.angle == Uniform(draws(pos + 1), 0, AngleRange) else r.angle == rect.angle)
  {
    match Uniform(draws(pos), 0, 4)
    case 0 => rect.(center := Points.Mutate(rect.center, width, height, draws(pos + 1), draws(pos + 2)))
    case 1 => rect.(width := ClampSide(rect.width, draws(pos + 1), width, height))
    case 2 => rect.(height := ClampSide(rect.height, draws(pos + 1), width, height))
    case _ => rect.(angle := Uniform(draws(pos + 1), 0, AngleRange))
  }

  /** An attempt keeps the ranges of the canvas it is given. */
  lemma AttemptKeepsRanges(rect: Rectangle, width: nat, height: nat, draws: Draws, pos: nat)
    requires InRange(rect, width, height)
    ensures InRange(Attempt(rect, width, height, draws, pos), width, height)
  {
  }

  /** An attempt changes at most one of the centre, width, height and angle. */
  lemma AttemptChangesOneField(rect: Rectangle, width: nat, height: nat, draws: Draws, pos: nat)
    ensures var r := Attempt(rect, width, height, draws, pos);
      var same := (if r.center == rect.center then 1 else 0) + (if r.width == rect.width then 1 else 0)
                + (if r.height == rect.height then 1 else 0) + (if r.angle == rect.angle then 1 else 0);
      same >= 3
  {
  }

  /** `mutate`. Its loop ends after the first attempt, because `is_valid`
      holds for every rectangle, so it never reaches the attempt limit; the
      attempt is written out once. Returns the rectangle and the position
      after the draws it used. */
  method Mutate(rect: Rectangle, width: nat, height: nat, draws: Draws, pos: nat) returns (r: Rectangle, next: nat)
    ensures r == Attempt(rect, width, height, draws, pos)
    ensures next == pos + DrawsOfAttempt(draws, pos)
    ensures IsValid(r)
  {
    r := rect;
    var k := Uniform(draws(pos), 0, 4);
    if k == 0 {
      r := r.(center := Points.Mutate(r.center, width, height, draws(pos + 1), draws(pos + 2)));
      next := pos + 3;
    } else if k == 1 {
      r := r.(width := ClampSide(r.width, draws(pos + 1), width, height));
      next := pos + 2;
    } else if k == 2 {
      r := r.(height := ClampSide(r.height, draws(pos + 1), width, height));
      next := pos + 2;
    } else {
      r := r.(angle := Uniform(draws(pos + 1), 0, AngleRange));
      next := pos + 2;
    }
  }

  // ---------------------------------------------------------------------
  // Random generation

  /** Draws consumed before the mutation of `random`: the centre, the two
      sides and the angle. */
  const DrawsBeforeMutation: nat := 5

  /** `Rectangle::random` as written: the `let width` and `let height`
      bindings shadow the canvas size, so the height range is bounded by
      the rectangle's own drawn width, and `mutate` is handed the rectangle's
      own sides as the canvas. */
  function RandomAsWritten(width: nat, height: nat, draws: Draws, pos: nat): (r: Result<(Rectangle, nat)>)
    ensures r.Err? ==> r.fault == EmptyRange
  {
    var center := RandomPoint(width, height, draws(pos), draws(pos + 1));
    var rw := GenRange(draws(pos + 2), MinimumSide, Max(width, height) / 2);
    if center.Err? then Err(center.fault)
    else if rw.Err? then Err(rw.fault)
    else
      var w: nat := rw.value;
      var rh := GenRange(draws(pos + 3), MinimumSide, Max(w, height) / 2);
      if rh.Err? then Err(rh.fault)
      else
        var h: nat := rh.value;
        var rect := Rectangle(FreshColor, center.value, w, h, Uniform(draws(pos + 4), 0, AngleRange));
        var at := pos + DrawsBeforeMutation;
        Ok((Attempt(rect, w, h, draws, at), at + DrawsOfAttempt(draws, at)))
  }

  /** `Rectangle::random` with both side ranges and the mutation bounded by
      the canvas, as the ellipse's `random` does. */
  function Random(width: nat, height: nat, draws: Draws, pos: nat): (r: Result<(Rectangle, nat)>)
    ensures r.Ok? <==> width > 0 && height > 0 && Max(width, height) / 2 > MinimumSide
    ensures r.Ok? ==> InRange(r.value.0, width, height) && r.value.0.color == FreshColor
    ensures r.Err? ==> r.fault == EmptyRange
  {
    var center := RandomPoint(width, height, draws(pos), draws(pos + 1));
    var rw := GenRange(draws(pos + 2), MinimumSide, Max(width, height) / 2);
    var rh := GenRange(draws(pos + 3), MinimumSide, Max(width, height) / 2);
    if center.Err? then Err(center.fault)
    else if rw.Err? then Err(rw.fault)
    else
      // `rh` panics exactly when `rw` does: they share one range.
      var rect := Rectangle(FreshColor, center.value, rw.value, rh.value, Uniform(draws(pos + 4), 0, AngleRange));
      var at := pos + DrawsBeforeMutation;
      AttemptKeepsRanges(rect, width, height, draws, at);
      Ok((Attempt(rect, width, height, draws, at), at + DrawsOfAttempt(draws, at)))
  }

  /** On a 100 x 10 canvas, a drawn width of 6 leaves the as-written height
      range `5..5` empty, so `random` panics; the corrected one succeeds. */
  lemma RandomAsWrittenPanicsOnWideCanvas(draws: Draws)
    requires forall n: nat :: draws(n) == if n == 2 then 1 else 0
    ensures GenRange(draws(2), MinimumSide, Max(100, 10) / 2) == Ok(6)
    ensures RandomAsWritten(100, 10, draws, 0) == Err(EmptyRange)
    ensures Random(100, 10, draws, 0).Ok?
  {
    assert draws(0) == 0 && draws(1) == 0 && draws(2) == 1 && draws(3) == 0;
  }

  // ---------------------------------------------------------------------
  // Rasterization and painting

  /** The test of a scan that keeps the whole box. */
  function Everywhere(): Keep {
    (x: int, y: int) => true
  }

  /** The inclusive box `[cx - w/2, cx + w/2] x [cy - h/2, cy + h/2]`, scanned x then y. */
  function BoxPixels(rect: Rectangle): seq<Point> {
    var c := rect.center;
    Scan(c.x - rect.width / 2, c.x + rect.width / 2 + 1, c.y - rect.height / 2, c.y + rect.height / 2 + 1, Everywhere())
  }

  /** The pixels of `get_pixels`: the box, each point rotated about the centre. */
  function Pixels(rect: Rectangle, rotate: Rotation): seq<Point> {
    RotateAll(BoxPixels(rect), rect.center, rect.angle, rotate)
  }

  /** `get_pixels`: the nested loops over the inclusive box, then the in-place rotation. */
  method GetPixels(rect: Rectangle, rotate: Rotation) returns (pixels: seq<Point>)
    ensures pixels == Pixels(rect, rotate)
  {
    var minX := rect.center.x - rect.width / 2;
    var minY := rect.center.y - rect.height / 2;
    var maxX := rect.center.x + rect.width / 2;
    var maxY := rect.center.y + rect.height / 2;
    pixels := [];
    var x := minX;
    while x < maxX + 1
      invariant minX <= x <= maxX + 1
      invariant pixels == Scan(minX, x, minY, maxY + 1, Everywhere())
    {
      var y := minY;
      while y < maxY + 1
        invariant minY <= y <= maxY + 1
        invariant pixels == Scan(minX, x, minY, maxY + 1, Everywhere()) + Column(x, minY, y, Everywhere())
      {
        pixels := pixels + [Point(x, y)];
        y := y + 1;
      }
      x := x + 1;
    }
    pixels := RotateInPlace(pixels, rect.center, rect.angle, rotate);
  }

  /** The box holds exactly its points, in strict x-then-y order, and has
      `(2 (w/2) + 1) (2 (h/2) + 1)` of them. */
  lemma BoxPixelsAreTheBox(rect: Rectangle, q: Point)
    ensures q in BoxPixels(rect) <==>
      rect.center.x - rect.width / 2 <= q.x <= rect.center.x + rect.width / 2 &&
      rect.center.y - rect.height / 2 <= q.y <= rect.center.y + rect.height / 2
    ensures StrictlyOrdered(BoxPixels(rect))
    ensures |BoxPixels(rect)| == (2 * (rect.width / 2) + 1) * (2 * (rect.height / 2) + 1)
  {
    var c := rect.center;
    var x0, x1 := c.x - rect.width / 2, c.x + rect.width / 2 + 1;
    var y0, y1 := c.y - rect.height / 2, c.y + rect.height / 2 + 1;
    ScanMember(x0, x1, y0, y1, Everywhere(), q);
    ScanOrdered(x0, x1, y0, y1, Everywhere());
    ScanFullLength(x0, x1, y0, y1, Everywhere());
  }

  /** At angle 0 the pixels are the unrotated box. */
  lemma PixelsAtAngleZero(rect: Rectangle, rotate: Rotation)
    requires RotationLaws(rotate) && rect.angle == 0
    ensures Pixels(rect, rotate) == BoxPixels(rect)
  {
    RotateAllByZero(BoxPixels(rect), rect.center, rotate);
  }

  /** The scan of the 5 x 5 square about the origin. */
  lemma SquareOfSideFiveScan()
    ensures Scan(-2, 3, -2, 3, Everywhere()) ==
      [Point(-2, -2), Point(-2, -1), Point(-2, 0), Point(-2, 1), Point(-2, 2),
       Point(-1, -2), Point(-1, -1), Point(-1, 0), Point(-1, 1), Point(-1, 2),
       Point(0, -2), Point(0, -1), Point(0, 0), Point(0, 1), Point(0, 2),
       Point(1, -2), Point(1, -1), Point(1, 0), Point(1, 1), Point(1, 2),
       Point(2, -2), Point(2, -1), Point(2, 0), Point(2, 1), Point(2, 2)]
  {
    var keep := Everywhere();
    ColumnRun(-2, -2, 3, keep, -2, 3);
    ColumnRun(-1, -2, 3, keep, -2, 3);
    ColumnRun(0, -2, 3, keep, -2, 3);
    ColumnRun(1, -2, 3, keep, -2, 3);
    ColumnRun(2, -2, 3, keep, -2, 3);
    assert Scan(-2, 3, -2, 3, keep) == Run(-2, -2, 3) + Run(-1, -2, 3) + Run(0, -2, 3) + Run(1, -2, 3) + Run(2, -2, 3);
  }

  /** The test's 5 x 5 square about the origin, for any colour. */
  lemma GetPixelsExample(rect: Rectangle, rotate: Rotation)
    requires RotationLaws(rotate)
    requires rect.center == Point(0, 0) && rect.width == 5 && rect.height == 5 && rect.angle == 0
    ensures Pixels(rect, rotate) ==
      [Point(-2, -2), Point(-2, -1), Point(-2, 0), Point(-2, 1), Point(-2, 2),
       Point(-1, -2), Point(-1, -1), Point(-1, 0), Point(-1, 1), Point(-1, 2),
       Point(0, -2), Point(0, -1), Point(0, 0), Point(0, 1), Point(0, 2),
       Point(1, -2), Point(1, -1), Point(1, 0), Point(1, 1), Point(1, 2),
       Point(2, -2), Point(2, -1), Point(2, 0), Point(2, 1), Point(2, 2)]
  {
    PixelsAtAngleZero(rect, rotate);
    assert BoxPixels(rect) == Scan(-2, 3, -2, 3, Everywhere());
    SquareOfSideFiveScan();
  }

  /** `paint_on`: blends the colour onto a copy of the buffer at every pixel
      strictly inside row 0 and column 0 and within the buffer. */
  method PaintOn(rect: Rectangle, image: Image, rotate: Rotation, blend: Blend) returns (output: Image)
    requires image.Wf()
    ensures output == Blended(image, Pixels(rect, rotate), rect.color, blend)
    ensures output.Wf() && output.width == image.width && output.height == image.height
    ensures forall x, y :: image.InBounds(x, y) && (x == 0 || y == 0 || Point(x, y) !in Pixels(rect, rotate)) ==>
      output.At(x, y) == image.At(x, y)
  {
    var pixels := GetPixels(rect, rotate);
    output := BlendPixels(image, pixels, rect.color, blend);
    forall x, y | image.InBounds(x, y) && (x == 0 || y == 0 || Point(x, y) !in pixels)
      ensures output.At(x, y) == image.At(x, y)
    {
      BlendedUntouched(image, pixels, rect.color, blend, x, y);
    }
  }
}
