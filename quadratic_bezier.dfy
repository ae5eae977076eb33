/** Quadratic Bezier curves: the squared-distance validity test, the bounded
    retry-until-valid mutation, the bounding box, random generation, and the
    stroke colour of the vector output. */
module QuadraticBeziers {
  import opened Utilities
  import opened Oracle
  import opened Points
  import opened Raster

  /** After this many failed attempts one more is made; if that fails too, `mutate` panics. */
  const MaximumMutationAttempts: nat := 100_000

  datatype QuadraticBezier = QuadraticBezier(color: Rgba, start: Point, control: Point, end: Point)

  /** `QuadraticBezier::new(start, end, control)`: note the argument order. */
  function New(start: Point, end: Point, control: Point): (c: QuadraticBezier)
    ensures c.color == FreshColor
    ensures c.start == start && c.end == end && c.control == control
  {
    QuadraticBezier(FreshColor, start, control, end)
  }

  // ---------------------------------------------------------------------
  // Validity

  function SquaredDistance(p: Point, q: Point): (d: int)
    ensures d >= 0
    ensures d == 0 <==> p == q
  {
    (p.x - q.x) * (p.x - q.x) + (p.y - q.y) * (p.y - q.y)
  }

  lemma SquaredDistanceSymmetric(p: Point, q: Point)
    ensures SquaredDistance(p, q) == SquaredDistance(q, p)
  {
  }

  /** The chord from start to end is strictly longer than each leg through
      the control point. */
  predicate IsValid(c: QuadraticBezier) {
    var d12 := SquaredDistance(c.start, c.control);
    var d23 := SquaredDistance(c.control, c.end);
    var d13 := SquaredDistance(c.start, c.end);
    d13 > d12 && d13 > d23
  }

  /** A curve with two coincident points is never valid. */
  lemma IsValidRejectsCoincident(c: QuadraticBezier)
    requires c.start == c.end || c.control == c.end || c.control == c.start
    ensures !IsValid(c)
  {
    SquaredDistanceSymmetric(c.control, c.end);
  }

  /** Exchanging start and end keeps validity. */
  lemma IsValidReversed(c: QuadraticBezier)
    ensures IsValid(c.(start := c.end, end := c.start)) == IsValid(c)
  {
    SquaredDistanceSymmetric(c.start, c.control);
    SquaredDistanceSymmetric(c.control, c.end);
    SquaredDistanceSymmetric(c.start, c.end);
  }

  /** A valid curve has three distinct points. */
  lemma ValidPointsAreDistinct(c: QuadraticBezier)
    requires IsValid(c)
    ensures c.start != c.end && c.start != c.control && c.control != c.end
  {
    if c.start == c.end || c.control == c.end || c.control == c.start {
      IsValidRejectsCoincident(c);
    }
  }

  // ---------------------------------------------------------------------
  // Mutation

  /** Draws consumed by one mutation attempt: the point index, then the two
      Gaussian deltas of that point. */
  const DrawsPerAttempt: nat := 3

  /** One attempt of `mutate`: `gen_range(0, 3)` picks start (0), end (1) or
      control (2), which the next two draws perturb; nothing else changes. */
  function Attempt(c: QuadraticBezier, width: nat, height: nat, draws: Draws, pos: nat): (r: QuadraticBezier)
    ensures r.color == c.color
    ensures var k := Uniform(draws(pos), 0, 3);
      var moved := (p: Point) => Points.Mutate(p, width, height, draws(pos + 1), draws(pos + 2));
      && (if k == 0 then r.start == moved(c.start) else r.start == c.start)
      && (if k == 1 then r.end == moved(c.end) else r.end == c.end)
      && (if k == 2 then r.control == moved(c.control) else r.control == c.control)
  {
    var dx, dy := draws(pos + 1), draws(pos + 2);
    match Uniform(draws(pos), 0, 3)
    case 0 => c.(start := Points.Mutate(c.start, width, height, dx, dy))
    case 1 => c.(end := Points.Mutate(c.end, width, height, dx, dy))
    case _ => c.(control := Points.Mutate(c.control, width, height, dx, dy))
  }

  /** An attempt changes at most one of the three points. */
  lemma AttemptMovesOnePoint(c: QuadraticBezier, width: nat, height: nat, draws: Draws, pos: nat)
    ensures var r := Attempt(c, width, height, draws, pos);
      (r.start == c.start && r.end == c.end) ||
      (r.start == c.start && r.control == c.control) ||
      (r.end == c.end && r.control == c.control)
  {
  }

  /** The outcome of `mutate` once `done` attempts have failed, reading the
      next attempt's draws at `pos`. */
  function Mutated(c: QuadraticBezier, width: nat, height: nat, draws: Draws, pos: nat, done: nat)
    : (r: Result<(QuadraticBezier, nat)>)
    requires done <= MaximumMutationAttempts
    ensures r.Ok? ==> IsValid(r.value.0) && r.value.0.color == c.color
    ensures r.Ok? ==> pos + DrawsPerAttempt <= r.value.1
    ensures r.Err? ==> r.fault == TooManyMutationAttempts
    decreases MaximumMutationAttempts - done
  {
    var next := Attempt(c, width, height, draws, pos);
    if IsValid(next) then Ok((next, pos + DrawsPerAttempt))
    else if done + 1 > MaximumMutationAttempts then Err(TooManyMutationAttempts)
    else Mutated(next, width, height, draws, pos + DrawsPerAttempt, done + 1)
  }

  /** When every draw is zero, each attempt picks the start and moves it by
      nothing; a curve whose start already coincides with its end, on the
      extended canvas, is then never repaired and `mutate` panics. */
  lemma {:induction false} MutatedPanicsWhenStuck(c: QuadraticBezier, width: nat, height: nat, draws: Draws, pos: nat, done: nat)
    requires done <= MaximumMutationAttempts
    requires c.start == c.end
    requires -BorderExtension <= c.start.x <= width + BorderExtension
    requires -BorderExtension <= c.start.y <= height + BorderExtension
    requires forall n: nat :: draws(n) == 0
    ensures Mutated(c, width, height, draws, pos, done) == Err(TooManyMutationAttempts)
    decreases MaximumMutationAttempts - done
  {
    var next := Attempt(c, width, height, draws, pos);
    assert draws(pos) == 0 && draws(pos + 1) == 0 && draws(pos + 2) == 0;
    MutateMovesByDelta(c.start, width, height, 0, 0);
    assert next == c;
    IsValidRejectsCoincident(next);
    if done + 1 <= MaximumMutationAttempts {
      MutatedPanicsWhenStuck(next, width, height, draws, pos + DrawsPerAttempt, done + 1);
    }
  }

  /** `mutate`: the counter loop that perturbs one point per attempt until the
      curve is valid, and panics after the attempt that takes the count past
      the maximum. */
  method Mutate(c: QuadraticBezier, width: nat, height: nat, draws: Draws, pos: nat)
    returns (r: Result<(QuadraticBezier, nat)>)
    ensures r == Mutated(c, width, height, draws, pos, 0)
  {
    var current := c;
    var at: nat := pos;
    var i: nat := 0;
    while true
      invariant i <= MaximumMutationAttempts
      invariant Mutated(current, width, height, draws, at, i) == Mutated(c, width, height, draws, pos, 0)
      decreases MaximumMutationAttempts - i
    {
      i := i + 1;
      var k := Uniform(draws(at), 0, 3);
      var dx, dy := draws(at + 1), draws(at + 2);
      if k == 0 {
        current := current.(start := Points.Mutate(current.start, width, height, dx, dy));
      } else if k == 1 {
        current := current.(end := Points.Mutate(current.end, width, height, dx, dy));
      } else {
        current := current.(control := Points.Mutate(current.control, width, height, dx, dy));
      }
      at := at + DrawsPerAttempt;
      if IsValid(current) {
        return Ok((current, at));
      }
      if i > MaximumMutationAttempts {
        return Err(TooManyMutationAttempts);
      }
    }
  }

  // ---------------------------------------------------------------------
  // Bounding box and random generation

  /** `bounding_box`: the tightest box around start, control and end. */
  function BoundingBox(c: QuadraticBezier): (b: Box)
    ensures forall p :: p in [c.start, c.control, c.end] ==>
      b.lo.x <= p.x <= b.hi.x && b.lo.y <= p.y <= b.hi.y
    ensures b.lo.x in {c.start.x, c.control.x, c.end.x} && b.hi.x in {c.start.x, c.control.x, c.end.x}
    ensures b.lo.y in {c.start.y, c.control.y, c.end.y} && b.hi.y in {c.start.y, c.control.y, c.end.y}
  {
    Box(Point(Min(c.start.x, Min(c.control.x, c.end.x)), Min(c.start.y, Min(c.control.y, c.end.y))),
        Point(Max(c.start.x, Max(c.control.x, c.end.x)), Max(c.start.y, Max(c.control.y, c.end.y))))
  }

  /** Draws consumed before the mutation of `random`: one point, then two in its radius. */
  const DrawsBeforeMutation: nat := 6

  /** `QuadraticBezier::random`: a random start, control and end within
      `borderExtension` of it, then one `mutate` to make the curve valid. */
  function Random(width: nat, height: nat, borderExtension: int, draws: Draws, pos: nat)
    : (r: Result<(QuadraticBezier, nat)>)
    ensures r.Ok? ==> IsValid(r.value.0) && r.value.0.color == FreshColor
    ensures r.Err? ==> r.fault == EmptyRange || r.fault == TooManyMutationAttempts
    ensures width == 0 || height == 0 || borderExtension <= 0 ==> r == Err(EmptyRange)
  {
    var start := RandomPoint(width, height, draws(pos), draws(pos + 1));
    if start.Err? then Err(start.fault)
    else
      var control := RandomPointInRadius(start.value, borderExtension, draws(pos + 2), draws(pos + 3));
      var end := RandomPointInRadius(start.value, borderExtension, draws(pos + 4), draws(pos + 5));
      // Both radius draws panic exactly when `borderExtension <= 0`.
      if control.Err? then Err(control.fault)
      else Mutated(New(start.value, end.value, control.value), width, height, draws, pos + DrawsBeforeMutation, 0)
  }

  // ---------------------------------------------------------------------
  // Stroke colour of the vector output

  /** `{:X}`: upper-case hexadecimal without padding. */
  function HexUnpadded(v: Byte): (s: string)
    ensures 1 <= |s| <= 2
  {
    if v < 16 then [HexDigit(v)] else Hex2(v)
  }

  /** The stroke colour as `as_svg` writes it, `#{:X}{:X}{:X}`. */
  function StrokeColorAsWritten(c: Rgba): string {
    "#" + HexUnpadded(c.r) + HexUnpadded(c.g) + HexUnpadded(c.b)
  }

  /** Two different colours are written as the same string. */
  lemma StrokeColorAsWrittenCollides()
    ensures StrokeColorAsWritten(Rgba(0x01, 0x23, 0x04, 128)) == "#1234"
    ensures StrokeColorAsWritten(Rgba(0x12, 0x03, 0x04, 128)) == "#1234"
  {
  }

  /** The stroke colour as the other shapes write their fill, `#RRGGBB`. */
  function StrokeColor(c: Rgba): (s: string)
    ensures IsHexColor(s) && ParseHexColor(s) == (c.r, c.g, c.b)
  {
    RgbToHexRoundTrip(c);
    RgbToHex(c)
  }

  /** Written with padding, different colours give different strings. */
  lemma StrokeColorInjective(c1: Rgba, c2: Rgba)
    requires StrokeColor(c1) == StrokeColor(c2)
    ensures c1.r == c2.r && c1.g == c2.g && c1.b == c2.b
  {
  }
}
