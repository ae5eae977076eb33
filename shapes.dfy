/** The shape families behind one value type, the dispatch of the shape
    operations (`mutate`, `get_pixels`, `paint_on`, the colour a shape is
    fitted with, `random`), and the floating-point and foreign operations
    the engine is run with. */
module Shapes {
  import opened Utilities
  import opened Oracle
  import opened Points
  import opened Raster
  import Triangles
  import QuadraticBeziers
  import Rectangles
  import Ellipses

  /** The families `add_new_shape` can place. */
  datatype Family = TriangleFamily | QuadraticBezierFamily | RectangleFamily | EllipseFamily

  datatype Shape =
    | Tri(triangle: Triangles.Triangle)
    | Quad(curve: QuadraticBeziers.QuadraticBezier)
    | Rect(rectangle: Rectangles.Rectangle)
    | Ell(ellipse: Ellipses.Ellipse)

  /** The operations the engine takes as given: the triangle's angle test
      (`acos`), the ellipse's axis comparison (`f64`), `rotate_point`, the
      sampled pixels of a curve, `Pixel::blend`, the library drawing of a
      triangle or curve followed by `overlay`, the root-mean-squared-error
      score of a target against an approximation, and the SVG element of a
      shape at the output scale. */
  datatype Env = Env(
    angleOk: Triangles.AngleTest,
    fits: Ellipses.AxisFits,
    rotate: Rotation,
    curvePixels: QuadraticBeziers.QuadraticBezier -> seq<Point>,
    blend: Blend,
    draw: (Shape, Image) -> Image,
    score: (Image, Image) -> nat,
    element: Shape -> string)

  /** What is known of those operations: the laws of the rotation and the
      axis comparison, drawing keeps the size of the buffer, and the sampled
      pixels of a curve depend on its points only. */
  ghost predicate EnvLaws(env: Env) {
    && RotationLaws(env.rotate)
    && Ellipses.AxisFitsLaws(env.fits)
    && (forall s: Shape, img: Image :: img.Wf() ==>
          env.draw(s, img).Wf() && env.draw(s, img).width == img.width && env.draw(s, img).height == img.height)
    && (forall c1: QuadraticBeziers.QuadraticBezier, c2: QuadraticBeziers.QuadraticBezier ::
          c1.start == c2.start && c1.control == c2.control && c1.end == c2.end ==>
          env.curvePixels(c1) == env.curvePixels(c2))
  }

  function FamilyOf(s: Shape): Family {
    match s
    case Tri(_) => TriangleFamily
    case Quad(_) => QuadraticBezierFamily
    case Rect(_) => RectangleFamily
    case Ell(_) => EllipseFamily
  }

  // ---------------------------------------------------------------------
  // Colour

  function ColorOf(s: Shape): Rgba {
    match s
    case Tri(t) => t.color
    case Quad(c) => c.color
    case Rect(r) => r.color
    case Ell(e) => e.color
  }

  /** The shape with its colour replaced, as `set_color_using` leaves it. */
  function WithColor(s: Shape, color: Rgba): (r: Shape)
    ensures ColorOf(r) == color && FamilyOf(r) == FamilyOf(s)
  {
    match s
    case Tri(t) => Tri(t.(color := color))
    case Quad(c) => Quad(c.(color := color))
    case Rect(rect) => Rect(rect.(color := color))
    case Ell(e) => Ell(e.(color := color))
  }

  /** Recolouring changes the colour only: the last colour wins, and putting
      back the own colour gives the shape itself. */
  lemma WithColorLaws(s: Shape, c1: Rgba, c2: Rgba)
    ensures WithColor(WithColor(s, c1), c2) == WithColor(s, c2)
    ensures WithColor(s, ColorOf(s)) == s
  {
  }

  // ---------------------------------------------------------------------
  // Validity and mutation

  /** `is_valid` of the shape's family on a `width` x `height` canvas. */
  predicate Valid(s: Shape, width: nat, height: nat, env: Env) {
    match s
    case Tri(t) => Triangles.IsValid(t, env.angleOk)
    case Quad(c) => QuadraticBeziers.IsValid(c)
    case Rect(r) => Rectangles.IsValid(r)
    case Ell(e) => Ellipses.IsValid(e, width, height, env.fits)
  }

  /** Validity does not depend on the colour. */
  lemma ValidIgnoresColor(s: Shape, width: nat, height: nat, env: Env, color: Rgba)
    ensures Valid(WithColor(s, color), width, height, env) == Valid(s, width, height, env)
  {
  }

  /** The outcome of the shape's `mutate`: a valid shape of the same family
      and colour with the position after its draws, or the panic. */
  function Mutated(s: Shape, width: nat, height: nat, env: Env, draws: Draws, pos: nat): (r: Result<(Shape, nat)>)
    ensures r.Ok? ==> Valid(r.value.0, width, height, env)
    ensures r.Ok? ==> FamilyOf(r.value.0) == FamilyOf(s) && ColorOf(r.value.0) == ColorOf(s)
    ensures r.Ok? ==> pos < r.value.1
    ensures r.Err? ==> r.fault == TooManyMutationAttempts && FamilyOf(s) != RectangleFamily
  {
    match s
    case Tri(t) =>
      var m := Triangles.Mutated(t, width, height, env.angleOk, draws, pos, 0);
      if m.Ok? then Ok((Tri(m.value.0), m.value.1)) else Err(m.fault)
    case Quad(c) =>
      var m := QuadraticBeziers.Mutated(c, width, height, draws, pos, 0);
      if m.Ok? then Ok((Quad(m.value.0), m.value.1)) else Err(m.fault)
    case Rect(rect) =>
      Ok((Rect(Rectangles.Attempt(rect, width, height, draws, pos)), pos + Rectangles.DrawsOfAttempt(draws, pos)))
    case Ell(e) =>
      var m := Ellipses.Mutated(e, width, height, env.fits, draws, pos, 0);
      if m.Ok? then Ok((Ell(m.value.0), m.value.1)) else Err(m.fault)
  }

  /** `shape.mutate(width, height, _)`, dispatched to the family's loop. */
  method Mutate(s: Shape, width: nat, height: nat, env: Env, draws: Draws, pos: nat) returns (r: Result<(Shape, nat)>)
    ensures r == Mutated(s, width, height, env, draws, pos)
  {
    match s
    case Tri(t) =>
      var m := Triangles.Mutate(t, width, height, env.angleOk, draws, pos);
      r := if m.Ok? then Ok((Tri(m.value.0), m.value.1)) else Err(m.fault);
    case Quad(c) =>
      var m := QuadraticBeziers.Mutate(c, width, height, draws, pos);
      r := if m.Ok? then Ok((Quad(m.value.0), m.value.1)) else Err(m.fault);
    case Rect(rect) =>
      var moved, next := Rectangles.Mutate(rect, width, height, draws, pos);
      r := Ok((Rect(moved), next));
    case Ell(e) =>
      var m := Ellipses.Mutate(e, width, height, env.fits, draws, pos);
      r := if m.Ok? then Ok((Ell(m.value.0), m.value.1)) else Err(m.fault);
  }

  /** `Family::random(width, height, border_extension, _)`: a freshly coloured
      valid shape of the family, or the panic of an empty range or of the
      mutation. The rectangle is drawn within the canvas. */
  function Random(family: Family, width: nat, height: nat, borderExtension: int, env: Env, draws: Draws, pos: nat)
    : (r: Result<(Shape, nat)>)
    ensures r.Ok? ==> FamilyOf(r.value.0) == family && ColorOf(r.value.0) == FreshColor
    ensures r.Ok? ==> Valid(r.value.0, width, height, env)
    ensures r.Err? ==> r.fault == EmptyRange || r.fault == TooManyMutationAttempts
    ensures width == 0 || height == 0 ==> r == Err(EmptyRange)
  {
    match family
    case TriangleFamily =>
      var m := Triangles.Random(width, height, borderExtension, env.angleOk, draws, pos);
      if m.Ok? then Ok((Tri(m.value.0), m.value.1)) else Err(m.fault)
    case QuadraticBezierFamily =>
      var m := QuadraticBeziers.Random(width, height, borderExtension, draws, pos);
      if m.Ok? then Ok((Quad(m.value.0), m.value.1)) else Err(m.fault)
    case RectangleFamily =>
      var m := Rectangles.Random(width, height, draws, pos);
      if m.Ok? then Ok((Rect(m.value.0), m.value.1)) else Err(m.fault)
    case EllipseFamily =>
      var m := Ellipses.Random(width, height, env.fits, draws, pos);
      if m.Ok? then Ok((Ell(m.value.0), m.value.1)) else Err(m.fault)
  }

  // ---------------------------------------------------------------------
  // Pixels and painting

  /** `get_pixels` of the shape's family. */
  function Pixels(s: Shape, env: Env): seq<Point> {
    match s
    case Tri(t) => Triangles.Pixels(t)
    case Quad(c) => env.curvePixels(c)
    case Rect(r) => Rectangles.Pixels(r, env.rotate)
    case Ell(e) => Ellipses.Pixels(e, env.rotate)
  }

  method GetPixels(s: Shape, env: Env) returns (pixels: seq<Point>)
    ensures pixels == Pixels(s, env)
  {
    match s
    case Tri(t) => pixels := Triangles.GetPixels(t);
    case Quad(c) => pixels := env.curvePixels(c);
    case Rect(r) => pixels := Rectangles.GetPixels(r, env.rotate);
    case Ell(e) => pixels := Ellipses.GetPixels(e, env.rotate);
  }

  /** Recolouring keeps the pixels, so the colour a shape is fitted with
      depends on its geometry only. */
  lemma PixelsIgnoreColor(s: Shape, env: Env, color: Rgba)
    requires EnvLaws(env)
    ensures Pixels(WithColor(s, color), env) == Pixels(s, env)
  {
    match s
    case Tri(t) =>
      var u := t.(color := color);
      var b := Triangles.BoundingBox(t);
      assert Triangles.BoundingBox(u) == b;
      ScanCongruent(b.lo.x, b.hi.x + 1, b.lo.y, b.hi.y + 1, Triangles.Inside(u), Triangles.Inside(t));
    case Quad(c) =>
    case Rect(r) =>
    case Ell(e) =>
      var u := e.(color := color);
      var c := e.center;
      ScanCongruent(c.x - e.a, c.x + e.a, c.y - e.b, c.y + e.b, Ellipses.Inside(u), Ellipses.Inside(e));
  }

  /** `paint_on`: the library drawing for triangles and curves, the
      bounds-filtered blend of the pixels for rectangles and ellipses. */
  function Painted(s: Shape, image: Image, env: Env): Image
    requires image.Wf()
  {
    match s
    case Tri(_) => env.draw(s, image)
    case Quad(_) => env.draw(s, image)
    case Rect(r) => Blended(image, Rectangles.Pixels(r, env.rotate), r.color, env.blend)
    case Ell(e) => Blended(image, Ellipses.Pixels(e, env.rotate), e.color, env.blend)
  }

  method PaintOn(s: Shape, image: Image, env: Env) returns (output: Image)
    requires image.Wf()
    ensures output == Painted(s, image, env)
  {
    match s
    case Tri(_) => output := env.draw(s, image);
    case Quad(_) => output := env.draw(s, image);
    case Rect(r) => output := Rectangles.PaintOn(r, image, env.rotate, env.blend);
    case Ell(e) => output := Ellipses.PaintOn(e, image, env.rotate, env.blend);
  }

  /** Painting keeps the size of the buffer. */
  lemma PaintedKeepsSize(s: Shape, image: Image, env: Env)
    requires EnvLaws(env) && image.Wf()
    ensures Painted(s, image, env).Wf()
    ensures Painted(s, image, env).width == image.width && Painted(s, image, env).height == image.height
  {
  }

  /** A rectangle or an ellipse never paints row 0 or column 0, nor any pixel
      it does not list. */
  lemma PaintedLeavesUnlistedPixels(s: Shape, image: Image, env: Env, x: int, y: int)
    requires image.Wf() && image.InBounds(x, y)
    requires s.Rect? || s.Ell?
    requires x == 0 || y == 0 || Point(x, y) !in Pixels(s, env)
    ensures Painted(s, image, env).At(x, y) == image.At(x, y)
  {
    BlendedUntouched(image, Pixels(s, env), ColorOf(s), env.blend, x, y);
  }
}
