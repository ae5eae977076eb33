/** Integer rasterization shared by the shape families: the x-then-y scan of
    a box with a per-pixel test, rotating a pixel list, and the RGBA buffer
    with the bounds-filtered blend that rectangles and ellipses paint with. */
module Raster {
  import opened Utilities
  import opened Points

  // ---------------------------------------------------------------------
  // Box scans

  /** Two opposite corners of a box: `lo` the component-wise minimum, `hi` the maximum. */
  datatype Box = Box(lo: Point, hi: Point)

  /** The per-pixel test of a scan. */
  type Keep = (int, int) -> bool

  /** The points `(x, y)` for `y` in `y0..y1` that pass `keep`, in `y` order. */
  function Column(x: int, y0: int, y1: int, keep: Keep): seq<Point>
    decreases y1 - y0
  {
    if y1 <= y0 then []
    else Column(x, y0, y1 - 1, keep) + (if keep(x, y1 - 1) then [Point(x, y1 - 1)] else [])
  }

  /** The nested loop `for x in x0..x1 { for y in y0..y1 { if keep(x, y) { push } } }`. */
  function Scan(x0: int, x1: int, y0: int, y1: int, keep: Keep): seq<Point>
    decreases x1 - x0
  {
    if x1 <= x0 then [] else Scan(x0, x1 - 1, y0, y1, keep) + Column(x1 - 1, y0, y1, keep)
  }

  lemma {:induction false} ColumnMember(x: int, y0: int, y1: int, keep: Keep, p: Point)
    ensures p in Column(x, y0, y1, keep) <==> p.x == x && y0 <= p.y < y1 && keep(p.x, p.y)
    decreases y1 - y0
  {
    if y1 > y0 {
      ColumnMember(x, y0, y1 - 1, keep, p);
    }
  }

  /** A scan yields exactly the points of the half-open box that pass the test. */
  lemma {:induction false} ScanMember(x0: int, x1: int, y0: int, y1: int, keep: Keep, p: Point)
    ensures p in Scan(x0, x1, y0, y1, keep) <==> x0 <= p.x < x1 && y0 <= p.y < y1 && keep(p.x, p.y)
    decreases x1 - x0
  {
    if x1 > x0 {
      ScanMember(x0, x1 - 1, y0, y1, keep, p);
      ColumnMember(x1 - 1, y0, y1, keep, p);
    }
  }

  /** x-then-y order, strict. */
  predicate Before(p: Point, q: Point) {
    p.x < q.x || (p.x == q.x && p.y < q.y)
  }

  predicate StrictlyOrdered(s: seq<Point>) {
    forall i, j :: 0 <= i < j < |s| ==> Before(s[i], s[j])
  }

  lemma OrderedAppend(a: seq<Point>, b: seq<Point>)
    requires StrictlyOrdered(a) && StrictlyOrdered(b)
    requires forall p, q :: p in a && q in b ==> Before(p, q)
    ensures StrictlyOrdered(a + b)
  {
    forall i, j | 0 <= i < j < |a + b| ensures Before((a + b)[i], (a + b)[j]) {
      if j < |a| {
      } else if i >= |a| {
        assert (a + b)[i] == b[i - |a|] && (a + b)[j] == b[j - |a|];
      } else {
        assert (a + b)[i] in a && (a + b)[j] in b;
      }
    }
  }

  lemma {:induction false} ColumnOrdered(x: int, y0: int, y1: int, keep: Keep)
    ensures StrictlyOrdered(Column(x, y0, y1, keep))
    decreases y1 - y0
  {
    if y1 > y0 {
      ColumnOrdered(x, y0, y1 - 1, keep);
      var tail := if keep(x, y1 - 1) then [Point(x, y1 - 1)] else [];
      forall p, q | p in Column(x, y0, y1 - 1, keep) && q in tail ensures Before(p, q) {
        ColumnMember(x, y0, y1 - 1, keep, p);
      }
      OrderedAppend(Column(x, y0, y1 - 1, keep), tail);
    }
  }

  /** A scan lists its points strictly increasing in x-then-y order. */
  lemma {:induction false} ScanOrdered(x0: int, x1: int, y0: int, y1: int, keep: Keep)
    ensures StrictlyOrdered(Scan(x0, x1, y0, y1, keep))
    decreases x1 - x0
  {
    if x1 > x0 {
      ScanOrdered(x0, x1 - 1, y0, y1, keep);
      ColumnOrdered(x1 - 1, y0, y1, keep);
      forall p, q | p in Scan(x0, x1 - 1, y0, y1, keep) && q in Column(x1 - 1, y0, y1, keep)
        ensures Before(p, q)
      {
        ScanMember(x0, x1 - 1, y0, y1, keep, p);
        ColumnMember(x1 - 1, y0, y1, keep, q);
      }
      OrderedAppend(Scan(x0, x1 - 1, y0, y1, keep), Column(x1 - 1, y0, y1, keep));
    }
  }

  /** A strictly ordered list has no duplicates. */
  lemma OrderedDistinct(s: seq<Point>)
    requires StrictlyOrdered(s)
    ensures forall i, j :: 0 <= i < |s| && 0 <= j < |s| && i != j ==> s[i] != s[j]
  {
    forall i, j | 0 <= i < |s| && 0 <= j < |s| && i != j ensures s[i] != s[j] {
      if i < j { assert Before(s[i], s[j]); } else { assert Before(s[j], s[i]); }
    }
  }

  lemma {:induction false} ColumnCongruent(x: int, y0: int, y1: int, k1: Keep, k2: Keep)
    requires forall y :: y0 <= y < y1 ==> k1(x, y) == k2(x, y)
    ensures Column(x, y0, y1, k1) == Column(x, y0, y1, k2)
    decreases y1 - y0
  {
    if y1 > y0 {
      ColumnCongruent(x, y0, y1 - 1, k1, k2);
    }
  }

  /** Two tests that agree on the box give the same scan. */
  lemma {:induction false} ScanCongruent(x0: int, x1: int, y0: int, y1: int, k1: Keep, k2: Keep)
    requires forall x, y :: x0 <= x < x1 && y0 <= y < y1 ==> k1(x, y) == k2(x, y)
    ensures Scan(x0, x1, y0, y1, k1) == Scan(x0, x1, y0, y1, k2)
    decreases x1 - x0
  {
    if x1 > x0 {
      ScanCongruent(x0, x1 - 1, y0, y1, k1, k2);
      ColumnCongruent(x1 - 1, y0, y1, k1, k2);
    }
  }

  /** The points `(x, lo), ..., (x, hi - 1)`, in `y` order. */
  function Run(x: int, lo: int, hi: int): seq<Point>
    decreases hi - lo
  {
    if hi <= lo then [] else Run(x, lo, hi - 1) + [Point(x, hi - 1)]
  }

  /** A column whose test passes exactly on the rows `lo..hi` is that run of rows. */
  lemma {:induction false} ColumnRun(x: int, y0: int, y1: int, keep: Keep, lo: int, hi: int)
    requires y0 <= lo <= hi <= y1
    requires forall y :: y0 <= y < y1 ==> (keep(x, y) <==> lo <= y < hi)
    ensures Column(x, y0, y1, keep) == Run(x, lo, hi)
    decreases y1 - y0
  {
    if y1 > y0 {
      if hi == y1 && lo < hi {
        ColumnRun(x, y0, y1 - 1, keep, lo, hi - 1);
      } else if hi == y1 {
        ColumnRun(x, y0, y1 - 1, keep, y1 - 1, y1 - 1);
      } else {
        ColumnRun(x, y0, y1 - 1, keep, lo, hi);
      }
    }
  }

  lemma {:induction false} ColumnFullLength(x: int, y0: int, y1: int, keep: Keep)
    requires y0 <= y1
    requires forall u, v :: keep(u, v)
    ensures |Column(x, y0, y1, keep)| == y1 - y0
    decreases y1 - y0
  {
    if y1 > y0 {
      ColumnFullLength(x, y0, y1 - 1, keep);
    }
  }

  /** A scan whose test always passes yields every point of the box. */
  lemma {:induction false} ScanFullLength(x0: int, x1: int, y0: int, y1: int, keep: Keep)
    requires x0 <= x1 && y0 <= y1
    requires forall u, v :: keep(u, v)
    ensures |Scan(x0, x1, y0, y1, keep)| == (x1 - x0) * (y1 - y0)
    decreases x1 - x0
  {
    if x1 > x0 {
      ScanFullLength(x0, x1 - 1, y0, y1, keep);
      ColumnFullLength(x1 - 1, y0, y1, keep);
      assert (x1 - 1 - x0) * (y1 - y0) + (y1 - y0) == (x1 - x0) * (y1 - y0);
    }
  }

  // ---------------------------------------------------------------------
  // Rotating a pixel list

  /** Every pixel of `ps` rotated about `center`. */
  function RotateAll(ps: seq<Point>, center: Point, angle: nat, rotate: Rotation): (r: seq<Point>)
    ensures |r| == |ps|
  {
    seq(|ps|, i requires 0 <= i < |ps| => rotate(ps[i], center, angle))
  }

  /** Rotating by zero degrees leaves every pixel list as it is. */
  lemma RotateAllByZero(ps: seq<Point>, center: Point, rotate: Rotation)
    requires RotationLaws(rotate)
    ensures RotateAll(ps, center, 0, rotate) == ps
  {
    assert forall i :: 0 <= i < |ps| ==> RotateAll(ps, center, 0, rotate)[i] == rotate(ps[i], center, 0);
  }

  /** `for pixel in pixels.iter_mut() { rotate_point(pixel, center, angle) }`. */
  method RotateInPlace(pixels: seq<Point>, center: Point, angle: nat, rotate: Rotation)
    returns (rotated: seq<Point>)
    ensures |rotated| == |pixels|
    ensures forall i :: 0 <= i < |pixels| ==> rotated[i] == rotate(pixels[i], center, angle)
    ensures rotated == RotateAll(pixels, center, angle, rotate)
  {
    rotated := pixels;
    var i := 0;
    while i < |rotated|
      invariant 0 <= i <= |rotated| == |pixels|
      invariant forall j :: 0 <= j < i ==> rotated[j] == rotate(pixels[j], center, angle)
      invariant forall j :: i <= j < |rotated| ==> rotated[j] == pixels[j]
    {
      rotated := rotated[i := rotate(rotated[i], center, angle)];
      i := i + 1;
    }
  }

  // ---------------------------------------------------------------------
  // RGBA buffers

  lemma IndexInBounds(x: int, y: int, w: int, h: int)
    requires 0 <= x < w && 0 <= y < h
    ensures 0 <= y * w + x < w * h
  {
    assert (y + 1) * w <= h * w;
  }

  lemma IndexInjective(x1: int, y1: int, x2: int, y2: int, w: int)
    requires 0 <= x1 < w && 0 <= x2 < w && 0 <= y1 && 0 <= y2
    requires y1 * w + x1 == y2 * w + x2
    ensures x1 == x2 && y1 == y2
  {
    assert (y1 - y2) * w == x2 - x1;
    MulSign(y1 - y2, w);
  }

  /** A row-major RGBA buffer, like `ImageBuffer<Rgba<u8>, Vec<u8>>`. */
  datatype Image = Image(width: nat, height: nat, pixels: seq<Rgba>) {
    predicate Wf() {
      |pixels| == width * height
    }

    predicate InBounds(x: int, y: int) {
      0 <= x < width && 0 <= y < height
    }

    function At(x: int, y: int): Rgba
      requires Wf() && InBounds(x, y)
    {
      IndexInBounds(x, y, width, height);
      pixels[y * width + x]
    }

    /** The buffer with pixel `(x, y)` replaced and every other pixel kept. */
    function Set(x: int, y: int, c: Rgba): (img: Image)
      requires Wf() && InBounds(x, y)
      ensures img.Wf() && img.width == width && img.height == height
      ensures img.At(x, y) == c
      ensures forall u, v :: InBounds(u, v) && (u != x || v != y) ==> img.At(u, v) == At(u, v)
    {
      IndexInBounds(x, y, width, height);
      var img := Image(width, height, pixels[y * width + x := c]);
      assert forall u, v :: InBounds(u, v) && (u != x || v != y) ==> img.At(u, v) == At(u, v) by {
        forall u, v | InBounds(u, v) && (u != x || v != y) ensures img.At(u, v) == At(u, v) {
          IndexInBounds(u, v, width, height);
          if u * 1 + v * width == x + y * width {
            IndexInjective(u, v, x, y, width);
          }
        }
      }
      img
    }
  }

  /** `ImageBuffer::from_pixel(width, height, c)`. */
  function Fill(width: nat, height: nat, c: Rgba): (img: Image)
    ensures img.Wf() && img.width == width && img.height == height
    ensures forall x, y :: img.InBounds(x, y) ==> img.At(x, y) == c
  {
    var img := Image(width, height, seq(width * height, _ => c));
    assert forall x, y :: img.InBounds(x, y) ==> img.At(x, y) == c by {
      forall x, y | img.InBounds(x, y) ensures img.At(x, y) == c {
        IndexInBounds(x, y, width, height);
      }
    }
    img
  }

  // ---------------------------------------------------------------------
  // Blending a pixel list onto a buffer

  /** `Pixel::blend(destination, source)`: alpha compositing, a library call. */
  type Blend = (Rgba, Rgba) -> Rgba

  /** The bounds filter of `paint_on`: row 0 and column 0 are excluded. */
  predicate Paintable(img: Image, p: Point) {
    0 < p.x < img.width && 0 < p.y < img.height
  }

  function BlendAt(img: Image, p: Point, color: Rgba, blend: Blend): Image
    requires img.Wf()
  {
    if Paintable(img, p) then img.Set(p.x, p.y, blend(img.At(p.x, p.y), color)) else img
  }

  /** The buffer after blending `color` onto every paintable pixel of `ps` in order. */
  function Blended(img: Image, ps: seq<Point>, color: Rgba, blend: Blend): (r: Image)
    requires img.Wf()
    ensures r.Wf() && r.width == img.width && r.height == img.height
  {
    if |ps| == 0 then img
    else BlendAt(Blended(img, ps[..|ps| - 1], color, blend), ps[|ps| - 1], color, blend)
  }

  /** A pixel in row 0 or column 0, or not listed, keeps its colour. */
  lemma {:induction false} BlendedUntouched(img: Image, ps: seq<Point>, color: Rgba, blend: Blend, x: int, y: int)
    requires img.Wf() && img.InBounds(x, y)
    requires x == 0 || y == 0 || Point(x, y) !in ps
    ensures Blended(img, ps, color, blend).At(x, y) == img.At(x, y)
  {
    if |ps| > 0 {
      var init := ps[..|ps| - 1];
      assert Point(x, y) !in ps ==> Point(x, y) !in init by {
        assert forall p :: p in init ==> p in ps;
      }
      BlendedUntouched(img, init, color, blend, x, y);
    }
  }

  /** A paintable pixel listed exactly once is blended exactly once. */
  lemma {:induction false} BlendedOnce(img: Image, ps: seq<Point>, color: Rgba, blend: Blend, x: int, y: int)
    requires img.Wf() && Paintable(img, Point(x, y))
    requires multiset(ps)[Point(x, y)] == 1
    ensures Blended(img, ps, color, blend).At(x, y) == blend(img.At(x, y), color)
  {
    var init := ps[..|ps| - 1];
    assert ps == init + [ps[|ps| - 1]];
    if ps[|ps| - 1] == Point(x, y) {
      assert multiset(init)[Point(x, y)] == 0;
      BlendedUntouched(img, init, color, blend, x, y);
    } else {
      BlendedOnce(img, init, color, blend, x, y);
    }
  }

  /** The blend loop of `paint_on` over a clone of the buffer. */
  method BlendPixels(image: Image, pixels: seq<Point>, color: Rgba, blend: Blend) returns (output: Image)
    requires image.Wf()
    ensures output == Blended(image, pixels, color, blend)
  {
    output := image;
    var i := 0;
    while i < |pixels|
      invariant 0 <= i <= |pixels|
      invariant output == Blended(image, pixels[..i], color, blend)
    {
      var p := pixels[i];
      if 0 < p.x && 0 < p.y && p.x < image.width && p.y < image.height {
        output := output.Set(p.x, p.y, blend(output.At(p.x, p.y), color));
      }
      assert pixels[..i + 1][..i] == pixels[..i];
      i := i + 1;
    }
    assert pixels[..|pixels|] == pixels;
  }
}
