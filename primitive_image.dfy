/** The approximation session: the average colours a shape is fitted with,
    the hill climb of `add_new_shape` with its commit, and the SVG document
    of the committed shapes. */
module PrimitiveImages {
  import opened Utilities
  import opened Oracle
  import opened Points
  import opened Raster
  import opened Shapes

  /** The border extension `add_new_shape` hands to every family's `random`. */
  const ShapeBorderExtension: int := 6

  // ---------------------------------------------------------------------
  // Average colours

  /** Channel `k` of a colour: red (0), green (1) or blue (2). */
  function Channel(c: Rgba, k: nat): Byte
    requires k < 3
  {
    if k == 0 then c.r else if k == 1 then c.g else c.b
  }

  /** The `i64` channel sum of a list of colours. */
  function Sum(cs: seq<Rgba>, k: nat): nat
    requires k < 3
  {
    if |cs| == 0 then 0 else Sum(cs[..|cs| - 1], k) + Channel(cs[|cs| - 1], k)
  }

  /** `as u8`: keeps the low eight bits. */
  function AsU8(v: int): Byte {
    v % 256
  }

  /** The averaging step shared by `average_color` and
      `average_color_in_shape`: the floor mean of each channel with alpha
      128, or all zeroes when there is nothing to average. */
  function Mean(cs: seq<Rgba>): Rgba {
    if |cs| == 0 then Rgba(0, 0, 0, 0)
    else Rgba(AsU8(Sum(cs, 0) / |cs|), AsU8(Sum(cs, 1) / |cs|), AsU8(Sum(cs, 2) / |cs|), 128)
  }

  /** Channel values within `[lo, hi]` sum to within `[lo n, hi n]`. */
  lemma {:induction false} SumBounds(cs: seq<Rgba>, k: nat, lo: int, hi: int)
    requires k < 3
    requires forall i :: 0 <= i < |cs| ==> lo <= Channel(cs[i], k) <= hi
    ensures lo * |cs| <= Sum(cs, k) <= hi * |cs|
  {
    if |cs| > 0 {
      var init := cs[..|cs| - 1];
      assert forall i :: 0 <= i < |init| ==> init[i] == cs[i];
      SumBounds(init, k, lo, hi);
      assert lo * |cs| == lo * |init| + lo;
      assert hi * |cs| == hi * |init| + hi;
    }
  }

  /** A sum within `[lo n, hi n]` has its floor mean within `[lo, hi]`. */
  lemma FloorMeanBounds(s: int, n: int, lo: int, hi: int)
    requires n > 0 && lo * n <= s <= hi * n
    ensures lo <= s / n <= hi
  {
    var q, r := s / n, s % n;
    assert s == n * q + r && 0 <= r < n;
    CancelPositive(n, q, hi);
    assert (lo - q) * n == lo * n - q * n;
    MulSign(lo - q, n);
  }

  /** The mean of a non-empty list keeps every channel within the range of
      that channel over the list, so the `as u8` cast never truncates, and
      carries alpha 128. */
  lemma MeanWithinChannelRange(cs: seq<Rgba>, k: nat, lo: int, hi: int)
    requires k < 3 && |cs| > 0
    requires forall i :: 0 <= i < |cs| ==> lo <= Channel(cs[i], k) <= hi
    ensures Channel(Mean(cs), k) == Sum(cs, k) / |cs|
    ensures lo <= Channel(Mean(cs), k) <= hi
    ensures Mean(cs).a == 128
  {
    SumBounds(cs, k, lo, hi);
    FloorMeanBounds(Sum(cs, k), |cs|, lo, hi);
    SumBounds(cs, k, 0, 255);
    FloorMeanBounds(Sum(cs, k), |cs|, 0, 255);
  }

  /** The mean of a list of one colour is that colour at alpha 128. */
  lemma MeanOfUniform(cs: seq<Rgba>, c: Rgba)
    requires |cs| > 0
    requires forall i :: 0 <= i < |cs| ==> cs[i].r == c.r && cs[i].g == c.g && cs[i].b == c.b
    ensures Mean(cs) == Rgba(c.r, c.g, c.b, 128)
  {
    MeanWithinChannelRange(cs, 0, c.r, c.r);
    MeanWithinChannelRange(cs, 1, c.g, c.g);
    MeanWithinChannelRange(cs, 2, c.b, c.b);
  }

  /** `average_color`: the mean over every pixel of the buffer. */
  method AverageColor(image: Image) returns (c: Rgba)
    ensures c == Mean(image.pixels)
  {
    var sumR: nat, sumG: nat, sumB: nat, count: nat := 0, 0, 0, 0;
    var i := 0;
    while i < |image.pixels|
      invariant 0 <= i <= |image.pixels| && count == i
      invariant sumR == Sum(image.pixels[..i], 0)
      invariant sumG == Sum(image.pixels[..i], 1)
      invariant sumB == Sum(image.pixels[..i], 2)
    {
      var p := image.pixels[i];
      count := count + 1;
      sumR, sumG, sumB := sumR + p.r, sumG + p.g, sumB + p.b;
      assert image.pixels[..i + 1][..i] == image.pixels[..i];
      i := i + 1;
    }
    assert image.pixels[..i] == image.pixels;
    c := Rgba(0, 0, 0, 0);
    if count > 0 {
      c := Rgba(AsU8(sumR / count), AsU8(sumG / count), AsU8(sumB / count), 128);
    }
  }

  /** A buffer filled with one colour averages to that colour at alpha 128. */
  lemma AverageOfFill(width: nat, height: nat, c: Rgba)
    requires width > 0 && height > 0
    ensures Mean(Fill(width, height, c).pixels) == Rgba(c.r, c.g, c.b, 128)
  {
    var img := Fill(width, height, c);
    MulSign(height, width);
    MeanOfUniform(img.pixels, c);
  }

  /** The test's 1 x 2 buffer of black and (10, 10, 10) averages to (5, 5, 5). */
  lemma AverageOfTwoPixelExample(image: Image)
    requires image.pixels == [Rgba(0, 0, 0, 128), Rgba(10, 10, 10, 128)]
    ensures Mean(image.pixels) == Rgba(5, 5, 5, 128)
  {
    var cs := image.pixels;
    var init := cs[..1];
    assert init == [Rgba(0, 0, 0, 128)] && init[..0] == [];
    assert Sum(init, 0) == 0 && Sum(init, 1) == 0 && Sum(init, 2) == 0;
    assert Sum(cs, 0) == 10 && Sum(cs, 1) == 10 && Sum(cs, 2) == 10;
  }

  /** The colours of the listed pixels that lie in the buffer, in list order. */
  function InBoundsSamples(image: Image, ps: seq<Point>): seq<Rgba>
    requires image.Wf()
  {
    if |ps| == 0 then []
    else
      var p := ps[|ps| - 1];
      InBoundsSamples(image, ps[..|ps| - 1]) + (if image.InBounds(p.x, p.y) then [image.At(p.x, p.y)] else [])
  }

  lemma InBoundsSamplesStep(image: Image, ps: seq<Point>, i: nat)
    requires image.Wf() && i < |ps|
    ensures InBoundsSamples(image, ps[..i + 1]) == InBoundsSamples(image, ps[..i]) +
      (if image.InBounds(ps[i].x, ps[i].y) then [image.At(ps[i].x, ps[i].y)] else [])
  {
    assert ps[..i + 1][..i] == ps[..i];
  }

  lemma SumAppend(cs: seq<Rgba>, c: Rgba)
    ensures Sum(cs + [c], 0) == Sum(cs, 0) + c.r
    ensures Sum(cs + [c], 1) == Sum(cs, 1) + c.g
    ensures Sum(cs + [c], 2) == Sum(cs, 2) + c.b
  {
    assert (cs + [c])[..|cs|] == cs;
  }

  /** Every sample is the colour of an in-bounds listed pixel, and a pixel
      list with no pixel in the buffer yields no sample. */
  lemma {:induction false} InBoundsSamplesComeFromTheList(image: Image, ps: seq<Point>)
    requires image.Wf()
    ensures |InBoundsSamples(image, ps)| <= |ps|
    ensures forall c :: c in InBoundsSamples(image, ps) ==>
      exists p :: p in ps && image.InBounds(p.x, p.y) && image.At(p.x, p.y) == c
    ensures (forall p :: p in ps ==> !image.InBounds(p.x, p.y)) ==> InBoundsSamples(image, ps) == []
  {
    if |ps| > 0 {
      var init := ps[..|ps| - 1];
      assert forall p :: p in init ==> p in ps;
      InBoundsSamplesComeFromTheList(image, init);
    }
  }

  /** The indices of the listed pixels that lie in the buffer. */
  ghost function InBoundsIndices(image: Image, ps: seq<Point>): set<nat>
  {
    set i: nat | i < |ps| && image.InBounds(ps[i].x, ps[i].y)
  }

  /** Appending one pixel adds its index to the in-bounds indices exactly when it is in bounds. */
  lemma InBoundsIndicesStep(image: Image, ps: seq<Point>)
    requires |ps| > 0
    ensures var n := |ps| - 1;
      |InBoundsIndices(image, ps)| == |InBoundsIndices(image, ps[..n])| + (if image.InBounds(ps[n].x, ps[n].y) then 1 else 0)
  {
    var n := |ps| - 1;
    var init := ps[..n];
    var extra: set<nat> := if image.InBounds(ps[n].x, ps[n].y) then {n} else {};
    assert InBoundsIndices(image, ps) == InBoundsIndices(image, init) + extra by {
      forall i: nat | i < n ensures ps[i] == init[i] { }
    }
    assert n !in InBoundsIndices(image, init);
  }

  /** The converse of `InBoundsSamplesComeFromTheList`: every listed pixel in
      the buffer, row 0 and column 0 included, is sampled, and there is one
      sample per such list entry, duplicates counted. */
  lemma {:induction false} EveryInBoundsPixelIsSampled(image: Image, ps: seq<Point>)
    requires image.Wf()
    ensures forall i :: 0 <= i < |ps| && image.InBounds(ps[i].x, ps[i].y) ==>
      image.At(ps[i].x, ps[i].y) in InBoundsSamples(image, ps)
    ensures |InBoundsSamples(image, ps)| == |InBoundsIndices(image, ps)|
  {
    if |ps| > 0 {
      var n := |ps| - 1;
      var init := ps[..n];
      EveryInBoundsPixelIsSampled(image, init);
      InBoundsIndicesStep(image, ps);
      var tail := if image.InBounds(ps[n].x, ps[n].y) then [image.At(ps[n].x, ps[n].y)] else [];
      assert InBoundsSamples(image, ps) == InBoundsSamples(image, init) + tail;
      forall i | 0 <= i < |ps| && image.InBounds(ps[i].x, ps[i].y)
        ensures image.At(ps[i].x, ps[i].y) in InBoundsSamples(image, ps)
      {
        if i < n {
          assert init[i] == ps[i];
        }
      }
    }
  }

  /** `average_color_in_shape`: the mean over the shape's pixels that lie in
      the buffer; (0, 0, 0, 0) when none does. */
  method AverageColorInShape(image: Image, pixels: seq<Point>) returns (c: Rgba)
    requires image.Wf()
    ensures c == Mean(InBoundsSamples(image, pixels))
  {
    var sumR: nat, sumG: nat, sumB: nat, count: nat := 0, 0, 0, 0;
    var i := 0;
    while i < |pixels|
      invariant 0 <= i <= |pixels|
      invariant count == |InBoundsSamples(image, pixels[..i])|
      invariant sumR == Sum(InBoundsSamples(image, pixels[..i]), 0)
      invariant sumG == Sum(InBoundsSamples(image, pixels[..i]), 1)
      invariant sumB == Sum(InBoundsSamples(image, pixels[..i]), 2)
    {
      var p := pixels[i];
      InBoundsSamplesStep(image, pixels, i);
      if p.x < 0 || p.x >= image.width || p.y < 0 || p.y >= image.height {
        assert InBoundsSamples(image, pixels[..i + 1]) == InBoundsSamples(image, pixels[..i]);
        i := i + 1;
        continue;
      }
      count := count + 1;
      var q := image.At(p.x, p.y);
      ghost var before := InBoundsSamples(image, pixels[..i]);
      SumAppend(before, q);
      sumR, sumG, sumB := sumR + q.r, sumG + q.g, sumB + q.b;
      i := i + 1;
    }
    assert pixels[..i] == pixels;
    c := Rgba(0, 0, 0, 0);
    if count > 0 {
      c := Rgba(AsU8(sumR / count), AsU8(sumG / count), AsU8(sumB / count), 128);
    }
  }

  /** A shape with no pixel in the buffer is fitted with (0, 0, 0, 0). */
  lemma NoPixelInBoundsAveragesToZero(image: Image, pixels: seq<Point>)
    requires image.Wf()
    requires forall p :: p in pixels ==> !image.InBounds(p.x, p.y)
    ensures Mean(InBoundsSamples(image, pixels)) == Rgba(0, 0, 0, 0)
  {
    InBoundsSamplesComeFromTheList(image, pixels);
  }

  /** The colour `set_color_using` gives a shape: the average target colour under its pixels. */
  function FittedColor(target: Image, s: Shape, env: Env): Rgba
    requires target.Wf()
  {
    Mean(InBoundsSamples(target, Pixels(s, env)))
  }

  /** `set_color_using(target)`. */
  method SetColorUsing(s: Shape, target: Image, env: Env) returns (r: Shape)
    requires target.Wf()
    ensures r == WithColor(s, FittedColor(target, s, env))
  {
    var pixels := GetPixels(s, env);
    var color := AverageColorInShape(target, pixels);
    r := WithColor(s, color);
  }

  /** Fitting twice gives the colour of fitting once: the colour depends on
      the pixels only, and recolouring keeps them. */
  lemma FittingIsIdempotent(target: Image, s: Shape, env: Env)
    requires target.Wf() && EnvLaws(env)
    ensures var once := WithColor(s, FittedColor(target, s, env));
      WithColor(once, FittedColor(target, once, env)) == once
  {
    PixelsIgnoreColor(s, env, FittedColor(target, s, env));
    WithColorLaws(s, FittedColor(target, s, env), FittedColor(target, s, env));
  }

  // ---------------------------------------------------------------------
  // The hill climb of `add_new_shape`

  /** `score()` of the session with the shape painted onto the committed
      approximation. */
  function ScoreWith(target: Image, approximation: Image, s: Shape, env: Env): nat
    requires approximation.Wf()
  {
    env.score(target, Painted(s, approximation, env))
  }

  /** The loop state of `add_new_shape`: the current shape, the best one, its
      score, the age, and the position in the draws. */
  datatype Trial = Trial(shape: Shape, best: Shape, bestScore: nat, age: nat, pos: nat)

  /** The trial state of the loop head: the shape is the best one, the score is
      the best shape's on the committed approximation, and the best shape is
      a valid shape of the family. */
  predicate Settled(target: Image, approximation: Image, env: Env, family: Family, tr: Trial)
    requires approximation.Wf()
  {
    && tr.shape == tr.best
    && tr.bestScore == ScoreWith(target, approximation, tr.best, env)
    && FamilyOf(tr.best) == family
    && Valid(tr.best, target.width, target.height, env)
  }

  /** One pass of the loop body: mutate and refit the shape, score it on the
      committed approximation, and keep it on a strict improvement (age back
      to 0) or fall back to the best shape (age one more). */
  function Step(target: Image, approximation: Image, env: Env, draws: Draws, tr: Trial): (r: Result<Trial>)
    requires target.Wf() && approximation.Wf()
    ensures r.Ok? ==> tr.pos < r.value.pos
    ensures r.Ok? ==>
      || (r.value.bestScore < tr.bestScore && r.value.age == 0 && r.value.shape == r.value.best &&
          r.value.bestScore == ScoreWith(target, approximation, r.value.best, env))
      || (r.value.bestScore == tr.bestScore && r.value.age == tr.age + 1 && r.value.best == tr.best &&
          r.value.shape == tr.best)
    ensures r.Ok? && FamilyOf(tr.shape) == FamilyOf(tr.best) ==> FamilyOf(r.value.best) == FamilyOf(tr.best)
    ensures r.Ok? ==> Valid(r.value.best, target.width, target.height, env) || r.value.best == tr.best
    ensures r.Err? ==> r.fault == TooManyMutationAttempts
    // The acceptance rule, in terms of the refitted mutant `s`: the pass
    // fails exactly when the mutation does; a mutant scoring strictly below
    // the best score becomes the best shape with age 0, and any other
    // mutant is dropped in favour of the best shape, one year older.
    ensures var m := Mutated(tr.shape, target.width, target.height, env, draws, tr.pos);
      (m.Err? <==> r.Err?) &&
      (m.Ok? ==>
        var s := WithColor(m.value.0, FittedColor(target, m.value.0, env));
        && r.value.pos == m.value.1
        && (ScoreWith(target, approximation, s, env) < tr.bestScore <==> r.value.age == 0)
        && (ScoreWith(target, approximation, s, env) < tr.bestScore ==>
              r.value.shape == s && r.value.best == s && r.value.bestScore == ScoreWith(target, approximation, s, env))
        && (tr.bestScore <= ScoreWith(target, approximation, s, env) ==>
              r.value.shape == tr.best && r.value.best == tr.best && r.value.bestScore == tr.bestScore &&
              r.value.age == tr.age + 1))
  {
    var m := Mutated(tr.shape, target.width, target.height, env, draws, tr.pos);
    if m.Err? then Err(m.fault)
    else
      var shape := WithColor(m.value.0, FittedColor(target, m.value.0, env));
      ValidIgnoresColor(m.value.0, target.width, target.height, env, FittedColor(target, m.value.0, env));
      var score := ScoreWith(target, approximation, shape, env);
      if score < tr.bestScore then Ok(Trial(shape, shape, score, 0, m.value.1))
      else Ok(Trial(tr.best, tr.best, tr.bestScore, tr.age + 1, m.value.1))
  }

  /** The loop `while age < max_age`. It ends because every pass either
      lowers the best score, a natural number, or raises the age. */
  function Climb(target: Image, approximation: Image, env: Env, maxAge: nat, draws: Draws, tr: Trial)
    : (r: Result<Trial>)
    requires target.Wf() && approximation.Wf()
    ensures r.Ok? ==> r.value.age >= maxAge && r.value.bestScore <= tr.bestScore
    ensures r.Ok? && tr.age >= maxAge ==> r.value == tr
    ensures r.Ok? && Settled(target, approximation, env, FamilyOf(tr.best), tr) ==>
      Settled(target, approximation, env, FamilyOf(tr.best), r.value)
    ensures r.Err? ==> r.fault == TooManyMutationAttempts
    decreases tr.bestScore, maxAge - tr.age
  {
    if tr.age >= maxAge then Ok(tr)
    else
      var next := Step(target, approximation, env, draws, tr);
      if next.Err? then Err(next.fault)
      else Climb(target, approximation, env, maxAge, draws, next.value)
  }

  /** A pass of the loop body below the age bound leaves the climb's outcome as it was. */
  lemma ClimbStep(target: Image, approximation: Image, env: Env, maxAge: nat, draws: Draws, tr: Trial)
    requires target.Wf() && approximation.Wf()
    requires tr.age < maxAge && Step(target, approximation, env, draws, tr).Ok?
    ensures Climb(target, approximation, env, maxAge, draws, tr)
         == Climb(target, approximation, env, maxAge, draws, Step(target, approximation, env, draws, tr).value)
  {
  }

  /** The shape `add_new_shape` starts from: a random shape of the family,
      fitted and scored on the committed approximation. */
  function Start(target: Image, approximation: Image, family: Family, env: Env, draws: Draws, pos: nat)
    : (r: Result<Trial>)
    requires target.Wf() && approximation.Wf()
    ensures r.Ok? ==> r.value.age == 0 && Settled(target, approximation, env, family, r.value)
    ensures r.Err? ==> r.fault == EmptyRange || r.fault == TooManyMutationAttempts
  {
    var m := Random(family, target.width, target.height, ShapeBorderExtension, env, draws, pos);
    if m.Err? then Err(m.fault)
    else
      var color := FittedColor(target, m.value.0, env);
      var shape := WithColor(m.value.0, color);
      ValidIgnoresColor(m.value.0, target.width, target.height, env, color);
      Ok(Trial(shape, shape, ScoreWith(target, approximation, shape, env), 0, m.value.1))
  }

  /** The search of `add_new_shape` before its commit. */
  function Search(target: Image, approximation: Image, family: Family, env: Env, maxAge: nat, draws: Draws, pos: nat)
    : (r: Result<Trial>)
    requires target.Wf() && approximation.Wf()
  {
    var start := Start(target, approximation, family, env, draws, pos);
    if start.Err? then start else Climb(target, approximation, env, maxAge, draws, start.value)
  }

  /** A finished search offers a valid shape of the requested family whose
      score on the committed approximation is the best score, which is no
      higher than the first shape's, and its age has reached the bound. */
  lemma SearchOffersItsBest(target: Image, approximation: Image, family: Family, env: Env, maxAge: nat, draws: Draws, pos: nat)
    requires target.Wf() && approximation.Wf()
    requires Search(target, approximation, family, env, maxAge, draws, pos).Ok?
    ensures var tr := Search(target, approximation, family, env, maxAge, draws, pos).value;
      var start := Start(target, approximation, family, env, draws, pos).value;
      && FamilyOf(tr.best) == family && Valid(tr.best, target.width, target.height, env)
      && tr.bestScore == ScoreWith(target, approximation, tr.best, env)
      && tr.bestScore <= start.bestScore
      && tr.age >= maxAge
  {
  }

  /** The commit rule `best_score < self.score()` only ever lowers the
      session's score: the committed approximation scores the best score. */
  lemma CommitLowersScore(target: Image, approximation: Image, family: Family, env: Env, maxAge: nat, draws: Draws, pos: nat)
    requires target.Wf() && approximation.Wf()
    requires Search(target, approximation, family, env, maxAge, draws, pos).Ok?
    requires Search(target, approximation, family, env, maxAge, draws, pos).value.bestScore < env.score(target, approximation)
    ensures var tr := Search(target, approximation, family, env, maxAge, draws, pos).value;
      env.score(target, Painted(tr.best, approximation, env)) < env.score(target, approximation)
  {
    SearchOffersItsBest(target, approximation, family, env, maxAge, draws, pos);
  }

  /** With a bound of 0 the loop body never runs and the random shape is offered. */
  lemma SearchWithNoAgeIsTheStart(target: Image, approximation: Image, family: Family, env: Env, draws: Draws, pos: nat)
    requires target.Wf() && approximation.Wf()
    ensures Search(target, approximation, family, env, 0, draws, pos) == Start(target, approximation, family, env, draws, pos)
  {
  }

  /** One pass of the body of `while age < max_age`: mutate the shape and
      refit its colour, paint it on a copy of the committed approximation
      and score it, then keep it on a strict improvement or fall back to the
      best shape. */
  method Pass(target: Image, approximation: Image, env: Env, draws: Draws, tr: Trial) returns (r: Result<Trial>)
    requires target.Wf() && approximation.Wf()
    ensures r == Step(target, approximation, env, draws, tr)
  {
    var mutated := Shapes.Mutate(tr.shape, target.width, target.height, env, draws, tr.pos);
    if mutated.Err? {
      return Err(mutated.fault);
    }
    var shape := SetColorUsing(mutated.value.0, target, env);
    var newImage := PaintOn(shape, approximation, env);
    var newScore := env.score(target, newImage);
    if newScore < tr.bestScore {
      r := Ok(Trial(shape, shape, newScore, 0, mutated.value.1));
    } else {
      r := Ok(Trial(tr.best, tr.best, tr.bestScore, tr.age + 1, mutated.value.1));
    }
  }

  /** The start of `add_new_shape`: a random shape of the family, fitted
      and painted on a copy of the committed approximation, and its score. */
  method Begin(target: Image, approximation: Image, family: Family, env: Env, draws: Draws, pos: nat)
    returns (r: Result<Trial>)
    requires target.Wf() && approximation.Wf()
    ensures r == Start(target, approximation, family, env, draws, pos)
  {
    var start := Random(family, target.width, target.height, ShapeBorderExtension, env, draws, pos);
    if start.Err? {
      return Err(start.fault);
    }
    var shape := SetColorUsing(start.value.0, target, env);
    var bestImage := PaintOn(shape, approximation, env);
    var bestScore := env.score(target, bestImage);
    r := Ok(Trial(shape, shape, bestScore, 0, start.value.1));
  }

  /** The search of `add_new_shape`: the start, then the loop
      `while age < max_age`. It works on the session's buffers as values, so
      no trial changes them. */
  method SearchLoop(target: Image, approximation: Image, family: Family, env: Env, maxAge: nat, draws: Draws, pos: nat)
    returns (r: Result<Trial>)
    requires target.Wf() && approximation.Wf()
    ensures r == Search(target, approximation, family, env, maxAge, draws, pos)
  {
    var start := Begin(target, approximation, family, env, draws, pos);
    if start.Err? {
      return start;
    }
    var shape: Shape, bestShape: Shape, bestScore: nat, age: nat, at: nat := start.value.shape, start.value.best, start.value.bestScore, 0, start.value.pos;
    ghost var first := start.value;
    while age < maxAge
      invariant Climb(target, approximation, env, maxAge, draws, Trial(shape, bestShape, bestScore, age, at))
             == Climb(target, approximation, env, maxAge, draws, first)
      decreases bestScore, maxAge - age
    {
      var before := Trial(shape, bestShape, bestScore, age, at);
      var next := Pass(target, approximation, env, draws, before);
      if next.Err? {
        return Err(next.fault);
      }
      ClimbStep(target, approximation, env, maxAge, draws, before);
      shape, bestShape, bestScore, age, at := next.value.shape, next.value.best, next.value.bestScore, next.value.age, next.value.pos;
    }
    return Ok(Trial(shape, bestShape, bestScore, age, at));
  }

  // ---------------------------------------------------------------------
  // The SVG document

  /** The `<svg>` start tag of `as_svg` for the original size. */
  function Header(width: nat, height: nat): string {
    "<svg xmlns=\"http://www.w3.org/2000/svg\" version=\"1.1\" width=\"" + Decimal(width) +
    "\" height=\"" + Decimal(height) + "\">"
  }

  /** The background rectangle over the whole original size. */
  function Background(width: nat, height: nat, color: Rgba): string {
    "<rect x=\"0\" y=\"0\" width=\"" + Decimal(width) + "\" height=\"" + Decimal(height) +
    "\" fill=\"" + RgbToHex(color) + "\" />"
  }

  const GroupStart: string := "<g>"
  const Closing: string := "</g></svg>"

  /** The elements of the shapes, one after another in list order. */
  function Elements(shapes: seq<Shape>, env: Env): string {
    if |shapes| == 0 then "" else Elements(shapes[..|shapes| - 1], env) + env.element(shapes[|shapes| - 1])
  }

  /** `as_svg`: the start tag, the background, then the group of shape elements. */
  function Document(width: nat, height: nat, background: Rgba, shapes: seq<Shape>, env: Env): string {
    Header(width, height) + Background(width, height, background) + GroupStart + Elements(shapes, env) + Closing
  }

  /** The elements of a concatenation are the concatenation of the elements. */
  lemma {:induction false} ElementsConcat(a: seq<Shape>, b: seq<Shape>, env: Env)
    ensures Elements(a + b, env) == Elements(a, env) + Elements(b, env)
    decreases |b|
  {
    if |b| == 0 {
      assert a + b == a;
    } else {
      var init := b[..|b| - 1];
      assert (a + b)[..|a + b| - 1] == a + init;
      assert (a + b)[|a + b| - 1] == b[|b| - 1];
      ElementsConcat(a, init, env);
    }
  }

  /** Shape `i`'s element follows the elements of the shapes before it and
      precedes those after it. */
  lemma ElementsInOrder(shapes: seq<Shape>, i: nat, env: Env)
    requires i < |shapes|
    ensures Elements(shapes, env) ==
      Elements(shapes[..i], env) + env.element(shapes[i]) + Elements(shapes[i + 1..], env)
  {
    assert shapes == shapes[..i] + [shapes[i]] + shapes[i + 1..];
    ElementsConcat(shapes[..i] + [shapes[i]], shapes[i + 1..], env);
    ElementsConcat(shapes[..i], [shapes[i]], env);
    assert Elements([shapes[i]], env) == env.element(shapes[i]) by {
      assert [shapes[i]][..0] == [];
    }
  }

  /** The document of one more committed shape has that shape's element
      inserted right before the closing tags. */
  lemma DocumentOfOneMoreShape(width: nat, height: nat, background: Rgba, shapes: seq<Shape>, s: Shape, env: Env)
    ensures var before := Document(width, height, background, shapes, env);
      Document(width, height, background, shapes + [s], env) == before[..|before| - |Closing|] + env.element(s) + Closing
  {
    var prefix := Header(width, height) + Background(width, height, background) + GroupStart + Elements(shapes, env);
    assert (shapes + [s])[..|shapes|] == shapes;
    assert Document(width, height, background, shapes, env) == prefix + Closing;
    assert (prefix + Closing)[..|prefix|] == prefix;
  }

  // ---------------------------------------------------------------------
  // The session

  /** `PrimitiveImage`: the resized target, the approximation painted so
      far, the committed shapes and the background colour. */
  class PrimitiveImage {
    var target: Image
    var approximation: Image
    var shapes: seq<Shape>
    var background: Rgba

    /** Both buffers are well formed and of one size. */
    ghost predicate Valid()
      reads this
    {
      target.Wf() && approximation.Wf() &&
      approximation.width == target.width && approximation.height == target.height
    }

    /** The session over an already decoded and resized target: the
        approximation is the background colour everywhere and nothing is
        committed. */
    constructor (target: Image, background: Rgba)
      requires target.Wf()
      ensures Valid()
      ensures this.target == target && this.background == background && shapes == []
      ensures approximation == Fill(target.width, target.height, background)
    {
      this.target := target;
      this.background := background;
      this.approximation := Fill(target.width, target.height, background);
      this.shapes := [];
    }

    /** `score()`: the score of the approximation against the target. */
    function Score(env: Env): nat
      reads this
    {
      env.score(target, approximation)
    }

    /** `add_new_shape(max_age, shape_type, _)`: searches from a random
        shape and commits the best one found if and only if it beats the
        session's score, in which case the approximation is painted with it
        and it is appended to the shapes; otherwise, or on a panic, nothing
        changes. */
    method AddNewShape(maxAge: nat, family: Family, env: Env, draws: Draws, pos: nat) returns (r: Result<bool>)
      requires Valid() && EnvLaws(env)
      modifies this
      ensures Valid()
      ensures target == old(target) && background == old(background)
      ensures var search := Search(old(target), old(approximation), family, env, maxAge, draws, pos);
        && (search.Err? ==> r == Err(search.fault))
        && (search.Ok? ==> r == Ok(search.value.bestScore < env.score(old(target), old(approximation))))
        && (r == Ok(true) ==>
             approximation == Painted(search.value.best, old(approximation), env) &&
             shapes == old(shapes) + [search.value.best])
        && (r != Ok(true) ==> approximation == old(approximation) && shapes == old(shapes))
    {
      var search := SearchLoop(target, approximation, family, env, maxAge, draws, pos);
      if search.Err? {
        return Err(search.fault);
      }
      var bestShape, bestScore := search.value.best, search.value.bestScore;
      if bestScore < env.score(target, approximation) {
        PaintedKeepsSize(bestShape, approximation, env);
        approximation := PaintOn(bestShape, approximation, env);
        shapes := shapes + [bestShape];
        r := Ok(true);
      } else {
        r := Ok(false);
      }
    }

    /** `as_svg` for the original size `width` x `height`: the start tag, the
        background, and the elements of the committed shapes in commit order. */
    method AsSvg(width: nat, height: nat, env: Env) returns (svg: string)
      ensures svg == Document(width, height, background, shapes, env)
    {
      svg := Header(width, height);
      svg := svg + Background(width, height, background);
      svg := svg + GroupStart;
      var i := 0;
      while i < |shapes|
        invariant 0 <= i <= |shapes|
        invariant svg == Header(width, height) + Background(width, height, background) + GroupStart + Elements(shapes[..i], env)
      {
        assert shapes[..i + 1][..i] == shapes[..i];
        svg := svg + env.element(shapes[i]);
        i := i + 1;
      }
      assert shapes[..i] == shapes;
      svg := svg + Closing;
    }
  }
}
