# primitive_image, modelled in Dafny

This project models the shape-fitting engine of `primitive_image`. The engine
approximates a raster image by an ordered list of semi-transparent shapes:
triangles, quadratic Bezier curves, rotated rectangles and rotated ellipses.
Each shape is found by randomized hill climbing:

- draw a random shape of the requested family on the canvas;
- colour it with the average target colour under its pixels;
- mutate it over and over, one parameter per attempt, retrying each mutation
  until the shape is valid;
- keep a mutant only when it lowers the score;
- stop once `max_age` mutations in a row have failed to improve;
- commit the best shape only when it beats the current approximation.

The committed shapes, in commit order, form the SVG document.

The modules follow the source files:

| module | file | contents |
|---|---|---|
| `Utilities` | `utilities.dfy` | `clamp`, `rgb_to_hex` with its parser and round trip, decimal printing of sizes |
| `Oracle` | `oracle.dfy` | the random draws as one stream, `gen_range` with its empty-range panic, the panic kinds |
| `Points` | `point.dfy` | `PrimitivePoint`, its `mutate`, `random_point`, `random_point_in_radius`, the laws a `rotate_point` obeys |
| `Raster` | `raster.dfy` | the nested `for x`, `for y` scans, the in-place rotation loop, the RGBA buffer, the bounds-filtered blend of `paint_on` |
| `Triangles` | `triangle.dfy` | validity, `orient_2d`, `contains_pixel` with its sort, bounding box, `get_pixels`, `mutate`, `random` |
| `QuadraticBeziers` | `quadratic_bezier.dfy` | validity, `mutate`, bounding box, `random`, the stroke colour of `as_svg` |
| `Rectangles` | `rectangle.dfy` | `mutate` (one attempt), `random`, `get_pixels`, `paint_on` |
| `Ellipses` | `ellipse.dfy` | validity, containment, `mutate`, `random`, `get_pixels`, `paint_on` |
| `Shapes` | `shapes.dfy` | the shape families as one value type, dispatch of the `Shape` operations, the environment of foreign operations |
| `PrimitiveImages` | `primitive_image.dfy` | `average_color`, `average_color_in_shape`, `set_color_using`, the hill climb and commit of `add_new_shape` (class `PrimitiveImage`), `as_svg` |

How the model stands in for the parts it cannot run:

- **Randomness.** The random generator is a stream `draws: nat -> int` read
  from a position `pos`. Every operation returns the position after its draws.
  - `gen_range(lo..hi)` is `lo + d % (hi - lo)`. It panics, as
    `Err(EmptyRange)`, when `lo >= hi`.
  - A Gaussian sample is the raw draw cast to an integer.
  - Every lemma holds for every stream. It therefore covers every seed and
    every re-seeding the source does.
- **Environment.** Floating-point and library operations are parameters,
  gathered in `Shapes.Env`:
  - the 15-degree angle test of a triangle (`acos`);
  - the ellipse's `f64` comparison `a < n * 0.1`;
  - `rotate_point`;
  - the sampled pixels of a curve;
  - `Pixel::blend`;
  - the library drawing of a triangle or curve followed by `overlay`;
  - the root-mean-squared-error score;
  - the SVG element of one shape.
- **Laws.** `Shapes.EnvLaws` states what the model relies on:
  - rotating by 0 degrees is the identity;
  - rotating (20, 10) about (10, 10) by 90 degrees gives (10, 20), and by 180
    degrees gives (0, 10): the two values of the unit test at
    `src/utilities.rs:103-119`, taken as axioms;
  - the axis comparison agrees with `10 * a < n` except at `10 * a == n`;
  - drawing keeps the buffer's size;
  - a curve's pixels depend only on its points.
- **Score.** The score is a natural number. It stands for the bit pattern of
  the non-negative `f64`, which orders the same way. Because of this, the search
  loop provably terminates.
- **Panics.** Each panic is a `Result` error:
  - `EmptyRange` for an empty `gen_range`;
  - `TooManyMutationAttempts` for a mutation loop that runs out of attempts;
  - `WrongVertexCount` for `Triangle::new` given other than 3 vertices.

Behaviour kept exactly as the code has it:

- Angles:
  - a rectangle's angle is drawn from `0..180`;
  - an ellipse's angle is clamped to `0..=359` after a Gaussian step, not
    drawn afresh.
- Mutation budgets: 100,000,000 attempts for triangles and 100,000 for curves
  and ellipses. The loop panics only after one attempt more than the budget.
- Colours: an empty pixel set averages to (0, 0, 0, 0), not to alpha 128.
- Rectangle and ellipse `paint_on`:
  - never paints row 0 or column 0 (`x > 0 && y > 0`);
  - `average_color_in_shape`, by contrast, samples both
    (`PrimitiveImages.EveryInBoundsPixelIsSampled`).
- Ellipse pixels: `get_pixels` scans the half-open box
  `cx-a..cx+a` by `cy-b..cy+b`. It therefore omits the right and bottom ends of
  the axes (`Ellipses.UnrotatedPixelsOmitRightAndBottomEnds`).
- Rectangle validity: `is_valid` is `true`, so the rectangle's mutation loop
  always stops after one attempt. The model states exactly that.

## Model

| member | source | states |
|---|---|---|
| `Utilities.Clamp` | src/utilities.rs:27-29 | the result is never below `min_v`; it is `value` inside the bounds, `min_v` below them, `max_v` above them, and `min_v` when the bounds are inverted |
| `Utilities.ClampIdempotent` | src/utilities.rs:27-29 | clamping a clamped value changes nothing |
| `Utilities.ClampExamples` | src/utilities.rs:82-86 | the three values of the unit test |
| `Utilities.Hex2` | src/utilities.rs:49 | `{:02X}` gives exactly two upper-case hexadecimal digits |
| `Utilities.RgbToHex` | src/utilities.rs:47-50 | the string is `#` followed by six upper-case hexadecimal digits |
| `Utilities.RgbToHexRoundTrip` | src/utilities.rs:47-50 | parsing the string gives back red, green and blue |
| `Utilities.ParseHexColorRoundTrip` | src/utilities.rs:47-50 | every well-formed `#RRGGBB` string is produced by the colour it parses to, whatever the alpha: the encoding is one to one and onto |
| `Utilities.RgbToHexExamples` | src/utilities.rs:88-101 | the three strings of the unit test |
| `Utilities.Decimal` | src/primitive_image.rs:90-91 | a size prints as decimal digits without a leading zero |
| `Utilities.DecimalRoundTrip` | src/primitive_image.rs:90-91 | reading the printed digits back gives the size |
| `Oracle.Uniform` | src/point.rs:64-65 | a draw from a non-empty range lies in `lo..hi` |
| `Oracle.UniformReaches` | src/point.rs:64-65 | every value of the range is the outcome of some draw |
| `Oracle.GenRange` | src/point.rs:64-65 | `gen_range` succeeds exactly when `lo < hi`, inside the range; otherwise it is the empty-range panic |
| `Points.Mutate` | src/point.rs:20-33 | each coordinate moves by its draw and is clamped to the canvas extended by 5 on every side |
| `Points.MutateMovesByDelta` | src/point.rs:31-32 | a step that stays on the extended canvas moves the point by exactly its deltas |
| `Points.RandomPoint` | src/point.rs:57-68 | the point lies on the canvas; an empty canvas is the empty-range panic |
| `Points.RandomPointInRadius` | src/point.rs:70-79 | the point lies in the half-open square of the radius around the centre; a radius of 0 or less panics |
| `Points.RadiusFiveAroundFiveIsCanvasTen` | src/point.rs:93-98 | radius 5 around (5, 5) draws exactly what a 10 x 10 canvas draws, for every pair of draws, as the test comment says |
| `Raster.ScanMember` | src/triangle.rs:152-158 | the nested scan lists exactly the points of the box that pass the test |
| `Raster.ScanOrdered` | src/triangle.rs:152-158 | the scan lists points by x, then by y, each once |
| `Raster.RotateAll` | src/rectangle.rs:109-111 | rotating the pixels keeps their number |
| `Raster.RotateAllByZero` | src/utilities.rs:52-64 | rotating by 0 degrees keeps every pixel |
| `Raster.RotateInPlace` | src/rectangle.rs:109-111 | the loop over `iter_mut` replaces pixel `i` by its rotation and nothing else |
| `Raster.Fill` | src/primitive_image.rs:58 | `from_pixel` gives a buffer of the requested size with the colour at every pixel |
| `Raster.Blended` | src/rectangle.rs:135-149 | painting keeps the size of the buffer |
| `Raster.BlendedUntouched` | src/rectangle.rs:141-146 | a pixel in row 0, in column 0 or not listed keeps its colour |
| `Raster.BlendedOnce` | src/rectangle.rs:141-146 | a paintable pixel listed once becomes the blend of its old colour with the shape's |
| `Raster.BlendPixels` | src/rectangle.rs:135-149 | the blending loop computes the filtered blend |
| `Triangles.Orient2d` | src/triangle.rs:238-240 | the determinant of the columns `(x, y, 1)` in exact integers: twice the signed area of the three points |
| `Triangles.Orient2dExamples` | src/triangle.rs:246-279 | the three determinants of the unit test |
| `Triangles.Orient2dSymmetries` | src/triangle.rs:238-240 | the determinant changes sign when two points are exchanged and keeps it under rotation |
| `Triangles.Orient2dSum` | src/triangle.rs:238-240 | the three edge weights of a point add up to the triangle's own determinant |
| `Triangles.IsValid` | src/triangle.rs:38-50 | false when two vertices coincide, otherwise the conjunction of the angle test at each of the three vertices |
| `Triangles.IsValidRejectsCoincident` | src/triangle.rs:38-50 | a triangle with two equal vertices is invalid whatever the angle test says |
| `Triangles.IsValidMeansDistinctAndWideAngles` | src/triangle.rs:38-50 | valid exactly when the vertices are distinct and all three angles pass the test |
| `Triangles.New` | src/triangle.rs:52-61 | succeeds exactly on three vertices, with colour (0, 0, 0, 128); otherwise it panics with the count |
| `Triangles.EdgeTest` | src/triangle.rs:79-82 | the three edge values at the point are all non-negative or all non-positive, so a point on an edge is inside |
| `Triangles.EdgeTestReordered` | src/triangle.rs:66-83 | the edge test is the same for every order of the vertices |
| `Triangles.SortVertices` | src/triangle.rs:69-77 | the sorted path is a reordering of the path, in the comparator's order |
| `Triangles.ContainsPixel` | src/triangle.rs:66-83 | `contains_pixel` is the edge test on the unsorted path: the sort does not matter |
| `Triangles.VerticesPassEdgeTest` | src/triangle.rs:66-83 | every vertex is contained in its triangle |
| `Triangles.ContainsPixelExamples` | src/triangle.rs:438-459 | the four answers of the unit test |
| `Triangles.FirstTestTriangleEdgeTest` | src/triangle.rs:450-458 | the test triangle (0,0), (3,0), (0,3) contains exactly the points with `x, y >= 0` and `x + y <= 3` |
| `Triangles.SecondTestTriangleEdgeTest` | src/triangle.rs:440-448 | the test triangle (5,5), (5,2), (2,5) contains exactly the points with `x, y <= 5` and `x + y >= 7` |
| `Triangles.BoundingBox` | src/triangle.rs:85-96 | the box holds every vertex and each side touches one |
| `Triangles.BoundingBoxExample` | src/triangle.rs:425-436 | the box of the unit test |
| `Triangles.GetPixels` | src/triangle.rs:142-161 | the nested loops compute the filtered scan of the inclusive bounding box |
| `Triangles.PixelsAreTheFilteredBox` | src/triangle.rs:142-161 | a point is listed exactly when it is in the box and passes the edge test; the list is ordered by x, then y |
| `Triangles.PixelsContainVertices` | src/triangle.rs:142-161 | every vertex is among the pixels |
| `Triangles.EdgeTestWithinBox` | src/triangle.rs:142-161 | for a non-degenerate triangle, every point that passes the edge test lies in the bounding box |
| `Triangles.PixelsOfProperTriangle` | src/triangle.rs:142-161 | for a non-degenerate triangle, the pixels are exactly the points it contains |
| `Triangles.GetPixelsFirstExample` | src/triangle.rs:380-401 | the ten pixels of the first unit test, in order |
| `Triangles.GetPixelsSecondExample` | src/triangle.rs:403-422 | the ten pixels of the second unit test, in order |
| `Triangles.Attempt` | src/triangle.rs:129-131 | one attempt moves vertex `gen_range(0..3)` by `PrimitivePoint::mutate`; the other vertices and the colour are kept |
| `Triangles.Mutated` | src/triangle.rs:123-140 | either a valid triangle of the same colour, after at least one attempt, or the too-many-attempts panic |
| `Triangles.MutatedFirstAttemptValid` | src/triangle.rs:133-135 | a valid first attempt is the result, after three draws |
| `Triangles.MutatedPanicsWhenNothingIsValid` | src/triangle.rs:136-138 | when no angle passes the test, the loop panics |
| `Triangles.Mutate` | src/triangle.rs:123-140 | the counter loop computes `Mutated` |
| `Triangles.Random` | src/triangle.rs:105-114 | a valid triangle with colour (0, 0, 0, 128); an empty canvas or a non-positive border extension panics on the empty range |
| `Triangles.RandomStartsAroundACanvasPoint` | src/triangle.rs:105-108 | the first vertex is on the canvas and the other two are drawn around it |
| `QuadraticBeziers.New` | src/quadratic_bezier.rs:25-27 | `new(start, end, control)` puts each argument in its field, with colour (0, 0, 0, 128) |
| `QuadraticBeziers.SquaredDistance` | src/quadratic_bezier.rs:31-39 | a squared distance is never negative, and zero exactly for equal points |
| `QuadraticBeziers.IsValid` | src/quadratic_bezier.rs:30-42 | the squared start-to-end distance exceeds both squared distances to the control point |
| `QuadraticBeziers.IsValidRejectsCoincident` | src/quadratic_bezier.rs:30-42 | a curve with two equal points is invalid |
| `QuadraticBeziers.IsValidReversed` | src/quadratic_bezier.rs:30-42 | exchanging start and end keeps validity |
| `QuadraticBeziers.ValidPointsAreDistinct` | src/quadratic_bezier.rs:30-42 | a valid curve has three distinct points |
| `QuadraticBeziers.Attempt` | src/quadratic_bezier.rs:65-72 | pick 0, 1 and 2 move start, end and control by `PrimitivePoint::mutate`; the rest is kept |
| `QuadraticBeziers.AttemptMovesOnePoint` | src/quadratic_bezier.rs:65-72 | an attempt changes at most one of the three points |
| `QuadraticBeziers.Mutated` | src/quadratic_bezier.rs:59-81 | either a valid curve of the same colour or the too-many-attempts panic |
| `QuadraticBeziers.MutatedPanicsWhenStuck` | src/quadratic_bezier.rs:74-79 | with all draws zero, a curve whose start equals its end is never repaired, and the loop panics |
| `QuadraticBeziers.Mutate` | src/quadratic_bezier.rs:59-81 | the counter loop computes `Mutated` |
| `QuadraticBeziers.BoundingBox` | src/quadratic_bezier.rs:129-135 | the box holds the three points and each side touches one |
| `QuadraticBeziers.Random` | src/quadratic_bezier.rs:46-55 | a valid curve with colour (0, 0, 0, 128); an empty canvas or a non-positive border extension panics |
| `QuadraticBeziers.HexUnpadded` | src/quadratic_bezier.rs:138 | `{:X}` writes a channel in one or two digits |
| `QuadraticBeziers.StrokeColorAsWritten` | src/quadratic_bezier.rs:138-139 | `#` then each channel in `{:X}`: one digit below 16, two otherwise, with no separator |
| `QuadraticBeziers.StrokeColorAsWrittenCollides` | src/quadratic_bezier.rs:138-139 | two different colours are written as the same stroke string |
| `QuadraticBeziers.StrokeColor` | src/quadratic_bezier.rs:138-139 | the padded stroke colour is a well-formed `#RRGGBB` that parses back to the channels |
| `QuadraticBeziers.StrokeColorInjective` | src/quadratic_bezier.rs:138-139 | padded, different colours give different strings |
| `Rectangles.IsValid` | src/rectangle.rs:27-29 | every rectangle is valid |
| `Rectangles.ClampSide` | src/rectangle.rs:69-73 | a side stays between 5 and `max(5, width, height)`, and moves by exactly its draw when that stays within `5..=max(width, height)` |
| `Rectangles.Attempt` | src/rectangle.rs:64-84 | pick 0 to 3 change the centre, width, height or angle as the match arms do; the other fields and the colour are kept |
| `Rectangles.AttemptKeepsRanges` | src/rectangle.rs:64-84 | an attempt keeps the centre on the extended canvas, each side within its bounds and the angle below 180 |
| `Rectangles.AttemptChangesOneField` | src/rectangle.rs:64-84 | an attempt changes at most one of the four fields |
| `Rectangles.Mutate` | src/rectangle.rs:58-93 | `is_valid` is always true, so the loop makes exactly one attempt |
| `Rectangles.RandomAsWritten` | src/rectangle.rs:38-54 | the code as written, with the side names shadowed: it fails only by an empty-range panic |
| `Rectangles.Random` | src/rectangle.rs:38-54 | the evidently intended draw succeeds exactly on a canvas whose larger side halves to more than 5, giving a rectangle within range and coloured (0, 0, 0, 128) |
| `Rectangles.RandomAsWrittenPanicsOnWideCanvas` | src/rectangle.rs:40-41 | on a 100 x 10 canvas with width drawn as 6, the code as written panics while the intended draw succeeds |
| `Rectangles.BoxPixelsAreTheBox` | src/rectangle.rs:95-107 | the scan lists exactly the inclusive box of half-sides `width / 2` and `height / 2`, ordered, with `(2 (w/2) + 1)(2 (h/2) + 1)` points |
| `Rectangles.PixelsAtAngleZero` | src/rectangle.rs:109-111 | at angle 0 the pixels are the box itself |
| `Rectangles.GetPixels` | src/rectangle.rs:95-114 | the loops compute the rotated box |
| `Rectangles.SquareOfSideFiveScan` | src/rectangle.rs:190-216 | the 5 x 5 box around the origin lists the 25 points of the unit test, in order |
| `Rectangles.GetPixelsExample` | src/rectangle.rs:180-218 | `get_pixels` of the unit test's rectangle is the expected list |
| `Rectangles.PaintOn` | src/rectangle.rs:135-149 | the output is the filtered blend of the pixels, of the same size, and every other pixel is unchanged |
| `Ellipses.IsValid` | src/ellipse.rs:27-29 | both semi-axes pass the `f64` comparison against a tenth of their canvas side |
| `Ellipses.ValidMeansSmallAxes` | src/ellipse.rs:27-29 | a valid ellipse has `10 a <= width` and `10 b <= height`; `10 a < width` and `10 b < height` make it valid |
| `Ellipses.NarrowCanvasHasNoValidEllipse` | src/ellipse.rs:27-29 | with positive semi-axes, no ellipse is valid on a canvas narrower than 10 pixels on either side |
| `Ellipses.ClampAxis` | src/ellipse.rs:78-89 | a semi-axis stays within `1..=max(width, height)` and moves by exactly its draw when that stays inside |
| `Ellipses.ClampAngle` | src/ellipse.rs:92-93 | the angle stays within `0..=359` and moves by exactly its draw when that stays inside |
| `Ellipses.DrawsOfAttempt` | src/ellipse.rs:73-94 | an attempt uses two or three draws |
| `Ellipses.Attempt` | src/ellipse.rs:73-96 | pick 0 to 3 change the centre, `a`, `b` or the angle as the match arms do; the rest is kept |
| `Ellipses.AttemptKeepsRanges` | src/ellipse.rs:73-96 | an attempt keeps the centre, the semi-axes and the angle within their ranges |
| `Ellipses.AttemptChangesOneField` | src/ellipse.rs:73-96 | an attempt changes at most one of the four fields |
| `Ellipses.Mutated` | src/ellipse.rs:66-105 | either a valid ellipse of the same colour, within range if it started so, or the too-many-attempts panic |
| `Ellipses.MutatedPanicsOnNarrowCanvas` | src/ellipse.rs:98-103 | on a canvas narrower than 10 pixels, the loop always panics |
| `Ellipses.Mutate` | src/ellipse.rs:66-105 | the counter loop computes `Mutated` |
| `Ellipses.Drawn` | src/ellipse.rs:44-58 | the ellipse before mutation has its centre on the canvas, semi-axes in `1..max(width, height) / 10` and an angle below 360; it exists exactly when those ranges are non-empty |
| `Ellipses.Random` | src/ellipse.rs:44-62 | a valid, within-range ellipse with colour (0, 0, 0, 128); it is the empty-range panic exactly when the canvas is empty or its larger side is below 20 |
| `Ellipses.RandomPanicsOnNarrowCanvas` | src/ellipse.rs:44-62 | on a canvas narrower than 10 pixels, `random` always panics, by mutation once the larger side reaches 20 |
| `Ellipses.Contains` | src/ellipse.rs:31-35 | with non-zero semi-axes, `(x, y)` is inside when `dx² b² + dy² a² <= a² b²`; a zero semi-axis contains nothing |
| `Ellipses.ContainsCentreAndAxisEnds` | src/ellipse.rs:31-35 | the centre and the four ends of the axes are inside |
| `Ellipses.ContainsSymmetric` | src/ellipse.rs:31-35 | containment is symmetric in both axes |
| `Ellipses.ContainedWithinAxes` | src/ellipse.rs:31-35 | every contained point lies within `a` of the centre in x and `b` in y |
| `Ellipses.ContainsFirstExample` | src/ellipse.rs:190-203 | the first unit test's two answers |
| `Ellipses.ContainsSecondExample` | src/ellipse.rs:205-218 | the second unit test's three answers |
| `Ellipses.GetPixels` | src/ellipse.rs:107-127 | the loops compute the rotated filtered scan |
| `Ellipses.UnrotatedPixels` | src/ellipse.rs:107-121 | the nested scan of `cx-a..cx+a` by `cy-b..cy+b`, keeping the contained points |
| `Ellipses.UnrotatedPixelsAreTheEllipse` | src/ellipse.rs:107-121 | the scan lists exactly the contained points of the half-open box, ordered; with positive semi-axes, these are the contained points off the right and bottom axis ends |
| `Ellipses.UnrotatedPixelsOmitRightAndBottomEnds` | src/ellipse.rs:115-116 | the left and top axis ends are listed, the right and bottom ends are not |
| `Ellipses.PixelsAtAngleZero` | src/ellipse.rs:123-125 | at angle 0 the pixels are the unrotated scan |
| `Ellipses.PaintOn` | src/ellipse.rs:144-158 | the output is the filtered blend of the pixels, of the same size, and every other pixel is unchanged |
| `Shapes.WithColor` | src/triangle.rs:226-228 | recolouring sets the colour and keeps the family |
| `Shapes.WithColorLaws` | src/triangle.rs:226-228 | the last colour set wins, and setting a shape's own colour changes nothing |
| `Shapes.ValidIgnoresColor` | src/shape.rs:27 | validity does not depend on the colour |
| `Shapes.Mutated` | src/shape.rs:18 | a mutation gives a valid shape of the same family and colour, or a curve, triangle or ellipse panics |
| `Shapes.Mutate` | src/shape.rs:18 | the dispatch computes `Mutated` |
| `Shapes.Random` | src/primitive_image.rs:163-169 | a valid shape of the requested family with colour (0, 0, 0, 128), or one of the two panics; an empty canvas always panics |
| `Shapes.GetPixels` | src/shape.rs:19 | the dispatch computes each family's pixels |
| `Shapes.PixelsIgnoreColor` | src/shape.rs:19 | recolouring keeps the pixels |
| `Shapes.PaintOn` | src/shape.rs:21 | the dispatch computes each family's painting |
| `Shapes.PaintedKeepsSize` | src/shape.rs:21 | painting keeps the buffer's size |
| `Shapes.PaintedLeavesUnlistedPixels` | src/ellipse.rs:150-155 | a rectangle or ellipse leaves row 0, column 0 and every unlisted pixel unchanged |
| `PrimitiveImages.Mean` | src/primitive_image.rs:250-259 | the floor mean of each channel with alpha 128, or (0, 0, 0, 0) for no colours |
| `PrimitiveImages.MeanWithinChannelRange` | src/primitive_image.rs:277-282 | each channel of the mean is the floor of the channel sum over the count, lies between the smallest and largest values of that channel, and alpha is 128 |
| `PrimitiveImages.MeanOfUniform` | src/primitive_image.rs:262-285 | a list of one colour averages to that colour with alpha 128 |
| `PrimitiveImages.AverageColor` | src/primitive_image.rs:262-285 | the loop computes the mean of all pixels |
| `PrimitiveImages.AverageOfFill` | src/primitive_image.rs:294-301 | a non-empty buffer of one colour averages to that colour with alpha 128, as the first two tests say |
| `PrimitiveImages.AverageOfTwoPixelExample` | src/primitive_image.rs:303-306 | the third test: black and (10, 10, 10) average to (5, 5, 5, 128) |
| `PrimitiveImages.InBoundsSamples` | src/primitive_image.rs:237-248 | the colours of the listed pixels that lie in the buffer, in list order |
| `PrimitiveImages.InBoundsSamplesComeFromTheList` | src/primitive_image.rs:237-240 | every sample is the colour of an in-bounds listed pixel, and no pixel in bounds means no sample |
| `PrimitiveImages.EveryInBoundsPixelIsSampled` | src/primitive_image.rs:237-248 | every listed pixel in the buffer is sampled, row 0 and column 0 included, and there is exactly one sample per in-bounds list entry |
| `PrimitiveImages.AverageColorInShape` | src/primitive_image.rs:228-260 | the loop computes the mean over the listed pixels inside the buffer |
| `PrimitiveImages.NoPixelInBoundsAveragesToZero` | src/primitive_image.rs:250-259 | a shape with no pixel in the buffer gets (0, 0, 0, 0) |
| `PrimitiveImages.SetColorUsing` | src/primitive_image.rs:63-65 | the shape gets the average target colour under its pixels |
| `PrimitiveImages.FittingIsIdempotent` | src/primitive_image.rs:63-65 | fitting a fitted shape again changes nothing |
| `PrimitiveImages.Step` | src/primitive_image.rs:181-205 | the pass fails exactly when the mutation panics; otherwise, for the refitted mutant `s`, the age becomes 0 if and only if `s` scores strictly below the best score, in which case `s` becomes the current and best shape with its score; any other mutant is dropped, the best shape and score are kept and the age rises by one; the family and validity of the best are kept |
| `PrimitiveImages.Climb` | src/primitive_image.rs:181-205 | the loop ends with the age at the bound and a best score no higher than at the start, keeping the loop head's state |
| `PrimitiveImages.ClimbStep` | src/primitive_image.rs:181-205 | one pass below the age bound leaves the loop's outcome unchanged |
| `PrimitiveImages.Start` | src/primitive_image.rs:163-176 | the search starts from a fitted, valid random shape of the family, with its own score and age 0 |
| `PrimitiveImages.SearchOffersItsBest` | src/primitive_image.rs:172-205 | the offered shape is a valid shape of the family, its score is the best score, and that score is no higher than the first shape's |
| `PrimitiveImages.CommitLowersScore` | src/primitive_image.rs:207-216 | when the commit condition holds, painting the best shape lowers the score |
| `PrimitiveImages.SearchWithNoAgeIsTheStart` | src/primitive_image.rs:179-181 | with `max_age` 0 the first shape is offered |
| `PrimitiveImages.Pass` | src/primitive_image.rs:182-202 | the loop body computes `Step` |
| `PrimitiveImages.Begin` | src/primitive_image.rs:163-176 | the set-up computes `Start` |
| `PrimitiveImages.SearchLoop` | src/primitive_image.rs:161-205 | the set-up and the `while age < max_age` loop compute the search |
| `PrimitiveImages.ElementsConcat` | src/primitive_image.rs:105-107 | the elements of two shape lists joined are the two element strings joined |
| `PrimitiveImages.ElementsInOrder` | src/primitive_image.rs:105-107 | shape `i`'s element follows those of the shapes before it and precedes the rest |
| `PrimitiveImages.DocumentOfOneMoreShape` | src/primitive_image.rs:82-113 | committing one more shape inserts its element right before the closing tags |
| `PrimitiveImages.PrimitiveImage.constructor` | src/primitive_image.rs:58-60 | the approximation is the background everywhere at the target's size, and no shape is committed |
| `PrimitiveImages.PrimitiveImage.Score` | src/primitive_image.rs:157-159 | the score of the committed approximation against the target |
| `PrimitiveImages.PrimitiveImage.AddNewShape` | src/primitive_image.rs:161-217 | returns whether the best shape beats the session's score; if so the approximation is painted with it and it is appended, otherwise, or on a panic, nothing changes |
| `PrimitiveImages.Document` | src/primitive_image.rs:82-113 | the `<svg>` start tag with the size, the background `<rect>`, `<g>`, each shape's element in list order, then `</g></svg>` |
| `PrimitiveImages.PrimitiveImage.AsSvg` | src/primitive_image.rs:82-113 | the document is the header, the background and the committed shapes' elements in commit order |

## Left out

- `from_path`, `save_to`, `save_to_svg`, `save_to_img`: file I/O, image decoding and resizing. The constructor takes the already resized target. `as_svg` takes the original size as two numbers.
- `score` (`root_mean_squared_error`): floating point. It is an environment function with natural-number results; only the order of the scores matters to the engine.
- `PrimitivePoint::angle`, `sqrt`, `acos`, `degrees`, `radians`: floating point. They enter only through the triangle's angle test, which is a parameter.
- `rotate_point`: floating point. It is a parameter obeying `RotationLaws`, which takes as axioms that angle 0 is the identity and the two values of the unit test at `src/utilities.rs:103-119` (90 and 180 degrees about (10, 10)). Every other rotation is left unspecified.
- `QuadraticBezier::get_pixels`: floating-point sampling plus the Bresenham walk. It is a parameter that depends on the three points only.
- Triangle and curve `paint_on` (`draw_polygon`, `draw_cubic_bezier_curve`, `overlay`): library drawing. It is a parameter that keeps the buffer's size.
- `Pixel::blend`: the library's alpha blend. It is a parameter.
- `scaled_paint_on` and the per-shape `as_svg`: they scale coordinates by an `f64` and format `f64` values. The element string is a parameter. The document structure, the background rectangle and the stroke colour of a curve are modelled.
- `Ellipses.IsValid`: the `f64` test `a < n * 0.1` is a parameter. The laws pin it down except when `10 a == n`, where the `f64` product may round either way.
- `Ellipses.Contains`: the `f64` form `dx²/a² + dy²/b² <= 1` is stated as the exact integer inequality `dx² b² + dy² a² <= a² b²`. That form differs from the floating-point form only by rounding. A zero semi-axis contains nothing (the division is non-finite).
- `get_rng`, `get_time_seed`, `StdRng`, `Normal`: random generation and the clock. They are replaced by an arbitrary stream of draws. The source's re-seeding of each point mutation from the same seed is a particular stream, so it is covered.
- `i32`, `i64` and `u32` overflow: the model's integers are unbounded. Coordinates stay within a few pixels of the canvas, and an `i64` channel sum would need more than 2^55 pixels to overflow.
- `cubic_bezier.rs`, `polygon.rs`, `runner.rs`, `main.rs`, `arguments.rs`, `lib.rs`: outside the engine modelled here. `ShapeType::CubicBezier` therefore has no `Family` case.
- `QuadraticBeziers.IsValid`: its doc comment says no validation is done. The code does validate, and the model follows the code.
- `Shapes.Random`: the rectangle case uses the corrected `Rectangles.Random` described under Findings.
- `QuadraticBeziers.AttemptMovesOnePoint`, `Rectangles.AttemptChangesOneField`, `Ellipses.AttemptChangesOneField`: these state "at most one field changes". A draw of 0, or a clamp, can leave the picked field unchanged, so "exactly one" would be false.
- `PrimitiveImages.PrimitiveImage.AddNewShape`: the trial state works on buffer values instead of `self.clone()`. The clone is never observed, so no aliasing is modelled.

## Findings

| source | as written | input that shows it | evidently intended | confidence | as-written member | corrected member |
|---|---|---|---|---|---|---|
| src/rectangle.rs:38-51 | `let width = gen_range(5..max(width, height) / 2)` shadows the canvas width, so the height range and the `mutate` bounds use the rectangle's width instead of the canvas's | a 100 x 10 canvas whose width draw is 6: the height range `5..max(6, 10) / 2` is empty and `random` panics | draw both sides from the canvas's `max(width, height) / 2` and mutate on the canvas | not executed | `Rectangles.RandomAsWritten`, `Rectangles.RandomAsWrittenPanicsOnWideCanvas` | `Rectangles.Random` |
| src/quadratic_bezier.rs:138 | the stroke colour is `#{:X}{:X}{:X}`, unpadded, so a channel below 16 takes one digit | (0x01, 0x23, 0x04) and (0x12, 0x03, 0x04) are both written `#1234` | `{:02X}` as in `rgb_to_hex`, a one-to-one `#RRGGBB` | not executed | `QuadraticBeziers.StrokeColorAsWritten`, `QuadraticBeziers.StrokeColorAsWrittenCollides` | `QuadraticBeziers.StrokeColor`, `QuadraticBeziers.StrokeColorInjective` |
