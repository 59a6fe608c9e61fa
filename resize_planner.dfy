/** The geometry of `resizeMe` (processImg.js:3-39): fit the image into the
    bounding box without upscaling, choose the canvas size from the
    orientation, and record the canvas calls that turn the image upright.
    The `canvas` and its context become data: `Plan` returns the sizes, the
    list of transform calls and the rectangle passed to `drawImage`. */
module ResizePlanner {
  import opened Canvas2D

  datatype Size = Size(width: nat, height: nat)

  /** The rectangle of `ctx.drawImage(img, x, y, width, height)`. */
  datatype Rect = Rect(x: real, y: real, width: nat, height: nat)

  datatype ResizePlan = ResizePlan(scaled: Size, canvas: Size, ops: seq<CanvasOp>, draw: Rect)

  /** `Math.round(n / d)` for a non-negative quotient: the nearest integer,
      a half rounded up. */
  function RoundedQuotient(n: nat, d: nat): (q: nat)
    requires d > 0
    ensures 2 * (q * d) - d <= 2 * n < 2 * (q * d) + d
  {
    var q := (2 * n + d) / (2 * d);
    assert 2 * n + d == q * (2 * d) + (2 * n + d) % (2 * d);
    q
  }

  /** The scaling step (processImg.js:6-14): a wide image wider than
      `maxWidth` gets that width, any other image taller than `maxHeight`
      gets that height, and the other side follows the aspect ratio,
      rounded to the nearest pixel.  Every other image keeps its size. */
  function Fit(width: nat, height: nat, maxWidth: nat, maxHeight: nat): (s: Size)
    ensures width > height && width > maxWidth ==>
      s.width == maxWidth &&
      2 * (s.height * width) - width <= 2 * (height * maxWidth) < 2 * (s.height * width) + width
    ensures width <= height && height > maxHeight ==>
      s.height == maxHeight &&
      2 * (s.width * height) - height <= 2 * (width * maxHeight) < 2 * (s.width * height) + height
    ensures !(width > height && width > maxWidth) && !(width <= height && height > maxHeight) ==>
      s == Size(width, height)
  {
    if width > height then
      if width > maxWidth then Size(maxWidth, RoundedQuotient(height * maxWidth, width))
      else Size(width, height)
    else if height > maxHeight then Size(RoundedQuotient(width * maxHeight, height), maxHeight)
    else Size(width, height)
  }

  /** `[6, 8, 5, 7].indexOf(orientation) !== -1`: the orientations that
      turn the image by a quarter, so the canvas exchanges its sides. */
  predicate SwapsAxes(orientation: int)
    ensures SwapsAxes(orientation) <==> 5 <= orientation <= 8
  {
    orientation == 6 || orientation == 8 || orientation == 5 || orientation == 7
  }

  /** The two `switch` tables (processImg.js:22-37), rotations in degrees.
      Every entry is a flip or a turn about the origin, and the table ends
      in a quarter turn exactly for the orientations that swap the sides. */
  function OrientationOps(orientation: int): (ops: seq<CanvasOp>)
    ensures AllExact(ops) && AboutOrigin(ops)
    ensures SwapsAxes(orientation) <==>
      |ops| > 0 && ops[|ops| - 1].Rotate? && (ops[|ops| - 1].degrees == 90 || ops[|ops| - 1].degrees == -90)
  {
    if SwapsAxes(orientation) then
      match orientation
      case 6 => [Rotate(90)]
      case 8 => [Rotate(-90)]
      case 5 => [FlipHorizontal, Rotate(90)]
      case 7 => [FlipHorizontal, Rotate(-90)]
      case _ => []
    else
      match orientation
      case 3 => [Rotate(180)]
      case 2 => [FlipHorizontal]
      case 4 => [FlipHorizontal]
      case _ => []
  }

  /** Everything after the scaling step, for a given table of orientation
      ops: the canvas size (lines 16-18), the two translations (lines
      20-21), the orientation ops, and the `drawImage` rectangle of the
      branch taken (line 30 or 38).  The canvas is the scaled size, possibly
      with its sides exchanged; the image is drawn at its scaled size,
      centred on the origin; the ops are two translations and then `turn`. */
  function Layout(scaled: Size, orientation: int, turn: seq<CanvasOp>): (p: ResizePlan)
    ensures p.scaled == scaled
    ensures p.canvas == scaled || p.canvas == Size(scaled.height, scaled.width)
    ensures p.draw == Rect(-(scaled.width as real) / 2.0, -(scaled.height as real) / 2.0, scaled.width, scaled.height)
    ensures |p.ops| == 2 + |turn| && p.ops[2..] == turn && p.ops[..2] == [Translate(0.0, 0.0), Translate(p.canvas.width as real / 2.0, p.canvas.height as real / 2.0)]
    ensures AllExact(turn) ==> AllExact(p.ops)
  {
    var r := SwapsAxes(orientation);
    var canvas := Size(if r then scaled.height else scaled.width, if r then scaled.width else scaled.height);
    var halfW, halfH := canvas.width as real / 2.0, canvas.height as real / 2.0;
    var ops := [Translate(0.0, 0.0), Translate(halfW, halfH)] + turn;
    var draw :=
      if r then Rect(-(canvas.height as real) / 2.0, -(canvas.width as real) / 2.0, canvas.height, canvas.width)
      else Rect(-halfW, -halfH, canvas.width, canvas.height);
    ResizePlan(scaled, canvas, ops, draw)
  }

  /** The plan `resizeMe` carries out for an image of `width` x `height`:
      the image is never enlarged, and after the two translations to the
      canvas centre it is only flipped or turned about that centre. */
  function Plan(width: nat, height: nat, maxWidth: nat, maxHeight: nat, orientation: int): (p: ResizePlan)
    ensures p.scaled.width <= width && p.scaled.height <= height
    ensures |p.ops| >= 2 && AllExact(p.ops) && AboutOrigin(p.ops[2..])
  {
    FitBounds(width, height, maxWidth, maxHeight);
    Layout(Fit(width, height, maxWidth, maxHeight), orientation, OrientationOps(orientation))
  }

  // Properties of the scaling step.

  lemma MulMonotone(a: nat, b: nat, c: nat)
    requires b <= c
    ensures a * b <= a * c
  {
  }

  lemma {:induction false} RoundedQuotientAtMost(n: nat, d: nat, k: nat)
    requires d > 0 && n <= k * d
    ensures RoundedQuotient(n, d) <= k
  {
    var q := RoundedQuotient(n, d);
    if q > k {
      MulMonotone(d, k + 1, q);
      assert false;
    }
  }

  /** The fit never upscales, and the dominant side ends within its bound.
      The other side is not bounded (see `FitMinorSideUnbounded`). */
  lemma FitBounds(width: nat, height: nat, maxWidth: nat, maxHeight: nat)
    ensures Fit(width, height, maxWidth, maxHeight).width <= width
    ensures Fit(width, height, maxWidth, maxHeight).height <= height
    ensures width > height ==> Fit(width, height, maxWidth, maxHeight).width <= maxWidth
    ensures width <= height ==> Fit(width, height, maxWidth, maxHeight).height <= maxHeight
  {
    if width > height && width > maxWidth {
      MulMonotone(height, maxWidth, width);
      RoundedQuotientAtMost(height * maxWidth, width, height);
    } else if width <= height && height > maxHeight {
      MulMonotone(width, maxHeight, height);
      RoundedQuotientAtMost(width * maxHeight, height, width);
    }
  }

  /** An image already within the bounds keeps its size. */
  lemma FitWithinBoundsIsIdentity(width: nat, height: nat, maxWidth: nat, maxHeight: nat)
    requires width <= maxWidth && height <= maxHeight
    ensures Fit(width, height, maxWidth, maxHeight) == Size(width, height)
  {
  }

  /** The scaled size keeps the aspect ratio: the rounded side is off by at
      most half a pixel from the exact `height * maxWidth / width` (resp.
      `width * maxHeight / height`). */
  lemma FitKeepsAspect(width: nat, height: nat, maxWidth: nat, maxHeight: nat)
    ensures var s := Fit(width, height, maxWidth, maxHeight);
      width > height ==> -(width as int) < 2 * (s.height * width - height * s.width) <= width
    ensures var s := Fit(width, height, maxWidth, maxHeight);
      0 < height && width <= height ==> -(height as int) < 2 * (s.width * height - width * s.height) <= height
  {
  }

  /** The bound on the side that is not dominant is not enforced: a
      4000 x 3000 image in a 2000 x 100 box becomes 2000 x 1500. */
  lemma FitMinorSideUnbounded()
    ensures Fit(4000, 3000, 2000, 100) == Size(2000, 1500)
  {
  }

  // Properties of the canvas size, the draw rectangle and the op table.

  /** The canvas is the scaled size, its sides exchanged exactly for the
      orientations 5 to 8. */
  lemma CanvasSize(width: nat, height: nat, maxWidth: nat, maxHeight: nat, orientation: int)
    ensures var p := Plan(width, height, maxWidth, maxHeight, orientation);
      p.scaled == Fit(width, height, maxWidth, maxHeight) &&
      (orientation in {5, 6, 7, 8} ==> p.canvas == Size(p.scaled.height, p.scaled.width)) &&
      (orientation !in {5, 6, 7, 8} ==> p.canvas == p.scaled)
  {
  }

  /** Whichever branch draws, the rectangle is the scaled size centred at
      the origin, and the origin was moved to the centre of the canvas. */
  lemma DrawCentred(width: nat, height: nat, maxWidth: nat, maxHeight: nat, orientation: int)
    ensures var p := Plan(width, height, maxWidth, maxHeight, orientation);
      p.draw == Rect(-(p.scaled.width as real) / 2.0, -(p.scaled.height as real) / 2.0, p.scaled.width, p.scaled.height) &&
      |p.ops| >= 2 &&
      p.ops[0] == Translate(0.0, 0.0) &&
      p.ops[1] == Translate(p.canvas.width as real / 2.0, p.canvas.height as real / 2.0)
  {
  }

  /** The op table, after the two translations. */
  lemma OpTable(width: nat, height: nat, maxWidth: nat, maxHeight: nat, orientation: int)
    ensures var ops := Plan(width, height, maxWidth, maxHeight, orientation).ops[2..];
      (orientation == 6 ==> ops == [Rotate(90)]) &&
      (orientation == 8 ==> ops == [Rotate(-90)]) &&
      (orientation == 5 ==> ops == [FlipHorizontal, Rotate(90)]) &&
      (orientation == 7 ==> ops == [FlipHorizontal, Rotate(-90)]) &&
      (orientation == 3 ==> ops == [Rotate(180)]) &&
      (orientation == 2 || orientation == 4 ==> ops == [FlipHorizontal]) &&
      (orientation !in {2, 3, 4, 5, 6, 7, 8} ==> ops == [])
  {
    var p := Plan(width, height, maxWidth, maxHeight, orientation);
    assert p.ops[2..] == OrientationOps(orientation);
  }

  /** Any other code, including the scanner's -1 and -2, plans exactly as
      orientation 1 does. */
  lemma OtherCodesAsOne(width: nat, height: nat, maxWidth: nat, maxHeight: nat, orientation: int)
    requires orientation !in {2, 3, 4, 5, 6, 7, 8}
    ensures Plan(width, height, maxWidth, maxHeight, orientation) == Plan(width, height, maxWidth, maxHeight, 1)
  {
  }

  /** The plan for a 4000 x 3000 image in a 2000 x 2000 box with
      orientation 6. */
  lemma ExamplePlan()
    ensures Plan(4000, 3000, 2000, 2000, 6) ==
      ResizePlan(Size(2000, 1500), Size(1500, 2000),
                 [Translate(0.0, 0.0), Translate(750.0, 1000.0), Rotate(90)],
                 Rect(-1000.0, -750.0, 2000, 1500))
  {
    assert Fit(4000, 3000, 2000, 2000) == Size(2000, 1500);
  }

  // Where the image lands on the canvas.

  /** Where the point (x, y) of a stored `width` x `height` image is seen when
      the image is shown upright, for each value of the Orientation field
      (TIFF 6.0, section 8: which visual side row 0 and column 0 are on).
      Any other value is shown as stored. */
  function Upright(orientation: int, width: real, height: real, p: Point): Point {
    match orientation
    case 2 => Point(width - p.x, p.y)
    case 3 => Point(width - p.x, height - p.y)
    case 4 => Point(p.x, height - p.y)
    case 5 => Point(p.y, p.x)
    case 6 => Point(height - p.y, p.x)
    case 7 => Point(height - p.y, width - p.x)
    case 8 => Point(p.y, width - p.x)
    case _ => p
  }

  /** The stored point that `Upright` shows at the point `c`. */
  function UprightSource(orientation: int, width: real, height: real, c: Point): Point {
    match orientation
    case 2 => Point(width - c.x, c.y)
    case 3 => Point(width - c.x, height - c.y)
    case 4 => Point(c.x, height - c.y)
    case 5 => Point(c.y, c.x)
    case 6 => Point(c.y, height - c.x)
    case 7 => Point(width - c.y, height - c.x)
    case 8 => Point(width - c.y, c.x)
    case _ => c
  }

  predicate Within(p: Point, width: real, height: real) {
    0.0 <= p.x <= width && 0.0 <= p.y <= height
  }

  /** Shown upright, the image covers exactly a box with its sides exchanged
      for the orientations 5 to 8: every stored point lands inside it, and
      every point of it shows exactly one stored point. */
  lemma UprightFillsBox(orientation: int, width: real, height: real, p: Point, c: Point)
    requires width >= 0.0 && height >= 0.0
    ensures var (bw, bh) := if SwapsAxes(orientation) then (height, width) else (width, height);
      (Within(p, width, height) ==> Within(Upright(orientation, width, height, p), bw, bh)) &&
      (Within(c, bw, bh) ==> Within(UprightSource(orientation, width, height, c), width, height)) &&
      Upright(orientation, width, height, UprightSource(orientation, width, height, c)) == c &&
      UprightSource(orientation, width, height, Upright(orientation, width, height, p)) == p
  {
  }

  /** Where `drawImage` puts the point (u, v) of the drawn rectangle, measured
      from its top-left corner, once the plan's ops are in force. */
  function DrawnAt(p: ResizePlan, u: real, v: real): Point
    requires AllExact(p.ops)
  {
    Transform(p.ops, Point(p.draw.x + u, p.draw.y + v))
  }

  /** The ops of `Layout` move a point by the orientation ops, then by half
      the canvas. */
  lemma {:induction false} LayoutTransform(scaled: Size, orientation: int, turn: seq<CanvasOp>, q: Point)
    requires AllExact(turn)
    ensures var p := Layout(scaled, orientation, turn);
      AllExact(p.ops) &&
      Transform(p.ops, q) == Point(Transform(turn, q).x + p.canvas.width as real / 2.0,
                                   Transform(turn, q).y + p.canvas.height as real / 2.0)
  {
    var p := Layout(scaled, orientation, turn);
    var prefix := [Translate(0.0, 0.0), Translate(p.canvas.width as real / 2.0, p.canvas.height as real / 2.0)];
    TransformTwo(prefix[0], prefix[1], Transform(turn, q));
    TransformAppend(prefix, turn, q);
  }

  /** The orientation ops of every orientation but 4, applied to a point of
      an image centred at the origin and then moved by half the canvas,
      give the upright position of that point. */
  ghost predicate TurnsUpright(orientation: int, w: real, h: real, u: real, v: real)
    requires AllExact(OrientationOps(orientation))
  {
    var (cw, ch) := if SwapsAxes(orientation) then (h, w) else (w, h);
    var t := Transform(OrientationOps(orientation), Point(-w / 2.0 + u, -h / 2.0 + v));
    Point(t.x + cw / 2.0, t.y + ch / 2.0) == Upright(orientation, w, h, Point(u, v))
  }

  lemma QuarterTurnUpright(orientation: int, w: real, h: real, u: real, v: real)
    requires SwapsAxes(orientation)
    ensures AllExact(OrientationOps(orientation)) && TurnsUpright(orientation, w, h, u, v)
  {
    var q := Point(-w / 2.0 + u, -h / 2.0 + v);
    if orientation == 5 {
      TransformTwo(FlipHorizontal, Rotate(90), q);
    } else if orientation == 6 {
      TransformOne(Rotate(90), q);
    } else if orientation == 7 {
      TransformTwo(FlipHorizontal, Rotate(-90), q);
    } else {
      TransformOne(Rotate(-90), q);
    }
  }

  lemma StraightUpright(orientation: int, w: real, h: real, u: real, v: real)
    requires !SwapsAxes(orientation) && orientation != 4
    ensures AllExact(OrientationOps(orientation)) && TurnsUpright(orientation, w, h, u, v)
  {
    var q := Point(-w / 2.0 + u, -h / 2.0 + v);
    if orientation == 2 {
      TransformOne(FlipHorizontal, q);
    } else if orientation == 3 {
      TransformOne(Rotate(180), q);
    } else {
      assert OrientationOps(orientation) == [];
    }
  }

  /** For every orientation but 4 the layout draws each point of the scaled
      image where the upright image has it. */
  lemma LayoutUpright(scaled: Size, orientation: int, u: real, v: real)
    requires orientation != 4
    ensures var p := Layout(scaled, orientation, OrientationOps(orientation));
      AllExact(p.ops) &&
      DrawnAt(p, u, v) == Upright(orientation, scaled.width as real, scaled.height as real, Point(u, v))
  {
    var w, h := scaled.width as real, scaled.height as real;
    var q := Point(-w / 2.0 + u, -h / 2.0 + v);
    if SwapsAxes(orientation) {
      QuarterTurnUpright(orientation, w, h, u, v);
    } else {
      StraightUpright(orientation, w, h, u, v);
    }
    LayoutTransform(scaled, orientation, OrientationOps(orientation), q);
  }

  /** For every orientation but 4 the plan draws each image point where the
      upright image has it. */
  lemma PlanDisplaysUpright(width: nat, height: nat, maxWidth: nat, maxHeight: nat, orientation: int, u: real, v: real)
    requires orientation != 4
    ensures var p := Plan(width, height, maxWidth, maxHeight, orientation);
      AllExact(p.ops) &&
      DrawnAt(p, u, v) == Upright(orientation, p.scaled.width as real, p.scaled.height as real, Point(u, v))
  {
    LayoutUpright(Fit(width, height, maxWidth, maxHeight), orientation, u, v);
  }

  // Orientation 4.

  /** As written, orientation 4 mirrors left to right, exactly as 2 does,
      while the upright image of orientation 4 is mirrored top to bottom. */
  lemma OrientationFourAsWritten(width: nat, height: nat, maxWidth: nat, maxHeight: nat, u: real, v: real)
    ensures var p := Plan(width, height, maxWidth, maxHeight, 4);
      AllExact(p.ops) &&
      DrawnAt(p, u, v) == Point(p.scaled.width as real - u, v) &&
      Upright(4, p.scaled.width as real, p.scaled.height as real, Point(u, v)) == Point(u, p.scaled.height as real - v)
  {
    var p := Plan(width, height, maxWidth, maxHeight, 4);
    TransformOne(FlipHorizontal, Point(p.draw.x + u, p.draw.y + v));
    LayoutTransform(p.scaled, 4, [FlipHorizontal], Point(p.draw.x + u, p.draw.y + v));
  }

  /** A 4 x 2 image with orientation 4: the top-left pixel is drawn at the
      top-right corner, where upright it belongs at the bottom-left. */
  lemma OrientationFourMirrorsWrongAxis(p: ResizePlan)
    requires p == Plan(4, 2, 4000, 4000, 4)
    ensures AllExact(p.ops)
    ensures DrawnAt(p, 0.0, 0.0) == Point(4.0, 0.0)
    ensures Upright(4, 4.0, 2.0, Point(0.0, 0.0)) == Point(0.0, 2.0)
  {
    assert p.scaled == Size(4, 2);
    OrientationFourAsWritten(4, 2, 4000, 4000, 0.0, 0.0);
  }

  /** The table with orientation 4 corrected: a half turn and a left-right
      mirror make a top-bottom mirror. */
  function CorrectedOrientationOps(orientation: int): seq<CanvasOp> {
    if orientation == 4 then [Rotate(180), FlipHorizontal] else OrientationOps(orientation)
  }

  function CorrectedPlan(width: nat, height: nat, maxWidth: nat, maxHeight: nat, orientation: int): ResizePlan {
    Layout(Fit(width, height, maxWidth, maxHeight), orientation, CorrectedOrientationOps(orientation))
  }

  /** With the corrected table every orientation is drawn upright, and the
      plan differs from the one as written only for orientation 4. */
  lemma CorrectedPlanDisplaysUpright(width: nat, height: nat, maxWidth: nat, maxHeight: nat, orientation: int, u: real, v: real)
    ensures var p := CorrectedPlan(width, height, maxWidth, maxHeight, orientation);
      AllExact(p.ops) &&
      DrawnAt(p, u, v) == Upright(orientation, p.scaled.width as real, p.scaled.height as real, Point(u, v))
    ensures orientation != 4 ==> CorrectedPlan(width, height, maxWidth, maxHeight, orientation) == Plan(width, height, maxWidth, maxHeight, orientation)
  {
    if orientation == 4 {
      var p := CorrectedPlan(width, height, maxWidth, maxHeight, 4);
      TransformTwo(Rotate(180), FlipHorizontal, Point(p.draw.x + u, p.draw.y + v));
      LayoutTransform(p.scaled, 4, [Rotate(180), FlipHorizontal], Point(p.draw.x + u, p.draw.y + v));
    } else {
      PlanDisplaysUpright(width, height, maxWidth, maxHeight, orientation, u, v);
    }
  }
}
