/** The part of a 2D canvas context the planner drives: the transform calls it
    issues (`translate`, `scale(-1, 1)`, `rotate`) recorded as values, and
    what they do to a point.  Rotations are whole degrees; only quarter
    turns, the only ones the planner issues, are given a meaning.
    Coordinates follow the canvas convention: y grows downwards, so a
    positive angle turns clockwise on screen. */
module Canvas2D {

  datatype Point = Point(x: real, y: real)

  datatype CanvasOp =
    | Translate(dx: real, dy: real)   // ctx.translate(dx, dy)
    | FlipHorizontal                  // ctx.scale(-1, 1)
    | Rotate(degrees: int)            // ctx.rotate(degrees * PI / 180)

  /** An op the model can give a meaning to. */
  predicate Exact(op: CanvasOp) {
    op.Rotate? ==> op.degrees % 90 == 0
  }

  predicate AllExact(ops: seq<CanvasOp>) {
    forall i :: 0 <= i < |ops| ==> Exact(ops[i])
  }

  /** The squared distance of a point from the origin. */
  function Norm2(p: Point): real {
    p.x * p.x + p.y * p.y
  }

  /** An op list without translations: only flips and turns about the origin. */
  predicate AboutOrigin(ops: seq<CanvasOp>) {
    forall i :: 0 <= i < |ops| ==> !ops[i].Translate?
  }

  /** The point in the coordinates before `op` that a point `p` given after
      `op` denotes: the context matrix is multiplied on the right by `op`.
      A translation moves every point by its offsets; a flip or a quarter
      turn keeps every point at its distance from the origin. */
  function ApplyOp(op: CanvasOp, p: Point): (q: Point)
    requires Exact(op)
    ensures op.Translate? ==> q.x - p.x == op.dx && q.y - p.y == op.dy
    ensures !op.Translate? ==> Norm2(q) == Norm2(p)
  {
    match op
    case Translate(dx, dy) => Point(p.x + dx, p.y + dy)
    case FlipHorizontal => Point(-p.x, p.y)
    case Rotate(degrees) =>
      var quarters := (degrees / 90) % 4;
      if quarters == 0 then p
      else if quarters == 1 then Point(-p.y, p.x)
      else if quarters == 2 then Point(-p.x, -p.y)
      else Point(p.y, -p.x)
  }

  /** Each op is undone by the op of the opposite offset or angle; a flip
      undoes itself. */
  lemma ApplyOpInverse(op: CanvasOp, p: Point)
    requires Exact(op)
    ensures Exact(Inverse(op)) && ApplyOp(Inverse(op), ApplyOp(op, p)) == p
  {
    if op.Rotate? {
      var k := op.degrees / 90;
      assert op.degrees == 90 * k;
      assert -op.degrees == 90 * -k;
      assert (-op.degrees) / 90 == -k;
    }
  }

  function Inverse(op: CanvasOp): CanvasOp {
    match op
    case Translate(dx, dy) => Translate(-dx, -dy)
    case FlipHorizontal => FlipHorizontal
    case Rotate(degrees) => Rotate(-degrees)
  }

  /** Where a point drawn after issuing `ops` on a fresh context lands on the
      canvas: the first op issued is the outermost.  Without translations
      the map keeps every point at its distance from the origin. */
  function Transform(ops: seq<CanvasOp>, p: Point): (q: Point)
    requires AllExact(ops)
    ensures AboutOrigin(ops) ==> Norm2(q) == Norm2(p)
    decreases |ops|
  {
    if ops == [] then p
    else
      assert AboutOrigin(ops) ==> AboutOrigin(ops[1..]) by {
        if AboutOrigin(ops) {
          forall i | 0 <= i < |ops[1..]| ensures !ops[1..][i].Translate? { assert ops[1..][i] == ops[i + 1]; }
        }
      }
      ApplyOp(ops[0], Transform(ops[1..], p))
  }

  /** Issuing two lists of ops one after the other composes their maps. */
  lemma {:induction false} TransformAppend(a: seq<CanvasOp>, b: seq<CanvasOp>, p: Point)
    requires AllExact(a) && AllExact(b)
    ensures AllExact(a + b)
    ensures Transform(a + b, p) == Transform(a, Transform(b, p))
  {
    assert AllExact(a + b) by {
      forall i | 0 <= i < |a + b| ensures Exact((a + b)[i]) {
        if i < |a| { assert (a + b)[i] == a[i]; } else { assert (a + b)[i] == b[i - |a|]; }
      }
    }
    if a == [] {
      assert a + b == b;
    } else {
      assert (a + b)[0] == a[0] && (a + b)[1..] == a[1..] + b;
      assert AllExact(a[1..]) by {
        forall i | 0 <= i < |a[1..]| ensures Exact(a[1..][i]) { assert a[1..][i] == a[i + 1]; }
      }
      TransformAppend(a[1..], b, p);
    }
  }

  /** A list of one op, unfolded. */
  lemma TransformOne(a: CanvasOp, p: Point)
    requires Exact(a)
    ensures AllExact([a]) && Transform([a], p) == ApplyOp(a, p)
  {
    assert [a][1..] == [];
  }

  /** A list of two ops, unfolded. */
  lemma TransformTwo(a: CanvasOp, b: CanvasOp, p: Point)
    requires Exact(a) && Exact(b)
    ensures AllExact([a, b]) && Transform([a, b], p) == ApplyOp(a, ApplyOp(b, p))
  {
    assert [a, b][1..] == [b];
    TransformOne(b, p);
  }
}
