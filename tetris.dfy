/**
 * The block outline code of src/src_3d/components/objects/tetris.js: the
 * corner rounding of a rectilinear grid contour (`generateShape`) and the
 * single live stage of `generateBeveledShape`. That file's own copies of the
 * bevel generator, the extruder and the cap unpacking are modules `Bevel`
 * (with `NormalRule.UnitSum`) and `GeometryUtils`.
 */
module Tetris {
  import opened Wrappers
  import opened Soup
  import opened Bevel

  /** World units per grid cell (`BLOCK_SIDE`). */
  const BlockSide: int := 50
  /** Radius of every rounded corner (`ROUNDNESS_RADIUS`). */
  const RoundnessRadius: int := 15
  const BevelHeight: real := 10.0
  const BevelSize: real := 10.0
  /** Number of bevel rings (`BEVEL_QUALITY`). */
  const BevelQuality: int := 10

  /** A contour point on the block grid, `[x, y]`. */
  datatype GridPoint = GridPoint(x: int, y: int)

  /**
   * One `Shape.absarc` call. Every angle the code passes is a multiple of a
   * quarter turn, so `startQ` and `endQ` count quarter turns: `q` stands for
   * `q * π / 2`.
   */
  datatype Arc = Arc(cx: int, cy: int, radius: int, startQ: int, endQ: int, clockwise: bool)

  /** Grid directions: `Up` is increasing y, `Right` increasing x. */
  datatype Dir = Up | Right | Down | Left

  /**
   * How the contour arrives at `point`, tested in the code's order: a rise
   * in y wins over a rise in x, which wins over a fall in y.
   */
  function Approach(prev: GridPoint, point: GridPoint): Option<Dir>
  {
    if prev.y < point.y then Some(Up)
    else if prev.x < point.x then Some(Right)
    else if prev.y > point.y then Some(Down)
    else if prev.x > point.x then Some(Left)
    else None
  }

  /** Where the contour turns at `point` after a vertical approach (looking at x) or a horizontal one (looking at y). */
  function Turn(approach: Dir, point: GridPoint, next: GridPoint): Option<Dir>
  {
    if approach == Up || approach == Down then
      if next.x > point.x then Some(Right)
      else if next.x < point.x then Some(Left)
      else None
    else
      if next.y > point.y then Some(Up)
      else if next.y < point.y then Some(Down)
      else None
  }

  /** The grid directions in the drawing plane: x is mirrored (`pX = -x * BLOCK_SIDE`). */
  function StepX(d: Dir): int
  {
    match d
    case Right => -1
    case Left => 1
    case _ => 0
  }

  function StepY(d: Dir): int
  {
    match d
    case Up => 1
    case Down => -1
    case _ => 0
  }

  /** The unit vector at quarter `q` (angle `q * π / 2`), for `0 <= q <= 4`. */
  function QuarterX(q: int): int
    requires 0 <= q <= 4
  {
    if q == 0 || q == 4 then 1 else if q == 2 then -1 else 0
  }

  function QuarterY(q: int): int
    requires 0 <= q <= 4
  {
    if q == 1 then 1 else if q == 3 then -1 else 0
  }

  /** An arc whose angles are whole quarters between 0 and 2π. */
  predicate QuarterAngles(a: Arc)
  {
    0 <= a.startQ <= 4 && 0 <= a.endQ <= 4
  }

  /** Where the arc starts and where it ends. */
  function ArcStartX(a: Arc): int requires QuarterAngles(a) { a.cx + a.radius * QuarterX(a.startQ) }
  function ArcStartY(a: Arc): int requires QuarterAngles(a) { a.cy + a.radius * QuarterY(a.startQ) }
  function ArcEndX(a: Arc): int requires QuarterAngles(a) { a.cx + a.radius * QuarterX(a.endQ) }
  function ArcEndY(a: Arc): int requires QuarterAngles(a) { a.cy + a.radius * QuarterY(a.endQ) }

  /**
   * The eight-case corner table exactly as the code writes it. Its "to Top,
   * then Left" case starts at the quarter where the arc should end.
   */
  function CornerArcAsWritten(prev: GridPoint, point: GridPoint, next: GridPoint): (r: Option<Arc>)
    ensures r.Some? <==> Approach(prev, point).Some? && Turn(Approach(prev, point).value, point, next).Some?
    ensures r.Some? ==>
      var a := r.value;
      var pX, pY := -point.x * BlockSide, point.y * BlockSide;
      && QuarterAngles(a)
      && a.radius == RoundnessRadius
      && (a.cx - pX == RoundnessRadius || a.cx - pX == -RoundnessRadius)
      && (a.cy - pY == RoundnessRadius || a.cy - pY == -RoundnessRadius)
      && (a.endQ - a.startQ == 1 || a.endQ - a.startQ == -1)
      && (a.clockwise <==> a.endQ < a.startQ)
  {
    var radius := RoundnessRadius;
    var pX := -point.x * BlockSide;
    var pY := point.y * BlockSide;
    if prev.y < point.y then
      if next.x > point.x then Some(Arc(pX - radius, pY - radius, radius, 0, 1, false))
      else if next.x < point.x then Some(Arc(pX + radius, pY - radius, radius, 1, 0, true))
      else None
    else if prev.x < point.x then
      if next.y > point.y then Some(Arc(pX + radius, pY + radius, radius, 3, 2, true))
      else if next.y < point.y then Some(Arc(pX + radius, pY - radius, radius, 1, 2, false))
      else None
    else if prev.y > point.y then
      if next.x > point.x then Some(Arc(pX - radius, pY + radius, radius, 4, 3, true))
      else if next.x < point.x then Some(Arc(pX + radius, pY + radius, radius, 2, 3, false))
      else None
    else if prev.x > point.x then
      if next.y > point.y then Some(Arc(pX - radius, pY + radius, radius, 3, 4, false))
      else if next.y < point.y then Some(Arc(pX - radius, pY - radius, radius, 1, 0, true))
      else None
    else None
  }

  /**
   * The corner table with the "to Top, then Left" case sweeping from π to
   * π/2, as the other seven cases do. A corner gets an arc exactly when it
   * has an approach and a turn; the arc is a quarter circle of radius 15
   * centred diagonally off the corner, and it is the corner's fillet: it
   * starts on the incoming edge `radius` before the corner, ends on the
   * outgoing edge `radius` after it, and runs clockwise exactly when the
   * contour turns clockwise in the drawing plane.
   */
  function CornerArc(prev: GridPoint, point: GridPoint, next: GridPoint): (r: Option<Arc>)
    ensures r.Some? <==> Approach(prev, point).Some? && Turn(Approach(prev, point).value, point, next).Some?
    ensures r.Some? ==>
      var a := r.value;
      var pX, pY := -point.x * BlockSide, point.y * BlockSide;
      && QuarterAngles(a)
      && a.radius == RoundnessRadius
      && (a.cx - pX == RoundnessRadius || a.cx - pX == -RoundnessRadius)
      && (a.cy - pY == RoundnessRadius || a.cy - pY == -RoundnessRadius)
      && (a.endQ - a.startQ == 1 || a.endQ - a.startQ == -1)
      && (a.clockwise <==> a.endQ < a.startQ)
    ensures r.Some? ==>
      var a := r.value;
      var din := Approach(prev, point).value;
      var dout := Turn(din, point, next).value;
      var pX, pY := -point.x * BlockSide, point.y * BlockSide;
      && QuarterAngles(a)
      && ArcStartX(a) == pX - RoundnessRadius * StepX(din)
      && ArcStartY(a) == pY - RoundnessRadius * StepY(din)
      && ArcEndX(a) == pX + RoundnessRadius * StepX(dout)
      && ArcEndY(a) == pY + RoundnessRadius * StepY(dout)
      && (a.clockwise <==> StepX(din) * StepY(dout) - StepY(din) * StepX(dout) < 0)
  {
    var radius := RoundnessRadius;
    var pX := -point.x * BlockSide;
    var pY := point.y * BlockSide;
    if prev.y < point.y then
      if next.x > point.x then Some(Arc(pX - radius, pY - radius, radius, 0, 1, false))
      else if next.x < point.x then Some(Arc(pX + radius, pY - radius, radius, 2, 1, true))
      else None
    else if prev.x < point.x then
      if next.y > point.y then Some(Arc(pX + radius, pY + radius, radius, 3, 2, true))
      else if next.y < point.y then Some(Arc(pX + radius, pY - radius, radius, 1, 2, false))
      else None
    else if prev.y > point.y then
      if next.x > point.x then Some(Arc(pX - radius, pY + radius, radius, 4, 3, true))
      else if next.x < point.x then Some(Arc(pX + radius, pY + radius, radius, 2, 3, false))
      else None
    else if prev.x > point.x then
      if next.y > point.y then Some(Arc(pX - radius, pY + radius, radius, 3, 4, false))
      else if next.y < point.y then Some(Arc(pX - radius, pY - radius, radius, 1, 0, true))
      else None
    else None
  }

  /** The code's table and the corrected one differ only when the contour rises and then turns to decreasing x. */
  lemma AsWrittenDiffersOnlyRisingThenLeft(prev: GridPoint, point: GridPoint, next: GridPoint)
    ensures CornerArcAsWritten(prev, point, next) != CornerArc(prev, point, next)
      <==> Approach(prev, point) == Some(Up) && Turn(Up, point, next) == Some(Left)
  {
  }

  /**
   * At a corner the contour reaches rising and leaves towards decreasing x,
   * the code's arc starts `radius` off the incoming edge (drawn at
   * `pX = -x * BLOCK_SIDE`), at the point where the corrected fillet ends,
   * and ends away from both edges. At (1, 1), reached from (1, 0) and left
   * towards (0, 1), it runs from (-35, 50) to (-20, 35) instead of from
   * (-50, 35) to (-35, 50).
   */
  lemma AsWrittenRisingThenLeftIsNoFillet(prev: GridPoint, point: GridPoint, next: GridPoint)
    requires prev.y < point.y && next.x < point.x
    ensures Approach(prev, point) == Some(Up) && Turn(Up, point, next) == Some(Left)
    ensures
      var a := CornerArcAsWritten(prev, point, next).value;
      var c := CornerArc(prev, point, next).value;
      var pX, pY := -point.x * BlockSide, point.y * BlockSide;
      && ArcStartX(a) == pX + RoundnessRadius && ArcStartY(a) == pY
      && ArcEndX(a) == pX + 2 * RoundnessRadius && ArcEndY(a) == pY - RoundnessRadius
      && ArcStartX(a) != pX - RoundnessRadius * StepX(Up)
      && ArcStartX(a) == ArcEndX(c) && ArcStartY(a) == ArcEndY(c)
  {
  }

  // ---------------------------------------------------------------------------
  // The rounding loop

  /**
   * The arc at ring position `k`: the corner at contour vertex `k + 1`
   * (wrapping), between vertices `k` and `k + 2`.
   */
  function VertexArc(contour: seq<GridPoint>, k: nat): Option<Arc>
    requires k < |contour|
  {
    var n := |contour|;
    CornerArc(contour[k], contour[Next(k, n)], contour[Next(Next(k, n), n)])
  }

  /** The arcs of the first `m` corners, in order, skipping corners without one. */
  function ShapeArcs(contour: seq<GridPoint>, m: nat): seq<Arc>
    requires m <= |contour|
  {
    if m == 0 then []
    else
      var arc := VertexArc(contour, m - 1);
      ShapeArcs(contour, m - 1) + (if arc.Some? then [arc.value] else [])
  }

  /**
   * `generateShape`: walks the contour extended by its first two points and
   * appends the arc of every corner to the shape's path.
   */
  method GenerateShape(contour: seq<GridPoint>) returns (path: seq<Arc>)
    ensures path == ShapeArcs(contour, |contour|)
  {
    var n := |contour|;
    path := [];
    if n == 0 {
      // The extended array holds two `undefined`s and the loop does not run.
      return;
    }
    // A one-point contour has no second point; the code's `undefined`
    // there is never read, since the point has no approach direction.
    var second := if n >= 2 then contour[1] else contour[0];
    var contourExt := contour + [contour[0], second];
    var i := 1;
    while i < |contourExt| - 1
      invariant 1 <= i <= |contourExt| - 1
      invariant path == ShapeArcs(contour, i - 1)
    {
      var pointPrev := contourExt[i - 1];
      var point := contourExt[i];
      var pointNext := contourExt[i + 1];
      assert point == contour[Next(i - 1, n)];
      assert n >= 2 ==> pointNext == contour[Next(Next(i - 1, n), n)];
      assert n == 1 ==> CornerArc(pointPrev, point, pointNext) == VertexArc(contour, i - 1);
      var arc := CornerArc(pointPrev, point, pointNext);
      if arc.Some? {
        path := path + [arc.value];
      }
      i := i + 1;
    }
  }

  /** The loop visits each corner once, so at most one arc per contour vertex comes out. */
  lemma {:induction false} ShapeArcsBound(contour: seq<GridPoint>, m: nat)
    requires m <= |contour|
    ensures |ShapeArcs(contour, m)| <= m
  {
    if m > 0 {
      ShapeArcsBound(contour, m - 1);
    }
  }

  /** An arc is emitted exactly when it is the arc of one of the corners. */
  lemma {:induction false} ShapeArcsMembership(contour: seq<GridPoint>, m: nat, arc: Arc)
    requires m <= |contour|
    ensures arc in ShapeArcs(contour, m) <==> exists k :: 0 <= k < m && VertexArc(contour, k) == Some(arc)
  {
    if m > 0 {
      ShapeArcsMembership(contour, m - 1, arc);
      if VertexArc(contour, m - 1) == Some(arc) {
        assert arc in ShapeArcs(contour, m);
      }
    }
  }

  /** When every corner turns, the path holds exactly one arc per vertex. */
  lemma {:induction false} ShapeArcsAllCorners(contour: seq<GridPoint>, m: nat)
    requires m <= |contour|
    requires forall k :: 0 <= k < m ==> VertexArc(contour, k).Some?
    ensures |ShapeArcs(contour, m)| == m
  {
    if m > 0 {
      ShapeArcsAllCorners(contour, m - 1);
    }
  }

  /** The corner at ring position `k` rises and then turns to decreasing x. */
  predicate RisesThenLeft(contour: seq<GridPoint>, k: nat)
    requires k < |contour|
  {
    var n := |contour|;
    var point := contour[Next(k, n)];
    Approach(contour[k], point) == Some(Up) && Turn(Up, point, contour[Next(Next(k, n), n)]) == Some(Left)
  }

  /** The arc the code's own table draws at ring position `k`. */
  function VertexArcAsWritten(contour: seq<GridPoint>, k: nat): Option<Arc>
    requires k < |contour|
  {
    var n := |contour|;
    CornerArcAsWritten(contour[k], contour[Next(k, n)], contour[Next(Next(k, n), n)])
  }

  /** The path the rounding loop builds with the code's own table. */
  function ShapeArcsAsWritten(contour: seq<GridPoint>, m: nat): seq<Arc>
    requires m <= |contour|
  {
    if m == 0 then []
    else
      var arc := VertexArcAsWritten(contour, m - 1);
      ShapeArcsAsWritten(contour, m - 1) + (if arc.Some? then [arc.value] else [])
  }

  /** Two concatenations with equally long first parts are equal only part by part. */
  lemma SplitEqual(front: seq<Arc>, x: seq<Arc>, back: seq<Arc>, y: seq<Arc>)
    requires |front| == |back| && front + x == back + y
    ensures front == back && x == y
  {
    assert front == (front + x)[..|front|];
    assert back == (back + y)[..|back|];
    assert x == (front + x)[|front|..];
    assert y == (back + y)[|back|..];
  }

  /** At one corner the two tables add as many arcs, and the same ones unless the corner rises and turns left. */
  lemma CornerTailsAgree(contour: seq<GridPoint>, k: nat)
    requires k < |contour|
    ensures var a, c := VertexArcAsWritten(contour, k), VertexArc(contour, k);
      var x, y := (if a.Some? then [a.value] else []), (if c.Some? then [c.value] else []);
      |x| == |y| && (x == y <==> !RisesThenLeft(contour, k))
  {
    var n := |contour|;
    AsWrittenDiffersOnlyRisingThenLeft(contour[k], contour[Next(k, n)], contour[Next(Next(k, n), n)]);
    var a, c := VertexArcAsWritten(contour, k), VertexArc(contour, k);
    if a.Some? && c.Some? && [a.value] == [c.value] {
      assert a.value == [a.value][0] == [c.value][0] == c.value;
    }
  }

  /**
   * The code's table and the corrected one give paths of the same length,
   * and the same path exactly when no corner rises and then turns left.
   */
  lemma {:induction false} AsWrittenShapeAgrees(contour: seq<GridPoint>, m: nat)
    requires m <= |contour|
    ensures |ShapeArcsAsWritten(contour, m)| == |ShapeArcs(contour, m)|
    ensures ShapeArcsAsWritten(contour, m) == ShapeArcs(contour, m)
      <==> forall k :: 0 <= k < m ==> !RisesThenLeft(contour, k)
  {
    if m > 0 {
      var k := m - 1;
      AsWrittenShapeAgrees(contour, k);
      CornerTailsAgree(contour, k);
      var a, c := VertexArcAsWritten(contour, k), VertexArc(contour, k);
      var front, back := ShapeArcsAsWritten(contour, k), ShapeArcs(contour, k);
      var x, y := (if a.Some? then [a.value] else []), (if c.Some? then [c.value] else []);
      assert ShapeArcsAsWritten(contour, m) == front + x;
      assert ShapeArcs(contour, m) == back + y;
      if front + x == back + y {
        SplitEqual(front, x, back, y);
      }
    }
  }

  /** The outline of the one block the scene builds. */
  const BlockContour: seq<GridPoint> := [
    GridPoint(0, 0), GridPoint(0, 2), GridPoint(1, 2), GridPoint(1, 3),
    GridPoint(2, 3), GridPoint(2, 1), GridPoint(1, 1), GridPoint(1, 0)]

  /** Every one of the block's eight corners is rounded. */
  lemma BlockContourRoundsEveryCorner()
    ensures |ShapeArcs(BlockContour, |BlockContour|)| == 8
  {
    forall k | 0 <= k < |BlockContour|
      ensures VertexArc(BlockContour, k).Some?
    {
      var n := |BlockContour|;
      var prev, point, next := BlockContour[k], BlockContour[Next(k, n)], BlockContour[Next(Next(k, n), n)];
      assert Approach(prev, point).Some? && Turn(Approach(prev, point).value, point, next).Some?;
    }
    ShapeArcsAllCorners(BlockContour, |BlockContour|);
  }

  /** No corner of the block rises and then turns left, so the code's table draws the same path. */
  lemma BlockContourAsWrittenAgrees()
    ensures ShapeArcsAsWritten(BlockContour, |BlockContour|) == ShapeArcs(BlockContour, |BlockContour|)
  {
    forall k | 0 <= k < |BlockContour|
      ensures !RisesThenLeft(BlockContour, k)
    {
    }
    AsWrittenShapeAgrees(BlockContour, |BlockContour|);
  }

  // ---------------------------------------------------------------------------
  // The beveled block

  /** The bevel stage `generateBeveledShape` runs: size and height 10, ten rings, from depth 0, no flags set. */
  const BackBevel: Params := Params(BevelSize, BevelHeight, BevelQuality, 0.0, false, false)

  /**
   * The live part of `generateBeveledShape`: the inner back bevel of the
   * rounded outline's sampled points, with the sum-of-unit-vectors normal.
   * The faces go on to the foreign mesh assembly.
   */
  method GenerateBeveledShape(num: Numerics, contour: seq<Vec2>) returns (r: Result<seq<real>, BevelError>)
    ensures |contour| == 1 ==> r == Failure(SingleVertexContour)
    ensures |contour| != 1 ==> r == Success(BevelFaces(num, UnitSum, BackBevel, false, contour))
  {
    var faces: seq<real> := [];
    var bevel := GenerateBevel(num, UnitSum, contour, BackBevel, false);
    if bevel.Failure? {
      return Failure(bevel.error);
    }
    assert BackBevel.segments >= 2;
    faces := faces + bevel.value.faces;
    assert faces == bevel.value.faces;
    return Success(faces);
  }

  /**
   * The block's soup holds nine ring pairs of two triangles per outline
   * vertex, and its last ring lies at depth 10.
   */
  lemma BeveledShapeSize(num: Numerics, contour: seq<Vec2>, k: nat)
    requires k < |contour|
    ensures |BevelFaces(num, UnitSum, BackBevel, false, contour)| == 162 * |contour|
    ensures Ring(num, UnitSum, BackBevel, contour, BevelQuality - 1)[k].z == BevelHeight
  {
    BevelFacesLength(num, UnitSum, BackBevel, false, contour);
    RingDepth(num, UnitSum, BackBevel, contour, BevelQuality - 1, k);
  }
}
