/**
 * The bevel generator that both `generateBevel` functions implement: the one in
 * src/src_3d/geometryUtils.js and the one in src/src_3d/components/objects/tetris.js.
 * The two are line-for-line the same except for how they estimate the
 * 2D normal at a contour vertex, so the normal rule is a parameter here.
 *
 * The generator builds `segments` rings of displaced contour vertices at
 * evenly spaced depths, stitches each pair of consecutive rings with two
 * triangles per contour edge, and returns the last ring so that the next
 * stage can start from it.
 */
module Bevel {
  import opened Wrappers
  import opened Soup

  /**
   * The floating-point primitives the generator calls and which are left
   * abstract: `Math.sqrt` and three.js `Vector2.normalize`.
   */
  datatype Numerics = Numerics(sqrt: real -> real, normalize: Vec2 -> Vec2)

  /** All that the properties below need of `Math.sqrt`: it is exact at 0 and at 1. */
  predicate SqrtExactAtEndpoints(num: Numerics)
  {
    num.sqrt(0.0) == 0.0 && num.sqrt(1.0) == 1.0
  }

  /**
   * How the normal at a vertex is estimated. `EdgeAverage` (geometryUtils.js)
   * takes the perpendicular of the average of the incoming and outgoing edge
   * vectors; `UnitSum` (tetris.js) takes the sum of the unit vectors towards
   * the previous and the next vertex. Both normalise the result.
   */
  datatype NormalRule = EdgeAverage | UnitSum

  /**
   * The shape of a bevel: lateral size, depth, number of rings, starting
   * depth, and the profile selected by `toOut` and `invertSide`.
   */
  datatype Params = Params(
    bevelSize: real,
    bevelHeight: real,
    segments: int,
    startZ: real,
    toOut: bool,
    invertSide: bool)

  /**
   * Why no geometry comes out. With fewer than two segments the depth step
   * divides by zero; with a one-vertex contour the code reads a second
   * vertex that does not exist.
   */
  datatype BevelError = SegmentsBelowTwo | SingleVertexContour

  /** `{faces, contour}`: the flat triangle soup and the last ring, without its wrap-around copy. */
  datatype BevelOutput = BevelOutput(faces: seq<real>, contour: seq<Vec3>)

  /**
   * The normal at `cur`: the normalised perpendicular of the averaged edge
   * vectors (`EdgeAverage`), or the normalised sum of the unit vectors
   * towards both neighbours (`UnitSum`).
   */
  function VertexNormal(num: Numerics, rule: NormalRule, prev: Vec2, cur: Vec2, next: Vec2): Vec2
  {
    match rule
    case EdgeAverage =>
      var fromPrev := Vec2(cur.x - prev.x, cur.y - prev.y);
      var toNext := Vec2(next.x - cur.x, next.y - cur.y);
      var average := Vec2((fromPrev.x + toNext.x) * 0.5, (fromPrev.y + toNext.y) * 0.5);
      num.normalize(Vec2(-average.y, average.x))
    case UnitSum =>
      var toPrev := num.normalize(Vec2(prev.x - cur.x, prev.y - cur.y));
      var toNext := num.normalize(Vec2(next.x - cur.x, next.y - cur.y));
      num.normalize(Vec2(toPrev.x + toNext.x, toPrev.y + toNext.y))
  }

  /** The quarter-circle displacement factor at progress `t` (0 on the first ring, 1 on the last). */
  function Profile(num: Numerics, toOut: bool, invertSide: bool, t: real): real
  {
    if toOut then
      if invertSide then num.sqrt(1.0 - (t - 1.0) * (t - 1.0))
      else 1.0 - num.sqrt(1.0 - t * t)
    else
      if invertSide then -num.sqrt(1.0 - (t - 1.0) * (t - 1.0))
      else num.sqrt(1.0 - t * t) - 1.0
  }

  /** Progress of ring `iter`: `iter / (segments - 1)`. */
  function Progress(p: Params, iter: nat): real
    requires p.segments >= 2
  {
    iter as real / (p.segments - 1) as real
  }

  /** Depth of ring `iter`: `startZ + dz * iter` with `dz = bevelHeight / (segments - 1)`. */
  function Depth(p: Params, iter: nat): real
    requires p.segments >= 2
  {
    var dz := p.bevelHeight / (p.segments - 1) as real;
    p.startZ + dz * iter as real
  }

  /** Vertex `cur` of ring `iter`, pushed against its normal by the profile's displacement. */
  function RingVertex(num: Numerics, rule: NormalRule, p: Params, prev: Vec2, cur: Vec2, next: Vec2, iter: nat): Vec3
    requires p.segments >= 2
  {
    var normal := VertexNormal(num, rule, prev, cur, next);
    var displacement := Profile(num, p.toOut, p.invertSide, Progress(p, iter)) * p.bevelSize;
    Vec3(cur.x - normal.x * displacement, cur.y - normal.y * displacement, Depth(p, iter))
  }

  /**
   * Ring `iter`. The code walks the contour extended by its first two
   * vertices, from index 1, so ring position `k` holds contour vertex
   * `k + 1` (wrapping), with contour vertices `k` and `k + 2` as neighbours.
   */
  function Ring(num: Numerics, rule: NormalRule, p: Params, contour: seq<Vec2>, iter: nat): (r: seq<Vec3>)
    requires p.segments >= 2
    ensures |r| == |contour|
  {
    var n := |contour|;
    seq(n, k requires 0 <= k < n =>
      RingVertex(num, rule, p, contour[k], contour[Next(k, n)], contour[Next(Next(k, n), n)], iter))
  }

  /** All `segments` rings. */
  function Rings(num: Numerics, rule: NormalRule, p: Params, contour: seq<Vec2>): (r: seq<seq<Vec3>>)
    requires p.segments >= 2
    ensures |r| == p.segments
    ensures forall j :: 0 <= j < |r| ==> |r[j]| == |contour|
  {
    seq(p.segments, iter requires 0 <= iter < p.segments => Ring(num, rule, p, contour, iter))
  }

  lemma RingAt(num: Numerics, rule: NormalRule, p: Params, contour: seq<Vec2>, iter: nat, k: nat)
    requires p.segments >= 2 && k < |contour|
    ensures var n := |contour|;
      Ring(num, rule, p, contour, iter)[k]
      == RingVertex(num, rule, p, contour[k], contour[Next(k, n)], contour[Next(Next(k, n), n)], iter)
  {
  }

  /** A ring with a copy of its first vertex appended (the code's `push(vertices[iter][0])`). */
  function Closed(ring: seq<Vec3>): (r: seq<Vec3>)
  {
    if |ring| == 0 then ring else ring + [ring[0]]
  }

  /** What the two passes return is the bevel soup and the last ring, with its copied first vertex dropped. */
  lemma StitchedOutput(num: Numerics, rule: NormalRule, p: Params, invertNormals: bool, contour: seq<Vec2>,
      vertices: seq<seq<Vec3>>, faces: seq<real>, lastContour: seq<Vec3>)
    requires p.segments >= 2 && |contour| >= 1 && vertices == Rings(num, rule, p, contour)
    requires faces == Triangulate(QuadsUpTo(vertices, |vertices|), invertNormals)
    requires lastContour == Closed(vertices[|vertices| - 1])
    ensures |lastContour| >= 1
    ensures faces == BevelFaces(num, rule, p, invertNormals, contour)
    ensures lastContour[..|lastContour| - 1] == Ring(num, rule, p, contour, p.segments - 1)
  {
    var ring := vertices[|vertices| - 1];
    assert lastContour == ring + [ring[0]];
    assert lastContour[..|lastContour| - 1] == ring;
  }

  /**
   * The four corners of one edge's quad: `p11 -> p12` on ring `iter` and
   * `p21 -> p22` on ring `iter - 1`.
   */
  datatype Quad = Quad(p11: Vec3, p12: Vec3, p21: Vec3, p22: Vec3)

  /**
   * The two triangles of a quad, in the winding `invertNormals` selects. The
   * numbers the code pushes, in its push order, are `QuadNumbers`, proved equal.
   */
  function QuadTriangles(q: Quad, invertNormals: bool): (r: seq<real>)
    ensures |r| == 18
  {
    if !invertNormals then Tri(q.p12, q.p22, q.p11) + Tri(q.p22, q.p21, q.p11)
    else Tri(q.p11, q.p22, q.p12) + Tri(q.p11, q.p21, q.p22)
  }

  /** The soup of a list of quads: each quad's two triangles, in order. */
  function Triangulate(quads: seq<Quad>, invertNormals: bool): (r: seq<real>)
    ensures |r| == 18 * |quads|
  {
    if |quads| == 0 then []
    else Triangulate(quads[..|quads| - 1], invertNormals) + QuadTriangles(quads[|quads| - 1], invertNormals)
  }

  /**
   * The quads of the first `m` edges between two rings of equal size: edge
   * `k` runs from vertex `k` to the next one, the last edge wrapping round to
   * vertex `0`.
   */
  function QuadRow(upper: seq<Vec3>, lower: seq<Vec3>, m: nat): (r: seq<Quad>)
    requires m <= |upper| == |lower|
    ensures |r| == m
  {
    if m == 0 then []
    else
      var n := |upper|;
      QuadRow(upper, lower, m - 1) + [Quad(upper[m - 1], upper[Next(m - 1, n)], lower[m - 1], lower[Next(m - 1, n)])]
  }

  ghost predicate Uniform(rings: seq<seq<Vec3>>)
  {
    forall j :: 0 <= j < |rings| ==> |rings[j]| == |rings[0]|
  }

  /** The quads of a list of rows, row after row. */
  function Flatten(rows: seq<seq<Quad>>): seq<Quad>
  {
    if |rows| == 0 then [] else Flatten(rows[..|rows| - 1]) + rows[|rows| - 1]
  }

  /** The quads between ring `i - 1` and ring `i`: one per edge of the closed rings. */
  function RowQuads(rings: seq<seq<Vec3>>, i: nat): (r: seq<Quad>)
    requires 1 <= i < |rings| && Uniform(rings)
    ensures |r| == |rings[0]|
  {
    QuadRow(rings[i], rings[i - 1], |rings[i]|)
  }

  /** The rows of quads between the first `m` rings. */
  function Rows(rings: seq<seq<Vec3>>, m: nat): (r: seq<seq<Quad>>)
    requires 1 <= m <= |rings| && Uniform(rings)
    ensures |r| == m - 1
    ensures forall i :: 0 <= i < m - 1 ==> r[i] == RowQuads(rings, i + 1)
  {
    if m == 1 then [] else Rows(rings, m - 1) + [RowQuads(rings, m - 1)]
  }

  /** The quads between the first `m` rings, ring pair by ring pair. */
  function QuadsUpTo(rings: seq<seq<Vec3>>, m: nat): seq<Quad>
    requires m <= |rings| && Uniform(rings)
  {
    if m == 0 then [] else Flatten(Rows(rings, m))
  }

  /** All quads of the bevel. */
  function BevelQuads(num: Numerics, rule: NormalRule, p: Params, contour: seq<Vec2>): seq<Quad>
    requires p.segments >= 2
  {
    var rings := Rings(num, rule, p, contour);
    QuadsUpTo(rings, |rings|)
  }

  /** The whole bevel soup. */
  function BevelFaces(num: Numerics, rule: NormalRule, p: Params, invertNormals: bool, contour: seq<Vec2>): seq<real>
    requires p.segments >= 2
  {
    Triangulate(BevelQuads(num, rule, p, contour), invertNormals)
  }

  /**
   * The generator as the code runs it: first every ring, then the wrap-around
   * copies and the faces.
   */
  method GenerateBevel(num: Numerics, rule: NormalRule, contour: seq<Vec2>, p: Params, invertNormals: bool)
    returns (r: Result<BevelOutput, BevelError>)
    ensures p.segments < 2 ==> r == Failure(SegmentsBelowTwo)
    ensures p.segments >= 2 && |contour| == 1 ==> r == Failure(SingleVertexContour)
    ensures p.segments >= 2 && |contour| != 1 ==>
      r == Success(BevelOutput(BevelFaces(num, rule, p, invertNormals, contour), Ring(num, rule, p, contour, p.segments - 1)))
  {
    if p.segments < 2 {
      return Failure(SegmentsBelowTwo);
    }
    var n := |contour|;
    if n == 1 {
      return Failure(SingleVertexContour);
    }
    ghost var rings := Rings(num, rule, p, contour);
    if n == 0 {
      // Nothing to displace and no edges to stitch: both arrays come out empty.
      NoQuadsWithoutVertices(rings, |rings|);
      return Success(BevelOutput([], []));
    }
    var contourExt := contour + [contour[0], contour[1]];
    var vertices := BuildRings(num, rule, p, contour, contourExt);
    var faces, lastContour := StitchRings(vertices, invertNormals);
    StitchedOutput(num, rule, p, invertNormals, contour, vertices, faces, lastContour);
    return Success(BevelOutput(faces, lastContour[..|lastContour| - 1]));
  }

  /** The first pass: one ring of displaced vertices per segment. */
  method BuildRings(num: Numerics, rule: NormalRule, p: Params, contour: seq<Vec2>, contourExt: seq<Vec2>)
    returns (vertices: seq<seq<Vec3>>)
    requires p.segments >= 2 && |contour| >= 2
    requires contourExt == contour + [contour[0], contour[1]]
    ensures vertices == Rings(num, rule, p, contour)
  {
    ghost var rings := Rings(num, rule, p, contour);
    vertices := [];
    var iter := 0;
    while iter < p.segments
      invariant 0 <= iter <= p.segments
      invariant |vertices| == iter
      invariant forall j :: 0 <= j < iter ==> vertices[j] == rings[j]
    {
      var ring := RingVertices(num, rule, p, contour, contourExt, iter);
      vertices := vertices + [ring];
      iter := iter + 1;
    }
  }

  /**
   * The second pass: closes every ring with a copy of its first vertex and
   * joins each ring to the one before it. Also returns the closed last ring.
   */
  method StitchRings(rings: seq<seq<Vec3>>, invertNormals: bool)
    returns (faces: seq<real>, lastContour: seq<Vec3>)
    requires |rings| >= 2 && |rings[0]| >= 1 && Uniform(rings)
    ensures faces == Triangulate(QuadsUpTo(rings, |rings|), invertNormals)
    ensures lastContour == Closed(rings[|rings| - 1])
  {
    faces := [];
    var lower := rings[0] + [rings[0][0]];
    var iter := 1;
    while iter < |rings|
      invariant 1 <= iter <= |rings|
      invariant lower == Closed(rings[iter - 1])
      invariant faces == Triangulate(QuadsUpTo(rings, iter), invertNormals)
    {
      var upper := rings[iter] + [rings[iter][0]];
      var next := PushQuads(faces, upper, lower, invertNormals, rings[iter], rings[iter - 1]);
      StitchStep(rings, iter, invertNormals, faces, upper, lower, next);
      faces := next;
      lower := upper;
      iter := iter + 1;
    }
    lastContour := lower;
  }

  /** The inner loop of the first pass: ring `iter`, read off the contour extended by its first two vertices. */
  method RingVertices(num: Numerics, rule: NormalRule, p: Params, contour: seq<Vec2>, contourExt: seq<Vec2>, iter: nat)
    returns (ring: seq<Vec3>)
    requires p.segments >= 2 && |contour| >= 2
    requires contourExt == contour + [contour[0], contour[1]]
    ensures ring == Ring(num, rule, p, contour, iter)
  {
    var n := |contour|;
    ring := [];
    var i := 1;
    while i < |contourExt| - 1
      invariant 1 <= i <= |contourExt| - 1
      invariant |ring| == i - 1
      invariant forall k :: 0 <= k < i - 1 ==> ring[k] == Ring(num, rule, p, contour, iter)[k]
    {
      assert contourExt[i] == contour[Next(i - 1, n)];
      assert contourExt[i + 1] == contour[Next(Next(i - 1, n), n)];
      RingAt(num, rule, p, contour, iter, i - 1);
      ring := ring + [RingVertex(num, rule, p, contourExt[i - 1], contourExt[i], contourExt[i + 1], iter)];
      i := i + 1;
    }
  }

  /** Stitching ring `iter` to the ring before appends the soup of their row of quads. */
  lemma StitchStep(rings: seq<seq<Vec3>>, iter: nat, invertNormals: bool,
      faces: seq<real>, upper: seq<Vec3>, lower: seq<Vec3>, next: seq<real>)
    requires 1 <= iter < |rings| && |rings[0]| >= 1 && Uniform(rings)
    requires faces == Triangulate(QuadsUpTo(rings, iter), invertNormals)
    requires upper == rings[iter] + [rings[iter][0]] && lower == Closed(rings[iter - 1])
    requires next == faces + Triangulate(QuadRow(rings[iter], rings[iter - 1], |rings[iter]|), invertNormals)
    ensures next == Triangulate(QuadsUpTo(rings, iter + 1), invertNormals)
  {
    var row := RowQuads(rings, iter);
    RowsSnoc(rings, iter);
    FlattenSnoc(Rows(rings, iter), row);
    TriangulateConcat(QuadsUpTo(rings, iter), row, invertNormals);
  }

  /**
   * The inner loop of the second pass: appends, for every edge of the closed
   * ring `upper`, the two triangles joining it to the closed ring `lower`.
   * The rings before closing, `ringU` and `ringL`, are ghost.
   */
  method PushQuads(faces: seq<real>, upper: seq<Vec3>, lower: seq<Vec3>, invertNormals: bool,
      ghost ringU: seq<Vec3>, ghost ringL: seq<Vec3>)
    returns (r: seq<real>)
    requires 1 <= |ringU| == |ringL|
    requires upper == ringU + [ringU[0]] && lower == ringL + [ringL[0]]
    ensures r == faces + Triangulate(QuadRow(ringU, ringL, |ringU|), invertNormals)
  {
    r := faces;
    var i := 1;
    while i < |upper|
      invariant 1 <= i <= |upper|
      invariant r == faces + Triangulate(QuadRow(ringU, ringL, i - 1), invertNormals)
    {
      var p11, p12 := upper[i - 1], upper[i];
      var p21, p22 := lower[i - 1], lower[i];
      var quad := QuadNumbers(p11, p12, p21, p22, invertNormals);
      PushQuadStep(faces, upper, lower, ringU, ringL, invertNormals, i, r, quad);
      r := r + quad;
      i := i + 1;
    }
  }

  /** One pass of the stitching loop appends the triangles of the quad of edge `i - 1`. */
  lemma PushQuadStep(faces: seq<real>, upper: seq<Vec3>, lower: seq<Vec3>, ringU: seq<Vec3>, ringL: seq<Vec3>,
      invertNormals: bool, i: nat, r: seq<real>, quad: seq<real>)
    requires 1 <= i <= |ringU| == |ringL|
    requires upper == ringU + [ringU[0]] && lower == ringL + [ringL[0]]
    requires r == faces + Triangulate(QuadRow(ringU, ringL, i - 1), invertNormals)
    requires quad == QuadTriangles(Quad(upper[i - 1], upper[i], lower[i - 1], lower[i]), invertNormals)
    ensures r + quad == faces + Triangulate(QuadRow(ringU, ringL, i), invertNormals)
  {
    var n := |ringU|;
    var row := QuadRow(ringU, ringL, i - 1);
    var q := Quad(upper[i - 1], upper[i], lower[i - 1], lower[i]);
    assert q == Quad(ringU[i - 1], ringU[Next(i - 1, n)], ringL[i - 1], ringL[Next(i - 1, n)]);
    TriangulateSnoc(row, q, invertNormals);
    AppendAssoc(faces, Triangulate(row, invertNormals), QuadTriangles(q, invertNormals));
  }

  /**
   * The eighteen numbers the code pushes for one quad, written in the code's
   * push order; they are the quad's two triangles, `QuadTriangles`.
   */
  function QuadNumbers(p11: Vec3, p12: Vec3, p21: Vec3, p22: Vec3, invertNormals: bool): (quad: seq<real>)
    ensures quad == QuadTriangles(Quad(p11, p12, p21, p22), invertNormals)
  {
    if !invertNormals then [
      p12.x, p12.y, p12.z,
      p22.x, p22.y, p22.z,
      p11.x, p11.y, p11.z,

      p22.x, p22.y, p22.z,
      p21.x, p21.y, p21.z,
      p11.x, p11.y, p11.z
    ]
    else [
      p11.x, p11.y, p11.z,
      p22.x, p22.y, p22.z,
      p12.x, p12.y, p12.z,

      p11.x, p11.y, p11.z,
      p21.x, p21.y, p21.z,
      p22.x, p22.y, p22.z
    ]
  }

  // ---------------------------------------------------------------------------
  // Properties of the rings

  /** Every profile displaces nothing on the first ring, and by the full size on the last. */
  lemma ProfileAtEnds(num: Numerics, toOut: bool, invertSide: bool)
    requires SqrtExactAtEndpoints(num)
    ensures Profile(num, toOut, invertSide, 0.0) == 0.0
    ensures Profile(num, toOut, invertSide, 1.0) == if toOut then 1.0 else -1.0
  {
  }

  /** Ring `iter` lies at depth `startZ + bevelHeight * iter / (segments - 1)`; the last one at `startZ + bevelHeight`. */
  lemma RingDepth(num: Numerics, rule: NormalRule, p: Params, contour: seq<Vec2>, iter: nat, k: nat)
    requires p.segments >= 2 && k < |contour|
    ensures Ring(num, rule, p, contour, iter)[k].z == p.startZ + p.bevelHeight * iter as real / (p.segments - 1) as real
    ensures iter == p.segments - 1 ==> Ring(num, rule, p, contour, iter)[k].z == p.startZ + p.bevelHeight
  {
    RingAt(num, rule, p, contour, iter, k);
    ScaledStep(p.bevelHeight, iter as real, (p.segments - 1) as real);
  }

  /** Real arithmetic behind `RingDepth`: `h / d * i == h * i / d`, which is `h` at `i == d`. */
  lemma ScaledStep(h: real, i: real, d: real)
    requires d > 0.0
    ensures h / d * i == h * i / d
    ensures i == d ==> h * i / d == h
  {
  }

  /**
   * The first ring is the contour itself, rotated by one index and lifted to
   * `startZ`, whatever the profile.
   */
  lemma FirstRingIsContour(num: Numerics, rule: NormalRule, p: Params, contour: seq<Vec2>, k: nat)
    requires p.segments >= 2 && SqrtExactAtEndpoints(num) && k < |contour|
    ensures var c := contour[Next(k, |contour|)];
      Ring(num, rule, p, contour, 0)[k] == Vec3(c.x, c.y, p.startZ)
  {
    RingAt(num, rule, p, contour, 0, k);
    ProfileAtEnds(num, p.toOut, p.invertSide);
    assert Progress(p, 0) == 0.0;
  }

  /**
   * On the last ring each vertex is moved against its normal by `bevelSize`
   * when the bevel goes outwards and along it by `bevelSize` otherwise.
   */
  lemma LastRingOffset(num: Numerics, rule: NormalRule, p: Params, contour: seq<Vec2>, k: nat)
    requires p.segments >= 2 && SqrtExactAtEndpoints(num) && k < |contour|
    ensures var n := |contour|;
      var c := contour[Next(k, n)];
      var normal := VertexNormal(num, rule, contour[k], c, contour[Next(Next(k, n), n)]);
      var s := if p.toOut then p.bevelSize else -p.bevelSize;
      var v := Ring(num, rule, p, contour, p.segments - 1)[k];
      v.x == c.x - normal.x * s && v.y == c.y - normal.y * s
  {
    RingAt(num, rule, p, contour, p.segments - 1, k);
    ProfileAtEnds(num, p.toOut, p.invertSide);
    var d := (p.segments - 1) as real;
    assert Progress(p, p.segments - 1) == d / d == 1.0;
  }

  /** With `bevelSize == 0` every ring's vertices sit on the (rotated) contour, for every profile. */
  lemma ZeroSizeRingsOnContour(num: Numerics, rule: NormalRule, p: Params, contour: seq<Vec2>, iter: nat, k: nat)
    requires p.segments >= 2 && p.bevelSize == 0.0 && k < |contour|
    ensures var c := contour[Next(k, |contour|)];
      var v := Ring(num, rule, p, contour, iter)[k];
      v.x == c.x && v.y == c.y
  {
    RingAt(num, rule, p, contour, iter, k);
  }

  // ---------------------------------------------------------------------------
  // Properties of the triangulation

  /** Appending a quad appends its two triangles. */
  lemma TriangulateSnoc(quads: seq<Quad>, q: Quad, invertNormals: bool)
    ensures Triangulate(quads + [q], invertNormals) == Triangulate(quads, invertNormals) + QuadTriangles(q, invertNormals)
  {
    assert (quads + [q])[..|quads|] == quads;
  }

  /** Triangulating a concatenation concatenates the soups. */
  lemma {:induction false} TriangulateConcat(a: seq<Quad>, b: seq<Quad>, invertNormals: bool)
    ensures Triangulate(a + b, invertNormals) == Triangulate(a, invertNormals) + Triangulate(b, invertNormals)
  {
    if |b| == 0 {
      assert a + b == a;
    } else {
      var front, last := b[..|b| - 1], b[|b| - 1];
      TriangulateConcat(a, front, invertNormals);
      TriangulateConcatStep(a, front, last, b, invertNormals);
    }
  }

  lemma TriangulateConcatStep(a: seq<Quad>, front: seq<Quad>, last: Quad, b: seq<Quad>, invertNormals: bool)
    requires b == front + [last]
    requires Triangulate(a + front, invertNormals) == Triangulate(a, invertNormals) + Triangulate(front, invertNormals)
    ensures Triangulate(a + b, invertNormals) == Triangulate(a, invertNormals) + Triangulate(b, invertNormals)
  {
    assert a + b == (a + front) + [last];
    TriangulateSnoc(a + front, last, invertNormals);
    TriangulateSnoc(front, last, invertNormals);
    AppendAssoc(Triangulate(a, invertNormals), Triangulate(front, invertNormals), QuadTriangles(last, invertNormals));
  }

  /** Quad `j` of the list owns the numbers `18 * j .. 18 * j + 18` of the soup. */
  lemma {:induction false} TriangulateAt(quads: seq<Quad>, invertNormals: bool, j: nat)
    requires j < |quads|
    ensures Holds(Triangulate(quads, invertNormals), 18 * j, QuadTriangles(quads[j], invertNormals))
  {
    var front := quads[..|quads| - 1];
    HoldsConcat(Triangulate(front, invertNormals), QuadTriangles(quads[|quads| - 1], invertNormals));
    if j < |quads| - 1 {
      TriangulateAt(front, invertNormals, j);
      HoldsTrans(Triangulate(quads, invertNormals), 0, Triangulate(front, invertNormals),
        18 * j, QuadTriangles(front[j], invertNormals));
    }
  }

  lemma QuadReversed(q: Quad)
    ensures WindingReversed(QuadTriangles(q, true), QuadTriangles(q, false))
  {
    TwoTrianglesReversed(q.p12, q.p22, q.p11, q.p22, q.p21, q.p11);
  }

  /** The inverted soup of any list of quads is the plain one with every triangle's winding reversed. */
  lemma {:induction false} TriangulateReversed(quads: seq<Quad>)
    ensures WindingReversed(Triangulate(quads, true), Triangulate(quads, false))
  {
    if |quads| > 0 {
      var front, last := quads[..|quads| - 1], quads[|quads| - 1];
      TriangulateReversed(front);
      QuadReversed(last);
      WindingReversedConcat(Triangulate(front, true), Triangulate(front, false),
        QuadTriangles(last, true), QuadTriangles(last, false));
    }
  }

  // ---------------------------------------------------------------------------
  // Properties of the quads

  /** Quad `k` of a row joins vertex `k` of each ring to the next one, wrapping. */
  lemma {:induction false} QuadRowAt(upper: seq<Vec3>, lower: seq<Vec3>, m: nat, k: nat)
    requires m <= |upper| == |lower| && k < m
    ensures var n := |upper|;
      QuadRow(upper, lower, m)[k] == Quad(upper[k], upper[Next(k, n)], lower[k], lower[Next(k, n)])
  {
    if k < m - 1 {
      QuadRowAt(upper, lower, m - 1, k);
    }
  }

  lemma RowQuadsAt(rings: seq<seq<Vec3>>, i: nat, k: nat)
    requires 1 <= i < |rings| && Uniform(rings) && k < |rings[0]|
    ensures var n := |rings[0]|;
      RowQuads(rings, i)[k] == Quad(rings[i][k], rings[i][Next(k, n)], rings[i - 1][k], rings[i - 1][Next(k, n)])
  {
    QuadRowAt(rings[i], rings[i - 1], |rings[i]|, k);
  }

  lemma RowsSnoc(rings: seq<seq<Vec3>>, m: nat)
    requires 1 <= m < |rings| && Uniform(rings)
    ensures Rows(rings, m + 1) == Rows(rings, m) + [RowQuads(rings, m)]
  {
  }

  lemma FlattenSnoc(rows: seq<seq<Quad>>, row: seq<Quad>)
    ensures Flatten(rows + [row]) == Flatten(rows) + row
  {
    assert (rows + [row])[..|rows|] == rows;
  }

  /** Rows of `n` quads each flatten to `n` quads per row. */
  lemma {:induction false} FlattenLength(rows: seq<seq<Quad>>, n: nat)
    requires forall i :: 0 <= i < |rows| ==> |rows[i]| == n
    ensures |Flatten(rows)| == n * |rows|
  {
    if |rows| > 0 {
      FlattenLength(rows[..|rows| - 1], n);
      assert n * |rows| == n * (|rows| - 1) + n;
    }
  }

  /** Quad `k` of row `i` sits at `n * i + k` once rows of `n` quads are flattened. */
  lemma {:induction false} FlattenAt(rows: seq<seq<Quad>>, n: nat, i: nat, k: nat)
    requires forall j :: 0 <= j < |rows| ==> |rows[j]| == n
    requires i < |rows| && k < n
    ensures n * i + k < |Flatten(rows)| && Flatten(rows)[n * i + k] == rows[i][k]
  {
    var front := rows[..|rows| - 1];
    FlattenLength(front, n);
    FlattenLength(rows, n);
    if i < |rows| - 1 {
      FlattenAt(front, n, i, k);
      MulMono(n, i + 1, |rows| - 1);
      assert n * (i + 1) == n * i + n;
    } else {
      assert n * i == n * |front|;
    }
  }

  lemma MulMono(n: nat, a: nat, b: nat)
    requires a <= b
    ensures n * a <= n * b
  {
  }

  /** The first `m` rings give `n * (m - 1)` quads: one per edge per ring pair. */
  lemma QuadsUpToLength(rings: seq<seq<Vec3>>, m: nat)
    requires 1 <= m <= |rings| && Uniform(rings)
    ensures |QuadsUpTo(rings, m)| == |rings[0]| * (m - 1)
  {
    FlattenLength(Rows(rings, m), |rings[0]|);
  }

  lemma NoQuadsWithoutVertices(rings: seq<seq<Vec3>>, m: nat)
    requires 1 <= m <= |rings| && Uniform(rings) && |rings[0]| == 0
    ensures QuadsUpTo(rings, m) == []
  {
    QuadsUpToLength(rings, m);
  }

  /** Where the quad of edge `k` between rings `iter - 1` and `iter` sits among the quads of `n`-vertex rings. */
  function QuadIndex(n: nat, iter: nat, k: nat): nat
    requires iter >= 1
  {
    n * (iter - 1) + k
  }

  /** Quad `k` of the ring pair `iter - 1`, `iter` sits at `QuadIndex(n, iter, k)` among the quads of the first `m` rings. */
  lemma QuadsUpToAt(rings: seq<seq<Vec3>>, m: nat, iter: nat, k: nat)
    requires m <= |rings| && Uniform(rings) && 1 <= iter < m && k < |rings[0]|
    ensures var n := |rings[0]|;
      QuadIndex(n, iter, k) < |QuadsUpTo(rings, m)|
      && QuadsUpTo(rings, m)[QuadIndex(n, iter, k)]
         == Quad(rings[iter][k], rings[iter][Next(k, n)], rings[iter - 1][k], rings[iter - 1][Next(k, n)])
  {
    FlattenAt(Rows(rings, m), |rings[0]|, iter - 1, k);
    RowQuadsAt(rings, iter, k);
  }

  /** The bevel has `n * (segments - 1)` quads and its soup `18` numbers per quad. */
  lemma BevelFacesLength(num: Numerics, rule: NormalRule, p: Params, invertNormals: bool, contour: seq<Vec2>)
    requires p.segments >= 2
    ensures |BevelQuads(num, rule, p, contour)| == |contour| * (p.segments - 1)
    ensures |BevelFaces(num, rule, p, invertNormals, contour)| == 18 * (|contour| * (p.segments - 1))
  {
    QuadsUpToLength(Rings(num, rule, p, contour), p.segments);
  }

  /**
   * The quad of edge `k -> k + 1` (wrapping from the last vertex to the
   * first) between rings `iter - 1` and `iter` is quad `n * (iter - 1) + k`
   * of the bevel and uses only vertices of those two rings.
   */
  lemma BevelQuadAt(num: Numerics, rule: NormalRule, p: Params, contour: seq<Vec2>, iter: nat, k: nat)
    requires p.segments >= 2 && 1 <= iter < p.segments && k < |contour|
    ensures var n := |contour|;
      var quads := BevelQuads(num, rule, p, contour);
      var upper := Ring(num, rule, p, contour, iter);
      var lower := Ring(num, rule, p, contour, iter - 1);
      QuadIndex(n, iter, k) < |quads|
      && quads[QuadIndex(n, iter, k)] == Quad(upper[k], upper[Next(k, n)], lower[k], lower[Next(k, n)])
  {
    var rings := Rings(num, rule, p, contour);
    assert rings[iter] == Ring(num, rule, p, contour, iter);
    assert rings[iter - 1] == Ring(num, rule, p, contour, iter - 1);
    QuadsUpToAt(rings, p.segments, iter, k);
  }

  /** In the soup, that quad's two triangles start at `18 * (n * (iter - 1) + k)`. */
  lemma BevelFacesAt(num: Numerics, rule: NormalRule, p: Params, invertNormals: bool, contour: seq<Vec2>, iter: nat, k: nat)
    requires p.segments >= 2 && 1 <= iter < p.segments && k < |contour|
    ensures var n := |contour|;
      var upper := Ring(num, rule, p, contour, iter);
      var lower := Ring(num, rule, p, contour, iter - 1);
      Holds(BevelFaces(num, rule, p, invertNormals, contour), 18 * QuadIndex(n, iter, k),
        QuadTriangles(Quad(upper[k], upper[Next(k, n)], lower[k], lower[Next(k, n)]), invertNormals))
  {
    BevelQuadAt(num, rule, p, contour, iter, k);
    TriangulateAt(BevelQuads(num, rule, p, contour), invertNormals, QuadIndex(|contour|, iter, k));
  }

  /** With `invertNormals` every bevel triangle is the plain one with its vertex order reversed. */
  lemma BevelWindingReversed(num: Numerics, rule: NormalRule, p: Params, contour: seq<Vec2>)
    requires p.segments >= 2
    ensures WindingReversed(BevelFaces(num, rule, p, true, contour), BevelFaces(num, rule, p, false, contour))
  {
    TriangulateReversed(BevelQuads(num, rule, p, contour));
  }
}
