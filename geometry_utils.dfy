/**
 * The stages of src/src_3d/geometryUtils.js besides the bevel generator
 * (which lives in module `Bevel`): the side-wall extruder, the unpacking of
 * a triangulated cap into a flat soup, and the bounding-box UV projection.
 * The side-wall extruder and the cap unpacking of
 * src/src_3d/components/objects/tetris.js are the same code and are modelled
 * here once.
 */
module GeometryUtils {
  import opened Wrappers
  import opened Soup

  // ---------------------------------------------------------------------------
  // Side walls

  /** Contour point `v` at depth `z`. */
  function Lift(v: Vec2, z: real): (r: Vec3)
    ensures r.x == v.x && r.y == v.y && r.z == z
  {
    Vec3(v.x, v.y, z)
  }

  /**
   * The two triangles of the wall over edge `a -> b`, from depth `z1` to
   * depth `z2`. The quad is split along the diagonal from `a` at `z1` to `b`
   * at `z2`. The numbers the code pushes, in its push order, are
   * `WallNumbers`, proved equal.
   */
  function WallQuad(a: Vec2, b: Vec2, z1: real, z2: real, invertNormals: bool): (r: seq<real>)
    ensures |r| == 18
  {
    var a1, b1, b2, a2 := Lift(a, z1), Lift(b, z1), Lift(b, z2), Lift(a, z2);
    if !invertNormals then Tri(a1, b1, b2) + Tri(a1, b2, a2)
    else Tri(b2, b1, a1) + Tri(a2, b2, a1)
  }

  /** The eighteen numbers the extruder pushes for one edge, written in the code's push order; they are `WallQuad`'s. */
  function WallNumbers(a: Vec2, b: Vec2, z1: real, z2: real, invertNormals: bool): (r: seq<real>)
    ensures r == WallQuad(a, b, z1, z2, invertNormals)
  {
    if !invertNormals then [
      a.x, a.y, z1,
      b.x, b.y, z1,
      b.x, b.y, z2,

      a.x, a.y, z1,
      b.x, b.y, z2,
      a.x, a.y, z2
    ]
    else [
      b.x, b.y, z2,
      b.x, b.y, z1,
      a.x, a.y, z1,

      a.x, a.y, z2,
      b.x, b.y, z2,
      a.x, a.y, z1
    ]
  }

  /** The wall over edge `k`, from vertex `k` to the next one (the last edge wraps to vertex 0). */
  function EdgeWall(contour: seq<Vec2>, k: nat, z1: real, z2: real, invertNormals: bool): (r: seq<real>)
    requires k < |contour|
    ensures |r| == 18
  {
    WallQuad(contour[k], contour[Next(k, |contour|)], z1, z2, invertNormals)
  }

  /** The walls over the first `m` edges of the closed contour (edge `k` runs from vertex `k` to the next one, wrapping). */
  function Walls(contour: seq<Vec2>, m: nat, z1: real, z2: real, invertNormals: bool): seq<real>
    requires m <= |contour|
  {
    if m == 0 then []
    else Walls(contour, m - 1, z1, z2, invertNormals) + EdgeWall(contour, m - 1, z1, z2, invertNormals)
  }

  /**
   * `generateExtrudedFaces`: a wall from `startZ` to `startZ + extrudeHeight`
   * over every edge of the closed contour.
   */
  method GenerateExtrudedFaces(contour: seq<Vec2>, extrudeHeight: real, startZ: real, invertNormals: bool)
    returns (faces: seq<real>)
    ensures faces == Walls(contour, |contour|, startZ, startZ + extrudeHeight, invertNormals)
  {
    faces := [];
    if |contour| == 0 {
      // The code's extended array then holds only `undefined`, and the loop
      // body never runs.
      return;
    }
    var contourExt := contour + [contour[0]];
    var i := 1;
    while i < |contourExt|
      invariant 1 <= i <= |contourExt|
      invariant faces == Walls(contour, i - 1, startZ, startZ + extrudeHeight, invertNormals)
    {
      var z1 := startZ;
      var z2 := startZ + extrudeHeight;
      WallsStep(contour, contourExt, i, z1, z2, invertNormals);
      faces := faces + WallNumbers(contourExt[i - 1], contourExt[i], z1, z2, invertNormals);
      i := i + 1;
    }
  }

  /** One pass of the extruder's loop appends the wall of edge `i - 1`. */
  lemma WallsStep(contour: seq<Vec2>, contourExt: seq<Vec2>, i: nat, z1: real, z2: real, invertNormals: bool)
    requires |contour| > 0 && contourExt == contour + [contour[0]] && 1 <= i < |contourExt|
    ensures Walls(contour, i, z1, z2, invertNormals)
      == Walls(contour, i - 1, z1, z2, invertNormals) + WallNumbers(contourExt[i - 1], contourExt[i], z1, z2, invertNormals)
  {
    assert contourExt[i - 1] == contour[i - 1];
    assert contourExt[i] == contour[Next(i - 1, |contour|)];
  }

  lemma {:induction false} WallsLength(contour: seq<Vec2>, m: nat, z1: real, z2: real, invertNormals: bool)
    requires m <= |contour|
    ensures |Walls(contour, m, z1, z2, invertNormals)| == 18 * m
  {
    if m > 0 {
      WallsLength(contour, m - 1, z1, z2, invertNormals);
    }
  }

  lemma {:induction false} WallsAt(contour: seq<Vec2>, m: nat, z1: real, z2: real, invertNormals: bool, k: nat)
    requires k < m <= |contour|
    ensures |Walls(contour, m, z1, z2, invertNormals)| == 18 * m
    ensures Walls(contour, m, z1, z2, invertNormals)[18 * k .. 18 * k + 18] == EdgeWall(contour, k, z1, z2, invertNormals)
  {
    WallsLength(contour, m, z1, z2, invertNormals);
    var prefix := Walls(contour, m - 1, z1, z2, invertNormals);
    WallsLength(contour, m - 1, z1, z2, invertNormals);
    var last := EdgeWall(contour, m - 1, z1, z2, invertNormals);
    if k < m - 1 {
      WallsAt(contour, m - 1, z1, z2, invertNormals, k);
      SliceInPrefix(prefix, last, Walls(contour, m, z1, z2, invertNormals), 18 * k, 18 * k + 18);
    } else {
      SliceOfLast(prefix, last, Walls(contour, m, z1, z2, invertNormals));
    }
  }

  /**
   * The extruder emits `18 * n` numbers, and the wall of edge `k` (from the
   * last vertex back to the first for `k == n - 1`) is the quad at offset `18 * k`.
   */
  lemma ExtrudedWallAt(contour: seq<Vec2>, extrudeHeight: real, startZ: real, invertNormals: bool, k: nat)
    requires k < |contour|
    ensures var faces := Walls(contour, |contour|, startZ, startZ + extrudeHeight, invertNormals);
      |faces| == 18 * |contour|
      && faces[18 * k .. 18 * k + 18]
         == WallQuad(contour[k], contour[Next(k, |contour|)], startZ, startZ + extrudeHeight, invertNormals)
  {
    WallsAt(contour, |contour|, startZ, startZ + extrudeHeight, invertNormals, k);
  }

  /** The six vertices of a wall quad are edge endpoints at one of the two depths. */
  lemma WallQuadVertex(a: Vec2, b: Vec2, z1: real, z2: real, invertNormals: bool, j: nat)
    requires j < 6
    ensures VertexAt(WallQuad(a, b, z1, z2, invertNormals), j) in {Lift(a, z1), Lift(a, z2), Lift(b, z1), Lift(b, z2)}
  {
  }

  /**
   * Vertex `v` of the extruded soup belongs to edge `v / 6`: its (x, y) is
   * one end of that edge and its z is `startZ` or `startZ + extrudeHeight`.
   */
  lemma ExtrudedVertex(contour: seq<Vec2>, extrudeHeight: real, startZ: real, invertNormals: bool, v: nat)
    requires 6 * |contour| > v
    ensures var faces := Walls(contour, |contour|, startZ, startZ + extrudeHeight, invertNormals);
      var k := v / 6;
      var a, b := contour[k], contour[Next(k, |contour|)];
      var z1, z2 := startZ, startZ + extrudeHeight;
      3 * v + 3 <= |faces|
      && VertexAt(faces, v) in {Lift(a, z1), Lift(a, z2), Lift(b, z1), Lift(b, z2)}
  {
    var k := v / 6;
    var j := v % 6;
    var z1, z2 := startZ, startZ + extrudeHeight;
    var faces := Walls(contour, |contour|, z1, z2, invertNormals);
    ExtrudedWallAt(contour, extrudeHeight, startZ, invertNormals, k);
    assert 3 * v == 18 * k + 3 * j;
    VertexAtSlice(faces, 6 * k, 18, j);
    WallQuadVertex(contour[k], contour[Next(k, |contour|)], z1, z2, invertNormals, j);
  }

  lemma WallQuadReversed(a: Vec2, b: Vec2, z1: real, z2: real)
    ensures WindingReversed(WallQuad(a, b, z1, z2, true), WallQuad(a, b, z1, z2, false))
  {
    TwoTrianglesReversed(Lift(a, z1), Lift(b, z1), Lift(b, z2), Lift(a, z1), Lift(b, z2), Lift(a, z2));
  }

  /** With `invertNormals` every wall triangle is the plain one with its vertex order reversed. */
  lemma {:induction false} WallsWindingReversed(contour: seq<Vec2>, m: nat, z1: real, z2: real)
    requires m <= |contour|
    ensures WindingReversed(Walls(contour, m, z1, z2, true), Walls(contour, m, z1, z2, false))
  {
    if m > 0 {
      WallsWindingReversed(contour, m - 1, z1, z2);
      var a, b := contour[m - 1], contour[Next(m - 1, |contour|)];
      WallQuadReversed(a, b, z1, z2);
      WindingReversedConcat(
        Walls(contour, m - 1, z1, z2, true), Walls(contour, m - 1, z1, z2, false),
        WallQuad(a, b, z1, z2, true), WallQuad(a, b, z1, z2, false));
    }
  }

  /**
   * Extruding up by `h` from `z0` and extruding down by `h` from `z0 + h`
   * give neither the same soup nor one with every triangle reversed: the
   * quads are split along the other diagonal. Any edge that is not vertical
   * in x shows it.
   */
  lemma FlippedExtrusionDiffers(a: Vec2, b: Vec2, z0: real, h: real)
    requires h != 0.0 && a.x != b.x
    ensures var up := Walls([a, b], 2, z0, z0 + h, false);
      var down := Walls([a, b], 2, z0 + h, z0, false);
      up != down && !WindingReversed(down, up)
  {
    var c := [a, b];
    WallsAt(c, 2, z0, z0 + h, false, 0);
    WallsAt(c, 2, z0 + h, z0, false, 0);
    FirstWallsDiffer(Walls(c, 2, z0, z0 + h, false), Walls(c, 2, z0 + h, z0, false), a, b, z0, h);
  }

  /** Two soups opening with the walls of `a -> b` extruded up and down differ, also up to winding. */
  lemma FirstWallsDiffer(up: seq<real>, down: seq<real>, a: Vec2, b: Vec2, z0: real, h: real)
    requires h != 0.0 && a.x != b.x && |up| >= 18 && |down| >= 18
    requires up[0 .. 18] == WallQuad(a, b, z0, z0 + h, false)
    requires down[0 .. 18] == WallQuad(a, b, z0 + h, z0, false)
    ensures up != down && !WindingReversed(down, up)
  {
    var upQuad := WallNumbers(a, b, z0, z0 + h, false);
    var downQuad := WallNumbers(a, b, z0 + h, z0, false);
    assert up[2] == up[0 .. 18][2] == upQuad[2] == z0;
    assert down[2] == down[0 .. 18][2] == downQuad[2] == z0 + h;
    assert TriangleAt(down, 0)[0] == down[0 .. 18][0] == downQuad[0] == a.x;
    assert TriangleAt(up, 0)[6] == up[0 .. 18][6] == upQuad[6] == b.x;
    assert ReverseTriangle(TriangleAt(up, 0))[0] == b.x;
  }

  // ---------------------------------------------------------------------------
  // Caps

  /**
   * The triangulation `fillContourGetFaces` receives from the foreign
   * `ShapeGeometry`: a flat position array (three numbers per vertex) and an
   * index array (three indices per triangle), every index naming a vertex
   * whose x and y exist.
   */
  predicate ValidTriangulation(vertices: seq<real>, indices: seq<nat>)
  {
    |indices| % 3 == 0 && IndicesInRange(vertices, indices)
  }

  /** Every index names a vertex whose x and y exist. */
  predicate IndicesInRange(vertices: seq<real>, indices: seq<nat>)
  {
    forall i :: 0 <= i < |indices| ==> 3 * indices[i] + 1 < |vertices|
  }

  /** Triangulation vertex `idx` moved to depth `z`. */
  function CapVertex(vertices: seq<real>, idx: nat, z: real): Vec3
    requires 3 * idx + 1 < |vertices|
  {
    Vec3(vertices[3 * idx], vertices[3 * idx + 1], z)
  }

  /**
   * Triangle `t` of the triangulation at depth `z`, with its vertex order
   * reversed under `invertNormals`. The numbers the code pushes, in its push
   * order, are `CapNumbers`, proved equal.
   */
  function CapTriangle(vertices: seq<real>, indices: seq<nat>, t: nat, z: real, invertNormals: bool): (r: seq<real>)
    requires IndicesInRange(vertices, indices) && 3 * t + 3 <= |indices|
    ensures |r| == 9
  {
    var v1 := CapVertex(vertices, indices[3 * t], z);
    var v2 := CapVertex(vertices, indices[3 * t + 1], z);
    var v3 := CapVertex(vertices, indices[3 * t + 2], z);
    if !invertNormals then Tri(v1, v2, v3) else Tri(v3, v2, v1)
  }

  /** The first `m` triangles of the cap. */
  function CapFaces(vertices: seq<real>, indices: seq<nat>, m: nat, z: real, invertNormals: bool): seq<real>
    requires IndicesInRange(vertices, indices) && 3 * m <= |indices|
  {
    if m == 0 then []
    else CapFaces(vertices, indices, m - 1, z, invertNormals) + CapTriangle(vertices, indices, m - 1, z, invertNormals)
  }

  /**
   * `fillContourGetFaces` past the triangulation: every indexed triangle,
   * flattened at depth `startZ`.
   */
  method FillContourGetFaces(vertices: seq<real>, indices: seq<nat>, startZ: real, invertNormals: bool)
    returns (faces: seq<real>)
    requires ValidTriangulation(vertices, indices)
    ensures faces == CapFaces(vertices, indices, |indices| / 3, startZ, invertNormals)
  {
    faces := [];
    var i := 0;
    while i < |indices|
      invariant i % 3 == 0 && i <= |indices|
      invariant faces == CapFaces(vertices, indices, i / 3, startZ, invertNormals)
    {
      var next := faces + CapNumbers(vertices, indices, i, startZ, invertNormals);
      CapFacesStep(vertices, indices, i / 3, startZ, invertNormals, faces, next);
      assert i / 3 + 1 == (i + 3) / 3;
      faces := next;
      i := i + 3;
    }
  }

  /**
   * The nine numbers the unpacking loop pushes for the triangle whose indices
   * start at `i`, written in the code's push order; they are `CapTriangle`'s.
   */
  function CapNumbers(vertices: seq<real>, indices: seq<nat>, i: nat, z: real, invertNormals: bool): (r: seq<real>)
    requires IndicesInRange(vertices, indices) && i % 3 == 0 && i + 3 <= |indices|
    ensures r == CapTriangle(vertices, indices, i / 3, z, invertNormals)
  {
    var idx1, idx2, idx3 := indices[i], indices[i + 1], indices[i + 2];
    assert 3 * (i / 3) == i;
    TriNumbers(CapVertex(vertices, idx1, z), CapVertex(vertices, idx2, z), CapVertex(vertices, idx3, z));
    TriNumbers(CapVertex(vertices, idx3, z), CapVertex(vertices, idx2, z), CapVertex(vertices, idx1, z));
    if !invertNormals then [
      vertices[idx1 * 3], vertices[idx1 * 3 + 1], z,
      vertices[idx2 * 3], vertices[idx2 * 3 + 1], z,
      vertices[idx3 * 3], vertices[idx3 * 3 + 1], z
    ]
    else [
      vertices[idx3 * 3], vertices[idx3 * 3 + 1], z,
      vertices[idx2 * 3], vertices[idx2 * 3 + 1], z,
      vertices[idx1 * 3], vertices[idx1 * 3 + 1], z
    ]
  }

  /** One pass of the unpacking loop appends the numbers of triangle `t`. */
  lemma CapFacesStep(vertices: seq<real>, indices: seq<nat>, t: nat, z: real, invertNormals: bool,
      faces: seq<real>, next: seq<real>)
    requires IndicesInRange(vertices, indices) && 3 * t + 3 <= |indices|
    requires faces == CapFaces(vertices, indices, t, z, invertNormals)
    requires next == faces + CapTriangle(vertices, indices, t, z, invertNormals)
    ensures next == CapFaces(vertices, indices, t + 1, z, invertNormals)
  {
  }

  lemma {:induction false} CapFacesLength(vertices: seq<real>, indices: seq<nat>, m: nat, z: real, invertNormals: bool)
    requires IndicesInRange(vertices, indices) && 3 * m <= |indices|
    ensures |CapFaces(vertices, indices, m, z, invertNormals)| == 9 * m
  {
    if m > 0 {
      CapFacesLength(vertices, indices, m - 1, z, invertNormals);
    }
  }

  /** The triangles of the first `m - 1` stay in place when triangle `m - 1` is appended. */
  lemma CapPrefixTriangle(vertices: seq<real>, indices: seq<nat>, m: nat, z: real, invertNormals: bool, t: nat)
    requires IndicesInRange(vertices, indices) && 3 * m <= |indices| && t + 1 < m
    requires |CapFaces(vertices, indices, m - 1, z, invertNormals)| == 9 * (m - 1)
    ensures |CapFaces(vertices, indices, m, z, invertNormals)| == 9 * m
    ensures TriangleAt(CapFaces(vertices, indices, m, z, invertNormals), t)
      == TriangleAt(CapFaces(vertices, indices, m - 1, z, invertNormals), t)
  {
    TriangleAtPrefix(CapFaces(vertices, indices, m - 1, z, invertNormals), CapTriangle(vertices, indices, m - 1, z, invertNormals),
      CapFaces(vertices, indices, m, z, invertNormals), m - 1, t);
  }

  /** The last of the first `m` cap triangles is triangulation triangle `m - 1`. */
  lemma CapLastTriangle(vertices: seq<real>, indices: seq<nat>, m: nat, z: real, invertNormals: bool)
    requires IndicesInRange(vertices, indices) && 3 * m <= |indices| && 1 <= m
    ensures |CapFaces(vertices, indices, m, z, invertNormals)| == 9 * m
    ensures TriangleAt(CapFaces(vertices, indices, m, z, invertNormals), m - 1) == CapTriangle(vertices, indices, m - 1, z, invertNormals)
  {
    CapFacesLength(vertices, indices, m - 1, z, invertNormals);
    TriangleAtLast(CapFaces(vertices, indices, m - 1, z, invertNormals), CapTriangle(vertices, indices, m - 1, z, invertNormals),
      CapFaces(vertices, indices, m, z, invertNormals), m - 1);
  }

  /** Triangle `t` of the cap soup is triangulation triangle `t`, at the cap's depth. */
  lemma CapTriangleAt(vertices: seq<real>, indices: seq<nat>, m: nat, z: real, invertNormals: bool, t: nat)
    requires IndicesInRange(vertices, indices) && 3 * m <= |indices| && t < m
    ensures |CapFaces(vertices, indices, m, z, invertNormals)| == 9 * m
    ensures TriangleAt(CapFaces(vertices, indices, m, z, invertNormals), t) == CapTriangle(vertices, indices, t, z, invertNormals)
  {
    if t + 1 < m {
      CapFacesLength(vertices, indices, m - 1, z, invertNormals);
      CapPrefixTriangle(vertices, indices, m, z, invertNormals, t);
      CapTriangleAt(vertices, indices, m - 1, z, invertNormals, t);
    } else {
      CapLastTriangle(vertices, indices, m, z, invertNormals);
    }
  }

  /**
   * The cap soup holds three numbers per index, every vertex of it lies at
   * `startZ`, and its (x, y) is that of the indexed triangulation vertex.
   */
  lemma CapVertexAt(vertices: seq<real>, indices: seq<nat>, startZ: real, v: nat)
    requires ValidTriangulation(vertices, indices) && v < |indices|
    ensures var faces := CapFaces(vertices, indices, |indices| / 3, startZ, false);
      |faces| == 3 * |indices|
      && VertexAt(faces, v) == CapVertex(vertices, indices[v], startZ)
  {
    var t, j := v / 3, v % 3;
    var faces := CapFaces(vertices, indices, |indices| / 3, startZ, false);
    CapTriangleAt(vertices, indices, |indices| / 3, startZ, false, t);
    assert 3 * v == 9 * t + 3 * j;
    VertexAtSlice(faces, 3 * t, 9, j);
    var v1 := CapVertex(vertices, indices[3 * t], startZ);
    var v2 := CapVertex(vertices, indices[3 * t + 1], startZ);
    var v3 := CapVertex(vertices, indices[3 * t + 2], startZ);
    TriVertex(v1, v2, v3, j);
  }

  /** With `invertNormals` every cap triangle is the plain one with its vertex order reversed. */
  lemma {:induction false} CapWindingReversed(vertices: seq<real>, indices: seq<nat>, m: nat, z: real)
    requires IndicesInRange(vertices, indices) && 3 * m <= |indices|
    ensures WindingReversed(CapFaces(vertices, indices, m, z, true), CapFaces(vertices, indices, m, z, false))
  {
    if m > 0 {
      CapWindingReversed(vertices, indices, m - 1, z);
      var v1 := CapVertex(vertices, indices[3 * (m - 1)], z);
      var v2 := CapVertex(vertices, indices[3 * (m - 1) + 1], z);
      var v3 := CapVertex(vertices, indices[3 * (m - 1) + 2], z);
      ReverseTri(v1, v2, v3);
      var inv, plain := CapTriangle(vertices, indices, m - 1, z, true), CapTriangle(vertices, indices, m - 1, z, false);
      assert TriangleAt(inv, 0) == inv && TriangleAt(plain, 0) == plain;
      WindingReversedConcat(
        CapFaces(vertices, indices, m - 1, z, true), CapFaces(vertices, indices, m - 1, z, false), inv, plain);
    }
  }

  // ---------------------------------------------------------------------------
  // UV projection

  /** Coordinate `axis` (0 for x, 1 for y, 2 for z) of vertex `i` of a position array. */
  function Coord(positions: seq<real>, i: nat, axis: nat): real
    requires axis < 3 && 3 * i + 3 <= |positions|
  {
    positions[3 * i + axis]
  }

  /** The least coordinate `axis` among the first `count` vertices. */
  function AxisMin(positions: seq<real>, axis: nat, count: nat): (r: real)
    requires axis < 3 && 1 <= count && 3 * count <= |positions|
    ensures forall i :: 0 <= i < count ==> r <= Coord(positions, i, axis)
    ensures exists i :: 0 <= i < count && r == Coord(positions, i, axis)
  {
    if count == 1 then Coord(positions, 0, axis)
    else
      var rest := AxisMin(positions, axis, count - 1);
      var c := Coord(positions, count - 1, axis);
      if c < rest then c else rest
  }

  /** The greatest coordinate `axis` among the first `count` vertices. */
  function AxisMax(positions: seq<real>, axis: nat, count: nat): (r: real)
    requires axis < 3 && 1 <= count && 3 * count <= |positions|
    ensures forall i :: 0 <= i < count ==> Coord(positions, i, axis) <= r
    ensures exists i :: 0 <= i < count && r == Coord(positions, i, axis)
  {
    if count == 1 then Coord(positions, 0, axis)
    else
      var rest := AxisMax(positions, axis, count - 1);
      var c := Coord(positions, count - 1, axis);
      if c > rest then c else rest
  }

  /** An axis-aligned box, `{min, max}`. */
  datatype Box = Box(min: Vec3, max: Vec3)

  /**
   * What `BufferGeometry.computeBoundingBox` stores for a position array:
   * `None` stands for the empty box three.js gives a geometry without
   * vertices.
   */
  function BoundingBox(positions: seq<real>): (r: Option<Box>)
    requires |positions| % 3 == 0
    ensures r.None? <==> |positions| == 0
  {
    var n := |positions| / 3;
    if n == 0 then None
    else Some(Box(
      Vec3(AxisMin(positions, 0, n), AxisMin(positions, 1, n), AxisMin(positions, 2, n)),
      Vec3(AxisMax(positions, 0, n), AxisMax(positions, 1, n), AxisMax(positions, 2, n))))
  }

  /** A box whose x and y ranges are both non-zero, so that the UV formula divides by them. */
  predicate OpenInXY(box: Box)
  {
    box.max.x != box.min.x && box.max.y != box.min.y
  }

  /** The UVs of the first `m` vertices: `u = min.x + x / range.x`, `v = min.y + y / range.y`. */
  function UVs(positions: seq<real>, box: Box, m: nat): seq<real>
    requires 3 * m <= |positions| && OpenInXY(box)
  {
    if m == 0 then []
    else UVs(positions, box, m - 1) + [
      box.min.x + Coord(positions, m - 1, 0) / (box.max.x - box.min.x),
      box.min.y + Coord(positions, m - 1, 1) / (box.max.y - box.min.y)]
  }

  /** The returned texture repeat: both ranges divided by the smaller one. */
  function Aspect(box: Box): (real, real)
    requires OpenInXY(box)
  {
    var rangeX, rangeY := box.max.x - box.min.x, box.max.y - box.min.y;
    var minRange := if rangeX <= rangeY then rangeX else rangeY;
    (rangeX / minRange, rangeY / minRange)
  }

  /**
   * Why no aspect pair comes out: the code divides by the ranges, giving
   * NaN for a geometry without vertices and NaN or Infinity for a flat box.
   */
  datatype UvError = EmptyGeometry | FlatBox

  /** The part of a three.js `BufferGeometry` that `computeUVs` reads and writes. */
  class Geometry {
    var position: seq<real>
    var boundingBox: Option<Box>
    var uv: seq<real>
    var uvsNeedsUpdate: bool

    /** A position attribute holds three numbers per vertex. */
    ghost predicate Valid()
      reads this
    {
      |position| % 3 == 0
    }

    constructor(position: seq<real>)
      requires |position| % 3 == 0
      ensures Valid()
      ensures this.position == position && boundingBox == None && uv == [] && !uvsNeedsUpdate
    {
      this.position := position;
      boundingBox := None;
      uv := [];
      uvsNeedsUpdate := false;
    }

    /**
     * `computeUVs`: stores the bounding box, writes one (u, v) pair per
     * vertex and returns the aspect pair.
     */
    method ComputeUVs() returns (aspect: Result<(real, real), UvError>)
      requires Valid()
      modifies this
      ensures Valid() && position == old(position) && boundingBox == BoundingBox(position) && uvsNeedsUpdate
      ensures boundingBox.None? ==> uv == [] && aspect == Failure(EmptyGeometry)
      ensures boundingBox.Some? && !OpenInXY(boundingBox.value) ==> uv == old(uv) && aspect == Failure(FlatBox)
      ensures boundingBox.Some? && OpenInXY(boundingBox.value) ==>
        uv == UVs(position, boundingBox.value, |position| / 3) && aspect == Success(Aspect(boundingBox.value))
    {
      var faceVertices := position;
      var bbox := BoundingBox(faceVertices);
      boundingBox := bbox;
      if bbox.None? {
        uv := [];
        uvsNeedsUpdate := true;
        return Failure(EmptyGeometry);
      }
      var min, max := bbox.value.min, bbox.value.max;
      if !OpenInXY(bbox.value) {
        uvsNeedsUpdate := true;
        return Failure(FlatBox);
      }
      var range := Vec3(max.x - min.x, max.y - min.y, max.z - min.z);
      var uvs := ProjectUVs(faceVertices, bbox.value);
      uv := uvs;
      uvsNeedsUpdate := true;
      var minRange := if range.x <= range.y then range.x else range.y;
      return Success((range.x / minRange, range.y / minRange));
    }
  }

  /** The loop of `computeUVs`: one (u, v) pair per vertex, in vertex order. */
  method ProjectUVs(faceVertices: seq<real>, box: Box) returns (uvs: seq<real>)
    requires |faceVertices| % 3 == 0 && OpenInXY(box)
    ensures uvs == UVs(faceVertices, box, |faceVertices| / 3)
  {
    var min, max := box.min, box.max;
    var range := Vec3(max.x - min.x, max.y - min.y, max.z - min.z);
    uvs := [];
    var i := 0;
    while i < |faceVertices|
      invariant i % 3 == 0 && i <= |faceVertices|
      invariant uvs == UVs(faceVertices, box, i / 3)
    {
      var u := min.x + faceVertices[i + 0] / range.x;
      var v := min.y + faceVertices[i + 1] / range.y;
      UVsStep(faceVertices, box, i, uvs, u, v);
      uvs := uvs + [u, v];
      i := i + 3;
    }
  }

  /** One pass of the projection loop appends the pair of vertex `i / 3`. */
  lemma UVsStep(positions: seq<real>, box: Box, i: nat, uvs: seq<real>, u: real, v: real)
    requires OpenInXY(box) && i % 3 == 0 && i + 3 <= |positions|
    requires uvs == UVs(positions, box, i / 3)
    requires u == box.min.x + positions[i + 0] / (box.max.x - box.min.x)
    requires v == box.min.y + positions[i + 1] / (box.max.y - box.min.y)
    ensures uvs + [u, v] == UVs(positions, box, (i + 3) / 3)
  {
    assert i / 3 + 1 == (i + 3) / 3;
  }

  lemma {:induction false} UVsLength(positions: seq<real>, box: Box, m: nat)
    requires 3 * m <= |positions| && OpenInXY(box)
    ensures |UVs(positions, box, m)| == 2 * m
  {
    if m > 0 {
      UVsLength(positions, box, m - 1);
    }
  }

  /** Vertex `i` has its u at index `2 * i` and its v at `2 * i + 1`. */
  lemma {:induction false} UVAt(positions: seq<real>, box: Box, m: nat, i: nat)
    requires 3 * m <= |positions| && OpenInXY(box) && i < m
    ensures |UVs(positions, box, m)| == 2 * m
    ensures UVs(positions, box, m)[2 * i] == box.min.x + Coord(positions, i, 0) / (box.max.x - box.min.x)
    ensures UVs(positions, box, m)[2 * i + 1] == box.min.y + Coord(positions, i, 1) / (box.max.y - box.min.y)
  {
    UVsLength(positions, box, m);
    UVsLength(positions, box, m - 1);
    if i < m - 1 {
      UVAt(positions, box, m - 1, i);
    }
  }

  /** Division by a positive number keeps order. */
  lemma DivMono(a: real, b: real, d: real)
    requires a <= b && d > 0.0
    ensures a / d <= b / d
  {
    assert b / d - a / d == (b - a) / d;
  }

  /** Dividing the ends of an interval by its own length puts them one apart. */
  lemma UnitSpan(lo: real, hi: real)
    requires lo < hi
    ensures hi / (hi - lo) - lo / (hi - lo) == 1.0
  {
    assert hi / (hi - lo) - lo / (hi - lo) == (hi - lo) / (hi - lo);
  }

  /** The left end of the u interval, `min.x + min.x / range.x`. */
  function ULow(box: Box): real
    requires OpenInXY(box)
  {
    box.min.x + box.min.x / (box.max.x - box.min.x)
  }

  /**
   * Every u lies in `[ULow(box), ULow(box) + 1]`: the projection maps the box
   * onto a unit interval, which starts at 0 only when `min.x == 0`.
   */
  lemma UInUnitInterval(positions: seq<real>, i: nat)
    requires |positions| % 3 == 0 && 3 * i + 3 <= |positions|
    requires BoundingBox(positions).Some? && OpenInXY(BoundingBox(positions).value)
    ensures var box := BoundingBox(positions).value;
      var u := UVs(positions, box, |positions| / 3);
      2 * i < |u| && ULow(box) <= u[2 * i] <= ULow(box) + 1.0
  {
    var n := |positions| / 3;
    var box := BoundingBox(positions).value;
    var rangeX := box.max.x - box.min.x;
    var x := Coord(positions, i, 0);
    assert box.min.x <= x <= box.max.x;
    UVAt(positions, box, n, i);
    DivMono(box.min.x, x, rangeX);
    DivMono(x, box.max.x, rangeX);
    UnitSpan(box.min.x, box.max.x);
  }

  /** Both ends of the u interval are attained: at a vertex of least x, and at one of greatest x. */
  lemma UEndsAttained(positions: seq<real>)
    requires |positions| % 3 == 0
    requires BoundingBox(positions).Some? && OpenInXY(BoundingBox(positions).value)
    ensures var box := BoundingBox(positions).value;
      var u := UVs(positions, box, |positions| / 3);
      && (exists j :: 0 <= j < |positions| / 3 && 2 * j < |u| && u[2 * j] == ULow(box))
      && (exists j :: 0 <= j < |positions| / 3 && 2 * j < |u| && u[2 * j] == ULow(box) + 1.0)
  {
    var n := |positions| / 3;
    var box := BoundingBox(positions).value;
    var jMin :| 0 <= jMin < n && box.min.x == Coord(positions, jMin, 0);
    var jMax :| 0 <= jMax < n && box.max.x == Coord(positions, jMax, 0);
    UVAt(positions, box, n, jMin);
    UVAt(positions, box, n, jMax);
    assert box.min.x <= Coord(positions, 0, 0) <= box.max.x;
    UnitSpan(box.min.x, box.max.x);
  }

  /** The aspect pair has its smaller component equal to 1 and neither below 1. */
  lemma AspectNormalised(box: Box)
    requires OpenInXY(box) && box.min.x <= box.max.x && box.min.y <= box.max.y
    ensures var (ax, ay) := Aspect(box);
      ax >= 1.0 && ay >= 1.0 && (ax == 1.0 || ay == 1.0)
  {
    var rangeX, rangeY := box.max.x - box.min.x, box.max.y - box.min.y;
    var minRange := if rangeX <= rangeY then rangeX else rangeY;
    DivMono(minRange, rangeX, minRange);
    DivMono(minRange, rangeY, minRange);
  }

  /** The bounding box of a geometry with vertices is ordered on every axis. */
  lemma BoundingBoxOrdered(positions: seq<real>)
    requires |positions| % 3 == 0 && |positions| > 0
    ensures var box := BoundingBox(positions).value;
      box.min.x <= box.max.x && box.min.y <= box.max.y && box.min.z <= box.max.z
  {
    assert Coord(positions, 0, 0) == positions[0];
  }
}
