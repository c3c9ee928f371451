/** Option and Result wrappers used across the model. */
module Wrappers {
  datatype Option<+T> = None | Some(value: T)

  datatype Result<+T, +E> = Success(value: T) | Failure(error: E)
}

/**
 * Points and flat triangle soups. Every geometry stage of the block pipeline
 * produces a JavaScript array of numbers: three per vertex, nine per triangle,
 * with no shared indices. The helpers here read such an array back as
 * vertices and triangles so that properties can be stated about it.
 */
module Soup {

  /** A 2D point, `{x, y}` (three.js `Vector2`). */
  datatype Vec2 = Vec2(x: real, y: real)

  /** A 3D point, `{x, y, z}`. */
  datatype Vec3 = Vec3(x: real, y: real, z: real)

  /** Index of the vertex after `k` on a closed contour of `n` vertices. */
  function Next(k: nat, n: nat): (r: nat)
    requires k < n
    ensures r < n
  {
    if k + 1 == n then 0 else k + 1
  }

  /** The three numbers one vertex contributes to a position array. */
  function Pt(v: Vec3): (r: seq<real>)
    ensures |r| == 3
  {
    [v.x, v.y, v.z]
  }

  /** The nine numbers of triangle (a, b, c), in that vertex order. */
  function Tri(a: Vec3, b: Vec3, c: Vec3): (r: seq<real>)
    ensures |r| == 9
  {
    Pt(a) + Pt(b) + Pt(c)
  }

  /** Vertex `v` of a flat position array. */
  function VertexAt(s: seq<real>, v: nat): Vec3
    requires 3 * v + 3 <= |s|
  {
    Vec3(s[3 * v], s[3 * v + 1], s[3 * v + 2])
  }

  /** The nine numbers of triangle `t` of a flat triangle soup. */
  function TriangleAt(s: seq<real>, t: nat): (r: seq<real>)
    requires 9 * t + 9 <= |s|
    ensures |r| == 9
  {
    s[9 * t .. 9 * t + 9]
  }

  /** A triangle with its three vertices in the opposite order. */
  function ReverseTriangle(tri: seq<real>): (r: seq<real>)
    requires |tri| == 9
    ensures |r| == 9
    ensures forall j :: 0 <= j < 3 ==> VertexAt(r, j) == VertexAt(tri, 2 - j)
  {
    tri[6..9] + tri[3..6] + tri[0..3]
  }

  /**
   * `a` is `b` with the winding of every triangle reversed: the same
   * triangles in the same order, each with its vertex order reversed.
   */
  ghost predicate WindingReversed(a: seq<real>, b: seq<real>)
  {
    && |a| == |b|
    && |a| % 9 == 0
    && forall t :: 0 <= t < |a| / 9 ==> TriangleAt(a, t) == ReverseTriangle(TriangleAt(b, t))
  }

  lemma ReverseTri(a: Vec3, b: Vec3, c: Vec3)
    ensures ReverseTriangle(Tri(a, b, c)) == Tri(c, b, a)
  {
    assert Tri(a, b, c)[6..9] == Pt(c);
    assert Tri(a, b, c)[3..6] == Pt(b);
    assert Tri(a, b, c)[0..3] == Pt(a);
  }

  /** Triangle `t` of a concatenation comes from the part it falls in. */
  lemma TriangleAtConcat(a: seq<real>, b: seq<real>, t: nat)
    requires |a| % 9 == 0 && |b| % 9 == 0 && 9 * t + 9 <= |a| + |b|
    ensures 9 * t < |a| ==> 9 * t + 9 <= |a| && TriangleAt(a + b, t) == TriangleAt(a, t)
    ensures 9 * t >= |a| ==> TriangleAt(a + b, t) == TriangleAt(b, t - |a| / 9)
  {
    var q := |a| / 9;
    assert |a| == 9 * q;
    if 9 * t < |a| {
      assert t < q;
      assert (a + b)[9 * t .. 9 * t + 9] == a[9 * t .. 9 * t + 9];
    } else {
      assert t >= q;
      assert 9 * t - |a| == 9 * (t - q);
      assert (a + b)[9 * t .. 9 * t + 9] == b[9 * (t - q) .. 9 * (t - q) + 9];
    }
  }

  /** Appending a triangle to a soup keeps the soup's own triangles in place. */
  lemma TriangleAtPrefix(prefix: seq<real>, last: seq<real>, whole: seq<real>, k: nat, t: nat)
    requires |prefix| == 9 * k && |last| == 9 && whole == prefix + last && t < k
    ensures |whole| == 9 * k + 9
    ensures TriangleAt(whole, t) == TriangleAt(prefix, t)
  {
    assert (prefix + last)[9 * t .. 9 * t + 9] == prefix[9 * t .. 9 * t + 9];
  }

  /** The appended triangle is the last one of the soup. */
  lemma TriangleAtLast(prefix: seq<real>, last: seq<real>, whole: seq<real>, k: nat)
    requires |prefix| == 9 * k && |last| == 9 && whole == prefix + last
    ensures |whole| == 9 * k + 9
    ensures TriangleAt(whole, k) == last
  {
    assert (prefix + last)[9 * k .. 9 * k + 9] == last;
  }

  /** Reversing the winding of two soups reverses the winding of their concatenation. */
  lemma {:induction false} WindingReversedConcat(a1: seq<real>, b1: seq<real>, a2: seq<real>, b2: seq<real>)
    requires WindingReversed(a1, b1) && WindingReversed(a2, b2)
    ensures WindingReversed(a1 + a2, b1 + b2)
  {
    var q := |a1| / 9;
    assert |a1| == 9 * q;
    assert |a1 + a2| / 9 == q + |a2| / 9;
    forall t | 0 <= t < |a1 + a2| / 9
      ensures TriangleAt(a1 + a2, t) == ReverseTriangle(TriangleAt(b1 + b2, t))
    {
      TriangleAtConcat(a1, a2, t);
      TriangleAtConcat(b1, b2, t);
      if 9 * t >= |a1| {
        assert t - q < |a2| / 9;
      }
    }
  }

  /** `s` holds `part` starting at position `off`. */
  predicate Holds(s: seq<real>, off: nat, part: seq<real>)
  {
    off + |part| <= |s| && s[off .. off + |part|] == part
  }

  lemma AppendAssoc(x: seq<real>, y: seq<real>, z: seq<real>)
    ensures x + (y + z) == (x + y) + z
  {
  }

  /** Slicing a concatenation inside its first part slices that part. */
  lemma SliceInPrefix(prefix: seq<real>, last: seq<real>, whole: seq<real>, lo: nat, hi: nat)
    requires whole == prefix + last && lo <= hi <= |prefix|
    ensures whole[lo .. hi] == prefix[lo .. hi]
  {
  }

  /** Slicing a concatenation at the end of its first part gives the second part. */
  lemma SliceOfLast(prefix: seq<real>, last: seq<real>, whole: seq<real>)
    requires whole == prefix + last
    ensures whole[|prefix| .. |prefix| + |last|] == last
  {
  }

  /** A concatenation holds its first part at 0 and its second right after. */
  lemma HoldsConcat(s: seq<real>, t: seq<real>)
    ensures Holds(s + t, 0, s) && Holds(s + t, |s|, t)
  {
    assert (s + t)[0 .. |s|] == s;
    assert (s + t)[|s| .. |s| + |t|] == t;
  }

  /** Holding is transitive: offsets add up. */
  lemma HoldsTrans(a: seq<real>, o1: nat, b: seq<real>, o2: nat, c: seq<real>)
    requires Holds(a, o1, b) && Holds(b, o2, c)
    ensures Holds(a, o1 + o2, c)
  {
    forall i | 0 <= i < |c|
      ensures a[o1 + o2 + i] == c[i]
    {
      assert a[o1 .. o1 + |b|][o2 + i] == b[o2 + i];
      assert b[o2 .. o2 + |c|][i] == c[i];
    }
  }

  /** Vertex `j` of the slice that starts at vertex `base` is vertex `base + j` of the whole array. */
  lemma VertexAtSlice(s: seq<real>, base: nat, len: nat, j: nat)
    requires 3 * base + len <= |s| && 3 * j + 3 <= len
    ensures VertexAt(s[3 * base .. 3 * base + len], j) == VertexAt(s, base + j)
  {
  }

  /** The nine numbers of a triangle, written out. */
  lemma TriNumbers(a: Vec3, b: Vec3, c: Vec3)
    ensures Tri(a, b, c) == [a.x, a.y, a.z, b.x, b.y, b.z, c.x, c.y, c.z]
  {
  }

  /** The three vertices of a triangle's numbers, in order. */
  lemma TriVertex(a: Vec3, b: Vec3, c: Vec3, j: nat)
    requires j < 3
    ensures VertexAt(Tri(a, b, c), j) == [a, b, c][j]
  {
  }

  /** A two-triangle soup whose triangles are each reversed. */
  lemma TwoTrianglesReversed(a: Vec3, b: Vec3, c: Vec3, d: Vec3, e: Vec3, f: Vec3)
    ensures WindingReversed(Tri(c, b, a) + Tri(f, e, d), Tri(a, b, c) + Tri(d, e, f))
  {
    ReverseTri(a, b, c);
    ReverseTri(d, e, f);
    TriangleAtConcat(Tri(c, b, a), Tri(f, e, d), 0);
    TriangleAtConcat(Tri(c, b, a), Tri(f, e, d), 1);
    TriangleAtConcat(Tri(a, b, c), Tri(d, e, f), 0);
    TriangleAtConcat(Tri(a, b, c), Tri(d, e, f), 1);
    assert TriangleAt(Tri(a, b, c), 0) == Tri(a, b, c);
    assert TriangleAt(Tri(c, b, a), 0) == Tri(c, b, a);
    assert TriangleAt(Tri(d, e, f), 0) == Tri(d, e, f);
    assert TriangleAt(Tri(f, e, d), 0) == Tri(f, e, d);
  }
}
