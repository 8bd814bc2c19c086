/** What the batcher's append functions leave in each array, read back
    vertex by vertex: each lemma restates one function of module Batcher as
    "the old contents, kept as a prefix, followed by a segment" and says
    what every entry of that segment is. */
module BatcherLayout {
  import opened Common
  import Attributes
  import JsColor
  import opened Batcher

  /** The position stored for vertex v of a coordinate array whose vertex 0 starts at entry `base`. */
  function PairAt(cs: seq<real>, base: nat, v: nat): Vec2
    requires base + 2 * v + 1 < |cs|
  {
    Vec2(cs[base + 2 * v], cs[base + 2 * v + 1])
  }

  /** The colour stored for vertex v of a channel array whose vertex 0 starts at entry `base`. */
  function ColorAt(cs: seq<Channel>, base: nat, v: nat): Color
    requires base + 4 * v + 3 < |cs|
  {
    JsColor.Color(cs[base + 4 * v], cs[base + 4 * v + 1], cs[base + 4 * v + 2], cs[base + 4 * v + 3])
  }

  /** Corner c of an edge quad, in `apply`'s order v, nv, nv, v. */
  function QuadCorner(q: OutlineQuad, c: nat): Vec2
  {
    if c == 0 || c == 3 then q.v else q.nv
  }

  /** One triangle of the index list, by its three vertex indices. */
  datatype Triangle = Triangle(a: int, b: int, c: int)

  /** Triangle t of an index array whose triangle 0 starts at entry `base`. */
  function TriangleAt(ix: seq<int>, base: nat, t: nat): Triangle
    requires base + 3 * t + 3 <= |ix|
  {
    Triangle(ix[base + 3 * t], ix[base + 3 * t + 1], ix[base + 3 * t + 2])
  }

  /** Quad q (two triangles) of an index array whose quad 0 starts at entry `base`. */
  function QuadAt(ix: seq<int>, base: nat, q: nat): (Triangle, Triangle)
    requires base + 6 * q + 6 <= |ix|
  {
    (TriangleAt(ix, base + 6 * q, 0), TriangleAt(ix, base + 6 * q, 1))
  }

  /** The two triangles `quadIndices` makes of the four vertices x .. x+3. */
  function QuadOver(x: int): (Triangle, Triangle)
  {
    (Triangle(x, x + 1, x + 2), Triangle(x, x + 2, x + 3))
  }

  lemma TriangleAtPrefix(ix: seq<int>, jx: seq<int>, base: nat, t: nat)
    requires ix <= jx && base + 3 * t + 3 <= |ix|
    ensures TriangleAt(jx, base, t) == TriangleAt(ix, base, t)
  {
  }

  lemma QuadAtPrefix(ix: seq<int>, jx: seq<int>, base: nat, q: nat)
    requires ix <= jx && base + 6 * q + 6 <= |ix|
    ensures QuadAt(jx, base, q) == QuadAt(ix, base, q)
  {
  }

  lemma PairAtPrefix(cs: seq<real>, ds: seq<real>, base: nat, v: nat)
    requires cs <= ds && base + 2 * v + 1 < |cs|
    ensures PairAt(ds, base, v) == PairAt(cs, base, v)
  {
  }

  lemma ColorAtPrefix(cs: seq<Channel>, ds: seq<Channel>, base: nat, v: nat)
    requires cs <= ds && base + 4 * v + 3 < |cs|
    ensures ColorAt(ds, base, v) == ColorAt(cs, base, v)
  {
  }

  lemma {:induction false} PadPairLayout(s: seq<real>, x: Vec2, k: nat)
    ensures s <= PadPair(s, x, k)
    ensures forall v: nat | v < k :: PairAt(PadPair(s, x, k), |s|, v) == x
  {
    if k > 0 {
      var prev := PadPair(s, x, k - 1);
      PadPairLayout(s, x, k - 1);
      forall v: nat | v < k
        ensures PairAt(PadPair(s, x, k), |s|, v) == x
      {
        if v < k - 1 {
          PairAtPrefix(prev, PadPair(s, x, k), |s|, v);
        }
      }
    }
  }

  lemma {:induction false} PadColorLayout(s: seq<Channel>, c: Color, k: nat)
    ensures s <= PadColor(s, c, k)
    ensures forall v: nat | v < k :: ColorAt(PadColor(s, c, k), |s|, v) == c
  {
    if k > 0 {
      var prev := PadColor(s, c, k - 1);
      PadColorLayout(s, c, k - 1);
      forall v: nat | v < k
        ensures ColorAt(PadColor(s, c, k), |s|, v) == c
      {
        if v < k - 1 {
          ColorAtPrefix(prev, PadColor(s, c, k), |s|, v);
        }
      }
    }
  }

  lemma {:induction false} BodyLayout(s: seq<real>, vs: seq<Vec2>, i: nat)
    requires i <= |vs|
    ensures s <= AppendBody(s, vs, i)
    ensures forall v: nat | v < i :: PairAt(AppendBody(s, vs, i), |s|, v) == vs[v]
  {
    if i > 0 {
      var prev := AppendBody(s, vs, i - 1);
      BodyLayout(s, vs, i - 1);
      forall v: nat | v < i
        ensures PairAt(AppendBody(s, vs, i), |s|, v) == vs[v]
      {
        if v < i - 1 {
          PairAtPrefix(prev, AppendBody(s, vs, i), |s|, v);
        }
      }
    }
  }

  /** A circle's quad: vertex j sits at unit-square corner j, in the order the
      corner attributes encode. */
  lemma {:induction false} CircleCoordsLayout(s: seq<real>, j: nat)
    requires j <= 4
    ensures s <= AppendCircleCoords(s, j)
    ensures forall v: nat | v < j :: PairAt(AppendCircleCoords(s, j), |s|, v) == Attributes.CORNER_COORDS[v]
  {
    if j > 0 {
      var prev := AppendCircleCoords(s, j - 1);
      CircleCoordsLayout(s, j - 1);
      forall v: nat | v < j
        ensures PairAt(AppendCircleCoords(s, j), |s|, v) == Attributes.CORNER_COORDS[v]
      {
        if v < j - 1 {
          PairAtPrefix(prev, AppendCircleCoords(s, j), |s|, v);
        }
      }
    }
  }

  lemma {:induction false} CornersLayout(s: seq<real>, vs: seq<Vec2>, i: nat)
    requires i <= |vs|
    ensures s <= AppendCorners(s, vs, i)
    ensures forall v: nat | v < 4 * i :: PairAt(AppendCorners(s, vs, i), |s|, v) == vs[v / 4]
  {
    if i > 0 {
      var prev := AppendCorners(s, vs, i - 1);
      var r := AppendCorners(s, vs, i);
      CornersLayout(s, vs, i - 1);
      PadPairLayout(prev, vs[i - 1], 4);
      forall v: nat | v < 4 * i
        ensures PairAt(r, |s|, v) == vs[v / 4]
      {
        if v < 4 * (i - 1) {
          PairAtPrefix(prev, r, |s|, v);
        } else {
          assert PairAt(r, |s|, v) == PairAt(r, |prev|, v - 4 * (i - 1));
        }
      }
    }
  }

  lemma {:induction false} QuadCoordsLayout(s: seq<real>, qs: seq<OutlineQuad>, i: nat)
    requires i <= |qs|
    ensures s <= AppendQuadCoords(s, qs, i)
    ensures forall v: nat | v < 4 * i :: PairAt(AppendQuadCoords(s, qs, i), |s|, v) == QuadCorner(qs[v / 4], v % 4)
  {
    if i > 0 {
      var prev := AppendQuadCoords(s, qs, i - 1);
      var r := AppendQuadCoords(s, qs, i);
      QuadCoordsLayout(s, qs, i - 1);
      forall v: nat | v < 4 * i
        ensures PairAt(r, |s|, v) == QuadCorner(qs[v / 4], v % 4)
      {
        if v < 4 * (i - 1) {
          PairAtPrefix(prev, r, |s|, v);
        } else {
          var w := v - 4 * (i - 1);
          QuarterOf(v, i - 1, w);
          assert PairAt(r, |s|, v) == PairAt(r, |prev|, w);
          LastQuadCorner(prev, qs[i - 1], w);
        }
      }
    }
  }

  lemma QuarterOf(v: nat, q: nat, w: nat)
    requires w < 4 && v == 4 * q + w
    ensures v / 4 == q && v % 4 == w
  {
  }

  /** Corner w of a quad appended after `prev`. */
  lemma LastQuadCorner(prev: seq<real>, q: OutlineQuad, w: nat)
    requires w < 4
    ensures PairAt(prev + q.Corners(), |prev|, w) == QuadCorner(q, w)
  {
  }

  /** A polygon's coordinates: the N vertices themselves, then each vertex
      four times (its rounded corner), then each edge's quad corners
      v, nv, nv, v; what was there before is kept. */
  lemma PolygonCoordsLayout(s: seq<real>, vs: seq<Vec2>, atan2: (real, real) -> real)
    ensures |PolygonCoords(s, vs, atan2)| == |s| + 18 * |vs|
    ensures s <= PolygonCoords(s, vs, atan2)
    ensures forall v: nat | v < |vs| :: PairAt(PolygonCoords(s, vs, atan2), |s|, v) == vs[v]
    ensures forall v: nat | v < 4 * |vs| :: PairAt(PolygonCoords(s, vs, atan2), |s| + 2 * |vs|, v) == vs[v / 4]
    ensures forall v: nat | v < 4 * |vs| ::
      PairAt(PolygonCoords(s, vs, atan2), |s| + 10 * |vs|, v) == QuadCorner(EdgeQuad(vs, atan2, v / 4), v % 4)
  {
    var n := |vs|;
    var b := AppendBody(s, vs, n);
    var c := AppendCorners(b, vs, n);
    BodyLayout(s, vs, n);
    CornersLayout(b, vs, n);
    QuadCoordsLayout(c, Quads(vs, atan2, n), n);
    BodyPart(s, vs, atan2);
    CornerPart(s, vs, atan2);
    EdgePart(s, vs, atan2);
  }

  lemma BodyPart(s: seq<real>, vs: seq<Vec2>, atan2: (real, real) -> real)
    ensures forall v: nat | v < |vs| :: PairAt(PolygonCoords(s, vs, atan2), |s|, v) == vs[v]
  {
    var n := |vs|;
    var b := AppendBody(s, vs, n);
    var p := PolygonCoords(s, vs, atan2);
    BodyLayout(s, vs, n);
    CornersLayout(b, vs, n);
    QuadCoordsLayout(AppendCorners(b, vs, n), Quads(vs, atan2, n), n);
    forall v: nat | v < n
      ensures PairAt(p, |s|, v) == vs[v]
    {
      PairAtPrefix(b, p, |s|, v);
    }
  }

  lemma CornerPart(s: seq<real>, vs: seq<Vec2>, atan2: (real, real) -> real)
    ensures forall v: nat | v < 4 * |vs| :: PairAt(PolygonCoords(s, vs, atan2), |s| + 2 * |vs|, v) == vs[v / 4]
  {
    var n := |vs|;
    var b := AppendBody(s, vs, n);
    var c := AppendCorners(b, vs, n);
    var p := PolygonCoords(s, vs, atan2);
    CornersLayout(b, vs, n);
    QuadCoordsLayout(c, Quads(vs, atan2, n), n);
    forall v: nat | v < 4 * n
      ensures PairAt(p, |s| + 2 * n, v) == vs[v / 4]
    {
      PairAtPrefix(c, p, |b|, v);
    }
  }

  lemma EdgePart(s: seq<real>, vs: seq<Vec2>, atan2: (real, real) -> real)
    ensures forall v: nat | v < 4 * |vs| ::
      PairAt(PolygonCoords(s, vs, atan2), |s| + 10 * |vs|, v) == QuadCorner(EdgeQuad(vs, atan2, v / 4), v % 4)
  {
    var n := |vs|;
    var c := AppendCorners(AppendBody(s, vs, n), vs, n);
    var p := PolygonCoords(s, vs, atan2);
    var qs := Quads(vs, atan2, n);
    QuadCoordsLayout(c, qs, n);
    QuadsAreEdges(vs, atan2, n);
    assert |c| == |s| + 10 * n;
    forall v: nat | v < 4 * n
      ensures PairAt(p, |c|, v) == QuadCorner(EdgeQuad(vs, atan2, v / 4), v % 4)
    {
      QuarterBelow(v, n);
      assert qs[v / 4] == EdgeQuad(vs, atan2, v / 4);
    }
  }

  lemma QuarterBelow(v: nat, n: nat)
    requires v < 4 * n
    ensures v / 4 < n
  {
  }

  /** `outlineQuads[k]` is the quad of edge k. */
  lemma {:induction false} QuadsAreEdges(vs: seq<Vec2>, atan2: (real, real) -> real, i: nat)
    requires i <= |vs|
    ensures forall k | 0 <= k < i :: Quads(vs, atan2, i)[k] == EdgeQuad(vs, atan2, k)
  {
    if i > 0 {
      QuadsAreEdges(vs, atan2, i - 1);
    }
  }

  lemma {:induction false} CornerAttrsLayout(s: seq<int>, i: nat)
    ensures s <= AppendCornerAttrs(s, i)
    ensures forall m | |s| <= m < |s| + 4 * i :: AppendCornerAttrs(s, i)[m] == Attributes.CornerAttr((m - |s|) % 4)
  {
    if i > 0 {
      var prev := AppendCornerAttrs(s, i - 1);
      CornerAttrsLayout(s, i - 1);
      CornerRowLayout(prev, 4);
    }
  }

  lemma {:induction false} CornerRowLayout(s: seq<int>, j: nat)
    requires j <= 4
    ensures s <= AppendCornerRow(s, j)
    ensures forall m | |s| <= m < |s| + j :: AppendCornerRow(s, j)[m] == Attributes.CornerAttr(m - |s|)
  {
    if j > 0 {
      CornerRowLayout(s, j - 1);
    }
  }

  /** A polygon's attributes: POLYGON_BODY for its N vertices, the corner
      attributes 0..3 in turn for each rounded corner's four, OUTLINE_QUAD
      for the edge quads' 4N. */
  lemma PolygonAttrsLayout(s: seq<int>, n: nat)
    ensures |PolygonAttrs(s, n)| == |s| + 9 * n
    ensures s <= PolygonAttrs(s, n)
    ensures forall m | |s| <= m < |s| + n :: PolygonAttrs(s, n)[m] == Attributes.POLYGON_BODY
    ensures forall m | |s| + n <= m < |s| + 5 * n ::
      PolygonAttrs(s, n)[m] == Attributes.CornerAttr((m - |s| - n) % 4)
    ensures forall m | |s| + 5 * n <= m < |s| + 9 * n :: PolygonAttrs(s, n)[m] == Attributes.OUTLINE_QUAD
  {
    var b := Pad(s, Attributes.POLYGON_BODY as int, n);
    var c := AppendCornerAttrs(b, n);
    PadLayout(s, Attributes.POLYGON_BODY as int, n);
    CornerAttrsLayout(b, n);
    PadLayout(c, Attributes.OUTLINE_QUAD as int, 4 * n);
  }

  /** A polygon's colours: its own colour for the N body vertices, the
      outline colour for the 8N outline vertices. */
  lemma PolygonColorsLayout(s: seq<Channel>, color: Color, outlineColor: Color, n: nat)
    ensures |PolygonColors(s, color, outlineColor, n)| == |s| + 36 * n
    ensures s <= PolygonColors(s, color, outlineColor, n)
    ensures forall v: nat | v < n :: ColorAt(PolygonColors(s, color, outlineColor, n), |s|, v) == color
    ensures forall v: nat | n <= v < 9 * n :: ColorAt(PolygonColors(s, color, outlineColor, n), |s|, v) == outlineColor
  {
    var b := PadColor(s, color, n);
    var p := PolygonColors(s, color, outlineColor, n);
    PadColorLayout(s, color, n);
    PadColorLayout(b, outlineColor, 8 * n);
    forall v: nat | v < 9 * n
      ensures ColorAt(p, |s|, v) == if v < n then color else outlineColor
    {
      if v < n {
        ColorAtPrefix(b, p, |s|, v);
      } else {
        assert ColorAt(p, |s|, v) == ColorAt(p, |b|, v - n);
      }
    }
  }

  lemma {:induction false} QuadDirectionsLayout(s: seq<real>, qs: seq<OutlineQuad>, i: nat)
    requires i <= |qs|
    ensures s <= AppendQuadDirections(s, qs, i)
    ensures forall m | |s| <= m < |s| + 4 * i ::
      AppendQuadDirections(s, qs, i)[m] == qs[(m - |s|) / 4].Directions()[(m - |s|) % 4]
  {
    if i > 0 {
      QuadDirectionsLayout(s, qs, i - 1);
    }
  }

  /** A polygon's outline directions: 0 for its body and corner vertices;
      for edge k's quad, the edge direction plus pi on the two inner
      corners and the edge direction itself on the two outer ones. */
  lemma PolygonDirectionsLayout(s: seq<real>, vs: seq<Vec2>, atan2: (real, real) -> real)
    ensures |PolygonDirections(s, vs, atan2)| == |s| + 9 * |vs|
    ensures s <= PolygonDirections(s, vs, atan2)
    ensures forall m | |s| <= m < |s| + 5 * |vs| :: PolygonDirections(s, vs, atan2)[m] == 0.0
    ensures forall m | |s| + 5 * |vs| <= m < |s| + 9 * |vs| ::
      var k, c := (m - |s| - 5 * |vs|) / 4, (m - |s| - 5 * |vs|) % 4;
      var d := Direction(atan2, vs[k], vs[(k + 1) % |vs|]);
      PolygonDirections(s, vs, atan2)[m] == if c < 2 then d + PI else d
  {
    var n := |vs|;
    var z := Pad(s, 0.0, 5 * n);
    PadLayout(s, 0.0, 5 * n);
    QuadDirectionsLayout(z, Quads(vs, atan2, n), n);
    QuadsAreEdges(vs, atan2, n);
  }

  lemma {:induction false} FanPrefix(s: seq<int>, base: int, i: nat)
    ensures s <= AppendFan(s, base, i)
  {
    if i > 0 {
      FanPrefix(s, base, i - 1);
    }
  }

  /** Fan triangle t is (base, base + t + 1, base + t + 2). */
  lemma {:induction false} FanTriangle(s: seq<int>, base: int, i: nat, t: nat)
    requires t < i
    ensures TriangleAt(AppendFan(s, base, i), |s|, t) == Triangle(base, base + t + 1, base + t + 2)
  {
    var prev := AppendFan(s, base, i - 1);
    if t < i - 1 {
      FanTriangle(s, base, i - 1, t);
      TriangleAtPrefix(prev, AppendFan(s, base, i), |s|, t);
    } else {
      assert TriangleAt(AppendFan(s, base, i), |s|, t) == TriangleAt(AppendFan(s, base, i), |prev|, 0);
    }
  }

  lemma {:induction false} QuadRunPrefix(s: seq<int>, base: int, i: nat)
    ensures s <= AppendQuadRun(s, base, i)
  {
    if i > 0 {
      QuadRunPrefix(s, base, i - 1);
    }
  }

  /** Quad q of a run over vertices from `base` is over base+4q .. base+4q+3. */
  lemma {:induction false} QuadRunQuad(s: seq<int>, base: int, i: nat, q: nat)
    requires q < i
    ensures QuadAt(AppendQuadRun(s, base, i), |s|, q) == QuadOver(base + 4 * q)
  {
    var prev := AppendQuadRun(s, base, i - 1);
    if q < i - 1 {
      QuadRunQuad(s, base, i - 1, q);
      QuadAtPrefix(prev, AppendQuadRun(s, base, i), |s|, q);
    } else {
      assert QuadAt(AppendQuadRun(s, base, i), |s|, q) == QuadAt(AppendQuadRun(s, base, i), |prev|, 0);
    }
  }

  /** QuadRunQuad with the run's start given as a separate expression. */
  lemma QuadRunQuadAt(s: seq<int>, base: int, i: nat, q: nat, off: nat)
    requires q < i && off == |s|
    ensures QuadAt(AppendQuadRun(s, base, i), off, q) == QuadOver(base + 4 * q)
  {
    QuadRunQuad(s, base, i, q);
  }

  /** A polygon's indices: the fan triangles (b, b+t+1, b+t+2) over its body
      vertices, then two triangles for each of the 2N quads that follow
      (N rounded corners, then N edge quads), quad r over its own four
      vertices b+N+4r .. b+N+4r+3. */
  lemma PolygonIndicesLayout(s: seq<int>, b: int, n: nat)
    ensures |PolygonIndices(s, b, n)| == |s| + 3 * FanCount(n) + 12 * n
    ensures s <= PolygonIndices(s, b, n)
    ensures forall t: nat | t < FanCount(n) :: TriangleAt(PolygonIndices(s, b, n), |s|, t) == Triangle(b, b + t + 1, b + t + 2)
    ensures forall r: nat | r < 2 * n :: QuadAt(PolygonIndices(s, b, n), |s| + 3 * FanCount(n), r) == QuadOver(b + n + 4 * r)
  {
    PolygonIndicesPrefix(s, b, n);
    forall t: nat | t < FanCount(n)
      ensures TriangleAt(PolygonIndices(s, b, n), |s|, t) == Triangle(b, b + t + 1, b + t + 2)
    {
      PolygonFanTriangle(s, b, n, t);
    }
    forall r: nat | r < 2 * n
      ensures QuadAt(PolygonIndices(s, b, n), |s| + 3 * FanCount(n), r) == QuadOver(b + n + 4 * r)
    {
      PolygonQuad(s, b, n, r);
    }
  }

  lemma PolygonIndicesPrefix(s: seq<int>, b: int, n: nat)
    ensures s <= PolygonIndices(s, b, n)
  {
    var f := AppendFan(s, b, FanCount(n));
    var q1 := AppendQuadRun(f, b + n, n);
    FanPrefix(s, b, FanCount(n));
    QuadRunPrefix(f, b + n, n);
    QuadRunPrefix(q1, b + 5 * n, n);
  }

  lemma PolygonFanTriangle(s: seq<int>, b: int, n: nat, t: nat)
    requires t < FanCount(n)
    ensures TriangleAt(PolygonIndices(s, b, n), |s|, t) == Triangle(b, b + t + 1, b + t + 2)
  {
    var f := AppendFan(s, b, FanCount(n));
    var q1 := AppendQuadRun(f, b + n, n);
    FanTriangle(s, b, FanCount(n), t);
    QuadRunPrefix(f, b + n, n);
    QuadRunPrefix(q1, b + 5 * n, n);
    TriangleAtPrefix(f, PolygonIndices(s, b, n), |s|, t);
  }

  lemma PolygonQuad(s: seq<int>, b: int, n: nat, r: nat)
    requires r < 2 * n
    ensures QuadAt(PolygonIndices(s, b, n), |s| + 3 * FanCount(n), r) == QuadOver(b + n + 4 * r)
  {
    var f := AppendFan(s, b, FanCount(n));
    QuadRunConcat(f, b + n, n, n, b + 5 * n);
    QuadRunQuadAt(f, b + n, n + n, r, |s| + 3 * FanCount(n));
  }

  /** Two runs of quads, the second starting where the first ends, are one run. */
  lemma {:induction false} QuadRunConcat(s: seq<int>, c: int, i: nat, j: nat, d: int)
    requires d == c + 4 * i
    ensures AppendQuadRun(AppendQuadRun(s, c, i), d, j) == AppendQuadRun(s, c, i + j)
  {
    if j > 0 {
      QuadRunConcat(s, c, i, j - 1, d);
      assert d + 4 * (j - 1) == c + 4 * (i + j - 1);
    }
  }
}
