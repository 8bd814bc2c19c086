/** What the C++ batcher leaves in each vector, read back vertex by vertex,
    and the bounds of the indices it pushes. */
module CppBatcherLayout {
  import opened Common
  import Bits
  import opened CppBatcher
  import Batcher
  import BatcherLayout
  import Attributes

  /** The corner bytes are four distinct values below 8, each with bit 0 set. */
  lemma CornerPositionsDistinct()
    ensures |CORNER_POSITIONS| == 4
    ensures forall j, k | 0 <= j < k < 4 :: CORNER_POSITIONS[j] != CORNER_POSITIONS[k]
    ensures forall j | 0 <= j < 4 :: CORNER_POSITIONS[j] < 8 && Bits.And(CORNER_POSITIONS[j], 1) == 1
  {
    Bits.Pow2Values();
    forall j | 0 <= j < 4
      ensures Bits.And(CORNER_POSITIONS[j], 1) == 1
    {
      Bits.AndLowMask(CORNER_POSITIONS[j], 1);
    }
  }

  lemma {:induction false} PositionsLayout(s: seq<nat>, i: nat)
    ensures s <= AppendPositions(s, i)
    ensures forall m | |s| <= m < |s| + 4 * i :: AppendPositions(s, i)[m] == CORNER_POSITIONS[(m - |s|) % 4]
  {
    if i > 0 {
      PositionsLayout(s, i - 1);
      var prev := AppendPositions(s, i - 1);
      forall m | |prev| <= m < |s| + 4 * i
        ensures AppendPositions(s, i)[m] == CORNER_POSITIONS[(m - |s|) % 4]
      {
        assert (m - |s|) % 4 == m - |prev|;
      }
    }
  }

  /** Attribute layout per polygon: 5n plain bytes (the n body vertices and
      the 4n edge-quad vertices), then the corner bytes in groups of four. */
  lemma PolygonAttrsLayout(s: seq<nat>, n: nat)
    ensures |PolygonAttrs(s, n)| == |s| + 9 * n
    ensures s <= PolygonAttrs(s, n)
    ensures forall m | |s| <= m < |s| + 5 * n :: PolygonAttrs(s, n)[m] == PLAIN_VERTEX
    ensures forall m | |s| + 5 * n <= m < |s| + 9 * n ::
      PolygonAttrs(s, n)[m] == CORNER_POSITIONS[(m - |s| - 5 * n) % 4]
  {
    var b := Pad(s, PLAIN_VERTEX, 5 * n);
    PadLayout(s, PLAIN_VERTEX, 5 * n);
    PositionsLayout(b, n);
  }

  /** Colour layout per polygon: n vertices in the polygon's colour, then 8n in the outline colour. */
  lemma PolygonColorsLayout(s: seq<Color>, color: Color, n: nat)
    ensures |PolygonColors(s, color, n)| == |s| + 9 * n
    ensures s <= PolygonColors(s, color, n)
    ensures forall m | |s| <= m < |s| + n :: PolygonColors(s, color, n)[m] == color
    ensures forall m | |s| + n <= m < |s| + 9 * n :: PolygonColors(s, color, n)[m] == OUTLINE_COLOR
  {
    PadLayout(s, color, n);
    PadLayout(Pad(s, color, n), OUTLINE_COLOR, 8 * n);
  }

  lemma {:induction false} TransformedLayout(vs: seq<Vec2>, size: real, offset: Vec2, i: nat)
    requires i <= |vs|
    ensures forall k | 0 <= k < i :: Transformed(vs, size, offset, i)[k] == Transform(vs[k], size, offset)
  {
    if i > 0 {
      TransformedLayout(vs, size, offset, i - 1);
    }
  }

  lemma {:induction false} QuadsLayout(vs: seq<Vec2>, normalize: Vec2 -> Vec2, i: nat)
    requires i <= |vs|
    ensures forall k | 0 <= k < i :: Quads(vs, normalize, i)[k] == EdgeQuad(vs, normalize, k)
  {
    if i > 0 {
      QuadsLayout(vs, normalize, i - 1);
    }
  }

  lemma {:induction false} QuadCoordsLayout(s: seq<Vec2>, qs: seq<OutlineQuad>, size: real, offset: Vec2, i: nat)
    requires i <= |qs|
    ensures s <= AppendQuadCoords(s, qs, size, offset, i)
    ensures forall m | |s| <= m < |s| + 4 * i ::
      AppendQuadCoords(s, qs, size, offset, i)[m] == qs[(m - |s|) / 4].Corners(size, OUTLINE_SIZE, offset)[(m - |s|) % 4]
  {
    if i > 0 {
      QuadCoordsLayout(s, qs, size, offset, i - 1);
      var prev := AppendQuadCoords(s, qs, size, offset, i - 1);
      forall m | |prev| <= m < |s| + 4 * i
        ensures AppendQuadCoords(s, qs, size, offset, i)[m]
          == qs[(m - |s|) / 4].Corners(size, OUTLINE_SIZE, offset)[(m - |s|) % 4]
      {
        assert (m - |s|) / 4 == i - 1 && (m - |s|) % 4 == m - |prev|;
      }
    }
  }

  lemma {:induction false} CornerCoordsLayout(s: seq<Vec2>, ps: seq<Vec2>, i: nat)
    requires i <= |ps|
    ensures s <= AppendCornerCoords(s, ps, i)
    ensures forall m | |s| <= m < |s| + 4 * i :: AppendCornerCoords(s, ps, i)[m] == ps[(m - |s|) / 4]
  {
    if i > 0 {
      CornerCoordsLayout(s, ps, i - 1);
      var prev := AppendCornerCoords(s, ps, i - 1);
      PadLayout(prev, ps[i - 1], 4);
      forall m | |prev| <= m < |s| + 4 * i
        ensures AppendCornerCoords(s, ps, i)[m] == ps[(m - |s|) / 4]
      {
        assert (m - |s|) / 4 == i - 1;
      }
    }
  }

  /** Coordinate layout per polygon: body vertex k is vertex k scaled and
      offset; edge-quad vertex m is corner m % 4 of the quad of edge m / 4;
      outline-corner vertex m is body vertex m / 4 again. */
  lemma PolygonCoordsLayout(s: seq<Vec2>, vs: seq<Vec2>, size: real, offset: Vec2, normalize: Vec2 -> Vec2)
    ensures |PolygonCoords(s, vs, size, offset, normalize)| == |s| + 9 * |vs|
    ensures s <= PolygonCoords(s, vs, size, offset, normalize)
    ensures forall k | 0 <= k < |vs| ::
      PolygonCoords(s, vs, size, offset, normalize)[|s| + k] == Transform(vs[k], size, offset)
    ensures forall m | 0 <= m < 4 * |vs| ::
      (PolygonCoords(s, vs, size, offset, normalize)[|s| + |vs| + m]
       == EdgeQuad(vs, normalize, m / 4).Corners(size, OUTLINE_SIZE, offset)[m % 4])
    ensures forall m | 0 <= m < 4 * |vs| ::
      PolygonCoords(s, vs, size, offset, normalize)[|s| + 5 * |vs| + m] == Transform(vs[m / 4], size, offset)
  {
    var n := |vs|;
    var ts := Transformed(vs, size, offset, n);
    var qs := Quads(vs, normalize, n);
    var quads := AppendQuadCoords(s + ts, qs, size, offset, n);
    TransformedLayout(vs, size, offset, n);
    QuadsLayout(vs, normalize, n);
    BodySection(s, ts, qs, size, offset);
    QuadSection(s + ts, qs, ts, size, offset);
    CornerCoordsLayout(quads, ts, n);
  }

  lemma BodySection(s: seq<Vec2>, ts: seq<Vec2>, qs: seq<OutlineQuad>, size: real, offset: Vec2)
    requires |qs| == |ts|
    ensures s + ts <= AppendCornerCoords(AppendQuadCoords(s + ts, qs, size, offset, |ts|), ts, |ts|)
  {
    var quads := AppendQuadCoords(s + ts, qs, size, offset, |ts|);
    QuadCoordsLayout(s + ts, qs, size, offset, |ts|);
    CornerCoordsLayout(quads, ts, |ts|);
  }

  lemma QuadSection(body: seq<Vec2>, qs: seq<OutlineQuad>, ts: seq<Vec2>, size: real, offset: Vec2)
    requires |qs| == |ts|
    ensures forall m | 0 <= m < 4 * |ts| ::
      (AppendCornerCoords(AppendQuadCoords(body, qs, size, offset, |ts|), ts, |ts|)[|body| + m]
       == qs[m / 4].Corners(size, OUTLINE_SIZE, offset)[m % 4])
  {
    var quads := AppendQuadCoords(body, qs, size, offset, |ts|);
    QuadCoordsLayout(body, qs, size, offset, |ts|);
    CornerCoordsLayout(quads, ts, |ts|);
    forall m | 0 <= m < 4 * |ts|
      ensures AppendCornerCoords(quads, ts, |ts|)[|body| + m] == qs[m / 4].Corners(size, OUTLINE_SIZE, offset)[m % 4]
    {
      assert AppendCornerCoords(quads, ts, |ts|)[|body| + m] == quads[|body| + m];
    }
  }

  /** The vertex right after the body is an edge-quad vertex in C++ and an
      outline-corner vertex in src/app.js: the two versions lay out the same
      kinds of vertices in different orders. */
  lemma LayoutDiffersFromJs(s: seq<nat>, t: seq<int>, n: nat)
    requires n >= 1
    ensures PolygonAttrs(s, n)[|s| + n] == PLAIN_VERTEX
    ensures Batcher.PolygonAttrs(t, n)[|t| + n] == Attributes.CornerAttr(0)
    ensures Attributes.CornerAttr(0) != PLAIN_VERTEX
  {
    PolygonAttrsLayout(s, n);
    BatcherLayout.PolygonAttrsLayout(t, n);
  }

  lemma {:induction false} FanRange(s: seq<nat>, base: nat, i: nat)
    requires base + i + 2 <= Bits.TWO_32
    ensures s <= AppendFan(s, base, i)
    ensures forall m | |s| <= m < |AppendFan(s, base, i)| :: base <= AppendFan(s, base, i)[m] <= base + i + 1
  {
    if i > 0 {
      FanRange(s, base, i - 1);
      Bits.U32Small(base);
      Bits.U32Small(base + i);
      Bits.U32Small(base + i + 1);
    }
  }

  lemma {:induction false} QuadRunRange(s: seq<nat>, base: nat, i: nat)
    requires base + 4 * i <= Bits.TWO_32
    ensures s <= AppendQuadRun(s, base, i)
    ensures forall m | |s| <= m < |AppendQuadRun(s, base, i)| :: base <= AppendQuadRun(s, base, i)[m] < base + 4 * i
  {
    if i > 0 {
      QuadRunRange(s, base, i - 1);
      var x := base + 4 * (i - 1);
      Bits.U32Small(x);
      Bits.U32Small(x + 1);
      Bits.U32Small(x + 2);
      Bits.U32Small(x + 3);
    }
  }

  /** With at least two vertices and every vertex number within `uint32_t`,
      no index wraps: the polygon adds 3(n - 2) + 12n indices, all naming its
      own 9n vertices, and keeps the indices already present. */
  lemma PolygonIndicesInRange(s: seq<nat>, base: nat, n: nat)
    requires n >= 2 && base + 9 * n <= Bits.TWO_32
    ensures |PolygonIndices(s, base, n)| == |s| + 3 * (n - 2) + 12 * n
    ensures s <= PolygonIndices(s, base, n)
    ensures forall m | |s| <= m < |PolygonIndices(s, base, n)| :: base <= PolygonIndices(s, base, n)[m] < base + 9 * n
  {
    FanCountWraps(n);
    var f := AppendFan(s, base, FanCount(n));
    var q := AppendQuadRun(f, base + n, n);
    FanRange(s, base, FanCount(n));
    QuadRunRange(f, base + n, n);
    QuadRunRange(q, base + 5 * n, n);
  }
}
