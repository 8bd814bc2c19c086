/** The C++ batcher of src/main.cpp: each polygon becomes entries in the
    global vectors `p_coords` (one `vec2` per vertex), `p_attrs` (one byte per
    vertex), `p_colors` (one `Color` per vertex) and the `uint32_t` index list
    `p_indices`. A polygon of N vertices contributes its N body vertices
    (already scaled and offset), then an edge quad of four vertices per edge,
    then four outline-corner vertices per vertex: body, quads, corners, where
    src/app.js lays out body, corners, quads.

    Indices are `uint32_t`: every pushed index is reduced modulo 2^32, and so
    is the fan's loop bound `vertexCount - 2`. */
module CppBatcher {
  import opened Common
  import Bits
  import RgbaColor

  type Color = RgbaColor.Color

  /** The global `outlineColor`, opaque red. */
  const OUTLINE_COLOR: Color := RgbaColor.Color(255, 0, 0, 255)

  /** The global `outlineSize`. */
  const OUTLINE_SIZE: real := 2.0

  /** The attribute byte of body and edge-quad vertices. */
  const PLAIN_VERTEX: nat := 0x00

  /** The attribute bytes of the four outline-corner vertices: bit 0 marks a
      corner, bits 1 and 2 its position in the unit square. */
  const CORNER_POSITIONS: seq<nat> := [0x01, 0x05, 0x07, 0x03]

  /** The two triangles over four consecutive vertices. */
  const QUAD_INDICES: seq<nat> := [0, 1, 2, 0, 2, 3]

  // ---------------------------------------------------------------------
  // glm::vec2 arithmetic, on reals

  function Plus(a: Vec2, b: Vec2): Vec2 { Vec2(a.x + b.x, a.y + b.y) }

  function Minus(a: Vec2, b: Vec2): Vec2 { Vec2(a.x - b.x, a.y - b.y) }

  function Scale(a: Vec2, k: real): Vec2 { Vec2(a.x * k, a.y * k) }

  /** A vertex scaled by the polygon's size and moved by its offset: `v * size + offset`. */
  function Transform(v: Vec2, size: real, offset: Vec2): Vec2
  {
    Plus(Scale(v, size), offset)
  }

  /** `glm::vec2(-grad.y, grad.x)`: the direction turned a quarter to the left. */
  function Perpendicular(g: Vec2): Vec2 { Vec2(-g.y, g.x) }

  /** The local `OutlineQuad`: an edge from v to nv and its unit normal. */
  datatype OutlineQuad = OutlineQuad(v: Vec2, nv: Vec2, normal: Vec2) {

    /** The four corners `apply` builds: the transformed edge moved back and
        forth along the normal by `outlineSize`. */
    function Corners(size: real, outlineSize: real, offset: Vec2): seq<Vec2>
    {
      [Minus(Transform(v, size, offset), Scale(normal, outlineSize)),
       Minus(Transform(nv, size, offset), Scale(normal, outlineSize)),
       Plus(Transform(nv, size, offset), Scale(normal, outlineSize)),
       Plus(Transform(v, size, offset), Scale(normal, outlineSize))]
    }

    /** `apply(vertices, size, outlineSize, offset)`: the four corners are
        pushed onto `vertices` in order, and nothing else changes. */
    method Apply(vertices: seq<Vec2>, size: real, outlineSize: real, offset: Vec2)
      returns (vertices': seq<Vec2>)
      ensures vertices' == vertices + Corners(size, outlineSize, offset)
    {
      var corners := Corners(size, outlineSize, offset);
      vertices' := vertices;
      for i := 0 to 4
        invariant vertices' == vertices + corners[..i]
      {
        assert corners[..i + 1] == corners[..i] + [corners[i]];
        vertices' := vertices' + [corners[i]];
      }
      assert corners[..4] == corners;
    }
  }

  /** The midpoint of two points. */
  function Mid(a: Vec2, b: Vec2): Vec2 { Scale(Plus(a, b), 0.5) }

  /** The quad `apply` builds is the transformed edge thickened by
      `outlineSize` on either side: corners 0 and 3 are symmetric about the
      transformed v, corners 1 and 2 about the transformed nv, and both
      rungs run along the normal, `2 * outlineSize` long. */
  lemma CornersStraddleEdge(q: OutlineQuad, size: real, outlineSize: real, offset: Vec2)
    ensures |q.Corners(size, outlineSize, offset)| == 4
    ensures Mid(q.Corners(size, outlineSize, offset)[0], q.Corners(size, outlineSize, offset)[3]) == Transform(q.v, size, offset)
    ensures Mid(q.Corners(size, outlineSize, offset)[1], q.Corners(size, outlineSize, offset)[2]) == Transform(q.nv, size, offset)
    ensures Minus(q.Corners(size, outlineSize, offset)[3], q.Corners(size, outlineSize, offset)[0]) == Scale(q.normal, 2.0 * outlineSize)
    ensures Minus(q.Corners(size, outlineSize, offset)[2], q.Corners(size, outlineSize, offset)[1]) == Scale(q.normal, 2.0 * outlineSize)
  {
  }

  /** The default constructor: every field the zero vector. */
  function DefaultOutlineQuad(): (q: OutlineQuad)
    ensures q.v == Vec2(0.0, 0.0) && q.nv == Vec2(0.0, 0.0) && q.normal == Vec2(0.0, 0.0)
  {
    OutlineQuad(Vec2(0.0, 0.0), Vec2(0.0, 0.0), Vec2(0.0, 0.0))
  }

  // ---------------------------------------------------------------------
  // What each push appends

  /** `pushIndices(newIndices, offset)`: each `newIndices[i] + offset` as a `uint32_t`, in order. */
  function Shifted(newIndices: seq<nat>, offset: nat): (r: seq<nat>)
    ensures |r| == |newIndices|
    ensures forall k | 0 <= k < |newIndices| :: r[k] == Bits.U32(newIndices[k] + offset)
  {
    if newIndices == [] then []
    else Shifted(newIndices[..|newIndices| - 1], offset) + [Bits.U32(newIndices[|newIndices| - 1] + offset)]
  }

  /** Fan triangle i from vertex `base`, in 32-bit arithmetic. */
  function FanIndices(base: int, i: int): seq<nat>
  {
    [Bits.U32(base), Bits.U32(base + i + 1), Bits.U32(base + i + 2)]
  }

  /** The two triangles over vertices x .. x + 3, in 32-bit arithmetic. */
  function QuadIndices(x: int): seq<nat>
  {
    [Bits.U32(x), Bits.U32(x + 1), Bits.U32(x + 2), Bits.U32(x), Bits.U32(x + 2), Bits.U32(x + 3)]
  }

  lemma ShiftedFan(base: int, i: nat)
    ensures Shifted([0, Bits.U32(i + 1), Bits.U32(i + 2)], Bits.U32(base)) == FanIndices(base, i)
  {
    var r := Shifted([0, Bits.U32(i + 1), Bits.U32(i + 2)], Bits.U32(base));
    Bits.U32AddU32(0, base);
    Bits.U32AddU32(Bits.U32(i + 1), base);
    Bits.U32AddU32(base, i + 1);
    Bits.U32AddU32(Bits.U32(i + 2), base);
    Bits.U32AddU32(base, i + 2);
    assert r[0] == Bits.U32(base);
    assert r[1] == Bits.U32(base + i + 1);
    assert r[2] == Bits.U32(base + i + 2);
  }

  lemma ShiftedQuad(x: int)
    ensures Shifted(QUAD_INDICES, Bits.U32(x)) == QuadIndices(x)
  {
    var r := Shifted(QUAD_INDICES, Bits.U32(x));
    Bits.U32AddU32(0, x);
    Bits.U32AddU32(1, x);
    Bits.U32AddU32(2, x);
    Bits.U32AddU32(3, x);
    assert r[0] == Bits.U32(x) && r[1] == Bits.U32(x + 1) && r[2] == Bits.U32(x + 2);
    assert r[3] == Bits.U32(x) && r[4] == Bits.U32(x + 2) && r[5] == Bits.U32(x + 3);
  }

  /** How many times `for (uint32_t i = 0; i < vertexCount - 2; i++)` runs:
      the bound is unsigned, so fewer than two vertices wrap it round. */
  function FanCount(n: nat): nat
  {
    Bits.U32(n - 2)
  }

  /** The fan triangles i' < i. */
  function AppendFan(s: seq<nat>, base: int, i: nat): (r: seq<nat>)
    ensures |r| == |s| + 3 * i
  {
    if i == 0 then s else AppendFan(s, base, i - 1) + FanIndices(base, i - 1)
  }

  /** The indices of i quads laid out one after another from vertex `base`. */
  function AppendQuadRun(s: seq<nat>, base: int, i: nat): (r: seq<nat>)
    ensures |r| == |s| + 6 * i
  {
    if i == 0 then s else AppendQuadRun(s, base, i - 1) + QuadIndices(base + 4 * (i - 1))
  }

  /** The transformed positions of the first i vertices, `transformedPos`. */
  function Transformed(vs: seq<Vec2>, size: real, offset: Vec2, i: nat): (r: seq<Vec2>)
    requires i <= |vs|
    ensures |r| == i
  {
    if i == 0 then [] else Transformed(vs, size, offset, i - 1) + [Transform(vs[i - 1], size, offset)]
  }

  /** The quad of edge i, from vertex i to the next one, wrapping round to
      vertex 0, with `normalize` supplied by the caller. */
  function EdgeQuad(vs: seq<Vec2>, normalize: Vec2 -> Vec2, i: nat): OutlineQuad
    requires i < |vs|
  {
    OutlineQuad(vs[i], vs[(i + 1) % |vs|], Perpendicular(normalize(Minus(vs[(i + 1) % |vs|], vs[i]))))
  }

  /** The edge quads of the first i edges, `outlineVertices`. */
  function Quads(vs: seq<Vec2>, normalize: Vec2 -> Vec2, i: nat): (r: seq<OutlineQuad>)
    requires i <= |vs|
    ensures |r| == i
  {
    if i == 0 then [] else Quads(vs, normalize, i - 1) + [EdgeQuad(vs, normalize, i - 1)]
  }

  /** What `apply` appends for the first i quads. */
  function AppendQuadCoords(s: seq<Vec2>, qs: seq<OutlineQuad>, size: real, offset: Vec2, i: nat): (r: seq<Vec2>)
    requires i <= |qs|
    ensures |r| == |s| + 4 * i
  {
    if i == 0 then s else AppendQuadCoords(s, qs, size, offset, i - 1) + qs[i - 1].Corners(size, OUTLINE_SIZE, offset)
  }

  /** The outline-corner vertices of the first i positions: each position four times. */
  function AppendCornerCoords(s: seq<Vec2>, ps: seq<Vec2>, i: nat): (r: seq<Vec2>)
    requires i <= |ps|
    ensures |r| == |s| + 4 * i
  {
    if i == 0 then s else Pad(AppendCornerCoords(s, ps, i - 1), ps[i - 1], 4)
  }

  /** The attribute bytes of i outline-corner groups. */
  function AppendPositions(s: seq<nat>, i: nat): (r: seq<nat>)
    ensures |r| == |s| + 4 * i
  {
    if i == 0 then s else AppendPositions(s, i - 1) + CORNER_POSITIONS
  }

  // The whole contribution of one polygon of n vertices, vector by vector.

  function PolygonCoords(s: seq<Vec2>, vs: seq<Vec2>, size: real, offset: Vec2, normalize: Vec2 -> Vec2): seq<Vec2>
  {
    AppendCornerCoords(
      AppendQuadCoords(s + Transformed(vs, size, offset, |vs|), Quads(vs, normalize, |vs|), size, offset, |vs|),
      Transformed(vs, size, offset, |vs|), |vs|)
  }

  function PolygonAttrs(s: seq<nat>, n: nat): seq<nat>
  {
    AppendPositions(Pad(s, PLAIN_VERTEX, 5 * n), n)
  }

  function PolygonColors(s: seq<Color>, color: Color, n: nat): seq<Color>
  {
    Pad(Pad(s, color, n), OUTLINE_COLOR, 8 * n)
  }

  function PolygonIndices(s: seq<nat>, base: int, n: nat): seq<nat>
  {
    OutlineIndices(AppendFan(s, base, FanCount(n)), base, n)
  }

  /** The edge-quad run, then the corner-quad run, of a polygon of n
      vertices whose body starts at vertex `base`. */
  function OutlineIndices(s: seq<nat>, base: int, n: nat): seq<nat>
  {
    AppendQuadRun(AppendQuadRun(s, base + n, n), base + 5 * n, n)
  }

  /** The fan of n vertices has n - 2 triangles, except that fewer than two
      vertices wrap the unsigned bound round to 2^32 - 2 + n. */
  lemma FanCountWraps(n: nat)
    requires n < Bits.TWO_32
    ensures FanCount(n) == if n >= 2 then n - 2 else Bits.TWO_32 - 2 + n
  {
  }

  /** A polygon of n vertices adds 9n entries to each per-vertex vector, and
      3 per fan triangle plus 12n to the index list. */
  lemma PolygonLengths(cs: seq<Vec2>, ats: seq<nat>, ks: seq<Color>, ix: seq<nat>,
                       vs: seq<Vec2>, size: real, offset: Vec2, color: Color, normalize: Vec2 -> Vec2)
    ensures |PolygonCoords(cs, vs, size, offset, normalize)| == |cs| + 9 * |vs|
    ensures |PolygonAttrs(ats, |vs|)| == |ats| + 9 * |vs|
    ensures |PolygonColors(ks, color, |vs|)| == |ks| + 9 * |vs|
    ensures |PolygonIndices(ix, |cs|, |vs|)| == |ix| + 3 * FanCount(|vs|) + 12 * |vs|
  {
    var n := |vs|;
    var ts := Transformed(vs, size, offset, n);
    var body := cs + ts;
    var quads := AppendQuadCoords(body, Quads(vs, normalize, n), size, offset, n);
    assert |quads| == |cs| + 5 * n;
    var fan := AppendFan(ix, |cs|, FanCount(n));
    var run := AppendQuadRun(fan, |cs| + n, n);
    assert |run| == |ix| + 3 * FanCount(n) + 6 * n;
  }

  // ---------------------------------------------------------------------
  // The batcher state

  class Batcher {
    var coords: seq<Vec2>
    var attrs: seq<nat>
    var colors: seq<Color>
    var indices: seq<nat>

    /** The three per-vertex vectors describe the same vertices. */
    ghost predicate Lockstep()
      reads this
    {
      |attrs| == |coords| && |colors| == |coords|
    }

    constructor ()
      ensures coords == [] && attrs == [] && colors == [] && indices == []
    {
      coords, attrs, colors, indices := [], [], [], [];
    }

    /** `pushIndices(newIndices, offset)`. */
    method PushIndices(newIndices: seq<nat>, offset: nat)
      modifies this`indices
      ensures indices == old(indices) + Shifted(newIndices, offset)
    {
      for i := 0 to |newIndices|
        invariant indices == old(indices) + Shifted(newIndices[..i], offset)
      {
        assert newIndices[..i + 1][..i] == newIndices[..i];
        indices := indices + [Bits.U32(newIndices[i] + offset)];
      }
      assert newIndices[..|newIndices|] == newIndices;
    }

    /** `addPolygonVertex(pos, color)`: one vertex, attribute 0x00. */
    method AddPolygonVertex(pos: Vec2, color: Color)
      modifies this`coords, this`attrs, this`colors
      ensures coords == old(coords) + [pos]
      ensures attrs == old(attrs) + [PLAIN_VERTEX]
      ensures colors == old(colors) + [color]
    {
      coords := coords + [pos];
      attrs := attrs + [PLAIN_VERTEX];
      colors := colors + [color];
    }

    /** `addOutlineVertices(offset, size)`: a quad's indices from the current
        vertex count, then four vertices at `offset` with the four corner
        positions and the outline colour; `size` is not used. */
    method AddOutlineVertices(offset: Vec2, size: real)
      modifies this`coords, this`attrs, this`colors, this`indices
      ensures coords == Pad(old(coords), offset, 4)
      ensures attrs == old(attrs) + CORNER_POSITIONS
      ensures colors == Pad(old(colors), OUTLINE_COLOR, 4)
      ensures indices == old(indices) + QuadIndices(old(|coords|))
    {
      ShiftedQuad(|coords|);
      PushIndices(QUAD_INDICES, Bits.U32(|coords|));
      for i := 0 to 4
        invariant coords == Pad(old(coords), offset, i)
        invariant attrs == old(attrs) + CORNER_POSITIONS[..i]
        invariant colors == Pad(old(colors), OUTLINE_COLOR, i)
        invariant indices == old(indices) + QuadIndices(old(|coords|))
      {
        assert CORNER_POSITIONS[..i + 1] == CORNER_POSITIONS[..i] + [CORNER_POSITIONS[i]];
        coords := coords + [offset];
        attrs := attrs + [CORNER_POSITIONS[i]];
        colors := colors + [OUTLINE_COLOR];
      }
      assert CORNER_POSITIONS[..4] == CORNER_POSITIONS;
    }

    /** `addPolygon(vertices, offset, size, color)`: the fan indices, the
        body vertices (remembering each edge's quad and each transformed
        position), the edge quads, then the outline corners. A vector of 2^32
        or more vertices is beyond `uint32_t vertexCount`. */
    method AddPolygon(vertices: seq<Vec2>, offset: Vec2, size: real, color: Color, normalize: Vec2 -> Vec2)
      requires |vertices| < Bits.TWO_32
      modifies this`coords, this`attrs, this`colors, this`indices
      ensures coords == PolygonCoords(old(coords), vertices, size, offset, normalize)
      ensures attrs == PolygonAttrs(old(attrs), |vertices|)
      ensures colors == PolygonColors(old(colors), color, |vertices|)
      ensures indices == PolygonIndices(old(indices), old(|coords|), |vertices|)
      ensures old(Lockstep()) ==> Lockstep()
    {
      var vertexCount := Bits.U32(|vertices|);
      Bits.U32Small(|vertices|);
      PushFan(vertexCount, |coords|);
      var outlineVertices, transformedPos := PushBody(vertices, offset, size, color, normalize);
      PushOutline(outlineVertices, transformedPos, size, offset, old(|coords|), |vertices|);
      PadPad(old(attrs), PLAIN_VERTEX, |vertices|, 4 * |vertices|, 5 * |vertices|);
    }

    /** The edge quads, then the outline corners, of a polygon whose body
        vertices start at vertex `base`. */
    method PushOutline(outlineVertices: seq<OutlineQuad>, transformedPos: seq<Vec2>, size: real, offset: Vec2,
                       ghost base: nat, ghost n: nat)
      requires |outlineVertices| == n && |transformedPos| == n && |coords| == base + n
      modifies this`coords, this`attrs, this`colors, this`indices
      ensures coords == AppendCornerCoords(AppendQuadCoords(old(coords), outlineVertices, size, offset, n), transformedPos, n)
      ensures attrs == AppendPositions(Pad(old(attrs), PLAIN_VERTEX, 4 * n), n)
      ensures colors == Pad(old(colors), OUTLINE_COLOR, 8 * n)
      ensures indices == OutlineIndices(old(indices), base, n)
    {
      PushQuads(outlineVertices, size, offset, base + n);
      PushCorners(transformedPos, size, base + 5 * n);
      PadPad(old(colors), OUTLINE_COLOR, 4 * n, 4 * n, 8 * n);
    }

    /** The fan: `pushIndices({0, i + 1, i + 2}, currentPositionsLength)`
        for `i < vertexCount - 2`, all in `uint32_t`. */
    method PushFan(vertexCount: nat, base: nat)
      modifies this`indices
      ensures indices == AppendFan(old(indices), base, FanCount(vertexCount))
    {
      var currentPositionsLength := Bits.U32(base);
      var i: nat := 0;
      while i < Bits.U32(vertexCount - 2)
        invariant i <= FanCount(vertexCount)
        invariant indices == AppendFan(old(indices), base, i)
      {
        ShiftedFan(base, i);
        PushIndices([0, Bits.U32(i + 1), Bits.U32(i + 2)], currentPositionsLength);
        i := i + 1;
      }
    }

    /** One body vertex per polygon vertex, remembering each edge's quad and
        each transformed position. */
    method PushBody(vertices: seq<Vec2>, offset: Vec2, size: real, color: Color, normalize: Vec2 -> Vec2)
      returns (outlineVertices: seq<OutlineQuad>, transformedPos: seq<Vec2>)
      modifies this`coords, this`attrs, this`colors
      ensures outlineVertices == Quads(vertices, normalize, |vertices|)
      ensures transformedPos == Transformed(vertices, size, offset, |vertices|)
      ensures coords == old(coords) + transformedPos
      ensures attrs == Pad(old(attrs), PLAIN_VERTEX, |vertices|)
      ensures colors == Pad(old(colors), color, |vertices|)
    {
      var vertexCount := |vertices|;
      outlineVertices, transformedPos := [], [];
      for i := 0 to vertexCount
        invariant outlineVertices == Quads(vertices, normalize, i)
        invariant transformedPos == Transformed(vertices, size, offset, i)
        invariant coords == old(coords) + transformedPos
        invariant attrs == Pad(old(attrs), PLAIN_VERTEX, i)
        invariant colors == Pad(old(colors), color, i)
      {
        var v := vertices[i];
        var nv := vertices[(i + 1) % vertexCount];
        var pos := Plus(Scale(v, size), offset);
        var grad := normalize(Minus(nv, v));
        var normal := Vec2(-grad.y, grad.x);
        assert OutlineQuad(v, nv, normal) == EdgeQuad(vertices, normalize, i);
        outlineVertices := outlineVertices + [OutlineQuad(v, nv, normal)];
        AddPolygonVertex(pos, color);
        transformedPos := transformedPos + [pos];
      }
    }

    /** `for (OutlineQuad& quad : outlineVertices)`: the quad's indices from
        the current vertex count, `quad.apply`, and four plain vertices in the
        outline colour. */
    method PushQuads(outlineVertices: seq<OutlineQuad>, size: real, offset: Vec2, ghost base: nat)
      requires base == |coords|
      modifies this`coords, this`attrs, this`colors, this`indices
      ensures coords == AppendQuadCoords(old(coords), outlineVertices, size, offset, |outlineVertices|)
      ensures attrs == Pad(old(attrs), PLAIN_VERTEX, 4 * |outlineVertices|)
      ensures colors == Pad(old(colors), OUTLINE_COLOR, 4 * |outlineVertices|)
      ensures indices == AppendQuadRun(old(indices), base, |outlineVertices|)
    {
      for k := 0 to |outlineVertices|
        invariant coords == AppendQuadCoords(old(coords), outlineVertices, size, offset, k)
        invariant attrs == Pad(old(attrs), PLAIN_VERTEX, 4 * k)
        invariant colors == Pad(old(colors), OUTLINE_COLOR, 4 * k)
        invariant indices == AppendQuadRun(old(indices), base, k)
      {
        assert |coords| == base + 4 * k;
        PushQuad(outlineVertices[k], size, offset);
        PadPad(old(attrs), PLAIN_VERTEX, 4 * k, 4, 4 * (k + 1));
        PadPad(old(colors), OUTLINE_COLOR, 4 * k, 4, 4 * (k + 1));
      }
    }

    /** One edge quad. */
    method PushQuad(quad: OutlineQuad, size: real, offset: Vec2)
      modifies this`coords, this`attrs, this`colors, this`indices
      ensures coords == old(coords) + quad.Corners(size, OUTLINE_SIZE, offset)
      ensures attrs == Pad(old(attrs), PLAIN_VERTEX, 4)
      ensures colors == Pad(old(colors), OUTLINE_COLOR, 4)
      ensures indices == old(indices) + QuadIndices(old(|coords|))
    {
      ShiftedQuad(|coords|);
      PushIndices(QUAD_INDICES, Bits.U32(|coords|));
      coords := quad.Apply(coords, size, OUTLINE_SIZE, offset);
      for i := 0 to 4
        invariant attrs == Pad(old(attrs), PLAIN_VERTEX, i)
        invariant colors == Pad(old(colors), OUTLINE_COLOR, i)
        invariant coords == old(coords) + quad.Corners(size, OUTLINE_SIZE, offset)
        invariant indices == old(indices) + QuadIndices(old(|coords|))
      {
        attrs := attrs + [PLAIN_VERTEX];
        colors := colors + [OUTLINE_COLOR];
      }
    }

    /** `for (glm::vec2& pos : transformedPos) addOutlineVertices(pos, size)`. */
    method PushCorners(transformedPos: seq<Vec2>, size: real, ghost base: nat)
      requires base == |coords|
      modifies this`coords, this`attrs, this`colors, this`indices
      ensures coords == AppendCornerCoords(old(coords), transformedPos, |transformedPos|)
      ensures attrs == AppendPositions(old(attrs), |transformedPos|)
      ensures colors == Pad(old(colors), OUTLINE_COLOR, 4 * |transformedPos|)
      ensures indices == AppendQuadRun(old(indices), base, |transformedPos|)
    {
      for k := 0 to |transformedPos|
        invariant coords == AppendCornerCoords(old(coords), transformedPos, k)
        invariant attrs == AppendPositions(old(attrs), k)
        invariant colors == Pad(old(colors), OUTLINE_COLOR, 4 * k)
        invariant indices == AppendQuadRun(old(indices), base, k)
      {
        assert |coords| == base + 4 * k;
        AddOutlineVertices(transformedPos[k], size);
        PadPad(old(colors), OUTLINE_COLOR, 4 * k, 4, 4 * (k + 1));
      }
    }

    /** `clearBuffers()`: the four vectors are emptied. */
    method ClearBuffers()
      modifies this`coords, this`attrs, this`colors, this`indices
      ensures coords == [] && attrs == [] && colors == [] && indices == []
      ensures Lockstep()
    {
      coords := [];
      attrs := [];
      colors := [];
      indices := [];
    }
  }
}
