/** The first batcher, in app.js: a polygon contributes only its body, at
    most 255 vertices, as rounded screen coordinates with a colour each, a
    triangle fan of indices, and the rounded polygon offset once per vertex
    in `ov_offsets`. Index offsets are JavaScript numbers, `p_coords.length / 2`. */
module LegacyBatcher {
  import opened Common
  import JsColor
  import Batcher

  type Color = JsColor.Color
  type Channel = JsColor.Channel

  /** The most vertices one polygon may use. */
  const MAX_VERTICES: nat := 255

  /** The initial `ov_positions`: two triangles over the unit square. */
  const OV_POSITIONS: seq<Vec2> :=
    [Vec2(-1.0, -1.0), Vec2(-1.0, 1.0), Vec2(1.0, 1.0), Vec2(-1.0, -1.0), Vec2(1.0, 1.0), Vec2(1.0, -1.0)]

  /** `Math.min(vertices.length, 255)`. */
  function VertexCount(n: nat): (c: nat)
    ensures c <= n && c <= MAX_VERTICES
    ensures c == n || c == MAX_VERTICES
  {
    if n < MAX_VERTICES then n else MAX_VERTICES
  }

  /** How many times `for (i = 0; i < vertexCount - 2; i++)` runs. */
  function FanCount(c: nat): nat
  {
    if c >= 2 then c - 2 else 0
  }

  /** `pushIndices(newIndices, offset)` on JavaScript numbers. */
  function Shifted(newIndices: seq<real>, offset: real): (r: seq<real>)
    ensures |r| == |newIndices|
    ensures forall k | 0 <= k < |newIndices| :: r[k] == newIndices[k] + offset
  {
    if newIndices == [] then []
    else Shifted(newIndices[..|newIndices| - 1], offset) + [newIndices[|newIndices| - 1] + offset]
  }

  /** Fan triangle i from vertex `base`. */
  function FanIndices(base: real, i: nat): seq<real>
  {
    [base, base + (i + 1) as real, base + (i + 2) as real]
  }

  lemma ShiftedFan(base: real, i: nat)
    ensures Shifted([0.0, (i + 1) as real, (i + 2) as real], base) == FanIndices(base, i)
  {
    var r := Shifted([0.0, (i + 1) as real, (i + 2) as real], base);
    assert r[0] == base && r[1] == base + (i + 1) as real && r[2] == base + (i + 2) as real;
  }

  /** The fan triangles i' < i. */
  function AppendFan(s: seq<real>, base: real, i: nat): (r: seq<real>)
    ensures |r| == |s| + 3 * i
  {
    if i == 0 then s else AppendFan(s, base, i - 1) + FanIndices(base, i - 1)
  }

  /** `pos_`: vertex v scaled by `size` and moved by `offset`. */
  function Placed(v: Vec2, size: real, offset: Vec2): Vec2
  {
    Vec2(v.x * size + offset.x, v.y * size + offset.y)
  }

  /** The two coordinates `addSingleData` pushes for a position. */
  function Rounded(p: Vec2): seq<int>
  {
    [Round(p.x), Round(p.y)]
  }

  /** The rounded, scaled and offset positions of the first i vertices, as x, y pairs. */
  function AppendPositions(s: seq<int>, vs: seq<Vec2>, size: real, offset: Vec2, i: nat): (r: seq<int>)
    requires i <= |vs|
    ensures |r| == |s| + 2 * i
  {
    if i == 0 then s
    else
      AppendPositions(s, vs, size, offset, i - 1) + Rounded(Placed(vs[i - 1], size, offset))
  }

  /** `s` followed by n copies of the pair a, b. */
  function PadTwo(s: seq<int>, a: int, b: int, n: nat): (r: seq<int>)
    ensures |r| == |s| + 2 * n
  {
    if n == 0 then s else PadTwo(s, a, b, n - 1) + [a, b]
  }

  class LegacyBatcher {
    var coords: seq<int>
    var colors: seq<Channel>
    var indices: seq<real>
    var ovPositions: seq<Vec2>
    var ovOffsets: seq<int>

    /** Coordinates come in x, y pairs and colours in groups of four channels, one of each per vertex. */
    ghost predicate Lockstep()
      reads this
    {
      |coords| % 2 == 0 && |colors| == 2 * |coords|
    }

    constructor ()
      ensures coords == [] && colors == [] && indices == [] && ovOffsets == []
      ensures ovPositions == OV_POSITIONS
      ensures Lockstep()
    {
      coords, colors, indices := [], [], [];
      ovPositions, ovOffsets := OV_POSITIONS, [];
    }

    /** `addSingleData({pos, color})`: one rounded position and one colour. */
    method AddSingleData(pos: Vec2, color: Color)
      modifies this`coords, this`colors
      ensures coords == old(coords) + Rounded(pos)
      ensures colors == old(colors) + [color.r, color.g, color.b, color.a]
      ensures old(Lockstep()) ==> Lockstep()
    {
      coords := coords + [Round(pos.x), Round(pos.y)];
      colors := colors + [color.r, color.g, color.b, color.a];
    }

    /** `pushIndices(newIndices, offset)`. */
    method PushIndices(newIndices: seq<real>, offset: real)
      modifies this`indices
      ensures indices == old(indices) + Shifted(newIndices, offset)
    {
      var newIndicesCount := |newIndices|;
      for i := 0 to newIndicesCount
        invariant indices == old(indices) + Shifted(newIndices[..i], offset)
      {
        assert newIndices[..i + 1][..i] == newIndices[..i];
        indices := indices + [newIndices[i] + offset];
      }
      assert newIndices[..newIndicesCount] == newIndices;
    }

    /** `addPolygon({vertices, offset, size, color})`: the fan over the
        first min(n, 255) vertices, then those vertices' positions and
        colours, and the rounded offset once per vertex. */
    method AddPolygon(vertices: seq<Vec2>, offset: Vec2, size: real, color: Color)
      modifies this`coords, this`colors, this`indices, this`ovOffsets
      ensures coords == AppendPositions(old(coords), vertices, size, offset, VertexCount(|vertices|))
      ensures colors == Batcher.PadColor(old(colors), color, VertexCount(|vertices|))
      ensures ovOffsets == PadTwo(old(ovOffsets), Round(offset.x), Round(offset.y), VertexCount(|vertices|))
      ensures indices == AppendFan(old(indices), old(|coords|) as real / 2.0, FanCount(VertexCount(|vertices|)))
      ensures old(Lockstep()) ==> Lockstep()
    {
      var vertexCount := VertexCount(|vertices|);
      var currentPositionsLength := |coords| as real / 2.0;
      var i := 0;
      while i < vertexCount - 2
        invariant 0 <= i <= FanCount(vertexCount)
        invariant indices == AppendFan(old(indices), currentPositionsLength, i)
        invariant coords == old(coords) && colors == old(colors) && ovOffsets == old(ovOffsets)
      {
        ShiftedFan(currentPositionsLength, i);
        PushIndices([0.0, (i + 1) as real, (i + 2) as real], currentPositionsLength);
        i := i + 1;
      }
      for k := 0 to vertexCount
        invariant coords == AppendPositions(old(coords), vertices, size, offset, k)
        invariant colors == Batcher.PadColor(old(colors), color, k)
        invariant ovOffsets == PadTwo(old(ovOffsets), Round(offset.x), Round(offset.y), k)
        invariant indices == AppendFan(old(indices), currentPositionsLength, FanCount(vertexCount))
      {
        var pos := Placed(vertices[k], size, offset);
        AddSingleData(pos, color);
        ovOffsets := ovOffsets + [Round(offset.x), Round(offset.y)];
      }
    }

    /** `clearBuffers()`: all five arrays emptied, `ov_positions` included. */
    method ClearBuffers()
      modifies this`coords, this`colors, this`indices, this`ovPositions, this`ovOffsets
      ensures coords == [] && colors == [] && indices == [] && ovPositions == [] && ovOffsets == []
      ensures Lockstep()
    {
      coords := [];
      colors := [];
      indices := [];

      ovPositions := [];
      ovOffsets := [];
    }
  }

  // ---------------------------------------------------------------------
  // Lemmas

  /** A polygon adds two coordinates, four channels and two offsets per used
      vertex, so the arrays stay in lockstep, and three indices per fan
      triangle. */
  lemma PolygonLengths(cs: seq<int>, ks: seq<Channel>, os: seq<int>, ix: seq<real>,
                       vs: seq<Vec2>, size: real, offset: Vec2, color: Color, base: real)
    ensures |AppendPositions(cs, vs, size, offset, VertexCount(|vs|))| == |cs| + 2 * VertexCount(|vs|)
    ensures |Batcher.PadColor(ks, color, VertexCount(|vs|))| == |ks| + 4 * VertexCount(|vs|)
    ensures |PadTwo(os, Round(offset.x), Round(offset.y), VertexCount(|vs|))| == |os| + 2 * VertexCount(|vs|)
    ensures |AppendFan(ix, base, FanCount(VertexCount(|vs|)))| == |ix| + 3 * FanCount(VertexCount(|vs|))
    ensures |ks| == 2 * |cs| ==>
      |Batcher.PadColor(ks, color, VertexCount(|vs|))| == 2 * |AppendPositions(cs, vs, size, offset, VertexCount(|vs|))|
  {
  }

  /** Vertex k's entries are its own position, rounded, when k is one of the used vertices. */
  lemma {:induction false} PositionsLayout(s: seq<int>, vs: seq<Vec2>, size: real, offset: Vec2, i: nat)
    requires i <= |vs|
    ensures s <= AppendPositions(s, vs, size, offset, i)
    ensures forall k | 0 <= k < i ::
      AppendPositions(s, vs, size, offset, i)[|s| + 2 * k] == Round(vs[k].x * size + offset.x)
      && AppendPositions(s, vs, size, offset, i)[|s| + 2 * k + 1] == Round(vs[k].y * size + offset.y)
  {
    PositionsPrefix(s, vs, size, offset, i);
    forall k | 0 <= k < i
      ensures AppendPositions(s, vs, size, offset, i)[|s| + 2 * k] == Round(vs[k].x * size + offset.x)
      ensures AppendPositions(s, vs, size, offset, i)[|s| + 2 * k + 1] == Round(vs[k].y * size + offset.y)
    {
      PositionAt(s, vs, size, offset, i, k);
    }
  }

  lemma {:induction false} PositionsPrefix(s: seq<int>, vs: seq<Vec2>, size: real, offset: Vec2, i: nat)
    requires i <= |vs|
    ensures s <= AppendPositions(s, vs, size, offset, i)
  {
    if i > 0 {
      PositionsPrefix(s, vs, size, offset, i - 1);
    }
  }

  /** The entries of vertex k < i, by induction on i. */
  lemma {:induction false} PositionAt(s: seq<int>, vs: seq<Vec2>, size: real, offset: Vec2, i: nat, k: nat)
    requires k < i <= |vs|
    ensures AppendPositions(s, vs, size, offset, i)[|s| + 2 * k] == Round(vs[k].x * size + offset.x)
    ensures AppendPositions(s, vs, size, offset, i)[|s| + 2 * k + 1] == Round(vs[k].y * size + offset.y)
  {
    var prev := AppendPositions(s, vs, size, offset, i - 1);
    assert AppendPositions(s, vs, size, offset, i) == prev + Rounded(Placed(vs[i - 1], size, offset));
    if k < i - 1 {
      PositionAt(s, vs, size, offset, i - 1, k);
    }
  }

  /** Every instance offset pushed is the polygon's own rounded offset, and the earlier ones are kept. */
  lemma {:induction false} OffsetsLayout(s: seq<int>, a: int, b: int, n: nat)
    ensures s <= PadTwo(s, a, b, n)
    ensures forall k | 0 <= k < n :: PadTwo(s, a, b, n)[|s| + 2 * k] == a && PadTwo(s, a, b, n)[|s| + 2 * k + 1] == b
  {
    if n > 0 {
      OffsetsLayout(s, a, b, n - 1);
    }
  }

  /** Only the first 255 vertices matter: a longer polygon adds exactly what
      its first 255 vertices alone would. */
  lemma {:induction false} PositionsIgnoreTail(s: seq<int>, vs: seq<Vec2>, size: real, offset: Vec2, i: nat)
    requires i <= MAX_VERTICES < |vs|
    ensures AppendPositions(s, vs, size, offset, i) == AppendPositions(s, vs[..MAX_VERTICES], size, offset, i)
  {
    if i > 0 {
      PositionsIgnoreTail(s, vs, size, offset, i - 1);
      assert vs[..MAX_VERTICES][i - 1] == vs[i - 1];
    }
  }

  lemma CapIgnoresTail(s: seq<int>, vs: seq<Vec2>, size: real, offset: Vec2)
    requires |vs| > MAX_VERTICES
    ensures VertexCount(|vs|) == VertexCount(|vs[..MAX_VERTICES]|) == MAX_VERTICES
    ensures AppendPositions(s, vs, size, offset, VertexCount(|vs|))
         == AppendPositions(s, vs[..MAX_VERTICES], size, offset, VertexCount(|vs[..MAX_VERTICES]|))
  {
    PositionsIgnoreTail(s, vs, size, offset, MAX_VERTICES);
  }

  /** Every fan index lies in base .. base + i + 1, and the indices already present are kept. */
  lemma {:induction false} FanRange(s: seq<real>, base: real, i: nat)
    ensures s <= AppendFan(s, base, i)
    ensures forall m | |s| <= m < |AppendFan(s, base, i)| ::
      base <= AppendFan(s, base, i)[m] <= base + (i + 1) as real
  {
    if i > 0 {
      FanRange(s, base, i - 1);
    }
  }

  /** The fan of a polygon starting at vertex `base` names only its own used
      vertices base .. base + c - 1, and has c - 2 triangles when c >= 2. */
  lemma FanInRange(s: seq<real>, base: real, n: nat)
    ensures |AppendFan(s, base, FanCount(VertexCount(n)))| == |s| + 3 * FanCount(VertexCount(n))
    ensures VertexCount(n) >= 2 ==> FanCount(VertexCount(n)) == VertexCount(n) - 2
    ensures forall m | |s| <= m < |AppendFan(s, base, FanCount(VertexCount(n)))| ::
      base <= AppendFan(s, base, FanCount(VertexCount(n)))[m] < base + VertexCount(n) as real
  {
    FanRange(s, base, FanCount(VertexCount(n)));
  }
}
