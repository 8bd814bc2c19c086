/** The geometry batcher of src/app.js: one logical polygon or circle
    becomes entries in parallel per-vertex attribute arrays and a triangle
    index list, all global arrays that only ever grow until cleared. A
    polygon of N vertices contributes N body vertices (a triangle fan), four
    vertices per rounded corner and four per edge quad.

    What each operation appends is written as a function of the array's
    previous contents (`Common.Pad(s, x, n)` is `s` followed by n copies of x), so
    that each push is one unfolding; the lemmas further down restate those
    functions as "old contents + segment" and describe each segment. */
module Batcher {
  import opened Common
  import Attributes
  import JsColor

  type Color = JsColor.Color
  type Channel = JsColor.Channel
  type InstanceIndex = Attributes.InstanceIndex
  type OutlineQuad = Attributes.OutlineQuad

  /** The two triangles over four consecutive vertices. */
  const QUAD_INDICES: seq<int> := [0, 1, 2, 0, 2, 3]

  // ---------------------------------------------------------------------
  // What each push appends

  /** `s` followed by n copies of the pair v.x, v.y. */
  function PadPair(s: seq<real>, v: Vec2, n: nat): (r: seq<real>)
    ensures |r| == |s| + 2 * n
  {
    if n == 0 then s else PadPair(s, v, n - 1) + [v.x, v.y]
  }

  /** `s` followed by n copies of a colour's four channels. */
  function PadColor(s: seq<Channel>, c: Color, n: nat): (r: seq<Channel>)
    ensures |r| == |s| + 4 * n
  {
    if n == 0 then s else PadColor(s, c, n - 1) + [c.r, c.g, c.b, c.a]
  }

  /** `pushIndices(newIndices, offset)`: every new index shifted by `offset`, in order. */
  function Shifted(newIndices: seq<int>, offset: int): (r: seq<int>)
    ensures |r| == |newIndices|
    ensures forall k | 0 <= k < |newIndices| :: r[k] == newIndices[k] + offset
  {
    if newIndices == [] then []
    else Shifted(newIndices[..|newIndices| - 1], offset) + [newIndices[|newIndices| - 1] + offset]
  }

  /** Fan triangle k: `[0, k + 1, k + 2]` shifted by `base`. */
  function FanIndices(base: int, k: int): seq<int>
  {
    [base, base + k + 1, base + k + 2]
  }

  /** `quadIndices` shifted by x: the two triangles over vertices x .. x + 3. */
  function QuadIndices(x: int): seq<int>
  {
    [x, x + 1, x + 2, x, x + 2, x + 3]
  }

  lemma ShiftedFan(base: int, k: int)
    ensures Shifted([0, k + 1, k + 2], base) == FanIndices(base, k)
  {
    var r := Shifted([0, k + 1, k + 2], base);
    assert r[0] == base && r[1] == base + k + 1 && r[2] == base + k + 2;
  }

  lemma ShiftedQuad(x: int)
    ensures Shifted(QUAD_INDICES, x) == QuadIndices(x)
  {
    var r := Shifted(QUAD_INDICES, x);
    assert r[0] == x && r[1] == x + 1 && r[2] == x + 2 && r[3] == x && r[4] == x + 2 && r[5] == x + 3;
  }

  /** The fan triangles k < i. */
  function AppendFan(s: seq<int>, base: int, i: nat): (r: seq<int>)
    ensures |r| == |s| + 3 * i
  {
    if i == 0 then s else AppendFan(s, base, i - 1) + FanIndices(base, i - 1)
  }

  /** The indices of i quads laid out one after another from vertex `base`. */
  function AppendQuadRun(s: seq<int>, base: int, i: nat): (r: seq<int>)
    ensures |r| == |s| + 6 * i
  {
    if i == 0 then s else AppendQuadRun(s, base, i - 1) + QuadIndices(base + 4 * (i - 1))
  }

  /** The x, y pairs of the first i vertices. */
  function AppendBody(s: seq<real>, vs: seq<Vec2>, i: nat): (r: seq<real>)
    requires i <= |vs|
    ensures |r| == |s| + 2 * i
  {
    if i == 0 then s else AppendBody(s, vs, i - 1) + [vs[i - 1].x, vs[i - 1].y]
  }

  /** The corner quads of the first i vertices: each vertex four times. */
  function AppendCorners(s: seq<real>, vs: seq<Vec2>, i: nat): (r: seq<real>)
    requires i <= |vs|
    ensures |r| == |s| + 8 * i
  {
    if i == 0 then s else PadPair(AppendCorners(s, vs, i - 1), vs[i - 1], 4)
  }

  /** The attributes of the first j vertices of one corner quad. */
  function AppendCornerRow(s: seq<int>, j: nat): (r: seq<int>)
    requires j <= 4
    ensures |r| == |s| + j
  {
    if j == 0 then s else AppendCornerRow(s, j - 1) + [Attributes.CornerAttr(j - 1)]
  }

  /** The attributes of i corner quads. */
  function AppendCornerAttrs(s: seq<int>, i: nat): (r: seq<int>)
    ensures |r| == |s| + 4 * i
  {
    if i == 0 then s else AppendCornerRow(AppendCornerAttrs(s, i - 1), 4)
  }

  /** The outward direction of the edge v -> nv: `atan2(dy, dx) + PI / 2`,
      with `atan2` supplied by the caller. */
  function Direction(atan2: (real, real) -> real, v: Vec2, nv: Vec2): real
  {
    atan2(nv.y - v.y, nv.x - v.x) + PI / 2.0
  }

  /** The quad of edge i, from vertex i to the next one, wrapping round to vertex 0. */
  function EdgeQuad(vs: seq<Vec2>, atan2: (real, real) -> real, i: nat): OutlineQuad
    requires i < |vs|
  {
    Attributes.OutlineQuad(vs[i], vs[(i + 1) % |vs|], Direction(atan2, vs[i], vs[(i + 1) % |vs|]))
  }

  /** The edge quads of the first i edges, edge k running from vertex k to
      vertex k + 1, the last one wrapping round to vertex 0. */
  function Quads(vs: seq<Vec2>, atan2: (real, real) -> real, i: nat): (r: seq<OutlineQuad>)
    requires i <= |vs|
    ensures |r| == i
  {
    if i == 0 then [] else Quads(vs, atan2, i - 1) + [EdgeQuad(vs, atan2, i - 1)]
  }

  /** What `apply` appends to the coordinates for the first i quads. */
  function AppendQuadCoords(s: seq<real>, qs: seq<OutlineQuad>, i: nat): (r: seq<real>)
    requires i <= |qs|
    ensures |r| == |s| + 8 * i
  {
    if i == 0 then s
    else AppendQuadCoords(s, qs, i - 1) + qs[i - 1].Corners()
  }

  /** What `apply` appends to the outline directions for the first i quads. */
  function AppendQuadDirections(s: seq<real>, qs: seq<OutlineQuad>, i: nat): (r: seq<real>)
    requires i <= |qs|
    ensures |r| == |s| + 4 * i
  {
    if i == 0 then s
    else AppendQuadDirections(s, qs, i - 1) + qs[i - 1].Directions()
  }

  /** The number of fan triangles: `vertexCount - 2` iterations, none when that is negative. */
  function FanCount(n: nat): nat { if n >= 2 then n - 2 else 0 }

  /** The x, y pairs of the first j unit-square corners, the coordinates of a circle's quad. */
  function AppendCircleCoords(s: seq<real>, j: nat): (r: seq<real>)
    requires j <= 4
    ensures |r| == |s| + 2 * j
  {
    if j == 0 then s
    else AppendCircleCoords(s, j - 1) + [Attributes.CORNER_COORDS[j - 1].x, Attributes.CORNER_COORDS[j - 1].y]
  }

  /** `x += 0.01` on a JavaScript number. An array hole reads as undefined,
      and undefined + 0.01 is NaN, so holes are modelled as NaN. */
  function Inc(x: Number): Number
  {
    match x
    case Num(v) => Num(v + 0.01)
    case NaN => NaN
  }

  /** `p_rotations[k] += 0.01`: an existing entry is bumped; a write at or
      past the end grows the array to k + 1 entries, the new entry and any
      hole before it NaN; a negative k names a property, not an element. */
  function BumpAt(rs: seq<Number>, k: int): (r: seq<Number>)
    ensures |r| == if k >= |rs| then k + 1 else |rs|
  {
    if k < 0 then rs
    else if k < |rs| then rs[k := Inc(rs[k])]
    else rs + Repeat(NaN, k - |rs| + 1)
  }

  /** How many times `for (j = 0; j < count; j++)` runs. */
  function Steps(count: int): nat
  {
    if count > 0 then count else 0
  }

  /** The inner loop of `update()` after j steps: entries start .. start + j - 1 bumped in turn. */
  function BumpRange(rs: seq<Number>, start: int, j: nat): seq<Number>
  {
    if j == 0 then rs else BumpAt(BumpRange(rs, start, j - 1), start + j - 1)
  }

  /** The outer loop of `update()` over the instances `insts`, in order. */
  function BumpAll(rs: seq<Number>, insts: seq<InstanceIndex>): seq<Number>
  {
    if insts == [] then rs
    else BumpRange(BumpAll(rs, insts[..|insts| - 1]), insts[|insts| - 1].start, Steps(insts[|insts| - 1].count))
  }

  /** The instance ranges `insts` lie one after another, each with a
      non-negative count, the first starting at `lo` and the last ending at `hi`. */
  predicate Tiles(insts: seq<InstanceIndex>, lo: int, hi: int)
  {
    if insts == [] then hi == lo
    else
      insts[|insts| - 1].count >= 0
      && hi == insts[|insts| - 1].start + insts[|insts| - 1].count
      && Tiles(insts[..|insts| - 1], lo, insts[|insts| - 1].start)
  }

  // The whole contribution of one polygon of n vertices, array by array.

  function PolygonCoords(s: seq<real>, vs: seq<Vec2>, atan2: (real, real) -> real): seq<real>
  {
    AppendQuadCoords(AppendCorners(AppendBody(s, vs, |vs|), vs, |vs|), Quads(vs, atan2, |vs|), |vs|)
  }

  function PolygonDirections(s: seq<real>, vs: seq<Vec2>, atan2: (real, real) -> real): seq<real>
  {
    AppendQuadDirections(Pad(s, 0.0, 5 * |vs|), Quads(vs, atan2, |vs|), |vs|)
  }

  function PolygonAttrs(s: seq<int>, n: nat): seq<int>
  {
    Pad(AppendCornerAttrs(Pad(s, Attributes.POLYGON_BODY as int, n), n), Attributes.OUTLINE_QUAD as int, 4 * n)
  }

  function PolygonColors(s: seq<Channel>, color: Color, outlineColor: Color, n: nat): seq<Channel>
  {
    PadColor(PadColor(s, color, n), outlineColor, 8 * n)
  }

  function PolygonIndices(s: seq<int>, base: int, n: nat): seq<int>
  {
    OutlineIndices(AppendFan(s, base, FanCount(n)), base, n)
  }

  /** The corner-quad run, then the edge-quad run, of a polygon of n
      vertices whose body starts at vertex `base`. */
  function OutlineIndices(s: seq<int>, base: int, n: nat): seq<int>
  {
    AppendQuadRun(AppendQuadRun(s, base + n, n), base + 5 * n, n)
  }

  /** The random size, offset and colour `init()` draws for one shape. */
  datatype Draw = Draw(size: real, offset: Vec2, color: Color)

  /** The vertices one shape adds: 9 per polygon vertex, or a circle's 4. */
  function ShapeVertices(renderAsCircles: bool, n: nat): nat
  {
    if renderAsCircles then 4 else 9 * n
  }

  // ---------------------------------------------------------------------
  // The batcher state

  class Batcher {
    var coords: seq<real>
    var offsets: seq<real>
    var rotations: seq<Number>
    var sizes: seq<real>
    var outlineDirections: seq<real>
    var attrs: seq<int>
    var colors: seq<Channel>
    var indices: seq<int>
    var instanceIndices: seq<InstanceIndex>
    /** The global outline colour, `new Color("#484848")`. */
    const outlineColor: Color

    /** Coordinates come in x, y pairs. */
    ghost predicate Valid()
      reads this
    {
      |coords| % 2 == 0
    }

    /** The per-vertex arrays describe the same number of vertices. */
    ghost predicate Lockstep()
      reads this
    {
      var n := |coords| / 2;
      |coords| == 2 * n && |offsets| == 2 * n && |rotations| == n && |sizes| == n
      && |outlineDirections| == n && |attrs| == n && |colors| == 4 * n
    }

    /** Every index names an existing vertex. */
    ghost predicate IndicesInRange()
      reads this
    {
      forall k | 0 <= k < |indices| :: 0 <= indices[k] < |coords| / 2
    }

    constructor ()
      ensures coords == [] && offsets == [] && rotations == [] && sizes == []
      ensures outlineDirections == [] && attrs == [] && colors == [] && indices == [] && instanceIndices == []
      ensures outlineColor == JsColor.Construct(map[], JsColor.Str("#484848"), JsColor.Absent, JsColor.Absent, JsColor.Absent)
      ensures Valid() && Lockstep() && IndicesInRange()
    {
      coords, offsets, rotations, sizes := [], [], [], [];
      outlineDirections, attrs, colors, indices, instanceIndices := [], [], [], [], [];
      outlineColor := JsColor.Construct(map[], JsColor.Str("#484848"), JsColor.Absent, JsColor.Absent, JsColor.Absent);
    }

    /** `pushIndices(newIndices, offset)`. */
    method PushIndices(newIndices: seq<int>, offset: int)
      modifies this`indices
      ensures indices == old(indices) + Shifted(newIndices, offset)
    {
      for i := 0 to |newIndices|
        invariant indices == old(indices) + Shifted(newIndices[..i], offset)
      {
        assert newIndices[..i + 1][..i] == newIndices[..i];
        indices := indices + [newIndices[i] + offset];
      }
      assert newIndices[..|newIndices|] == newIndices;
    }

    /** `addPolygon({vertices, rotation, size, offset, color})`: the fan
        indices, then the body vertices, then a rounded-corner quad per
        vertex, then an edge quad per edge. */
    method AddPolygon(vertices: seq<Vec2>, rotation: Number, size: real, offset: Vec2, color: Color,
                      atan2: (real, real) -> real)
      requires Valid()
      modifies this`coords, this`offsets, this`rotations, this`sizes
      modifies this`outlineDirections, this`attrs, this`colors, this`indices
      ensures Valid()
      ensures coords == PolygonCoords(old(coords), vertices, atan2)
      ensures rotations == Pad(old(rotations), rotation, 9 * |vertices|)
      ensures sizes == Pad(old(sizes), size, 9 * |vertices|)
      ensures offsets == PadPair(old(offsets), offset, 9 * |vertices|)
      ensures outlineDirections == PolygonDirections(old(outlineDirections), vertices, atan2)
      ensures attrs == PolygonAttrs(old(attrs), |vertices|)
      ensures colors == PolygonColors(old(colors), color, outlineColor, |vertices|)
      ensures indices == PolygonIndices(old(indices), old(|coords|) / 2, |vertices|)
      ensures old(Lockstep()) ==> Lockstep()
    {
      var n := |vertices|;
      // 1. polygon itself
      var idx := |coords| / 2;
      PushFan(n, idx);
      ghost var fan := indices;
      var outlineQuads := PushBody(vertices, rotation, size, offset, color, atan2);
      // 2. outline corners
      ghost var b1 := |coords| / 2;
      PushCorners(vertices, rotation, size, offset);
      // 3. outline quads
      ghost var mid, b2 := indices, |coords| / 2;
      PushQuads(outlineQuads, rotation, size, offset);
      OutlineRuns(fan, mid, indices, idx, b1, b2, n);
      assert |coords| % 2 == 0;

      PadNine(old(rotations), rotation, n);
      PadNine(old(sizes), size, n);
      PadPairNine(old(offsets), offset, n);
      PadPad(old(outlineDirections), 0.0, n, 4 * n, 5 * n);
      PadColorPad(PadColor(old(colors), color, n), outlineColor, 4 * n, 4 * n, 8 * n);
    }

    /** `addCircle({size, offset, color})` as written: the quad's indices are
        offset by `p_coords.length`, a count of coordinates, not of vertices. */
    method AddCircle(size: real, offset: Vec2, color: Color)
      modifies this`coords, this`offsets, this`rotations, this`sizes
      modifies this`outlineDirections, this`attrs, this`colors, this`indices
      ensures coords == AppendCircleCoords(old(coords), 4)
      ensures rotations == Pad(old(rotations), Num(0.0), 4)
      ensures sizes == Pad(old(sizes), size, 4)
      ensures offsets == PadPair(old(offsets), offset, 4)
      ensures outlineDirections == Pad(old(outlineDirections), 0.0, 4)
      ensures attrs == Pad(old(attrs), Attributes.POLYGON_CIRCLE as int, 4)
      ensures colors == PadColor(old(colors), color, 4)
      ensures indices == old(indices) + QuadIndices(old(|coords|))
    {
      var idx := |coords|;
      PushCircle(idx, size, offset, color);
    }

    /** `addCircle` with the indices offset by the vertex count
        `p_coords.length / 2`, as `addPolygon` does: it keeps every index on
        an existing vertex. */
    method AddCircleCorrected(size: real, offset: Vec2, color: Color)
      modifies this`coords, this`offsets, this`rotations, this`sizes
      modifies this`outlineDirections, this`attrs, this`colors, this`indices
      ensures coords == AppendCircleCoords(old(coords), 4)
      ensures rotations == Pad(old(rotations), Num(0.0), 4)
      ensures sizes == Pad(old(sizes), size, 4)
      ensures offsets == PadPair(old(offsets), offset, 4)
      ensures outlineDirections == Pad(old(outlineDirections), 0.0, 4)
      ensures attrs == Pad(old(attrs), Attributes.POLYGON_CIRCLE as int, 4)
      ensures colors == PadColor(old(colors), color, 4)
      ensures indices == old(indices) + QuadIndices(old(|coords|) / 2)
      ensures old(Valid() && IndicesInRange()) ==> Valid() && IndicesInRange()
    {
      var idx := |coords| / 2;
      PushCircle(idx, size, offset, color);
    }

    /** The circle's quad: its indices from `idx`, then the four unit-square
        corners, unrotated, with the circle kind and the circle's colour. */
    method PushCircle(idx: int, size: real, offset: Vec2, color: Color)
      modifies this`coords, this`offsets, this`rotations, this`sizes
      modifies this`outlineDirections, this`attrs, this`colors, this`indices
      ensures coords == AppendCircleCoords(old(coords), 4)
      ensures rotations == Pad(old(rotations), Num(0.0), 4)
      ensures sizes == Pad(old(sizes), size, 4)
      ensures offsets == PadPair(old(offsets), offset, 4)
      ensures outlineDirections == Pad(old(outlineDirections), 0.0, 4)
      ensures attrs == Pad(old(attrs), Attributes.POLYGON_CIRCLE as int, 4)
      ensures colors == PadColor(old(colors), color, 4)
      ensures indices == old(indices) + QuadIndices(idx)
    {
      ShiftedQuad(idx);
      PushIndices(QUAD_INDICES, idx);
      for i := 0 to 4
        invariant coords == AppendCircleCoords(old(coords), i)
        invariant rotations == Pad(old(rotations), Num(0.0), i)
        invariant sizes == Pad(old(sizes), size, i)
        invariant offsets == PadPair(old(offsets), offset, i)
        invariant outlineDirections == Pad(old(outlineDirections), 0.0, i)
        invariant attrs == Pad(old(attrs), Attributes.POLYGON_CIRCLE as int, i)
        invariant colors == PadColor(old(colors), color, i)
        invariant indices == old(indices) + QuadIndices(idx)
      {
        coords := coords + [Attributes.CORNER_COORDS[i].x, Attributes.CORNER_COORDS[i].y];
        rotations := rotations + [Num(0.0)];
        sizes := sizes + [size];
        offsets := offsets + [offset.x, offset.y];

        outlineDirections := outlineDirections + [0.0];
        attrs := attrs + [Attributes.POLYGON_CIRCLE];
        colors := colors + [color.r, color.g, color.b, color.a];
      }
    }

    /** `clearBuffers()`: the eight vertex and index arrays are emptied; the
        instance list is left as it is. */
    method ClearBuffers()
      modifies this`coords, this`offsets, this`rotations, this`sizes
      modifies this`outlineDirections, this`attrs, this`colors, this`indices
      ensures coords == [] && offsets == [] && rotations == [] && sizes == []
      ensures outlineDirections == [] && attrs == [] && colors == [] && indices == []
      ensures Valid() && Lockstep() && IndicesInRange()
    {
      coords := [];
      rotations := [];
      sizes := [];
      offsets := [];

      outlineDirections := [];
      attrs := [];
      colors := [];

      indices := [];
    }

    /** `update()`: for each instance in turn, the rotations start ..
        start + count - 1 are bumped by 0.01, whatever the array's length. */
    method Update()
      modifies this`rotations
      ensures rotations == BumpAll(old(rotations), instanceIndices)
    {
      for i := 0 to |instanceIndices|
        invariant rotations == BumpAll(old(rotations), instanceIndices[..i])
      {
        assert instanceIndices[..i + 1][..i] == instanceIndices[..i];
        var j := 0;
        while j < instanceIndices[i].count
          invariant 0 <= j <= Steps(instanceIndices[i].count)
          invariant rotations == BumpRange(BumpAll(old(rotations), instanceIndices[..i]), instanceIndices[i].start, j)
        {
          var k := instanceIndices[i].start + j;
          if k < 0 {
          } else if k < |rotations| {
            rotations := rotations[k := Inc(rotations[k])];
          } else {
            rotations := rotations + Repeat(NaN, k - |rotations| + 1);
          }
          j := j + 1;
        }
      }
      assert instanceIndices[..|instanceIndices|] == instanceIndices;
    }

    /** The shape loop of `init()` as written: each shape's instance range
        starts at `p_coords.length` and counts the coordinates it added.
        `init()` runs once, on an empty instance list. */
    method InitShapes(vertices: seq<Vec2>, draws: seq<Draw>, renderAsCircles: bool,
                      atan2: (real, real) -> real)
      requires Valid() && Lockstep() && instanceIndices == []
      modifies this`coords, this`offsets, this`rotations, this`sizes
      modifies this`outlineDirections, this`attrs, this`colors, this`indices, this`instanceIndices
      ensures Valid() && Lockstep()
      ensures |instanceIndices| == |draws|
      ensures |rotations| == old(|rotations|) + |draws| * ShapeVertices(renderAsCircles, |vertices|)
      ensures Tiles(instanceIndices, old(|coords|), |coords|)
      ensures forall i | 0 <= i < |draws| :: instanceIndices[i].count == 2 * ShapeVertices(renderAsCircles, |vertices|)
    {
      var sv := ShapeVertices(renderAsCircles, |vertices|);
      var c := 2 * sv;
      for i := 0 to |draws|
        invariant Valid() && Lockstep()
        invariant |instanceIndices| == i
        invariant |rotations| == old(|rotations|) + i * sv
        invariant Tiles(instanceIndices, old(|coords|), |coords|)
        invariant forall k | 0 <= k < i :: instanceIndices[k].count == c
      {
        TilesSnoc(instanceIndices, old(|coords|), |coords|, c);
        AddShape(i, vertices, draws[i], renderAsCircles, atan2);
      }
    }

    /** One iteration of that loop: the instance record, the shape, then the record's count. */
    method AddShape(i: nat, vertices: seq<Vec2>, draw: Draw, renderAsCircles: bool,
                    atan2: (real, real) -> real)
      requires Valid() && Lockstep() && |instanceIndices| == i
      modifies this`coords, this`offsets, this`rotations, this`sizes
      modifies this`outlineDirections, this`attrs, this`colors, this`indices, this`instanceIndices
      ensures Valid() && Lockstep()
      ensures |coords| == old(|coords|) + 2 * ShapeVertices(renderAsCircles, |vertices|)
      ensures instanceIndices == old(instanceIndices)
        + [Attributes.InstanceIndex(old(|coords|), 2 * ShapeVertices(renderAsCircles, |vertices|))]
    {
      instanceIndices := instanceIndices + [Attributes.InstanceIndex(|coords|, 0)];
      AddOneShape(i, vertices, draw, renderAsCircles, false, atan2);
      instanceIndices := instanceIndices[i := Attributes.InstanceIndex(instanceIndices[i].start, |coords| - instanceIndices[i].start)];
    }

    /** The shape itself: shape i is a polygon of the given vertices, turned
        by i degrees, or a circle, drawn with `addCircle` as written or, when
        `fixCircle` is set, with the corrected offset. */
    method AddOneShape(i: nat, vertices: seq<Vec2>, draw: Draw, renderAsCircles: bool, fixCircle: bool,
                       atan2: (real, real) -> real)
      requires Valid() && Lockstep()
      modifies this`coords, this`offsets, this`rotations, this`sizes
      modifies this`outlineDirections, this`attrs, this`colors, this`indices
      ensures Valid() && Lockstep()
      ensures |coords| == old(|coords|) + 2 * ShapeVertices(renderAsCircles, |vertices|)
    {
      if !renderAsCircles {
        AddPolygon(vertices, Num(i as real * 2.0 * PI / 360.0), draw.size, draw.offset, draw.color, atan2);
      } else if !fixCircle {
        AddCircle(draw.size, draw.offset, draw.color);
      } else {
        AddCircleCorrected(draw.size, draw.offset, draw.color);
      }
    }

    /** The shape loop of `init()` with instance ranges in vertices, the unit
        `update()` indexes `p_rotations` by, and with the corrected circle. */
    method InitShapesByVertex(vertices: seq<Vec2>, draws: seq<Draw>, renderAsCircles: bool,
                              atan2: (real, real) -> real)
      requires Valid() && Lockstep() && instanceIndices == []
      modifies this`coords, this`offsets, this`rotations, this`sizes
      modifies this`outlineDirections, this`attrs, this`colors, this`indices, this`instanceIndices
      ensures Valid() && Lockstep()
      ensures |instanceIndices| == |draws|
      ensures |rotations| == old(|rotations|) + |draws| * ShapeVertices(renderAsCircles, |vertices|)
      ensures Tiles(instanceIndices, old(|rotations|), |rotations|)
      ensures forall i | 0 <= i < |draws| :: instanceIndices[i].count == ShapeVertices(renderAsCircles, |vertices|)
    {
      var c := ShapeVertices(renderAsCircles, |vertices|);
      for i := 0 to |draws|
        invariant Valid() && Lockstep()
        invariant |instanceIndices| == i
        invariant |rotations| == old(|rotations|) + i * c
        invariant Tiles(instanceIndices, old(|rotations|), |rotations|)
        invariant forall k | 0 <= k < i :: instanceIndices[k].count == c
      {
        TilesSnoc(instanceIndices, old(|rotations|), |rotations|, c);
        AddShapeByVertex(i, vertices, draws[i], renderAsCircles, atan2);
      }
    }

    /** One iteration of the corrected loop. */
    method AddShapeByVertex(i: nat, vertices: seq<Vec2>, draw: Draw, renderAsCircles: bool,
                            atan2: (real, real) -> real)
      requires Valid() && Lockstep() && |instanceIndices| == i
      modifies this`coords, this`offsets, this`rotations, this`sizes
      modifies this`outlineDirections, this`attrs, this`colors, this`indices, this`instanceIndices
      ensures Valid() && Lockstep()
      ensures |rotations| == old(|rotations|) + ShapeVertices(renderAsCircles, |vertices|)
      ensures instanceIndices == old(instanceIndices)
        + [Attributes.InstanceIndex(old(|rotations|), ShapeVertices(renderAsCircles, |vertices|))]
    {
      instanceIndices := instanceIndices + [Attributes.InstanceIndex(|coords| / 2, 0)];
      AddOneShape(i, vertices, draw, renderAsCircles, true, atan2);
      instanceIndices := instanceIndices[i := Attributes.InstanceIndex(instanceIndices[i].start, |coords| / 2 - instanceIndices[i].start)];
    }

    /** The fan: `for (i = 0; i < vertexCount - 2; i++) pushIndices([0, i+1, i+2], idx)`. */
    method PushFan(n: nat, idx: int)
      modifies this`indices
      ensures indices == AppendFan(old(indices), idx, FanCount(n))
    {
      var i := 0;
      while i < n - 2
        invariant 0 <= i <= FanCount(n)
        invariant indices == AppendFan(old(indices), idx, i)
      {
        ShiftedFan(idx, i);
        PushIndices([0, i + 1, i + 2], idx);
        i := i + 1;
      }
    }

    /** One body vertex per polygon vertex, remembering each edge's quad. */
    method PushBody(vertices: seq<Vec2>, rotation: Number, size: real, offset: Vec2, color: Color,
                    atan2: (real, real) -> real)
      returns (outlineQuads: seq<OutlineQuad>)
      modifies this`coords, this`offsets, this`rotations, this`sizes
      modifies this`outlineDirections, this`attrs, this`colors
      ensures outlineQuads == Quads(vertices, atan2, |vertices|)
      ensures coords == AppendBody(old(coords), vertices, |vertices|)
      ensures rotations == Pad(old(rotations), rotation, |vertices|)
      ensures sizes == Pad(old(sizes), size, |vertices|)
      ensures offsets == PadPair(old(offsets), offset, |vertices|)
      ensures outlineDirections == Pad(old(outlineDirections), 0.0, |vertices|)
      ensures attrs == Pad(old(attrs), Attributes.POLYGON_BODY as int, |vertices|)
      ensures colors == PadColor(old(colors), color, |vertices|)
    {
      var n := |vertices|;
      outlineQuads := [];
      for i := 0 to n
        invariant outlineQuads == Quads(vertices, atan2, i)
        invariant coords == AppendBody(old(coords), vertices, i)
        invariant rotations == Pad(old(rotations), rotation, i)
        invariant sizes == Pad(old(sizes), size, i)
        invariant offsets == PadPair(old(offsets), offset, i)
        invariant outlineDirections == Pad(old(outlineDirections), 0.0, i)
        invariant attrs == Pad(old(attrs), Attributes.POLYGON_BODY as int, i)
        invariant colors == PadColor(old(colors), color, i)
      {
        var v := vertices[i];
        var nv := vertices[(i + 1) % n];
        var outlineDirection := atan2(nv.y - v.y, nv.x - v.x) + PI / 2.0;
        assert Attributes.OutlineQuad(v, nv, outlineDirection) == EdgeQuad(vertices, atan2, i);
        outlineQuads := outlineQuads + [Attributes.OutlineQuad(v, nv, outlineDirection)];

        PushBodyVertex(v, rotation, size, offset, color);
      }
    }

    /** One body vertex with its polygon's rotation, size, offset and colour. */
    method PushBodyVertex(v: Vec2, rotation: Number, size: real, offset: Vec2, color: Color)
      modifies this`coords, this`offsets, this`rotations, this`sizes
      modifies this`outlineDirections, this`attrs, this`colors
      ensures coords == old(coords) + [v.x, v.y]
      ensures rotations == old(rotations) + [rotation]
      ensures sizes == old(sizes) + [size]
      ensures offsets == old(offsets) + [offset.x, offset.y]
      ensures outlineDirections == old(outlineDirections) + [0.0]
      ensures attrs == old(attrs) + [Attributes.POLYGON_BODY as int]
      ensures colors == old(colors) + [color.r, color.g, color.b, color.a]
    {
      coords := coords + [v.x, v.y];
      rotations := rotations + [rotation];
      sizes := sizes + [size];
      offsets := offsets + [offset.x, offset.y];

      outlineDirections := outlineDirections + [0.0];
      attrs := attrs + [Attributes.POLYGON_BODY];
      colors := colors + [color.r, color.g, color.b, color.a];
    }

    /** A rounded-corner quad per vertex: its indices, then four copies of the
        vertex, each with its corner attribute and the outline colour. */
    method PushCorners(vertices: seq<Vec2>, rotation: Number, size: real, offset: Vec2)
      modifies this`coords, this`offsets, this`rotations, this`sizes
      modifies this`outlineDirections, this`attrs, this`colors, this`indices
      ensures coords == AppendCorners(old(coords), vertices, |vertices|)
      ensures rotations == Pad(old(rotations), rotation, 4 * |vertices|)
      ensures sizes == Pad(old(sizes), size, 4 * |vertices|)
      ensures offsets == PadPair(old(offsets), offset, 4 * |vertices|)
      ensures outlineDirections == Pad(old(outlineDirections), 0.0, 4 * |vertices|)
      ensures attrs == AppendCornerAttrs(old(attrs), |vertices|)
      ensures colors == PadColor(old(colors), outlineColor, 4 * |vertices|)
      ensures indices == AppendQuadRun(old(indices), old(|coords|) / 2, |vertices|)
    {
      for i := 0 to |vertices|
        invariant coords == AppendCorners(old(coords), vertices, i)
        invariant rotations == Pad(old(rotations), rotation, 4 * i)
        invariant sizes == Pad(old(sizes), size, 4 * i)
        invariant offsets == PadPair(old(offsets), offset, 4 * i)
        invariant outlineDirections == Pad(old(outlineDirections), 0.0, 4 * i)
        invariant attrs == AppendCornerAttrs(old(attrs), i)
        invariant colors == PadColor(old(colors), outlineColor, 4 * i)
        invariant indices == AppendQuadRun(old(indices), old(|coords|) / 2, i)
      {
        QuadRunStep(old(indices), old(|coords|) / 2, i, |coords| / 2);
        PushIndices(QUAD_INDICES, |coords| / 2);
        PushCorner(vertices[i], rotation, size, offset);
        PadPad(old(rotations), rotation, 4 * i, 4, 4 * (i + 1));
        PadPad(old(sizes), size, 4 * i, 4, 4 * (i + 1));
        PadPairPad(old(offsets), offset, 4 * i, 4, 4 * (i + 1));
        PadPad(old(outlineDirections), 0.0, 4 * i, 4, 4 * (i + 1));
        PadColorPad(old(colors), outlineColor, 4 * i, 4, 4 * (i + 1));
      }
    }

    /** The four vertices of one rounded-corner quad. */
    method PushCorner(v: Vec2, rotation: Number, size: real, offset: Vec2)
      modifies this`coords, this`offsets, this`rotations, this`sizes
      modifies this`outlineDirections, this`attrs, this`colors
      ensures coords == PadPair(old(coords), v, 4)
      ensures rotations == Pad(old(rotations), rotation, 4)
      ensures sizes == Pad(old(sizes), size, 4)
      ensures offsets == PadPair(old(offsets), offset, 4)
      ensures outlineDirections == Pad(old(outlineDirections), 0.0, 4)
      ensures attrs == AppendCornerRow(old(attrs), 4)
      ensures colors == PadColor(old(colors), outlineColor, 4)
    {
      for j := 0 to 4
        invariant coords == PadPair(old(coords), v, j)
        invariant rotations == Pad(old(rotations), rotation, j)
        invariant sizes == Pad(old(sizes), size, j)
        invariant offsets == PadPair(old(offsets), offset, j)
        invariant outlineDirections == Pad(old(outlineDirections), 0.0, j)
        invariant attrs == AppendCornerRow(old(attrs), j)
        invariant colors == PadColor(old(colors), outlineColor, j)
      {
        coords := coords + [v.x, v.y];
        rotations := rotations + [rotation];
        sizes := sizes + [size];
        offsets := offsets + [offset.x, offset.y];

        outlineDirections := outlineDirections + [0.0];
        attrs := attrs + [Attributes.CornerAttr(j)];
        colors := colors + [outlineColor.r, outlineColor.g, outlineColor.b, outlineColor.a];
      }
    }

    /** `for (let quad of outlineQuads)`: the quad's indices, `quad.apply`, and
        four vertices' worth of the other attributes. */
    method PushQuads(outlineQuads: seq<OutlineQuad>, rotation: Number, size: real, offset: Vec2)
      modifies this`coords, this`offsets, this`rotations, this`sizes
      modifies this`outlineDirections, this`attrs, this`colors, this`indices
      ensures coords == AppendQuadCoords(old(coords), outlineQuads, |outlineQuads|)
      ensures rotations == Pad(old(rotations), rotation, 4 * |outlineQuads|)
      ensures sizes == Pad(old(sizes), size, 4 * |outlineQuads|)
      ensures offsets == PadPair(old(offsets), offset, 4 * |outlineQuads|)
      ensures outlineDirections == AppendQuadDirections(old(outlineDirections), outlineQuads, |outlineQuads|)
      ensures attrs == Pad(old(attrs), Attributes.OUTLINE_QUAD as int, 4 * |outlineQuads|)
      ensures colors == PadColor(old(colors), outlineColor, 4 * |outlineQuads|)
      ensures indices == AppendQuadRun(old(indices), old(|coords|) / 2, |outlineQuads|)
    {
      for k := 0 to |outlineQuads|
        invariant coords == AppendQuadCoords(old(coords), outlineQuads, k)
        invariant outlineDirections == AppendQuadDirections(old(outlineDirections), outlineQuads, k)
        invariant rotations == Pad(old(rotations), rotation, 4 * k)
        invariant sizes == Pad(old(sizes), size, 4 * k)
        invariant offsets == PadPair(old(offsets), offset, 4 * k)
        invariant attrs == Pad(old(attrs), Attributes.OUTLINE_QUAD as int, 4 * k)
        invariant colors == PadColor(old(colors), outlineColor, 4 * k)
        invariant indices == AppendQuadRun(old(indices), old(|coords|) / 2, k)
      {
        QuadRunStep(old(indices), old(|coords|) / 2, k, |coords| / 2);
        PushQuad(outlineQuads[k], rotation, size, offset);
        PadPad(old(rotations), rotation, 4 * k, 4, 4 * (k + 1));
        PadPad(old(sizes), size, 4 * k, 4, 4 * (k + 1));
        PadPairPad(old(offsets), offset, 4 * k, 4, 4 * (k + 1));
        PadPad(old(attrs), Attributes.OUTLINE_QUAD as int, 4 * k, 4, 4 * (k + 1));
        PadColorPad(old(colors), outlineColor, 4 * k, 4, 4 * (k + 1));
      }
    }

    /** One edge quad: its indices, `quad.apply`, and the rest of its four vertices. */
    method PushQuad(quad: OutlineQuad, rotation: Number, size: real, offset: Vec2)
      modifies this`coords, this`offsets, this`rotations, this`sizes
      modifies this`outlineDirections, this`attrs, this`colors, this`indices
      ensures coords == old(coords) + quad.Corners()
      ensures outlineDirections == old(outlineDirections) + quad.Directions()
      ensures rotations == Pad(old(rotations), rotation, 4)
      ensures sizes == Pad(old(sizes), size, 4)
      ensures offsets == PadPair(old(offsets), offset, 4)
      ensures attrs == Pad(old(attrs), Attributes.OUTLINE_QUAD as int, 4)
      ensures colors == PadColor(old(colors), outlineColor, 4)
      ensures indices == old(indices) + Shifted(QUAD_INDICES, old(|coords|) / 2)
    {
      PushIndices(QUAD_INDICES, |coords| / 2);
      coords, outlineDirections := quad.Apply(coords, outlineDirections);
      PushQuadRest(rotation, size, offset);
    }

    /** The rotations, sizes, offsets, attributes and colours of one edge quad's four vertices. */
    method PushQuadRest(rotation: Number, size: real, offset: Vec2)
      modifies this`offsets, this`rotations, this`sizes, this`attrs, this`colors
      ensures rotations == Pad(old(rotations), rotation, 4)
      ensures sizes == Pad(old(sizes), size, 4)
      ensures offsets == PadPair(old(offsets), offset, 4)
      ensures attrs == Pad(old(attrs), Attributes.OUTLINE_QUAD as int, 4)
      ensures colors == PadColor(old(colors), outlineColor, 4)
    {
      for i := 0 to 4
        invariant rotations == Pad(old(rotations), rotation, i)
        invariant sizes == Pad(old(sizes), size, i)
        invariant offsets == PadPair(old(offsets), offset, i)
        invariant attrs == Pad(old(attrs), Attributes.OUTLINE_QUAD as int, i)
        invariant colors == PadColor(old(colors), outlineColor, i)
      {
        rotations := rotations + [rotation];
        sizes := sizes + [size];
        offsets := offsets + [offset.x, offset.y];

        attrs := attrs + [Attributes.OUTLINE_QUAD];
        colors := colors + [outlineColor.r, outlineColor.g, outlineColor.b, outlineColor.a];
      }
    }
  }

  // ---------------------------------------------------------------------
  // Lemmas

  /** A polygon's body, corner and edge-quad vertices share one value. */
  lemma PadNine<T>(s: seq<T>, x: T, n: nat)
    ensures Pad(Pad(Pad(s, x, n), x, 4 * n), x, 4 * n) == Pad(s, x, 9 * n)
  {
    PadPad(s, x, n, 4 * n, 5 * n);
    PadPad(s, x, 5 * n, 4 * n, 9 * n);
  }

  lemma PadPairNine(s: seq<real>, v: Vec2, n: nat)
    ensures PadPair(PadPair(PadPair(s, v, n), v, 4 * n), v, 4 * n) == PadPair(s, v, 9 * n)
  {
    PadPairPad(s, v, n, 4 * n, 5 * n);
    PadPairPad(s, v, 5 * n, 4 * n, 9 * n);
  }

  lemma {:induction false} PadPairPad(s: seq<real>, v: Vec2, a: nat, b: nat, c: nat)
    requires c == a + b
    ensures PadPair(PadPair(s, v, a), v, b) == PadPair(s, v, c)
  {
    if b > 0 {
      PadPairPad(s, v, a, b - 1, c - 1);
    }
  }

  lemma {:induction false} PadColorPad(s: seq<Channel>, col: Color, a: nat, b: nat, c: nat)
    requires c == a + b
    ensures PadColor(PadColor(s, col, a), col, b) == PadColor(s, col, c)
  {
    if b > 0 {
      PadColorPad(s, col, a, b - 1, c - 1);
    }
  }

  /** One more range laid after the last. */
  lemma TilesSnoc(insts: seq<InstanceIndex>, lo: int, hi: int, c: int)
    requires Tiles(insts, lo, hi) && c >= 0
    ensures Tiles(insts + [Attributes.InstanceIndex(hi, c)], lo, hi + c)
  {
    assert (insts + [Attributes.InstanceIndex(hi, c)])[..|insts|] == insts;
  }

  /** One more quad of a run, whose first vertex is `off`. */
  lemma QuadRunStep(s: seq<int>, base: int, i: nat, off: int)
    requires off == base + 4 * i
    ensures AppendQuadRun(s, base, i) + Shifted(QUAD_INDICES, off) == AppendQuadRun(s, base, i + 1)
  {
    ShiftedQuad(off);
  }

  /** A corner-quad run from `b1` followed by an edge-quad run from `b2` is
      the outline of the polygon whose body starts at vertex `base`. */
  lemma OutlineRuns(s: seq<int>, mid: seq<int>, fin: seq<int>, base: int, b1: int, b2: int, n: nat)
    requires b1 == base + n && b2 == base + 5 * n
    requires mid == AppendQuadRun(s, b1, n) && fin == AppendQuadRun(mid, b2, n)
    ensures fin == OutlineIndices(s, base, n)
  {
  }

  /** Every polygon index lies between base and base + 9n, the vertices the
      polygon itself adds, and the indices already present are kept. */
  lemma {:induction false} PolygonIndicesInRange(s: seq<int>, base: int, n: nat)
    ensures |PolygonIndices(s, base, n)| == |s| + 3 * FanCount(n) + 12 * n
    ensures forall k | 0 <= k < |s| :: PolygonIndices(s, base, n)[k] == s[k]
    ensures forall k | |s| <= k < |PolygonIndices(s, base, n)| ::
      base <= PolygonIndices(s, base, n)[k] < base + 9 * n
  {
    var f := AppendFan(s, base, FanCount(n));
    var q1 := AppendQuadRun(f, base + n, n);
    FanRange(s, base, FanCount(n));
    QuadRunRange(f, base + n, n);
    QuadRunRange(q1, base + 5 * n, n);
  }

  lemma {:induction false} FanRange(s: seq<int>, base: int, i: nat)
    ensures forall k | 0 <= k < |s| :: AppendFan(s, base, i)[k] == s[k]
    ensures forall k | |s| <= k < |AppendFan(s, base, i)| :: base <= AppendFan(s, base, i)[k] <= base + i + 1
  {
    if i > 0 {
      FanRange(s, base, i - 1);
    }
  }

  lemma {:induction false} QuadRunRange(s: seq<int>, base: int, i: nat)
    ensures forall k | 0 <= k < |s| :: AppendQuadRun(s, base, i)[k] == s[k]
    ensures forall k | |s| <= k < |AppendQuadRun(s, base, i)| :: base <= AppendQuadRun(s, base, i)[k] < base + 4 * i
  {
    if i > 0 {
      QuadRunRange(s, base, i - 1);
    }
  }
}
