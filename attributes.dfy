/** The host-side half of the attribute codec of the JavaScript renderer
    (src/utils.js): the four vertex kinds, the corner tables, the instance
    record and the outline quad that emits one edge's four vertices. */
module Attributes {
  import opened Common
  import Bits

  /** The vertex kinds, held in bits 0-1 of a vertex attribute. */
  const POLYGON_BODY: nat := 0x00
  const OUTLINE_CORNER: nat := 0x01
  const OUTLINE_QUAD: nat := 0x02
  const POLYGON_CIRCLE: nat := 0x03

  /** Corner index encodings (bits 2-3), in the order bottom-left, top-left, top-right, bottom-right. */
  const CORNER_COORD_ATTRS: seq<nat> := [0x00, 0x08, 0x0C, 0x04]

  /** The unit-square corners, in the same order. */
  const CORNER_COORDS: seq<Vec2> := [Vec2(-1.0, -1.0), Vec2(-1.0, 1.0), Vec2(1.0, 1.0), Vec2(1.0, -1.0)]

  predicate IsKind(k: nat) {
    k == POLYGON_BODY || k == OUTLINE_CORNER || k == OUTLINE_QUAD || k == POLYGON_CIRCLE
  }

  /** The four kinds are distinct and are exactly the values of a two-bit field. */
  lemma KindsAreTheTwoBitValues()
    ensures POLYGON_BODY != OUTLINE_CORNER && POLYGON_BODY != OUTLINE_QUAD && POLYGON_BODY != POLYGON_CIRCLE
    ensures OUTLINE_CORNER != OUTLINE_QUAD && OUTLINE_CORNER != POLYGON_CIRCLE && OUTLINE_QUAD != POLYGON_CIRCLE
    ensures forall k: nat :: IsKind(k) <==> k < 4
  {
  }

  /** Every corner encoding leaves bits 0-1 clear, uses only bits 2-3, the four
      are distinct, and bit 2 / bit 3 say whether the corner's x / y is +1. */
  lemma CornerTableAgreesWithCoords()
    ensures |CORNER_COORD_ATTRS| == 4 && |CORNER_COORDS| == 4
    ensures forall j | 0 <= j < 4 :: CORNER_COORD_ATTRS[j] % 4 == 0 && CORNER_COORD_ATTRS[j] < 16
    ensures forall i, j | 0 <= i < j < 4 :: CORNER_COORD_ATTRS[i] != CORNER_COORD_ATTRS[j]
    ensures forall j | 0 <= j < 4 ::
      ((CORNER_COORD_ATTRS[j] / 4) % 2 == 1 <==> CORNER_COORDS[j].x == 1.0) &&
      ((CORNER_COORD_ATTRS[j] / 8) % 2 == 1 <==> CORNER_COORDS[j].y == 1.0)
  {
  }

  /** The attribute pushed for corner j of a rounded-corner quad:
      `cornerCoordAttrs[j] | OUTLINE_CORNER`. The two parts share no bit, so
      the OR is their sum. */
  function CornerAttr(j: nat): (r: nat)
    requires j < 4
    ensures r == CORNER_COORD_ATTRS[j] + OUTLINE_CORNER
    ensures r % 4 == OUTLINE_CORNER && r / 4 == CORNER_COORD_ATTRS[j] / 4
  {
    Bits.Pow2Values();
    assert CORNER_COORD_ATTRS[j] == (CORNER_COORD_ATTRS[j] / 2) * Bits.Pow2(1);
    Bits.OrShifted(CORNER_COORD_ATTRS[j] / 2, 1, OUTLINE_CORNER);
    Bits.Or(CORNER_COORD_ATTRS[j], OUTLINE_CORNER)
  }

  /** Where one polygon's entries start in the flat buffers and how many there are. */
  datatype InstanceIndex = InstanceIndex(start: int, count: int)

  /** One polygon edge from `v` to `nv` with its outward direction angle. */
  datatype OutlineQuad = OutlineQuad(v: Vec2, nv: Vec2, direction: real) {

    /** The quad's corners v, nv, nv, v as x, y pairs. */
    function Corners(): seq<real>
    {
      [v.x, v.y, nv.x, nv.y, nv.x, nv.y, v.x, v.y]
    }

    /** The extrusion angles of those corners: the two on the inner side
        point the opposite way. */
    function Directions(): seq<real>
    {
      [direction + PI, direction + PI, direction, direction]
    }

    /** Appends the edge quad's four corners v, nv, nv, v (as x, y pairs) to
        `vertices` and their extrusion angles direction+pi (twice) then
        direction (twice) to `outlineDirections`; nothing else is touched. */
    method Apply(vertices: seq<real>, outlineDirections: seq<real>)
      returns (vertices': seq<real>, outlineDirections': seq<real>)
      ensures vertices' == vertices + Corners()
      ensures outlineDirections' == outlineDirections + Directions()
    {
      vertices' := vertices + [v.x, v.y];
      vertices' := vertices' + [nv.x, nv.y];
      vertices' := vertices' + [nv.x, nv.y];
      vertices' := vertices' + [v.x, v.y];
      outlineDirections' := outlineDirections;
      for i := 0 to 2
        invariant outlineDirections' == outlineDirections + Repeat(direction + PI, i)
      {
        outlineDirections' := outlineDirections' + [direction + PI];
      }
      for i := 0 to 2
        invariant outlineDirections' == outlineDirections + Repeat(direction + PI, 2) + Repeat(direction, i)
      {
        outlineDirections' := outlineDirections' + [direction];
      }
      assert Repeat(direction + PI, 2) == [direction + PI, direction + PI];
      assert Repeat(direction, 2) == [direction, direction];
    }
  }
}
