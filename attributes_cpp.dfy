/** The C++ twin of the attribute tables (src/utils.cpp): three vertex kinds
    (there is no circle kind in this version), the same corner tables, the
    32-bit instance record and the outline quad over vectors of `vec2`. */
module CppAttributes {
  import opened Common
  import Bits
  import Attributes

  /** The three `uint8_t` vertex kinds of the C++ version. */
  const POLYGON_BODY: nat := 0x00
  const OUTLINE_CORNER: nat := 0x01
  const OUTLINE_QUAD: nat := 0x02

  const CORNER_COORD_ATTRS: seq<nat> := [0x00, 0x08, 0x0C, 0x04]
  const CORNER_COORDS: seq<Vec2> := [Vec2(-1.0, -1.0), Vec2(-1.0, 1.0), Vec2(1.0, 1.0), Vec2(1.0, -1.0)]

  /** The C++ kinds are distinct bytes that coincide with the first three
      JavaScript kinds; the JavaScript circle kind has no C++ counterpart. */
  lemma KindsAgreeWithJs()
    ensures POLYGON_BODY != OUTLINE_CORNER && POLYGON_BODY != OUTLINE_QUAD && OUTLINE_CORNER != OUTLINE_QUAD
    ensures POLYGON_BODY < 256 && OUTLINE_CORNER < 256 && OUTLINE_QUAD < 256
    ensures POLYGON_BODY == Attributes.POLYGON_BODY && OUTLINE_CORNER == Attributes.OUTLINE_CORNER
    ensures OUTLINE_QUAD == Attributes.OUTLINE_QUAD
    ensures Attributes.POLYGON_CIRCLE !in {POLYGON_BODY, OUTLINE_CORNER, OUTLINE_QUAD}
  {
  }

  /** Both corner tables equal the JavaScript ones element by element. */
  lemma TablesAgreeWithJs()
    ensures |CORNER_COORD_ATTRS| == |Attributes.CORNER_COORD_ATTRS| == 4
    ensures |CORNER_COORDS| == |Attributes.CORNER_COORDS| == 4
    ensures forall j | 0 <= j < 4 :: CORNER_COORD_ATTRS[j] == Attributes.CORNER_COORD_ATTRS[j]
    ensures forall j | 0 <= j < 4 :: CORNER_COORDS[j] == Attributes.CORNER_COORDS[j]
  {
  }

  /** `InstanceIndex(uint32_t start, uint32_t count)`: both fields are 32-bit unsigned. */
  datatype InstanceIndex = InstanceIndex(start: nat, count: nat)

  /** The constructor converts its arguments to `uint32_t`, so each field is
      its argument modulo 2^32 and arguments already in range are kept. */
  function MakeInstanceIndex(start: int, count: int): (r: InstanceIndex)
    ensures r.start < Bits.TWO_32 && r.count < Bits.TWO_32
    ensures (r.start - start) % Bits.TWO_32 == 0 && (r.count - count) % Bits.TWO_32 == 0
    ensures 0 <= start < Bits.TWO_32 && 0 <= count < Bits.TWO_32 ==> r == InstanceIndex(start, count)
  {
    InstanceIndex(Bits.U32(start), Bits.U32(count))
  }

  datatype OutlineQuad = OutlineQuad(v: Vec2, nv: Vec2, direction: real) {

    /** `apply` pushes the four corners v, nv, nv, v onto `vertices` and the
        directions direction+pi (twice) then direction (twice) onto
        `outline_directions`, and touches nothing else. */
    method Apply(vertices: seq<Vec2>, outlineDirections: seq<real>)
      returns (vertices': seq<Vec2>, outlineDirections': seq<real>)
      ensures vertices' == vertices + [v, nv, nv, v]
      ensures outlineDirections' == outlineDirections + [direction + PI, direction + PI, direction, direction]
    {
      vertices' := vertices + [v];
      vertices' := vertices' + [nv];
      vertices' := vertices' + [nv];
      vertices' := vertices' + [v];
      outlineDirections' := outlineDirections;
      for i := 0 to 2
        invariant outlineDirections' == outlineDirections + Repeat(direction + PI, i)
      {
        outlineDirections' := outlineDirections' + [direction + PI];
      }
      for i := 0 to 2
        invariant outlineDirections' == outlineDirections + Repeat(direction + PI, 2) + Repeat(direction, i)
      {
        outlineDirections' := outlineDirections' + [direction];
      }
      assert Repeat(direction + PI, 2) == [direction + PI, direction + PI];
      assert Repeat(direction, 2) == [direction, direction];
    }
  }

  /** The default constructor: both vertices at the origin, direction 0. */
  function DefaultOutlineQuad(): (q: OutlineQuad)
    ensures q.v == Vec2(0.0, 0.0) && q.nv == Vec2(0.0, 0.0) && q.direction == 0.0
  {
    OutlineQuad(Vec2(0.0, 0.0), Vec2(0.0, 0.0), 0.0)
  }
}
