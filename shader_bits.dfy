/** The decode side of the attribute codec, as the GLSL of
    src/shaders/polygonShader.js writes it: bit tests and bit-field
    extraction on a 32-bit `uint`, and the two-bit kind switch of the vertex
    and fragment stages. Only the integer decoding is modelled; what each
    branch then computes in floating point is not. */
module PolygonShader {
  import opened Common
  import Bits
  import Attributes

  /** A GLSL `uint` value. */
  predicate IsUint(value: int) { 0 <= value < Bits.TWO_32 }

  /** `1u << uint(k)`; a GLSL shift by 32 or more is undefined, so k < 32. */
  function ShiftedOne(k: nat): (r: nat)
    requires k < 32
    ensures r == Bits.Pow2(k)
  {
    Bits.Pow2Below32(k);
    Bits.U32(Bits.Pow2(k))
  }

  /** `value >> uint(k)` on a `uint`, k < 32. */
  function ShiftedRight(value: nat, k: nat): (r: nat)
    requires k < 32
    ensures r == value / Bits.Pow2(k)
  {
    var p := Bits.Pow2(k);
    Bits.DivNonneg(value, p);
    value / p
  }

  /** `getBool`: is bit `bit` of `value` set. */
  function GetBool(value: nat, bit: int): (b: bool)
    requires IsUint(value) && 0 <= bit < 32
    ensures b <==> (value / Bits.Pow2(bit)) % 2 == 1
  {
    Bits.AndSingleBit(value, bit);
    Bits.And(value, ShiftedOne(bit)) != 0
  }

  /** `getInt`: 1 when the bit is set, 0 otherwise. */
  function GetInt(value: nat, bit: int): (r: int)
    requires IsUint(value) && 0 <= bit < 32
    ensures r == (value / Bits.Pow2(bit)) % 2
  {
    if GetBool(value, bit) then 1 else 0
  }

  /** `getUint`: the same bit as an unsigned value. */
  function GetUint(value: nat, bit: int): (r: nat)
    requires IsUint(value) && 0 <= bit < 32
    ensures r == (value / Bits.Pow2(bit)) % 2
  {
    if GetBool(value, bit) then 1 else 0
  }

  /** `getUintBits(value, start, end)`: the bit field start..end, both ends
      inclusive, shifted down to bit 0. Both shift amounts must stay below 32. */
  function GetUintBits(value: nat, start: int, end: int): (r: nat)
    requires IsUint(value) && 0 <= start < 32 && 0 <= end - start + 1 < 32
    ensures r == (value / Bits.Pow2(start)) % Bits.Pow2(end - start + 1)
    ensures r < Bits.Pow2(end - start + 1)
  {
    var q, w := ShiftedRight(value, start), end - start + 1;
    MaskField(q, w);
    Bits.And(q, Bits.U32(ShiftedOne(w) - 1))
  }

  /** `q & ((1u << width) - 1u)` keeps the low `width` bits of q. */
  lemma MaskField(q: nat, width: nat)
    requires width < 32
    ensures Bits.And(q, Bits.U32(ShiftedOne(width) - 1)) == q % Bits.Pow2(width)
    ensures q % Bits.Pow2(width) < Bits.Pow2(width)
  {
    Bits.Pow2Below32(width);
    Bits.U32Small(ShiftedOne(width) - 1);
    Bits.AndLowMask(q, width);
  }

  /** `getIntBits`: `int(getUintBits(...))`; the field is narrower than 32
      bits, so the signed conversion never changes it. */
  function GetIntBits(value: nat, start: int, end: int): (r: int)
    requires IsUint(value) && 0 <= start < 32 && 0 <= end - start + 1 < 32
    ensures r == GetUintBits(value, start, end)
    ensures 0 <= r < Bits.Pow2(end - start + 1)
  {
    var u := GetUintBits(value, start, end);
    Bits.Pow2Below32(end - start + 1);
    Bits.Int32Small(u);
    Bits.Int32(u)
  }

  /** The kind constants each stage declares (vertex stage, then fragment stage). */
  const VERT_KINDS: seq<nat> := [0, 1, 2, 3]
  const FRAG_KINDS: seq<nat> := [0, 1, 2, 3]

  /** Both stages declare the host's four kind values, in the host's order. */
  lemma StageConstantsMatchHost()
    ensures VERT_KINDS == FRAG_KINDS
    ensures VERT_KINDS == [Attributes.POLYGON_BODY, Attributes.OUTLINE_CORNER, Attributes.OUTLINE_QUAD, Attributes.POLYGON_CIRCLE]
  {
  }

  /** The `switch` cases of the polygon shader. */
  datatype Branch = Body | Corner | Quad | Circle | Default

  /** Which case a switch over `kind` with case labels `kinds` (body, corner,
      quad, circle, in that order) enters. */
  function Dispatch(kind: nat, kinds: seq<nat>): Branch
    requires |kinds| == 4
  {
    if kind == kinds[0] then Body
    else if kind == kinds[1] then Corner
    else if kind == kinds[2] then Quad
    else if kind == kinds[3] then Circle
    else Default
  }

  /** The branch of the vertex stage's `switch (getUintBits(v_attr, 0, 1))`. */
  function VertexBranch(attr: nat): (b: Branch)
    requires IsUint(attr)
    ensures b != Default
    ensures b == (match attr % 4 case 0 => Body case 1 => Corner case 2 => Quad case _ => Circle)
  {
    Bits.Pow2Values();
    Dispatch(GetUintBits(attr, 0, 1), VERT_KINDS)
  }

  /** The branch of the fragment stage's switch, over the same field. */
  function FragmentBranch(attr: nat): (b: Branch)
    requires IsUint(attr)
    ensures b != Default
  {
    Bits.Pow2Values();
    Dispatch(GetUintBits(attr, 0, 1), FRAG_KINDS)
  }

  /** The two stages always take the same case for the same attribute, and
      each of the host's kinds selects its own case in both. */
  lemma StagesAgree(attr: nat)
    requires IsUint(attr)
    ensures FragmentBranch(attr) == VertexBranch(attr)
    ensures attr % 4 == Attributes.OUTLINE_CORNER <==> VertexBranch(attr) == Corner
    ensures attr % 4 == Attributes.POLYGON_CIRCLE <==> VertexBranch(attr) == Circle
  {
    Bits.Pow2Values();
  }

  /** The corner offset of the OUTLINE_CORNER case: `2 * vec2(x, y) - 1` from bits 2 and 3. */
  function CornerOffset(attr: nat): (c: Vec2)
    requires IsUint(attr)
    ensures c.x == 1.0 || c.x == -1.0
    ensures c.y == 1.0 || c.y == -1.0
  {
    Vec2(2.0 * GetInt(attr, 2) as real - 1.0, 2.0 * GetInt(attr, 3) as real - 1.0)
  }

  /** Decoding the attribute the batcher writes for corner j of a
      rounded-corner quad yields the OUTLINE_CORNER case and exactly
      `cornerCoords[j]`. */
  lemma {:induction false} CornerRoundTrip(j: nat)
    requires j < 4
    ensures IsUint(Attributes.CornerAttr(j))
    ensures VertexBranch(Attributes.CornerAttr(j)) == Corner
    ensures FragmentBranch(Attributes.CornerAttr(j)) == Corner
    ensures CornerOffset(Attributes.CornerAttr(j)) == Attributes.CORNER_COORDS[j]
  {
    var a := Attributes.CornerAttr(j);
    Bits.Pow2Values();
    StagesAgree(a);
    assert GetInt(a, 2) == (a / 4) % 2;
    assert GetInt(a, 3) == (a / 8) % 2;
  }
}
