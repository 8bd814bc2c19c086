/** The C++ colour of src/rgba_color.cpp: four `uint8_t` channels, the
    integer, unsigned and string constructors, the wrapping channel
    arithmetic, 32-bit packing and the name registry. */
module RgbaColor {
  import Bits
  import JsColor

  /** A `uint8_t`. */
  type Byte = x: int | 0 <= x < 256

  datatype Color = Color(r: Byte, g: Byte, b: Byte, a: Byte)

  /** `Color()`: the member initialisers in src/rgba_color.h, opaque black. */
  const DEFAULT: Color := Color(0, 0, 0, 255)

  /** The fallback `get_color` returns for an unknown name: transparent black. */
  const MISSING: Color := Color(0, 0, 0, 0)

  /** The conversion of an `int` to `uint8_t`: its residue modulo 256. */
  function ToByte(x: int): (b: Byte)
    ensures 0 <= x < 256 ==> b == x
  {
    x % 256
  }

  /** The stored byte differs from the argument by a multiple of 256. */
  lemma ToByteWraps(x: int)
    ensures exists k: int :: ToByte(x) == x + 256 * k
  {
    assert ToByte(x) == x + 256 * (-(x / 256));
  }

  /** `Color(int r, int g, int b, int a = 255)`: each argument is stored in a
      `uint8_t`, so it wraps modulo 256; arguments that fit are kept. */
  function FromInts(r: int, g: int, b: int, a: int): (c: Color)
    ensures 0 <= r < 256 && 0 <= g < 256 && 0 <= b < 256 && 0 <= a < 256 ==> c == Color(r, g, b, a)
  {
    Color(ToByte(r), ToByte(g), ToByte(b), ToByte(a))
  }

  // ---------------------------------------------------------------------
  // Channel arithmetic

  /** `operator+`: the four `int` sums through the integer constructor. */
  function Add(c1: Color, c2: Color): Color
  {
    FromInts(c1.r + c2.r, c1.g + c2.g, c1.b + c2.b, c1.a + c2.a)
  }

  /** `operator-`: the four `int` differences through the integer constructor. */
  function Subtract(c1: Color, c2: Color): Color
  {
    FromInts(c1.r - c2.r, c1.g - c2.g, c1.b - c2.b, c1.a - c2.a)
  }

  lemma ByteAddSub(x: Byte, y: Byte)
    ensures ToByte(ToByte(x + y) - y) == x
    ensures ToByte(ToByte(x - y) + y) == x
  {
    if x + y >= 256 {
      assert ToByte(x + y) == x + y - 256;
      assert ToByte(x + y - 256 - y) == x;
    }
    if x - y < 0 {
      assert ToByte(x - y) == x - y + 256;
      assert ToByte(x - y + 256 + y) == x;
    }
  }

  /** Channel arithmetic is addition modulo 256, lane by lane: subtracting
      undoes adding and the other way round, and adding is commutative. */
  lemma AddSubtractInverse(c1: Color, c2: Color)
    ensures Subtract(Add(c1, c2), c2) == c1
    ensures Add(Subtract(c1, c2), c2) == c1
    ensures Add(c1, c2) == Add(c2, c1)
  {
    AddThenSubtract(c1, c2);
    SubtractThenAdd(c1, c2);
  }

  lemma AddThenSubtract(c1: Color, c2: Color)
    ensures Subtract(Add(c1, c2), c2) == c1
  {
    var s := Add(c1, c2);
    ByteAddSub(c1.r, c2.r);
    ByteAddSub(c1.g, c2.g);
    ByteAddSub(c1.b, c2.b);
    ByteAddSub(c1.a, c2.a);
    assert s == Color(ToByte(c1.r + c2.r), ToByte(c1.g + c2.g), ToByte(c1.b + c2.b), ToByte(c1.a + c2.a));
  }

  lemma SubtractThenAdd(c1: Color, c2: Color)
    ensures Add(Subtract(c1, c2), c2) == c1
  {
    var d := Subtract(c1, c2);
    ByteAddSub(c1.r, c2.r);
    ByteAddSub(c1.g, c2.g);
    ByteAddSub(c1.b, c2.b);
    ByteAddSub(c1.a, c2.a);
    assert d == Color(ToByte(c1.r - c2.r), ToByte(c1.g - c2.g), ToByte(c1.b - c2.b), ToByte(c1.a - c2.a));
  }

  /** A `Color` object whose channels `+=` and `-=` update in place. */
  class ColorObject {
    var r: Byte
    var g: Byte
    var b: Byte
    var a: Byte

    function Value(): Color
      reads this
    {
      Color(r, g, b, a)
    }

    constructor (c: Color)
      ensures Value() == c
    {
      r, g, b, a := c.r, c.g, c.b, c.a;
    }

    /** `operator+=`: each `uint8_t` channel `+=` wraps; the result is `*this`. */
    method AddAssign(c: Color) returns (self: ColorObject)
      modifies this
      ensures Value() == Add(old(Value()), c)
      ensures self == this
    {
      r := ToByte(r + c.r);
      g := ToByte(g + c.g);
      b := ToByte(b + c.b);
      a := ToByte(a + c.a);
      self := this;
    }

    /** `operator-=`, the same with differences. */
    method SubtractAssign(c: Color) returns (self: ColorObject)
      modifies this
      ensures Value() == Subtract(old(Value()), c)
      ensures self == this
    {
      r := ToByte(r - c.r);
      g := ToByte(g - c.g);
      b := ToByte(b - c.b);
      a := ToByte(a - c.a);
      self := this;
    }
  }

  // ---------------------------------------------------------------------
  // 32-bit packing

  /** `x & 0xFF` is the low byte. */
  lemma LowByte(x: nat)
    ensures Bits.And(x, 0xFF) == x % 256
  {
    Bits.Pow2Values();
    Bits.AndLowMask(x, 8);
  }

  /** `Color(unsigned int rgba)`: r from the top byte down to a from the lowest. */
  function FromUint(rgba: nat): (c: Color)
    requires rgba < Bits.TWO_32
    ensures c.r == (rgba / JsColor.TWO_24) % 256 && c.g == (rgba / JsColor.TWO_16) % 256
    ensures c.b == (rgba / JsColor.TWO_8) % 256 && c.a == rgba % 256
  {
    Bits.Pow2Values();
    LowByte(rgba / Bits.Pow2(24));
    LowByte(rgba / Bits.Pow2(16));
    LowByte(rgba / Bits.Pow2(8));
    LowByte(rgba);
    Color(Bits.And(rgba / Bits.Pow2(24), 0xFF), Bits.And(rgba / Bits.Pow2(16), 0xFF),
          Bits.And(rgba / Bits.Pow2(8), 0xFF), Bits.And(rgba, 0xFF))
  }

  /** `pack_uint`: `(r << 24) | (g << 16) | (b << 8) | a`. */
  function PackUint(c: Color): nat
  {
    Bits.Or(Bits.Or(Bits.Or(c.r * JsColor.TWO_24, c.g * JsColor.TWO_16), c.b * JsColor.TWO_8), c.a)
  }

  /** The four fields share no bit, so the ORs are sums: the result is the
      32-bit number 0xRRGGBBAA. */
  lemma PackUintValue(c: Color)
    ensures PackUint(c) == ((c.r * 256 + c.g) * 256 + c.b) * 256 + c.a
    ensures PackUint(c) < Bits.TWO_32
  {
    Bits.Pow2Values();
    var rg := c.r * 256 + c.g;
    var rgb := rg * 256 + c.b;
    OrBelow(c.r, c.g * JsColor.TWO_16, 24, JsColor.TWO_24);
    var x1 := Bits.Or(c.r * JsColor.TWO_24, c.g * JsColor.TWO_16);
    assert x1 == rg * JsColor.TWO_16;
    OrBelow(rg, c.b * JsColor.TWO_8, 16, JsColor.TWO_16);
    var x2 := Bits.Or(x1, c.b * JsColor.TWO_8);
    assert x2 == rgb * JsColor.TWO_8;
    OrBelow(rgb, c.a, 8, JsColor.TWO_8);
  }

  /** OR with a value below 2^k adds it to a multiple of 2^k. */
  lemma OrBelow(hi: nat, v: nat, k: nat, p: nat)
    requires p == Bits.Pow2(k) && v < p
    ensures Bits.Or(hi * p, v) == hi * p + v
  {
    Bits.OrShifted(hi, k, v);
  }

  /** Round trip: unpacking what `pack_uint` produced gives the colour back. */
  lemma UintRoundTrip(c: Color)
    ensures PackUint(c) < Bits.TWO_32 && FromUint(PackUint(c)) == c
  {
    PackUintValue(c);
    var j := JsColor.Color(JsColor.Int(c.r), JsColor.Int(c.g), JsColor.Int(c.b), JsColor.Int(c.a));
    JsColor.BytesOfPack(j);
    assert JsColor.Pack(j) == PackUint(c);
  }

  // ---------------------------------------------------------------------
  // The string constructor and the registry

  /** `get_color(name)`: the registered colour, or transparent black. */
  function GetColor(cmap: map<string, Color>, name: string): (c: Color)
    ensures name in cmap ==> c == cmap[name]
    ensures name !in cmap ==> c == MISSING
  {
    if name in cmap then cmap[name] else FromInts(0, 0, 0, 0)
  }

  /** What the string constructor does: build a colour, throw
      `invalid_argument`, or something this model leaves open. */
  datatype Parsed = Built(c: Color) | InvalidArgument | Unmodelled

  /** `str[0]`; on the empty string that is the terminating '\0'. */
  function FirstChar(s: string): char
  {
    if |s| == 0 then '\0' else s[0]
  }

  /** One channel from two hex digits, as `%02x` reads it. */
  function HexByte(hi: char, lo: char): (v: Byte)
    requires JsColor.IsHexDigit(hi) && JsColor.IsHexDigit(lo)
  {
    16 * JsColor.HexDigitValue(hi) + JsColor.HexDigitValue(lo)
  }

  /** `Color(std::string)`: after '#' exactly eight hex digits RRGGBBAA (any
      other length throws); a leading digit selects the stream-extraction
      branch and a non-hex character the partial `sscanf`, both of which are
      outside this model; anything else is a registry name. */
  function FromString(cmap: map<string, Color>, s: string): Parsed
  {
    if FirstChar(s) == '#' then
      if |s| - 1 != 8 then InvalidArgument
      else if JsColor.AllHexDigits(s[1..]) then
        Built(Color(HexByte(s[1], s[2]), HexByte(s[3], s[4]), HexByte(s[5], s[6]), HexByte(s[7], s[8])))
      else Unmodelled
    else if '0' <= FirstChar(s) <= '9' then Unmodelled
    else Built(GetColor(cmap, s))
  }

  /** The string constructor's three outcomes, by the shape of the string. */
  lemma FromStringCases(cmap: map<string, Color>, s: string)
    ensures FirstChar(s) == '#' && |s| != 9 <==> FromString(cmap, s) == InvalidArgument
    ensures FirstChar(s) != '#' && !('0' <= FirstChar(s) <= '9') ==> FromString(cmap, s) == Built(GetColor(cmap, s))
    ensures |s| == 9 && s[0] == '#' && (forall k | 1 <= k < 9 :: JsColor.IsHexDigit(s[k])) ==>
      FromString(cmap, s) == Built(Color(HexByte(s[1], s[2]), HexByte(s[3], s[4]), HexByte(s[5], s[6]), HexByte(s[7], s[8])))
  {
    if |s| == 9 && s[0] == '#' && (forall k | 1 <= k < 9 :: JsColor.IsHexDigit(s[k])) {
      assert JsColor.AllHexDigits(s[1..]) by {
        forall k | 0 <= k < |s[1..]| ensures JsColor.IsHexDigit(s[1..][k]) {
          assert s[1..][k] == s[k + 1];
        }
      }
    }
  }

  /** The six-digit strings src/settings.cpp initialises its colours with
      are rejected: `Color("#dbdbdb")` throws. */
  lemma SixDigitHexThrows(cmap: map<string, Color>)
    ensures FromString(cmap, "#dbdbdb") == InvalidArgument
    ensures FromString(cmap, "#484848") == InvalidArgument
    ensures FromString(cmap, "#3ca4cb") == InvalidArgument
  {
  }

  /** The string constructor with `#RRGGBB` read as opaque `#RRGGBBFF`, as
      the JavaScript `Color` does; eight digits and the other branches are
      unchanged. */
  function FromStringCorrected(cmap: map<string, Color>, s: string): (p: Parsed)
    ensures |s| != 7 ==> p == FromString(cmap, s)
  {
    if |s| == 7 && s[0] == '#' then FromString(cmap, s + "FF") else FromString(cmap, s)
  }

  /** With the correction, the settings defaults parse to opaque colours. */
  lemma SixDigitHexCorrected(cmap: map<string, Color>)
    ensures FromStringCorrected(cmap, "#dbdbdb") == Built(Color(0xdb, 0xdb, 0xdb, 0xff))
    ensures FromStringCorrected(cmap, "#484848") == Built(Color(0x48, 0x48, 0x48, 0xff))
  {
    assert JsColor.AllHexDigits("dbdbdbFF");
    assert JsColor.AllHexDigits("484848FF");
  }

  /** `Color::uint(name)`: 0 for the empty name, else the packed registry colour. */
  function Uint(cmap: map<string, Color>, name: string): (u: nat)
    ensures u < Bits.TWO_32
  {
    if name == "" then 0 else PackUintValue(GetColor(cmap, name)); PackUint(GetColor(cmap, name))
  }

  /** `uint` unpacks to the registered colour; an unknown name and the empty
      name both give 0. */
  lemma UintOfName(cmap: map<string, Color>, name: string)
    ensures name != "" ==> FromUint(Uint(cmap, name)) == GetColor(cmap, name)
    ensures name !in cmap ==> Uint(cmap, name) == 0
  {
    PackUintValue(GetColor(cmap, name));
    UintRoundTrip(GetColor(cmap, name));
  }

  datatype UVec4 = UVec4(x: nat, y: nat, z: nat, w: nat)

  /** `uvec4_palette(a, b, c, d)`: the four names packed, in argument order. */
  function Uvec4Palette(cmap: map<string, Color>, a: string, b: string, c: string, d: string): UVec4
  {
    UVec4(Uint(cmap, a), Uint(cmap, b), Uint(cmap, c), Uint(cmap, d))
  }

  /** Each lane of the palette unpacks to its own name's colour. */
  lemma PaletteLanes(cmap: map<string, Color>, a: string, b: string, c: string, d: string)
    requires a != "" && b != "" && c != "" && d != ""
    ensures FromUint(Uvec4Palette(cmap, a, b, c, d).x) == GetColor(cmap, a)
    ensures FromUint(Uvec4Palette(cmap, a, b, c, d).y) == GetColor(cmap, b)
    ensures FromUint(Uvec4Palette(cmap, a, b, c, d).z) == GetColor(cmap, c)
    ensures FromUint(Uvec4Palette(cmap, a, b, c, d).w) == GetColor(cmap, d)
  {
    UintOfName(cmap, a);
    UintOfName(cmap, b);
    UintOfName(cmap, c);
    UintOfName(cmap, d);
  }
}
