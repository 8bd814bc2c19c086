/** The JavaScript `Color` of src/color.js: its constructor with the
    default, 32-bit, hex-string, colour-name and numeric branches; `add`,
    `subtract`, `toUint32` and `toHex`; and the static name registry `cmap`.
    A colour is a value: no operation changes a colour after construction. */
module JsColor {
  import opened Common
  import Bits

  /** A channel as this class holds it. Every constructor path yields an
      integer or NaN (parseInt, `>>`/`&`, Math.round, or an integral argument). */
  datatype Channel = Int(value: int) | NotANumber

  datatype Color = Color(r: Channel, g: Channel, b: Channel, a: Channel)

  /** A constructor argument: `undefined`, a number, a string, or any other value. */
  datatype Arg = Absent | Numeric(n: Number) | Str(s: string) | OtherValue

  /** The colour the constructor falls back to: opaque black. */
  const DEFAULT: Color := Color(Int(0), Int(0), Int(0), Int(255))

  const TWO_8: int := 0x100
  const TWO_16: int := 0x1_0000
  const TWO_24: int := 0x100_0000

  predicate IsByte(c: Channel) { c.Int? && 0 <= c.value < 256 }

  predicate IsByteColor(c: Color) { IsByte(c.r) && IsByte(c.g) && IsByte(c.b) && IsByte(c.a) }

  function AsNumber(c: Channel): Number
  {
    match c
    case Int(v) => Num(v as real)
    case NotANumber => NaN
  }

  // ---------------------------------------------------------------------
  // ECMAScript 32-bit integer operators

  /** ECMAScript ToInt32: NaN becomes 0, otherwise truncate and wrap to 32 bits. */
  function ToInt32(n: Number): (r: int)
    ensures -Bits.TWO_31 <= r < Bits.TWO_31
  {
    match n
    case NaN => 0
    case Num(x) => Bits.Int32(Trunc(x))
  }

  /** `a >> k` on an int32: arithmetic shift right, which is floor division by 2^k. */
  function Sar(a: int, k: nat): int
    requires k < 32
  {
    Bits.Int32(a) / Bits.Pow2(k)
  }

  /** `a << k` on an int32: the low 32 bits of a * 2^k, read as signed. */
  function Shl(a: int, k: nat): int
    requires k < 32
  {
    Bits.Int32(Bits.Int32(a) * Bits.Pow2(k))
  }

  /** `a & b` and `a | b` on int32 operands, computed on their 32-bit patterns. */
  function BitAnd(a: int, b: int): int
  {
    Bits.Int32(Bits.And(Bits.U32(a), Bits.U32(b)))
  }

  function BitOr(a: int, b: int): int
  {
    Bits.Int32(Bits.Or(Bits.U32(a), Bits.U32(b)))
  }

  // ---------------------------------------------------------------------
  // 32-bit packing

  /** The four bytes of a 32-bit pattern, most significant first. */
  function Bytes(u: int): Color
  {
    Color(Int((u / TWO_24) % 256), Int((u / TWO_16) % 256), Int((u / TWO_8) % 256), Int(u % 256))
  }

  /** The 32-bit pattern 0xRRGGBBAA of a colour with byte channels. */
  function Pack(c: Color): int
    requires IsByteColor(c)
  {
    ((c.r.value * 256 + c.g.value) * 256 + c.b.value) * 256 + c.a.value
  }

  lemma {:induction false} BytesOfPack(c: Color)
    requires IsByteColor(c)
    ensures 0 <= Pack(c) < Bits.TWO_32
    ensures Bytes(Pack(c)) == c
  {
    var r, g, b, a := c.r.value, c.g.value, c.b.value, c.a.value;
    var p := Pack(c);
    Bits.DivModUnique(p, TWO_24, r, (g * 256 + b) * 256 + a);
    Bits.DivModUnique(p, TWO_16, r * 256 + g, b * 256 + a);
    Bits.DivModUnique(p, TWO_8, (r * 256 + g) * 256 + b, a);
    Bits.DivModUnique(r * 256 + g, 256, r, g);
    Bits.DivModUnique((r * 256 + g) * 256 + b, 256, r * 256 + g, b);
    Bits.DivModUnique(p, 256, (r * 256 + g) * 256 + b, a);
  }

  lemma Int32Identity(x: int)
    requires -Bits.TWO_31 <= x < Bits.TWO_31
    ensures Bits.Int32(x) == x
  {
  }

  /** Dividing by p = 2^s (s a multiple of 8, below 32) and keeping the low
      byte reads the same byte of x and of its 32-bit pattern. */
  lemma WrapByte(x: int, p: int, m: int)
    requires p > 0 && m > 0 && p * m * 256 == Bits.TWO_32
    ensures (Bits.U32(x) / p) % 256 == (x / p) % 256
    ensures Bits.U32(x / p) % 256 == (x / p) % 256
  {
    var t := x / Bits.TWO_32;
    assert Bits.U32(x) == x + (-t * m * 256) * p by {
      assert x == t * Bits.TWO_32 + Bits.U32(x);
      assert t * Bits.TWO_32 == t * m * 256 * p;
    }
    Bits.DivModShift(x, -t * m * 256, p);
    var q := x / p;
    assert Bits.U32(x) / p == q + (-t * m) * 256;
    Bits.DivModShift(q, -t * m, 256);
    var t' := q / Bits.TWO_32;
    assert Bits.U32(q) == q + (-t' * TWO_24) * 256 by {
      assert q == t' * Bits.TWO_32 + Bits.U32(q);
    }
    Bits.DivModShift(q, -t' * TWO_24, 256);
  }

  /** `(x >> s) & 0xFF` for s a multiple of 8 below 32 is byte s/8 of x's 32-bit pattern. */
  lemma SarByte(x: int, s: nat, p: int, m: int)
    requires -Bits.TWO_31 <= x < Bits.TWO_31
    requires s < 32 && p == Bits.Pow2(s) && p * m * 256 == Bits.TWO_32 && m > 0
    ensures BitAnd(Sar(x, s), 0xFF) == (Bits.U32(x) / p) % 256
  {
    Int32Identity(x);
    var q := x / p;
    assert Sar(x, s) == q;
    assert -Bits.TWO_31 <= q < Bits.TWO_31 by {
      assert x == p * q + x % p && p >= 1;
    }
    LowByte(q);
    WrapByte(x, p, m);
  }

  /** `new Color(n)` for a single number: the four bytes of ToInt32(n), via `>>` and `& 0xFF`. */
  function FromUint32(n: Number): (c: Color)
    ensures c == Bytes(Bits.U32(ToInt32(n)))
    ensures IsByteColor(c)
  {
    var x := ToInt32(n);
    ByteLanes(x);
    Color(Int(BitAnd(Sar(x, 24), 0xFF)), Int(BitAnd(Sar(x, 16), 0xFF)),
          Int(BitAnd(Sar(x, 8), 0xFF)), Int(BitAnd(x, 0xFF)))
  }

  lemma ByteLanes(x: int)
    requires -Bits.TWO_31 <= x < Bits.TWO_31
    ensures BitAnd(Sar(x, 24), 0xFF) == (Bits.U32(x) / TWO_24) % 256
    ensures BitAnd(Sar(x, 16), 0xFF) == (Bits.U32(x) / TWO_16) % 256
    ensures BitAnd(Sar(x, 8), 0xFF) == (Bits.U32(x) / TWO_8) % 256
    ensures BitAnd(x, 0xFF) == Bits.U32(x) % 256
  {
    Bits.Pow2Values();
    SarByte(x, 24, TWO_24, 1);
    SarByte(x, 16, TWO_16, 256);
    SarByte(x, 8, TWO_8, TWO_16);
    LowByte(x);
  }

  /** `x & 0xFF` is the low byte of x's 32-bit pattern. */
  lemma LowByte(x: int)
    requires -Bits.TWO_31 <= x < Bits.TWO_31
    ensures BitAnd(x, 0xFF) == Bits.U32(x) % 256
  {
    Bits.Pow2Values();
    Bits.AndLowMask(Bits.U32(x), 8);
    assert Bits.U32(0xFF) == 0xFF;
    var m := Bits.U32(x) % 256;
    assert Bits.And(Bits.U32(x), Bits.U32(0xFF)) == m;
    Int32Identity(m);
  }

  /** `toUint32`: `(r << 24) | (g << 16) | (b << 8) | a`, a signed 32-bit result. */
  function ToUint32(c: Color): (u: int)
    ensures -Bits.TWO_31 <= u < Bits.TWO_31
  {
    BitOr(BitOr(BitOr(Shl(ToInt32(AsNumber(c.r)), 24), Shl(ToInt32(AsNumber(c.g)), 16)),
                Shl(ToInt32(AsNumber(c.b)), 8)),
          ToInt32(AsNumber(c.a)))
  }

  lemma IntegralToInt32(u: int)
    requires -Bits.TWO_31 <= u < Bits.TWO_31
    ensures ToInt32(Num(u as real)) == u
  {
    assert Trunc(u as real) == u;
    Int32Identity(u);
  }

  lemma ByteToInt32(c: Channel)
    requires IsByte(c)
    ensures ToInt32(AsNumber(c)) == c.value
  {
  }

  /** A shifted byte keeps its value as a 32-bit pattern. */
  lemma ShlByte(v: int, k: nat, p: int)
    requires 0 <= v < 256 && k < 32 && p == Bits.Pow2(k) && (p == TWO_8 || p == TWO_16 || p == TWO_24)
    ensures Bits.U32(Shl(v, k)) == v * p
  {
    Int32Identity(v);
    var z := v * p;
    assert 0 <= z < Bits.TWO_32 by {
      if p == TWO_8 { assert z == v * TWO_8; }
      else if p == TWO_16 { assert z == v * TWO_16; }
      else { assert z == v * TWO_24; }
    }
    assert Shl(v, k) == Bits.Int32(z);
    Bits.U32OfInt32(z);
    Bits.U32Small(z);
  }

  /** Appending a byte below a value shifted up by 8, at bit k. */
  lemma OrByte(x: nat, v: nat, k: nat)
    requires v < 256
    ensures Bits.Or(x * 256 * Bits.Pow2(k), v * Bits.Pow2(k)) == (x * 256 + v) * Bits.Pow2(k)
  {
    Bits.Pow2Values();
    Bits.OrScaled(x * 256, v, k);
    assert x * 256 == x * Bits.Pow2(8);
    Bits.OrShifted(x, 8, v);
  }

  /** `a | b` where the patterns' OR is a value o below 2^32 has pattern o. */
  lemma BitOrPattern(a: int, b: int, o: int)
    requires Bits.Or(Bits.U32(a), Bits.U32(b)) == o && o < Bits.TWO_32
    ensures Bits.U32(BitOr(a, b)) == o
  {
    Bits.U32OfInt32(o);
  }

  /** For byte channels the ORs never overlap, so `toUint32` is 0xRRGGBBAA as a 32-bit pattern. */
  lemma {:induction false} ToUint32Packs(c: Color)
    requires IsByteColor(c)
    ensures Bits.U32(ToUint32(c)) == Pack(c)
  {
    Bits.Pow2Values();
    var r, g, b, a := c.r.value, c.g.value, c.b.value, c.a.value;
    ByteToInt32(c.r); ByteToInt32(c.g); ByteToInt32(c.b); ByteToInt32(c.a);
    var sr, sg, sb := Shl(r, 24), Shl(g, 16), Shl(b, 8);
    ShlByte(r, 24, TWO_24); ShlByte(g, 16, TWO_16); ShlByte(b, 8, TWO_8);
    OrByteStep(sr, sg, r, g, 16, TWO_16);
    var x1 := BitOr(sr, sg);
    OrByteStep(x1, sb, r * 256 + g, b, 8, TWO_8);
    var x2 := BitOr(x1, sb);
    OrByteStep(x2, a, (r * 256 + g) * 256 + b, a, 0, 1);
  }

  /** One `|` of the packing: a byte ORed in just below a value shifted up by 8. */
  lemma OrByteStep(x: int, y: int, hi: nat, v: nat, k: nat, p: int)
    requires k < 32 && p == Bits.Pow2(k) && v < 256
    requires Bits.U32(x) == hi * 256 * p && Bits.U32(y) == v * p
    requires (hi * 256 + v) * p < Bits.TWO_32
    ensures Bits.U32(BitOr(x, y)) == (hi * 256 + v) * p
  {
    OrByte(hi, v, k);
    BitOrPattern(x, y, (hi * 256 + v) * p);
  }

  /** Round trip through `toUint32`: `new Color(c.toUint32())` is `c` for byte channels. */
  lemma Uint32RoundTrip(c: Color)
    requires IsByteColor(c)
    ensures FromUint32(Num(ToUint32(c) as real)) == c
  {
    var u := ToUint32(c);
    ToUint32Packs(c);
    BytesOfPack(c);
    IntegralToInt32(u);
    assert FromUint32(Num(u as real)) == Bytes(Bits.U32(u));
  }

  // ---------------------------------------------------------------------
  // Hex digits: Number.prototype.toString(16), padStart and parseInt(s, 16)

  const HEX_DIGITS: string := "0123456789abcdef"

  predicate IsHexDigit(ch: char) { '0' <= ch <= '9' || 'a' <= ch <= 'f' || 'A' <= ch <= 'F' }

  predicate AllHexDigits(s: string) { forall k | 0 <= k < |s| :: IsHexDigit(s[k]) }

  function HexDigitValue(ch: char): (v: nat)
    requires IsHexDigit(ch)
    ensures v < 16
  {
    if '0' <= ch <= '9' then ch as int - '0' as int
    else if 'a' <= ch <= 'f' then ch as int - 'a' as int + 10
    else ch as int - 'A' as int + 10
  }

  lemma HexDigitsDecode(k: nat)
    requires k < 16
    ensures |HEX_DIGITS| == 16 && IsHexDigit(HEX_DIGITS[k]) && HexDigitValue(HEX_DIGITS[k]) == k
  {
  }

  /** The value of a string of hex digits, most significant first. */
  function HexValue(z: string): nat
    requires AllHexDigits(z)
  {
    if z == [] then 0 else HexValue(z[..|z| - 1]) * 16 + HexDigitValue(z[|z| - 1])
  }

  /** `n.toString(16)` for a non-negative integer: lowercase digits, no leading zero. */
  function ToString16(n: nat): (s: string)
    ensures 1 <= |s| && forall k | 0 <= k < |s| :: s[k] in HEX_DIGITS
    ensures n < 16 <==> |s| == 1
  {
    if n < 16 then [HEX_DIGITS[n]] else ToString16(n / 16) + [HEX_DIGITS[n % 16]]
  }

  /** Reading the digits of `toString(16)` back gives the number. */
  lemma {:induction false} ToString16Value(n: nat)
    ensures AllHexDigits(ToString16(n)) && HexValue(ToString16(n)) == n
  {
    var s := ToString16(n);
    if n < 16 {
      HexDigitsDecode(n);
      assert s[..0] == [];
    } else {
      ToString16Value(n / 16);
      HexDigitsDecode(n % 16);
      assert s[..|s| - 1] == ToString16(n / 16);
    }
  }

  /** `toString(16)` of an integer channel (with a minus sign when negative), or "NaN". */
  function ChannelToString16(c: Channel): string
  {
    match c
    case NotANumber => "NaN"
    case Int(v) => if v < 0 then "-" + ToString16(-v) else ToString16(v)
  }

  /** `padStart(2, '0')`. */
  function PadStart2(s: string): (t: string)
    ensures |t| == if |s| >= 2 then |s| else 2
  {
    if |s| >= 2 then s else Repeat('0', 2 - |s|) + s
  }

  /** A byte renders as exactly its two lowercase hex digits. */
  lemma ByteHex(v: int)
    requires 0 <= v < 256
    ensures PadStart2(ChannelToString16(Int(v))) == [HEX_DIGITS[v / 16], HEX_DIGITS[v % 16]]
  {
    if v >= 16 {
      assert ToString16(v / 16) == [HEX_DIGITS[v / 16]];
    } else {
      assert Repeat('0', 1) == ['0'];
    }
  }

  /** StrWhiteSpaceChar of ECMAScript: white space and line terminators. */
  predicate IsStrWhiteSpace(ch: char)
  {
    ch in {'\t', '\n', '\U{B}', '\U{C}', '\r', ' ', '\U{A0}', '\U{1680}', '\U{2028}', '\U{2029}',
           '\U{202F}', '\U{205F}', '\U{3000}', '\U{FEFF}'}
    || '\U{2000}' <= ch <= '\U{200A}'
  }

  /** The string with its leading white space removed. */
  function TrimStart(s: string): string
  {
    if s != [] && IsStrWhiteSpace(s[0]) then TrimStart(s[1..]) else s
  }

  /** TrimStart removes exactly the leading run of white space. */
  lemma {:induction false} TrimStartSpec(s: string)
    ensures |TrimStart(s)| <= |s| && TrimStart(s) == s[|s| - |TrimStart(s)|..]
    ensures TrimStart(s) == [] || !IsStrWhiteSpace(TrimStart(s)[0])
    ensures forall k | 0 <= k < |s| - |TrimStart(s)| :: IsStrWhiteSpace(s[k])
  {
    if s != [] && IsStrWhiteSpace(s[0]) {
      var t := s[1..];
      TrimStartSpec(t);
      assert TrimStart(s) == TrimStart(t);
      assert t[|t| - |TrimStart(t)|..] == s[|s| - |TrimStart(s)|..];
      forall k | 1 <= k < |s| - |TrimStart(s)| ensures IsStrWhiteSpace(s[k]) {
        assert s[k] == t[k - 1];
      }
    }
  }

  /** The longest prefix made of hex digits. */
  function HexPrefix(s: string): (z: string)
    ensures AllHexDigits(z)
  {
    if s == [] || !IsHexDigit(s[0]) then [] else [s[0]] + HexPrefix(s[1..])
  }

  /** HexPrefix is a prefix, and the character after it (if any) is not a hex digit. */
  lemma {:induction false} HexPrefixSpec(s: string)
    ensures |HexPrefix(s)| <= |s| && HexPrefix(s) == s[..|HexPrefix(s)|]
    ensures |HexPrefix(s)| == |s| || !IsHexDigit(s[|HexPrefix(s)|])
  {
    if s != [] && IsHexDigit(s[0]) {
      HexPrefixSpec(s[1..]);
    }
  }

  /** `parseInt(s, 16)`: skip leading white space, take an optional sign and
      an optional `0x`/`0X` prefix, then the longest run of hex digits; NaN
      when that run is empty. The result is an integer or NaN. */
  function ParseInt16(s: string): Channel
  {
    ParseSigned(TrimStart(s))
  }

  function ParseSigned(t: string): Channel
  {
    if t != [] && t[0] == '-' then Negate(ParseUnsigned(t[1..]))
    else if t != [] && t[0] == '+' then ParseUnsigned(t[1..])
    else ParseUnsigned(t)
  }

  function Negate(c: Channel): Channel
  {
    match c
    case Int(v) => Int(-v)
    case NotANumber => NotANumber
  }

  function ParseUnsigned(u: string): Channel
  {
    var w := if |u| >= 2 && u[0] == '0' && (u[1] == 'x' || u[1] == 'X') then u[2..] else u;
    var z := HexPrefix(w);
    if z == [] then NotANumber else Int(HexValue(z))
  }

  lemma HexDigitIsNotSpace(ch: char)
    requires IsHexDigit(ch)
    ensures !IsStrWhiteSpace(ch) && ch != '-' && ch != '+' && ch != 'x' && ch != 'X'
  {
  }

  /** Two hex digits parse to 16 * first + second. */
  lemma ParseTwoHexDigits(hi: char, lo: char)
    requires IsHexDigit(hi) && IsHexDigit(lo)
    ensures ParseInt16([hi, lo]) == Int(16 * HexDigitValue(hi) + HexDigitValue(lo))
  {
    var s := [hi, lo];
    HexDigitIsNotSpace(hi);
    HexDigitIsNotSpace(lo);
    assert TrimStart(s) == s;
    assert ParseSigned(s) == ParseUnsigned(s);
    assert HexPrefix(s) == s by {
      assert HexPrefix(s[1..]) == [lo] by { assert s[1..][1..] == []; }
    }
    assert HexValue(s) == 16 * HexDigitValue(hi) + HexDigitValue(lo) by {
      assert s[..1] == [hi] && [hi][..0] == [];
      assert HexValue([hi]) == HexValue([]) * 16 + HexDigitValue(hi);
      assert HexValue(s) == HexValue([hi]) * 16 + HexDigitValue(lo);
    }
  }

  /** A string whose first character is not white space, a sign or a hex digit parses to NaN. */
  lemma ParseRejectsNonHex(s: string)
    requires s != [] && !IsStrWhiteSpace(s[0]) && s[0] != '-' && s[0] != '+' && !IsHexDigit(s[0])
    ensures ParseInt16(s) == NotANumber
  {
    assert TrimStart(s) == s;
  }

  lemma ParseByte(v: int)
    requires 0 <= v < 256
    ensures ParseInt16(PadStart2(ChannelToString16(Int(v)))) == Int(v)
  {
    ByteHex(v);
    HexDigitsDecode(v / 16);
    HexDigitsDecode(v % 16);
    ParseTwoHexDigits(HEX_DIGITS[v / 16], HEX_DIGITS[v % 16]);
  }

  // ---------------------------------------------------------------------
  // The constructor

  /** The '#' branch: `#RRGGBB` gets "FF" appended; any length other than
      nine then gives the default colour; otherwise each channel is
      parseInt of its own two characters. */
  function FromHex(s: string): Color
  {
    var s' := if |s| == 7 then s + "FF" else s;
    if |s'| != 9 then DEFAULT
    else Color(ParseInt16(s'[1..3]), ParseInt16(s'[3..5]), ParseInt16(s'[5..7]), ParseInt16(s'[7..9]))
  }

  /** The colour-name branch: a copy of the registered colour, or the default. */
  function FromName(cmap: map<string, Color>, name: string): Color
  {
    if name in cmap then cmap[name] else DEFAULT
  }

  /** `x % 1 === 0`: true exactly for integral finite numbers (NaN % 1 is NaN). */
  predicate IsIntegral(n: Number) { n.Num? && n.value.Floor as real == n.value }

  /** `Math.round(x * 255)`. */
  function RoundScaled(n: Number): Channel
  {
    match n
    case NaN => NotANumber
    case Num(x) => Int(Round(x * 255.0))
  }

  function IntegralChannel(n: Number): (c: Channel)
    requires IsIntegral(n)
    ensures AsNumber(c) == n
  {
    Int(n.value.Floor)
  }

  /** Four numbers: integral arguments are stored verbatim (no clamping);
      if any argument is not integral, all four are scaled by 255 and rounded. */
  function FromNumbers4(n1: Number, n2: Number, n3: Number, n4: Number): (c: Color)
    ensures IsIntegral(n1) && IsIntegral(n2) && IsIntegral(n3) && IsIntegral(n4) ==>
      AsNumber(c.r) == n1 && AsNumber(c.g) == n2 && AsNumber(c.b) == n3 && AsNumber(c.a) == n4
    ensures !(IsIntegral(n1) && IsIntegral(n2) && IsIntegral(n3) && IsIntegral(n4)) ==>
      c == Color(RoundScaled(n1), RoundScaled(n2), RoundScaled(n3), RoundScaled(n4))
  {
    if !IsIntegral(n1) || !IsIntegral(n2) || !IsIntegral(n3) || !IsIntegral(n4) then
      Color(RoundScaled(n1), RoundScaled(n2), RoundScaled(n3), RoundScaled(n4))
    else
      Color(IntegralChannel(n1), IntegralChannel(n2), IntegralChannel(n3), IntegralChannel(n4))
  }

  /** Three numbers: as with four, and alpha is always 255. */
  function FromNumbers3(n1: Number, n2: Number, n3: Number): (c: Color)
    ensures c.a == Int(255)
    ensures IsIntegral(n1) && IsIntegral(n2) && IsIntegral(n3) ==>
      AsNumber(c.r) == n1 && AsNumber(c.g) == n2 && AsNumber(c.b) == n3
    ensures !(IsIntegral(n1) && IsIntegral(n2) && IsIntegral(n3)) ==>
      c.r == RoundScaled(n1) && c.g == RoundScaled(n2) && c.b == RoundScaled(n3)
  {
    if !IsIntegral(n1) || !IsIntegral(n2) || !IsIntegral(n3) then
      Color(RoundScaled(n1), RoundScaled(n2), RoundScaled(n3), Int(255))
    else
      Color(IntegralChannel(n1), IntegralChannel(n2), IntegralChannel(n3), Int(255))
  }

  /** `new Color(arg1, arg2, arg3, arg4)`, reading the registry `cmap` in the name branch. */
  function Construct(cmap: map<string, Color>, arg1: Arg, arg2: Arg, arg3: Arg, arg4: Arg): Color
  {
    if arg1.Absent? then DEFAULT
    else if arg1.Numeric? && arg2.Absent? then FromUint32(arg1.n)
    else if arg1.Str? then
      (if |arg1.s| > 0 && arg1.s[0] == '#' then FromHex(arg1.s) else FromName(cmap, arg1.s))
    else if arg1.Numeric? && arg2.Numeric? && arg3.Numeric? then
      (if arg4.Numeric? then FromNumbers4(arg1.n, arg2.n, arg3.n, arg4.n)
       else FromNumbers3(arg1.n, arg2.n, arg3.n))
    else DEFAULT
  }

  /** Hex strings of the wrong length give the default colour, and
      `#RRGGBB` reads as `#RRGGBBFF`. */
  lemma HexLengths(cmap: map<string, Color>, s: string)
    requires |s| > 0 && s[0] == '#'
    ensures |s| != 7 && |s| != 9 ==> Construct(cmap, Str(s), Absent, Absent, Absent) == DEFAULT
    ensures |s| == 7 ==> Construct(cmap, Str(s), Absent, Absent, Absent) == FromHex(s + "FF")
    ensures |s| == 7 ==> Construct(cmap, Str(s), Absent, Absent, Absent).a == Int(255)
  {
    if |s| == 7 {
      var s' := s + "FF";
      assert s'[7..9] == "FF";
      ParseTwoHexDigits('F', 'F');
    }
  }

  /** Each channel of a nine-character hex string comes from its own two digits. */
  lemma HexDigitsParse(cmap: map<string, Color>, s: string)
    requires |s| == 9 && s[0] == '#' && forall k | 1 <= k < 9 :: IsHexDigit(s[k])
    ensures Construct(cmap, Str(s), Absent, Absent, Absent) ==
      Color(Int(16 * HexDigitValue(s[1]) + HexDigitValue(s[2])), Int(16 * HexDigitValue(s[3]) + HexDigitValue(s[4])),
            Int(16 * HexDigitValue(s[5]) + HexDigitValue(s[6])), Int(16 * HexDigitValue(s[7]) + HexDigitValue(s[8])))
  {
    HexBranch(cmap, s, Absent, Absent, Absent);
    NineCharHex(s);
    ParseSlices(s);
  }

  lemma ParseSlices(s: string)
    requires |s| == 9 && forall k | 1 <= k < 9 :: IsHexDigit(s[k])
    ensures ParseInt16(s[1..3]) == Int(16 * HexDigitValue(s[1]) + HexDigitValue(s[2]))
    ensures ParseInt16(s[3..5]) == Int(16 * HexDigitValue(s[3]) + HexDigitValue(s[4]))
    ensures ParseInt16(s[5..7]) == Int(16 * HexDigitValue(s[5]) + HexDigitValue(s[6]))
    ensures ParseInt16(s[7..9]) == Int(16 * HexDigitValue(s[7]) + HexDigitValue(s[8]))
  {
    forall i | i in {1, 3, 5, 7}
      ensures ParseInt16(s[i..i + 2]) == Int(16 * HexDigitValue(s[i]) + HexDigitValue(s[i + 1]))
    {
      ParseSlice(s, i);
    }
  }

  lemma NineCharHex(s: string)
    requires |s| == 9
    ensures FromHex(s) == Color(ParseInt16(s[1..3]), ParseInt16(s[3..5]), ParseInt16(s[5..7]), ParseInt16(s[7..9]))
  {
  }

  /** A string argument starting with '#' takes the hex branch, whatever the other arguments. */
  lemma HexBranch(cmap: map<string, Color>, s: string, arg2: Arg, arg3: Arg, arg4: Arg)
    requires |s| > 0 && s[0] == '#'
    ensures Construct(cmap, Str(s), arg2, arg3, arg4) == FromHex(s)
  {
  }

  lemma ParseSlice(s: string, i: nat)
    requires i + 2 <= |s| && IsHexDigit(s[i]) && IsHexDigit(s[i + 1])
    ensures ParseInt16(s[i..i + 2]) == Int(16 * HexDigitValue(s[i]) + HexDigitValue(s[i + 1]))
  {
    assert s[i..i + 2] == [s[i], s[i + 1]];
    ParseTwoHexDigits(s[i], s[i + 1]);
  }

  /** Three or four integral numbers are stored verbatim, without clamping;
      with three, alpha is 255. */
  lemma IntegerArgsVerbatim(cmap: map<string, Color>, r: int, g: int, b: int, a: int)
    ensures Construct(cmap, Numeric(Num(r as real)), Numeric(Num(g as real)), Numeric(Num(b as real)), Numeric(Num(a as real)))
      == Color(Int(r), Int(g), Int(b), Int(a))
    ensures Construct(cmap, Numeric(Num(r as real)), Numeric(Num(g as real)), Numeric(Num(b as real)), Absent)
      == Color(Int(r), Int(g), Int(b), Int(255))
  {
  }

  /** Fractional arguments in [0, 1] are scaled to byte channels. */
  lemma UnitArgsGiveBytes(x1: real, x2: real, x3: real, x4: real)
    requires 0.0 <= x1 <= 1.0 && 0.0 <= x2 <= 1.0 && 0.0 <= x3 <= 1.0 && 0.0 <= x4 <= 1.0
    requires !(IsIntegral(Num(x1)) && IsIntegral(Num(x2)) && IsIntegral(Num(x3)) && IsIntegral(Num(x4)))
    ensures IsByteColor(FromNumbers4(Num(x1), Num(x2), Num(x3), Num(x4)))
  {
  }

  /** The name branch and `getColor` agree: both give the registered colour
      or the same opaque-black fallback. */
  lemma NameBranchMatchesGetColor(cmap: map<string, Color>, name: string, arg2: Arg, arg3: Arg, arg4: Arg)
    requires |name| == 0 || name[0] != '#'
    ensures Construct(cmap, Str(name), arg2, arg3, arg4) == Lookup(cmap, name)
    ensures name !in cmap ==> Lookup(cmap, name) == DEFAULT
  {
  }

  // ---------------------------------------------------------------------
  // Arithmetic and serialisation

  /** `x + y` and `x - y` on channels read as numbers. */
  function Sum(x: Channel, y: Channel): Number
  {
    if x.Int? && y.Int? then Num((x.value + y.value) as real) else NaN
  }

  function Difference(x: Channel, y: Channel): Number
  {
    if x.Int? && y.Int? then Num((x.value - y.value) as real) else NaN
  }

  predicate AllInt(c: Color) { c.r.Int? && c.g.Int? && c.b.Int? && c.a.Int? }

  /** `add`: a new colour from the four sums. With integer channels it is
      componentwise addition without clamping; a NaN sum makes the
      constructor treat all four as fractions, scaling the others by 255. */
  function Add(c1: Color, c2: Color): (c: Color)
    ensures AllInt(c1) && AllInt(c2) ==>
      c == Color(Int(c1.r.value + c2.r.value), Int(c1.g.value + c2.g.value), Int(c1.b.value + c2.b.value), Int(c1.a.value + c2.a.value))
    ensures !(AllInt(c1) && AllInt(c2)) && c1.g.Int? && c2.g.Int? ==> c.g == Int(255 * (c1.g.value + c2.g.value))
  {
    FromNumbers4(Sum(c1.r, c2.r), Sum(c1.g, c2.g), Sum(c1.b, c2.b), Sum(c1.a, c2.a))
  }

  /** `subtract`: componentwise difference without clamping for integer channels. */
  function Subtract(c1: Color, c2: Color): (c: Color)
    ensures AllInt(c1) && AllInt(c2) ==>
      c == Color(Int(c1.r.value - c2.r.value), Int(c1.g.value - c2.g.value), Int(c1.b.value - c2.b.value), Int(c1.a.value - c2.a.value))
  {
    FromNumbers4(Difference(c1.r, c2.r), Difference(c1.g, c2.g), Difference(c1.b, c2.b), Difference(c1.a, c2.a))
  }

  /** Subtracting what was added gives back the original integer colour. */
  lemma AddSubtractInverse(c1: Color, c2: Color)
    requires AllInt(c1) && AllInt(c2)
    ensures Subtract(Add(c1, c2), c2) == c1
  {
  }

  /** `toHex`: `#rrggbb` when alpha is 255 and `#rrggbbaa` otherwise, each
      channel as lowercase `toString(16)` padded to two characters. */
  function ToHex(c: Color): string
  {
    "#" + PadStart2(ChannelToString16(c.r)) + PadStart2(ChannelToString16(c.g)) + PadStart2(ChannelToString16(c.b))
    + (if c.a == Int(255) then "" else PadStart2(ChannelToString16(c.a)))
  }

  /** For byte channels `toHex` is '#' and six or eight lowercase hex digits. */
  lemma ToHexShape(c: Color)
    requires IsByteColor(c)
    ensures |ToHex(c)| == if c.a == Int(255) then 7 else 9
    ensures ToHex(c)[0] == '#' && forall k | 1 <= k < |ToHex(c)| :: ToHex(c)[k] in HEX_DIGITS
  {
    ByteHex(c.r.value);
    ByteHex(c.g.value);
    ByteHex(c.b.value);
    ByteHex(c.a.value);
  }

  /** The hex branch reads its channels from consecutive two-character fields. */
  lemma FromHexFields(p1: string, p2: string, p3: string, p4: string)
    requires |p1| == 2 && |p2| == 2 && |p3| == 2 && |p4| == 2
    ensures FromHex("#" + p1 + p2 + p3 + p4) == Color(ParseInt16(p1), ParseInt16(p2), ParseInt16(p3), ParseInt16(p4))
    ensures FromHex("#" + p1 + p2 + p3) == Color(ParseInt16(p1), ParseInt16(p2), ParseInt16(p3), ParseInt16("FF"))
  {
    var s := "#" + p1 + p2 + p3 + p4;
    assert s[1..3] == p1 && s[3..5] == p2 && s[5..7] == p3 && s[7..9] == p4;
    var t := "#" + p1 + p2 + p3;
    var t' := t + "FF";
    assert |t| == 7;
    assert t'[1..3] == p1 && t'[3..5] == p2 && t'[5..7] == p3 && t'[7..9] == "FF";
  }

  /** Round trip through `toHex`: constructing from the string it produces
      gives back the colour, for byte channels (whatever the other arguments). */
  lemma HexRoundTrip(cmap: map<string, Color>, c: Color, arg2: Arg, arg3: Arg, arg4: Arg)
    requires IsByteColor(c)
    ensures Construct(cmap, Str(ToHex(c)), arg2, arg3, arg4) == c
  {
    var hr, hg, hb := PadStart2(ChannelToString16(c.r)), PadStart2(ChannelToString16(c.g)), PadStart2(ChannelToString16(c.b));
    var ha := PadStart2(ChannelToString16(c.a));
    ByteHex(c.r.value);
    ByteHex(c.g.value);
    ByteHex(c.b.value);
    ByteHex(c.a.value);
    ParseByte(c.r.value);
    ParseByte(c.g.value);
    ParseByte(c.b.value);
    ParseByte(c.a.value);
    FromHexFields(hr, hg, hb, ha);
    var s := ToHex(c);
    assert s[0] == '#';
    HexBranch(cmap, s, arg2, arg3, arg4);
    if c.a == Int(255) {
      assert s == "#" + hr + hg + hb;
      ParseTwoHexDigits('F', 'F');
    } else {
      assert s == "#" + hr + hg + hb + ha;
    }
  }

  /** The same for a single 32-bit number argument through the constructor. */
  lemma Uint32Construct(cmap: map<string, Color>, c: Color)
    requires IsByteColor(c)
    ensures Construct(cmap, Numeric(Num(ToUint32(c) as real)), Absent, Absent, Absent) == c
  {
    Uint32RoundTrip(c);
  }

  // ---------------------------------------------------------------------
  // The registry

  /** `getColor(name)`: the registered colour, or `new Color(0, 0, 0, 255)`. */
  function Lookup(cmap: map<string, Color>, name: string): (c: Color)
    ensures name in cmap ==> c == cmap[name]
    ensures name !in cmap ==> c == DEFAULT
  {
    if name in cmap then cmap[name] else FromNumbers4(Num(0.0), Num(0.0), Num(0.0), Num(255.0))
  }

  /** The static `Color.cmap` and the operations on it. */
  class ColorMap {
    var cmap: map<string, Color>

    constructor ()
      ensures cmap == map[]
    {
      cmap := map[];
    }

    function GetColor(name: string): (c: Color)
      reads this
      ensures c == Lookup(cmap, name)
    {
      Lookup(cmap, name)
    }

    /** `new Color(...)` against the current registry. */
    function New(arg1: Arg, arg2: Arg, arg3: Arg, arg4: Arg): Color
      reads this
    {
      Construct(cmap, arg1, arg2, arg3, arg4)
    }

    /** `addColor`: registers (or replaces) one name and leaves the others. */
    method AddColor(name: string, color: Color)
      modifies this
      ensures cmap == old(cmap)[name := color]
      ensures GetColor(name) == color
    {
      cmap := cmap[name := color];
    }

    /** `removeColor`: true exactly when the name was registered; it is absent afterwards. */
    method RemoveColor(name: string) returns (removed: bool)
      modifies this
      ensures removed <==> name in old(cmap)
      ensures cmap == old(cmap) - {name}
      ensures GetColor(name) == DEFAULT
    {
      removed := name in cmap;
      cmap := cmap - {name};
    }
  }
}
