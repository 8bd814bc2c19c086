/** How the polygon fragment shader in glsl_main.js finds its vertices: the
    polygon's vertices sit in a texture, one per texel, row by row, and
    vertex number `index` is read at the texel `getTexCoord(index)`. The
    fragment copies its polygon's `o_polygon_length` vertices into the
    255-slot array `v`, and the distance function walks the edges of `v`
    as the pairs (i, j) with j the vertex before i. */
module VertexTexture {
  import opened Common
  import Bits

  /** The slots of `vec2 v[255]`. */
  const MAX_VERTICES: nat := 255

  /** GLSL `mod(x, y)`: x - y * floor(x / y). */
  function GlslMod(x: real, y: real): real
    requires y != 0.0
  {
    x - y * (x / y).Floor as real
  }

  /** The texel, before normalisation, that vertex `index` is stored in, for a texture `size.x` texels wide. */
  function Cell(index: nat, size: Vec2): Vec2
    requires size.x != 0.0
  {
    Vec2(GlslMod(index as real, size.x), (index as real / size.x).Floor as real)
  }

  /** `getTexCoord(index)`: the cell divided by the texture size. */
  function GetTexCoord(index: nat, size: Vec2): Vec2
    requires size.x > 0.0 && size.y > 0.0
  {
    var cell := Cell(index, size);
    Vec2(cell.x / size.x, cell.y / size.y)
  }

  /** Floor of an integer quotient taken on reals is the integer quotient. */
  lemma FloorOfQuotient(i: nat, w: nat)
    requires w > 0
    ensures (i as real / w as real).Floor == i / w
  {
    var q, r := i / w, i % w;
    assert i == q * w + r;
    assert i as real / w as real == q as real + r as real / w as real;
    assert 0.0 <= r as real / w as real < 1.0;
  }

  /** For an integral width w the cell is (index mod w, index div w), and
      index is recovered as y * w + x. */
  lemma CellOfIndex(index: nat, w: nat, size: Vec2)
    requires w > 0 && size.x == w as real
    ensures Cell(index, size) == Vec2((index % w) as real, (index / w) as real)
    ensures 0 <= index % w < w
    ensures index == (index / w) * w + index % w
  {
    FloorOfQuotient(index, w);
    var q := index / w;
    assert GlslMod(index as real, w as real) == index as real - w as real * q as real;
    assert index as real - w as real * q as real == (index - w * q) as real;
  }

  /** Distinct vertex numbers lie in distinct texels. */
  lemma CellInjective(i: nat, j: nat, w: nat, size: Vec2)
    requires w > 0 && size.x == w as real
    ensures Cell(i, size) == Cell(j, size) <==> i == j
  {
    CellOfIndex(i, w, size);
    CellOfIndex(j, w, size);
    if Cell(i, size) == Cell(j, size) {
      assert i % w == j % w && i / w == j / w;
    }
  }

  /** Distinct vertex numbers have distinct texture coordinates. */
  lemma TexCoordInjective(i: nat, j: nat, w: nat, size: Vec2)
    requires w > 0 && size.x == w as real && size.y > 0.0
    ensures GetTexCoord(i, size) == GetTexCoord(j, size) <==> i == j
  {
    CellInjective(i, j, w, size);
    var ci, cj := Cell(i, size), Cell(j, size);
    if GetTexCoord(i, size) == GetTexCoord(j, size) {
      assert ci.x / size.x == cj.x / size.x && ci.y / size.y == cj.y / size.y;
      assert ci.x == (ci.x / size.x) * size.x;
      assert cj.x == (cj.x / size.x) * size.x;
      assert ci.y == (ci.y / size.y) * size.y;
      assert cj.y == (cj.y / size.y) * size.y;
    }
  }

  /** In a w by h texture, every vertex number below w * h has its texture coordinate inside the unit square. */
  lemma TexCoordInUnitSquare(index: nat, w: nat, h: nat, size: Vec2)
    requires w > 0 && h > 0 && size == Vec2(w as real, h as real) && index < w * h
    ensures 0.0 <= GetTexCoord(index, size).x < 1.0
    ensures 0.0 <= GetTexCoord(index, size).y < 1.0
  {
    CellOfIndex(index, w, size);
    var q := index / w;
    assert q * w <= index;
    assert (h - q) * w > 0;
    UnitFraction(index % w, w);
    UnitFraction(q, h);
  }

  lemma UnitFraction(a: nat, b: nat)
    requires a < b
    ensures 0.0 <= a as real / b as real < 1.0
  {
  }

  /** `o_polygon_start_index + i` in GLSL `uint` arithmetic. */
  function VertexNumber(start: nat, i: nat): nat
  {
    Bits.U32(start + i)
  }

  /** The polygon's vertex numbers are pairwise distinct, wrap-around included, so each vertex comes from its own texel. */
  lemma VertexNumbersDistinct(start: nat, a: nat, b: nat)
    requires a < MAX_VERTICES && b < MAX_VERTICES && a != b
    ensures VertexNumber(start, a) != VertexNumber(start, b)
  {
    if a > b {
      U32Moves(start + b, a - b);
    } else {
      U32Moves(start + a, b - a);
    }
  }

  /** Adding a positive amount below 2^32 changes a 32-bit value. */
  lemma U32Moves(x: nat, d: nat)
    requires 0 < d < Bits.TWO_32
    ensures Bits.U32(x + d) != Bits.U32(x)
  {
    var q, r := x / Bits.TWO_32, x % Bits.TWO_32;
    if r + d < Bits.TWO_32 {
      Bits.DivModUnique(x + d, Bits.TWO_32, q, r + d);
    } else {
      Bits.DivModUnique(x + d, Bits.TWO_32, q + 1, r + d - Bits.TWO_32);
    }
  }

  /** The texels a polygon's vertices are read from are pairwise distinct. */
  lemma PolygonTexelsDistinct(start: nat, a: nat, b: nat, w: nat, size: Vec2)
    requires a < MAX_VERTICES && b < MAX_VERTICES && a != b
    requires w > 0 && size.x == w as real && size.y > 0.0
    ensures GetTexCoord(VertexNumber(start, a), size) != GetTexCoord(VertexNumber(start, b), size)
  {
    VertexNumbersDistinct(start, a, b);
    TexCoordInjective(VertexNumber(start, a), VertexNumber(start, b), w, size);
  }

  /** What `v[i]` receives: the xy of the texel sampled at vertex i's
      texture coordinate, moved by half the window resolution. */
  function Fetched(sample: Vec2 -> Vec2, start: nat, i: nat, size: Vec2, winres: Vec2): Vec2
    requires size.x > 0.0 && size.y > 0.0
  {
    var t := sample(GetTexCoord(VertexNumber(start, i), size));
    Vec2(t.x + winres.x / 2.0, t.y + winres.y / 2.0)
  }

  /** The loop at the top of `main`: exactly the first `length` slots of `v`
      are filled, slot i from vertex `start + i`; the rest keep their values. */
  method FetchVertices(v: array<Vec2>, sample: Vec2 -> Vec2, start: nat, length: nat, size: Vec2, winres: Vec2)
    requires v.Length == MAX_VERTICES && length <= MAX_VERTICES
    requires size.x > 0.0 && size.y > 0.0
    modifies v
    ensures forall i | 0 <= i < length :: v[i] == Fetched(sample, start, i, size, winres)
    ensures forall i | length <= i < v.Length :: v[i] == old(v[i])
  {
    var i := 0;
    while i < length
      invariant 0 <= i <= length
      invariant forall k | 0 <= k < i :: v[k] == Fetched(sample, start, k, size, winres)
      invariant forall k | i <= k < v.Length :: v[k] == old(v[k])
    {
      var t := sample(GetTexCoord(VertexNumber(start, i), size));
      v[i] := Vec2(t.x + winres.x / 2.0, t.y + winres.y / 2.0);
      i := i + 1;
    }
  }

  /** The vertex before vertex k of a polygon with n vertices. */
  function Before(n: int, k: int): int
  {
    if k == 0 then n - 1 else k - 1
  }

  /** The first i pairs (i', j) the `sdPolygon` loop visits. */
  function EdgePairs(n: int, i: nat): (r: seq<(int, int)>)
    ensures |r| == i
  {
    if i == 0 then [] else EdgePairs(n, i - 1) + [(i - 1, Before(n, i - 1))]
  }

  /** All the pairs visited for a polygon of `length` vertices; none when length <= 0. */
  function AllEdgePairs(length: int): seq<(int, int)>
  {
    EdgePairs(length, if length > 0 then length else 0)
  }

  /** The index structure of `sdPolygon`'s loop `for (i = 0, j = length - 1; i < length; j = i, i++)`. */
  method SdPolygonEdges(length: int) returns (pairs: seq<(int, int)>)
    ensures pairs == AllEdgePairs(length)
  {
    pairs := [];
    var i := 0;
    var j := length - 1;
    while i < length
      invariant 0 <= i <= if length > 0 then length else 0
      invariant j == if i == 0 then length - 1 else i - 1
      invariant pairs == EdgePairs(length, i)
    {
      pairs := pairs + [(i, j)];
      j := i;
      i := i + 1;
    }
  }

  lemma {:induction false} EdgePairsLayout(n: int, i: nat)
    ensures forall m | 0 <= m < i :: EdgePairs(n, i)[m] == (m, Before(n, m))
  {
    if i > 0 {
      EdgePairsLayout(n, i - 1);
    }
  }

  /** The vertex after vertex k of a polygon with n vertices. */
  function After(n: int, k: int): int
  {
    if k == n - 1 then 0 else k + 1
  }

  /** The vertex before m is m - 1 modulo n. */
  lemma BeforeIsMod(n: int, m: int)
    requires 0 <= m < n
    ensures 0 <= Before(n, m) < n
    ensures Before(n, m) == (m + n - 1) % n
    ensures Before(n, After(n, m)) == m
  {
    if m == 0 {
      Bits.DivModUnique(m + n - 1, n, 0, n - 1);
    } else {
      Bits.DivModUnique(m + n - 1, n, 1, m - 1);
    }
  }

  /** The loop visits each cyclic edge exactly once: pair m is (m, m - 1 mod n),
      every vertex k is the second of the pair of the vertex after it, and of
      no other pair. An empty polygon has no edges. */
  lemma EachEdgeOnce(n: int)
    ensures n <= 0 ==> AllEdgePairs(n) == []
    ensures |AllEdgePairs(n)| == if n > 0 then n else 0
    ensures forall m | 0 <= m < n :: AllEdgePairs(n)[m] == (m, (m + n - 1) % n)
    ensures forall k | 0 <= k < n :: AllEdgePairs(n)[After(n, k)].1 == k
    ensures forall m1, m2 | 0 <= m1 < n && 0 <= m2 < n :: AllEdgePairs(n)[m1].1 == AllEdgePairs(n)[m2].1 ==> m1 == m2
  {
    if n <= 0 {
      return;
    }
    var pairs := AllEdgePairs(n);
    EdgePairsLayout(n, n);
    forall m | 0 <= m < n
      ensures pairs[m] == (m, (m + n - 1) % n)
    {
      BeforeIsMod(n, m);
    }
    forall k | 0 <= k < n
      ensures pairs[After(n, k)].1 == k
    {
      BeforeIsMod(n, k);
    }
  }
}
