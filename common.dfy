/** Values shared by every part of the model: 2D vectors of reals (the
    sources' float `vec2` / `glm::vec2`, without rounding), JavaScript
    numbers, an Option, and rounding helpers. */
module Common {

  datatype Vec2 = Vec2(x: real, y: real)

  datatype Option<T> = None | Some(value: T)

  /** A JavaScript number: a finite value (as an exact real) or NaN. */
  datatype Number = Num(value: real) | NaN

  /** Math.PI and M_PI, as the exact decimal the double literal denotes to 16 digits. */
  const PI: real := 3.141592653589793

  /** JavaScript Math.round on a real: the nearest integer, halves rounded up. */
  function Round(x: real): (r: int)
    ensures r as real <= x + 0.5 < r as real + 1.0
  {
    (x + 0.5).Floor
  }

  /** Truncation toward zero, the integer part ECMAScript ToInt32 keeps. */
  function Trunc(x: real): (r: int)
    ensures x >= 0.0 ==> r as real <= x < r as real + 1.0
    ensures x < 0.0 ==> r as real - 1.0 < x <= r as real
  {
    if x >= 0.0 then x.Floor else -((-x).Floor)
  }

  /** `n` copies of `x`. */
  function Repeat<T>(x: T, n: nat): (r: seq<T>)
    ensures |r| == n
    ensures forall k | 0 <= k < n :: r[k] == x
  {
    if n == 0 then [] else Repeat(x, n - 1) + [x]
  }

  /** `s` followed by n copies of x. */
  function Pad<T>(s: seq<T>, x: T, n: nat): (r: seq<T>)
    ensures |r| == |s| + n
  {
    if n == 0 then s else Pad(s, x, n - 1) + [x]
  }

  /** Two runs of the same value make one. */
  lemma {:induction false} PadPad<T>(s: seq<T>, x: T, a: nat, b: nat, c: nat)
    requires c == a + b
    ensures Pad(Pad(s, x, a), x, b) == Pad(s, x, c)
  {
    if b > 0 {
      PadPad(s, x, a, b - 1, c - 1);
    }
  }

  /** The old contents stay a prefix and every appended entry is x. */
  lemma {:induction false} PadLayout<T>(s: seq<T>, x: T, k: nat)
    ensures s <= Pad(s, x, k)
    ensures forall m | |s| <= m < |s| + k :: Pad(s, x, k)[m] == x
  {
    if k > 0 {
      PadLayout(s, x, k - 1);
    }
  }
}
