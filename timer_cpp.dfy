/** The C++ `Timer` of src/timer.h: a started/ended state machine around a
    clock, recording elapsed microseconds into `durations_us`, with the
    statistics `total`, `avg`, `min` and `max` over that list.

    The clock is a parameter: `now` is a reading of
    `high_resolution_clock`, counted in nanoseconds. */
module CppTimer {
  import Bits

  // ---------------------------------------------------------------------
  // Statistics over `durations_us`

  /** `std::accumulate(begin, end, 0)`: the left-to-right sum. */
  function Sum(d: seq<int>): int
  {
    if d == [] then 0 else Sum(d[..|d| - 1]) + d[|d| - 1]
  }

  /** `total()`: 0 for an empty list, the sum otherwise. */
  function Total(d: seq<int>): int
  {
    if |d| == 0 then 0 else Sum(d)
  }

  /** `*std::min_element(...)` on a non-empty list: the smallest element. */
  function MinOf(d: seq<int>): (r: int)
    requires |d| > 0
    ensures r in d
    ensures forall i | 0 <= i < |d| :: r <= d[i]
  {
    if |d| == 1 then d[0]
    else
      var m := MinOf(d[..|d| - 1]);
      if d[|d| - 1] < m then d[|d| - 1] else m
  }

  /** `*std::max_element(...)` on a non-empty list: the largest element. */
  function MaxOf(d: seq<int>): (r: int)
    requires |d| > 0
    ensures r in d
    ensures forall i | 0 <= i < |d| :: d[i] <= r
  {
    if |d| == 1 then d[0]
    else
      var m := MaxOf(d[..|d| - 1]);
      if d[|d| - 1] > m then d[|d| - 1] else m
  }

  /** `min()`: 0 for an empty list. */
  function Min(d: seq<int>): int
  {
    if |d| == 0 then 0 else MinOf(d)
  }

  /** `max()`: 0 for an empty list. */
  function Max(d: seq<int>): int
  {
    if |d| == 0 then 0 else MaxOf(d)
  }

  /** `avg()`: `total() / durations_us.size()`. The `int` total is converted
      to the unsigned 64-bit `size_t` before dividing, and the quotient is
      converted back to a 32-bit `int` on return. */
  function Avg(d: seq<int>): int
  {
    if |d| == 0 then 0 else Bits.Int32((Total(d) % Bits.TWO_64) / |d|)
  }

  /** All four statistics are 0 on an empty list. */
  lemma EmptyStatistics()
    ensures Total([]) == 0 && Avg([]) == 0 && Min([]) == 0 && Max([]) == 0
  {
  }

  /** Recording one more duration adds it to the total. */
  lemma TotalAppend(d: seq<int>, x: int)
    ensures Total(d + [x]) == Total(d) + x
  {
    assert (d + [x])[..|d + [x]| - 1] == d;
    assert Sum(d + [x]) == Sum(d) + x;
  }

  /** A lower bound of every element bounds the sum from below, an upper bound from above. */
  lemma {:induction false} SumBounds(d: seq<int>, lo: int, hi: int)
    requires forall i | 0 <= i < |d| :: lo <= d[i] <= hi
    ensures |d| * lo <= Sum(d) <= |d| * hi
    decreases |d|
  {
    if d != [] {
      var p := d[..|d| - 1];
      assert forall i | 0 <= i < |p| :: p[i] == d[i];
      SumBounds(p, lo, hi);
      assert |d| * lo == |p| * lo + lo;
      assert |d| * hi == |p| * hi + hi;
    }
  }

  /** The floor quotient of t by n lies between any lo and hi with n * lo <= t <= n * hi. */
  lemma QuotientBetween(t: int, n: int, lo: int, hi: int)
    requires n > 0 && n * lo <= t <= n * hi
    ensures lo <= t / n <= hi
  {
    var q, r := t / n, t % n;
    assert t == n * q + r && 0 <= r < n;
    if q < lo {
      LessTimes(n, q + 1, lo);
    }
    if q > hi {
      LessTimes(n, hi + 1, q);
    }
  }

  lemma LessTimes(n: int, a: int, b: int)
    requires n > 0 && a <= b
    ensures n * a <= n * b
  {
    assert n * b == n * a + n * (b - a);
  }

  /** For a total that fits a non-negative `int`, `avg` is the floor of the
      mean, and it lies between the smallest and the largest duration. */
  lemma AvgBetweenMinMax(d: seq<int>)
    requires |d| > 0 && 0 <= Total(d) < Bits.TWO_31
    ensures Avg(d) == Total(d) / |d|
    ensures Min(d) <= Avg(d) <= Max(d)
  {
    AvgSmall(d);
    SumBounds(d, MinOf(d), MaxOf(d));
    QuotientBetween(Total(d), |d|, MinOf(d), MaxOf(d));
  }

  /** For such a total neither conversion changes anything. */
  lemma AvgSmall(d: seq<int>)
    requires |d| > 0 && 0 <= Total(d) < Bits.TWO_31
    ensures Avg(d) == Total(d) / |d|
  {
    var n, t := |d|, Total(d);
    assert t % Bits.TWO_64 == t;
    QuotientAtMost(t, n);
    Bits.Int32Small(t / n);
  }

  lemma QuotientAtMost(t: int, n: int)
    requires t >= 0 && n >= 1
    ensures 0 <= t / n <= t
  {
    if t > 0 {
      LessTimes(t, 1, n);
    }
    QuotientBetween(t, n, 0, t);
  }

  /** A negative total (possible only when the clock went backwards) is
      divided as an unsigned value: for the durations -1 and 0, whose mean
      -0.5 truncates to 0, `avg` gives -1. */
  lemma AvgOfNegativeTotal()
    ensures Total([-1, 0]) == -1
    ensures Avg([-1, 0]) == -1
  {
    assert [-1, 0][..1] == [-1] && [-1][..0] == [];
    assert Sum([-1]) == -1;
    Bits.DivModUnique(-1, Bits.TWO_64, -1, Bits.TWO_64 - 1);
    Bits.DivModUnique(Bits.TWO_64 - 1, 2, Bits.TWO_64 / 2 - 1, 1);
  }

  // ---------------------------------------------------------------------
  // The state machine

  /** `duration_cast<microseconds>(t2 - t1).count()`, truncating toward
      zero, then narrowed to the `int` that `end` returns and
      `durations_us` holds. */
  function Elapsed(t1: int, t2: int): int
  {
    var ns := t2 - t1;
    Bits.Int32(if ns >= 0 then ns / 1000 else -((-ns) / 1000))
  }

  /** An interval of under 2^31 microseconds is its whole number of microseconds. */
  lemma ElapsedWhole(t1: int, t2: int)
    requires 0 <= t2 - t1 < 1000 * Bits.TWO_31
    ensures Elapsed(t1, t2) == (t2 - t1) / 1000 >= 0
  {
    Bits.Int32Small((t2 - t1) / 1000);
  }

  /** The timer's state; `description` only labels what is printed. */
  datatype State = State(started: bool, ended: bool, t1: int, durations: seq<int>)

  /** A fresh timer: neither started nor ended, no durations, `t1` unset (0 here). */
  const INITIAL := State(false, false, 0, [])

  /** `start()` at clock reading `now`. */
  function Started(s: State, now: int): State
  {
    s.(started := true, ended := false, t1 := now)
  }

  /** What `end` leaves and returns. */
  datatype Stop = Stop(s: State, duration: int)

  /** `end(push)` at clock reading `now`. */
  function Ended(s: State, now: int, push: bool): Stop
  {
    if !s.started || s.ended then Stop(s, 0)
    else
      var us := Elapsed(s.t1, now);
      Stop(s.(ended := true, durations := if push then s.durations + [us] else s.durations), us)
  }

  /** The constructor `Timer(description, start_)`, at clock reading `now`. */
  function Constructed(start_: bool, now: int): State
  {
    if start_ then Started(INITIAL, now) else INITIAL
  }

  /** Constructing with `start_` set is constructing then calling `start`. */
  lemma StartOption(now: int)
    ensures Constructed(true, now) == Started(Constructed(false, now), now)
    ensures !Constructed(false, now).started && Constructed(false, now).durations == []
  {
  }

  /** `end` on a timer that is not running returns 0 and changes nothing. */
  lemma EndWhenIdle(s: State, now: int, push: bool)
    requires !s.started || s.ended
    ensures Ended(s, now, push) == Stop(s, 0)
  {
  }

  /** `end` on a running timer stops it, returns the elapsed time, and
      records exactly that duration when `push` is set and nothing otherwise. */
  lemma EndWhenRunning(s: State, now: int, push: bool)
    requires s.started && !s.ended
    ensures Ended(s, now, push).s.ended && Ended(s, now, push).s.started
    ensures Ended(s, now, push).duration == Elapsed(s.t1, now)
    ensures Ended(s, now, push).s.durations == s.durations + (if push then [Elapsed(s.t1, now)] else [])
  {
  }

  /** A second `end` right after the first returns 0 and records nothing. */
  lemma EndTwice(s: State, now: int, later: int, push: bool, push2: bool)
    ensures Ended(Ended(s, now, push).s, later, push2) == Stop(Ended(s, now, push).s, 0)
  {
  }

  /** `start` then `end(true)` appends the time between the two readings. */
  lemma StartThenEnd(s: State, t: int, now: int)
    ensures Ended(Started(s, t), now, true).s.durations == s.durations + [Elapsed(t, now)]
    ensures Ended(Started(s, t), now, true).duration == Elapsed(t, now)
  {
  }

  /** `start` keeps the recorded durations. */
  lemma StartKeepsDurations(s: State, now: int)
    ensures Started(s, now).durations == s.durations
    ensures Started(s, now).started && !Started(s, now).ended
  {
  }

  class Timer {
    var started: bool
    var ended: bool
    var t1: int
    var description: string
    var durations: seq<int>

    function Snapshot(): State
      reads this
    {
      State(started, ended, t1, durations)
    }

    /** `Timer(description, start_)`. */
    constructor(description: string, start_: bool, now: int)
      ensures Snapshot() == Constructed(start_, now)
      ensures this.description == description
    {
      this.description := description;
      started := false;
      ended := false;
      t1 := 0;
      durations := [];
      new;
      if start_ {
        Start(now);
      }
    }

    /** `start()`. */
    method Start(now: int)
      modifies this
      ensures Snapshot() == Started(old(Snapshot()), now)
      ensures description == old(description)
    {
      started := true;
      ended := false;
      t1 := now;
    }

    /** `end(push, print)`; printing is not modelled. */
    method End(now: int, push: bool) returns (duration: int)
      modifies this
      ensures Snapshot() == Ended(old(Snapshot()), now, push).s
      ensures duration == Ended(old(Snapshot()), now, push).duration
      ensures description == old(description)
    {
      if !started || ended {
        return 0;
      }
      duration := Elapsed(t1, now);
      if push {
        durations := durations + [duration];
      }
      ended := true;
    }

    /** `update_description(description)`. */
    method UpdateDescription(d: string)
      modifies this
      ensures description == d && Snapshot() == old(Snapshot())
    {
      description := d;
    }

    /** `reset_durations()`: empties the list and leaves the flags alone. */
    method ResetDurations()
      modifies this
      ensures Snapshot() == old(Snapshot()).(durations := [])
      ensures description == old(description)
    {
      durations := [];
    }
  }
}
