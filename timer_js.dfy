/** The JavaScript `Timer` of src/timer.js: the same started/ended state
    machine as the C++ timer, over `performance.now()` readings, with
    statistics computed on JavaScript numbers (taken as exact reals).

    The clock is a parameter: `now` is a `performance.now()` reading, which
    counts milliseconds. */
module JsTimer {

  // ---------------------------------------------------------------------
  // Statistics over `durations_us`

  /** `reduce((a, b) => a + b, 0)`: the left-to-right sum. */
  function Sum(d: seq<real>): real
  {
    if d == [] then 0.0 else Sum(d[..|d| - 1]) + d[|d| - 1]
  }

  /** `total()`: 0 for an empty list, the sum otherwise. */
  function Total(d: seq<real>): real
  {
    if |d| == 0 then 0.0 else Sum(d)
  }

  /** `Math.min(...d)` on a non-empty list: the smallest element. */
  function MinOf(d: seq<real>): (r: real)
    requires |d| > 0
    ensures r in d
    ensures forall i | 0 <= i < |d| :: r <= d[i]
  {
    if |d| == 1 then d[0]
    else
      var m := MinOf(d[..|d| - 1]);
      if d[|d| - 1] < m then d[|d| - 1] else m
  }

  /** `Math.max(...d)` on a non-empty list: the largest element. */
  function MaxOf(d: seq<real>): (r: real)
    requires |d| > 0
    ensures r in d
    ensures forall i | 0 <= i < |d| :: d[i] <= r
  {
    if |d| == 1 then d[0]
    else
      var m := MaxOf(d[..|d| - 1]);
      if d[|d| - 1] > m then d[|d| - 1] else m
  }

  /** `min()`: 0 for an empty list. */
  function Min(d: seq<real>): real
  {
    if |d| == 0 then 0.0 else MinOf(d)
  }

  /** `max()`: 0 for an empty list. */
  function Max(d: seq<real>): real
  {
    if |d| == 0 then 0.0 else MaxOf(d)
  }

  /** `avg()`: `total() / length`, a real division. */
  function Avg(d: seq<real>): real
  {
    if |d| == 0 then 0.0 else Total(d) / |d| as real
  }

  /** All four statistics are 0 on an empty list. */
  lemma EmptyStatistics()
    ensures Total([]) == 0.0 && Avg([]) == 0.0 && Min([]) == 0.0 && Max([]) == 0.0
  {
  }

  /** Recording one more duration adds it to the total. */
  lemma TotalAppend(d: seq<real>, x: real)
    ensures Total(d + [x]) == Total(d) + x
  {
    assert (d + [x])[..|d + [x]| - 1] == d;
    assert Sum(d + [x]) == Sum(d) + x;
  }

  /** A lower bound of every element bounds the sum from below, an upper bound from above. */
  lemma {:induction false} SumBounds(d: seq<real>, lo: real, hi: real)
    requires forall i | 0 <= i < |d| :: lo <= d[i] <= hi
    ensures |d| as real * lo <= Sum(d) <= |d| as real * hi
    decreases |d|
  {
    if d != [] {
      var p := d[..|d| - 1];
      assert forall i | 0 <= i < |p| :: p[i] == d[i];
      SumBounds(p, lo, hi);
      assert |d| as real * lo == |p| as real * lo + lo;
      assert |d| as real * hi == |p| as real * hi + hi;
    }
  }

  /** The mean times the count is the total, and the mean lies between the
      smallest and the largest duration. */
  lemma AvgBetweenMinMax(d: seq<real>)
    requires |d| > 0
    ensures Avg(d) * |d| as real == Total(d)
    ensures Min(d) <= Avg(d) <= Max(d)
  {
    var n := |d| as real;
    SumBounds(d, MinOf(d), MaxOf(d));
    QuotientBetween(Total(d), n, MinOf(d), MaxOf(d));
  }

  lemma QuotientBetween(t: real, n: real, lo: real, hi: real)
    requires n > 0.0 && n * lo <= t <= n * hi
    ensures (t / n) * n == t
    ensures lo <= t / n <= hi
  {
  }

  // ---------------------------------------------------------------------
  // The state machine

  /** The timer's state; `description` only labels what is printed. */
  datatype State = State(started: bool, ended: bool, t1: real, durations: seq<real>)

  /** A fresh timer: neither started nor ended, no durations, `t1` unset (0 here). */
  const INITIAL := State(false, false, 0.0, [])

  /** `start()` at clock reading `now`. */
  function Started(s: State, now: real): State
  {
    s.(started := true, ended := false, t1 := now)
  }

  /** What `end` leaves and returns. */
  datatype Stop = Stop(s: State, duration: real)

  /** `duration_us` as written: the difference of two `performance.now()`
      readings, which is in milliseconds. */
  function Elapsed(t1: real, t2: real): real
  {
    t2 - t1
  }

  /** `duration_us` in the microseconds its name, the log line and
      `print_report` give it. */
  function ElapsedUs(t1: real, t2: real): real
  {
    (t2 - t1) * 1000.0
  }

  /** `end({push})` at clock reading `now`, recording `Elapsed` when
      `fixUnits` is false (as written) and `ElapsedUs` when it is set. */
  function Ended(s: State, now: real, push: bool, fixUnits: bool): Stop
  {
    if !s.started || s.ended then Stop(s, 0.0)
    else
      var us := if fixUnits then ElapsedUs(s.t1, now) else Elapsed(s.t1, now);
      Stop(s.(ended := true, durations := if push then s.durations + [us] else s.durations), us)
  }

  /** The constructor `new Timer({description, start_})`, at clock reading `now`. */
  function Constructed(start_: bool, now: real): State
  {
    if start_ then Started(INITIAL, now) else INITIAL
  }

  /** Constructing with `start_` set is constructing then calling `start`. */
  lemma StartOption(now: real)
    ensures Constructed(true, now) == Started(Constructed(false, now), now)
    ensures !Constructed(false, now).started && Constructed(false, now).durations == []
  {
  }

  /** `end` on a timer that is not running returns 0 and changes nothing. */
  lemma EndWhenIdle(s: State, now: real, push: bool, fixUnits: bool)
    requires !s.started || s.ended
    ensures Ended(s, now, push, fixUnits) == Stop(s, 0.0)
  {
  }

  /** `end` on a running timer stops it, returns the elapsed time, and
      records exactly that duration when `push` is set and nothing otherwise. */
  lemma EndWhenRunning(s: State, now: real, push: bool)
    requires s.started && !s.ended
    ensures Ended(s, now, push, false).s.ended && Ended(s, now, push, false).s.started
    ensures Ended(s, now, push, false).duration == now - s.t1
    ensures Ended(s, now, push, false).s.durations == s.durations + (if push then [now - s.t1] else [])
  {
  }

  /** A second `end` right after the first returns 0 and records nothing. */
  lemma EndTwice(s: State, now: real, later: real, push: bool, push2: bool, fixUnits: bool)
    ensures Ended(Ended(s, now, push, fixUnits).s, later, push2, fixUnits) == Stop(Ended(s, now, push, fixUnits).s, 0.0)
  {
  }

  /** As written, a timer started at 0 ms and ended at 1 ms records 1,
      which the log line then prints as "1us (0.001ms)". */
  lemma MillisecondsRecorded(s: State)
    ensures Ended(Started(s, 0.0), 1.0, true, false).s.durations == s.durations + [1.0]
    ensures Ended(Started(s, 0.0), 1.0, true, false).duration / 1000.0 == 0.001
  {
  }

  /** With the interval converted, the value recorded is the interval in
      microseconds, so `duration_us / 1000` is the interval in milliseconds. */
  lemma MicrosecondsRecorded(s: State, t: real, now: real)
    ensures Ended(Started(s, t), now, true, true).s.durations == s.durations + [(now - t) * 1000.0]
    ensures Ended(Started(s, t), now, true, true).duration / 1000.0 == now - t
  {
  }

  class Timer {
    var started: bool
    var ended: bool
    var t1: real
    var description: string
    var durations: seq<real>

    function Snapshot(): State
      reads this
    {
      State(started, ended, t1, durations)
    }

    /** `new Timer({description, start_})`. */
    constructor(description: string, start_: bool, now: real)
      ensures Snapshot() == Constructed(start_, now)
      ensures this.description == description
    {
      this.description := description;
      started := false;
      ended := false;
      t1 := 0.0;
      durations := [];
      new;
      if start_ {
        Start(now);
      }
    }

    /** `start()`. */
    method Start(now: real)
      modifies this
      ensures Snapshot() == Started(old(Snapshot()), now)
      ensures description == old(description)
    {
      started := true;
      ended := false;
      t1 := now;
    }

    /** `end({push, print})`; printing is not modelled. With `fixUnits` set
        the interval is recorded in microseconds. */
    method End(now: real, push: bool, fixUnits: bool) returns (duration: real)
      modifies this
      ensures Snapshot() == Ended(old(Snapshot()), now, push, fixUnits).s
      ensures duration == Ended(old(Snapshot()), now, push, fixUnits).duration
      ensures description == old(description)
    {
      if !started || ended {
        return 0.0;
      }
      duration := if fixUnits then ElapsedUs(t1, now) else Elapsed(t1, now);
      if push {
        durations := durations + [duration];
      }
      ended := true;
    }

    /** `update_description(description)`. */
    method UpdateDescription(d: string)
      modifies this
      ensures description == d && Snapshot() == old(Snapshot())
    {
      description := d;
    }

    /** `reset_durations()`: empties the list and leaves the flags alone. */
    method ResetDurations()
      modifies this
      ensures Snapshot() == old(Snapshot()).(durations := [])
      ensures description == old(description)
    {
      durations := [];
    }
  }
}
