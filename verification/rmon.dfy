/**
 * The rate monitor (RMon): values are added to an accumulator; once a second
 * a tick moves the accumulator into a window of buckets that keeps at most
 * BLEN of the latest ones; the average is taken over the window.
 *
 * The one-second timer is a flag: the tick is a method of its own, called by
 * whoever plays the timer. The average's floating-point division and its
 * two-decimal formatting are represented by the sum and the count they are
 * computed from.
 */
module RMon {
  import opened Common

  const DefaultWindow := 60

  /** A window length as a bound on the number of buckets: a length below zero keeps none. */
  function Cap(w: int): nat {
    if w < 0 then 0 else w
  }

  /** The sum of some buckets. */
  function Sum(s: seq<int>): int {
    if s == [] then 0 else Sum(s[..|s| - 1]) + s[|s| - 1]
  }

  /** The buckets after one tick moved `v` into a window of length `w`: appended, and the oldest dropped when over `w`. */
  function TickOf(b: seq<int>, v: int, w: int): (r: seq<int>)
    ensures |b| <= Cap(w) ==> |r| <= Cap(w)
    ensures |b| < Cap(w) ==> r == b + [v]
    ensures |b| >= Cap(w) && |b| > 0 ==> r == b[1..] + [v]
  {
    var pushed := b + [v];
    if |pushed| > w then pushed[1..] else pushed
  }

  /** The buckets after ticks that moved the values `vs` in, in order. */
  function Ticks(b: seq<int>, vs: seq<int>, w: int): seq<int> {
    if vs == [] then b else TickOf(Ticks(b, vs[..|vs| - 1], w), vs[|vs| - 1], w)
  }

  /** The last `n` elements of `s`, or all of them when there are fewer. */
  function Last(s: seq<int>, n: nat): (r: seq<int>)
    ensures |r| == if |s| <= n then |s| else n
    ensures s == s[..|s| - |r|] + r
  {
    if |s| <= n then s else s[|s| - n..]
  }

  /**
   * The window: starting from a window that respects the length, any number
   * of ticks leave exactly the latest `Cap(w)` of the old buckets and the
   * values moved in.
   */
  lemma {:induction false} WindowKeepsLatest(b: seq<int>, vs: seq<int>, w: int)
    requires |b| <= Cap(w)
    ensures Ticks(b, vs, w) == Last(b + vs, Cap(w))
    decreases |vs|
  {
    if vs == [] {
      assert b + vs == b;
    } else {
      var init, v := vs[..|vs| - 1], vs[|vs| - 1];
      WindowKeepsLatest(b, init, w);
      var prev := Last(b + init, Cap(w));
      assert b + vs == (b + init) + [v];
      if |b + init| < Cap(w) {
        assert prev == b + init;
      } else {
        assert |prev| == Cap(w);
        if Cap(w) == 0 {
          assert TickOf(prev, v, w) == [];
        } else {
          assert prev[1..] + [v] == ((b + init) + [v])[|b + vs| - Cap(w)..];
        }
      }
    }
  }

  /** Bounds on the buckets bound their sum: the average lies between them. */
  lemma {:induction false} SumBounds(s: seq<int>, lo: int, hi: int)
    requires forall i :: 0 <= i < |s| ==> lo <= s[i] <= hi
    ensures lo * |s| <= Sum(s) <= hi * |s|
    decreases |s|
  {
    if s != [] {
      var n := |s| - 1;
      SumBounds(s[..n], lo, hi);
      assert lo * |s| == lo * n + lo;
      assert hi * |s| == hi * n + hi;
    }
  }

  /** What `ave()` returns: the number 0 for an empty window, else the total over the count, formatted. */
  datatype Average = Zero | Ratio(total: int, count: nat)

  class RMon {
    var buckets: seq<int>
    var currentValue: int
    var running: bool           // an interval timer is set
    const BLEN: int

    ghost predicate Valid()
      reads this
    {
      |buckets| <= Cap(BLEN)
    }

    /** A window length of 0 or none given means 60. */
    constructor (blen: Option<int>)
      ensures BLEN == if blen.None? || blen.value == 0 then DefaultWindow else blen.value
      ensures buckets == [] && currentValue == 0 && !running && Valid()
    {
      buckets := [];
      currentValue := 0;
      running := false;
      BLEN := if blen.None? || blen.value == 0 then DefaultWindow else blen.value;
    }

    method Add(value: int)
      modifies this`currentValue
      ensures currentValue == old(currentValue) + value
    {
      currentValue := currentValue + value;
    }

    /** The timer's tick: the accumulator moves into the window, which then drops its oldest bucket if over length. */
    method Tick()
      requires Valid()
      modifies this`buckets, this`currentValue
      ensures buckets == TickOf(old(buckets), old(currentValue), BLEN) && currentValue == 0
      ensures Valid()
    {
      buckets := buckets + [currentValue];
      currentValue := 0;
      if |buckets| > BLEN {
        buckets := buckets[1..];
      }
    }

    /** The average over the window, summed bucket by bucket. */
    method Ave() returns (a: Average)
      ensures buckets == [] ==> a == Zero
      ensures buckets != [] ==> a == Ratio(Sum(buckets), |buckets|)
    {
      var total := 0;
      if |buckets| == 0 {
        return Zero;
      }
      var i := 0;
      while i < |buckets|
        invariant 0 <= i <= |buckets|
        invariant total == Sum(buckets[..i])
      {
        assert buckets[..i + 1][..i] == buckets[..i];
        total := total + buckets[i];
        i := i + 1;
      }
      assert buckets[..i] == buckets;
      a := Ratio(total, |buckets|);
    }

    /** Setting the timer; one already set is stopped first. */
    method Start()
      modifies this`running
      ensures running
    {
      if running {
        Stop();
      }
      running := true;
    }

    method Stop()
      modifies this`running
      ensures !running
    {
      running := false;
    }

    /** Clearing empties the window and the accumulator and restarts the timer. */
    method Clear()
      modifies this`running, this`buckets, this`currentValue
      ensures buckets == [] && currentValue == 0 && running && Valid()
    {
      Stop();
      currentValue := 0;
      buckets := [];
      Start();
    }
  }
}
