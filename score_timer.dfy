/** Elapsed play time: a running total of frame deltas in milliseconds. */
module ScoreTimer {

  /** The total after a run of frame deltas starting from `start`. */
  function Total(start: real, deltas: seq<real>): real
    decreases |deltas|
  {
    if deltas == [] then start else Total(start + deltas[0], deltas[1..])
  }

  /** With non-negative frame deltas the elapsed time never goes down. */
  lemma {:induction false} TotalMonotone(start: real, deltas: seq<real>)
    requires forall i :: 0 <= i < |deltas| ==> deltas[i] >= 0.0
    ensures Total(start, deltas) >= start
    decreases |deltas|
  {
    if deltas != [] {
      TotalMonotone(start + deltas[0], deltas[1..]);
    }
  }

  /** Frame by frame the total is the start plus the sum of the deltas: running the
      first frames and then the rest is the same as running them all. */
  lemma {:induction false} TotalAppend(start: real, xs: seq<real>, ys: seq<real>)
    ensures Total(start, xs + ys) == Total(Total(start, xs), ys)
    decreases |xs|
  {
    if xs != [] {
      assert (xs + ys)[1..] == xs[1..] + ys;
      TotalAppend(start + xs[0], xs[1..], ys);
    } else {
      assert xs + ys == ys;
    }
  }

  class ScoreTimer {
    var elapsedMs: real

    constructor ()
      ensures elapsedMs == 0.0
    {
      elapsedMs := 0.0;
    }

    /** Adds the frame delta and returns the new total. */
    method Update(deltaMs: real) returns (total: real)
      modifies this
      ensures elapsedMs == Total(old(elapsedMs), [deltaMs])
      ensures total == elapsedMs
      ensures deltaMs >= 0.0 ==> elapsedMs >= old(elapsedMs)
    {
      elapsedMs := elapsedMs + deltaMs;
      total := elapsedMs;
    }

    /** The `ms` getter: the value the last `Update` returned. */
    method Ms() returns (ms: real)
      ensures ms == elapsedMs
    {
      ms := elapsedMs;
    }

    method Reset()
      modifies this
      ensures elapsedMs == 0.0
    {
      elapsedMs := 0.0;
    }
  }
}
