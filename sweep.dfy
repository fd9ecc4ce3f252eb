/** The sizes of the test inputs the benchmark runs through, in order. */
module Sweep {

  /** numpy's `arange(start, stop, step)` for a positive integer step. */
  function Arange(start: int, stop: int, step: int): seq<int>
    requires step > 0
    decreases stop - start
  {
    if start >= stop then [] else [start] + Arange(start + step, stop, step)
  }

  /** `arange` yields exactly the values `start + i * step` below `stop`:
      the i-th value is `start + i * step`, every value lies in
      `[start, stop)`, and the next value after the last would reach `stop`.
      It is empty exactly when `start >= stop`. */
  lemma {:induction false} ArangeSpec(start: int, stop: int, step: int)
    requires step > 0
    ensures var r := Arange(start, stop, step);
      && (|r| == 0 <==> start >= stop)
      && (forall i :: 0 <= i < |r| ==> r[i] == start + i * step)
      && (forall i :: 0 <= i < |r| ==> start <= r[i] < stop)
      && (|r| > 0 ==> start + |r| * step >= stop)
    decreases stop - start
  {
    if start < stop {
      var rest := Arange(start + step, stop, step);
      ArangeSpec(start + step, stop, step);
      forall i | 0 < i <= |rest|
        ensures start + step + (i - 1) * step == start + i * step
      {
      }
      assert start + step + |rest| * step == start + (|rest| + 1) * step;
    }
  }

  /** `arange` with a positive step is strictly increasing, so it never
      yields a value twice. */
  lemma {:induction false} ArangeIncreasing(start: int, stop: int, step: int)
    requires step > 0
    ensures var r := Arange(start, stop, step);
      forall i, j :: 0 <= i < j < |r| ==> r[i] < r[j]
    decreases stop - start
  {
    if start < stop {
      var rest := Arange(start + step, stop, step);
      ArangeIncreasing(start + step, stop, step);
      ArangeSpec(start + step, stop, step);
      assert forall j :: 0 <= j < |rest| ==> start < rest[j];
    }
  }

  /** The sweep: 1000 to 10000 test sequences in steps of 1000. */
  function Nseqs(): seq<int>
  {
    Arange(1000, 10000 + 1000, 1000)
  }

  /** The sweep has ten points, the i-th being 1000 * (i + 1); it is
      strictly increasing and so holds no size twice. */
  lemma NseqsExact()
    ensures Nseqs() == [1000, 2000, 3000, 4000, 5000, 6000, 7000, 8000, 9000, 10000]
    ensures |Nseqs()| == 10
    ensures forall i :: 0 <= i < 10 ==> Nseqs()[i] == 1000 * (i + 1)
    ensures forall i, j :: 0 <= i < j < 10 ==> Nseqs()[i] < Nseqs()[j]
  {
  }
}
