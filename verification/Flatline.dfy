/** The flatline check of the data-quality report: the longest run of one repeated non-null value. */
module Flatline {
  import opened Wrappers

  /** A contiguous block of equal, non-null readings. */
  ghost predicate Block<T>(values: seq<Option<T>>, lo: int, hi: int) {
    && 0 <= lo < hi <= |values|
    && values[lo].Some?
    && forall i :: lo <= i < hi ==> values[i] == values[lo]
  }

  /**
   Returns the larger of 1 and the length of the longest block, and 0 only for the empty series:
   some block is that long unless the answer is the floor of 1, and none is longer.
   */
  method MaxFlatlineRun<T(==)>(values: seq<Option<T>>) returns (best: nat)
    ensures values == [] <==> best == 0
    ensures best <= 1 || exists lo, hi :: Block(values, lo, hi) && hi - lo == best
    ensures forall lo, hi :: Block(values, lo, hi) ==> hi - lo <= best
  {
    if values == [] { return 0; }
    best := 1;
    var run := 1;
    var prev := values[0];
    for i := 1 to |values|
      invariant prev == values[i - 1]
      invariant 1 <= run <= i && run <= best
      invariant prev.Some? ==> Block(values, i - run, i)
      invariant prev.None? ==> run == 1
      invariant forall lo :: Block(values, lo, i) ==> i - lo <= run
      invariant best == 1 || exists lo, hi :: Block(values, lo, hi) && hi - lo == best
      invariant forall lo, hi :: Block(values, lo, hi) && hi <= i ==> hi - lo <= best
    {
      var value := values[i];
      ghost var ended, next := run, i + 1;
      forall lo | Block(values, lo, next) && lo < i ensures i - lo <= ended && prev == value && value.Some? {
        assert values[i - 1] == values[lo] && values[i] == values[lo];
        assert Block(values, lo, i);
      }
      if value.None? || prev.None? {
        run := 1;
      } else if value == prev {
        run := run + 1;
        if run > best {
          best := run;
          assert Block(values, i + 1 - run, i + 1);
        }
      } else {
        run := 1;
      }
      prev := value;
    }
  }
}
