/** The windowing vocabulary the runner passes around: key/value pairs, values
    carrying an event time and their windows, and the policy that gives the
    output timestamp of a group of elements. */
module Windowing {

  datatype KV<K, T> = KV(key: K, value: T)

  /** A value with its event time (Instant, as milliseconds) and the windows it
      is in. */
  datatype WindowedValue<T, W> = WindowedValue(value: T, timestamp: int, windows: seq<W>)
  {
    /** The same element carrying another value, as WindowedValue.withValue. */
    function WithValue<U>(v: U): WindowedValue<U, W>
    {
      WindowedValue(v, timestamp, windows)
    }
  }

  /** A TimestampCombiner: assign gives the output timestamp of one element in
      a window; combine joins two output timestamps. */
  datatype TimestampCombiner<!W> = TimestampCombiner(assign: (W, int) -> int, combine: (int, int) -> int)

  /** TimestampCombiner.EARLIEST: an element keeps its own event time and two
      timestamps combine to the earlier one. */
  function Earliest<W>(): TimestampCombiner<W>
  {
    TimestampCombiner((w, t) => t, (a, b) => if a <= b then a else b)
  }

  /** The timestamp stored for a group whose elements were assigned ts, in
      arrival order: the first element stores combine(a1, a1) and each further
      element a stores combine(a, stored). Empty input gives 0 and is never
      asked for. */
  function CombineAll<W>(tsc: TimestampCombiner<W>, ts: seq<int>): int
    decreases |ts|
  {
    if ts == [] then 0
    else if |ts| == 1 then tsc.combine(ts[0], ts[0])
    else tsc.combine(ts[|ts| - 1], CombineAll(tsc, ts[..|ts| - 1]))
  }

  /** Under EARLIEST the stored timestamp is the earliest of the assigned ones. */
  lemma {:induction false} EarliestIsMinimum<W>(ts: seq<int>)
    requires ts != []
    ensures CombineAll(Earliest<W>(), ts) in ts
    ensures forall i :: 0 <= i < |ts| ==> CombineAll(Earliest<W>(), ts) <= ts[i]
    decreases |ts|
  {
    if |ts| > 1 {
      var init := ts[..|ts| - 1];
      EarliestIsMinimum<W>(init);
      assert forall i :: 0 <= i < |init| ==> init[i] == ts[i];
      assert init[0] in ts;
    }
  }

  /** An element seen at event times 10, 5 and 7 under EARLIEST is stamped 5. */
  lemma EarliestExample<W>()
    ensures CombineAll(Earliest<W>(), [10, 5, 7]) == 5
  {
    assert [10, 5, 7][..2] == [10, 5];
    assert [10, 5][..1] == [10];
  }
}
