/**
 * The scripts' arithmetic helpers: `calc_cycle_time`, `calc_num_trains`, `value_to_minutes` and the
 * reported locomotive count, on exact reals.
 */
module Timing {
  /** Python's `math.ceil`: the least integer at or above `v`. */
  function Ceil(v: real): (k: int)
    ensures k as real >= v && (k as real) - 1.0 < v
  {
    if v.Floor as real == v then v.Floor else v.Floor + 1
  }

  lemma CeilLeast(v: real, k: int)
    requires k as real >= v
    ensures Ceil(v) <= k
  {
  }

  lemma CeilOfInt(k: int)
    ensures Ceil(k as real) == k
  {
  }

  /** Comparing with a quotient is comparing the product. */
  lemma QuotientCompare(x: real, q: real, p: real)
    requires p > 0.0
    ensures x < q / p <==> x * p < q
    ensures x >= q / p <==> x * p >= q
  {
    assert (q / p) * p == q;
    if x < q / p {
      assert x * p < (q / p) * p;
    }
    if x >= q / p {
      assert x * p >= (q / p) * p;
    }
  }

  /** With a negative divisor, comparing with a quotient is comparing the product the other way. */
  lemma QuotientCompareNegative(x: real, q: real, p: real)
    requires p < 0.0
    ensures x < q / p <==> x * p > q
    ensures x >= q / p <==> x * p <= q
  {
    assert (q / p) * p == q;
    if x < q / p {
      assert x * p > (q / p) * p;
    }
    if x >= q / p {
      assert x * p <= (q / p) * p;
    }
  }

  /** `calc_cycle_time`: minutes for the out-and-back run of a route of length `dist` at `speed`. */
  function CalcCycleTime(dist: real, speed: real): (minutes: real)
    requires speed != 0.0
    ensures minutes * speed == dist * 120.0
    ensures dist > 0.0 && speed > 0.0 ==> minutes > 0.0
  {
    (dist * 2.0 / speed) * 60.0
  }

  /** `calc_num_trains`: the number of trains needed to run a cycle of `cycle` minutes every `period`. */
  function CalcNumTrains(cycle: real, period: real): (k: int)
    requires period != 0.0
    ensures period > 0.0 ==> k as real * period >= cycle && (k - 1) as real * period < cycle
    ensures period < 0.0 ==> k as real * period <= cycle && (k - 1) as real * period > cycle
  {
    var k := Ceil(cycle / period);
    if period > 0.0 then
      QuotientCompare(k as real, cycle, period);
      QuotientCompare((k - 1) as real, cycle, period);
      k
    else
      QuotientCompareNegative(k as real, cycle, period);
      QuotientCompareNegative((k - 1) as real, cycle, period);
      k
  }

  /** No integer below `CalcNumTrains(cycle, period)` trains covers the cycle. */
  lemma NumTrainsLeast(cycle: real, period: real, k: int)
    requires period > 0.0 && k as real * period >= cycle
    ensures CalcNumTrains(cycle, period) <= k
  {
    assert k as real >= cycle / period;
    CeilLeast(cycle / period, k);
  }

  /** `value_to_minutes`: a time in units of the hour-long period, in minutes. */
  function ValueToMinutes(v: real): (m: real)
    ensures m / 60.0 == v
    ensures v >= 0.0 ==> m >= v
  {
    v * 60.0
  }

  /** The reported locomotive count `ceil(cycletime * 60 / period)`. */
  function LocoCount(cycle: real, period: real): (k: int)
    requires period != 0.0
    ensures period > 0.0 ==> k as real * period >= ValueToMinutes(cycle)
    ensures period > 0.0 ==> (k - 1) as real * period < ValueToMinutes(cycle)
    ensures period < 0.0 ==> k as real * period <= ValueToMinutes(cycle)
    ensures period < 0.0 ==> (k - 1) as real * period > ValueToMinutes(cycle)
  {
    var k := Ceil(ValueToMinutes(cycle) / period);
    if period > 0.0 then
      QuotientCompare(k as real, ValueToMinutes(cycle), period);
      QuotientCompare((k - 1) as real, ValueToMinutes(cycle), period);
      k
    else
      QuotientCompareNegative(k as real, ValueToMinutes(cycle), period);
      QuotientCompareNegative((k - 1) as real, ValueToMinutes(cycle), period);
      k
  }

  lemma LocoCountLeast(cycle: real, period: real, k: int)
    requires period > 0.0 && k as real * period >= ValueToMinutes(cycle)
    ensures LocoCount(cycle, period) <= k
  {
    assert k as real >= ValueToMinutes(cycle) / period;
    CeilLeast(ValueToMinutes(cycle) / period, k);
  }
}
