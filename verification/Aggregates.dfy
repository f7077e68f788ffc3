/**
 The monitor server's per-window accumulator (monitor_server.hpp:109-115): a 32-bit count, a 64-bit sum and the extremes
 of the 32-bit samples of one metric, and the row a flush makes of them.
 */
module Aggregates {

  const TWO_31: int := 0x8000_0000
  const TWO_32: int := 0x1_0000_0000
  const TWO_63: int := 0x8000_0000_0000_0000
  const TWO_64: int := 0x1_0000_0000_0000_0000

  type Int32 = x: int | -TWO_31 <= x < TWO_31

  datatype Accumulator = Accumulator(count: nat, sum: int, min: Int32, max: Int32)

  const FRESH := Accumulator(0, 0, TWO_31 - 1, -TWO_31)

  /** Two's complement of 64 and of 32 bits. */
  function Wrap64(x: int): (r: int)
    ensures -TWO_63 <= r < TWO_63 && (-TWO_63 <= x < TWO_63 ==> r == x)
  {
    (x + TWO_63) % TWO_64 - TWO_63
  }

  function Wrap32(x: int): (r: Int32)
    ensures -TWO_31 <= x < TWO_31 ==> r == x
  {
    (x + TWO_31) % TWO_32 - TWO_31
  }

  /** C++ integer division: truncates towards zero. */
  function Truncated(a: int, b: int): int
    requires b > 0
  {
    if a >= 0 then a / b else -(-a / b)
  }

  /** One sample more. */
  function Add(a: Accumulator, v: Int32): Accumulator {
    Accumulator((a.count + 1) % TWO_32, Wrap64(a.sum + v), if v < a.min then v else a.min,
                if a.max < v then v else a.max)
  }

  function Folded(values: seq<Int32>): Accumulator {
    if values == [] then FRESH else Add(Folded(values[..|values| - 1]), values[|values| - 1])
  }

  /** What a flush publishes of one accumulator. */
  function Average(a: Accumulator): Int32
    requires a.count > 0
  {
    Wrap32(Truncated(a.sum, a.count))
  }

  // -------------------------------------------------------------- what the accumulator holds

  function Sum(values: seq<Int32>): int {
    if values == [] then 0 else Sum(values[..|values| - 1]) + values[|values| - 1]
  }

  lemma {:induction false} CountWraps(values: seq<Int32>)
    ensures Folded(values).count == |values| % TWO_32
  {
    if values != [] {
      CountWraps(values[..|values| - 1]);
    }
  }

  lemma {:induction false} SumBounded(values: seq<Int32>)
    ensures -TWO_31 * |values| <= Sum(values) <= (TWO_31 - 1) * |values|
  {
    if values != [] {
      SumBounded(values[..|values| - 1]);
    }
  }

  /** As long as no more samples come than the count can tell apart, the 64-bit sum cannot overflow. */
  lemma {:induction false} SumExact(values: seq<Int32>)
    requires |values| <= TWO_32
    ensures Folded(values).sum == Sum(values)
  {
    SumBounded(values);
    if values != [] {
      SumExact(values[..|values| - 1]);
    }
  }

  lemma {:induction false} ExtremesExact(values: seq<Int32>)
    requires values != []
    ensures Folded(values).min in values && Folded(values).max in values
    ensures forall v :: v in values ==> Folded(values).min <= v <= Folded(values).max
  {
    var front, last := values[..|values| - 1], values[|values| - 1];
    assert values == front + [last];
    if front == [] {
      assert Folded(front) == FRESH;
    } else {
      ExtremesExact(front);
    }
  }

  lemma TimesOneMore(a: int, n: nat)
    ensures a * (n + 1) == a * n + a
  {
  }

  lemma {:induction false} SumBetween(values: seq<Int32>, lo: int, hi: int)
    requires forall v :: v in values ==> lo <= v <= hi
    ensures lo * |values| <= Sum(values) <= hi * |values|
  {
    if values != [] {
      var front, last := values[..|values| - 1], values[|values| - 1];
      assert last in values && forall v :: v in front ==> v in values;
      SumBetween(front, lo, hi);
      TimesOneMore(lo, |front|);
      TimesOneMore(hi, |front|);
    }
  }

  lemma ScaledOrder(a: int, b: int, n: int)
    requires n > 0
    ensures a < b ==> a * n + n <= b * n
  {
    if a < b {
      assert (b - a - 1) * n >= 0;
    }
  }

  /** Truncation towards zero stays between the bounds of a mean, whatever the signs. */
  lemma TruncatedBetween(sum: int, n: int, lo: int, hi: int)
    requires n > 0 && lo * n <= sum <= hi * n
    ensures lo <= Truncated(sum, n) <= hi
  {
    var q := Truncated(sum, n);
    ScaledOrder(q, lo, n);
    ScaledOrder(hi, q, n);
    assert if sum >= 0 then q * n <= sum < q * n + n else q * n - n < sum <= q * n;
  }

  /** While the count has not wrapped, a row's average is the truncated mean of its samples, between its extremes. */
  lemma AverageExact(values: seq<Int32>)
    requires 0 < |values| < TWO_32
    ensures var a := Folded(values);
      && a.count == |values| && Average(a) == Truncated(Sum(values), |values|)
      && a.min <= Average(a) <= a.max
  {
    var a := Folded(values);
    CountWraps(values);
    SumExact(values);
    ExtremesExact(values);
    SumBetween(values, a.min, a.max);
    TruncatedBetween(Sum(values), |values|, a.min, a.max);
  }

  function OnesThenZeros(m: nat, z: nat): (values: seq<Int32>)
    ensures |values| == m + z
  {
    seq(m, _ => 1) + seq(z, _ => 0)
  }

  lemma {:induction false} OnesThenZerosFolded(m: nat, z: nat)
    requires m < TWO_63
    ensures var a := Folded(OnesThenZeros(m, z)); a.sum == m && (m > 0 ==> a.max == 1)
    decreases z, m
  {
    var values := OnesThenZeros(m, z);
    if z > 0 {
      OnesThenZerosFolded(m, z - 1);
      assert values[..m + z - 1] == OnesThenZeros(m, z - 1);
    } else if m > 0 {
      OnesThenZerosFolded(m - 1, 0);
      assert values[..m - 1] == OnesThenZeros(m - 1, 0);
      assert m == 1 ==> Folded(values[..0]) == FRESH;
    }
  }

  lemma TwiceOver(k: nat)
    requires 0 < k < TWO_32
    ensures Truncated(2 * k, k) == 2
  {
    assert 2 * k == k * 2;
  }

  /** A window of n samples whose average exceeds its maximum. */
  lemma AverageTooBig(n: nat)
    requires n >= TWO_32 && n % TWO_32 > 0
    ensures 2 * (n % TWO_32) <= n
    ensures var a := Folded(OnesThenZeros(2 * (n % TWO_32), n - 2 * (n % TWO_32)));
      a.count > 0 && a.max == 1 && Average(a) == 2
  {
    var k := n % TWO_32;
    OnesThenZerosFolded(2 * k, n - 2 * k);
    CountWraps(OnesThenZeros(2 * k, n - 2 * k));
    TwiceOver(k);
  }

  /** The bound is exact: from 2^32 samples on, either no row is published or some window of that size gets a row whose
      average exceeds its maximum. */
  lemma AverageFailsFrom(n: nat)
    requires n >= TWO_32
    ensures n % TWO_32 == 0 ==> forall values :: |values| == n ==> Folded(values).count == 0
    ensures n % TWO_32 > 0 ==>
      exists values :: |values| == n && Folded(values).count > 0 && Average(Folded(values)) > Folded(values).max
  {
    if n % TWO_32 > 0 {
      AverageTooBig(n);
    } else {
      forall values: seq<Int32> | |values| == n ensures Folded(values).count == 0 {
        CountWraps(values);
      }
    }
  }
}
