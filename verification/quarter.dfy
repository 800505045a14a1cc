/**
 Quarter-point price rounding (`round_to_quarter`): `round(price * 4) / 4`,
 where Python's `round` sends exact halves to the even integer.
 */
module Quarter {

  /** True of a real that is a whole number. */
  predicate IsWhole(x: real) {
    x.Floor as real == x
  }

  /** `x` is a multiple of 0.25, i.e. a tick of the execution venue. */
  predicate IsQuarter(x: real) {
    IsWhole(x * 4.0)
  }

  /** `x` is a multiple of 0.5, i.e. an even number of quarter ticks. */
  predicate IsHalf(x: real) {
    IsWhole(x * 2.0)
  }

  /** Python's `round` on a float: nearest integer, exact halves to the even one. */
  function RoundHalfEven(x: real): (n: int)
    ensures x - 0.5 <= n as real <= x + 0.5
    ensures (n as real == x - 0.5 || n as real == x + 0.5) ==> n % 2 == 0
  {
    var f := x.Floor;
    var d := x - f as real;
    if d < 0.5 then f
    else if d > 0.5 then f + 1
    else if f % 2 == 0 then f
    else f + 1
  }

  /** The two properties of RoundHalfEven determine it: there is exactly one such integer. */
  lemma RoundHalfEvenUnique(x: real, m: int)
    requires x - 0.5 <= m as real <= x + 0.5
    requires (m as real == x - 0.5 || m as real == x + 0.5) ==> m % 2 == 0
    ensures m == RoundHalfEven(x)
  {
  }

  lemma RoundHalfEvenMonotone(x: real, y: real)
    requires x <= y
    ensures RoundHalfEven(x) <= RoundHalfEven(y)
  {
  }

  /** Shifting the input by an even integer shifts the result by the same amount. */
  lemma RoundHalfEvenShift(x: real, k: int)
    ensures RoundHalfEven(x + (2 * k) as real) == RoundHalfEven(x) + 2 * k
  {
    var n := RoundHalfEven(x);
    assert (n + 2 * k) % 2 == n % 2;
    RoundHalfEvenUnique(x + (2 * k) as real, n + 2 * k);
  }

  /**
   `r` is a correct quarter rounding of `price`: a tick no more than an eighth
   away, and on an exact eighth the tick that is a multiple of 0.5.
   */
  predicate RoundsTo(r: real, price: real) {
    && IsQuarter(r)
    && price - 0.125 <= r <= price + 0.125
    && ((r == price - 0.125 || r == price + 0.125) ==> IsHalf(r))
  }

  /** `round_to_quarter`: the nearest multiple of 0.25, exact eighths going to a multiple of 0.5. */
  function RoundToQuarter(price: real): (r: real)
    ensures IsQuarter(r)
    ensures price - 0.125 <= r <= price + 0.125
    ensures (r == price - 0.125 || r == price + 0.125) ==> IsHalf(r)
  {
    var n := RoundHalfEven(price * 4.0);
    assert (n as real).Floor == n;
    assert n % 2 == 0 ==> ((n / 2) as real).Floor == n / 2 && (n / 2) as real == n as real / 2.0;
    n as real / 4.0
  }

  /** A multiple of 0.5 is an even number of quarter ticks. */
  lemma HalfIsEvenTicks(r: real)
    requires IsHalf(r)
    ensures IsWhole(r * 4.0) && (r * 4.0).Floor % 2 == 0
  {
    var m := (r * 2.0).Floor;
    assert (2 * m) as real == r * 4.0;
    assert ((2 * m) as real).Floor == 2 * m;
  }

  /** `RoundsTo` determines the rounded price: only `RoundToQuarter(price)` satisfies it. */
  lemma RoundToQuarterUnique(r: real, price: real)
    requires RoundsTo(r, price)
    ensures r == RoundToQuarter(price)
  {
    var n := (r * 4.0).Floor;
    assert n as real == r * 4.0;
    assert price * 4.0 - 0.5 <= n as real <= price * 4.0 + 0.5;
    if n as real == price * 4.0 - 0.5 || n as real == price * 4.0 + 0.5 {
      assert r == price - 0.125 || r == price + 0.125;
      HalfIsEvenTicks(r);
    }
    RoundHalfEvenUnique(price * 4.0, n);
    assert RoundToQuarter(price) == n as real / 4.0;
  }

  lemma RoundToQuarterMonotone(p: real, q: real)
    requires p <= q
    ensures RoundToQuarter(p) <= RoundToQuarter(q)
  {
    RoundHalfEvenMonotone(p * 4.0, q * 4.0);
  }

  /** Moving the price by `k` half points moves the rounded price by exactly `k` half points. */
  lemma RoundToQuarterShift(p: real, k: int)
    ensures RoundToQuarter(p + k as real * 0.5) == RoundToQuarter(p) + k as real * 0.5
  {
    assert (p + k as real * 0.5) * 4.0 == p * 4.0 + (2 * k) as real;
    RoundHalfEvenShift(p * 4.0, k);
  }

  /** A price already on a quarter tick is left where it is. */
  lemma RoundToQuarterFixesTicks(p: real)
    requires IsQuarter(p)
    ensures RoundToQuarter(p) == p
  {
    var m := (p * 4.0).Floor;
    RoundHalfEvenUnique(p * 4.0, m);
  }

  /** Rounding is idempotent. */
  lemma RoundToQuarterIdempotent(p: real)
    ensures RoundToQuarter(RoundToQuarter(p)) == RoundToQuarter(p)
  {
    RoundToQuarterFixesTicks(RoundToQuarter(p));
  }

  /** If two prices are at least `2.5` apart, so are their rounded values. */
  lemma RoundToQuarterKeepsSpread(lo: real, hi: real)
    requires lo + 2.5 <= hi
    ensures RoundToQuarter(lo) + 2.5 <= RoundToQuarter(hi)
  {
    RoundToQuarterShift(lo, 5);
    RoundToQuarterMonotone(lo + 2.5, hi);
  }

  /** Worked values: 100.1 rounds down, 100.13 rounds up, exact eighths go to the even tick. */
  lemma RoundToQuarterExamples()
    ensures RoundToQuarter(100.1) == 100.0
    ensures RoundToQuarter(100.13) == 100.25
    ensures RoundToQuarter(0.125) == 0.0
    ensures RoundToQuarter(0.375) == 0.5
    ensures RoundToQuarter(-0.125) == 0.0
  {
    RoundHalfEvenUnique(400.4, 400);
    RoundHalfEvenUnique(400.52, 401);
    RoundHalfEvenUnique(0.5, 0);
    RoundHalfEvenUnique(1.5, 2);
    RoundHalfEvenUnique(-0.5, 0);
  }
}
