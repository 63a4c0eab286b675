/**
 * Integer arithmetic the components perform on dates and counts:
 * whole-day differences rounded up, and percentages rounded half up.
 */
module Metrics {
  /** Milliseconds in a day: `1000 * 60 * 60 * 24`. */
  const DAY: int := 86400000

  /** `Math.ceil(x / d)` for a positive divisor. */
  function CeilDiv(x: int, d: int): (r: int)
    requires d > 0
    ensures (r - 1) * d < x <= r * d
  {
    var q := (-x) / d;
    assert q * d <= -x < (q + 1) * d;
    -q
  }

  /** Whole days from `now` to `target`, rounded up: `Math.ceil((target - now) / DAY)`. */
  function DaysUntil(target: int, now: int): (r: int)
    ensures (r - 1) * DAY < target - now <= r * DAY
  {
    CeilDiv(target - now, DAY)
  }

  /** The day count is negative exactly when the target lies a whole day or more in the past. */
  lemma DaysUntilNegative(target: int, now: int)
    ensures DaysUntil(target, now) < 0 <==> target - now <= -DAY
  {
  }

  /** The day count is zero exactly when the target lies in the day ending at `now`. */
  lemma DaysUntilZero(target: int, now: int)
    ensures DaysUntil(target, now) == 0 <==> -DAY < target - now <= 0
  {
  }

  /** `Math.floor(a / b)` for a non-zero divisor of either sign. */
  function FloorDiv(a: int, b: int): (r: int)
    requires b != 0
    ensures b > 0 ==> r * b <= a < (r + 1) * b
    ensures b < 0 ==> r * b >= a > (r + 1) * b
  {
    if b > 0 then a / b else (-a) / (-b)
  }

  /** Multiplying by a positive factor keeps the order. */
  lemma MulLe(a: int, b: int, k: int)
    requires k > 0 && a <= b
    ensures a * k <= b * k
  {
    assert b * k - a * k == (b - a) * k;
  }

  /**
   * `Math.round(count / total * 100)`: the integer nearest to `100 * count / total`,
   * halves rounded up, i.e. `floor(100 * count / total + 1/2)`.
   */
  function RoundPercent(count: int, total: int): (r: int)
    requires total != 0
    ensures total > 0 ==> r * (2 * total) <= 200 * count + total < (r + 1) * (2 * total)
  {
    FloorDiv(200 * count + total, 2 * total)
  }

  /** A share of a positive total rounds to 0..100, nothing to 0 and the whole to 100. */
  lemma {:induction false} RoundPercentBounds(count: int, total: int)
    requires 0 <= count <= total && total > 0
    ensures 0 <= RoundPercent(count, total) <= 100
    ensures count == 0 ==> RoundPercent(count, total) == 0
    ensures count == total ==> RoundPercent(count, total) == 100
  {
    var r := RoundPercent(count, total);
    var k := 2 * total;
    assert r * k <= 200 * count + total < (r + 1) * k;
    if r < 0 {
      MulLe(r + 1, 0, k);
    }
    if r > 100 {
      MulLe(101, r, k);
    }
    if count == 0 && r > 0 {
      MulLe(1, r, k);
    }
    if count == total && r < 100 {
      MulLe(r + 1, 100, k);
    }
  }

  /** Nothing out of any non-zero total rounds to 0, whatever the total's sign. */
  lemma RoundPercentOfNothing(total: int)
    requires total != 0
    ensures RoundPercent(0, total) == 0
  {
    if total > 0 {
      RoundPercentBounds(0, total);
    } else {
      var r := RoundPercent(0, total);
      var k := -2 * total;
      assert r * k <= -total < (r + 1) * k;
      if r < 0 {
        MulLe(r + 1, 0, k);
      }
      if r > 0 {
        MulLe(1, r, k);
      }
    }
  }

  /** Of the same positive total, a smaller share never rounds to a larger percentage. */
  lemma RoundPercentMonotone(a: int, b: int, total: int)
    requires a <= b && total > 0
    ensures RoundPercent(a, total) <= RoundPercent(b, total)
  {
    var ra := RoundPercent(a, total);
    var rb := RoundPercent(b, total);
    var k := 2 * total;
    assert ra * k <= 200 * a + total <= 200 * b + total < (rb + 1) * k;
    if ra > rb {
      MulLe(rb + 1, ra, k);
    }
  }

  /**
   * `Math.round(count / total * 100)` with 0 for a total of 0: the
   * share of `count` in `total`, as a percentage rounded half up.
   */
  function Percentage(count: int, total: int): (r: int)
    ensures total == 0 ==> r == 0
    ensures total != 0 ==> r == RoundPercent(count, total)
    ensures 0 <= count <= total ==> 0 <= r <= 100
    ensures 0 < count == total ==> r == 100
    ensures count == 0 ==> r == 0
  {
    if total == 0 then 0
    else if total > 0 && 0 <= count <= total then
      RoundPercentBounds(count, total);
      RoundPercent(count, total)
    else if count == 0 then
      RoundPercentOfNothing(total);
      RoundPercent(count, total)
    else RoundPercent(count, total)
  }
}
