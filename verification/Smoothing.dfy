/**
 * The smoothed averages kept in every block header. Each block moves an average by the truncated
 * quotient of its distance from the new sample; the arithmetic is done in i128 and cast back to u64.
 */
module Smoothing {

  /** Rust's `/` on signed integers: the quotient rounded toward zero. */
  function TruncatingDiv(a: int, n: int): int
    requires n > 0
  {
    if a >= 0 then a / n else -((-a) / n)
  }

  function Abs(x: int): nat {
    if x < 0 then -x else x
  }

  /** One step of a smoothed average, before the cast back to an unsigned integer. */
  function Smooth(average: nat, sample: nat, period: nat): int
    requires period > 0
  {
    average - TruncatingDiv(average - sample, period)
  }

  /** The distance to the sample shrinks by its own truncated quotient, and the side is kept. */
  lemma {:induction false} SmoothDistance(average: nat, sample: nat, period: nat)
    requires period > 0
    ensures average >= sample ==>
      Smooth(average, sample, period) == sample + (average - sample) - (average - sample) / period
    ensures average <= sample ==>
      Smooth(average, sample, period) == sample - ((sample - average) - (sample - average) / period)
  {
  }

  lemma {:induction false} MulAtLeast(q: nat, n: nat)
    requires q >= 1 && n >= 1
    ensures q * n >= q + n - 1
  {
    calc {
      q * n - (q + n - 1);
      (q - 1) * (n - 1);
    }
  }

  lemma {:induction false} QuotientOf(d: nat, period: nat, q: nat, r: nat, product: nat)
    requires period > 0 && d == product + r && r < period
    requires q == 0 ==> product == 0
    requires q >= 1 ==> product >= q + period - 1
    ensures q <= d && (d < period <==> q == 0) && (d >= period ==> d - q >= period - 1)
  {
  }

  lemma {:induction false} QuotientBounds(d: nat, period: nat)
    requires period > 0
    ensures 0 <= d / period <= d
    ensures d < period <==> d / period == 0
    ensures d >= period ==> d - d / period >= period - 1
  {
    var (q, r) := (d / period, d % period);
    if q >= 1 { MulAtLeast(q, period); }
    QuotientOf(d, period, q, r, q * period);
  }

  /**
   * The new average lies between the old average and the sample, so it is a legal u64 whenever
   * both of them are, and the cast back to `Currency` never changes the value.
   */
  lemma {:induction false} SmoothStaysBetween(average: nat, sample: nat, period: nat)
    requires period > 0
    ensures average <= sample ==> average <= Smooth(average, sample, period) <= sample
    ensures sample <= average ==> sample <= Smooth(average, sample, period) <= average
    ensures average < 0x1_0000_0000_0000_0000 && sample < 0x1_0000_0000_0000_0000 ==>
      0 <= Smooth(average, sample, period) < 0x1_0000_0000_0000_0000
  {
    SmoothDistance(average, sample, period);
    QuotientBounds(Abs(average - sample), period);
  }

  /** The average after `steps` blocks that all bring the same sample. */
  function SmoothRun(average: nat, sample: nat, period: nat, steps: nat): nat
    requires period > 0
    decreases steps
  {
    if steps == 0 then average else
      SmoothStaysBetween(average, sample, period);
      SmoothRun(Smooth(average, sample, period), sample, period, steps - 1)
  }

  /** Where a run over a constant sample comes to rest. */
  function RestingPoint(average: nat, sample: nat, period: nat): int
    requires period > 0
  {
    if Abs(average - sample) < period then average
    else if average > sample then sample + (period - 1)
    else sample - (period - 1)
  }

  /** A step changes nothing exactly when the sample is closer than one period. */
  lemma {:induction false} SmoothFixedPoint(average: nat, sample: nat, period: nat)
    requires period > 0
    ensures Smooth(average, sample, period) == average <==> Abs(average - sample) < period
  {
    SmoothDistance(average, sample, period);
    QuotientBounds(Abs(average - sample), period);
  }

  /** One step keeps the resting point and, until it is reached, strictly shortens the distance. */
  lemma {:induction false} SmoothStepKeepsRestingPoint(average: nat, sample: nat, period: nat)
    requires period > 0
    ensures Smooth(average, sample, period) >= 0
    ensures RestingPoint(Smooth(average, sample, period), sample, period) == RestingPoint(average, sample, period)
    ensures Abs(average - sample) >= period ==>
      Abs(Smooth(average, sample, period) - sample) < Abs(average - sample)
  {
    SmoothStaysBetween(average, sample, period);
    SmoothDistance(average, sample, period);
    QuotientBounds(Abs(average - sample), period);
  }

  /**
   * Under a constant sample every run is monotone toward the sample and never overshoots it, and
   * after at most `|average - sample|` blocks it rests, for good, at exactly the resting point:
   * `period - 1` away from the sample unless the average started closer than that.
   */
  lemma {:induction false} SmoothRunSettles(average: nat, sample: nat, period: nat, steps: nat)
    requires period > 0
    ensures average <= sample ==> average <= SmoothRun(average, sample, period, steps) <= sample
    ensures sample <= average ==> sample <= SmoothRun(average, sample, period, steps) <= average
    ensures steps >= Abs(average - sample) ==>
      SmoothRun(average, sample, period, steps) == RestingPoint(average, sample, period)
    decreases steps
  {
    if steps > 0 {
      var next := Smooth(average, sample, period);
      SmoothStepKeepsRestingPoint(average, sample, period);
      SmoothStaysBetween(average, sample, period);
      SmoothRunSettles(next, sample, period, steps - 1);
      if Abs(average - sample) < period {
        SmoothFixedPoint(average, sample, period);
        SmoothRunFixed(average, sample, period, steps);
      }
    }
  }

  lemma {:induction false} SmoothRunFixed(average: nat, sample: nat, period: nat, steps: nat)
    requires period > 0 && Abs(average - sample) < period
    ensures SmoothRun(average, sample, period, steps) == average
    decreases steps
  {
    if steps > 0 {
      SmoothFixedPoint(average, sample, period);
      SmoothRunFixed(average, sample, period, steps - 1);
    }
  }
}
