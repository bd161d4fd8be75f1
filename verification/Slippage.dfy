/** The slippage test of deposits and of benchmarked withdrawals. */
module Slippage {
  import opened Prelude
  import FixedPoint

  const BPS: int := 10_000

  /** Follows the code branch by branch, with every intermediate product checked against `i128`. */
  function CheckSlippage(expected: I128, actual: I128, maxBps: U32): Result<()> {
    if expected <= 0 || actual >= expected then Ok(())
    else
      var diff :- PlainI128(expected - actual);
      // the reported value; its helper panics on any error
      :- Need(FixedPoint.CheckedMulDivFloor(diff, BPS, expected).Ok?, HostAbort);
      var threshold :- PlainI128(maxBps * expected);
      var numerator :- PlainI128(diff * BPS);
      :- Need(numerator <= threshold, SlippageTooHigh);
      var quotient := RustDiv(numerator, expected);
      :- Need(quotient <= maxBps, SlippageTooHigh);
      if quotient == maxBps && RustRem(numerator, expected) > 0
         && RustRem(numerator, expected) >= RustDiv(expected, 2)
      then Err(SlippageTooHigh)
      else Ok(())
  }

  /** Both products the test needs stay inside `i128`. */
  predicate InRange(expected: int, actual: int, maxBps: int) {
    expected > 0 && actual < expected ==>
      FitsI128((expected - actual) * BPS) && FitsI128(maxBps * expected)
  }

  /** The relative fall of the price is at most the allowed number of basis points. */
  ghost predicate WithinTolerance(expected: int, actual: int, maxBps: int) {
    || expected <= 0
    || actual >= expected
    || (expected - actual) as real / expected as real <= maxBps as real / 10000.0
  }

  lemma ScaleReal(x: real, y: real, k: real)
    requires x < y && k > 0.0
    ensures x * k < y * k
  {
  }

  lemma ScaleInt(x: int, y: int, k: int)
    requires x <= y && k > 0
    ensures x * k <= y * k
    ensures x < y ==> x * k < y * k
  {
  }

  lemma CrossMultiply(expected: int, diff: int, maxBps: int)
    requires expected > 0
    ensures diff as real / expected as real <= maxBps as real / 10000.0 <==> diff * BPS <= maxBps * expected
  {
    var e, x, m := expected as real, diff as real, maxBps as real;
    var q, t := x / e, m / 10000.0;
    assert x == q * e;
    assert (diff * BPS) as real == q * e * 10000.0;
    assert (maxBps * expected) as real == m * e == t * e * 10000.0;
    if q < t { ScaleReal(q, t, e); }
    if t < q { ScaleReal(t, q, e); }
  }

  /** The test is exact: it aborts only when a product overflows, and otherwise accepts if and only
      if the real-valued fall is within tolerance. So the quotient and remainder branches after the
      cross-multiplication never reject anything. */
  lemma SlippageIsExact(expected: I128, actual: I128, maxBps: U32)
    ensures var r := CheckSlippage(expected, actual, maxBps);
      && (r == Err(HostAbort) <==> !InRange(expected, actual, maxBps))
      && (InRange(expected, actual, maxBps) ==>
            r == if WithinTolerance(expected, actual, maxBps) then Ok(()) else Err(SlippageTooHigh))
  {
    if expected > 0 && actual < expected {
      var diff := expected - actual;
      CrossMultiply(expected, diff, maxBps);
      if FitsI128(diff) {
        FixedPoint.FloorIsExact(diff, BPS, expected);
      }
      FixedPoint.DivRem(diff * BPS, expected);
      var q, rem := RustDiv(diff * BPS, expected), RustRem(diff * BPS, expected);
      if q >= maxBps { ScaleInt(maxBps, q, expected); }
    }
  }

  /** A better price or a wider tolerance never turns acceptance into rejection; the only cost of a
      wider tolerance is a product that no longer fits. */
  lemma SlippageIsMonotone(expected: I128, actual: I128, maxBps: U32, actual': I128, maxBps': U32)
    requires actual <= actual' && maxBps <= maxBps'
    requires CheckSlippage(expected, actual, maxBps).Ok?
    ensures CheckSlippage(expected, actual', maxBps').Ok? || !InRange(expected, actual', maxBps')
    ensures CheckSlippage(expected, actual', maxBps).Ok?
  {
    SlippageIsExact(expected, actual, maxBps);
    SlippageIsExact(expected, actual', maxBps);
    SlippageIsExact(expected, actual', maxBps');
    if expected > 0 && actual' < expected {
      ScaleInt(maxBps, maxBps', expected);
      CrossMultiply(expected, expected - actual, maxBps);
      CrossMultiply(expected, expected - actual', maxBps);
      CrossMultiply(expected, expected - actual', maxBps');
    }
  }
}
