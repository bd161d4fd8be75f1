/** Fixed-point multiply-and-divide on `i128`, and when it rounds the way its documentation says. */
module FixedPoint {
  import opened Prelude

  function CheckedMulDivFloor(a: I128, b: I128, d: I128): Result<I128> {
    var product := a * b;
    :- Need(FitsI128(product), Overflow);
    :- Need(d != 0 && !(product == I128_MIN && d == -1), HostAbort);
    FloorFits(product, d);
    Ok(if product >= 0 || RustRem(product, d) == 0 then RustDiv(product, d) else RustDiv(product, d) - 1)
  }

  function CheckedMulDivCeil(a: I128, b: I128, d: I128): Result<I128>
  {
    var product := a * b;
    :- Need(FitsI128(product), Overflow);
    :- Need(d != 0 && !(product == I128_MIN && d == -1), HostAbort);
    FloorFits(product, d);
    if product >= 0 then
      :- Need(FitsI128(d - 1), HostAbort);
      :- Need(FitsI128(product + (d - 1)), Overflow);
      FloorFits(product + (d - 1), d);
      Ok(RustDiv(product + (d - 1), d))
    else if RustRem(product, d) == 0 then Ok(RustDiv(product, d))
    else Ok(RustDiv(product, d) - 1)
  }

  /** `q` is the greatest integer not above the rational n/d. */
  predicate IsFloor(q: int, n: int, d: int)
    requires d != 0
  {
    if d > 0 then q * d <= n < (q + 1) * d else q * d >= n > (q + 1) * d
  }

  /** `q` is the least integer not below the rational n/d. */
  predicate IsCeil(q: int, n: int, d: int)
    requires d != 0
  {
    if d > 0 then (q - 1) * d < n <= q * d else (q - 1) * d > n >= q * d
  }

  /** What Rust's `/` and `%` have in common: n == q*d + r with r below |d| and signed like n. */
  lemma DivRem(n: int, d: int)
    requires d != 0
    ensures n == RustDiv(n, d) * d + RustRem(n, d)
    ensures n >= 0 ==> 0 <= RustRem(n, d) < (if d > 0 then d else -d)
    ensures n < 0 ==> (if d > 0 then -d else d) < RustRem(n, d) <= 0
  {
  }

  lemma FloorFits(n: I128, d: I128)
    requires d != 0 && !(n == I128_MIN && d == -1)
    ensures FitsI128(RustDiv(n, d))
    ensures n < 0 && RustRem(n, d) != 0 ==> FitsI128(RustDiv(n, d) - 1)
  {
    DivRem(n, d);
    var q := RustDiv(n, d);
    if d == 1 || d == -1 {
    } else if q > 0 {
      Magnitude(q, d);
    } else if q < 0 {
      Magnitude(-q, d);
    }
  }

  lemma Magnitude(q: int, d: int)
    requires q > 0 && (d >= 2 || d <= -2)
    ensures d > 0 ==> q * d >= 2 * q
    ensures d < 0 ==> q * d <= -2 * q
  {
  }

  /** The floor variant fails exactly on a product outside `i128`, a zero divisor, or the one
      quotient that does not fit; otherwise it is the mathematical floor if and only if the
      divisor is positive or divides the product. */
  lemma FloorIsExact(a: I128, b: I128, d: I128)
    ensures var r := CheckedMulDivFloor(a, b, d);
      && (r == Err(Overflow) <==> !FitsI128(a * b))
      && (r == Err(HostAbort) <==> FitsI128(a * b) && (d == 0 || (a * b == I128_MIN && d == -1)))
      && (r.Ok? ==> (IsFloor(r.value, a * b, d) <==> d > 0 || RustRem(a * b, d) == 0))
  {
    if d != 0 {
      DivRem(a * b, d);
    }
  }

  lemma CeilOfQuotient(n: int, d: int)
    requires d > 0
    ensures n >= 0 ==> IsCeil(RustDiv(n + (d - 1), d), n, d)
    ensures n < 0 ==> IsCeil(RustDiv(n, d), n, d)
    ensures n < 0 && RustRem(n, d) != 0 ==>
      !IsCeil(RustDiv(n, d) - 1, n, d) && IsFloor(RustDiv(n, d) - 1, n, d)
  {
    DivRem(n, d);
    DivRem(n + (d - 1), d);
  }

  lemma OffsetQuotient(n: nat, k: int)
    requires k > 0
    ensures var q := RustDiv(n - k - 1, -k); IsCeil(q, n, -k) <==> 2 <= n < k
  {
    var m := n - k - 1;
    var q := RustDiv(m, -k);
    DivRem(m, -k);
    assert m == q * -k + RustRem(m, -k);
    if q >= 1 { assert q * k >= k; }
    if q <= 0 { assert (q - 1) * k <= -k; }
  }

  /** With a negative divisor the offset d - 1 has the wrong sign: only quotients strictly between -1
      and 0 from a product of at least two, and exact ones of negative products, come out right. */
  lemma CeilOfNegativeDivisor(n: int, d: int)
    requires d < 0
    ensures n >= 0 ==> (IsCeil(RustDiv(n + (d - 1), d), n, d) <==> 2 <= n < -d)
    ensures n < 0 && RustRem(n, d) == 0 ==> IsCeil(RustDiv(n, d), n, d)
    ensures n < 0 && RustRem(n, d) != 0 ==> !IsCeil(RustDiv(n, d) - 1, n, d)
  {
    DivRem(n, d);
    if n >= 0 {
      OffsetQuotient(n, -d);
    }
  }

  /** When the ceiling variant fails, and exactly when its result is the mathematical ceiling. For a
      positive divisor that is when the product is non-negative or divides evenly; on every other
      product it returns one less. */
  lemma CeilIsExactIff(a: I128, b: I128, d: I128)
    ensures var r := CheckedMulDivCeil(a, b, d); var n := a * b;
      && (r == Err(Overflow) <==>
            !FitsI128(n) || (n >= 0 && d > 0 && !FitsI128(n + d - 1)))
      && (r == Err(HostAbort) <==>
            FitsI128(n) && (d == 0 || (n == I128_MIN && d == -1) || (n >= 0 && d == I128_MIN)))
      && (r.Ok? ==>
            (IsCeil(r.value, n, d) <==>
               if d > 0 then n >= 0 || RustRem(n, d) == 0
               else (n < 0 && RustRem(n, d) == 0) || 2 <= n < -d))
      && (r.Ok? && d > 0 && !IsCeil(r.value, n, d) ==> IsCeil(r.value + 1, n, d) && IsFloor(r.value, n, d))
  {
    hide IsCeil, IsFloor, RustRem, RustDiv;
    if d > 0 {
      CeilOfQuotient(a * b, d);
    } else if d < 0 {
      CeilOfNegativeDivisor(a * b, d);
    }
  }

  /** The documented example: the ceiling of -7 * 3 / 2 is -10, the code returns -11. */
  lemma CeilOfNegativeProduct()
    ensures CheckedMulDivCeil(-7, 3, 2) == Ok(-11)
    ensures IsCeil(-10, -7 * 3, 2)
  {
    DivRem(-21, 2);
    assert RustDiv(-21, 2) == -10;
  }
}
