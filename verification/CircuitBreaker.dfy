/** The global circuit breaker on outflow. A withdrawal that reaches the threshold is paid and trips
    the breaker; further ones fail until the reset window has passed. */
module CircuitBreaker {
  import opened Prelude
  import opened Traces
  import opened Windows

  datatype Breaker = Breaker(volume: Option<Window>, tripped: bool, trippedAt: nat)

  /** Not tripped, or tripped so long ago that it may reset by itself. */
  predicate Clear(b: Breaker, resetWindow: nat, ledger: nat) {
    !b.tripped || (resetWindow != U32_MAX && ledger > SaturateU32(b.trippedAt + resetWindow))
  }

  /** The volume a withdrawal counts against: an automatic reset and the end of a window both restart it. */
  function Volume(b: Breaker, ledger: nat): Window {
    if b.tripped then Window(0, ledger) else Rolled(b.volume, ledger)
  }

  /** `check_and_update_circuit_breaker` */
  function ChargeBreaker(b: Breaker, threshold: int, resetWindow: nat, ledger: nat, amount: int): Result<Breaker> {
    if threshold <= 0 then Ok(b)
    else
      :- Need(Clear(b, resetWindow, ledger), CircuitBreakerActive);
      var start := if b.tripped then ledger else Stored(b.volume, ledger).start;
      :- Need(start + WINDOW_LEDGERS <= U32_MAX, HostAbort);
      var v := Volume(b, ledger);
      var total :- PlainI128(v.amount + amount);
      var tripped := total >= threshold;
      Ok(Breaker(Some(Window(total, v.start)), tripped, if tripped then ledger else b.trippedAt))
  }

  /** The withdrawal that reaches the threshold is not rejected: it goes through and trips the breaker. */
  lemma BreachIsPaid(b: Breaker, threshold: int, resetWindow: nat, ledger: nat, amount: nat)
    requires threshold > 0 && Clear(b, resetWindow, ledger) && Windows.Sane(b.volume, ledger)
    requires ledger + WINDOW_LEDGERS <= U32_MAX && FitsI128(Volume(b, ledger).amount + amount)
    requires Volume(b, ledger).amount + amount >= threshold
    ensures var r := ChargeBreaker(b, threshold, resetWindow, ledger, amount);
      r.Ok? && r.value.tripped && r.value.trippedAt == ledger
  {
  }

  /** Exactly which payouts the breaker lets through, and what it counts. It opens by itself once more than the
      reset window has passed since it tripped, unless that window is set to the largest number; then, as when the
      counting window is over, the count starts anew. */
  lemma BreakerAdmitsIff(b: Breaker, threshold: int, resetWindow: nat, ledger: nat, amount: nat)
    ensures var open := if b.tripped then None else b.volume;
      var total := Held(open, ledger) + amount;
      ChargeBreaker(b, threshold, resetWindow, ledger, amount) ==
        if threshold <= 0 then Ok(b)
        else if b.tripped && (resetWindow == U32_MAX || ledger <= Min(b.trippedAt + resetWindow, U32_MAX))
        then Err(CircuitBreakerActive)
        else if PastEnd(open, ledger) || !FitsI128(total) then Err(HostAbort)
        else Ok(Breaker(Some(Window(total, Opened(open, ledger))), total >= threshold,
                        if total >= threshold then ledger else b.trippedAt))
  {
  }

  ghost predicate Sane(b: Breaker, now: nat) {
    Windows.Sane(b.volume, now) && (b.tripped ==> b.trippedAt <= now)
  }

  /** The window that starts the running volume, given all payments `p` since observation began. */
  ghost predicate InWindow(v: Window, p: seq<Charge>, threshold: int, now: nat) {
    && v.start <= now
    && (forall i :: 0 <= i < |p| ==> p[i].ledger < v.start + WINDOW_LEDGERS)
    && Sum(p, v.start, FOREVER) <= v.amount
    && (forall a: int :: a > v.start - WINDOW_LEDGERS ==> Sum(p, a, v.start) < threshold)
  }

  ghost predicate Tracks(b: Breaker, p: seq<Charge>, threshold: int, most: nat, now: nat) {
    && Sane(b, now)
    && (forall i :: 0 <= i < |p| ==> p[i].ledger <= if b.tripped then b.trippedAt else now)
    && (forall a: int :: Span(p, a) < 2 * threshold + most)
    && match b.volume
       case None => p == []
       case Some(v) =>
         InWindow(v, p, threshold, now) && (!b.tripped ==> Sum(p, v.start, FOREVER) < threshold)
  }

  lemma TracksInitially(b: Breaker, threshold: int, most: nat, now: nat)
    requires threshold > 0 && Sane(b, now)
    ensures Tracks(b, [], threshold, most, now)
  {
    forall x: int, y: int
      ensures Sum([], x, y) == 0
    {
      SumEmpty(x, y);
    }
  }

  lemma VolumeInWindow(b: Breaker, p: seq<Charge>, threshold: int, resetWindow: nat, most: nat, now: nat, ledger: nat)
    requires threshold > 0 && resetWindow >= WINDOW_LEDGERS && now <= ledger <= U32_MAX
    requires Tracks(b, p, threshold, most, now) && Clear(b, resetWindow, ledger)
    ensures var v := Volume(b, ledger);
      InWindow(v, p, threshold, ledger) && Sum(p, v.start, FOREVER) < threshold
      && v.amount >= 0 && ledger < v.start + WINDOW_LEDGERS
  {
    if b.tripped {
      SumAfterEnd(p, b.trippedAt, ledger, FOREVER);
      forall a: int | a > ledger - WINDOW_LEDGERS
        ensures Sum(p, a, ledger) < threshold
      {
        SumAfterEnd(p, b.trippedAt, a, ledger);
      }
    } else if b.volume == None {
      forall x: int, y: int
        ensures Sum(p, x, y) == 0
      {
        SumEmpty(x, y);
      }
    } else if ledger >= b.volume.value.start + WINDOW_LEDGERS {
      var start := b.volume.value.start;
      SumAfterEnd(p, start + WINDOW_LEDGERS - 1, ledger, FOREVER);
      forall a: int | a > ledger - WINDOW_LEDGERS
        ensures Sum(p, a, ledger) < threshold
      {
        SumWithin(p, a, ledger, start, FOREVER);
      }
    }
  }

  /** One more payment of at most `most` keeps every sliding span below 2 * threshold + most. */
  lemma TracksCharge(b: Breaker, p: seq<Charge>, threshold: int, resetWindow: nat, most: nat, now: nat, c: Charge)
    requires threshold > 0 && resetWindow >= WINDOW_LEDGERS && now <= c.ledger <= U32_MAX
    requires Tracks(b, p, threshold, most, now) && c.amount <= most
    requires ChargeBreaker(b, threshold, resetWindow, c.ledger, c.amount).Ok?
    ensures Tracks(ChargeBreaker(b, threshold, resetWindow, c.ledger, c.amount).value, p + [c], threshold, most,
                   c.ledger)
  {
    VolumeInWindow(b, p, threshold, resetWindow, most, now, c.ledger);
    var v := Volume(b, c.ledger);
    WindowAfterCharge(v, p, threshold, c);
    forall a: int
      ensures Span(p + [c], a) < 2 * threshold + most
    {
      assert Span(p, a) < 2 * threshold + most;
      SpanAfterCharge(v, p, threshold, most, c, a);
    }
  }

  lemma WindowAfterCharge(v: Window, p: seq<Charge>, threshold: int, c: Charge)
    requires InWindow(v, p, threshold, c.ledger) && c.ledger < v.start + WINDOW_LEDGERS
    ensures InWindow(Window(v.amount + c.amount, v.start), p + [c], threshold, c.ledger)
  {
    SumAppend(p, c, v.start, FOREVER);
    forall a: int | a > v.start - WINDOW_LEDGERS
      ensures Sum(p + [c], a, v.start) < threshold
    {
      SumAppend(p, c, a, v.start);
      assert Sum(p, a, v.start) < threshold;
    }
  }

  lemma SpanAfterCharge(v: Window, p: seq<Charge>, threshold: int, most: nat, c: Charge, a: int)
    requires InWindow(v, p, threshold, c.ledger) && Sum(p, v.start, FOREVER) < threshold
    requires c.ledger <= U32_MAX && c.ledger < v.start + WINDOW_LEDGERS && c.amount <= most && threshold > 0
    requires Span(p, a) < 2 * threshold + most
    ensures Span(p + [c], a) < 2 * threshold + most
  {
    SumAppend(p, c, a, a + WINDOW_LEDGERS);
    if a <= c.ledger < a + WINDOW_LEDGERS {
      SpanWithNewCharge(p, v.start, c.ledger, a);
      if a < v.start {
        assert Sum(p, a, v.start) < threshold;
      }
    }
  }
}
