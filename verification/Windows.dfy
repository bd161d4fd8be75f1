/** The fixed-window limits: the withdrawal quota, the daily deposit limit and the fiat cap. Each
    keeps one counter per key that restarts after WINDOW_LEDGERS, and each thereby bounds what any
    sliding span of WINDOW_LEDGERS ledgers can see. */
module Windows {
  import opened Prelude
  import opened Traces
  import FixedPoint

  const WINDOW_LEDGERS: int := 17_280
  const CENTS_DIVISOR: int := 100_000  // ORACLE_PRICE_DECIMALS / 100

  datatype Window = Window(amount: int, start: nat)

  /** The stored record, or a fresh one when there is none. */
  function Stored(w: Option<Window>, ledger: nat): Window {
    match w case None => Window(0, ledger) case Some(r) => r
  }

  /** The record a charge at this ledger counts against. */
  function Rolled(w: Option<Window>, ledger: nat): Window {
    var r := Stored(w, ledger);
    if ledger >= r.start + WINDOW_LEDGERS then Window(0, ledger) else r
  }

  /** `enforce_withdrawal_quota` on one user's record. */
  function ChargeQuota(w: Option<Window>, quota: int, ledger: nat, amount: int): Result<Option<Window>> {
    if quota <= 0 then Ok(w)
    else
      :- Need(Stored(w, ledger).start + WINDOW_LEDGERS <= U32_MAX, HostAbort);
      var r := Rolled(w, ledger);
      var total :- PlainI128(r.amount + amount);
      :- Need(total <= quota, WithdrawalQuotaExceeded);
      Ok(Some(Window(total, r.start)))
  }

  /** `enforce_daily_deposit_limit` on one depositor's record for one token. Both additions of its
      tests saturate. */
  function ChargeDaily(w: Option<Window>, limit: int, ledger: nat, amount: int): Result<Option<Window>> {
    if limit <= 0 then Ok(w)
    else
      var stored := Stored(w, ledger);
      var r := if ledger >= SaturateU32(stored.start + WINDOW_LEDGERS) then Window(0, ledger) else stored;
      :- Need(SaturateI128(r.amount + amount) <= limit, DailyLimitExceeded);
      var total :- PlainI128(r.amount + amount);
      Ok(Some(Window(total, r.start)))
  }

  /** The volume half of `validate_fiat_limit`: the deposit's worth in cents, rounded down. */
  function ChargeFiat(w: Option<Window>, limit: int, ledger: nat, amount: I128, price: I128): Result<Option<Window>> {
    var worth := FixedPoint.CheckedMulDivFloor(amount, price, CENTS_DIVISOR);
    :- Need(worth.Ok?, HostAbort);
    var cents := worth.value;
    :- Need(Stored(w, ledger).start + WINDOW_LEDGERS <= U32_MAX, HostAbort);
    var r := Rolled(w, ledger);
    var total :- PlainI128(r.amount + cents);
    :- Need(total <= limit, ExceedsFiatLimit);
    Ok(Some(Window(total, r.start)))
  }

  /** One accepted charge against a limit. */
  ghost predicate Accepted(w: Option<Window>, w': Option<Window>, limit: int, c: Charge) {
    var r := Rolled(w, c.ledger);
    r.amount + c.amount <= limit && w' == Some(Window(r.amount + c.amount, r.start))
  }

  lemma QuotaAccepts(w: Option<Window>, quota: int, ledger: nat, amount: nat)
    requires quota > 0
    ensures ChargeQuota(w, quota, ledger, amount).Ok? ==>
              Accepted(w, ChargeQuota(w, quota, ledger, amount).value, quota, Charge(ledger, amount))
  {
  }

  lemma DailyAccepts(w: Option<Window>, limit: int, ledger: nat, amount: nat)
    requires 0 < limit <= I128_MAX && ledger < U32_MAX
    ensures ChargeDaily(w, limit, ledger, amount).Ok? ==>
              Accepted(w, ChargeDaily(w, limit, ledger, amount).value, limit, Charge(ledger, amount))
  {
  }

  /** At the last ledger number the daily limit forgets: the saturated end of the window is the
      ledger itself, so whatever was deposited before, a full limit passes again and again. */
  lemma DailyLimitForgetsAtLastLedger(w: Option<Window>, limit: int, amount: nat)
    requires 0 < limit <= I128_MAX && (w.Some? ==> U32_MAX - WINDOW_LEDGERS < w.value.start <= U32_MAX)
    ensures ChargeDaily(w, limit, U32_MAX, amount).Ok? <==> amount <= limit
    ensures amount <= limit ==> ChargeDaily(w, limit, U32_MAX, amount).value == Some(Window(amount, U32_MAX))
  {
  }

  lemma FiatAccepts(w: Option<Window>, limit: int, ledger: nat, amount: I128, price: I128)
    requires amount > 0 && price > 0
    ensures ChargeFiat(w, limit, ledger, amount, price).Ok? ==>
              && amount * price / CENTS_DIVISOR >= 0
              && Accepted(w, ChargeFiat(w, limit, ledger, amount, price).value, limit,
                          Charge(ledger, amount * price / CENTS_DIVISOR))
  {
    FixedPoint.FloorIsExact(amount, price, CENTS_DIVISOR);
    assert amount * price > 0;
  }

  // ---- exactly which charges are accepted ----

  /** What the record's window holds if it is still open at this ledger. */
  function Held(w: Option<Window>, ledger: nat): int {
    if w.Some? && ledger < w.value.start + 17_280 then w.value.amount else 0
  }

  /** Where the window lies that an accepted charge at this ledger is counted in. */
  function Opened(w: Option<Window>, ledger: nat): nat {
    if w.Some? && ledger < w.value.start + 17_280 then w.value.start else ledger
  }

  /** The sum of a window's start and its length leaves `u32`. */
  predicate PastEnd(w: Option<Window>, ledger: nat) {
    (if w.Some? then w.value.start else ledger) + 17_280 > U32_MAX
  }

  /** A charge passes exactly when the quota is off, or what the open window holds leaves room for it; and it is
      added to that window, or opens a new one. */
  lemma QuotaAdmitsIff(w: Option<Window>, quota: int, ledger: nat, amount: nat)
    ensures var r, total := ChargeQuota(w, quota, ledger, amount), Held(w, ledger) + amount;
      r == if quota <= 0 then Ok(w)
           else if PastEnd(w, ledger) || !FitsI128(total) then Err(HostAbort)
           else if total > quota then Err(WithdrawalQuotaExceeded)
           else Ok(Some(Window(total, Opened(w, ledger))))
  {
  }

  /** The same for the daily limit, with its saturating sums: at the last ledger number every window is over. */
  lemma DailyAdmitsIff(w: Option<Window>, limit: int, ledger: U32, amount: nat)
    ensures var open := if ledger == U32_MAX then None else w;
      var total := Held(open, ledger) + amount;
      ChargeDaily(w, limit, ledger, amount) ==
        if limit <= 0 then Ok(w)
        else if total > limit && limit < I128_MAX then Err(DailyLimitExceeded)
        else if !FitsI128(total) then Err(HostAbort)
        else Ok(Some(Window(total, Opened(open, ledger))))
  {
  }

  /** The same for the fiat cap, with the deposit's worth in whole cents. */
  lemma FiatAdmitsIff(w: Option<Window>, limit: int, ledger: nat, amount: I128, price: I128)
    requires amount > 0 && price > 0
    ensures var total := Held(w, ledger) + amount * price / 100_000;
      ChargeFiat(w, limit, ledger, amount, price) ==
        if !FitsI128(amount * price) || PastEnd(w, ledger) || !FitsI128(total) then Err(HostAbort)
        else if total > limit then Err(ExceedsFiatLimit)
        else Ok(Some(Window(total, Opened(w, ledger))))
  {
    FixedPoint.FloorIsExact(amount, price, CENTS_DIVISOR);
    assert amount * price > 0;
  }

  // ---- what a whole run of accepted charges amounts to ----

  /** The part of the record's amount that was already there when the history began. */
  function Carried(w0: Option<Window>, w: Window): int {
    if w0.Some? && w0.value.start == w.start then w0.value.amount else 0
  }

  /** What a sliding span of WINDOW_LEDGERS ledgers sees. */
  function Span(p: seq<Charge>, a: int): nat { Sum(p, a, a + WINDOW_LEDGERS) }

  /** The state of a limit after the charges of `p`, which began with the record `w0`. */
  ghost predicate Tracks(w0: Option<Window>, w: Option<Window>, p: seq<Charge>, limit: int, now: nat) {
    && (forall i :: 0 <= i < |p| ==> p[i].ledger <= now)
    && (forall a: int :: Span(p, a) <= 2 * limit)
    && match w
       case None => w0 == None && p == []
       case Some(r) =>
         && r.start <= now
         && (forall i :: 0 <= i < |p| ==> p[i].ledger < r.start + WINDOW_LEDGERS)
         && (w0.Some? ==> w0.value.start <= r.start)
         && r.amount == Carried(w0, r) + Sum(p, r.start, FOREVER)
         && Sum(p, r.start, FOREVER) <= limit
         && (forall a: int :: a > r.start - WINDOW_LEDGERS ==> Sum(p, a, r.start) <= limit)
  }

  ghost predicate Sane(w: Option<Window>, now: nat) {
    w.Some? ==> w.value.amount >= 0 && w.value.start <= now
  }

  lemma TracksInitially(w: Option<Window>, limit: int, now: nat)
    requires limit >= 0 && Sane(w, now)
    ensures Tracks(w, w, [], limit, now)
  {
    forall a: int, b: int
      ensures Sum([], a, b) == 0
    {
      SumEmpty(a, b);
    }
  }

  lemma TracksLater(w0: Option<Window>, w: Option<Window>, p: seq<Charge>, limit: int, now: nat, now': nat)
    requires Tracks(w0, w, p, limit, now) && now <= now'
    ensures Tracks(w0, w, p, limit, now')
  {
  }

  /** Before a charge is added, the (possibly restarted) record is in order. */
  lemma TracksRoll(w0: Option<Window>, w: Option<Window>, p: seq<Charge>, limit: int, now: nat, ledger: nat)
    requires limit >= 0 && Sane(w0, now) && now <= ledger <= U32_MAX
    requires Tracks(w0, w, p, limit, now)
    ensures Tracks(w0, Some(Rolled(w, ledger)), p, limit, ledger)
  {
    if w == None {
      TracksInitially(None, limit, ledger);
      forall a: int
        ensures Sum(p, a, ledger) == 0 == Sum(p, ledger, FOREVER)
      {
        SumEmpty(a, ledger);
        SumEmpty(ledger, FOREVER);
      }
    } else if ledger >= w.value.start + WINDOW_LEDGERS {
      var start := w.value.start;
      SumAfterEnd(p, start + WINDOW_LEDGERS - 1, ledger, FOREVER);
      forall a: int | a > ledger - WINDOW_LEDGERS
        ensures Sum(p, a, ledger) <= limit
      {
        SumWithin(p, a, ledger, start, FOREVER);
      }
    }
  }

  /** An accepted charge keeps every sliding span of WINDOW_LEDGERS within twice the limit, and the
      counter equal to what was charged since its window began. */
  lemma TracksCharge(w0: Option<Window>, w: Option<Window>, w': Option<Window>, p: seq<Charge>,
                     limit: int, now: nat, c: Charge)
    requires limit >= 0 && Sane(w0, now) && now <= c.ledger <= U32_MAX
    requires Tracks(w0, w, p, limit, now)
    requires Accepted(w, w', limit, c)
    ensures Tracks(w0, w', p + [c], limit, c.ledger)
  {
    TracksRoll(w0, w, p, limit, now, c.ledger);
    var r := Rolled(w, c.ledger);
    SumAppend(p, c, r.start, FOREVER);
    forall a: int | a > r.start - WINDOW_LEDGERS
      ensures Sum(p + [c], a, r.start) <= limit
    {
      SumAppend(p, c, a, r.start);
      assert Sum(p, a, r.start) <= limit;
    }
    forall a: int
      ensures Span(p + [c], a) <= 2 * limit
    {
      SpanAfterCharge(w0, r, p, limit, c, a);
    }
  }

  /** What one call does to a record: it charges it once, now, or leaves it alone. */
  ghost predicate Moves(w: Option<Window>, w': Option<Window>, q: seq<Charge>, limit: int, now: nat) {
    if q == [] then w' == w
    else |q| == 1 && q[0].ledger == now <= U32_MAX && Accepted(w, w', limit, q[0])
  }

  lemma TracksMove(w0: Option<Window>, w: Option<Window>, w': Option<Window>, p: seq<Charge>, q: seq<Charge>,
                   limit: int, now: nat, now': nat)
    requires limit >= 0 && Sane(w0, now) && now <= now' && Tracks(w0, w, p, limit, now)
    requires Moves(w, w', q, limit, now')
    ensures Tracks(w0, w', p + q, limit, now')
  {
    hide Tracks, Accepted;
    if q == [] {
      assert p + q == p;
      TracksLater(w0, w, p, limit, now, now');
    } else {
      assert q == [q[0]];
      TracksCharge(w0, w, w', p, limit, now, q[0]);
    }
  }

  lemma SpanAfterCharge(w0: Option<Window>, r: Window, p: seq<Charge>, limit: int, c: Charge, a: int)
    requires Tracks(w0, Some(r), p, limit, c.ledger) && c.ledger <= U32_MAX
    requires Sane(w0, c.ledger) && r.amount + c.amount <= limit
    requires c.ledger < r.start + WINDOW_LEDGERS
    ensures Span(p + [c], a) <= 2 * limit
  {
    SumAppend(p, c, a, a + WINDOW_LEDGERS);
    assert Span(p, a) <= 2 * limit;
    if a <= c.ledger < a + WINDOW_LEDGERS {
      SpanWithNewCharge(p, r.start, c.ledger, a);
      if a < r.start {
        assert Sum(p, a, r.start) <= limit;
      }
    }
  }

  lemma SpanWithNewCharge(p: seq<Charge>, start: nat, ledger: nat, a: int)
    requires start <= ledger && a <= ledger < a + WINDOW_LEDGERS && ledger <= U32_MAX
    ensures Sum(p, a, a + WINDOW_LEDGERS) <= (if a < start then Sum(p, a, start) else 0) + Sum(p, start, FOREVER)
  {
    if a < start {
      SumSplit(p, a, start, a + WINDOW_LEDGERS);
      SumWithin(p, start, a + WINDOW_LEDGERS, start, FOREVER);
    } else {
      SumWithin(p, a, a + WINDOW_LEDGERS, start, FOREVER);
    }
  }
}
