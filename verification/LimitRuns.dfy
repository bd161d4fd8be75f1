/** The limits over whole runs: what a user can be paid, deposit, or bring in fiat worth within any
    WINDOW_LEDGERS consecutive ledgers, and what the breaker lets out. */
module LimitRuns {
  import opened Prelude
  import opened Traces
  import opened Windows
  import CB = CircuitBreaker
  import Slippage
  import opened Escrow
  import opened Accounting
  import Reachable

  /** The condition holds in every state the run visits. */
  ghost predicate Throughout(s: State, calls: seq<Call>, p: State -> bool)
    decreases |calls|
  {
    p(s) && (calls != [] ==> Throughout(Next(s, calls[0]), calls[1..], p))
  }

  // ---- the events of a run ----

  /** What a call added to the history. */
  function Added(s: State, call: Call): Option<Event> {
    var h := Next(s, call).history;
    if |h| > |s.history| then Some(h[|h| - 1]) else None
  }

  /** The payouts of a run, to one user or to all. */
  function Payouts(s: State, calls: seq<Call>, user: Option<Address>): seq<Charge>
    decreases |calls|
  {
    if calls == [] then [] else PayoutOf(Added(s, calls[0]), user) + Payouts(Next(s, calls[0]), calls[1..], user)
  }

  function PayoutOf(e: Option<Event>, user: Option<Address>): seq<Charge> {
    if e.Some? && e.value.Paid? && (user == None || user == Some(e.value.user))
    then [Charge(e.value.ledger, e.value.amount)] else []
  }

  // ---- what one call does to the limits ----

  /** The administrator clears a tripped breaker. */
  predicate Resets(s: State, call: Call) {
    call.op.OpResetBreaker? && s.breaker.tripped && Step(s, call).Ok?
  }

  /** A payout went through the quota of its recipient and through the breaker; anything else left
      both alone, apart from a manual reset of a tripped breaker. */
  ghost predicate PayoutCharged(s: State, s': State, env: Env, op: Op) {
    if |s'.history| > |s.history| && s'.history[|s'.history| - 1].Paid? then
      var e := s'.history[|s'.history| - 1];
      && s'.history == s.history + [e] && e.ledger == env.ledger
      && ChargeLimits(s, env, e.user, e.amount) == Ok((s'.quotaUsed, s'.breaker))
    else
      && s'.quotaUsed == s.quotaUsed
      && (s'.breaker == s.breaker || (op.OpResetBreaker? && s.breaker.tripped))
  }

  lemma WithdrawCharges(s: State, env: Env, caller: Address, to: Address, amount: I128, token: Address)
    requires Withdraw(s, env, caller, to, amount, token).Ok?
    ensures PayoutCharged(s, Withdraw(s, env, caller, to, amount, token).value, env,
                          OpWithdraw(caller, to, amount, token))
  {
    hide ChargeLimits, Transfer, Balance, CheckInvariants;
  }

  lemma ExecuteCharges(s: State, env: Env, id: nat, partial: Option<I128>, expected: I128, slippage: U32, nonce: nat)
    requires ExecuteWithdrawal(s, env, id, partial, expected, slippage, nonce).Ok?
    ensures PayoutCharged(s, ExecuteWithdrawal(s, env, id, partial, expected, slippage, nonce).value, env,
                          OpExecute(id, partial, expected, slippage, nonce))
  {
    hide ChargeLimits, Transfer, Balance, CheckInvariants, AdmitExecution, CheckBenchmark, Served;
  }

  lemma DepositCharges(s: State, env: Env, from: Address, amount: I128, token: Address, reference: string,
                       expected: I128, slippage: U32, memo: Option<Hash>)
    requires Deposit(s, env, from, amount, token, reference, expected, slippage, memo).Ok?
    ensures PayoutCharged(s, Deposit(s, env, from, amount, token, reference, expected, slippage, memo).value.0, env,
                          OpDeposit(from, amount, token, reference, expected, slippage, memo))
  {
    hide ChargeLimits, Transfer, Balance, CheckInvariants, AdmitDeposit, ChargeDaily, ValidateFiat,
         Slippage.CheckSlippage;
  }

  lemma OthersCharge(s: State, env: Env, op: Op)
    requires Apply(s, env, op).Ok? && !op.OpWithdraw? && !op.OpExecute? && !op.OpDeposit?
    ensures PayoutCharged(s, Apply(s, env, op).value, env, op)
  {
    hide ChargeLimits, Transfer, Balance, CheckInvariants, Deposit, Withdraw, ExecuteWithdrawal, Recent, CB.Clear;
  }

  lemma StepCharges(s: State, call: Call)
    requires Step(s, call).Ok?
    ensures PayoutCharged(s, Step(s, call).value, call.env, call.op)
  {
    hide ChargeLimits, Deposit, Withdraw, RequestWithdrawal, ExecuteWithdrawal, CancelWithdrawal, ReclaimExpired,
         WithdrawFees, OutsideTransfer;
    var env := call.env;
    match call.op
    case OpWithdraw(caller, to, amount, token) => WithdrawCharges(s, env, caller, to, amount, token);
    case OpExecute(id, partial, expected, slippage, nonce) =>
      ExecuteCharges(s, env, id, partial, expected, slippage, nonce);
    case OpDeposit(from, amount, token, reference, expected, slippage, memo) =>
      DepositCharges(s, env, from, amount, token, reference, expected, slippage, memo);
    case _ => OthersCharge(s, env, call.op);
  }

  /** Time and the saneness of the records along one call. */
  lemma StepLater(s: State, call: Call)
    requires Inv(s)
    ensures Inv(Next(s, call)) && Next(s, call).now >= s.now
    ensures Step(s, call).Ok? ==> Next(s, call).now == call.env.ledger <= U32_MAX
  {
    hide Inv, Apply;
    if Step(s, call).Ok? { Reachable.StepKeeps(s, call); }
  }

  lemma SaneRecords(s: State, user: Address)
    requires Inv(s)
    ensures Windows.Sane(Find(s.quotaUsed, user), s.now)
    ensures Windows.Sane(Find(s.fiatVolume, user), s.now)
    ensures Windows.Sane(Find(s.dailyDeposits, (user, s.token)), s.now)
    ensures CB.Sane(s.breaker, s.now)
  {
    hide CountersOk, BalanceOk, QueueOk, ReceiptsOk;
  }

  // ---- the quota ----

  lemma QuotaMoves(s: State, call: Call, quota: int, user: Address)
    requires Inv(s) && quota > 0 && s.cfg.quota == quota
    ensures Windows.Moves(Find(s.quotaUsed, user), Find(Next(s, call).quotaUsed, user),
                          PayoutOf(Added(s, call), Some(user)), quota, Next(s, call).now)
  {
    hide Inv, Apply, ChargeQuota, Windows.Accepted, CB.ChargeBreaker;
    StepLater(s, call);
    if Step(s, call).Ok? { StepCharges(s, call); }
    var e := Added(s, call);
    if e.Some? && e.value.Paid? && e.value.user == user {
      QuotaAccepts(Find(s.quotaUsed, user), quota, e.value.ledger, e.value.amount);
    }
  }

  lemma QuotaStep(s: State, call: Call, w0: Option<Window>, p: seq<Charge>, quota: int, user: Address, now0: nat)
    requires Inv(s) && quota > 0 && s.cfg.quota == quota && Windows.Sane(w0, now0) && now0 <= s.now
    requires Windows.Tracks(w0, Find(s.quotaUsed, user), p, quota, s.now)
    ensures var s' := Next(s, call);
      Windows.Tracks(w0, Find(s'.quotaUsed, user), p + PayoutOf(Added(s, call), Some(user)), quota, s'.now)
  {
    hide Inv, Next, Added, PayoutOf, Windows.Tracks, Windows.Moves;
    StepLater(s, call);
    QuotaMoves(s, call, quota, user);
    Windows.TracksMove(w0, Find(s.quotaUsed, user), Find(Next(s, call).quotaUsed, user), p,
                       PayoutOf(Added(s, call), Some(user)), quota, s.now, Next(s, call).now);
  }

  lemma {:induction false} QuotaRun(s: State, calls: seq<Call>, w0: Option<Window>, p: seq<Charge>, quota: int,
                                    user: Address, now0: nat)
    requires Inv(s) && quota > 0 && Windows.Sane(w0, now0) && now0 <= s.now
    requires Throughout(s, calls, (t: State) => t.cfg.quota == quota)
    requires Windows.Tracks(w0, Find(s.quotaUsed, user), p, quota, s.now)
    ensures Windows.Tracks(w0, Find(Run(s, calls).quotaUsed, user), p + Payouts(s, calls, Some(user)), quota,
                           Run(s, calls).now)
    decreases |calls|
  {
    hide Inv, Step, Windows.Tracks;
    if calls == [] {
      assert p + [] == p;
    } else {
      var q := PayoutOf(Added(s, calls[0]), Some(user));
      StepLater(s, calls[0]);
      QuotaStep(s, calls[0], w0, p, quota, user, now0);
      QuotaRun(Next(s, calls[0]), calls[1..], w0, p + q, quota, user, now0);
      var rest := Payouts(Next(s, calls[0]), calls[1..], Some(user));
      assert p + (q + rest) == (p + q) + rest;
    }
  }

  /** The counter of the current window: what the charges `p` of the run put into it, plus what a record
      with the same window start held before the run. */
  predicate Counted(w0: Option<Window>, w: Option<Window>, p: seq<Charge>, limit: int) {
    if w == None then w0 == None && p == []
    else
      var charged := Sum(p, w.value.start, FOREVER);
      charged <= limit && w.value.amount == Carried(w0, w.value) + charged
  }

  /** With a constant quota, from any state that satisfies the accounting invariant: no user is paid
      more than twice the quota, by `withdraw` and `execute_withdrawal` together, in any
      WINDOW_LEDGERS consecutive ledgers. In the current window the run pays a user at most the quota,
      and the stored counter is exactly that, plus what the record held before if the window was open. */
  lemma QuotaBoundsEverySpan(s: State, calls: seq<Call>, quota: int, user: Address, a: int)
    requires Inv(s) && quota > 0
    requires Throughout(s, calls, (t: State) => t.cfg.quota == quota)
    ensures var p, w := Payouts(s, calls, Some(user)), Find(Run(s, calls).quotaUsed, user);
      && Sum(p, a, a + WINDOW_LEDGERS) <= 2 * quota
      && Counted(Find(s.quotaUsed, user), w, p, quota)
  {
    hide Inv, Step;
    SaneRecords(s, user);
    var w0 := Find(s.quotaUsed, user);
    Windows.TracksInitially(w0, quota, s.now);
    QuotaRun(s, calls, w0, [], quota, user, s.now);
    var p := Payouts(s, calls, Some(user));
    assert [] + p == p;
    assert Span(p, a) <= 2 * quota;
  }

  // ---- the breaker ----

  /** Nobody clears a tripped breaker: reset calls that are refused, or that find it untripped, do not count. */
  predicate NeverReset(s: State, calls: seq<Call>)
    decreases |calls|
  {
    calls == [] || (!Resets(s, calls[0]) && NeverReset(Next(s, calls[0]), calls[1..]))
  }

  /** Constant threshold and reset window, and no manual reset. */
  ghost predicate BreakerSteady(s: State, calls: seq<Call>, threshold: int, resetWindow: nat) {
    && Throughout(s, calls, (t: State) => t.cfg.breakerThreshold == threshold && t.cfg.breakerWindow == resetWindow)
    && NeverReset(s, calls)
  }

  lemma BreakerSteadyRest(s: State, calls: seq<Call>, threshold: int, resetWindow: nat)
    requires calls != [] && BreakerSteady(s, calls, threshold, resetWindow)
    ensures s.cfg.breakerThreshold == threshold && s.cfg.breakerWindow == resetWindow && !Resets(s, calls[0])
    ensures BreakerSteady(Next(s, calls[0]), calls[1..], threshold, resetWindow)
  {
    hide Step;
  }

  lemma BreakerStep(s: State, call: Call, p: seq<Charge>, threshold: int, resetWindow: nat, most: nat)
    requires Inv(s) && threshold > 0 && resetWindow >= WINDOW_LEDGERS && !Resets(s, call)
    requires s.cfg.breakerThreshold == threshold && s.cfg.breakerWindow == resetWindow
    requires CB.Tracks(s.breaker, p, threshold, most, s.now)
    requires forall c :: c in PayoutOf(Added(s, call), None) ==> c.amount <= most
    ensures var s' := Next(s, call);
      CB.Tracks(s'.breaker, p + PayoutOf(Added(s, call), None), threshold, most, s'.now)
  {
    hide Inv, Apply, CB.Tracks, CB.ChargeBreaker, ChargeQuota;
    var s' := Next(s, call);
    StepLater(s, call);
    BreakerLater(s.breaker, p, threshold, most, s.now, s'.now);
    if Step(s, call).Ok? && Added(s, call).Some? && Added(s, call).value.Paid? {
      StepCharges(s, call);
      var e := Added(s, call).value;
      assert Charge(e.ledger, e.amount) in PayoutOf(Added(s, call), None);
      CB.TracksCharge(s.breaker, p, threshold, resetWindow, most, s.now, Charge(e.ledger, e.amount));
    } else {
      if Step(s, call).Ok? { StepCharges(s, call); }
      assert p + [] == p;
    }
  }

  lemma BreakerLater(b: CB.Breaker, p: seq<Charge>, threshold: int, most: nat, now: nat, now': nat)
    requires CB.Tracks(b, p, threshold, most, now) && now <= now'
    ensures CB.Tracks(b, p, threshold, most, now')
  {
  }

  lemma {:induction false} BreakerRun(s: State, calls: seq<Call>, p: seq<Charge>, threshold: int, resetWindow: nat,
                                      most: nat)
    requires Inv(s) && threshold > 0 && resetWindow >= WINDOW_LEDGERS
    requires BreakerSteady(s, calls, threshold, resetWindow)
    requires forall c :: c in Payouts(s, calls, None) ==> c.amount <= most
    requires CB.Tracks(s.breaker, p, threshold, most, s.now)
    ensures CB.Tracks(Run(s, calls).breaker, p + Payouts(s, calls, None), threshold, most, Run(s, calls).now)
    decreases |calls|
  {
    hide Inv, Step, CB.Tracks, BreakerSteady;
    if calls == [] {
      assert p + [] == p;
    } else {
      var q, rest := PayoutOf(Added(s, calls[0]), None), Payouts(Next(s, calls[0]), calls[1..], None);
      assert Payouts(s, calls, None) == q + rest;
      assert forall c :: c in q || c in rest ==> c in q + rest;
      BreakerSteadyRest(s, calls, threshold, resetWindow);
      StepLater(s, calls[0]);
      BreakerStep(s, calls[0], p, threshold, resetWindow, most);
      BreakerRun(Next(s, calls[0]), calls[1..], p + q, threshold, resetWindow, most);
      assert p + (q + rest) == (p + q) + rest;
    }
  }

  /** With a constant threshold, a reset window of at least WINDOW_LEDGERS, no manual reset and no
      single payout above `most`, less than 2 * threshold + most leaves in any WINDOW_LEDGERS
      consecutive ledgers. */
  lemma BreakerBoundsEverySpan(s: State, calls: seq<Call>, threshold: int, resetWindow: nat, most: nat, a: int)
    requires Inv(s) && threshold > 0 && resetWindow >= WINDOW_LEDGERS
    requires BreakerSteady(s, calls, threshold, resetWindow)
    requires forall c :: c in Payouts(s, calls, None) ==> c.amount <= most
    ensures Sum(Payouts(s, calls, None), a, a + WINDOW_LEDGERS) < 2 * threshold + most
  {
    hide Inv, Step, BreakerSteady;
    SaneRecords(s, s.self);
    CB.TracksInitially(s.breaker, threshold, most, s.now);
    BreakerRun(s, calls, [], threshold, resetWindow, most);
    var p := Payouts(s, calls, None);
    assert [] + p == p;
    assert Span(p, a) < 2 * threshold + most;
  }

  /** Either still tripped since `trippedAt`, or its reset window is over. */
  predicate Waiting(b: CB.Breaker, now: nat, trippedAt: nat, resetWindow: nat) {
    (b.tripped && b.trippedAt == trippedAt) || now > trippedAt + resetWindow
  }

  lemma SilentStep(s: State, call: Call, threshold: int, resetWindow: nat, trippedAt: nat)
    requires Inv(s) && threshold > 0 && !Resets(s, call)
    requires s.cfg.breakerThreshold == threshold && s.cfg.breakerWindow == resetWindow
    requires Waiting(s.breaker, s.now, trippedAt, resetWindow)
    ensures Waiting(Next(s, call).breaker, Next(s, call).now, trippedAt, resetWindow)
    ensures forall c :: c in PayoutOf(Added(s, call), None) ==> c.ledger > trippedAt + resetWindow
  {
    hide Inv, Apply, ChargeQuota;
    StepLater(s, call);
    if Step(s, call).Ok? { StepCharges(s, call); }
  }

  /** Once tripped at a ledger, the breaker lets nothing out until more than the reset window later. */
  lemma {:induction false} NothingPaidWhileTripped(s: State, calls: seq<Call>, threshold: int, resetWindow: nat,
                                                   trippedAt: nat)
    requires Inv(s) && threshold > 0 && BreakerSteady(s, calls, threshold, resetWindow)
    requires Waiting(s.breaker, s.now, trippedAt, resetWindow)
    ensures forall c :: c in Payouts(s, calls, None) ==> c.ledger > trippedAt + resetWindow
    decreases |calls|
  {
    hide Inv, Step, BreakerSteady, Waiting;
    if calls != [] {
      BreakerSteadyRest(s, calls, threshold, resetWindow);
      StepLater(s, calls[0]);
      SilentStep(s, calls[0], threshold, resetWindow, trippedAt);
      NothingPaidWhileTripped(Next(s, calls[0]), calls[1..], threshold, resetWindow, trippedAt);
    }
  }

  // ---- deposits ----

  /** A deposit went through the daily limit and the fiat cap of its depositor; anything else left
      both alone. */
  ghost predicate DepositCharged(s: State, s': State, env: Env) {
    if |s'.history| > |s.history| && s'.history[|s'.history| - 1].Deposited? then
      var e := s'.history[|s'.history| - 1];
      && s'.history == s.history + [e] && e.ledger == env.ledger
      && 0 < e.amount && FitsI128(e.amount) && FitsI128(e.price) && e.token in s.registry
      && var w := ChargeDaily(Find(s.dailyDeposits, (e.user, e.token)), s.registry[e.token].dailyDepositLimit,
                              env.ledger, e.amount);
      && w.Ok? && s'.dailyDeposits == Store(s.dailyDeposits, (e.user, e.token), w.value)
      && ValidateFiat(s, env, e.user, e.amount) == Ok((s'.fiatVolume, e.price))
    else
      s'.dailyDeposits == s.dailyDeposits && s'.fiatVolume == s.fiatVolume
  }

  lemma DepositChargesLimits(s: State, env: Env, from: Address, amount: I128, token: Address, reference: string,
                             expected: I128, slippage: U32, memo: Option<Hash>)
    requires Deposit(s, env, from, amount, token, reference, expected, slippage, memo).Ok?
    ensures DepositCharged(s, Deposit(s, env, from, amount, token, reference, expected, slippage, memo).value.0, env)
  {
    hide ClearDeposit, PayIn, ChargeDaily, ValidateFiat;
    ClearedCharges(s, env, from, amount, token, reference, expected, slippage, memo);
  }

  lemma ClearedCharges(s: State, env: Env, from: Address, amount: I128, token: Address, reference: string,
                       expected: I128, slippage: U32, memo: Option<Hash>)
    requires ClearDeposit(s, env, from, amount, token, reference, expected, slippage, memo).Ok?
    ensures var (daily, fiat, price) :=
              ClearDeposit(s, env, from, amount, token, reference, expected, slippage, memo).value;
      && amount > 0 && token in s.registry
      && var w := ChargeDaily(Find(s.dailyDeposits, (from, token)), s.registry[token].dailyDepositLimit, env.ledger,
                              amount);
      && w.Ok? && daily == Store(s.dailyDeposits, (from, token), w.value)
      && ValidateFiat(s, env, from, amount) == Ok((fiat, price))
  {
    hide ChargeDaily, ValidateFiat, Slippage.CheckSlippage, Recent, MayDeposit, Store;
  }

  lemma PayoutsSpareDeposits(s: State, env: Env, op: Op)
    requires Apply(s, env, op).Ok? && (op.OpWithdraw? || op.OpExecute?)
    ensures DepositCharged(s, Apply(s, env, op).value, env)
  {
    hide ChargeLimits, Transfer, Balance, CheckInvariants, AdmitExecution, CheckBenchmark, Served, Deposit,
         RequestWithdrawal, CancelWithdrawal, ReclaimExpired, WithdrawFees, OutsideTransfer;
  }

  lemma OthersSpareDeposits(s: State, env: Env, op: Op)
    requires Apply(s, env, op).Ok? && !op.OpWithdraw? && !op.OpExecute? && !op.OpDeposit?
    ensures DepositCharged(s, Apply(s, env, op).value, env)
  {
    hide ChargeLimits, Transfer, Balance, CheckInvariants, Deposit, Withdraw, ExecuteWithdrawal, Recent, CB.Clear;
  }

  lemma StepChargesDeposits(s: State, call: Call)
    requires Step(s, call).Ok?
    ensures DepositCharged(s, Step(s, call).value, call.env)
  {
    hide ChargeDaily, ValidateFiat, Deposit, Withdraw, RequestWithdrawal, ExecuteWithdrawal, CancelWithdrawal,
         ReclaimExpired, WithdrawFees, OutsideTransfer;
    var op := call.op;
    if op.OpDeposit? {
      DepositChargesLimits(s, call.env, op.from, op.amount, op.token, op.reference, op.expectedPrice, op.maxSlippage,
                           op.memo);
    } else if op.OpWithdraw? || op.OpExecute? {
      PayoutsSpareDeposits(s, call.env, op);
    } else {
      OthersSpareDeposits(s, call.env, op);
    }
  }

  /** The deposits of one user in a run. */
  datatype Priced = Priced(ledger: nat, amount: nat, price: int)

  function DepositOf(e: Option<Event>, user: Address): seq<Priced> {
    if e.Some? && e.value.Deposited? && e.value.user == user
    then [Priced(e.value.ledger, e.value.amount, e.value.price)] else []
  }

  function Deposits(s: State, calls: seq<Call>, user: Address): seq<Priced>
    decreases |calls|
  {
    if calls == [] then [] else DepositOf(Added(s, calls[0]), user) + Deposits(Next(s, calls[0]), calls[1..], user)
  }

  /** The same deposits as charges of tokens. */
  function Tokens(p: seq<Priced>): seq<Charge> { seq(|p|, i requires 0 <= i < |p| => Charge(p[i].ledger, p[i].amount)) }

  /** The same deposits as charges of whole cents. */
  function Cents(p: seq<Priced>): seq<Charge> {
    seq(|p|, i requires 0 <= i < |p| => Charge(p[i].ledger, Max(0, p[i].amount * p[i].price / CENTS_DIVISOR)))
  }

  // ---- the daily deposit limit ----

  lemma OnlyRegistered(s: State, call: Call)
    requires Inv(s) && Step(s, call).Ok?
    ensures Next(s, call).token == s.token
    ensures Added(s, call).Some? && Added(s, call).value.Deposited? ==> Added(s, call).value.token == s.token
  {
    hide Apply, CountersOk, BalanceOk, QueueOk, ReceiptsOk, LimitsOk, ChargeDaily, ValidateFiat;
    StepChargesDeposits(s, call);
    TokenFixed(s, call.env, call.op);
  }

  lemma DepositKeepsToken(s: State, env: Env, op: Op)
    requires op.OpDeposit? && Apply(s, env, op).Ok?
    ensures Apply(s, env, op).value.token == s.token
  {
    hide Transfer, Balance, CheckInvariants, Recent, AdmitDeposit, ChargeDaily, ValidateFiat, Slippage.CheckSlippage,
         Withdraw, ExecuteWithdrawal, RequestWithdrawal, CancelWithdrawal, ReclaimExpired, WithdrawFees,
         OutsideTransfer;
  }

  lemma TokenFixed(s: State, env: Env, op: Op)
    requires Apply(s, env, op).Ok? && s.schemaVersion.Some?
    ensures Apply(s, env, op).value.token == s.token
  {
    hide ChargeLimits, Transfer, Balance, CheckInvariants, AdmitExecution, CheckBenchmark, Served, Recent, CB.Clear,
         Deposit;
    if op.OpDeposit? { DepositKeepsToken(s, env, op); }
  }

  lemma DailyMoves(s: State, call: Call, limit: int, user: Address)
    requires Inv(s) && 0 < limit <= I128_MAX && s.registry[s.token].dailyDepositLimit == limit
    requires forall d :: d in DepositOf(Added(s, call), user) ==> d.ledger < U32_MAX
    ensures var s', key := Next(s, call), (user, s.token);
      Windows.Moves(Find(s.dailyDeposits, key), Find(s'.dailyDeposits, key), Tokens(DepositOf(Added(s, call), user)),
                    limit, s'.now)
  {
    hide CountersOk, BalanceOk, QueueOk, ReceiptsOk, LimitsOk, Apply, ChargeDaily, ValidateFiat, Windows.Accepted;
    var q := DepositOf(Added(s, call), user);
    StepLater(s, call);
    if Step(s, call).Ok? {
      StepChargesDeposits(s, call);
      OnlyRegistered(s, call);
    }
    if q != [] {
      assert q[0] in DepositOf(Added(s, call), user);
      DailyAccepts(Find(s.dailyDeposits, (user, s.token)), limit, q[0].ledger, q[0].amount);
    }
  }

  lemma DailyStep(s: State, call: Call, w0: Option<Window>, p: seq<Priced>, limit: int, user: Address, now0: nat)
    requires Inv(s) && 0 < limit <= I128_MAX && s.registry[s.token].dailyDepositLimit == limit
    requires forall d :: d in DepositOf(Added(s, call), user) ==> d.ledger < U32_MAX
    requires Windows.Sane(w0, now0) && now0 <= s.now
    requires Windows.Tracks(w0, Find(s.dailyDeposits, (user, s.token)), Tokens(p), limit, s.now)
    ensures var s' := Next(s, call);
      Windows.Tracks(w0, Find(s'.dailyDeposits, (user, s.token)), Tokens(p + DepositOf(Added(s, call), user)), limit,
                     s'.now)
  {
    hide Inv, Next, Added, DepositOf, Windows.Tracks, Windows.Moves;
    var q, key := DepositOf(Added(s, call), user), (user, s.token);
    StepLater(s, call);
    DailyMoves(s, call, limit, user);
    Windows.TracksMove(w0, Find(s.dailyDeposits, key), Find(Next(s, call).dailyDeposits, key), Tokens(p), Tokens(q),
                       limit, s.now, Next(s, call).now);
    assert Tokens(p + q) == Tokens(p) + Tokens(q);
  }

  ghost predicate LimitIs(s: State, limit: int) {
    s.token in s.registry && s.registry[s.token].dailyDepositLimit == limit
  }

  lemma {:induction false} DailyRun(s: State, calls: seq<Call>, w0: Option<Window>, p: seq<Priced>, limit: int,
                                    user: Address, now0: nat)
    requires Inv(s) && 0 < limit <= I128_MAX && Windows.Sane(w0, now0) && now0 <= s.now
    requires Throughout(s, calls, (t: State) => LimitIs(t, limit))
    requires forall d :: d in Deposits(s, calls, user) ==> d.ledger < U32_MAX
    requires Windows.Tracks(w0, Find(s.dailyDeposits, (user, s.token)), Tokens(p), limit, s.now)
    ensures Windows.Tracks(w0, Find(Run(s, calls).dailyDeposits, (user, s.token)), Tokens(p + Deposits(s, calls, user)),
                           limit, Run(s, calls).now)
    decreases |calls|
  {
    hide Inv, Step, DepositOf, Windows.Tracks, Windows.Sane;
    if calls == [] {
      assert p + [] == p;
    } else {
      var q, rest := DepositOf(Added(s, calls[0]), user), Deposits(Next(s, calls[0]), calls[1..], user);
      assert Deposits(s, calls, user) == q + rest;
      assert forall d :: d in q || d in rest ==> d in q + rest;
      StepLater(s, calls[0]);
      if Step(s, calls[0]).Ok? { OnlyRegistered(s, calls[0]); }
      DailyStep(s, calls[0], w0, p, limit, user, now0);
      DailyRun(Next(s, calls[0]), calls[1..], w0, p + q, limit, user, now0);
      assert p + (q + rest) == (p + q) + rest;
    }
  }

  /** With a constant daily limit: a depositor none of whose deposits is made at the very last ledger
      number brings in no more than twice the limit in any WINDOW_LEDGERS consecutive ledgers. In the
      current window the run adds at most the limit, and the stored counter is exactly that, plus what
      the record held before if the window was open. */
  lemma DailyLimitBoundsEverySpan(s: State, calls: seq<Call>, limit: int, user: Address, a: int)
    requires Inv(s) && 0 < limit <= I128_MAX
    requires Throughout(s, calls, (t: State) => LimitIs(t, limit))
    requires forall d :: d in Deposits(s, calls, user) ==> d.ledger < U32_MAX
    ensures var p, w := Tokens(Deposits(s, calls, user)), Find(Run(s, calls).dailyDeposits, (user, s.token));
      && Sum(p, a, a + WINDOW_LEDGERS) <= 2 * limit
      && Counted(Find(s.dailyDeposits, (user, s.token)), w, p, limit)
  {
    hide Inv, Step;
    SaneRecords(s, user);
    var w0, p := Find(s.dailyDeposits, (user, s.token)), Deposits(s, calls, user);
    Windows.TracksInitially(w0, limit, s.now);
    assert Tokens([]) == [];
    DailyRun(s, calls, w0, [], limit, user, s.now);
    assert [] + p == p;
    assert Span(Tokens(p), a) <= 2 * limit;
  }

  // ---- the fiat cap ----

  /** The exact worth of the deposits at ledgers in [lo, hi), in units of 1/CENTS_DIVISOR cent. */
  function Worth(p: seq<Priced>, lo: int, hi: int): int {
    if p == [] then 0
    else Worth(p[..|p| - 1], lo, hi) + (var d := p[|p| - 1]; if lo <= d.ledger < hi then d.amount * d.price else 0)
  }

  function Count(p: seq<Priced>, lo: int, hi: int): nat {
    if p == [] then 0 else Count(p[..|p| - 1], lo, hi) + (if lo <= p[|p| - 1].ledger < hi then 1 else 0)
  }

  lemma {:induction false} WorthBelowCents(p: seq<Priced>, lo: int, hi: int)
    ensures Worth(p, lo, hi) <= CENTS_DIVISOR * Sum(Cents(p), lo, hi) + (CENTS_DIVISOR - 1) * Count(p, lo, hi)
  {
    if p == [] {
      SumEmpty(lo, hi);
    } else {
      var front, d := p[..|p| - 1], p[|p| - 1];
      WorthBelowCents(front, lo, hi);
      var c := Charge(d.ledger, Max(0, d.amount * d.price / CENTS_DIVISOR));
      assert Cents(p) == Cents(front) + [c];
      SumAppend(Cents(front), c, lo, hi);
    }
  }

  lemma FiatMoves(s: State, call: Call, limit: nat, user: Address)
    requires Inv(s) && s.cfg.fiatLimit == Some(limit as int)
    ensures Windows.Moves(Find(s.fiatVolume, user), Find(Next(s, call).fiatVolume, user),
                          Cents(DepositOf(Added(s, call), user)), limit, Next(s, call).now)
  {
    hide Inv, Apply, ChargeFiat, ChargeDaily, Windows.Accepted;
    var q := DepositOf(Added(s, call), user);
    StepLater(s, call);
    if Step(s, call).Ok? { StepChargesDeposits(s, call); }
    if q != [] { FiatAccepts(Find(s.fiatVolume, user), limit, q[0].ledger, q[0].amount, q[0].price); }
  }

  lemma FiatStep(s: State, call: Call, w0: Option<Window>, p: seq<Priced>, limit: nat, user: Address, now0: nat)
    requires Inv(s) && s.cfg.fiatLimit == Some(limit as int) && Windows.Sane(w0, now0) && now0 <= s.now
    requires Windows.Tracks(w0, Find(s.fiatVolume, user), Cents(p), limit, s.now)
    ensures var s' := Next(s, call);
      Windows.Tracks(w0, Find(s'.fiatVolume, user), Cents(p + DepositOf(Added(s, call), user)), limit, s'.now)
  {
    hide Inv, Next, Added, DepositOf, Windows.Tracks, Windows.Moves;
    var q := DepositOf(Added(s, call), user);
    StepLater(s, call);
    FiatMoves(s, call, limit, user);
    Windows.TracksMove(w0, Find(s.fiatVolume, user), Find(Next(s, call).fiatVolume, user), Cents(p), Cents(q), limit,
                       s.now, Next(s, call).now);
    assert Cents(p + q) == Cents(p) + Cents(q);
  }

  lemma {:induction false} FiatRun(s: State, calls: seq<Call>, w0: Option<Window>, p: seq<Priced>, limit: nat,
                                   user: Address, now0: nat)
    requires Inv(s) && Windows.Sane(w0, now0) && now0 <= s.now
    requires Throughout(s, calls, (t: State) => t.cfg.fiatLimit == Some(limit as int))
    requires Windows.Tracks(w0, Find(s.fiatVolume, user), Cents(p), limit, s.now)
    ensures Windows.Tracks(w0, Find(Run(s, calls).fiatVolume, user), Cents(p + Deposits(s, calls, user)), limit,
                           Run(s, calls).now)
    decreases |calls|
  {
    hide Inv, Step, DepositOf, Windows.Tracks, Windows.Sane;
    if calls == [] {
      assert p + [] == p;
    } else {
      var q, rest := DepositOf(Added(s, calls[0]), user), Deposits(Next(s, calls[0]), calls[1..], user);
      StepLater(s, calls[0]);
      FiatStep(s, calls[0], w0, p, limit, user, now0);
      FiatRun(Next(s, calls[0]), calls[1..], w0, p + q, limit, user, now0);
      assert p + (q + rest) == (p + q) + rest;
    }
  }

  /** With a constant fiat limit in cents, whatever prices the oracle gives: the n deposits of one
      user inside the current limit window are worth less than CENTS_DIVISOR * (limit + n), and the n
      inside any WINDOW_LEDGERS consecutive ledgers less than CENTS_DIVISOR * (2 * limit + n). The stored
      counter is the sum of their worths in whole cents. */
  lemma FiatCapBoundsWorth(s: State, calls: seq<Call>, limit: nat, user: Address, a: int)
    requires Inv(s)
    requires Throughout(s, calls, (t: State) => t.cfg.fiatLimit == Some(limit as int))
    ensures var p, w := Deposits(s, calls, user), Find(Run(s, calls).fiatVolume, user);
      && Counted(Find(s.fiatVolume, user), w, Cents(p), limit)
      && (w.Some? && Count(p, w.value.start, FOREVER) > 0 ==>
            Worth(p, w.value.start, FOREVER) < CENTS_DIVISOR * (limit + Count(p, w.value.start, FOREVER)))
      && (Count(p, a, a + WINDOW_LEDGERS) > 0 ==>
            Worth(p, a, a + WINDOW_LEDGERS) < CENTS_DIVISOR * (2 * limit + Count(p, a, a + WINDOW_LEDGERS)))
  {
    hide Inv, Step, Worth, Count;
    SaneRecords(s, user);
    var w0, p := Find(s.fiatVolume, user), Deposits(s, calls, user);
    Windows.TracksInitially(w0, limit, s.now);
    assert Cents([]) == [];
    FiatRun(s, calls, w0, [], limit, user, s.now);
    assert [] + p == p;
    assert Span(Cents(p), a) <= 2 * limit;
    WorthBelowCents(p, a, a + WINDOW_LEDGERS);
    var w := Find(Run(s, calls).fiatVolume, user);
    if w.Some? { WorthBelowCents(p, w.value.start, FOREVER); }
  }
}
