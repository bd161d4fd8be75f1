/** Which calls are refused, and with which error: for every entry point the conditions of its callers in the
    order in which they are looked at, written out on the storage cells. */
module Admission {
  import opened Prelude
  import opened Windows
  import opened Slippage
  import opened Escrow
  import CB = CircuitBreaker

  // ---- checks that several entry points share ----

  /** An administrator is installed and signed the call. */
  function AdminRefusal(s: State, env: Env): Option<Error> {
    if s.admin == None then Some(NotInitialized)
    else if s.admin.value !in env.signers || s.admin.value == s.self then Some(HostAbort)
    else None
  }

  /** The delay since the recorded ledger is not over. */
  predicate TooSoon(last: map<Address, nat>, a: Address, delay: nat, ledger: nat) {
    delay > 0 && a in last && ledger < Min(last[a] + delay, U32_MAX)
  }

  /** The breaker has tripped, was not cleared, and its reset window is not over. */
  predicate StillTripped(b: CB.Breaker, resetWindow: nat, ledger: nat) {
    b.tripped && (resetWindow == U32_MAX || ledger <= Min(b.trippedAt + resetWindow, U32_MAX))
  }

  function NonceRefusal(nonce: nat, current: nat): Option<Error> {
    if nonce == current then None else if nonce < current then Some(StaleNonce) else Some(InvalidNonce)
  }

  function QuotaRefusal(w: Option<Window>, quota: int, ledger: nat, amount: int): Option<Error> {
    var total := Held(w, ledger) + amount;
    if quota <= 0 then None
    else if PastEnd(w, ledger) || !FitsI128(total) then Some(HostAbort)
    else if total > quota then Some(WithdrawalQuotaExceeded)
    else None
  }

  function BreakerRefusal(b: CB.Breaker, threshold: int, resetWindow: nat, ledger: nat, amount: int): Option<Error> {
    var open := if b.tripped then None else b.volume;
    if threshold <= 0 then None
    else if StillTripped(b, resetWindow, ledger) then Some(CircuitBreakerActive)
    else if PastEnd(open, ledger) || !FitsI128(Held(open, ledger) + amount) then Some(HostAbort)
    else None
  }

  /** The quota of the recipient, then the breaker. */
  function PayoutRefusal(s: State, ledger: nat, to: Address, amount: int): Option<Error> {
    var quota := QuotaRefusal(Find(s.quotaUsed, to), s.cfg.quota, ledger, amount);
    if quota.Some? then quota
    else BreakerRefusal(s.breaker, s.cfg.breakerThreshold, s.cfg.breakerWindow, ledger, amount)
  }

  ghost function SlippageRefusal(expected: int, actual: int, maxBps: int): Option<Error> {
    if !InRange(expected, actual, maxBps) then Some(HostAbort)
    else if !WithinTolerance(expected, actual, maxBps) then Some(SlippageTooHigh)
    else None
  }

  /** Without an expected price there is nothing to compare; with one, the oracle's price must not fall short of it
      by more than the tolerance. */
  ghost function BenchmarkRefusal(s: State, env: Env, expectedPrice: int, maxSlippage: int): Option<Error> {
    if expectedPrice <= 0 then None
    else if s.cfg.oracle == None then Some(OracleNotSet)
    else if env.price == None || env.price.value <= 0 then Some(OraclePriceInvalid)
    else SlippageRefusal(expectedPrice, env.price.value, maxSlippage)
  }

  // ---- deposits ----

  /** At the last ledger number every window is over. */
  function DailyRefusal(w: Option<Window>, limit: int, ledger: nat, amount: int): Option<Error> {
    var total := Held(if ledger == U32_MAX then None else w, ledger) + amount;
    if limit <= 0 then None
    else if total > limit && limit < I128_MAX then Some(DailyLimitExceeded)
    else if !FitsI128(total) then Some(HostAbort)
    else None
  }

  function FiatRefusal(s: State, env: Env, from: Address, amount: int): Option<Error> {
    if s.cfg.oracle == None && s.cfg.fiatLimit == None then None
    else if s.cfg.oracle == None then Some(OracleNotSet)
    else if env.price == None || env.price.value <= 0 then Some(OraclePriceInvalid)
    else if s.cfg.fiatLimit == None then None
    else
      var w, worth := Find(s.fiatVolume, from), amount * env.price.value;
      var total := Held(w, env.ledger) + worth / 100_000;
      if !FitsI128(worth) || PastEnd(w, env.ledger) || !FitsI128(total) then Some(HostAbort)
      else if total > s.cfg.fiatLimit.value then Some(ExceedsFiatLimit)
      else None
  }

  /** What is asked of the depositor and of the call. */
  function DepositorRefusal(s: State, env: Env, from: Address, amount: int, token: Address, reference: string,
                            memo: Option<Hash>): Option<Error>
  {
    if memo == Some(0) then Some(InvalidMemoHash)
    else if from !in env.signers || from == s.self then Some(HostAbort)
    else if s.cfg.paused then Some(ContractPaused)
    else if amount <= 0 then Some(ZeroAmount)
    else if |reference| > 64 then Some(ReferenceTooLong)
    else if TooSoon(s.lastDeposit, from, s.cfg.cooldown, env.ledger) then Some(CooldownActive)
    else if Max(s.cfg.cooldown, s.cfg.antiSandwich) + 100 > U32_MAX then Some(HostAbort)
    else if s.cfg.allowlistOn && from !in s.cfg.allowed then Some(NotAllowed)
    else if !s.cfg.allowlistOn && token in s.cfg.tokenAllowlistOn && (token, from) !in s.cfg.tokenAllowed
    then Some(NotAllowed)
    else if from in s.cfg.denied then Some(AddressDenied)
    else if token !in s.registry then Some(TokenNotWhitelisted)
    else if amount < s.cfg.minDeposit then Some(BelowMinimum)
    else if amount > s.registry[token].limit then Some(ExceedsLimit)
    else None
  }

  /** The same, then the daily limit, the fiat cap and the price. */
  ghost function DepositRefusal(s: State, env: Env, from: Address, amount: int, token: Address, reference: string,
                                expectedPrice: int, maxSlippage: int, memo: Option<Hash>): Option<Error>
  {
    var depositor := DepositorRefusal(s, env, from, amount, token, reference, memo);
    if depositor.Some? then depositor
    else
      var limit := if token in s.registry then s.registry[token].dailyDepositLimit else 0;
      var daily := DailyRefusal(Find(s.dailyDeposits, (from, token)), limit, env.ledger, amount);
      var fiat := FiatRefusal(s, env, from, amount);
      if daily.Some? then daily
      else if fiat.Some? then fiat
      else SlippageRefusal(expectedPrice, PriceSeen(s, env), maxSlippage)
  }

  /** The price a deposit is compared with: the oracle's, or zero when neither an oracle nor a fiat cap is set. */
  function PriceSeen(s: State, env: Env): int {
    if (s.cfg.oracle == None && s.cfg.fiatLimit == None) || env.price == None then 0 else env.price.value
  }

  // ---- payouts and requests ----

  function WithdrawRefusal(s: State, env: Env, caller: Address, to: Address, amount: int): Option<Error> {
    var limits := PayoutRefusal(s, env.ledger, to, amount);
    if s.admin == None then Some(NotInitialized)
    else if Some(caller) != s.admin && Some(caller) != s.cfg.withdrawOperator then Some(Unauthorized)
    else if caller !in env.signers || caller == s.self then Some(HostAbort)
    else if s.cfg.paused then Some(ContractPaused)
    else if amount <= 0 then Some(ZeroAmount)
    else if to == s.self then Some(InvalidRecipient)
    else if limits.Some? then limits
    else if to in s.cfg.denied then Some(AddressDenied)
    else None
  }

  function RequestRefusal(s: State, env: Env, to: Address, amount: int, memo: Option<Hash>): Option<Error> {
    var admin := AdminRefusal(s, env);
    if memo == Some(0) then Some(InvalidMemoHash)
    else if admin.Some? then admin
    else if s.cfg.paused then Some(ContractPaused)
    else if StillTripped(s.breaker, s.cfg.breakerWindow, env.ledger) then Some(CircuitBreakerActive)
    else if amount <= 0 then Some(ZeroAmount)
    else if to in s.cfg.denied then Some(AddressDenied)
    else if TooSoon(s.lastLarge, to, s.cfg.withdrawCooldown, env.ledger) then Some(CooldownActive)
    else if env.ledger + s.cfg.lockPeriod > U32_MAX || s.nextId >= U64_MAX then Some(HostAbort)
    else None
  }

  /** What is asked of the call and of the request before the limits. */
  function ExecutorRefusal(s: State, env: Env, id: nat, partial: Option<I128>, nonce: nat): Option<Error> {
    if s.cfg.paused then Some(ContractPaused)
    else if id !in s.queue then Some(RequestNotFound)
    else
      var r := s.queue[id];
      var spent := NonceRefusal(nonce, GetOr(s.nonces, r.to, 0));
      if spent.Some? then spent
      else if env.ledger < r.unlockLedger then Some(WithdrawalLocked)
      else if TooSoon(s.lastDeposit, r.to, s.cfg.antiSandwich, env.ledger) then Some(AntiSandwichDelayActive)
      else if partial.Some? && !(0 < partial.value <= r.amount) then Some(ZeroAmount)
      else None
  }

  /** The same, then quota and breaker, the balance, the benchmark, and room for the next nonce. */
  ghost function ExecuteRefusal(s: State, env: Env, id: nat, partial: Option<I128>, expectedPrice: int,
                                maxSlippage: int, nonce: nat): Option<Error>
  {
    var executor := ExecutorRefusal(s, env, id, partial, nonce);
    if executor.Some? || id !in s.queue then executor
    else
      var r := s.queue[id];
      var amount := if partial.Some? then partial.value else r.amount;
      var limits := PayoutRefusal(s, env.ledger, r.to, amount);
      var benchmark := BenchmarkRefusal(s, env, expectedPrice, maxSlippage);
      if limits.Some? then limits
      else if amount > Balance(s.balances, r.token, s.self) then Some(InsufficientFunds)
      else if benchmark.Some? then benchmark
      else if nonce >= U64_MAX then Some(HostAbort)
      else None
  }

  function CancelRefusal(s: State, env: Env, id: nat): Option<Error> {
    var admin := AdminRefusal(s, env);
    if admin.Some? then admin
    else if s.cfg.paused then Some(ContractPaused)
    else if id !in s.queue then Some(RequestNotFound)
    else None
  }

  function ReclaimRefusal(s: State, env: Env, id: nat): Option<Error> {
    var admin := AdminRefusal(s, env);
    if admin.Some? then admin
    else if id !in s.queue then Some(RequestNotFound)
    else if env.ledger <= Min(s.queue[id].queuedLedger + s.cfg.expiryWindow, U32_MAX) then Some(WithdrawalLocked)
    else None
  }

  // ---- the administrator's calls ----

  function FeesRefusal(s: State, env: Env, token: Address, amount: int): Option<Error> {
    var admin, accrued := AdminRefusal(s, env), GetOr(s.feeVault, token, 0);
    if admin.Some? then admin
    else if amount <= 0 then Some(ZeroAmount)
    else if accrued <= 0 then Some(NoFeesToWithdraw)
    else if amount > accrued then Some(FeeWithdrawalExceedsBalance)
    else if amount > Balance(s.balances, token, s.self) then Some(HostAbort)
    else None
  }

  function SetterRefusal(s: State, env: Env, op: Op): Option<Error> {
    var admin := AdminRefusal(s, env);
    if op.OpMultisig? then None
    else if admin.Some? then admin
    else match op
      case OpAccrueFee(token, amount) =>
        if amount <= 0 then Some(ZeroAmount)
        else if !FitsI128(GetOr(s.feeVault, token, 0) + amount) then Some(HostAbort)
        else None
      case OpSetLimits(token, _, _) => if token !in s.registry then Some(TokenNotWhitelisted) else None
      case _ => None
  }

  function GovRefusal(s: State, env: Env, op: Op): Option<Error> {
    var admin := AdminRefusal(s, env);
    if op.OpAcceptAdmin? then
      if s.pendingAdmin == None then Some(NoPendingAdmin)
      else
        var (candidate, at) := s.pendingAdmin.value;
        if candidate !in env.signers || candidate == s.self then Some(HostAbort)
        else if at + 34_560 > U64_MAX then Some(Overflow)
        else if env.ledger < at + 34_560 then Some(ActionNotReady)
        else None
    else if admin.Some? then admin
    else match op
      case OpTransferAdmin(candidate) => if Some(candidate) == s.admin then Some(SameAdmin) else None
      case OpQueueRenounce =>
        if s.cfg.paused then Some(ContractPaused)
        else if env.ledger + 34_560 > U32_MAX then Some(Overflow)
        else None
      case OpCancelRenounce => if s.renounceAt == None then Some(ActionNotQueued) else None
      case OpExecuteRenounce =>
        if s.renounceAt == None then Some(ActionNotQueued)
        else if env.ledger <= s.renounceAt.value then Some(ActionNotReady)
        else None
      case _ => None
  }

  function OutsideRefusal(s: State, token: Address, source: Option<Address>, amount: nat): Option<Error> {
    if source == Some(s.self) then Some(HostAbort)
    else if source.Some? && amount > Balance(s.balances, token, source.value) then Some(HostAbort)
    else None
  }

  function InitRefusal(s: State, env: Env, admin: Address, token: Address, limit: int, minDeposit: int, nonce: nat):
    Option<Error>
  {
    var spent := NonceRefusal(nonce, GetOr(s.initNonces, admin, 0));
    if admin !in env.signers then Some(HostAbort)
    else if spent.Some? then spent
    else if nonce >= U64_MAX then Some(Overflow)
    else if s.admin.Some? || s.schemaVersion.Some? then Some(AlreadyInitialized)
    else if limit <= 0 then Some(ZeroAmount)
    else if limit == I128_MAX || minDeposit == I128_MAX then Some(InvalidAmount)
    else if minDeposit < 1 || minDeposit >= limit then Some(BelowMinimum)
    else if admin == token then Some(SelfReferentialAddress)
    else if admin == s.self then Some(Unauthorized)
    else None
  }

  // ---- the checks refuse for these reasons ----

  /** A result is an error exactly when there is a reason, and then it is that one. */
  predicate Decides<T>(r: Result<T>, refusal: Option<Error>) {
    match refusal case None => r.Ok? case Some(e) => r == Err(e)
  }

  /** Quota and breaker, and what they count. */
  lemma LimitsDecide(s: State, env: Env, to: Address, amount: nat)
    ensures var r := ChargeLimits(s, env, to, amount); var w := Find(s.quotaUsed, to);
      var b, open := s.breaker, if s.breaker.tripped then None else s.breaker.volume;
      var total := Held(open, env.ledger) + amount;
      && Decides(r, PayoutRefusal(s, env.ledger, to, amount))
      && (r.Ok? ==>
            && r.value.0 == (if s.cfg.quota <= 0 then s.quotaUsed
                             else s.quotaUsed[to := Window(Held(w, env.ledger) + amount, Opened(w, env.ledger))])
            && r.value.1 == if s.cfg.breakerThreshold <= 0 then b
                            else CB.Breaker(Some(Window(total, Opened(open, env.ledger))),
                                            total >= s.cfg.breakerThreshold,
                                            if total >= s.cfg.breakerThreshold then env.ledger else b.trippedAt))
  {
    hide ChargeQuota, CB.ChargeBreaker, Held, Opened, PastEnd;
    QuotaAdmitsIff(Find(s.quotaUsed, to), s.cfg.quota, env.ledger, amount);
    CB.BreakerAdmitsIff(s.breaker, s.cfg.breakerThreshold, s.cfg.breakerWindow, env.ledger, amount);
  }

  /** The benchmark test passes exactly without an expected price, or with an oracle whose positive price is within
      tolerance of it. */
  lemma BenchmarkDecides(s: State, env: Env, expectedPrice: I128, maxSlippage: U32)
    ensures Decides(CheckBenchmark(s, env, expectedPrice, maxSlippage),
                    BenchmarkRefusal(s, env, expectedPrice, maxSlippage))
  {
    hide CheckSlippage, InRange, WithinTolerance;
    if expectedPrice > 0 && env.price.Some? { SlippageIsExact(expectedPrice, env.price.value, maxSlippage); }
  }

  lemma FiatDecides(s: State, env: Env, from: Address, amount: I128)
    requires amount > 0
    ensures var r := ValidateFiat(s, env, from, amount);
      && Decides(r, FiatRefusal(s, env, from, amount))
      && (r.Ok? ==> r.value.1 == PriceSeen(s, env))
  {
    hide ChargeFiat, Held, PastEnd, Opened;
    if s.cfg.fiatLimit.Some? && env.price.Some? && env.price.value > 0 {
      FiatAdmitsIff(Find(s.fiatVolume, from), s.cfg.fiatLimit.value, env.ledger, amount, env.price.value);
    }
  }

  lemma DepositorDecides(s: State, env: Env, from: Address, amount: I128, token: Address, reference: string,
                         memo: Option<Hash>)
    ensures Decides(AdmitDeposit(s, env, from, amount, token, reference, memo),
                    DepositorRefusal(s, env, from, amount, token, reference, memo))
  {
  }

  /** Every check of a deposit before tokens move. */
  lemma DepositDecides(s: State, env: Env, from: Address, amount: I128, token: Address, reference: string,
                       expectedPrice: I128, maxSlippage: U32, memo: Option<Hash>)
    ensures Decides(ClearDeposit(s, env, from, amount, token, reference, expectedPrice, maxSlippage, memo),
                    DepositRefusal(s, env, from, amount, token, reference, expectedPrice, maxSlippage, memo))
  {
    hide AdmitDeposit, DepositorRefusal, ChargeDaily, DailyRefusal, ValidateFiat, FiatRefusal, CheckSlippage,
         InRange, WithinTolerance, PriceSeen;
    DepositorDecides(s, env, from, amount, token, reference, memo);
    if AdmitDeposit(s, env, from, amount, token, reference, memo).Ok? {
      DepositorAsks(s, env, from, amount, token, reference, memo);
      DailyDecides(Find(s.dailyDeposits, (from, token)), s.registry[token].dailyDepositLimit, env.ledger, amount);
      FiatDecides(s, env, from, amount);
      var fiat := ValidateFiat(s, env, from, amount);
      if fiat.Ok? { SlippageIsExact(expectedPrice, fiat.value.1, maxSlippage); }
    }
  }

  lemma DailyDecides(w: Option<Window>, limit: int, ledger: U32, amount: nat)
    ensures Decides(ChargeDaily(w, limit, ledger, amount), DailyRefusal(w, limit, ledger, amount))
  {
    DailyAdmitsIff(w, limit, ledger, amount);
  }

  lemma DepositorAsks(s: State, env: Env, from: Address, amount: I128, token: Address, reference: string,
                      memo: Option<Hash>)
    requires AdmitDeposit(s, env, from, amount, token, reference, memo).Ok?
    ensures amount > 0 && from != s.self && token in s.registry
  {
    hide Recent, MayDeposit;
  }

  lemma ExecutorDecides(s: State, env: Env, id: nat, partial: Option<I128>, nonce: nat)
    requires id in s.queue && !s.cfg.paused && s.queue[id].amount > 0
    ensures Decides(AdmitExecution(s, env, id, partial, nonce), ExecutorRefusal(s, env, id, partial, nonce))
    ensures var r := AdmitExecution(s, env, id, partial, nonce);
      r.Ok? ==> r.value == if partial.Some? then partial.value else s.queue[id].amount
  {
  }

  /** Every check of an execution before tokens move; what will be paid is what was asked, or all that is left. */
  lemma ExecutionDecides(s: State, env: Env, id: nat, partial: Option<I128>, expectedPrice: I128, maxSlippage: U32,
                         nonce: nat)
    requires id in s.queue && !s.cfg.paused && s.queue[id].amount > 0
    ensures var r := ClearExecution(s, env, id, partial, expectedPrice, maxSlippage, nonce);
      && Decides(r, ExecuteRefusal(s, env, id, partial, expectedPrice, maxSlippage, nonce))
      && (r.Ok? ==> r.value.0 == if partial.Some? then partial.value else s.queue[id].amount)
  {
    hide AdmitExecution, CheckBenchmark, ChargeLimits, Balance, ExecutorRefusal, PayoutRefusal, BenchmarkRefusal;
    ExecutorDecides(s, env, id, partial, nonce);
    BenchmarkDecides(s, env, expectedPrice, maxSlippage);
    var amount := AdmitExecution(s, env, id, partial, nonce);
    if amount.Ok? { LimitsDecide(s, env, s.queue[id].to, amount.value); }
  }

  lemma ClearedPortion(s: State, env: Env, id: nat, partial: Option<I128>, expectedPrice: I128, maxSlippage: U32,
                       nonce: nat)
    requires id in s.queue && ClearExecution(s, env, id, partial, expectedPrice, maxSlippage, nonce).Ok?
    ensures var amount := ClearExecution(s, env, id, partial, expectedPrice, maxSlippage, nonce).value.0;
      amount <= s.queue[id].amount && amount <= Balance(s.balances, s.queue[id].token, s.self)
  {
    hide ChargeLimits, CheckBenchmark, Balance, Recent;
  }

  // ---- entry points whose outcome does not depend on the accounts being in order ----

  lemma FeesDecide(s: State, env: Env, to: Address, token: Address, amount: I128)
    ensures Decides(WithdrawFees(s, env, to, token, amount), FeesRefusal(s, env, token, amount))
  {
  }

  lemma SettersDecide(s: State, env: Env, op: Op)
    requires op.OpAccrueFee? || op.OpResetBreaker? || op.OpReconfigure? || op.OpMultisig? || op.OpSetLimits?
    ensures Decides(Apply(s, env, op), SetterRefusal(s, env, op))
  {
    hide Deposit, Withdraw, RequestWithdrawal, ExecuteWithdrawal, CancelWithdrawal, ReclaimExpired, WithdrawFees,
         OutsideTransfer;
  }

  lemma GovDecides(s: State, env: Env, op: Op)
    requires GovOp(op)
    ensures Decides(Apply(s, env, op), GovRefusal(s, env, op))
  {
    hide Deposit, Withdraw, RequestWithdrawal, ExecuteWithdrawal, CancelWithdrawal, ReclaimExpired, WithdrawFees,
         OutsideTransfer;
  }

  lemma OutsideDecides(s: State, env: Env, token: Address, source: Option<Address>, to: Address, amount: nat)
    ensures Decides(OutsideTransfer(s, env, token, source, to, amount), OutsideRefusal(s, token, source, amount))
  {
  }

  lemma InitDecides(s: State, env: Env, admin: Address, token: Address, limit: I128, minDeposit: I128, nonce: nat)
    ensures Decides(Initialize(s, env, admin, token, limit, minDeposit, nonce),
                    InitRefusal(s, env, admin, token, limit, minDeposit, nonce))
  {
  }
}
