/** The accounting invariant holds in every reachable state. */
module Reachable {
  import opened Prelude
  import opened Sums
  import opened Windows
  import Slippage
  import opened Escrow
  import opened Accounting

  lemma LimitsLater(s: State, now: nat)
    requires LimitsOk(s.quotaUsed, s.dailyDeposits, s.fiatVolume, s.breaker, s.now) && now >= s.now
    ensures LimitsOk(s.quotaUsed, s.dailyDeposits, s.fiatVolume, s.breaker, now)
  {
  }

  lemma QueueLater(s: State, now: nat)
    requires QueueOk(s.queue, s.nextId, s.self, s.token, s.now) && now >= s.now
    ensures QueueOk(s.queue, s.nextId, s.self, s.token, now)
  {
  }

  lemma TransferMoves(b: Balances, token: Address, from: Address, to: Address, amount: nat, t: Address, h: Address)
    requires Transfer(b, token, from, to, amount).Ok?
    ensures Balance(Transfer(b, token, from, to, amount).value, t, h) ==
            Balance(b, t, h) - (if t == token && h == from then amount else 0)
                             + (if t == token && h == to then amount else 0)
  {
  }

  lemma ChargeKeepsLimits(s: State, env: Env, to: Address, amount: nat)
    requires LimitsOk(s.quotaUsed, s.dailyDeposits, s.fiatVolume, s.breaker, s.now) && env.ledger >= s.now
    requires ChargeLimits(s, env, to, amount).Ok?
    ensures var limits := ChargeLimits(s, env, to, amount).value;
      LimitsOk(limits.0, s.dailyDeposits, s.fiatVolume, limits.1, env.ledger)
  {
  }

  lemma CountersAfterPayment(c: TokenConfig, token: Address, queue: map<nat, Request>, queue': map<nat, Request>,
                             history: seq<Event>, e: Event, reserved: nat)
    requires CountersOk(c, token, queue, history)
    requires e.Paid? && e.token == token && e.amount > 0
    requires Owed(queue', token) == Owed(queue, token) - reserved
    requires 0 <= c.totalLiabilities - reserved <= c.Net() - e.amount
    ensures CountersOk(c.(totalWithdrawn := c.totalWithdrawn + e.amount,
                          totalLiabilities := c.totalLiabilities - reserved),
                       token, queue', history + [e])
  {
    TotalsAppend(history, e, token);
  }

  lemma BalanceAfterPayment(held: int, c: TokenConfig, token: Address, history: seq<Event>, e: Event, reserved: nat)
    requires BalanceOk(held, c, token, history)
    requires e.Paid? && e.token == token
    ensures BalanceOk(held - e.amount,
                      c.(totalWithdrawn := c.totalWithdrawn + e.amount,
                         totalLiabilities := c.totalLiabilities - reserved),
                      token, history + [e])
  {
    TotalsAppend(history, e, token);
  }

  /** The accounts after a payout, when the queue shrank by what the payout had reserved. */
  lemma PaymentKeeps(s: State, s': State, ledger: nat, to: Address, amount: nat, reserved: nat)
    requires Inv(s) && ledger >= s.now && to != s.self && amount > 0
    requires SettlePayment(s, ledger, s.token, to, amount, reserved).Ok?
    requires s' == SettlePayment(s, ledger, s.token, to, amount, reserved).value.(
                     quotaUsed := s'.quotaUsed, breaker := s'.breaker,
                     nonces := s'.nonces, queue := s'.queue, now := ledger)
    requires LimitsOk(s'.quotaUsed, s.dailyDeposits, s.fiatVolume, s'.breaker, ledger)
    requires Owed(s'.queue, s.token) == Owed(s.queue, s.token) - reserved
    requires QueueOk(s'.queue, s.nextId, s.self, s.token, ledger)
    requires reserved <= s.registry[s.token].totalLiabilities
    ensures Inv(s')
  {
    hide ReceiptsOk, LimitsOk, QueueOk, CountersOk, BalanceOk, Transfer, Balance, Owed, Total;
    var c, e := s.registry[s.token], Paid(ledger, s.token, to, amount);
    TransferMoves(s.balances, s.token, s.self, to, amount, s.token, s.self);
    CountersAfterPayment(c, s.token, s.queue, s'.queue, s.history, e, reserved);
    BalanceAfterPayment(Balance(s.balances, s.token, s.self), c, s.token, s.history, e, reserved);
  }

  lemma WithdrawKeeps(s: State, env: Env, caller: Address, to: Address, amount: I128, token: Address)
    requires Inv(s) && env.ledger >= s.now
    requires Withdraw(s, env, caller, to, amount, token).Ok?
    ensures Inv(Withdraw(s, env, caller, to, amount, token).value.(now := env.ledger))
  {
    hide ReceiptsOk, LimitsOk, BalanceOk, Transfer, Balance, ChargeLimits;
    var s' := Withdraw(s, env, caller, to, amount, token).value.(now := env.ledger);
    ChargeKeepsLimits(s, env, to, amount);
    QueueLater(s, env.ledger);
    PaymentKeeps(s, s', env.ledger, to, amount, 0);
  }

  lemma ServedKeepsQueue(queue: map<nat, Request>, nextId: nat, self: Address, token: Address, now: nat, id: nat,
                         amount: nat, now': nat)
    requires QueueOk(queue, nextId, self, token, now) && now <= now'
    requires id in queue && amount <= queue[id].amount
    ensures QueueOk(Served(queue, id, amount), nextId, self, token, now')
  {
  }

  lemma AdmittedAmount(s: State, env: Env, id: nat, partial: Option<I128>, nonce: nat)
    requires id in s.queue && s.queue[id].amount > 0 && AdmitExecution(s, env, id, partial, nonce).Ok?
    ensures 0 < AdmitExecution(s, env, id, partial, nonce).value <= s.queue[id].amount
    ensures nonce == GetOr(s.nonces, s.queue[id].to, 0)
  {
  }

  lemma ExecuteKeeps(s: State, env: Env, id: nat, partial: Option<I128>, expectedPrice: I128, maxSlippage: U32,
                     nonce: nat)
    requires Inv(s) && env.ledger >= s.now
    requires ExecuteWithdrawal(s, env, id, partial, expectedPrice, maxSlippage, nonce).Ok?
    ensures Inv(ExecuteWithdrawal(s, env, id, partial, expectedPrice, maxSlippage, nonce).value.(now := env.ledger))
  {
    hide ReceiptsOk, LimitsOk, BalanceOk, QueueOk, Transfer, Balance, ChargeLimits, AdmitExecution, CheckBenchmark,
         SettlePayment, Owed, Total, Served;
    var s' := ExecuteWithdrawal(s, env, id, partial, expectedPrice, maxSlippage, nonce).value.(now := env.ledger);
    var r := s.queue[id];
    OneIsOwed(s.queue, id, s.nextId, s.self, s.token, s.now);
    AdmittedAmount(s, env, id, partial, nonce);
    var amount := AdmitExecution(s, env, id, partial, nonce).value;
    QueueServe(s.queue, id, amount);
    ServedKeepsQueue(s.queue, s.nextId, s.self, s.token, s.now, id, amount, env.ledger);
    ChargeKeepsLimits(s, env, r.to, amount);
    PaymentKeeps(s, s', env.ledger, r.to, amount, amount);
  }

  lemma DepositLimits(s: State, env: Env, from: Address, amount: I128, token: Address, limit: int)
    requires LimitsOk(s.quotaUsed, s.dailyDeposits, s.fiatVolume, s.breaker, s.now)
    requires env.ledger >= s.now && amount > 0
    ensures var daily := ChargeDaily(Find(s.dailyDeposits, (from, token)), limit, env.ledger, amount);
      var fiat := ValidateFiat(s, env, from, amount);
      daily.Ok? && fiat.Ok? ==>
        LimitsOk(s.quotaUsed, Store(s.dailyDeposits, (from, token), daily.value), fiat.value.0, s.breaker, env.ledger)
  {
    if s.cfg.oracle.Some? && s.cfg.fiatLimit.Some? && env.price.Some? && env.price.value > 0 {
      FiatAccepts(Find(s.fiatVolume, from), s.cfg.fiatLimit.value, env.ledger, amount, env.price.value);
    }
  }

  lemma ReceiptKeeps(s: State, s': State, ledger: nat, id: ReceiptId, memo: Option<Hash>, price: int)
    requires Inv(s) && ledger >= s.now
    requires id.amount > 0 && id.depositor != s.self && id.counter == s.receiptCounter
    requires SettleDeposit(s, ledger, id, s.token, memo, price).Ok?
    requires s' == SettleDeposit(s, ledger, id, s.token, memo, price).value.(
                     dailyDeposits := s'.dailyDeposits, fiatVolume := s'.fiatVolume, now := ledger)
    requires LimitsOk(s.quotaUsed, s'.dailyDeposits, s'.fiatVolume, s.breaker, ledger)
    ensures Inv(s')
  {
    hide ReceiptsOk, LimitsOk, BalanceOk, CountersOk, QueueOk, MapSum, Transfer, Balance, Owed, Total,
         CheckInvariants;
    QueueLater(s, ledger);
    var c, e := s.registry[s.token], Deposited(ledger, s.token, id.depositor, id.amount, price);
    TransferMoves(s.balances, s.token, id.depositor, s.self, id.amount, s.token, s.self);
    CountersAfterDeposit(c, s.token, s.queue, s.history, e, Balance(s.balances, s.token, s.self));
    ReceiptAdd(s.receipts, s.receiptCounter, c.totalDeposited, s.userDeposited, s.self, id,
               Receipt(id.depositor, id.amount, ledger, id.reference, memo));
  }

  lemma CountersAfterDeposit(c: TokenConfig, token: Address, queue: map<nat, Request>, history: seq<Event>, e: Event,
                             held: int)
    requires CountersOk(c, token, queue, history) && BalanceOk(held, c, token, history)
    requires e.Deposited? && e.token == token && 0 < e.amount && c.totalDeposited + e.amount <= I128_MAX
    ensures var c' := c.(totalDeposited := c.totalDeposited + e.amount);
      CountersOk(c', token, queue, history + [e]) && BalanceOk(held + e.amount, c', token, history + [e])
  {
    TotalsAppend(history, e, token);
  }

  lemma DepositKeeps(s: State, env: Env, from: Address, amount: I128, token: Address, reference: string,
                     expectedPrice: I128, maxSlippage: U32, memo: Option<Hash>)
    requires Inv(s) && env.ledger >= s.now
    requires Deposit(s, env, from, amount, token, reference, expectedPrice, maxSlippage, memo).Ok?
    ensures Inv(Deposit(s, env, from, amount, token, reference, expectedPrice, maxSlippage, memo).value.0
                  .(now := env.ledger))
  {
    hide ReceiptsOk, LimitsOk, BalanceOk, CountersOk, QueueOk, ChargeDaily, ValidateFiat, Slippage.CheckSlippage,
         SettleDeposit;
    var (s', id) := Deposit(s, env, from, amount, token, reference, expectedPrice, maxSlippage, memo).value;
    DepositLimits(s, env, from, amount, token, s.registry[token].dailyDepositLimit);
    ReceiptKeeps(s, s'.(now := env.ledger), env.ledger, id, memo, ValidateFiat(s, env, from, amount).value.1);
  }

  lemma RequestKeeps(s: State, env: Env, to: Address, amount: I128, token: Address, memo: Option<Hash>, riskTier: U32)
    requires Inv(s) && env.ledger >= s.now
    requires RequestWithdrawal(s, env, to, amount, token, memo, riskTier).Ok?
    ensures Inv(RequestWithdrawal(s, env, to, amount, token, memo, riskTier).value.0.(now := env.ledger))
  {
    hide ReceiptsOk, LimitsOk, BalanceOk, MapSum;
    var (s', id) := RequestWithdrawal(s, env, to, amount, token, memo, riskTier).value;
    UserBelowTotal(s.receipts, s.receiptCounter, s.registry[token].totalDeposited, s.userDeposited, s.self, to);
    EnqueueKeeps(s, s', s'.queue[id], env.ledger);
  }

  lemma EnqueueKeeps(s: State, s': State, r: Request, ledger: nat)
    requires Inv(s) && ledger >= s.now
    requires r.token == s.token && r.amount > 0 && r.to != s.self && r.queuedLedger == ledger
    requires var c := s.registry[s.token];
      && c.totalLiabilities + r.amount <= c.Net()
      && s' == s.(queue := s.queue[s.nextId := r], nextId := s.nextId + 1,
                  registry := s.registry[s.token := c.(totalLiabilities := c.totalLiabilities + r.amount)])
    ensures Inv(s'.(now := ledger))
  {
    hide ReceiptsOk, LimitsOk, QueueOk, MapSum;
    LimitsLater(s, ledger);
    EnqueueKeepsQueue(s.queue, s.nextId, s.self, s.token, s.now, r, ledger);
    QueueInsert(s.queue, s.nextId, r);
  }

  lemma EnqueueKeepsQueue(queue: map<nat, Request>, nextId: nat, self: Address, token: Address, now: nat, r: Request,
                          ledger: nat)
    requires QueueOk(queue, nextId, self, token, now) && now <= ledger
    requires r.token == token && r.amount > 0 && r.to != self && r.queuedLedger == ledger
    ensures nextId !in queue && QueueOk(queue[nextId := r], nextId + 1, self, token, ledger)
  {
  }

  lemma DequeueKeepsQueue(queue: map<nat, Request>, nextId: nat, self: Address, token: Address, now: nat, id: nat,
                          later: nat)
    requires QueueOk(queue, nextId, self, token, now) && now <= later
    ensures QueueOk(queue - {id}, nextId, self, token, later)
  {
  }

  lemma ReleaseKeeps(s: State, id: nat, now: nat)
    requires Inv(s) && id in s.queue && now >= s.now
    ensures Release(s, id).Ok?
    ensures Inv(Release(s, id).value.(now := now))
  {
    hide ReceiptsOk, LimitsOk, QueueOk, MapSum;
    LimitsLater(s, now);
    DequeueKeepsQueue(s.queue, s.nextId, s.self, s.token, s.now, id, now);
    OneIsOwed(s.queue, id, s.nextId, s.self, s.token, s.now);
    QueueRemove(s.queue, id);
  }

  lemma EventKeeps(s: State, s': State, e: Event, now: nat)
    requires Inv(s) && now >= s.now
    requires !e.Deposited? && !e.Paid? && !e.FeePaid? && !e.Arrived?
    requires s' == s.(history := s.history + [e], admin := s'.admin, pendingAdmin := s'.pendingAdmin,
                      renounceAt := s'.renounceAt, now := now)
    requires s'.pendingAdmin.Some? ==> s'.pendingAdmin == s.pendingAdmin || s'.pendingAdmin.value.1 <= now
    ensures Inv(s')
  {
    TotalsAppend(s.history, e, s.token);
  }

  lemma CancelKeeps(s: State, env: Env, id: nat)
    requires Inv(s) && env.ledger >= s.now
    ensures CancelWithdrawal(s, env, id).Ok? ==> Inv(CancelWithdrawal(s, env, id).value.(now := env.ledger))
    ensures ReclaimExpired(s, env, id).Ok? ==> Inv(ReclaimExpired(s, env, id).value.(now := env.ledger))
  {
    hide Inv, Unreserve, CheckInvariants, RequireAdmin, Balance;
    if id in s.queue { ReleaseKeeps(s, id, env.ledger); }
  }

  /** Settings, the fee vault and the breaker's flag do not matter to the accounts. */
  lemma SettingsKeep(s: State, s': State, now: nat)
    requires Inv(s) && now >= s.now
    requires s' == s.(cfg := s'.cfg, feeVault := s'.feeVault, registry := s'.registry, breaker := s'.breaker,
                      now := now)
    requires s'.breaker == s.breaker || s'.breaker == s.breaker.(tripped := false)
    requires s'.registry.Keys == {s.token}
    requires s'.registry[s.token] == s.registry[s.token].(limit := s'.registry[s.token].limit,
                                                          dailyDepositLimit := s'.registry[s.token].dailyDepositLimit)
    ensures Inv(s')
  {
  }

  lemma FeesKeep(s: State, env: Env, to: Address, token: Address, amount: I128)
    requires Inv(s) && env.ledger >= s.now
    requires WithdrawFees(s, env, to, token, amount).Ok?
    ensures Inv(WithdrawFees(s, env, to, token, amount).value.(now := env.ledger))
  {
    hide Inv, Transfer, Balance, RequireAdmin;
    var s' := WithdrawFees(s, env, to, token, amount).value;
    var recipient := if s.cfg.feeRecipient.Some? then s.cfg.feeRecipient.value else to;
    TransferMoves(s.balances, token, s.self, recipient, amount, s.token, s.self);
    if recipient != s.self {
      HoldingsKeep(s, s', FeePaid(env.ledger, token, recipient, amount), env.ledger);
    } else {
      SameHoldingsKeep(s, s', env.ledger);
    }
  }

  /** Tokens move, but the contract holds as many as before. */
  lemma SameHoldingsKeep(s: State, s': State, now: nat)
    requires Inv(s) && now >= s.now
    requires s' == s.(balances := s'.balances, feeVault := s'.feeVault)
    requires Balance(s'.balances, s.token, s.self) == Balance(s.balances, s.token, s.self)
    ensures Inv(s'.(now := now))
  {
    hide ReceiptsOk, LimitsOk, QueueOk, CountersOk, BalanceOk, Balance;
    LimitsLater(s, now);
    QueueLater(s, now);
  }

  /** An event that moves the contract's tokens outside the accounts. */
  lemma HoldingsKeep(s: State, s': State, e: Event, now: nat)
    requires Inv(s) && now >= s.now && (e.FeePaid? || e.Arrived?)
    requires s' == s.(balances := s'.balances, feeVault := s'.feeVault, history := s.history + [e])
    requires Balance(s'.balances, s.token, s.self) ==
             Balance(s.balances, s.token, s.self) + ArrivalsOf(s.token)(e) - FeesOf(s.token)(e)
    ensures Inv(s'.(now := now))
  {
    hide ReceiptsOk, LimitsOk, QueueOk, MapSum, Balance;
    LimitsLater(s, now);
    QueueLater(s, now);
    TotalsAppend(s.history, e, s.token);
  }

  lemma OutsideKeeps(s: State, env: Env, token: Address, from: Option<Address>, to: Address, amount: nat)
    requires Inv(s) && env.ledger >= s.now
    requires OutsideTransfer(s, env, token, from, to, amount).Ok?
    ensures Inv(OutsideTransfer(s, env, token, from, to, amount).value.(now := env.ledger))
  {
    hide ReceiptsOk, LimitsOk, BalanceOk, CountersOk, QueueOk, MapSum;
    LimitsLater(s, env.ledger);
    QueueLater(s, env.ledger);
    var s' := OutsideTransfer(s, env, token, from, to, amount).value;
    if from.Some? {
      TransferMoves(s.balances, token, from.value, to, amount, s.token, s.self);
    }
    if to == s.self {
      HoldingsKeep(s, s', Arrived(env.ledger, token, amount), env.ledger);
    }
  }

  predicate MovesMoney(op: Op) {
    op.OpDeposit? || op.OpWithdraw? || op.OpRequest? || op.OpExecute? || op.OpCancel? || op.OpReclaim?
    || op.OpWithdrawFees? || op.OpOutside?
  }

  lemma MoneyKeeps(s: State, env: Env, op: Op)
    requires Inv(s) && env.ledger >= s.now && MovesMoney(op) && Apply(s, env, op).Ok?
    ensures Inv(Apply(s, env, op).value.(now := env.ledger))
  {
    hide Inv, Deposit, Withdraw, RequestWithdrawal, ExecuteWithdrawal, CancelWithdrawal, ReclaimExpired,
         WithdrawFees, OutsideTransfer;
    match op
    case OpDeposit(from, amount, token, reference, expected, slippage, memo) =>
      DepositKeeps(s, env, from, amount, token, reference, expected, slippage, memo);
    case OpWithdraw(caller, to, amount, token) => WithdrawKeeps(s, env, caller, to, amount, token);
    case OpRequest(to, amount, token, memo, tier) => RequestKeeps(s, env, to, amount, token, memo, tier);
    case OpExecute(id, partial, expected, slippage, nonce) =>
      ExecuteKeeps(s, env, id, partial, expected, slippage, nonce);
    case OpCancel(id) => CancelKeeps(s, env, id);
    case OpReclaim(id) => CancelKeeps(s, env, id);
    case OpWithdrawFees(to, token, amount) => FeesKeep(s, env, to, token, amount);
    case OpOutside(token, source, to, quantity) => OutsideKeeps(s, env, token, source, to, quantity);
  }

  lemma SettingKeeps(s: State, env: Env, op: Op)
    requires Inv(s) && env.ledger >= s.now && !MovesMoney(op) && Apply(s, env, op).Ok?
    ensures Inv(Apply(s, env, op).value.(now := env.ledger))
  {
    hide Inv, Apply;
    if GovOp(op) { RolesKeep(s, env, op); } else { PlainSettingKeeps(s, env, op); }
  }

  lemma PendingIsPast(s: State)
    requires Inv(s) && s.pendingAdmin.Some?
    ensures s.pendingAdmin.value.1 <= s.now
  {
  }

  lemma PlainSettingKeeps(s: State, env: Env, op: Op)
    requires Inv(s) && env.ledger >= s.now && !MovesMoney(op) && !GovOp(op) && Apply(s, env, op).Ok?
    ensures Inv(Apply(s, env, op).value.(now := env.ledger))
  {
    hide CountersOk, BalanceOk, QueueOk, ReceiptsOk, LimitsOk, Deposit, Withdraw, RequestWithdrawal,
         ExecuteWithdrawal, CancelWithdrawal, ReclaimExpired, WithdrawFees, OutsideTransfer;
    SettingsKeep(s, Apply(s, env, op).value.(now := env.ledger), env.ledger);
  }

  lemma RolesKeep(s: State, env: Env, op: Op)
    requires Inv(s) && env.ledger >= s.now && GovOp(op) && Apply(s, env, op).Ok?
    ensures Inv(Apply(s, env, op).value.(now := env.ledger))
  {
    hide Inv, Deposit, Withdraw, RequestWithdrawal, ExecuteWithdrawal, CancelWithdrawal, ReclaimExpired,
         WithdrawFees, OutsideTransfer;
    if s.pendingAdmin.Some? { PendingIsPast(s); }
    var ledger, s' := env.ledger, Apply(s, env, op).value.(now := env.ledger);
    if op.OpTransferAdmin? {
      EventKeeps(s, s', AdminProposed(ledger, s.admin.value, op.candidate), ledger);
    } else if op.OpAcceptAdmin? {
      EventKeeps(s, s', AdminAccepted(ledger, s.admin, s.pendingAdmin.value.0), ledger);
    } else if op.OpQueueRenounce? {
      EventKeeps(s, s', RenounceQueued(ledger, s.admin.value), ledger);
    } else if op.OpCancelRenounce? {
      EventKeeps(s, s', RenounceCancelled(ledger, s.admin.value), ledger);
    } else {
      EventKeeps(s, s', Renounced(ledger, s.admin.value), ledger);
    }
  }

  /** Every call that succeeds keeps the invariant. */
  lemma StepKeeps(s: State, call: Call)
    requires Inv(s) && Step(s, call).Ok?
    ensures Inv(Step(s, call).value)
  {
    hide Inv, Apply;
    if MovesMoney(call.op) {
      MoneyKeeps(s, call.env, call.op);
    } else {
      SettingKeeps(s, call.env, call.op);
    }
  }

  lemma InitEstablishes(self: Address, env: Env, admin: Address, token: Address, limit: I128, minDeposit: I128)
    requires Init(self, env, admin, token, limit, minDeposit).Ok?
    ensures Inv(Init(self, env, admin, token, limit, minDeposit).value)
  {
    var s := Init(self, env, admin, token, limit, minDeposit).value;
    assert Remaining(s.queue, token) == map[];
    assert Amounts(s.receipts) == map[];
    assert forall u :: AmountsOf(s.receipts, u) == map[];
  }

  lemma InitIsBacked(self: Address, env: Env, admin: Address, token: Address, limit: I128, minDeposit: I128)
    requires Init(self, env, admin, token, limit, minDeposit).Ok?
    ensures Backed(Init(self, env, admin, token, limit, minDeposit).value)
  {
  }

  lemma {:induction false} RunKeeps(s: State, calls: seq<Call>)
    requires Inv(s)
    ensures Inv(Run(s, calls))
    decreases |calls|
  {
    if calls != [] {
      if Step(s, calls[0]).Ok? { StepKeeps(s, calls[0]); }
      RunKeeps(Next(s, calls[0]), calls[1..]);
    }
  }

  // ---- reachability as a predicate ----

  /** Some initialization and some calls lead to the state. */
  ghost predicate IsReachable(s: State) {
    exists self: Address, env: Env, admin: Address, token: Address, limit: I128, minDeposit: I128, calls: seq<Call> ::
      Init(self, env, admin, token, limit, minDeposit).Ok?
          && s == Run(Init(self, env, admin, token, limit, minDeposit).value, calls)
  }

  lemma InitIsReachable(self: Address, env: Env, admin: Address, token: Address, limit: I128, minDeposit: I128)
    requires Init(self, env, admin, token, limit, minDeposit).Ok?
    ensures IsReachable(Init(self, env, admin, token, limit, minDeposit).value)
  {
    hide Init;
    var s := Init(self, env, admin, token, limit, minDeposit).value;
    assert s == Run(s, []);
  }

  lemma {:induction false} RunOneMore(s: State, calls: seq<Call>, last: Call)
    ensures Run(s, calls + [last]) == Next(Run(s, calls), last)
    decreases |calls|
  {
    hide Step;
    if calls == [] {
      assert [] + [last] == [last];
    } else {
      RunOneMore(Next(s, calls[0]), calls[1..], last);
      assert (calls + [last])[1..] == calls[1..] + [last];
    }
  }

  lemma StepIsReachable(s: State, call: Call)
    requires IsReachable(s) && Step(s, call).Ok?
    ensures IsReachable(Step(s, call).value)
  {
    hide Init, Step;
    var self: Address, env: Env, admin: Address, token: Address, limit: I128, minDeposit: I128, calls: seq<Call> :|
      Init(self, env, admin, token, limit, minDeposit).Ok?
          && s == Run(Init(self, env, admin, token, limit, minDeposit).value, calls);
    RunOneMore(Init(self, env, admin, token, limit, minDeposit).value, calls, call);
  }

  lemma ReachableIsInOrder(s: State)
    requires IsReachable(s)
    ensures Inv(s)
  {
    hide Init, Step, Inv;
    var self: Address, env: Env, admin: Address, token: Address, limit: I128, minDeposit: I128, calls: seq<Call> :|
      Init(self, env, admin, token, limit, minDeposit).Ok?
          && s == Run(Init(self, env, admin, token, limit, minDeposit).value, calls);
    InitEstablishes(self, env, admin, token, limit, minDeposit);
    RunKeeps(Init(self, env, admin, token, limit, minDeposit).value, calls);
  }
}
