/** What a successful call leaves behind, cell by cell: who is paid how much, what becomes of the request,
    the receipt, the counters and the stamps, and that everything else stays as it was. */
module Effects {
  import opened Prelude
  import opened Escrow
  import opened Admission
  import opened Solvency
  import Reachable
  import Slippage
  import Windows
  import CB = CircuitBreaker

  /** By how much a payment changes what `holder` has of `t`; `None` is a mint. */
  function Moved(token: Address, source: Option<Address>, to: Address, amount: int, t: Address, holder: Address): int {
    if t != token then 0
    else (if holder == to then amount else 0) - (if source == Some(holder) then amount else 0)
  }

  /** Every holder's balance of every token changes by this payment and nothing else. */
  ghost predicate Pays(b: Balances, b': Balances, token: Address, source: Option<Address>, to: Address, amount: int) {
    forall t: Address, holder: Address ::
      Balance(b', t, holder) == Balance(b, t, holder) + Moved(token, source, to, amount, t, holder)
  }

  lemma TransferPays(b: Balances, token: Address, from: Address, to: Address, amount: nat)
    requires Transfer(b, token, from, to, amount).Ok?
    ensures Pays(b, Transfer(b, token, from, to, amount).value, token, Some(from), to, amount)
  {
    forall t: Address, h: Address
      ensures Balance(Transfer(b, token, from, to, amount).value, t, h)
              == Balance(b, t, h) + Moved(token, Some(from), to, amount, t, h)
    {
      Reachable.TransferMoves(b, token, from, to, amount, t, h);
    }
  }

  // ---- payouts ----

  lemma PayOutEffect(s: State, ledger: nat, token: Address, to: Address, amount: nat, reserved: nat)
    requires SettlePayment(s, ledger, token, to, amount, reserved).Ok?
    ensures token in s.registry
    ensures var s', c := SettlePayment(s, ledger, token, to, amount, reserved).value, s.registry[token];
      && Pays(s.balances, s'.balances, token, Some(s.self), to, amount)
      && s' == s.(balances := s'.balances,
                  registry := s.registry[token := c.(totalWithdrawn := c.totalWithdrawn + amount,
                                                     totalLiabilities := c.totalLiabilities - reserved)],
                  history := s.history + [Paid(ledger, token, to, amount)])
  {
    hide Pays, Transfer, Balance, CheckInvariants;
    TransferPays(s.balances, token, s.self, to, amount);
  }

  /** A direct withdrawal pays exactly the amount, from the contract to the recipient it names, and is
      counted as withdrawn. No request is touched, and the recipient's nonce is not spent. */
  lemma WithdrawPays(s: State, env: Env, caller: Address, to: Address, amount: I128, token: Address)
    requires Withdraw(s, env, caller, to, amount, token).Ok?
    ensures amount > 0 && token in s.registry
    ensures var s', c := Withdraw(s, env, caller, to, amount, token).value, s.registry[token];
      && Pays(s.balances, s'.balances, token, Some(s.self), to, amount)
      && s' == s.(balances := s'.balances, quotaUsed := s'.quotaUsed, breaker := s'.breaker,
                  registry := s.registry[token := c.(totalWithdrawn := c.totalWithdrawn + amount)],
                  history := s.history + [Paid(env.ledger, token, to, amount)])
  {
    hide Pays, SettlePayment, ChargeLimits, Balance;
    PayOutEffect(s, env.ledger, token, to, amount, 0);
  }

  /** Executing pays what was asked, or all that is left, to the request's recipient; exactly that leaves the
      request, which is gone when nothing is left, and the liabilities. */
  lemma ExecutePays(s: State, env: Env, id: nat, partial: Option<I128>, expectedPrice: I128, maxSlippage: U32,
                    nonce: nat)
    requires ExecuteWithdrawal(s, env, id, partial, expectedPrice, maxSlippage, nonce).Ok?
    ensures id in s.queue && s.queue[id].token in s.registry
    ensures var s', r := ExecuteWithdrawal(s, env, id, partial, expectedPrice, maxSlippage, nonce).value, s.queue[id];
      var amount, c := Portion(r, partial), s.registry[r.token];
      && 0 <= amount <= r.amount
      && Pays(s.balances, s'.balances, r.token, Some(s.self), r.to, amount)
      && s' == s.(balances := s'.balances, quotaUsed := s'.quotaUsed, breaker := s'.breaker,
                  registry := s.registry[r.token := c.(totalWithdrawn := c.totalWithdrawn + amount,
                                                       totalLiabilities := c.totalLiabilities - amount)],
                  queue := if amount == r.amount then s.queue - {id}
                           else s.queue[id := r.(amount := r.amount - amount)],
                  nonces := s.nonces[r.to := GetOr(s.nonces, r.to, 0) + 1],
                  history := s.history + [Paid(env.ledger, r.token, r.to, amount)])
  {
    hide Pays, SettlePayment, ChargeLimits, CheckBenchmark, Balance, AdmitExecution;
    var r := s.queue[id];
    AdmittedPortion(s, env, id, partial, nonce);
    PayOutEffect(s, env.ledger, r.token, r.to, Portion(r, partial), Portion(r, partial));
  }

  lemma AdmittedPortion(s: State, env: Env, id: nat, partial: Option<I128>, nonce: nat)
    requires id in s.queue && AdmitExecution(s, env, id, partial, nonce).Ok?
    ensures AdmitExecution(s, env, id, partial, nonce).value == Portion(s.queue[id], partial) <= s.queue[id].amount
    ensures nonce == GetOr(s.nonces, s.queue[id].to, 0)
  {
    hide Recent;
  }

  // ---- requests ----

  /** A request enters under the next id, to be paid to the named recipient after the lock period, and reserves its
      amount. No tokens move. */
  lemma RequestReserves(s: State, env: Env, to: Address, amount: I128, token: Address, memo: Option<Hash>,
                        riskTier: U32)
    requires RequestWithdrawal(s, env, to, amount, token, memo, riskTier).Ok?
    ensures amount > 0 && token in s.registry
    ensures var (s', id) := RequestWithdrawal(s, env, to, amount, token, memo, riskTier).value;
      var c := s.registry[token];
      && id == s.nextId
      && s' == s.(nextId := id + 1,
                  queue := s.queue[id := Request(to, token, amount, env.ledger + s.cfg.lockPeriod, memo, env.ledger,
                                                 riskTier)],
                  registry := s.registry[token := c.(totalLiabilities := c.totalLiabilities + amount)])
  {
    hide Balance, Recent, CB.Clear, CheckInvariants;
  }

  /** The call takes a request out of the queue without paying it. */
  predicate Releases(op: Op, id: nat) { (op.OpCancel? || op.OpReclaim?) && op.id == id }

  /** Cancelling and reclaiming take exactly this request out of the queue and free exactly what it still had
      coming; no tokens move, nothing is counted as withdrawn, and nothing else changes. */
  lemma ReleaseFrees(s: State, env: Env, op: Op, id: nat)
    requires Releases(op, id) && Apply(s, env, op).Ok?
    ensures id in s.queue && s.queue[id].token in s.registry
    ensures var r := s.queue[id]; var c := s.registry[r.token];
      Apply(s, env, op).value ==
        s.(queue := map i | i in s.queue && i != id :: s.queue[i],
           registry := s.registry[r.token := c.(totalLiabilities := c.totalLiabilities - r.amount)])
  {
    hide Balance, CheckInvariants, RequireAdmin, Deposit, Withdraw, RequestWithdrawal, ExecuteWithdrawal,
         WithdrawFees, OutsideTransfer;
    assert s.queue - {id} == map i | i in s.queue && i != id :: s.queue[i];
  }

  // ---- deposits ----

  lemma PayInEffect(k: Books, self: Address, ledger: nat, id: ReceiptId, token: Address, memo: Option<Hash>)
    requires token in k.registry && id.amount >= 0 && PayIn(k, self, ledger, id, token, memo).Ok?
    ensures var k', c := PayIn(k, self, ledger, id, token, memo).value, k.registry[token];
      && Pays(k.balances, k'.balances, token, Some(id.depositor), self, id.amount)
      && id !in k.receipts
      && k' == Books(k.registry[token := c.(totalDeposited := c.totalDeposited + id.amount)], k'.balances,
                     k.receipts[id := Receipt(id.depositor, id.amount, ledger, id.reference, memo)],
                     k.receiptIndex[k.receiptCounter := id], k.receiptCounter + 1,
                     k.userDeposited[id.depositor := GetOr(k.userDeposited, id.depositor, 0) + id.amount])
  {
    hide Pays, Transfer, Balance, CheckInvariants;
    TransferPays(k.balances, token, id.depositor, self, id.amount);
  }

  /** A deposit takes exactly the amount from the depositor to the contract, counts it for the token and for the
      depositor, issues a new receipt with all that the call said, and stamps the ledger, a second time if the
      deposit is large. No request is touched. */
  lemma DepositBooks(s: State, env: Env, from: Address, amount: I128, token: Address, reference: string,
                     expectedPrice: I128, maxSlippage: U32, memo: Option<Hash>)
    requires Deposit(s, env, from, amount, token, reference, expectedPrice, maxSlippage, memo).Ok?
    ensures amount > 0 && token in s.registry
    ensures var (s', id) := Deposit(s, env, from, amount, token, reference, expectedPrice, maxSlippage, memo).value;
      var c := s.registry[token];
      && id == ReceiptId(from, amount, env.ledger, reference, s.receiptCounter) && id !in s.receipts
      && Pays(s.balances, s'.balances, token, Some(from), s.self, amount)
      && s' == s.(balances := s'.balances, dailyDeposits := s'.dailyDeposits, fiatVolume := s'.fiatVolume,
                  registry := s.registry[token := c.(totalDeposited := c.totalDeposited + amount)],
                  receipts := s.receipts[id := Receipt(from, amount, env.ledger, reference, memo)],
                  receiptIndex := s.receiptIndex[s.receiptCounter := id], receiptCounter := s.receiptCounter + 1,
                  userDeposited := s.userDeposited[from := GetOr(s.userDeposited, from, 0) + amount],
                  lastDeposit := s.lastDeposit[from := env.ledger],
                  lastLarge := if 0 < s.cfg.withdrawThreshold <= amount then s.lastLarge[from := env.ledger]
                               else s.lastLarge,
                  history := s.history + [Deposited(env.ledger, token, from, amount, PriceSeen(s, env))])
  {
    hide Pays, ClearDeposit, PayIn;
    ClearedPrice(s, env, from, amount, token, reference, expectedPrice, maxSlippage, memo);
    var id := ReceiptId(from, amount, env.ledger, reference, s.receiptCounter);
    PayInEffect(BooksOf(s), s.self, env.ledger, id, token, memo);
  }

  lemma ClearedPrice(s: State, env: Env, from: Address, amount: I128, token: Address, reference: string,
                     expectedPrice: I128, maxSlippage: U32, memo: Option<Hash>)
    requires ClearDeposit(s, env, from, amount, token, reference, expectedPrice, maxSlippage, memo).Ok?
    ensures amount > 0 && token in s.registry
    ensures ClearDeposit(s, env, from, amount, token, reference, expectedPrice, maxSlippage, memo).value.2
            == PriceSeen(s, env)
  {
    hide Windows.ChargeDaily, Windows.ChargeFiat, Slippage.CheckSlippage, Recent, MayDeposit;
  }

  // ---- fees and outside transfers ----

  /** Paying fees out takes exactly the amount from the vault and from the contract, to the configured recipient or,
      without one, to the one the call names; deposits and requests do not change. */
  lemma FeesPay(s: State, env: Env, to: Address, token: Address, amount: I128)
    requires WithdrawFees(s, env, to, token, amount).Ok?
    ensures var s' := WithdrawFees(s, env, to, token, amount).value;
      var payee := if s.cfg.feeRecipient.Some? then s.cfg.feeRecipient.value else to;
      && 0 < amount <= GetOr(s.feeVault, token, 0)
      && Pays(s.balances, s'.balances, token, Some(s.self), payee, amount)
      && s' == s.(balances := s'.balances, feeVault := s.feeVault[token := GetOr(s.feeVault, token, 0) - amount],
                  history := if payee == s.self then s.history
                             else s.history + [FeePaid(env.ledger, token, payee, amount)])
  {
    hide Pays, Transfer, Balance, RequireAdmin;
    TransferPays(s.balances, token, s.self, FeeRecipient(s, to), amount);
  }

  lemma OutsidePays(s: State, env: Env, token: Address, source: Option<Address>, to: Address, amount: nat)
    requires OutsideTransfer(s, env, token, source, to, amount).Ok?
    ensures var s' := OutsideTransfer(s, env, token, source, to, amount).value;
      && source != Some(s.self)
      && Pays(s.balances, s'.balances, token, source, to, amount)
      && s' == s.(balances := s'.balances,
                  history := if to == s.self then s.history + [Arrived(env.ledger, token, amount)] else s.history)
  {
    if source.Some? {
      hide Pays, Transfer;
      TransferPays(s.balances, token, source.value, to, amount);
    }
  }

  // ---- what the administrator sets ----

  /** The settings after a call. */
  function CfgAfter(cfg: Config, op: Op): Config {
    match op
    case OpReconfigure(settings) => settings
    case OpMultisig(cooldown, lock, quota, sandwich, paused) =>
      cfg.(cooldown := cooldown, lockPeriod := lock, quota := quota, antiSandwich := sandwich, paused := paused)
    case OpInit(_, _, _, minDeposit, _) => cfg.(minDeposit := minDeposit, antiSandwich := 0)
    case _ => cfg
  }

  /** The calls that only set something, and the cells they set. */
  predicate Sets(op: Op) {
    op.OpAccrueFee? || op.OpResetBreaker? || op.OpReconfigure? || op.OpMultisig? || op.OpSetLimits?
  }

  /** Accruing raises one token's vault by the amount; a reset clears the flag of the breaker and keeps its volume;
      setters set what they name and nothing else. None of these moves tokens or touches deposits and requests. */
  lemma SettersSet(s: State, env: Env, op: Op)
    requires Sets(op) && Apply(s, env, op).Ok?
    ensures var s' := Apply(s, env, op).value;
      && s' == s.(feeVault := s'.feeVault, breaker := s'.breaker, cfg := CfgAfter(s.cfg, op), registry := s'.registry)
      && (forall t :: GetOr(s'.feeVault, t, 0)
                      == GetOr(s.feeVault, t, 0) + if op.OpAccrueFee? && op.token == t then op.amount else 0)
      && s'.breaker.volume == s.breaker.volume && s'.breaker.trippedAt == s.breaker.trippedAt
      && (s'.breaker.tripped <==> s.breaker.tripped && !op.OpResetBreaker?)
      && s'.registry.Keys == s.registry.Keys
      && (forall t :: t in s.registry ==>
            var c := s.registry[t];
            s'.registry[t] == if op.OpSetLimits? && op.token == t
                              then TokenConfig(op.limit, op.daily, c.totalDeposited, c.totalWithdrawn,
                                               c.totalLiabilities)
                              else c)
  {
    hide RequireAdmin, Deposit, Withdraw, ExecuteWithdrawal, RequestWithdrawal, CancelWithdrawal, ReclaimExpired,
         WithdrawFees, OutsideTransfer;
  }

  /** Initialization installs the administrator and the token with its limit, counts nothing yet, and keeps no nonce. */
  lemma InitSets(s: State, env: Env, admin: Address, token: Address, limit: I128, minDeposit: I128, nonce: nat)
    requires Initialize(s, env, admin, token, limit, minDeposit, nonce).Ok?
    ensures s.admin == None && s.schemaVersion == None && 1 <= minDeposit < limit
    ensures Initialize(s, env, admin, token, limit, minDeposit, nonce).value ==
            s.(schemaVersion := Some(1), initNonces := s.initNonces[admin := 0], admin := Some(admin), token := token,
               cfg := s.cfg.(minDeposit := minDeposit, antiSandwich := 0),
               registry := s.registry[token := TokenConfig(limit, 0, 0, 0, 0)])
  {
  }

  /** Proposing, accepting, queuing, cancelling and renouncing set the cells about the administrator, record who did
      what to whom, and change nothing else. An acceptance leaves a queued renunciation queued. */
  lemma RolesSet(s: State, env: Env, op: Op)
    requires GovOp(op) && Apply(s, env, op).Ok?
    ensures var s', h := Apply(s, env, op).value, s.history;
      match op
      case OpTransferAdmin(candidate) =>
        s.admin.Some? && s' == s.(pendingAdmin := Some((candidate, env.ledger)),
                                  history := h + [AdminProposed(env.ledger, s.admin.value, candidate)])
      case OpAcceptAdmin =>
        && s.pendingAdmin.Some?
        && var candidate := s.pendingAdmin.value.0;
        s' == s.(admin := Some(candidate), pendingAdmin := None,
                 history := h + [AdminAccepted(env.ledger, s.admin, candidate)])
      case OpQueueRenounce =>
        s.admin.Some? && s' == s.(renounceAt := Some(env.ledger + MIN_TIMELOCK_DELAY),
                                  history := h + [RenounceQueued(env.ledger, s.admin.value)])
      case OpCancelRenounce =>
        s.admin.Some? && s' == s.(renounceAt := None, history := h + [RenounceCancelled(env.ledger, s.admin.value)])
      case _ =>
        s.admin.Some? && s' == s.(admin := None, pendingAdmin := None, renounceAt := None,
                                  history := h + [Renounced(env.ledger, s.admin.value)])
  {
    hide Deposit, Withdraw, RequestWithdrawal, ExecuteWithdrawal, CancelWithdrawal, ReclaimExpired, WithdrawFees,
         OutsideTransfer;
  }
}
