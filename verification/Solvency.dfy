/** What the accounting invariant buys: entry points fail for the reasons their callers can see and
    never because the books do not add up. */
module Solvency {
  import opened Prelude
  import CircuitBreaker
  import opened Admission
  import opened Escrow
  import opened Accounting

  /** An administrator is installed and signed the call. */
  predicate AdminCall(s: State, env: Env) { s.admin.Some? && Signed(s, env, s.admin.value) }

  /** The errors that would mean the contract's own books are wrong or its tokens are gone. */
  predicate OfTheBooks(e: Error) { e == InternalError || e == InsufficientFunds || e == TokenNotWhitelisted }

  /** What no queued request has reserved. */
  function Free(s: State): int
    requires s.token in s.registry
  {
    s.registry[s.token].Net() - s.registry[s.token].totalLiabilities
  }

  lemma CheckPassesIff(registry: map<Address, TokenConfig>, token: Address, held: nat)
    requires token in registry
    requires 0 <= registry[token].totalWithdrawn && registry[token].totalDeposited <= I128_MAX
    ensures var c := registry[token];
      CheckInvariants(registry, token, held) ==
        if c.Net() < 0 || c.Net() < c.totalLiabilities then Err(InternalError)
        else if held < c.Net() then Err(InsufficientFunds)
        else Ok(())
  {
  }

  lemma TransferSucceedsIff(b: Balances, token: Address, from: Address, to: Address, amount: nat)
    ensures Transfer(b, token, from, to, amount).Ok? <==> amount <= Balance(b, token, from)
    ensures Transfer(b, token, from, to, amount).Err? ==> Transfer(b, token, from, to, amount).error == HostAbort
    ensures from != to && amount <= Balance(b, token, from) ==>
              var b' := Transfer(b, token, from, to, amount).value;
              && Balance(b', token, from) == Balance(b, token, from) - amount
              && Balance(b', token, to) == Balance(b, token, to) + amount
  {
  }

  lemma PaymentSettles(s: State, ledger: nat, to: Address, amount: nat, reserved: nat)
    requires Inv(s) && Backed(s) && to != s.self && reserved <= s.registry[s.token].totalLiabilities
    requires amount <= Free(s) + reserved
    ensures SettlePayment(s, ledger, s.token, to, amount, reserved).Ok?
  {
    hide LimitsOk, BalanceOk, ReceiptsOk, QueueOk, Transfer, Balance, CheckInvariants, Owed, Total;
    var c, held := s.registry[s.token], Balance(s.balances, s.token, s.self);
    TransferSucceedsIff(s.balances, s.token, s.self, to, amount);
    var registry := s.registry[s.token := c.(totalWithdrawn := c.totalWithdrawn + amount,
                                             totalLiabilities := c.totalLiabilities - reserved)];
    CheckPassesIff(registry, s.token, held - amount);
  }

  lemma PaymentRefused(s: State, ledger: nat, to: Address, amount: nat, reserved: nat)
    requires Inv(s) && to != s.self && reserved <= s.registry[s.token].totalLiabilities
    requires amount > Free(s) + reserved || !Backed(s)
    ensures SettlePayment(s, ledger, s.token, to, amount, reserved) ==
            Err(if amount > Balance(s.balances, s.token, s.self) then HostAbort
                else if amount > Free(s) + reserved then InternalError
                else InsufficientFunds)
  {
    hide LimitsOk, BalanceOk, ReceiptsOk, QueueOk, Transfer, Balance, CheckInvariants, Owed, Total;
    var c, held := s.registry[s.token], Balance(s.balances, s.token, s.self);
    TransferSucceedsIff(s.balances, s.token, s.self, to, amount);
    if amount <= held && FitsI128(c.totalWithdrawn + amount) {
      var registry := s.registry[s.token := c.(totalWithdrawn := c.totalWithdrawn + amount,
                                               totalLiabilities := c.totalLiabilities - reserved)];
      CheckPassesIff(registry, s.token, held - amount);
    }
  }

  lemma PaymentKeepsCover(s: State, ledger: nat, to: Address, amount: nat, reserved: nat)
    requires SettlePayment(s, ledger, s.token, to, amount, reserved).Ok?
    ensures Backed(SettlePayment(s, ledger, s.token, to, amount, reserved).value)
  {
    hide Transfer, Balance;
  }

  /** Paying out succeeds exactly when the net deposits are covered and the payout stays within what is
      free plus what it had reserved itself; otherwise the first of these that is broken names the error. */
  lemma PaymentSettlesIff(s: State, ledger: nat, to: Address, amount: nat, reserved: nat)
    requires Inv(s) && to != s.self && reserved <= s.registry[s.token].totalLiabilities
    ensures var r := SettlePayment(s, ledger, s.token, to, amount, reserved);
      && (r.Ok? <==> Backed(s) && amount <= Free(s) + reserved)
      && (r.Err? ==> r.error == if amount > Balance(s.balances, s.token, s.self) then HostAbort
                                else if amount > Free(s) + reserved then InternalError
                                else InsufficientFunds)
      && (r.Ok? ==> Backed(r.value))
  {
    hide SettlePayment, Inv, Balance;
    if Backed(s) && amount <= Free(s) + reserved {
      PaymentSettles(s, ledger, to, amount, reserved);
      PaymentKeepsCover(s, ledger, to, amount, reserved);
    } else {
      PaymentRefused(s, ledger, to, amount, reserved);
    }
  }

  /** A direct withdrawal succeeds exactly when nothing speaks against it, the net deposits are covered, and it
      stays within what no queued request has reserved; the first of these that is broken names the error. */
  lemma WithdrawSucceedsIff(s: State, env: Env, caller: Address, to: Address, amount: I128)
    requires Inv(s)
    ensures var r := Withdraw(s, env, caller, to, amount, s.token);
      var refusal := WithdrawRefusal(s, env, caller, to, amount);
      && (r.Ok? <==> refusal == None && Backed(s) && amount <= Free(s))
      && (r.Err? ==> r.error == if refusal.Some? then refusal.value
                                else if Free(s) < amount <= Balance(s.balances, s.token, s.self) then InternalError
                                else InsufficientFunds)
      && (r.Ok? ==> Backed(r.value))
  {
    hide Inv, Free, SettlePayment, ChargeLimits, PayoutRefusal, Balance;
    FreeIsBounded(s);
    if to != s.self && amount > 0 {
      LimitsDecide(s, env, to, amount);
      PaymentSettlesIff(s, env.ledger, to, amount, 0);
    }
  }

  lemma FreeIsBounded(s: State)
    requires Inv(s)
    ensures 0 <= Free(s) && 0 <= s.registry[s.token].totalLiabilities
    ensures Backed(s) ==> Free(s) <= Balance(s.balances, s.token, s.self)
  {
  }

  // ---- requests ----

  /** Everything asked before the books are looked at. */
  lemma RequestAdmitted(s: State, env: Env, to: Address, amount: I128, token: Address, memo: Option<Hash>,
                        riskTier: U32)
    ensures var r, refusal := RequestWithdrawal(s, env, to, amount, token, memo, riskTier),
                              RequestRefusal(s, env, to, amount, memo);
      && (refusal.Some? ==> r == Err(refusal.value))
      && (refusal == None ==> AdmitRequest(s, env, to, amount, memo).Ok? && s.nextId < U64_MAX && amount > 0)
  {
    hide Reserve, Balance;
  }

  lemma RequestSettles(s: State, env: Env, to: Address, amount: I128, memo: Option<Hash>, riskTier: U32)
    requires Inv(s) && Backed(s)
    requires AdmitRequest(s, env, to, amount, memo).Ok? && s.nextId < U64_MAX && amount > 0
    requires amount <= Free(s) && amount <= GetOr(s.userDeposited, to, 0)
    ensures RequestWithdrawal(s, env, to, amount, s.token, memo, riskTier).Ok?
  {
    hide LimitsOk, BalanceOk, ReceiptsOk, QueueOk, Balance, CheckInvariants, Owed, Total, AdmitRequest;
    var c := s.registry[s.token];
    var registry := s.registry[s.token := c.(totalLiabilities := c.totalLiabilities + amount)];
    CheckPassesIff(registry, s.token, Balance(s.balances, s.token, s.self));
  }

  lemma RequestRefused(s: State, env: Env, to: Address, amount: I128, memo: Option<Hash>, riskTier: U32)
    requires Inv(s)
    requires AdmitRequest(s, env, to, amount, memo).Ok? && s.nextId < U64_MAX && amount > 0
    requires Backed(s) ==> amount > Free(s) || amount > GetOr(s.userDeposited, to, 0)
    ensures RequestWithdrawal(s, env, to, amount, s.token, memo, riskTier) ==
            Err(if s.registry[s.token].totalLiabilities + amount > I128_MAX then Overflow else InsufficientFunds)
  {
    hide LimitsOk, BalanceOk, ReceiptsOk, QueueOk, Balance, CheckInvariants, Owed, Total, AdmitRequest;
    var c := s.registry[s.token];
    var registry := s.registry[s.token := c.(totalLiabilities := c.totalLiabilities + amount)];
    CheckPassesIff(registry, s.token, Balance(s.balances, s.token, s.self));
  }

  lemma RequestKeepsCover(s: State, env: Env, to: Address, amount: I128, memo: Option<Hash>, riskTier: U32)
    requires RequestWithdrawal(s, env, to, amount, s.token, memo, riskTier).Ok?
    ensures Backed(RequestWithdrawal(s, env, to, amount, s.token, memo, riskTier).value.0)
  {
    hide Balance, Recent, CircuitBreaker.Clear;
  }

  /** A request succeeds exactly when nothing speaks against it, the net deposits are covered, and it fits what
      is free and what the recipient ever deposited; its closing check fails only for lack of cover. */
  lemma RequestSucceedsIff(s: State, env: Env, to: Address, amount: I128, memo: Option<Hash>, riskTier: U32)
    requires Inv(s)
    ensures var r, refusal := RequestWithdrawal(s, env, to, amount, s.token, memo, riskTier),
                              RequestRefusal(s, env, to, amount, memo);
      && (r.Ok? <==> refusal == None && Backed(s)
                     && amount <= Free(s) && amount <= GetOr(s.userDeposited, to, 0))
      && (r.Err? ==> r.error == if refusal.Some? then refusal.value
                                else if s.registry[s.token].totalLiabilities + amount > I128_MAX then Overflow
                                else InsufficientFunds)
      && (r.Ok? ==> Backed(r.value.0))
  {
    hide RequestWithdrawal, RequestRefusal, AdmitRequest, Inv, Balance;
    RequestAdmitted(s, env, to, amount, s.token, memo, riskTier);
    if RequestRefusal(s, env, to, amount, memo) == None {
      if Backed(s) && amount <= Free(s) && amount <= GetOr(s.userDeposited, to, 0) {
        RequestSettles(s, env, to, amount, memo, riskTier);
        RequestKeepsCover(s, env, to, amount, memo, riskTier);
      } else {
        RequestRefused(s, env, to, amount, memo, riskTier);
      }
    }
  }

  // ---- executions ----

  function Portion(r: Request, partial: Option<I128>): int {
    if partial.Some? then partial.value else r.amount
  }

  /** The refusals before the queue is read, and that with cover none of them is about the books. */
  lemma RefusalIs(s: State, env: Env, id: nat, partial: Option<I128>, expectedPrice: I128, maxSlippage: U32, nonce: nat)
    requires Inv(s)
    ensures var refusal := ExecuteRefusal(s, env, id, partial, expectedPrice, maxSlippage, nonce);
      && (s.cfg.paused ==> refusal == Some(ContractPaused))
      && (!s.cfg.paused && id !in s.queue ==> refusal == Some(RequestNotFound))
      && (refusal.Some? && Backed(s) ==> !OfTheBooks(refusal.value))
  {
    hide LimitsOk, BalanceOk, ReceiptsOk, QueueOk, CountersOk, Balance, TooSoon, PayoutRefusal, BenchmarkRefusal;
    if id in s.queue {
      OneIsReserved(s, id);
      FreeIsBounded(s);
      RefusalsSpareBooks(s, env, s.queue[id].to, Portion(s.queue[id], partial), expectedPrice, maxSlippage);
    }
  }

  lemma RefusalsSpareBooks(s: State, env: Env, to: Address, amount: int, expectedPrice: I128, maxSlippage: U32)
    ensures var e := PayoutRefusal(s, env.ledger, to, amount); e.Some? ==> !OfTheBooks(e.value)
    ensures var e := BenchmarkRefusal(s, env, expectedPrice, maxSlippage); e.Some? ==> !OfTheBooks(e.value)
  {
  }

  /** Executing succeeds exactly when nothing speaks against it and the net deposits are covered: with cover, no
      balance, overflow or bookkeeping error can stop it. Otherwise the first broken condition names the error. */
  lemma ExecuteSucceedsIff(s: State, env: Env, id: nat, partial: Option<I128>, expectedPrice: I128,
                           maxSlippage: U32, nonce: nat)
    requires Inv(s)
    ensures var r := ExecuteWithdrawal(s, env, id, partial, expectedPrice, maxSlippage, nonce);
      var refusal := ExecuteRefusal(s, env, id, partial, expectedPrice, maxSlippage, nonce);
      && (r.Ok? <==> refusal == None && Backed(s))
      && (r.Err? ==> r.error == if refusal.Some? then refusal.value else InsufficientFunds)
      && (r.Ok? ==> Backed(r.value))
      && (r.Err? && Backed(s) ==> !OfTheBooks(r.error))
  {
    hide LimitsOk, BalanceOk, ReceiptsOk, QueueOk, CountersOk, ClearExecution, SettlePayment, Balance, Served,
         ExecuteRefusal;
    RefusalIs(s, env, id, partial, expectedPrice, maxSlippage, nonce);
    if id in s.queue && !s.cfg.paused {
      var q, cleared := s.queue[id], ClearExecution(s, env, id, partial, expectedPrice, maxSlippage, nonce);
      OneIsReserved(s, id);
      ExecutionDecides(s, env, id, partial, expectedPrice, maxSlippage, nonce);
      FreeIsBounded(s);
      if cleared.Ok? {
        ClearedPortion(s, env, id, partial, expectedPrice, maxSlippage, nonce);
        PaymentSettlesIff(s, env.ledger, q.to, cleared.value.0, cleared.value.0);
      }
    }
  }

  lemma OneIsReserved(s: State, id: nat)
    requires Inv(s) && id in s.queue
    ensures s.queue[id].token == s.token && s.queue[id].to != s.self
    ensures 0 < s.queue[id].amount <= s.registry[s.token].totalLiabilities
  {
    OneIsOwed(s.queue, id, s.nextId, s.self, s.token, s.now);
  }

  /** Cancelling succeeds exactly for the administrator, unpaused, on a live request, with cover. */
  lemma CancelSucceedsIff(s: State, env: Env, id: nat)
    requires Inv(s)
    ensures var r, refusal := CancelWithdrawal(s, env, id), CancelRefusal(s, env, id);
      && (r.Ok? <==> refusal == None && Backed(s))
      && (r.Err? ==> r.error == if refusal.Some? then refusal.value else InsufficientFunds)
      && (r.Ok? ==> Backed(r.value))
  {
    hide Inv, CancelWithdrawal, CancelRefusal, Release, CheckInvariants, Balance, Backed;
    if id in s.queue {
      ReleaseSettles(s, id);
      ReleaseKeepsHoldings(s, id);
    }
    CancelReleases(s, env, id);
  }

  lemma ReleaseKeepsHoldings(s: State, id: nat)
    requires id in s.queue && Release(s, id).Ok?
    ensures Release(s, id).value.balances == s.balances
  {
  }

  lemma CancelReleases(s: State, env: Env, id: nat)
    ensures var r, refusal := CancelWithdrawal(s, env, id), CancelRefusal(s, env, id);
      && (refusal.Some? ==> r == Err(refusal.value))
      && (refusal == None ==> id in s.queue)
      && (refusal == None && Release(s, id).Ok? ==>
            var s', token := Release(s, id).value, s.queue[id].token;
            var checked := CheckInvariants(s'.registry, token, Balance(s.balances, token, s.self));
            r == if checked.Ok? then Ok(s') else Err(checked.error))
  {
    hide Release, CheckInvariants, Balance;
  }

  /** Reclaiming never looks at the balance: it succeeds exactly for the administrator on a live request
      whose expiry window is over, and leaves the cover as it was. */
  lemma ReclaimSucceedsIff(s: State, env: Env, id: nat)
    requires Inv(s)
    ensures Decides(ReclaimExpired(s, env, id), ReclaimRefusal(s, env, id))
    ensures ReclaimExpired(s, env, id).Ok? ==> (Backed(ReclaimExpired(s, env, id).value) <==> Backed(s))
  {
    hide Inv, Balance, CheckInvariants, Unreserve, Backed;
    if id in s.queue {
      ReleaseSettles(s, id);
    }
  }

  lemma ReleaseSettles(s: State, id: nat)
    requires Inv(s) && id in s.queue
    ensures s.queue[id].token == s.token
    ensures Release(s, id).Ok?
    ensures var s' := Release(s, id).value;
      && s.token in s'.registry && (Backed(s') <==> Backed(s))
      && CheckInvariants(s'.registry, s.token, Balance(s.balances, s.token, s.self))
          == if Backed(s) then Ok(()) else Err(InsufficientFunds)
  {
    hide LimitsOk, BalanceOk, ReceiptsOk, QueueOk, Balance, CheckInvariants, Owed, Total;
    OneIsReserved(s, id);
    CheckPassesIff(Release(s, id).value.registry, s.token, Balance(s.balances, s.token, s.self));
  }

  // ---- deposits ----

  lemma DepositSettles(s: State, ledger: nat, id: ReceiptId, memo: Option<Hash>, price: int)
    requires Inv(s) && Backed(s) && id.depositor != s.self && id.amount > 0 && id.counter == s.receiptCounter
    requires id.amount <= Balance(s.balances, s.token, id.depositor) && s.receiptCounter < U64_MAX
    requires s.registry[s.token].totalDeposited + id.amount <= I128_MAX
    ensures SettleDeposit(s, ledger, id, s.token, memo, price).Ok?
  {
    hide LimitsOk, BalanceOk, ReceiptsOk, QueueOk, Transfer, Balance, CheckInvariants, Owed, Total;
    var c := s.registry[s.token];
    UserBelowTotal(s.receipts, s.receiptCounter, c.totalDeposited, s.userDeposited, s.self, id.depositor);
    FreshReceipt(s, id);
    TransferSucceedsIff(s.balances, s.token, id.depositor, s.self, id.amount);
    var registry := s.registry[s.token := c.(totalDeposited := c.totalDeposited + id.amount)];
    CheckPassesIff(registry, s.token, Balance(s.balances, s.token, s.self) + id.amount);
  }

  lemma DepositRefused(s: State, ledger: nat, id: ReceiptId, memo: Option<Hash>, price: int)
    requires Inv(s) && id.depositor != s.self && id.amount > 0 && id.counter == s.receiptCounter
    requires id.amount > Balance(s.balances, s.token, id.depositor) || s.receiptCounter >= U64_MAX
             || s.registry[s.token].totalDeposited + id.amount > I128_MAX
    ensures SettleDeposit(s, ledger, id, s.token, memo, price) ==
            Err(if id.amount > Balance(s.balances, s.token, id.depositor) || s.receiptCounter >= U64_MAX then HostAbort
                else Overflow)
  {
    hide LimitsOk, BalanceOk, ReceiptsOk, QueueOk, Transfer, Balance, CheckInvariants, Owed, Total;
    FreshReceipt(s, id);
    TransferSucceedsIff(s.balances, s.token, id.depositor, s.self, id.amount);
  }

  lemma DepositUncovered(s: State, ledger: nat, id: ReceiptId, memo: Option<Hash>, price: int)
    requires Inv(s) && !Backed(s) && id.depositor != s.self && id.amount > 0 && id.counter == s.receiptCounter
    requires id.amount <= Balance(s.balances, s.token, id.depositor) && s.receiptCounter < U64_MAX
    requires s.registry[s.token].totalDeposited + id.amount <= I128_MAX
    ensures SettleDeposit(s, ledger, id, s.token, memo, price) == Err(InsufficientFunds)
  {
    hide LimitsOk, BalanceOk, ReceiptsOk, QueueOk, Transfer, Balance, CheckInvariants, Owed, Total;
    var c := s.registry[s.token];
    UserBelowTotal(s.receipts, s.receiptCounter, c.totalDeposited, s.userDeposited, s.self, id.depositor);
    FreshReceipt(s, id);
    TransferSucceedsIff(s.balances, s.token, id.depositor, s.self, id.amount);
    var registry := s.registry[s.token := c.(totalDeposited := c.totalDeposited + id.amount)];
    CheckPassesIff(registry, s.token, Balance(s.balances, s.token, s.self) + id.amount);
  }

  lemma DepositKeepsCover(s: State, ledger: nat, id: ReceiptId, memo: Option<Hash>, price: int)
    requires s.token in s.registry && id.amount >= 0 && SettleDeposit(s, ledger, id, s.token, memo, price).Ok?
    ensures Backed(SettleDeposit(s, ledger, id, s.token, memo, price).value)
  {
    hide Transfer, Balance;
  }

  /** Recording a deposit fails for lack of tokens, of room or of cover, never for the books. */
  lemma DepositSettlesIff(s: State, ledger: nat, id: ReceiptId, memo: Option<Hash>, price: int)
    requires Inv(s) && id.depositor != s.self && id.amount > 0 && id.counter == s.receiptCounter
    ensures var r := SettleDeposit(s, ledger, id, s.token, memo, price);
      && (r.Ok? <==>
            && id.amount <= Balance(s.balances, s.token, id.depositor)
            && s.receiptCounter < U64_MAX
            && s.registry[s.token].totalDeposited + id.amount <= I128_MAX
            && Backed(s))
      && (r.Err? ==>
            r.error == if id.amount > Balance(s.balances, s.token, id.depositor) || s.receiptCounter >= U64_MAX
                       then HostAbort
                       else if s.registry[s.token].totalDeposited + id.amount > I128_MAX then Overflow
                       else InsufficientFunds)
      && (r.Ok? ==> Backed(r.value))
  {
    hide SettleDeposit, Balance, CountersOk, LimitsOk, BalanceOk, ReceiptsOk, QueueOk, Backed;
    if && id.amount <= Balance(s.balances, s.token, id.depositor) && s.receiptCounter < U64_MAX
       && s.registry[s.token].totalDeposited + id.amount <= I128_MAX {
      if Backed(s) {
        DepositSettles(s, ledger, id, memo, price);
        DepositKeepsCover(s, ledger, id, memo, price);
      } else {
        DepositUncovered(s, ledger, id, memo, price);
      }
    } else {
      DepositRefused(s, ledger, id, memo, price);
    }
  }

  lemma FreshReceipt(s: State, id: ReceiptId)
    requires Inv(s) && id.counter == s.receiptCounter
    ensures id !in s.receipts
  {
  }

  /** A deposit succeeds exactly when nothing speaks against it, the depositor can pay, the total and the receipt
      counter have room, and the net deposits are covered; the first of these that is broken names the error. The
      receipt-collision error and the user-total overflow error are unreachable, and the closing check fails only
      for lack of cover. */
  lemma DepositSucceedsIff(s: State, env: Env, from: Address, amount: I128, reference: string,
                           expectedPrice: I128, maxSlippage: U32, memo: Option<Hash>)
    requires Inv(s)
    ensures var r := Deposit(s, env, from, amount, s.token, reference, expectedPrice, maxSlippage, memo);
      var refusal := DepositRefusal(s, env, from, amount, s.token, reference, expectedPrice, maxSlippage, memo);
      && (r.Ok? <==>
            && refusal == None
            && amount <= Balance(s.balances, s.token, from)
            && s.receiptCounter < U64_MAX
            && s.registry[s.token].totalDeposited + amount <= I128_MAX
            && Backed(s))
      && (r.Err? ==>
            r.error == if refusal.Some? then refusal.value
                       else if amount > Balance(s.balances, s.token, from) || s.receiptCounter >= U64_MAX
                       then HostAbort
                       else if s.registry[s.token].totalDeposited + amount > I128_MAX then Overflow
                       else InsufficientFunds)
      && (r.Ok? ==> Backed(r.value.0))
  {
    hide LimitsOk, BalanceOk, ReceiptsOk, QueueOk, CountersOk, ClearDeposit, DepositRefusal, SettleDeposit, Balance;
    DepositDecides(s, env, from, amount, s.token, reference, expectedPrice, maxSlippage, memo);
    var cleared := ClearDeposit(s, env, from, amount, s.token, reference, expectedPrice, maxSlippage, memo);
    if cleared.Ok? {
      ClearedAsks(s, env, from, amount, s.token, reference, expectedPrice, maxSlippage, memo);
      DepositSettlesIff(s, env.ledger, ReceiptId(from, amount, env.ledger, reference, s.receiptCounter), memo,
                        cleared.value.2);
    }
  }

  lemma ClearedAsks(s: State, env: Env, from: Address, amount: I128, token: Address, reference: string,
                    expectedPrice: I128, maxSlippage: U32, memo: Option<Hash>)
    requires ClearDeposit(s, env, from, amount, token, reference, expectedPrice, maxSlippage, memo).Ok?
    ensures amount > 0 && from != s.self
  {
    hide AdmitDeposit;
    DepositorAsks(s, env, from, amount, token, reference, memo);
  }
}
