/** For every call in every state whose accounts are in order: whether it succeeds, and with which error it is
    refused otherwise. */
module Decisions {
  import opened Prelude
  import opened Escrow
  import opened Admission
  import opened Accounting
  import opened Solvency
  import Reachable

  /** Why a call is refused: for what its callers can see first, then for lack of tokens, room or cover. */
  ghost function Refusal(s: State, env: Env, op: Op): Option<Error>
    requires s.token in s.registry
  {
    var c, uncovered := s.registry[s.token], if Backed(s) then None else Some(InsufficientFunds);
    match op
    case OpDeposit(from, amount, token, reference, expected, slippage, memo) =>
      var refusal := DepositRefusal(s, env, from, amount, token, reference, expected, slippage, memo);
      if refusal.Some? then refusal
      else if amount > Balance(s.balances, token, from) || s.receiptCounter >= U64_MAX then Some(HostAbort)
      else if c.totalDeposited + amount > I128_MAX then Some(Overflow)
      else uncovered
    case OpWithdraw(caller, to, amount, token) =>
      var refusal := WithdrawRefusal(s, env, caller, to, amount);
      if refusal.Some? then refusal
      else if amount > Balance(s.balances, token, s.self) then Some(InsufficientFunds)
      else if token !in s.registry then Some(TokenNotWhitelisted)
      else if amount > Free(s) then Some(InternalError)
      else uncovered
    case OpRequest(to, amount, token, memo, _) =>
      var refusal := RequestRefusal(s, env, to, amount, memo);
      if refusal.Some? then refusal
      else if token !in s.registry then Some(TokenNotWhitelisted)
      else if c.totalLiabilities + amount > I128_MAX then Some(Overflow)
      else if amount > Free(s) || amount > GetOr(s.userDeposited, to, 0) then Some(InsufficientFunds)
      else uncovered
    case OpExecute(id, partial, expected, slippage, nonce) =>
      var refusal := ExecuteRefusal(s, env, id, partial, expected, slippage, nonce);
      if refusal.Some? then refusal else uncovered
    case OpCancel(id) => var refusal := CancelRefusal(s, env, id); if refusal.Some? then refusal else uncovered
    case OpReclaim(id) => ReclaimRefusal(s, env, id)
    case OpWithdrawFees(_, token, amount) => FeesRefusal(s, env, token, amount)
    case OpOutside(token, source, _, quantity) => OutsideRefusal(s, token, source, quantity)
    case OpInit(admin, token, limit, minDeposit, nonce) => InitRefusal(s, env, admin, token, limit, minDeposit, nonce)
    case _ => if GovOp(op) then GovRefusal(s, env, op) else SetterRefusal(s, env, op)
  }

  lemma DepositIsDecided(s: State, env: Env, op: Op)
    requires Inv(s) && op.OpDeposit?
    ensures s.token in s.registry && Decides(Apply(s, env, op), Refusal(s, env, op))
  {
    hide CountersOk, BalanceOk, QueueOk, ReceiptsOk, LimitsOk, Balance, Deposit, ClearDeposit, DepositRefusal, Withdraw,
         RequestWithdrawal, ExecuteWithdrawal, CancelWithdrawal, ReclaimExpired, WithdrawFees, OutsideTransfer, Backed;
    if op.token == s.token {
      DepositSucceedsIff(s, env, op.from, op.amount, op.reference, op.expectedPrice, op.maxSlippage, op.memo);
    } else {
      OtherTokenIsRefused(s, env, op);
    }
  }

  lemma OtherTokenIsRefused(s: State, env: Env, op: Op)
    requires op.OpDeposit? && op.token !in s.registry
    ensures var refusal := DepositRefusal(s, env, op.from, op.amount, op.token, op.reference, op.expectedPrice,
                                          op.maxSlippage, op.memo);
      refusal.Some? && Deposit(s, env, op.from, op.amount, op.token, op.reference, op.expectedPrice, op.maxSlippage,
                               op.memo) == Err(refusal.value)
  {
    hide ClearDeposit, TooSoon, DailyRefusal, FiatRefusal, SlippageRefusal;
    DepositDecides(s, env, op.from, op.amount, op.token, op.reference, op.expectedPrice, op.maxSlippage, op.memo);
  }

  lemma WithdrawIsDecided(s: State, env: Env, op: Op)
    requires Inv(s) && op.OpWithdraw?
    ensures s.token in s.registry && Decides(Apply(s, env, op), Refusal(s, env, op))
  {
    hide CountersOk, BalanceOk, QueueOk, ReceiptsOk, LimitsOk, Balance, Deposit, Withdraw, WithdrawRefusal,
         RequestWithdrawal, ExecuteWithdrawal, CancelWithdrawal, ReclaimExpired, WithdrawFees, OutsideTransfer, Backed;
    if op.token == s.token {
      WithdrawSucceedsIff(s, env, op.caller, op.to, op.amount);
      FreeIsBounded(s);
      UncoveredIsShort(s);
    } else {
      OtherTokenIsNotPaid(s, env, op);
    }
  }

  lemma UncoveredIsShort(s: State)
    requires Inv(s)
    ensures Backed(s) <==> s.registry[s.token].Net() <= Balance(s.balances, s.token, s.self)
  {
  }

  lemma OtherTokenIsNotPaid(s: State, env: Env, op: Op)
    requires op.OpWithdraw? && op.token !in s.registry
    ensures var refusal := WithdrawRefusal(s, env, op.caller, op.to, op.amount);
      Withdraw(s, env, op.caller, op.to, op.amount, op.token) ==
        Err(if refusal.Some? then refusal.value
            else if op.amount > Balance(s.balances, op.token, s.self) then InsufficientFunds else TokenNotWhitelisted)
  {
    hide ChargeLimits, PayoutRefusal, Balance, Transfer;
    if op.amount > 0 {
      LimitsDecide(s, env, op.to, op.amount);
      TransferSucceedsIff(s.balances, op.token, s.self, op.to, op.amount);
    }
  }

  lemma RequestIsDecided(s: State, env: Env, op: Op)
    requires Inv(s) && op.OpRequest?
    ensures s.token in s.registry && Decides(Apply(s, env, op), Refusal(s, env, op))
  {
    hide CountersOk, BalanceOk, QueueOk, ReceiptsOk, LimitsOk, Balance, Deposit, Withdraw, RequestWithdrawal,
         RequestRefusal, ExecuteWithdrawal, CancelWithdrawal, ReclaimExpired, WithdrawFees, OutsideTransfer, Backed;
    if op.token == s.token {
      RequestSucceedsIff(s, env, op.to, op.amount, op.memo, op.riskTier);
      FreeFits(s);
    } else {
      OtherTokenIsNotRequested(s, env, op);
    }
  }

  lemma FreeFits(s: State)
    requires Inv(s)
    ensures s.registry[s.token].totalLiabilities + Free(s) <= I128_MAX
  {
  }

  lemma OtherTokenIsNotRequested(s: State, env: Env, op: Op)
    requires op.OpRequest? && op.token !in s.registry
    ensures var refusal := RequestRefusal(s, env, op.to, op.amount, op.memo);
      RequestWithdrawal(s, env, op.to, op.amount, op.token, op.memo, op.riskTier) ==
        Err(if refusal.Some? then refusal.value else TokenNotWhitelisted)
  {
    hide Balance, AdmitRequest, RequestRefusal;
    RequestAdmitted(s, env, op.to, op.amount, op.token, op.memo, op.riskTier);
  }

  lemma QueuedIsDecided(s: State, env: Env, op: Op)
    requires Inv(s) && (op.OpExecute? || op.OpCancel? || op.OpReclaim?)
    ensures s.token in s.registry && Decides(Apply(s, env, op), Refusal(s, env, op))
  {
    hide CountersOk, BalanceOk, QueueOk, ReceiptsOk, LimitsOk, Balance, Deposit, Withdraw, RequestWithdrawal,
         ExecuteWithdrawal, ExecuteRefusal, CancelWithdrawal, CancelRefusal, ReclaimExpired, ReclaimRefusal,
         WithdrawFees, OutsideTransfer, Backed;
    if op.OpExecute? {
      ExecuteSucceedsIff(s, env, op.id, op.partial, op.expectedPrice, op.maxSlippage, op.nonce);
    } else if op.OpCancel? {
      CancelSucceedsIff(s, env, op.id);
    } else {
      ReclaimSucceedsIff(s, env, op.id);
    }
  }

  lemma OthersAreDecided(s: State, env: Env, op: Op)
    requires s.token in s.registry
    requires !op.OpDeposit? && !op.OpWithdraw? && !op.OpExecute? && !AboutRequests(op)
    ensures Decides(Apply(s, env, op), Refusal(s, env, op))
  {
    hide Balance, Deposit, Withdraw, RequestWithdrawal, ExecuteWithdrawal, CancelWithdrawal, ReclaimExpired,
         WithdrawFees, FeesRefusal, OutsideTransfer, OutsideRefusal, Initialize, InitRefusal, GovRefusal, SetterRefusal,
         Backed;
    if op.OpWithdrawFees? {
      FeesDecide(s, env, op.to, op.token, op.amount);
    } else if op.OpOutside? {
      OutsideDecides(s, env, op.token, op.source, op.to, op.quantity);
    } else if op.OpInit? {
      InitDecides(s, env, op.admin, op.token, op.limit, op.minDeposit, op.nonce);
    } else if GovOp(op) {
      GovDecides(s, env, op);
    } else {
      SettersDecide(s, env, op);
    }
  }

  /** In every state whose accounts are in order, every call that does not go back in time succeeds exactly when
      nothing speaks against it, and is otherwise refused with the first reason that does. */
  lemma EveryCallIsDecided(s: State, call: Call)
    requires Inv(s) && call.env.ledger >= s.now
    ensures s.token in s.registry && Decides(Step(s, call), Refusal(s, call.env, call.op))
  {
    hide Inv, Apply, Refusal;
    var env, op := call.env, call.op;
    if op.OpDeposit? {
      DepositIsDecided(s, env, op);
    } else if op.OpWithdraw? {
      WithdrawIsDecided(s, env, op);
    } else if op.OpRequest? {
      RequestIsDecided(s, env, op);
    } else if op.OpExecute? || op.OpCancel? || op.OpReclaim? {
      QueuedIsDecided(s, env, op);
    } else {
      TokenIsRegistered(s);
      OthersAreDecided(s, env, op);
    }
  }

  lemma TokenIsRegistered(s: State)
    requires Inv(s)
    ensures s.token in s.registry
  {
  }

  /** The same for the next call after any run from initialization. */
  lemma EveryCallOfARunIsDecided(self: Address, env: Env, admin: Address, token: Address, limit: I128,
                                 minDeposit: I128, calls: seq<Call>, last: Call)
    requires Init(self, env, admin, token, limit, minDeposit).Ok?
    requires last.env.ledger >= Run(Init(self, env, admin, token, limit, minDeposit).value, calls).now
    ensures var s := Run(Init(self, env, admin, token, limit, minDeposit).value, calls);
      s.token in s.registry && Decides(Step(s, last), Refusal(s, last.env, last.op))
  {
    hide Inv, Step, Refusal;
    Reachable.InitEstablishes(self, env, admin, token, limit, minDeposit);
    Reachable.RunKeeps(Init(self, env, admin, token, limit, minDeposit).value, calls);
    EveryCallIsDecided(Run(Init(self, env, admin, token, limit, minDeposit).value, calls), last);
  }
}
