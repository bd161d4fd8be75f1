/** Solvency, liability conservation and receipt conservation over every run from initialization; when
    cover is lost, and what its loss stops. */
module SolventRuns {
  import opened Prelude
  import opened Sums
  import opened Escrow
  import opened Accounting
  import opened Solvency
  import Reachable

  /** The call pays accrued fees of the escrowed token to somebody other than the contract. */
  predicate PaysFees(s: State, call: Call) {
    && call.op.OpWithdrawFees? && call.op.token == s.token
    && FeeRecipient(s, call.op.to) != s.self
    && Step(s, call).Ok?
  }

  /** What the contract holds beyond its net deposits. */
  function Surplus(s: State): int
    requires s.token in s.registry
  {
    Balance(s.balances, s.token, s.self) - s.registry[s.token].Net()
  }

  /** A fee payout takes no more than the surplus. */
  predicate FeeCovered(s: State, call: Call) {
    PaysFees(s, call) && s.token in s.registry ==> call.op.amount <= Surplus(s)
  }

  /** Every fee payout of the run is covered when it happens. */
  predicate FeesCovered(s: State, calls: seq<Call>)
    decreases |calls|
  {
    calls == [] || (FeeCovered(s, calls[0]) && FeesCovered(Next(s, calls[0]), calls[1..]))
  }

  /** The net deposits are covered in every state the run visits. */
  predicate CoveredThroughout(s: State, calls: seq<Call>)
    decreases |calls|
  {
    Backed(s) && (calls != [] ==> CoveredThroughout(Next(s, calls[0]), calls[1..]))
  }

  /** The entry points that check the balance against the books. */
  predicate NeedsCover(op: Op) {
    op.OpDeposit? || op.OpWithdraw? || op.OpRequest? || op.OpExecute? || op.OpCancel?
  }

  // ---- one call ----

  /** These calls succeed only with cover, and keep it. */
  lemma CoverIsNeeded(s: State, env: Env, op: Op)
    requires Inv(s) && NeedsCover(op) && Apply(s, env, op).Ok?
    ensures Backed(s) && Backed(Apply(s, env, op).value)
  {
    hide Inv, Backed, Deposit, Withdraw, RequestWithdrawal, ExecuteWithdrawal, CancelWithdrawal, ReclaimExpired;
    RegisteredOnly(s, env, op);
    match op
    case OpDeposit(from, amount, token, reference, expected, slippage, memo) =>
      DepositSucceedsIff(s, env, from, amount, reference, expected, slippage, memo);
    case OpWithdraw(caller, to, amount, token) => WithdrawSucceedsIff(s, env, caller, to, amount);
    case OpRequest(to, amount, token, memo, tier) => RequestSucceedsIff(s, env, to, amount, memo, tier);
    case OpExecute(id, partial, expected, slippage, nonce) =>
      ExecuteSucceedsIff(s, env, id, partial, expected, slippage, nonce);
    case OpCancel(id) => CancelSucceedsIff(s, env, id);
  }

  /** Only the registered token is ever deposited, paid or requested, and only live requests are executed. */
  lemma RegisteredOnly(s: State, env: Env, op: Op)
    requires Inv(s) && Apply(s, env, op).Ok?
    ensures op.OpDeposit? || op.OpWithdraw? || op.OpRequest? ==> op.token == s.token
    ensures op.OpExecute? ==> op.id in s.queue
  {
    hide CountersOk, BalanceOk, QueueOk, ReceiptsOk, LimitsOk, ChargeLimits, Transfer, CheckInvariants, Recent,
         PayIn, Balance, AdmitExecution, CheckBenchmark, CancelWithdrawal, ReclaimExpired, WithdrawFees,
         OutsideTransfer;
  }

  /** Exactly when an accrued fee of the escrowed token can be paid out, and exactly when that leaves
      the net deposits covered: the accrued fee was never collected from anyone. */
  lemma FeesCanUncoverDeposits(s: State, env: Env, to: Address, amount: I128)
    requires Inv(s)
    ensures var r := WithdrawFees(s, env, to, s.token, amount);
      && (r.Ok? <==> AdminCall(s, env) && 0 < amount <= GetOr(s.feeVault, s.token, 0)
                     && amount <= Balance(s.balances, s.token, s.self))
      && (r.Ok? && FeeRecipient(s, to) != s.self ==> (Backed(r.value) <==> amount <= Surplus(s)))
      && (r.Ok? && FeeRecipient(s, to) == s.self ==> (Backed(r.value) <==> Backed(s)))
  {
    hide CountersOk, BalanceOk, QueueOk, ReceiptsOk, LimitsOk, Transfer, Balance;
    if amount > 0 {
      TransferSucceedsIff(s.balances, s.token, s.self, FeeRecipient(s, to), amount);
      if amount <= Balance(s.balances, s.token, s.self) {
        Reachable.TransferMoves(s.balances, s.token, s.self, FeeRecipient(s, to), amount, s.token, s.self);
      }
    }
  }

  lemma FeesAndCover(s: State, env: Env, to: Address, token: Address, amount: I128)
    requires Inv(s) && WithdrawFees(s, env, to, token, amount).Ok?
    ensures var s' := WithdrawFees(s, env, to, token, amount).value;
      && s'.self == s.self && s'.token == s.token
      && (Backed(s') <==> if token == s.token && FeeRecipient(s, to) != s.self then amount <= Surplus(s) else Backed(s))
      && (Backed(s') ==> Backed(s))
  {
    hide CountersOk, BalanceOk, QueueOk, ReceiptsOk, LimitsOk, Transfer, Balance;
    Reachable.TransferMoves(s.balances, token, s.self, FeeRecipient(s, to), amount, s.token, s.self);
  }

  lemma OutsideAndCover(s: State, env: Env, token: Address, from: Option<Address>, to: Address, amount: nat)
    requires OutsideTransfer(s, env, token, from, to, amount).Ok?
    ensures var s' := OutsideTransfer(s, env, token, from, to, amount).value;
      && s'.self == s.self && s'.token == s.token
      && (Backed(s) ==> Backed(s'))
      && (token != s.token || to != s.self ==> (Backed(s') <==> Backed(s)))
      && (token == s.token && to == s.self && s.token in s.registry ==> (Backed(s') <==> Surplus(s) + amount >= 0))
  {
    if from.Some? {
      Reachable.TransferMoves(s.balances, token, from.value, to, amount, s.token, s.self);
    }
  }

  lemma SettingsAndCover(s: State, env: Env, op: Op)
    requires s.schemaVersion.Some? && !Reachable.MovesMoney(op) && Apply(s, env, op).Ok?
    ensures var s' := Apply(s, env, op).value;
      s'.self == s.self && s'.token == s.token && (Backed(s') <==> Backed(s))
  {
    hide Balance, RequireAdmin, Deposit, Withdraw, RequestWithdrawal, ExecuteWithdrawal, CancelWithdrawal,
         ReclaimExpired, WithdrawFees, OutsideTransfer;
  }

  lemma ReclaimAndCover(s: State, env: Env, id: nat)
    requires Inv(s) && ReclaimExpired(s, env, id).Ok?
    ensures var s' := ReclaimExpired(s, env, id).value;
      s'.self == s.self && s'.token == s.token && (Backed(s') <==> Backed(s))
  {
    hide Inv, Backed, Unreserve;
    ReclaimSucceedsIff(s, env, id);
  }

  /** A call that succeeds in a covered state leaves it covered unless it pays an uncovered fee. */
  lemma StepAndCover(s: State, call: Call)
    requires Inv(s) && Backed(s) && Step(s, call).Ok?
    ensures Backed(Step(s, call).value) <==> FeeCovered(s, call)
  {
    hide Inv, Backed, Apply, Surplus;
    var env, op := call.env, call.op;
    InvBasics(s);
    if NeedsCover(op) {
      CoverIsNeeded(s, env, op);
    } else if op.OpReclaim? {
      UnfoldApply(s, env, op);
      ReclaimAndCover(s, env, op.id);
    } else if op.OpWithdrawFees? {
      UnfoldApply(s, env, op);
      FeesAndCover(s, env, op.to, op.token, op.amount);
    } else if op.OpOutside? {
      UnfoldApply(s, env, op);
      OutsideAndCover(s, env, op.token, op.source, op.to, op.quantity);
    } else {
      SettingsAndCover(s, env, op);
    }
    LaterIsAsBacked(Apply(s, env, op).value, env.ledger);
  }

  lemma InvBasics(s: State)
    requires Inv(s)
    ensures s.token in s.registry && s.schemaVersion.Some?
  {
  }

  lemma LaterIsAsBacked(s: State, ledger: nat)
    ensures Backed(s.(now := ledger)) <==> Backed(s)
  {
  }

  lemma UnfoldApply(s: State, env: Env, op: Op)
    ensures op.OpReclaim? ==> Apply(s, env, op) == ReclaimExpired(s, env, op.id)
    ensures op.OpWithdrawFees? ==> Apply(s, env, op) == WithdrawFees(s, env, op.to, op.token, op.amount)
    ensures op.OpOutside? ==> Apply(s, env, op) == OutsideTransfer(s, env, op.token, op.source, op.to, op.quantity)
  {
    hide ReclaimExpired, WithdrawFees, OutsideTransfer;
  }

  // ---- whole runs ----

  lemma {:induction false} RunAndCover(s: State, calls: seq<Call>)
    requires Inv(s) && Backed(s)
    ensures FeesCovered(s, calls) <==> CoveredThroughout(s, calls)
    ensures FeesCovered(s, calls) ==> Inv(Run(s, calls)) && Backed(Run(s, calls))
    decreases |calls|
  {
    hide Inv, Backed, Step, FeeCovered;
    if calls != [] {
      var s' := Next(s, calls[0]);
      if Step(s, calls[0]).Ok? {
        Reachable.StepKeeps(s, calls[0]);
        StepAndCover(s, calls[0]);
      } else {
        RefusedIsCovered(s, calls[0]);
      }
      if Backed(s') { RunAndCover(s', calls[1..]); }
    }
  }

  lemma RefusedIsCovered(s: State, call: Call)
    requires Step(s, call).Err?
    ensures FeeCovered(s, call)
  {
    hide Step;
  }

  /** After any calls whatever: the counters are what the history says, withdrawals never exceed
      deposits, liabilities are exactly what live requests still have coming and never exceed the net
      deposits, and the balance is the net deposits plus outside arrivals less fees paid out. */
  lemma SolventOverRuns(self: Address, env: Env, admin: Address, token: Address, limit: I128, minDeposit: I128,
                        calls: seq<Call>)
    requires Init(self, env, admin, token, limit, minDeposit).Ok?
    ensures var s := Run(Init(self, env, admin, token, limit, minDeposit).value, calls);
      && s.token in s.registry
      && var c := s.registry[s.token];
      && c.totalDeposited == Total(s.history, DepositsOf(s.token))
      && c.totalWithdrawn == Total(s.history, PaymentsOf(s.token))
      && c.totalLiabilities == Owed(s.queue, s.token)
      && 0 <= c.totalWithdrawn <= c.totalDeposited
      && 0 <= c.totalLiabilities <= c.Net()
      && Balance(s.balances, s.token, s.self)
           == c.Net() + Total(s.history, ArrivalsOf(s.token)) - Total(s.history, FeesOf(s.token))
  {
    hide QueueOk, ReceiptsOk, LimitsOk, Total, Owed, Step;
    Reachable.InitEstablishes(self, env, admin, token, limit, minDeposit);
    Reachable.RunKeeps(Init(self, env, admin, token, limit, minDeposit).value, calls);
  }

  /** From initialization on, the tokens held cover the net deposits at every moment of a run if and only
      if every fee payout of the run was covered when it happened. Calls that are refused do not matter. */
  lemma CoveredOverRuns(self: Address, env: Env, admin: Address, token: Address, limit: I128, minDeposit: I128,
                        calls: seq<Call>)
    requires Init(self, env, admin, token, limit, minDeposit).Ok?
    ensures var s0 := Init(self, env, admin, token, limit, minDeposit).value;
      && (CoveredThroughout(s0, calls) <==> FeesCovered(s0, calls))
      && (FeesCovered(s0, calls) ==> Backed(Run(s0, calls)))
  {
    hide Inv, Step, FeeCovered;
    Reachable.InitEstablishes(self, env, admin, token, limit, minDeposit);
    RunAndCover(Init(self, env, admin, token, limit, minDeposit).value, calls);
  }

  /** Whether a state has cover can be read from the history: it has unless more fees were paid out than
      tokens came in from outside. */
  lemma CoveredIffFeesArrived(self: Address, env: Env, admin: Address, token: Address, limit: I128,
                              minDeposit: I128, calls: seq<Call>)
    requires Init(self, env, admin, token, limit, minDeposit).Ok?
    ensures var s := Run(Init(self, env, admin, token, limit, minDeposit).value, calls);
      Backed(s) <==> Total(s.history, FeesOf(s.token)) <= Total(s.history, ArrivalsOf(s.token))
  {
    hide Total, Balance, Owed, Step;
    SolventOverRuns(self, env, admin, token, limit, minDeposit, calls);
  }

  /** The call brings the contract from outside as many tokens of the escrow as the net deposits lack. */
  predicate Restores(s: State, call: Call) {
    && call.op.OpOutside? && call.op.token == s.token && call.op.to == s.self
    && s.token in s.registry && call.op.quantity >= -Surplus(s)
    && Step(s, call).Ok?
  }

  predicate NeverRestored(s: State, calls: seq<Call>)
    decreases |calls|
  {
    calls == [] || (!Restores(s, calls[0]) && NeverRestored(Next(s, calls[0]), calls[1..]))
  }

  /** The net deposits are covered in no state the run visits. */
  predicate UncoveredThroughout(s: State, calls: seq<Call>)
    decreases |calls|
  {
    !Backed(s) && (calls != [] ==> UncoveredThroughout(Next(s, calls[0]), calls[1..]))
  }

  /** None of the calls that need cover succeeds. */
  predicate AllRefused(s: State, calls: seq<Call>)
    decreases |calls|
  {
    calls == [] || ((NeedsCover(calls[0].op) ==> Step(s, calls[0]).Err?) && AllRefused(Next(s, calls[0]), calls[1..]))
  }

  /** One call: cover comes back exactly when the missing tokens arrive. */
  lemma StepFromUncovered(s: State, call: Call)
    requires Inv(s) && !Backed(s)
    ensures Backed(Next(s, call)) <==> Restores(s, call)
    ensures NeedsCover(call.op) ==> Step(s, call).Err?
  {
    hide Inv, Backed, Apply, Surplus;
    var env, op := call.env, call.op;
    InvBasics(s);
    if Step(s, call).Ok? {
      if NeedsCover(op) {
        CoverIsNeeded(s, env, op);
      } else if op.OpReclaim? {
        UnfoldApply(s, env, op);
        ReclaimAndCover(s, env, op.id);
      } else if op.OpWithdrawFees? {
        UnfoldApply(s, env, op);
        FeesAndCover(s, env, op.to, op.token, op.amount);
      } else if op.OpOutside? {
        UnfoldApply(s, env, op);
        OutsideAndCover(s, env, op.token, op.source, op.to, op.quantity);
      } else {
        SettingsAndCover(s, env, op);
      }
      LaterIsAsBacked(Apply(s, env, op).value, env.ledger);
    }
  }

  /** Once cover is lost it stays lost exactly as long as no transfer from outside brings what is missing;
      until then every deposit, withdrawal, request, execution and cancellation is refused. */
  lemma {:induction false} FrozenUntilTokensArrive(s: State, calls: seq<Call>)
    requires Inv(s) && !Backed(s)
    ensures UncoveredThroughout(s, calls) <==> NeverRestored(s, calls)
    ensures NeverRestored(s, calls) ==> AllRefused(s, calls) && !Backed(Run(s, calls))
    decreases |calls|
  {
    hide Inv, Backed, Step, Restores;
    if calls != [] {
      var s' := Next(s, calls[0]);
      StepFromUncovered(s, calls[0]);
      if Step(s, calls[0]).Ok? { Reachable.StepKeeps(s, calls[0]); }
      if !Backed(s') { FrozenUntilTokensArrive(s', calls[1..]); }
    }
  }

  /** The receipts add up: all of them to the total deposited, each depositor's to that depositor's
      running total. */
  lemma ReceiptsOverRuns(self: Address, env: Env, admin: Address, token: Address, limit: I128, minDeposit: I128,
                         calls: seq<Call>, user: Address)
    requires Init(self, env, admin, token, limit, minDeposit).Ok?
    ensures var s := Run(Init(self, env, admin, token, limit, minDeposit).value, calls);
      && s.token in s.registry
      && MapSum(Amounts(s.receipts)) == s.registry[s.token].totalDeposited
      && MapSum(AmountsOf(s.receipts, user)) == GetOr(s.userDeposited, user, 0)
  {
    hide CountersOk, BalanceOk, QueueOk, LimitsOk, MapSum, Step;
    Reachable.InitEstablishes(self, env, admin, token, limit, minDeposit);
    Reachable.RunKeeps(Init(self, env, admin, token, limit, minDeposit).value, calls);
  }
}
