/** Runs that show what the contract does let happen. Each is a sequence of successful calls from
    initialization, for all addresses and amounts that satisfy the stated conditions. */
module Witnesses {
  import opened Prelude
  import opened Sums
  import opened Traces
  import opened Windows
  import opened Escrow
  import opened Accounting
  import opened Solvency
  import Slippage
  import Reachable
  import SolventRuns
  import LimitRuns
  import Admission
  import Payable
  import QueueIndex

  /** Every call succeeds. */
  predicate AllAccepted(s: State, calls: seq<Call>)
    decreases |calls|
  {
    calls == [] || (Step(s, calls[0]).Ok? && AllAccepted(Next(s, calls[0]), calls[1..]))
  }

  /** Accounts in order and covered, the settings that `init` leaves, and a call by the administrator. */
  ghost predicate Quiet(s: State, env: Env) {
    && Inv(s) && Backed(s) && s.now <= env.ledger
    && s.cfg == Blank(s.self, s.token).cfg.(minDeposit := s.cfg.minDeposit)
    && !s.breaker.tripped
    && s.admin.Some? && Signed(s, env, s.admin.value)
  }

  ghost predicate Fresh(s: State, env: Env) { Quiet(s, env) && s.queue == map[] && s.nextId == 0 }

  function DepositOp(s: State, from: Address, amount: I128): Op {
    OpDeposit(from, amount, s.token, "", 0, 0, None)
  }

  function MintOp(s: State, to: Address, amount: nat): Op { OpOutside(s.token, None, to, amount) }

  // ---- what the single calls do ----

  lemma InitIsFresh(self: Address, env: Env, admin: Address, token: Address, limit: I128, minDeposit: I128)
    requires Init(self, env, admin, token, limit, minDeposit).Ok?
    ensures var s := Init(self, env, admin, token, limit, minDeposit).value;
      && Fresh(s, env) && s.self == self && s.token == token && s.cfg.minDeposit == minDeposit && s.now == env.ledger
      && s.registry[token] == TokenConfig(limit, 0, 0, 0, 0)
      && s.balances == map[] && s.userDeposited == map[] && s.feeVault == map[] && s.receiptCounter == 0
      && s.dailyDeposits == map[] && s.history == []
  {
    hide Inv;
    Reachable.InitEstablishes(self, env, admin, token, limit, minDeposit);
    Reachable.InitIsBacked(self, env, admin, token, limit, minDeposit);
  }

  /** Everything but the balances and the clock is the same. */
  predicate SameBooks(s: State, s': State) {
    s' == s.(balances := s'.balances, now := s'.now)
  }

  lemma MintEffect(s: State, env: Env, to: Address, amount: nat)
    requires Fresh(s, env) && to != s.self
    ensures var call := Call(env, MintOp(s, to, amount)); var s' := Next(s, call);
      && Step(s, call).Ok? && Fresh(s', env) && SameBooks(s, s')
      && Balance(s'.balances, s.token, to) == Balance(s.balances, s.token, to) + amount
      && Balance(s'.balances, s.token, s.self) == Balance(s.balances, s.token, s.self)
  {
    hide Inv;
    var call := Call(env, MintOp(s, to, amount));
    SolventRuns.UnfoldApply(s, env, call.op);
    SolventRuns.OutsideAndCover(s, env, s.token, None, to, amount);
    Reachable.StepKeeps(s, call);
  }

  /** Nothing stops the deposit but the tokens, the room and the daily limit. */
  predicate MayPayIn(s: State, env: Env, from: Address, amount: I128)
    requires s.token in s.registry
  {
    && from in env.signers && from != s.self
    && 0 < amount && s.cfg.minDeposit <= amount <= s.registry[s.token].limit
    && amount <= Balance(s.balances, s.token, from)
    && s.receiptCounter < U64_MAX && s.registry[s.token].totalDeposited + amount <= I128_MAX
    && ChargeDaily(Find(s.dailyDeposits, (from, s.token)), s.registry[s.token].dailyDepositLimit, env.ledger,
                   amount).Ok?
  }

  lemma DepositIsAllowed(s: State, env: Env, from: Address, amount: I128)
    requires Fresh(s, env) && MayPayIn(s, env, from, amount)
    ensures Deposit(s, env, from, amount, s.token, "", 0, 0, None).Ok?
  {
    hide CountersOk, BalanceOk, QueueOk, ReceiptsOk, LimitsOk, Balance, ChargeDaily, Admission.DailyRefusal, Deposit,
         Backed;
    Admission.DailyDecides(Find(s.dailyDeposits, (from, s.token)), s.registry[s.token].dailyDepositLimit, env.ledger,
                           amount);
    DepositSucceedsIff(s, env, from, amount, "", 0, 0, None);
  }

  lemma DepositEffect(s: State, env: Env, from: Address, amount: I128)
    requires Fresh(s, env) && MayPayIn(s, env, from, amount)
    ensures var call := Call(env, DepositOp(s, from, amount)); var s' := Next(s, call);
      && Step(s, call).Ok? && Fresh(s', env)
      && s'.self == s.self && s'.token == s.token && s'.cfg == s.cfg && s'.feeVault == s.feeVault
      && s'.admin == s.admin && s'.receiptCounter == s.receiptCounter + 1
      && s'.registry == s.registry[s.token :=
           s.registry[s.token].(totalDeposited := s.registry[s.token].totalDeposited + amount)]
      && s'.userDeposited == s.userDeposited[from := GetOr(s.userDeposited, from, 0) + amount]
      && s'.history == s.history + [Deposited(env.ledger, s.token, from, amount, 0)]
      && Balance(s'.balances, s.token, s.self) == Balance(s.balances, s.token, s.self) + amount
      && (forall u :: u != s.self && u != from ==> Balance(s'.balances, s.token, u) == Balance(s.balances, s.token, u))
      && Balance(s'.balances, s.token, from) == Balance(s.balances, s.token, from) - amount
      && s'.dailyDeposits == Store(s.dailyDeposits, (from, s.token),
                                   ChargeDaily(Find(s.dailyDeposits, (from, s.token)),
                                               s.registry[s.token].dailyDepositLimit, env.ledger, amount).value)
  {
    hide Inv, Balance, ChargeDaily, Deposit, Backed;
    var call := Call(env, DepositOp(s, from, amount));
    SolventRuns.InvBasics(s);
    DepositIsAllowed(s, env, from, amount);
    DepositSucceedsIff(s, env, from, amount, "", 0, 0, None);
    DepositShape(s, env, from, amount);
    var s' := Next(s, call);
    forall u
      ensures Balance(s'.balances, s.token, u) == Balance(s.balances, s.token, u)
              - (if u == from then amount else 0) + (if u == s.self then amount else 0)
    {
      Reachable.TransferMoves(s.balances, s.token, from, s.self, amount, s.token, u);
    }
    Reachable.StepKeeps(s, call);
    SolventRuns.LaterIsAsBacked(First(Deposit(s, env, from, amount, s.token, "", 0, 0, None)).value, env.ledger);
  }

  lemma DepositClears(s: State, env: Env, from: Address, amount: I128)
    requires s.token in s.registry
    requires s.cfg == Blank(s.self, s.token).cfg.(minDeposit := s.cfg.minDeposit)
    requires ClearDeposit(s, env, from, amount, s.token, "", 0, 0, None).Ok?
    ensures var (daily, fiat, price) := ClearDeposit(s, env, from, amount, s.token, "", 0, 0, None).value;
      && amount > 0 && price == 0
      && daily == Store(s.dailyDeposits, (from, s.token),
                        ChargeDaily(Find(s.dailyDeposits, (from, s.token)),
                                    s.registry[s.token].dailyDepositLimit, env.ledger, amount).value)
  {
    hide ChargeDaily, AdmitDeposit, Slippage.CheckSlippage;
    Admission.DepositorAsks(s, env, from, amount, s.token, "", None);
  }

  lemma PayInShape(k: Books, self: Address, ledger: nat, id: ReceiptId, token: Address)
    requires token in k.registry && id.amount >= 0 && PayIn(k, self, ledger, id, token, None).Ok?
    ensures var k', c := PayIn(k, self, ledger, id, token, None).value, k.registry[token];
      && k'.receiptCounter == k.receiptCounter + 1
      && k'.registry == k.registry[token := c.(totalDeposited := c.totalDeposited + id.amount)]
      && k'.userDeposited == k.userDeposited[id.depositor := GetOr(k.userDeposited, id.depositor, 0) + id.amount]
      && Transfer(k.balances, token, id.depositor, self, id.amount) == Ok(k'.balances)
  {
    hide Balance, CheckInvariants, Transfer;
  }

  lemma DepositShape(s: State, env: Env, from: Address, amount: I128)
    requires s.token in s.registry && from != s.self
    requires s.cfg == Blank(s.self, s.token).cfg.(minDeposit := s.cfg.minDeposit)
    requires Deposit(s, env, from, amount, s.token, "", 0, 0, None).Ok?
    ensures var s' := Deposit(s, env, from, amount, s.token, "", 0, 0, None).value.0;
      var c := s.registry[s.token];
      && amount > 0
      && s'.self == s.self && s'.token == s.token && s'.cfg == s.cfg && s'.feeVault == s.feeVault && s'.now == s.now
      && s'.admin == s.admin && s'.breaker == s.breaker && s'.queue == s.queue && s'.nextId == s.nextId
      && s'.receiptCounter == s.receiptCounter + 1
      && s'.registry == s.registry[s.token := c.(totalDeposited := c.totalDeposited + amount)]
      && s'.userDeposited == s.userDeposited[from := GetOr(s.userDeposited, from, 0) + amount]
      && s'.history == s.history + [Deposited(env.ledger, s.token, from, amount, 0)]
      && Transfer(s.balances, s.token, from, s.self, amount) == Ok(s'.balances)
      && s'.dailyDeposits == Store(s.dailyDeposits, (from, s.token),
           ChargeDaily(Find(s.dailyDeposits, (from, s.token)), c.dailyDepositLimit, env.ledger, amount).value)
  {
    hide ClearDeposit, PayIn, Transfer, ChargeDaily;
    DepositClears(s, env, from, amount);
    var id := ReceiptId(from, amount, env.ledger, "", s.receiptCounter);
    PayInShape(BooksOf(s), s.self, env.ledger, id, s.token);
  }

  lemma Unroll(s: State, call: Call, rest: seq<Call>)
    ensures Run(s, [call] + rest) == Run(Next(s, call), rest)
    ensures AllAccepted(s, [call] + rest) <==> Step(s, call).Ok? && AllAccepted(Next(s, call), rest)
    ensures Run(s, [call]) == Next(s, call) && (AllAccepted(s, [call]) <==> Step(s, call).Ok?)
  {
    hide Step;
    assert ([call] + rest)[1..] == rest;
  }

  // ---- cover is lost ----

  function FeeCalls(s: State, env: Env, payee: Address, fee: I128): seq<Call> {
    [Call(env, OpAccrueFee(s.token, fee)), Call(env, OpWithdrawFees(payee, s.token, fee))]
  }

  /** Without a surplus, accruing a fee and paying it out succeeds and takes the cover away. */
  lemma FeesUncover(s: State, env: Env, payee: Address, fee: I128)
    requires Fresh(s, env) && payee != s.self && SolventRuns.Surplus(s) == 0 && s.feeVault == map[]
    requires 0 < fee <= Balance(s.balances, s.token, s.self)
    ensures AllAccepted(s, FeeCalls(s, env, payee, fee)) && !Backed(Run(s, FeeCalls(s, env, payee, fee)))
  {
    hide Inv, Balance, Apply;
    var accrue, pay := Call(env, OpAccrueFee(s.token, fee)), Call(env, OpWithdrawFees(payee, s.token, fee));
    AccrueEffect(s, env, fee);
    var s' := Next(s, accrue);
    SolventRuns.UnfoldApply(s', env, pay.op);
    SolventRuns.FeesCanUncoverDeposits(s', env, payee, fee);
    SolventRuns.LaterIsAsBacked(WithdrawFees(s', env, payee, s.token, fee).value, env.ledger);
    Unroll(s, accrue, [pay]);
    Unroll(s', pay, []);
    assert FeeCalls(s, env, payee, fee) == [accrue] + [pay];
  }

  lemma AccrueEffect(s: State, env: Env, fee: I128)
    requires Fresh(s, env) && s.feeVault == map[] && fee > 0
    ensures var call := Call(env, OpAccrueFee(s.token, fee)); var s' := Next(s, call);
      && Step(s, call).Ok? && Inv(s')
      && s' == s.(feeVault := s.feeVault[s.token := fee], now := env.ledger)
  {
    hide Inv, Deposit, Withdraw, RequestWithdrawal, ExecuteWithdrawal, CancelWithdrawal, ReclaimExpired,
         WithdrawFees, OutsideTransfer, Balance, Backed;
    Reachable.StepKeeps(s, Call(env, OpAccrueFee(s.token, fee)));
  }

  // ---- funding ----

  function FundingCalls(s: State, env: Env, user: Address, amount: nat): seq<Call>
    requires amount <= I128_MAX
  {
    [Call(env, MintOp(s, user, amount)), Call(env, DepositOp(s, user, amount))]
  }

  predicate Fundable(s: State, env: Env, user: Address, amount: nat) {
    && s.token in s.registry
    && user != s.self && user in env.signers
    && 0 < amount <= I128_MAX && s.cfg.minDeposit <= amount <= s.registry[s.token].limit
    && s.registry[s.token].dailyDepositLimit == 0 && s.receiptCounter < U64_MAX
    && s.registry[s.token].totalDeposited + amount <= I128_MAX
  }

  /** The state after a user was given tokens and deposited them. */
  ghost predicate Funded(s: State, s': State, env: Env, user: Address, amount: nat)
    requires s.token in s.registry
  {
    var c := s.registry[s.token];
    && Fresh(s', env)
    && s'.self == s.self && s'.token == s.token && s'.feeVault == s.feeVault && s'.admin == s.admin && s'.cfg == s.cfg
    && s'.receiptCounter == s.receiptCounter + 1
    && s'.registry == s.registry[s.token := c.(totalDeposited := c.totalDeposited + amount)]
    && s'.userDeposited == s.userDeposited[user := GetOr(s.userDeposited, user, 0) + amount]
    && Balance(s'.balances, s.token, s.self) == Balance(s.balances, s.token, s.self) + amount
  }

  lemma FundingSteps(s: State, env: Env, user: Address, amount: nat)
    requires Fresh(s, env) && Fundable(s, env, user, amount)
    ensures var (mint, deposit) := (Call(env, MintOp(s, user, amount)), Call(env, DepositOp(s, user, amount)));
      && Step(s, mint).Ok? && Step(Next(s, mint), deposit).Ok?
      && Funded(s, Next(Next(s, mint), deposit), env, user, amount)
  {
    hide Fresh, Step, Balance;
    MintEffect(s, env, user, amount);
    var s1 := Next(s, Call(env, MintOp(s, user, amount)));
    BalanceIsNat(s, user);
    DepositEffect(s1, env, user, amount);
  }

  lemma BalanceIsNat(s: State, user: Address)
    ensures Balance(s.balances, s.token, user) >= 0
  {
  }

  lemma Funding(s: State, env: Env, user: Address, amount: nat)
    requires Fresh(s, env) && Fundable(s, env, user, amount)
    ensures AllAccepted(s, FundingCalls(s, env, user, amount))
    ensures Funded(s, Run(s, FundingCalls(s, env, user, amount)), env, user, amount)
  {
    hide Fresh, Step, Funded, Run;
    var mint, deposit := Call(env, MintOp(s, user, amount)), Call(env, DepositOp(s, user, amount));
    FundingSteps(s, env, user, amount);
    Unroll(s, mint, [deposit]);
    Unroll(Next(s, mint), deposit, []);
    assert FundingCalls(s, env, user, amount) == [mint] + [deposit];
  }

  lemma {:induction false} RunAppend(s: State, a: seq<Call>, b: seq<Call>)
    ensures Run(s, a + b) == Run(Run(s, a), b)
    ensures AllAccepted(s, a + b) <==> AllAccepted(s, a) && AllAccepted(Run(s, a), b)
    decreases |a|
  {
    hide Step;
    if a == [] {
      assert a + b == b;
    } else {
      RunAppend(Next(s, a[0]), a[1..], b);
      assert (a + b)[1..] == a[1..] + b;
    }
  }

  // ---- the runs ----

  lemma InitIsFundable(self: Address, env: Env, admin: Address, token: Address, limit: I128, minDeposit: I128,
                       user: Address, amount: nat)
    requires Init(self, env, admin, token, limit, minDeposit).Ok?
    requires user in env.signers && user != self && minDeposit <= amount <= limit
    ensures var s := Init(self, env, admin, token, limit, minDeposit).value;
      && Fresh(s, env) && Fundable(s, env, user, amount)
      && Balance(s.balances, s.token, s.self) == 0 && s.registry[s.token].totalDeposited == 0
      && s.self == self && s.token == token && s.feeVault == map[] && s.userDeposited == map[]
  {
    hide Fresh, Blank;
    InitIsFresh(self, env, admin, token, limit, minDeposit);
  }

  /** A run of ordinary calls ends uncovered: one deposit, one accrued fee, one fee payout. */
  lemma UncoveredRun(self: Address, env: Env, admin: Address, token: Address, limit: I128, minDeposit: I128,
                     user: Address, payee: Address, amount: nat, fee: I128)
    requires Init(self, env, admin, token, limit, minDeposit).Ok?
    requires user in env.signers && user != self && payee != self && minDeposit <= amount <= limit && 0 < fee <= amount
    ensures var s := Init(self, env, admin, token, limit, minDeposit).value;
      var calls := FundingCalls(s, env, user, amount) + FeeCalls(s, env, payee, fee);
      AllAccepted(s, calls) && !Backed(Run(s, calls))
  {
    hide Fresh, Inv, Backed, Step, Run, Balance;
    var s := Init(self, env, admin, token, limit, minDeposit).value;
    InitIsFundable(self, env, admin, token, limit, minDeposit, user, amount);
    Funding(s, env, user, amount);
    var s' := Run(s, FundingCalls(s, env, user, amount));
    FeesUncover(s', env, payee, fee);
    RunAppend(s, FundingCalls(s, env, user, amount), FeeCalls(s, env, payee, fee));
  }

  function RequestOp(s: State, to: Address, amount: I128, tier: U32): Op { OpRequest(to, amount, s.token, None, tier) }

  lemma RequestEffect(s: State, env: Env, to: Address, amount: I128, tier: U32)
    requires Quiet(s, env) && s.nextId < U64_MAX
    requires 0 < amount <= Free(s) && amount <= GetOr(s.userDeposited, to, 0)
    ensures var call := Call(env, RequestOp(s, to, amount, tier)); var s' := Next(s, call);
      var c := s.registry[s.token];
      && Step(s, call).Ok? && Quiet(s', env)
      && s'.queue == s.queue[s.nextId := Request(to, s.token, amount, env.ledger, None, env.ledger, tier)]
      && s'.nextId == s.nextId + 1 && s'.token == s.token && s'.userDeposited == s.userDeposited
      && s'.registry == s.registry[s.token := c.(totalLiabilities := c.totalLiabilities + amount)]
  {
    hide Inv, Backed, Balance, RequestWithdrawal;
    var call := Call(env, RequestOp(s, to, amount, tier));
    SolventRuns.InvBasics(s);
    RequestSucceedsIff(s, env, to, amount, None, tier);
    RequestShape(s, env, to, amount, tier);
    Reachable.StepKeeps(s, call);
    SolventRuns.LaterIsAsBacked(RequestWithdrawal(s, env, to, amount, s.token, None, tier).value.0, env.ledger);
  }

  lemma RequestShape(s: State, env: Env, to: Address, amount: I128, tier: U32)
    requires RequestWithdrawal(s, env, to, amount, s.token, None, tier).Ok? && s.cfg.lockPeriod == 0
    ensures s.token in s.registry
    ensures var c := s.registry[s.token];
      RequestWithdrawal(s, env, to, amount, s.token, None, tier).value.0 ==
        s.(queue := s.queue[s.nextId := Request(to, s.token, amount, env.ledger, None, env.ledger, tier)],
           nextId := s.nextId + 1,
           registry := s.registry[s.token := c.(totalLiabilities := c.totalLiabilities + amount)])
  {
    hide AdmitRequest, Balance, CheckInvariants;
  }

  /** `get_next_priority_withdrawal` answers none although a request is live: it is the only one so far
      and its tier is above the number of ids given out. */
  lemma NoneDespiteLiveRequest(self: Address, env: Env, admin: Address, token: Address, limit: I128, minDeposit: I128,
                               user: Address, amount: nat, tier: U32)
    requires Init(self, env, admin, token, limit, minDeposit).Ok?
    requires user in env.signers && user != self && minDeposit <= amount <= limit && tier >= 2
    ensures var s := Init(self, env, admin, token, limit, minDeposit).value;
      var calls := FundingCalls(s, env, user, amount) + [Call(env, RequestOp(s, user, amount, tier))];
      var s' := Run(s, calls);
      AllAccepted(s, calls) && s'.queue != map[] && QueueIndex.IsNextPriority(s'.queue, Min(s'.nextId, 256), None)
  {
    hide Fresh, Step, Run, Balance;
    var s := Init(self, env, admin, token, limit, minDeposit).value;
    InitIsFundable(self, env, admin, token, limit, minDeposit, user, amount);
    Funding(s, env, user, amount);
    var s1, call := Run(s, FundingCalls(s, env, user, amount)), Call(env, RequestOp(s, user, amount, tier));
    FirstRequest(s1, env, user, amount, tier);
    Unroll(s1, call, []);
    RunAppend(s, FundingCalls(s, env, user, amount), [call]);
  }

  lemma FirstRequest(s: State, env: Env, user: Address, amount: nat, tier: U32)
    requires Fresh(s, env) && s.token in s.registry && 0 < amount <= s.registry[s.token].Net() && amount <= I128_MAX
    requires amount <= GetOr(s.userDeposited, user, 0) && tier >= 2
    ensures var call := Call(env, RequestOp(s, user, amount, tier)); var s' := Next(s, call);
      Step(s, call).Ok? && s'.queue != map[] && QueueIndex.IsNextPriority(s'.queue, Min(s'.nextId, 256), None)
  {
    hide Inv, Backed, Step, Balance;
    NothingOwedYet(s);
    RequestEffect(s, env, user, amount, tier);
    assert 0 in Next(s, Call(env, RequestOp(s, user, amount, tier))).queue;
  }

  lemma NothingOwedYet(s: State)
    requires Inv(s) && s.queue == map[]
    ensures s.token in s.registry && s.registry[s.token].totalLiabilities == 0
    ensures Free(s) == s.registry[s.token].Net()
  {
    Payable.NothingOwed(s);
  }

  // ---- one recipient, two requests ----

  /** What one recipient has coming is part of what is reserved, and so of the net deposits. */
  lemma ClaimsAreReserved(s: State, user: Address)
    requires Inv(s)
    ensures 0 <= Payable.OwedTo(s.queue, user) <= s.registry[s.token].totalLiabilities <= s.registry[s.token].Net()
  {
    MapSumSubset(Payable.Claims(s.queue, user), Remaining(s.queue, s.token));
  }

  /** But each request alone is compared with what its recipient ever deposited: two of them together
      can claim more than that, out of the deposits of others. */
  lemma ClaimsBeyondDeposits(self: Address, env: Env, admin: Address, token: Address, limit: I128, minDeposit: I128,
                             user: Address, other: Address, amount: nat)
    requires Init(self, env, admin, token, limit, minDeposit).Ok?
    requires user in env.signers && user != self && other in env.signers && other != self && other != user
    requires minDeposit <= amount <= limit && 2 * amount <= I128_MAX
    ensures var s := Init(self, env, admin, token, limit, minDeposit).value;
      var request := Call(env, RequestOp(s, user, amount, 0));
      var calls := (FundingCalls(s, env, user, amount) + FundingCalls(s, env, other, amount)) + [request, request];
      var s' := Run(s, calls);
      AllAccepted(s, calls) && Payable.OwedTo(s'.queue, user) == 2 * amount
          && GetOr(s'.userDeposited, user, 0) == amount
  {
    hide Inv, Backed, Step, Run, Balance, Quiet;
    var s := Init(self, env, admin, token, limit, minDeposit).value;
    var fundUser, fundOther := FundingCalls(s, env, user, amount), FundingCalls(s, env, other, amount);
    TwoFunded(self, env, admin, token, limit, minDeposit, user, other, amount);
    var s2, request := Run(s, fundUser + fundOther), Call(env, RequestOp(s, user, amount, 0));
    TwoRequests(s2, env, user, amount);
    RunAppend(s, fundUser + fundOther, [request, request]);
  }

  lemma TwoFunded(self: Address, env: Env, admin: Address, token: Address, limit: I128, minDeposit: I128,
                  user: Address, other: Address, amount: nat)
    requires Init(self, env, admin, token, limit, minDeposit).Ok?
    requires user in env.signers && user != self && other in env.signers && other != self && other != user
    requires minDeposit <= amount <= limit && 2 * amount <= I128_MAX
    ensures var s := Init(self, env, admin, token, limit, minDeposit).value;
      var calls := FundingCalls(s, env, user, amount) + FundingCalls(s, env, other, amount);
      var s2 := Run(s, calls);
      && AllAccepted(s, calls) && Fresh(s2, env) && s2.token in s2.registry && s2.registry[s2.token].Net() == 2 * amount
      && s2.token == s.token && GetOr(s2.userDeposited, user, 0) == amount && amount > 0
  {
    hide Quiet, Step, Run, Balance;
    var s := Init(self, env, admin, token, limit, minDeposit).value;
    InitIsFundable(self, env, admin, token, limit, minDeposit, user, amount);
    Funding(s, env, user, amount);
    var s1 := Run(s, FundingCalls(s, env, user, amount));
    Funding(s1, env, other, amount);
    RunAppend(s, FundingCalls(s, env, user, amount), FundingCalls(s, env, other, amount));
    assert FundingCalls(s1, env, other, amount) == FundingCalls(s, env, other, amount);
  }

  lemma TwoRequestSteps(s: State, env: Env, user: Address, amount: nat)
    requires Fresh(s, env) && s.token in s.registry && s.registry[s.token].Net() == 2 * amount
    requires GetOr(s.userDeposited, user, 0) == amount && 0 < amount <= I128_MAX
    ensures var request := Call(env, RequestOp(s, user, amount, 0)); var s1 := Next(s, request);
      var s2 := Next(s1, request);
      && Step(s, request).Ok? && Step(s1, request).Ok?
      && s2.queue.Keys == {0, 1} && (forall id :: id in s2.queue ==>
            s2.queue[id].to == user && s2.queue[id].amount == amount)
      && s2.userDeposited == s.userDeposited
  {
    hide Inv, Backed, Step, Balance;
    NothingOwedYet(s);
    RequestEffect(s, env, user, amount, 0);
    RequestEffect(Next(s, Call(env, RequestOp(s, user, amount, 0))), env, user, amount, 0);
  }

  lemma TwoRequests(s: State, env: Env, user: Address, amount: nat)
    requires Fresh(s, env) && s.token in s.registry && s.registry[s.token].Net() == 2 * amount
    requires GetOr(s.userDeposited, user, 0) == amount && 0 < amount <= I128_MAX
    ensures var request := Call(env, RequestOp(s, user, amount, 0)); var s' := Run(s, [request, request]);
      && AllAccepted(s, [request, request])
      && Payable.OwedTo(s'.queue, user) == 2 * amount && s'.userDeposited == s.userDeposited
  {
    hide Fresh, Step, Run, AllAccepted;
    var request := Call(env, RequestOp(s, user, amount, 0));
    TwoRequestSteps(s, env, user, amount);
    var s1 := Next(s, request);
    Unroll(s, request, [request]);
    Unroll(s1, request, []);
    assert [request] + [request] == [request, request];
    TwoClaims(Next(s1, request).queue, user, amount);
  }

  lemma TwoClaims(queue: map<nat, Request>, user: Address, amount: nat)
    requires queue.Keys == {0, 1} && forall id :: id in queue ==> queue[id].to == user && queue[id].amount == amount
    ensures Payable.OwedTo(queue, user) == 2 * amount
  {
    var claims := Payable.Claims(queue, user);
    MapSumRemove(claims, 0);
    MapSumRemove(claims - {0}, 1);
    assert claims - {0} - {1} == map[];
  }

  // ---- a renunciation that is inherited ----

  function LeavingCalls(env: Env, heir: Address): seq<Call> {
    [Call(env, OpQueueRenounce), Call(env, OpTransferAdmin(heir))]
  }

  function HeirCalls(ledger: nat, heir: Address): seq<Call>
    requires ledger < U32_MAX
  {
    [Call(Env(ledger, {heir}, None), OpAcceptAdmin), Call(Env(ledger + 1, {heir}, None), OpExecuteRenounce)]
  }

  lemma UnrollTwo(s: State, first: Call, second: Call)
    ensures Run(s, [first, second]) == Next(Next(s, first), second)
    ensures AllAccepted(s, [first, second]) <==> Step(s, first).Ok? && Step(Next(s, first), second).Ok?
  {
    hide Step, Next;
    Unroll(s, first, [second]);
    Unroll(Next(s, first), second, []);
    assert [first] + [second] == [first, second];
  }

  lemma LeavingEffect(s: State, env: Env, heir: Address)
    requires s.now <= env.ledger && !s.cfg.paused && s.admin.Some? && Signed(s, env, s.admin.value)
    requires s.admin != Some(heir) && env.ledger + MIN_TIMELOCK_DELAY <= U32_MAX
    ensures var s' := Run(s, LeavingCalls(env, heir));
      && AllAccepted(s, LeavingCalls(env, heir)) && s'.now == env.ledger && s'.self == s.self && s'.admin == s.admin
      && s'.renounceAt == Some(env.ledger + MIN_TIMELOCK_DELAY) && s'.pendingAdmin == Some((heir, env.ledger))
      && s'.history == s.history + [RenounceQueued(env.ledger, s.admin.value),
                                    AdminProposed(env.ledger, s.admin.value, heir)]
  {
    hide Run, AllAccepted, Next, Step;
    var queue, propose := Call(env, OpQueueRenounce), Call(env, OpTransferAdmin(heir));
    QueueRenounceEffect(s, env);
    ProposeEffect(Next(s, queue), env, heir);
    UnrollTwo(s, queue, propose);
  }

  lemma QueueRenounceEffect(s: State, env: Env)
    requires s.now <= env.ledger && !s.cfg.paused && s.admin.Some? && Signed(s, env, s.admin.value)
    requires env.ledger + MIN_TIMELOCK_DELAY <= U32_MAX
    ensures var call := Call(env, OpQueueRenounce); var s' := Next(s, call);
      && Step(s, call).Ok? && s'.now == env.ledger && s'.self == s.self && s'.admin == s.admin
      && s'.renounceAt == Some(env.ledger + MIN_TIMELOCK_DELAY)
      && s'.history == s.history + [RenounceQueued(env.ledger, s.admin.value)]
  {
    hide Deposit, Withdraw, RequestWithdrawal, ExecuteWithdrawal, CancelWithdrawal, ReclaimExpired, WithdrawFees,
         OutsideTransfer;
  }

  lemma ProposeEffect(s: State, env: Env, heir: Address)
    requires s.now <= env.ledger && s.admin.Some? && Signed(s, env, s.admin.value) && s.admin != Some(heir)
    ensures var call := Call(env, OpTransferAdmin(heir)); var s' := Next(s, call);
      && Step(s, call).Ok? && s'.now == env.ledger && s'.self == s.self && s'.admin == s.admin
      && s'.renounceAt == s.renounceAt && s'.pendingAdmin == Some((heir, env.ledger))
      && s'.history == s.history + [AdminProposed(env.ledger, s.admin.value, heir)]
  {
    hide Deposit, Withdraw, RequestWithdrawal, ExecuteWithdrawal, CancelWithdrawal, ReclaimExpired, WithdrawFees,
         OutsideTransfer;
  }

  lemma HeirEffect(s: State, heir: Address, at: nat)
    requires s.pendingAdmin == Some((heir, at)) && s.renounceAt == Some(at + MIN_TIMELOCK_DELAY) && s.now == at
    requires at + MIN_TIMELOCK_DELAY < U32_MAX && heir != s.self
    ensures var later := at + MIN_TIMELOCK_DELAY; var s' := Run(s, HeirCalls(later, heir));
      && AllAccepted(s, HeirCalls(later, heir)) && s'.admin == None
      && s'.history == s.history + [AdminAccepted(later, s.admin, heir), Renounced(later + 1, heir)]
  {
    hide Run, AllAccepted, Deposit, Withdraw, RequestWithdrawal, ExecuteWithdrawal, CancelWithdrawal,
         ReclaimExpired, WithdrawFees, OutsideTransfer;
    var calls := HeirCalls(at + MIN_TIMELOCK_DELAY, heir);
    UnrollTwo(s, calls[0], calls[1]);
  }

  /** The administrator queues a renunciation and hands over; the new administrator, who queued nothing,
      may execute it one ledger after having accepted. */
  lemma InheritedRenunciation(self: Address, env: Env, admin: Address, token: Address, limit: I128, minDeposit: I128,
                              heir: Address)
    requires Init(self, env, admin, token, limit, minDeposit).Ok?
    requires env.ledger + MIN_TIMELOCK_DELAY < U32_MAX && heir != admin && heir != self
    ensures var s := Init(self, env, admin, token, limit, minDeposit).value;
      var later := env.ledger + MIN_TIMELOCK_DELAY;
      var calls := LeavingCalls(env, heir) + HeirCalls(later, heir);
      && AllAccepted(s, calls) && Run(s, calls).admin == None
      && Run(s, calls).history == [RenounceQueued(env.ledger, admin), AdminProposed(env.ledger, admin, heir),
                                   AdminAccepted(later, Some(admin), heir), Renounced(later + 1, heir)]
  {
    hide Run, AllAccepted, Step, Inv, Backed;
    var s := Init(self, env, admin, token, limit, minDeposit).value;
    InitIsFresh(self, env, admin, token, limit, minDeposit);
    LeavingEffect(s, env, heir);
    HeirEffect(Run(s, LeavingCalls(env, heir)), heir, env.ledger);
    RunAppend(s, LeavingCalls(env, heir), HeirCalls(env.ledger + MIN_TIMELOCK_DELAY, heir));
  }

  // ---- the last ledger ----

  function Repeat(call: Call, n: nat): seq<Call> { if n == 0 then [] else [call] + Repeat(call, n - 1) }

  /** At the last ledger number, with room for `n` deposits of a full daily limit each. */
  ghost predicate AtLastLedger(s: State, env: Env, user: Address, daily: nat, n: nat) {
    && Fresh(s, env) && env.ledger == U32_MAX && s.token in s.registry
    && user in env.signers && user != s.self
    && 0 < daily <= I128_MAX && s.cfg.minDeposit <= daily <= s.registry[s.token].limit
    && s.registry[s.token].dailyDepositLimit == daily
    && (Find(s.dailyDeposits, (user, s.token)).Some? ==> s.dailyDeposits[(user, s.token)].start == U32_MAX)
    && n * daily <= Balance(s.balances, s.token, user)
    && s.receiptCounter + n <= U64_MAX && s.registry[s.token].totalDeposited + n * daily <= I128_MAX
  }

  lemma OneMoreLimit(s: State, env: Env, user: Address, daily: nat, n: nat)
    requires n > 0 && AtLastLedger(s, env, user, daily, n)
    ensures var call := Call(env, DepositOp(s, user, daily)); var s' := Next(s, call);
      && Step(s, call).Ok? && AtLastLedger(s', env, user, daily, n - 1) && s'.token == s.token
      && LimitRuns.DepositOf(LimitRuns.Added(s, call), user) == [LimitRuns.Priced(U32_MAX, daily, 0)]
  {
    hide Fresh, Step, Balance, ChargeDaily;
    var w := Find(s.dailyDeposits, (user, s.token));
    assert n * daily == daily + (n - 1) * daily;
    DailyLimitForgetsAtLastLedger(w, daily, daily);
    assert (n - 1) * daily >= 0;
    DepositEffect(s, env, user, daily);
  }

  lemma {:induction false} LimitsAtLastLedger(s: State, env: Env, user: Address, daily: nat, n: nat)
    requires daily <= I128_MAX && AtLastLedger(s, env, user, daily, n)
    ensures var calls := Repeat(Call(env, DepositOp(s, user, daily)), n);
      var p := LimitRuns.Deposits(s, calls, user);
      && AllAccepted(s, calls)
      && |p| == n && forall i :: 0 <= i < n ==> p[i] == LimitRuns.Priced(U32_MAX, daily, 0)
    decreases n
  {
    hide AtLastLedger, Step, LimitRuns.Added;
    if n > 0 {
      var call := Call(env, DepositOp(s, user, daily));
      OneMoreLimit(s, env, user, daily, n);
      LimitsAtLastLedger(Next(s, call), env, user, daily, n - 1);
      Unroll(s, call, Repeat(call, n - 1));
      assert Repeat(call, n)[1..] == Repeat(call, n - 1);
    }
  }

  lemma {:induction false} SumOfSame(p: seq<Charge>, ledger: nat, amount: nat)
    requires forall i :: 0 <= i < |p| ==> p[i] == Charge(ledger, amount)
    ensures Sum(p, ledger, ledger + 1) == |p| * amount
  {
    if p != [] {
      SumOfSame(p[..|p| - 1], ledger, amount);
    }
  }

  function SettingCalls(s: State, env: Env, limit: I128, daily: I128, user: Address, amount: nat): seq<Call> {
    [Call(env, OpSetLimits(s.token, limit, daily)), Call(env, MintOp(s, user, amount))]
  }

  lemma SetLimitsEffect(s: State, env: Env, limit: I128, daily: I128)
    requires Fresh(s, env)
    ensures var call := Call(env, OpSetLimits(s.token, limit, daily)); var s' := Next(s, call);
      && s.token in s.registry && Step(s, call).Ok? && Fresh(s', env)
      && s' == s.(registry := s.registry[s.token := s.registry[s.token].(limit := limit, dailyDepositLimit := daily)],
                  now := env.ledger)
  {
    hide Inv, Backed, Balance, Deposit, Withdraw, RequestWithdrawal, ExecuteWithdrawal, CancelWithdrawal,
         ReclaimExpired, WithdrawFees, OutsideTransfer;
    var call := Call(env, OpSetLimits(s.token, limit, daily));
    SolventRuns.InvBasics(s);
    SolventRuns.StepAndCover(s, call);
    Reachable.StepKeeps(s, call);
  }

  /** At the last ledger number one depositor brings in the full daily limit any number of times. */
  lemma DailyLimitFailsAtLastLedger(self: Address, env: Env, admin: Address, token: Address, limit: I128,
                                    minDeposit: I128,
                                    user: Address, daily: nat, n: nat)
    requires Init(self, env, admin, token, limit, minDeposit).Ok? && env.ledger == U32_MAX
    requires user in env.signers && user != self && minDeposit <= daily <= limit
    requires n * daily <= I128_MAX && n <= U64_MAX
    ensures var s := Init(self, env, admin, token, limit, minDeposit).value;
      var s1 := Run(s, SettingCalls(s, env, limit, daily, user, n * daily));
      var calls := Repeat(Call(env, DepositOp(s, user, daily)), n);
      && AllAccepted(s, SettingCalls(s, env, limit, daily, user, n * daily)) && AllAccepted(s1, calls)
      && LimitRuns.LimitIs(s1, daily)
      && Sum(LimitRuns.Tokens(LimitRuns.Deposits(s1, calls, user)), U32_MAX, U32_MAX + 1) == n * daily
  {
    hide Quiet, Step, Run, Balance, Repeat, LimitRuns.Deposits, Sum;
    var s := Init(self, env, admin, token, limit, minDeposit).value;
    LastLedgerIsReached(self, env, admin, token, limit, minDeposit, user, daily, n);
    var s1 := Run(s, SettingCalls(s, env, limit, daily, user, n * daily));
    LimitsAtLastLedger(s1, env, user, daily, n);
    SumOfSame(LimitRuns.Tokens(LimitRuns.Deposits(s1, Repeat(Call(env, DepositOp(s, user, daily)), n), user)),
              U32_MAX, daily);
  }

  lemma LastLedgerIsReached(self: Address, env: Env, admin: Address, token: Address, limit: I128, minDeposit: I128,
                            user: Address, daily: nat, n: nat)
    requires Init(self, env, admin, token, limit, minDeposit).Ok? && env.ledger == U32_MAX
    requires user in env.signers && user != self && minDeposit <= daily <= limit
    requires n * daily <= I128_MAX && n <= U64_MAX
    ensures var s := Init(self, env, admin, token, limit, minDeposit).value;
      var s1 := Run(s, SettingCalls(s, env, limit, daily, user, n * daily));
      && AllAccepted(s, SettingCalls(s, env, limit, daily, user, n * daily))
      && AtLastLedger(s1, env, user, daily, n) && s1.token == s.token
  {
    hide Quiet, Step, Run, Blank;
    var s := Init(self, env, admin, token, limit, minDeposit).value;
    InitIsFresh(self, env, admin, token, limit, minDeposit);
    assert n * daily >= 0;
    var setting, mint := Call(env, OpSetLimits(s.token, limit, daily)), Call(env, MintOp(s, user, n * daily));
    SetLimitsEffect(s, env, limit, daily);
    MintEffect(Next(s, setting), env, user, n * daily);
    Unroll(s, setting, [mint]);
    Unroll(Next(s, setting), mint, []);
    assert SettingCalls(s, env, limit, daily, user, n * daily) == [setting] + [mint];
  }
}
