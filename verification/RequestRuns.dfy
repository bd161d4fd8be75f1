/** What happens to one request, one recipient, one nonce and one depositor over whole runs: requests are
    stable and their locks hold, what recipients can claim is bounded by what they deposited, execution
    nonces cannot be replayed, and the deposit cooldown spaces deposits. */
module RequestRuns {
  import opened Prelude
  import opened Sums
  import opened Escrow
  import opened LimitRuns
  import Windows
  import Slippage
  import Payable
  import CB = CircuitBreaker

  // ---- what one call does ----

  /** The request is the same, except that part of it may have been paid. */
  predicate SameButPaid(before: Request, after: Request) {
    after == before.(amount := after.amount) && after.amount <= before.amount
  }

  /** Requests change only by being paid, and none enters but by `request_withdrawal` under a new id. */
  predicate QueueStep(s: State, s': State, op: Op) {
    && s'.nextId >= s.nextId
    && forall id :: id in s'.queue && (id < s.nextId || !op.OpRequest?) ==>
          id in s.queue && SameButPaid(s.queue[id], s'.queue[id])
  }

  predicate NonceStep(s: State, s': State, env: Env, op: Op) {
    if op.OpExecute? then
      && op.id in s.queue
      && env.ledger >= s.queue[op.id].unlockLedger
      && op.nonce == GetOr(s.nonces, s.queue[op.id].to, 0)
      && s'.nonces == s.nonces[s.queue[op.id].to := op.nonce + 1]
    else s'.nonces == s.nonces
  }

  predicate DepositStep(s: State, s': State, env: Env, op: Op) {
    var n := |s'.history| - 1;
    if op.OpDeposit? then
      && !Recent(s.lastDeposit, op.from, s.cfg.cooldown, env.ledger)
      && s'.lastDeposit == s.lastDeposit[op.from := env.ledger]
      && n == |s.history| && s'.history[n].Deposited?
      && s'.history[n].user == op.from && s'.history[n].ledger == env.ledger
    else
      && s'.lastDeposit == s.lastDeposit
      && (n >= |s.history| ==> !s'.history[n].Deposited?)
  }

  predicate Shape(s: State, s': State, env: Env, op: Op) {
    QueueStep(s, s', op) && NonceStep(s, s', env, op) && DepositStep(s, s', env, op)
  }

  lemma DepositShape(s: State, env: Env, op: Op)
    requires op.OpDeposit? && Apply(s, env, op).Ok?
    ensures Shape(s, Apply(s, env, op).value, env, op)
  {
    hide Transfer, Balance, CheckInvariants, Recent, MayDeposit, Windows.ChargeDaily, ValidateFiat,
         Slippage.CheckSlippage, Withdraw, ExecuteWithdrawal, RequestWithdrawal, CancelWithdrawal, ReclaimExpired,
         WithdrawFees, OutsideTransfer;
  }

  lemma WithdrawShape(s: State, env: Env, op: Op)
    requires op.OpWithdraw? && Apply(s, env, op).Ok?
    ensures Shape(s, Apply(s, env, op).value, env, op)
  {
    hide ChargeLimits, Transfer, Balance, CheckInvariants, Deposit, ExecuteWithdrawal, RequestWithdrawal,
         CancelWithdrawal, ReclaimExpired, WithdrawFees, OutsideTransfer;
  }

  lemma ExecuteShape(s: State, env: Env, op: Op)
    requires op.OpExecute? && Apply(s, env, op).Ok?
    ensures Shape(s, Apply(s, env, op).value, env, op)
  {
    hide ChargeLimits, Transfer, Balance, CheckInvariants, CheckBenchmark, Recent, Deposit, Withdraw,
         RequestWithdrawal, CancelWithdrawal, ReclaimExpired, WithdrawFees, OutsideTransfer;
  }

  lemma RequestShape(s: State, env: Env, op: Op)
    requires AboutRequests(op) && Apply(s, env, op).Ok?
    ensures Shape(s, Apply(s, env, op).value, env, op)
  {
    hide Balance, CheckInvariants, Deposit, Withdraw, ExecuteWithdrawal, WithdrawFees, OutsideTransfer, AdmitRequest,
         Reserve, Unreserve, RequireAdmin, TransferAdmin, AcceptAdmin, QueueRenounce, CancelRenounce,
         ExecuteRenounce, SetLimits, AccrueFee;
  }

  lemma OthersShape(s: State, env: Env, op: Op)
    requires !op.OpDeposit? && !op.OpWithdraw? && !op.OpExecute? && !AboutRequests(op) && Apply(s, env, op).Ok?
    ensures Shape(s, Apply(s, env, op).value, env, op)
  {
    hide Apply;
    OthersKeep(s, env, op);
  }

  /** The other calls leave requests, nonces and stamps alone and record no deposit. */
  lemma OthersKeep(s: State, env: Env, op: Op)
    requires !op.OpDeposit? && !op.OpWithdraw? && !op.OpExecute? && !AboutRequests(op) && Apply(s, env, op).Ok?
    ensures var s' := Apply(s, env, op).value; var n := |s'.history| - 1;
      && s'.queue == s.queue && s'.nextId == s.nextId && s'.nonces == s.nonces && s'.lastDeposit == s.lastDeposit
      && (n >= |s.history| ==> !s'.history[n].Deposited?)
  {
    hide Transfer, Balance, RequireAdmin, Deposit, Withdraw, ExecuteWithdrawal, RequestWithdrawal, CancelWithdrawal,
         ReclaimExpired;
  }

  lemma StepShape(s: State, call: Call)
    requires Step(s, call).Ok?
    ensures Shape(s, Next(s, call), call.env, call.op)
  {
    hide Apply, Recent;
    var env, op := call.env, call.op;
    if op.OpDeposit? {
      DepositShape(s, env, op);
    } else if op.OpWithdraw? {
      WithdrawShape(s, env, op);
    } else if op.OpExecute? {
      ExecuteShape(s, env, op);
    } else if AboutRequests(op) {
      RequestShape(s, env, op);
    } else {
      OthersShape(s, env, op);
    }
  }

  // ---- requests ----

  /** Over any run a request keeps its recipient, token, lock and tier, and its amount only falls. */
  lemma {:induction false} RequestIsStable(s: State, calls: seq<Call>, id: nat)
    requires id in s.queue && id < s.nextId
    ensures id in Run(s, calls).queue ==> SameButPaid(s.queue[id], Run(s, calls).queue[id])
    decreases |calls|
  {
    hide Step;
    if calls != [] {
      var s' := Next(s, calls[0]);
      if Step(s, calls[0]).Ok? { StepShape(s, calls[0]); }
      if id in s'.queue {
        RequestIsStable(s', calls[1..], id);
      } else {
        GoneForGood(s', calls[1..], id);
      }
    }
  }

  /** The id of a request that was paid, cancelled or reclaimed is never live again. */
  lemma {:induction false} GoneForGood(s: State, calls: seq<Call>, id: nat)
    requires id !in s.queue && id < s.nextId
    ensures id !in Run(s, calls).queue
    decreases |calls|
  {
    hide Step;
    if calls != [] {
      if Step(s, calls[0]).Ok? { StepShape(s, calls[0]); }
      GoneForGood(Next(s, calls[0]), calls[1..], id);
    }
  }

  lemma RequestEnters(s: State, env: Env, to: Address, amount: I128, token: Address, memo: Option<Hash>, riskTier: U32)
    requires RequestWithdrawal(s, env, to, amount, token, memo, riskTier).Ok?
    ensures var (s', id) := RequestWithdrawal(s, env, to, amount, token, memo, riskTier).value;
      && id == s.nextId < s'.nextId && id in s'.queue && amount <= GetOr(s.userDeposited, to, 0)
      && s'.queue == s.queue[id := s'.queue[id]] && s'.userDeposited == s.userDeposited
      && s'.queue[id] == Request(to, token, amount, env.ledger + s.cfg.lockPeriod, memo, env.ledger, riskTier)
  {
    hide Recent, CB.Clear, CheckInvariants, Balance;
  }

  /** The lock set when a request is made holds whatever is called in between: it is not executed, in
      full or in part, before its ledger. */
  lemma LockHolds(s: State, env: Env, to: Address, amount: I128, token: Address, memo: Option<Hash>, riskTier: U32,
                  calls: seq<Call>, last: Call)
    requires RequestWithdrawal(s, env, to, amount, token, memo, riskTier).Ok?
    requires var (s', id) := RequestWithdrawal(s, env, to, amount, token, memo, riskTier).value;
      last.op.OpExecute? && last.op.id == id && Step(Run(s', calls), last).Ok?
    ensures last.env.ledger >= env.ledger + s.cfg.lockPeriod
  {
    hide Step, RequestWithdrawal, Run;
    var (s', id) := RequestWithdrawal(s, env, to, amount, token, memo, riskTier).value;
    RequestEnters(s, env, to, amount, token, memo, riskTier);
    RequestIsStable(s', calls, id);
    StepShape(Run(s', calls), last);
  }

  // ---- what recipients can claim ----

  /** No live request claims more than its recipient ever deposited. */
  predicate WithinDeposits(queue: map<nat, Request>, deposited: map<Address, int>) {
    forall id :: id in queue ==> queue[id].amount <= GetOr(deposited, queue[id].to, 0)
  }

  ghost predicate OnlyRaised(before: map<Address, int>, after: map<Address, int>) {
    forall user :: GetOr(before, user, 0) <= GetOr(after, user, 0)
  }

  lemma DepositRaises(s: State, env: Env, op: Op)
    requires op.OpDeposit? && Apply(s, env, op).Ok?
    ensures OnlyRaised(s.userDeposited, Apply(s, env, op).value.userDeposited)
  {
    hide Transfer, Balance, CheckInvariants, Recent, MayDeposit, Windows.ChargeDaily, ValidateFiat,
         Slippage.CheckSlippage, Withdraw, ExecuteWithdrawal, RequestWithdrawal, CancelWithdrawal, ReclaimExpired,
         WithdrawFees, OutsideTransfer;
  }

  lemma PayoutsRaiseNothing(s: State, env: Env, op: Op)
    requires (op.OpWithdraw? || op.OpExecute?) && Apply(s, env, op).Ok?
    ensures Apply(s, env, op).value.userDeposited == s.userDeposited
  {
    hide ChargeLimits, Transfer, Balance, CheckInvariants, AdmitExecution, CheckBenchmark, Served, Deposit,
         RequestWithdrawal, CancelWithdrawal, ReclaimExpired, WithdrawFees, OutsideTransfer;
  }

  lemma OthersRaiseNothing(s: State, env: Env, op: Op)
    requires !op.OpDeposit? && !op.OpWithdraw? && !op.OpExecute? && !AboutRequests(op) && Apply(s, env, op).Ok?
    ensures Apply(s, env, op).value.userDeposited == s.userDeposited
  {
    hide Transfer, Balance, RequireAdmin, Deposit, Withdraw, ExecuteWithdrawal, RequestWithdrawal, CancelWithdrawal,
         ReclaimExpired;
  }

  lemma RequestsRaiseNothing(s: State, env: Env, op: Op)
    requires AboutRequests(op) && Apply(s, env, op).Ok?
    ensures Apply(s, env, op).value.userDeposited == s.userDeposited
  {
    hide Balance, RequireAdmin, CheckInvariants, AdmitRequest, Reserve, Unreserve, Deposit, Withdraw,
         ExecuteWithdrawal, WithdrawFees, OutsideTransfer;
  }

  lemma StepStaysWithin(s: State, call: Call)
    requires Step(s, call).Ok? && WithinDeposits(s.queue, s.userDeposited)
    ensures WithinDeposits(Next(s, call).queue, Next(s, call).userDeposited)
  {
    hide Apply, NonceStep, DepositStep;
    var env, op, s' := call.env, call.op, Next(s, call);
    StepShape(s, call);
    if op.OpDeposit? {
      DepositRaises(s, env, op);
    } else if op.OpWithdraw? || op.OpExecute? {
      PayoutsRaiseNothing(s, env, op);
    } else if AboutRequests(op) {
      RequestsRaiseNothing(s, env, op);
    } else {
      OthersRaiseNothing(s, env, op);
    }
    if op.OpRequest? { NewClaim(s, env, op); }
  }

  lemma NewClaim(s: State, env: Env, op: Op)
    requires op.OpRequest? && Apply(s, env, op).Ok?
    ensures var queue, id := Apply(s, env, op).value.queue, s.nextId;
      && id in queue && queue == s.queue[id := queue[id]]
      && queue[id].amount <= GetOr(s.userDeposited, queue[id].to, 0)
  {
    hide RequestWithdrawal;
    RequestEnters(s, env, op.to, op.amount, op.token, op.memo, op.riskTier);
  }

  lemma {:induction false} RunStaysWithin(s: State, calls: seq<Call>)
    requires WithinDeposits(s.queue, s.userDeposited)
    ensures WithinDeposits(Run(s, calls).queue, Run(s, calls).userDeposited)
    decreases |calls|
  {
    hide Step, WithinDeposits;
    if calls != [] {
      if Step(s, calls[0]).Ok? { StepStaysWithin(s, calls[0]); }
      RunStaysWithin(Next(s, calls[0]), calls[1..]);
    }
  }

  /** In every reachable state, no live request claims more than its recipient ever deposited, so that what
      one recipient has coming is at most that much for each live request. */
  lemma ClaimsWithinDeposits(self: Address, env: Env, admin: Address, token: Address, limit: I128, minDeposit: I128,
                             calls: seq<Call>, user: Address)
    requires Init(self, env, admin, token, limit, minDeposit).Ok?
    ensures var s := Run(Init(self, env, admin, token, limit, minDeposit).value, calls);
      var claims, deposited := Payable.Claims(s.queue, user), GetOr(s.userDeposited, user, 0);
      && (forall id :: id in claims ==> claims[id] <= deposited)
      && Payable.OwedTo(s.queue, user) <= |claims| * deposited
  {
    hide Step;
    var s0 := Init(self, env, admin, token, limit, minDeposit).value;
    assert s0.queue == map[];
    RunStaysWithin(s0, calls);
    var s := Run(s0, calls);
    MapSumAtMost(Payable.Claims(s.queue, user), GetOr(s.userDeposited, user, 0));
  }

  // ---- execution nonces ----

  lemma {:induction false} NoncesGrow(s: State, calls: seq<Call>, user: Address)
    ensures GetOr(s.nonces, user, 0) <= GetOr(Run(s, calls).nonces, user, 0)
    decreases |calls|
  {
    hide Step;
    if calls != [] {
      if Step(s, calls[0]).Ok? { StepShape(s, calls[0]); }
      NoncesGrow(Next(s, calls[0]), calls[1..], user);
    }
  }

  /** The call executes a request of this recipient with this nonce. */
  predicate Executes(s: State, call: Call, user: Address, nonce: nat) {
    call.op.OpExecute? && call.op.nonce == nonce && call.op.id in s.queue && s.queue[call.op.id].to == user
  }

  /** An execution that succeeded is never repeated with the same nonce, on any request of that recipient. */
  lemma ExecutionsAreNotReplayed(s: State, first: Call, between: seq<Call>, second: Call, user: Address, nonce: nat)
    requires Step(s, first).Ok? && Executes(s, first, user, nonce)
    requires Executes(Run(Next(s, first), between), second, user, nonce)
    ensures Step(Run(Next(s, first), between), second).Err?
  {
    hide Step, Run;
    StepShape(s, first);
    NoncesGrow(Next(s, first), between, user);
    var later := Run(Next(s, first), between);
    if Step(later, second).Ok? { StepShape(later, second); }
  }

  // ---- the deposit cooldown ----

  /** No deposit before the cooldown of the recorded one is over, and no two closer than the cooldown. */
  predicate Spaced(p: seq<Priced>, last: Option<nat>, cooldown: nat) {
    && (last.Some? ==> forall j :: 0 <= j < |p| ==> p[j].ledger >= SaturateU32(last.value + cooldown))
    && (forall i, j :: 0 <= i < j < |p| ==> p[j].ledger >= SaturateU32(p[i].ledger + cooldown))
  }

  lemma SpacedMore(p: seq<Priced>, d: Priced, last: Option<nat>, cooldown: nat)
    requires last.Some? ==> d.ledger >= SaturateU32(last.value + cooldown)
    requires Spaced(p, Some(d.ledger), cooldown)
    ensures Spaced([d] + p, last, cooldown)
  {
    var q := [d] + p;
    forall i, j | 0 <= i < j < |q|
      ensures q[j].ledger >= SaturateU32(q[i].ledger + cooldown)
    {
      if i > 0 { assert q[i] == p[i - 1] && q[j] == p[j - 1]; }
    }
  }

  /** With a constant cooldown any two deposits of one depositor are at least the cooldown apart, and
      the first is that far from an earlier recorded one. */
  lemma {:induction false} CooldownSpacesDeposits(s: State, calls: seq<Call>, user: Address, cooldown: nat)
    requires cooldown > 0 && Throughout(s, calls, (t: State) => t.cfg.cooldown == cooldown)
    ensures Spaced(Deposits(s, calls, user), Find(s.lastDeposit, user), cooldown)
    decreases |calls|
  {
    hide Step, Spaced;
    if calls == [] {
      NothingIsSpaced(Find(s.lastDeposit, user), cooldown);
    } else {
      var call, s' := calls[0], Next(s, calls[0]);
      CooldownSpacesDeposits(s', calls[1..], user, cooldown);
      var rest := Deposits(s', calls[1..], user);
      if Step(s, call).Ok? {
        StepShape(s, call);
        if call.op.OpDeposit? && call.op.from == user {
          SpacedMore(rest, DepositOf(Added(s, call), user)[0], Find(s.lastDeposit, user), cooldown);
        } else {
          assert DepositOf(Added(s, call), user) + rest == rest;
        }
      } else {
        assert DepositOf(Added(s, call), user) + rest == rest;
      }
    }
  }

  lemma NothingIsSpaced(last: Option<nat>, cooldown: nat)
    ensures Spaced([], last, cooldown)
  {
  }
}
