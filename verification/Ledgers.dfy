/** What whole runs come to, told from the calls alone: who holds how much, what became of each request, what is
    left of the fees, which settings are in force, what was recorded. And which calls are refused, and why. */
module Ledgers {
  import opened Prelude
  import opened Escrow
  import opened Admission
  import opened Accounting
  import opened Solvency
  import opened Effects
  import RequestRuns

  // ---- what one call says ----

  /** By how much a successful call changes what `holder` has of `t`. */
  function FlowOf(s: State, op: Op, t: Address, holder: Address): int {
    match op
    case OpDeposit(from, amount, token, _, _, _, _) => Moved(token, Some(from), s.self, amount, t, holder)
    case OpWithdraw(_, to, amount, token) => Moved(token, Some(s.self), to, amount, t, holder)
    case OpExecute(id, partial, _, _, _) =>
      if id !in s.queue then 0
      else
        var r := s.queue[id];
        Moved(r.token, Some(s.self), r.to, if partial.Some? then partial.value else r.amount, t, holder)
    case OpWithdrawFees(to, token, amount) =>
      Moved(token, Some(s.self), if s.cfg.feeRecipient.Some? then s.cfg.feeRecipient.value else to, amount, t, holder)
    case OpOutside(token, source, to, quantity) => Moved(token, source, to, quantity, t, holder)
    case _ => 0
  }

  /** What a successful call makes of the request `id`, if there is one. */
  function FateOf(s: State, env: Env, op: Op, id: nat): Option<Request> {
    var r := Find(s.queue, id);
    match op
    case OpRequest(to, amount, token, memo, tier) =>
      if id == s.nextId
      then Some(Request(to, token, amount, env.ledger + s.cfg.lockPeriod, memo, env.ledger, tier)) else r
    case OpExecute(executed, partial, _, _, _) =>
      if executed != id || r == None then r
      else if partial.Some? && partial.value != r.value.amount
      then Some(r.value.(amount := r.value.amount - partial.value))
      else None
    case OpCancel(released) => if released == id then None else r
    case OpReclaim(released) => if released == id then None else r
    case _ => r
  }

  /** By how much a successful call changes the fees accrued in `t`. */
  function AccruedBy(op: Op, t: Address): int {
    match op
    case OpAccrueFee(token, amount) => if token == t then amount else 0
    case OpWithdrawFees(_, token, amount) => if token == t then 0 - amount as int else 0
    case _ => 0
  }

  /** What a successful call records. */
  function EventsOf(s: State, env: Env, op: Op): seq<Event> {
    var ledger, admin := env.ledger, if s.admin.Some? then s.admin.value else s.self;
    match op
    case OpDeposit(from, amount, token, _, _, _, _) =>
      if amount < 0 then [] else [Deposited(ledger, token, from, amount, PriceSeen(s, env))]
    case OpWithdraw(_, to, amount, token) => if amount < 0 then [] else [Paid(ledger, token, to, amount)]
    case OpExecute(id, partial, _, _, _) =>
      if id !in s.queue || Portion(s.queue[id], partial) < 0 then []
      else [Paid(ledger, s.queue[id].token, s.queue[id].to, Portion(s.queue[id], partial))]
    case OpWithdrawFees(to, token, amount) =>
      var payee := if s.cfg.feeRecipient.Some? then s.cfg.feeRecipient.value else to;
      if amount < 0 || payee == s.self then [] else [FeePaid(ledger, token, payee, amount)]
    case OpOutside(token, _, to, quantity) => if to == s.self then [Arrived(ledger, token, quantity)] else []
    case OpTransferAdmin(candidate) => [AdminProposed(ledger, admin, candidate)]
    case OpAcceptAdmin =>
      if s.pendingAdmin == None then [] else [AdminAccepted(ledger, s.admin, s.pendingAdmin.value.0)]
    case OpQueueRenounce => [RenounceQueued(ledger, admin)]
    case OpCancelRenounce => [RenounceCancelled(ledger, admin)]
    case OpExecuteRenounce => [Renounced(ledger, admin)]
    case _ => []
  }

  /** The new state is what the call says, in all these respects. */
  ghost predicate AsCalled(s: State, s': State, env: Env, op: Op) {
    && (forall t: Address, h: Address :: Balance(s'.balances, t, h) == Balance(s.balances, t, h) + FlowOf(s, op, t, h))
    && (forall id: nat :: Find(s'.queue, id) == FateOf(s, env, op, id))
    && s'.nextId == s.nextId + (if op.OpRequest? then 1 else 0)
    && (forall t: Address :: GetOr(s'.feeVault, t, 0) == GetOr(s.feeVault, t, 0) + AccruedBy(op, t))
    && s'.cfg == CfgAfter(s.cfg, op)
    && s'.history == s.history + EventsOf(s, env, op)
    && s'.lastDeposit == (if op.OpDeposit? then s.lastDeposit[op.from := env.ledger] else s.lastDeposit)
    && s'.lastLarge == if op.OpDeposit? && 0 < s.cfg.withdrawThreshold <= op.amount
                       then s.lastLarge[op.from := env.ledger] else s.lastLarge
  }

  lemma PayoutsAsCalled(s: State, env: Env, op: Op)
    requires (op.OpWithdraw? || op.OpExecute?) && Apply(s, env, op).Ok?
    ensures AsCalled(s, Apply(s, env, op).value, env, op)
  {
    hide Balance, Withdraw, ExecuteWithdrawal, Deposit, RequestWithdrawal, CancelWithdrawal, ReclaimExpired,
         WithdrawFees, OutsideTransfer;
    if op.OpWithdraw? {
      WithdrawPays(s, env, op.caller, op.to, op.amount, op.token);
    } else {
      ExecutePays(s, env, op.id, op.partial, op.expectedPrice, op.maxSlippage, op.nonce);
    }
  }

  lemma DepositsAsCalled(s: State, env: Env, op: Op)
    requires op.OpDeposit? && Apply(s, env, op).Ok?
    ensures AsCalled(s, Apply(s, env, op).value, env, op)
  {
    hide Balance, Withdraw, ExecuteWithdrawal, Deposit, RequestWithdrawal, CancelWithdrawal, ReclaimExpired,
         WithdrawFees, OutsideTransfer, PriceSeen;
    DepositBooks(s, env, op.from, op.amount, op.token, op.reference, op.expectedPrice, op.maxSlippage, op.memo);
  }

  lemma RequestsAsCalled(s: State, env: Env, op: Op)
    requires AboutRequests(op) && Apply(s, env, op).Ok?
    ensures AsCalled(s, Apply(s, env, op).value, env, op)
  {
    hide Balance, Withdraw, ExecuteWithdrawal, Deposit, RequestWithdrawal, CancelWithdrawal, ReclaimExpired,
         WithdrawFees, OutsideTransfer;
    if op.OpRequest? {
      RequestReserves(s, env, op.to, op.amount, op.token, op.memo, op.riskTier);
    } else {
      ReleaseFrees(s, env, op, op.id);
    }
  }

  lemma FeesAndArrivalsAsCalled(s: State, env: Env, op: Op)
    requires (op.OpWithdrawFees? || op.OpOutside?) && Apply(s, env, op).Ok?
    ensures AsCalled(s, Apply(s, env, op).value, env, op)
  {
    hide Balance, Withdraw, ExecuteWithdrawal, Deposit, RequestWithdrawal, CancelWithdrawal, ReclaimExpired,
         WithdrawFees, OutsideTransfer;
    if op.OpWithdrawFees? {
      FeesPay(s, env, op.to, op.token, op.amount);
    } else {
      OutsidePays(s, env, op.token, op.source, op.to, op.quantity);
    }
  }

  lemma SettingsAsCalled(s: State, env: Env, op: Op)
    requires (Sets(op) || op.OpInit?) && Apply(s, env, op).Ok?
    ensures AsCalled(s, Apply(s, env, op).value, env, op)
  {
    hide Balance, Apply;
    if op.OpInit? {
      InitAsCalled(s, env, op);
    } else {
      SettersSet(s, env, op);
    }
  }

  lemma InitAsCalled(s: State, env: Env, op: Op)
    requires op.OpInit? && Apply(s, env, op).Ok?
    ensures var s' := Apply(s, env, op).value;
      s' == s.(schemaVersion := s'.schemaVersion, initNonces := s'.initNonces, admin := s'.admin, token := s'.token,
               cfg := CfgAfter(s.cfg, op), registry := s'.registry)
  {
    hide Deposit, Withdraw, ExecuteWithdrawal, RequestWithdrawal, CancelWithdrawal, ReclaimExpired, WithdrawFees,
         OutsideTransfer, Initialize;
    InitSets(s, env, op.admin, op.token, op.limit, op.minDeposit, op.nonce);
  }

  lemma RolesAsCalled(s: State, env: Env, op: Op)
    requires GovOp(op) && Apply(s, env, op).Ok?
    ensures AsCalled(s, Apply(s, env, op).value, env, op)
  {
    hide Balance, Apply;
    RolesSet(s, env, op);
  }

  /** Every successful call does to holdings, requests, fees, settings and history what it says. */
  lemma StepAsCalled(s: State, call: Call)
    requires Step(s, call).Ok?
    ensures AsCalled(s, Next(s, call), call.env, call.op)
  {
    hide AsCalled, Apply;
    var env, op := call.env, call.op;
    if op.OpWithdraw? || op.OpExecute? {
      PayoutsAsCalled(s, env, op);
    } else if op.OpDeposit? {
      DepositsAsCalled(s, env, op);
    } else if AboutRequests(op) {
      RequestsAsCalled(s, env, op);
    } else if op.OpWithdrawFees? || op.OpOutside? {
      FeesAndArrivalsAsCalled(s, env, op);
    } else if GovOp(op) {
      RolesAsCalled(s, env, op);
    } else {
      SettingsAsCalled(s, env, op);
    }
    ClockIsApart(s, Apply(s, env, op).value, env, op);
  }

  lemma ClockIsApart(s: State, s': State, env: Env, op: Op)
    requires AsCalled(s, s', env, op)
    ensures AsCalled(s, s'.(now := env.ledger), env, op)
  {
  }

  // ---- whole runs ----

  /** The net flow of `t` to `holder` over the successful calls of a run. */
  function Flow(s: State, calls: seq<Call>, t: Address, holder: Address): int
    decreases |calls|
  {
    if calls == [] then 0
    else (if Step(s, calls[0]).Ok? then FlowOf(s, calls[0].op, t, holder) else 0)
         + Flow(Next(s, calls[0]), calls[1..], t, holder)
  }

  /** Over every run and for every token, whoever holds it: the balance changes by exactly what the successful
      deposits, withdrawals, executions, fee payouts and outside transfers name this holder for. */
  lemma {:induction false} HoldingsOverRuns(s: State, calls: seq<Call>, t: Address, holder: Address)
    ensures Balance(Run(s, calls).balances, t, holder) == Balance(s.balances, t, holder) + Flow(s, calls, t, holder)
    decreases |calls|
  {
    hide Step, Balance, FlowOf;
    if calls != [] {
      if Step(s, calls[0]).Ok? { FlowsAsCalled(s, calls[0], t, holder); }
      HoldingsOverRuns(Next(s, calls[0]), calls[1..], t, holder);
    }
  }

  lemma FlowsAsCalled(s: State, call: Call, t: Address, holder: Address)
    requires Step(s, call).Ok?
    ensures Balance(Next(s, call).balances, t, holder) == Balance(s.balances, t, holder) + FlowOf(s, call.op, t, holder)
    ensures GetOr(Next(s, call).feeVault, t, 0) == GetOr(s.feeVault, t, 0) + AccruedBy(call.op, t)
  {
    hide Step, Balance, FlowOf, AccruedBy, FateOf, EventsOf;
    StepAsCalled(s, call);
  }

  /** What is accrued in `t` less what is paid out over a run. */
  function Accrued(s: State, calls: seq<Call>, t: Address): int
    decreases |calls|
  {
    if calls == [] then 0
    else (if Step(s, calls[0]).Ok? then AccruedBy(calls[0].op, t) else 0) + Accrued(Next(s, calls[0]), calls[1..], t)
  }

  /** Over every run the vault holds exactly what was accrued and not yet paid out, and it never goes below zero. */
  lemma {:induction false} VaultOverRuns(s: State, calls: seq<Call>, t: Address)
    requires GetOr(s.feeVault, t, 0) >= 0
    ensures GetOr(Run(s, calls).feeVault, t, 0) == GetOr(s.feeVault, t, 0) + Accrued(s, calls, t) >= 0
    decreases |calls|
  {
    hide Step, Balance, FlowOf;
    if calls != [] {
      if Step(s, calls[0]).Ok? {
        FlowsAsCalled(s, calls[0], t, s.self);
        FeesAreAccrued(s, calls[0], t);
      }
      VaultOverRuns(Next(s, calls[0]), calls[1..], t);
    }
  }

  lemma FeesAreAccrued(s: State, call: Call, t: Address)
    requires Step(s, call).Ok? && GetOr(s.feeVault, t, 0) >= 0
    ensures GetOr(s.feeVault, t, 0) + AccruedBy(call.op, t) >= 0
  {
    hide Deposit, Withdraw, ExecuteWithdrawal, RequestWithdrawal, CancelWithdrawal, ReclaimExpired, OutsideTransfer,
         WithdrawFees, RequireAdmin;
    if call.op.OpWithdrawFees? { FeesPay(s, call.env, call.op.to, call.op.token, call.op.amount); }
  }

  /** The settings after a run, which the successful calls set one after the other. */
  function SettingsAfter(s: State, calls: seq<Call>, cfg: Config): Config
    decreases |calls|
  {
    if calls == [] then cfg
    else
      var accepted := Step(s, calls[0]).Ok?;
      SettingsAfter(Next(s, calls[0]), calls[1..], if accepted then CfgAfter(cfg, calls[0].op) else cfg)
  }

  /** Nothing else changes a setting. */
  lemma {:induction false} SettingsOverRuns(s: State, calls: seq<Call>)
    ensures Run(s, calls).cfg == SettingsAfter(s, calls, s.cfg)
    decreases |calls|
  {
    hide Step, AsCalled, CfgAfter;
    if calls != [] {
      if Step(s, calls[0]).Ok? { SettingsAsCalledBy(s, calls[0]); }
      SettingsOverRuns(Next(s, calls[0]), calls[1..]);
    }
  }

  lemma SettingsAsCalledBy(s: State, call: Call)
    requires Step(s, call).Ok?
    ensures Next(s, call).cfg == CfgAfter(s.cfg, call.op)
  {
    hide Step, Balance, FlowOf, AccruedBy, FateOf, EventsOf, CfgAfter;
    StepAsCalled(s, call);
  }

  /** What a run records, call by call. */
  function Recorded(s: State, calls: seq<Call>): seq<Event>
    decreases |calls|
  {
    if calls == [] then []
    else (if Step(s, calls[0]).Ok? then EventsOf(s, calls[0].env, calls[0].op) else [])
         + Recorded(Next(s, calls[0]), calls[1..])
  }

  /** The history that the other claims are about is the record of the successful calls: who deposited, was paid,
      proposed, accepted or renounced, how much and when, and nothing else. */
  lemma {:induction false} HistoryOverRuns(s: State, calls: seq<Call>)
    ensures Run(s, calls).history == s.history + Recorded(s, calls)
    decreases |calls|
  {
    hide Step, EventsOf, AsCalled;
    if calls != [] {
      if Step(s, calls[0]).Ok? { RecordedAsCalled(s, calls[0]); }
      HistoryOverRuns(Next(s, calls[0]), calls[1..]);
    }
  }

  lemma RecordedAsCalled(s: State, call: Call)
    requires Step(s, call).Ok?
    ensures Next(s, call).history == s.history + EventsOf(s, call.env, call.op)
  {
    hide Step, Balance, FlowOf, AccruedBy, FateOf, EventsOf;
    StepAsCalled(s, call);
  }

  // ---- one request ----

  /** How much the successful executions of a run pay of request `id`. */
  function PaidOf(s: State, calls: seq<Call>, id: nat): int
    decreases |calls|
  {
    if calls == [] then 0
    else
      var op := calls[0].op;
      (if op.OpExecute? && op.id == id && id in s.queue && Step(s, calls[0]).Ok? then Portion(s.queue[id], op.partial)
       else 0)
      + PaidOf(Next(s, calls[0]), calls[1..], id)
  }

  /** Some call of the run cancels or reclaims request `id`. */
  predicate Released(s: State, calls: seq<Call>, id: nat)
    decreases |calls|
  {
    calls != [] && ((Releases(calls[0].op, id) && Step(s, calls[0]).Ok?) || Released(Next(s, calls[0]), calls[1..], id))
  }

  lemma FateAsCalled(s: State, call: Call, id: nat)
    requires Step(s, call).Ok? && id in s.queue && id < s.nextId && s.queue[id].amount > 0
    ensures var r, r' := s.queue[id], Find(Next(s, call).queue, id);
      && id < Next(s, call).nextId
      && if Releases(call.op, id) then r' == None
         else if call.op.OpExecute? && call.op.id == id
         then
           var amount := Portion(r, call.op.partial);
           0 < amount <= r.amount
           && r' == if amount == r.amount then None else Some(r.(amount := r.amount - amount))
         else r' == Some(r)
  {
    hide Step, Balance, FlowOf, AccruedBy, EventsOf;
    StepAsCalled(s, call);
    if call.op.OpExecute? && call.op.id == id { PortionIsPart(s, call); }
  }

  lemma PortionIsPart(s: State, call: Call)
    requires Step(s, call).Ok? && call.op.OpExecute? && call.op.id in s.queue && s.queue[call.op.id].amount > 0
    ensures 0 < Portion(s.queue[call.op.id], call.op.partial) <= s.queue[call.op.id].amount
  {
    hide CheckBenchmark, ChargeLimits, SettlePayment, Balance, Recent, Deposit, Withdraw, RequestWithdrawal,
         CancelWithdrawal, ReclaimExpired, WithdrawFees, OutsideTransfer;
  }

  lemma {:induction false} NothingPaidWhenGone(s: State, calls: seq<Call>, id: nat)
    requires id !in s.queue && id < s.nextId
    ensures PaidOf(s, calls, id) == 0 && id !in Run(s, calls).queue
    decreases |calls|
  {
    hide Step;
    if calls != [] {
      RequestRuns.GoneForGood(s, calls, id);
      if Step(s, calls[0]).Ok? { RequestRuns.StepShape(s, calls[0]); }
      NothingPaidWhenGone(Next(s, calls[0]), calls[1..], id);
    }
  }

  /** Over every run, what is left of a live request is exactly what was not yet paid of it. It stays live, and
      otherwise unchanged, until all of it was paid or it was cancelled or reclaimed; in all it is never paid more
      than was requested, and nothing after its release. */
  lemma {:induction false} RequestOverRuns(s: State, calls: seq<Call>, id: nat)
    requires id in s.queue && id < s.nextId && s.queue[id].amount > 0
    ensures var r, paid, s' := s.queue[id], PaidOf(s, calls, id), Run(s, calls);
      && 0 <= paid <= r.amount
      && (id in s'.queue <==> paid < r.amount && !Released(s, calls, id))
      && (id in s'.queue ==> s'.queue[id] == r.(amount := r.amount - paid))
    decreases |calls|
  {
    hide Step;
    if calls != [] {
      var s' := Next(s, calls[0]);
      if Step(s, calls[0]).Ok? { FateAsCalled(s, calls[0], id); }
      if id in s'.queue {
        RequestOverRuns(s', calls[1..], id);
      } else {
        NothingPaidWhenGone(s', calls[1..], id);
      }
    }
  }

  /** What was cancelled or reclaimed is never executed afterwards, in full or in part. */
  lemma ReleasedIsNeverPaid(s: State, release: Call, calls: seq<Call>, last: Call, id: nat)
    requires Inv(s) && Releases(release.op, id) && Step(s, release).Ok?
    requires last.op.OpExecute? && last.op.id == id
    ensures var later := Run(Next(s, release), calls);
      && id !in later.queue
      && (last.env.ledger >= later.now ==>
            Step(later, last) == Err(if later.cfg.paused then ContractPaused else RequestNotFound))
  {
    hide Run, Inv, Deposit, Withdraw, RequestWithdrawal, CancelWithdrawal, ReclaimExpired, WithdrawFees,
         OutsideTransfer;
    ReleaseFrees(s, release.env, release.op, id);
    LiveIdsAreOld(s, id);
    RequestRuns.GoneForGood(Next(s, release), calls, id);
  }

  lemma LiveIdsAreOld(s: State, id: nat)
    requires Inv(s) && id in s.queue
    ensures id < s.nextId && s.queue[id].amount > 0
  {
    OneIsOwed(s.queue, id, s.nextId, s.self, s.token, s.now);
  }

  // ---- delays after deposits ----

  predicate StampedSince(last: map<Address, nat>, user: Address, ledger: nat, now: nat) {
    user in last && ledger <= last[user] && ledger <= now
  }

  lemma {:induction false} StampsStay(s: State, calls: seq<Call>, user: Address, ledger: nat)
    ensures StampedSince(s.lastDeposit, user, ledger, s.now) ==>
              StampedSince(Run(s, calls).lastDeposit, user, ledger, Run(s, calls).now)
    ensures StampedSince(s.lastLarge, user, ledger, s.now) ==>
              StampedSince(Run(s, calls).lastLarge, user, ledger, Run(s, calls).now)
    decreases |calls|
  {
    hide Apply;
    if calls != [] {
      if Step(s, calls[0]).Ok? { StampsAsCalled(s, calls[0]); }
      StampsStay(Next(s, calls[0]), calls[1..], user, ledger);
    }
  }

  lemma StampsAsCalled(s: State, call: Call)
    requires Step(s, call).Ok?
    ensures var s', op, ledger := Next(s, call), call.op, call.env.ledger;
      && s'.now == ledger >= s.now
      && s'.lastDeposit == (if op.OpDeposit? then s.lastDeposit[op.from := ledger] else s.lastDeposit)
      && s'.lastLarge == if op.OpDeposit? && 0 < s.cfg.withdrawThreshold <= op.amount
                         then s.lastLarge[op.from := ledger] else s.lastLarge
  {
    hide Apply, Balance, FlowOf, AccruedBy, FateOf, EventsOf, CfgAfter;
    StepAsCalled(s, call);
  }

  /** Whatever is called in between: after a deposit, no request of that depositor is executed before the
      anti-sandwich delay in force at the execution is over. */
  lemma AntiSandwichHolds(s: State, deposit: Call, between: seq<Call>, last: Call)
    requires deposit.op.OpDeposit? && Step(s, deposit).Ok?
    requires var later := Run(Next(s, deposit), between);
      && last.op.OpExecute? && last.op.id in later.queue && later.queue[last.op.id].to == deposit.op.from
      && later.cfg.antiSandwich > 0 && Step(later, last).Ok?
    ensures var later := Run(Next(s, deposit), between);
      last.env.ledger >= Min(deposit.env.ledger + later.cfg.antiSandwich, U32_MAX)
  {
    hide Run, Apply;
    var s', later := Next(s, deposit), Run(Next(s, deposit), between);
    StampsAsCalled(s, deposit);
    StampsStay(s', between, deposit.op.from, deposit.env.ledger);
    ExecutedIsNotTooSoon(later, last);
  }

  lemma ExecutedIsNotTooSoon(s: State, call: Call)
    requires call.op.OpExecute? && call.op.id in s.queue && Step(s, call).Ok?
    ensures !TooSoon(s.lastDeposit, s.queue[call.op.id].to, s.cfg.antiSandwich, call.env.ledger)
  {
    hide CheckBenchmark, ChargeLimits, SettlePayment, Balance, Deposit, Withdraw, RequestWithdrawal,
         CancelWithdrawal, ReclaimExpired, WithdrawFees, OutsideTransfer;
  }

  /** Whatever is called in between: after a large deposit, no withdrawal is requested for that depositor before the
      withdrawal cooldown in force at the request is over. */
  lemma LargeDepositsDelayRequests(s: State, deposit: Call, between: seq<Call>, last: Call)
    requires deposit.op.OpDeposit? && Step(s, deposit).Ok? && 0 < s.cfg.withdrawThreshold <= deposit.op.amount
    requires var later := Run(Next(s, deposit), between);
      && last.op.OpRequest? && last.op.to == deposit.op.from
      && later.cfg.withdrawCooldown > 0 && Step(later, last).Ok?
    ensures var later := Run(Next(s, deposit), between);
      last.env.ledger >= Min(deposit.env.ledger + later.cfg.withdrawCooldown, U32_MAX)
  {
    hide Run, Apply;
    var s', later := Next(s, deposit), Run(Next(s, deposit), between);
    StampsAsCalled(s, deposit);
    StampsStay(s', between, deposit.op.from, deposit.env.ledger);
    RequestedIsNotTooSoon(later, last);
  }

  lemma RequestedIsNotTooSoon(s: State, call: Call)
    requires call.op.OpRequest? && Step(s, call).Ok?
    ensures !TooSoon(s.lastLarge, call.op.to, s.cfg.withdrawCooldown, call.env.ledger)
  {
    hide Reserve, RequireAdmin, Balance, Deposit, Withdraw, ExecuteWithdrawal, CancelWithdrawal, ReclaimExpired,
         WithdrawFees, OutsideTransfer;
  }
}
