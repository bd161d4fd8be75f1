/** Every queued request stays payable: from any reachable state whose net deposits are covered, and from
    no other, live requests can be executed in any order, whole or in parts, until nothing is owed. */
module Payable {
  import opened Prelude
  import opened Sums
  import opened Admission
  import opened Escrow
  import opened Accounting
  import opened Solvency
  import Reachable
  import SolventRuns

  /** One execution of a plan: which request, how much of it, and when. */
  datatype Pull = Pull(id: nat, partial: Option<I128>, env: Env)

  predicate Fits(queue: map<nat, Request>, p: Pull) {
    p.id in queue && (p.partial.Some? ==> 0 < p.partial.value <= queue[p.id].amount)
  }

  function AfterPull(queue: map<nat, Request>, p: Pull): map<nat, Request> {
    if p.id in queue then Served(queue, p.id, Portion(queue[p.id], p.partial)) else queue
  }

  /** Each pull takes a positive part of a request that is still live when its turn comes. */
  predicate PlanFits(queue: map<nat, Request>, plan: seq<Pull>)
    decreases |plan|
  {
    plan == [] || (Fits(queue, plan[0]) && PlanFits(AfterPull(queue, plan[0]), plan[1..]))
  }

  function AfterPlan(queue: map<nat, Request>, plan: seq<Pull>): map<nat, Request>
    decreases |plan|
  {
    if plan == [] then queue else AfterPlan(AfterPull(queue, plan[0]), plan[1..])
  }

  /** The execution call for a pull, with the nonce the recipient currently has and no benchmark price. */
  function CallFor(s: State, p: Pull): Call {
    var nonce := if p.id in s.queue then GetOr(s.nonces, s.queue[p.id].to, 0) else 0;
    Call(p.env, OpExecute(p.id, p.partial, 0, 0, nonce))
  }

  function RunPlan(s: State, plan: seq<Pull>): State
    decreases |plan|
  {
    if plan == [] then s else RunPlan(Next(s, CallFor(s, plan[0])), plan[1..])
  }

  predicate AllSucceed(s: State, plan: seq<Pull>)
    decreases |plan|
  {
    plan == [] || (Step(s, CallFor(s, plan[0])).Ok? && AllSucceed(Next(s, CallFor(s, plan[0])), plan[1..]))
  }

  /** Unpaused, with quota and breaker off. */
  predicate Unhindered(cfg: Config) { !cfg.paused && cfg.quota <= 0 && cfg.breakerThreshold <= 0 }

  /** By the time of the pull, the lock and the anti-sandwich delay of its request have passed. */
  predicate Elapsed(s: State, p: Pull) {
    p.id in s.queue ==>
      && p.env.ledger >= s.queue[p.id].unlockLedger
      && !TooSoon(s.lastDeposit, s.queue[p.id].to, s.cfg.antiSandwich, p.env.ledger)
  }

  predicate InOrder(plan: seq<Pull>) {
    forall i, j :: 0 <= i < j < |plan| ==> plan[i].env.ledger <= plan[j].env.ledger
  }

  predicate NoncesHaveRoom(nonces: map<Address, nat>, n: nat) {
    forall u :: u in nonces ==> nonces[u] + n <= U64_MAX
  }

  predicate Ready(s: State, plan: seq<Pull>) {
    && Unhindered(s.cfg)
    && InOrder(plan) && (plan != [] ==> plan[0].env.ledger >= s.now)
    && (forall i :: 0 <= i < |plan| ==> Elapsed(s, plan[i]))
    && NoncesHaveRoom(s.nonces, |plan|) && |plan| <= U64_MAX
  }

  // ---- what recipients have coming ----

  function Claims(queue: map<nat, Request>, user: Address): map<nat, int> {
    map id | id in queue && queue[id].to == user :: queue[id].amount
  }

  ghost function OwedTo(queue: map<nat, Request>, user: Address): int { MapSum(Claims(queue, user)) }

  lemma ClaimsAfterService(queue: map<nat, Request>, id: nat, amount: int, user: Address)
    requires id in queue
    ensures OwedTo(Served(queue, id, amount), user) == OwedTo(queue, user) - if queue[id].to == user then amount else 0
  {
    var r, queue' := queue[id], Served(queue, id, amount);
    if r.to != user {
      assert Claims(queue', user) == Claims(queue, user);
    } else if amount == r.amount {
      assert Claims(queue', user) == Claims(queue, user) - {id};
      MapSumRemove(Claims(queue, user), id);
    } else {
      assert Claims(queue', user) == Claims(queue, user)[id := r.amount - amount];
      MapSumUpdate(Claims(queue, user), id, r.amount - amount);
    }
  }

  // ---- one pull ----

  lemma NothingAgainst(s: State, p: Pull, rest: nat)
    requires Inv(s) && Backed(s) && Unhindered(s.cfg) && Fits(s.queue, p)
    requires Elapsed(s, p) && NoncesHaveRoom(s.nonces, rest) && 0 < rest <= U64_MAX
    ensures ExecuteRefusal(s, p.env, p.id, p.partial, 0, 0, CallFor(s, p).op.nonce) == None
  {
    hide Inv, TooSoon, Balance;
    OneIsReserved(s, p.id);
    FreeIsBounded(s);
    ReservedIsHeld(s);
  }

  lemma ReservedIsHeld(s: State)
    requires Inv(s) && Backed(s)
    ensures s.token in s.registry && s.registry[s.token].totalLiabilities <= Balance(s.balances, s.token, s.self)
  {
  }

  lemma PullSucceedsIff(s: State, p: Pull, rest: nat)
    requires Inv(s) && Unhindered(s.cfg) && Fits(s.queue, p)
    requires p.env.ledger >= s.now && Elapsed(s, p) && NoncesHaveRoom(s.nonces, rest) && 0 < rest <= U64_MAX
    ensures Step(s, CallFor(s, p)).Ok? <==> Backed(s)
    ensures Step(s, CallFor(s, p)).Ok? ==> Backed(Next(s, CallFor(s, p)))
  {
    hide Inv, ExecuteRefusal, ExecuteWithdrawal, Elapsed, Balance;
    var call := CallFor(s, p);
    if Backed(s) { NothingAgainst(s, p, rest); }
    ExecuteSucceedsIff(s, p.env, p.id, p.partial, 0, 0, call.op.nonce);
  }

  /** What a successful pull does. */
  lemma PullEffect(s: State, p: Pull)
    requires Inv(s) && Fits(s.queue, p) && Step(s, CallFor(s, p)).Ok?
    ensures var (s', r) := (Next(s, CallFor(s, p)), s.queue[p.id]);
      && s'.self == s.self && s'.token == s.token && s'.cfg == s.cfg && s'.lastDeposit == s.lastDeposit
      && s'.now == p.env.ledger
      && s'.queue == AfterPull(s.queue, p)
      && s'.nonces == s.nonces[r.to := GetOr(s.nonces, r.to, 0) + 1]
  {
    hide Inv, ChargeLimits, AdmitExecution, SettlePayment, CheckBenchmark, Served;
    AdmittedPull(s, p);
    SettledPull(s, p);
  }

  lemma AdmittedPull(s: State, p: Pull)
    requires Inv(s) && Fits(s.queue, p)
    requires AdmitExecution(s, p.env, p.id, p.partial, CallFor(s, p).op.nonce).Ok?
    ensures AdmitExecution(s, p.env, p.id, p.partial, CallFor(s, p).op.nonce).value == Portion(s.queue[p.id], p.partial)
  {
    hide Recent;
  }

  lemma SettledPull(s: State, p: Pull)
    requires p.id in s.queue
    ensures var r := s.queue[p.id];
      forall amount: nat :: SettlePayment(s, p.env.ledger, r.token, r.to, amount, amount).Ok? ==>
        var s' := SettlePayment(s, p.env.ledger, r.token, r.to, amount, amount).value;
        s' == s.(balances := s'.balances, registry := s'.registry, history := s'.history)
  {
  }

  /** A pull moves its amount from the contract to the recipient and nothing else. */
  lemma PullPays(s: State, p: Pull, user: Address)
    requires Inv(s) && Fits(s.queue, p) && Step(s, CallFor(s, p)).Ok? && user != s.self
    ensures Balance(Next(s, CallFor(s, p)).balances, s.token, user) + OwedTo(AfterPull(s.queue, p), user)
            == Balance(s.balances, s.token, user) + OwedTo(s.queue, user)
  {
    hide Inv, ChargeLimits, AdmitExecution, CheckBenchmark, Served, OwedTo, Transfer, CheckInvariants, Balance;
    var r := s.queue[p.id];
    var amount: int := Portion(r, p.partial);
    AdmittedPull(s, p);
    OneIsReserved(s, p.id);
    ClaimsAfterService(s.queue, p.id, amount, user);
    Reachable.TransferMoves(s.balances, s.token, s.self, r.to, amount, s.token, user);
  }

  lemma StillElapsed(s: State, p: Pull, later: Pull)
    requires Inv(s) && Fits(s.queue, p) && Step(s, CallFor(s, p)).Ok? && Elapsed(s, later)
    ensures Elapsed(Next(s, CallFor(s, p)), later)
  {
    hide Inv, Step;
    PullEffect(s, p);
  }

  lemma ReadyForRest(s: State, plan: seq<Pull>)
    requires Inv(s) && plan != [] && Ready(s, plan) && Fits(s.queue, plan[0]) && Step(s, CallFor(s, plan[0])).Ok?
    ensures Ready(Next(s, CallFor(s, plan[0])), plan[1..])
  {
    hide Inv, Step, Elapsed;
    PullEffect(s, plan[0]);
    forall i | 0 <= i < |plan[1..]|
      ensures Elapsed(Next(s, CallFor(s, plan[0])), plan[1..][i])
    {
      StillElapsed(s, plan[0], plan[i + 1]);
    }
  }

  // ---- whole plans ----

  lemma {:induction false} PlanSucceeds(s: State, plan: seq<Pull>)
    requires Inv(s) && Backed(s) && Ready(s, plan) && PlanFits(s.queue, plan)
    ensures AllSucceed(s, plan)
    ensures var s' := RunPlan(s, plan); Inv(s') && Backed(s') && s'.queue == AfterPlan(s.queue, plan)
    decreases |plan|
  {
    hide Inv, Backed, Step, Elapsed;
    if plan != [] {
      var call := CallFor(s, plan[0]);
      PullSucceedsIff(s, plan[0], |plan|);
      Reachable.StepKeeps(s, call);
      PullEffect(s, plan[0]);
      ReadyForRest(s, plan);
      PlanSucceeds(Next(s, call), plan[1..]);
    }
  }

  lemma {:induction false} PlanDelivers(s: State, plan: seq<Pull>, user: Address)
    requires Inv(s) && Backed(s) && Ready(s, plan) && PlanFits(s.queue, plan) && user != s.self
    ensures Balance(RunPlan(s, plan).balances, s.token, user) + OwedTo(AfterPlan(s.queue, plan), user)
            == Balance(s.balances, s.token, user) + OwedTo(s.queue, user)
    decreases |plan|
  {
    hide Inv, Backed, Step, Elapsed, Balance, OwedTo;
    if plan != [] {
      var call := CallFor(s, plan[0]);
      PullSucceedsIff(s, plan[0], |plan|);
      Reachable.StepKeeps(s, call);
      PullEffect(s, plan[0]);
      PullPays(s, plan[0], user);
      ReadyForRest(s, plan);
      PlanDelivers(Next(s, call), plan[1..], user);
    }
  }

  lemma NothingOwed(s: State)
    requires Inv(s) && s.queue == map[]
    ensures s.registry[s.token].totalLiabilities == 0
  {
    assert Remaining(s.queue, s.token) == map[];
  }

  /** From every reachable state: a plan that takes live requests in any order, whole or in parts,
      succeeds call by call if and only if the net deposits are covered, which is to say that no more
      fees were paid out than tokens came in from outside, once the locks and delays of these requests
      have passed, with quota and breaker off and room in the nonces. Then everyone receives exactly what
      they had coming, and when no request is left the liabilities are zero. A run whose fee payouts were
      covered ends covered. */
  lemma AlwaysPayable(self: Address, env: Env, admin: Address, token: Address, limit: I128, minDeposit: I128,
                      calls: seq<Call>, plan: seq<Pull>, user: Address)
    requires Init(self, env, admin, token, limit, minDeposit).Ok?
    requires var s := Run(Init(self, env, admin, token, limit, minDeposit).value, calls);
      Ready(s, plan) && PlanFits(s.queue, plan) && user != s.self
    ensures var s := Run(Init(self, env, admin, token, limit, minDeposit).value, calls);
      var s' := RunPlan(s, plan);
      && (plan != [] ==> (AllSucceed(s, plan) <==> Backed(s)))
      && (Backed(s) <==> Total(s.history, FeesOf(s.token)) <= Total(s.history, ArrivalsOf(s.token)))
      && (Backed(s) ==>
            && s'.queue == AfterPlan(s.queue, plan)
            && Balance(s'.balances, s.token, user) + OwedTo(s'.queue, user)
                 == Balance(s.balances, s.token, user) + OwedTo(s.queue, user)
            && s'.token in s'.registry
            && (s'.queue == map[] ==> s'.registry[s'.token].totalLiabilities == 0 && OwedTo(s'.queue, user) == 0))
      && (SolventRuns.FeesCovered(Init(self, env, admin, token, limit, minDeposit).value, calls) ==> Backed(s))
  {
    hide CountersOk, BalanceOk, QueueOk, ReceiptsOk, LimitsOk, Backed, Step, Balance, MapSum,
         SolventRuns.FeesCovered, SolventRuns.CoveredThroughout, Elapsed, Total;
    var s0 := Init(self, env, admin, token, limit, minDeposit).value;
    var s := Run(s0, calls);
    SolventRuns.CoveredOverRuns(self, env, admin, token, limit, minDeposit, calls);
    SolventRuns.CoveredIffFeesArrived(self, env, admin, token, limit, minDeposit, calls);
    Reachable.InitEstablishes(self, env, admin, token, limit, minDeposit);
    Reachable.RunKeeps(s0, calls);
    if plan != [] { PullSucceedsIff(s, plan[0], |plan|); }
    if Backed(s) { PlanEnds(s, plan, user); }
  }

  lemma PlanEnds(s: State, plan: seq<Pull>, user: Address)
    requires Inv(s) && Backed(s) && Ready(s, plan) && PlanFits(s.queue, plan) && user != s.self
    ensures var s' := RunPlan(s, plan);
      && AllSucceed(s, plan)
      && s'.queue == AfterPlan(s.queue, plan)
      && Balance(s'.balances, s.token, user) + OwedTo(s'.queue, user)
          == Balance(s.balances, s.token, user) + OwedTo(s.queue, user)
      && s'.token in s'.registry
      && (s'.queue == map[] ==> s'.registry[s'.token].totalLiabilities == 0 && OwedTo(s'.queue, user) == 0)
  {
    hide CountersOk, BalanceOk, QueueOk, ReceiptsOk, LimitsOk, Backed, Step, Balance, MapSum, Elapsed;
    PlanSucceeds(s, plan);
    PlanDelivers(s, plan, user);
    var s' := RunPlan(s, plan);
    if s'.queue == map[] {
      NothingOwed(s');
      NoClaims(s'.queue, user);
    }
  }

  lemma NoClaims(queue: map<nat, Request>, user: Address)
    requires queue == map[]
    ensures OwedTo(queue, user) == 0
  {
    assert Claims(queue, user) == map[];
  }

  /** Such plans always exist: all live requests, whole, in any order. */
  lemma {:induction false} WholeRequestsInAnyOrder(queue: map<nat, Request>, plan: seq<Pull>)
    requires forall i :: 0 <= i < |plan| ==> plan[i].partial == None
    requires forall i, j :: 0 <= i < j < |plan| ==> plan[i].id != plan[j].id
    requires forall id :: id in queue <==> exists i :: 0 <= i < |plan| && plan[i].id == id
    ensures PlanFits(queue, plan) && AfterPlan(queue, plan) == map[]
    decreases |plan|
  {
    if plan != [] {
      assert plan[0].id in queue;
      var queue', rest := AfterPull(queue, plan[0]), plan[1..];
      assert queue' == queue - {plan[0].id};
      forall id | id in queue'
        ensures exists i :: 0 <= i < |rest| && rest[i].id == id
      {
        var i :| 0 <= i < |plan| && plan[i].id == id;
        assert rest[i - 1].id == id;
      }
      forall i | 0 <= i < |rest|
        ensures rest[i].id in queue'
      {
        assert rest[i] == plan[i + 1];
      }
      WholeRequestsInAnyOrder(queue', rest);
    } else {
      assert queue == map[];
    }
  }
}
