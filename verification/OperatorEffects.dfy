/** Which calls on the operator registry succeed, and what they leave behind. */
module OperatorEffects {
  import opened Prelude
  import opened Lists
  import opened Operators

  // ---- which calls succeed ----

  function AdminRefusal(env: Env): Option<Error> {
    if env.admin == None then Some(NotInitialized)
    else if env.admin.value !in env.signed then Some(HostAbort)
    else None
  }

  function NonceRefusal(r: Registry, a: Address, nonce: nat): Option<Error> {
    var current := GetOr(r.nonces, a, 0);
    if nonce < current then Some(StaleNonce)
    else if nonce > current then Some(InvalidNonce)
    else if nonce >= U64_MAX then Some(HostAbort)
    else None
  }

  /** The active operators other than `a` that pruning at this ledger leaves in the list. */
  function OthersLeft(r: Registry, a: Address, ledger: nat): set<Address> {
    set o | o in r.list && o != a && r.Active(o) && !r.Stale(o, ledger)
  }

  /** Why a call is refused: an operator can be added while it is one, or while the cap leaves room after pruning; it
      can be removed only if pruning leaves it. */
  function Refusal(r: Registry, env: Env, op: Op): Option<Error> {
    var admin := AdminRefusal(env);
    match op
    case OpSetOperator(a, active, nonce) =>
      var spent, stays := NonceRefusal(r, a, nonce), r.Active(a) && !r.Stale(a, env.ledger);
      if admin.Some? then admin
      else if env.slippage > 10_000 then Some(SlippageTooHigh)
      else if Some(a) == env.admin then Some(NotAllowed)
      else if a == env.self then Some(InvalidRecipient)
      else if spent.Some? then spent
      else if !active && !stays then Some(NotOperator)
      else if active && !stays && r.cap > 0 && |OthersLeft(r, a, env.ledger)| >= r.cap then Some(OperatorCapReached)
      else None
    case OpHeartbeat(a, nonce) =>
      if a !in env.signed then Some(HostAbort)
      else if !env.clear then Some(CircuitBreakerActive)
      else if !r.Active(a) then Some(NotOperator)
      else NonceRefusal(r, a, nonce)
    case OpSetMax(cap) =>
      if admin.Some? then admin else if cap > 0 && r.count > cap then Some(ExceedsLimit) else None
    case OpPrune => admin
  }

  lemma OthersLeftCount(r: Registry, a: Address, ledger: nat)
    requires RegistryOk(r) && !(r.Active(a) && !r.Stale(a, ledger))
    ensures |Pruned(r, ledger).list| == |OthersLeft(r, a, ledger)|
  {
    hide Filter, Registry.Stale;
    FilterIsExact(r.list, r.Stays(ledger));
    PruneIsExact(r, ledger);
    DistinctCount(Pruned(r, ledger).list);
    assert Elements(Pruned(r, ledger).list) == OthersLeft(r, a, ledger);
  }

  /** In every registry that calls can reach: a call succeeds exactly when nothing speaks against it, and is otherwise
      refused with the first reason that does. */
  lemma EveryCallIsDecided(calls: seq<Call>, call: Call)
    ensures var r := Run(EMPTY, calls);
      match Refusal(r, call.env, call.op) case None => Step(r, call).Ok? case Some(e) => Step(r, call) == Err(e)
  {
    hide Run, Step, Refusal;
    RunKeeps(EMPTY, calls);
    RegistryDecides(Run(EMPTY, calls), call);
  }

  lemma RegistryDecides(r: Registry, call: Call)
    requires RegistryOk(r)
    ensures match Refusal(r, call.env, call.op) case None => Step(r, call).Ok? case Some(e) => Step(r, call) == Err(e)
  {
    hide RegistryOk, OthersLeft, Filter, Pruned, Registry.Stale;
    if call.op.OpSetOperator? {
      var a, ledger := call.op.operator, call.env.ledger;
      PrunedFlags(r, a, ledger, call.op.nonce);
    }
  }

  /** Spending a nonce changes nothing that pruning looks at. */
  lemma PrunedFlags(r: Registry, a: Address, ledger: nat, nonce: nat)
    requires RegistryOk(r)
    ensures var spent := SpendNonce(r.nonces, a, nonce);
      spent.Ok? ==>
        var p := Pruned(r.(nonces := spent.value), ledger);
        && p.cap == r.cap
        && (p.Active(a) <==> r.Active(a) && !r.Stale(a, ledger))
        && (!p.Active(a) ==> |p.list| == |OthersLeft(r, a, ledger)|)
  {
    hide SpendNonce, Filter, Registry.Stale;
    var spent := SpendNonce(r.nonces, a, nonce);
    if spent.Ok? {
      var r' := r.(nonces := spent.value);
      PruneIsExact(r', ledger);
      if !Pruned(r', ledger).Active(a) { OthersLeftCount(r', a, ledger); }
      assert r'.Stale(a, ledger) == r.Stale(a, ledger) by { StaleIgnoresNonces(r, r', a, ledger); }
      assert OthersLeft(r', a, ledger) == OthersLeft(r, a, ledger) by {
        forall o { StaleIgnoresNonces(r, r', o, ledger); }
      }
    }
  }

  lemma StaleIgnoresNonces(r: Registry, r': Registry, a: Address, ledger: nat)
    requires r'.heartbeats == r.heartbeats
    ensures r'.Stale(a, ledger) == r.Stale(a, ledger)
  {
  }

  // ---- what they leave behind ----

  /** A heartbeat is recorded with its ledger and spends the operator's nonce; a new cap is stored; setting an
      operator sets that flag, spends its nonce and prunes; pruning touches no heartbeat, nonce or cap. */
  lemma CallsTakeEffect(r: Registry, call: Call)
    requires RegistryOk(r) && Step(r, call).Ok?
    ensures var r', env := Next(r, call), call.env;
      match call.op
      case OpHeartbeat(a, nonce) =>
        r' == r.(heartbeats := r.heartbeats[a := env.ledger], nonces := r.nonces[a := nonce + 1])
      case OpSetMax(cap) => r' == r.(cap := cap)
      case OpSetOperator(a, active, nonce) =>
        && r'.heartbeats == r.heartbeats && r'.cap == r.cap && r'.nonces == r.nonces[a := nonce + 1]
        && forall o :: r'.Active(o) <==> if o == a then active else r.Active(o) && !r.Stale(o, env.ledger)
      case OpPrune =>
        && r'.heartbeats == r.heartbeats && r'.cap == r.cap && r'.nonces == r.nonces
        && forall o :: r'.Active(o) <==> r.Active(o) && !r.Stale(o, env.ledger)
  {
    hide RegistryOk, Filter, Cleared, Registry.Stale;
    if call.op.OpSetOperator? {
      SetOperatorKeeps(r, call.env, call.op.operator, call.op.active, call.op.nonce);
    } else if call.op.OpPrune? {
      PruneIsExact(r, call.env.ledger);
    }
  }

  // ---- over whole runs ----

  /** The call takes the flag of `a` away by the administrator's decision. */
  predicate Dismisses(call: Call, a: Address) { call.op.OpSetOperator? && call.op.operator == a && !call.op.active }

  /** An operator that has reported at `ledger` or later keeps its flag through any calls that come no more than the
      inactivity threshold after that ledger, whatever is pruned, unless a call of the administrator dismisses it. */
  lemma {:induction false} ReportingKeepsTheFlag(r: Registry, calls: seq<Call>, a: Address, ledger: nat)
    requires RegistryOk(r) && r.Active(a) && a in r.heartbeats && r.heartbeats[a] >= ledger
    requires forall i :: 0 <= i < |calls| ==>
               ledger <= calls[i].env.ledger <= ledger + 1_555_200 && !Dismisses(calls[i], a)
    ensures Run(r, calls).Active(a)
    decreases |calls|
  {
    hide RegistryOk, Step;
    if calls != [] {
      if Step(r, calls[0]).Ok? {
        StepKeeps(r, calls[0]);
        CallsTakeEffect(r, calls[0]);
      }
      ReportingKeepsTheFlag(Next(r, calls[0]), calls[1..], a, ledger);
    }
  }
}
