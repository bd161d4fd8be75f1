/** The operator registry: a flag per operator, the list of active operators with its length kept
    beside it, heartbeats, nonces, and the pruning of operators that stopped reporting. */
module Operators {
  import opened Prelude
  import opened Lists

  const INACTIVITY_THRESHOLD: nat := 1_555_200
  const MAX_BPS: nat := 10_000

  /** What a call sees of the rest of the contract: the ledger, who signed, the administrator, the
      slippage threshold, and whether the circuit breaker lets calls through. */
  datatype Env = Env(ledger: nat, signed: set<Address>, self: Address, admin: Option<Address>, slippage: nat,
                     clear: bool)

  /** A recorded heartbeat more than the threshold ago; an operator that never reported is not overdue. */
  predicate Overdue(heartbeats: map<Address, nat>, a: Address, ledger: nat) {
    a in heartbeats && ledger > heartbeats[a] && ledger - heartbeats[a] > INACTIVITY_THRESHOLD
  }

  datatype Registry = Registry(
    flags: map<Address, bool>, list: seq<Address>, count: nat, cap: nat,
    heartbeats: map<Address, nat>, nonces: map<Address, nat>)
  {
    predicate Active(a: Address) { GetOr(flags, a, false) }

    predicate Stale(a: Address, ledger: nat) { Overdue(heartbeats, a, ledger) }

    function Stays(ledger: nat): Address -> bool { a => Active(a) && !Stale(a, ledger) }
  }

  // ---- entry points ----

  function Admin(env: Env): Result<Address> {
    match env.admin
    case None => Err(NotInitialized)
    case Some(admin) => if admin in env.signed then Ok(admin) else Err(HostAbort)
  }

  function SpendNonce(nonces: map<Address, nat>, a: Address, nonce: nat): Result<map<Address, nat>> {
    var current := GetOr(nonces, a, 0);
    :- Need(nonce >= current, StaleNonce);
    :- Need(nonce <= current, InvalidNonce);
    :- Need(current + 1 <= U64_MAX, HostAbort);
    Ok(nonces[a := current + 1])
  }

  /** The flags once the stale among `seen` have lost theirs. */
  function Cleared(r: Registry, seen: seq<Address>, ledger: nat): map<Address, bool> {
    map a | a in r.flags :: r.flags[a] && !(a in seen && r.Stale(a, ledger))
  }

  function Pruned(r: Registry, ledger: nat): Registry {
    var list := Filter(r.list, r.Stays(ledger));
    r.(flags := Cleared(r, r.list, ledger), list := list, count := |list|)
  }

  /** Who may become or stop being an operator. */
  function AdmitOperator(env: Env, operator: Address): Result<()> {
    var admin :- Admin(env);
    :- Need(env.slippage <= MAX_BPS, SlippageTooHigh);
    :- Need(operator != admin, NotAllowed);
    :- Need(operator != env.self, InvalidRecipient);
    Ok(())
  }

  /** Sets the flag of `operator` in a registry that has just been pruned. */
  function SetFlag(r: Registry, operator: Address, active: bool): Result<Registry> {
    var was := r.Active(operator);
    :- Need(active || was, NotOperator);
    :- Need(!(active && !was && r.cap > 0 && |r.list| >= r.cap), OperatorCapReached);
    var list := if active == was then r.list
                else if active then r.list + [operator]
                else Filter(r.list, a => a != operator);
    Ok(r.(flags := r.flags[operator := active], list := list, count := |list|))
  }

  function SetOperator(r: Registry, env: Env, operator: Address, active: bool, nonce: nat): Result<Registry> {
    var _ :- AdmitOperator(env, operator);
    var nonces :- SpendNonce(r.nonces, operator, nonce);
    SetFlag(Pruned(r.(nonces := nonces), env.ledger), operator, active)
  }

  function SetMaxOperators(r: Registry, env: Env, cap: nat): Result<Registry> {
    var _ :- Admin(env);
    :- Need(!(cap > 0 && r.count > cap), ExceedsLimit);
    Ok(r.(cap := cap))
  }

  function Heartbeat(r: Registry, env: Env, operator: Address, nonce: nat): Result<Registry> {
    var spent := SpendNonce(r.nonces, operator, nonce);
    :- Need(operator in env.signed, HostAbort);
    :- Need(env.clear, CircuitBreakerActive);
    :- Need(r.Active(operator), NotOperator);
    var nonces :- spent;
    Ok(r.(nonces := nonces, heartbeats := r.heartbeats[operator := env.ledger]))
  }

  function PruneInactive(r: Registry, env: Env): Result<Registry> {
    var _ :- Admin(env);
    Ok(Pruned(r, env.ledger))
  }

  // ---- runs ----

  datatype Op =
    | OpSetOperator(operator: Address, active: bool, nonce: nat)
    | OpHeartbeat(operator: Address, nonce: nat)
    | OpSetMax(cap: nat)
    | OpPrune

  datatype Call = Call(env: Env, op: Op)

  function Step(r: Registry, call: Call): Result<Registry> {
    match call.op
    case OpSetOperator(operator, active, nonce) => SetOperator(r, call.env, operator, active, nonce)
    case OpHeartbeat(operator, nonce) => Heartbeat(r, call.env, operator, nonce)
    case OpSetMax(cap) => SetMaxOperators(r, call.env, cap)
    case OpPrune => PruneInactive(r, call.env)
  }

  function Next(r: Registry, call: Call): Registry {
    match Step(r, call) case Ok(r') => r' case Err(_) => r
  }

  function Run(r: Registry, calls: seq<Call>): Registry
    decreases |calls|
  {
    if calls == [] then r else Run(Next(r, calls[0]), calls[1..])
  }

  const EMPTY: Registry := Registry(map[], [], 0, 0, map[], map[])

  // ---- what every reachable registry satisfies ----

  /** The list names every active operator once, the count is its length, and a cap is respected. */
  ghost predicate RegistryOk(r: Registry) {
    && Distinct(r.list)
    && (forall a :: a in r.list <==> r.Active(a))
    && r.count == |r.list|
    && (r.cap > 0 ==> r.count <= r.cap)
  }

  lemma ClearedStep(r: Registry, n: nat, ledger: nat)
    requires n < |r.list|
    ensures Cleared(r, [], ledger) == r.flags
    ensures var a := r.list[n]; var was := Cleared(r, r.list[..n], ledger);
      && Cleared(r, r.list[..n + 1], ledger) ==
           (if a in was && was[a] && r.Stale(a, ledger) then was[a := false] else was)
      && (a in was && was[a] && !r.Stale(a, ledger) <==> r.Stays(ledger)(a))
  {
    hide Registry.Stale;
    assert r.list[..n + 1] == r.list[..n] + [r.list[n]];
  }

  /** Pruning drops exactly the operators whose recorded heartbeat is too old and changes no other flag. */
  lemma PruneIsExact(r: Registry, ledger: nat)
    requires RegistryOk(r)
    ensures RegistryOk(Pruned(r, ledger))
    ensures forall a :: Pruned(r, ledger).Active(a) <==> r.Active(a) && !r.Stale(a, ledger)
  {
    hide Filter, Registry.Stale;
    FilterIsExact(r.list, r.Stays(ledger));
  }

  /** The operators that stay keep their order. */
  lemma PruneKeepsOrder(r: Registry, ledger: nat)
    ensures var list := Pruned(r, ledger).list; exists at: seq<nat> ::
      && |at| == |list|
      && (forall i :: 0 <= i < |at| ==> at[i] < |r.list| && r.list[at[i]] == list[i])
      && (forall i, j :: 0 <= i < j < |at| ==> at[i] < at[j])
  {
    hide Filter;
    var at := Kept(r.list, r.Stays(ledger));
    assert |at| == |Pruned(r, ledger).list|;
  }

  lemma SetFlagKeeps(r: Registry, operator: Address, active: bool)
    requires RegistryOk(r) && SetFlag(r, operator, active).Ok?
    ensures RegistryOk(SetFlag(r, operator, active).value)
    ensures var r' := SetFlag(r, operator, active).value;
      forall a :: r'.Active(a) <==> if a == operator then active else r.Active(a)
  {
    FilterIsExact(r.list, a => a != operator);
  }

  lemma SetOperatorKeeps(r: Registry, env: Env, operator: Address, active: bool, nonce: nat)
    requires RegistryOk(r) && SetOperator(r, env, operator, active, nonce).Ok?
    ensures RegistryOk(SetOperator(r, env, operator, active, nonce).value)
    ensures var r' := SetOperator(r, env, operator, active, nonce).value;
      forall a :: r'.Active(a) <==> if a == operator then active else r.Active(a) && !r.Stale(a, env.ledger)
  {
    hide Pruned, SetFlag, AdmitOperator;
    var nonces := SpendNonce(r.nonces, operator, nonce).value;
    var spent := r.(nonces := nonces);
    PruneIsExact(spent, env.ledger);
    SetFlagKeeps(Pruned(spent, env.ledger), operator, active);
  }

  lemma StepKeeps(r: Registry, call: Call)
    requires RegistryOk(r) && Step(r, call).Ok?
    ensures RegistryOk(Step(r, call).value)
  {
    hide Pruned, SetFlag, AdmitOperator, SetOperator;
    match call.op
    case OpSetOperator(operator, active, nonce) => SetOperatorKeeps(r, call.env, operator, active, nonce);
    case OpHeartbeat(operator, nonce) =>
    case OpSetMax(cap) =>
    case OpPrune => PruneIsExact(r, call.env.ledger);
  }

  lemma {:induction false} RunKeeps(r: Registry, calls: seq<Call>)
    requires RegistryOk(r)
    ensures RegistryOk(Run(r, calls))
    decreases |calls|
  {
    hide RegistryOk, Step;
    if calls != [] {
      if Step(r, calls[0]).Ok? { StepKeeps(r, calls[0]); }
      RunKeeps(Next(r, calls[0]), calls[1..]);
    }
  }

  /** After any calls: the list is duplicate-free and holds exactly the active operators, the count is
      its length, and a non-zero cap is never exceeded. */
  lemma RegistryOverRuns(calls: seq<Call>)
    ensures var r := Run(EMPTY, calls);
      && Distinct(r.list)
      && (forall a :: a in r.list <==> r.Active(a))
      && r.count == |r.list|
      && (r.cap > 0 ==> r.count <= r.cap)
  {
    hide Step;
    RunKeeps(EMPTY, calls);
  }

  /** Some calls lead to the registry. */
  ghost predicate IsReachable(r: Registry) { exists calls: seq<Call> :: r == Run(EMPTY, calls) }

  lemma {:induction false} RunOneMore(r: Registry, calls: seq<Call>, last: Call)
    ensures Run(r, calls + [last]) == Next(Run(r, calls), last)
    decreases |calls|
  {
    hide Step;
    if calls == [] {
      assert [] + [last] == [last];
    } else {
      RunOneMore(Next(r, calls[0]), calls[1..], last);
      assert (calls + [last])[1..] == calls[1..] + [last];
    }
  }

  lemma StepIsReachable(r: Registry, call: Call)
    requires IsReachable(r)
    ensures IsReachable(Next(r, call))
  {
    hide Step;
    var calls: seq<Call> :| r == Run(EMPTY, calls);
    RunOneMore(EMPTY, calls, call);
  }

  /** An operator stops being one only by the administrator's decision or for a stale heartbeat, and
      becomes one only by the administrator's decision. */
  lemma ChangesAreJustified(r: Registry, call: Call, a: Address)
    requires RegistryOk(r) && Step(r, call).Ok?
    ensures var r' := Step(r, call).value;
      && (r.Active(a) && !r'.Active(a) ==>
            && Admin(call.env).Ok?
            && (r.Stale(a, call.env.ledger)
                || (call.op.OpSetOperator? && call.op.operator == a && !call.op.active)))
      && (!r.Active(a) && r'.Active(a) ==>
            Admin(call.env).Ok? && call.op.OpSetOperator? && call.op.operator == a && call.op.active)
  {
    hide Pruned, SetFlag, SpendNonce;
    match call.op
    case OpSetOperator(operator, active, nonce) => SetOperatorKeeps(r, call.env, operator, active, nonce);
    case OpHeartbeat(operator, nonce) =>
    case OpSetMax(cap) =>
    case OpPrune => PruneIsExact(r, call.env.ledger);
  }

  // ---- nonces ----

  /** The call names this operator and this nonce. */
  predicate Uses(op: Op, a: Address, nonce: nat) {
    (op.OpSetOperator? || op.OpHeartbeat?) && op.operator == a && op.nonce == nonce
  }

  lemma NonceSteps(r: Registry, call: Call, a: Address)
    requires Step(r, call).Ok?
    ensures GetOr(r.nonces, a, 0) <= GetOr(Step(r, call).value.nonces, a, 0)
    ensures forall nonce: nat :: Uses(call.op, a, nonce) ==>
      nonce == GetOr(r.nonces, a, 0) && GetOr(Step(r, call).value.nonces, a, 0) == nonce + 1
  {
    hide AdmitOperator, Filter;
  }

  lemma {:induction false} NoncesGrow(r: Registry, calls: seq<Call>, a: Address)
    ensures GetOr(r.nonces, a, 0) <= GetOr(Run(r, calls).nonces, a, 0)
    decreases |calls|
  {
    hide Step;
    if calls != [] {
      if Step(r, calls[0]).Ok? { NonceSteps(r, calls[0], a); }
      NoncesGrow(Next(r, calls[0]), calls[1..], a);
    }
  }

  /** A call accepted once is never accepted again, whatever happens in between. */
  lemma NoReplay(r: Registry, first: Call, between: seq<Call>, second: Call, a: Address, nonce: nat)
    requires Uses(first.op, a, nonce) && Uses(second.op, a, nonce)
    requires Step(r, first).Ok?
    ensures Step(Run(Next(r, first), between), second).Err?
  {
    hide Step, Run;
    NonceSteps(r, first, a);
    NoncesGrow(Next(r, first), between, a);
    var later := Run(Next(r, first), between);
    if Step(later, second).Ok? { NonceSteps(later, second, a); }
  }
}
