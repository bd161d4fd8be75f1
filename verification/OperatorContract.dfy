/** The operator entry points of the contract: storage cells updated in place, the loops over the list,
    and the host's rollback. Each does exactly what module Operators says. */
module OperatorContract {
  import opened Prelude
  import opened Lists
  import opened Operators

  class OperatorRegistry {
    var flags: map<Address, bool>
    var list: seq<Address>
    var count: nat
    var cap: nat
    var heartbeats: map<Address, nat>
    var nonces: map<Address, nat>

    ghost function Abs(): Registry
      reads this
    {
      Registry(flags, list, count, cap, heartbeats, nonces)
    }

    /** Calls from the start lead to the cells. */
    ghost predicate Valid()
      reads this
    {
      IsReachable(Abs())
    }

    constructor ()
      ensures Valid() && Abs() == EMPTY
    {
      flags, list, count, cap, heartbeats, nonces := map[], [], 0, 0, map[], map[];
      new;
      assert Abs() == Run(EMPTY, []);
    }

    method ValidateAndIncrementNonce(a: Address, nonce: nat) returns (r: Result<()>)
      modifies `nonces
      ensures var spec := SpendNonce(old(nonces), a, nonce);
        if spec.Ok? then r == Ok(()) && nonces == spec.value else r == Err(spec.error) && nonces == old(nonces)
    {
      var current := if a in nonces then nonces[a] else 0;
      if nonce != current {
        if nonce < current { return Err(StaleNonce); } else { return Err(InvalidNonce); }
      }
      if current + 1 > U64_MAX { return Err(HostAbort); }
      nonces := nonces[a := current + 1];
      return Ok(());
    }

    /** One operator of the list: cleared when stale, kept when active. */
    method PruneOne(a: Address, ledger: nat, retained: seq<Address>) returns (kept: seq<Address>)
      modifies `flags
      ensures var active, stale := GetOr(old(flags), a, false), Overdue(heartbeats, a, ledger);
        && flags == (if active && stale then old(flags)[a := false] else old(flags))
        && kept == if active && !stale then retained + [a] else retained
    {
      kept := retained;
      if a in flags && flags[a] {
        var last := if a in heartbeats then Some(heartbeats[a]) else None;
        if last.Some? && Max(ledger - last.value, 0) > INACTIVITY_THRESHOLD {
          flags := flags[a := false];
        } else {
          kept := retained + [a];
        }
      }
    }

    /** Walks the list once, clearing the flags of the stale and collecting the rest. */
    method PruneInactiveOperatorsInternal(ledger: nat)
      modifies `flags, `list, `count
      ensures Abs() == Pruned(old(Abs()), ledger)
    {
      var operators := list;
      var retained: seq<Address> := [];
      ghost var was := Abs();
      ghost var keep := was.Stays(ledger);
      assert retained == Filter(operators[..0], keep) && flags == Cleared(was, operators[..0], ledger);
      hide Filter, Cleared, Overdue;
      for i := 0 to |operators|
        invariant retained == Filter(operators[..i], keep)
        invariant flags == Cleared(was, operators[..i], ledger)
      {
        ClearedStep(was, i, ledger);
        FilterStep(operators, i, keep);
        retained := PruneOne(operators[i], ledger, retained);
      }
      assert operators[..|operators|] == operators;
      list := retained;
      count := |retained|;
    }

    method RemoveOperatorFromList(operators: seq<Address>, target: Address) returns (filtered: seq<Address>)
      ensures filtered == Filter(operators, a => a != target)
    {
      filtered := [];
      ghost var keep := (a: Address) => a != target;
      for i := 0 to |operators|
        invariant filtered == Filter(operators[..i], keep)
      {
        FilterStep(operators, i, keep);
        if operators[i] != target { filtered := filtered + [operators[i]]; }
      }
      assert operators[..|operators|] == operators;
    }

    /** As the code runs, without the host's rollback: on failure the nonce is spent and the list pruned. */
    method SetOperatorBody(env: Env, operator: Address, active: bool, nonce: nat) returns (r: Result<()>)
      modifies `flags, `list, `count, `nonces
      ensures var spec := Operators.SetOperator(old(Abs()), env, operator, active, nonce);
        if spec.Ok? then r == Ok(()) && Abs() == spec.value else r == Err(spec.error)
    {
      hide Pruned, Filter;
      if env.admin == None { return Err(NotInitialized); }
      if env.admin.value !in env.signed { return Err(HostAbort); }
      if env.slippage > MAX_BPS { return Err(SlippageTooHigh); }
      if operator == env.admin.value { return Err(NotAllowed); }
      if operator == env.self { return Err(InvalidRecipient); }
      var spent := ValidateAndIncrementNonce(operator, nonce);
      if spent.Err? { return spent; }
      PruneInactiveOperatorsInternal(env.ledger);
      var wasActive := if operator in flags then flags[operator] else false;
      if !active && !wasActive { return Err(NotOperator); }
      var operators := list;
      if active && !wasActive && cap > 0 && |operators| >= cap { return Err(OperatorCapReached); }
      flags := flags[operator := active];
      if active {
        if !wasActive { operators := operators + [operator]; }
      } else if wasActive {
        operators := RemoveOperatorFromList(operators, operator);
      }
      list := operators;
      count := |operators|;
      return Ok(());
    }

    method SetOperator(env: Env, operator: Address, active: bool, nonce: nat) returns (r: Result<()>)
      requires Valid()
      modifies `flags, `list, `count, `nonces
      ensures Valid()
      ensures var spec := Operators.SetOperator(old(Abs()), env, operator, active, nonce);
        if spec.Ok? then r == Ok(()) && Abs() == spec.value else r == Err(spec.error) && Abs() == old(Abs())
    {
      hide IsReachable;
      StepIsReachable(Abs(), Call(env, OpSetOperator(operator, active, nonce)));
      hide Operators.SetOperator;
      var flags0, list0, count0, nonces0 := flags, list, count, nonces;
      r := SetOperatorBody(env, operator, active, nonce);
      if r.Err? { flags, list, count, nonces := flags0, list0, count0, nonces0; }
    }

    method SetMaxOperators(env: Env, max: nat) returns (r: Result<()>)
      requires Valid()
      modifies `cap
      ensures Valid()
      ensures var spec := Operators.SetMaxOperators(old(Abs()), env, max);
        if spec.Ok? then r == Ok(()) && Abs() == spec.value else r == Err(spec.error) && Abs() == old(Abs())
    {
      hide IsReachable;
      StepIsReachable(Abs(), Call(env, OpSetMax(max)));
      if env.admin == None { return Err(NotInitialized); }
      if env.admin.value !in env.signed { return Err(HostAbort); }
      if max > 0 && count > max { return Err(ExceedsLimit); }
      cap := max;
      return Ok(());
    }

    method Heartbeat(env: Env, operator: Address, nonce: nat) returns (r: Result<()>)
      requires Valid()
      modifies `heartbeats, `nonces
      ensures Valid()
      ensures var spec := Operators.Heartbeat(old(Abs()), env, operator, nonce);
        if spec.Ok? then r == Ok(()) && Abs() == spec.value else r == Err(spec.error) && Abs() == old(Abs())
    {
      hide IsReachable;
      StepIsReachable(Abs(), Call(env, OpHeartbeat(operator, nonce)));
      if operator !in env.signed { return Err(HostAbort); }
      if !env.clear { return Err(CircuitBreakerActive); }
      if !(operator in flags && flags[operator]) { return Err(NotOperator); }
      var spent := ValidateAndIncrementNonce(operator, nonce);
      if spent.Err? { return spent; }
      heartbeats := heartbeats[operator := env.ledger];
      return Ok(());
    }

    method PruneInactiveOperators(env: Env) returns (r: Result<()>)
      requires Valid()
      modifies `flags, `list, `count
      ensures Valid()
      ensures var spec := PruneInactive(old(Abs()), env);
        if spec.Ok? then r == Ok(()) && Abs() == spec.value else r == Err(spec.error) && Abs() == old(Abs())
    {
      hide IsReachable;
      StepIsReachable(Abs(), Call(env, OpPrune));
      if env.admin == None { return Err(NotInitialized); }
      if env.admin.value !in env.signed { return Err(HostAbort); }
      PruneInactiveOperatorsInternal(env.ledger);
      return Ok(());
    }

    /** `is_operator`: whether the list, which has no repetitions and respects the cap, names the address. */
    method IsOperator(a: Address) returns (r: bool)
      requires Valid()
      ensures r <==> a in list
      ensures Distinct(list) && count == |list| && (cap > 0 ==> |list| <= cap)
    {
      ghost var calls: seq<Call> :| Abs() == Run(EMPTY, calls);
      RegistryOverRuns(calls);
      assert Abs().Active(a) <==> a in list;
      r := if a in flags then flags[a] else false;
    }
  }
}
