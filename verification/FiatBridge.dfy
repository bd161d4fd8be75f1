/** The entry points as methods on storage cells updated in place, with the order of checks and writes
    of the original, the loops that rescan the queue, and the host's rollback on failure. Each is proved
    to be a step of the state machine of module Escrow, so that what holds in every reachable state
    holds between any two calls. */
module FiatBridgeContract {
  import opened Prelude
  import opened Sums
  import opened Windows
  import CB = CircuitBreaker
  import FixedPoint
  import Slippage
  import opened Escrow
  import opened QueueIndex
  import opened Accounting
  import opened Reachable
  import Admission
  import Governance

  // ---- the contents of the storage cells, in groups ----

  datatype Roles = Roles(
    schemaVersion: Option<nat>, initNonces: map<Address, nat>, admin: Option<Address>,
    pendingAdmin: Option<(Address, nat)>, renounceAt: Option<nat>, cfg: Config)

  datatype Limits = Limits(
    nonces: map<Address, nat>, quotaUsed: map<Address, Window>, dailyDeposits: map<(Address, Address), Window>,
    fiatVolume: map<Address, Window>, breaker: CB.Breaker, feeVault: map<Address, int>)

  datatype Stamps = Stamps(lastDeposit: map<Address, nat>, lastLarge: map<Address, nat>)

  datatype Queue = Queue(queue: map<nat, Request>, nextId: nat, index: Index)

  datatype Storage = Storage(roles: Roles, books: Books, limits: Limits, stamps: Stamps, queue: Queue)

  function StateOf(self: Address, token: Address, k: Storage, now: nat, history: seq<Event>): State {
    State(self, token, k.roles.schemaVersion, k.roles.initNonces, k.roles.admin, k.roles.pendingAdmin,
          k.roles.renounceAt, k.roles.cfg,
          k.books.registry, k.books.balances, k.books.receipts, k.books.receiptIndex, k.books.receiptCounter,
          k.books.userDeposited, k.stamps.lastDeposit, k.stamps.lastLarge, k.queue.queue, k.queue.nextId,
          k.limits.nonces, k.limits.quotaUsed, k.limits.dailyDeposits, k.limits.fiatVolume, k.limits.breaker,
          k.limits.feeVault, now, history)
  }

  ghost predicate QueueIndexed(k: Storage) { IndexOk(k.queue.index, k.queue.queue, k.queue.nextId) }

  class FiatBridge {
    const self: Address
    const token: Address

    var schemaVersion: Option<nat>
    var initNonces: map<Address, nat>
    var admin: Option<Address>
    var pendingAdmin: Option<(Address, nat)>
    var renounceAt: Option<nat>
    var cfg: Config
    var registry: map<Address, TokenConfig>
    var balances: Balances  // kept by the token contracts
    var receipts: map<ReceiptId, Receipt>
    var receiptIndex: map<nat, ReceiptId>
    var receiptCounter: nat
    var userDeposited: map<Address, int>
    var lastDeposit: map<Address, nat>
    var lastLarge: map<Address, nat>
    var queue: map<nat, Request>
    var nextId: nat
    var queueLen: nat
    var queueHead: Option<nat>
    var tierLen: map<nat, int>
    var tierHead: map<nat, Option<nat>>
    var nonces: map<Address, nat>
    var quotaUsed: map<Address, Window>
    var dailyDeposits: map<(Address, Address), Window>
    var fiatVolume: map<Address, Window>
    var breaker: CB.Breaker
    var feeVault: map<Address, int>

    ghost var now: nat
    ghost var history: seq<Event>

    /** The state of the state machine: everything but the derived queue indexes. */
    ghost function Abs(): State
      reads this
    {
      State(self, token, schemaVersion, initNonces, admin, pendingAdmin, renounceAt, cfg, registry, balances,
            receipts, receiptIndex, receiptCounter, userDeposited, lastDeposit, lastLarge, queue, nextId,
            nonces, quotaUsed, dailyDeposits, fiatVolume, breaker, feeVault, now, history)
    }

    function Idx(): Index
      reads this`queueLen, this`queueHead, this`tierLen, this`tierHead
    {
      Index(queueLen, queueHead, tierLen, tierHead)
    }

    function RoleCells(): Roles
      reads this`schemaVersion, this`initNonces, this`admin, this`pendingAdmin, this`renounceAt, this`cfg
    {
      Roles(schemaVersion, initNonces, admin, pendingAdmin, renounceAt, cfg)
    }

    function Ledger(): Books
      reads this`registry, this`balances, this`receipts, this`receiptIndex, this`receiptCounter, this`userDeposited
    {
      Books(registry, balances, receipts, receiptIndex, receiptCounter, userDeposited)
    }

    function LimitCells(): Limits
      reads this`nonces, this`quotaUsed, this`dailyDeposits, this`fiatVolume, this`breaker, this`feeVault
    {
      Limits(nonces, quotaUsed, dailyDeposits, fiatVolume, breaker, feeVault)
    }

    function StampCells(): Stamps
      reads this`lastDeposit, this`lastLarge
    {
      Stamps(lastDeposit, lastLarge)
    }

    function QueueCells(): Queue
      reads this`queue, this`nextId, this`queueLen, this`queueHead, this`tierLen, this`tierHead
    {
      Queue(queue, nextId, Idx())
    }

    function Cells(): Storage
      reads this
    {
      Storage(RoleCells(), Ledger(), LimitCells(), StampCells(), QueueCells())
    }

    lemma AbsOfCells()
      ensures Abs() == StateOf(self, token, Cells(), now, history) && Abs().now == now && Abs().history == history
      ensures Indexed() <==> QueueIndexed(Cells())
    {
      hide IndexOk;
    }

    /** The queue indexes agree with the queue. */
    ghost predicate Indexed()
      reads this`queue, this`nextId, this`queueLen, this`queueHead, this`tierLen, this`tierHead
    {
      IndexOk(Idx(), queue, nextId)
    }

    /** A run of the state machine leads to this state, and the queue is indexed. */
    ghost predicate Valid()
      reads this
    {
      Indexed() && IsReachable(Abs())
    }

    constructor (self: Address, env: Env, admin: Address, token: Address, limit: I128, minDeposit: I128)
      requires Init(self, env, admin, token, limit, minDeposit).Ok?
      ensures Valid()
      ensures Abs() == Init(self, env, admin, token, limit, minDeposit).value
    {
      hide Init, IsReachable, IndexOk;
      this.self, this.token := self, token;
      schemaVersion, initNonces := Some(1), map[admin := 0];
      this.admin, pendingAdmin, renounceAt := Some(admin), None, None;
      cfg := Blank(self, token).cfg.(minDeposit := minDeposit);
      registry, balances := map[token := TokenConfig(limit, 0, 0, 0, 0)], map[];
      receipts, receiptIndex, receiptCounter := map[], map[], 0;
      userDeposited, lastDeposit, lastLarge := map[], map[], map[];
      queue, nextId, nonces := map[], 0, map[];
      queueLen, queueHead, tierLen, tierHead := 0, None, map[], map[];
      quotaUsed, dailyDeposits, fiatVolume := map[], map[], map[];
      breaker, feeVault := CB.Breaker(None, false, 0), map[];
      now, history := env.ledger, [];
      new;
      EmptyIndex();
      InitialState(self, env, admin, token, limit, minDeposit);
      InitIsReachable(self, env, admin, token, limit, minDeposit);
    }

    /** `init` on a contract that has been initialized: refused for good, with or without an administrator. */
    method InitializeAgain(env: Env, a: Address, t: Address, limit: I128, minDeposit: I128, nonce: nat)
      returns (r: Result<()>)
      requires Valid() && env.ledger >= now
      ensures r.Err? && Performs(Abs(), Call(env, OpInit(a, t, limit, minDeposit, nonce)), r, Abs())
    {
      hide IsReachable, CountersOk, BalanceOk, QueueOk, ReceiptsOk, LimitsOk;
      ReachableIsInOrder(Abs());
      if a !in env.signers { return Err(HostAbort); }
      var current := GetOr(initNonces, a, 0);
      if nonce != current { return Err(if nonce < current then StaleNonce else InvalidNonce); }
      if current + 1 > U64_MAX { return Err(Overflow); }
      if admin.Some? || schemaVersion.Some? { return Err(AlreadyInitialized); }
      assert false;
    }

    /** `get_init_nonce`: zero for everybody, although `init` counts it up on its way. */
    method GetInitNonce(a: Address) returns (r: nat)
      requires Valid()
      ensures r == 0
    {
      hide Run;
      InitNoncesAreZero(Abs(), a);
      r := GetOr(initNonces, a, 0);
    }

    // ---- the host ----

    method RestoreRoles(k: Roles)
      modifies this`schemaVersion, this`initNonces, this`admin, this`pendingAdmin, this`renounceAt, this`cfg
      ensures RoleCells() == k
    {
      schemaVersion, initNonces, admin := k.schemaVersion, k.initNonces, k.admin;
      pendingAdmin, renounceAt, cfg := k.pendingAdmin, k.renounceAt, k.cfg;
    }

    method RestoreLedger(k: Books)
      modifies this`balances, this`receipts, this`receiptIndex, this`receiptCounter, this`registry, this`userDeposited
      ensures Ledger() == k
    {
      registry, balances, receipts := k.registry, k.balances, k.receipts;
      receiptIndex, receiptCounter, userDeposited := k.receiptIndex, k.receiptCounter, k.userDeposited;
    }

    method RestoreLimits(k: Limits)
      modifies this`nonces, this`quotaUsed, this`dailyDeposits, this`fiatVolume, this`breaker, this`feeVault
      ensures LimitCells() == k
    {
      nonces, quotaUsed, dailyDeposits := k.nonces, k.quotaUsed, k.dailyDeposits;
      fiatVolume, breaker, feeVault := k.fiatVolume, k.breaker, k.feeVault;
    }

    method RestoreStamps(k: Stamps)
      modifies this`lastDeposit, this`lastLarge
      ensures StampCells() == k
    {
      lastDeposit, lastLarge := k.lastDeposit, k.lastLarge;
    }

    method RestoreQueue(k: Queue)
      modifies this`queue, this`nextId, this`queueLen, this`queueHead, this`tierLen, this`tierHead
      ensures QueueCells() == k
    {
      queue, nextId := k.queue, k.nextId;
      queueLen, queueHead, tierLen, tierHead := k.index.len, k.index.head, k.index.tierLen, k.index.tierHead;
    }

    method RollBack(saved: Storage, ghost h: seq<Event>)
      modifies this
      ensures Cells() == saved && history == h && now == old(now)
    {
      hide Ledger, LimitCells, StampCells, QueueCells, Idx;
      RollBackMoney(saved);
      RestoreRoles(saved.roles);
      RestoreQueue(saved.queue);
      history := h;
    }

    method RollBackMoney(saved: Storage)
      modifies this`balances, this`receipts, this`receiptIndex, this`receiptCounter, this`registry, this`userDeposited,
               this`nonces, this`quotaUsed, this`dailyDeposits, this`fiatVolume, this`breaker, this`feeVault,
               this`lastDeposit, this`lastLarge
      ensures Ledger() == saved.books && LimitCells() == saved.limits && StampCells() == saved.stamps
    {
      hide Ledger, LimitCells, StampCells;
      RestoreLedger(saved.books);
      RestoreLimits(saved.limits);
      RestoreStamps(saved.stamps);
    }

    method Commit(env: Env)
      modifies this`now
      ensures Abs() == old(Abs()).(now := env.ledger) && (old(Indexed()) ==> Indexed())
    {
      now := env.ledger;
    }

    /** What the host does when a call returns: it keeps all writes of the call or undoes them all. */
    method Conclude<T>(env: Env, ghost s: State, ghost op: Op, r: Result<T>, saved: Storage)
      requires IsReachable(s) && env.ledger >= now && now == s.now && s == StateOf(self, token, saved, s.now, s.history)
      requires if r.Ok? then Apply(s, env, op) == Ok(Abs()) else Apply(s, env, op) == Err(r.error)
      requires if r.Ok? then Indexed() else QueueIndexed(saved)
      modifies this
      ensures Valid() && Performs(s, Call(env, op), r, Abs())
      ensures r.Err? ==> Cells() == saved
    {
      hide Apply, IsReachable, StateOf, QueueIndexed, Indexed, Abs, Cells;
      if r.Ok? {
        Commit(env);
      } else {
        RollBack(saved, s.history);
        AbsOfCells();
      }
      Concludes(s, env, op, r, Abs());
    }

    // ---- checks and limits ----

    method TransferTokens(t: Address, from: Address, to: Address, amount: nat) returns (r: Result<()>)
      modifies this`balances
      ensures var spec := Transfer(old(balances), t, from, to, amount);
        if spec.Ok? then r == Ok(()) && balances == spec.value else r == Err(spec.error) && balances == old(balances)
    {
      var held := Balance(balances, t, from);
      if held < amount { return Err(HostAbort); }
      balances := balances[(t, from) := held - amount];
      balances := balances[(t, to) := Balance(balances, t, to) + amount];
      return Ok(());
    }

    method EnforceWithdrawalQuota(env: Env, user: Address, amount: int) returns (r: Result<()>)
      modifies this`quotaUsed
      ensures var spec := ChargeQuota(Find(old(quotaUsed), user), cfg.quota, env.ledger, amount);
        if spec.Ok? then r == Ok(()) && quotaUsed == Store(old(quotaUsed), user, spec.value) else r == Err(spec.error)
    {
      if cfg.quota <= 0 { return Ok(()); }
      var curr := env.ledger;
      var record := if user in quotaUsed then quotaUsed[user] else Window(0, curr);
      if record.start + WINDOW_LEDGERS > U32_MAX { return Err(HostAbort); }
      if curr >= record.start + WINDOW_LEDGERS {
        record := Window(0, curr);
      }
      if !FitsI128(record.amount + amount) { return Err(HostAbort); }
      if record.amount + amount > cfg.quota { return Err(WithdrawalQuotaExceeded); }
      record := record.(amount := record.amount + amount);
      quotaUsed := quotaUsed[user := record];
      return Ok(());
    }

    method EnforceDailyDepositLimit(env: Env, depositor: Address, t: Address, amount: int, limit: int)
      returns (r: Result<()>)
      modifies this`dailyDeposits
      ensures var spec := ChargeDaily(Find(old(dailyDeposits), (depositor, t)), limit, env.ledger, amount);
        if spec.Ok? then r == Ok(()) && dailyDeposits == Store(old(dailyDeposits), (depositor, t), spec.value)
        else r == Err(spec.error)
    {
      if limit <= 0 { return Ok(()); }
      var curr := env.ledger;
      var key := (depositor, t);
      var record := if key in dailyDeposits then dailyDeposits[key] else Window(0, curr);
      if curr >= SaturateU32(record.start + WINDOW_LEDGERS) {
        record := Window(0, curr);
      }
      if SaturateI128(record.amount + amount) > limit { return Err(DailyLimitExceeded); }
      if !FitsI128(record.amount + amount) { return Err(HostAbort); }
      dailyDeposits := dailyDeposits[key := record.(amount := record.amount + amount)];
      return Ok(());
    }

    method ValidateFiatLimit(env: Env, depositor: Address, amount: I128) returns (r: Result<I128>)
      modifies this`fiatVolume
      ensures var spec := ValidateFiat(old(Abs()), env, depositor, amount);
        if spec.Ok? then r == Ok(spec.value.1) && fiatVolume == spec.value.0 else r == Err(spec.error)
    {
      if cfg.oracle == None && cfg.fiatLimit == None { return Ok(0); }
      if cfg.oracle == None { return Err(OracleNotSet); }
      var price: I128 := if env.price.Some? then env.price.value else 0;
      if price <= 0 { return Err(OraclePriceInvalid); }
      if cfg.fiatLimit.Some? {
        var cents := FixedPoint.CheckedMulDivFloor(amount, price, CENTS_DIVISOR);
        if cents.Err? { return Err(HostAbort); }
        var curr := env.ledger;
        var vol := if depositor in fiatVolume then fiatVolume[depositor] else Window(0, curr);
        if vol.start + WINDOW_LEDGERS > U32_MAX { return Err(HostAbort); }
        if curr >= vol.start + WINDOW_LEDGERS {
          vol := Window(0, curr);
        }
        if !FitsI128(vol.amount + cents.value) { return Err(HostAbort); }
        if vol.amount + cents.value > cfg.fiatLimit.value { return Err(ExceedsFiatLimit); }
        fiatVolume := fiatVolume[depositor := vol.(amount := vol.amount + cents.value)];
      }
      return Ok(price);
    }

    method CheckAndUpdateCircuitBreaker(env: Env, amount: int) returns (r: Result<()>)
      modifies this`breaker
      ensures var spec := CB.ChargeBreaker(old(breaker), cfg.breakerThreshold, cfg.breakerWindow, env.ledger, amount);
        if spec.Ok? then r == Ok(()) && breaker == spec.value else r == Err(spec.error)
    {
      if cfg.breakerThreshold <= 0 { return Ok(()); }
      var curr := env.ledger;
      if breaker.tripped {
        if cfg.breakerWindow != U32_MAX && curr > SaturateU32(breaker.trippedAt + cfg.breakerWindow) {
          breaker := breaker.(tripped := false, volume := Some(Window(0, curr)));
        } else {
          return Err(CircuitBreakerActive);
        }
      }
      var vol := if breaker.volume.Some? then breaker.volume.value else Window(0, curr);
      if vol.start + WINDOW_LEDGERS > U32_MAX { return Err(HostAbort); }
      if curr >= vol.start + WINDOW_LEDGERS {
        vol := Window(0, curr);
      }
      if !FitsI128(vol.amount + amount) { return Err(HostAbort); }
      vol := vol.(amount := vol.amount + amount);
      breaker := breaker.(volume := Some(vol));
      if vol.amount >= cfg.breakerThreshold {
        breaker := breaker.(tripped := true, trippedAt := curr);
      }
      return Ok(());
    }

    /** Quota, then breaker, as both payout paths call them. */
    method ChargeBoth(env: Env, to: Address, amount: int) returns (r: Result<()>)
      modifies this`quotaUsed, this`breaker
      ensures var spec := ChargeLimits(old(Abs()), env, to, amount);
        if spec.Ok? then r == Ok(()) && (quotaUsed, breaker) == spec.value else r == Err(spec.error)
    {
      var q := EnforceWithdrawalQuota(env, to, amount);
      if q.Err? { return q; }
      r := CheckAndUpdateCircuitBreaker(env, amount);
    }

    method RequireAdminAuth(env: Env) returns (r: Result<Address>)
      ensures r == RequireAdmin(Abs(), env)
    {
      if admin == None { return Err(NotInitialized); }
      if admin.value !in env.signers || admin.value == self { return Err(HostAbort); }
      return Ok(admin.value);
    }

    method CheckBooks(t: Address) returns (r: Result<()>)
      ensures r == CheckInvariants(registry, t, Balance(balances, t, self))
      ensures r.Ok? ==> r == Ok(())
    {
      if t !in registry { return Err(NotInitialized); }
      var config := registry[t];
      var balance := Balance(balances, t, self);
      if config.totalDeposited < config.totalWithdrawn { return Err(InternalError); }
      var net := config.totalDeposited - config.totalWithdrawn;
      if !FitsI128(net) { return Err(HostAbort); }
      if net < config.totalLiabilities { return Err(InternalError); }
      if balance < net { return Err(InsufficientFunds); }
      return Ok(());
    }

    // ---- the queue heads ----

    /** After the removal of the head: the next live id, found by rescanning the ids above it. */
    method AdvanceWithdrawQueueHead(removed: nat)
      requires removed !in queue && queueLen == |queue|
      requires forall id :: id in queue ==> id < nextId
      requires IsHead(queueHead, queue.Keys + {removed})
      modifies this`queueHead
      ensures IsHead(queueHead, queue.Keys)
    {
      if queueHead != Some(removed) { return; }
      if queueLen == 0 {
        queueHead := None;
        return;
      }
      ghost var live :| live in queue;
      var i := removed + 1;
      while i < nextId
        invariant removed < i
        invariant forall id :: id in queue ==> i <= id
        decreases nextId - i
      {
        if i in queue {
          queueHead := Some(i);
          return;
        }
        i := i + 1;
      }
      // the code falls through to storing None here, which a non-empty queue never reaches
      assert false;
    }

    method AdvanceTierQueueHead(tier: nat, removed: nat)
      requires removed !in queue && GetOr(tierLen, tier, 0) == |Tier(queue, tier)|
      requires forall id :: id in queue ==> id < nextId
      requires IsHead(GetOr(tierHead, tier, None), Tier(queue, tier) + {removed})
      modifies this`tierHead
      ensures IsHead(GetOr(tierHead, tier, None), Tier(queue, tier))
      ensures forall u: nat :: u != tier ==> GetOr(tierHead, u, None) == GetOr(old(tierHead), u, None)
    {
      if GetOr(tierHead, tier, None) != Some(removed) { return; }
      if GetOr(tierLen, tier, 0) == 0 {
        tierHead := tierHead[tier := None];
        return;
      }
      assert Tier(queue, tier) != {};
      ghost var live :| live in Tier(queue, tier);
      var i := removed + 1;
      while i < nextId
        invariant removed < i && tierHead == old(tierHead)
        invariant forall id :: id in Tier(queue, tier) ==> i <= id
        decreases nextId - i
      {
        if i in queue && queue[i].riskTier == tier {
          tierHead := tierHead[tier := Some(i)];
          return;
        }
        i := i + 1;
      }
      // as above: a non-empty tier never gets here
      assert false;
    }

    /** The bookkeeping of every path that takes a request out of the queue. */
    method RemoveFromQueue(id: nat)
      requires id in queue && IndexOk(Idx(), queue, nextId)
      modifies this`queue, this`queueLen, this`queueHead, this`tierLen, this`tierHead
      ensures queue == old(queue) - {id}
      ensures IndexOk(Idx(), queue, nextId)
    {
      var tier := queue[id].riskTier;
      RemoveKeepsLengths(Idx(), queue, nextId, id);
      ghost var before := Idx();
      queue := queue - {id};
      if queueLen > 0 { queueLen := queueLen - 1; }
      AdvanceWithdrawQueueHead(id);
      if GetOr(tierLen, tier, 0) > 0 { tierLen := tierLen[tier := GetOr(tierLen, tier, 0) - 1]; }
      AdvanceTierQueueHead(tier, id);
      RemovalDone(before.(len := queueLen, tierLen := tierLen), Idx(), queue, nextId, id, tier);
    }

    /** `get_next_priority_withdrawal`: scans the tiers up to min(nextId, 256). */
    method GetNextPriorityWithdrawal() returns (r: Option<nat>)
      requires Valid()
      ensures IsNextPriority(queue, Min(nextId, 256), r)
    {
      hide IsReachable;
      var maxTier := Min(nextId, 256);
      var t := 0;
      while t <= maxTier
        invariant 0 <= t <= maxTier + 1
        invariant forall id :: id in queue ==> queue[id].riskTier >= t
      {
        assert TierOk(Idx(), queue, t);
        if GetOr(tierLen, t, 0) != 0 {
          var head := GetOr(tierHead, t, None);
          if head.Some? {
            forall id | id in queue && queue[id].riskTier == t
              ensures head.value <= id
            {
              assert id in Tier(queue, t);
            }
            return head;
          }
        }
        assert Tier(queue, t) == {};
        forall id | id in queue
          ensures queue[id].riskTier != t
        {
          assert id !in Tier(queue, t);
        }
        t := t + 1;
      }
      return None;
    }

    /** `get_wq_oldest_queued_ledger`: the ledger at which the oldest live request was queued. */
    method GetOldestQueuedLedger() returns (r: Option<nat>)
      requires Valid()
      ensures r == None <==> queue == map[]
      ensures r.Some? ==> (exists id :: id in queue && queue[id].queuedLedger == r.value)
                          && (forall id :: id in queue ==> r.value <= queue[id].queuedLedger)
    {
      hide IsReachable, CountersOk, BalanceOk, ReceiptsOk, LimitsOk;
      ReachableIsInOrder(Abs());
      if queueHead.Some? {
        HeadIsOldest(queue, queueHead.value);
        r := Some(queue[queueHead.value].queuedLedger);
      } else {
        r := None;
      }
    }

    // ---- what the books tell ----

    /** `get_wq_depth`: how many requests are live. */
    method GetQueueDepth() returns (r: nat)
      requires Valid()
      ensures r == |queue|
    {
      r := queueLen;
    }

    /** `get_total_liabilities`: what live requests still have coming, and no more than the net deposits. */
    method GetTotalLiabilities() returns (r: Result<int>)
      requires Valid()
      ensures token in registry && r == Ok(Owed(queue, token)) && 0 <= r.value <= registry[token].Net()
    {
      hide IsReachable, BalanceOk, QueueOk, ReceiptsOk, LimitsOk, Indexed;
      ReachableIsInOrder(Abs());
      if token !in registry { return Err(InternalError); }
      return Ok(registry[token].totalLiabilities);
    }

    /** `get_user_deposited`: what the receipts of that depositor add up to. */
    method GetUserDeposited(user: Address) returns (r: int)
      requires Valid()
      ensures r == MapSum(AmountsOf(receipts, user)) && 0 <= r
    {
      hide IsReachable, BalanceOk, QueueOk, CountersOk, LimitsOk, Indexed;
      ReachableIsInOrder(Abs());
      UserBelowTotal(receipts, receiptCounter, registry[token].totalDeposited, userDeposited, self, user);
      r := GetOr(userDeposited, user, 0);
      assert MapSum(AmountsOf(receipts, user)) == GetOr(userDeposited, user, 0);
    }

    // ---- payouts ----

    /** Moves the tokens of a payout, counts it and checks the books; `reserved` of it was owed to a
        request. */
    method PayOutTokens(t: Address, to: Address, amount: nat, reserved: nat) returns (r: Result<()>)
      modifies this`balances, this`registry
      ensures var spec := PayOut(old(registry), old(balances), self, t, to, amount, reserved);
        if spec.Ok? then r == Ok(()) && (registry, balances) == spec.value else r == Err(spec.error)
    {
      hide Transfer, Balance, CheckInvariants;
      r := TransferTokens(t, self, to, amount);
      if r.Err? { return; }
      if t !in registry { return Err(TokenNotWhitelisted); }
      var config := registry[t];
      if !FitsI128(config.totalWithdrawn + amount) { return Err(InternalError); }
      config := config.(totalWithdrawn := config.totalWithdrawn + amount);
      if !FitsI128(config.totalLiabilities - reserved) { return Err(HostAbort); }
      config := config.(totalLiabilities := config.totalLiabilities - reserved);
      registry := registry[t := config];
      r := CheckBooks(t);
    }

    method AdmitWithdraw(env: Env, caller: Address, to: Address, amount: int) returns (r: Result<()>)
      ensures r == AdmitWithdrawal(Abs(), env, caller, to, amount)
    {
      if admin == None { return Err(NotInitialized); }
      if caller != admin.value {
        if cfg.withdrawOperator != Some(caller) { return Err(Unauthorized); }
      }
      if caller !in env.signers || caller == self { return Err(HostAbort); }
      if cfg.paused { return Err(ContractPaused); }
      if amount <= 0 { return Err(ZeroAmount); }
      if to == self { return Err(InvalidRecipient); }
      return Ok(());
    }

    /** The body of `withdraw`; its writes are undone by the caller when it fails. */
    method WithdrawBody(env: Env, caller: Address, to: Address, amount: I128, t: Address) returns (r: Result<()>)
      modifies this`balances, this`registry, this`quotaUsed, this`breaker, this`history
      ensures r.Ok? ==> r == Ok(()) && Escrow.Withdraw(old(Abs()), env, caller, to, amount, t)
                          == Ok(old(Abs()).(balances := balances, registry := registry, quotaUsed := quotaUsed,
                                            breaker := breaker, history := history))
      ensures r.Err? ==> Escrow.Withdraw(old(Abs()), env, caller, to, amount, t) == Err(r.error)
    {
      hide AdmitWithdrawal, ChargeLimits, PayOut, Balance;
      ghost var s := Abs();
      r := AdmitWithdraw(env, caller, to, amount);
      if r.Err? { return; }
      AdmittedWithdrawal(s, env, caller, to, amount);
      r := ChargeBoth(env, to, amount);
      if r.Err? { return; }
      if to in cfg.denied { return Err(AddressDenied); }
      if amount > Balance(balances, t, self) { return Err(InsufficientFunds); }
      r := PayOutTokens(t, to, amount, 0);
      if r.Ok? { history := history + [Paid(env.ledger, t, to, amount)]; }
    }

    method TryWithdraw(env: Env, caller: Address, to: Address, amount: I128, t: Address) returns (r: Result<()>)
      modifies this`balances, this`registry, this`quotaUsed, this`breaker, this`history
      ensures r.Ok? ==> Escrow.Withdraw(old(Abs()), env, caller, to, amount, t) == Ok(Abs())
      ensures r.Err? ==> Escrow.Withdraw(old(Abs()), env, caller, to, amount, t) == Err(r.error)
    {
      hide Escrow.Withdraw, Indexed, Abs;
      r := WithdrawBody(env, caller, to, amount, t);
      OnlyPayoutCells();
    }

    // The lemmas named Only...Cells: when no other cell changed, the state is the old one with these fields replaced.

    twostate lemma OnlyPayoutCells()
      requires unchanged(this`schemaVersion, this`initNonces, this`admin, this`pendingAdmin, this`renounceAt,
                         this`cfg, this`receipts, this`receiptIndex, this`receiptCounter, this`userDeposited,
                         this`lastDeposit, this`lastLarge, this`queue, this`nextId, this`nonces, this`dailyDeposits,
                         this`fiatVolume, this`feeVault, this`now)
      ensures Abs() == old(Abs()).(registry := registry, balances := balances, quotaUsed := quotaUsed,
                                   breaker := breaker, history := history)
    {
    }

    method Withdraw(env: Env, caller: Address, to: Address, amount: I128, t: Address) returns (r: Result<()>)
      requires Valid() && env.ledger >= now
      modifies this
      ensures Valid() && Performs(old(Abs()), Call(env, OpWithdraw(caller, to, amount, t)), r, Abs())
      ensures r.Err? ==> Cells() == old(Cells())
    {
      hide Escrow.Withdraw, Step, Performs, IsReachable, Indexed, StateOf, QueueIndexed, Cells, Abs;
      ghost var s := Abs();
      var saved := Cells();
      AbsOfCells();
      r := TryWithdraw(env, caller, to, amount, t);
      Conclude(env, s, OpWithdraw(caller, to, amount, t), r, saved);
    }

    // ---- queued withdrawals ----

    method AdmitWithdrawalRequest(env: Env, to: Address, amount: int, memo: Option<Hash>) returns (r: Result<()>)
      ensures r == AdmitRequest(Abs(), env, to, amount, memo)
    {
      if memo == Some(0) { return Err(InvalidMemoHash); }
      var auth := RequireAdminAuth(env);
      if auth.Err? { return Err(auth.error); }
      if cfg.paused { return Err(ContractPaused); }
      if breaker.tripped
         && !(cfg.breakerWindow != U32_MAX && env.ledger > SaturateU32(breaker.trippedAt + cfg.breakerWindow)) {
        return Err(CircuitBreakerActive);
      }
      if amount <= 0 { return Err(ZeroAmount); }
      if to in cfg.denied { return Err(AddressDenied); }
      if cfg.withdrawCooldown > 0 && to in lastLarge {
        if env.ledger < SaturateU32(lastLarge[to] + cfg.withdrawCooldown) { return Err(CooldownActive); }
      }
      if env.ledger + cfg.lockPeriod > U32_MAX { return Err(HostAbort); }
      return Ok(());
    }

    /** Appends a request and updates the indexes. */
    method Enqueue(request: Request)
      requires Indexed()
      modifies this`queue, this`nextId, this`queueLen, this`queueHead, this`tierLen, this`tierHead
      ensures Indexed()
      ensures queue == old(queue)[old(nextId) := request] && nextId == old(nextId) + 1
    {
      hide IndexOk;
      EnqueueKeepsIndex(Idx(), queue, nextId, request);
      ghost var after := Enqueued(Idx(), nextId, request.riskTier);
      IndexNewId(nextId, request.riskTier);
      assert Idx() == after;
      queue := queue[nextId := request];
      nextId := nextId + 1;
    }

    /** The lengths go up by one, and an empty queue or tier gets its head. */
    method IndexNewId(id: nat, tier: nat)
      modifies this`queueLen, this`queueHead, this`tierLen, this`tierHead
      ensures Idx() == Enqueued(old(Idx()), id, tier)
    {
      if queueLen == 0 { queueHead := Some(id); }
      queueLen := queueLen + 1;
      var len := GetOr(tierLen, tier, 0);
      if len == 0 { tierHead := tierHead[tier := Some(id)]; }
      tierLen := tierLen[tier := len + 1];
    }

    method RequestBody(env: Env, to: Address, amount: I128, t: Address, memo: Option<Hash>, riskTier: U32)
      returns (r: Result<nat>)
      requires Indexed()
      modifies this`queue, this`nextId, this`queueLen, this`queueHead, this`tierLen, this`tierHead, this`registry
      ensures Indexed()
      ensures r.Ok? ==> Escrow.RequestWithdrawal(old(Abs()), env, to, amount, t, memo, riskTier)
                          == Ok((old(Abs()).(queue := queue, nextId := nextId, registry := registry), r.value))
      ensures r.Ok? ==> r.value == old(nextId)
      ensures r.Err? ==> Escrow.RequestWithdrawal(old(Abs()), env, to, amount, t, memo, riskTier) == Err(r.error)
    {
      hide AdmitRequest, Balance, CheckInvariants, IndexOk;
      var admitted := AdmitWithdrawalRequest(env, to, amount, memo);
      if admitted.Err? { return Err(admitted.error); }
      var id := nextId;
      if id + 1 > U64_MAX { return Err(HostAbort); }
      Enqueue(Request(to, t, amount, env.ledger + cfg.lockPeriod, memo, env.ledger, riskTier));
      // the queue is written before the remaining checks; on failure the host undoes it
      if t !in registry { return Err(TokenNotWhitelisted); }
      var config := registry[t];
      if !FitsI128(config.totalLiabilities + amount) { return Err(Overflow); }
      var liabilities := config.totalLiabilities + amount;
      if liabilities > SaturateI128(config.totalDeposited - config.totalWithdrawn)
          || amount > GetOr(userDeposited, to, 0) {
        return Err(InsufficientFunds);
      }
      registry := registry[t := config.(totalLiabilities := liabilities)];
      var books := CheckBooks(t);
      if books.Err? { return Err(books.error); }
      return Ok(id);
    }

    method TryRequestWithdrawal(env: Env, to: Address, amount: I128, t: Address, memo: Option<Hash>, riskTier: U32)
      returns (r: Result<nat>)
      requires Indexed()
      modifies this`queue, this`nextId, this`queueLen, this`queueHead, this`tierLen, this`tierHead, this`registry
      ensures Indexed()
      ensures r.Ok? ==> Escrow.RequestWithdrawal(old(Abs()), env, to, amount, t, memo, riskTier) == Ok((Abs(), r.value))
      ensures r.Err? ==> Escrow.RequestWithdrawal(old(Abs()), env, to, amount, t, memo, riskTier) == Err(r.error)
      ensures r.Ok? ==> r.value == old(nextId)
    {
      hide Escrow.RequestWithdrawal, Indexed, Abs;
      r := RequestBody(env, to, amount, t, memo, riskTier);
      OnlyRequestCells();
    }

    twostate lemma OnlyRequestCells()
      requires unchanged(this`schemaVersion, this`initNonces, this`admin, this`pendingAdmin, this`renounceAt,
                         this`cfg, this`balances, this`receipts, this`receiptIndex, this`receiptCounter,
                         this`userDeposited, this`lastDeposit, this`lastLarge, this`nonces, this`quotaUsed,
                         this`dailyDeposits, this`fiatVolume, this`breaker, this`feeVault, this`now, this`history)
      ensures Abs() == old(Abs()).(registry := registry, queue := queue, nextId := nextId)
    {
    }

    method RequestWithdrawal(env: Env, to: Address, amount: I128, t: Address, memo: Option<Hash>, riskTier: U32)
      returns (r: Result<nat>)
      requires Valid() && env.ledger >= now
      modifies this
      ensures Valid() && Performs(old(Abs()), Call(env, OpRequest(to, amount, t, memo, riskTier)), r, Abs())
      ensures r.Ok? ==> r.value == old(nextId)
      ensures r.Err? ==> Cells() == old(Cells())
    {
      hide Escrow.RequestWithdrawal, Step, Performs, IsReachable, Indexed, StateOf, QueueIndexed, Cells, Abs;
      ghost var s := Abs();
      var saved := Cells();
      AbsOfCells();
      r := TryRequestWithdrawal(env, to, amount, t, memo, riskTier);
      Conclude(env, s, OpRequest(to, amount, t, memo, riskTier), r, saved);
    }

    method AdmitExecute(env: Env, id: nat, partial: Option<I128>, nonce: nat) returns (r: Result<nat>)
      requires id in queue
      ensures r == AdmitExecution(Abs(), env, id, partial, nonce)
    {
      var request := queue[id];
      var current := GetOr(nonces, request.to, 0);
      if nonce != current {
        if nonce < current { return Err(StaleNonce); } else { return Err(InvalidNonce); }
      }
      if env.ledger < request.unlockLedger { return Err(WithdrawalLocked); }
      if cfg.antiSandwich > 0 && request.to in lastDeposit {
        if env.ledger < SaturateU32(lastDeposit[request.to] + cfg.antiSandwich) { return Err(AntiSandwichDelayActive); }
      }
      match partial {
        case Some(p) =>
          if p <= 0 || p > request.amount { return Err(ZeroAmount); }
          return Ok(p);
        case None =>
          if request.amount < 0 { return Err(HostAbort); }
          return Ok(request.amount);
      }
    }

    method CheckPrice(env: Env, expectedPrice: I128, maxSlippage: U32) returns (r: Result<()>)
      ensures r == CheckBenchmark(Abs(), env, expectedPrice, maxSlippage)
    {
      if expectedPrice <= 0 { return Ok(()); }
      if cfg.oracle == None { return Err(OracleNotSet); }
      var actual: I128 := if env.price.Some? then env.price.value else 0;
      if actual <= 0 { return Err(OraclePriceInvalid); }
      return Slippage.CheckSlippage(expectedPrice, actual, maxSlippage);
    }

    /** Takes a paid amount off the request, which leaves the queue when nothing remains. */
    method ServeRequest(id: nat, amount: nat)
      requires Indexed() && id in queue
      modifies this`queue, this`queueLen, this`queueHead, this`tierLen, this`tierHead
      ensures Indexed() && queue == Served(old(queue), id, amount)
    {
      hide IndexOk;
      var request := queue[id];
      if amount == request.amount {
        RemoveFromQueue(id);
      } else {
        ShrinkKeepsIndex(Idx(), queue, nextId, id, request.amount - amount);
        queue := queue[id := request.(amount := request.amount - amount)];
      }
    }

    method ClearExecute(env: Env, id: nat, partial: Option<I128>, expectedPrice: I128, maxSlippage: U32, nonce: nat)
      returns (r: Result<nat>)
      requires id in queue
      modifies this`quotaUsed, this`breaker
      ensures var spec := ClearExecution(old(Abs()), env, id, partial, expectedPrice, maxSlippage, nonce);
        if r.Ok? then spec == Ok((r.value, quotaUsed, breaker)) else spec == Err(r.error)
    {
      hide AdmitExecution, CheckBenchmark, ChargeLimits, Balance;
      ghost var s := Abs();
      var request := queue[id];
      r := AdmitExecute(env, id, partial, nonce);
      if r.Err? { return; }
      var amount := r.value;
      var charged := ChargeBoth(env, request.to, amount);
      if charged.Err? { return Err(charged.error); }
      if amount > Balance(balances, request.token, self) { return Err(InsufficientFunds); }
      PriceIgnoresLimits(s, Abs(), env, expectedPrice, maxSlippage);
      var priced := CheckPrice(env, expectedPrice, maxSlippage);
      if priced.Err? { return Err(priced.error); }
      if nonce + 1 > U64_MAX { return Err(HostAbort); }
    }

    /** Uses up the nonce, serves the request and pays its recipient. */
    method ServeAndPay(env: Env, id: nat, amount: nat, nonce: nat) returns (r: Result<()>)
      requires Indexed() && id in queue
      modifies this`balances, this`registry, this`history, this`nonces,
               this`queue, this`queueLen, this`queueHead, this`tierLen, this`tierHead
      ensures Indexed()
      ensures var q := old(queue[id]);
        var paid := PayOut(old(registry), old(balances), self, q.token, q.to, amount, amount);
        && (r.Ok? ==> r == Ok(()) && paid == Ok((registry, balances)))
        && (r.Err? ==> paid == Err(r.error))
      ensures r.Ok? ==> queue == Served(old(queue), id, amount)
      ensures var q := old(queue[id]);
        r.Ok? ==> && nonces == old(nonces)[q.to := nonce + 1]
                  && history == old(history) + [Paid(env.ledger, q.token, q.to, amount)]
    {
      hide PayOut, Indexed, Served;
      var request := queue[id];
      nonces := nonces[request.to := nonce + 1];
      ServeRequest(id, amount);
      r := PayOutTokens(request.token, request.to, amount, amount);
      if r.Ok? { history := history + [Paid(env.ledger, request.token, request.to, amount)]; }
    }

    /** The body of `execute_withdrawal`; its writes are undone by the caller when it fails. */
    method ExecuteBody(env: Env, id: nat, partial: Option<I128>, expectedPrice: I128, maxSlippage: U32, nonce: nat)
      returns (r: Result<()>)
      requires Indexed()
      modifies this`balances, this`registry, this`quotaUsed, this`breaker, this`history, this`nonces,
               this`queue, this`queueLen, this`queueHead, this`tierLen, this`tierHead
      ensures Indexed()
      ensures r.Ok? ==> Escrow.ExecuteWithdrawal(old(Abs()), env, id, partial, expectedPrice, maxSlippage, nonce)
                          == Ok(old(Abs()).(balances := balances, registry := registry, quotaUsed := quotaUsed,
                                            breaker := breaker, history := history, nonces := nonces, queue := queue))
      ensures r.Err? ==> Escrow.ExecuteWithdrawal(old(Abs()), env, id, partial, expectedPrice, maxSlippage, nonce)
                           == Err(r.error)
    {
      hide ClearExecution, PayOut, Balance, Indexed, Idx, Served;
      if cfg.paused { return Err(ContractPaused); }
      if id !in queue { return Err(RequestNotFound); }
      var cleared := ClearExecute(env, id, partial, expectedPrice, maxSlippage, nonce);
      if cleared.Err? { return Err(cleared.error); }
      r := ServeAndPay(env, id, cleared.value, nonce);
    }

    method TryExecuteWithdrawal(env: Env, id: nat, partial: Option<I128>, expectedPrice: I128, maxSlippage: U32,
                                nonce: nat)
      returns (r: Result<()>)
      requires Indexed()
      modifies this`balances, this`registry, this`quotaUsed, this`breaker, this`history, this`nonces,
               this`queue, this`queueLen, this`queueHead, this`tierLen, this`tierHead
      ensures Indexed()
      ensures r.Ok? ==> Escrow.ExecuteWithdrawal(old(Abs()), env, id, partial, expectedPrice, maxSlippage, nonce)
                           == Ok(Abs())
      ensures r.Err? ==> Escrow.ExecuteWithdrawal(old(Abs()), env, id, partial, expectedPrice, maxSlippage, nonce)
                           == Err(r.error)
    {
      hide Escrow.ExecuteWithdrawal, Indexed, Abs;
      r := ExecuteBody(env, id, partial, expectedPrice, maxSlippage, nonce);
      OnlyExecutionCells();
    }

    twostate lemma OnlyExecutionCells()
      requires unchanged(this`schemaVersion, this`initNonces, this`admin, this`pendingAdmin, this`renounceAt,
                         this`cfg, this`receipts, this`receiptIndex, this`receiptCounter, this`userDeposited,
                         this`lastDeposit, this`lastLarge, this`nextId, this`dailyDeposits, this`fiatVolume,
                         this`feeVault, this`now)
      ensures Abs() == old(Abs()).(registry := registry, balances := balances, queue := queue, nonces := nonces,
                                   quotaUsed := quotaUsed, breaker := breaker, history := history)
    {
    }

    method ExecuteWithdrawal(env: Env, id: nat, partial: Option<I128>, expectedPrice: I128, maxSlippage: U32,
                             nonce: nat)
      returns (r: Result<()>)
      requires Valid() && env.ledger >= now
      modifies this
      ensures Valid()
      ensures Performs(old(Abs()), Call(env, OpExecute(id, partial, expectedPrice, maxSlippage, nonce)), r, Abs())
      ensures r.Err? ==> Cells() == old(Cells())
    {
      hide Escrow.ExecuteWithdrawal, Step, Performs, IsReachable, Indexed, StateOf, QueueIndexed, Cells, Abs;
      ghost var s := Abs();
      var saved := Cells();
      AbsOfCells();
      r := TryExecuteWithdrawal(env, id, partial, expectedPrice, maxSlippage, nonce);
      Conclude(env, s, OpExecute(id, partial, expectedPrice, maxSlippage, nonce), r, saved);
    }

    method ReleaseRequest(id: nat) returns (r: Result<()>)
      requires Indexed() && id in queue
      modifies this`registry, this`queue, this`queueLen, this`queueHead, this`tierLen, this`tierHead
      ensures Indexed()
      ensures r.Ok? ==> Release(old(Abs()), id) == Ok(old(Abs()).(registry := registry, queue := queue))
      ensures r.Err? ==> Release(old(Abs()), id) == Err(r.error)
    {
      hide IndexOk;
      var request := queue[id];
      if request.token !in registry { return Err(TokenNotWhitelisted); }
      var config := registry[request.token];
      if !FitsI128(config.totalLiabilities - request.amount) { return Err(HostAbort); }
      config := config.(totalLiabilities := config.totalLiabilities - request.amount);
      registry := registry[request.token := config];
      RemoveFromQueue(id);
      return Ok(());
    }

    method CancelBody(env: Env, id: nat) returns (r: Result<()>)
      requires Indexed()
      modifies this`registry, this`queue, this`queueLen, this`queueHead, this`tierLen, this`tierHead
      ensures Indexed()
      ensures r.Ok? ==> Escrow.CancelWithdrawal(old(Abs()), env, id)
                           == Ok(old(Abs()).(registry := registry, queue := queue))
      ensures r.Err? ==> Escrow.CancelWithdrawal(old(Abs()), env, id) == Err(r.error)
    {
      hide IndexOk, Release, RequireAdmin, CheckInvariants, Balance;
      var auth := RequireAdminAuth(env);
      if auth.Err? { return Err(auth.error); }
      if cfg.paused { return Err(ContractPaused); }
      if id !in queue { return Err(RequestNotFound); }
      var t := queue[id].token;
      r := ReleaseRequest(id);
      if r.Err? { return; }
      r := CheckBooks(t);
    }

    method TryCancelWithdrawal(env: Env, id: nat) returns (r: Result<()>)
      requires Indexed()
      modifies this`registry, this`queue, this`queueLen, this`queueHead, this`tierLen, this`tierHead
      ensures Indexed()
      ensures r.Ok? ==> Escrow.CancelWithdrawal(old(Abs()), env, id) == Ok(Abs())
      ensures r.Err? ==> Escrow.CancelWithdrawal(old(Abs()), env, id) == Err(r.error)
    {
      hide Escrow.CancelWithdrawal, Indexed, Abs;
      r := CancelBody(env, id);
      OnlyReleaseCells();
    }

    twostate lemma OnlyReleaseCells()
      requires unchanged(this`schemaVersion, this`initNonces, this`admin, this`pendingAdmin, this`renounceAt,
                         this`cfg, this`balances, this`receipts, this`receiptIndex, this`receiptCounter,
                         this`userDeposited, this`lastDeposit, this`lastLarge, this`nextId, this`nonces,
                         this`quotaUsed, this`dailyDeposits, this`fiatVolume, this`breaker, this`feeVault, this`now,
                         this`history)
      ensures Abs() == old(Abs()).(registry := registry, queue := queue)
    {
    }

    method CancelWithdrawal(env: Env, id: nat) returns (r: Result<()>)
      requires Valid() && env.ledger >= now
      modifies this
      ensures Valid() && Performs(old(Abs()), Call(env, OpCancel(id)), r, Abs())
      ensures r.Err? ==> Cells() == old(Cells())
    {
      hide Escrow.CancelWithdrawal, Step, Performs, IsReachable, Indexed, StateOf, QueueIndexed, Cells, Abs;
      ghost var s := Abs();
      var saved := Cells();
      AbsOfCells();
      r := TryCancelWithdrawal(env, id);
      Conclude(env, s, OpCancel(id), r, saved);
    }

    method ReclaimExpiredBody(env: Env, id: nat) returns (r: Result<()>)
      requires Indexed()
      modifies this`registry, this`queue, this`queueLen, this`queueHead, this`tierLen, this`tierHead
      ensures Indexed()
      ensures r.Ok? ==> Escrow.ReclaimExpired(old(Abs()), env, id)
                           == Ok(old(Abs()).(registry := registry, queue := queue))
      ensures r.Err? ==> Escrow.ReclaimExpired(old(Abs()), env, id) == Err(r.error)
    {
      hide IndexOk, Release, RequireAdmin;
      var auth := RequireAdminAuth(env);
      if auth.Err? { return Err(auth.error); }
      if id !in queue { return Err(RequestNotFound); }
      if env.ledger <= SaturateU32(queue[id].queuedLedger + cfg.expiryWindow) { return Err(WithdrawalLocked); }
      r := ReleaseRequest(id);
    }

    method TryReclaimExpiredWithdrawal(env: Env, id: nat) returns (r: Result<()>)
      requires Indexed()
      modifies this`registry, this`queue, this`queueLen, this`queueHead, this`tierLen, this`tierHead
      ensures Indexed()
      ensures r.Ok? ==> ReclaimExpired(old(Abs()), env, id) == Ok(Abs())
      ensures r.Err? ==> ReclaimExpired(old(Abs()), env, id) == Err(r.error)
    {
      hide ReclaimExpired, Indexed, Abs;
      r := ReclaimExpiredBody(env, id);
      OnlyReleaseCells();
    }

    method ReclaimExpiredWithdrawal(env: Env, id: nat) returns (r: Result<()>)
      requires Valid() && env.ledger >= now
      modifies this
      ensures Valid() && Performs(old(Abs()), Call(env, OpReclaim(id)), r, Abs())
      ensures r.Err? ==> Cells() == old(Cells())
    {
      hide ReclaimExpired, Step, Performs, IsReachable, Indexed, StateOf, QueueIndexed, Cells, Abs;
      ghost var s := Abs();
      var saved := Cells();
      AbsOfCells();
      r := TryReclaimExpiredWithdrawal(env, id);
      Conclude(env, s, OpReclaim(id), r, saved);
    }

    // ---- deposits ----

    /** The first checks of a deposit; it stamps the depositor's last deposit on the way. */
    method Admit(env: Env, from: Address, amount: I128, t: Address, reference: string, memo: Option<Hash>)
      returns (r: Result<()>)
      modifies this`lastDeposit
      ensures r == AdmitDeposit(old(Abs()), env, from, amount, t, reference, memo)
      ensures r.Ok? ==> lastDeposit == old(lastDeposit)[from := env.ledger]
    {
      if memo == Some(0) { return Err(InvalidMemoHash); }
      if from !in env.signers || from == self { return Err(HostAbort); }
      if cfg.paused { return Err(ContractPaused); }
      if amount <= 0 { return Err(ZeroAmount); }
      if |reference| > MAX_REFERENCE_LEN { return Err(ReferenceTooLong); }
      if cfg.cooldown > 0 && from in lastDeposit {
        if env.ledger < SaturateU32(lastDeposit[from] + cfg.cooldown) { return Err(CooldownActive); }
      }
      lastDeposit := lastDeposit[from := env.ledger];
      var maxDelay := Max(Max(cfg.cooldown, cfg.antiSandwich), 1);
      if maxDelay + STAMP_MARGIN > U32_MAX { return Err(HostAbort); }
      if cfg.allowlistOn {
        if from !in cfg.allowed { return Err(NotAllowed); }
      } else if t in cfg.tokenAllowlistOn && (t, from) !in cfg.tokenAllowed {
        return Err(NotAllowed);
      }
      if from in cfg.denied { return Err(AddressDenied); }
      if t !in registry { return Err(TokenNotWhitelisted); }
      if amount < cfg.minDeposit { return Err(BelowMinimum); }
      if amount > registry[t].limit { return Err(ExceedsLimit); }
      return Ok(());
    }

    method IssueReceipt(env: Env, id: ReceiptId, memo: Option<Hash>) returns (r: Result<()>)
      requires id.counter == receiptCounter
      modifies this`receipts, this`receiptIndex, this`receiptCounter
      ensures if id in old(receipts) then r == Err(InternalError)
              else if old(receiptCounter) + 1 > U64_MAX then r == Err(HostAbort)
              else
                && r == Ok(())
                && receipts == old(receipts)[id := Receipt(id.depositor, id.amount, env.ledger, id.reference, memo)]
                && receiptIndex == old(receiptIndex)[old(receiptCounter) := id]
                && receiptCounter == old(receiptCounter) + 1
    {
      if id in receipts { return Err(InternalError); }
      receipts := receipts[id := Receipt(id.depositor, id.amount, env.ledger, id.reference, memo)];
      receiptIndex := receiptIndex[receiptCounter := id];
      if receiptCounter + 1 > U64_MAX { return Err(HostAbort); }
      receiptCounter := receiptCounter + 1;
      return Ok(());
    }

    /** Adds a deposit to the token's and the depositor's totals. */
    method CountDeposit(t: Address, from: Address, amount: nat) returns (r: Result<()>)
      requires t in registry
      modifies this`registry, this`userDeposited
      ensures var c, u := old(registry)[t], GetOr(old(userDeposited), from, 0);
              if !FitsI128(c.totalDeposited + amount) then r == Err(Overflow)
              else if !FitsI128(u + amount) then r == Err(InternalError)
              else
                && r == Ok(())
                && registry == old(registry)[t := c.(totalDeposited := c.totalDeposited + amount)]
                && userDeposited == old(userDeposited)[from := u + amount]
    {
      var config := registry[t];
      if !FitsI128(config.totalDeposited + amount) { return Err(Overflow); }
      registry := registry[t := config.(totalDeposited := config.totalDeposited + amount)];
      var userTotal := GetOr(userDeposited, from, 0);
      if !FitsI128(userTotal + amount) { return Err(InternalError); }
      userDeposited := userDeposited[from := userTotal + amount];
      return Ok(());
    }

    /** Moves the tokens, issues the receipt, counts the deposit and checks the books. */
    method Record(env: Env, id: ReceiptId, t: Address, memo: Option<Hash>) returns (r: Result<()>)
      requires t in registry && id.amount >= 0 && id.counter == receiptCounter
      modifies this`balances, this`receipts, this`receiptIndex, this`receiptCounter, this`registry, this`userDeposited
      ensures r.Ok? ==> r == Ok(()) && PayIn(old(Ledger()), self, env.ledger, id, t, memo) == Ok(Ledger())
      ensures r.Err? ==> PayIn(old(Ledger()), self, env.ledger, id, t, memo) == Err(r.error)
    {
      hide Transfer, Balance, CheckInvariants;
      r := TransferTokens(t, id.depositor, self, id.amount);
      if r.Err? { return; }
      r := IssueReceipt(env, id, memo);
      if r.Err? { return; }
      r := CountDeposit(t, id.depositor, id.amount);
      if r.Err? { return; }
      r := CheckBooks(t);
    }

    /** The checks and limits of a deposit; the oracle's price. */
    method Clear(env: Env, from: Address, amount: I128, t: Address, reference: string,
                 expectedPrice: I128, maxSlippage: U32, memo: Option<Hash>) returns (r: Result<I128>)
      modifies this`lastDeposit, this`dailyDeposits, this`fiatVolume
      ensures r.Ok? ==> ClearDeposit(old(Abs()), env, from, amount, t, reference, expectedPrice, maxSlippage, memo)
                          == Ok((dailyDeposits, fiatVolume, r.value))
      ensures r.Ok? ==> amount > 0 && t in registry && lastDeposit == old(lastDeposit)[from := env.ledger]
      ensures r.Err? ==> ClearDeposit(old(Abs()), env, from, amount, t, reference, expectedPrice, maxSlippage,
                                      memo) == Err(r.error)
    {
      hide AdmitDeposit, ValidateFiat, ChargeDaily, Slippage.CheckSlippage;
      ghost var s := Abs();
      var admitted := Admit(env, from, amount, t, reference, memo);
      if admitted.Err? { return Err(admitted.error); }
      Admission.DepositorAsks(s, env, from, amount, t, reference, memo);
      var daily := EnforceDailyDepositLimit(env, from, t, amount, registry[t].dailyDepositLimit);
      if daily.Err? { return Err(daily.error); }
      FiatIgnoresStamps(s, Abs(), env, from, amount);
      r := ValidateFiatLimit(env, from, amount);
      if r.Err? { return; }
      var slippage := Slippage.CheckSlippage(expectedPrice, r.value, maxSlippage);
      if slippage.Err? { return Err(slippage.error); }
    }

    /** Moves and books the tokens, stamps a large deposit, and notes the event. */
    method Settle(env: Env, id: ReceiptId, t: Address, memo: Option<Hash>, price: int) returns (r: Result<()>)
      requires t in registry && id.amount >= 0 && id.counter == receiptCounter
      modifies this`balances, this`receipts, this`receiptIndex, this`receiptCounter, this`registry, this`userDeposited,
               this`lastLarge, this`history
      ensures r.Ok? ==> r == Ok(()) && PayIn(old(Ledger()), self, env.ledger, id, t, memo) == Ok(Ledger())
      ensures r.Err? ==> PayIn(old(Ledger()), self, env.ledger, id, t, memo) == Err(r.error)
      ensures r.Ok? ==> lastLarge == if cfg.withdrawThreshold > 0 && id.amount >= cfg.withdrawThreshold
                                     then old(lastLarge)[id.depositor := env.ledger] else old(lastLarge)
      ensures r.Ok? ==> history == old(history) + [Deposited(env.ledger, t, id.depositor, id.amount, price)]
    {
      hide PayIn, Ledger;
      r := Record(env, id, t, memo);
      if r.Err? { return; }
      if cfg.withdrawThreshold > 0 && id.amount >= cfg.withdrawThreshold {
        lastLarge := lastLarge[id.depositor := env.ledger];
      }
      history := history + [Deposited(env.ledger, t, id.depositor, id.amount, price)];
    }

    /** The body of `deposit`; its writes are undone by the caller when it fails. */
    method DepositBody(env: Env, from: Address, amount: I128, t: Address, reference: string,
                       expectedPrice: I128, maxSlippage: U32, memo: Option<Hash>) returns (r: Result<ReceiptId>)
      modifies this`balances, this`receipts, this`receiptIndex, this`receiptCounter, this`registry, this`userDeposited,
               this`lastDeposit, this`lastLarge, this`dailyDeposits, this`fiatVolume, this`history
      ensures r.Ok? ==> Escrow.Deposit(old(Abs()), env, from, amount, t, reference, expectedPrice, maxSlippage, memo)
                          == Ok((old(Abs()).(balances := balances, receipts := receipts, receiptIndex := receiptIndex,
                                             receiptCounter := receiptCounter, registry := registry,
                                             userDeposited := userDeposited, lastDeposit := lastDeposit,
                                             lastLarge := lastLarge, dailyDeposits := dailyDeposits,
                                             fiatVolume := fiatVolume, history := history), r.value))
      ensures r.Ok? ==> r.value == ReceiptId(from, amount, env.ledger, reference, old(receiptCounter))
      ensures r.Err? ==> Escrow.Deposit(old(Abs()), env, from, amount, t, reference, expectedPrice, maxSlippage,
                                        memo) == Err(r.error)
    {
      hide ClearDeposit, PayIn;
      var id := ReceiptId(from, amount, env.ledger, reference, receiptCounter);
      var price := Clear(env, from, amount, t, reference, expectedPrice, maxSlippage, memo);
      if price.Err? { return Err(price.error); }
      var settled := Settle(env, id, t, memo, price.value);
      if settled.Err? { return Err(settled.error); }
      return Ok(id);
    }

    lemma NextReceipt(env: Env, from: Address, amount: I128, t: Address, reference: string,
                      expectedPrice: I128, maxSlippage: U32, memo: Option<Hash>)
      ensures var r := Escrow.Deposit(Abs(), env, from, amount, t, reference, expectedPrice, maxSlippage, memo);
        r.Ok? ==> r.value.1 == ReceiptId(from, amount, env.ledger, reference, receiptCounter)
    {
      hide ClearDeposit, SettleDeposit;
    }

    method TryDeposit(env: Env, from: Address, amount: I128, t: Address, reference: string,
                      expectedPrice: I128, maxSlippage: U32, memo: Option<Hash>) returns (r: Result<ReceiptId>)
      modifies this`balances, this`receipts, this`receiptIndex, this`receiptCounter, this`registry, this`userDeposited,
               this`lastDeposit, this`lastLarge, this`dailyDeposits, this`fiatVolume, this`history
      ensures r.Ok? ==> Escrow.Deposit(old(Abs()), env, from, amount, t, reference, expectedPrice, maxSlippage,
                                       memo) == Ok((Abs(), r.value))
      ensures r.Err? ==> Escrow.Deposit(old(Abs()), env, from, amount, t, reference, expectedPrice, maxSlippage,
                                        memo) == Err(r.error)
    {
      hide Escrow.Deposit, Indexed, Abs;
      r := DepositBody(env, from, amount, t, reference, expectedPrice, maxSlippage, memo);
      OnlyDepositCells();
    }

    twostate lemma OnlyDepositCells()
      requires unchanged(this`schemaVersion, this`initNonces, this`admin, this`pendingAdmin, this`renounceAt, this`cfg,
                         this`queue, this`nextId, this`nonces, this`quotaUsed, this`breaker, this`feeVault, this`now)
      ensures Abs() == old(Abs()).(balances := balances, receipts := receipts, receiptIndex := receiptIndex,
                                   receiptCounter := receiptCounter, registry := registry,
                                   userDeposited := userDeposited, lastDeposit := lastDeposit,
                                   lastLarge := lastLarge, dailyDeposits := dailyDeposits,
                                   fiatVolume := fiatVolume, history := history)
    {
    }

    method Deposit(env: Env, from: Address, amount: I128, t: Address, reference: string,
                   expectedPrice: I128, maxSlippage: U32, memo: Option<Hash>) returns (r: Result<ReceiptId>)
      requires Valid() && env.ledger >= now
      modifies this
      ensures Valid()
      ensures Performs(old(Abs()), Call(env, OpDeposit(from, amount, t, reference, expectedPrice, maxSlippage,
                                                       memo)), r, Abs())
      ensures r.Ok? ==> r.value == ReceiptId(from, amount, env.ledger, reference, old(receiptCounter))
      ensures r.Err? ==> Cells() == old(Cells())
    {
      hide Escrow.Deposit, Step, Performs, IsReachable, Indexed, StateOf, QueueIndexed, Cells, Abs;
      ghost var s := Abs();
      var saved := Cells();
      AbsOfCells();
      NextReceipt(env, from, amount, t, reference, expectedPrice, maxSlippage, memo);
      r := TryDeposit(env, from, amount, t, reference, expectedPrice, maxSlippage, memo);
      Conclude(env, s, OpDeposit(from, amount, t, reference, expectedPrice, maxSlippage, memo), r, saved);
    }

    // ---- fees ----

    method AccrueFeeBody(env: Env, t: Address, amount: I128) returns (r: Result<()>)
      modifies this`feeVault
      ensures r.Ok? ==> Escrow.AccrueFee(old(Abs()), env, t, amount) == Ok(Abs())
      ensures r.Err? ==> Escrow.AccrueFee(old(Abs()), env, t, amount) == Err(r.error)
    {
      var auth := RequireAdminAuth(env);
      if auth.Err? { return Err(auth.error); }
      if amount <= 0 { return Err(ZeroAmount); }
      var current := GetOr(feeVault, t, 0);
      if !FitsI128(current + amount) { return Err(HostAbort); }
      feeVault := feeVault[t := current + amount];
      return Ok(());
    }

    method AccrueFee(env: Env, t: Address, amount: I128) returns (r: Result<()>)
      requires Valid() && env.ledger >= now
      modifies this
      ensures Valid() && Performs(old(Abs()), Call(env, OpAccrueFee(t, amount)), r, Abs())
      ensures r.Err? ==> Cells() == old(Cells())
    {
      hide Escrow.AccrueFee, Step, Performs, IsReachable, Indexed, StateOf, QueueIndexed, Cells, Abs;
      ghost var s := Abs();
      var saved := Cells();
      AbsOfCells();
      r := AccrueFeeBody(env, t, amount);
      Conclude(env, s, OpAccrueFee(t, amount), r, saved);
    }

    method WithdrawFeesBody(env: Env, to: Address, t: Address, amount: I128) returns (r: Result<()>)
      modifies this`balances, this`feeVault, this`history
      ensures r.Ok? ==> Escrow.WithdrawFees(old(Abs()), env, to, t, amount)
                           == Ok(old(Abs()).(balances := balances, feeVault := feeVault, history := history))
      ensures r.Err? ==> Escrow.WithdrawFees(old(Abs()), env, to, t, amount) == Err(r.error)
    {
      hide Transfer, RequireAdmin;
      var auth := RequireAdminAuth(env);
      if auth.Err? { return Err(auth.error); }
      if amount <= 0 { return Err(ZeroAmount); }
      var current := GetOr(feeVault, t, 0);
      if current <= 0 { return Err(NoFeesToWithdraw); }
      if amount > current { return Err(FeeWithdrawalExceedsBalance); }
      var recipient := if cfg.feeRecipient.Some? then cfg.feeRecipient.value else to;
      r := TransferTokens(t, self, recipient, amount);
      if r.Err? { return; }
      feeVault := feeVault[t := current - amount];
      if recipient != self { history := history + [FeePaid(env.ledger, t, recipient, amount)]; }
    }

    method TryWithdrawFees(env: Env, to: Address, t: Address, amount: I128) returns (r: Result<()>)
      modifies this`balances, this`feeVault, this`history
      ensures r.Ok? ==> Escrow.WithdrawFees(old(Abs()), env, to, t, amount) == Ok(Abs())
      ensures r.Err? ==> Escrow.WithdrawFees(old(Abs()), env, to, t, amount) == Err(r.error)
    {
      hide Escrow.WithdrawFees, Indexed, Abs;
      r := WithdrawFeesBody(env, to, t, amount);
      OnlyFeeCells();
    }

    twostate lemma OnlyFeeCells()
      requires unchanged(this`schemaVersion, this`initNonces, this`admin, this`pendingAdmin, this`renounceAt,
                         this`cfg, this`registry, this`receipts, this`receiptIndex, this`receiptCounter,
                         this`userDeposited, this`lastDeposit, this`lastLarge, this`queue, this`nextId, this`nonces,
                         this`quotaUsed, this`dailyDeposits, this`fiatVolume, this`breaker, this`now)
      ensures Abs() == old(Abs()).(balances := balances, feeVault := feeVault, history := history)
    {
    }

    method WithdrawFees(env: Env, to: Address, t: Address, amount: I128) returns (r: Result<()>)
      requires Valid() && env.ledger >= now
      modifies this
      ensures Valid() && Performs(old(Abs()), Call(env, OpWithdrawFees(to, t, amount)), r, Abs())
      ensures r.Err? ==> Cells() == old(Cells())
    {
      hide Escrow.WithdrawFees, Step, Performs, IsReachable, Indexed, StateOf, QueueIndexed, Cells, Abs;
      ghost var s := Abs();
      var saved := Cells();
      AbsOfCells();
      r := TryWithdrawFees(env, to, t, amount);
      Conclude(env, s, OpWithdrawFees(to, t, amount), r, saved);
    }

    // ---- administration ----

    method TransferAdminBody(env: Env, candidate: Address) returns (r: Result<()>)
      modifies this`pendingAdmin, this`history
      ensures r.Ok? ==> Escrow.TransferAdmin(old(Abs()), env, candidate) == Ok(Abs())
      ensures r.Err? ==> Escrow.TransferAdmin(old(Abs()), env, candidate) == Err(r.error)
    {
      var auth := RequireAdminAuth(env);
      if auth.Err? { return Err(auth.error); }
      if candidate == auth.value { return Err(SameAdmin); }
      pendingAdmin := Some((candidate, env.ledger));
      history := history + [AdminProposed(env.ledger, auth.value, candidate)];
      return Ok(());
    }

    method TransferAdmin(env: Env, candidate: Address) returns (r: Result<()>)
      requires Valid() && env.ledger >= now
      modifies this
      ensures Valid() && Performs(old(Abs()), Call(env, OpTransferAdmin(candidate)), r, Abs())
      ensures r.Err? ==> Cells() == old(Cells())
    {
      hide Escrow.TransferAdmin, Step, Performs, IsReachable, Indexed, StateOf, QueueIndexed, Cells, Abs;
      ghost var s := Abs();
      var saved := Cells();
      AbsOfCells();
      r := TransferAdminBody(env, candidate);
      Conclude(env, s, OpTransferAdmin(candidate), r, saved);
    }

    method AcceptAdminBody(env: Env) returns (r: Result<()>)
      modifies this`admin, this`pendingAdmin, this`history
      ensures r.Ok? ==> Escrow.AcceptAdmin(old(Abs()), env)
                           == Ok(old(Abs()).(admin := admin, pendingAdmin := pendingAdmin, history := history))
      ensures r.Err? ==> Escrow.AcceptAdmin(old(Abs()), env) == Err(r.error)
    {
      if pendingAdmin == None { return Err(NoPendingAdmin); }
      var candidate, proposedAt := pendingAdmin.value.0, pendingAdmin.value.1;
      if candidate !in env.signers || candidate == self { return Err(HostAbort); }
      var unlockAt := proposedAt + MIN_TIMELOCK_DELAY;
      if unlockAt > U64_MAX { return Err(Overflow); }
      if env.ledger < unlockAt { return Err(ActionNotReady); }
      history := history + [AdminAccepted(env.ledger, admin, candidate)];
      admin := Some(candidate);
      pendingAdmin := None;
      return Ok(());
    }

    method TryAcceptAdmin(env: Env) returns (r: Result<()>)
      modifies this`admin, this`pendingAdmin, this`history
      ensures r.Ok? ==> Escrow.AcceptAdmin(old(Abs()), env) == Ok(Abs())
      ensures r.Err? ==> Escrow.AcceptAdmin(old(Abs()), env) == Err(r.error)
    {
      hide Escrow.AcceptAdmin, Indexed, Abs;
      r := AcceptAdminBody(env);
      OnlyAdminCells();
    }

    twostate lemma OnlyAdminCells()
      requires unchanged(this`schemaVersion, this`initNonces, this`renounceAt, this`cfg, this`registry, this`balances,
                         this`receipts, this`receiptIndex, this`receiptCounter, this`userDeposited, this`lastDeposit,
                         this`lastLarge, this`queue, this`nextId, this`nonces, this`quotaUsed, this`dailyDeposits,
                         this`fiatVolume, this`breaker, this`feeVault, this`now)
      ensures Abs() == old(Abs()).(admin := admin, pendingAdmin := pendingAdmin, history := history)
    {
    }

    method AcceptAdmin(env: Env) returns (r: Result<()>)
      requires Valid() && env.ledger >= now
      modifies this
      ensures Valid() && Performs(old(Abs()), Call(env, OpAcceptAdmin), r, Abs())
      ensures r.Err? ==> Cells() == old(Cells())
    {
      hide Escrow.AcceptAdmin, Step, Performs, IsReachable, Indexed, StateOf, QueueIndexed, Cells, Abs;
      ghost var s := Abs();
      var saved := Cells();
      AbsOfCells();
      r := TryAcceptAdmin(env);
      Conclude(env, s, OpAcceptAdmin, r, saved);
    }

    method QueueRenounceAdminBody(env: Env) returns (r: Result<()>)
      modifies this`renounceAt, this`history
      ensures r.Ok? ==> QueueRenounce(old(Abs()), env) == Ok(Abs())
      ensures r.Err? ==> QueueRenounce(old(Abs()), env) == Err(r.error)
    {
      var auth := RequireAdminAuth(env);
      if auth.Err? { return Err(auth.error); }
      if cfg.paused { return Err(ContractPaused); }
      if env.ledger + MIN_TIMELOCK_DELAY > U32_MAX { return Err(Overflow); }
      renounceAt := Some(env.ledger + MIN_TIMELOCK_DELAY);
      history := history + [RenounceQueued(env.ledger, auth.value)];
      return Ok(());
    }

    method QueueRenounceAdmin(env: Env) returns (r: Result<()>)
      requires Valid() && env.ledger >= now
      modifies this
      ensures Valid() && Performs(old(Abs()), Call(env, OpQueueRenounce), r, Abs())
      ensures r.Err? ==> Cells() == old(Cells())
    {
      hide QueueRenounce, Step, Performs, IsReachable, Indexed, StateOf, QueueIndexed, Cells, Abs;
      ghost var s := Abs();
      var saved := Cells();
      AbsOfCells();
      r := QueueRenounceAdminBody(env);
      Conclude(env, s, OpQueueRenounce, r, saved);
    }

    method CancelRenounceAdminBody(env: Env) returns (r: Result<()>)
      modifies this`renounceAt, this`history
      ensures r.Ok? ==> CancelRenounce(old(Abs()), env) == Ok(Abs())
      ensures r.Err? ==> CancelRenounce(old(Abs()), env) == Err(r.error)
    {
      var auth := RequireAdminAuth(env);
      if auth.Err? { return Err(auth.error); }
      if renounceAt == None { return Err(ActionNotQueued); }
      renounceAt := None;
      history := history + [RenounceCancelled(env.ledger, auth.value)];
      return Ok(());
    }

    method CancelRenounceAdmin(env: Env) returns (r: Result<()>)
      requires Valid() && env.ledger >= now
      modifies this
      ensures Valid() && Performs(old(Abs()), Call(env, OpCancelRenounce), r, Abs())
      ensures r.Err? ==> Cells() == old(Cells())
    {
      hide CancelRenounce, Step, Performs, IsReachable, Indexed, StateOf, QueueIndexed, Cells, Abs;
      ghost var s := Abs();
      var saved := Cells();
      AbsOfCells();
      r := CancelRenounceAdminBody(env);
      Conclude(env, s, OpCancelRenounce, r, saved);
    }

    method ExecuteRenounceAdminBody(env: Env) returns (r: Result<()>)
      modifies this`renounceAt, this`admin, this`pendingAdmin, this`history
      ensures r.Ok? ==> ExecuteRenounce(old(Abs()), env)
                           == Ok(old(Abs()).(renounceAt := renounceAt, admin := admin, pendingAdmin := pendingAdmin,
                                             history := history))
      ensures r.Err? ==> ExecuteRenounce(old(Abs()), env) == Err(r.error)
    {
      var auth := RequireAdminAuth(env);
      if auth.Err? { return Err(auth.error); }
      if renounceAt == None { return Err(ActionNotQueued); }
      if env.ledger <= renounceAt.value { return Err(ActionNotReady); }
      renounceAt, admin, pendingAdmin := None, None, None;
      history := history + [Renounced(env.ledger, auth.value)];
      return Ok(());
    }

    method TryExecuteRenounceAdmin(env: Env) returns (r: Result<()>)
      modifies this`renounceAt, this`admin, this`pendingAdmin, this`history
      ensures r.Ok? ==> ExecuteRenounce(old(Abs()), env) == Ok(Abs())
      ensures r.Err? ==> ExecuteRenounce(old(Abs()), env) == Err(r.error)
    {
      hide ExecuteRenounce, Indexed, Abs;
      r := ExecuteRenounceAdminBody(env);
      OnlyRenounceCells();
    }

    twostate lemma OnlyRenounceCells()
      requires unchanged(this`schemaVersion, this`initNonces, this`cfg, this`registry, this`balances, this`receipts,
                         this`receiptIndex, this`receiptCounter, this`userDeposited, this`lastDeposit, this`lastLarge,
                         this`queue, this`nextId, this`nonces, this`quotaUsed, this`dailyDeposits, this`fiatVolume,
                         this`breaker, this`feeVault, this`now)
      ensures Abs() == old(Abs()).(admin := admin, pendingAdmin := pendingAdmin, renounceAt := renounceAt,
                                   history := history)
    {
    }

    method ExecuteRenounceAdmin(env: Env) returns (r: Result<()>)
      requires Valid() && env.ledger >= now
      modifies this
      ensures Valid() && Performs(old(Abs()), Call(env, OpExecuteRenounce), r, Abs())
      ensures r.Err? ==> Cells() == old(Cells())
    {
      hide ExecuteRenounce, Step, Performs, IsReachable, Indexed, StateOf, QueueIndexed, Cells, Abs;
      ghost var s := Abs();
      var saved := Cells();
      AbsOfCells();
      r := TryExecuteRenounceAdmin(env);
      Conclude(env, s, OpExecuteRenounce, r, saved);
    }

    method ResetCircuitBreakerBody(env: Env) returns (r: Result<()>)
      modifies this`breaker
      ensures r.Ok? ==> ResetBreaker(old(Abs()), env) == Ok(Abs())
      ensures r.Err? ==> ResetBreaker(old(Abs()), env) == Err(r.error)
    {
      var auth := RequireAdminAuth(env);
      if auth.Err? { return Err(auth.error); }
      breaker := breaker.(tripped := false);
      return Ok(());
    }

    method ResetCircuitBreaker(env: Env) returns (r: Result<()>)
      requires Valid() && env.ledger >= now
      modifies this
      ensures Valid() && Performs(old(Abs()), Call(env, OpResetBreaker), r, Abs())
      ensures r.Err? ==> Cells() == old(Cells())
    {
      hide ResetBreaker, Step, Performs, IsReachable, Indexed, StateOf, QueueIndexed, Cells, Abs;
      ghost var s := Abs();
      var saved := Cells();
      AbsOfCells();
      r := ResetCircuitBreakerBody(env);
      Conclude(env, s, OpResetBreaker, r, saved);
    }
  }

  /** From an entry point of the state machine to a step of it. */
  lemma Concludes<T>(s: State, env: Env, op: Op, r: Result<T>, s': State)
    requires IsReachable(s) && env.ledger >= s.now
    requires var applied := Apply(s, env, op);
      if r.Ok? then applied.Ok? && s' == applied.value.(now := env.ledger) else applied == Err(r.error) && s' == s
    ensures Performs(s, Call(env, op), r, s') && IsReachable(s')
  {
    hide Apply, IsReachable;
    if r.Ok? { StepIsReachable(s, Call(env, op)); }
  }

  lemma InitNoncesAreZero(s: State, a: Address)
    requires IsReachable(s)
    ensures GetOr(s.initNonces, a, 0) == 0
  {
    hide Init, Run, Initialize;
    var self: Address, env: Env, admin: Address, token: Address, limit: I128, minDeposit: I128, calls: seq<Call> :|
      Init(self, env, admin, token, limit, minDeposit).Ok?
      && s == Run(Init(self, env, admin, token, limit, minDeposit).value, calls);
    Governance.NeverInitializedAgain(self, env, admin, token, limit, minDeposit, calls, env, admin, token, limit,
                                     minDeposit, 0);
  }

  lemma InitialState(self: Address, env: Env, admin: Address, token: Address, limit: I128, minDeposit: I128)
    requires Init(self, env, admin, token, limit, minDeposit).Ok?
    ensures Init(self, env, admin, token, limit, minDeposit).value ==
      State(self, token, Some(1), map[admin := 0], Some(admin), None, None,
            Blank(self, token).cfg.(minDeposit := minDeposit),
            map[token := TokenConfig(limit, 0, 0, 0, 0)], map[], map[], map[], 0, map[], map[], map[], map[], 0, map[],
            map[], map[], map[], CB.Breaker(None, false, 0), map[], env.ledger, [])
  {
  }

  lemma AdmittedWithdrawal(s: State, env: Env, caller: Address, to: Address, amount: int)
    requires AdmitWithdrawal(s, env, caller, to, amount).Ok?
    ensures amount > 0 && to != s.self
  {
  }

  lemma PriceIgnoresLimits(s: State, s': State, env: Env, expectedPrice: I128, maxSlippage: U32)
    requires s'.cfg == s.cfg
    ensures CheckBenchmark(s', env, expectedPrice, maxSlippage) == CheckBenchmark(s, env, expectedPrice, maxSlippage)
  {
    hide Slippage.CheckSlippage;
  }

  lemma FiatIgnoresStamps(s: State, s': State, env: Env, from: Address, amount: I128)
    requires s'.cfg == s.cfg && s'.fiatVolume == s.fiatVolume
    ensures ValidateFiat(s', env, from, amount) == ValidateFiat(s, env, from, amount)
  {
    hide ChargeFiat;
  }

  lemma EmptyIndex()
    ensures IndexOk(Index(0, None, map[], map[]), map[], 0)
  {
    var x: Index, queue: map<nat, Request> := Index(0, None, map[], map[]), map[];
    forall t: nat
      ensures TierOk(x, queue, t)
    {
      assert Tier(queue, t) == {};
    }
  }
}
