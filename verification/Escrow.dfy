/** The escrow contract as a state machine: what each entry point does to the contract's storage and
    to the token balances, with the withdrawal queue as a plain map. An entry point either succeeds
    with a new state or fails and leaves the state alone, which is the host's rollback.

    `now` and `history` are not storage of the contract: they record the last ledger at which a call
    succeeded and what calls did, so that whole runs can be talked about. */
module Escrow {
  import opened Prelude
  import opened Windows
  import opened CircuitBreaker
  import Slippage

  const MAX_REFERENCE_LEN: nat := 64
  const STAMP_MARGIN: nat := 100  // by which a deposit's stamp outlives the delays that read it
  const MIN_TIMELOCK_DELAY: nat := 34_560
  const CIRCUIT_BREAKER_RESET_LEDGERS: nat := 34_560
  const WITHDRAWAL_EXPIRY_WINDOW_LEDGERS: nat := 17_280

  /** A 32-byte hash read as a number. */
  type Hash = nat

  /** What a call sees of the outside world: the ledger number, who signed, the oracle's answer. */
  datatype Env = Env(ledger: U32, signers: set<Address>, price: Option<I128>)

  datatype TokenConfig = TokenConfig(
    limit: int, dailyDepositLimit: int,
    totalDeposited: int, totalWithdrawn: int, totalLiabilities: int)
  {
    function Net(): int { totalDeposited - totalWithdrawn }
  }

  datatype Request = Request(
    to: Address, token: Address, amount: int,
    unlockLedger: nat, memoHash: Option<Hash>, queuedLedger: nat, riskTier: nat)

  /** The receipt hash, as an injective function of what it is derived from. */
  datatype ReceiptId = ReceiptId(depositor: Address, amount: int, ledger: nat, reference: string, counter: nat)

  datatype Receipt = Receipt(depositor: Address, amount: int, ledger: nat, reference: string, memoHash: Option<Hash>)

  /** Everything the setters control. */
  datatype Config = Config(
    paused: bool, cooldown: nat, antiSandwich: nat, lockPeriod: nat,
    withdrawCooldown: nat, withdrawThreshold: int, expiryWindow: nat,
    quota: int, minDeposit: int, fiatLimit: Option<int>, oracle: Option<Address>,
    breakerThreshold: int, breakerWindow: nat,
    allowlistOn: bool, allowed: set<Address>,
    tokenAllowlistOn: set<Address>, tokenAllowed: set<(Address, Address)>,
    denied: set<Address>, withdrawOperator: Option<Address>, feeRecipient: Option<Address>)

  datatype Event =
    | Deposited(ledger: nat, token: Address, user: Address, amount: nat, price: int)
    | Paid(ledger: nat, token: Address, user: Address, amount: nat)
    | FeePaid(ledger: nat, token: Address, user: Address, amount: nat)
    | Arrived(ledger: nat, token: Address, amount: nat)
    | AdminProposed(ledger: nat, admin: Address, candidate: Address)
    | AdminAccepted(ledger: nat, former: Option<Address>, candidate: Address)
    | RenounceQueued(ledger: nat, admin: Address)
    | RenounceCancelled(ledger: nat, admin: Address)
    | Renounced(ledger: nat, admin: Address)

  /** Token balances by (token, holder). */
  type Balances = map<(Address, Address), nat>

  datatype State = State(
    self: Address, token: Address,
    schemaVersion: Option<nat>, initNonces: map<Address, nat>,
    admin: Option<Address>, pendingAdmin: Option<(Address, nat)>, renounceAt: Option<nat>,
    cfg: Config, registry: map<Address, TokenConfig>, balances: Balances,
    receipts: map<ReceiptId, Receipt>, receiptIndex: map<nat, ReceiptId>, receiptCounter: nat,
    userDeposited: map<Address, int>, lastDeposit: map<Address, nat>, lastLarge: map<Address, nat>,
    queue: map<nat, Request>, nextId: nat, nonces: map<Address, nat>,
    quotaUsed: map<Address, Window>, dailyDeposits: map<(Address, Address), Window>,
    fiatVolume: map<Address, Window>, breaker: Breaker, feeVault: map<Address, int>,
    now: nat, history: seq<Event>)

  // ---- helpers shared by the entry points ----

  function Balance(b: Balances, token: Address, holder: Address): nat { GetOr(b, (token, holder), 0) }

  function Transfer(b: Balances, token: Address, from: Address, to: Address, amount: nat): Result<Balances> {
    var held := Balance(b, token, from);
    :- Need(held >= amount, HostAbort);
    var debited := b[(token, from) := held - amount];
    Ok(debited[(token, to) := Balance(debited, token, to) + amount])
  }

  function Store<K>(m: map<K, Window>, k: K, w: Option<Window>): map<K, Window> {
    match w case None => m case Some(r) => m[k := r]
  }

  /** `require_auth`; the contract itself never signs. */
  predicate Signed(s: State, env: Env, a: Address) { a in env.signers && a != s.self }

  function RequireAdmin(s: State, env: Env): Result<Address> {
    match s.admin
    case None => Err(NotInitialized)
    case Some(admin) => if Signed(s, env, admin) then Ok(admin) else Err(HostAbort)
  }

  /** A recorded ledger less than `delay` ago. */
  predicate Recent(last: map<Address, nat>, a: Address, delay: nat, ledger: nat) {
    delay > 0 && a in last && ledger < SaturateU32(last[a] + delay)
  }

  predicate MayDeposit(cfg: Config, from: Address, token: Address) {
    if cfg.allowlistOn then from in cfg.allowed
    else token !in cfg.tokenAllowlistOn || (token, from) in cfg.tokenAllowed
  }

  /** `check_invariants`, on the registry and the contract's balance of the token. */
  function CheckInvariants(registry: map<Address, TokenConfig>, token: Address, held: nat): Result<()> {
    var c := GetOr(registry, token, TokenConfig(0, 0, 0, 0, 0));
    :- Need(token in registry, NotInitialized);
    :- Need(c.totalDeposited >= c.totalWithdrawn, InternalError);
    var net :- PlainI128(c.Net());
    :- Need(net >= c.totalLiabilities, InternalError);
    :- Need(held >= net, InsufficientFunds);
    Ok(())
  }

  function ValidateFiat(s: State, env: Env, from: Address, amount: I128): Result<(map<Address, Window>, I128)> {
    if s.cfg.oracle == None && s.cfg.fiatLimit == None then Ok((s.fiatVolume, 0))
    else
      :- Need(s.cfg.oracle.Some?, OracleNotSet);
      :- Need(env.price.Some? && env.price.value > 0, OraclePriceInvalid);
      var price := env.price.value;
      if s.cfg.fiatLimit == None then Ok((s.fiatVolume, price))
      else
        var w :- ChargeFiat(Find(s.fiatVolume, from), s.cfg.fiatLimit.value, env.ledger, amount, price);
        Ok((Store(s.fiatVolume, from, w), price))
  }

  /** The quota of the recipient and the breaker, in the order both payout paths use. */
  function ChargeLimits(s: State, env: Env, to: Address, amount: int): Result<(map<Address, Window>, Breaker)> {
    var w :- ChargeQuota(Find(s.quotaUsed, to), s.cfg.quota, env.ledger, amount);
    var b :- ChargeBreaker(s.breaker, s.cfg.breakerThreshold, s.cfg.breakerWindow, env.ledger, amount);
    Ok((Store(s.quotaUsed, to, w), b))
  }

  // ---- entry points ----

  /** The storage before the first call, with the defaults that reads of absent cells fall back to. */
  function Blank(self: Address, token: Address): State {
    var cfg := Config(
      false, 0, 0, 0, 0, 0, WITHDRAWAL_EXPIRY_WINDOW_LEDGERS, 0, 0, None, None,
      0, CIRCUIT_BREAKER_RESET_LEDGERS, false, {}, {}, {}, {}, None, None);
    State(
      self, token, None, map[], None, None, None, cfg, map[], map[],
      map[], map[], 0, map[], map[], map[], map[], 0, map[],
      map[], map[], map[], Breaker(None, false, 0), map[], 0, [])
  }

  function CheckNonce(nonce: nat, current: nat): Result<()> {
    if nonce < current then Err(StaleNonce)
    else if nonce > current then Err(InvalidNonce)
    else Ok(())
  }

  /** `init`, whatever the storage holds. The schema version outlives the administrator. The caller's
      nonce is counted up before the checks and stored as zero at the end. */
  function Initialize(s: State, env: Env, admin: Address, token: Address, limit: I128, minDeposit: I128, nonce: nat):
    Result<State>
  {
    var config, current := TokenConfig(limit, 0, 0, 0, 0), GetOr(s.initNonces, admin, 0);
    :- Need(admin in env.signers, HostAbort);
    var _ :- CheckNonce(nonce, current);
    :- Need(current + 1 <= U64_MAX, Overflow);
    :- Need(s.admin == None && s.schemaVersion == None, AlreadyInitialized);
    :- Need(limit > 0, ZeroAmount);
    :- Need(limit != I128_MAX && minDeposit != I128_MAX, InvalidAmount);
    :- Need(1 <= minDeposit < limit, BelowMinimum);
    :- Need(admin != token, SelfReferentialAddress);
    :- Need(admin != s.self, Unauthorized);
    Ok(s.(schemaVersion := Some(1), initNonces := s.initNonces[admin := 0], admin := Some(admin), token := token,
          cfg := s.cfg.(minDeposit := minDeposit, antiSandwich := 0), registry := s.registry[token := config]))
  }

  /** The first initialization; no nonce but zero passes. */
  function Init(self: Address, env: Env, admin: Address, token: Address, limit: I128, minDeposit: I128): Result<State> {
    var s :- Initialize(Blank(self, token), env, admin, token, limit, minDeposit, 0);
    Ok(s.(now := env.ledger))
  }

  /** The checks of a deposit that look at nothing but the call, the settings and the registry. */
  function AdmitDeposit(s: State, env: Env, from: Address, amount: I128, token: Address, reference: string,
                        memo: Option<Hash>): Result<()>
  {
    var c := GetOr(s.registry, token, TokenConfig(0, 0, 0, 0, 0));
    :- Need(memo != Some(0), InvalidMemoHash);
    :- Need(Signed(s, env, from), HostAbort);
    :- Need(!s.cfg.paused, ContractPaused);
    :- Need(amount > 0, ZeroAmount);
    :- Need(|reference| <= MAX_REFERENCE_LEN, ReferenceTooLong);
    :- Need(!Recent(s.lastDeposit, from, s.cfg.cooldown, env.ledger), CooldownActive);
    :- Need(Max(Max(s.cfg.cooldown, s.cfg.antiSandwich), 1) + STAMP_MARGIN <= U32_MAX, HostAbort);
    :- Need(MayDeposit(s.cfg, from, token), NotAllowed);
    :- Need(from !in s.cfg.denied, AddressDenied);
    :- Need(token in s.registry, TokenNotWhitelisted);
    :- Need(amount >= s.cfg.minDeposit, BelowMinimum);
    :- Need(amount <= c.limit, ExceedsLimit);
    Ok(())
  }

  /** The cells in which a deposit is recorded. */
  datatype Books = Books(
    registry: map<Address, TokenConfig>, balances: Balances,
    receipts: map<ReceiptId, Receipt>, receiptIndex: map<nat, ReceiptId>, receiptCounter: nat,
    userDeposited: map<Address, int>)

  /** Moves the tokens of a deposit, issues its receipt, counts it, and checks the books. */
  function PayIn(k: Books, self: Address, ledger: nat, id: ReceiptId, token: Address, memo: Option<Hash>): Result<Books>
    requires token in k.registry && id.amount >= 0
  {
    var c := k.registry[token];
    var total := GetOr(k.userDeposited, id.depositor, 0) + id.amount;
    var balances :- Transfer(k.balances, token, id.depositor, self, id.amount);
    :- Need(id !in k.receipts, InternalError);
    :- Need(k.receiptCounter + 1 <= U64_MAX, HostAbort);
    :- Need(FitsI128(c.totalDeposited + id.amount), Overflow);
    :- Need(FitsI128(total), InternalError);
    var registry := k.registry[token := c.(totalDeposited := c.totalDeposited + id.amount)];
    var _ :- CheckInvariants(registry, token, Balance(balances, token, self));
    Ok(Books(registry, balances,
             k.receipts[id := Receipt(id.depositor, id.amount, ledger, id.reference, memo)],
             k.receiptIndex[k.receiptCounter := id], k.receiptCounter + 1,
             k.userDeposited[id.depositor := total]))
  }

  function BooksOf(s: State): Books {
    Books(s.registry, s.balances, s.receipts, s.receiptIndex, s.receiptCounter, s.userDeposited)
  }

  function SettleDeposit(s: State, ledger: nat, id: ReceiptId, token: Address, memo: Option<Hash>, price: int):
    Result<State>
    requires token in s.registry && id.amount >= 0
  {
    var from := id.depositor;
    var k :- PayIn(BooksOf(s), s.self, ledger, id, token, memo);
    Ok(s.(registry := k.registry, balances := k.balances, receipts := k.receipts, receiptIndex := k.receiptIndex,
          receiptCounter := k.receiptCounter, userDeposited := k.userDeposited,
          lastDeposit := s.lastDeposit[from := ledger],
          lastLarge := if s.cfg.withdrawThreshold > 0 && id.amount >= s.cfg.withdrawThreshold
                       then s.lastLarge[from := ledger] else s.lastLarge,
          history := s.history + [Deposited(ledger, token, from, id.amount, price)]))
  }

  /** Every check of a deposit before tokens move: the limits charged with it, and the oracle's price. */
  function ClearDeposit(s: State, env: Env, from: Address, amount: I128, token: Address, reference: string,
                        expectedPrice: I128, maxSlippage: U32, memo: Option<Hash>):
    Result<(map<(Address, Address), Window>, map<Address, Window>, I128)>
  {
    var _ :- AdmitDeposit(s, env, from, amount, token, reference, memo);
    var stored, limit := Find(s.dailyDeposits, (from, token)), s.registry[token].dailyDepositLimit;
    var daily :- ChargeDaily(stored, limit, env.ledger, amount);
    var fiat :- ValidateFiat(s, env, from, amount);
    var _ :- Slippage.CheckSlippage(expectedPrice, fiat.1, maxSlippage);
    Ok((Store(s.dailyDeposits, (from, token), daily), fiat.0, fiat.1))
  }

  function Deposit(s: State, env: Env, from: Address, amount: I128, token: Address, reference: string,
                   expectedPrice: I128, maxSlippage: U32, memo: Option<Hash>): Result<(State, ReceiptId)>
  {
    var id := ReceiptId(from, amount, env.ledger, reference, s.receiptCounter);
    var cleared :- ClearDeposit(s, env, from, amount, token, reference, expectedPrice, maxSlippage, memo);
    var s' :- SettleDeposit(s, env.ledger, id, token, memo, cleared.2);
    Ok((s'.(dailyDeposits := cleared.0, fiatVolume := cleared.1), id))
  }

  /** Moves the tokens of a payout, counts it, and checks the books; `reserved` of it was owed to a request. */
  function PayOut(registry: map<Address, TokenConfig>, balances: Balances, self: Address,
                  token: Address, to: Address, amount: nat, reserved: nat):
                    Result<(map<Address, TokenConfig>, Balances)>
  {
    var balances' :- Transfer(balances, token, self, to, amount);
    :- Need(token in registry, TokenNotWhitelisted);
    var c := registry[token];
    :- Need(FitsI128(c.totalWithdrawn + amount), InternalError);
    :- Need(FitsI128(c.totalLiabilities - reserved), HostAbort);
    var registry' := registry[token := c.(totalWithdrawn := c.totalWithdrawn + amount,
                                          totalLiabilities := c.totalLiabilities - reserved)];
    var _ :- CheckInvariants(registry', token, Balance(balances', token, self));
    Ok((registry', balances'))
  }

  function SettlePayment(s: State, ledger: nat, token: Address, to: Address, amount: nat, reserved: nat): Result<State>
  {
    var paid :- PayOut(s.registry, s.balances, s.self, token, to, amount, reserved);
    Ok(s.(registry := paid.0, balances := paid.1, history := s.history + [Paid(ledger, token, to, amount)]))
  }

  /** The checks of a direct withdrawal on the caller and the call. */
  function AdmitWithdrawal(s: State, env: Env, caller: Address, to: Address, amount: int): Result<()> {
    if s.admin == None then Err(NotInitialized)
    else if caller != s.admin.value && s.cfg.withdrawOperator != Some(caller) then Err(Unauthorized)
    else if !Signed(s, env, caller) then Err(HostAbort)
    else if s.cfg.paused then Err(ContractPaused)
    else if amount <= 0 then Err(ZeroAmount)
    else if to == s.self then Err(InvalidRecipient)
    else Ok(())
  }

  function Withdraw(s: State, env: Env, caller: Address, to: Address, amount: I128, token: Address): Result<State> {
    var _ :- AdmitWithdrawal(s, env, caller, to, amount);
    var limits :- ChargeLimits(s, env, to, amount);
    :- Need(to !in s.cfg.denied, AddressDenied);
    :- Need(amount <= Balance(s.balances, token, s.self), InsufficientFunds);
    var s' :- SettlePayment(s, env.ledger, token, to, amount, 0);
    Ok(s'.(quotaUsed := limits.0, breaker := limits.1))
  }

  /** The checks of a request on the call, the settings and the recipient. */
  function AdmitRequest(s: State, env: Env, to: Address, amount: int, memo: Option<Hash>): Result<()> {
    if memo == Some(0) then Err(InvalidMemoHash)
    else if RequireAdmin(s, env).Err? then Err(RequireAdmin(s, env).error)
    else if s.cfg.paused then Err(ContractPaused)
    else if !Clear(s.breaker, s.cfg.breakerWindow, env.ledger) then Err(CircuitBreakerActive)
    else if amount <= 0 then Err(ZeroAmount)
    else if to in s.cfg.denied then Err(AddressDenied)
    else if Recent(s.lastLarge, to, s.cfg.withdrawCooldown, env.ledger) then Err(CooldownActive)
    else if env.ledger + s.cfg.lockPeriod > U32_MAX then Err(HostAbort)
    else Ok(())
  }

  /** Counts a liability against the token, within what is not yet reserved and what the recipient deposited. */
  function Reserve(registry: map<Address, TokenConfig>, token: Address, amount: int, deposited: int, held: nat):
    Result<map<Address, TokenConfig>>
  {
    if token !in registry then Err(TokenNotWhitelisted)
    else
      var c := registry[token];
      :- Need(FitsI128(c.totalLiabilities + amount), Overflow);
      :- Need(c.totalLiabilities + amount <= SaturateI128(c.Net()) && amount <= deposited, InsufficientFunds);
      var registry' := registry[token := c.(totalLiabilities := c.totalLiabilities + amount)];
      var _ :- CheckInvariants(registry', token, held);
      Ok(registry')
  }

  function RequestWithdrawal(s: State, env: Env, to: Address, amount: I128, token: Address,
                             memo: Option<Hash>, riskTier: U32): Result<(State, nat)>
  {
    var _ :- AdmitRequest(s, env, to, amount, memo);
    :- Need(s.nextId + 1 <= U64_MAX, HostAbort);
    var deposited, held := GetOr(s.userDeposited, to, 0), Balance(s.balances, token, s.self);
    var registry :- Reserve(s.registry, token, amount, deposited, held);
    var request := Request(to, token, amount, env.ledger + s.cfg.lockPeriod, memo, env.ledger, riskTier);
    Ok((s.(queue := s.queue[s.nextId := request], nextId := s.nextId + 1, registry := registry), s.nextId))
  }

  /** The queue after paying `amount` of request `id`: the request shrinks, or leaves when paid in full. */
  function Served(queue: map<nat, Request>, id: nat, amount: int): map<nat, Request>
    requires id in queue
  {
    if amount == queue[id].amount then queue - {id}
    else queue[id := queue[id].(amount := queue[id].amount - amount)]
  }

  /** The checks of an execution on the request itself; the amount to pay. */
  function AdmitExecution(s: State, env: Env, id: nat, partial: Option<I128>, nonce: nat): Result<nat>
    requires id in s.queue
  {
    var r := s.queue[id];
    var _ :- CheckNonce(nonce, GetOr(s.nonces, r.to, 0));
    :- Need(env.ledger >= r.unlockLedger, WithdrawalLocked);
    :- Need(!Recent(s.lastDeposit, r.to, s.cfg.antiSandwich, env.ledger), AntiSandwichDelayActive);
    match partial
    case None => if r.amount >= 0 then Ok(r.amount) else Err(HostAbort)
    case Some(p) => if 0 < p <= r.amount then Ok(p) else Err(ZeroAmount)
  }

  /** The optional comparison with a benchmark price. */
  function CheckBenchmark(s: State, env: Env, expectedPrice: I128, maxSlippage: U32): Result<()> {
    if expectedPrice <= 0 then Ok(())
    else if s.cfg.oracle == None then Err(OracleNotSet)
    else if env.price == None || env.price.value <= 0 then Err(OraclePriceInvalid)
    else Slippage.CheckSlippage(expectedPrice, env.price.value, maxSlippage)
  }

  /** Every check of an execution before tokens move: the amount to pay, and the limits charged with it. */
  function ClearExecution(s: State, env: Env, id: nat, partial: Option<I128>, expectedPrice: I128,
                          maxSlippage: U32, nonce: nat): Result<(nat, map<Address, Window>, Breaker)>
    requires id in s.queue
  {
    var r := s.queue[id];
    var amount :- AdmitExecution(s, env, id, partial, nonce);
    var limits :- ChargeLimits(s, env, r.to, amount);
    :- Need(amount <= Balance(s.balances, r.token, s.self), InsufficientFunds);
    var _ :- CheckBenchmark(s, env, expectedPrice, maxSlippage);
    :- Need(nonce + 1 <= U64_MAX, HostAbort);
    Ok((amount, limits.0, limits.1))
  }

  function ExecuteWithdrawal(s: State, env: Env, id: nat, partial: Option<I128>, expectedPrice: I128,
                             maxSlippage: U32, nonce: nat): Result<State>
  {
    if s.cfg.paused then Err(ContractPaused)
    else if id !in s.queue then Err(RequestNotFound)
    else
      var r := s.queue[id];
      var cleared :- ClearExecution(s, env, id, partial, expectedPrice, maxSlippage, nonce);
      var s' :- SettlePayment(s, env.ledger, r.token, r.to, cleared.0, cleared.0);
      Ok(s'.(quotaUsed := cleared.1, breaker := cleared.2,
             nonces := s.nonces[r.to := nonce + 1],
             queue := Served(s.queue, id, cleared.0)))
  }

  /** Frees what a request reserved. */
  function Unreserve(registry: map<Address, TokenConfig>, r: Request): Result<map<Address, TokenConfig>> {
    if r.token !in registry then Err(TokenNotWhitelisted)
    else
      var c := registry[r.token];
      :- Need(FitsI128(c.totalLiabilities - r.amount), HostAbort);
      Ok(registry[r.token := c.(totalLiabilities := c.totalLiabilities - r.amount)])
  }

  /** Takes request `id` out of the queue and frees what it reserved. */
  function Release(s: State, id: nat): Result<State>
    requires id in s.queue
  {
    var registry :- Unreserve(s.registry, s.queue[id]);
    Ok(s.(registry := registry, queue := s.queue - {id}))
  }

  function CancelWithdrawal(s: State, env: Env, id: nat): Result<State> {
    var _ :- RequireAdmin(s, env);
    :- Need(!s.cfg.paused, ContractPaused);
    :- Need(id in s.queue, RequestNotFound);
    var s' :- Release(s, id);
    var token := s.queue[id].token;
    var _ :- CheckInvariants(s'.registry, token, Balance(s.balances, token, s.self));
    Ok(s')
  }

  function ReclaimExpired(s: State, env: Env, id: nat): Result<State> {
    var _ :- RequireAdmin(s, env);
    :- Need(id in s.queue, RequestNotFound);
    :- Need(env.ledger > SaturateU32(s.queue[id].queuedLedger + s.cfg.expiryWindow), WithdrawalLocked);
    Release(s, id)
  }

  function AccrueFee(s: State, env: Env, token: Address, amount: I128): Result<State> {
    var _ :- RequireAdmin(s, env);
    :- Need(amount > 0, ZeroAmount);
    var total :- PlainI128(GetOr(s.feeVault, token, 0) + amount);
    Ok(s.(feeVault := s.feeVault[token := total]))
  }

  /** A configured fee recipient takes precedence over the one named in the call. */
  function FeeRecipient(s: State, to: Address): Address {
    if s.cfg.feeRecipient.Some? then s.cfg.feeRecipient.value else to
  }

  function WithdrawFees(s: State, env: Env, to: Address, token: Address, amount: I128): Result<State> {
    var _ :- RequireAdmin(s, env);
    :- Need(amount > 0, ZeroAmount);
    var current := GetOr(s.feeVault, token, 0);
    :- Need(current > 0, NoFeesToWithdraw);
    :- Need(amount <= current, FeeWithdrawalExceedsBalance);
    var recipient := FeeRecipient(s, to);
    var balances :- Transfer(s.balances, token, s.self, recipient, amount);
    Ok(s.(balances := balances,
          feeVault := s.feeVault[token := current - amount],
          history := if recipient == s.self then s.history
                     else s.history + [FeePaid(env.ledger, token, recipient, amount)]))
  }

  function TransferAdmin(s: State, env: Env, candidate: Address): Result<State> {
    var admin :- RequireAdmin(s, env);
    :- Need(candidate != admin, SameAdmin);
    Ok(s.(pendingAdmin := Some((candidate, env.ledger)),
          history := s.history + [AdminProposed(env.ledger, admin, candidate)]))
  }

  function AcceptAdmin(s: State, env: Env): Result<State> {
    var ledger := env.ledger;
    :- Need(s.pendingAdmin.Some?, NoPendingAdmin);
    var (candidate, proposedAt) := s.pendingAdmin.value;
    :- Need(Signed(s, env, candidate), HostAbort);
    :- Need(proposedAt + MIN_TIMELOCK_DELAY <= U64_MAX, Overflow);
    :- Need(ledger >= proposedAt + MIN_TIMELOCK_DELAY, ActionNotReady);
    Ok(s.(admin := Some(candidate), pendingAdmin := None,
          history := s.history + [AdminAccepted(ledger, s.admin, candidate)]))
  }

  function QueueRenounce(s: State, env: Env): Result<State> {
    var admin :- RequireAdmin(s, env);
    :- Need(!s.cfg.paused, ContractPaused);
    :- Need(env.ledger + MIN_TIMELOCK_DELAY <= U32_MAX, Overflow);
    Ok(s.(renounceAt := Some(env.ledger + MIN_TIMELOCK_DELAY),
          history := s.history + [RenounceQueued(env.ledger, admin)]))
  }

  function CancelRenounce(s: State, env: Env): Result<State> {
    var admin :- RequireAdmin(s, env);
    :- Need(s.renounceAt.Some?, ActionNotQueued);
    Ok(s.(renounceAt := None, history := s.history + [RenounceCancelled(env.ledger, admin)]))
  }

  function ExecuteRenounce(s: State, env: Env): Result<State> {
    var admin :- RequireAdmin(s, env);
    :- Need(s.renounceAt.Some?, ActionNotQueued);
    :- Need(env.ledger > s.renounceAt.value, ActionNotReady);
    Ok(s.(renounceAt := None, admin := None, pendingAdmin := None,
          history := s.history + [Renounced(env.ledger, admin)]))
  }

  function ResetBreaker(s: State, env: Env): Result<State> {
    var _ :- RequireAdmin(s, env);
    Ok(s.(breaker := s.breaker.(tripped := false)))
  }

  /** Stands for every setter of the administrator at once. */
  function Reconfigure(s: State, env: Env, cfg: Config): Result<State> {
    var _ :- RequireAdmin(s, env);
    Ok(s.(cfg := cfg))
  }

  /** The settings an executed multisig action can change, without the administrator. */
  function MultisigReconfigure(s: State, cooldown: nat, lockPeriod: nat, quota: int, antiSandwich: nat, paused: bool):
    State
  {
    s.(cfg := s.cfg.(cooldown := cooldown, lockPeriod := lockPeriod, quota := quota,
                     antiSandwich := antiSandwich, paused := paused))
  }

  /** `set_limit` and `set_daily_deposit_limit`, with any values. */
  function SetLimits(s: State, env: Env, token: Address, limit: I128, daily: I128): Result<State> {
    var _ :- RequireAdmin(s, env);
    :- Need(token in s.registry, TokenNotWhitelisted);
    Ok(s.(registry := s.registry[token := s.registry[token].(limit := limit, dailyDepositLimit := daily)]))
  }

  /** A token transfer or mint that does not go through the contract. */
  function OutsideTransfer(s: State, env: Env, token: Address, from: Option<Address>, to: Address, amount: nat):
    Result<State>
  {
    var ledger := env.ledger;
    :- Need(from != Some(s.self), HostAbort);
    var balances :- if from.Some? then Transfer(s.balances, token, from.value, to, amount)
                    else Ok(s.balances[(token, to) := Balance(s.balances, token, to) + amount]);
    Ok(s.(balances := balances,
          history := if to == s.self then s.history + [Arrived(ledger, token, amount)] else s.history))
  }

  // ---- runs ----

  datatype Op =
    | OpInit(admin: Address, token: Address, limit: I128, minDeposit: I128, nonce: nat)
    | OpDeposit(from: Address, amount: I128, token: Address, reference: string,
                expectedPrice: I128, maxSlippage: U32, memo: Option<Hash>)
    | OpWithdraw(caller: Address, to: Address, amount: I128, token: Address)
    | OpRequest(to: Address, amount: I128, token: Address, memo: Option<Hash>, riskTier: U32)
    | OpExecute(id: nat, partial: Option<I128>, expectedPrice: I128, maxSlippage: U32, nonce: nat)
    | OpCancel(id: nat)
    | OpReclaim(id: nat)
    | OpAccrueFee(token: Address, amount: I128)
    | OpWithdrawFees(to: Address, token: Address, amount: I128)
    | OpTransferAdmin(candidate: Address)
    | OpAcceptAdmin
    | OpQueueRenounce
    | OpCancelRenounce
    | OpExecuteRenounce
    | OpResetBreaker
    | OpReconfigure(cfg: Config)
    | OpMultisig(cooldown: nat, lockPeriod: nat, quota: int, antiSandwich: nat, paused: bool)
    | OpSetLimits(token: Address, limit: I128, daily: I128)
    | OpOutside(token: Address, source: Option<Address>, to: Address, quantity: nat)

  /** The calls about who administers the contract. */
  predicate GovOp(op: Op) {
    op.OpTransferAdmin? || op.OpAcceptAdmin? || op.OpQueueRenounce? || op.OpCancelRenounce? || op.OpExecuteRenounce?
  }

  /** The calls that make or withdraw requests without paying them. */
  predicate AboutRequests(op: Op) { op.OpRequest? || op.OpCancel? || op.OpReclaim? }

  datatype Call = Call(env: Env, op: Op)

  function First<A, B>(r: Result<(A, B)>): Result<A> {
    match r case Ok(p) => Ok(p.0) case Err(e) => Err(e)
  }

  function Apply(s: State, env: Env, op: Op): Result<State> {
    match op
    case OpInit(admin, token, limit, minDeposit, nonce) => Initialize(s, env, admin, token, limit, minDeposit, nonce)
    case OpDeposit(from, amount, token, reference, expected, slippage, memo) =>
      First(Deposit(s, env, from, amount, token, reference, expected, slippage, memo))
    case OpWithdraw(caller, to, amount, token) => Withdraw(s, env, caller, to, amount, token)
    case OpRequest(to, amount, token, memo, tier) => First(RequestWithdrawal(s, env, to, amount, token, memo, tier))
    case OpExecute(id, partial, expected, slippage, nonce) =>
      ExecuteWithdrawal(s, env, id, partial, expected, slippage, nonce)
    case OpCancel(id) => CancelWithdrawal(s, env, id)
    case OpReclaim(id) => ReclaimExpired(s, env, id)
    case OpAccrueFee(token, amount) => AccrueFee(s, env, token, amount)
    case OpWithdrawFees(to, token, amount) => WithdrawFees(s, env, to, token, amount)
    case OpTransferAdmin(candidate) => TransferAdmin(s, env, candidate)
    case OpAcceptAdmin => AcceptAdmin(s, env)
    case OpQueueRenounce => QueueRenounce(s, env)
    case OpCancelRenounce => CancelRenounce(s, env)
    case OpExecuteRenounce => ExecuteRenounce(s, env)
    case OpResetBreaker => ResetBreaker(s, env)
    case OpReconfigure(cfg) => Reconfigure(s, env, cfg)
    case OpMultisig(cooldown, lock, quota, sandwich, paused) =>
      Ok(MultisigReconfigure(s, cooldown, lock, quota, sandwich, paused))
    case OpSetLimits(token, limit, daily) => SetLimits(s, env, token, limit, daily)
    case OpOutside(token, source, to, quantity) => OutsideTransfer(s, env, token, source, to, quantity)
  }

  /** A call at a ledger before the last successful one cannot happen. */
  function Step(s: State, call: Call): Result<State> {
    var ledger := call.env.ledger;
    :- Need(ledger >= s.now, HostAbort);
    var s' :- Apply(s, call.env, call.op);
    Ok(s'.(now := ledger))
  }

  /** The result and the new state a call has: rolled back when it fails. */
  predicate Performs<T>(s: State, call: Call, r: Result<T>, s': State) {
    if r.Ok? then Step(s, call) == Ok(s') else Step(s, call) == Err(r.error) && s' == s
  }

  function Next(s: State, call: Call): State {
    match Step(s, call) case Ok(s') => s' case Err(_) => s
  }

  function Run(s: State, calls: seq<Call>): State
    decreases |calls|
  {
    if calls == [] then s else Run(Next(s, calls[0]), calls[1..])
  }
}
