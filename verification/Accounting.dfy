/** What every reachable state of the escrow keeps: the accounts agree with the history, the queue
    and the receipts. */
module Accounting {
  import opened Prelude
  import opened Sums
  import opened Windows
  import CircuitBreaker
  import opened Escrow

  // ---- totals over the history ----

  ghost function Total(h: seq<Event>, weigh: Event -> int): int {
    if h == [] then 0 else Total(h[..|h| - 1], weigh) + weigh(h[|h| - 1])
  }

  lemma TotalAppend(h: seq<Event>, e: Event, weigh: Event -> int)
    ensures Total(h + [e], weigh) == Total(h, weigh) + weigh(e)
  {
    assert (h + [e])[..|h|] == h;
  }

  function DepositsOf(token: Address): Event -> int {
    (e: Event) => if e.Deposited? && e.token == token then e.amount else 0
  }
  function PaymentsOf(token: Address): Event -> int {
    (e: Event) => if e.Paid? && e.token == token then e.amount else 0
  }
  function FeesOf(token: Address): Event -> int {
    (e: Event) => if e.FeePaid? && e.token == token then e.amount else 0
  }
  function ArrivalsOf(token: Address): Event -> int {
    (e: Event) => if e.Arrived? && e.token == token then e.amount else 0
  }

  lemma TotalsAppend(h: seq<Event>, e: Event, token: Address)
    ensures Total(h + [e], DepositsOf(token)) == Total(h, DepositsOf(token)) + DepositsOf(token)(e)
    ensures Total(h + [e], PaymentsOf(token)) == Total(h, PaymentsOf(token)) + PaymentsOf(token)(e)
    ensures Total(h + [e], FeesOf(token)) == Total(h, FeesOf(token)) + FeesOf(token)(e)
    ensures Total(h + [e], ArrivalsOf(token)) == Total(h, ArrivalsOf(token)) + ArrivalsOf(token)(e)
  {
    TotalAppend(h, e, DepositsOf(token));
    TotalAppend(h, e, PaymentsOf(token));
    TotalAppend(h, e, FeesOf(token));
    TotalAppend(h, e, ArrivalsOf(token));
  }

  // ---- what live requests and receipts add up to ----

  function Remaining(queue: map<nat, Request>, token: Address): map<nat, int> {
    map id | id in queue && queue[id].token == token :: queue[id].amount
  }

  ghost function Owed(queue: map<nat, Request>, token: Address): int { MapSum(Remaining(queue, token)) }

  function Amounts(receipts: map<ReceiptId, Receipt>): map<ReceiptId, int> {
    map id | id in receipts :: receipts[id].amount
  }

  function AmountsOf(receipts: map<ReceiptId, Receipt>, user: Address): map<ReceiptId, int> {
    map id | id in receipts && receipts[id].depositor == user :: receipts[id].amount
  }

  // ---- the invariant ----

  /** The counters of the token agree with the history and the queue, and cover what is owed. */
  ghost predicate CountersOk(c: TokenConfig, token: Address, queue: map<nat, Request>, history: seq<Event>) {
    && c.totalDeposited == Total(history, DepositsOf(token))
    && c.totalWithdrawn == Total(history, PaymentsOf(token))
    && c.totalLiabilities == Owed(queue, token)
    && 0 <= c.totalWithdrawn && 0 <= c.totalLiabilities <= c.Net()
    && c.totalDeposited <= I128_MAX
  }

  /** The contract's own balance: net deposits, plus what arrived from outside, less fees paid out. */
  ghost predicate BalanceOk(held: int, c: TokenConfig, token: Address, history: seq<Event>) {
    held == c.Net() + Total(history, ArrivalsOf(token)) - Total(history, FeesOf(token))
  }

  ghost predicate QueueOk(queue: map<nat, Request>, nextId: nat, self: Address, token: Address, now: nat) {
    && (forall id :: id in queue ==>
          && id < nextId
          && queue[id].amount > 0
          && queue[id].to != self
          && queue[id].token == token
          && queue[id].queuedLedger <= now)
    && (forall i, j :: i in queue && j in queue && i < j ==> queue[i].queuedLedger <= queue[j].queuedLedger)
  }

  ghost predicate ReceiptsOk(receipts: map<ReceiptId, Receipt>, counter: nat, total: int,
                             userDeposited: map<Address, int>, self: Address) {
    && (forall id :: id in receipts ==>
          id.counter < counter && receipts[id].amount > 0 && receipts[id].depositor != self)
    && MapSum(Amounts(receipts)) == total
    && (forall u :: MapSum(AmountsOf(receipts, u)) == GetOr(userDeposited, u, 0))
  }

  ghost predicate LimitsOk(quotaUsed: map<Address, Window>, dailyDeposits: map<(Address, Address), Window>,
                           fiatVolume: map<Address, Window>, breaker: CircuitBreaker.Breaker, now: nat) {
    && (forall u :: u in quotaUsed ==> Windows.Sane(Some(quotaUsed[u]), now))
    && (forall u :: u in dailyDeposits ==> Windows.Sane(Some(dailyDeposits[u]), now))
    && (forall u :: u in fiatVolume ==> Windows.Sane(Some(fiatVolume[u]), now))
    && CircuitBreaker.Sane(breaker, now)
  }

  ghost predicate Inv(s: State) {
    && s.schemaVersion.Some?
    && s.registry.Keys == {s.token}
    && var c := s.registry[s.token];
    && CountersOk(c, s.token, s.queue, s.history)
    && BalanceOk(Balance(s.balances, s.token, s.self), c, s.token, s.history)
    && QueueOk(s.queue, s.nextId, s.self, s.token, s.now)
    && ReceiptsOk(s.receipts, s.receiptCounter, c.totalDeposited, s.userDeposited, s.self)
    && LimitsOk(s.quotaUsed, s.dailyDeposits, s.fiatVolume, s.breaker, s.now)
    && (s.pendingAdmin.Some? ==> s.pendingAdmin.value.1 <= s.now)
  }

  /** The tokens held cover the net deposits: no fee was ever paid out of them. */
  predicate Backed(s: State) {
    s.token in s.registry && Balance(s.balances, s.token, s.self) >= s.registry[s.token].Net()
  }

  // ---- the pieces of one step ----

  lemma QueueInsert(queue: map<nat, Request>, id: nat, r: Request)
    requires id !in queue
    ensures Owed(queue[id := r], r.token) == Owed(queue, r.token) + r.amount
  {
    assert Remaining(queue[id := r], r.token) == Remaining(queue, r.token)[id := r.amount];
    MapSumUpdate(Remaining(queue, r.token), id, r.amount);
  }

  lemma QueueRemove(queue: map<nat, Request>, id: nat)
    requires id in queue
    ensures Owed(queue - {id}, queue[id].token) == Owed(queue, queue[id].token) - queue[id].amount
  {
    var token := queue[id].token;
    assert Remaining(queue - {id}, token) == Remaining(queue, token) - {id};
    MapSumRemove(Remaining(queue, token), id);
  }

  lemma QueueServe(queue: map<nat, Request>, id: nat, amount: int)
    requires id in queue
    ensures Owed(Served(queue, id, amount), queue[id].token) == Owed(queue, queue[id].token) - amount
  {
    var r := queue[id];
    if amount == r.amount {
      QueueRemove(queue, id);
    } else {
      assert Remaining(Served(queue, id, amount), r.token) == Remaining(queue, r.token)[id := r.amount - amount];
      MapSumUpdate(Remaining(queue, r.token), id, r.amount - amount);
    }
  }

  /** What one request reserves is part of what is owed. */
  lemma OneIsOwed(queue: map<nat, Request>, id: nat, nextId: nat, self: Address, token: Address, now: nat)
    requires QueueOk(queue, nextId, self, token, now) && id in queue
    ensures queue[id].token == token && queue[id].to != self
    ensures 0 < queue[id].amount <= Owed(queue, token)
    ensures Owed(queue - {id}, token) >= 0
  {
    QueueRemove(queue, id);
    var rest := Remaining(queue - {id}, token);
    MapSumSubset(rest, rest);
  }

  lemma AmountsAdd(receipts: map<ReceiptId, Receipt>, id: ReceiptId, r: Receipt)
    requires id !in receipts
    ensures MapSum(Amounts(receipts[id := r])) == MapSum(Amounts(receipts)) + r.amount
  {
    assert Amounts(receipts[id := r]) == Amounts(receipts)[id := r.amount];
    MapSumUpdate(Amounts(receipts), id, r.amount);
  }

  lemma AmountsOfAdd(receipts: map<ReceiptId, Receipt>, id: ReceiptId, r: Receipt, user: Address)
    requires id !in receipts
    ensures MapSum(AmountsOf(receipts[id := r], user))
            == MapSum(AmountsOf(receipts, user)) + if user == r.depositor then r.amount else 0
  {
    if user == r.depositor {
      assert AmountsOf(receipts[id := r], user) == AmountsOf(receipts, user)[id := r.amount];
      MapSumUpdate(AmountsOf(receipts, user), id, r.amount);
    } else {
      assert AmountsOf(receipts[id := r], user) == AmountsOf(receipts, user);
    }
  }

  /** A new receipt cannot collide with an old one, and keeps the sums of receipts. */
  lemma ReceiptAdd(receipts: map<ReceiptId, Receipt>, counter: nat, total: int, userDeposited: map<Address, int>,
                   self: Address, id: ReceiptId, r: Receipt)
    requires ReceiptsOk(receipts, counter, total, userDeposited, self)
    requires id.counter == counter && r.amount > 0 && r.depositor != self
    ensures id !in receipts
    ensures ReceiptsOk(receipts[id := r], counter + 1, total + r.amount,
                       userDeposited[r.depositor := GetOr(userDeposited, r.depositor, 0) + r.amount], self)
  {
    hide Amounts, AmountsOf, MapSum;
    AmountsAdd(receipts, id, r);
    var receipts' := receipts[id := r];
    var deposited' := userDeposited[r.depositor := GetOr(userDeposited, r.depositor, 0) + r.amount];
    forall u
      ensures MapSum(AmountsOf(receipts', u)) == GetOr(deposited', u, 0)
    {
      AmountsOfAdd(receipts, id, r, u);
      assert MapSum(AmountsOf(receipts, u)) == GetOr(userDeposited, u, 0);
    }
  }

  /** No depositor's total exceeds the token's. */
  lemma UserBelowTotal(receipts: map<ReceiptId, Receipt>, counter: nat, total: int,
                       userDeposited: map<Address, int>, self: Address, u: Address)
    requires ReceiptsOk(receipts, counter, total, userDeposited, self)
    ensures 0 <= GetOr(userDeposited, u, 0) <= total
    ensures GetOr(userDeposited, self, 0) == 0
  {
    assert MapSum(AmountsOf(receipts, u)) == GetOr(userDeposited, u, 0);
    MapSumSubset(AmountsOf(receipts, u), Amounts(receipts));
    assert MapSum(AmountsOf(receipts, self)) == GetOr(userDeposited, self, 0);
    assert AmountsOf(receipts, self) == map[];
  }
}
