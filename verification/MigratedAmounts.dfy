/** The migration preserves what the receipts are worth: over every run of the escrow, migrating its
    receipts gives records that add up to the total deposited. */
module MigratedAmounts {
  import opened Prelude
  import opened Sums
  import opened Escrow
  import opened Accounting
  import M = Migration
  import Reachable
  import Slippage
  import Windows
  import CB = CircuitBreaker

  /** The index counts through the receipts: dense, in order of issue, and naming each of them. */
  ghost predicate Indexed(receipts: map<ReceiptId, Receipt>, index: map<nat, ReceiptId>, counter: nat) {
    && (forall i: nat :: i in index <==> i < counter)
    && (forall i :: i in index ==> index[i] in receipts && index[i].counter == i)
    && (forall id :: id in receipts ==> id.counter in index && index[id.counter] == id)
  }

  /** The receipts name their depositor twice. */
  predicate Named(receipts: map<ReceiptId, Receipt>) {
    forall id :: id in receipts ==> receipts[id].depositor == id.depositor
  }

  /** A deposit issues one receipt, under the next sequence number. */
  lemma DepositIssues(s: State, env: Env, op: Op)
    requires op.OpDeposit? && Apply(s, env, op).Ok?
    ensures var s' := Apply(s, env, op).value;
      var id := ReceiptId(op.from, op.amount, env.ledger, op.reference, s.receiptCounter);
      && s'.receiptCounter == s.receiptCounter + 1
      && s'.receiptIndex == s.receiptIndex[s.receiptCounter := id]
      && s'.receipts == s.receipts[id := Receipt(op.from, op.amount, env.ledger, op.reference, op.memo)]
  {
    hide Transfer, Balance, CheckInvariants, AdmitDeposit, Windows.ChargeDaily, ValidateFiat, Slippage.CheckSlippage,
         Withdraw, ExecuteWithdrawal, RequestWithdrawal, CancelWithdrawal, ReclaimExpired, WithdrawFees,
         OutsideTransfer;
  }

  lemma DepositKeepsIndexed(s: State, env: Env, op: Op)
    requires op.OpDeposit? && Apply(s, env, op).Ok?
    requires Indexed(s.receipts, s.receiptIndex, s.receiptCounter) && Named(s.receipts)
    ensures var s' := Apply(s, env, op).value;
      Indexed(s'.receipts, s'.receiptIndex, s'.receiptCounter) && Named(s'.receipts)
  {
    hide Apply;
    DepositIssues(s, env, op);
  }

  predicate SameReceipts(s: State, s': State) {
    s'.receipts == s.receipts && s'.receiptIndex == s.receiptIndex && s'.receiptCounter == s.receiptCounter
  }

  lemma PayoutsLeaveReceipts(s: State, env: Env, op: Op)
    requires (op.OpWithdraw? || op.OpExecute?) && Apply(s, env, op).Ok?
    ensures SameReceipts(s, Apply(s, env, op).value)
  {
    hide ChargeLimits, Transfer, Balance, CheckInvariants, AdmitExecution, CheckBenchmark, Served, Deposit,
         RequestWithdrawal, CancelWithdrawal, ReclaimExpired, WithdrawFees, OutsideTransfer;
  }

  lemma OthersLeaveReceipts(s: State, env: Env, op: Op)
    requires !op.OpWithdraw? && !op.OpExecute? && !op.OpDeposit? && Apply(s, env, op).Ok?
    ensures SameReceipts(s, Apply(s, env, op).value)
  {
    hide Transfer, Balance, CheckInvariants, Deposit, Withdraw, ExecuteWithdrawal, Recent, CB.Clear;
  }

  lemma {:induction false} RunKeepsIndexed(s: State, calls: seq<Call>)
    requires Indexed(s.receipts, s.receiptIndex, s.receiptCounter) && Named(s.receipts)
    ensures var s' := Run(s, calls); Indexed(s'.receipts, s'.receiptIndex, s'.receiptCounter) && Named(s'.receipts)
    decreases |calls|
  {
    hide Indexed, Named, Apply;
    if calls != [] {
      var env, op := calls[0].env, calls[0].op;
      if Step(s, calls[0]).Ok? {
        if op.OpDeposit? {
          DepositKeepsIndexed(s, env, op);
        } else if op.OpWithdraw? || op.OpExecute? {
          PayoutsLeaveReceipts(s, env, op);
        } else {
          OthersLeaveReceipts(s, env, op);
        }
      }
      RunKeepsIndexed(Next(s, calls[0]), calls[1..]);
    }
  }

  function RecordAmounts(records: map<nat, M.EscrowRecord>): map<nat, int> {
    map i | i in records :: records[i].amount
  }

  function RecordAmountsOf(records: map<nat, M.EscrowRecord>, user: Address): map<nat, int> {
    map i | i in records && records[i].depositor == user :: records[i].amount
  }

  /** What is left of the index after evictions. */
  predicate Surviving(part: map<nat, ReceiptId>, whole: map<nat, ReceiptId>) {
    forall i :: i in part ==> i in whole && part[i] == whole[i]
  }

  /** The records of a complete index add up to the receipts, in all and for each depositor. */
  lemma FullCopyConserves(src: M.Source, user: Address)
    requires Indexed(src.receipts, src.index, src.counter)
    ensures var records := M.Copy(src, 0, src.counter);
      && MapSum(RecordAmounts(records)) == MapSum(Amounts(src.receipts))
      && MapSum(RecordAmountsOf(records, user)) == MapSum(AmountsOf(src.receipts, user))
  {
    var records := M.Copy(src, 0, src.counter);
    var from := map id | id in src.receipts :: id.counter;
    MapSumRename(RecordAmounts(records), Amounts(src.receipts), src.index, from);
    MapSumRename(RecordAmountsOf(records, user), AmountsOf(src.receipts, user), src.index, from);
  }

  /** Every receipt of the depositor is still indexed. */
  predicate AllIndexed(index: map<nat, ReceiptId>, whole: map<nat, ReceiptId>, user: Address) {
    forall i :: i in whole && whole[i].depositor == user ==> i in index
  }

  lemma PartialCopyIsPart(whole: M.Source, index: map<nat, ReceiptId>, user: Address)
    requires Indexed(whole.receipts, whole.index, whole.counter) && Surviving(index, whole.index)
        && Named(whole.receipts)
    requires forall id :: id in whole.receipts ==> whole.receipts[id].amount > 0
    ensures var some, all := M.Copy(whole.(index := index), 0, whole.counter), M.Copy(whole, 0, whole.counter);
      && MapSum(RecordAmounts(some)) <= MapSum(RecordAmounts(all))
      && MapSum(RecordAmountsOf(some, user)) <= MapSum(RecordAmountsOf(all, user))
      && (MapSum(RecordAmounts(some)) == MapSum(RecordAmounts(all)) <==> index == whole.index)
      && (MapSum(RecordAmountsOf(some, user)) == MapSum(RecordAmountsOf(all, user)) <==>
          AllIndexed(index, whole.index, user))
  {
    hide MapSum;
    var some, all := M.Copy(whole.(index := index), 0, whole.counter), M.Copy(whole, 0, whole.counter);
    MapSumPart(RecordAmounts(some), RecordAmounts(all));
    MapSumPart(RecordAmountsOf(some, user), RecordAmountsOf(all, user));
    SameKeys(whole, index);
    SameKeysOf(whole, index, user);
  }

  lemma SameKeys(whole: M.Source, index: map<nat, ReceiptId>)
    requires Indexed(whole.receipts, whole.index, whole.counter) && Surviving(index, whole.index)
    ensures var some, all := M.Copy(whole.(index := index), 0, whole.counter), M.Copy(whole, 0, whole.counter);
      RecordAmounts(some) == RecordAmounts(all) <==> index == whole.index
  {
    var some, all := M.Copy(whole.(index := index), 0, whole.counter), M.Copy(whole, 0, whole.counter);
    assert forall i :: i in RecordAmounts(some) <==> i in index;
    assert forall i :: i in RecordAmounts(all) <==> i in whole.index;
    if RecordAmounts(some) == RecordAmounts(all) {
      assert forall i :: i in whole.index ==> i in RecordAmounts(all);
    }
  }

  lemma SameKeysOf(whole: M.Source, index: map<nat, ReceiptId>, user: Address)
    requires Indexed(whole.receipts, whole.index, whole.counter) && Named(whole.receipts)
    requires Surviving(index, whole.index)
    ensures var some, all := M.Copy(whole.(index := index), 0, whole.counter), M.Copy(whole, 0, whole.counter);
      RecordAmountsOf(some, user) == RecordAmountsOf(all, user) <==> AllIndexed(index, whole.index, user)
  {
    var some, all := M.Copy(whole.(index := index), 0, whole.counter), M.Copy(whole, 0, whole.counter);
    assert forall i :: i in RecordAmountsOf(some, user) <==> i in index && whole.index[i].depositor == user;
    assert forall i :: i in RecordAmountsOf(all, user) <==> i in whole.index && whole.index[i].depositor == user;
    if AllIndexed(index, whole.index, user) {
      assert RecordAmountsOf(some, user).Keys == RecordAmountsOf(all, user).Keys;
    }
    if RecordAmountsOf(some, user) == RecordAmountsOf(all, user) {
      forall i | i in whole.index && whole.index[i].depositor == user
        ensures i in index
      {
        assert i in RecordAmountsOf(all, user);
      }
    }
  }

  /** After any run of the escrow and any completed sequence of batches: the migrated records add up to
      at most the total deposited, each depositor's to at most that depositor's total, with equality
      exactly when no index entry, or none of that depositor, was evicted. */
  lemma MigrationConserves(self: Address, env: Env, admin: Address, token: Address, limit: I128, minDeposit: I128,
                           calls: seq<Call>, index: map<nat, ReceiptId>, batches: seq<M.Call>, user: Address)
    requires Init(self, env, admin, token, limit, minDeposit).Ok?
    requires var s := Run(Init(self, env, admin, token, limit, minDeposit).value, calls);
      Surviving(index, s.receiptIndex)
      && M.Run(M.START, M.Source(s.receipts, index, s.receiptCounter, s.token),
               batches).version >= M.ESCROW_STORAGE_VERSION
    ensures var s := Run(Init(self, env, admin, token, limit, minDeposit).value, calls);
      var records := M.Run(M.START, M.Source(s.receipts, index, s.receiptCounter, s.token), batches).records;
      var total, deposited := MapSum(RecordAmounts(records)), MapSum(RecordAmountsOf(records, user));
      && s.token in s.registry
      && total <= s.registry[s.token].totalDeposited
      && deposited <= GetOr(s.userDeposited, user, 0)
      && (total == s.registry[s.token].totalDeposited <==> index == s.receiptIndex)
      && (deposited == GetOr(s.userDeposited, user, 0) <==> AllIndexed(index, s.receiptIndex, user))
  {
    hide CountersOk, BalanceOk, QueueOk, LimitsOk, MapSum, Step, M.Next, M.Copy, Indexed, Named;
    var s0 := Init(self, env, admin, token, limit, minDeposit).value;
    var s := Run(s0, calls);
    Reachable.InitEstablishes(self, env, admin, token, limit, minDeposit);
    Reachable.RunKeeps(s0, calls);
    StartsIndexed(self, env, admin, token, limit, minDeposit);
    RunKeepsIndexed(s0, calls);
    var whole := M.Source(s.receipts, s.receiptIndex, s.receiptCounter, s.token);
    M.BatchesEqualOnePass(whole.(index := index), batches);
    FullCopyConserves(whole, user);
    PartialCopyIsPart(whole, index, user);
    assert MapSum(AmountsOf(s.receipts, user)) == GetOr(s.userDeposited, user, 0);
  }

  lemma StartsIndexed(self: Address, env: Env, admin: Address, token: Address, limit: I128, minDeposit: I128)
    requires Init(self, env, admin, token, limit, minDeposit).Ok?
    ensures var s := Init(self, env, admin, token, limit, minDeposit).value;
      Indexed(s.receipts, s.receiptIndex, s.receiptCounter) && Named(s.receipts)
  {
  }
}
