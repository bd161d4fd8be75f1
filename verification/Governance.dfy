/** Who administers the contract over whole runs: the administrator is what the recorded hand-overs and
    renunciations make out of the first one, hand-over takes a proposal by the administrator and the full
    delay, renouncing takes the full delay, and renouncing is final. */
module Governance {
  import opened Prelude
  import opened Escrow
  import Slippage
  import Windows
  import CB = CircuitBreaker

  predicate IsGov(e: Event) {
    e.AdminProposed? || e.AdminAccepted? || e.RenounceQueued? || e.RenounceCancelled? || e.Renounced?
  }

  /** The event ends whatever proposal was pending. */
  predicate EndsProposal(e: Event) { e.AdminProposed? || e.AdminAccepted? || e.Renounced? }

  /** The event ends whatever renunciation was queued. */
  predicate EndsQueued(e: Event) { e.RenounceQueued? || e.RenounceCancelled? || e.Renounced? }

  /** The proposal made at `i` is still pending when `h[..n]` has happened. */
  predicate ProposalStands(h: seq<Event>, i: nat, n: nat, admin: Option<Address>, candidate: Address, at: nat) {
    && i < n <= |h|
    && h[i].AdminProposed? && h[i].ledger == at && admin == Some(h[i].admin) && h[i].candidate == candidate
    && forall j :: i < j < n ==> !EndsProposal(h[j])
  }

  /** The renunciation queued at `i`, executable after `target`, is still queued when `h[..n]` has happened. */
  predicate QueuedStands(h: seq<Event>, i: nat, n: nat, target: nat) {
    && i < n <= |h|
    && h[i].RenounceQueued? && h[i].ledger + MIN_TIMELOCK_DELAY == target
    && forall j :: i < j < n ==> !EndsQueued(h[j])
  }

  /** The event at `k`, if it changes or removes the administrator, was proposed or queued long enough before. */
  ghost predicate Justified(h: seq<Event>, k: nat)
    requires k < |h|
  {
    && (h[k].AdminAccepted? ==> exists i: nat, at: nat ::
          ProposalStands(h, i, k, h[k].former, h[k].candidate, at) && h[k].ledger >= at + MIN_TIMELOCK_DELAY)
    && (h[k].Renounced? ==> exists i: nat, target: nat :: QueuedStands(h, i, k, target) && h[k].ledger > target)
  }

  /** The administrator after an event: acceptances install one, renunciations remove it. */
  function AdminAfterOne(before: Option<Address>, e: Event): Option<Address> {
    match e
    case AdminAccepted(_, _, candidate) => Some(candidate)
    case Renounced(_, _) => None
    case _ => before
  }

  /** The administrator after the events. */
  function AdminAfter(initial: Option<Address>, h: seq<Event>): Option<Address> {
    if h == [] then initial else AdminAfterOne(AdminAfter(initial, h[..|h| - 1]), h[|h| - 1])
  }

  /** Whoever the event names as administrator; anybody for events outside governance. */
  predicate NamesAdmin(e: Event, admin: Option<Address>) {
    match e
    case AdminProposed(_, a, _) => admin == Some(a)
    case AdminAccepted(_, former, _) => admin == former
    case RenounceQueued(_, a) => admin == Some(a)
    case RenounceCancelled(_, a) => admin == Some(a)
    case Renounced(_, a) => admin == Some(a)
    case _ => true
  }

  /** The administrator is what the history gives, and every event names the one of its moment. */
  ghost predicate Replayed(initial: Option<Address>, admin: Option<Address>, h: seq<Event>) {
    && admin == AdminAfter(initial, h)
    && forall k :: 0 <= k < |h| ==> NamesAdmin(h[k], AdminAfter(initial, h[..k]))
  }

  ghost predicate GovOk(s: State) {
    var h := s.history;
    && s.schemaVersion.Some?
    && (forall k :: 0 <= k < |h| ==> Justified(h, k))
    && (s.pendingAdmin.Some? ==>
          exists i: nat :: ProposalStands(h, i, |h|, s.admin, s.pendingAdmin.value.0, s.pendingAdmin.value.1))
    && (s.renounceAt.Some? ==> exists i: nat :: QueuedStands(h, i, |h|, s.renounceAt.value))
  }

  // ---- appending to the history ----

  lemma JustifiedLater(h: seq<Event>, e: Event, k: nat)
    requires k < |h| && Justified(h, k)
    ensures Justified(h + [e], k)
  {
    if h[k].AdminAccepted? {
      var i: nat, at: nat :| ProposalStands(h, i, k, h[k].former, h[k].candidate, at)
          && h[k].ledger >= at + MIN_TIMELOCK_DELAY;
      assert ProposalStands(h + [e], i, k, h[k].former, h[k].candidate, at);
    }
    if h[k].Renounced? {
      var i: nat, target: nat :| QueuedStands(h, i, k, target) && h[k].ledger > target;
      assert QueuedStands(h + [e], i, k, target);
    }
  }

  lemma AllJustifiedLater(h: seq<Event>, e: Event)
    requires forall k :: 0 <= k < |h| ==> Justified(h, k)
    ensures forall k :: 0 <= k < |h| ==> Justified(h + [e], k)
  {
    forall k | 0 <= k < |h|
      ensures Justified(h + [e], k)
    {
      JustifiedLater(h, e, k);
    }
  }

  lemma ProposalLater(h: seq<Event>, e: Event, admin: Option<Address>, candidate: Address, at: nat)
    requires exists i: nat :: ProposalStands(h, i, |h|, admin, candidate, at)
    requires !EndsProposal(e)
    ensures exists i: nat :: ProposalStands(h + [e], i, |h + [e]|, admin, candidate, at)
  {
    var i: nat :| ProposalStands(h, i, |h|, admin, candidate, at);
    assert ProposalStands(h + [e], i, |h + [e]|, admin, candidate, at);
  }

  lemma QueuedLater(h: seq<Event>, e: Event, target: nat)
    requires exists i: nat :: QueuedStands(h, i, |h|, target)
    requires !EndsQueued(e)
    ensures exists i: nat :: QueuedStands(h + [e], i, |h + [e]|, target)
  {
    var i: nat :| QueuedStands(h, i, |h|, target);
    assert QueuedStands(h + [e], i, |h + [e]|, target);
  }

  // ---- one call ----

  /** Calls outside governance leave it alone. */
  ghost predicate Untouched(s: State, s': State) {
    && s'.schemaVersion == s.schemaVersion && s'.initNonces == s.initNonces
    && s'.admin == s.admin && s'.pendingAdmin == s.pendingAdmin && s'.renounceAt == s.renounceAt
    && (s'.history == s.history ||
        (|s'.history| > 0 && s'.history == s.history + [s'.history[|s'.history| - 1]]
            && !IsGov(s'.history[|s'.history| - 1])))
  }

  lemma DepositLeavesGov(s: State, env: Env, op: Op)
    requires op.OpDeposit? && Apply(s, env, op).Ok?
    ensures Untouched(s, Apply(s, env, op).value)
  {
    hide Transfer, Balance, CheckInvariants, Recent, AdmitDeposit, Windows.ChargeDaily, ValidateFiat,
         Slippage.CheckSlippage, Withdraw, ExecuteWithdrawal, RequestWithdrawal, CancelWithdrawal, ReclaimExpired,
         WithdrawFees, OutsideTransfer;
  }

  lemma PayoutLeavesGov(s: State, env: Env, op: Op)
    requires (op.OpWithdraw? || op.OpExecute?) && Apply(s, env, op).Ok?
    ensures Untouched(s, Apply(s, env, op).value)
  {
    hide ChargeLimits, Transfer, Balance, CheckInvariants, AdmitExecution, CheckBenchmark, Served, Deposit,
         RequestWithdrawal, CancelWithdrawal, ReclaimExpired, WithdrawFees, OutsideTransfer;
  }

  lemma QueueingLeavesGov(s: State, env: Env, op: Op)
    requires AboutRequests(op) && Apply(s, env, op).Ok?
    ensures Untouched(s, Apply(s, env, op).value)
  {
    hide RequireAdmin, Balance, CheckInvariants, AdmitRequest, Reserve, Unreserve, Deposit, Withdraw,
         ExecuteWithdrawal, WithdrawFees, OutsideTransfer;
  }

  lemma TokensLeaveGov(s: State, env: Env, op: Op)
    requires (op.OpWithdrawFees? || op.OpOutside?) && Apply(s, env, op).Ok?
    ensures Untouched(s, Apply(s, env, op).value)
  {
    hide RequireAdmin, Transfer, Balance, Deposit, Withdraw, ExecuteWithdrawal, RequestWithdrawal, CancelWithdrawal,
         ReclaimExpired;
  }

  predicate SettingOp(op: Op) {
    op.OpInit? || op.OpAccrueFee? || op.OpResetBreaker? || op.OpReconfigure? || op.OpMultisig? || op.OpSetLimits?
  }

  lemma SettingsLeaveGov(s: State, env: Env, op: Op)
    requires SettingOp(op) && s.schemaVersion.Some? && Apply(s, env, op).Ok?
    ensures Untouched(s, Apply(s, env, op).value)
  {
    hide RequireAdmin, Deposit, Withdraw, ExecuteWithdrawal, RequestWithdrawal, CancelWithdrawal, ReclaimExpired,
         WithdrawFees, OutsideTransfer;
  }

  /** No entry point outside governance touches its cells. */
  lemma OthersLeaveGov(s: State, env: Env, op: Op)
    requires !GovOp(op) && s.schemaVersion.Some? && Apply(s, env, op).Ok?
    ensures Untouched(s, Apply(s, env, op).value)
  {
    hide Apply, Untouched;
    if op.OpDeposit? {
      DepositLeavesGov(s, env, op);
    } else if op.OpWithdraw? || op.OpExecute? {
      PayoutLeavesGov(s, env, op);
    } else if AboutRequests(op) {
      QueueingLeavesGov(s, env, op);
    } else if SettingOp(op) {
      SettingsLeaveGov(s, env, op);
    } else {
      TokensLeaveGov(s, env, op);
    }
  }

  lemma HasVersion(s: State)
    requires GovOk(s)
    ensures s.schemaVersion.Some?
  {
  }

  lemma UntouchedKeeps(s: State, s': State)
    requires GovOk(s) && Untouched(s, s')
    ensures GovOk(s')
  {
    if s'.history != s.history {
      var h, e := s.history, s'.history[|s'.history| - 1];
      AllJustifiedLater(h, e);
      if s.pendingAdmin.Some? { ProposalLater(h, e, s.admin, s.pendingAdmin.value.0, s.pendingAdmin.value.1); }
      if s.renounceAt.Some? { QueuedLater(h, e, s.renounceAt.value); }
    }
  }

  lemma TransferKeepsGov(s: State, env: Env, candidate: Address)
    requires GovOk(s) && TransferAdmin(s, env, candidate).Ok?
    ensures GovOk(TransferAdmin(s, env, candidate).value)
  {
    var h, e := s.history, AdminProposed(env.ledger, s.admin.value, candidate);
    AllJustifiedLater(h, e);
    assert ProposalStands(h + [e], |h|, |h| + 1, s.admin, candidate, env.ledger);
    if s.renounceAt.Some? { QueuedLater(h, e, s.renounceAt.value); }
  }

  lemma AcceptKeepsGov(s: State, env: Env)
    requires GovOk(s) && AcceptAdmin(s, env).Ok?
    ensures GovOk(AcceptAdmin(s, env).value)
  {
    var h, candidate, at := s.history, s.pendingAdmin.value.0, s.pendingAdmin.value.1;
    var e := AdminAccepted(env.ledger, s.admin, candidate);
    AllJustifiedLater(h, e);
    var i: nat :| ProposalStands(h, i, |h|, s.admin, candidate, at);
    assert ProposalStands(h + [e], i, |h|, e.former, candidate, at);
    if s.renounceAt.Some? { QueuedLater(h, e, s.renounceAt.value); }
  }

  lemma QueueKeepsGov(s: State, env: Env)
    requires GovOk(s)
    ensures QueueRenounce(s, env).Ok? ==> GovOk(QueueRenounce(s, env).value)
    ensures CancelRenounce(s, env).Ok? ==> GovOk(CancelRenounce(s, env).value)
  {
    if s.admin.Some? {
      var h := s.history;
      var e, e' := RenounceQueued(env.ledger, s.admin.value), RenounceCancelled(env.ledger, s.admin.value);
      AllJustifiedLater(h, e);
      AllJustifiedLater(h, e');
      assert QueuedStands(h + [e], |h|, |h| + 1, env.ledger + MIN_TIMELOCK_DELAY);
      if s.pendingAdmin.Some? {
        ProposalLater(h, e, s.admin, s.pendingAdmin.value.0, s.pendingAdmin.value.1);
        ProposalLater(h, e', s.admin, s.pendingAdmin.value.0, s.pendingAdmin.value.1);
      }
    }
  }

  lemma RenounceKeepsGov(s: State, env: Env)
    requires GovOk(s) && ExecuteRenounce(s, env).Ok?
    ensures GovOk(ExecuteRenounce(s, env).value)
  {
    var h, e, target := s.history, Renounced(env.ledger, s.admin.value), s.renounceAt.value;
    AllJustifiedLater(h, e);
    var i: nat :| QueuedStands(h, i, |h|, target);
    assert QueuedStands(h + [e], i, |h|, target);
  }

  lemma ApplyKeepsGov(s: State, env: Env, op: Op)
    requires GovOk(s) && Apply(s, env, op).Ok?
    ensures GovOk(Apply(s, env, op).value)
  {
    hide GovOk, Untouched, Deposit, Withdraw, RequestWithdrawal, ExecuteWithdrawal, CancelWithdrawal, ReclaimExpired,
         WithdrawFees, OutsideTransfer, TransferAdmin, AcceptAdmin, QueueRenounce, CancelRenounce, ExecuteRenounce;
    if op.OpTransferAdmin? {
      TransferKeepsGov(s, env, op.candidate);
    } else if op.OpAcceptAdmin? {
      AcceptKeepsGov(s, env);
    } else if op.OpQueueRenounce? || op.OpCancelRenounce? {
      QueueKeepsGov(s, env);
    } else if op.OpExecuteRenounce? {
      RenounceKeepsGov(s, env);
    } else {
      HasVersion(s);
      OthersLeaveGov(s, env, op);
      UntouchedKeeps(s, Apply(s, env, op).value);
    }
  }

  lemma LedgerOnly(s: State, ledger: nat)
    requires GovOk(s)
    ensures GovOk(s.(now := ledger))
  {
  }

  lemma {:induction false} RunKeepsGov(s: State, calls: seq<Call>)
    requires GovOk(s)
    ensures GovOk(Run(s, calls))
    decreases |calls|
  {
    hide GovOk, Apply;
    if calls != [] {
      var call := calls[0];
      if Step(s, call).Ok? {
        ApplyKeepsGov(s, call.env, call.op);
        LedgerOnly(Apply(s, call.env, call.op).value, call.env.ledger);
      }
      RunKeepsGov(Next(s, call), calls[1..]);
    }
  }

  // ---- the administrator of a run ----

  lemma AppendReplays(initial: Option<Address>, admin: Option<Address>, h: seq<Event>, e: Event)
    requires Replayed(initial, admin, h) && NamesAdmin(e, admin)
    ensures Replayed(initial, AdminAfterOne(admin, e), h + [e])
  {
    assert (h + [e])[..|h|] == h;
    forall k | 0 <= k < |h|
      ensures NamesAdmin((h + [e])[k], AdminAfter(initial, (h + [e])[..k]))
    {
      assert (h + [e])[..k] == h[..k];
    }
  }

  /** A call of governance appends one event, which names the administrator and says what becomes of it. */
  lemma GovEvent(s: State, env: Env, op: Op)
    requires GovOp(op) && Apply(s, env, op).Ok?
    ensures var s' := Apply(s, env, op).value;
      && |s'.history| == |s.history| + 1 && s'.history[..|s.history|] == s.history
      && s'.schemaVersion == s.schemaVersion && s'.initNonces == s.initNonces
      && NamesAdmin(s'.history[|s.history|], s.admin)
      && s'.admin == AdminAfterOne(s.admin, s'.history[|s.history|])
  {
    hide Deposit, Withdraw, RequestWithdrawal, ExecuteWithdrawal, CancelWithdrawal, ReclaimExpired, WithdrawFees,
         OutsideTransfer;
  }

  lemma ApplyReplays(initial: Option<Address>, s: State, env: Env, op: Op)
    requires s.schemaVersion.Some? && Replayed(initial, s.admin, s.history) && Apply(s, env, op).Ok?
    ensures var s' := Apply(s, env, op).value;
      s'.schemaVersion == s.schemaVersion && s'.initNonces == s.initNonces && Replayed(initial, s'.admin, s'.history)
  {
    hide Apply, Replayed;
    var h' := Apply(s, env, op).value.history;
    if GovOp(op) { GovEvent(s, env, op); } else { OthersLeaveGov(s, env, op); }
    if h' != s.history {
      var e := h'[|h'| - 1];
      assert h' == s.history + [e];
      AppendReplays(initial, s.admin, s.history, e);
    }
  }

  lemma {:induction false} RunReplays(initial: Option<Address>, s: State, calls: seq<Call>)
    requires s.schemaVersion.Some? && Replayed(initial, s.admin, s.history)
    ensures var s' := Run(s, calls);
      s'.schemaVersion == s.schemaVersion && s'.initNonces == s.initNonces && Replayed(initial, s'.admin, s'.history)
    decreases |calls|
  {
    hide Apply, Replayed;
    if calls != [] {
      if Step(s, calls[0]).Ok? { ApplyReplays(initial, s, calls[0].env, calls[0].op); }
      RunReplays(initial, Next(s, calls[0]), calls[1..]);
    }
  }

  lemma StartsReplayed(self: Address, env: Env, admin: Address, token: Address, limit: I128, minDeposit: I128)
    requires Init(self, env, admin, token, limit, minDeposit).Ok?
    ensures var s := Init(self, env, admin, token, limit, minDeposit).value;
      s.schemaVersion.Some? && Replayed(Some(admin), s.admin, s.history)
  {
  }

  /** In every run from initialization the administrator is the one that the recorded acceptances and
      renunciations make out of the first, and nothing else; and every event of governance names the
      administrator of its moment. */
  lemma AdministratorIsReplayed(self: Address, env: Env, admin: Address, token: Address, limit: I128,
                                minDeposit: I128, calls: seq<Call>)
    requires Init(self, env, admin, token, limit, minDeposit).Ok?
    ensures var s := Run(Init(self, env, admin, token, limit, minDeposit).value, calls);
      && s.admin == AdminAfter(Some(admin), s.history)
      && forall k :: 0 <= k < |s.history| ==> NamesAdmin(s.history[k], AdminAfter(Some(admin), s.history[..k]))
  {
    hide Step, AdminAfter, NamesAdmin;
    StartsReplayed(self, env, admin, token, limit, minDeposit);
    RunReplays(Some(admin), Init(self, env, admin, token, limit, minDeposit).value, calls);
  }

  /** Between two events of which none installs or removes an administrator, it is the same one. */
  lemma {:induction false} AdminStays(initial: Option<Address>, h: seq<Event>, i: nat, k: nat)
    requires i <= k <= |h|
    requires forall j :: i <= j < k ==> !h[j].AdminAccepted? && !h[j].Renounced?
    ensures AdminAfter(initial, h[..k]) == AdminAfter(initial, h[..i])
    decreases k
  {
    if i < k {
      AdminStays(initial, h, i, k - 1);
      assert h[..k][..k - 1] == h[..k - 1];
    }
  }

  /** Queued at `i` and executed at `k`, each by the administrator of the moment. An acceptance does not clear
      what is queued, so that the two may differ. */
  ghost predicate QueuedByAdmin(initial: Option<Address>, h: seq<Event>, i: nat, k: nat)
    requires i < k < |h| && h[i].RenounceQueued? && h[k].Renounced?
  {
    && AdminAfter(initial, h[..i]) == Some(h[i].admin)
    && AdminAfter(initial, h[..k]) == Some(h[k].admin)
    && (h[i].admin != h[k].admin ==> exists j :: i < j < k && h[j].AdminAccepted?)
  }

  lemma RenunciationIsTraced(initial: Option<Address>, admin: Option<Address>, h: seq<Event>, k: nat)
    requires k < |h| && h[k].Renounced? && Replayed(initial, admin, h) && Justified(h, k)
    ensures exists i: nat, target: nat ::
      QueuedStands(h, i, k, target) && h[k].ledger > target && QueuedByAdmin(initial, h, i, k)
  {
    hide AdminAfter;
    var i: nat, target: nat :| QueuedStands(h, i, k, target) && h[k].ledger > target;
    if forall j :: i < j < k ==> !h[j].AdminAccepted? { AdminStays(initial, h, i, k); }
  }

  /** In every run from initialization, each acceptance answers a proposal by the address that is
      still administrator, made at least MIN_TIMELOCK_DELAY ledgers earlier and not replaced since;
      and each renunciation was queued, more than MIN_TIMELOCK_DELAY ledgers earlier and not cancelled
      since, by who was administrator then: the same one, unless an acceptance came in between. */
  lemma HandoverTakesTheDelay(self: Address, env: Env, admin: Address, token: Address, limit: I128, minDeposit: I128,
                              calls: seq<Call>, k: nat)
    requires Init(self, env, admin, token, limit, minDeposit).Ok?
    requires k < |Run(Init(self, env, admin, token, limit, minDeposit).value, calls).history|
    ensures var h := Run(Init(self, env, admin, token, limit, minDeposit).value, calls).history;
      && (h[k].AdminAccepted? ==> exists i: nat, at: nat ::
            ProposalStands(h, i, k, h[k].former, h[k].candidate, at) && h[k].ledger >= at + MIN_TIMELOCK_DELAY)
      && (h[k].Renounced? ==> exists i: nat, target: nat ::
            QueuedStands(h, i, k, target) && h[k].ledger > target && QueuedByAdmin(Some(admin), h, i, k))
  {
    hide Step, Replayed, QueuedByAdmin, QueuedStands, ProposalStands;
    var s0 := Init(self, env, admin, token, limit, minDeposit).value;
    RunKeepsGov(s0, calls);
    StartsReplayed(self, env, admin, token, limit, minDeposit);
    RunReplays(Some(admin), s0, calls);
    var s := Run(s0, calls);
    assert Justified(s.history, k);
    if s.history[k].Renounced? { RenunciationIsTraced(Some(admin), s.admin, s.history, k); }
  }

  // ---- finality ----

  ghost predicate Headless(s: State) { s.admin == None && s.pendingAdmin == None && s.schemaVersion.Some? }

  lemma HeadlessApply(s: State, env: Env, op: Op)
    requires Headless(s) && Apply(s, env, op).Ok?
    ensures var s' := Apply(s, env, op).value;
      Headless(s') && s'.nextId == s.nextId && s'.queue.Keys <= s.queue.Keys
  {
    hide ChargeLimits, Transfer, Balance, CheckInvariants, AdmitExecution, CheckBenchmark, Withdraw, Recent,
         CB.Clear, Deposit;
    if op.OpDeposit? { HeadlessDeposit(s, env, op); }
    if op.OpWithdraw? { HeadlessWithdraw(s, env, op.caller, op.to, op.amount, op.token); }
  }

  lemma HeadlessWithdraw(s: State, env: Env, caller: Address, to: Address, amount: I128, token: Address)
    requires Headless(s)
    ensures Withdraw(s, env, caller, to, amount, token) == Err(NotInitialized)
  {
    hide ChargeLimits, SettlePayment, Balance;
  }

  lemma HeadlessDeposit(s: State, env: Env, op: Op)
    requires op.OpDeposit? && Apply(s, env, op).Ok?
    ensures var s' := Apply(s, env, op).value;
      s'.schemaVersion == s.schemaVersion && s'.admin == s.admin && s'.pendingAdmin == s.pendingAdmin
      && s'.nextId == s.nextId && s'.queue == s.queue
  {
    hide Transfer, Balance, CheckInvariants, Recent, AdmitDeposit, Windows.ChargeDaily, ValidateFiat,
         Slippage.CheckSlippage, Withdraw, ExecuteWithdrawal, RequestWithdrawal, CancelWithdrawal, ReclaimExpired,
         WithdrawFees, OutsideTransfer;
  }

  lemma {:induction false} HeadlessRun(s: State, calls: seq<Call>)
    requires Headless(s)
    ensures var s' := Run(s, calls);
      Headless(s') && s'.nextId == s.nextId && s'.queue.Keys <= s.queue.Keys
    decreases |calls|
  {
    hide Apply;
    if calls != [] {
      if Step(s, calls[0]).Ok? { HeadlessApply(s, calls[0].env, calls[0].op); }
      HeadlessRun(Next(s, calls[0]), calls[1..]);
    }
  }

  /** Renouncing is final: from any reachable state, no later calls, second initializations included,
      install an administrator or a candidate, or add a request. */
  lemma RenouncingIsFinal(self: Address, env: Env, admin: Address, token: Address, limit: I128, minDeposit: I128,
                          before: seq<Call>, last: Env, calls: seq<Call>)
    requires Init(self, env, admin, token, limit, minDeposit).Ok?
    requires ExecuteRenounce(Run(Init(self, env, admin, token, limit, minDeposit).value, before), last).Ok?
    ensures var s := Run(Init(self, env, admin, token, limit, minDeposit).value, before);
      var s' := Run(ExecuteRenounce(s, last).value, calls);
      && s'.admin == None && s'.pendingAdmin == None
      && s'.nextId == s.nextId && s'.queue.Keys <= s.queue.Keys
  {
    hide Step, Justified, Run;
    var s0 := Init(self, env, admin, token, limit, minDeposit).value;
    RunKeepsGov(s0, before);
    HeadlessRun(ExecuteRenounce(Run(s0, before), last).value, calls);
  }

  /** What stops a second initialization: the administrator while there is one, and the stored schema
      version, which no call removes, for ever after. The nonce does not: `init` ends by storing zero,
      so every nonce of `init` stays zero, and the first call could be repeated but for the version. */
  lemma NeverInitializedAgain(self: Address, env: Env, admin: Address, token: Address, limit: I128, minDeposit: I128,
                              before: seq<Call>, again: Env, admin': Address, token': Address,
                              limit': I128, minDeposit': I128, nonce: nat)
    requires Init(self, env, admin, token, limit, minDeposit).Ok?
    ensures var s := Run(Init(self, env, admin, token, limit, minDeposit).value, before);
      && s.schemaVersion == Some(1) && s.initNonces == map[admin := 0]
      && Initialize(s, again, admin', token', limit', minDeposit', nonce)
           == Err(if admin' !in again.signers then HostAbort
                  else if nonce != 0 then InvalidNonce else AlreadyInitialized)
  {
    hide Step, Run;
    RunReplays(Some(admin), Init(self, env, admin, token, limit, minDeposit).value, before);
  }
}
