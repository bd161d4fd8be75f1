# The FiatBridge escrow, its arithmetic and its IBAN check

This project models three parts of the fiat bridge and proves what they are for.

**The escrow contract** (`Dechat/stellar-contracts/src/lib.rs`). Depositors send tokens to the contract; an
administrator pays them out again, directly or through a queue of withdrawal requests that can be executed
in parts, cancelled or reclaimed when they expire.

- `Escrow.dfy` is the contract as a state machine: every entry point either succeeds with a new state or
  fails and changes nothing, which is the host's rollback. Arithmetic is that of `i128`, `u64` and `u32`;
  an unchecked overflow is a `HostAbort`. The ledger number, the signers of a call and the oracle's answer
  are inputs. A call at a ledger before the last successful one cannot happen.
- `FiatBridge.dfy` has the entry points as methods of a class with one field per storage cell: the checks and
  writes in the order of the original, the loops that rescan the queue, and the host, which keeps or undoes all
  writes of a call. Every entry point is proved to be a step of the state machine and to keep the class
  invariant `Valid`: a run of the state machine leads to the present cells. So whatever is proved of every
  reachable state holds of the class between any two calls.
- `Accounting.dfy`, `Reachable.dfy`, `Solvency.dfy`, `SolventRuns.dfy` and `Payable.dfy` prove what the money
  does over every run: the counters agree with the history, liabilities are what live requests have coming,
  the bookkeeping errors are unreachable where they should be, exactly when cover is lost and what its loss
  stops, and that every queued request stays payable exactly while there is cover.
- `Admission.dfy` and `Decisions.dfy` say which calls are refused and with which error; `Effects.dfy` says what a
  successful call leaves behind; `Ledgers.dfy` says what whole runs come to, told from the calls alone.
- `Witnesses.dfy` has runs that show what the contract does let happen.
- `RequestRuns.dfy` follows one request, one recipient, one nonce and one depositor through a run: requests are
  stable, locks hold, claims stay within deposits, executions cannot be replayed, the cooldown spaces deposits.
- `Windows.dfy`, `CircuitBreaker.dfy`, `Traces.dfy` and `LimitRuns.dfy` turn the fixed-window counters into
  bounds on every sliding span of ledgers.
- `QueueIndex.dfy` says, and the class invariant includes, that the stored lengths and heads of the queue and of
  each risk tier are what they would be if computed afresh.
- `Governance.dfy` is about who administers the contract; `Multisig.dfy` with `MultisigEffects.dfy`,
  `Operators.dfy` with `OperatorEffects.dfy` and `OperatorContract.dfy`, `Allowlist.dfy` and `Migration.dfy` with `MigratedAmounts.dfy` are the multisig
  protocol, the operator registry, the token allowlist and the migration of receipts. These parts share no
  storage cells with each other that matter to what is proved, so each is a state machine and a class of its own,
  whose invariant `Valid` says that calls lead to its present cells.

**Fixed-point arithmetic** (`Dechat/stellar-contracts/src/math.rs`) and its users are in `FixedPoint.dfy`,
`Slippage.dfy` and `Windows.dfy`. Rust's truncating `/` and sign-following `%` are defined in `Prelude.dfy`.

**The IBAN check** (`Dechat/dex_with_fiat_frontend/src/components/BankDetailsModal.tsx`) is in `Iban.dfy`:
MOD 97-10 of ISO/IEC 7064, as ISO 13616-1 prescribes it, and the typing errors it is there to catch.

## Where the code and its documentation differ

The model follows the code.

- The comment at lib.rs:5079-5081 says that the withdrawal that breaches the circuit breaker is rejected. The
  code at lib.rs:5152-5174 lets it through and then trips (`CircuitBreaker.BreachIsPaid`).
- The comment at lib.rs:1260-1263 lists `withdraw_fees` among the callers of `check_invariants`. The code at
  lib.rs:3392-3454 does not call it, and `accrue_fee` collects no tokens, so a fee payout can leave net
  deposits without cover (`Witnesses.UncoveredRun`), and does so exactly when it exceeds the surplus
  (`SolventRuns.FeesCanUncoverDeposits`). Until the missing tokens arrive from outside, this stops every deposit, direct
  withdrawal, request, execution and cancellation (`SolventRuns.FrozenUntilTokensArrive`).
- `checked_mul_div_ceil` is documented to return the ceiling (math.rs:133). For a negative product that does not
  divide evenly it returns one less, as the unit test at math.rs:256-261 also expects
  (`FixedPoint.CeilIsExactIff`).
- The documentation of `check_slippage` (lib.rs:2491-2493) describes a third step that rejects large remainders. After the
  cross-multiplication this step never rejects anything (`Slippage.SlippageIsExact`).
- `get_next_priority_withdrawal` is described as returning none for an empty queue. It also returns none
  when every live request is in a tier above the scanned range (`Witnesses.NoneDespiteLiveRequest`).
- The daily deposit limit adds with saturation, so at the last ledger number every deposit starts a new window
  (`Witnesses.DailyLimitFailsAtLastLedger`). The bound over spans is for users who make no deposit there.
- `accept_admin` leaves a queued renunciation queued (lib.rs:2376-2392), so that a new administrator can execute
  at once what the former one queued (`Witnesses.InheritedRenunciation`).
- `test_init_validation.rs:328-342` expects the nonce of `init` to be one after the first call. The code counts it up
  (lib.rs:867) and then stores zero (lib.rs:969), so it stays zero for everybody, and what stops a second `init` is the
  schema version (`Governance.NeverInitializedAgain`).
- `get_slippage_threshold(env)` at lib.rs:2770 passes its environment by value, and the `return 0` at lib.rs:3355 has the
  wrong type. The evident intent is modelled.

## Model

| member | source | states |
|---|---|---|
| Payable.AlwaysPayable | Dechat/stellar-contracts/src/lib.rs:1612-1771 | From every reachable state: a plan that takes live requests in any order, whole or in positive parts, succeeds call by call if and only if the net deposits are covered, that is, if no more fees were paid out than tokens arrived from outside, once the locks and delays of the requests it takes are over, with quota and breaker off. Then every user's balance plus remaining claims is conserved, and an emptied queue means zero liabilities. A run with covered fee payouts ends covered. |
| Payable.WholeRequestsInAnyOrder | Dechat/stellar-contracts/src/lib.rs:1612-1771 | Listing all live requests once each, in any order, is such a plan, and it empties the queue. |
| Payable.PlanSucceeds | Dechat/stellar-contracts/src/lib.rs:1612-1771 | Over a whole plan from a covered state no call fails, the accounting invariant and the cover survive, and the queue is what the plan alone predicts. |
| Payable.PlanDelivers | Dechat/stellar-contracts/src/lib.rs:1706-1757 | Over a whole plan each user receives exactly what leaves that user's claims. |
| SolventRuns.SolventOverRuns | Dechat/stellar-contracts/src/lib.rs:1285-1310 | After any calls from initialization: deposits and withdrawals are counted exactly, liabilities equal the remaining amounts of the live requests and never exceed net deposits, and the balance is net deposits plus outside arrivals less fees paid. |
| SolventRuns.CoveredOverRuns | Dechat/stellar-contracts/src/lib.rs:1285-1310 | From initialization, the tokens held cover the net deposits at every moment of a run if and only if every fee payout that succeeded to somebody else fitted the surplus; refused calls do not matter. |
| SolventRuns.CoveredIffFeesArrived | Dechat/stellar-contracts/src/lib.rs:1285-1310 | In every reachable state the tokens held cover the net deposits if and only if the fees paid out so far do not exceed the tokens that arrived from outside. |
| SolventRuns.FeesCanUncoverDeposits | Dechat/stellar-contracts/src/lib.rs:3392-3454 | Exactly when a fee payout succeeds, to a configured or a named recipient, and that it leaves the net deposits covered if and only if it fits the surplus. |
| SolventRuns.StepAndCover | Dechat/stellar-contracts/src/lib.rs:1021-1946 | A successful call in a covered state leaves it covered if and only if it is not an uncovered fee payout. |
| SolventRuns.CoverIsNeeded | Dechat/stellar-contracts/src/lib.rs:1285-1310 | Deposits, direct withdrawals, requests, executions and cancellations succeed only in covered states, and keep them covered. |
| SolventRuns.FrozenUntilTokensArrive | Dechat/stellar-contracts/src/lib.rs:1285-1310 | Once cover is lost, it stays lost through a run if and only if no successful transfer from outside brings at least what is missing; until then each of these five is refused. Refused or smaller arrivals do not matter. |
| SolventRuns.ReceiptsOverRuns | Dechat/stellar-contracts/src/lib.rs:1141-1203 | After any calls the receipts sum to the total deposited, and each depositor's receipts to that depositor's stored total. |
| Reachable.StepKeeps | Dechat/stellar-contracts/src/lib.rs:1021-1946 | Every successful call of every entry point keeps the accounting invariant (counters, balance, queue, receipts, limit records). |
| Reachable.InitEstablishes | Dechat/stellar-contracts/src/lib.rs:853-972 | Initialization establishes the accounting invariant. |
| Reachable.RunKeeps | Dechat/stellar-contracts/src/lib.rs:1021-1946 | Every run keeps the accounting invariant. |
| Reachable.StepIsReachable | Dechat/stellar-contracts/src/lib.rs:1021-1946 | A successful call leads from a reachable state to a reachable state. |
| Reachable.ReachableIsInOrder | Dechat/stellar-contracts/src/lib.rs:1021-1946 | Every reachable state satisfies the accounting invariant. |
| Reachable.TransferMoves | Dechat/stellar-contracts/src/lib.rs:1137-1139 | A token transfer changes exactly the two balances it names, by the amount, and nothing when both are the same. |
| Accounting.QueueServe | Dechat/stellar-contracts/src/lib.rs:1712-1757 | Serving part or all of a request lowers what its token owes by exactly the amount served. |
| Accounting.ReceiptAdd | Dechat/stellar-contracts/src/lib.rs:1141-1203 | A new receipt cannot collide with an old one, and keeps the sums of receipts equal to the stored totals. |
| Accounting.UserBelowTotal | Dechat/stellar-contracts/src/lib.rs:1549-1561 | No depositor's stored total is negative or above the token's. |
| Solvency.CheckPassesIff | Dechat/stellar-contracts/src/lib.rs:1285-1310 | The consistency check names the first relation that is broken among non-negative net deposits, reserved within net deposits, and balance covering net deposits. |
| Solvency.WithdrawSucceedsIff | Dechat/stellar-contracts/src/lib.rs:1338-1410 | A direct withdrawal succeeds if and only if nothing speaks against it (caller, signature, pause, amount, recipient, quota, breaker, denylist), the net deposits are covered, and it stays within what no queued request has reserved; the first of these that is broken names the error. |
| Solvency.PaymentSettlesIff | Dechat/stellar-contracts/src/lib.rs:1386-1410 | A payout settles if and only if the net deposits are covered and it stays within the unreserved amount plus what the paid request itself reserved; the first broken relation names the error. |
| Solvency.RequestSucceedsIff | Dechat/stellar-contracts/src/lib.rs:1438-1579 | A request succeeds if and only if nothing speaks against it (memo, administrator, pause, breaker, amount, denylist, cooldown, room), the net deposits are covered, and it fits the unreserved amount and what its recipient ever deposited; the first broken condition names the error, and the closing check fails only for lack of cover. |
| Solvency.ExecuteSucceedsIff | Dechat/stellar-contracts/src/lib.rs:1612-1771 | An execution succeeds if and only if nothing speaks against it (pause, live request, nonce, lock, delay, partial amount, quota, breaker, balance, benchmark price) and the net deposits are covered; the first broken condition names the error, and with cover no balance, overflow or bookkeeping error can stop it. |
| Solvency.CancelSucceedsIff | Dechat/stellar-contracts/src/lib.rs:1788-1856 | Cancelling succeeds if and only if the administrator signs, nothing is paused, the request is live and the net deposits are covered; the first broken condition names the error. |
| Solvency.ReclaimSucceedsIff | Dechat/stellar-contracts/src/lib.rs:1865-1946 | Reclaiming succeeds exactly for the administrator, on a live request whose expiry window is over, covered or not, with the error named otherwise, and leaves the cover as it was. |
| Solvency.DepositSucceedsIff | Dechat/stellar-contracts/src/lib.rs:1021-1245 | A deposit succeeds exactly when nothing speaks against it (13 conditions on depositor and call, daily limit, fiat cap, price), the depositor can pay, the counters have room, and the net deposits are covered; the first broken condition names the error. Receipt collision and user-total overflow are unreachable. |
| Solvency.DepositSettlesIff | Dechat/stellar-contracts/src/lib.rs:1137-1245 | Once admitted, a deposit fails only for lack of tokens, of room in a counter, or of cover. |
| Decisions.EveryCallIsDecided | Dechat/stellar-contracts/src/lib.rs:853-5175 | In every state whose accounts are in order, every call of every entry point succeeds if and only if no reason speaks against it, and is otherwise refused with the error of the first reason; the reasons are stated on storage cells, outside world and books. |
| Decisions.EveryCallOfARunIsDecided | Dechat/stellar-contracts/src/lib.rs:853-5175 | The same for the next call after any run from initialization. |
| Admission.DepositDecides | Dechat/stellar-contracts/src/lib.rs:1034-1136 | The checks of a deposit before tokens move refuse exactly for memo, signature, pause, amount, reference length, cooldown, stamp, allowlists, denylist, token, minimum, limit, daily limit, oracle, fiat cap and price, in this order. |
| Admission.BenchmarkDecides | Dechat/stellar-contracts/src/lib.rs:1684-1699 | The benchmark passes if and only if no price is expected, or the oracle's price is there, is positive and does not fall short of the expected one by more than the tolerance; otherwise the error says which. |
| Admission.ExecutionDecides | Dechat/stellar-contracts/src/lib.rs:1625-1705 | The checks of an execution before tokens move refuse exactly for nonce, lock, delay, partial amount, quota, breaker, balance, benchmark and nonce room, in this order, and clear the amount that was asked, or all that is left. |
| Admission.LimitsDecide | Dechat/stellar-contracts/src/lib.rs:3953-4002 | A payout is refused exactly when the quota's open window has no room, or the breaker is tripped and its reset window not over; otherwise quota and breaker count exactly the amount, in the open window or in a new one. |
| Admission.GovDecides | Dechat/stellar-contracts/src/lib.rs:2359-2392 | Hand-over and renunciation calls succeed exactly for who may make them, when something is pending or queued, and when the delay is over, with the error named otherwise. |
| Admission.FeesDecide | Dechat/stellar-contracts/src/lib.rs:3392-3454 | A fee payout of any token succeeds exactly for the administrator, for a positive amount within what is accrued and held, with the error named otherwise. |
| Admission.InitDecides | Dechat/stellar-contracts/src/lib.rs:853-909 | Initialization succeeds exactly when signed, with the right nonce, for the first time and with bounds in order, with the error named otherwise. |
| Effects.WithdrawPays | Dechat/stellar-contracts/src/lib.rs:1386-1410 | A direct withdrawal pays exactly the amount from the contract to the named recipient and to nobody else, is counted as withdrawn, and leaves requests, liabilities, receipts and nonces alone. |
| Effects.ExecutePays | Dechat/stellar-contracts/src/lib.rs:1706-1757 | An execution pays exactly what was asked, or all that is left, to the recipient of the request; this leaves the request, which is gone when nothing is left, and the liabilities; the nonce rises by one; nothing else changes. |
| Effects.RequestReserves | Dechat/stellar-contracts/src/lib.rs:1489-1579 | A request enters under the next id with its recipient, lock, memo and tier and reserves exactly its amount; no tokens move. |
| Effects.ReleaseFrees | Dechat/stellar-contracts/src/lib.rs:1812-1946 | Cancelling and reclaiming take exactly that request out of the queue and lower the liabilities by exactly what it still had coming; balances, counters, receipts and history stay as they were. |
| Effects.DepositBooks | Dechat/stellar-contracts/src/lib.rs:1137-1245 | A deposit moves exactly the amount from the depositor to the contract, raises the two totals, issues a new receipt with everything the call said, and stamps the ledger, for a large deposit twice. |
| Effects.FeesPay | Dechat/stellar-contracts/src/lib.rs:3392-3454 | A fee payout takes exactly the amount from the vault and from the contract and pays the configured recipient or, without one, the named one. |
| Effects.SettersSet | Dechat/stellar-contracts/src/lib.rs:4978-4990 | Accruing raises one token's vault by the amount, a manual reset clears the breaker's flag and keeps its volume, setters set what they name; nothing else changes. |
| Effects.RolesSet | Dechat/stellar-contracts/src/lib.rs:2359-2392 | What each hand-over and renunciation call sets and records; an acceptance leaves a queued renunciation queued. |
| Effects.InitSets | Dechat/stellar-contracts/src/lib.rs:911-969 | What initialization stores, the nonce zero included. |
| Ledgers.StepAsCalled | Dechat/stellar-contracts/src/lib.rs:1021-1946 | Every successful call changes the holdings of everyone, the queue, the fee vault, the settings, the stamps and the history by exactly what the call says. |
| Ledgers.HoldingsOverRuns | Dechat/stellar-contracts/src/lib.rs:1021-1946 | Over every run, for every token and holder: the balance changes by exactly what the successful deposits, withdrawals, executions, fee payouts and outside transfers name this holder for. |
| Ledgers.RequestOverRuns | Dechat/stellar-contracts/src/lib.rs:1438-1946 | Over every run a live request is paid at most what was requested, in all; what is left of it is exactly what was not yet paid; it is live, and otherwise unchanged, exactly until it is paid in full, cancelled or reclaimed. |
| Ledgers.ReleasedIsNeverPaid | Dechat/stellar-contracts/src/lib.rs:1788-1946 | After a cancellation or reclaim the id is not live again and every execution of it is refused, whatever is called in between. |
| Ledgers.VaultOverRuns | Dechat/stellar-contracts/src/lib.rs:3303-3454 | Over every run the fee vault of a token holds exactly what was accrued less what was paid out, and is never negative. |
| Ledgers.SettingsOverRuns | Dechat/stellar-contracts/src/lib.rs:4587-4642 | Over every run the settings are those that the successful setter calls leave, one after the other. |
| Ledgers.HistoryOverRuns | Dechat/stellar-contracts/src/lib.rs:1021-1946 | The recorded history, to which the other claims about runs refer, lists exactly what the successful calls did, to whom, how much and when. |
| Ledgers.AntiSandwichHolds | Dechat/stellar-contracts/src/lib.rs:1646-1663 | After a deposit, no request of that depositor is executed before the delay in force at the execution is over, whatever is called in between. |
| Ledgers.LargeDepositsDelayRequests | Dechat/stellar-contracts/src/lib.rs:1466-1487 | After a large deposit, no withdrawal is requested for that depositor before the cooldown in force at the request is over, whatever is called in between. |
| RequestRuns.RequestIsStable | Dechat/stellar-contracts/src/lib.rs:1712-1746 | Over any run a request keeps recipient, token, lock, memo and tier while it is live, and its amount only falls. |
| RequestRuns.GoneForGood | Dechat/stellar-contracts/src/lib.rs:1489-1522 | A request that was paid, cancelled or reclaimed never becomes live again; ids are not reused. |
| RequestRuns.ClaimsWithinDeposits | Dechat/stellar-contracts/src/lib.rs:1551-1561 | In every reachable state no live request claims more than its recipient ever deposited, so a recipient's claims are at most that much for each of that recipient's live requests. |
| RequestRuns.LockHolds | Dechat/stellar-contracts/src/lib.rs:1643-1645 | Whatever is called in between, a request is not executed, in full or in part, before the lock it was given. |
| RequestRuns.ExecutionsAreNotReplayed | Dechat/stellar-contracts/src/lib.rs:1628-1642 | After a successful execution, no request of that recipient is executed with the same nonce again. |
| RequestRuns.CooldownSpacesDeposits | Dechat/stellar-contracts/src/lib.rs:1047-1066 | With a constant cooldown, any two deposits of one depositor are at least the cooldown apart. |
| Witnesses.UncoveredRun | Dechat/stellar-contracts/src/lib.rs:3303-3454 | For any initialization and amounts: depositing, accruing a fee and paying it out is a run of successful calls that ends uncovered. |
| Witnesses.ClaimsAreReserved | Dechat/stellar-contracts/src/lib.rs:1549-1566 | What one recipient has coming is part of the reserved amount, which net deposits cover. |
| Witnesses.ClaimsBeyondDeposits | Dechat/stellar-contracts/src/lib.rs:1550-1559 | A run in which one recipient's two live requests together claim twice what that recipient deposited, because each request alone is compared with the lifetime deposits: the bound of `RequestRuns.ClaimsWithinDeposits` is reached. |
| Witnesses.InheritedRenunciation | Dechat/stellar-contracts/src/lib.rs:2376-2392 | For any initialization: a run in which the administrator queues a renunciation and hands over, and the new administrator executes it one ledger after accepting. |
| Witnesses.NoneDespiteLiveRequest | Dechat/stellar-contracts/src/lib.rs:5182-5212 | A run after which one request is live and there is no next priority request: its tier is above the number of ids given out. |
| Witnesses.DailyLimitFailsAtLastLedger | Dechat/stellar-contracts/src/lib.rs:2634-2668 | A run at the last ledger number in which one depositor brings in the full daily limit any number of times. |
| Windows.TracksCharge | Dechat/stellar-contracts/src/lib.rs:3953-4002 | One more accepted charge keeps every sliding span within twice the limit and the stored counter equal to what was charged since its window began. |
| Windows.TracksMove | Dechat/stellar-contracts/src/lib.rs:3953-4002 | One call, which charges the record once or leaves it alone, keeps the same two facts. |
| Windows.TracksRoll | Dechat/stellar-contracts/src/lib.rs:3960-3984 | Restarting an expired window loses nothing that a current span can still see. |
| Windows.QuotaAccepts | Dechat/stellar-contracts/src/lib.rs:3953-4002 | The quota counter accepts only charges that keep it within the quota. |
| Windows.DailyAccepts | Dechat/stellar-contracts/src/lib.rs:2634-2668 | Below the last ledger number, saturation never lets the daily limit accept more than the limit. |
| Windows.DailyLimitForgetsAtLastLedger | Dechat/stellar-contracts/src/lib.rs:2647-2668 | At the last ledger number any deposit up to the limit passes, whatever the window already holds. |
| Windows.FiatAccepts | Dechat/stellar-contracts/src/lib.rs:2581-2632 | An accepted deposit is counted with the floor of its worth in cents and keeps the counter within the cap. |
| Windows.QuotaAdmitsIff | Dechat/stellar-contracts/src/lib.rs:3953-4002 | A charge passes exactly when the quota is off or what the open window holds leaves room for it, and is added to that window or opens a new one; otherwise the error is named. |
| Windows.DailyAdmitsIff | Dechat/stellar-contracts/src/lib.rs:2634-2668 | The same for the daily limit; at the last ledger number every window counts as over. |
| Windows.FiatAdmitsIff | Dechat/stellar-contracts/src/lib.rs:2581-2632 | The same for the fiat cap and the worth in whole cents. |
| LimitRuns.QuotaBoundsEverySpan | Dechat/stellar-contracts/src/lib.rs:3953-4002 | With a constant quota no user is paid more than twice the quota in any window length of ledgers, by direct and queued withdrawals together; the stored counter is exactly what the run paid that user in the current window, plus what the record held before the run if that window was already open. |
| LimitRuns.BreakerBoundsEverySpan | Dechat/stellar-contracts/src/lib.rs:5082-5175 | With a constant threshold, a reset window of at least one window and no manual reset of a tripped breaker (refused resets and resets of an untripped one do not count), less than two thresholds plus one largest payout leaves in any window length of ledgers. |
| LimitRuns.NothingPaidWhileTripped | Dechat/stellar-contracts/src/lib.rs:5082-5120 | After a trip nothing is paid until more than the reset window later, unless the administrator succeeds in clearing the flag. |
| LimitRuns.DailyLimitBoundsEverySpan | Dechat/stellar-contracts/src/lib.rs:2634-2668 | With a constant daily limit, a depositor none of whose own deposits is made at the last ledger number brings in no more than twice the limit in any window length of ledgers; the stored counter is exactly what the run deposited in the current window, plus what the record held before if that window was already open. |
| LimitRuns.FiatCapBoundsWorth | Dechat/stellar-contracts/src/lib.rs:2581-2632 | At any oracle prices, n deposits of one user in one limit window are worth less than 100000 times the limit plus n, and in any sliding span less than 100000 times twice the limit plus n; the stored counter is the sum of the worths in whole cents, on top of what an already open window held. |
| LimitRuns.StepCharges | Dechat/stellar-contracts/src/lib.rs:1338-1771 | Every payout, and nothing else, is charged to its recipient's quota and to the breaker, except that the administrator may clear the breaker's flag. |
| LimitRuns.StepChargesDeposits | Dechat/stellar-contracts/src/lib.rs:1021-1245 | Every deposit, and nothing else, is charged to the depositor's daily and fiat counters. |
| CircuitBreaker.BreachIsPaid | Dechat/stellar-contracts/src/lib.rs:5152-5174 | The withdrawal that reaches the threshold goes through and trips the breaker at its ledger. |
| CircuitBreaker.BreakerAdmitsIff | Dechat/stellar-contracts/src/lib.rs:5082-5175 | Exactly which payouts the breaker lets through and what it counts: tripped, it opens by itself once more than its reset window has passed, unless that window is the largest number. |
| CircuitBreaker.VolumeInWindow | Dechat/stellar-contracts/src/lib.rs:5092-5150 | After an automatic reset or a new window, what was paid in the running window is below the threshold. |
| CircuitBreaker.TracksCharge | Dechat/stellar-contracts/src/lib.rs:5082-5175 | One more payout keeps every sliding span below two thresholds plus one largest payout. |
| QueueIndex.EnqueueKeepsIndex | Dechat/stellar-contracts/src/lib.rs:1500-1544 | Enqueuing under the next id keeps length and head of the queue and of every tier correct, and tier lengths summing to the queue length. |
| QueueIndex.RemoveKeepsLengths | Dechat/stellar-contracts/src/lib.rs:1712-1746 | Removing a request lowers exactly the queue's and its tier's length, so no stored length underflows. |
| QueueIndex.RemovalDone | Dechat/stellar-contracts/src/lib.rs:1712-1746 | Once both heads have advanced, the index agrees with the queue again. |
| QueueIndex.ShrinkKeepsIndex | Dechat/stellar-contracts/src/lib.rs:1724-1731 | A partial execution leaves the index correct. |
| QueueIndex.HeadIsOldest | Dechat/stellar-contracts/src/lib.rs:3761-3775 | When ids are in order of queuing, the head was queued no later than any live request. |
| Governance.AdministratorIsReplayed | Dechat/stellar-contracts/src/lib.rs:2359-2392 | In every run the stored administrator is what the recorded acceptances and renunciations make out of the first one, so nothing else changes it, and every recorded proposal, acceptance, queuing, cancellation and renunciation names the administrator of its moment. |
| Governance.HandoverTakesTheDelay | Dechat/stellar-contracts/src/lib.rs:2359-2392 | In every run each acceptance answers a proposal made at least 34,560 ledgers earlier by the address that is still administrator and not replaced since; each renunciation was queued more than 34,560 ledgers earlier and not cancelled, by who was administrator then, who is a former one only if an acceptance came in between. |
| Governance.RenouncingIsFinal | Dechat/stellar-contracts/src/lib.rs:3515-3536 | From any reachable state, after a renunciation no calls, second initializations included, install an administrator or a candidate or add a request. |
| Governance.HeadlessRun | Dechat/stellar-contracts/src/lib.rs:869-875 | With a stored schema version but without administrator and candidate, every run stays so, issues no request id, and can only shrink the queue. |
| Governance.NeverInitializedAgain | Dechat/stellar-contracts/src/lib.rs:866-875 | In every reachable state the schema version is still stored and every nonce of `init` is zero, and a second initialization is refused, administrator or not: unsigned, for a nonce other than zero, or as already initialized, in this order. |
| Governance.RunKeepsGov | Dechat/stellar-contracts/src/lib.rs:3132-3155 | Every run keeps each pending hand-over and each queued renunciation traceable to the call that made it. |
| FiatBridgeContract.FiatBridge.constructor | Dechat/stellar-contracts/src/lib.rs:853-972 | A fresh contract is the initial state of the state machine, and valid: reachable and with a correct (empty) queue index. |
| FiatBridgeContract.FiatBridge.InitializeAgain | Dechat/stellar-contracts/src/lib.rs:866-875 | On a valid contract a second initialization is always refused and changes nothing. |
| FiatBridgeContract.FiatBridge.GetInitNonce | Dechat/stellar-contracts/src/lib.rs:974-979 | On a valid contract the nonce of `init` is zero for every address. |
| FiatBridgeContract.FiatBridge.Deposit | Dechat/stellar-contracts/src/lib.rs:1021-1245 | From a valid contract: the call is this step of the state machine, with its error or its whole new state, and leaves a valid contract; a failure restores every storage cell. Success returns the receipt of the next sequence number. |
| FiatBridgeContract.FiatBridge.Withdraw | Dechat/stellar-contracts/src/lib.rs:1338-1410 | From a valid contract: the call is this step of the state machine, with its error or its whole new state, and leaves a valid contract; a failure restores every storage cell. |
| FiatBridgeContract.FiatBridge.RequestWithdrawal | Dechat/stellar-contracts/src/lib.rs:1438-1579 | From a valid contract: the call is this step of the state machine, with its error or its whole new state, and leaves a valid contract; a failure restores every storage cell. That holds although the queue is written before the checks. Success returns the next id. |
| FiatBridgeContract.FiatBridge.ExecuteWithdrawal | Dechat/stellar-contracts/src/lib.rs:1612-1771 | From a valid contract: the call is this step of the state machine, with its error or its whole new state, and leaves a valid contract; a failure restores every storage cell. That covers partial and full execution. |
| FiatBridgeContract.FiatBridge.CancelWithdrawal | Dechat/stellar-contracts/src/lib.rs:1788-1856 | From a valid contract: the call is this step of the state machine, with its error or its whole new state, and leaves a valid contract; a failure restores every storage cell. |
| FiatBridgeContract.FiatBridge.ReclaimExpiredWithdrawal | Dechat/stellar-contracts/src/lib.rs:1865-1946 | From a valid contract: the call is this step of the state machine, with its error or its whole new state, and leaves a valid contract; a failure restores every storage cell. |
| FiatBridgeContract.FiatBridge.AdvanceWithdrawQueueHead | Dechat/stellar-contracts/src/lib.rs:1948-1990 | The stored head becomes the least live id, or none exactly for an empty queue; the final fall-through to none is unreachable. |
| FiatBridgeContract.FiatBridge.AdvanceTierQueueHead | Dechat/stellar-contracts/src/lib.rs:5215-5258 | The tier's head becomes its least live id, or none exactly for an empty tier; no other tier changes; the fall-through is unreachable. |
| FiatBridgeContract.FiatBridge.RemoveFromQueue | Dechat/stellar-contracts/src/lib.rs:1712-1746 | The request leaves the queue and every length and head is correct again. |
| FiatBridgeContract.FiatBridge.GetNextPriorityWithdrawal | Dechat/stellar-contracts/src/lib.rs:5182-5212 | The live request with the least tier and then the least id among tiers up to min(next id, 256); none exactly when there is no such request. |
| FiatBridgeContract.FiatBridge.GetOldestQueuedLedger | Dechat/stellar-contracts/src/lib.rs:3761-3775 | The minimum queued ledger over all live requests; none exactly for an empty queue. |
| FiatBridgeContract.FiatBridge.GetTotalLiabilities | Dechat/stellar-contracts/src/lib.rs:3823-3836 | Between any two calls the stored liabilities are the remaining amounts of the live requests, and at most the net deposits; the error cases are unreachable. |
| FiatBridgeContract.FiatBridge.GetUserDeposited | Dechat/stellar-contracts/src/lib.rs:3609-3614 | Between any two calls a depositor's stored total is the sum of that depositor's receipts. |
| FiatBridgeContract.FiatBridge.GetQueueDepth | Dechat/stellar-contracts/src/lib.rs:3754-3759 | The stored length is the number of live requests. |
| FiatBridgeContract.FiatBridge.EnforceWithdrawalQuota | Dechat/stellar-contracts/src/lib.rs:3953-4002 | Charges one user's quota record and no other, or fails with the quota's error. |
| FiatBridgeContract.FiatBridge.EnforceDailyDepositLimit | Dechat/stellar-contracts/src/lib.rs:2634-2668 | Charges one depositor's daily record for one token and no other, or fails with the limit's error. |
| FiatBridgeContract.FiatBridge.ValidateFiatLimit | Dechat/stellar-contracts/src/lib.rs:2581-2632 | Returns the oracle price used and charges the depositor's fiat record, or fails for oracle, price or cap. |
| FiatBridgeContract.FiatBridge.CheckAndUpdateCircuitBreaker | Dechat/stellar-contracts/src/lib.rs:5082-5175 | Automatic reset, window restart, charge and trip leave the breaker as specified, or the call is refused while tripped. |
| FiatBridgeContract.FiatBridge.AccrueFee | Dechat/stellar-contracts/src/lib.rs:3303-3321 | From a valid contract: the call is this step of the state machine, with its error or its whole new state, and leaves a valid contract; a failure restores every storage cell. |
| FiatBridgeContract.FiatBridge.WithdrawFees | Dechat/stellar-contracts/src/lib.rs:3392-3454 | From a valid contract: the call is this step of the state machine, with its error or its whole new state, and leaves a valid contract; a failure restores every storage cell. |
| FiatBridgeContract.FiatBridge.TransferAdmin | Dechat/stellar-contracts/src/lib.rs:2359-2374 | From a valid contract: the call is this step of the state machine, with its error or its whole new state, and leaves a valid contract; a failure restores every storage cell. |
| FiatBridgeContract.FiatBridge.AcceptAdmin | Dechat/stellar-contracts/src/lib.rs:2376-2392 | From a valid contract: the call is this step of the state machine, with its error or its whole new state, and leaves a valid contract; a failure restores every storage cell. |
| FiatBridgeContract.FiatBridge.QueueRenounceAdmin | Dechat/stellar-contracts/src/lib.rs:3132-3155 | From a valid contract: the call is this step of the state machine, with its error or its whole new state, and leaves a valid contract; a failure restores every storage cell. |
| FiatBridgeContract.FiatBridge.CancelRenounceAdmin | Dechat/stellar-contracts/src/lib.rs:3323-3344 | From a valid contract: the call is this step of the state machine, with its error or its whole new state, and leaves a valid contract; a failure restores every storage cell. |
| FiatBridgeContract.FiatBridge.ExecuteRenounceAdmin | Dechat/stellar-contracts/src/lib.rs:3515-3536 | From a valid contract: the call is this step of the state machine, with its error or its whole new state, and leaves a valid contract; a failure restores every storage cell. |
| FiatBridgeContract.FiatBridge.ResetCircuitBreaker | Dechat/stellar-contracts/src/lib.rs:4978-4990 | From a valid contract: the call is this step of the state machine, with its error or its whole new state, and leaves a valid contract; a failure restores every storage cell. |
| Multisig.SafeOverRuns | Dechat/stellar-contracts/src/lib.rs:5431-5569 | Under any interleaving: an action that took effect is the one stored in the proposal of its id, had at that moment the standing votes of at least the threshold of initial signers, took effect only once, and set exactly the cell it is named for to the value its payload encodes; and these actions with the administrator's own changes account for every setting. |
| Multisig.ProposalsAreFixed | Dechat/stellar-contracts/src/lib.rs:5431-5569 | In every reachable board, no further calls remove a proposal or change its action, its creator or its date. |
| Multisig.ApprovalsOverRuns | Dechat/stellar-contracts/src/lib.rs:5431-5536 | The approvals of every proposal are distinct initial signers, namely those whose last vote on it was not taken back. |
| Multisig.ExecuteSucceedsIff | Dechat/stellar-contracts/src/lib.rs:5539-5569 | Execution succeeds if and only if the proposal exists, never took effect, has threshold standing votes, and its payload decodes. |
| Multisig.ExecutedIsFinal | Dechat/stellar-contracts/src/lib.rs:5484-5488 | An executed proposal is the same after any further calls. |
| Multisig.PayloadRoundTrip | Dechat/stellar-contracts/src/lib.rs:4644-4664 | Every `u32` and every `i128`, negative ones included, is read back from its big-endian bytes, whatever follows them. |
| Multisig.PayloadsAreRead | Dechat/stellar-contracts/src/lib.rs:4644-4664 | Conversely, every payload that is long enough starts with the encoding of exactly the value read from it; a shorter one is refused. |
| MultisigEffects.ActionsDoWhatTheySay | Dechat/stellar-contracts/src/lib.rs:4587-4642 | Per action name: the encoded value reaches exactly the named cell, `pause` sets and `unpause` clears the flag, and a slippage threshold is accepted up to 10000. |
| MultisigEffects.OtherActionsAreRefused | Dechat/stellar-contracts/src/lib.rs:4587-4642 | Unknown names and short payloads are refused. |
| MultisigEffects.ExecutionTakesEffect | Dechat/stellar-contracts/src/lib.rs:5539-5569 | Executing a proposal marks and records it and sets exactly the cell its action names to the value its payload encodes. |
| MultisigEffects.ProposedIsStored | Dechat/stellar-contracts/src/lib.rs:5431-5467 | A proposal is stored with the action, proposer and ledger of the call and stays so through any later calls. |
| MultisigEffects.PausedOverRuns | Dechat/stellar-contracts/src/lib.rs:4628-4633 | Over every run the contract is paused exactly when the last executed `pause` or `unpause`, or the administrator's own change, says so. |
| MultisigEffects.EveryCallIsDecided | Dechat/stellar-contracts/src/lib.rs:5431-5569 | On every reachable board each call succeeds exactly when nothing speaks against it, told from the standing votes and the actions that took effect, with the error named otherwise, and records exactly its own vote or action. |
| Multisig.CheckSigners | Dechat/stellar-contracts/src/lib.rs:895-909 | Signers are accepted if and only if they are at most 20, distinct, and the threshold is between one and their number; otherwise the first violated rule names the error. |
| Multisig.MultisigBoard.ProposeMultisigAction | Dechat/stellar-contracts/src/lib.rs:5431-5467 | A signer's proposal gets the next id and the proposer's vote; failures change nothing. |
| Multisig.MultisigBoard.ApproveMultisigAction | Dechat/stellar-contracts/src/lib.rs:5470-5503 | Adds one vote of a signer to an open proposal; failures change nothing. |
| Multisig.MultisigBoard.RevokeMultisigApproval | Dechat/stellar-contracts/src/lib.rs:5505-5536 | Takes the caller's vote out of an open proposal and keeps the order of the others; failures change nothing. |
| Multisig.MultisigBoard.ExecuteMultisigAction | Dechat/stellar-contracts/src/lib.rs:5539-5569 | Applies the action and marks the proposal executed, both or neither; what applying means is `MultisigEffects.ExecutionTakesEffect`. |
| Multisig.MultisigBoard.ExecuteSingleAdminOp | Dechat/stellar-contracts/src/lib.rs:4587-4642 | Changes at most the one setting the action names, within its bounds, as `MultisigEffects.ActionsDoWhatTheySay` spells out; failures change nothing. |
| Multisig.MultisigBoard.GetMultisigProposal | Dechat/stellar-contracts/src/lib.rs:5571-5573 | On a valid board the stored approvals are distinct signers, namely those whose vote stands, and the flag says whether the action took effect. |
| Multisig.ReadBigEndian | Dechat/stellar-contracts/src/lib.rs:4644-4664 | The number denoted by the leading bytes, most significant first. |
| Operators.RegistryOverRuns | Dechat/stellar-contracts/src/lib.rs:2762-2875 | After any calls the list is duplicate-free and holds exactly the flagged operators, the count is its length, and a non-zero cap is never exceeded. |
| Operators.PruneIsExact | Dechat/stellar-contracts/src/lib.rs:3059-3108 | Pruning deactivates exactly the operators whose recorded heartbeat is older than the threshold and keeps the registry consistent. |
| Operators.PruneKeepsOrder | Dechat/stellar-contracts/src/lib.rs:3059-3108 | The pruned list is a subsequence of the old one. |
| Operators.ChangesAreJustified | Dechat/stellar-contracts/src/lib.rs:2762-2836 | An operator disappears only by the administrator's decision or for a stale heartbeat, and appears only by the administrator's decision. |
| Operators.SetOperatorKeeps | Dechat/stellar-contracts/src/lib.rs:2762-2836 | Setting one operator changes only that operator and the stale ones. |
| Operators.NoReplay | Dechat/stellar-contracts/src/lib.rs:2989-3023 | A call that succeeded with an operator's nonce never succeeds again, whatever happens in between. |
| OperatorEffects.EveryCallIsDecided | Dechat/stellar-contracts/src/lib.rs:2762-2987 | In every reachable registry each call succeeds exactly when nothing speaks against it, pruning and cap included, with the error named otherwise. |
| OperatorEffects.CallsTakeEffect | Dechat/stellar-contracts/src/lib.rs:2762-2987 | A heartbeat records its ledger and spends the nonce, a cap is stored, setting an operator sets that flag, spends its nonce and prunes; nothing else changes. |
| OperatorEffects.ReportingKeepsTheFlag | Dechat/stellar-contracts/src/lib.rs:3059-3108 | An operator that reported keeps its flag through any calls up to the inactivity threshold after its report, unless the administrator dismisses it. |
| OperatorContract.OperatorRegistry.SetOperator | Dechat/stellar-contracts/src/lib.rs:2762-2836 | Same outcome, error and registry as specified; a refusal after the nonce was spent and the list pruned undoes both. |
| OperatorContract.OperatorRegistry.SetMaxOperators | Dechat/stellar-contracts/src/lib.rs:2838-2875 | Sets the cap unless it is non-zero and below the current count. |
| OperatorContract.OperatorRegistry.Heartbeat | Dechat/stellar-contracts/src/lib.rs:2922-2946 | Records the ledger for an active operator who signs with the right nonce while the breaker is clear. |
| OperatorContract.OperatorRegistry.IsOperator | Dechat/stellar-contracts/src/lib.rs:2948-2963 | On a valid registry the flag is set exactly for the addresses in the list, which has no repetitions, agrees with the count and respects a non-zero cap. |
| OperatorContract.OperatorRegistry.PruneInactiveOperators | Dechat/stellar-contracts/src/lib.rs:2978-2987 | The administrator's pruning, or a refusal that changes nothing. |
| OperatorContract.OperatorRegistry.PruneInactiveOperatorsInternal | Dechat/stellar-contracts/src/lib.rs:3059-3108 | One pass over the list leaves flags, list and count as a filter of the old list would. |
| OperatorContract.OperatorRegistry.RemoveOperatorFromList | Dechat/stellar-contracts/src/lib.rs:3117-3129 | All other operators, in their order. |
| Allowlist.ListingOverRuns | Dechat/stellar-contracts/src/lib.rs:2060-2127 | After any additions, repeated ones included, and removals: the full listing names exactly the allowed pairs, each as often as its additions exceed its effective removals. |
| Allowlist.AllowedOverRuns | Dechat/stellar-contracts/src/lib.rs:2060-2127 | A pair is allowed exactly when the last successful call about it added it; one removal undoes any number of additions. |
| Allowlist.EveryCallIsDecided | Dechat/stellar-contracts/src/lib.rs:2060-2127 | Additions and removals fail exactly without the administrator or, for additions, without a free slot number. |
| Allowlist.ListingRepeatsIff | Dechat/stellar-contracts/src/lib.rs:2060-2127 | The listing is free of repetitions if and only if each allowed pair holds exactly one slot, counting one more per addition and one less per removal that found one. |
| Allowlist.AddingRepeatsIff | Dechat/stellar-contracts/src/lib.rs:2060-2092 | An addition makes its pair listed repeatedly if and only if the pair still held a slot. |
| Allowlist.TokenAllowlist.AddTokenAllowlist | Dechat/stellar-contracts/src/lib.rs:2060-2092 | Allows the pair and gives it the next slot; an overflow of the slot counter undoes both. |
| Allowlist.TokenAllowlist.RemoveTokenAllowlist | Dechat/stellar-contracts/src/lib.rs:2094-2127 | Disallows the pair and empties the first slot that holds it, if any. |
| Allowlist.TokenAllowlist.GetTokenAllowlist | Dechat/stellar-contracts/src/lib.rs:3247-3274 | A page is the prefix, of the given limit, of the allowed entries from the offset on; with room for all slots it names exactly the allowed pairs. |
| Migration.BatchesEqualOnePass | Dechat/stellar-contracts/src/lib.rs:4257-4343 | Any sequence of batches leaves the records of one pass up to the cursor, copies nothing twice, and, once complete, equals one pass in records, cursor and version. |
| Migration.RecordsAreReceipts | Dechat/stellar-contracts/src/lib.rs:4287-4322 | Once complete, every receipt that the index leads to has its record with its depositor, amount and ledger, and there are no other records. |
| Migration.EveryCallIsDecided | Dechat/stellar-contracts/src/lib.rs:4257-4280 | A call is refused exactly without the administrator's signature or once the migration is complete. |
| Migration.OneCallIsOnePassIff | Dechat/stellar-contracts/src/lib.rs:4257-4343 | One call finishes the migration if and only if its batch exceeds the present receipts, or equals them and the last index entry is present, or there is nothing to migrate. |
| Migration.FinishesInTime | Dechat/stellar-contracts/src/lib.rs:4257-4343 | Positive batches complete the migration within as many calls as sequence numbers are left, at least one. |
| Migration.ReachIsExact | Dechat/stellar-contracts/src/lib.rs:4281-4323 | A batch stops at the end or right after the last receipt it may copy, and a positive batch always advances. |
| Migration.Migrator.MigrateEscrow | Dechat/stellar-contracts/src/lib.rs:4257-4343 | Records, cursor, version and the returned count of one call, skipping evicted entries; refusals change nothing, and the progress stays one that calls can reach. |
| Migration.Migrator.CopyBatch | Dechat/stellar-contracts/src/lib.rs:4281-4323 | The loop over the index copies exactly the present receipts of the batch and stops where the batch function says. |
| Migration.Migrator.GetEscrowRecord | Dechat/stellar-contracts/src/lib.rs:4411-4413 | Once the version is stored, exactly the sequence numbers whose receipts are present have a record, the one made of the receipt. |
| MigratedAmounts.MigrationConserves | Dechat/stellar-contracts/src/lib.rs:4287-4322 | After any run of the escrow, a completed migration's records sum to at most the total deposited, in all and per depositor, with equality if and only if no index entry, or none of that depositor, was evicted. |
| MigratedAmounts.RunKeepsIndexed | Dechat/stellar-contracts/src/lib.rs:1141-1192 | In every run the receipt index is dense and names every receipt exactly once. |
| FixedPoint.FloorIsExact | Dechat/stellar-contracts/src/math.rs:79-90 | When it fails, and that the result is the mathematical floor if and only if the divisor is positive or divides the product. |
| FixedPoint.CeilIsExactIff | Dechat/stellar-contracts/src/math.rs:146-158 | When it fails, and exactly when the result is the mathematical ceiling: for a positive divisor if and only if the product is non-negative or divides evenly (otherwise it is one too low), for a negative divisor only in the two ranges named. |
| FixedPoint.CeilOfNegativeProduct | Dechat/stellar-contracts/src/math.rs:256-261 | The ceiling of -7 * 3 / 2 is -10 and the code returns -11. |
| FixedPoint.DivRem | Dechat/stellar-contracts/src/math.rs:79-90 | Rust's quotient and remainder reassemble the dividend, with a remainder of the dividend's sign below the divisor's magnitude. |
| Slippage.SlippageIsExact | Dechat/stellar-contracts/src/lib.rs:2503-2556 | The test aborts exactly when a product leaves `i128`, and otherwise accepts if and only if the relative fall, as a real number, is within tolerance. |
| Slippage.SlippageIsMonotone | Dechat/stellar-contracts/src/lib.rs:2503-2556 | A better price or a wider tolerance never turns acceptance into rejection, unless a product no longer fits. |
| Iban.SubstitutionIsDetected | Dechat/dex_with_fiat_frontend/src/components/BankDetailsModal.tsx:38-67 | Any single digit-for-digit or letter-for-letter substitution turns an accepted IBAN into a rejected one. |
| Iban.SwapIsDetectedUnlessBlind | Dechat/dex_with_fiat_frontend/src/components/BankDetailsModal.tsx:38-67 | Swapping neighbours on one side of index 4 is missed by the form if and only if they are equal, or one of the pairs 1/B, 2/M, 3/X behind index 4 (at index 1 such a pair passes the residue and fails the format); within a class every swap is caught. |
| Iban.ExactlyOneCheckNumber | Dechat/dex_with_fiat_frontend/src/components/BankDetailsModal.tsx:38-67 | For every country code and account number exactly one check number in 02..98 is accepted. |
| Iban.CheckIsResidue | Dechat/dex_with_fiat_frontend/src/components/BankDetailsModal.tsx:38-51 | The check on the expanded decimal string is a residue of the number the rearranged characters denote. |
| Iban.SpacesDoNotMatter | Dechat/dex_with_fiat_frontend/src/components/BankDetailsModal.tsx:53-67 | White space anywhere in the field does not change whether it is accepted. |
| Iban.CaseDoesNotMatter | Dechat/dex_with_fiat_frontend/src/components/BankDetailsModal.tsx:53-67 | Nor does the case of a letter. |
| Iban.FieldIsExact | Dechat/dex_with_fiat_frontend/src/components/BankDetailsModal.tsx:38-67 | A filled field is accepted exactly when, without spaces and in upper case, it has two letters, two digits, 11 to 30 letters or digits, and the residue 1; an empty one is accepted. |
| Iban.ReplacePiece | Dechat/dex_with_fiat_frontend/src/components/BankDetailsModal.tsx:38-51 | Replacing a piece by one of equal decimal length changes the residue of the whole if and only if it changes that of the piece. |

## Left out

- Single settings: one step that may set all of them to anything, and one for a token's limits, stand for all setters of the administrator; the individual setters and getters are easy.
- FiatBridgeContract.FiatBridge.constructor: takes only arguments that `init` accepts; the failing checks of `init` are those of `Escrow.Initialize`, those on signers are `Multisig.CheckSigners`.
- The class has no methods for the single setters, for what executed multisig actions set, or for token transfers that bypass the contract; these are steps of the state machine only.
- FiatBridgeContract.FiatBridge.InitializeAgain: the checks after the refused re-initialization are not reached and not repeated.
- Payable.AlwaysPayable: requires room for the plan in the `u64` execution nonces, which the code also needs.
- LimitRuns.DailyLimitBoundsEverySpan: says nothing of a user who deposits at the last `u32` ledger number, where `Witnesses.DailyLimitFailsAtLastLedger` shows that the limit fails.
- RequestRuns.CooldownSpacesDeposits: takes the stored deposit ledger to outlive the cooldown, which is what its lifetime extension asks of the host.
- Slippage.SlippageIsMonotone: a wider tolerance can overflow the product, which the code answers with an abort.
- `withdraw_fees_batch` repeats a single fee payout; fee nonces and the recovery cap decide nothing that is claimed here.
- Fee payouts to the contract itself move nothing and are not counted as fees paid.
- Queued administrator actions and batched operations of the administrator (`execute_admin_action`, `execute_batch_admin`): the first only removes its entry, the second repeats single settings without rollback.
- The denylist's enumeration: denying twice and removing once leaves a stale slot, so it is not the denied set; membership itself is modelled.
- `rescue_token` (other tokens only), `execute_upgrade` (replaces the code) and `set_migration_cursor` (overrides the cursor, which would void the claims about migration).
- Oracle freshness and the oracle contract: its answer is an arbitrary input.
- Signatures and hashing: the signers of a call are an input, and a receipt hash is an injective function of what it is derived from.
- Events, telemetry, storage lifetimes and fees; eviction of receipt index entries is modelled in the migration only.
- In full and partial execution the class serves the queue and moves tokens in a fixed order; within one call the order cannot be observed, because a failure undoes both.
- Upper-casing of characters outside ASCII in the IBAN field: the few that become ASCII letters, such as the long s, are not part of this model.
- The rest of the bank details form, the other components of the front end and its scripts are user interface, network and file access.
