# Verified model of the Seven Lens Paper execution stack

A Dafny 4.11 model of the parts of Seven Lens where a mistake costs money or repeats a side
effect: the Paper execution engine against its broker, the fill ledger and everything that
rests on it, and the deterministic cores of the analysis stack. `dafny verify dfyconfig.toml`
checks the whole project.

## What is modelled

**Execution.** `FakeBroker` is the in-memory Paper broker: scripted submit outcomes,
asynchronous cancels, partial fills, hidden orders. `Persistence` is the database behind the
repositories as two copies, durable and staged: commit copies one way, a rollback or a crash the
other; its writes obey the trigger guards of the migrations. `ExecutionEngine` drives one
against the other. Between any two of its steps the broker may move any number of orders, other
processes may pause, resume (if the database allows it) or record reconciliation runs, and the
process may die. `ReportHandling` is the part that takes in a broker report, stated for every
answer a broker port could give, conflicting ones included. `EngineInvariant`, `EngineReports`,
`Submissions`, `RecoverySweep`, `ExpirySweep`, `CancelSweep` and `CancelEffects` say what the
engine's steps mean for the tables. `Control`, `Flatten` and `Reconciliation` are the operator's
commands; `FlattenOutcome`, `CleanReconciliation` and `UnrecordedRuns` say what they come to.
`Operations.AnyRun` strings arbitrary commands together; what every run keeps is the invariant
`ExecutionState.Good` together with the log of durable states `Persistence.Log`, and
`ExecutionLaws` says what those mean. The result for whole runs is `Operations.RunFromScratch`:
it ends in a state where `ExecutionLaws.Safe` holds.

**Ledger.** `Ledger` holds the source's loops over cash, lots, seen ids and per-order totals,
proved equal to a recursive replay; `LedgerLaws` proves the FIFO, acceptance and valuation laws
of that replay, `ReconciliationLaws`, `FlattenLaws` and `PositionLaws` build on them.

**Independent cores.** `Barrier` (the bounded task group over all interleavings), `Invoker`
(audited model calls over a claim store), `Pipeline` and `Proposals` (resumable stages),
`LiveEval` (retries and breaker), `LiveMetrics` (their accounting), `JsonValues` (the payload
and envelope normalisers over object graphs) and `Decimals` (fixed-scale texts).

Prices are whole cents, quantities whole shares, time integer microseconds read from a clock
that never runs backwards. Integers are unbounded where Python's are; the ledger's range checks
are modelled as written.

## Where the code and its documentation disagree

- The ledger's module text (`src/seven_lens/execution/ledger.py:6-8`) calls a negative cash
  projection a hard failure. The code only bounds its magnitude, after each buy and at the end:
  `LedgerLaws.LedgerAcceptance` gives the exact condition for acceptance,
  `LedgerLaws.NegativeCashAccepted` for acceptance with negative cash, and
  `LedgerLaws.FirstBuyLeavesNegativeCash` a whole family of such inputs.
- `expire_overdue` says that a failed cancel changes nothing locally
  (`src/seven_lens/application/execution_service.py:295-298`). Two kinds of failures do change the
  tables. An intent that was ACKNOWLEDGED or PARTIALLY_FILLED is durably CANCEL_PENDING before the
  cancel goes out (`src/seven_lens/application/execution_service.py:267-271`) and stays so when the
  transport fails or the order has vanished: `CancelWitness.TimeoutLeavesPending`. And a report
  counts before it is refused: a rejection leaves mirror and new fills staged for the sweep's commit
  (`CancelWitness.RejectionLeavesMirror`), a contradicting one leaves the intent durably under
  review. A failed cancel changes nothing exactly when the intent was CANCEL_PENDING already and
  either no report came or the report is stored with all its fills:
  `CancelEffects.FailedCancelLeavesTables` for one request, as `RequestCancel` states it of the code;
  `CancelEffects.FailedCancelInRun` for an intent in a whole sweep;
  `CancelEffects.FailedReportLeavesTables` for whatever a broker port may report.
- `run` says that it collects, persists the run and pauses entries on any mismatch
  (`src/seven_lens/application/reconciliation_service.py:129`). It catches transport failures and
  ledger errors only. Another broker error, an account value out of the ledger's range
  (`src/seven_lens/execution/ledger.py:104-114`) and more than 10,000 findings
  (`src/seven_lens/execution/reconciliation.py:83-84`) escape it: nothing is recorded and entries stay
  as they were, whatever mismatches were already found. `Control.Recordable` is the exact condition
  for a recorded run, `Control.RunReconciliation` states both sides, and
  `UnrecordedRuns.PennyStockAtTheTop`, `UnrecordedRuns.TooManyUnresolved` and
  `UnrecordedRuns.SoldOnEarlierOrder` are inputs for the three ways out.

## Model

| member | source | states |
|---|---|---|
| `Ledger.ProjectLedger` | src/seven_lens/execution/ledger.py:118-182 | the in-place replay of cash, lots, ids and totals computes exactly the recursive specification, errors included |
| `Ledger.ConsumeLots` | src/seven_lens/execution/ledger.py:157-175 | a sell takes shares from the lots of its symbol oldest first and credits exactly what it found |
| `LedgerLaws.FifoRefinement` | src/seven_lens/execution/ledger.py:129-182 | share by share, each symbol's lots are all its buys in canonical order without the first total-sold shares, also after the final sort |
| `LedgerLaws.ReplayIsFifo` | src/seven_lens/execution/ledger.py:136-176 | every prefix of the replay holds the FIFO remainder of its own fills |
| `LedgerLaws.ConsumeDropsOldest` | src/seven_lens/execution/ledger.py:157-175 | consuming lots drops the oldest shares of that symbol, no others, and leaves other symbols alone |
| `LedgerLaws.LedgerAcceptance` | src/seven_lens/execution/ledger.py:118-182 | the ledger succeeds exactly when ids are distinct, orders known, totals fit, no canonical prefix oversells and cash is bounded after buys and at the end |
| `LedgerLaws.ArrivalOrderIrrelevant` | src/seven_lens/execution/ledger.py:132-136 | any permutation of the fills gives the same projection or the same refusal |
| `LedgerLaws.ProjectFailsOnlyByOversellOrCash` | src/seven_lens/execution/ledger.py:136-181 | with distinct ids, known orders and fitting totals only an oversell or the cash bound can refuse |
| `LedgerLaws.FirstBuyLeavesNegativeCash` | src/seven_lens/execution/ledger.py:145-151 | a first buy within the bound is accepted and leaves cash negative |
| `LedgerLaws.NegativeCashAccepted` | src/seven_lens/execution/ledger.py:145-182 | a projection with negative cash is accepted exactly on acceptable fills that cost more than they bring |
| `LedgerLaws.PositionsAreNetBuys` | src/seven_lens/execution/ledger.py:66-72 | the position view holds exactly the symbols bought more than sold, at the difference |
| `LedgerLaws.MarkToMarket` | src/seven_lens/execution/ledger.py:74-95 | valuation minus opening cash is the sum of every buy's gain to the mark and every sell's gain from it |
| `Ledger.Positions` | src/seven_lens/execution/ledger.py:66-72 | accumulating lots gives the total per symbol |
| `Ledger.AccountValuation` | src/seven_lens/execution/ledger.py:74-95 | opening cash plus cash delta plus marked lots, or the first applicable refusal |
| `Ledger.AccountEquity` | src/seven_lens/execution/ledger.py:98-115 | checkpointed cash plus marked lots, or a refusal |
| `Orders.BrokerReachesComposes` | src/seven_lens/execution/orders.py:532-612 | two legal broker status changes in a row are one legal change, so a mirror may skip any number of reports |
| `Orders.TextTransitive` | src/seven_lens/execution/ledger.py:132-135 | the text order used for canonical replay is transitive |
| `FakeBroker.PaddedInjective` | src/seven_lens/execution/fake_broker.py:330-335 | zero-padded sequence numbers never collide |
| `FakeBroker.FakePaperBroker.SubmitOrder` | src/seven_lens/execution/fake_broker.py:159-202 | a seen client id changes nothing and is answered from the records; a fresh one follows its one-shot plan |
| `FakeBroker.FakePaperBroker.FollowPlan` | src/seven_lens/execution/fake_broker.py:172-202 | each scripted outcome leaves behind and reports exactly what the plan says; the plan is consumed |
| `FakeBroker.FakePaperBroker.RecordAcceptedOrder` | src/seven_lens/execution/fake_broker.py:329-355 | one new order with a fresh id and the intent's parameters, with the scripted first fill if it fits |
| `FakeBroker.FakePaperBroker.ApplyFillStep` | src/seven_lens/execution/fake_broker.py:357-378 | one execution is refused past the order quantity, otherwise appended, counted and reflected in the status |
| `FakeBroker.FakePaperBroker.CancelOrder` | src/seven_lens/execution/fake_broker.py:282-292 | a cancel of an open order times out, waits or lands at once by mode, and touches no other order; any other is refused without change |
| `FakeBroker.FakePaperBroker.Transition` | src/seven_lens/execution/fake_broker.py:380-383 | a status moves exactly when the closed broker map contains the change |
| `FakeBroker.FakePaperBroker.Drift` | src/seven_lens/execution/fake_broker.py:294-327 | any number of broker-side events keeps the broker invariant; orders only advance |
| `FakeBroker.FillStepKeepsInv` | src/seven_lens/execution/fake_broker.py:357-378 | an execution keeps totals, statuses and execution ids consistent and only advances the order |
| `FakeBroker.NewOrderKeepsInv` | src/seven_lens/execution/fake_broker.py:329-348 | a new order keeps one order per client id and unused ids unused |
| `FakeBroker.OneOrderPerClient` | src/seven_lens/execution/fake_broker.py:159-202 | a client id has at most one order and it carries the submitted parameters |
| `BrokerPositions.ListPositions` | src/seven_lens/execution/fake_broker.py:243-274 | the view lists exactly the positive net shares per symbol; it is refused exactly when some prefix of the fills oversells |
| `BrokerPositions.NeverOversellsNext` | src/seven_lens/execution/fake_broker.py:249-259 | a history oversells nowhere exactly when it did not before and no symbol is negative now |
| `PositionLaws.CaughtUpPositionsAgree` | src/seven_lens/execution/fake_broker.py:243-274 | once every broker order is mirrored and caught up, the broker's position view equals the ledger's |
| `PositionLaws.SumOrderByOrder` | src/seven_lens/execution/fake_broker.py:247-249 | summing order by order equals summing the recorded fills |
| `Persistence.UnitOfWork.Commit` | src/seven_lens/infrastructure/postgres.py:159-164 | the staged tables become durable and extend the log of durable states |
| `Persistence.UnitOfWork.Rollback` | src/seven_lens/infrastructure/postgres.py:166-171 | the open transaction is discarded |
| `Persistence.UnitOfWork.Add` | src/seven_lens/infrastructure/postgres.py:417-459 | a new client id is inserted, a known one must be the identical intent |
| `Persistence.UnitOfWork.TransitionStatus` | src/seven_lens/infrastructure/postgres.py:490-505 | a status is written exactly when the closed map allows it or it does not change |
| `Persistence.UnitOfWork.RecordBrokerOrder` | src/seven_lens/infrastructure/postgres.py:507-605 | a mirror is inserted or refreshed without rebinding either identity; every refusal leaves the tables alone |
| `Persistence.UnitOfWork.AddFill` | src/seven_lens/infrastructure/postgres.py:668-692 | a fill is appended once; a repeated execution id is a no-op |
| `Persistence.UnitOfWork.ResumeEntries` | migrations/0019_control_state_authority_up.sql:72-136 | the database unpauses only with a latest FULL CLEAN run and nothing unresolved |
| `Persistence.UnitOfWork.OtherProcesses` | migrations/0019_control_state_authority_up.sql:30-136 | commits of other processes never touch the tables and respect a held control row |
| `Persistence.LogExtends` | migrations/0007_p2_execution_safety_hardening_up.sql:116-205 | every durable state follows all earlier ones: nothing rebound, lost or moved back |
| `Persistence.StatusStepFollows` | migrations/0015_trade_update_review_gate_up.sql:8-46 | one more legal transition stays within the closure of the map |
| `MirrorRefresh.LiveIntentStuck` | src/seven_lens/application/execution_service.py:604-617 | the pairs without a legal transition: a live intent cannot follow a rejection, nor a cancel while it is not CANCEL_PENDING |
| `MirrorRefresh.ReportAppends` | src/seven_lens/application/execution_service.py:550-601 | this broker's response always passes the preflight, and exactly the missing fills are appended |
| `MirrorRefresh.MergeEqualizes` | src/seven_lens/application/execution_service.py:574-601 | after a refresh the order's recorded fills equal the response and no other order's change |
| `MirrorRefresh.RefreshSound` | src/seven_lens/application/execution_service.py:540-620 | a refresh keeps every relation between the tables and the broker |
| `MirrorRefresh.RefreshIdempotent` | src/seven_lens/application/execution_service.py:540-620 | repeating a refresh with the same report is legal and changes nothing |
| `MirrorRefresh.AbsorbTail` | src/seven_lens/application/execution_service.py:593-601 | when a prefix is stored and the rest is new, exactly the rest is appended |
| `ReportHandling.RefreshFromBrokerOrder` | src/seven_lens/application/execution_service.py:540-620 | for every order and fills: a conflict leaves mirrors and fills untouched and the intent under review, a report without a legal transition leaves the status alone, otherwise the refreshed tables are durable |
| `ReportHandling.Preflight` | src/seven_lens/application/execution_service.py:550-573 | the response is accepted exactly when every fill is bound to the order and no execution id has two payloads, in it or in storage |
| `ReportHandling.AssertMirrorMatches` | src/seven_lens/application/execution_service.py:665-700 | returns exactly when parameters and both identities agree, changing nothing; otherwise the intent is put under review |
| `ReportHandling.PersistReviewAndPause` | src/seven_lens/application/execution_service.py:630-663 | the unresolved marker is durable before the pause; a failure leaves one or the other state, never a mix |
| `ReportHandling.PauseForReconciliation` | src/seven_lens/application/execution_service.py:440-505 | returning means entries are durably paused; a risk exit never pauses; a failed audit keeps the pause |
| `ExecutionEngine.ExecutionEngine.SubmitFromOutbox` | src/seven_lens/application/execution_service.py:158-208 | at most one broker call; an untradable asset or a pause refuses without call or write; any other status is a no-op; a submitted intent ends durably UNKNOWN, REJECTED by the broker, or with its report taken in, and the rest of the tables is exactly as before |
| `ExecutionEngine.ExecutionEngine.CompleteSubmission` | src/seven_lens/application/execution_service.py:379-396 | an entry the guard refuses ends UNKNOWN, every other outcome is durable before it is returned |
| `ExecutionEngine.ExecutionEngine.EnterGuard` | src/seven_lens/application/execution_service.py:398-438 | opens only with the control row held, entries unpaused and nothing durably unresolved; risk exits pass |
| `ExecutionEngine.ExecutionEngine.SubmitWhileGuarded` | src/seven_lens/application/execution_service.py:507-538 | one logged call under the guard; every answer is made durable; a conflict with this broker never happens |
| `ExecutionEngine.ExecutionEngine.TakeAnswer` | src/seven_lens/application/execution_service.py:510-532 | no answer leaves UNKNOWN and entries paused, a rejection REJECTED, an acceptance the broker's order and all its fills; a conflict is marked UNKNOWN and raised |
| `ExecutionEngine.ExecutionEngine.MarkUnknown` | src/seven_lens/application/execution_service.py:511-518 | UNKNOWN is durable first, then the pause of entries |
| `ExecutionEngine.ExecutionEngine.Resolve` | src/seven_lens/application/execution_service.py:209-236 | an order the broker shows is taken in without a call; otherwise the intent stays UNKNOWN or is submitted once, and never at or after its cutoff |
| `ExecutionEngine.ExecutionEngine.SettleUnanswered` | src/seven_lens/application/execution_service.py:222-236 | without an order to show, past the cutoff nothing is sent and the intent is UNKNOWN; before it the submission is completed |
| `ExecutionEngine.ExecutionEngine.ApplyFills` | src/seven_lens/application/execution_service.py:238-258 | a live intent ends with the broker's order and all of its fills recorded and nothing else changed; it can only fail for a vanished order or a report it cannot follow |
| `ExecutionEngine.ExecutionEngine.RequestCancel` | src/seven_lens/application/execution_service.py:260-286 | exactly one cancellation is sent, and only once CANCEL_PENDING is durable; mirror, fills and status are exactly what the broker showed, every other intent untouched; a failed one leaves the tables alone exactly when the intent was CANCEL_PENDING already and its report, if any, was known |
| `ExecutionEngine.ExecutionEngine.ExpireOverdue` | src/seven_lens/application/execution_service.py:288-361 | afterwards no overdue intent waits for submission or is in the middle of it and every overdue live one was asked to cancel; settling leaves accepted intents, their mirrors and fills alone, and each cancellation, failed or not, leaves exactly what its report says |
| `ExecutionEngine.ExecutionEngine.CancelAllOverdue` | src/seven_lens/application/execution_service.py:324-357 | three sweeps leave no overdue live intent unasked; one step per cancellation sent says what it left of intent, mirror and fills, and nothing else changed |
| `CancelEffects.FailedCancelLeavesTables` | src/seven_lens/application/execution_service.py:260-286 | a failed cancel leaves the tables as they were exactly when the intent was CANCEL_PENDING and no report came, or one stored with all its fills |
| `CancelEffects.FailedReportLeavesTables` | src/seven_lens/application/execution_service.py:540-620 | any report that makes the refresh of a pending cancel raise leaves the tables alone exactly when it neither contradicts nor is recorded, or is stored already; a contradiction is durably under review |
| `CancelEffects.FailedCancelInSweep` | src/seven_lens/application/execution_service.py:324-357 | over a sweep, an intent whose cancel failed is untouched exactly when it was CANCEL_PENDING and no report came, or its stored mirror with its stored fills |
| `CancelEffects.FailedCancelInRun` | src/seven_lens/application/execution_service.py:288-361 | the same against the tables the whole expiry began with |
| `CancelEffects.SweepNext` | src/seven_lens/application/execution_service.py:324-357 | one more request extends what a sweep left by exactly its own intent, mirror and fills |
| `CancelEffects.ResolvedLeavesLive` | src/seven_lens/application/execution_service.py:209-236 | resolving an in-flight intent leaves accepted intents, their mirrors and fills alone |
| `CancelWitness.TimeoutLeavesPending` | src/seven_lens/application/execution_service.py:264-276 | an acknowledged intent whose cancel gets no answer ends CANCEL_PENDING |
| `CancelWitness.RejectionLeavesMirror` | src/seven_lens/application/execution_service.py:576-617 | a pending cancel whose order the broker rejects keeps its status and gets the new mirror |
| `ExecutionEngine.ExecutionEngine.Recover` | src/seven_lens/application/execution_service.py:363-377 | a recovery that returns leaves no SUBMITTING intent, staged or durable, and reports exactly the intents that were in flight, each as it is now durable |
| `ExecutionEngine.ExecutionEngine.ResolveDue` | src/seven_lens/application/execution_service.py:363-377 | resolving a list reports exactly its due intents; every other committed intent is untouched, and so are the mirrors and fills of accepted ones |
| `ExecutionEngine.ExecutionEngine.Environment` | src/seven_lens/application/execution_service.py:1-14 | broker moves, other processes and a crash keep the invariant at every point between steps |
| `EngineReports.ReportReady` | src/seven_lens/application/execution_service.py:540-620 | any report of this broker passes every check and leaves sound tables with all fills recorded |
| `EngineReports.ReportMatches` | src/seven_lens/application/execution_service.py:665-700 | this broker's order never contradicts the intent or the mirrors |
| `ExecutionState.SoundUnderAccept` | src/seven_lens/execution/fake_broker.py:329-355 | a newly accepted order keeps every relation between broker and tables |
| `ExecutionState.SoundUnderMoves` | src/seven_lens/execution/fake_broker.py:294-327 | whatever the broker does, past mirrors, recorded fills and terminal statuses stay true |
| `ExecutionState.GoodSubmission` | src/seven_lens/application/execution_service.py:507-511 | a submission through the gate keeps the whole invariant and is logged with its durable state |
| `ExecutionState.ReportIsRecordable` | src/seven_lens/infrastructure/postgres.py:507-605 | the broker's current report never clashes with an identity in the tables |
| `ExecutionLaws.ExactlyOnceExposure` | src/seven_lens/application/execution_service.py:1-14 | on every run a client id has at most one broker order, with the intent's parameters, never filled beyond its quantity |
| `ExecutionLaws.DurableStatusIsTrue` | src/seven_lens/application/execution_service.py:288-361 | an unsent intent has no order; local EXPIRED, REJECTED, CANCELED and FILLED are the broker's truth, FILLED with every share recorded |
| `ExecutionLaws.FillsStayLedgerReady` | src/seven_lens/application/execution_service.py:540-601 | recorded fills are distinct, mirrored, within their order and a prefix of the broker's, so the ledger can refuse only an oversell or its cash bound |
| `ExecutionLaws.EntriesPassTheGate` | src/seven_lens/application/execution_service.py:398-438 | every logged submission of an entry was made unpaused, SUBMITTING and with nothing durably unresolved |
| `ExecutionLaws.UnknownEntryNeverResubmitted` | src/seven_lens/application/execution_service.py:379-438 | an entry that was ever durably UNKNOWN is never submitted from that state on |
| `ExecutionLaws.UnpausedOnlyWhenReady` | src/seven_lens/application/control_service.py:157-180 | entries become unpaused only in a state whose latest run is FULL and CLEAN with nothing unresolved |
| `ExecutionLaws.GoodIsSafe` | src/seven_lens/application/execution_service.py:1-14 | the invariant with its log implies all of these laws at once, for every order, intent, submission and durable state |
| `ExecutionLaws.StatusNeverReturns` | migrations/0015_trade_update_review_gate_up.sql:8-46 | a status that is not live is never entered twice |
| `Operations.AnyRun` | src/seven_lens/application/execution_service.py:136-148 | any sequence of engine, planner and operator commands keeps the invariant and only extends history |
| `Operations.RunFromScratch` | src/seven_lens/application/execution_service.py:1-14 | every run from a fresh start, through any script, interference and crashes, ends in a safe world: every execution law below holds of all it left behind |
| `Operations.FreshStart` | src/seven_lens/execution/fake_broker.py:110-148 | a fresh broker with any script, asset tables included, and empty tables is a valid start |
| `Planning.GoodWithNewIntent` | src/seven_lens/infrastructure/postgres.py:417-459 | a new intent keeps every relation |
| `Reconciliation.Collect` | src/seven_lens/application/reconciliation_service.py:200-548 | fails on a broker query before the ledger is projected or at the positions, on a ledger or cash-delta error, on an account value out of range, and on more than 10,000 findings, each exactly when it applies first; otherwise is clean exactly when every check agrees, reports exactly the findings of each check, order findings first, and counts them and what it examined |
| `Reconciliation.CollectOpenMirrors` | src/seven_lens/application/reconciliation_service.py:242-301 | the open pass reports exactly the missing, contradicting and incomplete mirrors, in order |
| `Reconciliation.CollectClosedOrders` | src/seven_lens/application/reconciliation_service.py:331-369 | the closed-history pass reports on exactly the closed orders the open snapshot does not outdate |
| `Reconciliation.ComparePositions` | src/seven_lens/application/reconciliation_service.py:374-393 | exactly the differing symbols are reported, by kind, each once |
| `Reconciliation.CashDelta` | src/seven_lens/application/reconciliation_service.py:463-476 | the running delta is the signed sum, refused exactly when a fill is unknown or a prefix leaves the range |
| `Reconciliation.CompareNav` | src/seven_lens/application/reconciliation_service.py:489-536 | NAV agrees within tolerance at the marks, or is reported unavailable or different; it raises exactly when every lot has a mark and cash or the marked account leaves the range |
| `Reconciliation.CollectAccount` | src/seven_lens/application/reconciliation_service.py:394-536 | reports exactly the identity, buying power, baseline, cash and NAV findings; a cash delta out of range is a ledger error, an account value out of range a plain one |
| `ReconciliationLaws.ResumeSafeMeansAgreement` | src/seven_lens/application/reconciliation_service.py:200-548 | a FULL CLEAN run is exactly: a policy, nothing unresolved, all order views agreeing, positions net buys minus sells, account within tolerance |
| `ReconciliationLaws.NothingFoundMeansAgreement` | src/seven_lens/application/reconciliation_service.py:222-369 | the order passes find nothing exactly when every order view agrees |
| `ReconciliationLaws.NewsIsClosedAndFresh` | src/seven_lens/application/reconciliation_service.py:331-346 | with distinct ids the pass examines the closed orders that are not old news |
| `ReconciliationLaws.RebaseKeepsExpectedCash` | src/seven_lens/application/reconciliation_service.py:433-478 | moving the cutoff forward, with opening cash moved by the fills between, leaves expected cash and checkpointed equity unchanged |
| `ReconciliationLaws.RebaseKeepsVerdict` | src/seven_lens/application/reconciliation_service.py:394-536 | and so the account check agrees, and finds, the same with either checkpoint |
| `ReconciliationLaws.LaterCutoffAdmitsFewer` | src/seven_lens/application/reconciliation_service.py:436-447 | a later (time, execution id) cutoff admits no fill an earlier one refused |
| `ReconciliationLaws.GenesisNavIsValuation` | src/seven_lens/execution/ledger.py:74-115 | with the cutoff before every fill, checkpointed equity is the account valuation |
| `CleanReconciliation.NothingToFind` | src/seven_lens/application/reconciliation_service.py:222-393 | answered by a broker whose every order is mirrored and caught up, with nothing unresolved, the order and position checks find nothing |
| `CleanReconciliation.OnlyTheAccountDecides` | src/seven_lens/application/reconciliation_service.py:200-548 | such a run is resume-safe exactly when there is a policy and the account agrees |
| `Control.ResumeEntries` | src/seven_lens/application/control_service.py:157-180 | resumes exactly in a ready state, under the lock submissions take |
| `Control.PauseEntries` | src/seven_lens/application/control_service.py:148-155 | the pause is durable when it applies |
| `Control.RunReconciliation` | src/seven_lens/application/reconciliation_service.py:126-182 | a run is recorded exactly when the broker was lost by transport, the ledger or cash delta raised, or neither an account value out of range nor too many findings stood in the way; then it is appended together with the pause a mismatch demands and says exactly whether the tables agree with the broker; otherwise it raises and leaves runs, pause and tables alone |
| `Control.Report` | src/seven_lens/application/reconciliation_service.py:132-166 | transport failures and ledger errors become the one finding of a PARTIAL run; other broker errors, an account value out of range and too many findings escape |
| `UnrecordedRuns.OneBuyRaises` | src/seven_lens/execution/ledger.py:98-115 | after one buy, marking the shares raises exactly when expected cash or the marked account leaves the range |
| `UnrecordedRuns.PennyStockAtTheTop` | src/seven_lens/application/reconciliation_service.py:499-536 | 1001 shares bought at one cent and marked at the highest price: no run is recorded, although the broker reports no position |
| `UnrecordedRuns.PennyStateIsSound` | src/seven_lens/application/reconciliation_service.py:126-182 | such a purchase is a sound state of broker and tables |
| `UnrecordedRuns.TooManyUnresolved` | src/seven_lens/execution/reconciliation.py:83-84 | with more than 10,000 intents unresolved, each a finding, no run is recorded |
| `UnrecordedRuns.SoldOnEarlierOrder` | src/seven_lens/execution/fake_broker.py:249-259 | shares bought first but sold on the order with the smaller id: the ledger accepts them, the broker refuses its positions, and no run is recorded |
| `Control.CancelOpenOrders` | src/seven_lens/application/control_service.py:182-221 | when it applies, every live intent had its cancellation sent and is reported |
| `Flatten.FlattenPaper` | src/seven_lens/application/control_service.py:223-448 | when it applies every live order was asked to cancel, nothing was unsettled and the books agreed before the first exit, and every position, in symbol order, has one accepted exit of the new generation, under a new client id, for exactly its shares, durable and at the broker |
| `Flatten.AgreedBook` | src/seven_lens/application/control_service.py:341-346 | the ledger's positions, only when the broker's net shares equal them symbol by symbol |
| `Flatten.PositionsAgree` | src/seven_lens/application/control_service.py:450-463 | agrees exactly when every symbol's net shares equal the ledger's position |
| `Flatten.SubmitExit` | src/seven_lens/application/control_service.py:389-425 | a returned exit is a RISK_EXIT sell of the position that the broker accepted and holds with its parameters, and the only intent that changed |
| `Flatten.CheckBook` | src/seven_lens/application/control_service.py:341-372 | a book is sold only when it agrees with the broker and every symbol is tradable and priced |
| `FlattenOutcome.CompletedFlattenHoldsNothing` | src/seven_lens/application/control_service.py:331-448 | in any later state where the placed exits are FILLED and nothing else traded since the book was checked, the ledger has no lots, and accepts exactly when final cash is in range |
| `FlattenOutcome.ExitsSold` | src/seven_lens/application/control_service.py:373-425 | the fills on the exit orders sell exactly the positions of their symbols |
| `FlattenOutcome.SinceIsLater` | src/seven_lens/execution/fake_broker.py:329-378 | every fill of the exits sorts canonically behind every fill recorded when the book was checked, up to the order of ids stamped at one moment |
| `FlattenLaws.FlattenEmptiesBook` | src/seven_lens/execution/ledger.py:118-182 | selling exactly every position afterwards empties the book |
| `FlattenLaws.CanonicalAppends` | src/seven_lens/execution/ledger.py:132-136 | canonical order puts later fills behind earlier ones |
| `Barrier.EveryRunIsCanonical` | src/seven_lens/analysis/concurrency.py:33-91 | every interleaving ends with the least failing task's error or all results in order, and no task starts twice |
| `Barrier.RaiseIsCanonical` | src/seven_lens/analysis/concurrency.py:58-88 | once the earlier running tasks are settled, the least finished failure is the least failing task |
| `Barrier.CancelKeepsInv` | src/seven_lens/analysis/concurrency.py:40-56 | a cancelled task always lies behind a failure whose predecessors all started |
| `Barrier.NeverStuck` | src/seven_lens/analysis/concurrency.py:33-91 | until the group ends some step is possible |
| `Barrier.StepUsesWork` | src/seven_lens/analysis/concurrency.py:33-91 | every step uses up work, so every interleaving is finite |
| `Barrier.CanonicalIsUnique` | src/seven_lens/analysis/concurrency.py:78-88 | the canonical outcome is unique |
| `Invoker.AuditedModelInvoker.Invoke` | src/seven_lens/application/model_invoker.py:213-392 | only the invocation that created the claim reaches the network, and only before the deadline; a call that was made by a process that lived ends in a durable output, a durable coded failure or an audit failure, the last exactly when the store failed or the transport said so; a stored attempt decides the answer |
| `Invoker.AuditedModelInvoker.AnyInvocations` | src/seven_lens/application/model_invoker.py:213-392 | any sequence of invocations, with crashes and other invokers between: no id is sent twice, every call and output keeps its durable conclusion, one request never yields two outputs |
| `Invoker.InvocationsFromScratch` | src/seven_lens/application/model_invoker.py:213-392 | from an empty store every id is sent at most once and every returned output is durable |
| `Invoker.AuditedModelInvoker.Settle` | src/seven_lens/application/model_invoker.py:285-392 | every answer of the transport ends in an output whose canonical payload is durable, a failure durable under its code, or an audit failure, the last exactly when persisting failed or the transport said so; a malformed reply is PROTOCOL; each code says exactly what was wrong with the reply, in the order of the checks |
| `Invoker.AuditedModelInvoker.ClaimCall` | migrations/0012_p3e_provider_audit_up.sql:196-249 | a claim is created once, read back as in progress or closed, and never rebound |
| `Invoker.AuditedModelInvoker.Persist` | migrations/0012_p3e_provider_audit_up.sql:251-400 | an attempt closes exactly its own open claim; only an identical one is accepted again |
| `Invoker.AtMostOneCall` | src/seven_lens/application/model_invoker.py:232-262 | an id that was sent stays claimed and is never sent again |
| `Invoker.ReplayReturnsTheOutput` | src/seven_lens/application/model_invoker.py:420-447 | replaying a durable success in time gives back the returned output |
| `Invoker.ReplayRepeatsTheFailure` | src/seven_lens/application/model_invoker.py:420-447 | replaying a durable failure in time fails with the same code, an old DEADLINE row as TIMEOUT |
| `Pipeline.AnalysisPipeline.Run` | src/seven_lens/analysis/pipeline.py:145-323 | from whatever an earlier run stored, a run that returns gives the uninterrupted result and asks only for stages not stored |
| `Pipeline.AnalysisPipeline.Persist` | src/seven_lens/analysis/pipeline.py:638-657 | one stage is stored with its payload, a stage already stored must hold the same one, and nothing stored changes |
| `Pipeline.StoredStagesAreNotAsked` | src/seven_lens/analysis/pipeline.py:165-323 | once a stage is reached, no later run adds a request to it; a complete run asks nothing |
| `Proposals.ProposalPipeline.Execute` | src/seven_lens/analysis/proposal_pipeline.py:364-428 | an attempt that returns gives its uninterrupted proposal and has its terminal row; a stored debate or proposal is not asked again |
| `Proposals.ProposalPipeline.Retry` | src/seven_lens/analysis/proposal_pipeline.py:295-362 | attempt 2 stores attempt 1's debate payload unchanged, asks no viewpoint again and leaves the first run alone; under a second context it is refused without a trace |
| `Proposals.NextArgument` | src/seven_lens/analysis/proposal_pipeline.py:584-614 | each viewpoint builds on the rounds before its own; one bad argument sinks the debate |
| `LiveEval.Execute` | src/seven_lens/evals/provider_eval.py:744-873 | the attempt cap never stops a run; the breaker opens exactly at the first three exhausted cases in a row |
| `LiveEval.PostCase` | src/seven_lens/evals/provider_eval.py:780-866 | a case is retryable failures, at most two, then at most one other outcome, all recorded |
| `LiveEval.RequestTotal` | src/seven_lens/evals/provider_eval.py:1485-1503 | the records with an attempt ordinal are one per posted case plus its retries, at most three per posted case |
| `LiveMetrics.Recompute` | src/seven_lens/evals/provider_eval.py:876-939 | grouping the records by case, keeping the valid cases and summing gives the logical, retried and exhausted counts of the specification |
| `LiveMetrics.RequestsAreLogicalPlusRetries` | src/seven_lens/evals/provider_eval.py:907-939 | on any records, requests are the recomputed logical requests plus retries exactly when no posted record belongs to an invalid case; otherwise there are more |
| `LiveMetrics.RunRecords` | src/seven_lens/evals/provider_eval.py:884-915 | with distinct case ids, the group of a posted case is exactly its block of attempts |
| `LiveMetrics.RunAccounting` | src/seven_lens/evals/provider_eval.py:876-939 | over a run, requests equal logical plus retries exactly when every posted case is valid, and a case counts as exhausted exactly when its block was |
| `LiveEval.NextBlock` | src/seven_lens/evals/provider_eval.py:831-866 | the running counter is exactly the exhausted cases in a row |
| `JsonValues.Normalizer.Normalize` | src/seven_lens/domain/json_values.py:102-160 | on every graph succeeds exactly when the tree unfolding meets every cap, returns that tree, adds its size and restores the active set |
| `JsonValues.NormalizePayload` | src/seven_lens/domain/json_values.py:64-75 | a payload is accepted exactly when it is an object whose tree meets the payload caps and prints within the byte cap |
| `JsonValues.NormalizeSection` | src/seven_lens/analysis/model_envelope.py:1353-1418 | a section is accepted exactly when its tree meets the section caps, and the budget it spends is the node count of its input and of its result |
| `JsonValues.CountIsTreeSize` | src/seven_lens/analysis/model_envelope.py:1469-1474 | counting the nodes of a graph is counting the tree it normalises to |
| `JsonValues.CycleHasNoTree` | src/seven_lens/domain/json_values.py:163-168 | a value below itself unfolds to no tree, so refusing a cycle refuses nothing else |
| `JsonValues.ChildIsSmaller` | src/seven_lens/domain/json_values.py:102-160 | a child's tree is a proper part of its container's |
| `JsonValues.MoreLevels` | src/seven_lens/domain/json_values.py:109-111 | a tree that fits is the same with more levels allowed |
| `Decimals.ParseInvertsText` | src/seven_lens/analysis/contracts.py:209-234 | a text parses to a value exactly when the value is in range and the text is its printed form |
| `Decimals.WholeWrites` | src/seven_lens/analysis/contracts.py:64-65 | a whole part without leading zeros is the printed form of its number |
| `Decimals.FractionWrites` | src/seven_lens/analysis/contracts.py:223-225 | a fraction of fixed width is the printed form of its number |

## Left out

- FakeBroker.FakePaperBroker.ForceStatus: a scripted FILLED is not modelled, because it claims fills the broker never recorded; every other status is.
- Persistence.UnitOfWork.ListByStatus: the order of the listing (by client id) is not stated; no modelled operation depends on it.
- BrokerPositions.ListPositions: average entry prices are not modelled; nothing in the stack reads them.
- Pipeline.AnalysisPipeline.Run: the parallel analysts and debaters are asked one after another; `Barrier` covers their interleavings. Frozen-input validation is left out.
- Proposals.ProposalPipeline.Retry: snapshot, feedback and context validation are left out; a run id is identified by its attempt.
- Invoker.AuditedModelInvoker.Invoke: prompt building, token counts and latency are left out; output parsing and validation are parameters.
- LiveEval.Execute: latencies, hashes, token usage and the payload byte caps are left out; an attempt's outcome is arbitrary.
- JsonValues.NormalizePayload: how long a tree prints is a parameter.
- JsonValues.NormalizeSection: what a section text or key may say is a parameter; the byte cap on the serialised payload is not modelled.
- Decimals.ParseInvertsText: bounds are given in units of the scale, so a bound between two representable values is not expressible.
- FlattenOutcome.CompletedFlattenHoldsNothing: fills stamped at the very moment of a recorded one are taken to have later ids; past a million sequence numbers the padded ids no longer sort by number.
- Flatten.FlattenPaper: reference prices and the price collar are a parameter, and no other outbox worker submits during a flatten.
- Concurrent engine workers on one database: one engine works at a time; other processes may pause, resume and reconcile. The re-check after an insert that lost a race (`src/seven_lens/application/execution_service.py:595-603`) is only reachable with a second worker.
- The texts of errors, pause reasons and audit commands, and the idempotency of audit rows; their writes may fail where the source handles that.
- Account baselines as stored rows: a reconciliation run receives the baseline. A baseline object without `effective_at` is not modelled.
- Trade updates, the Alpaca adapter, the rest of the provider envelope, the research batch coordinator, memory, universe and security services: no part of this model.
- Network, PostgreSQL, filesystem, CLI, logging and the internals of hashing, UUIDs and `json`.
