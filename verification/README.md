# lnrent: a verified model of the daemon's money, publication and recovery logic

The daemon rents machines for Lightning payments. This project models the parts of it whose failure costs money,
resurrects a listing, or loses the operator's commitments, and proves what they keep over every run.

## What is modelled

**Money.** `Books` holds the durable tables as maps and the journal as a sequence; one store transaction is one
atomic step. `Capture` performs settlement capture and the operator's actuators statement by statement and is
proved equal to the specification in `Books` and `Operator`. `Delivery` and `Renewals` are about runs of
settlements in any order with any replays, `Subscriptions` about what they leave, field by field. `Ledger` performs
the loops that compute the reported holdings; `Money` puts everything that moves money or rows (26 kinds of step)
next to a wallet the books never see, and proves that the reported figure stays below it. `Refunds` follows one
payment from end to end and the journal's account of every row. `Observation` asks what the figure is worth when the
books are read first and the pay witnesses later, `Fence` what the migration fence holds, `Keys` whether two refunds
can print the same pay key.

**Publication.** `Listing` performs the three verbs statement by statement. `Publication` interleaves any number of
them between any two store or relay calls, with the process dying anywhere, and proves every run to be the serial
run of its critical sections in lock order; the properties are then proved of that run. `EarlyBump` is the variant
that counts a withdrawal before it takes the lock, with the schedule that breaks it.

**Recovery.** `Archive` says what a data directory is worth, what a backup holds and what a restore accepts, and
`Restores` says it again artifact by artifact and fault by fault. `Backup` writes a backup one file-system call at a
time on a volume that can lose power; `Install` stages and swaps a restored set. `Bootstrap` makes its three durable
writes with a crash between any two.

**Companions.** `Alerts` (the cooldown under concurrent dispatchers, and the history view), `Drain` (the socket
server's shutdown), `Paths` (the two lexical normalisers and the overlap guard), `MockPayment` (the in-memory backend).

`Wrappers`, `Text` and `Sums` are shared helpers: optional values and results, trimming, totals of finite tables.

What a store call, a relay, a clock or the file system answers is not the daemon's choice: it is a parameter of the
specification, a nondeterministic choice of the method, or a step of its own.

## Where the code falls short of what it says

Each is proved as a failing run together with the exact condition under which the property holds.

- The reported holdings are not one snapshot: `observe` probes the witnesses after the store read. If no refund and no
  sweep is sent in between, the figure is a lower bound when the last probe is in
  (`Observation.TornFigureIsALowerBound`); either kind of send alone can keep it above the wallet at every instant of
  the window, from a world a run reaches (`Observation.TornFigureCanExceedWallet`).
- The exchange path of a restore removes the old set before it syncs the parent directory. Power lost in between can
  bring the data directory's name back to a partly removed old set, exactly when the old set was not empty, which
  takes `--force` (`Install.ExchangeSurvivesPowerLossIff`, `Install.DroppingSurvivesIff`). The fallback does the same,
  and from its first rename on the name may also be absent (`Install.FallbackSurvivesIff`,
  `Install.FallbackSurvivesPowerLossIff`).
- The fallback of the install is not atomic and its rollback is best effort: a failed install goes back to the old
  set unless the first rename worked and both the install and the rollback failed; then the data directory is absent
  and the old set is under its other name (`Install.RollsBackIff`, `Install.StrandedRestore`).
- The socket server returns on an accept error before the drain and drops its task set, in-flight mutating requests
  included; nothing else drops one (`Drain.OnlyAcceptErrorsDrop`, `Drain.AcceptErrorLosesAMutation`).
- A dispatcher dropped between the commit of an alert and its stamp lets the alert fire again a second later; that
  drop is the only step that can break the spacing, and it always can (`Alerts.OnlyUnstampedDropsBreak`,
  `Alerts.UnstampedDropFiresTwice`). A dispatcher is dropped with its task: by the refund driver, whose first hard
  error cancels the rows it drives beside (daemon/src/refund.rs:298-324), or by the supervisor's aborts at shutdown
  (daemon/src/supervisor.rs:730-790, :948-955).
- The refund driver's terminal commits look at the status and not at the migration fence. A stamped pending refund
  keeps its status up to its clear iff no driver has it loaded at the stamp (`Fence.FenceHoldsIffNotLoaded`). The
  daemon is safe because it imports before it starts its drivers (daemon/src/main.rs:498-510 after :555-566), which is
  how the money machine has it (`Fence.FencedRowsNeverMove`).

## Model

| member | source | states |
|---|---|---|
| `Capture.Store.CaptureTxn` | daemon/src/capture.rs:43-103 | one settlement, statement by statement, leaves exactly the database and the verdict the specification names: unmatched, replayed, open and expired invoices alike; what that database is, field by field, is `Subscriptions.RefundedWhy`, `StampedOnce`, `OrderInTimeIsCaptured` and `RenewalMeans` |
| `Capture.Store.ApplyPaid` | daemon/src/capture.rs:121-269 | the flip of an open invoice to PAID routes by class, subscription state and the two inclusive time gates, and extends `paid_through` from the later of old end and settlement; a started order is `Subscriptions.OrderedAtMostOnce` |
| `Capture.Store.RefundIntent` | daemon/src/capture.rs:290-307 | a refund row capped at the whole sats of the actual credit, or nothing if the external id already has one |
| `Capture.Store.InsertRefundAttempt` | daemon/src/capture.rs:314-337 | insert-or-ignore on the unique refund key, and whether it inserted |
| `Capture.Store.Journal` | daemon/src/capture.rs:341-362 | appends one journal row carrying the settlement |
| `Books.RoutePaid` | daemon/src/capture.rs:121-269 | whatever is not served is refunded under one of the four settle-refund kinds the ledger counts |
| `Books.RowsOf` | daemon/src/capture.rs:43-103 | a capture journals at most one row |
| `Capture.Store.RefundRetry` | daemon/src/ipc.rs:1178-1256 | re-drives a parked refund: the fence answers first, then the status; the stale message goes and a journal row comes; field by field in `Refunds.RetryMeans` |
| `Capture.Store.MigrationClearFence` | daemon/src/ipc.rs:1267-1322 | releases one stamp, refunds before sweeps, journals table and trimmed note, and reports the status it left alone; field by field in `Refunds.ClearMeans` |
| `Capture.Store.AdminTransition` | daemon/src/ipc.rs:1077-1120 | compare-and-swap of a subscription state over a set of allowed sources, journaled only when it moves; the state it leaves is `Subscriptions.SuspendThenResume` |
| `Delivery.ReplaysChangeNothing` | daemon/src/capture.rs:43-103 | from any database, a run of deliveries with replays, payloads differing at will, ends where its first occurrences alone end |
| `Delivery.CaptureHandles` | daemon/src/capture.rs:58-119 | one capture leaves its external id with nothing left to do, and no later capture can undo that for any id |
| `Delivery.FirstCaptureDecides` | daemon/src/capture.rs:74-119 | the first capture of an untouched id is a grant exactly on the two service routes and otherwise exactly one refund of its credit, with no subscription moved |
| `Delivery.ServedExactlyWhen` | daemon/src/capture.rs:121-269 | service is given exactly to an open invoice of a known subscription: a pending order before its expiry, or a renewal of a live subscription before its retention end, both limits inclusive |
| `Delivery.ExactlyOneOutcome` | daemon/src/capture.rs:43-119 | after any run of deliveries, expiries and operator steps a delivered id has exactly one grant or exactly one refund, of its first credit, never both; an undelivered id has neither |
| `Delivery.OtherEventsKeepFates` | daemon/src/capture.rs:43-119 | no other event changes the outcome of an id |
| `Delivery.ReceiptIsFirstCredit` | daemon/src/ledger.rs:154-199 | whichever provenance class carries it, the receipt of an id is its first credit |
| `Delivery.ReceiptsAreFirstCredits` | daemon/src/ledger.rs:154-199 | the receipts total the first credits, each external id counted once |
| `Delivery.CapWithinReceipt` | daemon/src/capture.rs:297-307 | each refund cap is its receipt rounded down to whole sats |
| `Delivery.CapsWithinReceipts` | daemon/src/capture.rs:297-307 | all refund caps together never exceed the receipts |
| `Delivery.RemaindersAreDust` | daemon/src/capture.rs:297-307 | the refunded receipts split exactly into caps and remainders, and the remainders stay below 1000 msat each |
| `Delivery.NoResurrection` | daemon/src/capture.rs:149-269 | no settlement and no operator step moves a subscription out of a closed state |
| `Subscriptions.OrderedAtMostOnce` | daemon/src/capture.rs:177-208 | over any run a PENDING subscription is captured at most once; until then it is exactly as it was, and from then on PROVISIONING with no deadline and otherwise as it was |
| `Subscriptions.OrderInTimeIsCaptured` | daemon/src/capture.rs:177-208 | a capture of an order is journaled exactly for an open order invoice, in time, of a subscription still PENDING |
| `Subscriptions.RenewalMeans` | daemon/src/capture.rs:210-258 | a renewal in time adds a period to the later of old end and settlement, keeps ACTIVE or goes to RESUMING, moves the reminder, clears the floor, and journals the old end and floor when it resumes |
| `Subscriptions.OthersUnmoved` | daemon/src/capture.rs:43-119 | a settlement moves no subscription but its own invoice's |
| `Subscriptions.RefundedWhy` | daemon/src/capture.rs:51-180 | the refund row and the journal row of money owed back: which of the four kinds, whose subscription, to what destination, for how many sats |
| `Subscriptions.StampedOnce` | daemon/src/capture.rs:76-100 | the first settlement stamps its invoice with its own time and credit, and applies an open one |
| `Subscriptions.ExpiredStamp` | daemon/src/capture.rs:91-100 | later settlements of an expired invoice keep the first stamp and a credit already recorded |
| `Subscriptions.JournalGrowsIff` | daemon/src/capture.rs:58-103 | a capture journals one row exactly when it changed an invoice or added a refund |
| `Subscriptions.ExpiredIsOwedBack` | daemon/src/capture.rs:88-103 | an invoice expired before its payment arrives is owed back, even if the payment would have been in time |
| `Subscriptions.ExpiryMeans` | daemon/src/reconcile.rs:1021-1025 | expiry closes the open invoice it names and changes nothing else |
| `Subscriptions.VerdictMeans` | daemon/src/capture.rs:74-119 | the verdict agrees with the journal: captured, renewed and resumed each with their own row, a no-op exactly for a paid invoice |
| `Subscriptions.SuspendThenResume` | daemon/src/ipc.rs:1077-1120 | suspend moves an ACTIVE subscription and no other, resume moves it back, both journaled; together they change only its time of update |
| `Ledger.SumReceiptsMsat` | daemon/src/ledger.rs:154-199 | the two-pass loop over any row order of the two result sets returns the total of the per-id receipts, class A winning over class B |
| `Ledger.ReceiptsAt` | daemon/src/ledger.rs:154-199 | no receipt lies outside the ids the two queries can return |
| `Ledger.CollectedIsReceipt` | daemon/src/ledger.rs:160-199 | after both passes each map entry is the receipt of its id, whatever the row order |
| `Ledger.LoadRefundCommitments` | daemon/src/ledger.rs:203-230 | loads one commitment per refund row in the order the rows came |
| `Ledger.Observe` | daemon/src/ledger.rs:130-140 | fills in place the witness of exactly the rows not yet committed by status or fence |
| `Ledger.ObservedTotal` | daemon/src/ledger.rs:94-105 | an observed result set in any order totals the committed caps of the table |
| `Ledger.ExpectedMsat` | daemon/src/ledger.rs:94-105 | the fold is the figure the tables determine: receipts minus committed caps minus sweep caps, saturating; each row's part in it is exact in `Ledger.SweepCounts` and `Ledger.RefundCounts` |
| `Ledger.Report` | daemon/src/ledger.rs:122-148 | load, observe and fold end to end, for every row order |
| `Ledger.NothingOut` | daemon/src/ledger.rs:94-105 | with no refund and no sweep row the figure is the receipts |
| `Ledger.SweepCounts` | daemon/src/ledger.rs:239-256 | a failed sweep without a fence leaves the figure as if its row were absent; any other lowers it by exactly its ceiling, down to nothing |
| `Ledger.RefundCounts` | daemon/src/ledger.rs:94-105 | a refund lowers the figure by its whole sats if it is sent, fenced, or its pay is pending or done, and by nothing otherwise |
| `Ledger.ReceiptCounts` | daemon/src/ledger.rs:154-176 | a settled invoice counts its credit, or its price if no credit was recorded; the journal counts only where that is nothing; nothing negative counts |
| `Ledger.JournalCounts` | daemon/src/ledger.rs:177-199 | the journal's figure of an id is the largest credit that a settle-refund row of it owes back, an older row by its price |
| `Delivery.IdleFigureIsCredits` | daemon/src/ledger.rs:94-105 | after any run whose sweeps all failed and whose refunds are unsent and idle, none fenced, the figure is exactly the first credits |
| `Renewals.RenewalsAlwaysExtend` | daemon/src/capture.rs:210-258 | n distinct renewals settled before the initial retention end: no capture order refunds any, and `paid_through` ends between n periods past the old end and n periods past the later of old end and last settlement |
| `Renewals.SettlementOrderExtendsLeast` | daemon/src/capture.rs:210-258 | of all capture orders of the same settlements, the order of settlement extends the service least |
| `Renewals.BatchStacks` | daemon/src/capture.rs:210-258 | every capture order of such a batch extends by the stacking rule, applies every invoice, writes no refund, keeps an ACTIVE subscription so and sends any other to RESUMING, hangs the reminder on the new end, clears the floor, and touches no other subscription |
| `Renewals.AscendingIsLeast` | daemon/src/capture.rs:224-232 | the exchange argument over the stacking arithmetic: no permutation ends before the ascending one |
| `Renewals.MoveLast` | daemon/src/capture.rs:224-232 | capturing a settlement after a run of earlier ones never ends later than capturing it before them |
| `Renewals.StackBounds` | daemon/src/capture.rs:224-232 | the two bounds on stacked periods |
| `Money.EveryRunIsCovered` | daemon/src/ledger.rs:7-19 | in every state any run reaches, the reported holdings are at most the real wallet, the wallet is exactly credits minus outlays, and every refund message states its row |
| `Money.ExpectedIsALowerBound` | daemon/src/ledger.rs:94-105 | the invariant implies the bound, row by row: an outlay the books do not subtract is zero |
| `Money.RunKeepsInv` | daemon/src/ledger.rs:7-19 | every run of the 26 kinds of step keeps the invariant |
| `Money.StepKeepsInv` | daemon/src/ipc.rs:1178-1322 | each step keeps receipts real, outlays placed and covered, the wallet conserved and messages current |
| `Money.CaptureReceipt` | daemon/src/capture.rs:74-119 | a capture raises a receipt at most to what was credited |
| `Money.SendKept` | daemon/src/backends.rs:164-178 | a pay within the refund cap keeps the invariant (INV-1) |
| `Money.SweepSendKept` | daemon/src/backends.rs:251-267 | a sweep within its outlay ceiling keeps the invariant |
| `Money.FailPayKept` | daemon/src/ledger.rs:29-44 | a failed pay returns its outlay and may stop being committed |
| `Money.ReresolveKept` | daemon/src/refund.rs:222-228 | a refund may move to a new pay key only while the old one is idle; keys are pairs here, and for the external ids the daemon mints the printed keys are as distinct (`Keys.MintedKeysAreDistinct`) |
| `Keys.KeysCollideIff` | daemon/src/refund.rs:222-228 | two pay keys print as one string exactly when they are one key, or one external id spells out the other's generation |
| `Keys.MintedKeysAreDistinct` | daemon/src/refund.rs:222-228 | the pay keys of minted external ids, an order, a requested renewal or a cycle reminder, are equal as strings exactly when they are one refund and one generation |
| `Keys.NoMintedMimic` | daemon/src/order_intake.rs:1370-1384 | no minted id spells out a generation of another: a buyer's id has no colon, a reminder ends in a number |
| `Keys.MintedForOnePurpose` | daemon/src/order_intake.rs:249-251 | an external id binds its settlement to one order, one requested renewal or one cycle |
| `Money.CommitKept` | daemon/src/refund.rs:948-1067 | the terminal commits keep cap coverage and put the one message of the row in place; a sent refund closes the subscription that only waited for it, and both journal |
| `Money.CountKept` | daemon/src/refund.rs:1080-1117 | a failed pay that is only counted leaves status, message and cover alone |
| `Money.RetryKept` | daemon/src/ipc.rs:1195-1233 | a retry deletes the message its next outcome would collide with |
| `Money.ImportKept` | daemon/src/ledger.rs:29-44 | an import that loses a pay row leaves its outlay covered by the fence |
| `Money.ClearFenceKept` | daemon/src/ipc.rs:1275-1304 | clearing a fence with no unwitnessed outlay behind it keeps the bound |
| `Money.SweepIntentKept` | daemon/src/ledger.rs:239-256 | a new sweep intent reuses only a row that keeps nothing out |
| `Refunds.JournalTellsRefunds` | daemon/src/refund.rs:948-1117 | in every run the journal tells the status and the attempts of every refund row: outcomes count up, a requeue starts over |
| `Refunds.StartsRun` | daemon/src/refund.rs:570-592 | a payment begins under a new generation, with the cap out of the wallet once and nothing else changed |
| `Refunds.PaidRun` | daemon/src/refund.rs:948-1010 | settled and committed: the row SENT on one more attempt, the buyer told so, the subscription that only waited for it REFUNDED, the outlay gone for good |
| `Refunds.FailedRun` | daemon/src/refund.rs:1080-1117 | failed and given up: the outlay back in the wallet, the row FAILED on one more attempt, the buyer told so |
| `Refunds.CountMeans` | daemon/src/refund.rs:1080-1117 | a failure that is only counted changes attempts, time and journal |
| `Refunds.OutcomesNeedPending` | daemon/src/refund.rs:948-1117 | no outcome is committed to a row that is not pending |
| `Refunds.SweepStartsRun` | daemon/src/sweep.rs:384-470 | a new sweep is pending under its ceiling with its outlay out of the wallet |
| `Refunds.SweepEndsRun` | daemon/src/sweep.rs:965-1040 | a sweep that settles is SENT with its outlay gone; one that fails is FAILED with its outlay back |
| `Refunds.RetryMeans` | daemon/src/ipc.rs:1178-1256 | fenced first, then parked; a requeued row is pending from no attempts, its message gone, one row journaled, nothing else touched |
| `Refunds.ClearMeans` | daemon/src/ipc.rs:1267-1322 | a note of blanks is none; one stamp goes, the refund's if it has one, and the journal says which table with the trimmed note |
| `Observation.TornFigureIsALowerBound` | daemon/src/ledger.rs:122-140 | books read once and the witnesses of the rows not yet committed probed one by one later: the figure is at most the wallet when the last probe is in, if nothing is sent in the window; an import does not run beside an observation (daemon/src/main.rs:555-566) |
| `Observation.TornFigureCanExceedWallet` | daemon/src/ledger.rs:122-140 | each of the two kinds of send is needed: from one world that a run from the start reaches, a window with that kind alone beside calm steps keeps the figure above the wallet at every instant |
| `Observation.SendOverstates` | daemon/src/ledger.rs:130-140 | the window with a refund send: one refund is probed idle and then sent, another comes back before its own probe |
| `Observation.SweepSendOverstates` | daemon/src/ledger.rs:239-256 | the window with a sweep of earned sats, whose cap was not there to read |
| `Observation.OnItsWayIsReached` | daemon/src/capture.rs:184-269 | the run from the start that reaches their common world: one renewal in time, two after the retention end, whose refunds have a destination and are resolved, the first of them on its way |
| `Observation.ProbedIdleIsEmpty` | daemon/src/ledger.rs:130-140 | a refund probed idle at any moment of a send-free window keeps nothing out when the window closes |
| `Observation.StepShrinks` | daemon/src/ledger.rs:29-44 | without a send or an import, no step makes a refund keep more out of the wallet |
| `Fence.FencedRowsNeverMove` | daemon/src/ipc.rs:1201-1216 | in any run, where imports happen before the drivers start, a fenced refund keeps its status from the stamp to the operator clear |
| `Fence.ClearingMovesNoStatus` | daemon/src/ipc.rs:1275-1304 | the clear changes one stamp and no status, message or other row |
| `Fence.FenceHoldsIffNotLoaded` | daemon/src/refund.rs:948-1067 | if imports could run beside the drivers: a stamped pending refund keeps its status in every run up to its clear iff no driver has it loaded at the stamp |
| `Fence.LateImportIsOutrun` | daemon/src/refund.rs:948-1067 | the run from the start in which a driver outruns such an import |
| `Listing.Desk.PublishGated` | daemon/src/listing.rs:494-615 | compare-and-swap, the two tiers of checks, then the writes and the broadcast: new state and reply, for every outcome of every store and relay call |
| `Listing.Desk.WithdrawListing` | daemon/src/listing.rs:626-706 | the attempt is counted first and the durable write precedes the retraction; every branch retracts but the two that end in a store error |
| `Listing.Desk.RepublishOnBoot` | daemon/src/listing.rs:336-367 | boot refreshes the row and broadcasts only what is already ACTIVE |
| `Listing.Desk.TakeSnapshot` | daemon/src/listing.rs:220-228 | epoch and state as one snapshot |
| `Listing.Desk.UpsertRow` | daemon/src/listing.rs:273-307 | creates a quiet row, leaves the state of an existing one; a new one is UNPUBLISHED with no event (`Publication.BornQuiet`) |
| `Listing.Desk.SetState` | daemon/src/listing.rs:747-770 | one write for state and event id; a missing row is an error |
| `Listing.Desk.PublishEvent` | daemon/src/listing.rs:374-424 | records an id only once a relay confirmed it, and reports a failed record apart from a failed broadcast |
| `Listing.Desk.RetractFromRelays` | daemon/src/listing.rs:711-733 | best effort: reports, never fails |
| `Listing.Desk.Failures` | daemon/src/listing.rs:544-552 | the failed checks of one tier, in order |
| `Listing.ClearsMeans` | daemon/src/listing.rs:536-567 | a publish proceeds over failed checks only on an override and only if all of them are reachability failures; an unclassified failure blocks |
| `Listing.ReplyMatchesRow` | daemon/src/listing.rs:536-615 | no reply contradicts the row: published means ACTIVE, withdrawn means not, superseded and blocked mean untouched |
| `Listing.ReplyTellsMove` | daemon/src/listing.rs:494-700 | each reply tells the row that was found and what was done to it: only an ACTIVE row is withdrawn and it keeps its event id, a withdrawn one stays untouched, an error means that a store call failed |
| `Listing.ReplyTellsChecks` | daemon/src/listing.rs:530-600 | a blocked publish names exactly the failed checks that block it, a publish under override exactly those it overrode |
| `Listing.FailedChecksAre` | daemon/src/listing.rs:539-560 | the failed checks of a tier are kept one by one and in order |
| `Listing.OneRequestEach` | daemon/src/listing.rs:494-760 | a section that asks the relays sends one request, a deletion if it withdraws, and the slot is what the relay made of it |
| `Publication.EveryRunIsSerial` | daemon/src/listing.rs:90-112 | any interleaving of publishes, withdrawals, boots and crashes is the serial run of its sections in lock order: same row, relay slot and operations, same replies, each gate on its own earlier snapshot |
| `Publication.CallContinues` | daemon/src/listing.rs:494-706 | one call at a time inside a section leads to exactly what the whole section does and replies |
| `Publication.CrashIsFailure` | daemon/src/listing.rs:494-706 | dying part way through a section, between two calls or in the relay call with the request already at the relay, is the section with its remaining calls failing |
| `Publication.CasIsExact` | daemon/src/listing.rs:510-536 | the compare-and-swap passes exactly when, since the snapshot, no withdrawal took the lock, the row was not created and no other publish moved it to ACTIVE; otherwise nothing is written or sent |
| `Publication.PublishedMeansNoWithdrawal` | daemon/src/listing.rs:635-693 | a publish that reports success was not overtaken by any withdrawal since its snapshot, writing or not |
| `Publication.ActiveIsTraced` | daemon/src/listing.rs:192-228 | an ACTIVE row traces to a publish that made it so and whose snapshot follows the last answered withdrawal |
| `Publication.OnlyPublishesActivate` | daemon/src/listing.rs:336-367 | boots, withdrawals and crashes alone never make the row ACTIVE |
| `Publication.WithdrawnIsTraced` | daemon/src/listing.rs:677-700 | a WITHDRAWN row traces to a withdrawal that found it ACTIVE, with no activation since |
| `Publication.BornQuiet` | daemon/src/listing.rs:290-306 | in any run the row is born UNPUBLISHED with no event, by a publish or a boot, or goes ACTIVE by that very publish |
| `Publication.LastRequestDecides` | daemon/src/listing.rs:494-760 | in any run relays hold what the last request that reached them left |
| `Publication.RelayServesIffActive` | daemon/src/listing.rs:374-424 | with the lock free and the latest relay request confirmed, relays serve the listing iff the row is ACTIVE |
| `Publication.EventIdIsCurrent` | daemon/src/listing.rs:569-597 | the recorded event id of an ACTIVE row was confirmed by a relay and the row has been ACTIVE ever since |
| `Publication.DoMoves` | daemon/src/listing.rs:626-706 | only withdrawals move the epoch, by one each; every other section moves the row up or not at all |
| `EarlyBump.EarlyBumpResurrects` | daemon/src/listing.rs:640-654 | with the epoch bumped before the lock, some schedule answers a withdrawal between a snapshot and its gate and still goes live |
| `Archive.RoundTrip` | daemon/src/backup.rs:579-776 | a backup restores to exactly what was captured, flat or sealed alike, unless it is a format-1 set whose books reference phoenixd; then it is refused, and for no other reason; what was captured and when it is refused, spelled out, is `Restores.RestoresWhatWasThere` |
| `Archive.WrongPassphraseRestoresNothing` | daemon/src/backup.rs:1050-1075 | a sealed set opens with its own passphrase only |
| `Archive.AcceptedMeans` | daemon/src/backup.rs:598-720 | whatever set a restore accepts, tampered with or not, has a manifest true of its database, every recorded artifact in staging, and a passphrase exactly when sealed; both directions in `Restores.RestoredUnlessFaulty` |
| `Archive.CapturedChecks` | daemon/src/backup.rs:202-232 | a self-written manifest passes the marker, pairing and completeness checks of its own set, in the order either mode makes them |
| `Archive.ManifestConsistent` | daemon/src/backup.rs:109-117 | a self-written manifest always has the version its contents define |
| `Archive.FlatRoundTrip` | daemon/src/backup.rs:735-768 | a flat restore stages what the manifest records and nothing else |
| `Archive.CapturedAt` | daemon/src/backup.rs:369-405 | path by path, what the captured set holds; the phoenixd side file only while the books have not absorbed it |
| `Archive.SubtreeRecorded` | daemon/src/backup.rs:813-839 | the subtree hangs below its own directory and every federation recorded is a directory in it |
| `Archive.CapturedConnected` | daemon/src/backup.rs:813-839 | every captured path hangs below a captured directory |
| `Restores.FlatIsWalk` | daemon/src/backup.rs:813-839 | a path of the copied subtree holds an item exactly when walking the tree by its names leads to it, with that content |
| `Restores.CapturedIsWhatIsThere` | daemon/src/backup.rs:369-434 | a capture holds, path by path, exactly what the data directory has, but for a side file the books have absorbed |
| `Restores.RestoresWhatWasThere` | daemon/src/backup.rs:138-193 | flat or sealed: refused iff there is no marker, no side file, and an attempt through phoenixd that was sent or has a payment id, or an invoice id that starts with `phoenixd-` in either case; otherwise every path comes back exactly |
| `Restores.RestoredUnlessFaulty` | daemon/src/backup.rs:579-728 | any set is restored iff none of the twelve faults is there, and a refusal names one that is, with no earlier one |
| `Restores.RestoredIs` | daemon/src/backup.rs:735-768 | a bundle comes back whole; of a flat set what its manifest records and nothing else |
| `Restores.ManifestDescribes` | daemon/src/backup.rs:109-117 | a backup's manifest records what its capture holds, flag by flag and federation by federation, with the version that says how the books keep track |
| `Restores.StraysAreNotRestored` | daemon/src/backup.rs:735-768 | files that do not belong to a flat set change nothing about its restore |
| `Restores.LossIsRefused` | daemon/src/backup.rs:202-240 | a flat set that lost any root artifact, the subtree or a federation is refused |
| `Backup.Volume.BackupTo` | daemon/src/backup.rs:325-364 | a blank passphrase is refused before anything is written; otherwise every state on the way has the manifest last, and success leaves the whole set on disk; and it does succeed if no call fails and the subtree has no link |
| `Backup.Volume.BackupPlaintext` | daemon/src/backup.rs:369-434 | the flat protocol: every state it passes through has the manifest last; a symlink in the subtree fails it |
| `Backup.Volume.BackupEncrypted` | daemon/src/backup.rs:440-546 | the sealed protocol, likewise |
| `Backup.Volume.Finish` | daemon/src/backup.rs:407-433 | names synced, manifest written and synced, names synced again: each state is a safe one |
| `Backup.Volume.CopyDir` | daemon/src/backup.rs:813-839 | the recursive copy adds exactly the subtree, with all contents and all names below its root on disk; that subtree, byte for byte, is what walking it finds (`Restores.FlatIsWalk`) |
| `Backup.Volume.PutOptional` | daemon/src/backup.rs:845-885 | an absent artifact is not an error and adds nothing |
| `Backup.SurvivingManifestIsComplete` | daemon/src/backup.rs:407-433 | after a crash at any state, losing any unsynced names and tearing any unsynced contents, a manifest that survives and parses describes the set and the set is complete |
| `Backup.CrashedBackupRestores` | daemon/src/backup.rs:407-433 | and that set restores to exactly what was captured |
| `Install.Installer.Restore` | daemon/src/backup.rs:579-776 | its answer is the first thing that is wrong, in order; at every state the data directory is the complete old or complete new set, except between the two renames of the fallback; and it ends absent exactly when the fallback strands it, with the old set aside; without force an existing non-empty directory is left alone, and so it is by any refused set |
| `Install.Installer.SwapIntoPlace` | daemon/src/backup.rs:1249-1272 | rename, exchange or fallback, then sync: the answer and what the name resolves to, as a function of what the file system answers |
| `Install.Installer.SwapViaMoveAside` | daemon/src/backup.rs:1278-1298 | succeeds iff the first two renames do; ends with the name absent iff the first works and the install and the rollback fail; the old set is seen after every other failure; what its states leave after power loss is `Install.FallbackSurvivesIff` |
| `Install.RollsBackIff` | daemon/src/backup.rs:1249-1298 | a failed install resolves to what it did before, unless the fallback moved the old set and then neither the install nor the rollback worked |
| `Install.RestoreNeeds` | daemon/src/backup.rs:579-776 | a restore answers success iff the set is valid, force is given or nothing is there to lose, the build, the renames and the sync work; otherwise it names the first of these that fails |
| `Install.StrandedRestore` | daemon/src/backup.rs:1278-1298 | the failing input: over any existing data directory and any valid set, with no exchange and only the first rename working |
| `Install.Installer.WithStaging` | daemon/src/backup.rs:1208-1235 | the build touches neither the old set nor its name, and succeeds only with the whole set on disk |
| `Install.Installer.ExchangeAndDrop` | daemon/src/backup.rs:1249-1258 | the new set is complete from the exchange on while the old one is removed under the other name |
| `Install.InstalledIsCaptured` | daemon/src/backup.rs:579-776 | what is installed from a finished backup is exactly what was captured |
| `Install.ExchangeSurvivesPowerLossIff` | daemon/src/backup.rs:1249-1272 | power lost at any state of the removal of the old set, before the parent is synced, leaves a complete set iff the old set was empty |
| `Install.DroppingSurvivesIff` | daemon/src/backup.rs:1249-1272 | at one such state it does iff nothing is gone yet, or the one entry gone left the new set |
| `Install.FallbackSurvivesIff` | daemon/src/backup.rs:1278-1298 | at any state of the fallback power loss leaves a complete set under the name iff the old set has not been moved; once it has, the name leads to a complete set if to any iff its removal has not begun, or its one step left the new set |
| `Install.FallbackSurvivesPowerLossIff` | daemon/src/backup.rs:1278-1298 | over all states of the fallback, before the parent is synced, the name leads to a complete set if to any iff the old set was empty |
| `Install.BeforeTheDropIsSafe` | daemon/src/backup.rs:1249-1258 | power lost before the removal starts leaves a complete set wherever the name still leads, which after an exchange it always does |
| `Bootstrap.Box.Bootstrap` | daemon/src/config.rs:338-414 | a refusal writes nothing; otherwise the three writes happen in order, each state on the way a prefix of the plan, and none can be refused half way |
| `Bootstrap.Box.PersistOperatorRow` | daemon/src/config.rs:2378-2541 | one row at most, identity and backend reconciled, omitted fields inherited |
| `Bootstrap.Box.WriteFedimintConfig` | daemon/src/config.rs:1537-1580 | a stored federation is never repointed |
| `Bootstrap.Box.WriteSeed` | daemon/src/config.rs:1263-1287 | a stored seed is never overwritten |
| `Bootstrap.Box.Check` | daemon/src/config.rs:350-386 | all that is checked before the store is written, in order |
| `Bootstrap.Normalize` | daemon/src/config.rs:1139-1149 | trims, drops blanks, falls back to the defaults |
| `Bootstrap.NormalizeIsIdempotent` | daemon/src/config.rs:1139-1149 | normalised relays normalise to themselves |
| `Bootstrap.KeptAre` | daemon/src/config.rs:1139-1149 | relays are trimmed one by one and in order, and blank ones dropped |
| `Bootstrap.RelaysAre` | daemon/src/config.rs:1139-1160 | the relays in effect are those asked for, or the three defaults if nothing but blanks was |
| `Bootstrap.AdmittedWritesGoThrough` | daemon/src/config.rs:364-414 | after the checks and the row, neither the federation write nor the seed write can conflict |
| `Bootstrap.SuccessMeans` | daemon/src/config.rs:338-414 | a bootstrap that succeeds did what it was asked: the supplied phrase owns the row, a named backend is the stored one, an omitted one is inherited, and a fedimint row has its federation on disk |
| `Bootstrap.BootstrapsIff` | daemon/src/config.rs:338-414 | a bootstrap goes through exactly when its input and what is stored agree on backend, federation, phrase, relays and the one row |
| `Bootstrap.BootstrapLeaves` | daemon/src/config.rs:338-414 | and what it leaves, field by field: stored values as they were, relays asked for over stored ones over the defaults, the rest from the input |
| `Bootstrap.RefusalMeans` | daemon/src/config.rs:338-414 | a refusal says something that is so |
| `Bootstrap.RetryConverges` | daemon/src/config.rs:338-414 | stopped after any write, a bootstrap that would have succeeded succeeds on the same input and leaves exactly the uncrashed state |
| `Bootstrap.RowRetries` | daemon/src/config.rs:2378-2541 | a written row reconciles with itself |
| `Bootstrap.SeedRetries` | daemon/src/config.rs:1203-1253 | a stored seed is the supplied phrase again, in canonical form |
| `Bootstrap.NothingSettledChanges` | daemon/src/config.rs:2378-2541 | over any bootstraps with any inputs: never a second row, and identity, backend, federation and seed never change once durable |
| `Bootstrap.SeedOwnsRow` | daemon/src/config.rs:1203-1253 | a stored seed always derives the identity of the row |
| `Alerts.Dispatcher.Dispatch` | daemon/src/alerts.rs:345-390 | disabled or suppressed does nothing; a failed commit leaves no stamp; a committed one inserts its row unless the id is taken, and stamps |
| `Alerts.FiresAreSpaced` | daemon/src/alerts.rs:345-390 | under any interleaving and any clock, alerts of one key are a cooldown apart in commit order, if no dispatcher is dropped between its commit and its stamp |
| `Alerts.SuppressionIsEarned` | daemon/src/alerts.rs:353-361 | a dispatch is suppressed exactly when an alert of its key was committed less than a cooldown before its clock reading |
| `Alerts.FailedCommitSuppressesNothing` | daemon/src/alerts.rs:374-388 | a failed commit leaves no alert and no stamp, and the same key may go again in the same second |
| `Alerts.OnlyUnstampedDropsBreak` | daemon/src/alerts.rs:345-390 | a step breaks the invariant behind the spacing iff it drops a dispatcher between its commit and its stamp |
| `Alerts.UnstampedDropFiresTwice` | daemon/src/alerts.rs:374-390 | and after every such drop some run without another one fires the same key again a second later |
| `Alerts.UnstampedDropIsReached` | daemon/src/alerts.rs:345-390 | such a drop is reached by the first alert of any key at any clock reading |
| `Alerts.RecentAlerts` | daemon/src/alerts.rs:188-262 | the history loop: one unreadable row makes the whole history unknown, otherwise the first row of each subject in row order |
| `Alerts.NewestIsShown` | daemon/src/alerts.rs:188-262 | every subject in the history is shown, with its newest alert |
| `Alerts.EachSubjectOnce` | daemon/src/alerts.rs:188-262 | and no subject twice |
| `Alerts.ShownInOrder` | daemon/src/alerts.rs:188-262 | each entry shown is an alert of the history in full, newest first |
| `Alerts.RowsStayUnique` | daemon/src/alerts.rs:374-388 | an alert row is there once in any run, and none is lost, whatever is dropped |
| `Paths.NormalizePathLexically` | daemon/src/config.rs:1914-1939 | the push/pop loop computes the normal form |
| `Paths.AbsoluteLexical` | daemon/src/backup.rs:1378-1397 | the other loop computes the rooted form |
| `Paths.NormalisersAgree` | daemon/src/config.rs:1914-1939 | the two agree on absolute paths |
| `Paths.NormIsIdempotent` | daemon/src/config.rs:1914-1939 | normalising twice is normalising once |
| `Paths.NormShape` | daemon/src/config.rs:1914-1939 | the normal form is a dot, parents and then names, or the root and then names; rooted exactly when the path was |
| `Paths.NormOfJoin` | daemon/src/config.rs:1914-1939 | norm(p/q) = norm(norm(p)/q) for relative q |
| `Paths.NormMeans` | daemon/src/config.rs:1914-1939 | the normal form leads where the path leads, from any directory |
| `Paths.AbsoluteMeans` | daemon/src/backup.rs:1378-1397 | the rooted form is the directory the path leads to from the current one |
| `Paths.AssertDisjoint` | daemon/src/backup.rs:1361-1373 | accepts two paths iff no directory lies inside both |
| `Drain.OnlyAcceptErrorsDrop` | daemon/src/ipc.rs:428-500 | a step drops an in-flight mutating request iff it is an accept error; the shutdown signal and everything else drop none |
| `Drain.AcceptErrorLosesAMutation` | daemon/src/ipc.rs:430-432 | the run in which an accept error loses one |
| `Drain.MutationsAreNeverLost` | daemon/src/ipc.rs:124-146 | without such an error a mutating request that began is never dropped and is answered with its own result; after the drain all are |
| `Drain.OnlyReadsAreCut` | daemon/src/ipc.rs:563-590 | only a read-only request is cut short, only by the shutdown, and only to the retryable reply |
| `Drain.RepliesAreOwn` | daemon/src/ipc.rs:563-590 | in any run a connection is answered at most once, with what its own handler put down: its result, the retryable reply, or a refusal |
| `Drain.DrainIsBounded` | daemon/src/ipc.rs:472-500 | a drain lasts no longer than its handlers have steps left |
| `Drain.DrainProgresses` | daemon/src/ipc.rs:472-500 | given that dispatches and writes return, a drain is never stuck |
| `MockPayment.Backend.CreateInvoice` | daemon/src/backends.rs:799-823 | create-once on the external id |
| `MockPayment.Backend.SettleLive` | daemon/src/backends.rs:768-794 | settles a known invoice at any clock and reports its credit, saturating |
| `MockPayment.Backend.SettleWhileDown` | daemon/src/backends.rs:758-766 | a recovery settlement records no live time |
| `MockPayment.Backend.DevSettleOpen` | daemon/src/backends.rs:873-883 | settles only an open, unexpired invoice |
| `MockPayment.Backend.PayOnce` | daemon/src/backends.rs:846-856 | pay-once on the key |
| `MockPayment.Backend.Lookup` | daemon/src/backends.rs:824-832 | paid before expired before open, unknown is expired, whichever entry the search meets |
| `MockPayment.Backend.LookupSettlement` | daemon/src/backends.rs:833-845 | the same status, with the live time exactly when there is one |
| `MockPayment.Backend.LookupBoth` | daemon/src/backends.rs:824-845 | the two lookups never disagree on the status |
| `MockPayment.Backend.PaymentStatus` | daemon/src/backends.rs:857-864 | succeeded exactly for an id some key paid under |
| `MockPayment.Backend.PaymentStatusByKey` | daemon/src/backends.rs:865-872 | succeeded exactly for a key that was paid |
| `MockPayment.InvoiceIsMade` | daemon/src/backends.rs:799-823 | a new invoice asks for its amount until its expiry, and asked for again is the same |
| `MockPayment.InvoiceIsPaid` | daemon/src/backends.rs:758-845 | settling pays in every way, expiry closes only what is unpaid, the dev settle pays only what is open |
| `MockPayment.PaymentIsMade` | daemon/src/backends.rs:846-856 | a payment takes the next number once |
| `MockPayment.SettlementReports` | daemon/src/backends.rs:768-794 | the reported credit is the price in msat up to what 64 bits hold |
| `MockPayment.RunIsSound` | daemon/src/backends.rs:714-722 | over any calls ids stay unique across the shared counter |
| `MockPayment.IdsAreUnique` | daemon/src/backends.rs:799-856 | in any run, equal invoice ids are of one external id, equal payment ids of one key, and no invoice and payment share a number |
| `MockPayment.NothingIsUndone` | daemon/src/backends.rs:799-883 | one external id keeps one unchanged invoice, one key one payment, and paid stays paid |
| `MockPayment.PaidIsAbsorbing` | daemon/src/backends.rs:824-832 | an id once looked up as paid is paid ever after, whatever the clock does |

## Left out

- SQLite, SQL text and the store actor: a table is a map, a transaction one atomic step, an amount a natural or an integer without the 64-bit limits, a time an integer. SUM and MAX are taken over the rows the queries select.
- The refund and sweep drivers, reconcile, the supervisor and the import of the legacy index: abstract steps under the contracts the shown code states (a pay only for a refund with a destination, an outlay within its cap, a pay key dropped only while its witness is idle, a fence cleared only with no unwitnessed outlay behind it, the import before any driver runs). The surplus gate of a sweep (daemon/src/sweep.rs:73-189) is not part of this model: any sweep may be intended.
- `Money.CommitKept`: the release of the subscription's reservation, the backend payment id and the amount in the message are not modelled; whether a failed pay is counted or parked is the driver's choice here, not a count of attempts.
- `Money.ReresolveKept`: pay keys are pairs of external id and generation. `Keys.MintedKeysAreDistinct` makes that exact for the three shapes of id the daemon mints; for any other string `Keys.KeysCollideIff` says when two keys print alike.
- `Fence.FencedRowsNeverMove`: the import step empties what the drivers have loaded, since it runs before they start; without that, `Fence.FenceHoldsIffNotLoaded` is what remains.
- `Delivery.ExactlyOneOutcome`: an invoice that is re-opened after it closed is not part of this model; provisioning, resuming and teardown move subscriptions only through the abstract steps.
- `Subscriptions.ExpiryMeans`: reconcile also expires the subscription and releases its reservation, in the same transaction; neither is part of this model.
- `Listing.ReplyMatchesRow`: a store write that reports an error has not happened; a NULL state column reads like a missing row in the code and cannot occur in the model.
- `Publication.RelayServesIffActive`: the relay is one slot per coordinate; event timestamps within one second, several relays with different contents and deletions by timestamp (the "Kinds" section of NIP-01) are not modelled, nor are the price and timer columns of the row.
- `Publication.ActiveIsTraced`: a withdrawal that failed with an error may leave the row ACTIVE; the epoch it bumped still stops every publish that was probing.
- Preflight probes: any list of checks may come back.
- `Archive.RoundTrip`: encryption is symbolic, tar and the manifest's JSON are the values they carry, VACUUM keeps the logical content. A symlinked `fedimint` root, which the flat mode follows and the sealed mode refuses, and other link and permission checks are left out; so is the check that no daemon is running.
- `Backup.Volume.BackupTo`: the scratch files of the sealed mode live on the source volume and are not modelled; the destination starts as an empty directory whose own name is on disk. A torn file is not a manifest that parses.
- `Install.Installer.Restore`: what the file system answers to each rename is given beforehand; the staging and aside names are always free, the parent is one directory, a target that exists is a directory. What power loss does to the names beside the target, staging and aside, is not modelled.
- `Bootstrap.Box.Bootstrap`: input/output errors count as the crash before that write; file permissions and zeroization are left out. The phoenixd settings are one validity flag, the BIP39 code a pair of functions with stated laws, and merging flags, environment, file and stdin happens before.
- `Alerts.Dispatcher.Dispatch`: the payload and the exact print of the row id are left out; the id is the key and the second. A dispatcher starts with no stamps, and here with no earlier rows; `Ok(true)` of an insert whose id was taken reads as a fire in the code too.
- `Drain.DrainIsBounded`: the supervisor's abort of a drain that overruns, panics in a dispatch, and the owner check of a peer are not part of this model.
- `Paths.NormalizePathLexically`: Windows prefixes; paths arrive as parsed components.
- `MockPayment.Backend.SettleLive`: the settlement stream has no model; printed ids are their sequence numbers.
- `Text`: only ASCII whitespace is trimmed.
- Config defaults, environment parsing, messages, CLI text, JSON views, the fee schedule and the socket's permissions: they would only add easy members.
