# A verified model of the panel's stateful protocols

This project models, in Dafny, the parts of the panel where money, traffic quota and
user data depend on several steps going right together, and proves what those parts
promise over every run. `dafny verify dfyconfig.toml` checks all of it.

| files | what they model |
|---|---|
| `CryptoModel`, `CryptoSafety`, `CryptoScans`, `CryptoTheorems`, `CryptoProgress`, `CryptoExpiry`, `CryptoOrders`, `CryptoOutcomes`, `CryptoWorker` | payment in ERC-20 tokens (EIP-20, section "Events"): invoices, cursors, stored transfers, unfinalized observations, settlement, switching, freezing, the order steps that depend on a payment, and the expiry worker's read and later write of an order |
| `QuotaModel`, `QuotaSafety`, `QuotaRecord`, `QuotaGrants`, `QuotaController` | one member's quota shared by a controller and pull-based child sites: reservations, ceilings, the acknowledgement, lost requests and replies |
| `MeterModel`, `MeterSafety`, `MeterExchange`, `MeterTheorems`, `MeterLimits`, `MeterWitness`, `MeterBacklog`, `MeterReports`, `MeterWorker` | cumulative per-node usage rows, their acknowledgement, the controller's recomputation of raw and weighted totals, the sizes of requests and replies, policies with members, periods and rules, and when a site's reports stop for good |
| `Traffic` | the raw counters of all members, fed by local use and the heartbeats of many sites |
| `PolicyRollback` | a child's rollback of a failed policy |
| `LedgerModel`, `LedgerSafety`, `LedgerOrders`, `LedgerTheorems`, `LedgerRefunds`, `LedgerWorker` | double-entry postings with a checkpoint chain, the order state machine that posts them, the startup reconciliation, refund arithmetic in 64 bits |
| `DockerUpgrade` | upgrade and recovery of a Docker installation with a crash or an exception possible at every step |
| `NativeUpgrade` | upgrade and recovery of a native installation behind the private gateway, likewise |
| `DownloadCache`, `DownloadStream` | the reference-counted download cache with its disk budget, and the streaming of a file still being fetched |
| `RestoreInstall` | installing a restored file set by renames, with undo, and the PostgreSQL variant |
| `Quote` | quoted amounts, rates of two providers, decimals |
| `Common`, `Sums` | an optional value, the counter limit, products; sums over finite sets |

The protocols are state machines: a `Step` function over events, an `Allowed` predicate
for what the environment does, `Init`, and `Reaches(s, es, t)` for a run. The theorems
quantify over all runs. Code that changes rows or files step by step is written as
classes and loops, proved equal to those step functions or, for the upgrade, the cache
and the restore, directly against the property. In `DockerUpgrade`, `DownloadStream` and
`RestoreInstall` a nondeterministic choice stands for a failure or a crash at that point,
and `:= *` for what users or other processes do in between, so each contract holds for
all of them; a parameter (`calm`, `undo`, `steady`, `directory`) says when nothing fails on
its own, and the contracts then also promise success.

Assumptions of the model, each visible in the code: the final part of a chain never
changes and block times do not decrease; an honest node answers scans of the final
part, while anything at all may be reported about the unfinalized tail; each invoice has
its own address; a payment attempt is identified with its invoice; one request at a time
per child site; the revision hash of a snapshot is injective; every core stops at the
ceiling it was given; database transactions are atomic; starting a version may add records
but drops none.

## What turned out not to hold

- A heartbeat of an honest child can be refused forever: a reply that included a new member is
  lost, the next snapshot leaves the member out, the child acknowledges it, and the controller
  then demands a total the child cannot give (`QuotaSafety.RefusedExactlyWhen`,
  `QuotaSafety.StuckForever`, `QuotaSafety.StuckIsReachable`).
- A child that applies a policy but fails to record its revision can end with a ceiling the
  controller no longer reserves for, and then twice the quota can be used. That can follow if and
  only if a revision is recorded and it either leaves the member out or grants less than the new
  ceiling but more than the child has metered: only then can the recorded policy be offered again,
  be skipped by the child, and be acknowledged (`QuotaRecord.UnrecordedBreaksExactlyWhen`; one
  such run to its end is `QuotaRecord.UnrecordedBreaks`). Every other unrecorded policy is allowed
  in the quota theorems below.
- The usage reports of a child can stop for good. A report is sent and booked if and only if it
  stays within two mebibytes, names at most 4096 members, has no pending row under a package's
  own rate, and both sides dropped the same thousandths at turns of the quota period
  (`MeterTheorems.BookedExactlyWhen`, `MeterTheorems.LossesShowInWeights`); the check for 32768
  rows is never reached (`MeterTheorems.RowLimitNeverReached`). Once even the shortest report
  fails this, nothing is booked or acknowledged again (`MeterLimits.BlockedForever`). Each way
  there is reachable: retired members stay in the report (`MeterWitness.TooManyMembers`); a
  child meters under a package's rate, whose rule the controller does not note for such sites
  (`MeterWitness.PackageRate`); a fraction of a byte metered after a request is dropped on one
  side only when the reply brings a new period (`MeterWitness.FractionLost`, exactly when by
  `MeterLimits.TurnAgreesExactlyWhen`); and a backlog outgrows the request
  (`MeterBacklog.TooManyBytes`).
- The refund formula multiplies in int64. It is the rounded-down share of the price exactly
  when the product fits; otherwise the amount is wrong, though never above the price
  (`LedgerTheorems.QuotaRefundExactlyWhen`, `LedgerTheorems.RefundBounded`,
  `LedgerTheorems.RefundOverflows`).
- The startup check fails, on an intact ledger, exactly while a free order is being
  provisioned for a user without a wallet row (`LedgerWorker.ValidatesExactlyWhen`,
  `LedgerWorker.FreeOrderFailsValidation`).
- The handler of a native upgrade restores the backup whatever the journal says, and recovery
  believes the journal. Acknowledged writes can be missing from the installation after the
  freeze is released if and only if an exception after the backup finds another journal on the
  disk than the changing one: the journal could not be written after the backup, or something
  failed after the new version was recorded as healthy (`NativeUpgrade.LosesExactlyWhen`,
  `NativeUpgrade.BackupUnrecorded`). If that restore is interrupted in its turn, recovery
  accepts the half-copied state and releases the freeze. The Docker transaction compares the
  journal with the backup first and has no such case (`DockerUpgrade.Host.Life`), but for that its
  handler refuses a snapshot whose record could not be written: the installation then stays frozen
  until recovery (`DockerUpgrade.Host.HandleFailure`).
- The expiry worker writes back the order document it read earlier
  (backend/internal/controlplane/commerce_fulfilment.go:19-70, commerce_orders.go:101-111),
  and an invoice is created outside its lock. The write drops an invoice from its order if and
  only if a creation for that order committed between the read and the write while the order
  stayed pending (`CryptoExpiry.DropsExactlyWhen`). A payment complete in time is then not
  settled, now or later (`CryptoExpiry.PaidInvoiceIsLost`,
  `CryptoProgress.DroppedIsNeverPaid`), or is settled for an order that expires all the same
  (`CryptoExpiry.PaidOrderIsExpired`); the order loses its invoice even after a recorded
  transfer (`CryptoProgress.NoSwitchAfterTransfer`). This is the only way an order expires on
  an invoice paid in time (`CryptoTheorems.ExpiredShortOrDropped`).

## Model

| member | source | states |
|---|---|---|
| `CryptoTheorems.ExpiredWasShort` | backend/internal/controlplane/crypto_scanner.go:371-451 | In every run, an order the scanner expired had received less than its price in matching final transfers timed inside the invoice's window: a payment complete in time is never expired while its order still names it. |
| `CryptoTheorems.ExpiredShortOrDropped` | backend/internal/controlplane/commerce_fulfilment.go:50-70 | In every run, an order whose invoice was not switched away expires only if the invoice was short of its price in time or a stale write dropped it; it was dropped if and only if the order no longer names an invoice. |
| `CryptoTheorems.ReceiptWasCovered` | backend/internal/controlplane/crypto_scanner.go:376-430 | In every run, an invoice has a receipt only if the final chain paid at least its price in time. |
| `CryptoTheorems.OpenIsShort` | backend/internal/controlplane/crypto_scanner.go:361-420 | In every run, an invoice still waiting has not been paid in full by what its cursor has passed. |
| `CryptoTheorems.StoredTransfersAreExact` | backend/internal/controlplane/crypto_scanner.go:254-375 | In every run, with stale and duplicate scans, the stored transfers of an invoice on a chain are exactly the matching non-zero logs from its start to its cursor, each once, and no observation lies below the cursor. |
| `CryptoTheorems.OneReceiptPerOrder` | backend/internal/controlplane/crypto_scanner.go:403-430 | In every run an order has at most one receipt. |
| `CryptoTheorems.ConfirmedIsInTime` | backend/internal/controlplane/crypto_invoices.go:114-156 | The confirmed amount in the database equals the sum over the scanned chain of the transfers that count, defined on the chain alone. |
| `CryptoProgress.NothingIsForgotten` | backend/internal/controlplane/crypto_scanner.go:254-375 | From any reachable state on, cursors never move back, stored transfers and receipts stay, frozen networks stay frozen, paid is never left. |
| `CryptoProgress.NoSwitchAfterTransfer` | backend/internal/controlplane/crypto_invoices.go:404-441 | Once any transfer to any address of an order is recorded, its current invoice stays the same if and only if no stale write of the expiry worker drops it; otherwise the order is expired and names none. |
| `CryptoProgress.DroppedIsNeverPaid` | backend/internal/controlplane/crypto_scanner.go:403-424 | From any reachable state on, an invoice dropped before it was paid never becomes paid and never gets a receipt. |
| `CryptoExpiry.DropsExactlyWhen` | backend/internal/controlplane/commerce_fulfilment.go:19-70 | Over every run between the worker's read of a pending order without a payment and its write: the write drops an invoice if and only if a creation for the order committed in between and the order is still pending. |
| `CryptoExpiry.PaidInvoiceIsLost` | backend/internal/controlplane/commerce_orders.go:101-111 | A run in which an invoice paid in full and in time, on final blocks, ends under review without a receipt while its order is expired. |
| `CryptoExpiry.PaidOrderIsExpired` | backend/internal/controlplane/crypto_scanner.go:403-419 | A run in which an invoice is paid in time and settled with a receipt, and the stale write then expires its order, which settlement leaves pending. |
| `CryptoProgress.FrozenNetworkPaysNothing` | backend/internal/controlplane/crypto_scanner.go:471-493 | Once an invoice's network is frozen the invoice never becomes paid and its order moves neither to provisioning nor to completed, although other networks still settle. |
| `CryptoProgress.FreezingStopsPayments` | backend/internal/controlplane/crypto_scanner.go:471-493 | Freezing a network by hand does exactly that, and from then on its invoices are never paid and never activate their orders. |
| `CryptoOutcomes.ScanOutcome` | backend/internal/controlplane/crypto_scanner.go:366-453 | In every reachable state, what a committed scan does as a whole: the invoice is paid if and only if its order waits for it and the final blocks below the window's end hold its price in time; the order expires if and only if they do not and the window reaches past a head later than the deadline; otherwise only late, foreign or unexpected money is marked for review. |
| `CryptoOutcomes.OverdueIsClosed` | backend/internal/controlplane/crypto_scanner.go:431-451 | After such a window no order stays pending unless the scan paid it: a short order and its attempt expire, and the invoice is kept for review exactly if any transfer to it is stored. |
| `CryptoOutcomes.ScanViews` | backend/internal/controlplane/crypto_scanner.go:283-336 | The cursor stands at the window's end, and exactly those unfinalized transfers stay on view that were there outside the window or were sighted, and are not stored as final. |
| `CryptoOutcomes.ContradictionFreezes` | backend/internal/controlplane/crypto_scanner.go:342-347 | Whatever a node reports, a final log with another amount, block or invoice than the stored transfer freezes the network and changes nothing else. |
| `CryptoOrders.DeliveredWasPaid` | backend/internal/controlplane/commerce_order_actions.go:118-126 | In every run, a token order that is being provisioned or is completed has a receipt, and the final chain paid its price in time. |
| `CryptoOrders.ConfirmsExactlyWhen` | backend/internal/controlplane/commerce_order_actions.go:298-309 | In every reachable state a pending order is activated if and only if it needs no payment, or its invoice has a receipt and its network is not frozen. |
| `CryptoOrders.ActionsMoveExactly` | backend/internal/controlplane/commerce_order_actions.go:310-322 | Exactly when the other order actions go through, and that a paid attempt is completed with its order and otherwise becomes refundable. |
| `CryptoOrders.PaymentFollowsOrder` | backend/internal/controlplane/commerce_fulfilment.go:123-169 | In every run the state of an order fixes the state of its payment attempt, and an invoice is paid if and only if it has a receipt. |
| `CryptoOrders.ChoosesExactlyWhen` | backend/internal/controlplane/crypto_invoices.go:345-508 | In every reachable state an invoice is created or switched to if and only if the network is not frozen, the order is pending with fewer than twelve invoices and has no payment yet or an unpaid one in another asset to which nothing was sent; the one before is closed. |
| `CryptoProgress.StaleScansStayHonest` | backend/internal/controlplane/crypto_scanner.go:102-237 | A window read honestly stays an honest description of the final chain at any later time. |
| `CryptoScans.HonestScanCommits` | backend/internal/controlplane/crypto_scanner.go:279-375 | A window that starts at the cursor of a network that is not frozen always commits: honest data never raises the finality alarm. |
| `CryptoScans.ApplyItemsEffect` | backend/internal/controlplane/crypto_scanner.go:288-352 | Which transfers and observations a window leaves, log by log, whatever their order. |
| `CryptoScans.SettleDoes` | backend/internal/controlplane/crypto_scanner.go:376-453 | Settlement ends in one of four outcomes, each with its exact effect on invoice, order and receipts. |
| `CryptoScans.StepKeepsInv` | backend/internal/controlplane/crypto_scanner.go:254-453 | Every step of scanning, settling, creating, switching, freezing, the order actions and the expiry worker's read and later write keeps the whole invariant. |
| `CryptoSafety.CreateKeepsInv` | backend/internal/controlplane/crypto_invoices.go:345-508 | Creating or switching an invoice keeps the invariant. |
| `CryptoWorker.BlockAtTime` | backend/internal/controlplane/crypto_scanner.go:238-253 | The binary search returns the first block whose time is not below the given time. |
| `CryptoWorker.ScanAsset` | backend/internal/controlplane/crypto_scanner.go:147-228 | The scan of one asset adds exactly the matching logs of the window, final ones with their true block. |
| `CryptoWorker.ScanWindow` | backend/internal/controlplane/crypto_scanner.go:102-237 | A scan of all assets of a network is an honest window. |
| `CryptoWorker.PaymentStore.InvoiceAmounts` | backend/internal/controlplane/crypto_invoices.go:114-156 | Received, confirmed, remaining and excess amounts are the sums over exactly the rows that count. |
| `CryptoWorker.PaymentStore.SettleInvoice` | backend/internal/controlplane/crypto_scanner.go:376-453 | The new database is that of the settlement step. |
| `CryptoWorker.PaymentStore.ApplyCryptoScan` | backend/internal/controlplane/crypto_scanner.go:254-375 | The new database is that of the scan step; any error leaves it as it was. |
| `CryptoWorker.PaymentStore.CreateCryptoInvoice` | backend/internal/controlplane/crypto_invoices.go:345-508 | The new database is that of the create or switch step; any error leaves it as it was. |
| `QuotaSafety.QuotaCoversIssued` | backend/internal/controlplane/business_quota.go:49-79 | In every run of issuing, reporting, acknowledging and local use, quota used plus everything issued and unreported stays within the quota. |
| `QuotaSafety.ConsumptionWithinQuota` | backend/internal/controlplane/business_quota.go:198-216 | In every run, what was actually consumed on the controller and all children, reported or not, stays within the quota. |
| `QuotaSafety.CeilingWithinIssued` | backend/internal/controlplane/business_quota.go:386-417 | In every run with lost messages, failed applies and every policy left unrecorded that is not exposed, the ceiling a child enforces never exceeds what the controller holds as issued to it, although acknowledgements lower that amount. |
| `QuotaRecord.UnrecordedBreaksExactlyWhen` | backend/internal/controlplane/business_agent.go:504-539 | In every reachable state in which a policy arrives: if it is applied but not recorded, some continuation ends with a ceiling above what is issued if and only if it is exposed, that is, a revision is recorded and leaves the member out or grants less than the new ceiling but more than the child metered. |
| `QuotaRecord.UnrecordedBreaks` | backend/internal/controlplane/business_agent.go:537-539 | One such run: a withdrawn member keeps its ceiling with nothing issued, and twice the quota is used. |
| `QuotaSafety.RefusedExactlyWhen` | backend/internal/controlplane/business_quota.go:386-406 | A reachable heartbeat is refused if and only if the controller holds an issued amount for a member the child never knew and the child acknowledges the latest snapshot. |
| `QuotaSafety.StuckForever` | backend/internal/controlplane/business_quota.go:386-406 | Once in that situation, after any run whatever the site has asked or would ask is refused, and its usage on the controller stands still. |
| `QuotaSafety.StuckIsReachable` | backend/internal/controlplane/business_quota.go:386-406 | One lost reply and one snapshot without the member lead there. |
| `QuotaGrants.SnapshotGrantsLargest` | backend/internal/controlplane/business_quota.go:120-149 | In every reachable state a snapshot grants an included member if and only if the site is below its configured grant and used plus everything unreported elsewhere is below the quota; the ceiling is then the largest within the configured grant under which the quota holds, and the arithmetic never refuses. |
| `QuotaGrants.UnlimitedGrant` | backend/internal/controlplane/business_quota.go:120-149 | Without a quota the member gets exactly what the site is configured with, while it is below that. |
| `QuotaGrants.RequestIsServed` | backend/internal/controlplane/business_policy.go:78-180 | In every reachable state a request is refused without effect, or its growth is booked once, an acknowledgement replaces what was issued by what was sent, and the deserved grant is recorded and answered. |
| `QuotaGrants.TakenExactlyWhen` | backend/internal/controlplane/business_quota.go:264-406 | Any report at all is taken if and only if it is not behind, its member was ever given to the site, the account stays in range, and it reports every allocation it acknowledges. |
| `QuotaGrants.DeliveredIsInForce` | backend/internal/controlplane/business_agent.go:504-539 | An applied policy is in force as granted; a failed one changes nothing; one whose record fails is in force under the old revision. |
| `QuotaSafety.StepKeepsInv` | backend/internal/controlplane/business_policy.go:78-180 | Every event of the exchange keeps the reservation invariant. |
| `QuotaController.Controller.RemainingQuota` | backend/internal/controlplane/business_quota.go:56-84 | The loop over sites returns quota less use less the reservations of all other sites, never below zero, and zero if another site is unlimited. |
| `QuotaController.Controller.CoreQuota` | backend/internal/controlplane/business_quota.go:154-218 | The local core serves the member if and only if no site is unlimited and the reservations are below the quota, and then up to exactly the difference. |
| `QuotaController.Controller.AcceptUsage` | backend/internal/controlplane/business_quota.go:222-431 | The member's counters and the acknowledged allocation change as the accept step says, or nothing changes. |
| `QuotaController.Controller.IssueSnapshot` | backend/internal/controlplane/business_policy.go:78-180 | The grant handed out and the recorded issue are those of the snapshot step; an arithmetic refusal changes nothing. |
| `MeterSafety.WeightedExact` | backend/internal/domain/entitlement.go:95-104 | The charge computed from split thousandths is the exact quotient and remainder of bytes times rate plus the carried rest, and fails only beyond the counter limit. |
| `MeterSafety.WeightedSplits` | backend/internal/domain/entitlement.go:93-104 | Charging in two instalments gives the same total and remainder as charging once. |
| `MeterSafety.ChargeExact` | backend/internal/domain/entitlement.go:95-111 | A charge moves raw and weighted readings by exactly the charged amount and fails exactly at a limit. |
| `MeterSafety.CollectKeepsInv` | backend/internal/controlplane/usage_meter.go:93-190 | Counting traffic on the child keeps its totals equal to baseline plus rows. |
| `MeterExchange.PendingCarriesAll` | backend/internal/controlplane/business_usage_ack.go:5-20 | The pending rows alone account for everything by which the child's table exceeds the controller's. |
| `MeterExchange.RecomputeExact` | backend/internal/controlplane/business_meter.go:239-290 | Whenever the row loop goes through, it added to each member's start exactly the growth of its rows, raw and weighted, and every row was new in the report, not behind, under an issued rule and in an issued period. |
| `MeterExchange.RecomputeSucceeds` | backend/internal/controlplane/business_meter.go:239-290 | For such rows it goes through as long as the outcome stays within the counter limits. |
| `MeterExchange.HonestVerified` | backend/internal/controlplane/business_meter.go:192-296 | A report that describes the child truthfully passes the verification if and only if it has at most 32768 rows, every row is under an issued rule and period, and both sides dropped the same thousandths. |
| `MeterTheorems.WatermarksAreOrdered` | backend/internal/controlplane/business_usage_ack.go:21-43 | In every run, for every row, acknowledged <= booked <= metered, and the controller's totals are baseline plus booked rows, less the thousandths dropped at turns of the period. |
| `MeterTheorems.BookedExactlyWhen` | backend/internal/controlplane/business_meter.go:192-296 | In every run with lost messages, changing members, periods and rules, a report is sent and accepted if and only if it stays within two mebibytes (business_agent.go:72, business_api.go:16), names at most 4096 members (business_api.go:390), no pending row is under a package's own rule, and every weighted total on the child is what the controller would start from plus the weight of the rows it has not booked. |
| `MeterTheorems.LossesShowInWeights` | backend/internal/controlplane/business_meter.go:233-238 | In every run, both sides dropped the same thousandths of a member if and only if its weighted totals on the child follow, in both directions, from the controller's start and the rows not booked yet. |
| `MeterTheorems.RowLimitNeverReached` | backend/internal/controlplane/business_meter.go:199-201 | A report that passes the byte limit has at most 20971 rows, so the limit of 32768 rows never decides. |
| `MeterTheorems.AcknowledgementsApply` | backend/internal/controlplane/business_usage_ack.go:21-43 | In every run, an acknowledgement that arrives is never refused and is recorded exactly as sent. |
| `MeterTheorems.OneExchangeCatchesUp` | backend/internal/controlplane/business_agent.go:158-204 | After any history, one exchange without a loss leaves equal rows and totals on both sides and nothing pending, if the report can be booked and the reply fits; books the report but leaves the child as it was if the reply is too large; and changes nothing otherwise. |
| `MeterLimits.TurnAgreesExactlyWhen` | backend/internal/controlplane/business_agent.go:433-446 | In every run, a policy that moves a member to a new period keeps the two sides in agreement if and only if the weighted traffic metered since the last booking is a whole number of bytes in both directions. |
| `MeterLimits.WholeRatesAgree` | backend/internal/controlplane/business_meter.go:233-238 | In every run in which all rates are whole multiples, the two sides always agree. |
| `MeterLimits.BlockedForever` | backend/internal/controlplane/business_agent.go:67-74 | After any history: once not even the shortest report of the child can be booked, no later report is, whatever happens, and neither the controller's books nor the acknowledgements change again. |
| `MeterWitness.TooManyMembers` | backend/internal/controlplane/business_agent.go:469-476 | Seventeen policies of 256 new members each lead there, because retired members stay in the report. |
| `MeterWitness.PackageRate` | backend/internal/controlplane/node_policy.go:116-134 | For every node rule and every package rate, one byte metered under the package leads there. |
| `MeterWitness.FractionLost` | backend/internal/controlplane/business_meter.go:233-238 | For every rate that is no whole multiple, one byte metered after a request whose reply brings a new period leads there. |
| `MeterBacklog.TooManyBytes` | backend/internal/controlplane/business_agent.go:72-74 | With 256 members on 16 nodes, the two default ones among them, replaced by 256 others under new rules, a backlog of 12288 rows of at least 183 bytes leads there: old rows, what the retired members still used under the new rules, and rows of the new members. |
| `MeterReports.ReportTakenExactlyWhen` | backend/internal/controlplane/business_meter.go:192-296 | In every reachable state any report, honest or not, passes if and only if its rows are distinct, issued, of reported members and not behind, every member starts from an admissible baseline and period, and every total is its start plus the growth of the rows. |
| `MeterReports.RecordedExactlyWhen` | backend/internal/controlplane/business_usage_ack.go:21-43 | Any acknowledgement is recorded as a whole if and only if the child has all of its rows at least as far; no row moves back. |
| `MeterTheorems.BookedTable` | backend/internal/controlplane/business_quota.go:418-422 | Booking an accepted report leaves the controller with exactly the child's table at the time it asked. |
| `MeterWorker.MeterStore.PendingNodeUsage` | backend/internal/controlplane/business_usage_ack.go:5-20 | Returns every row not acknowledged in full, each once, with its current value. |
| `MeterWorker.MeterStore.AckBusinessUsage` | backend/internal/controlplane/business_usage_ack.go:21-43 | All rows of an acknowledgement are recorded as the step says, or none. |
| `MeterWorker.OpenSums` | backend/internal/controlplane/business_meter.go:202-238 | The first loop finds every member's start, or fails exactly if some baseline or aggregate does not fit. |
| `MeterWorker.ChargeRows` | backend/internal/controlplane/business_meter.go:239-290 | The row loop computes the recomputed totals, or fails exactly on a repeated, unknown, shrinking or overflowing row. |
| `MeterWorker.VerifyBusinessMeter` | backend/internal/controlplane/business_meter.go:192-296 | Passes if and only if the rows are not too many, all starts exist with issued periods, and the recomputed totals equal the reported ones. |
| `Traffic.CountersAreConserved` | backend/internal/controlplane/business_quota.go:222-431 | Over any run of accepted, repeated and rejected heartbeats of many sites, each raw counter of a surviving member equals its start plus local use plus the growth of every site's watermark. |
| `Traffic.ReplayAddsNothing` | backend/internal/controlplane/business_quota.go:264-312 | An accepted report repeated is accepted again and changes nothing. |
| `Traffic.WatermarksGrow` | backend/internal/controlplane/business_quota.go:297-299 | No watermark ever shrinks. |
| `Traffic.GoneStaysGone` | backend/internal/controlplane/business_quota.go:317-324 | A deleted member is never recreated by a report. |
| `Traffic.AcceptedExactlyWhen` | backend/internal/controlplane/business_quota.go:281-360 | In every reachable state a heartbeat is accepted if and only if every line is a possible reading of a member the site has or may have, is behind no watermark and keeps the counters within the limit; then its growth is added exactly. |
| `Traffic.TrafficStore.AcceptBusinessUsage` | backend/internal/controlplane/business_quota.go:264-385 | The loop books every line of a report or none, with the exact new counters and watermarks; any counter below zero, beyond its limit or behind refuses the report. |
| `PolicyRollback.PreserveAccounting` | backend/internal/controlplane/business_agent.go:542-568 | The in-place merge returns the old records with the latest accounting, everyone else retired, each identity once. |
| `PolicyRollback.NoCounterIsRewound` | backend/internal/controlplane/business_agent.go:542-568 | Every counter and meter taken after the failed policy survives the rollback. |
| `PolicyRollback.NobodyGainsAuthorization` | backend/internal/controlplane/business_agent.go:542-568 | Whoever is enabled afterwards was enabled before, under the same policy and in an unchanged period. |
| `PolicyRollback.EnabledExactlyWhen` | backend/internal/controlplane/business_agent.go:542-560 | An old record is enabled afterwards if and only if it was before and no period changed under it; it keeps its policy and name and has the latest accounting. |
| `PolicyRollback.NewcomersAreRetired` | backend/internal/controlplane/business_agent.go:562-566 | Everyone whom only the failed policy knew is kept once, disabled and renamed, with all accounting. |
| `LedgerTheorems.LedgerHolds` | backend/internal/controlplane/commerce_integrity.go:21-102 | In every run: balances within limits and equal to the entries, one revision per transaction, every checkpoint the running balance, entries of each transaction at least two and summing to zero, held equal to the prices of the provisioning balance-paid orders. |
| `LedgerTheorems.OrderMoneyIsFixedByState` | backend/internal/controlplane/commerce_order_actions.go:142-165 | In every run, the money movements of an order are one of a few fixed lists given by its state, so hold, release, capture and refund happen at most once each, a release excludes a capture, and the net effect is (0,0), (-p,p), (-p,0) or (R-p,0) with 0 <= R <= p. |
| `LedgerTheorems.HeldMoneyIsNeverStuck` | backend/internal/controlplane/commerce_fulfilment.go:123-169 | In every run, a provisioning order can be cancelled, failed or completed: its posting is never refused. |
| `LedgerTheorems.RefundWaitsExactlyWhen` | backend/internal/controlplane/commerce_fulfilment.go:318-336 | In every run, a refund to the balance is paid if and only if the user's entitlement still comes from the order and nothing is due or the wallet stays within its limit. |
| `LedgerTheorems.CheckpointNeverRefuses` | backend/internal/controlplane/commerce_types.go:197-243 | In every run, a posting succeeds if and only if the balances stay within limits and its key is new: the checkpoint comparison never stops one. |
| `LedgerTheorems.OneActiveOrder` | backend/internal/controlplane/commerce_orders.go:375-451 | In every run a user has at most one pending, provisioning or refunding order. |
| `LedgerTheorems.RefundBounded` | backend/internal/controlplane/commerce_orders.go:168-189 | Even where the product overflows, a refund never exceeds the price. |
| `LedgerTheorems.QuotaRefundExactlyWhen` | backend/internal/controlplane/commerce_orders.go:177-180 | The refund by traffic is the rounded-down unused share if and only if the product fits int64. |
| `LedgerTheorems.TimeRefundExactlyWhen` | backend/internal/controlplane/commerce_orders.go:181-187 | The refund by time is the rounded-down share of the time left if and only if the product fits int64. |
| `LedgerTheorems.RefundOverflows` | backend/internal/controlplane/commerce_orders.go:177-180 | A concrete price, quota and use for which the refund is not the unused share. |
| `LedgerRefunds.RefundAmountExactly` | backend/internal/controlplane/commerce_orders.go:168-189 | For every basis the computed refund is the rounded-down share of the price for the unused part, all of it if nothing is used and none if nothing is left, if and only if no product overflows; otherwise it is less. |
| `LedgerRefunds.RefundStarts` | backend/internal/controlplane/commerce_order_actions.go:225-260 | In every run a refund starts if and only if the order is completed, its entitlement not replaced and no other order of the user active: the computed amount is recorded for an active entitlement, and the whole price of a queued one goes back at once. |
| `LedgerRefunds.RefundPaysShare` | backend/internal/controlplane/commerce_fulfilment.go:313-336 | Whatever happens between the request and the payment, the wallet gains exactly the share due if and only if it is computable, never more, and nothing is held. |
| `LedgerRefunds.ConfirmsExactlyWhen` | backend/internal/controlplane/commerce_order_actions.go:82-165 | In every run a pending order is confirmed if and only if the balance covers it, or it is free or paid online; the price is then held. |
| `LedgerRefunds.LeavesProvisioning` | backend/internal/controlplane/commerce_fulfilment.go:123-169 | In every run cancelling and failing release the hold and completing captures it, each without fail. |
| `LedgerRefunds.MovesExactlyWhen` | backend/internal/controlplane/commerce_types.go:197-243 | In every run an outside movement is booked if and only if the balance stays in range and its key is new. |
| `LedgerSafety.PostSucceeds` | backend/internal/controlplane/commerce_types.go:197-226 | On sound books a posting is refused exactly by the limits or a used key. |
| `LedgerSafety.PostKeepsBooks` | backend/internal/controlplane/commerce_types.go:226-243 | A posting keeps the user's books sound, moves the balances by its deltas, and touches nobody else. |
| `LedgerOrders.SettleKeepsInv` | backend/internal/controlplane/commerce_order_actions.go:365-375 | A step with its posting commits as a whole or not at all, and keeps ledger and orders in agreement. |
| `LedgerTheorems.StepKeepsInv` | backend/internal/controlplane/commerce_fulfilment.go:298-405 | Every order action and every outside money movement keeps the ledger and order invariant. |
| `LedgerWorker.ValidatesExactlyWhen` | backend/internal/controlplane/commerce_integrity.go:21-102 | On every reachable ledger the startup check passes if and only if no free order is being provisioned for a user without a wallet row. |
| `LedgerWorker.FreeOrderFailsValidation` | backend/internal/controlplane/commerce_integrity.go:100-102 | Ordering a free package on a new account and confirming it makes the check fail. |
| `LedgerWorker.CommerceStore.PostMoney` | backend/internal/controlplane/commerce_types.go:197-243 | The new tables are those of the posting step, or nothing changes. |
| `LedgerWorker.CommerceStore.OrderAction` | backend/internal/controlplane/commerce_order_actions.go:82-165 | Confirm and cancel end in the state of their steps. |
| `LedgerWorker.CommerceStore.FailProvisioning` | backend/internal/controlplane/commerce_fulfilment.go:123-169 | Ends in the state of the fail step. |
| `LedgerWorker.CommerceStore.FulfilOrder` | backend/internal/controlplane/commerce_fulfilment.go:298-419 | Ends in the state of the complete, fail or refund step, by state, account and the source of the entitlement. |
| `LedgerWorker.CommerceStore.ValidateCommerce` | backend/internal/controlplane/commerce_integrity.go:11-102 | The loops accept if and only if transactions balance, wallets fit limits, revisions and entry sums, and open holds match wallets exactly, free orders included. |
| `DockerUpgrade.Host.Life` | deploy/docker_deploy.py:1028-1129 | Over any history of upgrades, recoveries, crashes at any step, edits by hand in any stage and traffic: whenever the freeze is absent every acknowledged write is present. |
| `DockerUpgrade.Host.Transaction` | deploy/docker_deploy.py:1028-1067 | However it ends, safety holds; if the journal is clear, the installation is wholly the old or wholly the target; an open transaction or a freeze is never overwritten; undisturbed, from a consistent installation, it succeeds; an exception whose handler is undisturbed leaves the old installation running and open, unless the commit was recorded or the snapshot just made is not in the journal. |
| `DockerUpgrade.Host.Recover` | deploy/docker_deploy.py:1105-1129 | When it clears the journal, marker, composition, program and images are all old or all target, unless edited by hand before the snapshot or after the commit; after the commit record no data goes away and pieces that disagree are refused; an unknown edit and a transaction of another installation are refused with nothing touched; it ends over a running panel; undisturbed it finishes, after a commit provided the panel is up, which it does not start then. |
| `DockerUpgrade.Host.RestoreSnapshot` | deploy/docker_deploy.py:947-1016 | Refuses every marker and composition this transaction cannot have written before stopping anything; on success the old installation and all acknowledged writes are back. |
| `DockerUpgrade.Host.Activate` | deploy/docker_deploy.py:909-931 | At every point of the switch the pair of marker and composition stays one that recovery accepts. |
| `DockerUpgrade.Host.CompleteGate` | deploy/docker_deploy.py:1019-1025 | Commits before letting writes in, so that nothing acknowledged later can be restored away. |
| `DockerUpgrade.Host.Install` | deploy/docker_deploy.py:1070-1086 | On success the whole target is in place and nothing is lost; on any failure the snapshot still covers everything. |
| `DockerUpgrade.Host.StopAndBackup` | deploy/docker_deploy.py:1040-1044 | Once the snapshot is recorded as the way back, it holds every acknowledged write, and the freeze stays. |
| `DockerUpgrade.Host.HandleFailure` | deploy/docker_deploy.py:1051-1066 | The exception handler keeps safety; undisturbed, it brings the old installation back, running and open, from the snapshot or, before there is one, as it stands; a snapshot the journal does not know is refused and the freeze stays; after the commit it does nothing. |
| `DockerUpgrade.Host.BeginGate` | deploy/maintenance_gate.py:27-42 | Fails, changing nothing, if the freeze exists; otherwise success means that it exists. |
| `DockerUpgrade.Host.FinishGate` | deploy/maintenance_gate.py:45-48 | Success means that the freeze is gone; it never appears. |
| `NativeUpgrade.NothingIsLost` | deploy/upgrade.py:218-272 | In every run of upgrades, recoveries, failures at any instruction, crashes and traffic without an exposed restore: whenever the freeze is absent every acknowledged write is present, and a cleared journal leaves one version as a whole. |
| `NativeUpgrade.LosesExactlyWhen` | deploy/upgrade.py:246-259 | In every reachable state, for every next event: acknowledged writes can be missing later without the freeze if and only if the event makes the handler restore the backup while the journal on the disk is not the changing one. |
| `NativeUpgrade.BackupUnrecorded` | deploy/upgrade.py:234-235 | From every installation and for every target, failing to write the journal after the backup is such an event. |
| `NativeUpgrade.NothingIsRestored` | deploy/update_agent.py:295-323 | From the commit record on no data goes away and the program stays, through any failures and crashes, until another upgrade is started. |
| `NativeUpgrade.RecoveryFinishes` | deploy/update_agent.py:295-321 | In every reachable state an undisturbed recovery ends with the journal clear, the freeze gone, nothing missing and the expected version running: the old one, that of the snapshot or the new one, by the journal; after the change provided the panel is up. |
| `NativeUpgrade.UpgradeFinishes` | deploy/upgrade.py:218-245 | An undisturbed upgrade of an idle installation ends the same way with the target. |
| `NativeUpgrade.HandlerFinishes` | deploy/upgrade.py:246-271 | An undisturbed handler ends the same way with the old version. |
| `NativeUpgrade.HandlerStartsExactlyWhen` | deploy/upgrade.py:246-252 | The handler acts exactly on exceptions between the freeze and the commit. |
| `NativeUpgrade.CopiedWhileStopped` | deploy/upgrade.py:232-236 | Data and program are copied only while the panel is stopped. |
| `DownloadCache.Relay.MakeRoom` | backend/internal/controlplane/clients_download.go:216-239 | Terminates; evicts only idle finished entries, the longest unused first, and none if there was room; succeeds if and only if the entries in use leave room for a file of the largest size, and on failure nothing idle is left. |
| `DownloadCache.Relay.Acquire` | backend/internal/controlplane/clients_download.go:241-288 | The budget holds; nobody loses an entry being read; an abandoned entry gains no reader; a fetch starts only with its largest size reserved; a usable entry is always found, and a missing one is fetched if and only if a slot and the directory are there and the entries in use leave room. |
| `DownloadCache.Relay.Release` | backend/internal/controlplane/clients_download.go:290-301 | The last reader of a running fetch abandons it, of a failed file removes it, and otherwise only the count changes. |
| `DownloadCache.Relay.Finish` | backend/internal/controlplane/clients_download.go:310-329 | The entry is charged its real size, or goes if it is useless and unread. |
| `DownloadCache.Relay.Progress` | backend/internal/controlplane/clients_download.go:381-391 | A chunk is counted if and only if the file stays within the largest size. |
| `DownloadCache.EvictionLowersCharge` | backend/internal/controlplane/clients_download.go:216-239 | Dropping idle entries never raises the charge and ends no fetch. |
| `DownloadStream.Transfer.Fetch` | backend/internal/controlplane/clients_download.go:331-412 | Succeeds if and only if the upstream answers with a file that is found, of a possible length and no text, the local file can be made, written and closed, and the body arrives in full, is not empty, not too large and as long as announced; then the file is exactly that body. |
| `DownloadStream.RefusedExactlyWhen` | backend/internal/controlplane/clients_download.go:346-361 | Exactly which answers are refused: not found, empty, too long, or of a content type in which one of three words occurs anywhere. |
| `DownloadStream.CompleteExactlyWhen` | backend/internal/controlplane/clients_download.go:379-405 | A file is complete if and only if a usable answer is followed by chunks that are all written, then the end, and together are not empty, not too large and as long as announced; it is then their concatenation. |
| `DownloadStream.Transfer.FetchStep` | backend/internal/controlplane/clients_download.go:341-405 | Every turn keeps what was written and the link to the upstream body. |
| `DownloadStream.Transfer.Stream` | backend/internal/controlplane/clients_download.go:502-535 | A stream that ends normally beside a running fetch delivered exactly the complete, error-free file; every other stream delivered a prefix; a steady reader of a finished file gets all of it, and of a failed one is cut off. |
| `RestoreInstall.StateDirectory.InstallRestore` | backend/internal/controlplane/backup.go:284-320 | For every set of existing files and every failing stat, rename or removal: success installs the whole staged set without the log files, a failure with a clean undo leaves the directory as it was, and no old file is ever lost; it succeeds if nothing fails and the staged set is complete. |
| `RestoreInstall.StateDirectory.Undo` | backend/internal/controlplane/backup.go:287-297 | The undo of both phases: no old file is lost however many removals and renames fail, and a clean one brings the whole directory back. |
| `RestoreInstall.StateDirectory.UndoMoves` | backend/internal/controlplane/backup.go:294-297 | The undo tries every file, puts each back or keeps it aside, and is clean only if all are back. |
| `RestoreInstall.StateDirectory.RestorePostgres` | backend/internal/controlplane/backup.go:363-409 | Database and files end both new, or both old if undo and copy-back succeed. |
| `Quote.QuoteIsLeast` | backend/internal/controlplane/crypto_payments.go:146-162 | The quoted amount is the least number of payment units worth at least the price at the stored rate. |
| `Quote.QuotedExactlyWhenValid` | backend/internal/controlplane/crypto_payments.go:146-162 | With a rate of at most eight decimals a quote exists if and only if the input is valid: the 256-bit check never refuses. |
| `Quote.QuoteCoversBothRates` | backend/internal/controlplane/crypto_rates.go:197-219 | An amount worth the price at the combined rate is worth it at both providers' original rates. |
| `Quote.CombinesExactlyWhen` | backend/internal/controlplane/crypto_rates.go:209-219 | Two rates combine if and only if they are within two per cent of each other, to the largest number of hundred-millionths above neither. |
| `Quote.PrintedReadsBack` | backend/internal/controlplane/crypto_rates.go:50-59 | The printed rate parses back to exactly the rounded-down value. |
| `Quote.PrintedMatches` | backend/internal/controlplane/crypto_rates.go:50-59 | Every rate below a million is printed in the form that quoting accepts. |
| `Quote.RateDecimal` | backend/internal/controlplane/crypto_rates.go:50-59 | The padding and trimming loops print the rounded-down rate, readable without loss. |

## Left out

- Solana, JSON-RPC transport, key derivation, wallets, sweeps, gas: only EVM payments in, and the chain is a value.
- Receipt times, audit rows, notifications, display columns of invoices: they decide nothing modelled here.
- Unlimited members (quota 0) and quota changes within a run: the quota theorems are for one fixed positive quota in one period.
- The local core is taken to follow the reduced quota at once; the reconcile delay is not modelled.
- The quota theorems are within one quota period. Metering runs over many; the rebasing of closed periods in the central accounts (backend/internal/controlplane/business_meter.go:77-188) is not modelled.
- Sizes of a report apart from its rows are bounded from below only: a fixed part and a total and a baseline per member.
- Metering under the rates of another protocol: sites that are pushed to (backend/internal/controlplane/mount_master.go:400-411) note package rules and are not part of the exchange modelled here.
- Traffic of a child's own owner account, and members whose period from before per-node metering was never noted by the controller.
- `QuotaController.Controller.AcceptUsage`: one member; the rebasing of closed periods and the monthly budget are left out.
- Monthly site budgets, commands and node reports carried by a heartbeat.
- `Traffic.TrafficStore.AcceptBusinessUsage`: weighted counters and the completeness check of an acknowledgement are covered by the metering and quota modules; here they appear only as a heartbeat that may be refused elsewhere.
- Entitlement changes of an order (plan queue, `orderEntitlementPosition`, `removeQueuedEntitlement`, expiry dates): they would add easy members; the ledger takes whether the entitlement is active and what part is unused as inputs.
- Payment providers, callbacks and payment refunds appear only through their effect on the order state; top-ups, adjustments and redeemed codes through their postings.
- The checks of `validateCommerce` on users, support tickets, crypto tables and sealed documents.
- The maintenance helper, service units, configuration file and image downloads of a Docker upgrade; the backup history. A snapshot that was completed is assumed intact.
- `DockerUpgrade.Host.Edit`: edits by hand are only of the marker and the composition, and not while a program runs.
- `NativeUpgrade.NothingIsLost`: configuration, units and helper files of a native installation are left out. Installations without the private gateway have no freeze and are not modelled. The transaction, its handler and recovery are lists of instructions run by a step function, since the results speak of continuations.
- `DownloadCache.Relay.Acquire`: an entry object is identified with its URL, which the proved invariant justifies: no entry with a reader or a running fetch leaves the cache.
- HTTP details of a download: ranges, headers, redirects and completed files served by the standard library.
- Parsing of provider rates beyond decimals, their freshness and safety bounds (backend/internal/controlplane/crypto_rates.go:28-49, 83-163).
- SQL text, vault encryption and JSON: tables are maps, documents are records.
