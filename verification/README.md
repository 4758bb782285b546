# Shopify and KiotViet synchronization: a Dafny model

This project models the parts of the synchronization service in which a mistake costs money or
creates a second invoice, order or refund, and proves what they promise.

- **Invoice index** (`invoice_list`, `invoice_index`, `invoice_index_runner`). A local table mirrors
  a remote list that is readable only by offset, grows at its end and loses rows anywhere. Any number
  of runners advance one checkpoint row with optimistic guards. Runs of the transition system cover
  every interleaving of statements, page reads, creates and deletes; the class `IndexDatabase` holds
  the imperative page loop, the binary-search reposition and the guarded statements, and each of its
  methods is proved to be a run of that system.
- **Invoice lookup** (`invoice_absence`, `invoice_lookup`, `floor_path`). When "this order has no
  invoice" is a proof: through a confirmed index, or through a newest-first scan down to the id floor
  that the claim of the order recorded.
- **Refund, invoice and order protocols** (`refund_protocol`, `return_sync`, `invoice_protocol`,
  `invoice_recovery`, `order_protocol`, `order_sync`). Row state machines with claim tokens, leases,
  requests whose outcome is unknown, and workers that may stop between any two statements. The
  `*_protocol` modules prove safety over all runs of any number of workers; the classes next to them
  are the imperative flows of one worker, interleaved with arbitrary steps of all others.
- **Product-only money** (`refund_adjustments`, `refund_meaning`, `merchandise`, `invoice_plan`,
  `plan_meaning`, `invoice_audit`, `creation_agreement`, `invoice_verification`), in integer cents: what
  refunds leave of a line, prices and payments of the order, the audit with its unit prices and
  differences, the plan that reads them, the agreement of both with the order as created, and the check
  of the invoice that was read back. The `*_meaning` modules count the same things afresh over the
  refund items, fulfillments, lines and details themselves.
- **Allocations and encodings** (`greedy`, `refund_sources`, `return_allocation`, `product_families`,
  `bits`, `base32`, `base32_text`). Base32 is that of section 6 of RFC 4648 without padding.

## Premises

- The remote invoice list is sorted by id when asked to be, ids are allocated increasingly and never
  reused, and an invoice's order code never changes. A page read is one atomic snapshot. Every database
  statement and every remote read happens at its own instant of the database clock.
- A request is applied at most once, at any time after its mark, or never. An error the code treats as a
  definite rejection means that the request was not applied and never will be.
- The invoice theorems name two hypotheses on runs: `ResetsWereSettled`, and `ChecksWereSound`, that a
  second lookup which calls itself complete misses no invoice that existed from its start to its end.
  The invoice lookup modules prove when the code may call a lookup complete. Only this application
  posts invoices for the order.
- The order claim reads its row without a row lock (`lib/sync/order-sync.ts:532`) while the mark runs
  outside the advisory lock (`lib/sync/order-sync.ts:761`). The claim transaction is modelled as one
  atomic step. The invoice claim is one upsert and the return claim locks its row, so they need no such
  premise.
- Leases and clock readings of the refund and invoice protocols are arbitrary numbers; nothing proved
  about them rests on timing.

## Where the code does less than it says

- A lookup reads the index again only when the final count exceeds the count of its snapshot
  (`lib/kiotviet/invoices.ts:139`). A reposition during the refresh lowers the count, so new rows can be
  indexed and not looked at. `AbsenceIsProven` therefore assumes that the count grew or that no
  reposition and no reset happened; `RepositionHidesAnInvoice` is a reachable run in which a complete
  lookup misses an invoice. `MissedExactlyWhenAppendedUnread` says exactly when that happens, and
  `MissedExactlyWhenDeletionsOutweigh` says it of the remote list: no more invoices lie above the
  last indexed id than were deleted below it.
- The order recovery searches for an existing order before it checks that the recovery window of an
  uncertain create has closed (`lib/recovery/shopify-order-recovery.ts:195` and `:248`). A create applied
  between the two is not seen, and the requeue makes a second order: `EarlySearchMakesTwoOrders`.
  `AtMostOneOrder` assumes that the search was made after the window, and
  `RequeueIsSafeExactlyWhenNothingExists` gives the exact condition for a requeue.
- A run that requeues as early makes a report false: a verification that had found the order says it was
  recovered, although its guarded update matched nothing and the row names no order
  (`lib/sync/order-sync.ts:646-652`): `RecoveredReportCanBeFalse`. The contract of `VerifyUncertain` says
  exactly when the row names the order afterwards; under the premises of `AtMostOneOrder` it always does.
- `mapping_changed` is reported for an order that a verification linked correctly a moment earlier
  (`lib/sync/order-sync.ts:795-803`): `ChangedReportCanBeFalse`. The order is reported as created exactly
  when the row was still creating under this claim.
- The invoice reset is safe exactly when no POST is in flight: `ResetIsSafeExactlyWhenSettled`.
- The second lookup is all that protects the POST: with every reset settled, one complete lookup that
  misses an invoice makes two of them, `UnsoundCheckMakesTwoInvoices`, and the pass is safe exactly when
  the order has no invoice, `PassIsSafeExactlyWhenNothingExists`.
- The line check of a read-back invoice accepts nothing but the expected lines if and only if no two
  expected lines are identical: `CheckIsExactForDistinctLines`. The planner's lines have one line per
  product (`ExpectedLines`); the lines of the order path are those of the order details, which may repeat.
- After a successful POST the recovery reports "ID saved" without looking whether its guarded update
  matched a row (`lib/recovery/kiotviet-invoice-recovery.ts:646-664`). `SavedReportCanBeFalse` is a run in
  which another worker took the row over to link that invoice and no id is saved; `Saves`, in every report
  of `InvoiceRecovery`, says that the id is on the row exactly when the claim was still held or it was
  there already.

## Model

| member | source | states |
|---|---|---|
| InvoiceList.OverlapRowMatches | lib/kiotviet/invoice-index.ts:159-160 | The re-read row is the last indexed invoice exactly when that invoice still exists and as many invoices remain up to it as were scanned |
| InvoiceList.PageIsGapFree | lib/kiotviet/invoice-index.ts:144-147 | A page by offset of the sorted list holds everything between its first and last row, and the end of the list once it reaches the total |
| InvoiceIndex.AcceptedPageCovers | lib/kiotviet/invoice-index.ts:159-183 | An accepted page extends the covered prefix whatever checkpoint it is saved over, and a page that reaches the total covers everything created before its request |
| InvoiceIndex.StepKeepsInv | lib/kiotviet/invoice-index.ts:73-226 | Every statement, page read, probe, remote change and forget keeps what all runners hold usable, stale records included |
| InvoiceIndex.Coverage | lib/kiotviet/invoice-index.ts:134-226 | In every run, every existing invoice up to last_invoice_id and every existing invoice created by current_as_of has its index row |
| InvoiceIndex.ProbeKeepsSearch | lib/kiotviet/invoice-index.ts:105-111 | On a list that changes between probes the id found below the boundary never exceeds the one searched for |
| InvoiceIndex.OrderedRemoteIsNeverDisordered | lib/kiotviet/invoice-index.ts:169-179 | While the remote list is sorted no page ever triggers the full rebuild |
| InvoiceIndexRunner.RepositionIsExact | lib/kiotviet/invoice-index.ts:100-127 | On an unchanging list below 2^22 invoices the search stays within 22 requests and finds the number of remaining ids up to the last indexed one and the greatest of them |
| InvoiceIndexRunner.StillRoundProgress | lib/kiotviet/invoice-index.ts:139-188 | On an unchanging list every page brings the end closer, a page is refused exactly when the checkpoint is not aligned, and that happens at most once |
| InvoiceIndexRunner.UsableIndexNeedsSixPages | lib/kiotviet/invoice-index.ts:303-327 | A usable index whose remote list is unchanged since its last page is confirmed within 6 pages |
| InvoiceIndexRunner.ExaminePage | lib/kiotviet/invoice-index.ts:158-183 | The loop over a page reaches the verdict the transition system gives it |
| InvoiceIndexRunner.IndexDatabase.SavePage | lib/kiotviet/invoice-index.ts:201-226 | Checkpoint and rows are written together exactly when generation and count still match, otherwise nothing is |
| InvoiceIndexRunner.IndexDatabase.ResetIndex | lib/kiotviet/invoice-index.ts:73-80 | The checkpoint is emptied exactly when the generation still matches; indexed rows stay |
| InvoiceIndexRunner.IndexDatabase.MoveCheckpoint | lib/kiotviet/invoice-index.ts:117-122 | The checkpoint moves to the position found exactly when it is still the one the search began from |
| InvoiceIndexRunner.IndexDatabase.Reposition | lib/kiotviet/invoice-index.ts:100-127 | The search is a run of the system whatever happens between probes, and on a quiet list it ends where the reference search does |
| InvoiceIndexRunner.IndexDatabase.Advance | lib/kiotviet/invoice-index.ts:134-190 | The page loop is a run of the system; it reports current only right after its own confirming save; on a quiet list it confirms the index within its page budget and repositions at most once |
| InvoiceAbsence.NoGrowthMeansNothingAppended | lib/kiotviet/invoices.ts:138-140 | Without reposition or reset an equal or lower count means that no row was added since the snapshot |
| InvoiceAbsence.AbsenceIsProven | lib/kiotviet/invoices.ts:135-141 | If the count grew or the checkpoint was undisturbed, every invoice of the order that existed at the snapshot and still exists is a candidate, whichever runner confirmed the index |
| InvoiceAbsence.MissedExactlyWhenAppendedUnread | lib/kiotviet/invoices.ts:139-140 | A confirmed lookup is right if and only if the count grew or no existing invoice of the order was first indexed after its snapshot |
| InvoiceAbsence.MissedExactlyWhenDeletionsOutweigh | lib/kiotviet/invoices.ts:138-140 | In terms of the remote list the confirming page was read from: the lookup is right if and only if that list had more invoices above the last indexed id than it had lost below it, or nothing of the order was unread |
| InvoiceAbsence.BeforeLookupIsReachable | lib/kiotviet/invoice-index.ts:134-190 | The state in which the counterexample starts is reached from an empty index |
| InvoiceAbsence.RepositionHidesAnInvoice | lib/kiotviet/invoices.ts:139-140 | A run in which a complete lookup misses an invoice that existed before it began |
| InvoiceLookup.FloorIsBelowTheOrdersInvoices | lib/sync/order-sync.ts:79-84 | A floor recorded while the order has no invoice lies below the id of every invoice the order ever gets |
| FloorPath.RecordedFloorIsBelow | lib/sync/order-sync.ts:79-84 | From claim to lookup: whatever claims, requeues and links led to the row, the floor it carries lies below every invoice of the order it names |
| InvoiceLookup.PageIsSeen | lib/kiotviet/invoice-index.ts:280-298 | One newest-first page carries the scan down without a gap, to the floor, or to the end of the list |
| InvoiceLookup.ScanAboveFloor | lib/kiotviet/invoice-index.ts:261-301 | A complete scan returned every invoice above the floor that existed from its first page to its last, whatever was inserted or deleted meanwhile; on a list that stays still it is complete exactly when the newest 496 invoices are all there are or go down to the floor |
| InvoiceLookup.IndexPath | lib/kiotviet/invoice-index.ts:368-388 | A reused or fetched confirmation that started no earlier than the lookup finds every invoice of the order; on a list that stays still it is complete whenever its pages suffice, and rows are read again exactly when the list holds more than was counted |
| InvoiceLookup.CurrentInvoices | lib/kiotviet/invoices.ts:184-198 | The re-read keeps every candidate that still exists for the order and nothing of another order or of what is gone |
| InvoiceLookup.FindInvoicesForOrder | lib/kiotviet/invoices.ts:108-161 | A complete lookup by floor, with a grown count, or over an undisturbed checkpoint returns every invoice of the order that existed at its start and still exists. On a list that stays still it is complete when the index or the floor is within reach, by the path the lag prefers, and by the index path it returns exactly the invoices of the order if and only if the list grew or each of them had a row or a recorded id |
| InvoiceLookup.AlignedIndexSeesAll | lib/kiotviet/invoices.ts:137-140 | Over a checkpoint that names its place in the list that condition always holds |
| RefundProtocol.StepKeepsInv | lib/sync/return-sync.ts:111-283 | Every claim, read, mark, send, answer, release and crash keeps: a row that is absent, processing or failed has no refund applied or in flight |
| RefundProtocol.AtMostOneRefund | lib/sync/return-sync.ts:20-28 | At most one refund of a return is ever applied, and no other request can still be |
| RefundProtocol.RecordedRefundExists | lib/sync/return-sync.ts:195-213 | A refund id on the row names the one refund that exists, and a refunded row has one |
| RefundProtocol.SendingIsNeverResent | lib/sync/return-sync.ts:149-161 | A sending row is never processed again; it fails only by a rejection that left no refund |
| RefundProtocol.ClosedRowIsFinal | lib/sync/return-sync.ts:143-144 | A refunded row or one under review never changes again |
| RefundProtocol.RefundIsNeverForgotten | lib/sync/return-sync.ts:176-181 | Once a refund exists the row stays sending or closed for ever |
| RefundProtocol.UnsavedRefundIsLinked | lib/sync/return-sync.ts:201-216 | After a crash between refund and save the next admitted claim that sees the refund closes the row with it and sends nothing |
| RefundProtocol.CleanRunRefunds | lib/sync/return-sync.ts:254-282 | An undisturbed worker over a free row with nothing sent makes exactly its refund and saves it |
| RefundProtocol.ClaimsEndWithTheirWorkers | lib/sync/return-sync.ts:173-183 | A worker that has ended holds no claim |
| ReturnSync.RefundDatabase.Reconcile | lib/sync/return-sync.ts:195-230 | Several refunds with the note need a person, a single one is linked with the comparison of its amount, none after an earlier attempt waits inside the verification window and needs a person after it; only then is sending considered |
| ReturnSync.RefundDatabase.SyncReturn | lib/sync/return-sync.ts:122-283 | A request that is sent refunds exactly what was returned and exactly the expected money, with no suspicious refund on the order; a refund that is reported is the only one; the row decides done, review and busy; the claim is gone at the end. Undisturbed over a row for which nothing was sent it makes and saves the refund exactly when a request can be prepared |
| ReturnSync.Prepare | lib/sync/return-sync.ts:231-252 | A request is prepared exactly when nothing is suspicious, something was returned that its lines can give back, and the payments cover the expected money; it grants exactly the returned quantities and exactly the expected cents |
| ReturnSync.ClassifyOthers | lib/sync/return-sync.ts:74-91 | A person is needed exactly when a refund that belongs to no other return has a returned SKU, or is money alone from the day before the return on |
| InvoiceProtocol.StepKeepsInv | lib/recovery/kiotviet-invoice-recovery.ts:524-667 | Every step of workers, jobs and operators keeps at most one invoice or POST in flight, provided a reset comes after its POST settled and a second lookup that passes is sound |
| InvoiceProtocol.AtMostOneInvoice | lib/recovery/kiotviet-invoice-recovery.ts:517-523 | No run that keeps the two named hypotheses makes two invoices for one Shopify order, with takeovers, crashes, uncertain POSTs, deletions and linking included |
| InvoiceProtocol.SentOnlyWithoutInvoice | lib/recovery/kiotviet-invoice-recovery.ts:588-622 | A POST leaves only while the order has no invoice, no other POST in flight and no saved id |
| InvoiceProtocol.SavedInvoiceIsFinal | lib/sync/invoice-sync.ts:156-159 | A saved invoice id is never replaced or lost and no POST is sent after it |
| InvoiceProtocol.CleanRunInvoices | lib/recovery/kiotviet-invoice-recovery.ts:585-666 | An undisturbed run over a failed row without an invoice makes one, saves its id and verifies it |
| InvoiceProtocol.ResetIsSafeExactlyWhenSettled | lib/recovery/kiotviet-invoice-recovery.ts:530-539 | After an operator reset no run can make a second invoice if and only if no POST was in flight |
| InvoiceProtocol.PassIsSafeExactlyWhenNothingExists | lib/recovery/kiotviet-invoice-recovery.ts:592-607 | After the second lookup passed under a held claim no run can make a second invoice if and only if none existed |
| InvoiceProtocol.UnsoundCheckMakesTwoInvoices | lib/recovery/kiotviet-invoice-recovery.ts:592-607 | A run from an empty system with one second lookup that misses an invoice ends with two |
| InvoiceProtocol.SavedReportCanBeFalse | lib/recovery/kiotviet-invoice-recovery.ts:646-664 | A run from an empty system, with every hypothesis kept, after which the id reported as saved is on no row |
| InvoiceProtocol.CreationClaimsExactly | lib/recovery/kiotviet-invoice-recovery.ts:555-563 | A creation gets the row exactly when there is none, or it is as planned, without invoice, and failed, blocked or claimed more than five minutes ago |
| InvoiceProtocol.StoppedWorkerIsReplaced | lib/recovery/kiotviet-invoice-recovery.ts:555-563 | After a worker that stopped with its claim another one makes and saves the invoice |
| InvoiceRecovery.InvoiceDatabase.PlanInvoice | lib/recovery/kiotviet-invoice-recovery.ts:381-410 | Linking is planned exactly for a single active invoice; a reset exactly when a complete lookup shows nothing, the row is uncertain and old, and it was asked for; a creation exactly when it shows nothing, the row is neither uncertain nor freshly claimed, and there are no reasons |
| InvoiceRecovery.InvoiceDatabase.CheckAgain | lib/recovery/kiotviet-invoice-recovery.ts:587-613 | Every exit before the mark leaves nothing sent and, unless the release itself fails, no row waiting under this claim; or the invoice that appeared is linked |
| InvoiceRecovery.InvoiceDatabase.SettleUncertain | lib/recovery/kiotviet-invoice-recovery.ts:687-730 | Searching after an unknown outcome never sends; what it reports as linked or saved is on the row |
| InvoiceRecovery.InvoiceDatabase.ApplyPlan | lib/recovery/kiotviet-invoice-recovery.ts:524-667 | The planned action is applied and its report is exact: nothing sent means that no POST of this run is or will be applied and, when mark and release went through, that the row does not wait for it; linked means that the row carries the invoice; saved, that it does if and only if the claim was held or it did already |
| InvoiceRecovery.InvoiceDatabase.Recover | lib/recovery/kiotviet-invoice-recovery.ts:182-405 | The same for a whole recovery run from reading the row to its report. Undisturbed it creates and saves the invoice of an order without one when nothing was sent and there are no reasons, blocks while an attempt is young or its outcome unknown, resets an old unknown one on request, and links a single active invoice |
| OrderProtocol.FloorPrecedesItsOrder | lib/sync/order-sync.ts:567-578 | In every run a row that names an order and carries a floor got the floor before that order was created |
| OrderProtocol.StepKeepsSafeInv | lib/sync/order-sync.ts:523-803 | Every step keeps at most one order or create in flight, under the two timing premises |
| OrderProtocol.AtMostOneOrder | lib/sync/order-sync.ts:68-77 | No run of workers and recoveries makes two KiotViet orders for one Shopify order |
| OrderProtocol.CreatingIsLeftOnlyBy | lib/sync/order-sync.ts:760-803 | In every run a creating row is left only by a definite rejection of its own claim, an order that exists, or a requeue that read this very row and whose recovery window has closed |
| OrderProtocol.ClaimIsKept | lib/sync/order-sync.ts:538-542 | In every run a claim keeps its row for 15 minutes: until then only its own worker moves it on, or an order that exists is linked |
| OrderProtocol.LinkedOrderIsFinal | lib/recovery/shopify-order-recovery.ts:277-290 | In any run the order of a linked row is never replaced |
| OrderProtocol.RecoveredIsLinkedUnderThePremises | lib/sync/order-sync.ts:646-664 | Under the premises of AtMostOneOrder a row names the order that a verification reports as recovered |
| OrderProtocol.RecoveredReportCanBeFalse | lib/sync/order-sync.ts:646-664 | A run in which it names none, because the uncertain row was requeued meanwhile |
| OrderProtocol.ChangedReportCanBeFalse | lib/sync/order-sync.ts:795-803 | A run that keeps every premise in which the mapping is reported as changed although the row names the order just created |
| OrderProtocol.CleanRunLinksTheOrder | lib/sync/order-sync.ts:760-803 | An undisturbed worker over a row it may claim makes the order and links it, with a floor older than the order |
| OrderProtocol.RequeueIsSafeExactlyWhenNothingExists | lib/recovery/shopify-order-recovery.ts:297-316 | After requeueing an uncertain row no run can make two orders if and only if no order existed and no create was in flight |
| OrderProtocol.EarlySearchMakesTwoOrders | lib/recovery/shopify-order-recovery.ts:194-249 | A run that keeps every timing promise and still makes two orders, because the search ran while the window was open |
| OrderSync.OrderDatabase.ClaimOrder | lib/sync/order-sync.ts:523-580 | Case by case over the row, the settings and the order which decision is made, unpaid orders included; a claim has sent nothing |
| OrderSync.OrderDatabase.VerifyUncertain | lib/sync/order-sync.ts:639-678 | Unless it fails: an order that exists is recovered, otherwise the row waits five minutes and is then parked. After it found an order the row names it if and only if the row was uncertain and unlinked, or named it already, and in the first case the floor is cleared |
| OrderSync.OrderDatabase.CreateOrder | lib/sync/order-sync.ts:680-803 | The request carries the prepared lines and the merchandise as payment, or none for an unpaid order; it was sent unless the report says that nothing was, and then the claim is released when release and mark went through; created is reported exactly when the row was still creating under this claim |
| OrderSync.OrderDatabase.SyncOrder | lib/sync/order-sync.ts:508-611 | Case by case over the row, the settings and the order which outcome is reported, and truly about this worker's own request, its claim and the row. Undisturbed over a free row it creates exactly the orders that are wanted, clear of ambiguous refunds, not empty and mapped, with their lines and payment |
| RefundAdjustments.CollectedIsTheTotal | lib/sync/product-only-invoicing.ts:127-147 | What the two-level deduplication collects adds up to the total over the set of refunds |
| RefundAdjustments.AdjustLine | lib/sync/product-only-invoicing.ts:157-208 | A line loses its whole refunded quantity or, exactly when its refunds are ambiguous, none of it |
| RefundAdjustments.AdjustmentIsSound | lib/sync/product-only-invoicing.ts:99-121 | Remaining and excluded units are the ordered ones, within bounds; shipped units are never excluded; a clean line keeps Shopify's current quantity |
| RefundAdjustments.EveryLineIsAdjusted | lib/sync/product-only-invoicing.ts:155-209 | With one line per id every line has its own adjustment |
| RefundAdjustments.BlockingLinesAreListed | lib/sync/product-only-invoicing.ts:156-196 | Exactly the ambiguous lines are listed as blocking |
| RefundAdjustments.SameRefundsSameResult | lib/sync/product-only-invoicing.ts:118-119 | Repeated or reordered delivery of the same refunds changes no adjustment and no blocking line |
| RefundAdjustments.ComputeRefundAdjustments | lib/sync/product-only-invoicing.ts:122-211 | The loops compute the adjustment of every line and the blocking lines in order |
| RefundMeaning.AdjustmentFromItsItems | lib/sync/product-only-invoicing.ts:157-208 | The whole adjustment counted afresh over the items of the line: it is blocked exactly for contradictory data or, under the careful policy, for returned units, unproven ones, or more shipped units than the rest; otherwise all its refunded units and their money leave it |
| RefundMeaning.NothingIsLost | lib/sync/product-only-invoicing.ts:127-147 | When nothing is delivered twice every item with a positive quantity is counted |
| RefundMeaning.OneFulfillment | lib/sync/product-only-invoicing.ts:149-153 | A successful fulfillment adds exactly its units of the line wherever it stands, any other none |
| RefundMeaning.FailedFulfillmentChangesNothing | lib/sync/product-only-invoicing.ts:149-153 | A fulfillment that did not succeed changes no adjustment |
| RefundMeaning.ShippedUnitsStay | lib/sync/product-only-invoicing.ts:190-191 | Under the careful policy, for a line that is not ambiguous, its units over all successful fulfillments and the excluded ones are at most the ordered ones |
| Merchandise.UnitPriceIsExact | lib/sync/product-only-invoicing.ts:62-72 | A unit price exists exactly when the discounted line is a whole number of cents per ordered unit, and loses nothing |
| Merchandise.RoundedIsNearest | lib/sync/order-sync.ts:325 | A prorated amount is the nearest whole cent, halves upwards |
| Merchandise.PrepareLines | lib/sync/order-sync.ts:159-213 | The prepared lines are the ones with remaining units, or the error is that of a line which cannot be sent |
| Merchandise.PrepareOrder | lib/sync/order-sync.ts:168-208 | Refund adjustments and line preparation together |
| Merchandise.PreparedWithinOrdered | lib/sync/order-sync.ts:174-175 | Whatever the refunds are, a line keeps between none and all of its ordered units |
| Merchandise.PreparedIsWhatRemains | lib/sync/order-sync.ts:174-175 | A line is sent with exactly what its own refunds leave of it, and not at all when they leave nothing |
| InvoicePlan.TallyExpected | lib/recovery/kiotviet-invoice-recovery.ts:244-256 | The expected map sums quantities per product at the audited unit price or the list price, and flags exactly the unmapped lines and the products with two prices |
| InvoicePlan.PlanReasons | lib/recovery/kiotviet-invoice-recovery.ts:242-311 | Every reason is reported if and only if it applies to the order as read back, given the unit prices of the audit |
| PlanMeaning.NoReasonMeansTheOrder | lib/recovery/kiotviet-invoice-recovery.ts:242-311 | No reason is reported exactly when every line is mapped at one price per product, the details carry of each product all its units, undiscounted and last at its price, and nothing else, without surcharge, and the total is the value of the lines |
| PlanMeaning.TotalIsReportedWhen | lib/recovery/kiotviet-invoice-recovery.ts:305-310 | The total is reported exactly when it is neither the value of the lines nor, where mismatches are ignored, that value and a positive surcharge |
| CreationAgreement.CreatedAtTheExpectedPrice | lib/sync/order-sync.ts:221-229 | With one line per id the planner's lookup in the audited prices finds the price the line was created with |
| CreationAgreement.CreatedOrderPlansCleanly | lib/recovery/kiotviet-invoice-recovery.ts:242-311 | Planned with the unit prices of its audit, an order finds no line, quantity, price, surcharge or total reason on the order created from it exactly when each product has one price |
| CreationAgreement.PlannedTotalIsTheAudited | lib/sync/invoice-financials.ts:177-195 | The value of the planned products is the merchandise of the audit |
| InvoicePlan.PaidIsTheDetailsTotal | lib/sync/order-sync.ts:245-271 | With representable discounts the payment sent is the sum over the order details |
| InvoicePlan.PaymentDecidedByInheritance | lib/sync/product-only-invoicing.ts:243-265 | Then the payment decision depends only on the order being paid for, a payment being there, and its inheritance being verified or accepted |
| Merchandise.SafeMeansPrepaid | lib/sync/product-only-invoicing.ts:243-265 | The invoice may be made exactly when the payment is its total, not zero, and verified or accepted to be inherited |
| InvoiceAudit.RecordCharges | lib/sync/invoice-financials.ts:199-229 | Each kind of charge is recorded in full when the policy excludes it and blocks exactly when present and not excluded |
| InvoiceAudit.SumRefunds | lib/sync/invoice-financials.ts:238-245 | Refunded money is the sum over the set of refunds, however often each was delivered |
| InvoiceAudit.EvaluateProductOnly | lib/sync/invoice-financials.ts:145-269 | Every reason is reported if and only if it applies to the order. Without reasons each category is recorded in full: cancelled units, shipping with its added tax, fees, tip, other charges, refunds, and what was paid against the invoice; they explain Shopify's total, and at least the invoiced merchandise was kept |
| InvoiceAudit.PriceOfALine | lib/sync/invoice-financials.ts:177-194 | With one line per id the audited prices hold exactly the unit price of every remaining line that has one |
| InvoiceAudit.InvoicedIsThePrepayment | lib/sync/order-sync.ts:317-326 | The audited merchandise is the payment the order was sent with |
| InvoiceVerification.LinesCheck | lib/sync/invoice-sync.ts:180-184 | The check passes when both sides have lines, equally many, and every expected line has an undiscounted match |
| InvoiceVerification.LinesAreExactlyTheExpected | lib/sync/invoice-sync.ts:180-184 | With distinct expected lines the check passes exactly when invoice and expectation are equal as multisets |
| InvoiceVerification.CheckIsExactForDistinctLines | lib/sync/invoice-sync.ts:180-184 | The check accepts nothing but the expected lines if and only if no two of them are identical |
| InvoiceVerification.RepeatedLineHidesAnother | lib/sync/invoice-sync.ts:180-184 | For any repeated line, an invoice with another line that the check accepts |
| InvoiceVerification.ExpectedLines | lib/recovery/kiotviet-invoice-recovery.ts:296 | The planner's expected lines have one line per product |
| InvoiceVerification.VerifyStock | lib/sync/invoice-sync.ts:65-73 | Stock is verified exactly when every expected product moved by exactly its expected units |
| InvoiceVerification.FinalizeProductOnly | lib/sync/invoice-sync.ts:160-261 | The status becomes created exactly when branch, order code, completion, approved reasons, lines, total, surcharges and stock all agree |
| InvoiceVerification.CreatedMeansDelivered | lib/sync/invoice-sync.ts:174-260 | Under a created status with distinct expected lines the invoice has exactly these and the stock of each product fell by all its invoiced units |
| Greedy.GrantsTotal | lib/sync/return-sync.ts:53-61 | Granting in order gives what was wanted, or everything there is when that is less |
| Greedy.GrantsAreGreedy | lib/sync/return-sync.ts:56-61 | Items are served in order, each in full except possibly the last, none twice and none above its capacity |
| RefundSources.AllocateRefund | lib/shopify/orders.ts:72-86 | The allocation sums to exactly the requested cents and fails exactly when successful sales and captures, less the successful refunds of each, cannot cover them, naming what is there |
| RefundSources.RefundStaysWithinPayments | lib/shopify/orders.ts:83 | No payment gives more than is left on it after earlier refunds, and none is passed over |
| RefundSources.GrantsAreTaken | lib/shopify/orders.ts:76-83 | Refunds are taken from successful sales and captures, each within what its own refunds leave, and in full up to the last |
| ReturnAllocation.CandidatesAreTheSkusLines | lib/sync/return-sync.ts:52 | The candidates of a SKU are exactly its lines, ordered by id |
| ReturnAllocation.AllocationIsExact | lib/sync/return-sync.ts:49-64 | Each SKU gets exactly its wanted units, no line more than is refundable on it, and no line appears twice |
| ReturnAllocation.MatchReturnLines | lib/sync/return-sync.ts:42-64 | It succeeds exactly when every quantity is a positive whole number and the lines of every SKU can give back all of it; then of each SKU exactly the returned quantity is granted |
| ProductFamilies.VariantAndRootShareAKey | lib/queue/product-sync-batches.ts:22-28 | A variant and the root it names have the same key |
| ProductFamilies.FamilyAcrossCalls | lib/queue/product-sync-batches.ts:22-28 | They have it in different calls as well when the root says that it has variants |
| ProductFamilies.StandsAlone | lib/queue/product-sync-batches.ts:22-28 | A product has a key of its own exactly when it names no root, has no variants and is no root |
| ProductFamilies.KeysSeparateFamilies | lib/queue/product-sync-batches.ts:22-28 | Products with the same key are the same product or of one family |
| ProductFamilies.ConflictingSkus | lib/queue/product-sync-batches.ts:36-48 | A SKU conflicts exactly when two different products carry it |
| ProductFamilies.SelectCandidates | lib/queue/product-sync-batches.ts:30-73 | The candidates are the first selectable products of their unseen keys in order; every selectable key is seen afterwards; candidates and skipped are all products |
| ProductFamilies.FirstsAreDistinct | lib/queue/product-sync-batches.ts:63-71 | Candidates have pairwise different keys, none of them seen before |
| ProductFamilies.EveryFamilyOnce | lib/queue/product-sync-batches.ts:54-72 | A key gets a candidate exactly when it was not seen and has a selectable product |
| ProductFamilies.SoldFamiliesAreSynced | lib/queue/product-sync-batches.ts:14-73 | A key gets a candidate exactly when it was not seen and has a product that is active, for sale, and alone with its SKU; every candidate is such a product |
| Bits.DigitsOfVal | lib/auth/totp.ts:5-19 | A digit string is the only one of its length that stands for its number |
| Bits.SplitOnce | lib/auth/totp.ts:9-16 | A number is its shifted high part plus its low bits in only one way, so shifts and masks are exact |
| Base32.WrapShift | lib/auth/totp.ts:10 | Shifting bits into the wrapped accumulator wraps the unbounded one |
| Base32.WrapField | lib/auth/totp.ts:13 | A field of the wrapped accumulator is that field of the unbounded bit stream |
| Base32.EncodeDigits | lib/auth/totp.ts:5-19 | With an accumulator of 12 bits or more, 32 in the code, the loop produces the digits of the whole byte string read as one number, zero bits padded on the right |
| Base32.DecodeDigits | lib/auth/totp.ts:23-38 | The loop produces the whole bytes of the digit string read as one number |
| Base32.DecodeInvertsEncode | lib/auth/totp.ts:5-38 | Decoding the digits of a byte string gives the byte string back |
| Base32Text.EncodeBase32 | lib/auth/totp.ts:5-19 | The text is the letters of the digits |
| Base32Text.DecodeBase32 | lib/auth/totp.ts:21-38 | A foreign character and a text too short for a byte are errors; anything else decodes to its bytes |
| Base32Text.SmallLettersDecodeAsCapitals | lib/auth/totp.ts:22 | Each of the 26 small letters decodes anywhere as its capital does |
| Base32Text.SeparatorsAreIgnored | lib/auth/totp.ts:22 | White space, equal signs and hyphens anywhere make no difference |
| Base32Text.ForeignCharactersAreRefused | lib/auth/totp.ts:26-28 | Any other printable character anywhere is an error |
| Base32Text.LowerCaseRoundTrip | lib/auth/totp.ts:5-38 | An encoded secret in small letters decodes to its bytes |
| Base32Text.RoundTrip | lib/auth/totp.ts:5-38 | decodeBase32 of encodeBase32 gives back every byte string except the empty one, which is an error |

## Left out

- In-process joining and queueing of index refreshes: `AbsenceIsProven` holds for a confirmation by any runner, so joined and queued refreshes are covered without modelling the shared promises.
- The maintenance lease of the index, the recording of error texts on the checkpoint row and malformed pages other than as failed reads.
- InvoiceLookup.FindInvoicesForOrder: the quantity of candidates, timings and the order-filter request are not modelled; the filter's ids enter as a parameter that proves nothing.
- The legacy path that asks KiotViet to create an invoice together with the order, staff-made invoices and the manual order link; they are premises of the protocols.
- InvoiceProtocol.AtMostOneInvoice: a cancelled invoice counts as existing; an invoice that was deleted in KiotViet does not.
- InvoiceRecovery.InvoiceDatabase.PlanInvoice: the financial and line reasons enter as one flag, because `InvoicePlan` and `InvoiceAudit` prove when they arise.
- InvoiceRecovery.InvoiceDatabase.Recover: the same flag; branch, seller and stock readings before the plan are not modelled.
- OrderProtocol.EarlySearchMakesTwoOrders: the check that no job of the order may still run, which the recovery makes after the window check, is not modelled; the run is one whose first job has used up its attempts.
- ReturnSync.RefundDatabase.SyncReturn: the lookups before the claim are inputs, and dates that cannot be parsed are absent ones; the note that identifies a refund as this return's own is taken to be exact.
- OrderSync.OrderDatabase.CreateOrder: the request of product-only mode; the strict request with list prices, surcharges and the adjusted Shopify total is not modelled.
- InvoiceVerification.FinalizeProductOnly: a validation reason is its code; cutting the text at the colon is not modelled.
- Strict (not product-only) invoice rules, the manual override proposal and surcharge handling outside product-only mode: shallow case analysis.
- Payment checks of strict invoices in the read-back verification, and the informational payment discrepancies of product-only ones.
- Money as floating point: amounts are integer cents, and a division by 100 followed by rounding to cents is the identity.
- Unicode in Base32 input: upper-casing and white space are those of ASCII.
- One-time codes beyond Base32: the keyed hash and its truncation.
- HTTP clients, queues, token caches, GraphQL documents, logs, metrics and SQL text; every statement is a guarded atomic step and every request an environment action.
- Inventory push, product, media, category and customer synchronization, sessions and the user interface.
