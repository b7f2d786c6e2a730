# Verified model of the point-of-sale service

A Dafny model of the point-of-sale service's settlement protocol, till, Fabric outbox, price table and
register cart, with proofs of what they keep. `dafny verify dfyconfig.toml` checks everything.

## What is modelled

**Settlement.** One table of transaction rows is driven by request handlers, pollers, an operator's retry and batch
retries. `Store.dfy` holds the state: rows, till sessions, outbox, the requests on the wire to Sentry, the orders
Sentry holds, and the calls the service is waiting on. `Settlement.dfy` and `Till.dfy` say what each handler writes,
from one commit to its next network call; `Protocol.dfy` makes these the steps of a state machine. A call to Sentry is
two steps, a request sent and an answer heard, with any other steps between them. Sentry may record a request at any
later moment, replays by idempotency key, and its answer may be an error although it recorded the request, or never come
(a crash). `Invariants.dfy` is the invariant, `Writes.dfy`, `Preservation.dfy` and `Settling.dfy` show every step keeps
it, `Evolution.dfy` what any run may do to a row or session, and `Theorems.dfy`, `Payouts.dfy` and `Messages.dfy` the
results: for every reachable state, or every run from one. `Database.dfy`, `CheckoutService.dfy`, `RefundService.dfy`,
`TillService.dfy`, `PollLoop.dfy` and `ReconciliationService.dfy` are the handlers as they run, methods that update
the tables in place, each proved to do exactly what its protocol step says; `ReconciliationService.Perform` ties any
step but the drain's own to its handler.

**Outbox.** `FabricOutbox.dfy` is the outbox table as a state machine with a clock, `OutboxFairness.dfy` bounds how long
an entry is passed over, `OutboxWorker.dfy` is the drain pass as it runs. `Theorems.RunRefinesOutbox` projects every run of
the service onto a run of the outbox, which carries the timing and fairness results over to the whole service.

**Money, prices and cart.** `Money.dfy` has the two rounding rules, `Pricing.dfy` the price table and its two writers,
`Cart.dfy` and `CartStore.dfy` the register's cart, `TaxPreview.dfy` the register's tax against the service's.

## Assumptions

- Commits are atomic and serialisable. A handler runs without interruption from one commit to its next Sentry call.
- The awaits on the card terminal in `charge_card`, `charge_card_refund` and `cancel_checkout` are one step with the
  status read before them. The code does not read the status again after them, so this is an assumption about
  timing; `TerminalAwaits.dfy` proves exactly when each late write is harmless and what it does otherwise: a sale
  cancelled meanwhile comes back paid, a sale completed meanwhile is cancelled with its order and outbox entry in place,
  two overlapping charges send Sentry the sale twice and enqueue it twice, and a refund cancelled meanwhile and
  replaced is paid twice. `LateWitness.dfy` has the runs that get there.
- The amount a terminal's answer names is free. The service asks for the row's total but records the amount answered,
  and never compares the two: `Payouts.PayoutIsTheTotalExactly` proves when a refund's recorded payout is its sale's
  total, and `LateWitness.PaidTooMuch` is a reachable run with 10,000.00 recorded as handed back for a sale of 5.00.
- Sentry honours the idempotency key: one order per key, order numbers not reused.
- There is one drain loop, the clock does not go backwards, and the Fabric writer returns or raises `FabricClientError`.
  After any other exception, or a crash, entries stay IN_FLIGHT and nothing reclaims them.
- The settings (tax rate, refund window, station) are fixed between restarts; a restart with others is a step of the
  protocol, and the state remembers every tax rate the service has run with.
- Rates and prices are exact fractions and finite decimals. Row and line identifiers are fresh naturals; a clash with a
  stored row is refused as a duplicate key.

## Where the code differs from its documentation

- The README says an entry is dead-lettered "at attempt 9"; the code dead-letters on the eighth failure
  (`MAX_ATTEMPTS` is the length of the schedule). The model follows the code.
- The till's docstring and the change log say refund rows store positive totals that are subtracted from the expected
  count. `start_refund` stores negative totals, so a cash refund raises the expected count by what was handed back.
  `Theorems.DrawerLawExactly` proves the documented law holds of a session exactly when its cash-refund tally is
  zero, and `Witness.DrawerLawFails` is a reachable run in which it does not: a sale of 5.00 refunded in cash
  leaves 100.00 in the drawer and 110.00 expected.
- A row completed by a retry is never attributed to a till session, and its outbox payload, built when Sentry had not
  answered, never learns the order number (`Theorems.ReconciledNeverAttributed`).

## Model

| member | source | states |
|---|---|---|
| Theorems.LedgerConservation | pos_service/services/refund.py:126-167 | In every reachable state the totals of all COMPLETE rows, sales and negative refunds, sum to the completed sales that no completed refund is linked to. |
| Theorems.LineLedger | pos_service/services/checkout.py:88-133 | Every row, sale or refund, at any time, through any change of settings: for one tax rate the service has run with, each line total is unit price times quantity plus the tax the rule gives that product, and the lines add up to subtotal, tax and total. |
| Theorems.PricedAtTheStart | pos_service/services/checkout.py:88-128 | Over any run, though prices and rate change later, a sale keeps the lines asked for (each item whole, at the price its SKU had and with the nearest-cent tax at the rate in force when it was started), amounts that are the sums over them, its cashier and terminal, and the second it was started. |
| Theorems.PaymentRecord | pos_service/services/checkout.py:164-194 | In every reachable state a row records a tender exactly when it has been paid, and then one: a cash sale to the cent with non-negative change, a cash refund to the cent, or the card whose reference the row carries. |
| Theorems.RefundExclusion | pos_service/services/refund.py:40-70 | A sale has at most one refund in the blocking states, so at most one of its refund attempts has been paid: what has been handed back over all of them is the amount recorded on that one (and by the refunds' totals the sale's total), or nothing if none is paid. |
| Payouts.PayoutIsTheTotalExactly | pos_service/services/refund.py:347-362 | A refund is paid by one step; over any later run what has been handed back for its sale is the amount that step recorded, and it equals the sale's total if and only if the refund was in cash or the terminal named no amount (or zero) for a sale of non-negative total, or exactly that total. |
| Payouts.TenderIsFinal | pos_service/services/checkout.py:327-372 | Only its own cash payment, or an approved card payment or poll, turns a row paid; its tender is then what that step brought (cash and change, or the terminal's amount, else the total) and stays so over any run. |
| LateWitness.PaidTooMuch | pos_service/services/refund.py:347-362 | A reachable state with one refund of a 5.00 sale and 10,000.00 recorded as handed back. |
| Theorems.RefundNeverReturns | pos_service/services/refund.py:230-238 | Over any run, a refund that has left the blocking states never changes again, and one that is paid stays paid. |
| Theorems.ExactlyOnceAtSentry | pos_service/services/checkout.py:375-440 | Despite lost answers, crashes and overlapping retries: no two transactions share an order, a COMPLETE row carries the order Sentry holds for it, every recorded order is for a paid row and is the request its row would make now, and any two requests with one key are identical. What the request says is the next two rows. |
| Messages.SaleRequestSays | pos_service/services/checkout.py:410-440 | Every sale request on the wire or behind an order at Sentry: subtotal, tax and total are the sums over the lines sent, those lines are the row's field by field, and tender, method, cashier, terminal and reference are the row's. |
| Messages.RefundRequestSays | pos_service/services/refund.py:411-432 | Every refund request: the order number and reference of its completed sale, that sale's amounts negated, and the refund's own tender, method, cashier, terminal and reference. |
| Theorems.OrdersAreFinal | pos_service/services/reconciliation.py:22-68 | No later step replaces the order Sentry holds for a row or the number a COMPLETE row carries. |
| Theorems.OneOutboxEntry | pos_service/services/refund.py:377-408 | A transaction has exactly one outbox entry if Sentry has answered for it (COMPLETE or either inventory-failed status) and none otherwise; the payload agrees with the row, save an order number it may not have. |
| Messages.PayloadSays | pos_service/services/fabric_outbox.py:82-123 | Every payload in the outbox carries its row's identity, kind, parent, cashier, terminal, method and lines, amounts that are the sums over those lines, and the row's order number or none. |
| Theorems.StatusFollowsDiagram | pos_service/services/checkout.py:159-245 | Sale rows hold sale statuses, refund rows refund statuses, and one step changes a status only along an edge of the status diagram. |
| Theorems.FewStatusChanges | pos_service/services/refund.py:170-238 | Over any run, however long, a sale changes status at most five times and a refund at most four. |
| Theorems.TerminalIsFinal | pos_service/services/checkout.py:32-40 | A row in a terminal status keeps it over any run, whatever pollers, retries and handlers do, except that an inventory-failed row may become COMPLETE. |
| Theorems.TillTalliesAreSums | pos_service/services/till.py:229-271 | In every reachable state each session's four running tallies equal the sums and counts over the rows stamped with it. |
| Theorems.StampIsFinal | pos_service/services/till.py:263-271 | A stamp names an existing session and no later step changes or withdraws it. |
| Theorems.OneOpenSession | pos_service/models.py:79-87 | In every reachable state a cashier has at most one OPEN session. |
| Theorems.ClosedSessionIsFinal | pos_service/services/till.py:155-204 | After the close nothing changes the session's record or which rows bear its stamp, and the recorded variance equals counted minus (float plus sales minus refunds) recomputed from those rows at any later time. |
| Theorems.DrawerLawExactly | pos_service/services/till.py:240-251 | The expected count exceeds what the drawer holds (float, plus cash customers left, less cash handed back, read off the recorded tenders) by twice what was handed back, so the documented law holds if and only if the session's cash-refund tally is zero. |
| Theorems.DrawerLawRowByRow | pos_service/services/refund.py:157-159 | Where no sale has a negative total, the law holds of a session if and only if no refund of a non-zero total was paid out in cash from it. |
| Theorems.TalliesAreTheTenders | pos_service/services/refund.py:209-227 | The cash-sales tally is the cash customers left by the recorded tenders, and the cash-refund tally is minus the cash handed back by the recorded payouts. |
| Witness.DrawerLawFails | pos_service/services/till.py:264-270 | A reachable state whose session expects 110.00 while its drawer holds 100.00. |
| Theorems.ReconciledNeverAttributed | pos_service/services/reconciliation.py:35-40 | A row that Sentry first failed to record is never stamped with a session in any continuation, and its outbox payload never carries an order number. |
| Theorems.RunRefinesOutbox | pos_service/services/fabric_outbox.py:126-238 | Every run of the service acts on the outbox as a run of the outbox state machine. |
| Theorems.NoEarlyDlq | pos_service/services/fabric_outbox.py:47-57 | Whatever else the service does, an entry is not dead-lettered in less than 52579 seconds after it was enqueued or last reset. |
| Theorems.DueAsPublishedInService | pos_service/services/fabric_outbox.py:47-57 | In every reachable state a waiting entry is due exactly 0 s, 4 s, 15 s, 1 min, 5 min, 30 min, 2 h or 12 h, by its count of failures, after it was last enqueued, reset or refused. |
| Theorems.BoundedBypassInService | pos_service/services/fabric_outbox.py:147-165 | Over any run of the service, drains that pass over a due entry number at most floor(8m / batch size), m counting the entries created no later that are PENDING or IN_FLIGHT at the start, and any enqueued during the run in the same second. |
| Evolution.RunKeeps | pos_service/services/refund.py:396-408 | Every step of every handler, in any order, keeps the whole invariant. |
| Evolution.RunSince | pos_service/services/checkout.py:383-407 | What any run may do to a row: amounts, cart and parent never change, payment and tenders freeze once paid, rank only rises, stamp and refund link are final. |
| TerminalAwaits.ChargeCardNeedsFreshRow | pos_service/services/checkout.py:197-222 | `charge_card`'s late write respects the status diagram for every reply if and only if the sale is still awaiting payment or in flight when Windcave replies. |
| TerminalAwaits.ChargeCardRefundNeedsFreshRow | pos_service/services/refund.py:170-206 | The same for a card refund: if and only if it is still pending or in flight. |
| TerminalAwaits.CancelNeedsFreshRow | pos_service/services/checkout.py:225-245 | `cancel_checkout`'s late write respects the diagram if and only if the sale is still awaiting payment, in flight or already cancelled. |
| TerminalAwaits.LateChargeKeepsInvariant | pos_service/services/checkout.py:206-222 | The late write of `charge_card` keeps the whole invariant for every reply if and only if the sale is then unpaid and no call of its own is outstanding. |
| TerminalAwaits.LateRefundChargeKeepsInvariant | pos_service/services/refund.py:186-206 | The late write of `charge_card_refund` keeps it for every reply if and only if the refund is then unpaid and no other refund of its sale is blocking. |
| TerminalAwaits.LateCancelKeepsInvariant | pos_service/services/checkout.py:237-245 | The late write of `cancel_checkout` keeps the whole invariant if and only if the sale is then unpaid and no call of its own is outstanding. |
| TerminalAwaits.LateCancelOfCompleteSale | pos_service/services/checkout.py:237-245 | A sale completed while `cancel_checkout` waits is left CANCELLED with its tender, its order at Sentry and its one outbox entry. |
| LateWitness.CompleteSaleCancelled | pos_service/services/checkout.py:225-324 | A reachable sale in flight, a run in which the poller completes it, and the late cancel that then breaks the invariant. |
| TerminalAwaits.OverlappingCharges | pos_service/services/checkout.py:197-222 | Two overlapping approved charges start two first sends of the sale; there are two different requests under its one key if and only if the approvals differ in card, reference or amount. |
| TerminalAwaits.OverlappingChargesAnswered | pos_service/services/checkout.py:375-407 | Even with identical approvals, once both sends are answered the sale has two outbox entries, and if both succeed its cashier's open session has counted it twice. |
| TerminalAwaits.CancelledSaleRevived | pos_service/services/checkout.py:206-222 | From any reachable state: a sale cancelled while `charge_card` waits is PAYMENT_SUCCESS, with the card tender recorded and its request sent, once the terminal approves. |
| TerminalAwaits.LateApprovalKeepsExclusion | pos_service/services/refund.py:197-206 | A late approval keeps refunds of a sale exclusive if and only if no other refund of it is blocking when the approval arrives. |
| TerminalAwaits.LateApprovalPayout | pos_service/services/refund.py:197-206 | After a late approval what has been handed back for the sale is the amount this approval records plus what another paid refund recorded, if there is one; by the refunds' totals it is the sale's total or twice that, so by totals the bound survives if and only if no other refund was paid or the total is zero. |
| TerminalAwaits.RefundPaidTwice | pos_service/services/refund.py:170-238 | Cancel a card refund while its terminal call is out, start and pay another, let the first be approved: both are paid, their totals are twice the sale's, and what has been handed back is the two amounts approved, twice the sale's total when the terminal names no other. |
| LateWitness.PaidTwice | pos_service/services/refund.py:170-238 | A reachable run of one 5.00 card sale after which the late approval leaves 10.00 recorded as handed back. |
| LateWitness.SaleRevived | pos_service/services/checkout.py:197-245 | A reachable state with a CANCELLED sale that the late approval makes PAYMENT_SUCCESS. |
| LateWitness.ChargedTwice | pos_service/services/checkout.py:197-222 | From a reachable state, two charges approved with different references put two different requests with one key on the wire. |
| LateWitness.EnqueuedTwice | pos_service/services/checkout.py:375-391 | From a reachable state, two identical approvals whose sends fail leave two outbox entries for one sale. |
| FabricOutbox.RunKeepsBox | pos_service/services/fabric_outbox.py:180-195 | In every reachable table PENDING and IN_FLIGHT entries have fewer than eight attempts, DLQ entries exactly eight, waits respect the schedule, and the drain's claimed entries are exactly those IN_FLIGHT. |
| FabricOutbox.RunExtends | pos_service/services/fabric_outbox.py:126-144 | Entries are never removed and what they carry never changes. |
| FabricOutbox.AttemptNotBeforeSchedule | pos_service/services/fabric_outbox.py:180-195 | On every schedule of drains, the attempt after k failures comes no earlier than 0, 4, 19, 79, 379, 2179, 9379 or 52579 seconds (k = 0..7) after enqueue or reset. |
| FabricOutbox.WaitsAreAsPublished | pos_service/services/fabric_outbox.py:47-57 | The schedule, entry by entry and in total, in numbers. |
| FabricOutbox.ScheduleStep | pos_service/services/fabric_outbox.py:180-195 | What each step does to an entry's schedule: a refused post counts one failure and dead-letters at the eighth or else sets the next attempt the published delay from now; a reset makes it due now; no other step moves its due time or its count. |
| FabricOutbox.DueAsPublished | pos_service/services/fabric_outbox.py:147-165 | An entry is due if and only if the published delay has passed since it was last enqueued, reset or refused. |
| OutboxWorker.OutboxTable.Enqueue | pos_service/services/fabric_outbox.py:126-144 | One new entry with the payload given, waiting, with no failures, due at once, dated to the second. |
| FabricOutbox.DlqNotBeforeWindow | pos_service/services/fabric_outbox.py:47-57 | An entry in DLQ has failed eight times, and at least 52579 seconds have passed since enqueue or reset. |
| OutboxFairness.BoundedBypass | pos_service/services/fabric_outbox.py:147-165 | Absent resets of its rivals, an entry is passed over by at most floor(8m / batch size) drains, m being the rivals PENDING or IN_FLIGHT at the start plus those enqueued during the run. |
| OutboxFairness.LateRivalsShareTheSecond | pos_service/services/fabric_outbox.py:147-165 | A rival enqueued during the run was created in the same second as the entry, so later business does not add to the bound. |
| OutboxFairness.PassesPaidFor | pos_service/services/fabric_outbox.py:198-238 | The measure behind the bound: attempts left among the rivals fall by a whole batch for each drain that passes the entry over. |
| OutboxFairness.BoundedRetries | pos_service/services/fabric_outbox.py:180-195 | Unless an operator resets it, an entry is claimed at most eight times however long the run. |
| OutboxWorker.OutboxTable.SelectDue | pos_service/services/fabric_outbox.py:147-158 | The claim query returns due entries only, oldest first, at most a batch, and leaves a due entry out only when the batch is full of entries at least as old. |
| OutboxWorker.OutboxTable.ClaimDue | pos_service/services/fabric_outbox.py:147-165 | The selected entries, and no others, become IN_FLIGHT. |
| OutboxWorker.OutboxTable.MarkFailed | pos_service/services/fabric_outbox.py:180-195 | One more failure; the eighth dead-letters, any other reschedules by 4 s, 15 s, 1 min, 5 min, 30 min, 2 h or 12 h from now; nothing else in the table changes. |
| OutboxWorker.OutboxTable.RetryEntry | pos_service/routes/admin.py:232-252 | Only a DLQ or DELIVERED entry is reset; a claimed one is never touched. |
| OutboxWorker.OutboxTable.DrainOnce | pos_service/services/fabric_outbox.py:198-238 | Whatever enqueues and operator retries run between its writes, claimed = delivered + failed + dlq, deliveries are exactly the posts that succeeded, nothing is left IN_FLIGHT, and the pass is a run of the table's steps. |
| CheckoutService.FindMissing | pos_service/services/checkout.py:71-86 | The SKUs asked for without a price, exactly those, each once, in order of first appearance; none if and only if the cart can be priced. |
| CheckoutService.PriceCart | pos_service/services/checkout.py:88-110 | Each stored line is the line asked for at its SKU's price with the nearest-cent tax, and the running totals are the sums over the lines. |
| CheckoutService.Start | pos_service/services/checkout.py:62-140 | Accepted exactly when every SKU asked for has a price and the identifier is unused; then one new row with every field given (lines, amounts, cashier, terminal, date to the second, all else empty) and a validation call. A missing price names exactly the unpriced SKUs; refused, nothing changes. |
| CheckoutService.CartValidated | pos_service/services/checkout.py:141-161 | The answered call is consumed and its sale alone moves, to AWAITING_PAYMENT exactly when Sentry found the cart valid, else to VALIDATION_FAILED. |
| CheckoutService.PayByCash | pos_service/services/checkout.py:164-194 | The reply in every case; accepted, exactly status, method and tender of that row change and its request is sent; refused, nothing changes. |
| CheckoutService.PayByCard | pos_service/services/checkout.py:197-222 | The reply in every case, and the whole row in each: failed without an answer, in flight while undecided, failed on a refusal, paid with the terminal's amount (else the total) and sent on an approval. |
| CheckoutService.FinalizeCardCharge | pos_service/services/checkout.py:327-372 | PAYMENT_SUCCESS exactly on an approval without signature; then the card, its reference, the terminal's amount (the total if it gives none) and the request sent; otherwise no tender and nothing sent. |
| CheckoutService.Cancel | pos_service/services/checkout.py:225-245 | Accepted exactly for a row awaiting payment or in flight, and nothing but that row's status changes. |
| CheckoutService.PollTail | pos_service/services/checkout.py:310-324 | A row no longer in flight is not touched; one in flight becomes PAYMENT_SUCCESS exactly on an approval, else PAYMENT_FAILED. |
| CheckoutService.SaleAnswered | pos_service/services/checkout.py:383-407 | In one commit: COMPLETE with Sentry's number and the stamp of the cashier's open session, or INVENTORY_UPDATE_FAILED and no stamp; nothing else of the table changes, and one outbox entry is added that knows the number if there is one. |
| RefundService.Lookup | pos_service/services/refund.py:59-123 | Accepted if and only if the row is a COMPLETE sale, no more than the window's whole days of 86,400 s have passed since it was created, and no refund of it is pending, in flight, paid, unrecorded or complete; otherwise the first objection in that order, and for the last one a refund that stands in the way. |
| RefundService.Start | pos_service/services/refund.py:126-167 | Accepted if and only if the lookup is and the identifier is unused; the new row is the sale negated line by line, opened by the cashier who asks at the sale's terminal, dated to the second, with every other field given. |
| RefundService.PayBackCash | pos_service/services/refund.py:209-227 | Accepted exactly for a pending cash refund; then the payout is recorded to the cent and the request sent. Refused, nothing changes. |
| RefundService.PayBackCard | pos_service/services/refund.py:170-206 | Only a pending card refund whose sale has a terminal reference moves: failed, in flight or paid as the terminal says; without a reference it is refused untouched. |
| RefundService.FinalizeRefundCharge | pos_service/services/refund.py:317-364 | REFUND_PAYMENT_SUCCESS exactly on an approval without signature; then a negative card tender of the terminal's amount (the total if it gives none); otherwise no tender and nothing sent. |
| RefundService.Cancel | pos_service/services/refund.py:230-238 | Accepted exactly for a refund pending or in flight, and nothing but that row's status changes. |
| RefundService.PollTail | pos_service/services/refund.py:300-314 | A refund no longer in flight is not touched; one in flight is paid exactly on an approval, else failed. |
| RefundService.RefundAnswered | pos_service/services/refund.py:377-408 | In one commit: COMPLETE with Sentry's number, the stamp and the link on its sale, or inventory-failed and nothing else; one outbox entry is added that knows the number if there is one. |
| ReconciliationService.Retry | pos_service/routes/admin.py:125-151 | Accepted exactly for a row in its kind's inventory-failed status, whose current request is then sent; refused, nothing changes. |
| ReconciliationService.RetryHeard | pos_service/services/reconciliation.py:22-68 | Success makes the row COMPLETE with Sentry's number and links a refund's sale; failure changes nothing. |
| ReconciliationService.Perform | pos_service/services/reconciliation.py:43-68 | Every handler's method changes the tables exactly as its protocol step does and keeps the invariant. |
| ReconciliationService.RetryFailed | pos_service/services/reconciliation.py:71-98 | Run without interruption, the batch sends each unrecorded row of its kind exactly once and does nothing else (the state is the run of those turns); a row is reported as succeeded exactly when its answer arrives and Sentry holds an order for it, which, order numbers being fresh, means it held one before or recorded one in that turn; the report splits the rows by the status they then have, and no other row's status changes. |
| TillSessions.DenominationsToCents | pos_service/services/till.py:78-105 | An unknown denomination is refused before a negative count, and otherwise the value is 10000 per hundred, 5000 per fifty, and so down to 25 per quarter, 10 per dime, 5 per nickel and 1 per penny, and not negative. |
| TillService.OpenWithCount | pos_service/services/till.py:124-152 | The reply is the open session's refusal, else the count sheet's, else the duplicate identifier's, else acceptance; accepted, the cashier's till is open with the float counted and empty tallies, refused, nothing changes. |
| TillService.CloseWithCount | pos_service/services/till.py:155-204 | The reply is the missing session's refusal, else the count sheet's, else acceptance whatever the variance; accepted, the session records the count, float plus sales minus refunds, and their difference, and the cashier has no open session; refused, nothing changes. |
| TillService.AttributeTransaction | pos_service/services/till.py:229-271 | Without an open session nothing changes; with one the row is stamped and exactly the right counts and cash tally of that session move. |
| PollLoop.PollUntilComplete | pos_service/services/checkout.py:285-308 | A status call is made only before the deadline, one interval after another, and without a result until none is left; a result if and only if one of those calls is complete, and then it is the first complete one, errors in between notwithstanding. |
| Money.HalfEvenCharacterised | pos_service/services/checkout.py:51-59 | The rounding is the one integer within half a unit that is even whenever two are equally near. |
| Money.LineTaxIs | pos_service/services/checkout.py:51-59 | A line's tax is nothing if it is not taxable and otherwise the nearest cent with halves to even, and no other number. |
| Money.LineTaxBound | pos_service/services/checkout.py:51-59 | A line's tax is within half a cent of the exact tax, and even at a tie. |
| Money.LineTaxMonotone | pos_service/services/checkout.py:51-59 | For a non-negative rate a larger subtotal never has a smaller tax. |
| Money.LineTaxOfNegatedLine | pos_service/services/refund.py:139-160 | The tax of a negated line is the negated tax, so refund lines obey the sale's tax rule. |
| Money.PartsAgainstWhole | pos_service/services/checkout.py:88-110 | Rounding n parts by any nearest rule differs from rounding their sum once by at most (n + 1)/2. |
| Money.HalfUpMinusHalfEven | desktop_client/src/store/cart.ts:190-205 | Half-up exceeds half-even by one exactly at a tie above an even number, and equals it otherwise. |
| Money.TiesAtShippedRate | pos_service/config.py:34 | At 0.0810 a line's exact tax is a half-cent exactly when its subtotal is 500 modulo 1000 cents. |
| TaxPreview.PreviewMinusAuthority | desktop_client/src/store/cart.ts:190-205 | The tax shown at the register minus the tax charged is the number of taxable lines whose exact tax is a half with an even whole part, hence never negative; the subtotals agree. |
| TaxPreview.OvershootsAtShippedRate | pos_service/config.py:34 | At the shipped rate those are the taxable lines whose subtotal is 500 modulo 2000 cents. |
| TaxPreview.WholeCartTax | pos_service/services/checkout.py:88-110 | With n taxable lines the tax charged is within (n + 1)/2 cents of rounding once on the taxable subtotal. |
| Pricing.MostRecentWriterWins | pos_service/services/fabric_price_sync.py:15-17 | After any sequence of imports and syncs each SKU holds the last valid write to it, whoever made it, and an unwritten SKU what it held before. |
| Pricing.LastWriteWins | pos_service/services/pricing.py:120-126 | A row-at-a-time fold leaves each SKU at its last write. |
| Pricing.BatchBoundariesDoNotMatter | pos_service/services/fabric_price_sync.py:68-82 | Cutting the writes into batches anywhere gives the same table. |
| Pricing.RowsPartitioned | pos_service/services/pricing.py:95-118 | Every data row is in exactly one of the two lists, in file order: a row with a non-blank first cell and a readable price that is not negative is imported for that SKU at that price, any other is rejected under its number and text for the one reason that applies. |
| Pricing.ClassifiedExactly | pos_service/services/pricing.py:97-118 | Imported if and only if two cells, a non-blank SKU and a readable non-negative price; the write is to the stripped first cell; each of the four reasons holds exactly under its own condition, earlier ones first. |
| Pricing.FileSetsPrices | pos_service/services/pricing.py:95-126 | After a file each SKU has the price of the last row that can be imported for it, and a SKU with no such row what it had. |
| Pricing.HeaderAccepted | pos_service/services/pricing.py:70-81 | The header is accepted if and only if it has two cells that read `sku` and `price` in any case and spacing. |
| Pricing.StripKeepsTheMiddle | pos_service/services/pricing.py:102-103 | Stripping removes white space at both ends, all of it, and nothing else. |
| Pricing.DataRowsAreTheNonBlank | pos_service/services/pricing.py:83-87 | The data rows are exactly the non-blank records, each under its own record number counted from 2. |
| Pricing.DataRowsInOrder | pos_service/services/pricing.py:83-87 | Data rows keep file order, so record numbers strictly increase. |
| Pricing.ImportedCents | pos_service/services/pricing.py:114-118 | An imported price is non-negative and the nearest whole number of cents, a half going up. |
| PriceService.PriceTable.ImportCsv | pos_service/services/pricing.py:59-147 | Refused for the header exactly when it is missing or does not read `sku,price`, and for size exactly when the data rows exceed the cap; refused, nothing changes. Otherwise each SKU gets the price of its last importable row, others keep theirs, imported plus rejected are the data rows, and the audit keeps the first 100 rejections. |
| PriceService.PriceTable.SyncOnce | pos_service/services/fabric_price_sync.py:54-88 | A failed or empty fetch changes nothing; otherwise the batches together are one fold over the catalogue. |
| PriceService.Feed | pos_service/services/fabric_price_sync.py:10-18 | The loops, run over any sequence of imports and syncs, refine the one-row-at-a-time fold of all their writes. |
| Cart.RunKeeps | desktop_client/src/store/cart.ts:82-188 | Over any sequence of actions line ids stay distinct and quantities at least 1. |
| Cart.AddItemAddsOne | desktop_client/src/store/cart.ts:85-121 | Ringing an item up adds one unit: on the first line for that SKU, warehouse and bin, or as a new last line with the item's name, price, rate and taxability; all else is unchanged. |
| Cart.RemovesOne | desktop_client/src/store/cart.ts:123-126 | Removal takes out the line with the id and nothing else. |
| Cart.QuantityIsSet | desktop_client/src/store/cart.ts:128-135 | Only the quantity of the line with the id changes: to the whole part of what was asked for, and at least 1. |
| Cart.LineIsMoved | desktop_client/src/store/cart.ts:137-153 | Only the place of the line with the id changes: to the warehouse and bin asked for, under the names its stock gives them, keeping its present names for what the stock does not name. |
| Cart.SplitsOne | desktop_client/src/store/cart.ts:155-185 | A split puts its positive parts where the line stood, with fresh ids, or does nothing. |
| Cart.PartsAreTheLine | desktop_client/src/store/cart.ts:160-178 | Each part is the line itself under a fresh id, with its own quantity and place. |
| Cart.PositiveInOrder | desktop_client/src/store/cart.ts:160-162 | The parts kept are the positive ones, in the order asked for. |
| Cart.SplitConservesQuantityExactlyWhen | desktop_client/src/store/cart.ts:155-185 | The store itself does not check a split: total quantity is kept if and only if no part is positive or the positive parts add up to the line's quantity. |
| Cart.AcceptedSplitConserves | desktop_client/src/components/SplitLineModal.tsx:43-68 | A split the dialog accepts keeps total quantity and subtotal, leaves every other line in place and in order, and with k parts moves the tax by at most (k + 1)/2 cents. |
| Cart.DefaultLocationHasStock | desktop_client/src/store/cart.ts:52-73 | If any warehouse has stock the default place is in one that has, and in a stocked bin of it if there is one. |
| Cart.DefaultLocationIs | desktop_client/src/store/cart.ts:52-73 | The default place is the first warehouse with stock, else the first, and by the same rule one of its bins; no bin without bins, nowhere without warehouses. |
| Cart.ComputeTotals | desktop_client/src/store/cart.ts:190-205 | The loop's totals are the sums over the lines. |
| CartStore.Store.SplitInto | desktop_client/src/store/cart.ts:155-185 | The store's split, drawing one fresh id per part, does what the split says. |
| CartStore.Store.Play | desktop_client/src/store/cart.ts:82-188 | The store, driven by any actions, follows the model's run and stays well formed. |

## Left out

- CheckoutService.PayByCard: the await on the terminal is one step with the status check; `TerminalAwaits` says exactly when that is harmless.
- RefundService.PayBackCard: the await on the terminal is one step with the status check, as for sales.
- CheckoutService.Cancel: the await on the terminal's cancel is one step with the status check, and its answer is ignored, as in the code.
- ReconciliationService.RetryFailed: the loop is modelled without other handlers between its turns; each of its sends is a protocol step (`EBatchResend`), so the theorems about runs hold when others do interleave.
- PollLoop.PollUntilComplete: the interval must be positive, which the configuration does not check.
- Pricing.ImportedCents: NaN, infinite prices and prices beyond the decimal context's precision, which the import does not catch, are not prices here.
- Cart.AcceptedSplitConserves: split quantities are whole numbers, as the dialog's inputs make them.
- OutboxWorker.OutboxTable.DrainOnce: writer exceptions other than `FabricClientError` and crashes mid-pass, after which entries stay IN_FLIGHT.
- Whether money moved at the terminal for a CANCELLED or failed row: the model claims only what the row records.
- Columns nothing branches on: `last_error`, `retry_count`, raw terminal responses, customer fields, `completed_at`, `updated_at`, the Fabric order number, PDF paths.
- The note left in Sentry's inbound activity log after a failed first send.
- HTTP and XML clients, their wire formats, retries and mock modes; authentication, user administration, health checks.
- Receipts, till PDFs, the print agent, customer lookup, list and search endpoints, React components and client phase stores.
- Byte decoding and CSV lexing of an import, JSON encoding, floating point, real UUIDs, integer width in the database.
- The unbounded loops around `drain_once` and `sync_once`: their bodies are modelled, and any sequence of passes.
