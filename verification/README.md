# Kintsugi protocols

This project models the small hand-built protocols of the Kintsugi marketplace backend
and proves what every run of them keeps. A claim is a conditional write, an outside party
is called, and the result is settled; crashes, redeliveries and other processes run in
between. Each protocol appears twice:

- as a **machine**: one step is one database statement or transaction, one provider call,
  one publish or one offset commit; any number of calls interleave, and a call that
  crashes is one that is never scheduled again. The main theorems quantify over every
  sequence of steps;
- as a **class** whose methods are the functions as the code runs them, loops included,
  each proved against a specification function. A lemma named `...Alone...` proves that the
  machine, run without interruption, leaves exactly what that function leaves.

Lemmas named `...Mean` or `...Means` state a specification function in the fields of its rows
and plain constants, branch by branch, so that what a theorem says does not hang on a helper.

Tables are sequences whose index is the row's id, so ids are fresh and the order of the
table is the order of creation.

| module | what it is |
|---|---|
| `Tables` | sums over tables, queries, batches |
| `Pipeline`, `NoLoss`, `AtMostOnce`, `Ladder` | the notification pipeline as one machine, and its three theorems |
| `StaleSweeps` | what a deferred sweeper with a stale list does to it |
| `DeliveryLedger`, `WorkerLoop`, `OutboxDesk`, `Retry` | its parts as they run |
| `Stock`, `Sweeps`, `StockRoom` | reservations and orders, the sweeps, and both as they run |
| `PaymentProvider`, `IntentState`, `OrderState` | the stub payment provider and the shared statuses |
| `Refunds` | refund headroom |
| `Earnings`, `Payouts` | what a seller may be paid, and paying it |
| `ClaimRaces`, `DoubleNetting` | claims of payouts query by query, and how a debt is netted twice |
| `StubPayouts` | the payouts machine against the stub provider |
| `RefreshTokens` | rotation with a grace window |
| `RateLimit`, `Cache`, `QuietHours`, `Placement` | the sequential cores |

## Assumptions

- A transaction and a single conditional UPDATE are atomic, and database calls do not fail.
  A process may stop between any two steps. `settleRefundFromProvider` is one step.
- Ids, token hashes and event ids are fresh and injective.
- A decision of the refund provider is final, and a keyed provider answers consistently
  under one key. A refusal or a definite error means nothing was sent; an unconfirmed call
  may have had any effect.
- The shared store drops a key once its expiry time is reached and refuses an expiry of
  zero or less.
- A ladder message's timestamp is the clock when it was published.
- A change of a line's fulfilment is one step, and stamps a delivery with the clock. The
  payout hold is the same for every claim of a run. Every claim in `ClaimRaces` has its gates
  open, and takes the time when it begins.

## What the proofs found

- A debt can be netted twice by two claims of one seller. The books balance exactly when no
  claim settles a debt settled since it read it (`Payouts.NettedIsSettledIffClaimsAreFresh`).
  Ordinary races cannot get there, because two such claims always share a line and the
  uniqueness constraint stops the second (`ClaimRaces.RacingClaimsNetOnce`). It takes a
  refund, or an order entering or leaving PAID, while both are open: one claim reads a line
  that the other no longer sees (`DoubleNetting.RefundBetweenReadsNetsTwice`), or a refund
  fails between two queries of one claim (`DoubleNetting.RefundFailsBetweenQueries`).
- The stub payout provider writes its entry afresh on every transfer and so forgets
  reversals, unlike the keyed provider it stands for, exactly when a transfer is repeated
  after a reversal: `StubPayouts.StubAgreesIffNoReversedRepeat`, `StubPayouts.StubForgetsReversal`.
- The order sweeps ask the provider only about PROCESSING orders. A payment completed on an
  order that was handed back is cancelled away unless a webhook records it first:
  `Sweeps.ChargeIsLostIffNotProcessing`, `Sweeps.ChargeIsLost`.
- An order can stay REFUNDED with nothing refunded. The call that issued the refund looks
  whether anything is left and marks the order later, and neither it nor a call that gives
  its claim back looks at what the other did. Those are exactly the steps that do it
  (`Refunds.RefundedInFullIff`), and no refund of such an order is possible
  (`Refunds.RefundedWithNothingBack`).
- With a limit below 1 the memory limiter lets the first call of each window through and the
  shared store lets none: `RateLimit.StoresAgreeIffLimitPositive`.
- The deferred sweeper suppresses rows by id from a list that may be stale, without the guard
  its redelivery has. So a row is settled only by whoever claimed it exactly when that guard
  would have held (`StaleSweeps.SettledByClaimantsIffGuarded`). Otherwise it suppresses a row
  another sweeper owns (`StaleSweeps.OwnedRowIsSuppressed`), or a SENT one, and the ledger then
  reports as suppressed a message that was delivered (`StaleSweeps.SentRowIsOverwritten`,
  `StaleSweeps.SentStaysSentIff`). It never causes a second send: `AtMostOnce.AtMostOneSend`.

## Model

| member | source | states |
|---|---|---|
| `NoLoss.NoEventIsLost` | backend/src/lib/relay.ts:88-98 | Over every run of any number of relays, workers, sweepers and pruning passes, crashing anywhere, each committed event is, for each channel, still unpublished in the outbox, or on the main log at or above that channel group's committed offset, or in the delivery ledger |
| `NoLoss.WorkerActIsSafe` | backend/src/worker.ts:97-198 | No statement of a worker, including skipping, waiting, republishing and committing, moves it past a first delivery that has no ledger row, or shrinks the log or the ledger |
| `NoLoss.CommitIsSafe` | backend/src/worker.ts:98-102 | Committing the offset after a message never moves the group past a first delivery that has no ledger row, on any partition |
| `NoLoss.PublishIsSafe` | backend/src/lib/relay.ts:156-161 | Publishing one event of a locked batch puts a copy on the user's main partition and disturbs nothing another process relies on |
| `NoLoss.MarkingPublishedIsSafe` | backend/src/lib/relay.ts:158-161 | A batch is marked published only when a copy of each of its events is on the log; with publish-then-mark no crash can break that |
| `NoLoss.PruningIsSafe` | backend/src/lib/outboxRetention.ts:56-74 | Deleting by ids read earlier removes published events only, each still on the log, so pruning cannot lose one |
| `AtMostOnce.AtMostOneSend` | backend/src/lib/deliveryLedger.ts:104-182 | Over every run, with redelivery, ladder retries, any number of deferred sweepers (stale ones too) and crashes, the provider accepts an event for a channel at most once plus once per acceptance whose answer was lost; SENT means it was accepted; a row that can be claimed hides no acknowledged send |
| `AtMostOnce.NeverSentTwice` | backend/src/lib/deliveryLedger.ts:404-454 | If every reply reaches its caller, no event is accepted twice for one channel, whatever else happens |
| `AtMostOnce.OneOwner` | backend/src/lib/deliveryLedger.ts:353-363 | At no time do two processes own the same delivery row |
| `StaleSweeps.SettledByClaimantsIffGuarded` | backend/src/lib/deferredDeliveries.ts:76-104 | Over a whole run every statement writes only ledger rows its process owns or could claim, if and only if no sweeper expires a row that is no longer parked and due |
| `StaleSweeps.OnlyByClaimIffGuarded` | backend/src/lib/deliveryLedger.ts:261-273 | The same of one statement of any process: the one unclaimed write there is is a sweeper's suppression of a row that has moved on since it was listed |
| `StaleSweeps.OwnersRowsStayPending` | backend/src/lib/deliveryLedger.ts:353-363 | While every sweep is guarded so, the row an owner works on is PENDING until the owner settles it |
| `StaleSweeps.SentStaysSentIff` | backend/src/lib/deliveryLedger.ts:276-286 | A row recorded SENT stays SENT at every later moment of a run if and only if no sweeper takes its expiring branch on that row |
| `StaleSweeps.SentRowIsOverwritten` | backend/src/lib/deferredDeliveries.ts:76-104 | A run in which two sweepers list one text, the first sends it, and the second suppresses the SENT row as too old |
| `StaleSweeps.OwnedRowIsSuppressed` | backend/src/lib/deferredDeliveries.ts:76-104 | A run in which the second suppresses the row while the first still owns it |
| `Ladder.LadderTakesItsTime` | backend/src/lib/kafka.ts:53-57 | A message on rung k ends a chain of republishes in which its event was handled k times, so a chain has at most four handlings before the dead-letter queue; it reaches that queue only after all three rungs and at least 965 000 ms after the first of them |
| `Ladder.RetriesWaitForTheirOwnGroup` | backend/src/worker.ts:109-150 | No rung's message is handled before its delay is over, nor by another group than the one it failed for; first deliveries, and only they, are for every group |
| `Retry.LadderClimbs` | backend/src/lib/retry.ts:79-109 | A failure on height k goes to height k + 1 with that rung's own topic, delay and attempt number, and from the top to the dead letters; exactly the rungs count as retry topics |
| `WorkerLoop.WorkerAloneHandles` | backend/src/worker.ts:97-198 | The statement-by-statement machine, run without interruption from a fetched message, leaves exactly the log, offsets, ledger and sends of the uninterrupted handler, and advances unless the message is too young |
| `WorkerLoop.SweeperAloneSettles` | backend/src/lib/deferredDeliveries.ts:62-117 | The sweeper machine run without interruption settles its next row exactly as the sequential sweep does, and asks the provider only for a row that is to be sent |
| `WorkerLoop.RelayAlonePublishes` | backend/src/lib/relay.ts:145-174 | A relay that runs alone puts each event of its batch on its user's partition of the main topic, with the clock on it, marks the batch published, and changes nothing else |
| `WorkerLoop.MessageMeans` | backend/src/worker.ts:97-198 | By its group, topic, age and bytes: another group's message is committed past, one younger than 5 s, 1 min or 15 min on its rung is left with nothing changed, an unreadable one is committed past, and any other is delivered under the ledger, counted at the provider exactly if it was asked, republished once exactly if that failed for the moment, and committed |
| `WorkerLoop.ChannelWorker.EachMessage` | backend/src/worker.ts:97-198 | Another group's retry and an undecodable message are only committed past; a young retry is left with the exact remaining wait; anything else is delivered under the ledger, sent to the next rung if that failed transiently, then committed |
| `WorkerLoop.ChannelWorker.Republish` | backend/src/lib/retry.ts:154-181 | Appends one message on the next topic, one attempt further, tagged with the group |
| `DeliveryLedger.Ledger.Claim` | backend/src/lib/deliveryLedger.ts:64-134 | Claims exactly when the channel is wanted and the row is absent, or is a FAILED one and this is a retry; an unwanted channel leaves a SUPPRESSED row if there was none |
| `DeliveryLedger.Ledger.ReclaimFailed` | backend/src/lib/deliveryLedger.ts:157-182 | Takes over a FAILED row and no other, counting the attempt |
| `DeliveryLedger.MarksDecideWhoMayClaim` | backend/src/lib/deliveryLedger.ts:249-316 | What each of the four marks writes and leaves open: a SENT or SUPPRESSED row can be claimed by nobody again, a parked one only by a sweeper from its time on, a FAILED one only by a retry; no mark counts an attempt, forgets when the row was made or touches another row |
| `DeliveryLedger.DeliveryMeans` | backend/src/lib/deliveryLedger.ts:404-454 | What one message leaves: an unwanted channel a SUPPRESSED row if there was none, a first delivery a new row, a retry of a FAILED row that row with one attempt more, each with the answer on it, and every other row as it was; only a transient failure goes on up the ladder |
| `DeliveryLedger.Ledger.Deliver` | backend/src/lib/deliveryLedger.ts:404-454 | Calls the provider once exactly when the claim is won and never otherwise, writes its answer on the row, and reports the outcome the ladder reads |
| `DeliveryLedger.Ledger.RedeliverDeferred` | backend/src/lib/deliveryLedger.ts:353-389 | Sends a parked row exactly when it is DEFERRED and due, and settles it by the answer; otherwise touches and sends nothing |
| `DeliveryLedger.Ledger.SweepRow` | backend/src/lib/deferredDeliveries.ts:62-117 | One parked row, as found when its turn comes: too old is suppressed, a channel that does not defer is skipped, a vanished notification is suppressed, anything else is redelivered if it is still parked and due |
| `DeliveryLedger.Ledger.SweepDeferredOnce` | backend/src/lib/deferredDeliveries.ts:51-120 | Fetches the earliest due rows up to the batch size, settles each once on its own terms and no other row, calls the provider exactly for those that qualify, and its three counters account for the whole batch |
| `DeliveryLedger.TallyCounts` | backend/src/lib/deferredDeliveries.ts:71-120 | The counters by what was done: sent rows, expired rows, and everything else including sends the provider did not accept as skipped, and one call for each row sent or tried |
| `OutboxDesk.Desk.RelayOnce` | backend/src/lib/relay.ts:145-174 | Publishes and marks the oldest owed rows up to the batch size, in order; if the broker fails the rows stay owed, each with one more failed attempt, although some may already be on the log |
| `OutboxDesk.Desk.Drain` | backend/src/lib/relay.ts:180-187 | Publishes the backlog oldest first, each row once, until a pass publishes nothing; with a broker that holds it drains everything, and marks nothing it did not publish |
| `OutboxDesk.Desk.PruneOutboxOnce` | backend/src/lib/outboxRetention.ts:47-77 | Deletes the oldest published rows past the cutoff, at most a batch; with none left reports the earliest publication still kept |
| `OutboxDesk.Desk.PruneOutbox` | backend/src/lib/outboxRetention.ts:80-87 | Deletes every published row past the cutoff and leaves the work still owed exactly as it was |
| `OutboxDesk.RelaysShareNothing` | backend/src/lib/relay.ts:88-98 | Over every run with any number of relays and crashes, two relays that are running never hold the same event |
| `OutboxDesk.RelayClaimsOldestOwed` | backend/src/lib/relay.ts:88-98 | A relay claims rows that are unpublished and not deleted, in order, and leaves one out only behind a full batch of older ones |
| `OutboxDesk.PrunerTakesOldestDoomed` | backend/src/lib/outboxRetention.ts:56-74 | A pruning pass takes rows published before the cutoff, in order, and leaves one out only behind a full batch of older ones |
| `Stock.StockIsConserved` | backend/src/lib/reservations.ts:114-267 | Over every interleaving of reserve, release, expiry, checkout, pay, unclaim, cancel and abandon, shelf + held + open orders + sold equals what was listed, none of them is negative, and a RESERVED listing has nothing on its shelf |
| `Stock.StockedIsHistory` | backend/src/lib/orders.ts:306-352 | The total of that identity is a constant of the listing: no later step changes it |
| `Stock.OneHoldPerBuyer` | backend/src/lib/reservations.ts:154-163 | In every reachable state a buyer holds a listing at most once |
| `Stock.HoldsLapse` | backend/src/lib/reservations.ts:188-204 | A hold is live for fifteen minutes and no longer; from then on the sweep ends it and gives exactly its units back |
| `Stock.RemovedSellsNothing` | backend/src/lib/reservations.ts:128-172 | A removed listing can be neither reserved nor checked out by whoever holds it; restored it is a draft with the stock it had, for sale again only once published |
| `Stock.ReserveTakesUnits` | backend/src/lib/reservations.ts:146-208 | A reservation closes exactly the lapsed holds of the listing, adds one hold of fifteen minutes, keeps shelf plus held units, and hides the listing exactly if none is left |
| `Stock.CheckoutTakesLiveHolds` | backend/src/lib/orders.ts:137-231 | Refused exactly for want of a live hold or for a listing that is gone; otherwise one unpaid order of all live holds at present prices, its subtotal the sum of its lines, and exactly those holds converted |
| `Stock.OneClaimUntilHandedBack` | backend/src/lib/orders.ts:278-295 | Of all the calls that try to pay an order one wins its claim; until that claim is handed back, over any interleaving, no other claim of the order wins |
| `Stock.LinesAreHolds` | backend/src/lib/orders.ts:165-215 | The lines of a checkout are the buyer's live holds, all of them and no other, with their quantities and the listings' present prices |
| `Stock.ConvertMovesUnits` | backend/src/lib/orders.ts:165-231 | A checkout moves exactly the units it puts on the order out of the holds |
| `Stock.ReclaimMovesUnits` | backend/src/lib/reservations.ts:86-104 | Reclaiming closes lapsed holds of one listing and returns exactly their units; no other listing's holds change |
| `Stock.PutBackAddsUnits` | backend/src/lib/orders.ts:415-431 | Releasing an order returns to each of its listings the units of all its lines and puts it back on sale unless it is SOLD; any other listing stays as it was |
| `Stock.LastUnitIsSold` | backend/src/lib/orders.ts:334-345 | Paying marks SOLD exactly those of the order's listings of which nothing is left on the shelf, and touches no quantity |
| `Sweeps.SweepsDrainEverything` | backend/src/lib/orders.ts:447-572 | After any run and half an hour of silence, one hold sweep and two order ticks leave no hold and no open order: every listing's quantity is what was listed less what was sold, no paid order gave stock back, and the newly paid orders are exactly the PROCESSING ones whose charge had gone through |
| `Sweeps.ChargeIsLostIffNotProcessing` | backend/src/lib/orders.ts:447-555 | Those sweeps leave a charge that went through unrecorded if and only if its order was neither PROCESSING nor already paid when they began |
| `Sweeps.ChargeIsLost` | backend/src/lib/orders.ts:447-465 | A run that ends so: a declined payment hands its order back, the buyer completes it at the provider, and the order is cancelled as unpaid |
| `Sweeps.OneTickLeavesTheReopened` | backend/src/lib/orders.ts:480-512 | One tick is not enough exactly for PROCESSING orders of which the provider has no record, since they are reopened |
| `Sweeps.HoldSweepReturnsLapsedUnits` | backend/src/lib/reservations.ts:314-365 | The hold sweep ends exactly the lapsed holds and puts exactly their units back |
| `Sweeps.ReconcileAllSettles` | backend/src/lib/orders.ts:480-555 | Each order the pass fetched is settled by what the provider says of it and no other order changes; a succeeded charge is never cancelled |
| `Sweeps.ReconcileFollowsProvider` | backend/src/lib/orders.ts:493-547 | One PROCESSING order by what the provider holds: nothing reopens it, a charge pays it, a refusal fails it, a pending payment past half an hour cancels it there and here, and exactly otherwise it is left |
| `Sweeps.StuckAreReconciled` | backend/src/lib/orders.ts:480-492 | The reconcile sweep settles exactly the orders PROCESSING for two minutes |
| `Sweeps.TickSettles` | backend/src/lib/orders.ts:558-572 | Once the windows have closed one tick cancels every unpaid order and resolves or reopens every PROCESSING one |
| `StockRoom.Room.ReclaimExpired` | backend/src/lib/reservations.ts:86-104 | Computes the closed rows and the units they held |
| `StockRoom.Room.ReserveListing` | backend/src/lib/reservations.ts:114-218 | Refuses for the code's reasons in the code's order, leaving everything as it was, or places the hold and takes its units; either way it is the machine's step |
| `StockRoom.Room.ReleaseReservation` | backend/src/lib/reservations.ts:220-268 | Ends the user's own HELD reservation and returns its units; otherwise says why not and changes nothing |
| `StockRoom.Room.ExpireHold` | backend/src/lib/reservations.ts:326-357 | One transaction of the sweep: a hold still HELD is expired and its units return |
| `StockRoom.Room.ReleaseExpiredHolds` | backend/src/lib/reservations.ts:314-365 | The loop equals the sweep whose effect is proved, and counts the holds it ended |
| `StockRoom.Room.PriceCart` | backend/src/lib/orders.ts:140-215 | The lines and subtotal of exactly the buyer's live holds at present prices; or, exactly if a listing among them is deleted, that it is gone |
| `StockRoom.Room.CreateOrderFromHolds` | backend/src/lib/orders.ts:137-233 | One PENDING_PAYMENT order from all live holds, which become CONVERTED; or a refusal, for want of an address first, that changes nothing |
| `StockRoom.Room.ClaimOrderForPayment` | backend/src/lib/orders.ts:278-287 | Wins exactly when the buyer's order is PENDING_PAYMENT, and moves it to PROCESSING |
| `StockRoom.Room.MarkOrderPaid` | backend/src/lib/orders.ts:298-364 | Pays an order that still commits stock, once; an already paid one is a no-op and any other is refused |
| `StockRoom.Room.ReleaseOrder` | backend/src/lib/orders.ts:397-438 | Returns the stock of an order that still commits it, and leaves any other alone |
| `StockRoom.Room.ReleaseAbandonedOrders` | backend/src/lib/orders.ts:447-465 | The loop equals the sweep over unpaid orders past the window, and counts them |
| `StockRoom.Room.ReconcileProcessingOrders` | backend/src/lib/orders.ts:480-555 | The loop equals the sweep over stuck PROCESSING orders, and counts those it settled |
| `StockRoom.Room.ReconcileOne` | backend/src/lib/orders.ts:493-547 | One stuck order: reopened if the provider has no record, paid if charged, failed if refused, cancelled at the provider first if still pending past the window, otherwise left |
| `PaymentProvider.ChargedAtMostOnce` | backend/src/lib/paymentProvider.ts:301-345 | However often an order's payment is created, confirmed and cancelled, its key has one intent and is charged at most once, exactly if that intent succeeded |
| `PaymentProvider.ResolvedStays` | backend/src/lib/paymentProvider.ts:402-419 | A succeeded intent stays so and a cancelled one is never charged afterwards; key and amount never change |
| `PaymentProvider.RefundsFollowPayments` | backend/src/lib/paymentProvider.ts:652-674 | A refund is recorded only against a payment that went through, and a retry under its key changes nothing |
| `PaymentProvider.CardsDecide` | backend/src/lib/paymentProvider.ts:402-435 | A card charges an intent, once, exactly if the intent is open and the card works; a declined one leaves it open to another card, one that needs authentication takes it out of reach of any card, and nothing else of the books moves |
| `PaymentProvider.StubProvider.CreateIntent` | backend/src/lib/paymentProvider.ts:301-345 | A key already seen answers with its first intent and amount; a new one makes one intent |
| `PaymentProvider.StubProvider.ConfirmIntent` | backend/src/lib/paymentProvider.ts:386-435 | What is not 12 to 19 digits is not a card; a resolved intent answers as it was resolved; an open one is charged, declined or held for authentication by the last four digits |
| `PaymentProvider.StubProvider.GetIntent` | backend/src/lib/paymentProvider.ts:510-531 | What the provider reports of an intent, or that it has none |
| `PaymentProvider.StubProvider.CancelIntent` | backend/src/lib/paymentProvider.ts:557-565 | Cancels an intent unless its payment already went through |
| `PaymentProvider.StubProvider.RefundIntent` | backend/src/lib/paymentProvider.ts:648-674 | Refuses a bad amount, an unknown intent (indeterminate) and an unpaid one; otherwise succeeds, once per key |
| `Refunds.NeverRefundsMoreThanCameIn` | backend/src/lib/refunds.ts:71-223 | For any number of interleaved calls crashing anywhere, provider decisions and repeated webhooks: money returned <= money that may leave <= live refund rows <= refundedCents <= subtotal, and refundedCents is live rows plus exactly the amounts claimed but unrecorded or failed but unreleased |
| `Refunds.ReleaseClampNeverFires` | backend/src/lib/refunds.ts:84-91 | GREATEST(0, ...) never changes an amount, neither when a call gives its claim back nor when the provider's refusal does |
| `Refunds.SettledRowsTellTheTruth` | backend/src/lib/refunds.ts:280-304 | A SUCCEEDED row is money the provider returned for that order in that amount; under a FAILED row none left and none ever will; settled rows never change |
| `Refunds.SettlingTwiceIsOnce` | backend/src/lib/refunds.ts:378-470 | After an event that decided something every further event about the same refund changes nothing |
| `Refunds.SettlingMovesOrder` | backend/src/lib/refunds.ts:378-490 | A success makes the order REFUNDED exactly if nothing is left of it and moves nothing else; a refusal gives exactly its amount back, reopens a REFUNDED order exactly if it is then not refunded in full, moves no other status, and a PAID order can then be refunded that amount again |
| `Refunds.RefundedInFullIff` | backend/src/lib/refunds.ts:225-240 | Over a whole run REFUNDED means refunded in full at every moment, if and only if no call marks an order that was meanwhile given something back, and none gives its claim back on one already marked |
| `Refunds.RefundedWithNothingBack` | backend/src/lib/refunds.ts:225-240 | A run that ends otherwise: the provider takes a full refund on, refuses it by webhook before the order is marked, and the order stays REFUNDED with nothing refunded and nothing refundable |
| `Refunds.CallAloneIssues` | backend/src/lib/refunds.ts:108-304 | The statement-by-statement machine run without interruption leaves exactly the books the uninterrupted function leaves |
| `Refunds.RefundDesk.ClaimRefundHeadroom` | backend/src/lib/refunds.ts:71-82 | Claims exactly when the order is PAID and the amount still fits under its subtotal |
| `Refunds.RefundDesk.IssueRefund` | backend/src/lib/refunds.ts:108-304 | Refuses for the code's reasons in the code's order changing nothing, or leaves one refund row, the claim kept or released by the provider's answer, and REFUNDED only when nothing is left |
| `Refunds.IssuedMeans` | backend/src/lib/refunds.ts:160-304 | What an accepted refund leaves, by each answer: the amount stays claimed unless the provider refused or certainly never heard, the row says what is known, and the order is REFUNDED exactly if the provider took the refund on and nothing is left |
| `Refunds.RefundDesk.SettleRefundFromProvider` | backend/src/lib/refunds.ts:378-490 | Only a decisive event on a PENDING row that carries the provider's id applies. Then the row says so; a refusal gives back its amount, makes a REFUNDED order PAID exactly if it is no longer refunded in full and moves no other status; a success makes the order REFUNDED exactly if nothing is left of it |
| `Payouts.PayoutLedgerBalances` | backend/src/lib/payouts.ts:360-722 | Over every run: transferred - reversed + claimed but unsent = lines in payouts - clawback targets + unsettled debt, with the write-off, in-flight, unheard and twice-netted terms each named |
| `Payouts.NoLinePaidTwice` | backend/src/lib/payouts.ts:385-625 | With any number of claimers on stale reads, senders, clawbacks and crashes: an order item is in at most one payout, the provider holds at most exactly the claimed amount per payout, at most one sender reports settling it, PAID means sent or nothing to send, FAILED means never sent |
| `Payouts.LinesCoverPayout` | backend/src/lib/payouts.ts:376-448 | Every payout's lines equal its amount plus what was netted |
| `Payouts.AbsorbedIsLongestPrefix` | backend/src/lib/payouts.ts:370-383 | The debts a claim settles are the longest oldest-first prefix that fits the gross amount |
| `Payouts.NetDebts` | backend/src/lib/payouts.ts:376-383 | The netting loop settles that prefix and leaves exactly the gross less it |
| `Payouts.NettedIsSettledIffClaimsAreFresh` | backend/src/lib/payouts.ts:370-445 | Over a whole run what payouts netted is what debts were settled, and the ledger balances without a twice-netted term, if and only if every claim that committed settled only debts nobody had settled since it read them |
| `Payouts.ClawbacksFollowRefunds` | backend/src/lib/payouts.ts:651-700 | Over every run, with stale reads and crashes: a clawback that claimed its line takes back or books exactly the smaller of what was paid for that line and what was refunded, the line is marked, and no item is clawed back twice |
| `ClaimRaces.RacingClaimsNetOnce` | backend/src/lib/payouts.ts:173-445 | With every query of a claim a step of its own and any number of claims, deliveries, refunds, sends and clawbacks between them: no debt is netted twice as long as no delivered line of a seller is refunded, has its refund failed, or sees its order enter or leave PAID while a claim of that seller is open |
| `ClaimRaces.OtherIsDoomed` | backend/src/lib/payouts.ts:385-463 | Why: of two undisturbed claims of one seller that are open together, the insert of one puts a line of the other into a payout, so the other's insert fails |
| `ClaimRaces.ClaimerAloneClaims` | backend/src/lib/payouts.ts:173-445 | The claim machine run without interruption leaves exactly the books of the uninterrupted claim, and never races |
| `DoubleNetting.RefundBetweenReadsNetsTwice` | backend/src/lib/payouts.ts:357-445 | A run in which a line is refunded between the reads of two claims, and both net one debt |
| `DoubleNetting.RefundFailsBetweenQueries` | backend/src/lib/payouts.ts:173-180 | A run in which no line stops being payable and both still do, because a refund fails between two queries of one claim |
| `StubPayouts.StubAgreesIffNoReversedRepeat` | backend/src/lib/payoutProvider.ts:304-320 | Over every schedule of claims, senders and clawbacks whose transfers are accepted, the stub leaves what the keyed provider leaves at every step if and only if no transfer is repeated after something of it was reversed |
| `StubPayouts.StubForgetsReversal` | backend/src/lib/payoutProvider.ts:316-320 | A run that ends so: two senders, a clawback that gets everything back, and a stub that afterwards holds the full amount with nothing reversed |
| `Payouts.SenderAloneSends` | backend/src/lib/payouts.ts:484-573 | The sender machine run without interruption leaves exactly the payout the uninterrupted function leaves |
| `Payouts.ReverserAloneClawsBack` | backend/src/lib/payouts.ts:651-722 | The clawback machine run without interruption leaves exactly the books the uninterrupted function leaves |
| `Payouts.SentAllOnce` | backend/src/lib/payouts.ts:583-625 | A pass sends each listed payout once and touches no other |
| `Payouts.PayableIsInsertable` | backend/src/lib/payouts.ts:385-463 | Lines that are payable on a fresh read never violate the uniqueness constraint |
| `Payouts.PayoutDesk.InsertPayout` | backend/src/lib/payouts.ts:385-463 | Inserts the payout, its lines and the settled debts, or on a violated constraint nothing at all |
| `Payouts.PayoutDesk.ClaimPayout` | backend/src/lib/payouts.ts:347-464 | The gates answer first in order; then the claim takes every payable line, nets the seller's debts and reports what is left to send |
| `Payouts.ClaimMeans` | backend/src/lib/payouts.ts:362-463 | What a claim commits: one payout of what its lines come to less the debts it nets, PAID at once exactly if nothing is left, one line per offer, and of the debts it saw the longest oldest-first run that fits settled and no other touched |
| `Payouts.PayoutDesk.SendClaimedPayout` | backend/src/lib/payouts.ts:484-573 | A PENDING payout with an account is transferred under its key and settled by the answer; every other case is named and changes nothing |
| `Payouts.SendingMeans` | backend/src/lib/payouts.ts:484-573 | Only a PENDING payout with an account moves: PAID exactly when the provider answers with a transfer, FAILED exactly when it answers that there will be none, PENDING without an answer; a transfer is of exactly the amount, and one that exists is not made again |
| `Payouts.PayoutDesk.SendPendingPayouts` | backend/src/lib/payouts.ts:583-625 | Sends the oldest pending payouts up to the limit, each once, and its counters account for all of them |
| `Payouts.PayoutDesk.ReverseForRefund` | backend/src/lib/payouts.ts:651-722 | Does nothing exactly if no unreversed line of the item is in a PAID payout or the refund is not positive. Otherwise it marks that line and no other; what comes back and what the seller then owes add up to the smaller of the line's amount and the refund, or to nothing without a transfer; and no other payout or debt moves |
| `Earnings.RefundsBlockTheirLines` | backend/src/lib/payouts.ts:104-126 | A line is withheld if and only if a live refund of its order names it or names no line |
| `Earnings.BucketsPartition` | backend/src/lib/payouts.ts:253-276 | Every line is counted in exactly one figure: the five sums add up to the total |
| `Earnings.BucketsMean` | backend/src/lib/payouts.ts:253-276 | Where a line is counted, in its own fields: refunded or unsendable is not earned, in a payout is that, undelivered is in flight, delivered is on hold until the hold is over and eligible from that moment on |
| `Earnings.PaysEveryLine` | backend/src/lib/payouts.ts:173-202 | What is paid out is every line delivered past its hold, not refunded and not in a payout, once, at price times quantity, and no other |
| `Earnings.PayableIsEligible` | backend/src/lib/payouts.ts:173-202 | The filter that pays and the test that summarises agree to the cent |
| `Earnings.HeldUntilIsFirstRelease` | backend/src/lib/payouts.ts:271-275 | heldUntil is exactly the first instant at which some held line becomes payable, and absent exactly when none is held |
| `Earnings.EarningsSummary` | backend/src/lib/payouts.ts:236-316 | The figures add up to the total of the lines, payable plus withheld is what payableItems would pay, and the gates decide which of the two it is |
| `RefreshTokens.ChainNeverForks` | backend/src/lib/refreshTokens.ts:72-142 | In every reachable state a token has at most one successor and one predecessor, only the last of a chain is live, and an issued session has at most one live token |
| `RefreshTokens.SameOriginSameLine` | backend/src/lib/refreshTokens.ts:116-133 | Two tokens of one session lie on one line of rotations |
| `RefreshTokens.RevokedTokensNeverWork` | backend/src/lib/refreshTokens.ts:218-228 | After everything is revoked, no request presenting a token that existed then wins a claim or passes the grace check, whatever was in flight |
| `RefreshTokens.RacesAreNotPunished` | backend/src/lib/refreshTokens.ts:155-203 | Any number of rotations of one live token, in any interleaving inside the grace window: exactly one gets a new token, every other is let through without one, none is read as reuse, and one token is live |
| `RefreshTokens.LateReplayIsPunished` | backend/src/lib/refreshTokens.ts:155-203 | Over every run: a call that decides on a token revoked more than ten seconds ago, or without a successor, ends as reuse whatever runs between its statements, and then no token of that user is live and no other row is touched |
| `RefreshTokens.RecentReplayIsGracedIff` | backend/src/lib/refreshTokens.ts:175-203 | Over every run: inside the ten seconds it is let through, and nobody signed out, if and only if the token it was replaced by is then live and unexpired; otherwise it too ends as reuse |
| `RefreshTokens.CallAloneRotates` | backend/src/lib/refreshTokens.ts:72-203 | The statement-by-statement machine run without interruption equals the uninterrupted rotation |
| `RefreshTokens.TokenStore.DecideOnSupersededToken` | backend/src/lib/refreshTokens.ts:155-203 | Let through if and only if the token was rotated at most ten seconds ago and its replacement is live and unexpired, and then nothing changes; otherwise reuse, with every live token of the user revoked and no other row touched |
| `RefreshTokens.TokenStore.RotateRefreshToken` | backend/src/lib/refreshTokens.ts:72-142 | A live unexpired token is exchanged for exactly one new one, an expired one revoked; a superseded one is let through if and only if it was rotated at most ten seconds ago and its replacement is live and unexpired, and otherwise signs the user out; an unknown one is refused |
| `RefreshTokens.TokenStore.RevokeAllRefreshTokens` | backend/src/lib/refreshTokens.ts:218-228 | Revokes exactly the user's live tokens but the exception, and counts them |
| `RateLimit.AtMostTwiceTheLimit` | backend/src/lib/rateLimit.ts:65-85 | Any interval as long as the window contains at most twice the limit of allowed calls per key |
| `RateLimit.FirstCallsOfTheWindow` | backend/src/lib/rateLimit.ts:71-84 | In the history of calls alone: a call is allowed if and only if no window is open or fewer than the limit were made since it began, and a refused one is told in whole seconds, rounded up, how long that window still lasts |
| `RateLimit.SweepingChangesNoAnswer` | backend/src/lib/rateLimit.ts:57-63 | Dropping expired buckets changes no answer, for any keys under any rules |
| `RateLimit.StoresAgree` | backend/src/lib/rateLimit.ts:102-160 | For a limit of at least 1 the memory limiter and the INCR/PEXPIRE script give every call the same answer and the same retry time |
| `RateLimit.StoresAgreeIffLimitPositive` | backend/src/lib/rateLimit.ts:71-82 | The two agree on all runs if and only if the limit is at least 1 |
| `RateLimit.RetryAfterSuffices` | backend/src/lib/rateLimit.ts:76-81 | A refused caller that waits as told gets through, and one whole second less is not enough |
| `RateLimit.CounterCounts` | backend/src/lib/rateLimit.ts:102-108 | The shared counter is the number of uses since its window began |
| `RateLimit.ClearedKeysStartOver` | backend/src/lib/rateLimit.ts:197-211 | After any history a cleared key is answered as though it had never been used, and every other key as though nothing had been cleared |
| `RateLimit.Limiter.SweepBuckets` | backend/src/lib/rateLimit.ts:57-63 | At most once a minute, removes exactly the expired buckets |
| `RateLimit.Limiter.CheckInMemory` | backend/src/lib/rateLimit.ts:65-85 | One check against the memory buckets equals the specified one |
| `RateLimit.Limiter.IncrAndExpire` | backend/src/lib/rateLimit.ts:102-108 | Counts the use, starting a window only on the first, and returns the count and time left |
| `RateLimit.Limiter.CheckRateLimit` | backend/src/lib/rateLimit.ts:131-179 | Memory without a store, the script with one, and with the store unreachable allow or refuse as asked |
| `Cache.StalenessIsBounded` | backend/src/lib/cache.ts:138-286 | In seconds, over every run with background refreshes and invalidation: what is served was written less than live + stale seconds before by a write of that key and value, and is called stale exactly once live seconds have passed; live is ttlSeconds, for an absence negativeTtlSeconds or else at most 15, and stale is staleSeconds or else as long again up to 60 |
| `Cache.KeptIsServed` | backend/src/lib/cache.ts:157-286 | The converse: what a load brought back is served without another load to whoever reads the key within those seconds, while it is neither invalidated nor written again |
| `Cache.LapsedIsLoaded` | backend/src/lib/cache.ts:157-166 | Once the live and stale seconds of a write have passed the next read loads |
| `Cache.OneRefreshAtATime` | backend/src/lib/cache.ts:186-196 | However many read a stale key, until the refresh gives up its lock no other starts within ten seconds of it |
| `Cache.AbsenceIsForgotten` | backend/src/lib/cache.ts:138-155 | A cached absence written with default options is served for less than thirty seconds |
| `Cache.InvalidatedIsNotServed` | backend/src/lib/cache.ts:401-411 | Once a key is invalidated, whatever is later served of it was written after that, over every continuation of every run |
| `Cache.CachedManyAgrees` | backend/src/lib/cache.ts:301-375 | If every unexpired entry agrees with the database, each id resolves as in a plain load whatever the mix of hits, absences, expired entries and repeats, and the store agrees afterwards |
| `Cache.EachMissingIdOnce` | backend/src/lib/cache.ts:321-326 | The loader sees each id without an unexpired entry, once, and no other |
| `Cache.HitsAndMissesAdd` | backend/src/lib/cache.ts:318-351 | Every id looked up is counted once, as a hit or as a miss |
| `Cache.RedisCache.Write` | backend/src/lib/cache.ts:157-166 | Stores the value under its key for live + stale seconds, soft-expired after the live ones, or nothing if that is not positive; other keys stay |
| `Cache.RedisCache.ClaimRefresh` | backend/src/lib/cache.ts:186-196 | One caller gets the lock while it lasts |
| `Cache.RedisCache.Cached` | backend/src/lib/cache.ts:225-286 | Serves what the store keeps, stale exactly past its soft expiry and then starting at most one refresh; or loads and stores it for live + stale seconds; a store that fails is a load; the four counters move as the outcome says |
| `Cache.RedisCache.Refresh` | backend/src/lib/cache.ts:259-267 | Stores what the load returned if it returned, and gives the lock up either way |
| `Cache.RedisCache.CachedMany` | backend/src/lib/cache.ts:301-375 | The result maps exactly the ids that resolve to something, load is asked for exactly the missing ids and only if there are any, each of them is stored, present or absent, and the counters say how many were found and missed |
| `Placement.OneLivePlacementPerPlace` | backend/src/lib/placement.ts:214-441 | Over every interleaving at most one placement is LIVE per slot and position, every position exists, and agreed, live and ended rows carry a price |
| `Placement.AgreementsAreKept` | backend/src/lib/placement.ts:51-58 | Terminal states stay, and once agreed a row's terms never change |
| `Placement.SweepSettles` | backend/src/lib/placement.ts:501-531 | After a sweep nothing is live past its end, and each of the oldest due placements is live or stands behind one that was live or is older in the batch |
| `Placement.SweepStartsWhatIsDue` | backend/src/lib/placement.ts:501-531 | Whatever goes live was AGREED with a start at or before now and no end at or before now, only what is over ends, nothing else moves; and each of the first fifty that are due is live or finds its place taken by one that was live or is older |
| `Placement.WentLiveCounts` | backend/src/lib/placement.ts:522-528 | The sweep's counter is the number of batch rows now live |
| `Placement.Desk.RequestPlacement` | backend/src/lib/placement.ts:110-197 | Refuses for the code's reasons in the code's order, or adds the request |
| `Placement.Desk.Transition` | backend/src/lib/placement.ts:214-251 | Moves the row exactly when it is in a permitted state |
| `Placement.Desk.CounterOffer` | backend/src/lib/placement.ts:254-292 | Fills what the counter leaves out from the row, refuses an impossible position, and proposes the terms |
| `Placement.Desk.AcceptAsOffered` | backend/src/lib/placement.ts:295-320 | A request is agreed at the seller's own offer |
| `Placement.Desk.AcceptCounter` | backend/src/lib/placement.ts:323-348 | A counter is agreed, terms unchanged |
| `Placement.Desk.DeclinePlacement` | backend/src/lib/placement.ts:351-367 | Declines while an admin can still answer |
| `Placement.Desk.WithdrawPlacement` | backend/src/lib/placement.ts:370-393 | The seller withdraws its own request until it is live |
| `Placement.Desk.Activate` | backend/src/lib/placement.ts:408-432 | Goes live exactly when agreed and the place is free |
| `Placement.Desk.EndPlacement` | backend/src/lib/placement.ts:435-441 | Ends exactly a live placement |
| `Placement.Desk.SweepPlacements` | backend/src/lib/placement.ts:501-531 | Nothing goes live before its start or after its end, only what is over ends, each of the first fifty that are due is live or finds its place taken, and activated plus blocked is the batch |
| `QuietHours.WindowIsCyclic` | backend/src/lib/quietHours.ts:104-110 | The test is membership of the cyclic interval [from, to), wrapped or not |
| `QuietHours.OpensAtTheRightMinute` | backend/src/lib/quietHours.ts:84-133 | A held text is let through at the first minute outside the window, within a day; no window, or a malformed one, holds nothing |

## Left out

- Stock.StockIsConserved: a seller may overwrite a listing's quantity from the edit form (backend/src/routes/seller.ts); that ends conservation by design, so such an edit is not a step here, nor is the hard deletion of rows.
- NoLoss.NoEventIsLost: Kafka's retention is not modelled (a message stays on its log), nor operator replay from the dead-letter queue.
- Payouts.PayoutLedgerBalances: fees, currencies and the provider's own balance are not modelled.
- Payouts.PayoutDesk.ClaimPayout: uninterrupted, so it never answers `raced`, nor meets the violated constraint that the fully netted branch leaves uncaught; in `ClaimRaces` either just ends the claim.
- ClaimRaces.RacingClaimsNetOnce: one direction only; a change of a line's standing while a claim is open need not end in a debt netted twice. The condition that is exact is that of `Payouts.NettedIsSettledIffClaimsAreFresh`.
- Earnings.EarningsSummary: `paidCents` and `debtCents` are single aggregates over other tables and are not modelled.
- Placement.AgreementsAreKept: a seller's acceptance names no price, so a counter-offer written between its reading and its accepting is what it agrees to.
- RateLimit.AtMostTwiceTheLimit: runs contain no `clearRateLimit`, which is meant to start a window over.
- Cache.RedisCache.CachedMany: a pipeline that fails half way is modelled as one that stores everything or nothing.
- QuietHours.OpensAtTheRightMinute: takes local minutes; parsing HH:MM, time zones and daylight saving are not modelled.
- OutboxDesk.Desk.RelayOnce: the text of the last error that a failed batch writes on its rows is not modelled; the attempt counter is.
- StockRoom.Room.CreateOrderFromHolds: does not model HOLD_EXPIRED, which a transaction taken as one step cannot meet.
- Placement.Desk.RequestPlacement: does not model the message thread that is opened with the request.
- Cache.RedisCache.Cached: a `load` that throws is the caller's error and is not modelled in the foreground.
- Order references, addresses, currencies, notifications to sellers and message texts: carried along by the code, decided by nothing here.
- A checkout's lines are in order of their holds, and a claim's lines in order of their sale; the code orders them by listing id and by delivery, which no property here depends on.
- Which preference a user has for a channel, the SMS cap and consent gates: inputs of a delivery.
- The pay, cancel and webhook routes, and real Stripe, Twilio, Kafka and Redis clients: providers are the parameters of the steps.
- stalePending.ts, returns.ts, messaging, KYC, moderation, wishlist, image and mail code: not part of this model.
- Ordering of one user's events across several relays: batches under SKIP LOCKED may publish out of order, so nothing is claimed.
- `createAccount`, `onboardingLink`, `accountStatus`, statistics and listing pages: reads and plumbing.
