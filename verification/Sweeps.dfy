/** The sweeps that bring hidden stock back (`releaseExpiredHolds` in
backend/src/lib/reservations.ts, `releaseAbandonedOrders` and
`reconcileProcessingOrders` in backend/src/lib/orders.ts).

A listing whose stock is held or committed is hidden from the catalogue, so no
request can ever free it: the sweeps are the only way back.
*/
module Sweeps {
  import opened Tables
  import opened OrderState
  import opened IntentState
  import opened Stock

  /* ------------------------------------------------------------------ *
   * Expired holds
   * ------------------------------------------------------------------ */

  function Expirable(now: int): Reservation -> bool { (r: Reservation) => r.status == Held && r.expiresAt <= now }

  /** The loop of `releaseExpiredHolds`: each hold is re-read and skipped if it is no longer HELD. */
  function ExpireAll(s: Shop, ids: seq<ReservationId>): Shop
    requires forall r :: 0 <= r < |s.reservations| ==> s.reservations[r].listing < |s.listings|
    ensures var s' := ExpireAll(s, ids);
            && |s'.listings| == |s.listings| && |s'.reservations| == |s.reservations|
            && s' == s.(listings := s'.listings, reservations := s'.reservations)
            && forall r :: 0 <= r < |s.reservations| ==>
                 s'.reservations[r] == if r in ids && s.reservations[r].status == Held
                                       then s.reservations[r].(status := Expired) else s.reservations[r]
  {
    if |ids| == 0 then s
    else
      var before := ExpireAll(s, ids[..|ids| - 1]);
      var last := ids[|ids| - 1];
      assert ids == ids[..|ids| - 1] + [last];
      if last < |before.reservations| && before.reservations[last].status == Held
      then EndHold(before, last, Expired) else before
  }

  function HoldSweep(s: Shop): Shop
    requires forall r :: 0 <= r < |s.reservations| ==> s.reservations[r].listing < |s.listings|
  {
    ExpireAll(s, RowsWhere(s.reservations, Expirable(s.now)))
  }

  lemma {:induction false} ExpireAllKeepsInv(s: Shop, ids: seq<ReservationId>)
    requires Inv(s)
    ensures Inv(ExpireAll(s, ids))
  {
    if |ids| > 0 {
      var before, last := ExpireAll(s, ids[..|ids| - 1]), ids[|ids| - 1];
      ExpireAllKeepsInv(s, ids[..|ids| - 1]);
      if last < |before.reservations| && before.reservations[last].status == Held {
        EndHoldKeepsInv(before, last, Expired);
      }
    }
  }

  /** The sweep ends exactly the holds that have lapsed and puts exactly their units
      back on the shelf. */
  lemma HoldSweepReturnsLapsedUnits(s: Shop, l: ListingId)
    requires Inv(s) && l < |s.listings|
    ensures var s' := HoldSweep(s);
            && Inv(s')
            && (forall r :: 0 <= r < |s.reservations| ==>
                  s'.reservations[r] == if s.reservations[r].status == Held && s.reservations[r].expiresAt <= s.now
                                        then s.reservations[r].(status := Expired) else s.reservations[r])
            && s'.listings[l].quantity == s.listings[l].quantity + Sum(s.reservations, LapsedOn(l, s.now))
  {
    var ids := RowsWhere(s.reservations, Expirable(s.now));
    var s' := HoldSweep(s);
    ExpireAllKeepsInv(s, ids);
    Selects(s.reservations, Expirable(s.now));
    assert Conserved(s, l) && Conserved(s', l);
    SumEqual(s.reservations, s'.reservations, StillHeldOn(l, s.now), HeldOn(l));
    SumSplit(s.reservations, HeldOn(l), StillHeldOn(l, s.now), LapsedOn(l, s.now));
  }

  function StillHeldOn(l: ListingId, now: int): Reservation -> int {
    (r: Reservation) => if r.status == Held && r.expiresAt > now && r.listing == l then r.quantity else 0
  }

  /* ------------------------------------------------------------------ *
   * Orders
   * ------------------------------------------------------------------ */

  function Abandoned(now: int): Order -> bool {
    (o: Order) => o.status == PendingPayment && o.createdAt <= now - ORDER_PAYMENT_TTL_MS
  }

  function Stuck(now: int): Order -> bool {
    (o: Order) => o.status == Processing && o.updatedAt <= now - ORDER_PROCESSING_TTL_MS
  }

  /** The loop of `releaseAbandonedOrders`. */
  function ReleaseAll(s: Shop, ids: seq<OrderId>): (s': Shop)
    requires forall k :: 0 <= k < |ids| ==> ids[k] < |s.orders|
    ensures |s'.orders| == |s.orders| && s' == s.(listings := s'.listings, orders := s'.orders)
    ensures |s'.listings| == |s.listings|
    ensures forall o :: 0 <= o < |s.orders| ==>
              s'.orders[o] == if o in ids && CommitsStock(s.orders[o].status)
                              then s.orders[o].(status := Cancelled, updatedAt := s.now) else s.orders[o]
  {
    if |ids| == 0 then s
    else
      assert ids == ids[..|ids| - 1] + [ids[|ids| - 1]];
      ReleaseOrder(ReleaseAll(s, ids[..|ids| - 1]), ids[|ids| - 1], Cancelled)
  }

  function AbandonSweep(s: Shop): Shop {
    ReleaseAll(s, RowsWhere(s.orders, Abandoned(s.now)))
  }

  /** The stub's `cancelIntent`: a payment that went through is never cancelled. */
  function CancelIntent(intents: map<IntentId, IntentStatus>, i: IntentId): map<IntentId, IntentStatus> {
    if i in intents then intents[i := AfterCancel(intents[i])] else intents
  }

  /** The provider has no record, so nothing can have been charged. */
  predicate Unrecorded(order: Order, intents: map<IntentId, IntentStatus>) {
    order.intent == None || order.intent.value !in intents
  }

  /** One turn of the loop of `reconcileProcessingOrders`. */
  function Reconcile(s: Shop, o: OrderId): Shop
    requires o < |s.orders|
  {
    var order := s.orders[o];
    if Unrecorded(order, s.intents) then Unclaim(s, o)
    else
      match OutcomeOf(s.intents[order.intent.value])
      case PaymentSucceeded => MarkPaid(s, o)
      case PaymentFailed => ReleaseOrder(s, o, OrderFailed)
      case PaymentPending =>
        if order.createdAt <= s.now - ORDER_PAYMENT_TTL_MS
        then ReleaseOrder(s.(intents := CancelIntent(s.intents, order.intent.value)), o, Cancelled)
        else s
  }

  function ReconcileAll(s: Shop, ids: seq<OrderId>): (s': Shop)
    requires forall k :: 0 <= k < |ids| ==> ids[k] < |s.orders|
    ensures |s'.orders| == |s.orders|
  {
    if |ids| == 0 then s else Reconcile(ReconcileAll(s, ids[..|ids| - 1]), ids[|ids| - 1])
  }

  /** A payment still pending inside its window is left to the webhook. */
  predicate LeftPending(s: Shop, o: OrderId)
    requires o < |s.orders|
  {
    && !Unrecorded(s.orders[o], s.intents)
    && OutcomeOf(s.intents[s.orders[o].intent.value]) == PaymentPending
    && s.orders[o].createdAt > s.now - ORDER_PAYMENT_TTL_MS
  }

  /** How many orders the loop counts as settled. */
  function SettledIn(s: Shop, ids: seq<OrderId>): nat
    requires forall k :: 0 <= k < |ids| ==> ids[k] < |s.orders|
  {
    if |ids| == 0 then 0
    else
      var init := ids[..|ids| - 1];
      SettledIn(s, init) + if LeftPending(ReconcileAll(s, init), ids[|ids| - 1]) then 0 else 1
  }

  function ReconcileSweep(s: Shop): Shop {
    ReconcileAll(s, RowsWhere(s.orders, Stuck(s.now)))
  }

  /** `startOrderSweeper` runs the two sweeps in this order, once a minute. */
  function OrderTick(s: Shop): Shop { ReconcileSweep(AbandonSweep(s)) }

  lemma {:induction false} ReleaseAllKeepsInv(s: Shop, ids: seq<OrderId>)
    requires Inv(s) && forall k :: 0 <= k < |ids| ==> ids[k] < |s.orders|
    ensures Inv(ReleaseAll(s, ids))
  {
    if |ids| > 0 {
      ReleaseAllKeepsInv(s, ids[..|ids| - 1]);
      ReleaseOrderKeepsInv(ReleaseAll(s, ids[..|ids| - 1]), ids[|ids| - 1], Cancelled);
    }
  }

  lemma ReconcileKeepsInv(s: Shop, o: OrderId)
    requires Inv(s) && o < |s.orders|
    ensures Inv(Reconcile(s, o))
  {
    var order := s.orders[o];
    if Unrecorded(order, s.intents) {
      OrderRowKeepsInv(s, o, Unclaim(s, o).orders[o]);
    } else {
      var asked := s.(intents := CancelIntent(s.intents, order.intent.value));
      OutsideKeepsInv(s, asked.intents, s.now);
      MarkPaidKeepsInv(s, o);
      ReleaseOrderKeepsInv(s, o, OrderFailed);
      ReleaseOrderKeepsInv(asked, o, Cancelled);
    }
  }

  /** Cancelling never invents or undoes a charge. */
  ghost predicate SameCharges(before: map<IntentId, IntentStatus>, after: map<IntentId, IntentStatus>) {
    after.Keys == before.Keys && forall i <- before :: before[i] == Succeeded <==> after[i] == Succeeded
  }

  /** Where reconciling leaves one order it picked up. */
  ghost predicate Reconciled(before: Order, intents: map<IntentId, IntentStatus>, now: int, after: Order) {
    if Unrecorded(before, intents) then after == before.(status := PendingPayment, updatedAt := now)
    else if intents[before.intent.value] == Succeeded then after == before.(status := Paid, updatedAt := now)
    else if before.createdAt <= now - ORDER_PAYMENT_TTL_MS then
      || after == before.(status := OrderFailed, updatedAt := now)
      || after == before.(status := Cancelled, updatedAt := now)
    else
      (after == before.(status := OrderFailed, updatedAt := now) || after == before)
  }

  lemma ReconcileSettles(s: Shop, o: OrderId)
    requires o < |s.orders| && s.orders[o].status == Processing
    ensures var s' := Reconcile(s, o);
            && |s'.orders| == |s.orders| && s'.now == s.now && s'.stocked == s.stocked
            && s'.reservations == s.reservations && |s'.listings| == |s.listings|
            && SameCharges(s.intents, s'.intents)
            && Reconciled(s.orders[o], s.intents, s.now, s'.orders[o])
            && forall p :: 0 <= p < |s.orders| && p != o ==> s'.orders[p] == s.orders[p]
  {
  }

  /** The loop settles each order it fetched and no other. */
  lemma {:induction false} ReconcileAllSettles(s: Shop, ids: seq<OrderId>)
    requires Inv(s)
    requires forall k :: 0 <= k < |ids| ==> ids[k] < |s.orders| && s.orders[ids[k]].status == Processing
    requires forall j, k :: 0 <= j < k < |ids| ==> ids[j] < ids[k]
    ensures var s' := ReconcileAll(s, ids);
            && Inv(s') && s'.now == s.now && s'.stocked == s.stocked
            && s'.reservations == s.reservations && |s'.listings| == |s.listings|
            && SameCharges(s.intents, s'.intents)
            && forall o :: 0 <= o < |s.orders| ==>
                 if o in ids then Reconciled(s.orders[o], s.intents, s.now, s'.orders[o])
                 else s'.orders[o] == s.orders[o]
  {
    if |ids| > 0 {
      var init, last := ids[..|ids| - 1], ids[|ids| - 1];
      ReconcileAllSettles(s, init);
      LastId(ids);
      ReconcileKeepsInv(ReconcileAll(s, init), last);
      ReconcileSettles(ReconcileAll(s, init), last);
    }
  }

  /** One stuck order, by what the provider holds of its payment: nothing, a charge, a payment
      that may still go through, or one that will not. An order is left alone exactly if its
      payment may still go through and its half hour is not over; past that the payment is
      cancelled at the provider in the same turn. */
  lemma ReconcileFollowsProvider(s: Shop, o: OrderId)
    requires o < |s.orders| && s.orders[o].status == Processing
    ensures var order, after := s.orders[o], Reconcile(s, o);
            if order.intent == None || order.intent.value !in s.intents then
              after == s.(orders := s.orders[o := order.(status := PendingPayment, updatedAt := s.now)])
            else if s.intents[order.intent.value] == Succeeded then
              after == s.(listings := SellOut(s.listings, order.items),
                          orders := s.orders[o := order.(status := Paid, updatedAt := s.now)])
            else if s.intents[order.intent.value] !in {NeedsAction, InProcess} then
              after == s.(listings := PutBack(s.listings, order.items),
                          orders := s.orders[o := order.(status := OrderFailed, updatedAt := s.now)])
            else if order.createdAt <= s.now - 30 * 60 * 1000 then
              after == s.(listings := PutBack(s.listings, order.items),
                          orders := s.orders[o := order.(status := Cancelled, updatedAt := s.now)],
                          intents := s.intents[order.intent.value := Canceled])
            else after == s
    ensures LeftPending(s, o) <==> Reconcile(s, o) == s
  {
    assert Reconcile(s, o) == s ==> s.orders[o].status == Reconcile(s, o).orders[o].status;
  }

  /** The first sweep cancels exactly the orders unpaid for half an hour. */
  lemma AbandonedAreCancelled(s: Shop, o: OrderId)
    requires o < |s.orders|
    ensures |AbandonSweep(s).orders| == |s.orders|
    ensures AbandonSweep(s).orders[o]
            == if s.orders[o].status == PendingPayment && s.orders[o].createdAt <= s.now - 30 * 60 * 1000
               then s.orders[o].(status := Cancelled, updatedAt := s.now) else s.orders[o]
  {
    Selects(s.orders, Abandoned(s.now));
  }

  /** The second takes up exactly the orders that have been PROCESSING for two minutes. */
  lemma StuckAreReconciled(s: Shop, o: OrderId)
    requires Inv(s) && o < |s.orders|
    ensures |ReconcileSweep(s).orders| == |s.orders|
    ensures if s.orders[o].status == Processing && s.orders[o].updatedAt <= s.now - 2 * 60 * 1000
            then Reconciled(s.orders[o], s.intents, s.now, ReconcileSweep(s).orders[o])
            else ReconcileSweep(s).orders[o] == s.orders[o]
  {
    Selects(s.orders, Stuck(s.now));
    ReconcileAllSettles(s, RowsWhere(s.orders, Stuck(s.now)));
  }

  /* ------------------------------------------------------------------ *
   * Everything comes back
   * ------------------------------------------------------------------ */

  /** Every window has closed: no hold is live, and every open order is old. */
  ghost predicate PastTheWindows(s: Shop) {
    && (forall r :: 0 <= r < |s.reservations| && s.reservations[r].status == Held ==>
          s.reservations[r].expiresAt <= s.now)
    && (forall o :: 0 <= o < |s.orders| && CommitsStock(s.orders[o].status) ==>
          && s.orders[o].createdAt <= s.now - ORDER_PAYMENT_TTL_MS
          && (s.orders[o].status == Processing ==> s.orders[o].updatedAt <= s.now - ORDER_PROCESSING_TTL_MS))
  }

  function Later(s: Shop, ms: nat): Shop { s.(now := s.now + ms) }

  /** What one tick does to every order once the windows have closed. */
  ghost predicate Ticked(before: Shop, after: Shop) {
    && Inv(after) && after.now == before.now && after.stocked == before.stocked
    && after.reservations == before.reservations && |after.orders| == |before.orders|
    && |after.listings| == |before.listings|
    && SameCharges(before.intents, after.intents)
    && forall o :: 0 <= o < |before.orders| ==>
         match before.orders[o].status
         case PendingPayment => after.orders[o] == before.orders[o].(status := Cancelled, updatedAt := before.now)
         case Processing => Reconciled(before.orders[o], before.intents, before.now, after.orders[o])
         case _ => after.orders[o] == before.orders[o]
  }

  lemma TickSettles(s: Shop)
    requires Inv(s) && PastTheWindows(s)
    ensures Ticked(s, OrderTick(s))
  {
    var stale := RowsWhere(s.orders, Abandoned(s.now));
    ReleaseAllKeepsInv(s, stale);
    Selects(s.orders, Abandoned(s.now));
    var s1 := AbandonSweep(s);
    var stuck := RowsWhere(s1.orders, Stuck(s1.now));
    Selects(s1.orders, Stuck(s1.now));
    ReconcileAllSettles(s1, stuck);
  }

  lemma TickedOrder(s: Shop, s': Shop, o: OrderId)
    requires PastTheWindows(s) && Ticked(s, s') && o < |s.orders|
    ensures CommitsStock(s'.orders[o].status)
            <==> s.orders[o].status == Processing && Unrecorded(s.orders[o], s.intents)
    ensures CommitsStock(s'.orders[o].status) ==>
              s'.orders[o].status == PendingPayment && s'.orders[o].createdAt == s.orders[o].createdAt
    ensures TookMoney(s'.orders[o].status)
            <==> TookMoney(s.orders[o].status) || ChargedUnrecorded(s.orders[o], s.intents)
  {
  }

  /** Why one tick is not enough: an order still commits stock after it exactly when
      the provider had no record of its payment, since that reopens it. */
  lemma OneTickLeavesTheReopened(s: Shop, o: OrderId)
    requires Inv(s) && PastTheWindows(s) && o < |s.orders|
    ensures o < |OrderTick(s).orders|
    ensures CommitsStock(OrderTick(s).orders[o].status)
            <==> s.orders[o].status == Processing && Unrecorded(s.orders[o], s.intents)
  {
    TickSettles(s);
    TickedOrder(s, OrderTick(s), o);
  }

  /** A charge that went through and was never written down. */
  predicate ChargedUnrecorded(order: Order, intents: map<IntentId, IntentStatus>) {
    order.status == Processing && !Unrecorded(order, intents) && intents[order.intent.value] == Succeeded
  }

  lemma SweptOfHolds(s: Shop)
    requires Inv(s) && PastTheWindows(s)
    ensures var swept := HoldSweep(s);
            && Inv(swept) && PastTheWindows(swept)
            && swept.orders == s.orders && swept.stocked == s.stocked && swept.intents == s.intents
            && |swept.listings| == |s.listings|
            && forall r :: 0 <= r < |swept.reservations| ==> swept.reservations[r].status != Held
  {
    var ids := RowsWhere(s.reservations, Expirable(s.now));
    ExpireAllKeepsInv(s, ids);
    Selects(s.reservations, Expirable(s.now));
  }

  lemma WindowsStayClosed(s: Shop, s': Shop, ms: nat)
    requires PastTheWindows(s) && Ticked(s, s')
    requires forall r :: 0 <= r < |s.reservations| ==> s.reservations[r].status != Held
    ensures PastTheWindows(Later(s', ms))
  {
    forall o | 0 <= o < |s'.orders| && CommitsStock(s'.orders[o].status)
      ensures s'.orders[o].status == PendingPayment && s'.orders[o].createdAt <= s'.now - ORDER_PAYMENT_TTL_MS
    {
      TickedOrder(s, s', o);
    }
  }

  lemma NothingReopensTwice(s: Shop, s1: Shop, ms: nat, end: Shop, o: OrderId)
    requires PastTheWindows(s) && Ticked(s, s1) && PastTheWindows(Later(s1, ms)) && Ticked(Later(s1, ms), end)
    requires o < |s.orders|
    ensures !CommitsStock(end.orders[o].status)
    ensures TookMoney(end.orders[o].status)
            <==> TookMoney(s.orders[o].status) || ChargedUnrecorded(s.orders[o], s.intents)
  {
    TickedOrder(s, s1, o);
    TickedOrder(Later(s1, ms), end, o);
  }

  /** With nothing held and nothing open, a unit is on the shelf or sold. */
  lemma ShelfOrSold(s: Shop, l: ListingId)
    requires Inv(s) && l < |s.listings|
    requires forall r :: 0 <= r < |s.reservations| ==> s.reservations[r].status != Held
    requires forall o :: 0 <= o < |s.orders| ==> !CommitsStock(s.orders[o].status)
    ensures |s.stocked| == |s.listings|
    ensures s.listings[l].quantity == s.stocked[l] - Sum(s.orders, SoldOn(l))
  {
    assert Conserved(s, l);
    SumZero(s.reservations, HeldOn(l));
    SumEqual(s.orders, s.orders, TakenOn(l), SoldOn(l));
  }

  /** Everything a shop owes its shelves is back. Newly paid are exactly the PROCESSING orders
      whose charge had gone through; no other order was paid and no paid one given up. */
  ghost predicate Drained(s: Shop, end: Shop) {
    && |end.orders| == |s.orders| && |end.listings| == |s.listings| == |s.stocked|
    && (forall r :: 0 <= r < |end.reservations| ==> end.reservations[r].status != Held)
    && (forall o :: 0 <= o < |s.orders| ==>
          && !CommitsStock(end.orders[o].status)
          && (TookMoney(end.orders[o].status)
              <==> TookMoney(s.orders[o].status) || ChargedUnrecorded(s.orders[o], s.intents)))
    && (forall l :: 0 <= l < |s.listings| ==> end.listings[l].quantity == s.stocked[l] - Sum(end.orders, SoldOn(l)))
  }

  lemma TicksDrain(s: Shop, s1: Shop, ms: nat, end: Shop)
    requires PastTheWindows(s) && Ticked(s, s1) && PastTheWindows(Later(s1, ms)) && Ticked(Later(s1, ms), end)
    requires |s.listings| == |s.stocked|
    requires forall r :: 0 <= r < |s.reservations| ==> s.reservations[r].status != Held
    ensures Drained(s, end)
  {
    forall o | 0 <= o < |s.orders|
      ensures !CommitsStock(end.orders[o].status)
      ensures TookMoney(end.orders[o].status)
              <==> TookMoney(s.orders[o].status) || ChargedUnrecorded(s.orders[o], s.intents)
    {
      NothingReopensTwice(s, s1, ms, end, o);
    }
    forall l | 0 <= l < |s.listings| ensures end.listings[l].quantity == s.stocked[l] - Sum(end.orders, SoldOn(l)) {
      ShelfOrSold(end, l);
    }
  }

  lemma TwoTicksDrain(s: Shop, ms: nat)
    requires Inv(s) && PastTheWindows(s)
    requires forall r :: 0 <= r < |s.reservations| ==> s.reservations[r].status != Held
    ensures Drained(s, OrderTick(Later(OrderTick(s), ms)))
  {
    TickSettles(s);
    var first := OrderTick(s);
    OutsideKeepsInv(first, first.intents, first.now + ms);
    WindowsStayClosed(s, first, ms);
    TickSettles(Later(first, ms));
    TicksDrain(s, first, ms, OrderTick(Later(first, ms)));
  }

  lemma SweepsDrain(s: Shop, ms: nat)
    requires Inv(s) && PastTheWindows(s)
    ensures Drained(s, OrderTick(Later(OrderTick(HoldSweep(s)), ms)))
  {
    SweptOfHolds(s);
    TwoTicksDrain(HoldSweep(s), ms);
  }

  /** Nothing is dated in the future, and no hold outlives its fifteen minutes. */
  ghost predicate Dated(s: Shop) {
    && (forall r :: 0 <= r < |s.reservations| ==> s.reservations[r].expiresAt <= s.now + RESERVATION_TTL_MS)
    && (forall o :: 0 <= o < |s.orders| ==> s.orders[o].createdAt <= s.now && s.orders[o].updatedAt <= s.now)
  }

  lemma HoldStepKeepsDates(s: Shop, step: Step)
    requires Refs(s) && Dated(s)
    ensures Dated(HoldStep(s, step))
  {
  }

  lemma OrderStepKeepsDates(s: Shop, step: Step)
    requires Dated(s)
    ensures Dated(OrderStep(s, step)) && Dated(ListingStep(s, step))
  {
  }

  lemma StepKeepsDates(s: Shop, step: Step)
    requires Refs(s) && Dated(s)
    ensures Dated(Do(s, step))
  {
    HoldStepKeepsDates(s, step);
    OrderStepKeepsDates(s, step);
  }

  lemma {:induction false} RunIsDated(steps: seq<Step>)
    ensures Dated(Run(steps))
  {
    if |steps| > 0 {
      RunIsDated(steps[..|steps| - 1]);
      StepKeepsDates(Run(steps[..|steps| - 1]), steps[|steps| - 1]);
    }
  }

  /** After any run, half an hour of silence, one hold sweep and two order ticks, nothing is
      held and no order is open: every unit is on the shelf or sold, no paid order gave
      anything back, and every charge that went through for a PROCESSING order is recorded. */
  lemma SweepsDrainEverything(steps: seq<Step>, silence: nat, ms: nat)
    requires silence >= ORDER_PAYMENT_TTL_MS
    ensures var s := Later(Run(steps), silence);
            Inv(s) && Drained(s, OrderTick(Later(OrderTick(HoldSweep(s)), ms)))
  {
    var s := Later(Run(steps), silence);
    RunKeepsInv(steps);
    OutsideKeepsInv(Run(steps), s.intents, s.now);
    RunIsDated(steps);
    SweepsDrain(s, ms);
  }

  /** The provider holds a succeeded charge for this order. */
  predicate Charged(s: Shop, o: OrderId)
    requires o < |s.orders|
  {
    !Unrecorded(s.orders[o], s.intents) && s.intents[s.orders[o].intent.value] == Succeeded
  }

  /** The sweeps leave a succeeded charge unrecorded if and only if its order was neither
      PROCESSING nor already paid when the first tick began: an order waiting for payment is
      cancelled without asking the provider. */
  lemma ChargeIsLostIffNotProcessing(steps: seq<Step>, silence: nat, ms: nat, o: OrderId)
    requires silence >= ORDER_PAYMENT_TTL_MS && o < |Run(steps).orders| && Charged(Run(steps), o)
    ensures var s := Later(Run(steps), silence);
            var end := OrderTick(Later(OrderTick(HoldSweep(s)), ms));
            && Inv(s) && |end.orders| == |s.orders|
            && (!TookMoney(end.orders[o].status)
                <==> s.orders[o].status != Processing && !TookMoney(s.orders[o].status))
  {
    SweepsDrainEverything(steps, silence, ms);
  }

  lemma OneUnitHeld() returns (steps: seq<Step>)
    ensures Run(steps) == Shop([Listing(0, 100, 0, Reserved, false)], [1],
                               [Reservation(0, 1, 1, Held, RESERVATION_TTL_MS)], [], map[], 0)
  {
    steps := [NewListing(0, 100, 1)];
    assert steps == [] + steps;
    RunOneMore([], steps[0]);
    RunOneMore(steps, Publish(0));
    steps := steps + [Publish(0)];
    assert Run(steps) == EmptyShop.(listings := [Listing(0, 100, 1, Active, false)], stocked := [1]);
    RunOneMore(steps, ReserveStep(1, 0, 1));
    steps := steps + [ReserveStep(1, 0, 1)];
  }

  lemma OneLine(hold: Reservation, listings: seq<Listing>)
    requires Buyable(hold, 1, 0) && hold.listing == 0 && |listings| == 1
    ensures LinesFrom([hold], listings, 1, 0) == [Item(0, hold.quantity, listings[0].priceCents)]
  {
    assert [hold][..0] == [];
    assert LinesFrom([hold][..0], listings, 1, 0) == [];
  }

  /** A shop with one order, of buyer 1. */
  predicate OneOrder(s: Shop, status: OrderStatus, intent: Option<IntentId>) {
    |s.orders| == 1 && s.orders[0].buyer == 1 && s.orders[0].status == status && s.orders[0].intent == intent
  }

  lemma OneOrderOpen() returns (steps: seq<Step>)
    ensures OneOrder(Run(steps), PendingPayment, None)
  {
    steps := OneUnitHeld();
    var s := Run(steps);
    OneLine(s.reservations[0], s.listings);
    RunOneMore(steps, CheckoutStep(1));
    steps := steps + [CheckoutStep(1)];
  }

  /** The order is claimed and its first payment declined. */
  lemma PaymentDeclined() returns (steps: seq<Step>)
    ensures OneOrder(Run(steps), Processing, Some(0))
  {
    steps := OneOrderOpen();
    RunOneMore(steps, ClaimStep(1, 0));
    steps := steps + [ClaimStep(1, 0)];
    assert OneOrder(Run(steps), Processing, None);
    RunOneMore(steps, AttachIntent(0, 0));
    steps := steps + [AttachIntent(0, 0)];
    assert OneOrder(Run(steps), Processing, Some(0));
    RunOneMore(steps, IntentMoves(0, NeedsMethod));
    steps := steps + [IntentMoves(0, NeedsMethod)];
  }

  /** So it is handed back, and the buyer then completes the payment at the provider. */
  lemma ChargedWhileOpen() returns (steps: seq<Step>)
    ensures OneOrder(Run(steps), PendingPayment, Some(0)) && Charged(Run(steps), 0)
  {
    steps := PaymentDeclined();
    RunOneMore(steps, UnclaimStep(0));
    steps := steps + [UnclaimStep(0)];
    assert OneOrder(Run(steps), PendingPayment, Some(0));
    RunOneMore(steps, IntentMoves(0, Succeeded));
    steps := steps + [IntentMoves(0, Succeeded)];
  }

  /** If nothing hears of that in time, the order is cancelled and the charge stays unrecorded. */
  lemma ChargeIsLost(silence: nat, ms: nat) returns (steps: seq<Step>)
    requires silence >= ORDER_PAYMENT_TTL_MS
    ensures |Run(steps).orders| == 1 && Charged(Run(steps), 0)
    ensures var s := Later(Run(steps), silence);
            var end := OrderTick(Later(OrderTick(HoldSweep(s)), ms));
            Inv(s) && |end.orders| == 1 && !TookMoney(end.orders[0].status) && !CommitsStock(end.orders[0].status)
  {
    steps := ChargedWhileOpen();
    SweepsDrainEverything(steps, silence, ms);
  }
}
