/** The transactions and sweeps of backend/src/lib/reservations.ts and
backend/src/lib/orders.ts as they run, each proved against the step it is in `Stock`
or the sweep it is in `Sweeps`.

A transaction that refuses is rolled back, so it leaves the room as it found it.
*/
module StockRoom {
  import opened Tables
  import opened OrderState
  import opened IntentState
  import opened Stock
  import opened Sweeps

  datatype ReserveResult = Placed(id: ReservationId, remaining: int) | ReserveFailed(error: ReserveError)

  datatype ReleaseResult = HoldReleased | HoldNotFound | NotHeld

  datatype CheckoutResult = Ordered(id: OrderId) | CheckoutFailed(error: OrderError)

  datatype PaidResult = MarkedPaid | AlreadyPaid | NotPayable

  class Room {
    var listings: seq<Listing>
    var reservations: seq<Reservation>
    var orders: seq<Order>
    var intents: map<IntentId, IntentStatus>
    ghost var stocked: seq<int>

    ghost function View(now: int): Shop
      reads this
    {
      Shop(listings, stocked, reservations, orders, intents, now)
    }

    ghost predicate Valid()
      reads this
    {
      Refs(View(0))
    }

    /** The closed rows are returned rather than written: the caller's transaction may still refuse. */
    method ReclaimExpired(l: ListingId, now: int) returns (after: seq<Reservation>, units: int)
      ensures after == Reclaimed(reservations, l, now)
      ensures units == Sum(reservations, LapsedOn(l, now))
    {
      after, units := reservations, 0;
      for i := 0 to |reservations|
        invariant |after| == |reservations|
        invariant forall k :: 0 <= k < |after| ==>
                    after[k] == if k < i then Reclaimed(reservations, l, now)[k] else reservations[k]
        invariant units == Sum(reservations[..i], LapsedOn(l, now))
      {
        SumPrefix(reservations, i, LapsedOn(l, now));
        if Lapsed(reservations[i], l, now) {
          after := after[i := after[i].(status := Expired)];
          units := units + reservations[i].quantity;
        }
      }
      assert reservations[..|reservations|] == reservations;
    }

    /** The writes of a reservation that was not refused. */
    method PlaceHold(user: UserId, l: ListingId, quantity: int, after: seq<Reservation>, available: int, now: int)
      requires Valid() && l < |listings|
      requires after == Reclaimed(reservations, l, now)
      requires available == listings[l].quantity + Sum(reservations, LapsedOn(l, now))
      modifies this
      ensures Valid()
      ensures View(now) == Reserve(old(View(now)), user, l, quantity)
      ensures |listings| == |old(listings)| && listings[l].quantity == available - quantity
    {
      var remaining := available - quantity;
      var status := if remaining == 0 then Reserved else Active;
      listings := listings[l := listings[l].(quantity := remaining, status := status)];
      reservations := after + [Reservation(l, user, quantity, Held, now + RESERVATION_TTL_MS)];
    }

    method ReserveListing(user: UserId, l: ListingId, quantity: int, now: int) returns (r: ReserveResult)
      requires Valid()
      modifies this
      ensures Valid()
      ensures var before := old(View(now));
              var refusal := ReserveRefusal(before, user, l, quantity);
              if refusal.Some? then r == ReserveFailed(refusal.value) && View(now) == before
              else && View(now) == Reserve(before, user, l, quantity)
                   && r == Placed(|before.reservations|, listings[l].quantity)
      ensures View(now) == Do(old(View(now)), ReserveStep(user, l, quantity))
    {
      if quantity < 1 { return ReserveFailed(InvalidQuantity); }
      if l >= |listings| || listings[l].deleted { return ReserveFailed(ListingNotFound); }
      var listing := listings[l];
      if listing.owner == user { return ReserveFailed(OwnListing); }

      var after, units := ReclaimExpired(l, now);
      var available := listing.quantity + units;

      if exists r <- after :: r.listing == l && r.user == user && r.status == Held {
        return ReserveFailed(AlreadyHeld);
      }
      if listing.status != Active && listing.status != Reserved { return ReserveFailed(Unavailable); }
      if available < quantity { return ReserveFailed(InsufficientStock); }

      PlaceHold(user, l, quantity, after, available, now);
      return Placed(|after|, available - quantity);
    }

    method ReleaseReservation(user: UserId, r: ReservationId) returns (result: ReleaseResult)
      requires Valid()
      modifies this
      ensures Valid()
      ensures result == (if r >= |old(reservations)| || old(reservations)[r].user != user then HoldNotFound
                         else if old(reservations)[r].status != Held then NotHeld
                         else HoldReleased)
      ensures View(0) == if result == HoldReleased then EndHold(old(View(0)), r, Released) else old(View(0))
      ensures View(0) == Do(old(View(0)), ReleaseHold(user, r))
    {
      if r >= |reservations| || reservations[r].user != user { return HoldNotFound; }
      var hold := reservations[r];
      if hold.status != Held { return NotHeld; }
      var listing := listings[hold.listing];
      reservations := reservations[r := hold.(status := Released)];
      listings := listings[hold.listing := listing.(
                             quantity := listing.quantity + hold.quantity,
                             status := if listing.status == Sold then Sold else Active)];
      return HoldReleased;
    }

    /** One transaction of the sweep: the hold is read again under the lock. */
    method ExpireHold(id: ReservationId, now: int)
      requires Valid() && id < |reservations|
      modifies this
      ensures Valid()
      ensures View(now) == if old(reservations)[id].status == Held then EndHold(old(View(now)), id, Expired)
                           else old(View(now))
      ensures old(reservations)[id].expiresAt <= now ==> View(now) == Do(old(View(now)), Step.ExpireHold(id))
    {
      var still := reservations[id];
      if still.status == Held {
        var listing := listings[still.listing];
        reservations := reservations[id := still.(status := Expired)];
        listings := listings[still.listing := listing.(
                               quantity := listing.quantity + still.quantity,
                               status := if listing.status == Sold then Sold else Active)];
      }
    }

    method ReleaseExpiredHolds(now: int) returns (released: nat)
      requires Valid()
      modifies this
      ensures Valid()
      ensures View(now) == HoldSweep(old(View(now)))
      ensures released == |RowsWhere(old(reservations), Expirable(now))|
    {
      ghost var before := View(now);
      var expired := RowsWhere(reservations, Expirable(now));
      released := 0;
      for k := 0 to |expired|
        invariant Valid() && |reservations| == |before.reservations| && released == k
        invariant View(now) == ExpireAll(before, expired[..k])
      {
        ExpireAllNext(before, expired, k);
        ExpireHold(expired[k], now);
        released := released + 1;
      }
      assert expired[..|expired|] == expired;
    }

    /** The lines and total of a cart, or the discovery that one of its items is gone. */
    method PriceCart(user: UserId, now: int) returns (items: seq<Item>, subtotal: int, gone: bool)
      requires Valid()
      ensures gone ==> exists i <- LinesFrom(reservations, listings, user, now) ::
                         i.listing >= |listings| || listings[i.listing].deleted
      ensures !gone ==> && items == LinesFrom(reservations, listings, user, now)
                        && subtotal == Sum(items, LinePrice())
                        && forall i <- items :: i.listing < |listings| && !listings[i.listing].deleted
      ensures gone <==> exists r <- reservations :: LiveHold(r, user, now) && listings[r.listing].deleted
      ensures !gone ==>
                && (forall r <- reservations :: LiveHold(r, user, now) ==>
                      Item(r.listing, r.quantity, listings[r.listing].priceCents) in items)
                && (forall i <- items ::
                      && i.listing < |listings| && i.unitPriceCents == listings[i.listing].priceCents
                      && exists r <- reservations ::
                           LiveHold(r, user, now) && r.listing == i.listing && r.quantity == i.quantity)
                && subtotal == Sum(items, (i: Item) => i.unitPriceCents * i.quantity)
    {
      LinesAreHolds(reservations, listings, user, now);
      items, subtotal, gone := [], 0, false;
      for i := 0 to |reservations|
        invariant items == LinesFrom(reservations[..i], listings, user, now)
        invariant subtotal == Sum(items, LinePrice())
        invariant forall line <- items :: line.listing < |listings| && !listings[line.listing].deleted
      {
        var hold := reservations[i];
        PrefixNext(reservations, i);
        if Buyable(hold, user, now) {
          var listing := listings[hold.listing];
          if listing.deleted {
            LinesStay(reservations, i, listings, user, now);
            return items, subtotal, true;
          }
          var line := Item(hold.listing, hold.quantity, listing.priceCents);
          SumAppend(items, line, LinePrice());
          items := items + [line];
          subtotal := subtotal + listing.priceCents * hold.quantity;
        }
      }
      assert reservations[..|reservations|] == reservations;
      SumEqual(items, items, LinePrice(), (i: Item) => i.unitPriceCents * i.quantity);
    }

    method CreateOrderFromHolds(user: UserId, hasAddress: bool, now: int) returns (r: CheckoutResult)
      requires Valid()
      modifies this
      ensures Valid()
      ensures !hasAddress ==> r == CheckoutFailed(NoAddress) && View(now) == old(View(now))
      ensures hasAddress ==>
                match CheckoutRefusal(old(View(now)), user) {
                  case Some(e) => r == CheckoutFailed(e) && View(now) == old(View(now))
                  case None => r == Ordered(|old(orders)|) && View(now) == Checkout(old(View(now)), user)
                }
      ensures hasAddress ==> View(now) == Do(old(View(now)), CheckoutStep(user))
    {
      if !hasAddress { return CheckoutFailed(NoAddress); }
      var items, subtotal, gone := PriceCart(user, now);
      if gone { return CheckoutFailed(ItemGone); }
      if |items| == 0 { return CheckoutFailed(NothingToBuy); }
      orders := orders + [Order(user, PendingPayment, items, subtotal, now, now, None)];
      reservations := Convert(reservations, user, now);
      assert forall k :: 0 <= k < |items| ==> items[k] in items;
      return Ordered(|orders| - 1);
    }

    /** An update of an order that does not exist throws. */
    method AttachPaymentIntent(o: OrderId, intent: IntentId, now: int) returns (found: bool)
      requires Valid()
      modifies this`orders
      ensures found <==> o < |old(orders)|
      ensures orders == if found then old(orders)[o := old(orders)[o].(intent := Some(intent), updatedAt := now)]
                        else old(orders)
      ensures View(now) == Do(old(View(now)), AttachIntent(o, intent))
    {
      found := o < |orders|;
      if found {
        orders := orders[o := orders[o].(intent := Some(intent), updatedAt := now)];
      }
    }

    method ClaimOrderForPayment(user: UserId, o: OrderId, now: int) returns (claimed: bool)
      requires Valid()
      modifies this`orders
      ensures claimed <==> o < |old(orders)| && old(orders)[o].status == PendingPayment && old(orders)[o].buyer == user
      ensures orders == if claimed then old(orders)[o := old(orders)[o].(status := Processing, updatedAt := now)]
                        else old(orders)
      ensures View(now) == Do(old(View(now)), ClaimStep(user, o))
    {
      claimed := o < |orders| && orders[o].status == PendingPayment && orders[o].buyer == user;
      if claimed {
        orders := orders[o := orders[o].(status := Processing, updatedAt := now)];
      }
    }

    method UnclaimOrder(o: OrderId, now: int)
      requires Valid() && o < |orders|
      modifies this`orders
      ensures View(now) == Unclaim(old(View(now)), o)
      ensures View(now) == Do(old(View(now)), UnclaimStep(o))
    {
      if orders[o].status == Processing {
        orders := orders[o := orders[o].(status := PendingPayment, updatedAt := now)];
      }
    }

    method MarkOrderPaid(o: OrderId, now: int) returns (r: PaidResult)
      requires Valid() && o < |orders|
      modifies this
      ensures Valid()
      ensures View(now) == MarkPaid(old(View(now)), o)
      ensures View(now) == Do(old(View(now)), PayStep(o))
      ensures r == (if CommitsStock(old(orders)[o].status) then MarkedPaid
                    else if old(orders)[o].status == Paid then AlreadyPaid else NotPayable)
    {
      if orders[o].status == Paid { return AlreadyPaid; }
      if !CommitsStock(orders[o].status) { return NotPayable; }
      ghost var before := listings;
      var items := orders[o].items;
      for k := 0 to |items|
        invariant |listings| == |before| && listings == SellOut(before, items[..k])
        invariant orders == old(orders) && reservations == old(reservations)
        invariant intents == old(intents) && stocked == old(stocked)
      {
        PrefixNext(items, k);
        if listings[items[k].listing].quantity == 0 {
          listings := listings[items[k].listing := listings[items[k].listing].(status := Sold)];
        }
      }
      assert items[..|items|] == items;
      orders := orders[o := orders[o].(status := Paid, updatedAt := now)];
      return MarkedPaid;
    }

    method ReleaseOrder(o: OrderId, status: OrderStatus, now: int)
      requires Valid() && o < |orders|
      modifies this
      ensures Valid()
      ensures View(now) == Stock.ReleaseOrder(old(View(now)), o, status)
      ensures status == Cancelled ==> View(now) == Do(old(View(now)), CancelStep(o))
      ensures status == OrderFailed ==> View(now) == Do(old(View(now)), FailStep(o))
    {
      if !CommitsStock(orders[o].status) { return; }
      ghost var before := listings;
      var items := orders[o].items;
      for k := 0 to |items|
        invariant |listings| == |before| && listings == PutBack(before, items[..k])
        invariant orders == old(orders) && reservations == old(reservations)
        invariant intents == old(intents) && stocked == old(stocked)
      {
        PrefixNext(items, k);
        var locked := listings[items[k].listing];
        listings := listings[items[k].listing := locked.(
                               quantity := locked.quantity + items[k].quantity,
                               status := if locked.status == Sold then Sold else Active)];
      }
      assert items[..|items|] == items;
      orders := orders[o := orders[o].(status := status, updatedAt := now)];
    }

    method ReleaseAbandonedOrders(now: int) returns (released: nat)
      requires Valid()
      modifies this
      ensures Valid()
      ensures View(now) == AbandonSweep(old(View(now)))
      ensures released == |RowsWhere(old(orders), Abandoned(now))|
    {
      ghost var before := View(now);
      var stale := RowsWhere(orders, Abandoned(now));
      released := 0;
      for k := 0 to |stale|
        invariant Valid() && released == k
        invariant View(now) == ReleaseAll(before, stale[..k])
      {
        ReleaseAllNext(before, stale, k);
        ReleaseOrder(stale[k], Cancelled, now);
        released := released + 1;
      }
      assert stale[..|stale|] == stale;
    }

    method ReconcileProcessingOrders(now: int) returns (settled: nat)
      requires Valid()
      modifies this
      ensures Valid()
      ensures View(now) == ReconcileSweep(old(View(now)))
      ensures settled == SettledIn(old(View(now)), RowsWhere(old(orders), Stuck(now)))
    {
      ghost var before := View(now);
      var stuck := RowsWhere(orders, Stuck(now));
      settled := 0;
      for k := 0 to |stuck|
        invariant Valid() && |orders| == |before.orders|
        invariant View(now) == ReconcileAll(before, stuck[..k])
        invariant settled == SettledIn(before, stuck[..k])
      {
        ReconcileAllNext(before, stuck, k);
        var settledOne := ReconcileOne(stuck[k], now);
        settled := settled + if settledOne then 1 else 0;
      }
      assert stuck[..|stuck|] == stuck;
    }

    method ReconcileOne(o: OrderId, now: int) returns (settled: bool)
      requires Valid() && o < |orders|
      modifies this
      ensures Valid()
      ensures View(now) == Reconcile(old(View(now)), o)
      ensures settled <==> !LeftPending(old(View(now)), o)
    {
      var order := orders[o];
      if order.intent == None || order.intent.value !in intents {
        UnclaimOrder(o, now);
        return true;
      }
      var intent := order.intent.value;
      match OutcomeOf(intents[intent])
      case PaymentSucceeded =>
        var _ := MarkOrderPaid(o, now);
        return true;
      case PaymentFailed =>
        ReleaseOrder(o, OrderFailed, now);
        return true;
      case PaymentPending =>
        if order.createdAt > now - ORDER_PAYMENT_TTL_MS { return false; }
        if intents[intent] != Succeeded { intents := intents[intent := Canceled]; }
        ReleaseOrder(o, Cancelled, now);
        return true;
    }
  }

  /** A gone item found early is still among the lines of the whole cart. */
  lemma {:induction false} LinesStay(
      reservations: seq<Reservation>, i: nat, listings: seq<Listing>, user: UserId, now: int)
    requires i < |reservations| && Buyable(reservations[i], user, now)
    ensures exists line <- LinesFrom(reservations, listings, user, now) :: line.listing == reservations[i].listing
  {
    var n := |reservations| - 1;
    if i < n {
      LinesStay(reservations[..n], i, listings, user, now);
      var line :| line in LinesFrom(reservations[..n], listings, user, now) && line.listing == reservations[i].listing;
      assert line in LinesFrom(reservations, listings, user, now);
    } else {
      var lines := LinesFrom(reservations, listings, user, now);
      assert lines[|lines| - 1] in lines;
    }
  }

  lemma ExpireAllNext(s: Shop, ids: seq<ReservationId>, k: nat)
    requires k < |ids|
    requires forall r :: 0 <= r < |s.reservations| ==> s.reservations[r].listing < |s.listings|
    ensures var before, after := ExpireAll(s, ids[..k]), ExpireAll(s, ids[..k + 1]);
            after == if ids[k] < |before.reservations| && before.reservations[ids[k]].status == Held
                     then EndHold(before, ids[k], Expired) else before
  {
    PrefixNext(ids, k);
  }

  lemma ReleaseAllNext(s: Shop, ids: seq<OrderId>, k: nat)
    requires k < |ids| && forall j :: 0 <= j < |ids| ==> ids[j] < |s.orders|
    ensures ReleaseAll(s, ids[..k + 1]) == Stock.ReleaseOrder(ReleaseAll(s, ids[..k]), ids[k], Cancelled)
  {
    PrefixNext(ids, k);
  }

  lemma ReconcileAllNext(s: Shop, ids: seq<OrderId>, k: nat)
    requires k < |ids| && forall j :: 0 <= j < |ids| ==> ids[j] < |s.orders|
    ensures ReconcileAll(s, ids[..k + 1]) == Reconcile(ReconcileAll(s, ids[..k]), ids[k])
    ensures SettledIn(s, ids[..k + 1])
            == SettledIn(s, ids[..k]) + if LeftPending(ReconcileAll(s, ids[..k]), ids[k]) then 0 else 1
  {
    PrefixNext(ids, k);
  }
}
