/** Where stock lives (backend/src/lib/reservations.ts and backend/src/lib/orders.ts).

A unit of a listing is on the shelf, under a hold, in an order that may still be
paid, or sold. Every transaction is one step, and any transactions may interleave.
*/
module Stock {
  import opened Tables
  import opened OrderState
  import opened IntentState

  type UserId = nat
  type ListingId = nat
  type ReservationId = nat
  type OrderId = nat

  const RESERVATION_TTL_MS: int := 15 * 60 * 1000
  const ORDER_PAYMENT_TTL_MS: int := 30 * 60 * 1000
  const ORDER_PROCESSING_TTL_MS: int := 2 * 60 * 1000

  datatype ListingStatus = Draft | Active | Reserved | Sold | Removed

  datatype Listing = Listing(owner: UserId, priceCents: nat, quantity: int, status: ListingStatus, deleted: bool)

  datatype ReservationStatus = Held | Released | Converted | Expired

  datatype Reservation = Reservation(
    listing: ListingId,
    user: UserId,
    quantity: int,
    status: ReservationStatus,
    expiresAt: int)

  datatype Item = Item(listing: ListingId, quantity: int, unitPriceCents: nat)

  datatype Order = Order(
    buyer: UserId,
    status: OrderStatus,
    items: seq<Item>,
    subtotalCents: int,
    createdAt: int,
    updatedAt: int,
    intent: Option<IntentId>)

  /** `stocked` is history: the quantity each listing was created with. */
  datatype Shop = Shop(
    listings: seq<Listing>,
    stocked: seq<int>,
    reservations: seq<Reservation>,
    orders: seq<Order>,
    intents: map<IntentId, IntentStatus>,
    now: int)

  predicate CommitsStock(status: OrderStatus) { status == PendingPayment || status == Processing }

  predicate TookMoney(status: OrderStatus) { status == Paid || status == Refunded }

  /* ------------------------------------------------------------------ *
   * Columns
   * ------------------------------------------------------------------ */

  function UnitsOn(l: ListingId): Item -> int { (i: Item) => if i.listing == l then i.quantity else 0 }

  function Units(items: seq<Item>, l: ListingId): int { Sum(items, UnitsOn(l)) }

  function HeldOn(l: ListingId): Reservation -> int {
    (r: Reservation) => if r.status == Held && r.listing == l then r.quantity else 0
  }

  function OpenOn(l: ListingId): Order -> int {
    (o: Order) => if CommitsStock(o.status) then Units(o.items, l) else 0
  }

  function SoldOn(l: ListingId): Order -> int {
    (o: Order) => if TookMoney(o.status) then Units(o.items, l) else 0
  }

  /** In any order that has not given its stock back. */
  function TakenOn(l: ListingId): Order -> int {
    (o: Order) => if CommitsStock(o.status) || TookMoney(o.status) then Units(o.items, l) else 0
  }

  /* ------------------------------------------------------------------ *
   * Holds
   * ------------------------------------------------------------------ */

  function BackOnSale(l: Listing, units: int): Listing {
    l.(quantity := l.quantity + units, status := if l.status == Sold then Sold else Active)
  }

  predicate Lapsed(r: Reservation, l: ListingId, now: int) {
    r.listing == l && r.status == Held && r.expiresAt <= now
  }

  /** `reclaimExpired`: the rows it closes, and the units they held. */
  function Reclaimed(reservations: seq<Reservation>, l: ListingId, now: int): (after: seq<Reservation>)
    ensures |after| == |reservations|
  {
    seq(|reservations|, i requires 0 <= i < |reservations| =>
      if Lapsed(reservations[i], l, now) then reservations[i].(status := Expired) else reservations[i])
  }

  function LapsedOn(l: ListingId, now: int): Reservation -> int {
    (r: Reservation) => if Lapsed(r, l, now) then r.quantity else 0
  }

  datatype ReserveError = InvalidQuantity | ListingNotFound | OwnListing | AlreadyHeld | Unavailable | InsufficientStock

  /** Why `reserveListing` refuses, in the code's order. */
  function ReserveRefusal(s: Shop, user: UserId, l: ListingId, quantity: int): Option<ReserveError> {
    if quantity < 1 then Some(InvalidQuantity)
    else if l >= |s.listings| || s.listings[l].deleted then Some(ListingNotFound)
    else if s.listings[l].owner == user then Some(OwnListing)
    else if exists r <- Reclaimed(s.reservations, l, s.now) :: r.listing == l && r.user == user && r.status == Held
      then Some(AlreadyHeld)
    else if s.listings[l].status != Active && s.listings[l].status != Reserved then Some(Unavailable)
    else if s.listings[l].quantity + Sum(s.reservations, LapsedOn(l, s.now)) < quantity then Some(InsufficientStock)
    else None
  }

  function Reserve(s: Shop, user: UserId, l: ListingId, quantity: int): Shop
    requires l < |s.listings|
  {
    var remaining := s.listings[l].quantity + Sum(s.reservations, LapsedOn(l, s.now)) - quantity;
    s.(listings := s.listings[l := s.listings[l].(
                     quantity := remaining,
                     status := if remaining == 0 then Reserved else Active)],
       reservations := Reclaimed(s.reservations, l, s.now)
                       + [Reservation(l, user, quantity, Held, s.now + RESERVATION_TTL_MS)])
  }

  /** Ends a hold with `status` and puts its units back. */
  function EndHold(s: Shop, r: ReservationId, status: ReservationStatus): Shop
    requires r < |s.reservations| && s.reservations[r].listing < |s.listings|
  {
    var hold := s.reservations[r];
    s.(reservations := s.reservations[r := hold.(status := status)],
       listings := s.listings[hold.listing := BackOnSale(s.listings[hold.listing], hold.quantity)])
  }

  /* ------------------------------------------------------------------ *
   * Orders
   * ------------------------------------------------------------------ */

  predicate Buyable(r: Reservation, user: UserId, now: int) {
    r.user == user && r.status == Held && r.expiresAt > now
  }

  /** The lines an order takes from its buyer's live holds, priced now. */
  function LinesFrom(reservations: seq<Reservation>, listings: seq<Listing>, user: UserId, now: int): (items: seq<Item>)
  {
    if |reservations| == 0 then []
    else
      var last := reservations[|reservations| - 1];
      var before := LinesFrom(reservations[..|reservations| - 1], listings, user, now);
      if Buyable(last, user, now)
      then before + [Item(last.listing, last.quantity,
                          if last.listing < |listings| then listings[last.listing].priceCents else 0)]
      else before
  }

  function Convert(reservations: seq<Reservation>, user: UserId, now: int): (after: seq<Reservation>)
    ensures |after| == |reservations|
  {
    seq(|reservations|, i requires 0 <= i < |reservations| =>
      if Buyable(reservations[i], user, now) then reservations[i].(status := Converted) else reservations[i])
  }

  datatype OrderError = NoAddress | NothingToBuy | ItemGone

  function CheckoutRefusal(s: Shop, user: UserId): Option<OrderError> {
    var items := LinesFrom(s.reservations, s.listings, user, s.now);
    if |items| == 0 then Some(NothingToBuy)
    else if exists i <- items :: i.listing >= |s.listings| || s.listings[i.listing].deleted then Some(ItemGone)
    else None
  }

  function LinePrice(): Item -> int { (i: Item) => i.unitPriceCents * i.quantity }

  function Checkout(s: Shop, user: UserId): Shop {
    var items := LinesFrom(s.reservations, s.listings, user, s.now);
    s.(orders := s.orders + [Order(user, PendingPayment, items, Sum(items, LinePrice()), s.now, s.now, None)],
       reservations := Convert(s.reservations, user, s.now))
  }

  function SetOrder(s: Shop, o: OrderId, status: OrderStatus): Shop
    requires o < |s.orders|
  {
    s.(orders := s.orders[o := s.orders[o].(status := status, updatedAt := s.now)])
  }

  /** The listing loop of `releaseOrder`. */
  function PutBack(listings: seq<Listing>, items: seq<Item>): (after: seq<Listing>)
    ensures |after| == |listings|
  {
    if |items| == 0 then listings
    else
      var last := items[|items| - 1];
      var before := PutBack(listings, items[..|items| - 1]);
      if last.listing < |before|
      then before[last.listing := BackOnSale(before[last.listing], last.quantity)] else before
  }

  /** The listing loop of `markOrderPaid`: a listing is SOLD only once nothing is left. */
  function SellOut(listings: seq<Listing>, items: seq<Item>): (after: seq<Listing>)
    ensures |after| == |listings|
  {
    if |items| == 0 then listings
    else
      var last := items[|items| - 1];
      var before := SellOut(listings, items[..|items| - 1]);
      if last.listing < |before| && before[last.listing].quantity == 0
      then before[last.listing := before[last.listing].(status := Sold)] else before
  }

  /** Nothing is clawed back from a paid order and nothing is released twice. */
  function ReleaseOrder(s: Shop, o: OrderId, status: OrderStatus): Shop
    requires o < |s.orders|
  {
    if !CommitsStock(s.orders[o].status) then s
    else SetOrder(s.(listings := PutBack(s.listings, s.orders[o].items)), o, status)
  }

  /** A refusal changes nothing, so it is the unchanged shop. */
  function MarkPaid(s: Shop, o: OrderId): Shop
    requires o < |s.orders|
  {
    if !CommitsStock(s.orders[o].status) then s
    else SetOrder(s.(listings := SellOut(s.listings, s.orders[o].items)), o, Paid)
  }

  function ClaimForPayment(s: Shop, user: UserId, o: OrderId): Shop
    requires o < |s.orders|
  {
    if s.orders[o].status == PendingPayment && s.orders[o].buyer == user then SetOrder(s, o, Processing) else s
  }

  function Unclaim(s: Shop, o: OrderId): Shop
    requires o < |s.orders|
  {
    if s.orders[o].status == Processing then SetOrder(s, o, PendingPayment) else s
  }

  /* ------------------------------------------------------------------ *
   * Every interleaving
   * ------------------------------------------------------------------ */

  datatype Step =
    | NewListing(owner: UserId, priceCents: nat, stock: nat)
    | Publish(listing: ListingId)
    | Unpublish(listing: ListingId)
    | Remove(listing: ListingId)
    | Restore(listing: ListingId)
    | ReserveStep(user: UserId, listing: ListingId, quantity: int)
    | ReleaseHold(user: UserId, reservation: ReservationId)
    | ExpireHold(reservation: ReservationId)
    | CheckoutStep(user: UserId)
    | AttachIntent(order: OrderId, intent: IntentId)
    | ClaimStep(user: UserId, order: OrderId)
    | UnclaimStep(order: OrderId)
    | PayStep(order: OrderId)
    | FailStep(order: OrderId)
    | CancelStep(order: OrderId)
    | RefundedStep(order: OrderId)
    | RefundUndone(order: OrderId)
    | IntentMoves(intent: IntentId, intentStatus: IntentStatus)
    | Tick(ms: nat)

  const EmptyShop := Shop([], [], [], [], map[], 0)

  ghost predicate Refs(s: Shop) {
    && |s.stocked| == |s.listings|
    && (forall r :: 0 <= r < |s.reservations| ==> s.reservations[r].listing < |s.listings|)
    && (forall o :: 0 <= o < |s.orders| ==>
          forall k :: 0 <= k < |s.orders[o].items| ==> s.orders[o].items[k].listing < |s.listings|)
  }

  function ListingStep(s: Shop, step: Step): Shop {
    match step
    case NewListing(owner, price, stock) =>
      s.(listings := s.listings + [Listing(owner, price, stock, Draft, false)], stocked := s.stocked + [stock])
    case Publish(l) =>
      if l < |s.listings| && s.listings[l].status != Sold && !s.listings[l].deleted
      then s.(listings := s.listings[l := s.listings[l].(status := Active)]) else s
    case Unpublish(l) =>
      if l < |s.listings| && s.listings[l].status != Sold && !s.listings[l].deleted
      then s.(listings := s.listings[l := s.listings[l].(status := Draft)]) else s
    case Remove(l) =>
      if l < |s.listings|
      then s.(listings := s.listings[l := s.listings[l].(status := Removed, deleted := true)]) else s
    case Restore(l) =>
      if l < |s.listings| && s.listings[l].deleted
      then s.(listings := s.listings[l := s.listings[l].(status := Draft, deleted := false)]) else s
    case _ => s
  }

  function HoldStep(s: Shop, step: Step): Shop
    requires forall r :: 0 <= r < |s.reservations| ==> s.reservations[r].listing < |s.listings|
  {
    match step
    case ReserveStep(user, l, quantity) =>
      if ReserveRefusal(s, user, l, quantity) == None then Reserve(s, user, l, quantity) else s
    case ReleaseHold(user, r) =>
      if r < |s.reservations| && s.reservations[r].user == user && s.reservations[r].status == Held
      then EndHold(s, r, Released) else s
    case ExpireHold(r) =>
      if r < |s.reservations| && s.reservations[r].status == Held && s.reservations[r].expiresAt <= s.now
      then EndHold(s, r, Expired) else s
    case CheckoutStep(user) => if CheckoutRefusal(s, user) == None then Checkout(s, user) else s
    case _ => s
  }

  function OrderStep(s: Shop, step: Step): Shop {
    match step
    case AttachIntent(o, i) =>
      if o < |s.orders| then s.(orders := s.orders[o := s.orders[o].(intent := Some(i), updatedAt := s.now)]) else s
    case ClaimStep(user, o) => if o < |s.orders| then ClaimForPayment(s, user, o) else s
    case UnclaimStep(o) => if o < |s.orders| then Unclaim(s, o) else s
    case PayStep(o) => if o < |s.orders| then MarkPaid(s, o) else s
    case FailStep(o) => if o < |s.orders| then ReleaseOrder(s, o, OrderFailed) else s
    case CancelStep(o) => if o < |s.orders| then ReleaseOrder(s, o, Cancelled) else s
    case RefundedStep(o) => if o < |s.orders| && s.orders[o].status == Paid then SetOrder(s, o, Refunded) else s
    case RefundUndone(o) => if o < |s.orders| && s.orders[o].status == Refunded then SetOrder(s, o, Paid) else s
    case _ => s
  }

  ghost function Do(s: Shop, step: Step): Shop
    requires Refs(s)
  {
    match step
    case NewListing(_, _, _) => ListingStep(s, step)
    case Publish(_) => ListingStep(s, step)
    case Unpublish(_) => ListingStep(s, step)
    case Remove(_) => ListingStep(s, step)
    case Restore(_) => ListingStep(s, step)
    case ReserveStep(_, _, _) => HoldStep(s, step)
    case ReleaseHold(_, _) => HoldStep(s, step)
    case ExpireHold(_) => HoldStep(s, step)
    case CheckoutStep(_) => HoldStep(s, step)
    case IntentMoves(i, status) => s.(intents := s.intents[i := status])
    case Tick(ms) => s.(now := s.now + ms)
    case _ => OrderStep(s, step)
  }

  /* ------------------------------------------------------------------ *
   * Conservation
   * ------------------------------------------------------------------ */

  ghost predicate Conserved(s: Shop, l: ListingId)
    requires l < |s.listings| && |s.stocked| == |s.listings|
  {
    && 0 <= s.listings[l].quantity
    && s.listings[l].quantity + Sum(s.reservations, HeldOn(l)) + Sum(s.orders, TakenOn(l)) == s.stocked[l]
  }

  ghost predicate Rows(s: Shop) {
    && Refs(s)
    && (forall r :: 0 <= r < |s.reservations| ==> 1 <= s.reservations[r].quantity)
    && (forall o :: 0 <= o < |s.orders| ==>
          forall k :: 0 <= k < |s.orders[o].items| ==> 1 <= s.orders[o].items[k].quantity)
  }

  ghost predicate OneHold(s: Shop) {
    forall q, r :: 0 <= q < r < |s.reservations| && s.reservations[q].status == s.reservations[r].status == Held ==>
      s.reservations[q].listing != s.reservations[r].listing || s.reservations[q].user != s.reservations[r].user
  }

  ghost predicate ReservedIsEmpty(s: Shop) {
    forall l :: 0 <= l < |s.listings| && s.listings[l].status == Reserved ==> s.listings[l].quantity == 0
  }

  ghost predicate Inv(s: Shop) {
    Rows(s) && OneHold(s) && ReservedIsEmpty(s) && forall l :: 0 <= l < |s.listings| ==> Conserved(s, l)
  }

  /* ------------------------------------------------------------------ *
   * What each transaction moves
   * ------------------------------------------------------------------ */

  lemma {:induction false} PutBackAddsUnits(listings: seq<Listing>, items: seq<Item>, l: ListingId)
    requires l < |listings|
    requires forall k :: 0 <= k < |items| ==> 1 <= items[k].quantity
    ensures var before, after := listings[l], PutBack(listings, items)[l];
            && 0 <= Units(items, l)
            && after == if exists i <- items :: i.listing == l
                        then before.(quantity := before.quantity + Units(items, l),
                                     status := if before.status == Sold then Sold else Active)
                        else before
    ensures PutBack(listings, items)[l].quantity == listings[l].quantity + Units(items, l)
  {
    if |items| > 0 {
      var init, last := items[..|items| - 1], items[|items| - 1];
      PutBackAddsUnits(listings, init, l);
      assert items == init + [last];
      assert (exists i <- items :: i.listing == l) <==> last.listing == l || exists i <- init :: i.listing == l;
    }
  }

  /** A paid order marks SOLD exactly those of its listings of which nothing is left, and
      touches no quantity. */
  lemma {:induction false} LastUnitIsSold(listings: seq<Listing>, items: seq<Item>, l: ListingId)
    requires l < |listings|
    ensures SellOut(listings, items)[l]
            == if listings[l].quantity == 0 && exists i <- items :: i.listing == l
               then listings[l].(status := Sold) else listings[l]
  {
    if |items| > 0 {
      var init, last := items[..|items| - 1], items[|items| - 1];
      LastUnitIsSold(listings, init, l);
      assert items == init + [last];
      assert (exists i <- items :: i.listing == l) <==> last.listing == l || exists i <- init :: i.listing == l;
    }
  }

  lemma ConvertLast(reservations: seq<Reservation>, user: UserId, now: int, l: ListingId)
    requires |reservations| > 0
    ensures var init, last := reservations[..|reservations| - 1], reservations[|reservations| - 1];
            Sum(Convert(reservations, user, now), HeldOn(l))
            == Sum(Convert(init, user, now), HeldOn(l)) + if Buyable(last, user, now) then 0 else HeldOn(l)(last)
  {
    var n := |reservations| - 1;
    assert Convert(reservations, user, now)[..n] == Convert(reservations[..n], user, now);
  }

  lemma LinesLast(reservations: seq<Reservation>, listings: seq<Listing>, user: UserId, now: int, l: ListingId)
    requires |reservations| > 0
    ensures var init, last := reservations[..|reservations| - 1], reservations[|reservations| - 1];
            Units(LinesFrom(reservations, listings, user, now), l)
            == Units(LinesFrom(init, listings, user, now), l)
               + if Buyable(last, user, now) && last.listing == l then last.quantity else 0
  {
    var last := reservations[|reservations| - 1];
    if Buyable(last, user, now) {
      var price := if last.listing < |listings| then listings[last.listing].priceCents else 0;
      SumAppend(LinesFrom(reservations[..|reservations| - 1], listings, user, now),
                Item(last.listing, last.quantity, price), UnitsOn(l));
    }
  }

  lemma {:induction false} ConvertMovesUnits(
      reservations: seq<Reservation>, listings: seq<Listing>, user: UserId, now: int, l: ListingId)
    ensures Sum(Convert(reservations, user, now), HeldOn(l)) + Units(LinesFrom(reservations, listings, user, now), l)
            == Sum(reservations, HeldOn(l))
  {
    if |reservations| > 0 {
      ConvertMovesUnits(reservations[..|reservations| - 1], listings, user, now, l);
      ConvertLast(reservations, user, now, l);
      LinesLast(reservations, listings, user, now, l);
    }
  }

  /** A hold this user may check out: HELD and not yet expired. */
  ghost predicate LiveHold(r: Reservation, user: UserId, now: int) {
    r.status == Held && r.user == user && now < r.expiresAt
  }

  /** The lines are the buyer's live holds, all of them, at the listings' present prices. */
  lemma {:induction false} LinesAreHolds(
      reservations: seq<Reservation>, listings: seq<Listing>, user: UserId, now: int)
    requires forall r :: 0 <= r < |reservations| ==> reservations[r].listing < |listings|
    ensures forall i <- LinesFrom(reservations, listings, user, now) ::
              && i.listing < |listings| && i.unitPriceCents == listings[i.listing].priceCents
              && exists r <- reservations ::
                   LiveHold(r, user, now) && r.listing == i.listing && r.quantity == i.quantity
    ensures forall r <- reservations :: LiveHold(r, user, now) ==>
              r.listing < |listings|
              && Item(r.listing, r.quantity, listings[r.listing].priceCents)
                 in LinesFrom(reservations, listings, user, now)
  {
    if |reservations| > 0 {
      LinesAreHolds(reservations[..|reservations| - 1], listings, user, now);
    }
  }

  lemma {:induction false} ReclaimMovesUnits(reservations: seq<Reservation>, l: ListingId, m: ListingId, now: int)
    ensures Sum(Reclaimed(reservations, l, now), HeldOn(m))
            == Sum(reservations, HeldOn(m)) - if m == l then Sum(reservations, LapsedOn(l, now)) else 0
  {
    if |reservations| > 0 {
      var n := |reservations| - 1;
      ReclaimMovesUnits(reservations[..n], l, m, now);
      assert Reclaimed(reservations, l, now)[..n] == Reclaimed(reservations[..n], l, now);
    }
  }

  /** A listing that can be seen. */
  predicate OnShow(listings: seq<Listing>, l: ListingId) { l < |listings| && !listings[l].deleted }

  lemma ReclaimedRows(reservations: seq<Reservation>, l: ListingId, now: int, user: UserId)
    ensures forall k :: 0 <= k < |reservations| ==>
              Reclaimed(reservations, l, now)[k]
              == if reservations[k].listing == l && reservations[k].status == Held && reservations[k].expiresAt <= now
                 then reservations[k].(status := Expired) else reservations[k]
    ensures (exists h <- Reclaimed(reservations, l, now) :: h.listing == l && h.user == user && h.status == Held)
            <==> exists h <- reservations :: LiveHold(h, user, now) && h.listing == l
  {
    var after := Reclaimed(reservations, l, now);
    if h :| h in after && h.listing == l && h.user == user && h.status == Held {
      var k :| 0 <= k < |after| && after[k] == h;
      assert reservations[k] in reservations;
    }
    if h :| h in reservations && LiveHold(h, user, now) && h.listing == l {
      var k :| 0 <= k < |reservations| && reservations[k] == h;
      assert after[k] in after;
    }
  }

  /** Each refusal and what it says, the first that applies. A hold of the buyer's own that has
      lapsed does not count against it. */
  lemma RefusalsMean(s: Shop, user: UserId, l: ListingId, quantity: int)
    ensures var why := ReserveRefusal(s, user, l, quantity);
            && (why == Some(InvalidQuantity) <==> quantity < 1)
            && (why == Some(ListingNotFound) <==> quantity >= 1 && !OnShow(s.listings, l))
            && (quantity >= 1 && OnShow(s.listings, l) ==>
                  var listing := s.listings[l];
                  var mine := exists h <- s.reservations :: LiveHold(h, user, s.now) && h.listing == l;
                  && (why == Some(OwnListing) <==> listing.owner == user)
                  && (why == Some(AlreadyHeld) <==> listing.owner != user && mine)
                  && (why == Some(Unavailable)
                      <==> listing.owner != user && !mine && listing.status !in {Active, Reserved})
                  && (why in {Some(InsufficientStock), None}
                      <==> listing.owner != user && !mine && listing.status in {Active, Reserved})
                  && (why == None ==> Reserve(s, user, l, quantity).listings[l].quantity >= 0)
                  && (why == Some(InsufficientStock) ==> Reserve(s, user, l, quantity).listings[l].quantity < 0))
  {
    ReclaimedRows(s.reservations, l, s.now, user);
  }

  /** A reservation closes the listing's lapsed holds, takes the units off the shelf into one
      new hold of fifteen minutes, and hides the listing exactly if none is left. */
  lemma ReserveTakesUnits(s: Shop, user: UserId, l: ListingId, quantity: int)
    requires l < |s.listings|
    ensures var after, n := Reserve(s, user, l, quantity), |s.reservations|;
            && |after.reservations| == n + 1
            && after.reservations[n] == Reservation(l, user, quantity, Held, s.now + 15 * 60 * 1000)
            && (forall k :: 0 <= k < n ==>
                  after.reservations[k]
                  == if s.reservations[k].listing == l && s.reservations[k].status == Held
                        && s.reservations[k].expiresAt <= s.now
                     then s.reservations[k].(status := Expired) else s.reservations[k])
            && after.listings[l].quantity + Sum(after.reservations, HeldOn(l))
               == s.listings[l].quantity + Sum(s.reservations, HeldOn(l))
            && after.listings == s.listings[l := s.listings[l].(
                 quantity := after.listings[l].quantity,
                 status := if after.listings[l].quantity == 0 then Reserved else Active)]
            && after == s.(listings := after.listings, reservations := after.reservations)
  {
    ReclaimedRows(s.reservations, l, s.now, user);
    ReclaimMovesUnits(s.reservations, l, l, s.now);
    SumAppend(Reclaimed(s.reservations, l, s.now),
              Reservation(l, user, quantity, Held, s.now + RESERVATION_TTL_MS), HeldOn(l));
  }

  /** A hold that ends gives its units back to its listing, which is on sale again unless it
      is SOLD. */
  lemma EndingPutsBack(s: Shop, r: ReservationId, status: ReservationStatus)
    requires r < |s.reservations| && s.reservations[r].listing < |s.listings|
    ensures var hold, after := s.reservations[r], EndHold(s, r, status);
            && after.reservations == s.reservations[r := hold.(status := status)]
            && after.listings == s.listings[hold.listing := s.listings[hold.listing].(
                 quantity := s.listings[hold.listing].quantity + hold.quantity,
                 status := if s.listings[hold.listing].status == Sold then Sold else Active)]
            && after == s.(reservations := after.reservations, listings := after.listings)
  {
  }

  /** What a checkout refuses, and what it leaves: one order of every live hold of the buyer at
      today's prices, and those holds converted. */
  lemma CheckoutTakesLiveHolds(s: Shop, user: UserId)
    requires forall r :: 0 <= r < |s.reservations| ==> s.reservations[r].listing < |s.listings|
    ensures CheckoutRefusal(s, user) == Some(NothingToBuy)
            <==> forall h <- s.reservations :: !LiveHold(h, user, s.now)
    ensures CheckoutRefusal(s, user) == Some(ItemGone)
            <==> exists h <- s.reservations :: LiveHold(h, user, s.now) && s.listings[h.listing].deleted
    ensures var after, n := Checkout(s, user), |s.orders|;
            && |after.orders| == n + 1 && after.orders[..n] == s.orders
            && after.orders[n] == Order(user, PendingPayment, after.orders[n].items, after.orders[n].subtotalCents,
                                        s.now, s.now, None)
            && after.orders[n].items == LinesFrom(s.reservations, s.listings, user, s.now)
            && after.orders[n].subtotalCents
               == Sum(after.orders[n].items, (i: Item) => i.unitPriceCents * i.quantity)
            && |after.reservations| == |s.reservations|
            && (forall k :: 0 <= k < |s.reservations| ==>
                  after.reservations[k] == if LiveHold(s.reservations[k], user, s.now)
                                           then s.reservations[k].(status := Converted) else s.reservations[k])
            && after == s.(orders := after.orders, reservations := after.reservations)
  {
    LinesAreHolds(s.reservations, s.listings, user, s.now);
    var items := LinesFrom(s.reservations, s.listings, user, s.now);
    SumEqual(items, items, LinePrice(), (i: Item) => i.unitPriceCents * i.quantity);
    assert |items| > 0 ==> items[0] in items;
  }

  /** The statements on one order: which statuses they move, and where to. A release gives back
      its stock, a payment sells it out, and neither touches an order that has left those. */
  lemma OrderStatementsMean(s: Shop, user: UserId, o: OrderId, to: OrderStatus)
    requires o < |s.orders|
    ensures var order := s.orders[o];
            && ClaimForPayment(s, user, o)
               == (if order.status == PendingPayment && order.buyer == user
                   then s.(orders := s.orders[o := order.(status := Processing, updatedAt := s.now)]) else s)
            && Unclaim(s, o)
               == (if order.status == Processing
                   then s.(orders := s.orders[o := order.(status := PendingPayment, updatedAt := s.now)]) else s)
            && MarkPaid(s, o)
               == (if order.status == PendingPayment || order.status == Processing
                   then s.(listings := SellOut(s.listings, order.items),
                           orders := s.orders[o := order.(status := Paid, updatedAt := s.now)]) else s)
            && ReleaseOrder(s, o, to)
               == (if order.status == PendingPayment || order.status == Processing
                   then s.(listings := PutBack(s.listings, order.items),
                           orders := s.orders[o := order.(status := to, updatedAt := s.now)]) else s)
  {
  }

  /** A hold lasts fifteen minutes and no longer; then the sweep's transaction ends it and gives
      its units back. */
  lemma HoldsLapse(s: Shop, user: UserId, l: ListingId, quantity: int, ms: nat)
    requires Refs(s) && ReserveRefusal(s, user, l, quantity) == None
    ensures var placed, r := Do(s, ReserveStep(user, l, quantity)), |s.reservations|;
            && Refs(placed) && r < |placed.reservations|
            && var later := Do(placed, Tick(ms));
               && later == placed.(now := s.now + ms)
               && (LiveHold(later.reservations[r], user, later.now) <==> ms < 15 * 60 * 1000)
               && (ms >= 15 * 60 * 1000 ==>
                     var ended := Do(later, ExpireHold(r));
                     && ended.reservations == later.reservations[r := later.reservations[r].(status := Expired)]
                     && ended.listings[l].quantity == later.listings[l].quantity + quantity)
  {
    ReserveTakesUnits(s, user, l, quantity);
  }

  /** A listing that is removed can be neither reserved nor bought, whoever holds it; restored it
      is a draft, and for sale again only once published. Its stock is what it was. */
  lemma RemovedSellsNothing(s: Shop, user: UserId, l: ListingId, quantity: nat)
    requires Refs(s) && l < |s.listings| && quantity >= 1
    ensures var gone := Do(s, Remove(l));
            var back := Do(gone, Restore(l));
            var onSale := Do(back, Publish(l));
            && ReserveRefusal(gone, user, l, quantity) == Some(ListingNotFound)
            && ((exists h <- s.reservations :: LiveHold(h, user, s.now) && h.listing == l) ==>
                  CheckoutRefusal(gone, user) == Some(ItemGone))
            && back == s.(listings := s.listings[l := s.listings[l].(status := Draft, deleted := false)])
            && ReserveRefusal(back, user, l, quantity) !in {None, Some(ListingNotFound), Some(InsufficientStock)}
            && onSale == s.(listings := s.listings[l := s.listings[l].(status := Active, deleted := false)])
            && Do(onSale, Unpublish(l)) == back
  {
    var gone := Do(s, Remove(l));
    CheckoutTakesLiveHolds(gone, user);
    if h :| h in s.reservations && LiveHold(h, user, s.now) && h.listing == l {
      assert h in gone.reservations && gone.listings[h.listing].deleted;
    }
  }

  /* ------------------------------------------------------------------ *
   * Every transaction keeps the invariant
   * ------------------------------------------------------------------ */

  /** Reclaiming closes rows and touches nothing else. */
  lemma ReclaimedRow(reservations: seq<Reservation>, l: ListingId, now: int, q: ReservationId)
    requires q < |reservations|
    ensures var before, after := reservations[q], Reclaimed(reservations, l, now)[q];
            && after.listing == before.listing && after.user == before.user && after.quantity == before.quantity
            && (after.status == Held ==> before.status == Held)
  {
  }

  /** Adding a hold its user does not already have keeps holds single. */
  lemma ReserveKeepsOneHold(s: Shop, user: UserId, l: ListingId, quantity: int)
    requires OneHold(s) && ReserveRefusal(s, user, l, quantity) == None
    ensures OneHold(Reserve(s, user, l, quantity))
  {
    var kept := Reclaimed(s.reservations, l, s.now);
    var after := Reserve(s, user, l, quantity).reservations;
    forall q, r | 0 <= q < r < |after| && after[q].status == after[r].status == Held
      ensures after[q].listing != after[r].listing || after[q].user != after[r].user
    {
      ReclaimedRow(s.reservations, l, s.now, q);
      assert after[q] == kept[q] && kept[q] in kept;
      if r < |kept| {
        ReclaimedRow(s.reservations, l, s.now, r);
      }
    }
  }

  lemma ReserveKeepsRows(s: Shop, user: UserId, l: ListingId, quantity: int)
    requires Rows(s) && ReserveRefusal(s, user, l, quantity) == None
    ensures Rows(Reserve(s, user, l, quantity))
  {
    var s' := Reserve(s, user, l, quantity);
    forall r | 0 <= r < |s'.reservations|
      ensures s'.reservations[r].listing < |s'.listings| && 1 <= s'.reservations[r].quantity
    {
      if r < |s.reservations| {
        ReclaimedRow(s.reservations, l, s.now, r);
      }
    }
  }

  lemma ReserveConserves(s: Shop, user: UserId, l: ListingId, quantity: int, m: ListingId)
    requires |s.stocked| == |s.listings| && m < |s.listings| && Conserved(s, m)
    requires ReserveRefusal(s, user, l, quantity) == None
    ensures Conserved(Reserve(s, user, l, quantity), m)
  {
    var hold := Reservation(l, user, quantity, Held, s.now + RESERVATION_TTL_MS);
    ReclaimMovesUnits(s.reservations, l, m, s.now);
    SumAppend(Reclaimed(s.reservations, l, s.now), hold, HeldOn(m));
  }

  lemma ReserveKeepsInv(s: Shop, user: UserId, l: ListingId, quantity: int)
    requires Inv(s) && ReserveRefusal(s, user, l, quantity) == None
    ensures Inv(Reserve(s, user, l, quantity))
  {
    ReserveKeepsOneHold(s, user, l, quantity);
    ReserveKeepsRows(s, user, l, quantity);
    forall m | 0 <= m < |s.listings| ensures Conserved(Reserve(s, user, l, quantity), m) {
      ReserveConserves(s, user, l, quantity, m);
    }
  }

  lemma EndHoldKeepsInv(s: Shop, r: ReservationId, status: ReservationStatus)
    requires Inv(s) && r < |s.reservations| && s.reservations[r].status == Held && status != Held
    ensures Inv(EndHold(s, r, status))
  {
    var s' := EndHold(s, r, status);
    forall m | 0 <= m < |s'.listings| ensures Conserved(s', m) {
      assert Conserved(s, m);
      SumUpdate(s.reservations, r, s'.reservations[r], HeldOn(m));
    }
  }

  lemma CheckoutKeepsRefs(s: Shop, user: UserId)
    requires Refs(s)
    ensures Refs(Checkout(s, user))
  {
    LinesAreHolds(s.reservations, s.listings, user, s.now);
    var items := LinesFrom(s.reservations, s.listings, user, s.now);
    assert forall k :: 0 <= k < |items| ==> items[k] in items;
  }

  lemma LinesArePositive(s: Shop, user: UserId)
    requires Rows(s)
    ensures forall i <- LinesFrom(s.reservations, s.listings, user, s.now) :: 1 <= i.quantity
  {
    LinesAreHolds(s.reservations, s.listings, user, s.now);
    assert forall r <- s.reservations :: 1 <= r.quantity;
  }

  lemma CheckoutKeepsRows(s: Shop, user: UserId)
    requires Rows(s)
    ensures Rows(Checkout(s, user))
  {
    CheckoutKeepsRefs(s, user);
    LinesArePositive(s, user);
    var s' := Checkout(s, user);
    var items := LinesFrom(s.reservations, s.listings, user, s.now);
    forall o, k | 0 <= o < |s'.orders| && 0 <= k < |s'.orders[o].items| ensures 1 <= s'.orders[o].items[k].quantity {
      if o < |s.orders| {
        assert s'.orders[o] == s.orders[o];
      } else {
        assert s'.orders[o].items == items && items[k] in items;
      }
    }
  }

  lemma CheckoutKeepsInv(s: Shop, user: UserId)
    requires Inv(s)
    ensures Inv(Checkout(s, user))
  {
    var s' := Checkout(s, user);
    var order := s'.orders[|s.orders|];
    CheckoutKeepsRows(s, user);
    assert Rows(s') && OneHold(s') && ReservedIsEmpty(s');
    forall m | 0 <= m < |s'.listings| ensures Conserved(s', m) {
      assert Conserved(s, m);
      ConvertMovesUnits(s.reservations, s.listings, user, s.now, m);
      SumAppend(s.orders, order, TakenOn(m));
    }
  }

  lemma HoldStepKeepsInv(s: Shop, step: Step)
    requires Inv(s)
    ensures Inv(HoldStep(s, step))
  {
    match step {
      case ReserveStep(user, l, quantity) =>
        if ReserveRefusal(s, user, l, quantity) == None { ReserveKeepsInv(s, user, l, quantity); }
      case ReleaseHold(user, r) =>
        if r < |s.reservations| && s.reservations[r].status == Held { EndHoldKeepsInv(s, r, Released); }
      case ExpireHold(r) =>
        if r < |s.reservations| && s.reservations[r].status == Held { EndHoldKeepsInv(s, r, Expired); }
      case CheckoutStep(user) => CheckoutKeepsInv(s, user);
      case _ =>
    }
  }

  lemma ReleaseOrderKeepsInv(s: Shop, o: OrderId, status: OrderStatus)
    requires Inv(s) && o < |s.orders| && !CommitsStock(status) && !TookMoney(status)
    ensures Inv(ReleaseOrder(s, o, status))
  {
    if CommitsStock(s.orders[o].status) {
      var s' := ReleaseOrder(s, o, status);
      forall m | 0 <= m < |s'.listings|
        ensures Conserved(s', m) && (s'.listings[m].status == Reserved ==> s'.listings[m].quantity == 0)
      {
        assert Conserved(s, m);
        PutBackAddsUnits(s.listings, s.orders[o].items, m);
        SumUpdate(s.orders, o, s'.orders[o], TakenOn(m));
      }
    }
  }

  lemma MarkPaidKeepsInv(s: Shop, o: OrderId)
    requires Inv(s) && o < |s.orders|
    ensures Inv(MarkPaid(s, o))
  {
    if CommitsStock(s.orders[o].status) {
      var s' := MarkPaid(s, o);
      forall m | 0 <= m < |s'.listings|
        ensures Conserved(s', m) && (s'.listings[m].status == Reserved ==> s'.listings[m].quantity == 0)
      {
        assert Conserved(s, m);
        LastUnitIsSold(s.listings, s.orders[o].items, m);
        SumUpdate(s.orders, o, s'.orders[o], TakenOn(m));
      }
    }
  }

  /** A change of an order row that leaves its stock where it is. */
  lemma OrderRowKeepsInv(s: Shop, o: OrderId, order: Order)
    requires Inv(s) && o < |s.orders| && order.items == s.orders[o].items
    requires CommitsStock(order.status) || TookMoney(order.status)
             <==> CommitsStock(s.orders[o].status) || TookMoney(s.orders[o].status)
    ensures Inv(s.(orders := s.orders[o := order]))
  {
    var s' := s.(orders := s.orders[o := order]);
    forall m | 0 <= m < |s'.listings| ensures Conserved(s', m) {
      assert Conserved(s, m);
      SumUpdate(s.orders, o, order, TakenOn(m));
    }
  }

  lemma OrderStepKeepsInv(s: Shop, step: Step)
    requires Inv(s)
    ensures Inv(OrderStep(s, step))
  {
    match step {
      case PayStep(o) => if o < |s.orders| { MarkPaidKeepsInv(s, o); }
      case FailStep(o) => if o < |s.orders| { ReleaseOrderKeepsInv(s, o, OrderFailed); }
      case CancelStep(o) => if o < |s.orders| { ReleaseOrderKeepsInv(s, o, Cancelled); }
      case AttachIntent(o, _) => if o < |s.orders| { OrderRowKeepsInv(s, o, OrderStep(s, step).orders[o]); }
      case ClaimStep(_, o) => if o < |s.orders| { OrderRowKeepsInv(s, o, OrderStep(s, step).orders[o]); }
      case UnclaimStep(o) => if o < |s.orders| { OrderRowKeepsInv(s, o, OrderStep(s, step).orders[o]); }
      case RefundedStep(o) => if o < |s.orders| { OrderRowKeepsInv(s, o, OrderStep(s, step).orders[o]); }
      case RefundUndone(o) => if o < |s.orders| { OrderRowKeepsInv(s, o, OrderStep(s, step).orders[o]); }
      case _ =>
    }
  }

  lemma {:induction false} NothingOnNewListing(s: Shop)
    requires Refs(s)
    ensures Sum(s.reservations, HeldOn(|s.listings|)) == 0 && Sum(s.orders, TakenOn(|s.listings|)) == 0
  {
    var l := |s.listings|;
    SumZero(s.reservations, HeldOn(l));
    forall o | 0 <= o < |s.orders| ensures TakenOn(l)(s.orders[o]) == 0 {
      SumZero(s.orders[o].items, UnitsOn(l));
    }
    SumZero(s.orders, TakenOn(l));
  }

  /** A listing whose quantity is untouched, on a shop otherwise the same. */
  lemma ListingRowKeepsInv(s: Shop, l: ListingId, status: ListingStatus, deleted: bool)
    requires Inv(s) && l < |s.listings| && status != Reserved
    ensures Inv(s.(listings := s.listings[l := s.listings[l].(status := status, deleted := deleted)]))
  {
    var s' := s.(listings := s.listings[l := s.listings[l].(status := status, deleted := deleted)]);
    forall m | 0 <= m < |s'.listings| ensures Conserved(s', m) {
      assert Conserved(s, m);
    }
  }

  lemma NewListingKeepsInv(s: Shop, owner: UserId, price: nat, stock: nat)
    requires Inv(s)
    ensures Inv(ListingStep(s, NewListing(owner, price, stock)))
  {
    var s' := ListingStep(s, NewListing(owner, price, stock));
    NothingOnNewListing(s);
    forall m | 0 <= m < |s'.listings| ensures Conserved(s', m) {
      assert m < |s.listings| ==> Conserved(s, m);
    }
  }

  lemma ListingStepKeepsInv(s: Shop, step: Step)
    requires Inv(s)
    ensures Inv(ListingStep(s, step))
  {
    match step {
      case NewListing(owner, price, stock) => NewListingKeepsInv(s, owner, price, stock);
      case Publish(l) => if l < |s.listings| { ListingRowKeepsInv(s, l, Active, s.listings[l].deleted); }
      case Unpublish(l) => if l < |s.listings| { ListingRowKeepsInv(s, l, Draft, s.listings[l].deleted); }
      case Remove(l) => if l < |s.listings| { ListingRowKeepsInv(s, l, Removed, true); }
      case Restore(l) => if l < |s.listings| { ListingRowKeepsInv(s, l, Draft, false); }
      case _ =>
    }
  }

  /** A change of the clock or of the provider's intents. */
  lemma OutsideKeepsInv(s: Shop, intents: map<IntentId, IntentStatus>, now: int)
    requires Inv(s)
    ensures Inv(s.(intents := intents, now := now))
  {
    forall m | 0 <= m < |s.listings| ensures Conserved(s.(intents := intents, now := now), m) {
      assert Conserved(s, m);
    }
  }

  lemma StepKeepsInv(s: Shop, step: Step)
    requires Inv(s)
    ensures Inv(Do(s, step))
  {
    ListingStepKeepsInv(s, step);
    HoldStepKeepsInv(s, step);
    OrderStepKeepsInv(s, step);
    OutsideKeepsInv(s, Do(s, step).intents, Do(s, step).now);
  }

  lemma HoldStepKeepsRefs(s: Shop, step: Step)
    requires Refs(s)
    ensures Refs(HoldStep(s, step))
  {
    if step.CheckoutStep? { CheckoutKeepsRefs(s, step.user); }
  }

  lemma OrderStepKeepsRefs(s: Shop, step: Step)
    requires Refs(s)
    ensures Refs(OrderStep(s, step)) && Refs(ListingStep(s, step))
  {
  }

  lemma StepKeepsRefs(s: Shop, step: Step)
    requires Refs(s)
    ensures Refs(Do(s, step))
  {
    HoldStepKeepsRefs(s, step);
    OrderStepKeepsRefs(s, step);
  }

  ghost function Run(steps: seq<Step>): (s: Shop)
    ensures Refs(s)
  {
    if |steps| == 0 then EmptyShop
    else
      var before := Run(steps[..|steps| - 1]);
      StepKeepsRefs(before, steps[|steps| - 1]);
      Do(before, steps[|steps| - 1])
  }

  lemma {:induction false} RunKeepsInv(steps: seq<Step>)
    ensures Inv(Run(steps))
  {
    if |steps| > 0 {
      RunKeepsInv(steps[..|steps| - 1]);
      StepKeepsInv(Run(steps[..|steps| - 1]), steps[|steps| - 1]);
    }
  }

  /** Over every interleaving a listing's units are on the shelf, held, in an open
      order or sold, and never more than were listed. */
  lemma StockIsConserved(steps: seq<Step>, l: ListingId)
    requires l < |Run(steps).listings|
    ensures var s := Run(steps);
            && |s.stocked| == |s.listings|
            && s.listings[l].quantity + Sum(s.reservations, HeldOn(l)) + Sum(s.orders, OpenOn(l))
               + Sum(s.orders, SoldOn(l)) == s.stocked[l]
            && 0 <= s.listings[l].quantity && 0 <= Sum(s.reservations, HeldOn(l))
            && 0 <= Sum(s.orders, OpenOn(l)) && 0 <= Sum(s.orders, SoldOn(l))
            && (s.listings[l].status == Reserved ==> s.listings[l].quantity == 0)
  {
    var s := Run(steps);
    RunKeepsInv(steps);
    assert Conserved(s, l);
    SumSplit(s.orders, TakenOn(l), OpenOn(l), SoldOn(l));
    SumNonNegative(s.reservations, HeldOn(l));
    forall o | 0 <= o < |s.orders| ensures 0 <= Units(s.orders[o].items, l) {
      SumNonNegative(s.orders[o].items, UnitsOn(l));
    }
    SumNonNegative(s.orders, OpenOn(l));
    SumNonNegative(s.orders, SoldOn(l));
  }

  lemma RunOneMore(steps: seq<Step>, step: Step)
    ensures Run(steps + [step]) == Do(Run(steps), step)
  {
    assert (steps + [step])[..|steps|] == steps;
  }

  lemma StockedStays(s: Shop, step: Step)
    requires Refs(s)
    ensures s.stocked <= Do(s, step).stocked
  {
  }

  /** The total in `StockIsConserved` is a constant: it is what was listed, for good. */
  lemma {:induction false} StockedIsHistory(steps: seq<Step>, more: seq<Step>)
    ensures Run(steps).stocked <= Run(steps + more).stocked
  {
    if |more| == 0 {
      assert steps + more == steps;
    } else {
      var init, last := more[..|more| - 1], more[|more| - 1];
      StockedIsHistory(steps, init);
      LastStep(steps, more);
      RunOneMore(steps + init, last);
      StockedStays(Run(steps + init), last);
    }
  }

  /** A buyer never holds the same listing twice. */
  lemma OneHoldPerBuyer(steps: seq<Step>, q: ReservationId, r: ReservationId)
    requires var rows := Run(steps).reservations;
             && q < |rows| && r < |rows| && rows[q].status == rows[r].status == Held
             && rows[q].listing == rows[r].listing && rows[q].user == rows[r].user
    ensures q == r
  {
    RunKeepsInv(steps);
    assert OneHold(Run(steps));
  }

  /** Only a hand-back makes an order that is being paid, or was, payable again. */
  lemma OnlyHandBackReopens(s: Shop, step: Step, o: OrderId)
    requires Refs(s) && o < |s.orders| && s.orders[o].status != PendingPayment && step != UnclaimStep(o)
    ensures o < |Do(s, step).orders| && Do(s, step).orders[o].status != PendingPayment
  {
  }

  /** Of all the calls that try to pay an order, one wins its claim; until that one hands it
      back, over any interleaving, no claim of the order wins again. */
  lemma {:induction false} OneClaimUntilHandedBack(steps: seq<Step>, more: seq<Step>, user: UserId, o: OrderId)
    requires o < |Run(steps).orders| && Run(steps).orders[o].status != PendingPayment
    requires UnclaimStep(o) !in more
    ensures var s := Run(steps + more);
            && o < |s.orders| && s.orders[o].status != PendingPayment
            && ClaimForPayment(s, user, o) == s
  {
    if |more| == 0 {
      assert steps + more == steps;
    } else {
      var init, last := more[..|more| - 1], more[|more| - 1];
      assert last in more;
      OneClaimUntilHandedBack(steps, init, user, o);
      LastStep(steps, more);
      RunOneMore(steps + init, last);
      OnlyHandBackReopens(Run(steps + init), last, o);
    }
  }
}
