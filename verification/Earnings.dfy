/** Who may be paid what (backend/src/lib/payouts.ts, down to `earningsSummary`).

The rows are one seller's lines on paid orders, as `sellerItems` fetches them,
and the two sets are what `refundedItemIds` and `spokenForItemIds` answer.
*/
module Earnings {
  import opened Tables

  type ItemId = nat
  type OrderId = nat

  datatype Fulfilment = Unfulfilled | Shipped | Delivered | Unfulfillable

  datatype Item = Item(
    id: ItemId,
    order: OrderId,
    unitPriceCents: nat,
    quantity: nat,
    fulfilment: Fulfilment,
    deliveredAt: Option<int>)

  /** A refund that is PENDING or SUCCEEDED; FAILED ones are not fetched. */
  datatype LiveRefund = LiveRefund(order: OrderId, item: Option<ItemId>)

  datatype PayableItem = PayableItem(item: ItemId, order: OrderId, amountCents: int, deliveredAt: int)

  function LineTotal(i: Item): int { i.unitPriceCents * i.quantity }

  /** A refund that names its line blocks that line; one that names none blocks
      every line of its order. */
  function RefundedItemIds(items: seq<Item>, refunds: seq<LiveRefund>): (ids: set<ItemId>)
  {
    var orders := set i <- items :: i.order;
    var fetched := set r <- refunds | r.order in orders :: r;
    var blockedOrders := set r <- fetched | r.item == None :: r.order;
    var blockedItems := set r <- fetched | r.item.Some? :: r.item.value;
    set i <- items | i.order in blockedOrders || i.id in blockedItems :: i.id
  }

  /** A line is withheld exactly when some live refund of its order names it or
      names no line at all. */
  lemma RefundsBlockTheirLines(items: seq<Item>, refunds: seq<LiveRefund>, k: nat)
    requires k < |items|
    requires forall i, j :: 0 <= i < j < |items| ==> items[i].id != items[j].id
    requires forall r <- refunds, i <- items :: r.item == Some(i.id) ==> r.order == i.order
    ensures items[k].id in RefundedItemIds(items, refunds)
            <==> exists r <- refunds :: r.order == items[k].order && (r.item == None || r.item == Some(items[k].id))
  {
    var line := items[k];
    assert line in items;
    if r :| r in refunds && r.order == line.order && (r.item == None || r.item == Some(line.id)) {
      assert r.order in (set i <- items :: i.order);
    }
  }

  /** What the five conditions read about one seller. */
  datatype Facts = Facts(refunded: set<ItemId>, spokenFor: set<ItemId>, holdMs: nat)

  predicate IsPayable(i: Item, f: Facts, now: int) {
    && i.fulfilment == Delivered
    && i.deliveredAt.Some?
    && i.deliveredAt.value <= now - f.holdMs
    && i.id !in f.refunded
    && i.id !in f.spokenFor
  }

  /** The filter and map of `payableItems`. */
  function PayableItems(items: seq<Item>, f: Facts, now: int): (payable: seq<PayableItem>)
    ensures forall p <- payable :: 0 <= p.amountCents
    ensures forall p <- payable :: exists i <- items ::
              && IsPayable(i, f, now)
              && p == PayableItem(i.id, i.order, LineTotal(i), i.deliveredAt.value)
  {
    if |items| == 0 then []
    else
      var last := items[|items| - 1];
      var before := PayableItems(items[..|items| - 1], f, now);
      if IsPayable(last, f, now)
      then before + [PayableItem(last.id, last.order, LineTotal(last), last.deliveredAt.value)]
      else before
  }

  /** Where the summary counts a line. */
  datatype Bucket = NotEarned | InPayout | InFlight | Eligible | OnHold

  function Classify(i: Item, f: Facts, now: int): Bucket {
    if i.id in f.refunded || i.fulfilment == Unfulfillable then NotEarned
    else if i.id in f.spokenFor then InPayout
    else if i.fulfilment != Delivered || i.deliveredAt == None then InFlight
    else if i.deliveredAt.value <= now - f.holdMs then Eligible
    else OnHold
  }

  /** Where a line is counted, by its own row. Refunded or unsendable was never earned; spoken for
      is in a payout; of the rest what is not delivered is in flight, and what is delivered is
      on hold until the hold is over and eligible from that moment on. Payable is what is
      delivered past its hold, not refunded and not spoken for. */
  lemma BucketsMean(i: Item, f: Facts, now: int)
    ensures var bucket, taken := Classify(i, f, now), i.id in f.spokenFor;
            var unearned := i.id in f.refunded || i.fulfilment == Unfulfillable;
            var delivered := i.fulfilment == Delivered && i.deliveredAt.Some?;
            && (bucket == NotEarned <==> unearned)
            && (bucket == InPayout <==> !unearned && taken)
            && (bucket == InFlight <==> !unearned && !taken && !delivered)
            && (bucket == OnHold <==> !unearned && !taken && delivered && now < i.deliveredAt.value + f.holdMs)
            && (bucket == Eligible <==> !unearned && !taken && delivered && i.deliveredAt.value + f.holdMs <= now)
            && (IsPayable(i, f, now) <==> && i.id !in f.refunded && !taken
                                          && delivered && i.deliveredAt.value + f.holdMs <= now)
  {
  }

  /** What is paid out: every payable line once, in the order of the lines, for what was sold. */
  lemma {:induction false} PaysEveryLine(items: seq<Item>, f: Facts, now: int)
    ensures var payable := PayableItems(items, f, now);
            && |payable| <= |items|
            && (forall i <- items :: IsPayable(i, f, now) ==>
                  PayableItem(i.id, i.order, i.unitPriceCents * i.quantity, i.deliveredAt.value) in payable)
            && (forall p <- payable :: exists i <- items ::
                  && IsPayable(i, f, now)
                  && p == PayableItem(i.id, i.order, i.unitPriceCents * i.quantity, i.deliveredAt.value))
            && |payable| == Sum(items, (i: Item) => if IsPayable(i, f, now) then 1 else 0)
  {
    if |items| > 0 {
      PaysEveryLine(items[..|items| - 1], f, now);
    }
  }

  function In(bucket: Bucket, f: Facts, now: int): Item -> int {
    (i: Item) => if Classify(i, f, now) == bucket then LineTotal(i) else 0
  }

  function Total(): Item -> int { (i: Item) => LineTotal(i) }

  function Amount(): PayableItem -> int { (p: PayableItem) => p.amountCents }

  lemma {:induction false} BucketsPartition(items: seq<Item>, f: Facts, now: int)
    ensures Sum(items, In(NotEarned, f, now)) + Sum(items, In(InPayout, f, now)) + Sum(items, In(InFlight, f, now))
            + Sum(items, In(Eligible, f, now)) + Sum(items, In(OnHold, f, now))
            == Sum(items, Total())
  {
    if |items| > 0 {
      BucketsPartition(items[..|items| - 1], f, now);
    }
  }

  /** The two independent tests agree: what `payableItems` returns is what the
      summary calls eligible. */
  lemma {:induction false} PayableIsEligible(items: seq<Item>, f: Facts, now: int)
    ensures Sum(PayableItems(items, f, now), Amount()) == Sum(items, In(Eligible, f, now))
  {
    if |items| > 0 {
      var last, init := items[|items| - 1], items[..|items| - 1];
      PayableIsEligible(init, f, now);
      assert IsPayable(last, f, now) <==> Classify(last, f, now) == Eligible;
      if IsPayable(last, f, now) {
        SumAppend(PayableItems(init, f, now),
                  PayableItem(last.id, last.order, LineTotal(last), last.deliveredAt.value), Amount());
      }
    }
  }

  datatype Summary = Summary(
    payableCents: int,
    withheldCents: int,
    heldCents: int,
    heldUntil: Option<int>,
    inFlightCents: int,
    notEarnedCents: int)

  /** The earliest moment a line on hold leaves it. */
  function EarliestRelease(items: seq<Item>, f: Facts, now: int): Option<int> {
    if |items| == 0 then None
    else
      var last := items[|items| - 1];
      var before := EarliestRelease(items[..|items| - 1], f, now);
      if Classify(last, f, now) != OnHold then before
      else
        var releases := last.deliveredAt.value + f.holdMs;
        if before == None || releases < before.value then Some(releases) else before
  }

  lemma ReleasePrefix(items: seq<Item>, k: nat, f: Facts, now: int)
    requires k < |items|
    ensures EarliestRelease(items[..k + 1], f, now)
            == if Classify(items[k], f, now) != OnHold then EarliestRelease(items[..k], f, now)
               else var releases := items[k].deliveredAt.value + f.holdMs;
                    var before := EarliestRelease(items[..k], f, now);
                    if before == None || releases < before.value then Some(releases) else before
  {
    PrefixNext(items, k);
  }

  /** `heldUntil` is exactly the first instant at which some line on hold becomes
      payable, and is absent exactly when no line is on hold. */
  lemma {:induction false} HeldUntilIsFirstRelease(items: seq<Item>, f: Facts, now: int)
    ensures EarliestRelease(items, f, now) == None
            <==> forall k :: 0 <= k < |items| ==> Classify(items[k], f, now) != OnHold
    ensures EarliestRelease(items, f, now).Some? ==>
              var t := EarliestRelease(items, f, now).value;
              && now < t
              && (exists k :: 0 <= k < |items| && Classify(items[k], f, now) == OnHold && IsPayable(items[k], f, t))
              && (forall k, earlier :: 0 <= k < |items| && Classify(items[k], f, now) == OnHold && earlier < t ==>
                    !IsPayable(items[k], f, earlier))
  {
    if |items| > 0 {
      var n := |items| - 1;
      var init := items[..n];
      HeldUntilIsFirstRelease(init, f, now);
      var before := EarliestRelease(init, f, now);
      if before.Some? {
        var k :| 0 <= k < n && Classify(init[k], f, now) == OnHold && IsPayable(init[k], f, before.value);
        assert items[k] == init[k];
      }
      forall k, earlier | 0 <= k < n && Classify(items[k], f, now) == OnHold && before.Some? && earlier < before.value
        ensures !IsPayable(items[k], f, earlier)
      {
        assert items[k] == init[k];
      }
      assert Classify(items[n], f, now) == OnHold ==>
        IsPayable(items[n], f, items[n].deliveredAt.value + f.holdMs);
      assert forall k :: 0 <= k < n ==> items[k] == init[k];
    }
  }

  lemma SummaryStep(items: seq<Item>, k: nat, f: Facts, now: int)
    requires k < |items|
    ensures forall bucket :: Sum(items[..k + 1], In(bucket, f, now))
                             == Sum(items[..k], In(bucket, f, now)) + In(bucket, f, now)(items[k])
  {
    forall bucket {
      SumPrefix(items, k, In(bucket, f, now));
    }
  }

  /** The figures of the payouts page. They add up: every line is counted once, and
      what is payable or withheld is exactly what `payableItems` would pay. */
  method EarningsSummary(items: seq<Item>, f: Facts, gatesOpen: bool, now: int) returns (s: Summary)
    ensures s.notEarnedCents + Sum(items, In(InPayout, f, now)) + s.inFlightCents + s.heldCents
            + s.payableCents + s.withheldCents == Sum(items, Total())
    ensures s.payableCents + s.withheldCents == Sum(PayableItems(items, f, now), Amount())
    ensures if gatesOpen then s.withheldCents == 0 else s.payableCents == 0
    ensures s.notEarnedCents == Sum(items, In(NotEarned, f, now))
    ensures s.inFlightCents == Sum(items, In(InFlight, f, now))
    ensures s.heldUntil == EarliestRelease(items, f, now)
  {
    var cutoff := now - f.holdMs;
    var eligible, held, inFlight, notEarned := 0, 0, 0, 0;
    var heldUntil: Option<int> := None;

    for k := 0 to |items|
      invariant notEarned == Sum(items[..k], In(NotEarned, f, now))
      invariant inFlight == Sum(items[..k], In(InFlight, f, now))
      invariant eligible == Sum(items[..k], In(Eligible, f, now))
      invariant held == Sum(items[..k], In(OnHold, f, now))
      invariant heldUntil == EarliestRelease(items[..k], f, now)
    {
      var i := items[k];
      var amount := i.unitPriceCents * i.quantity;
      SummaryStep(items, k, f, now);
      ReleasePrefix(items, k, f, now);

      if i.id in f.refunded || i.fulfilment == Unfulfillable {
        notEarned := notEarned + amount;
        continue;
      }
      if i.id in f.spokenFor {
        continue;
      }
      if i.fulfilment != Delivered || i.deliveredAt == None {
        inFlight := inFlight + amount;
        continue;
      }
      if i.deliveredAt.value <= cutoff {
        eligible := eligible + amount;
      } else {
        held := held + amount;
        var releases := i.deliveredAt.value + f.holdMs;
        if heldUntil == None || releases < heldUntil.value {
          heldUntil := Some(releases);
        }
      }
    }

    assert items[..|items|] == items;
    BucketsPartition(items, f, now);
    PayableIsEligible(items, f, now);
    s := Summary(
      if gatesOpen then eligible else 0,
      if gatesOpen then 0 else eligible,
      held, heldUntil, inFlight, notEarned);
  }
}
