/** Claims of a payout that race (backend/src/lib/payouts.ts, `payableItems` and `claimPayout`).

A claim reads the seller's lines, then the refunds and the lines already in payouts, then
the debts, and only then commits. Here each of those queries is a step, and lines are
sold, delivered, refunded and paid for in between, as are the payouts of `Payouts`.
*/
module ClaimRaces {
  import opened Tables
  import Earnings
  import Payouts

  type SellerId = Payouts.SellerId
  type ItemId = Earnings.ItemId
  type OrderId = Earnings.OrderId

  /** An order line and its seller. */
  datatype Sold = Sold(seller: SellerId, line: Earnings.Item)

  /** A refund is live until the provider fails it. */
  datatype Refund = Refund(refund: Earnings.LiveRefund, live: bool)

  /** What a claim has read so far; `None` is a query it has yet to make. */
  datatype Stage =
    | Opening
    | Reading(
        lines: seq<Earnings.Item>,
        refunded: Option<set<ItemId>>,
        spokenFor: Option<set<ItemId>>,
        debts: Option<seq<Payouts.SeenDebt>>)
    | Over

  datatype Claimer = Claimer(seller: SellerId, startedAt: int, stage: Stage)

  /** `paid` are the orders whose status is PAID. */
  datatype World = World(
    ledger: Payouts.State,
    sold: seq<Sold>,
    paid: set<OrderId>,
    refunds: seq<Refund>,
    claimers: seq<Claimer>,
    now: int,
    holdMs: nat)

  datatype Step =
    | Sell(seller: SellerId, order: OrderId, unitPriceCents: nat, quantity: nat)
    | Fulfil(line: ItemId, fulfilment: Earnings.Fulfilment)
    | PayOrder(order: OrderId)
    | LeavePaid(order: OrderId)
    | OpenRefund(order: OrderId, item: Option<ItemId>)
    | FailRefund(refund: nat)
    | Begin(seller: SellerId)
    | Advance(claimer: nat, refundsFirst: bool)
    | Tick(ms: nat)
    | Other(step: Payouts.Step)

  function EmptyWorld(holdMs: nat): World {
    World(Payouts.EmptyState, [], {}, [], [], 0, holdMs)
  }

  /* ------------------------------------------------------------------ *
   * The queries
   * ------------------------------------------------------------------ */

  /** `sellerItems`: the seller's lines on PAID orders. */
  function SellerItems(sold: seq<Sold>, paid: set<OrderId>, seller: SellerId): (lines: seq<Earnings.Item>)
    ensures forall i <- lines :: Sold(seller, i) in sold && i.order in paid
    ensures forall k :: 0 <= k < |sold| && sold[k].seller == seller && sold[k].line.order in paid ==>
              sold[k].line in lines
  {
    if |sold| == 0 then []
    else
      var last := sold[|sold| - 1];
      var before := SellerItems(sold[..|sold| - 1], paid, seller);
      if last.seller == seller && last.line.order in paid then before + [last.line] else before
  }

  function LiveRefunds(refunds: seq<Refund>): (live: seq<Earnings.LiveRefund>)
    ensures forall r :: r in live <==> Refund(r, true) in refunds
  {
    if |refunds| == 0 then []
    else
      var last := refunds[|refunds| - 1];
      var before := LiveRefunds(refunds[..|refunds| - 1]);
      if last.live then before + [last.refund] else before
  }

  function Spoken(lines: seq<Payouts.Line>): set<ItemId> {
    set l <- lines :: l.item
  }

  /* ------------------------------------------------------------------ *
   * The claim
   * ------------------------------------------------------------------ */

  function ViewOf(w: World, c: Claimer): Earnings.Facts
    requires c.stage.Reading? && c.stage.refunded.Some? && c.stage.spokenFor.Some?
  {
    Earnings.Facts(c.stage.refunded.value, c.stage.spokenFor.value, w.holdMs)
  }

  function Offered(w: World, c: Claimer): seq<Payouts.Offer>
    requires c.stage.Reading? && c.stage.refunded.Some? && c.stage.spokenFor.Some?
  {
    Payouts.Offers(Earnings.PayableItems(c.stage.lines, ViewOf(w, c), c.startedAt))
  }

  /** The next query of a claim. The second and third may come in either order. */
  function NextRead(w: World, c: Claimer, refundsFirst: bool): Stage {
    match c.stage
    case Opening =>
      var lines := SellerItems(w.sold, w.paid, c.seller);
      if |lines| == 0 then Over else Reading(lines, None, None, None)
    case Reading(lines, refunded, spokenFor, debts) =>
      if refunded == None && (refundsFirst || spokenFor.Some?) then
        c.stage.(refunded := Some(Earnings.RefundedItemIds(lines, LiveRefunds(w.refunds))))
      else if spokenFor == None then c.stage.(spokenFor := Some(Spoken(w.ledger.books.lines)))
      else if debts == None && |Offered(w, c)| > 0 then
        c.stage.(debts := Some(Payouts.SeenDebts(w.ledger.books.debts, c.seller)))
      else Over
    case Over => Over
  }

  /** Every query made: the next statement is the insert. */
  predicate Committing(c: Claimer) {
    c.stage.Reading? && c.stage.refunded.Some? && c.stage.spokenFor.Some? && c.stage.debts.Some?
  }

  ghost function Advanced(w: World, i: nat, refundsFirst: bool): World
    requires i < |w.claimers| && Payouts.WellFormed(w.ledger)
  {
    var c := w.claimers[i];
    w.(claimers := w.claimers[i := c.(stage := NextRead(w, c, refundsFirst))],
       ledger := if Committing(c) then Payouts.DoClaim(w.ledger, c.seller, Offered(w, c), c.stage.debts.value)
                 else w.ledger)
  }

  function Fulfilled(line: Earnings.Item, fulfilment: Earnings.Fulfilment, now: int): Earnings.Item {
    if line.fulfilment == Earnings.Delivered then line
    else line.(fulfilment := fulfilment,
               deliveredAt := if fulfilment == Earnings.Delivered then Some(now) else None)
  }

  /** A refund that names a line is of that line's order. */
  predicate RefundFits(sold: seq<Sold>, order: OrderId, item: Option<ItemId>) {
    item.Some? ==> item.value < |sold| && sold[item.value].line.order == order
  }

  ghost function Do(w: World, step: Step): World
    requires Payouts.WellFormed(w.ledger)
  {
    match step
    case Sell(seller, order, price, quantity) =>
      w.(sold := w.sold + [Sold(seller, Earnings.Item(|w.sold|, order, price, quantity, Earnings.Unfulfilled, None))])
    case Fulfil(x, fulfilment) =>
      if x < |w.sold| then
        w.(sold := w.sold[x := w.sold[x].(line := Fulfilled(w.sold[x].line, fulfilment, w.now))])
      else w
    case PayOrder(order) => w.(paid := w.paid + {order})
    case LeavePaid(order) => w.(paid := w.paid - {order})
    case OpenRefund(order, item) =>
      if RefundFits(w.sold, order, item)
      then w.(refunds := w.refunds + [Refund(Earnings.LiveRefund(order, item), true)]) else w
    case FailRefund(r) =>
      if r < |w.refunds| then w.(refunds := w.refunds[r := w.refunds[r].(live := false)]) else w
    case Begin(seller) => w.(claimers := w.claimers + [Claimer(seller, w.now, Opening)])
    case Advance(i, refundsFirst) => if i < |w.claimers| then Advanced(w, i, refundsFirst) else w
    case Tick(ms) => w.(now := w.now + ms)
    case Other(step) => if step.Claim? then w else w.(ledger := Payouts.Do(w.ledger, step))
  }

  ghost function Run(holdMs: nat, steps: seq<Step>): (w: World)
    ensures Payouts.WellFormed(w.ledger)
  {
    if |steps| == 0 then EmptyWorld(holdMs)
    else
      var before, last := Run(holdMs, steps[..|steps| - 1]), steps[|steps| - 1];
      StepKeepsWellFormed(before, last);
      Do(before, last)
  }

  lemma StepKeepsWellFormed(w: World, step: Step)
    requires Payouts.WellFormed(w.ledger)
    ensures Payouts.WellFormed(Do(w, step).ledger)
  {
    if step.Advance? && step.claimer < |w.claimers| && Committing(w.claimers[step.claimer]) {
      var c := w.claimers[step.claimer];
      var claim := Payouts.Claim(c.seller, Offered(w, c), c.stage.debts.value);
      Payouts.StepKeepsWellFormed(w.ledger, claim);
      assert Do(w, step).ledger == Payouts.Do(w.ledger, claim);
    } else if step.Other? {
      Payouts.StepKeepsWellFormed(w.ledger, step.step);
    }
  }

  /* ------------------------------------------------------------------ *
   * What disturbs a claim
   * ------------------------------------------------------------------ */

  predicate Touches(r: Earnings.LiveRefund, line: Earnings.Item) {
    r.order == line.order && (r.item == None || r.item == Some(line.id))
  }

  predicate Refunded(refunds: seq<Refund>, line: Earnings.Item) {
    exists r <- refunds :: r.live && Touches(r.refund, line)
  }

  predicate Delivered(line: Earnings.Item) {
    line.fulfilment == Earnings.Delivered && line.deliveredAt.Some?
  }

  /** What else than the hold decides whether a delivered line may be paid out. */
  predicate SameStanding(w: World, w': World, line: Earnings.Item) {
    (line.order in w.paid <==> line.order in w'.paid) && (Refunded(w.refunds, line) <==> Refunded(w'.refunds, line))
  }

  /** While a claim of some seller is open, one of the seller's delivered lines is refunded,
      has its refund failed, or sees its order enter or leave PAID. */
  ghost predicate Disturbs(w: World, step: Step)
    requires Payouts.WellFormed(w.ledger)
  {
    exists c <- w.claimers, s <- w.sold ::
      c.stage.Reading? && s.seller == c.seller && Delivered(s.line) && !SameStanding(w, Do(w, step), s.line)
  }

  ghost predicate Undisturbed(holdMs: nat, steps: seq<Step>) {
    |steps| > 0 ==>
      var before, last := steps[..|steps| - 1], steps[|steps| - 1];
      Undisturbed(holdMs, before) && !Disturbs(Run(holdMs, before), last)
  }

  /* ------------------------------------------------------------------ *
   * What every claim knows
   * ------------------------------------------------------------------ */

  /** Delivered for longer than the hold when the claim began. */
  predicate Ripe(w: World, c: Claimer, line: Earnings.Item) {
    Delivered(line) && line.deliveredAt.value <= c.startedAt - w.holdMs
  }

  /** A line the claim found ripe. */
  predicate Found(w: World, c: Claimer, line: Earnings.Item) {
    c.stage.Reading? && line in c.stage.lines && Ripe(w, c, line)
  }

  /** A line of the claim's seller that is ripe now, on a PAID order. */
  predicate Due(w: World, c: Claimer, line: Earnings.Item) {
    Sold(c.seller, line) in w.sold && line.order in w.paid && Ripe(w, c, line)
  }

  /** A line the claim would pay out. */
  predicate Offers(w: World, c: Claimer, line: Earnings.Item) {
    && Found(w, c, line) && c.stage.refunded.Some? && c.stage.spokenFor.Some?
    && line.id !in c.stage.refunded.value && line.id !in c.stage.spokenFor.value
  }

  /** One of the claim's lines is in another payout by now, so its insert must fail. */
  ghost predicate Doomed(w: World, c: Claimer) {
    exists line :: Offers(w, c, line) && line.id in Spoken(w.ledger.books.lines)
  }

  /** What holds of an open claim whatever happens around it. */
  ghost predicate ClaimerOk(w: World, c: Claimer) {
    && c.startedAt <= w.now
    && (c.stage.Reading? ==> forall i <- c.stage.lines, j <- c.stage.lines :: i.id == j.id ==> i == j)
    && (c.stage.Reading? && c.stage.spokenFor.Some? ==> c.stage.spokenFor.value <= Spoken(w.ledger.books.lines))
    && (c.stage.Reading? && c.stage.debts.Some? ==>
          && (exists line :: Offers(w, c, line))
          && Payouts.ReadOf(w.ledger.books.debts, c.stage.debts.value)
          && forall d <- c.stage.debts.value :: w.ledger.books.debts[d.id].seller == c.seller)
  }

  /** What holds of it while nothing disturbs it: the ripe lines it found are due, it found
      every line that was ripe before it began, and the refunds are as it read them. */
  ghost predicate Calm(w: World, c: Claimer) {
    && (forall line :: Found(w, c, line) ==> Due(w, c, line))
    && (forall line :: c.stage.Reading? && Due(w, c, line) && line.deliveredAt.value < c.startedAt ==>
          line in c.stage.lines)
    && (c.stage.Reading? && c.stage.refunded.Some? ==>
          forall line :: Found(w, c, line) ==> (line.id in c.stage.refunded.value <==> Refunded(w.refunds, line)))
    && (c.stage.Reading? && c.stage.debts.Some? ==>
          Doomed(w, c) || Payouts.Fresh(w.ledger.books.debts, c.stage.debts.value))
  }

  /** Of two open claims of one seller, one found every ripe line the other found. */
  ghost predicate Nested(w: World, c: Claimer, d: Claimer) {
    c.seller == d.seller && c.stage.Reading? && d.stage.Reading? ==>
      || (forall line :: Found(w, c, line) ==> Found(w, d, line))
      || (forall line :: Found(w, d, line) ==> Found(w, c, line))
  }

  /** Lines and deliveries. */
  ghost predicate SoldOk(w: World) {
    && (forall k :: 0 <= k < |w.sold| ==> w.sold[k].line.id == k)
    && (forall s <- w.sold :: Delivered(s.line) ==> s.line.deliveredAt.value <= w.now)
    && (forall r <- w.refunds :: RefundFits(w.sold, r.refund.order, r.refund.item))
  }

  ghost predicate Inv(w: World) {
    && Payouts.Inv(w.ledger) && w.ledger.overNetted == 0
    && SoldOk(w)
    && (forall c <- w.claimers :: ClaimerOk(w, c) && Calm(w, c))
    && (forall c <- w.claimers, d <- w.claimers :: Nested(w, c, d))
  }

  /* ------------------------------------------------------------------ *
   * Steps of anybody but a claim
   * ------------------------------------------------------------------ */

  /** What such a step may do to the world. */
  ghost predicate Passes(w: World, w': World) {
    && w'.holdMs == w.holdMs && w.now <= w'.now
    && (forall s <- w.sold :: Delivered(s.line) ==> s in w'.sold)
    && (forall s <- w'.sold :: Delivered(s.line) ==> s in w.sold || s.line.deliveredAt.value >= w.now)
    && Spoken(w.ledger.books.lines) <= Spoken(w'.ledger.books.lines)
    && w.ledger.books.debts <= w'.ledger.books.debts
    && w'.ledger.overNetted == w.ledger.overNetted
  }

  lemma {:induction false} MarketPasses(w: World, step: Step)
    requires Payouts.WellFormed(w.ledger) && SoldOk(w)
    requires !step.Begin? && !step.Advance? && !step.Other?
    ensures Passes(w, Do(w, step))
  {
    var w' := Do(w, step);
    if step.Fulfil? && step.line < |w.sold| {
      var x := step.line;
      forall s <- w.sold | Delivered(s.line) ensures s in w'.sold {
        var k :| 0 <= k < |w.sold| && w.sold[k] == s;
        assert w'.sold[k] == s;
      }
      forall s <- w'.sold | Delivered(s.line) ensures s in w.sold || s.line.deliveredAt.value >= w.now {
        var k :| 0 <= k < |w'.sold| && w'.sold[k] == s;
        assert k != x ==> w.sold[k] == s;
        assert w.sold[k] in w.sold;
      }
    }
  }

  /** A line delivered now is ripe for every claim that begins a hold later, and its delivery is
      final; no other line moves. */
  lemma DeliveredLinesRipen(w: World, x: ItemId, ms: nat, seller: SellerId, undo: Earnings.Fulfilment)
    requires Payouts.WellFormed(w.ledger)
    requires x < |w.sold| && w.sold[x].line.fulfilment != Earnings.Delivered && w.holdMs <= ms
    ensures var delivered := Do(w, Fulfil(x, Earnings.Delivered));
            var claiming := Do(Do(delivered, Tick(ms)), Begin(seller));
            && |claiming.claimers| == |w.claimers| + 1
            && Ripe(claiming, claiming.claimers[|w.claimers|], claiming.sold[x].line)
            && claiming.sold == delivered.sold
            && delivered.sold == w.sold[x := Sold(w.sold[x].seller, w.sold[x].line.(
                                                fulfilment := Earnings.Delivered, deliveredAt := Some(w.now)))]
            && Do(delivered, Fulfil(x, undo)).sold == delivered.sold
  {
  }

  lemma MarketKeepsSold(w: World, step: Step)
    requires Payouts.WellFormed(w.ledger) && SoldOk(w)
    ensures SoldOk(Do(w, step))
  {
    var w' := Do(w, step);
    forall s <- w'.sold | Delivered(s.line) ensures s.line.deliveredAt.value <= w'.now {
      var k :| 0 <= k < |w'.sold| && w'.sold[k] == s;
      assert k < |w.sold| ==> w.sold[k] in w.sold;
    }
    forall r <- w'.refunds ensures RefundFits(w'.sold, r.refund.order, r.refund.item) {
      var k :| 0 <= k < |w'.refunds| && w'.refunds[k] == r;
      assert k < |w.refunds| ==> w.refunds[k] in w.refunds;
    }
  }

  lemma OtherPasses(w: World, step: Payouts.Step)
    requires Payouts.WellFormed(w.ledger) && !step.Claim?
    ensures Passes(w, Do(w, Other(step)))
  {
    var lines, lines' := w.ledger.books.lines, Do(w, Other(step)).ledger.books.lines;
    forall l <- lines ensures l.item in Spoken(lines') {
      var k :| 0 <= k < |lines| && lines[k] == l;
      assert lines'[k].item == l.item && lines'[k] in lines';
    }
  }

  lemma FoundStays(w: World, w': World, c: Claimer)
    requires w'.holdMs == w.holdMs
    ensures forall line :: Found(w', c, line) <==> Found(w, c, line)
    ensures forall line :: Offers(w', c, line) <==> Offers(w, c, line)
  {
  }

  lemma DoomedStays(w: World, w': World, c: Claimer)
    requires w'.holdMs == w.holdMs && Spoken(w.ledger.books.lines) <= Spoken(w'.ledger.books.lines)
    ensures Doomed(w, c) ==> Doomed(w', c)
  {
    if Doomed(w, c) {
      var line :| Offers(w, c, line) && line.id in Spoken(w.ledger.books.lines);
      assert Offers(w', c, line);
    }
  }

  lemma PassKeepsOk(w: World, w': World, c: Claimer)
    requires Passes(w, w') && ClaimerOk(w, c)
    ensures ClaimerOk(w', c)
  {
    FoundStays(w, w', c);
  }

  lemma DueStays(w: World, w': World, c: Claimer, line: Earnings.Item)
    requires Passes(w, w') && c.startedAt <= w.now && (Delivered(line) ==> SameStanding(w, w', line))
    ensures Due(w, c, line) ==> Due(w', c, line)
    ensures Due(w', c, line) && line.deliveredAt.value < c.startedAt ==> Due(w, c, line)
  {
  }

  lemma PassKeepsCalm(w: World, w': World, c: Claimer)
    requires Passes(w, w') && ClaimerOk(w, c) && Calm(w, c)
    requires forall s <- w.sold :: s.seller == c.seller && Delivered(s.line) && c.stage.Reading? ==>
               SameStanding(w, w', s.line)
    ensures Calm(w', c)
  {
    if c.stage.Reading? {
      FoundStays(w, w', c);
      forall line | Found(w', c, line)
        ensures Due(w', c, line)
        ensures c.stage.refunded.Some? ==> (line.id in c.stage.refunded.value <==> Refunded(w'.refunds, line))
      {
        assert Due(w, c, line);
        DueStays(w, w', c, line);
      }
      forall line | Due(w', c, line) && line.deliveredAt.value < c.startedAt ensures line in c.stage.lines {
        assert Sold(c.seller, line) in w.sold;
        DueStays(w, w', c, line);
      }
      DoomedStays(w, w', c);
    }
  }

  lemma PassKeepsNested(w: World, w': World, c: Claimer, d: Claimer)
    requires w'.holdMs == w.holdMs && Nested(w, c, d)
    ensures Nested(w', c, d)
  {
    FoundStays(w, w', c);
    FoundStays(w, w', d);
  }

  lemma PassKeepsInv(w: World, w': World)
    requires Inv(w) && Passes(w, w') && w'.claimers == w.claimers && SoldOk(w') && Payouts.Inv(w'.ledger)
    requires forall c <- w.claimers, s <- w.sold ::
               c.stage.Reading? && s.seller == c.seller && Delivered(s.line) ==> SameStanding(w, w', s.line)
    ensures Inv(w')
  {
    forall c <- w'.claimers ensures ClaimerOk(w', c) && Calm(w', c) {
      PassKeepsOk(w, w', c);
      PassKeepsCalm(w, w', c);
    }
    forall c <- w'.claimers, d <- w'.claimers ensures Nested(w', c, d) {
      PassKeepsNested(w, w', c, d);
    }
  }

  /* ------------------------------------------------------------------ *
   * The queries of a claim
   * ------------------------------------------------------------------ */

  /** The world after a claim's query: the claim alone has moved. */
  function Moved(w: World, i: nat, stage: Stage): World
    requires i < |w.claimers|
  {
    w.(claimers := w.claimers[i := w.claimers[i].(stage := stage)])
  }

  lemma MoveKeepsInv(w: World, i: nat, stage: Stage)
    requires Inv(w) && i < |w.claimers|
    requires var c' := w.claimers[i].(stage := stage);
             ClaimerOk(w, c') && Calm(w, c') && forall d <- w.claimers :: Nested(w, c', d)
    ensures Inv(Moved(w, i, stage))
  {
    var w', c' := Moved(w, i, stage), w.claimers[i].(stage := stage);
    forall c <- w'.claimers ensures c == c' || c in w.claimers {
    }
    forall c <- w'.claimers ensures ClaimerOk(w', c) && Calm(w', c) {
      assert c == c' || (c in w.claimers && ClaimerOk(w, c) && Calm(w, c));
      SameMarket(w, w', c);
    }
    forall c <- w'.claimers, d <- w'.claimers ensures Nested(w', c, d) {
      assert Nested(w, c', c) && Nested(w, c', d);
      assert c != c' && d != c' ==> Nested(w, c, d);
      PassKeepsNested(w, w', c, d);
    }
  }

  lemma SameMarket(w: World, w': World, c: Claimer)
    requires w' == w.(claimers := w'.claimers) && ClaimerOk(w, c) && Calm(w, c)
    ensures ClaimerOk(w', c) && Calm(w', c)
  {
    assert Passes(w, w');
    PassKeepsOk(w, w', c);
    PassKeepsCalm(w, w', c);
  }

  lemma BeginKeepsInv(w: World, seller: SellerId)
    requires Inv(w)
    ensures Inv(Do(w, Begin(seller)))
  {
    var w' := Do(w, Begin(seller));
    forall c <- w'.claimers ensures ClaimerOk(w', c) && Calm(w', c) {
      SameMarket(w, w', c);
    }
    forall c <- w'.claimers, d <- w'.claimers ensures Nested(w', c, d) {
      if c in w.claimers && d in w.claimers {
        PassKeepsNested(w, w', c, d);
      }
    }
  }

  /** A claim that has just read its lines found all that are due. */
  lemma JustRead(w: World, c: Claimer)
    requires SoldOk(w) && c.stage == Reading(SellerItems(w.sold, w.paid, c.seller), None, None, None)
    ensures Calm(w, c)
    ensures forall line :: Found(w, c, line) <==> Due(w, c, line)
  {
    forall line | Due(w, c, line) ensures line in c.stage.lines {
      var k :| 0 <= k < |w.sold| && w.sold[k] == Sold(c.seller, line);
    }
  }

  /** Its ripe lines include those of every open claim that began no later, and are
      included in those of every one that began after it. */
  lemma ReadIsNested(w: World, c: Claimer, d: Claimer)
    requires SoldOk(w) && Calm(w, d)
    requires c.stage == Reading(SellerItems(w.sold, w.paid, c.seller), None, None, None)
    ensures Nested(w, c, d)
  {
    JustRead(w, c);
    if c.seller == d.seller && d.stage.Reading? {
      if d.startedAt <= c.startedAt {
        forall line | Found(w, d, line) ensures Found(w, c, line) {
          assert Due(w, c, line);
        }
      } else {
        forall line | Found(w, c, line) ensures Found(w, d, line) {
          assert Due(w, d, line) && line.deliveredAt.value < d.startedAt;
        }
      }
    }
  }

  /** The refunds a claim reads are those that are live. */
  lemma ReadsRefunds(w: World, c: Claimer, line: Earnings.Item)
    requires SoldOk(w) && ClaimerOk(w, c) && Found(w, c, line) && Due(w, c, line)
    ensures line.id in Earnings.RefundedItemIds(c.stage.lines, LiveRefunds(w.refunds))
            <==> Refunded(w.refunds, line)
  {
    var lines, live := c.stage.lines, LiveRefunds(w.refunds);
    var orders := set i <- lines :: i.order;
    assert line.order in orders;
    if Refunded(w.refunds, line) {
      var r :| r in w.refunds && r.live && Touches(r.refund, line);
      assert r == Refund(r.refund, true) && r.refund in live;
    }
    if line.id in Earnings.RefundedItemIds(lines, live) {
      var r :| r in live && r.order in orders && (r.item == Some(line.id) || (r.item == None && r.order == line.order));
      assert Refund(r, true) in w.refunds;
      var k :| 0 <= k < |w.sold| && w.sold[k] == Sold(c.seller, line);
      assert RefundFits(w.sold, r.order, r.item);
      assert Touches(r, line);
    }
  }

  /** A claim has something to insert exactly when it would pay out some line. */
  lemma OfferedIsOffers(w: World, c: Claimer)
    requires c.stage.Reading? && c.stage.refunded.Some? && c.stage.spokenFor.Some?
    ensures forall line :: Offers(w, c, line) ==> exists o <- Offered(w, c) :: o.item == line.id
    ensures |Offered(w, c)| > 0 ==> exists line :: Offers(w, c, line)
  {
    var payable := Earnings.PayableItems(c.stage.lines, ViewOf(w, c), c.startedAt);
    forall line | Offers(w, c, line) ensures exists o <- Offered(w, c) :: o.item == line.id {
      PaysEach(c.stage.lines, ViewOf(w, c), c.startedAt, line);
      var k :| 0 <= k < |payable| && payable[k].item == line.id;
      assert Offered(w, c)[k].item == line.id && Offered(w, c)[k] in Offered(w, c);
    }
    if |Offered(w, c)| > 0 {
      assert payable[0] in payable;
      var line :| line in c.stage.lines && Earnings.IsPayable(line, ViewOf(w, c), c.startedAt);
      assert Offers(w, c, line);
    }
  }

  lemma {:induction false} PaysEach(lines: seq<Earnings.Item>, f: Earnings.Facts, now: int, line: Earnings.Item)
    requires line in lines && Earnings.IsPayable(line, f, now)
    ensures exists k :: 0 <= k < |Earnings.PayableItems(lines, f, now)|
                        && Earnings.PayableItems(lines, f, now)[k].item == line.id
  {
    var last, init := lines[|lines| - 1], lines[..|lines| - 1];
    var payable, before := Earnings.PayableItems(lines, f, now), Earnings.PayableItems(init, f, now);
    if last == line {
      assert payable[|payable| - 1].item == line.id;
    } else {
      PaysEach(init, f, now, line);
      var k :| 0 <= k < |before| && before[k].item == line.id;
      assert payable[k].item == line.id;
    }
  }

  lemma OpeningReads(w: World, i: nat)
    requires Inv(w) && i < |w.claimers| && w.claimers[i].stage == Opening
    ensures Inv(Moved(w, i, NextRead(w, w.claimers[i], false)))
  {
    var c := w.claimers[i];
    var c' := c.(stage := NextRead(w, c, false));
    assert ClaimerOk(w, c);
    if c'.stage.Reading? {
      ReadsLinesOnce(w, c);
      JustRead(w, c');
      forall d <- w.claimers ensures Nested(w, c', d) {
        ReadIsNested(w, c', d);
      }
    }
    MoveKeepsInv(w, i, c'.stage);
  }

  lemma ReadsLinesOnce(w: World, c: Claimer)
    requires SoldOk(w)
    ensures var lines := SellerItems(w.sold, w.paid, c.seller);
            forall i <- lines, j <- lines :: i.id == j.id ==> i == j
  {
    var lines := SellerItems(w.sold, w.paid, c.seller);
    forall i <- lines, j <- lines | i.id == j.id ensures i == j {
      var k :| 0 <= k < |w.sold| && w.sold[k] == Sold(c.seller, i);
      var m :| 0 <= m < |w.sold| && w.sold[m] == Sold(c.seller, j);
    }
  }

  /** The later queries leave the lines the claim found as they are. */
  lemma SameLinesNested(w: World, i: nat, stage: Stage)
    requires Inv(w) && i < |w.claimers| && w.claimers[i].stage.Reading?
    requires stage.Reading? ==> stage.lines == w.claimers[i].stage.lines
    ensures forall d <- w.claimers :: Nested(w, w.claimers[i].(stage := stage), d)
  {
    var c := w.claimers[i];
    forall d <- w.claimers ensures Nested(w, c.(stage := stage), d) {
      assert Nested(w, c, d);
      assert stage.Reading? ==> forall line :: Found(w, c.(stage := stage), line) <==> Found(w, c, line);
    }
  }

  lemma RefundsRead(w: World, i: nat)
    requires Inv(w) && i < |w.claimers| && w.claimers[i].stage.Reading? && w.claimers[i].stage.refunded == None
    ensures var c := w.claimers[i];
            var refunded := Earnings.RefundedItemIds(c.stage.lines, LiveRefunds(w.refunds));
            Inv(Moved(w, i, c.stage.(refunded := Some(refunded))))
  {
    var c := w.claimers[i];
    var refunded := Earnings.RefundedItemIds(c.stage.lines, LiveRefunds(w.refunds));
    var c' := c.(stage := c.stage.(refunded := Some(refunded)));
    assert ClaimerOk(w, c) && Calm(w, c);
    forall line | Found(w, c', line) ensures line.id in refunded <==> Refunded(w.refunds, line) {
      assert Found(w, c, line);
      ReadsRefunds(w, c, line);
    }
    SameLinesNested(w, i, c'.stage);
    MoveKeepsInv(w, i, c'.stage);
  }

  lemma SpokenRead(w: World, i: nat)
    requires Inv(w) && i < |w.claimers| && w.claimers[i].stage.Reading? && w.claimers[i].stage.spokenFor == None
    ensures var stage := w.claimers[i].stage;
            Inv(Moved(w, i, stage.(spokenFor := Some(Spoken(w.ledger.books.lines)))))
  {
    var c := w.claimers[i];
    var c' := c.(stage := c.stage.(spokenFor := Some(Spoken(w.ledger.books.lines))));
    assert ClaimerOk(w, c) && Calm(w, c);
    assert forall line :: Found(w, c', line) <==> Found(w, c, line);
    SameLinesNested(w, i, c'.stage);
    MoveKeepsInv(w, i, c'.stage);
  }

  lemma DebtsRead(w: World, i: nat)
    requires Inv(w) && i < |w.claimers|
    requires var stage := w.claimers[i].stage;
             && stage.Reading? && stage.refunded.Some? && stage.spokenFor.Some? && stage.debts == None
             && |Offered(w, w.claimers[i])| > 0
    ensures var c := w.claimers[i];
            Inv(Moved(w, i, c.stage.(debts := Some(Payouts.SeenDebts(w.ledger.books.debts, c.seller)))))
  {
    var c := w.claimers[i];
    var debts := w.ledger.books.debts;
    var seen := Payouts.SeenDebts(debts, c.seller);
    var c' := c.(stage := c.stage.(debts := Some(seen)));
    assert ClaimerOk(w, c) && Calm(w, c);
    assert forall line :: Found(w, c', line) <==> Found(w, c, line);
    OfferedIsOffers(w, c);
    var line :| Offers(w, c, line);
    assert Offers(w, c', line);
    SeenIsFresh(debts, c.seller);
    SameLinesNested(w, i, c'.stage);
    MoveKeepsInv(w, i, c'.stage);
  }

  lemma SeenIsFresh(debts: seq<Payouts.Debt>, seller: SellerId)
    ensures Payouts.Fresh(debts, Payouts.SeenDebts(debts, seller))
    ensures forall d <- Payouts.SeenDebts(debts, seller) :: debts[d.id].seller == seller
  {
    var seen := Payouts.SeenDebts(debts, seller);
    forall k | 0 <= k < |seen|
      ensures seen[k].id < |debts| && debts[seen[k].id] == Payouts.Debt(seller, seen[k].amountCents, false)
    {
      assert seen[k] in seen;
    }
  }

  /* ------------------------------------------------------------------ *
   * The commit of a claim
   * ------------------------------------------------------------------ */

  /** The claim's insert goes through. */
  ghost predicate Inserts(w: World, c: Claimer) {
    Committing(c) && Payouts.Insertable(w.ledger.books.lines, Offered(w, c))
  }

  function Claimed(w: World, c: Claimer): Payouts.Step
    requires Committing(c)
  {
    Payouts.Claim(c.seller, Offered(w, c), c.stage.debts.value)
  }

  /** An insert that goes through speaks for every line the claim would pay out, none of
      which was spoken for before. */
  lemma InsertSpeaks(w: World, c: Claimer)
    requires Payouts.WellFormed(w.ledger) && ClaimerOk(w, c) && Inserts(w, c)
    ensures var after := Payouts.Do(w.ledger, Claimed(w, c)).books;
            && Spoken(w.ledger.books.lines) <= Spoken(after.lines)
            && after.debts == Payouts.SettleDebts(
                 w.ledger.books.debts, Payouts.Settling(Offered(w, c), c.stage.debts.value))
            && forall line :: Offers(w, c, line) ==>
                 line.id !in Spoken(w.ledger.books.lines) && line.id in Spoken(after.lines)
  {
    var lines, offered := w.ledger.books.lines, Offered(w, c);
    var after := Payouts.Do(w.ledger, Claimed(w, c)).books;
    OfferedIsOffers(w, c);
    var some :| Offers(w, c, some);
    assert |offered| > 0;
    var inserted := Payouts.NewLines(offered, |w.ledger.books.payouts|);
    assert after.lines == lines + inserted;
    forall line | Offers(w, c, line)
      ensures line.id !in Spoken(lines) && line.id in Spoken(after.lines)
    {
      var k :| 0 <= k < |offered| && offered[k].item == line.id;
      assert inserted[k].item == line.id && inserted[k] in after.lines;
    }
  }

  /** Two claims of one seller that were open together: when one inserts, the other is doomed. */
  lemma OtherIsDoomed(w: World, w': World, c: Claimer, d: Claimer)
    requires ClaimerOk(w, c) && Calm(w, c) && ClaimerOk(w, d) && Calm(w, d) && Nested(w, c, d)
    requires c.seller == d.seller && Inserts(w, c) && Committing(d)
    requires w'.holdMs == w.holdMs && Spoken(w.ledger.books.lines) <= Spoken(w'.ledger.books.lines)
    requires forall line :: Offers(w, c, line) ==>
               line.id !in Spoken(w.ledger.books.lines) && line.id in Spoken(w'.ledger.books.lines)
    ensures Doomed(w', d)
  {
    if forall line :: Found(w, c, line) ==> Found(w, d, line) {
      var line :| Offers(w, c, line);
      assert Found(w, c, line) && Found(w, d, line);
      assert Offers(w', d, line);
    } else {
      var line :| Offers(w, d, line);
      assert Found(w, d, line) && Found(w, c, line);
      assert line.id in c.stage.spokenFor.value || Offers(w, c, line);
      assert Offers(w', d, line);
    }
  }

  /** Settling one seller's debts leaves what another read of its own as it was. */
  lemma OthersStayFresh(debts: seq<Payouts.Debt>, settling: seq<Payouts.SeenDebt>, seen: seq<Payouts.SeenDebt>,
      seller: SellerId, other: SellerId)
    requires seller != other && Payouts.Fresh(debts, seen)
    requires forall d <- settling :: d.id < |debts| && debts[d.id].seller == seller
    requires forall d <- seen :: d.id < |debts| && debts[d.id].seller == other
    ensures Payouts.Fresh(Payouts.SettleDebts(debts, settling), seen)
  {
    var after := Payouts.SettleDebts(debts, settling);
    forall k | 0 <= k < |seen| ensures after[seen[k].id] == debts[seen[k].id] {
      assert seen[k] in seen;
    }
  }

  /** An open claim that can still insert has debts nobody has settled yet. */
  lemma InserterIsFresh(w: World, c: Claimer)
    requires Payouts.WellFormed(w.ledger) && ClaimerOk(w, c) && Calm(w, c) && Inserts(w, c)
    ensures Payouts.Fresh(w.ledger.books.debts, c.stage.debts.value)
  {
    InsertSpeaks(w, c);
  }

  /** What another claim read of the debts is still so, or it is doomed. */
  lemma InsertDoomsOrSpares(w: World, w': World, c: Claimer, d: Claimer)
    requires Inv(w) && c in w.claimers && d in w.claimers && Inserts(w, c) && Committing(d)
    requires w' == w.(ledger := Payouts.Do(w.ledger, Claimed(w, c)), claimers := w'.claimers)
    ensures Doomed(w', d) || Payouts.Fresh(w'.ledger.books.debts, d.stage.debts.value)
  {
    assert ClaimerOk(w, c) && Calm(w, c);
    assert ClaimerOk(w, d) && Calm(w, d);
    InsertSpeaks(w, c);
    if d.seller == c.seller {
      OtherIsDoomed(w, w', c, d);
    } else if Doomed(w, d) {
      DoomedStays(w, w', d);
    } else {
      var seen := c.stage.debts.value;
      var settling := Payouts.Settling(Offered(w, c), seen);
      forall x <- settling ensures x in seen {
      }
      OthersStayFresh(w.ledger.books.debts, settling, d.stage.debts.value, c.seller, d.seller);
    }
  }

  lemma InsertKeepsOk(w: World, w': World, c: Claimer, d: Claimer)
    requires Payouts.WellFormed(w.ledger) && ClaimerOk(w, c) && Inserts(w, c) && ClaimerOk(w, d)
    requires w' == w.(ledger := Payouts.Do(w.ledger, Claimed(w, c)), claimers := w'.claimers)
    ensures ClaimerOk(w', d)
  {
    InsertSpeaks(w, c);
    FoundStays(w, w', d);
  }

  /** The other claims after one has inserted: their lines and refunds are as before, and
      those of the same seller are doomed. */
  lemma CommitSparesOthers(w: World, w': World, c: Claimer, d: Claimer)
    requires Inv(w) && c in w.claimers && d in w.claimers && Inserts(w, c)
    requires w' == w.(ledger := Payouts.Do(w.ledger, Claimed(w, c)), claimers := w'.claimers)
    ensures ClaimerOk(w', d) && Calm(w', d)
  {
    assert ClaimerOk(w, c) && ClaimerOk(w, d) && Calm(w, d);
    InsertKeepsOk(w, w', c, d);
    FoundStays(w, w', d);
    if Committing(d) { InsertDoomsOrSpares(w, w', c, d); }
  }

  lemma InsertKeepsInv(w: World, i: nat)
    requires Inv(w) && i < |w.claimers| && Inserts(w, w.claimers[i])
    ensures Inv(Moved(w, i, Over).(ledger := Payouts.Do(w.ledger, Claimed(w, w.claimers[i]))))
  {
    var c := w.claimers[i];
    var over := c.(stage := Over);
    var w' := Moved(w, i, Over).(ledger := Payouts.Do(w.ledger, Claimed(w, c)));
    assert ClaimerOk(w, c) && Calm(w, c);
    InserterIsFresh(w, c);
    Payouts.FreshClaimNetsOnce(w.ledger, c.seller, Offered(w, c), c.stage.debts.value);
    Payouts.StepKeepsInv(w.ledger, Claimed(w, c));
    forall d <- w'.claimers ensures ClaimerOk(w', d) && Calm(w', d) {
      if d != over { CommitSparesOthers(w, w', c, d); }
    }
    forall d <- w'.claimers, e <- w'.claimers ensures Nested(w', d, e) {
      if d != over && e != over { PassKeepsNested(w, w', d, e); }
    }
  }

  lemma CommitKeepsInv(w: World, i: nat, refundsFirst: bool)
    requires Inv(w) && i < |w.claimers| && Committing(w.claimers[i])
    ensures Inv(Advanced(w, i, refundsFirst))
  {
    var c := w.claimers[i];
    if Inserts(w, c) {
      InsertKeepsInv(w, i);
      assert Payouts.Do(w.ledger, Claimed(w, c))
          == Payouts.DoClaim(w.ledger, c.seller, Offered(w, c), c.stage.debts.value);
    } else {
      assert ClaimerOk(w, c);
      MoveKeepsInv(w, i, Over);
    }
  }

  /* ------------------------------------------------------------------ *
   * Every run
   * ------------------------------------------------------------------ */

  lemma AdvanceKeepsInv(w: World, i: nat, refundsFirst: bool)
    requires Inv(w) && i < |w.claimers|
    ensures Inv(Advanced(w, i, refundsFirst))
  {
    var c := w.claimers[i];
    var stage := c.stage;
    if Committing(c) {
      CommitKeepsInv(w, i, refundsFirst);
    } else if stage == Opening {
      OpeningReads(w, i);
    } else if stage.Reading? && stage.refunded == None && (refundsFirst || stage.spokenFor.Some?) {
      RefundsRead(w, i);
    } else if stage.Reading? && stage.spokenFor == None {
      SpokenRead(w, i);
    } else if stage.Reading? && |Offered(w, c)| > 0 {
      DebtsRead(w, i);
    } else {
      assert ClaimerOk(w, c);
      MoveKeepsInv(w, i, Over);
    }
  }

  lemma StepKeepsInv(w: World, step: Step)
    requires Inv(w) && !Disturbs(w, step)
    ensures Inv(Do(w, step))
  {
    if step.Advance? {
      if step.claimer < |w.claimers| { AdvanceKeepsInv(w, step.claimer, step.refundsFirst); }
    } else if step.Begin? {
      BeginKeepsInv(w, step.seller);
    } else if step.Other? {
      if !step.step.Claim? {
        OtherPasses(w, step.step);
        Payouts.StepKeepsInv(w.ledger, step.step);
        PassKeepsInv(w, Do(w, step));
      }
    } else {
      MarketPasses(w, step);
      MarketKeepsSold(w, step);
      PassKeepsInv(w, Do(w, step));
    }
  }

  lemma BooksStayBalanced(w: World, step: Step)
    requires Payouts.Inv(w.ledger)
    ensures Payouts.Inv(Do(w, step).ledger)
  {
    if step.Other? {
      Payouts.StepKeepsInv(w.ledger, step.step);
    } else if step.Advance? && step.claimer < |w.claimers| && Committing(w.claimers[step.claimer]) {
      var c := w.claimers[step.claimer];
      Payouts.StepKeepsInv(w.ledger, Claimed(w, c));
      assert Do(w, step).ledger == Payouts.Do(w.ledger, Claimed(w, c));
    }
  }

  /** Disturbed or not, the books balance and the lines are in order. */
  lemma {:induction false} RunIsSound(holdMs: nat, steps: seq<Step>)
    ensures Payouts.Inv(Run(holdMs, steps).ledger) && SoldOk(Run(holdMs, steps))
  {
    if |steps| == 0 {
      EmptyKeepsInv(holdMs);
    } else {
      var before, last := steps[..|steps| - 1], steps[|steps| - 1];
      RunIsSound(holdMs, before);
      MarketKeepsSold(Run(holdMs, before), last);
      BooksStayBalanced(Run(holdMs, before), last);
    }
  }

  lemma EmptyIsOk(w: World)
    requires w.sold == [] && w.refunds == [] && w.claimers == []
    requires Payouts.Inv(w.ledger) && w.ledger.overNetted == 0
    ensures Inv(w)
  {
  }

  lemma EmptyKeepsInv(holdMs: nat)
    ensures Inv(EmptyWorld(holdMs))
  {
    var w := EmptyWorld(holdMs);
    Payouts.EmptyIsBalanced(w.ledger);
    EmptyIsOk(w);
  }

  lemma {:induction false} UndisturbedKeepsInv(holdMs: nat, steps: seq<Step>)
    requires Undisturbed(holdMs, steps)
    ensures Inv(Run(holdMs, steps))
  {
    if |steps| == 0 {
      EmptyKeepsInv(holdMs);
    } else {
      var before, last := steps[..|steps| - 1], steps[|steps| - 1];
      UndisturbedKeepsInv(holdMs, before);
      StepKeepsInv(Run(holdMs, before), last);
    }
  }

  /** With any number of claims, senders and clawbacks in flight: as long as no delivered
      line of a seller is refunded, has its refund failed, or sees its order enter or leave
      PAID while a claim of that seller is open, no debt is netted twice. */
  lemma RacingClaimsNetOnce(holdMs: nat, steps: seq<Step>)
    requires Undisturbed(holdMs, steps)
    ensures var b := Run(holdMs, steps).ledger.books;
            Sum(b.payouts, Payouts.NettedCol()) == Sum(b.debts, Payouts.SettledCol())
  {
    UndisturbedKeepsInv(holdMs, steps);
  }

  /* ------------------------------------------------------------------ *
   * A claim that nothing comes between
   * ------------------------------------------------------------------ */

  ghost function AdvancedBy(w: World, i: nat, n: nat): (w': World)
    requires i < |w.claimers| && Payouts.WellFormed(w.ledger)
    ensures |w'.claimers| == |w.claimers| && Payouts.WellFormed(w'.ledger)
  {
    if n == 0 then w
    else
      var before := AdvancedBy(w, i, n - 1);
      StepKeepsWellFormed(before, Advance(i, true));
      Do(before, Advance(i, true))
  }

  /** What an uninterrupted claim reads. */
  function LinesRead(w: World, c: Claimer): seq<Earnings.Item> { SellerItems(w.sold, w.paid, c.seller) }

  function FactsRead(w: World, c: Claimer): Earnings.Facts {
    Earnings.Facts(Earnings.RefundedItemIds(LinesRead(w, c), LiveRefunds(w.refunds)),
                   Spoken(w.ledger.books.lines), w.holdMs)
  }

  function PayableRead(w: World, c: Claimer): seq<Payouts.Offer> {
    Payouts.Offers(Earnings.PayableItems(LinesRead(w, c), FactsRead(w, c), c.startedAt))
  }

  lemma NextQuery(w: World, i: nat, n: nat, stage: Stage)
    requires Payouts.WellFormed(w.ledger) && i < |w.claimers| && n > 0
    requires AdvancedBy(w, i, n - 1) == Moved(w, i, stage) && !Committing(w.claimers[i].(stage := stage))
    ensures AdvancedBy(w, i, n) == Moved(w, i, NextRead(w, w.claimers[i].(stage := stage), true))
  {
    assert Moved(Moved(w, i, stage), i, NextRead(w, w.claimers[i].(stage := stage), true))
        == Moved(w, i, NextRead(w, w.claimers[i].(stage := stage), true));
  }

  /** Four queries in a row leave a claim that is about to commit, if anything is payable. */
  lemma ClaimerAloneReads(w: World, i: nat)
    requires Payouts.WellFormed(w.ledger) && i < |w.claimers| && w.claimers[i].stage == Opening
    requires |PayableRead(w, w.claimers[i])| > 0
    ensures var c := w.claimers[i];
            AdvancedBy(w, i, 4) == Moved(w, i, Reading(
              LinesRead(w, c), Some(FactsRead(w, c).refunded), Some(FactsRead(w, c).spokenFor),
              Some(Payouts.SeenDebts(w.ledger.books.debts, c.seller))))
  {
    var c := w.claimers[i];
    var lines, f := LinesRead(w, c), FactsRead(w, c);
    assert |lines| > 0;
    assert Moved(w, i, Opening) == w;
    NextQuery(w, i, 1, Opening);
    NextQuery(w, i, 2, Reading(lines, None, None, None));
    NextQuery(w, i, 3, Reading(lines, Some(f.refunded), None, None));
    NextQuery(w, i, 4, Reading(lines, Some(f.refunded), Some(f.spokenFor), None));
  }

  lemma {:induction false} LinesReadOnce(sold: seq<Sold>, paid: set<OrderId>, seller: SellerId, i: nat, j: nat)
    requires forall k :: 0 <= k < |sold| ==> sold[k].line.id == k
    requires i < j < |SellerItems(sold, paid, seller)|
    ensures SellerItems(sold, paid, seller)[i].id != SellerItems(sold, paid, seller)[j].id
  {
    var init, last := sold[..|sold| - 1], sold[|sold| - 1];
    var before := SellerItems(init, paid, seller);
    if j < |before| {
      LinesReadOnce(init, paid, seller, i, j);
    } else {
      assert Sold(seller, before[i]) in init;
    }
  }

  /** The commit that follows. */
  lemma ClaimerAloneCommits(w: World, i: nat, stage: Stage)
    requires Payouts.Inv(w.ledger) && SoldOk(w) && i < |w.claimers|
    requires |PayableRead(w, w.claimers[i])| > 0
    requires var c := w.claimers[i];
             stage == Reading(LinesRead(w, c), Some(FactsRead(w, c).refunded), Some(FactsRead(w, c).spokenFor),
                              Some(Payouts.SeenDebts(w.ledger.books.debts, c.seller)))
    ensures var c := w.claimers[i];
            Payouts.DoClaim(w.ledger, c.seller, Offered(w, c.(stage := stage)), stage.debts.value)
            == w.ledger.(books := Payouts.CommitClaim(
                 w.ledger.books, c.seller, PayableRead(w, c), Payouts.SeenDebts(w.ledger.books.debts, c.seller)))
  {
    var c := w.claimers[i];
    var lines := LinesRead(w, c);
    forall j, k | 0 <= j < k < |lines| ensures lines[j].id != lines[k].id {
      LinesReadOnce(w.sold, w.paid, c.seller, j, k);
    }
    Payouts.PayableIsInsertable(LinesRead(w, c), FactsRead(w, c), c.startedAt, w.ledger.books.lines);
    SeenIsFresh(w.ledger.books.debts, c.seller);
    Payouts.FreshClaimNetsOnce(w.ledger, c.seller, PayableRead(w, c), stage.debts.value);
  }

  lemma OfferedStays(w: World, w': World, c: Claimer)
    requires w'.holdMs == w.holdMs && Committing(c)
    ensures Offered(w', c) == Offered(w, c)
  {
  }

  lemma CommitMoves(w: World, i: nat, stage: Stage)
    requires Payouts.WellFormed(w.ledger) && i < |w.claimers| && Committing(w.claimers[i].(stage := stage))
    ensures var c := w.claimers[i].(stage := stage);
            Advanced(Moved(w, i, stage), i, true) == Moved(w, i, Over).(
              ledger := Payouts.DoClaim(w.ledger, c.seller, Offered(w, c), stage.debts.value))
  {
    var c, over := w.claimers[i].(stage := stage), w.claimers[i].(stage := Over);
    var claimers := w.claimers[i := c];
    OfferedStays(w, Moved(w, i, stage), c);
    assert claimers[i := over] == w.claimers[i := over];
  }

  lemma FifthStep(w: World, i: nat)
    requires Payouts.WellFormed(w.ledger) && i < |w.claimers|
    ensures AdvancedBy(w, i, 5) == Advanced(AdvancedBy(w, i, 4), i, true)
  {
  }

  /** The claim run without interruption is the uninterrupted claim of `Payouts`: it never
      races, and pays out every payable line less the debts it nets. */
  lemma ClaimerAloneClaims(w: World, i: nat)
    requires Payouts.Inv(w.ledger) && SoldOk(w) && i < |w.claimers| && w.claimers[i].stage == Opening
    requires |PayableRead(w, w.claimers[i])| > 0
    ensures var c := w.claimers[i];
            AdvancedBy(w, i, 5) == Moved(w, i, Over).(ledger := w.ledger.(books := Payouts.CommitClaim(
              w.ledger.books, c.seller, PayableRead(w, c), Payouts.SeenDebts(w.ledger.books.debts, c.seller))))
  {
    var c, f := w.claimers[i], FactsRead(w, w.claimers[i]);
    var stage := Reading(LinesRead(w, c), Some(f.refunded), Some(f.spokenFor),
                         Some(Payouts.SeenDebts(w.ledger.books.debts, c.seller)));
    ClaimerAloneReads(w, i);
    ClaimerAloneCommits(w, i, stage);
    CommitMoves(w, i, stage);
    FifthStep(w, i);
  }
}
