/** How a debt comes to be netted twice (backend/src/lib/payouts.ts, `claimPayout`).

Two runs of the claims of `ClaimRaces`, each of one seller who owes a debt. In the first a
line is refunded after one claim has read it and before another does. In the second no line
stops being payable: a refund fails between two queries of one claim.
*/
module DoubleNetting {
  import opened Tables
  import Earnings
  import Payouts
  import opened ClaimRaces

  lemma RunOneMore(steps: seq<Step>, step: Step)
    ensures Run(0, steps + [step]) == Do(Run(0, steps), step)
  {
    assert (steps + [step])[..|steps|] == steps;
  }

  /** Several statements of one claim in a row. */
  lemma {:induction false} Statements(steps: seq<Step>, i: nat, n: nat) returns (later: seq<Step>)
    requires i < |Run(0, steps).claimers|
    ensures steps <= later && Run(0, later) == AdvancedBy(Run(0, steps), i, n)
  {
    if n == 0 {
      later := steps;
    } else {
      var before := Statements(steps, i, n - 1);
      RunOneMore(before, Advance(i, true));
      later := before + [Advance(i, true)];
    }
  }

  lemma ClaimsAlone(steps: seq<Step>, i: nat) returns (later: seq<Step>)
    requires i < |Run(0, steps).claimers| && Run(0, steps).claimers[i].stage == Opening
    requires |PayableRead(Run(0, steps), Run(0, steps).claimers[i])| > 0
    ensures var w := Run(0, steps);
            var b, c := w.ledger.books, w.claimers[i];
            Run(0, later) == Moved(w, i, Over).(ledger := w.ledger.(
              books := Payouts.CommitClaim(b, c.seller, PayableRead(w, c), Payouts.SeenDebts(b.debts, c.seller))))
  {
    RunIsSound(0, steps);
    ClaimerAloneClaims(Run(0, steps), i);
    later := Statements(steps, i, 5);
  }

  /* ------------------------------------------------------------------ *
   * The seller's shop
   * ------------------------------------------------------------------ */

  /** Line x is alone on order x, sold for 100 cents and delivered at once. */
  function Parcel(x: nat): Earnings.Item { Earnings.Item(x, x, 100, 1, Earnings.Delivered, Some(0)) }

  function Shop(n: nat): seq<Sold> { seq(n, x requires 0 <= x < n => Sold(0, Parcel(x))) }

  function Parcels(n: nat): seq<Earnings.Item> { seq(n, x requires 0 <= x < n => Parcel(x)) }

  function Orders(n: nat): set<OrderId> { if n == 0 then {} else Orders(n - 1) + {n - 1} }

  lemma SellsOneMore(steps: seq<Step>, x: nat) returns (later: seq<Step>)
    requires var w := Run(0, steps); w.sold == Shop(x) && w.paid == Orders(x) && w.now == 0
    ensures steps <= later
    ensures Run(0, later) == Run(0, steps).(sold := Shop(x + 1), paid := Orders(x + 1))
  {
    var w := Run(0, steps);
    var listed := Sold(0, Earnings.Item(x, x, 100, 1, Earnings.Unfulfilled, None));
    RunOneMore(steps, Sell(0, x, 100, 1));
    later := steps + [Sell(0, x, 100, 1)];
    assert Run(0, later) == w.(sold := Shop(x) + [listed]);
    RunOneMore(later, Fulfil(x, Earnings.Delivered));
    later := later + [Fulfil(x, Earnings.Delivered)];
    assert (Shop(x) + [listed])[x := Sold(0, Parcel(x))] == Shop(x + 1);
    assert Run(0, later) == w.(sold := Shop(x + 1));
    RunOneMore(later, PayOrder(x));
    later := later + [PayOrder(x)];
  }

  lemma {:induction false} ShopLines(n: nat, paid: set<OrderId>)
    requires Orders(n) <= paid
    ensures SellerItems(Shop(n), paid, 0) == Parcels(n)
  {
    if n > 0 {
      assert Shop(n)[..n - 1] == Shop(n - 1);
      assert n - 1 in Orders(n);
      ShopLines(n - 1, paid);
      assert Parcels(n) == Parcels(n - 1) + [Parcel(n - 1)];
    }
  }

  /** Of the first n parcels, all but one refunded or spoken for: that one is payable. */
  lemma {:induction false} OneParcelPayable(n: nat, x: nat, f: Earnings.Facts)
    requires f.holdMs == 0
    requires forall y: nat :: y < n && y != x ==> y in f.refunded || y in f.spokenFor
    requires x !in f.refunded && x !in f.spokenFor
    ensures Earnings.PayableItems(Parcels(n), f, 0) == if x < n then [Earnings.PayableItem(x, x, 100, 0)] else []
  {
    if n > 0 {
      assert Parcels(n)[..n - 1] == Parcels(n - 1);
      OneParcelPayable(n - 1, x, f);
    }
  }

  /* ------------------------------------------------------------------ *
   * The debt
   * ------------------------------------------------------------------ */

  /** What a claim offers that finds one parcel payable. */
  function Only(x: nat): seq<Payouts.Offer> { [Payouts.Offer(x, 100)] }

  const Bought := World(Payouts.EmptyState, Shop(1), Orders(1), [], [], 0, 0)

  /** The books with the first parcel in a payout. */
  function FirstPayout(status: Payouts.Status, transfer: Payouts.Transfer): seq<Payouts.Payout> {
    [Payouts.Payout(0, 100, 0, status, status == Payouts.Paid, transfer)]
  }

  function FirstBooks(payouts: seq<Payouts.Payout>, reversed: bool, debts: seq<Payouts.Debt>): Payouts.Books {
    Payouts.Books(payouts, [Payouts.Line(0, 0, 100, reversed)], debts)
  }

  lemma FirstOffer(c: Claimer)
    requires c == Claimer(0, 0, Opening)
    ensures PayableRead(Bought, c) == Only(0)
  {
    ShopLines(1, Orders(1));
    assert LinesRead(Bought, c) == Parcels(1);
    assert LiveRefunds([]) == [];
    assert FactsRead(Bought, c) == Earnings.Facts({}, {}, 0);
    OneParcelPayable(1, 0, Earnings.Facts({}, {}, 0));
  }

  lemma FirstInsert()
    ensures Payouts.SeenDebts([], 0) == []
    ensures Payouts.CommitClaim(Payouts.Books([], [], []), 0, Only(0), [])
            == FirstBooks(FirstPayout(Payouts.Pending, Payouts.Unseen), false, [])
  {
    SumOne(Payouts.Offer(0, 100), Payouts.OfferAmount());
    assert Payouts.Gross(Only(0)) == 100;
  }

  lemma FirstSale() returns (steps: seq<Step>)
    ensures Run(0, steps) == Bought.(claimers := [Claimer(0, 0, Opening)])
  {
    assert Run(0, []).sold == Shop(0);
    steps := SellsOneMore([], 0);
    assert Run(0, steps) == Bought;
    RunOneMore(steps, Begin(0));
    steps := steps + [Begin(0)];
  }

  /** The first parcel is sold and claimed. */
  lemma FirstClaim() returns (steps: seq<Step>)
    ensures Run(0, steps) == Bought.(
              claimers := [Claimer(0, 0, Over)],
              ledger := Payouts.State(FirstBooks(FirstPayout(Payouts.Pending, Payouts.Unseen), false, []), [], [], 0))
  {
    steps := FirstSale();
    var w := Run(0, steps);
    FirstOffer(w.claimers[0]);
    FirstInsert();
    assert PayableRead(w, w.claimers[0]) == PayableRead(Bought, w.claimers[0]);
    steps := ClaimsAlone(steps, 0);
    assert Moved(w, 0, Over).claimers == [Claimer(0, 0, Over)];
  }

  lemma BooksStep(steps: seq<Step>, step: Payouts.Step, ledger: Payouts.State)
    requires !step.Claim? && Payouts.Do(Run(0, steps).ledger, step) == ledger
    ensures Run(0, steps + [Other(step)]) == Run(0, steps).(ledger := ledger)
  {
    RunOneMore(steps, Other(step));
  }

  /** The payout is sent. */
  lemma FirstSend() returns (steps: seq<Step>)
    ensures Run(0, steps) == Bought.(
              claimers := [Claimer(0, 0, Over)],
              ledger := Payouts.State(FirstBooks(FirstPayout(Payouts.Paid, Payouts.Sent(100, 0)), false, []),
                                      [Payouts.Sender(0, Payouts.SentBy(true))], [], 0))
  {
    steps := FirstClaim();
    var s := Run(0, steps).ledger;
    s := s.(senders := [Payouts.Sender(0, Payouts.Loading(true))]);
    BooksStep(steps, Payouts.StartSend(0, true), s);
    steps := steps + [Other(Payouts.StartSend(0, true))];
    s := s.(senders := [Payouts.Sender(0, Payouts.Transferring(100))]);
    BooksStep(steps, Payouts.AdvanceSend(0, Payouts.Accept), s);
    steps := steps + [Other(Payouts.AdvanceSend(0, Payouts.Accept))];
    s := s.(books := FirstBooks(FirstPayout(Payouts.Pending, Payouts.Sent(100, 0)), false, []),
            senders := [Payouts.Sender(0, Payouts.Confirming)]);
    BooksStep(steps, Payouts.AdvanceSend(0, Payouts.Accept), s);
    steps := steps + [Other(Payouts.AdvanceSend(0, Payouts.Accept))];
    s := s.(books := FirstBooks(FirstPayout(Payouts.Paid, Payouts.Sent(100, 0)), false, []),
            senders := [Payouts.Sender(0, Payouts.SentBy(true))]);
    BooksStep(steps, Payouts.AdvanceSend(0, Payouts.Accept), s);
    steps := steps + [Other(Payouts.AdvanceSend(0, Payouts.Accept))];
  }

  const FirstRefund := Refund(Earnings.LiveRefund(0, Some(0)), true)

  const Owing := Payouts.State(
    FirstBooks(FirstPayout(Payouts.Paid, Payouts.Sent(100, 0)), true, [Payouts.Debt(0, 100, false)]),
    [Payouts.Sender(0, Payouts.SentBy(true))],
    [Payouts.Reversal(0, 100, Payouts.Recovered(100, 0))], 0)

  /** The world of the first debt, at one stage of its clawback. */
  function ClawingBack(reversed: bool, debts: seq<Payouts.Debt>, stage: Payouts.ReverseStage): World {
    var payouts := FirstPayout(Payouts.Paid, Payouts.Sent(100, 0));
    Bought.(claimers := [Claimer(0, 0, Over)], refunds := [FirstRefund],
            ledger := Payouts.State(FirstBooks(payouts, reversed, debts), [Payouts.Sender(0, Payouts.SentBy(true))],
                                    [Payouts.Reversal(0, 100, stage)], 0))
  }

  const NoneBack := Payouts.AdvanceReversal(0, Payouts.Refuse)

  /** Its parcel is refunded, and the clawback claims the line. */
  lemma FirstClawback() returns (steps: seq<Step>)
    ensures Run(0, steps) == ClawingBack(true, [], Payouts.Reversing(0, 100))
  {
    steps := FirstSend();
    RunOneMore(steps, OpenRefund(0, Some(0)));
    steps := steps + [OpenRefund(0, Some(0))];
    BooksStep(steps, Payouts.StartReversal(0, 100), ClawingBack(false, [], Payouts.Finding).ledger);
    steps := steps + [Other(Payouts.StartReversal(0, 100))];
    BooksStep(steps, NoneBack, ClawingBack(false, [], Payouts.Claiming(0, 100, true)).ledger);
    steps := steps + [Other(NoneBack)];
    BooksStep(steps, NoneBack, ClawingBack(true, [], Payouts.Reversing(0, 100)).ledger);
    steps := steps + [Other(NoneBack)];
  }

  /** Nothing comes back, and the seller owes it. */
  lemma FirstDebt() returns (steps: seq<Step>)
    ensures Run(0, steps) == Bought.(claimers := [Claimer(0, 0, Over)], refunds := [FirstRefund], ledger := Owing)
  {
    steps := FirstClawback();
    BooksStep(steps, NoneBack, ClawingBack(true, [], Payouts.Recording(0, 100, 0, 0)).ledger);
    steps := steps + [Other(NoneBack)];
    BooksStep(steps, NoneBack, Owing);
    steps := steps + [Other(NoneBack)];
  }

  /* ------------------------------------------------------------------ *
   * The race
   * ------------------------------------------------------------------ */

  const SeenOwing := [Payouts.SeenDebt(0, 100)]

  /** The shop with n parcels, and the debt owed. */
  predicate Stocked(w: World, n: nat) {
    w.sold == Shop(n) && w.paid == Orders(n) && w.now == 0 && w.holdMs == 0 && w.ledger == Owing
  }

  /** About to put parcel x alone into a payout, against the debt. */
  predicate AboutToPay(w: World, i: nat, x: nat) {
    && i < |w.claimers| && Committing(w.claimers[i]) && w.claimers[i].seller == 0
    && Offered(w, w.claimers[i]) == Only(x) && w.claimers[i].stage.debts.value == SeenOwing
  }

  lemma ParcelsRefunded(w: World, m: nat, n: nat, y: nat)
    requires SoldOk(w) && Stocked(w, m) && y < n <= m
    ensures y in Earnings.RefundedItemIds(Parcels(n), LiveRefunds(w.refunds)) <==> Refunded(w.refunds, Parcel(y))
  {
    var c := Claimer(0, 0, Reading(Parcels(n), None, None, None));
    assert y in Orders(m) by { InOrders(m, y); }
    assert Shop(m)[y] == Sold(0, Parcel(y));
    assert Parcels(n)[y] == Parcel(y);
    ReadsRefunds(w, c, Parcel(y));
  }

  lemma {:induction false} InOrders(n: nat, y: nat)
    requires y < n
    ensures y in Orders(n)
  {
    if y < n - 1 {
      InOrders(n - 1, y);
    }
  }

  lemma OweOnce()
    ensures Payouts.SeenDebts(Owing.books.debts, 0) == SeenOwing
    ensures Spoken(Owing.books.lines) == {0}
  {
    var debts := [Payouts.Debt(0, 100, false)];
    assert debts[..0] == [];
    assert Payouts.SeenDebts(debts[..0], 0) == [];
  }

  /** Read with all earlier parcels paid or refunded, the last one is what the claim offers. */
  lemma LastIsOffered(w: World, m: nat, n: nat)
    requires SoldOk(w) && Stocked(w, m) && 1 < n <= m
    requires forall y :: 0 < y < n - 1 ==> Refunded(w.refunds, Parcel(y))
    requires !Refunded(w.refunds, Parcel(n - 1))
    ensures var refunded := Earnings.RefundedItemIds(Parcels(n), LiveRefunds(w.refunds));
            Payouts.Offers(Earnings.PayableItems(Parcels(n), Earnings.Facts(refunded, {0}, 0), 0)) == Only(n - 1)
  {
    var refunded := Earnings.RefundedItemIds(Parcels(n), LiveRefunds(w.refunds));
    forall y: nat | y < n ensures y in refunded <==> Refunded(w.refunds, Parcel(y)) {
      ParcelsRefunded(w, m, n, y);
    }
    OneParcelPayable(n, n - 1, Earnings.Facts(refunded, {0}, 0));
  }

  /** In this world a claim would find the last parcel, and nothing else, to pay. */
  predicate LastIsPayable(w: World, n: nat) {
    && Stocked(w, n) && n > 1
    && (forall y :: 0 < y < n - 1 ==> Refunded(w.refunds, Parcel(y)))
    && !Refunded(w.refunds, Parcel(n - 1))
  }

  lemma WouldRead(w: World, n: nat)
    requires SoldOk(w) && LastIsPayable(w, n)
    ensures var c := Claimer(0, 0, Opening);
            && LinesRead(w, c) == Parcels(n) && FactsRead(w, c).spokenFor == {0}
            && PayableRead(w, c) == Only(n - 1)
            && Payouts.SeenDebts(w.ledger.books.debts, 0) == SeenOwing
  {
    ShopLines(n, Orders(n));
    OweOnce();
    LastIsOffered(w, n, n);
  }

  lemma ReadIsAboutToPay(w: World, n: nat, i: nat) returns (stage: Stage)
    requires SoldOk(w) && LastIsPayable(w, n) && Payouts.WellFormed(w.ledger)
    requires i < |w.claimers| && w.claimers[i] == Claimer(0, 0, Opening)
    ensures AdvancedBy(w, i, 4) == Moved(w, i, stage) && AboutToPay(Moved(w, i, stage), i, n - 1)
  {
    WouldRead(w, n);
    ClaimerAloneReads(w, i);
    var f := FactsRead(w, w.claimers[i]);
    stage := Reading(Parcels(n), Some(f.refunded), Some(f.spokenFor), Some(SeenOwing));
  }

  lemma Begins(steps: seq<Step>, n: nat) returns (later: seq<Step>)
    requires LastIsPayable(Run(0, steps), n)
    ensures later == steps + [Begin(0)] && LastIsPayable(Run(0, later), n)
    ensures var w := Run(0, steps); Run(0, later) == w.(claimers := w.claimers + [Claimer(0, 0, Opening)])
  {
    RunOneMore(steps, Begin(0));
    later := steps + [Begin(0)];
  }

  lemma SoldInOrder(steps: seq<Step>)
    ensures SoldOk(Run(0, steps))
  {
    RunIsSound(0, steps);
  }

  lemma Queries(steps: seq<Step>, n: nat, i: nat) returns (later: seq<Step>, stage: Stage)
    requires LastIsPayable(Run(0, steps), n)
    requires i < |Run(0, steps).claimers| && Run(0, steps).claimers[i] == Claimer(0, 0, Opening)
    ensures steps <= later && Run(0, later) == Moved(Run(0, steps), i, stage) && AboutToPay(Run(0, later), i, n - 1)
  {
    SoldInOrder(steps);
    stage := ReadIsAboutToPay(Run(0, steps), n, i);
    later := Statements(steps, i, 4);
  }

  lemma LastMoved(w: World, w': World, c: Claimer, stage: Stage)
    requires w' == Moved(w.(claimers := w.claimers + [c]), |w.claimers|, stage)
    ensures |w'.claimers| == |w.claimers| + 1 && w' == w.(claimers := w'.claimers)
    ensures w'.claimers[..|w.claimers|] == w.claimers
  {
  }

  lemma ClaimReads(steps: seq<Step>, n: nat, i: nat) returns (later: seq<Step>)
    requires LastIsPayable(Run(0, steps), n) && |Run(0, steps).claimers| == i
    ensures steps <= later && |Run(0, later).claimers| == i + 1
    ensures Run(0, later) == Run(0, steps).(claimers := Run(0, later).claimers)
    ensures Run(0, later).claimers[..i] == Run(0, steps).claimers
    ensures AboutToPay(Run(0, later), i, n - 1)
  {
    var began := Begins(steps, n);
    var stage;
    later, stage := Queries(began, n, i);
    LastMoved(Run(0, steps), Run(0, later), Claimer(0, 0, Opening), stage);
  }

  lemma StillAboutToPay(w: World, w': World, i: nat, x: nat)
    requires AboutToPay(w, i, x) && i < |w'.claimers| && w'.claimers[i] == w.claimers[i] && w'.holdMs == w.holdMs
    ensures AboutToPay(w', i, x)
  {
  }

  lemma CommitPays(w: World, i: nat, x: nat)
    requires Payouts.WellFormed(w.ledger) && AboutToPay(w, i, x)
    ensures var w' := Advanced(w, i, true);
            && w'.ledger == Payouts.DoClaim(w.ledger, 0, Only(x), SeenOwing)
            && w' == w.(ledger := w'.ledger, claimers := w'.claimers) && |w'.claimers| == |w.claimers|
            && forall j :: 0 <= j < |w.claimers| && j != i ==> w'.claimers[j] == w.claimers[j]
  {
  }

  lemma Commits(steps: seq<Step>, i: nat, x: nat) returns (later: seq<Step>)
    requires AboutToPay(Run(0, steps), i, x)
    ensures steps <= later
    ensures var w, w' := Run(0, steps), Run(0, later);
            && w'.ledger == Payouts.DoClaim(w.ledger, 0, Only(x), SeenOwing)
            && w'.holdMs == w.holdMs && |w'.claimers| == |w.claimers|
            && forall j :: 0 <= j < |w.claimers| && j != i ==> w'.claimers[j] == w.claimers[j]
  {
    CommitPays(Run(0, steps), i, x);
    RunOneMore(steps, Advance(i, true));
    later := steps + [Advance(i, true)];
  }

  lemma CommitsTwice(steps: seq<Step>) returns (later: seq<Step>)
    requires var w := Run(0, steps); w.ledger == Owing && AboutToPay(w, 1, 1) && AboutToPay(w, 2, 2)
    ensures steps <= later && Run(0, later).ledger.overNetted == 100
  {
    var once := Commits(steps, 1, 1);
    StillAboutToPay(Run(0, steps), Run(0, once), 2, 2);
    later := Commits(once, 2, 2);
    NetsTwice();
  }

  lemma NetsTwice()
    ensures Payouts.DoClaim(Payouts.DoClaim(Owing, 0, Only(1), SeenOwing), 0, Only(2), SeenOwing).overNetted == 100
  {
    Settles(1);
    Settles(2);
    var once := Payouts.DoClaim(Owing, 0, Only(1), SeenOwing);
    assert SeenOwing[0].id == 0;
    SumOne(SeenOwing[0], Payouts.StaleAmount(Owing.books.debts));
    SumOne(SeenOwing[0], Payouts.StaleAmount(once.books.debts));
  }

  lemma Settles(x: nat)
    ensures Payouts.Settling(Only(x), SeenOwing) == SeenOwing
  {
    SumOne(Payouts.Offer(x, 100), Payouts.OfferAmount());
    assert Payouts.Gross(Only(x)) == 100;
  }

  lemma NettedTwice(steps: seq<Step>)
    requires Run(0, steps).ledger.overNetted == 100
    ensures var b := Run(0, steps).ledger.books;
            Sum(b.payouts, Payouts.NettedCol()) == Sum(b.debts, Payouts.SettledCol()) + 100
  {
    RunIsSound(0, steps);
  }

  /** Two parcels in the shop, the first of them owed for. */
  lemma SecondSale() returns (steps: seq<Step>)
    ensures var w := Run(0, steps);
            Stocked(w, 2) && w.refunds == [FirstRefund] && w.claimers == [Claimer(0, 0, Over)]
  {
    steps := FirstDebt();
    steps := SellsOneMore(steps, 1);
  }

  const BothRefunds := [FirstRefund, Refund(Earnings.LiveRefund(1, Some(1)), true)]

  lemma SecondUnrefunded(refunds: seq<Refund>)
    requires refunds == [FirstRefund]
    ensures !Refunded(refunds, Parcel(1))
  {
  }

  lemma BothRefunded()
    ensures Refunded(BothRefunds, Parcel(1)) && !Refunded(BothRefunds, Parcel(2))
  {
    assert BothRefunds[1] in BothRefunds && Touches(BothRefunds[1].refund, Parcel(1));
  }

  lemma RefundAndSell(steps: seq<Step>) returns (later: seq<Step>)
    requires Stocked(Run(0, steps), 2) && Run(0, steps).refunds == [FirstRefund]
    ensures steps + [OpenRefund(1, Some(1))] <= later
    ensures LastIsPayable(Run(0, later), 3) && Run(0, later).claimers == Run(0, steps).claimers
  {
    RunOneMore(steps, OpenRefund(1, Some(1)));
    var refunded := steps + [OpenRefund(1, Some(1))];
    later := SellsOneMore(refunded, 2);
    assert Run(0, refunded).refunds == BothRefunds;
    BothRefunded();
  }

  /** One claim has read the second parcel. */
  lemma FirstReads() returns (steps: seq<Step>)
    ensures Stocked(Run(0, steps), 2) && Run(0, steps).refunds == [FirstRefund]
    ensures |Run(0, steps).claimers| == 2 && AboutToPay(Run(0, steps), 1, 1)
  {
    var sold := SecondSale();
    SecondUnrefunded(Run(0, sold).refunds);
    steps := ClaimReads(sold, 2, 1);
  }

  /** And another reads the third. */
  lemma SecondReads(steps: seq<Step>) returns (later: seq<Step>)
    requires LastIsPayable(Run(0, steps), 3) && |Run(0, steps).claimers| == 2
    ensures steps <= later && |Run(0, later).claimers| == 3
    ensures Run(0, later) == Run(0, steps).(claimers := Run(0, later).claimers)
    ensures Run(0, later).claimers[1] == Run(0, steps).claimers[1] && AboutToPay(Run(0, later), 2, 2)
  {
    later := ClaimReads(steps, 3, 2);
    assert Run(0, later).claimers[..2][1] == Run(0, later).claimers[1];
  }

  /** The rest of the run, once both claims have read. */
  lemma BothCommit(first: seq<Step>, steps: seq<Step>) returns (after: seq<Step>)
    requires first <= steps && Run(0, steps).ledger == Owing
    requires AboutToPay(Run(0, steps), 1, 1) && AboutToPay(Run(0, steps), 2, 2)
    ensures var b := Run(0, first + after).ledger.books;
            Sum(b.payouts, Payouts.NettedCol()) == Sum(b.debts, Payouts.SettledCol()) + 100
  {
    var later := CommitsTwice(steps);
    NettedTwice(later);
    after := later[|first|..];
    assert first + after == later;
  }

  /** A claim reads a parcel that is then refunded. The next claim does not see it, so the
      two collide on no line and both net the debt. */
  lemma RefundBetweenReadsNetsTwice() returns (before: seq<Step>, after: seq<Step>)
    ensures var b := Run(0, before + [OpenRefund(1, Some(1))] + after).ledger.books;
            Sum(b.payouts, Payouts.NettedCol()) == Sum(b.debts, Payouts.SettledCol()) + 100
  {
    before := FirstReads();
    var refunded := RefundAndSell(before);
    var read := SecondReads(refunded);
    StillAboutToPay(Run(0, before), Run(0, read), 1, 1);
    after := BothCommit(before + [OpenRefund(1, Some(1))], read);
  }

  lemma SecondRefunded() returns (steps: seq<Step>)
    ensures Stocked(Run(0, steps), 2) && Run(0, steps).claimers == [Claimer(0, 0, Over)]
    ensures Run(0, steps).refunds == BothRefunds
  {
    var sold := SecondSale();
    RunOneMore(sold, OpenRefund(1, Some(1)));
    steps := sold + [OpenRefund(1, Some(1))];
  }

  /** The second parcel is refunded, and a claim has read its lines but not yet the refunds. */
  lemma HalfRead() returns (steps: seq<Step>)
    ensures Stocked(Run(0, steps), 2) && Run(0, steps).claimers == [Claimer(0, 0, Over), Halfway]
    ensures Run(0, steps).refunds == BothRefunds
  {
    steps := SecondRefunded();
    RunOneMore(steps, Begin(0));
    steps := steps + [Begin(0)];
    ShopLines(2, Orders(2));
    RunOneMore(steps, Advance(1, true));
    steps := steps + [Advance(1, true)];
  }

  const Halfway := Claimer(0, 0, Reading(Parcels(2), None, None, None))

  /** Its refunds read, it offers the second parcel. */
  lemma HalfwayEnds(w: World) returns (stage: Stage)
    requires SoldOk(w) && Stocked(w, 3) && Payouts.WellFormed(w.ledger)
    requires |w.claimers| > 1 && w.claimers[1] == Halfway && !Refunded(w.refunds, Parcel(1))
    ensures AdvancedBy(w, 1, 3) == Moved(w, 1, stage) && AboutToPay(Moved(w, 1, stage), 1, 1)
  {
    var refunded := Earnings.RefundedItemIds(Parcels(2), LiveRefunds(w.refunds));
    OweOnce();
    LastIsOffered(w, 3, 2);
    assert Moved(w, 1, Halfway.stage) == w;
    NextQuery(w, 1, 1, Halfway.stage);
    NextQuery(w, 1, 2, Reading(Parcels(2), Some(refunded), None, None));
    NextQuery(w, 1, 3, Reading(Parcels(2), Some(refunded), Some({0}), None));
    stage := Reading(Parcels(2), Some(refunded), Some({0}), Some(SeenOwing));
  }

  lemma SellsThird(steps: seq<Step>) returns (later: seq<Step>)
    requires Stocked(Run(0, steps), 2) && Run(0, steps).claimers == [Claimer(0, 0, Over), Halfway]
    requires Run(0, steps).refunds == BothRefunds
    ensures LastIsPayable(Run(0, later), 3) && |Run(0, later).claimers| == 2 && Run(0, later).claimers[1] == Halfway
    ensures Run(0, later).refunds == Run(0, steps).refunds
  {
    later := SellsOneMore(steps, 2);
    BothRefunded();
  }

  /** The other claim reads the third parcel, before the refund of the second fails. */
  lemma RefundFails() returns (before: seq<Step>)
    ensures var w := Run(0, before + [FailRefund(1)]);
            && Stocked(w, 3) && |w.claimers| == 3 && w.claimers[1] == Halfway
            && !Refunded(w.refunds, Parcel(1)) && AboutToPay(w, 2, 2)
  {
    var half := HalfRead();
    var sold := SellsThird(half);
    before := SecondReads(sold);
    RunOneMore(before, FailRefund(1));
    StillAboutToPay(Run(0, before), Run(0, before + [FailRefund(1)]), 2, 2);
  }

  /** No line stops being payable, and yet: a claim has read its lines, one of them refunded.
      The next claim reads that refund and later lines. The refund fails, the first claim reads
      the refunds, and the two again collide on no line and both net the debt. */
  lemma RefundFailsBetweenQueries() returns (before: seq<Step>, after: seq<Step>)
    ensures var b := Run(0, before + [FailRefund(1)] + after).ledger.books;
            Sum(b.payouts, Payouts.NettedCol()) == Sum(b.debts, Payouts.SettledCol()) + 100
  {
    before := RefundFails();
    var failed := before + [FailRefund(1)];
    var w := Run(0, failed);
    SoldInOrder(failed);
    var stage := HalfwayEnds(w);
    var read := Statements(failed, 1, 3);
    StillAboutToPay(w, Run(0, read), 2, 2);
    after := BothCommit(failed, read);
  }
}
