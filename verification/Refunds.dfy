/** Sending money back (backend/src/lib/refunds.ts).

Every statement the code issues against the database is one step; between two
steps of one call any other call, the provider, or a webhook may run, and a
call that crashes is simply a call that is never scheduled again.
*/
module Refunds {
  import opened Tables
  import opened OrderState

  type OrderId = nat
  type RefundId = nat

  datatype Order = Order(status: OrderStatus, subtotalCents: nat, refundedCents: int, hasIntent: bool)

  datatype RefundStatus = Pending | Succeeded | Failed

  /** `hasProviderId` says that `providerRefundId` is set, which is how a webhook finds the row. */
  datatype Refund = Refund(order: OrderId, amountCents: int, status: RefundStatus, hasProviderId: bool)

  /** What the provider decided about a refund it accepted. A decision is final. */
  datatype Decision = Undecided | Returned | Refused

  /** What the provider holds under the idempotency key of one refund row. */
  datatype ProviderSide = NotSeen | Held(order: OrderId, amountCents: int, decision: Decision)

  /** How one `refundIntent` call ends. `Threw` is a definite error, so nothing was
      sent; after `Unconfirmed` the provider may hold the refund in any state. */
  datatype Answer =
    | SaidSucceeded
    | SaidPending
    | SaidFailed
    | Threw
    | Unconfirmed(reached: Option<Decision>)

  /** Entry k of `provider` belongs to refund row k. */
  datatype Books = Books(orders: seq<Order>, refunds: seq<Refund>, provider: seq<ProviderSide>)

  ghost predicate BooksWellFormed(b: Books) {
    && |b.provider| == |b.refunds|
    && forall k :: 0 <= k < |b.refunds| ==> b.refunds[k].order < |b.orders|
  }

  /* ------------------------------------------------------------------ *
   * One statement each
   * ------------------------------------------------------------------ */

  /** The WHERE clause of the headroom claim. */
  predicate HasHeadroom(order: Order, amount: int) {
    order.status == Paid && order.refundedCents + amount <= order.subtotalCents
  }

  function ClaimHeadroom(b: Books, o: OrderId, amount: int): Books
    requires o < |b.orders|
  {
    var order := b.orders[o];
    b.(orders := b.orders[o := order.(refundedCents := order.refundedCents + amount)])
  }

  function ReleaseHeadroom(b: Books, o: OrderId, amount: int): Books
    requires o < |b.orders|
  {
    var order := b.orders[o];
    b.(orders := b.orders[o := order.(refundedCents := Max(0, order.refundedCents - amount))])
  }

  function RecordPending(b: Books, o: OrderId, amount: int): Books {
    b.(refunds := b.refunds + [Refund(o, amount, Pending, false)], provider := b.provider + [NotSeen])
  }

  function SetRow(b: Books, id: RefundId, status: RefundStatus, hasProviderId: bool): Books
    requires id < |b.refunds|
  {
    b.(refunds := b.refunds[id := b.refunds[id].(status := status, hasProviderId := hasProviderId)])
  }

  function SetStatus(b: Books, o: OrderId, status: OrderStatus): Books
    requires o < |b.orders|
  {
    b.(orders := b.orders[o := b.orders[o].(status := status)])
  }

  /** What a call leaves behind at the provider. */
  function ProviderAfter(o: OrderId, amount: int, answer: Answer): ProviderSide {
    match answer
    case SaidSucceeded => Held(o, amount, Returned)
    case SaidPending => Held(o, amount, Undecided)
    case SaidFailed => Held(o, amount, Refused)
    case Threw => NotSeen
    case Unconfirmed(None) => NotSeen
    case Unconfirmed(Some(d)) => Held(o, amount, d)
  }

  function CallProvider(b: Books, id: RefundId, answer: Answer): Books
    requires id < |b.refunds| == |b.provider|
  {
    b.(provider := b.provider[id := ProviderAfter(b.refunds[id].order, b.refunds[id].amountCents, answer)])
  }

  /** `settleRefundFromProvider`, taken as one step. Only a decisive event on a
      PENDING row that carries the provider's id changes anything. */
  function SettleFromProvider(b: Books, id: RefundId, decision: Decision): Books
    requires BooksWellFormed(b) && id < |b.refunds|
  {
    var row := b.refunds[id];
    if !row.hasProviderId || row.status != Pending || decision == Undecided then b
    else if decision == Returned then
      var settled := SetRow(b, id, Succeeded, true);
      var order := settled.orders[row.order];
      if order.refundedCents >= order.subtotalCents then SetStatus(settled, row.order, Refunded) else settled
    else
      var unwound := ReleaseHeadroom(SetRow(b, id, Failed, true), row.order, row.amountCents);
      var order := unwound.orders[row.order];
      if order.status == Refunded && order.refundedCents < order.subtotalCents
      then SetStatus(unwound, row.order, Paid) else unwound
  }

  /* ------------------------------------------------------------------ *
   * Any number of calls, interleaved
   * ------------------------------------------------------------------ */

  /** Where one `issueRefund` call stands; each constructor waits for its next statement. */
  datatype Stage =
    | Checked
    | Claimed
    | Recorded(id: RefundId)
    | Answered(id: RefundId, answer: Answer)
    | Releasing
    | Settled
    | MarkingRefunded
    | Finished

  datatype Call = Call(order: OrderId, amountCents: int, stage: Stage)

  datatype State = State(books: Books, calls: seq<Call>)

  datatype Step =
    | NewOrder(subtotalCents: nat, hasIntent: bool)
    | MarkPaid(order: OrderId)
    | Begin(order: OrderId, amountCents: int)
    | Advance(call: nat, answer: Answer)
    | Decide(id: RefundId, decision: Decision)
    | Webhook(id: RefundId, decision: Decision)

  const EmptyState := State(Books([], [], []), [])

  /** The advisory checks at the top of `issueRefund`, in the code's order. */
  predicate PassesChecks(order: Order, amount: int) {
    && amount >= 1
    && order.status == Paid
    && order.hasIntent
    && order.refundedCents + amount <= order.subtotalCents
  }

  /** The next statement of one call. */
  function AdvanceCall(b: Books, c: Call, answer: Answer): (Books, Stage)
    requires BooksWellFormed(b) && c.order < |b.orders|
    requires c.stage.Recorded? || c.stage.Answered? ==> c.stage.id < |b.refunds|
  {
    match c.stage
    case Checked =>
      if HasHeadroom(b.orders[c.order], c.amountCents)
      then (ClaimHeadroom(b, c.order, c.amountCents), Claimed)
      else (b, Finished)
    case Claimed => (RecordPending(b, c.order, c.amountCents), Recorded(|b.refunds|))
    case Recorded(id) => (CallProvider(b, id, answer), Answered(id, answer))
    case Answered(id, said) =>
      (match said
       case SaidSucceeded => (SetRow(b, id, Succeeded, true), Settled)
       case SaidPending => (SetRow(b, id, Pending, true), Settled)
       case SaidFailed => (SetRow(b, id, Failed, b.refunds[id].hasProviderId), Releasing)
       case Threw => (SetRow(b, id, Failed, b.refunds[id].hasProviderId), Releasing)
       case Unconfirmed(_) => (b, Finished))
    case Releasing => (ReleaseHeadroom(b, c.order, c.amountCents), Finished)
    case Settled =>
      if b.orders[c.order].refundedCents >= b.orders[c.order].subtotalCents
      then (b, MarkingRefunded) else (b, Finished)
    case MarkingRefunded => (SetStatus(b, c.order, Refunded), Finished)
    case Finished => (b, Finished)
  }

  ghost predicate CallsWellFormed(s: State) {
    forall i :: 0 <= i < |s.calls| ==>
      && s.calls[i].order < |s.books.orders|
      && s.calls[i].amountCents >= 1
      && (s.calls[i].stage.Recorded? || s.calls[i].stage.Answered? ==> s.calls[i].stage.id < |s.books.refunds|)
  }

  ghost predicate WellFormed(s: State) {
    BooksWellFormed(s.books) && CallsWellFormed(s)
  }

  /** One step; a step that is not enabled changes nothing. A provider event is
      delivered only if the provider's record supports it. */
  ghost function Do(s: State, step: Step): State
    requires WellFormed(s)
  {
    var b := s.books;
    match step
    case NewOrder(subtotal, hasIntent) =>
      s.(books := b.(orders := b.orders + [Order(PendingPayment, subtotal, 0, hasIntent)]))
    case MarkPaid(o) =>
      if o < |b.orders| && b.orders[o].status in {PendingPayment, Processing}
      then s.(books := SetStatus(b, o, Paid)) else s
    case Begin(o, amount) =>
      if o < |b.orders| && PassesChecks(b.orders[o], amount)
      then s.(calls := s.calls + [Call(o, amount, Checked)]) else s
    case Advance(i, answer) =>
      if i < |s.calls| then
        var (b', stage) := AdvanceCall(b, s.calls[i], answer);
        State(b', s.calls[i := s.calls[i].(stage := stage)])
      else s
    case Decide(id, d) =>
      if id < |b.provider| && b.provider[id].Held? && b.provider[id].decision == Undecided
      then s.(books := b.(provider := b.provider[id := b.provider[id].(decision := d)])) else s
    case Webhook(id, d) =>
      if id < |b.provider| && b.provider[id].Held? && (d == Undecided || d == b.provider[id].decision)
      then s.(books := SettleFromProvider(b, id, d)) else s
  }

  /* ------------------------------------------------------------------ *
   * The headroom identity
   * ------------------------------------------------------------------ */

  function LiveOn(o: OrderId): Refund -> int {
    (r: Refund) => if r.order == o && r.status != Failed then r.amountCents else 0
  }

  /** Claimed and not yet recorded, or recorded as failed and not yet released. */
  function UnbookedOn(o: OrderId): Call -> int {
    (c: Call) => if c.order == o && (c.stage == Claimed || c.stage == Releasing) then c.amountCents else 0
  }

  function ReturnedOn(o: OrderId): ProviderSide -> int {
    (p: ProviderSide) => if p.Held? && p.order == o && p.decision == Returned then p.amountCents else 0
  }

  /** Returned, or accepted and not decided yet. */
  function MayLeaveOn(o: OrderId): ProviderSide -> int {
    (p: ProviderSide) => if p.Held? && p.order == o && p.decision != Refused then p.amountCents else 0
  }

  ghost predicate Balanced(s: State, o: OrderId)
    requires o < |s.books.orders|
  {
    var order := s.books.orders[o];
    && order.refundedCents == Sum(s.books.refunds, LiveOn(o)) + Sum(s.calls, UnbookedOn(o))
    && order.refundedCents <= order.subtotalCents
  }

  /** The provider's record agrees with what the caller was told. */
  ghost predicate Supports(p: ProviderSide, answer: Answer) {
    match answer
    case SaidSucceeded => p.Held? && p.decision == Returned
    case SaidPending => p.Held?
    case SaidFailed => p.Held? && p.decision == Refused
    case Threw => p == NotSeen
    case Unconfirmed(_) => true
  }

  /** A call that has a row open owns it: PENDING, and invisible to webhooks. */
  ghost predicate OwnsItsRow(b: Books, c: Call)
    requires BooksWellFormed(b)
    requires c.stage.Recorded? || c.stage.Answered? ==> c.stage.id < |b.refunds|
  {
    && (c.stage.Recorded? || c.stage.Answered? ==>
          b.refunds[c.stage.id] == Refund(c.order, c.amountCents, Pending, false))
    && (c.stage.Recorded? ==> b.provider[c.stage.id] == NotSeen)
    && (c.stage.Answered? ==> Supports(b.provider[c.stage.id], c.stage.answer))
  }

  function OpenRow(c: Call): Option<RefundId> {
    if c.stage.Recorded? || c.stage.Answered? then Some(c.stage.id) else None
  }

  ghost predicate RowAgrees(row: Refund, p: ProviderSide) {
    && row.amountCents >= 1
    && (p.Held? ==> p.order == row.order && p.amountCents == row.amountCents)
    && (row.status == Failed ==> p == NotSeen || (p.Held? && p.decision == Refused))
    && (row.status == Succeeded ==> p.Held? && p.decision == Returned)
  }

  ghost predicate Ownership(s: State) {
    && WellFormed(s)
    && (forall i :: 0 <= i < |s.calls| ==> OwnsItsRow(s.books, s.calls[i]))
    && (forall i, j :: 0 <= i < j < |s.calls| && OpenRow(s.calls[i]).Some? ==>
          OpenRow(s.calls[i]) != OpenRow(s.calls[j]))
    && (forall k :: 0 <= k < |s.books.refunds| ==> RowAgrees(s.books.refunds[k], s.books.provider[k]))
  }

  ghost predicate Inv(s: State) {
    Ownership(s) && forall o :: 0 <= o < |s.books.orders| ==> Balanced(s, o)
  }

  /** Live rows and unbooked claims are each at most `refundedCents`. */
  lemma PartsWithinRefunded(s: State, o: OrderId)
    requires Ownership(s) && o < |s.books.orders| && Balanced(s, o)
    ensures 0 <= Sum(s.books.refunds, LiveOn(o)) <= s.books.orders[o].refundedCents
    ensures 0 <= Sum(s.calls, UnbookedOn(o)) <= s.books.orders[o].refundedCents
  {
    SumNonNegative(s.books.refunds, LiveOn(o));
    SumNonNegative(s.calls, UnbookedOn(o));
  }

  lemma AdvanceKeepsWellFormed(s: State, i: nat, answer: Answer)
    requires WellFormed(s) && i < |s.calls|
    ensures WellFormed(Do(s, Advance(i, answer)))
  {
    var (b', stage) := AdvanceCall(s.books, s.calls[i], answer);
    assert BooksWellFormed(b') && |s.books.refunds| <= |b'.refunds| && |b'.orders| == |s.books.orders|;
    assert stage.Recorded? || stage.Answered? ==> stage.id < |b'.refunds|;
  }

  lemma AdvanceKeepsOwner(s: State, i: nat, answer: Answer, j: nat)
    requires WellFormed(s) && i < |s.calls| && j < |s.calls|
    requires OwnsItsRow(s.books, s.calls[i]) && OwnsItsRow(s.books, s.calls[j])
    requires i != j && OpenRow(s.calls[i]).Some? ==> OpenRow(s.calls[i]) != OpenRow(s.calls[j])
    ensures WellFormed(Do(s, Advance(i, answer)))
    ensures OwnsItsRow(Do(s, Advance(i, answer)).books, Do(s, Advance(i, answer)).calls[j])
  {
    AdvanceKeepsWellFormed(s, i, answer);
    var c, d := s.calls[i], s.calls[j];
    var (b', stage) := AdvanceCall(s.books, c, answer);
    if i != j {
      assert OpenRow(d).Some? ==> b'.refunds[d.stage.id] == s.books.refunds[d.stage.id];
      assert OpenRow(d).Some? ==> b'.provider[d.stage.id] == s.books.provider[d.stage.id];
    }
  }

  lemma AdvanceKeepsRow(s: State, i: nat, answer: Answer, k: RefundId)
    requires WellFormed(s) && i < |s.calls| && OwnsItsRow(s.books, s.calls[i])
    requires k < |s.books.refunds| ==> RowAgrees(s.books.refunds[k], s.books.provider[k])
    requires k < |Do(s, Advance(i, answer)).books.refunds|
    ensures WellFormed(Do(s, Advance(i, answer)))
    ensures RowAgrees(Do(s, Advance(i, answer)).books.refunds[k], Do(s, Advance(i, answer)).books.provider[k])
  {
    AdvanceKeepsWellFormed(s, i, answer);
  }

  lemma AdvanceKeepsOwnership(s: State, i: nat, answer: Answer)
    requires Ownership(s) && i < |s.calls|
    ensures Ownership(Do(s, Advance(i, answer)))
  {
    var s' := Do(s, Advance(i, answer));
    AdvanceKeepsWellFormed(s, i, answer);
    forall j | 0 <= j < |s.calls| ensures OwnsItsRow(s'.books, s'.calls[j]) {
      AdvanceKeepsOwner(s, i, answer, j);
    }
    forall k | 0 <= k < |s'.books.refunds| ensures RowAgrees(s'.books.refunds[k], s'.books.provider[k]) {
      AdvanceKeepsRow(s, i, answer, k);
    }
    assert OpenRow(s'.calls[i]) in {None, OpenRow(s.calls[i]), Some(|s.books.refunds|)};
  }

  lemma WebhookKeepsOwnership(s: State, id: RefundId, d: Decision)
    requires Ownership(s)
    ensures Ownership(Do(s, Webhook(id, d)))
  {
    var s' := Do(s, Webhook(id, d));
    assert s'.calls == s.calls && |s'.books.orders| == |s.books.orders|;
    assert id < |s.books.refunds| ==> RowAgrees(s.books.refunds[id], s.books.provider[id]);
  }

  lemma DecidingKeepsOwnership(s: State, id: RefundId, d: Decision)
    requires Ownership(s)
    ensures Ownership(Do(s, Decide(id, d)))
  {
    var s' := Do(s, Decide(id, d));
    assert s'.calls == s.calls && s'.books.refunds == s.books.refunds && s'.books.orders == s.books.orders;
    assert id < |s.books.refunds| ==> RowAgrees(s.books.refunds[id], s.books.provider[id]);
  }

  lemma OwnershipKept(s: State, step: Step)
    requires Ownership(s)
    ensures Ownership(Do(s, step))
  {
    match step {
      case Decide(id, d) => DecidingKeepsOwnership(s, id, d);
      case Advance(i, answer) => if i < |s.calls| { AdvanceKeepsOwnership(s, i, answer); }
      case Webhook(id, d) => WebhookKeepsOwnership(s, id, d);
      case _ =>
    }
  }

  /** What an order has refunded beyond its live rows. */
  function Excess(b: Books, o: OrderId): int
    requires o < |b.orders|
  {
    b.orders[o].refundedCents - Sum(b.refunds, LiveOn(o))
  }

  lemma SettlingMovesExcess(b: Books, c: Call, o: OrderId)
    requires BooksWellFormed(b) && c.order < |b.orders| && o < |b.orders|
    requires c.stage.Answered? && c.stage.id < |b.refunds| && OwnsItsRow(b, c)
    ensures var (b', stage) := AdvanceCall(b, c, Threw);
            && b'.orders == b.orders
            && Excess(b', o) - UnbookedOn(o)(c.(stage := stage)) == Excess(b, o)
  {
    var (b', stage) := AdvanceCall(b, c, Threw);
    SumUpdate(b.refunds, c.stage.id, b'.refunds[c.stage.id], LiveOn(o));
  }

  lemma RecordingMovesExcess(b: Books, c: Call, answer: Answer, o: OrderId)
    requires BooksWellFormed(b) && c.order < |b.orders| && o < |b.orders|
    requires c.stage.Claimed?
    ensures var (b', stage) := AdvanceCall(b, c, answer);
            && b'.orders == b.orders
            && Excess(b', o) - UnbookedOn(o)(c.(stage := stage)) == Excess(b, o) - UnbookedOn(o)(c)
  {
    SumAppend(b.refunds, Refund(c.order, c.amountCents, Pending, false), LiveOn(o));
  }

  /** Whatever one statement does to an order and its refund rows, the call's own
      unbooked amount moves by the difference. */
  lemma StatementMovesExcess(b: Books, c: Call, answer: Answer, o: OrderId)
    requires BooksWellFormed(b) && c.order < |b.orders| && o < |b.orders|
    requires c.stage.Recorded? || c.stage.Answered? ==> c.stage.id < |b.refunds|
    requires OwnsItsRow(b, c) && UnbookedOn(o)(c) <= b.orders[o].refundedCents <= b.orders[o].subtotalCents
    requires 0 <= c.amountCents
    ensures var (b', stage) := AdvanceCall(b, c, answer);
            && |b'.orders| == |b.orders| && b'.orders[o].refundedCents <= b'.orders[o].subtotalCents
            && Excess(b', o) - UnbookedOn(o)(c.(stage := stage)) == Excess(b, o) - UnbookedOn(o)(c)
  {
    match c.stage {
      case Claimed => RecordingMovesExcess(b, c, answer, o);
      case Answered(_, _) => SettlingMovesExcess(b, c, o);
      case _ =>
    }
  }

  lemma AdvanceKeepsBalance(s: State, i: nat, answer: Answer, o: OrderId)
    requires Ownership(s) && i < |s.calls| && o < |s.books.orders|
    requires Balanced(s, o)
    ensures Balanced(Do(s, Advance(i, answer)), o)
  {
    PartsWithinRefunded(s, o);
    SumMember(s.calls, i, UnbookedOn(o));
    var c := s.calls[i];
    StatementMovesExcess(s.books, c, answer, o);
    SumUpdate(s.calls, i, c.(stage := AdvanceCall(s.books, c, answer).1), UnbookedOn(o));
  }

  lemma WebhookKeepsBalance(s: State, id: RefundId, d: Decision, o: OrderId)
    requires Ownership(s) && id < |s.books.refunds| && o < |s.books.orders|
    requires Balanced(s, o)
    ensures Balanced(Do(s, Webhook(id, d)), o)
  {
    var b := s.books;
    var row := b.refunds[id];
    assert RowAgrees(row, b.provider[id]);
    PartsWithinRefunded(s, o);
    SumMember(b.refunds, id, LiveOn(o));
    SumUpdate(b.refunds, id, row.(status := Failed), LiveOn(o));
    SumUpdate(b.refunds, id, row.(status := Succeeded), LiveOn(o));
  }

  lemma NewOrderIsBalanced(s: State, step: Step)
    requires WellFormed(s) && |s.books.orders| < |Do(s, step).books.orders|
    ensures Balanced(Do(s, step), |s.books.orders|)
  {
    SumZero(s.books.refunds, LiveOn(|s.books.orders|));
    SumZero(s.calls, UnbookedOn(|s.books.orders|));
  }

  lemma OldOrderStaysBalanced(s: State, step: Step, o: OrderId)
    requires Ownership(s) && o < |s.books.orders| && Balanced(s, o)
    ensures Balanced(Do(s, step), o)
  {
    match step {
      case Advance(i, answer) =>
        if i < |s.calls| { AdvanceKeepsBalance(s, i, answer, o); }
      case Webhook(id, d) => if id < |s.books.refunds| { WebhookKeepsBalance(s, id, d, o); }
      case Begin(p, amount) => SumAppend(s.calls, Call(p, amount, Checked), UnbookedOn(o));
      case _ =>
    }
  }

  lemma BalanceKept(s: State, step: Step, o: OrderId)
    requires Inv(s) && o < |Do(s, step).books.orders|
    ensures Balanced(Do(s, step), o)
  {
    if o < |s.books.orders| {
      OldOrderStaysBalanced(s, step, o);
    } else {
      assert o == |s.books.orders|;
      NewOrderIsBalanced(s, step);
    }
  }

  lemma StepKeepsInv(s: State, step: Step)
    requires Inv(s)
    ensures Inv(Do(s, step))
  {
    OwnershipKept(s, step);
    forall o | 0 <= o < |Do(s, step).books.orders| ensures Balanced(Do(s, step), o) {
      BalanceKept(s, step, o);
    }
  }

  lemma StepKeepsWellFormed(s: State, step: Step)
    requires WellFormed(s)
    ensures WellFormed(Do(s, step))
  {
    if step.Advance? && step.call < |s.calls| {
      AdvanceKeepsWellFormed(s, step.call, step.answer);
    }
  }

  /** The state after any schedule of calls, crashes, decisions and webhooks. */
  ghost function Run(steps: seq<Step>): (s: State)
    ensures WellFormed(s)
  {
    if |steps| == 0 then EmptyState
    else
      var before := Run(steps[..|steps| - 1]);
      StepKeepsWellFormed(before, steps[|steps| - 1]);
      Do(before, steps[|steps| - 1])
  }

  lemma {:induction false} RunKeepsInv(steps: seq<Step>)
    ensures Inv(Run(steps))
  {
    if |steps| > 0 {
      RunKeepsInv(steps[..|steps| - 1]);
      StepKeepsInv(Run(steps[..|steps| - 1]), steps[|steps| - 1]);
    }
  }

  /** No order ever gives back more than it took, and its books say exactly why
      `refundedCents` is what it is. */
  lemma NeverRefundsMoreThanCameIn(steps: seq<Step>, o: OrderId)
    requires o < |Run(steps).books.orders|
    ensures var s := Run(steps);
            var order := s.books.orders[o];
            && Sum(s.books.provider, ReturnedOn(o)) <= Sum(s.books.provider, MayLeaveOn(o))
            && Sum(s.books.provider, MayLeaveOn(o)) <= Sum(s.books.refunds, LiveOn(o))
            && Sum(s.books.refunds, LiveOn(o)) <= order.refundedCents <= order.subtotalCents
            && order.refundedCents == Sum(s.books.refunds, LiveOn(o)) + Sum(s.calls, UnbookedOn(o))
  {
    var s := Run(steps);
    RunKeepsInv(steps);
    assert Balanced(s, o);
    PartsWithinRefunded(s, o);
    forall k | 0 <= k < |s.books.refunds|
      ensures ReturnedOn(o)(s.books.provider[k]) <= MayLeaveOn(o)(s.books.provider[k])
      ensures MayLeaveOn(o)(s.books.provider[k]) <= LiveOn(o)(s.books.refunds[k])
    {
      assert RowAgrees(s.books.refunds[k], s.books.provider[k]);
    }
    SumMonotone(s.books.provider, s.books.provider, ReturnedOn(o), MayLeaveOn(o));
    SumMonotone(s.books.provider, s.books.refunds, MayLeaveOn(o), LiveOn(o));
  }

  /** GREATEST(0, …) in the release never changes an amount: neither when a call
      gives its claim back nor when the provider's refusal does. */
  lemma ReleaseClampNeverFires(steps: seq<Step>, o: OrderId)
    requires o < |Run(steps).books.orders|
    ensures var s := Run(steps);
            && (forall i :: 0 <= i < |s.calls| && s.calls[i].order == o && s.calls[i].stage == Releasing ==>
                  0 <= s.books.orders[o].refundedCents - s.calls[i].amountCents)
            && (forall k :: 0 <= k < |s.books.refunds| && s.books.refunds[k].order == o
                            && s.books.refunds[k].status == Pending ==>
                  0 <= s.books.orders[o].refundedCents - s.books.refunds[k].amountCents)
  {
    var s := Run(steps);
    RunKeepsInv(steps);
    assert Balanced(s, o);
    PartsWithinRefunded(s, o);
    forall i | 0 <= i < |s.calls| ensures UnbookedOn(o)(s.calls[i]) <= s.books.orders[o].refundedCents {
      SumMember(s.calls, i, UnbookedOn(o));
    }
    forall k | 0 <= k < |s.books.refunds| ensures LiveOn(o)(s.books.refunds[k]) <= s.books.orders[o].refundedCents {
      SumMember(s.books.refunds, k, LiveOn(o));
    }
  }

  /** A SUCCEEDED row is money the provider returned, in that amount and for that
      order; under a FAILED row no money left and none ever will. */
  lemma SettledRowsTellTheTruth(steps: seq<Step>, more: seq<Step>, k: RefundId)
    requires k < |Run(steps).books.refunds|
    ensures k < |Run(steps + more).books.refunds| == |Run(steps + more).books.provider|
    ensures var row, later := Run(steps).books.refunds[k], Run(steps + more).books;
            && (row.status == Succeeded ==> later.provider[k] == Held(row.order, row.amountCents, Returned))
            && (row.status == Failed ==> later.provider[k] in {NotSeen, Held(row.order, row.amountCents, Refused)})
            && (row.status != Pending ==> later.refunds[k].status == row.status)
  {
    RunKeepsInv(steps);
    RunKeepsInv(steps + more);
    assert RowAgrees(Run(steps).books.refunds[k], Run(steps).books.provider[k]);
    SettledRowsStay(steps, more, k);
    assert RowAgrees(Run(steps + more).books.refunds[k], Run(steps + more).books.provider[k]);
  }

  /** Refund rows are append-only: only a PENDING status ever moves. */
  ghost predicate Continues(row: Refund, later: Refund) {
    && later.order == row.order && later.amountCents == row.amountCents
    && (row.status != Pending ==> later.status == row.status)
  }

  lemma StepKeepsRow(s: State, step: Step, k: RefundId)
    requires Inv(s) && k < |s.books.refunds|
    ensures k < |Do(s, step).books.refunds|
    ensures Continues(s.books.refunds[k], Do(s, step).books.refunds[k])
  {
    if step.Advance? && step.call < |s.calls| {
      assert OwnsItsRow(s.books, s.calls[step.call]);
    }
  }

  lemma RunOneMore(steps: seq<Step>, step: Step)
    ensures Run(steps + [step]) == Do(Run(steps), step)
  {
    assert (steps + [step])[..|steps|] == steps;
  }

  lemma {:induction false} SettledRowsStay(steps: seq<Step>, more: seq<Step>, k: RefundId)
    requires k < |Run(steps).books.refunds|
    ensures k < |Run(steps + more).books.refunds|
    ensures Continues(Run(steps).books.refunds[k], Run(steps + more).books.refunds[k])
    decreases |more|
  {
    if |more| == 0 {
      assert steps + more == steps;
    } else {
      var init, last := more[..|more| - 1], more[|more| - 1];
      SettledRowsStay(steps, init, k);
      RunKeepsInv(steps + init);
      StepKeepsRow(Run(steps + init), last, k);
      RunOneMore(steps + init, last);
      LastStep(steps, more);
    }
  }

  /** Events are delivered at least once: after one that decided something, every
      further event about the same refund changes nothing. */
  lemma SettlingTwiceIsOnce(b: Books, id: RefundId, first: Decision, again: Decision)
    requires BooksWellFormed(b) && id < |b.refunds|
    requires first != Undecided
    ensures SettleFromProvider(SettleFromProvider(b, id, first), id, again) == SettleFromProvider(b, id, first)
  {
  }

  /* ------------------------------------------------------------------ *
   * What REFUNDED means
   * ------------------------------------------------------------------ */

  /** What a decisive event does to the refund's order. A success makes it REFUNDED if nothing
      is left and is otherwise silent. A refusal gives the amount back; then a REFUNDED order
      is PAID again exactly if it is no longer refunded in full, no other status moves, and
      an order that is PAID can be refunded that amount again. */
  lemma SettlingMovesOrder(b: Books, id: RefundId, decision: Decision)
    requires BooksWellFormed(b) && id < |b.refunds|
    requires var row := b.refunds[id];
             && row.hasProviderId && row.status == Pending && decision != Undecided
             && 0 <= row.amountCents <= b.orders[row.order].refundedCents <= b.orders[row.order].subtotalCents
    ensures var row, after := b.refunds[id], SettleFromProvider(b, id, decision);
            && |after.orders| == |b.orders| && |after.refunds| == |b.refunds| && after.provider == b.provider
            && after.refunds == b.refunds[id := Refund(row.order, row.amountCents,
                 if decision == Returned then Succeeded else Failed, true)]
            && (forall o :: 0 <= o < |b.orders| && o != row.order ==> after.orders[o] == b.orders[o])
            && var prior, next := b.orders[row.order], after.orders[row.order];
               && next.subtotalCents == prior.subtotalCents && next.hasIntent == prior.hasIntent
               && next.refundedCents == prior.refundedCents - (if decision == Refused then row.amountCents else 0)
               && (decision == Returned ==> next.status == if prior.refundedCents == prior.subtotalCents then Refunded
                                                         else prior.status)
               && (decision == Refused ==>
                     && (prior.status != Refunded ==> next.status == prior.status)
                     && (prior.status == Refunded ==>
                           next.status == if next.refundedCents < next.subtotalCents then Paid else Refunded)
                     && (next.status == Paid ==> HasHeadroom(next, row.amountCents)))
  {
  }

  ghost predicate RefundedInFull(b: Books) {
    forall o <- b.orders :: o.status == Refunded ==> o.refundedCents == o.subtotalCents
  }

  /** A call marks an order REFUNDED although something was given back since it looked, or
      gives its claim back on an order that is REFUNDED already. */
  predicate MissesTheRelease(s: State, step: Step) {
    && step.Advance? && step.call < |s.calls| && s.calls[step.call].order < |s.books.orders|
    && var c, order := s.calls[step.call], s.books.orders[s.calls[step.call].order];
       || (c.stage == MarkingRefunded && order.refundedCents < order.subtotalCents)
       || (c.stage == Releasing && order.status == Refunded)
  }

  lemma OrdersWithinSubtotal(s: State)
    requires Inv(s)
    ensures forall o <- s.books.orders :: 0 <= o.refundedCents <= o.subtotalCents
    ensures forall k :: 0 <= k < |s.books.refunds| && s.books.refunds[k].status == Pending ==>
              1 <= s.books.refunds[k].amountCents <= s.books.orders[s.books.refunds[k].order].refundedCents
    ensures forall i :: 0 <= i < |s.calls| && s.calls[i].stage == Releasing ==>
              1 <= s.calls[i].amountCents <= s.books.orders[s.calls[i].order].refundedCents
  {
    forall o | 0 <= o < |s.books.orders|
      ensures 0 <= s.books.orders[o].refundedCents <= s.books.orders[o].subtotalCents
    {
      assert Balanced(s, o);
      PartsWithinRefunded(s, o);
    }
    forall k | 0 <= k < |s.books.refunds| && s.books.refunds[k].status == Pending
      ensures 1 <= s.books.refunds[k].amountCents <= s.books.orders[s.books.refunds[k].order].refundedCents
    {
      PendingWithinRefunded(s, k);
    }
    forall i | 0 <= i < |s.calls| && s.calls[i].stage == Releasing
      ensures 1 <= s.calls[i].amountCents <= s.books.orders[s.calls[i].order].refundedCents
    {
      ReleasingWithinRefunded(s, i);
    }
  }

  lemma PendingWithinRefunded(s: State, k: RefundId)
    requires Inv(s) && k < |s.books.refunds| && s.books.refunds[k].status == Pending
    ensures 1 <= s.books.refunds[k].amountCents <= s.books.orders[s.books.refunds[k].order].refundedCents
  {
    var o := s.books.refunds[k].order;
    assert Balanced(s, o) && RowAgrees(s.books.refunds[k], s.books.provider[k]);
    PartsWithinRefunded(s, o);
    forall q | 0 <= q < |s.books.refunds| ensures 0 <= LiveOn(o)(s.books.refunds[q]) {
      assert RowAgrees(s.books.refunds[q], s.books.provider[q]);
    }
    SumMember(s.books.refunds, k, LiveOn(o));
  }

  lemma ReleasingWithinRefunded(s: State, i: nat)
    requires Inv(s) && i < |s.calls| && s.calls[i].stage == Releasing
    ensures 1 <= s.calls[i].amountCents <= s.books.orders[s.calls[i].order].refundedCents
  {
    var o := s.calls[i].order;
    assert Balanced(s, o);
    PartsWithinRefunded(s, o);
    SumMember(s.calls, i, UnbookedOn(o));
  }

  lemma WebhookKeepsFull(s: State, id: RefundId, d: Decision)
    requires Inv(s) && RefundedInFull(s.books)
    ensures RefundedInFull(Do(s, Webhook(id, d)).books)
  {
    OrdersWithinSubtotal(s);
    var b, b' := s.books, Do(s, Webhook(id, d)).books;
    if b' != b {
      SettlingMovesOrder(b, id, d);
      forall o | 0 <= o < |b'.orders| && b'.orders[o].status == Refunded
        ensures b'.orders[o].refundedCents == b'.orders[o].subtotalCents
      {
        assert b.orders[o] in b.orders && b.orders[b.refunds[id].order] in b.orders;
      }
    }
  }

  lemma AdvanceKeepsFullIff(s: State, i: nat, answer: Answer)
    requires Inv(s) && RefundedInFull(s.books) && i < |s.calls|
    ensures RefundedInFull(Do(s, Advance(i, answer)).books) <==> !MissesTheRelease(s, Advance(i, answer))
  {
    OrdersWithinSubtotal(s);
    var c := s.calls[i];
    var b, b' := s.books, Do(s, Advance(i, answer)).books;
    var prior, next := b.orders[c.order], b'.orders[c.order];
    assert prior in b.orders && next in b'.orders;
    assert forall o :: 0 <= o < |b.orders| && o != c.order ==> b'.orders[o] == b.orders[o] && b.orders[o] in b.orders;
  }

  lemma StepKeepsFullIff(s: State, step: Step)
    requires Inv(s) && RefundedInFull(s.books)
    ensures RefundedInFull(Do(s, step).books) <==> !MissesTheRelease(s, step)
  {
    match step
    case Advance(i, answer) => if i < |s.calls| { AdvanceKeepsFullIff(s, i, answer); }
    case Webhook(id, d) => WebhookKeepsFull(s, id, d);
    case MarkPaid(o) =>
      if o < |s.books.orders| {
        var orders, orders' := s.books.orders, Do(s, step).books.orders;
        assert forall q :: 0 <= q < |orders| && q != o ==> orders'[q] == orders[q] && orders[q] in orders;
        assert orders[o] in orders;
      }
    case _ =>
  }

  ghost predicate AlwaysInFull(steps: seq<Step>) {
    RefundedInFull(Run(steps).books) && (|steps| > 0 ==> AlwaysInFull(steps[..|steps| - 1]))
  }

  ghost predicate NoReleaseMissed(steps: seq<Step>) {
    |steps| > 0 ==>
      var before, last := steps[..|steps| - 1], steps[|steps| - 1];
      NoReleaseMissed(before) && !MissesTheRelease(Run(before), last)
  }

  /** At every point of a run REFUNDED means refunded in full, if and only if no call marks an
      order that was meanwhile given something back, or gives something back on one that is
      marked: neither statement looks at what the other did. */
  lemma {:induction false} RefundedInFullIff(steps: seq<Step>)
    ensures AlwaysInFull(steps) <==> NoReleaseMissed(steps)
  {
    if |steps| > 0 {
      var before, last := steps[..|steps| - 1], steps[|steps| - 1];
      RefundedInFullIff(before);
      RunKeepsInv(before);
      if AlwaysInFull(before) { StepKeepsFullIff(Run(before), last); }
    }
  }

  function OneOrder(status: OrderStatus, refundedCents: int): seq<Order> { [Order(status, 100, refundedCents, true)] }

  function OneRefund(status: RefundStatus, hasProviderId: bool, decision: Decision, stage: Stage,
      orderStatus: OrderStatus, refundedCents: int): State
  {
    var refund, held := Refund(0, 100, status, hasProviderId), Held(0, 100, decision);
    State(Books(OneOrder(orderStatus, refundedCents), [refund], [held]), [Call(0, 100, stage)])
  }

  lemma OneMoves(steps: seq<Step>, step: Step, s: State) returns (later: seq<Step>)
    requires Do(Run(steps), step) == s
    ensures Run(later) == s
  {
    RunOneMore(steps, step);
    later := steps + [step];
  }

  lemma OnePaidOrder() returns (steps: seq<Step>)
    ensures Run(steps) == State(Books(OneOrder(Paid, 0), [], []), [])
  {
    steps := OneMoves([], NewOrder(100, true), State(Books(OneOrder(PendingPayment, 0), [], []), []));
    steps := OneMoves(steps, MarkPaid(0), State(Books(OneOrder(Paid, 0), [], []), []));
  }

  lemma RefundBegun() returns (steps: seq<Step>)
    ensures Run(steps) == State(Books(OneOrder(Paid, 0), [], []), [Call(0, 100, Checked)])
  {
    steps := OnePaidOrder();
    steps := OneMoves(steps, Begin(0, 100), State(Books(OneOrder(Paid, 0), [], []), [Call(0, 100, Checked)]));
  }

  /** A refund of the whole order is claimed. */
  lemma WholeOrderClaimed() returns (steps: seq<Step>)
    ensures Run(steps) == State(Books(OneOrder(Paid, 100), [], []), [Call(0, 100, Claimed)])
  {
    steps := RefundBegun();
    steps := OneMoves(steps, Advance(0, SaidPending),
                      State(Books(OneOrder(Paid, 100), [], []), [Call(0, 100, Claimed)]));
  }

  lemma TakenOn() returns (steps: seq<Step>)
    ensures Run(steps) == OneRefund(Pending, false, Undecided, Answered(0, SaidPending), Paid, 100)
  {
    steps := WholeOrderClaimed();
    steps := OneMoves(steps, Advance(0, SaidPending),
                      State(Books(OneOrder(Paid, 100), [Refund(0, 100, Pending, false)], [NotSeen]),
                            [Call(0, 100, Recorded(0))]));
    steps := OneMoves(steps, Advance(0, SaidPending),
                      OneRefund(Pending, false, Undecided, Answered(0, SaidPending), Paid, 100));
  }

  /** The provider takes it on, and the call finds the order refunded in full. */
  lemma AboutToMark() returns (steps: seq<Step>)
    ensures Run(steps) == OneRefund(Pending, true, Undecided, MarkingRefunded, Paid, 100)
  {
    steps := TakenOn();
    steps := OneMoves(steps, Advance(0, SaidPending), OneRefund(Pending, true, Undecided, Settled, Paid, 100));
    steps := OneMoves(steps, Advance(0, SaidPending), OneRefund(Pending, true, Undecided, MarkingRefunded, Paid, 100));
  }

  /** Before it marks the order the provider refuses and the webhook gives everything back.
      The order then stays REFUNDED with nothing refunded, and no refund of it is possible. */
  lemma RefundedWithNothingBack() returns (steps: seq<Step>)
    ensures Run(steps).books.orders == [Order(Refunded, 100, 0, true)]
    ensures forall amount :: !HasHeadroom(Run(steps).books.orders[0], amount)
  {
    steps := AboutToMark();
    steps := OneMoves(steps, Decide(0, Refused), OneRefund(Pending, true, Refused, MarkingRefunded, Paid, 100));
    steps := OneMoves(steps, Webhook(0, Refused), OneRefund(Failed, true, Refused, MarkingRefunded, Paid, 0));
    steps := OneMoves(steps, Advance(0, SaidPending), OneRefund(Failed, true, Refused, Finished, Refunded, 0));
  }

  /* ------------------------------------------------------------------ *
   * The functions as the code runs them, uninterrupted
   * ------------------------------------------------------------------ */

  datatype RefundError =
    | ReasonRequired
    | InvalidAmount
    | NotFound
    | NotRefundable
    | NoPaymentReference
    | ExceedsOrderTotal
    | RefundInProgress
    | ProviderRefused
    | RefundUnconfirmed
    | RefundFailed

  datatype IssueResult = Issued(id: RefundId, status: RefundStatus) | Error(error: RefundError)

  datatype SettleResult = Applied(status: RefundStatus) | UnknownRefund | AlreadySettled | StillPending

  /** Why `issueRefund` refuses before claiming anything, in the code's order. */
  function Refusal(orders: seq<Order>, o: OrderId, amount: int, reasonLength: nat): Option<RefundError> {
    if reasonLength < 3 then Some(ReasonRequired)
    else if amount < 1 then Some(InvalidAmount)
    else if o >= |orders| then Some(NotFound)
    else if orders[o].status != Paid then Some(NotRefundable)
    else if !orders[o].hasIntent then Some(NoPaymentReference)
    else if orders[o].refundedCents + amount > orders[o].subtotalCents then Some(ExceedsOrderTotal)
    else None
  }

  /** The books after one accepted refund that nothing interrupts. */
  function IssuedBooks(b: Books, o: OrderId, amount: int, answer: Answer): Books
    requires o < |b.orders|
  {
    var before := b.orders[o];
    var claimed := before.refundedCents + amount;
    var kept := b.orders[o := before.(refundedCents := claimed)];
    var settled := if claimed < before.subtotalCents then kept
                   else b.orders[o := before.(refundedCents := claimed, status := Refunded)];
    var provider := b.provider + [ProviderAfter(o, amount, answer)];
    match answer
    case SaidSucceeded => Books(settled, b.refunds + [Refund(o, amount, Succeeded, true)], provider)
    case SaidPending => Books(settled, b.refunds + [Refund(o, amount, Pending, true)], provider)
    case Unconfirmed(_) => Books(kept, b.refunds + [Refund(o, amount, Pending, false)], provider)
    case _ => Books(b.orders, b.refunds + [Refund(o, amount, Failed, false)], provider)
  }

  /** What an accepted refund leaves, by the provider's answer. The amount stays claimed unless
      the provider refused or certainly never heard; the row says what is known; the order is
      REFUNDED only if the provider took the refund on and nothing is left; and what the
      provider holds is what it said, or after silence whatever it holds. */
  lemma IssuedMeans(b: Books, o: OrderId, amount: int, answer: Answer)
    requires o < |b.orders| && b.orders[o].status == Paid
    ensures var after, n := IssuedBooks(b, o, amount, answer), |b.refunds|;
            var taken := answer == SaidSucceeded || answer == SaidPending;
            var kept := taken || answer.Unconfirmed?;
            var claimed := b.orders[o].refundedCents + amount;
            && after.orders == b.orders[o := b.orders[o].(
                 refundedCents := if kept then claimed else b.orders[o].refundedCents,
                 status := if taken && claimed >= b.orders[o].subtotalCents then Refunded else Paid)]
            && |after.refunds| == n + 1 && after.refunds[..n] == b.refunds
            && after.refunds[n] == Refund(o, amount,
                 if answer == SaidSucceeded then Succeeded else if kept then Pending else Failed, taken)
            && |after.provider| == |b.provider| + 1 && after.provider[..|b.provider|] == b.provider
            && after.provider[|b.provider|]
               == (match answer
                   case SaidSucceeded => Held(o, amount, Returned)
                   case SaidPending => Held(o, amount, Undecided)
                   case SaidFailed => Held(o, amount, Refused)
                   case Threw => NotSeen
                   case Unconfirmed(None) => NotSeen
                   case Unconfirmed(Some(d)) => Held(o, amount, d))
  {
    assert b.orders[o := b.orders[o]] == b.orders;
  }

  /** Each refusal, the first that applies, and the same conditions as the check of the machine. */
  lemma RefusalsMean(orders: seq<Order>, o: OrderId, amount: int, reasonLength: nat)
    ensures var why := Refusal(orders, o, amount, reasonLength);
            var asked := reasonLength >= 3 && amount >= 1 && o < |orders|;
            && (why == Some(ReasonRequired) <==> reasonLength < 3)
            && (why == Some(InvalidAmount) <==> reasonLength >= 3 && amount < 1)
            && (why == Some(NotFound) <==> reasonLength >= 3 && amount >= 1 && o >= |orders|)
            && (asked ==>
                  var order := orders[o];
                  && (why == Some(NotRefundable) <==> order.status != Paid)
                  && (why == Some(NoPaymentReference) <==> order.status == Paid && !order.hasIntent)
                  && (why == Some(ExceedsOrderTotal)
                      <==> && order.status == Paid && order.hasIntent
                           && amount > order.subtotalCents - order.refundedCents)
                  && (why == None <==> PassesChecks(order, amount)))
  {
  }

  function StatementsLeft(stage: Stage): nat {
    match stage
    case Checked => 7
    case Claimed => 6
    case Recorded(_) => 5
    case Answered(_, _) => 4
    case Settled => 3
    case MarkingRefunded => 2
    case Releasing => 2
    case Finished => 0
  }

  /** The statements of one call run back to back. */
  ghost function RunToEnd(b: Books, c: Call, answer: Answer): Books
    requires BooksWellFormed(b) && c.order < |b.orders|
    requires c.stage.Recorded? || c.stage.Answered? ==> c.stage.id < |b.refunds|
    decreases StatementsLeft(c.stage)
  {
    if c.stage == Finished then b
    else
      var (b', stage) := AdvanceCall(b, c, answer);
      RunToEnd(b', c.(stage := stage), answer)
  }

  lemma RecordedCallRunsToEnd(b: Books, o: OrderId, amount: int, answer: Answer)
    requires BooksWellFormed(b) && o < |b.orders| && HasHeadroom(b.orders[o], amount)
    ensures BooksWellFormed(RecordPending(ClaimHeadroom(b, o, amount), o, amount))
    ensures RunToEnd(b, Call(o, amount, Checked), answer)
            == RunToEnd(CallProvider(RecordPending(ClaimHeadroom(b, o, amount), o, amount), |b.refunds|, answer),
                        Call(o, amount, Answered(|b.refunds|, answer)), answer)
  {
    var claimed := ClaimHeadroom(b, o, amount);
    var recorded := RecordPending(claimed, o, amount);
    assert RunToEnd(b, Call(o, amount, Checked), answer) == RunToEnd(claimed, Call(o, amount, Claimed), answer);
    assert RunToEnd(claimed, Call(o, amount, Claimed), answer)
        == RunToEnd(recorded, Call(o, amount, Recorded(|b.refunds|)), answer);
  }

  /** The interleaved machine and the uninterrupted function agree: a call that
      passes its checks and runs alone leaves exactly `IssuedBooks`. */
  lemma CallAloneIssues(b: Books, o: OrderId, amount: int, answer: Answer)
    requires BooksWellFormed(b) && o < |b.orders| && PassesChecks(b.orders[o], amount)
    requires 0 <= b.orders[o].refundedCents
    ensures RunToEnd(b, Call(o, amount, Checked), answer) == IssuedBooks(b, o, amount, answer)
  {
    RecordedCallRunsToEnd(b, o, amount, answer);
    var id := |b.refunds|;
    var answered := CallProvider(RecordPending(ClaimHeadroom(b, o, amount), o, amount), id, answer);
    var (settled, stage) := AdvanceCall(answered, Call(o, amount, Answered(id, answer)), answer);
    var (last, stage') := AdvanceCall(settled, Call(o, amount, stage), answer);
    var out := RunToEnd(settled, Call(o, amount, stage), answer);
    assert RunToEnd(answered, Call(o, amount, Answered(id, answer)), answer) == out;
    assert out == RunToEnd(last, Call(o, amount, stage'), answer);
    assert stage' == MarkingRefunded ==>
      RunToEnd(last, Call(o, amount, stage'), answer) == SetStatus(last, o, Refunded);
    assert b.orders[o := b.orders[o]] == b.orders;
  }

  class RefundDesk {
    var orders: seq<Order>
    var refunds: seq<Refund>
    var provider: seq<ProviderSide>

    ghost function View(): Books
      reads this
    {
      Books(orders, refunds, provider)
    }

    ghost predicate Valid()
      reads this
    {
      && BooksWellFormed(View())
      && forall o :: 0 <= o < |orders| ==> 0 <= orders[o].refundedCents
    }

    method ClaimRefundHeadroom(o: OrderId, amountCents: int) returns (claimed: bool)
      modifies this`orders
      ensures claimed <==> && o < |old(orders)| && old(orders)[o].status == Paid
                           && old(orders)[o].refundedCents + amountCents <= old(orders)[o].subtotalCents
      ensures orders == if claimed then old(orders)[o := old(orders)[o].(
                                          refundedCents := old(orders)[o].refundedCents + amountCents)]
                        else old(orders)
      ensures View() == if claimed then ClaimHeadroom(old(View()), o, amountCents) else old(View())
    {
      claimed := false;
      if o < |orders| && HasHeadroom(orders[o], amountCents) {
        orders := orders[o := orders[o].(refundedCents := orders[o].refundedCents + amountCents)];
        claimed := true;
      }
    }

    method ReleaseRefundHeadroom(o: OrderId, amountCents: int)
      requires o < |orders|
      modifies this`orders
      ensures View() == ReleaseHeadroom(old(View()), o, amountCents)
    {
      orders := orders[o := orders[o].(refundedCents := Max(0, orders[o].refundedCents - amountCents))];
    }

    /** One refund with nothing running beside it. `answer` is what the provider does. */
    method IssueRefund(o: OrderId, amountCents: int, reasonLength: nat, answer: Answer) returns (r: IssueResult)
      requires Valid()
      modifies this
      ensures Valid()
      ensures var refusal := Refusal(old(orders), o, amountCents, reasonLength);
              refusal.Some? ==> r == Error(refusal.value) && View() == old(View())
      ensures Refusal(old(orders), o, amountCents, reasonLength) == None ==>
                && View() == IssuedBooks(old(View()), o, amountCents, answer)
                && r == match answer {
                     case SaidSucceeded => Issued(|old(refunds)|, Succeeded)
                     case SaidPending => Issued(|old(refunds)|, Pending)
                     case SaidFailed => Error(ProviderRefused)
                     case Threw => Error(RefundFailed)
                     case Unconfirmed(_) => Error(RefundUnconfirmed)
                   }
    {
      if reasonLength < 3 { return Error(ReasonRequired); }
      if amountCents < 1 { return Error(InvalidAmount); }
      if o >= |orders| { return Error(NotFound); }
      if orders[o].status != Paid { return Error(NotRefundable); }
      if !orders[o].hasIntent { return Error(NoPaymentReference); }
      if orders[o].refundedCents + amountCents > orders[o].subtotalCents { return Error(ExceedsOrderTotal); }

      var claimed := ClaimRefundHeadroom(o, amountCents);
      if !claimed { return Error(RefundInProgress); }

      var id := |refunds|;
      refunds := refunds + [Refund(o, amountCents, Pending, false)];
      provider := provider + [ProviderAfter(o, amountCents, answer)];

      if answer.Unconfirmed? { return Error(RefundUnconfirmed); }
      if answer.SaidFailed? || answer.Threw? {
        refunds := refunds[id := refunds[id].(status := Failed)];
        ReleaseRefundHeadroom(o, amountCents);
        return Error(if answer.Threw? then RefundFailed else ProviderRefused);
      }

      var status := if answer.SaidSucceeded? then Succeeded else Pending;
      refunds := refunds[id := refunds[id].(status := status, hasProviderId := true)];
      if orders[o].refundedCents >= orders[o].subtotalCents {
        orders := orders[o := orders[o].(status := Refunded)];
      }
      return Issued(id, status);
    }

    method SettleRefundFromProvider(id: RefundId, decision: Decision) returns (r: SettleResult)
      requires Valid()
      modifies this
      ensures Valid()
      ensures r == (if id >= |old(refunds)| || !old(refunds)[id].hasProviderId then UnknownRefund
                    else if old(refunds)[id].status != Pending then AlreadySettled
                    else if decision == Undecided then StillPending
                    else Applied(if decision == Returned then Succeeded else Failed))
      ensures View() == if id < |old(refunds)| then SettleFromProvider(old(View()), id, decision) else old(View())
      ensures !r.Applied? ==> View() == old(View())
      ensures r.Applied? ==>
                var row := old(refunds)[id];
                var prior, next := old(orders)[row.order], orders[row.order];
                && provider == old(provider)
                && refunds == old(refunds)[id := row.(status := if decision == Returned then Succeeded else Failed)]
                && |orders| == |old(orders)|
                && (forall o :: 0 <= o < |orders| && o != row.order ==> orders[o] == old(orders)[o])
                && next == prior.(status := next.status, refundedCents := next.refundedCents)
                && (decision == Returned ==>
                      && next.refundedCents == prior.refundedCents
                      && next.status == if prior.refundedCents >= prior.subtotalCents then Refunded else prior.status)
                && (decision == Refused ==>
                      && next.refundedCents == (if prior.refundedCents >= row.amountCents
                                                then prior.refundedCents - row.amountCents else 0)
                      && next.status == if prior.status == Refunded && next.refundedCents < next.subtotalCents
                                        then Paid else prior.status)
    {
      if id >= |refunds| || !refunds[id].hasProviderId { return UnknownRefund; }
      var row := refunds[id];
      if row.status != Pending { return AlreadySettled; }
      if decision == Undecided { return StillPending; }

      if decision == Returned {
        refunds := refunds[id := row.(status := Succeeded)];
        var after := orders[row.order];
        if after.refundedCents >= after.subtotalCents && after.status != Refunded {
          orders := orders[row.order := after.(status := Refunded)];
        }
        return Applied(Succeeded);
      }

      refunds := refunds[id := row.(status := Failed)];
      ReleaseRefundHeadroom(row.order, row.amountCents);
      var unwound := orders[row.order];
      if unwound.status == Refunded && unwound.refundedCents < unwound.subtotalCents {
        orders := orders[row.order := unwound.(status := Paid)];
      }
      return Applied(Failed);
    }
  }
}
