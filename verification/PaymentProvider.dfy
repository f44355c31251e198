/** The stub payment provider (backend/src/lib/paymentProvider.ts): a state machine of
intents, with every mutating call under an idempotency key. */
module PaymentProvider {
  import opened Tables
  import opened IntentState

  type OrderId = nat
  type RefundId = nat

  /** Keys are derived from the order or the refund row, never random. */
  type OrderKey = OrderId
  type RefundKey = RefundId

  datatype Intent = Intent(key: OrderKey, amountCents: int, status: IntentStatus)

  /** What the last four digits script. */
  datatype Card = Works | Declined | NeedsAuthentication

  /** `normaliseCardNumber` drops everything that is not a digit. */
  function Digits(number: string): string {
    if |number| == 0 then ""
    else Digits(number[..|number| - 1])
         + if '0' <= number[|number| - 1] <= '9' then [number[|number| - 1]] else []
  }

  predicate IsDigit(c: char) { c in "0123456789" }

  lemma {:induction false} DigitsStay(number: string)
    requires forall c <- number :: IsDigit(c)
    ensures Digits(number) == number
  {
    if |number| > 0 {
      var init, last := number[..|number| - 1], number[|number| - 1];
      DigitsStay(init);
      assert IsDigit(last) && number == init + [last];
    }
  }

  /** Whatever separates the digits of a card number does not count. */
  lemma {:induction false} SeparatorsDoNotCount(number: string, separator: char, rest: string)
    requires !IsDigit(separator)
    ensures Digits(number + [separator] + rest) == Digits(number + rest)
  {
    var spaced, plain := number + [separator] + rest, number + rest;
    if |rest| > 0 {
      var init := rest[..|rest| - 1];
      SeparatorsDoNotCount(number, separator, init);
      assert spaced[..|spaced| - 1] == number + [separator] + init;
      assert plain[..|plain| - 1] == number + init;
    } else {
      assert spaced[..|spaced| - 1] == number == plain;
    }
  }

  predicate LooksLikeCard(digits: string) { 12 <= |digits| <= 19 }

  function CardOf(digits: string): Card
    requires LooksLikeCard(digits)
  {
    var last4 := digits[|digits| - 4..];
    if last4 == "3155" then NeedsAuthentication
    else if last4 in {"0002", "0069", "0119"} then Declined
    else Works
  }

  /** A resolved intent stays resolved; a declined one can be tried with another card. */
  function Confirmed(status: IntentStatus, card: Card): IntentStatus {
    if status in {Succeeded, Canceled, NeedsAction} then status
    else match card
      case Works => Succeeded
      case Declined => NeedsMethod
      case NeedsAuthentication => NeedsAction
  }

  /** `charges` is history: an entry each time a card was charged. */
  datatype Ledger = Ledger(
    intents: seq<Intent>,
    byKey: map<OrderKey, IntentId>,
    refunds: map<RefundKey, IntentId>,
    charges: seq<IntentId>)

  datatype Call =
    | Create(key: OrderKey, amountCents: int)
    | Confirm(intent: IntentId, card: Card)
    | Cancel(intent: IntentId)
    | Refund(intent: IntentId, key: RefundKey, amountCents: int)

  const EmptyLedger := Ledger([], map[], map[], [])

  function SetIntent(l: Ledger, i: IntentId, status: IntentStatus): Ledger
    requires i < |l.intents|
  {
    l.(intents := l.intents[i := l.intents[i].(status := status)],
       charges := if status == Succeeded && l.intents[i].status != Succeeded then l.charges + [i] else l.charges)
  }

  function Do(l: Ledger, call: Call): Ledger {
    match call
    case Create(key, amount) =>
      if amount < 1 || key in l.byKey then l
      else l.(intents := l.intents + [Intent(key, amount, Unconfirmed)], byKey := l.byKey[key := |l.intents|])
    case Confirm(i, card) =>
      if i < |l.intents| then SetIntent(l, i, Confirmed(l.intents[i].status, card)) else l
    case Cancel(i) => if i < |l.intents| then SetIntent(l, i, AfterCancel(l.intents[i].status)) else l
    case Refund(i, key, amount) =>
      if amount >= 1 && i < |l.intents| && l.intents[i].status == Succeeded && key !in l.refunds
      then l.(refunds := l.refunds[key := i]) else l
  }

  function Occurrences(charges: seq<IntentId>, i: IntentId): nat {
    if |charges| == 0 then 0
    else Occurrences(charges[..|charges| - 1], i) + if charges[|charges| - 1] == i then 1 else 0
  }

  /** Every intent answers to its own key and no other, and was charged once exactly if it succeeded. */
  ghost predicate Inv(l: Ledger) {
    && (forall i :: 0 <= i < |l.intents| ==>
          && l.intents[i].amountCents >= 1
          && l.intents[i].key in l.byKey && l.byKey[l.intents[i].key] == i)
    && (forall key <- l.byKey :: l.byKey[key] < |l.intents| && l.intents[l.byKey[key]].key == key)
    && (forall i: nat :: Occurrences(l.charges, i)
                         == if i < |l.intents| && l.intents[i].status == Succeeded then 1 else 0)
    && (forall key <- l.refunds :: l.refunds[key] < |l.intents| && l.intents[l.refunds[key]].status == Succeeded)
  }

  lemma OneMoreCharge(charges: seq<IntentId>, i: IntentId, j: IntentId)
    ensures Occurrences(charges + [i], j) == Occurrences(charges, j) + if i == j then 1 else 0
  {
    assert (charges + [i])[..|charges|] == charges;
  }

  lemma SettingKeepsInv(l: Ledger, i: IntentId, status: IntentStatus)
    requires Inv(l) && i < |l.intents| && (l.intents[i].status == Succeeded ==> status == Succeeded)
    ensures Inv(SetIntent(l, i, status))
  {
    forall j: nat ensures Occurrences(l.charges + [i], j) == Occurrences(l.charges, j) + if i == j then 1 else 0 {
      OneMoreCharge(l.charges, i, j);
    }
  }

  lemma CallKeepsInv(l: Ledger, call: Call)
    requires Inv(l)
    ensures Inv(Do(l, call))
  {
    match call {
      case Confirm(i, card) => if i < |l.intents| { SettingKeepsInv(l, i, Confirmed(l.intents[i].status, card)); }
      case Cancel(i) => if i < |l.intents| { SettingKeepsInv(l, i, AfterCancel(l.intents[i].status)); }
      case _ =>
    }
  }

  function Run(calls: seq<Call>): Ledger {
    if |calls| == 0 then EmptyLedger else Do(Run(calls[..|calls| - 1]), calls[|calls| - 1])
  }

  lemma {:induction false} RunKeepsInv(calls: seq<Call>)
    ensures Inv(Run(calls))
  {
    if |calls| > 0 {
      RunKeepsInv(calls[..|calls| - 1]);
      CallKeepsInv(Run(calls[..|calls| - 1]), calls[|calls| - 1]);
    }
  }

  /** However often an order's payment is created, confirmed, retried and cancelled, it
      has one intent and is charged at most once, exactly if that intent succeeded. */
  lemma ChargedAtMostOnce(calls: seq<Call>, i: IntentId, j: IntentId)
    requires i < |Run(calls).intents| && j < |Run(calls).intents|
    ensures var l := Run(calls);
            && (l.intents[i].key == l.intents[j].key ==> i == j)
            && Occurrences(l.charges, i) == if l.intents[i].status == Succeeded then 1 else 0
  {
    RunKeepsInv(calls);
  }

  predicate Resolved(status: IntentStatus) { status in {Succeeded, Canceled} }

  lemma CallKeepsResolved(l: Ledger, call: Call, i: IntentId)
    requires i < |l.intents|
    ensures i < |Do(l, call).intents|
    ensures var before, after := l.intents[i], Do(l, call).intents[i];
            && after.key == before.key && after.amountCents == before.amountCents
            && (before.status == Succeeded ==> after.status == Succeeded)
            && (before.status == Canceled ==> after.status == Canceled)
  {
  }

  lemma RunOneMore(calls: seq<Call>, call: Call)
    ensures Run(calls + [call]) == Do(Run(calls), call)
  {
    assert (calls + [call])[..|calls|] == calls;
  }

  ghost predicate Continues(before: Intent, after: Intent) {
    && after.key == before.key && after.amountCents == before.amountCents
    && (Resolved(before.status) ==> after.status == before.status)
  }

  lemma {:induction false} IntentContinues(calls: seq<Call>, more: seq<Call>, i: IntentId)
    requires i < |Run(calls).intents|
    ensures i < |Run(calls + more).intents| && Continues(Run(calls).intents[i], Run(calls + more).intents[i])
    decreases |more|
  {
    if |more| == 0 {
      assert calls + more == calls;
    } else {
      var init, last := more[..|more| - 1], more[|more| - 1];
      IntentContinues(calls, init, i);
      LastStep(calls, more);
      RunOneMore(calls + init, last);
      CallKeepsResolved(Run(calls + init), last, i);
    }
  }

  /** A resolved intent stays resolved, at its own amount: what is cancelled is never
      charged later, and what is paid is never cancelled. */
  lemma ResolvedStays(calls: seq<Call>, more: seq<Call>, i: IntentId)
    requires i < |Run(calls).intents|
    ensures i < |Run(calls + more).intents| && Continues(Run(calls).intents[i], Run(calls + more).intents[i])
    ensures Run(calls).intents[i].status == Canceled ==> Occurrences(Run(calls + more).charges, i) == 0
    ensures Run(calls).intents[i].status == Succeeded ==> Occurrences(Run(calls + more).charges, i) == 1
  {
    IntentContinues(calls, more, i);
    ChargedAtMostOnce(calls + more, i, i);
  }

  predicate OpenToPay(status: IntentStatus) { status in {Unconfirmed, NeedsMethod, InProcess} }

  /** A card charges an intent exactly if the intent is open and the card works, by adding one
      charge; a declined one leaves it open to another card, and one that must be
      authenticated takes it out of reach of any card. Nothing else moves. */
  lemma CardsDecide(l: Ledger, i: IntentId, card: Card, next: Card)
    requires i < |l.intents|
    ensures var after := Do(l, Confirm(i, card));
            var was, becomes := l.intents[i], after.intents[i];
            && |after.intents| == |l.intents| && after.byKey == l.byKey && after.refunds == l.refunds
            && (forall j :: 0 <= j < |l.intents| && j != i ==> after.intents[j] == l.intents[j])
            && becomes.key == was.key && becomes.amountCents == was.amountCents
            && (!OpenToPay(was.status) ==> after == l)
            && (OpenToPay(was.status) && card == Works ==>
                  becomes.status == Succeeded && after.charges == l.charges + [i])
            && (OpenToPay(was.status) && card == Declined ==>
                  && becomes.status == NeedsMethod && after.charges == l.charges
                  && Do(after, Confirm(i, Works)).intents[i].status == Succeeded)
            && (OpenToPay(was.status) && card == NeedsAuthentication ==>
                  && becomes.status == NeedsAction && after.charges == l.charges
                  && Do(after, Confirm(i, next)) == after)
  {
    var after := Do(l, Confirm(i, card));
    var was, becomes := l.intents[i], after.intents[i];
    if !OpenToPay(was.status) {
      assert becomes == was && l.intents[i := was] == l.intents;
    } else if card == NeedsAuthentication {
      assert becomes.(status := NeedsAction) == becomes && after.intents[i := becomes] == after.intents;
    }
  }

  /** A refund is only ever recorded against a payment that went through, and a retry
      under the same key changes nothing. */
  lemma RefundsFollowPayments(calls: seq<Call>, i: IntentId, key: RefundKey, amount: int)
    ensures var l, after := Run(calls), Do(Run(calls), Refund(i, key, amount));
            && (forall k <- after.refunds :: after.refunds[k] < |after.intents|
                                             && Occurrences(after.charges, after.refunds[k]) == 1)
            && Do(after, Refund(i, key, amount)) == after
            && (key in l.refunds ==> after == l)
  {
    RunKeepsInv(calls);
    CallKeepsInv(Run(calls), Refund(i, key, amount));
  }

  datatype CreateResult = Created(intent: IntentId, amountCents: int) | AmountRefused

  datatype ConfirmResult = Answered(outcome: Outcome) | NotACard | UnknownIntent

  datatype RefundResult = RefundSucceeded | AmountInvalid | NothingToRefund | Indeterminate

  class StubProvider {
    var intents: seq<Intent>
    var byKey: map<OrderKey, IntentId>
    var refunds: map<RefundKey, IntentId>
    ghost var charges: seq<IntentId>

    ghost function View(): Ledger
      reads this
    {
      Ledger(intents, byKey, refunds, charges)
    }

    method CreateIntent(key: OrderKey, amountCents: int) returns (r: CreateResult)
      requires Inv(View())
      modifies this
      ensures View() == Do(old(View()), Create(key, amountCents)) && Inv(View())
      ensures charges == old(charges) && refunds == old(refunds)
      ensures amountCents < 1 ==> r == AmountRefused && intents == old(intents) && byKey == old(byKey)
      ensures amountCents >= 1 && key in old(byKey) ==>
                && r == Created(old(byKey)[key], old(intents)[old(byKey)[key]].amountCents)
                && intents == old(intents) && byKey == old(byKey)
      ensures amountCents >= 1 && key !in old(byKey) ==>
                && r == Created(|old(intents)|, amountCents)
                && intents == old(intents) + [Intent(key, amountCents, Unconfirmed)]
                && byKey == old(byKey)[key := |old(intents)|]
    {
      CallKeepsInv(View(), Create(key, amountCents));
      if amountCents < 1 { return AmountRefused; }
      if key in byKey {
        var existing := byKey[key];
        return Created(existing, intents[existing].amountCents);
      }
      var id := |intents|;
      intents := intents + [Intent(key, amountCents, Unconfirmed)];
      byKey := byKey[key := id];
      return Created(id, amountCents);
    }

    method ConfirmIntent(i: IntentId, cardNumber: string) returns (r: ConfirmResult)
      modifies this
      ensures !LooksLikeCard(Digits(cardNumber)) ==> r == NotACard && View() == old(View())
      ensures LooksLikeCard(Digits(cardNumber)) ==>
                && View() == Do(old(View()), Confirm(i, CardOf(Digits(cardNumber))))
                && r == if i >= |old(intents)| then UnknownIntent else Answered(OutcomeOf(intents[i].status))
      ensures LooksLikeCard(Digits(cardNumber)) && i < |old(intents)| ==>
                var was, last4 := old(intents)[i].status, Digits(cardNumber)[|Digits(cardNumber)| - 4..];
                && (was == Succeeded ==> r == Answered(PaymentSucceeded) && View() == old(View()))
                && (was == Canceled ==> r == Answered(PaymentFailed) && View() == old(View()))
                && (was == NeedsAction ==> r == Answered(PaymentPending) && View() == old(View()))
                && (was !in {Succeeded, Canceled, NeedsAction} ==>
                      && r == Answered(if last4 == "3155" then PaymentPending
                                       else if last4 in {"0002", "0069", "0119"} then PaymentFailed
                                       else PaymentSucceeded)
                      && intents == old(intents)[i := old(intents)[i].(
                           status := if last4 == "3155" then NeedsAction
                                     else if last4 in {"0002", "0069", "0119"} then NeedsMethod else Succeeded)]
                      && charges == old(charges) + if r == Answered(PaymentSucceeded) then [i] else [])
    {
      var digits := Digits(cardNumber);
      if |digits| < 12 || |digits| > 19 { return NotACard; }
      if i >= |intents| { return UnknownIntent; }
      var intent := intents[i];
      assert intents[i := intent] == intents;
      match intent.status {
        case Succeeded => return Answered(PaymentSucceeded);
        case Canceled => return Answered(PaymentFailed);
        case NeedsAction => return Answered(PaymentPending);
        case _ =>
      }
      match CardOf(digits)
      case Works =>
        intents := intents[i := intent.(status := Succeeded)];
        charges := charges + [i];
        return Answered(PaymentSucceeded);
      case NeedsAuthentication =>
        intents := intents[i := intent.(status := NeedsAction)];
        return Answered(PaymentPending);
      case Declined =>
        intents := intents[i := intent.(status := NeedsMethod)];
        return Answered(PaymentFailed);
    }

    method GetIntent(i: IntentId) returns (r: Option<Outcome>)
      ensures r == if i < |intents| then Some(OutcomeOf(intents[i].status)) else None
      ensures r == Some(PaymentSucceeded) <==> i < |intents| && intents[i].status == Succeeded
      ensures r == Some(PaymentPending) <==> i < |intents| && intents[i].status in {NeedsAction, InProcess}
    {
      if i >= |intents| { return None; }
      var status := intents[i].status;
      return Some(if status == Succeeded then PaymentSucceeded
                  else if status == NeedsAction || status == InProcess then PaymentPending
                  else PaymentFailed);
    }

    method CancelIntent(i: IntentId)
      modifies this
      ensures View() == Do(old(View()), Cancel(i))
      ensures intents == if i < |old(intents)| && old(intents)[i].status != Succeeded
                         then old(intents)[i := old(intents)[i].(status := Canceled)] else old(intents)
      ensures byKey == old(byKey) && refunds == old(refunds) && charges == old(charges)
    {
      if i >= |intents| { return; }
      if intents[i].status == Succeeded {
        assert intents[i := intents[i]] == intents;
        return;
      }
      intents := intents[i := intents[i].(status := Canceled)];
    }

    method RefundIntent(i: IntentId, key: RefundKey, amountCents: int) returns (r: RefundResult)
      modifies this
      ensures View() == Do(old(View()), Refund(i, key, amountCents))
      ensures r == (if amountCents < 1 then AmountInvalid
                    else if i >= |old(intents)| then Indeterminate
                    else if old(intents)[i].status != Succeeded then NothingToRefund
                    else RefundSucceeded)
      ensures refunds == if r == RefundSucceeded && key !in old(refunds) then old(refunds)[key := i] else old(refunds)
      ensures intents == old(intents) && byKey == old(byKey) && charges == old(charges)
    {
      if amountCents < 1 { return AmountInvalid; }
      if i >= |intents| { return Indeterminate; }
      if intents[i].status != Succeeded { return NothingToRefund; }
      if key in refunds { return RefundSucceeded; }
      refunds := refunds[key := i];
      return RefundSucceeded;
    }
  }
}
