/** The stub payout provider in place of the keyed one (backend/src/lib/payoutProvider.ts,
`transfer`), under the machine of `Payouts`.

A keyed provider answers a repeated transfer with the one it made. The stub writes its entry
afresh, so it forgets what of the transfer was reversed in between.
*/
module StubPayouts {
  import opened Tables
  import opened Payouts

  /** The stub's `transfer`: it refuses only an empty amount, and always answers. */
  function StubTransfer(p: Payout, amountCents: int): (Transfer, SendStage) {
    if amountCents <= 0 then (p.transfer, Failing) else (Sent(amountCents, 0), Confirming)
  }

  function StubAdvance(p: Payout, stage: SendStage, answer: SendAnswer): (Payout, SendStage) {
    if stage.Transferring? then
      var (transfer, next) := StubTransfer(p, stage.amountCents);
      (p.(transfer := transfer), next)
    else AdvanceSender(p, stage, answer)
  }

  /** One step against the stub. Reversals are as with any provider. */
  ghost function StubDo(s: State, step: Step): State
    requires WellFormed(s)
  {
    if step.AdvanceSend? && step.sender < |s.senders| then
      var sender := s.senders[step.sender];
      var (payout, stage) := StubAdvance(s.books.payouts[sender.payout], sender.stage, step.sendAnswer);
      s.(books := s.books.(payouts := s.books.payouts[sender.payout := payout]),
         senders := s.senders[step.sender := sender.(stage := stage)])
    else Do(s, step)
  }

  ghost function StubRun(steps: seq<Step>): (s: State)
    ensures WellFormed(s)
  {
    if |steps| == 0 then EmptyState
    else
      var before, last := StubRun(steps[..|steps| - 1]), steps[|steps| - 1];
      StubKeepsWellFormed(before, last);
      StubDo(before, last)
  }

  lemma StubKeepsWellFormed(s: State, step: Step)
    requires WellFormed(s)
    ensures WellFormed(StubDo(s, step))
  {
    if !step.AdvanceSend? {
      StepKeepsWellFormed(s, step);
    }
  }

  /** The script the stub follows: it accepts every transfer. */
  predicate AllAccepted(steps: seq<Step>) {
    forall k :: 0 <= k < |steps| && steps[k].AdvanceSend? ==> steps[k].sendAnswer == Accept
  }

  /** This step repeats the transfer of a payout of which something was reversed. */
  predicate RepeatsReversed(s: State, step: Step) {
    && step.AdvanceSend? && step.sender < |s.senders| && s.senders[step.sender].stage.Transferring?
    && s.senders[step.sender].payout < |s.books.payouts|
    && s.books.payouts[s.senders[step.sender].payout].transfer.Sent?
    && s.books.payouts[s.senders[step.sender].payout].transfer.reversedCents > 0
  }

  ghost predicate NeverRepeatsReversed(steps: seq<Step>) {
    |steps| > 0 ==>
      var before, last := steps[..|steps| - 1], steps[|steps| - 1];
      NeverRepeatsReversed(before) && !RepeatsReversed(Run(before), last)
  }

  /** The same state after every step of the run. */
  ghost predicate AgreeThroughout(steps: seq<Step>) {
    && StubRun(steps) == Run(steps)
    && (|steps| > 0 ==> AgreeThroughout(steps[..|steps| - 1]))
  }

  ghost predicate NoneDeclined(s: State) {
    forall p <- s.books.payouts :: p.transfer != Declined
  }

  lemma StepDeclinesNone(s: State, step: Step)
    requires Claims(s) && NoneDeclined(s) && (step.AdvanceSend? ==> step.sendAnswer == Accept)
    ensures NoneDeclined(Do(s, step))
  {
    var payouts, payouts' := s.books.payouts, Do(s, step).books.payouts;
    forall k | 0 <= k < |payouts'| ensures payouts'[k].transfer != Declined {
      assert k < |payouts| ==> payouts[k] in payouts;
      if step.AdvanceSend? && step.sender < |s.senders| && s.senders[step.sender].payout == k {
        assert SenderOk(payouts[k], s.senders[step.sender].stage);
      }
    }
  }

  lemma {:induction false} AcceptedDeclinesNone(steps: seq<Step>)
    requires AllAccepted(steps)
    ensures NoneDeclined(Run(steps))
  {
    if |steps| > 0 {
      var before := steps[..|steps| - 1];
      AcceptedDeclinesNone(before);
      RunKeepsInv(before);
      StepDeclinesNone(Run(before), steps[|steps| - 1]);
    }
  }

  /** One accepted transfer: stub and keyed provider part ways exactly on a repeat of one of
      which something was reversed. */
  lemma StepAgrees(s: State, step: Step)
    requires Claims(s) && NoneDeclined(s) && (step.AdvanceSend? ==> step.sendAnswer == Accept)
    ensures StubDo(s, step) == Do(s, step) <==> !RepeatsReversed(s, step)
  {
    if step.AdvanceSend? && step.sender < |s.senders| {
      var i, p := step.sender, s.senders[step.sender].payout;
      var payout := s.books.payouts[p];
      assert payout in s.books.payouts && PayoutOk(payout) && SenderOk(payout, s.senders[i].stage);
      if RepeatsReversed(s, step) {
        assert StubDo(s, step).books.payouts[p].transfer != Do(s, step).books.payouts[p].transfer;
      }
    }
  }

  /** Over every schedule of claims, senders and clawbacks whose transfers are accepted, the
      stub leaves what the keyed provider leaves, at every step, if and only if no transfer is
      repeated after something of it was reversed. */
  lemma {:induction false} StubAgreesIffNoReversedRepeat(steps: seq<Step>)
    requires AllAccepted(steps)
    ensures AgreeThroughout(steps) <==> NeverRepeatsReversed(steps)
  {
    if |steps| > 0 {
      var before, last := steps[..|steps| - 1], steps[|steps| - 1];
      StubAgreesIffNoReversedRepeat(before);
      if AgreeThroughout(before) {
        RunKeepsInv(before);
        AcceptedDeclinesNone(before);
        StepAgrees(Run(before), last);
      }
    }
  }

  /* ------------------------------------------------------------------ *
   * It does happen
   * ------------------------------------------------------------------ */

  lemma OneMore(steps: seq<Step>, step: Step)
    ensures Run(steps + [step]) == Do(Run(steps), step)
    ensures StubRun(steps + [step]) == StubDo(StubRun(steps), step)
  {
    assert (steps + [step])[..|steps|] == steps;
  }

  /** So far the two providers agree. */
  ghost predicate BothAt(steps: seq<Step>, s: State) {
    AllAccepted(steps) && Run(steps) == s && StubRun(steps) == s
  }

  lemma Both(steps: seq<Step>, step: Step, s: State, s': State) returns (later: seq<Step>)
    requires WellFormed(s) && BothAt(steps, s) && Do(s, step) == StubDo(s, step) == s'
    requires step.AdvanceSend? ==> step.sendAnswer == Accept
    ensures BothAt(later, s')
  {
    OneMore(steps, step);
    later := steps + [step];
  }

  function OnePayout(status: Status, transfer: Transfer): Books {
    Books([Payout(0, 100, 0, status, status == Paid, transfer)], [Line(0, 0, 100, false)], [])
  }

  /** Two senders of one payout, by stage. */
  function TwoSenders(books: Books, first: SendStage, second: SendStage, reversals: seq<Reversal>): State {
    State(books, [Sender(0, first), Sender(0, second)], reversals, 0)
  }

  lemma OneIsClaimed() returns (steps: seq<Step>)
    ensures BothAt(steps, State(OnePayout(Pending, Unseen), [], [], 0))
  {
    SumOne(Offer(0, 100), OfferAmount());
    assert Gross([Offer(0, 100)]) == 100;
    assert Run([]) == StubRun([]) == EmptyState;
    steps := Both([], Claim(0, [Offer(0, 100)], []), EmptyState, State(OnePayout(Pending, Unseen), [], [], 0));
  }

  lemma TwoSendersStart() returns (steps: seq<Step>)
    ensures BothAt(steps, TwoSenders(OnePayout(Pending, Unseen), Loading(true), Loading(true), []))
  {
    steps := OneIsClaimed();
    var s0 := State(OnePayout(Pending, Unseen), [], [], 0);
    var s1 := s0.(senders := [Sender(0, Loading(true))]);
    steps := Both(steps, StartSend(0, true), s0, s1);
    steps := Both(steps, StartSend(0, true), s1, s1.(senders := [Sender(0, Loading(true)), Sender(0, Loading(true))]));
  }

  /** Two senders find the payout PENDING before either has sent it. */
  lemma TwoSendersLoad() returns (steps: seq<Step>)
    ensures BothAt(steps, TwoSenders(OnePayout(Pending, Unseen), Transferring(100), Transferring(100), []))
  {
    steps := TwoSendersStart();
    var b := OnePayout(Pending, Unseen);
    var s0 := TwoSenders(b, Loading(true), Loading(true), []);
    var s1 := TwoSenders(b, Transferring(100), Loading(true), []);
    steps := Both(steps, AdvanceSend(0, Accept), s0, s1);
    steps := Both(steps, AdvanceSend(1, Accept), s1, TwoSenders(b, Transferring(100), Transferring(100), []));
  }

  /** The first sends it and settles the row. */
  lemma FirstSends() returns (steps: seq<Step>)
    ensures BothAt(steps, TwoSenders(OnePayout(Paid, Sent(100, 0)), SentBy(true), Transferring(100), []))
  {
    steps := TwoSendersLoad();
    var s0 := TwoSenders(OnePayout(Pending, Unseen), Transferring(100), Transferring(100), []);
    var s1 := TwoSenders(OnePayout(Pending, Sent(100, 0)), Confirming, Transferring(100), []);
    var s2 := TwoSenders(OnePayout(Paid, Sent(100, 0)), SentBy(true), Transferring(100), []);
    steps := Both(steps, AdvanceSend(0, Accept), s0, s1);
    steps := Both(steps, AdvanceSend(0, Accept), s1, s2);
  }

  function Marked(books: Books): Books {
    books.(lines := [Line(0, 0, 100, true)])
  }

  function Recovering(books: Books, stage: ReverseStage): State {
    TwoSenders(books, SentBy(true), Transferring(100), [Reversal(0, 100, stage)])
  }

  /** A refund of its line starts a clawback. */
  lemma LineIsFound() returns (steps: seq<Step>)
    ensures BothAt(steps, Recovering(OnePayout(Paid, Sent(100, 0)), Claiming(0, 100, true)))
  {
    steps := FirstSends();
    var b, all := OnePayout(Paid, Sent(100, 0)), AdvanceReversal(0, ReverseAnswer.Back(100));
    var s0 := TwoSenders(b, SentBy(true), Transferring(100), []);
    steps := Both(steps, StartReversal(0, 100), s0, Recovering(b, Finding));
    steps := Both(steps, all, Recovering(b, Finding), Recovering(b, Claiming(0, 100, true)));
  }

  lemma LineIsClaimed() returns (steps: seq<Step>)
    ensures BothAt(steps, Recovering(Marked(OnePayout(Paid, Sent(100, 0))), Reversing(0, 100)))
  {
    steps := LineIsFound();
    var b, all := OnePayout(Paid, Sent(100, 0)), AdvanceReversal(0, ReverseAnswer.Back(100));
    steps := Both(steps, all, Recovering(b, Claiming(0, 100, true)), Recovering(Marked(b), Reversing(0, 100)));
  }

  /** And all of it comes back. */
  lemma AllComesBack() returns (steps: seq<Step>)
    ensures BothAt(steps, Recovering(Marked(OnePayout(Paid, Sent(100, 100))), Recovered(100, 0)))
  {
    steps := LineIsClaimed();
    var before, after := Marked(OnePayout(Paid, Sent(100, 0))), Marked(OnePayout(Paid, Sent(100, 100)));
    var all := AdvanceReversal(0, ReverseAnswer.Back(100));
    steps := Both(steps, all, Recovering(before, Reversing(0, 100)), Recovering(after, Recording(0, 100, 100, 0)));
    steps := Both(steps, all, Recovering(after, Recording(0, 100, 100, 0)), Recovering(after, Recovered(100, 0)));
  }

  /** Then the second transfers. The stub holds the full amount again and no reversal,
      although the clawback was told that all of it came back. */
  lemma StubForgetsReversal() returns (steps: seq<Step>)
    ensures AllAccepted(steps)
    ensures |Run(steps).books.payouts| == |StubRun(steps).books.payouts| == 1
    ensures Run(steps).books.payouts[0].transfer == Sent(100, 100)
    ensures StubRun(steps).books.payouts[0].transfer == Sent(100, 0)
    ensures StubRun(steps).reversals == [Reversal(0, 100, Recovered(100, 0))] && StubRun(steps).books.debts == []
  {
    steps := AllComesBack();
    OneMore(steps, AdvanceSend(1, Accept));
    steps := steps + [AdvanceSend(1, Accept)];
  }
}
