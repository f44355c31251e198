/** Paying sellers, and taking it back (backend/src/lib/payouts.ts from `claimPayout` on).

A payout is claimed by inserting its lines under a uniqueness constraint, sent
under an idempotency key that is its own id, and a paid line is clawed back when
its buyer is refunded. Claimers work from reads that may be stale; senders and
clawbacks are several statements each, any of which may be the last one run.
*/
module Payouts {
  import opened Tables
  import Earnings

  type SellerId = nat
  type ItemId = Earnings.ItemId
  type PayoutId = nat
  type LineId = nat
  type DebtId = nat

  datatype Status = Pending | Paid | Failed

  /** What the transfer provider holds under one payout's key. */
  datatype Transfer = Unseen | Sent(amountCents: int, reversedCents: int) | Declined

  /** `hasTransferId` says that `providerTransferId` is set; `transfer` is the other side's record. */
  datatype Payout = Payout(
    seller: SellerId,
    amountCents: int,
    nettedCents: int,
    status: Status,
    hasTransferId: bool,
    transfer: Transfer)

  datatype Line = Line(payout: PayoutId, item: ItemId, amountCents: int, reversed: bool)

  datatype Debt = Debt(seller: SellerId, amountCents: int, settled: bool)

  datatype Books = Books(payouts: seq<Payout>, lines: seq<Line>, debts: seq<Debt>)

  /** What a claimer read: the lines it found payable and the debts it found unsettled. */
  datatype Offer = Offer(item: ItemId, amountCents: nat)
  datatype SeenDebt = SeenDebt(id: DebtId, amountCents: int)

  function OfferAmount(): Offer -> int { (x: Offer) => x.amountCents }

  function SeenAmount(): SeenDebt -> int { (d: SeenDebt) => d.amountCents }

  /* ------------------------------------------------------------------ *
   * Netting debts
   * ------------------------------------------------------------------ */

  /** How many debts, oldest first, a payout of `gross` absorbs. */
  function Absorbed(debts: seq<SeenDebt>, gross: int): (n: nat)
    ensures n <= |debts|
  {
    if |debts| == 0 || debts[0].amountCents > gross then 0
    else 1 + Absorbed(debts[1..], gross - debts[0].amountCents)
  }

  lemma {:induction false} SumFirst(debts: seq<SeenDebt>)
    requires |debts| > 0
    ensures Sum(debts, SeenAmount()) == debts[0].amountCents + Sum(debts[1..], SeenAmount())
  {
    assert debts == [debts[0]] + debts[1..];
    SumConcat([debts[0]], debts[1..], SeenAmount());
    assert [debts[0]][..0] == [];
  }

  /** The debts settled are the longest oldest-first prefix that fits. */
  lemma {:induction false} AbsorbedIsLongestPrefix(debts: seq<SeenDebt>, gross: int, k: nat)
    requires k <= |debts| && 0 <= gross
    requires forall d <- debts :: 0 <= d.amountCents
    ensures Sum(debts[..k], SeenAmount()) <= gross <==> k <= Absorbed(debts, gross)
  {
    if k == 0 || |debts| == 0 {
    } else {
      var rest := debts[1..];
      SumFirst(debts[..k]);
      assert debts[..k][1..] == rest[..k - 1];
      SumNonNegative(rest[..k - 1], SeenAmount());
      if debts[0].amountCents <= gross {
        AbsorbedIsLongestPrefix(rest, gross - debts[0].amountCents, k - 1);
      }
    }
  }

  /** The loop of `claimPayout`. */
  method NetDebts(debts: seq<SeenDebt>, grossCents: int) returns (remaining: int, settling: seq<SeenDebt>)
    ensures settling == debts[..Absorbed(debts, grossCents)]
    ensures remaining == grossCents - Sum(settling, SeenAmount())
  {
    remaining := grossCents;
    settling := [];
    var k := 0;
    while k < |debts|
      invariant 0 <= k <= |debts| && settling == debts[..k]
      invariant remaining == grossCents - Sum(settling, SeenAmount())
      invariant Absorbed(debts, grossCents) == k + Absorbed(debts[k..], remaining)
    {
      var d := debts[k];
      if d.amountCents > remaining { break; }
      SumAppend(settling, d, SeenAmount());
      PrefixNext(debts, k);
      assert debts[k..][1..] == debts[k + 1..];
      remaining := remaining - d.amountCents;
      settling := settling + [d];
      k := k + 1;
    }
  }

  /* ------------------------------------------------------------------ *
   * The claim, one transaction
   * ------------------------------------------------------------------ */

  /** `updateMany … id in (settling)`. */
  function SettleDebts(debts: seq<Debt>, settling: seq<SeenDebt>): (after: seq<Debt>)
    ensures |after| == |debts|
  {
    seq(|debts|, i requires 0 <= i < |debts| =>
      if exists d <- settling :: d.id == i then debts[i].(settled := true) else debts[i])
  }

  function NewLines(offered: seq<Offer>, p: PayoutId): (lines: seq<Line>)
    ensures |lines| == |offered|
  {
    seq(|offered|, i requires 0 <= i < |offered| => Line(p, offered[i].item, offered[i].amountCents, false))
  }

  /** `payout_items.orderItemId @unique`, the guard on the insert. */
  predicate Insertable(lines: seq<Line>, offered: seq<Offer>) {
    && (forall i, j :: 0 <= i < j < |offered| ==> offered[i].item != offered[j].item)
    && (forall i, l :: 0 <= i < |offered| && 0 <= l < |lines| ==> offered[i].item != lines[l].item)
  }

  ghost predicate OneLinePerItem(lines: seq<Line>) {
    forall l, m :: 0 <= l < m < |lines| ==> lines[l].item != lines[m].item
  }

  function Gross(offered: seq<Offer>): int { Sum(offered, OfferAmount()) }

  function Settling(offered: seq<Offer>, seen: seq<SeenDebt>): seq<SeenDebt> {
    seen[..Absorbed(seen, Gross(offered))]
  }

  function Netted(offered: seq<Offer>, seen: seq<SeenDebt>): int {
    Sum(Settling(offered, seen), SeenAmount())
  }

  /** Insert the payout with its lines and settle the debts it absorbs. A payout
      that goes entirely to debt is born PAID with nothing to send. */
  function CommitClaim(b: Books, seller: SellerId, offered: seq<Offer>, seen: seq<SeenDebt>): Books {
    var netted := Netted(offered, seen);
    var remaining := Gross(offered) - netted;
    var payout := if remaining <= 0 then Payout(seller, 0, netted, Paid, false, Unseen)
                  else Payout(seller, remaining, netted, Pending, false, Unseen);
    Books(
      b.payouts + [payout],
      b.lines + NewLines(offered, |b.payouts|),
      SettleDebts(b.debts, Settling(offered, seen)))
  }

  /** Debt rows are never deleted and their amounts never change, so this is what
      any earlier read of them looks like; a row may have been settled since. */
  ghost predicate ReadOf(debts: seq<Debt>, seen: seq<SeenDebt>) {
    && (forall k :: 0 <= k < |seen| ==> seen[k].id < |debts| && debts[seen[k].id].amountCents == seen[k].amountCents)
    && (forall j, k :: 0 <= j < k < |seen| ==> seen[j].id != seen[k].id)
  }

  /** Every debt the claimer saw is still unsettled, as when `claimPayout` runs atomically. */
  ghost predicate Fresh(debts: seq<Debt>, seen: seq<SeenDebt>) {
    ReadOf(debts, seen) && forall k :: 0 <= k < |seen| ==> !debts[seen[k].id].settled
  }

  /* ------------------------------------------------------------------ *
   * Sending, and reversing: any number at once
   * ------------------------------------------------------------------ */

  /** How one provider call ends. With `NoAnswer` the provider did its part and the answer was lost. */
  datatype SendAnswer = Accept | NoAnswer | TryLater | RefuseForGood

  datatype SendStage =
    | Loading(hasAccount: bool)
    | Transferring(amountCents: int)
    | Confirming
    | Failing
    | SentBy(settled: bool)
    | NotSent

  datatype Sender = Sender(payout: PayoutId, stage: SendStage)

  /** `Back(x)` returns x cents, `Refuse` none; with `BackUnheard(x)` x cents come back but the call errors. */
  datatype ReverseAnswer = Back(cents: nat) | Refuse | BackUnheard(cents: nat)

  /** `heard` is what the call reported, `unheard` what came back without being reported. */
  datatype ReverseStage =
    | Finding
    | Claiming(line: LineId, targetCents: int, viaTransfer: bool)
    | Reversing(line: LineId, targetCents: int)
    | Recording(line: LineId, targetCents: int, heard: int, unheard: int)
    | WrittenOff(targetCents: int)
    | Recovered(targetCents: int, unheard: int)
    | NothingToReverse

  datatype Reversal = Reversal(item: ItemId, refundedCents: int, stage: ReverseStage)

  /** `overNetted` is history, not code: the amounts netted for debts that somebody
      else had already settled. */
  datatype State = State(books: Books, senders: seq<Sender>, reversals: seq<Reversal>, overNetted: int)

  datatype Step =
    | Claim(seller: SellerId, offered: seq<Offer>, seen: seq<SeenDebt>)
    | StartSend(payout: PayoutId, hasAccount: bool)
    | AdvanceSend(sender: nat, sendAnswer: SendAnswer)
    | StartReversal(item: ItemId, refundedCents: int)
    | AdvanceReversal(reversal: nat, reverseAnswer: ReverseAnswer)

  const EmptyState := State(Books([], [], []), [], [], 0)

  /** The `transfer` call under the payout's key. The provider answers consistently:
      a transfer it made it keeps answering with, and a refusal for good stays one. */
  function CallTransfer(p: Payout, amountCents: int, answer: SendAnswer): (Transfer, SendStage) {
    if amountCents <= 0 then (p.transfer, Failing)
    else if answer == TryLater then (p.transfer, NotSent)
    else if p.transfer == Declined then (Declined, if answer == NoAnswer then NotSent else Failing)
    else if p.transfer.Sent? then (p.transfer, if answer == NoAnswer then NotSent else Confirming)
    else if answer == RefuseForGood then (Declined, Failing)
    else (Sent(amountCents, 0), if answer == NoAnswer then NotSent else Confirming)
  }

  /** The next statement of `sendClaimedPayout` on its payout row. */
  function AdvanceSender(p: Payout, stage: SendStage, answer: SendAnswer): (Payout, SendStage) {
    match stage
    case Loading(hasAccount) => (p, if p.status == Pending && hasAccount then Transferring(p.amountCents) else NotSent)
    case Transferring(amount) =>
      var (transfer, next) := CallTransfer(p, amount, answer);
      (p.(transfer := transfer), next)
    case Confirming =>
      if p.status == Pending then (p.(status := Paid, hasTransferId := true), SentBy(true)) else (p, SentBy(false))
    case Failing => (if p.status == Pending then p.(status := Failed) else p, NotSent)
    case _ => (p, stage)
  }

  function LineOf(lines: seq<Line>, item: ItemId): Option<LineId> {
    if |lines| == 0 then None
    else if lines[|lines| - 1].item == item then Some(|lines| - 1)
    else LineOf(lines[..|lines| - 1], item)
  }

  /** What a reversal gets back from a transfer: never more than is left of it. */
  function Reverses(t: Transfer, targetCents: int, answer: ReverseAnswer): int {
    if !t.Sent? || answer == Refuse then 0
    else Max(0, Min(answer.cents, Min(t.amountCents - t.reversedCents, targetCents)))
  }

  /** The first read of `reverseForRefund`. */
  function Find(b: Books, item: ItemId, refundedCents: int): ReverseStage {
    match LineOf(b.lines, item)
    case None => NothingToReverse
    case Some(l) =>
      if l >= |b.lines| || b.lines[l].payout >= |b.payouts| then NothingToReverse
      else
        var line, payout := b.lines[l], b.payouts[b.lines[l].payout];
        var target := Min(line.amountCents, refundedCents);
        if line.reversed || payout.status != Paid || target <= 0 then NothingToReverse
        else Claiming(l, target, payout.hasTransferId)
  }

  /** The provider call of `reverseForRefund`, on the transfer of the line's payout. */
  function CallReverse(b: Books, l: LineId, target: int, answer: ReverseAnswer): (Books, ReverseStage)
    requires l < |b.lines| && b.lines[l].payout < |b.payouts|
  {
    var p := b.lines[l].payout;
    var x := Reverses(b.payouts[p].transfer, target, answer);
    if b.payouts[p].transfer.Sent? then
      var t := b.payouts[p].transfer;
      (b.(payouts := b.payouts[p := b.payouts[p].(transfer := Sent(t.amountCents, t.reversedCents + x))]),
       if answer.BackUnheard? then Recording(l, target, 0, x) else Recording(l, target, x, 0))
    else (b, Recording(l, target, 0, 0))
  }

  /** The next statement of `reverseForRefund`. */
  function AdvanceReverser(b: Books, r: Reversal, answer: ReverseAnswer): (Books, ReverseStage)
    requires StageOnBooks(b, r.stage)
  {
    match r.stage
    case Finding => (b, Find(b, r.item, r.refundedCents))
    case Claiming(l, target, viaTransfer) =>
      if b.lines[l].reversed then (b, NothingToReverse)
      else (b.(lines := b.lines[l := b.lines[l].(reversed := true)]),
            if viaTransfer then Reversing(l, target) else WrittenOff(target))
    case Reversing(l, target) => CallReverse(b, l, target, answer)
    case Recording(l, target, heard, unheard) =>
      if target - heard > 0
      then (b.(debts := b.debts + [Debt(b.payouts[b.lines[l].payout].seller, target - heard, false)]),
            Recovered(target, unheard))
      else (b, Recovered(target, unheard))
    case _ => (b, r.stage)
  }

  predicate StageOnBooks(b: Books, stage: ReverseStage) {
    stage.Claiming? || stage.Reversing? || stage.Recording? ==>
      stage.line < |b.lines| && b.lines[stage.line].payout < |b.payouts|
  }

  ghost predicate WellFormed(s: State) {
    && (forall l :: 0 <= l < |s.books.lines| ==> s.books.lines[l].payout < |s.books.payouts|)
    && (forall i :: 0 <= i < |s.senders| ==> s.senders[i].payout < |s.books.payouts|)
    && (forall i :: 0 <= i < |s.reversals| ==> StageOnBooks(s.books, s.reversals[i].stage))
  }

  /** Amounts netted for debts that were settled before this claim committed. */
  function OverNetted(debts: seq<Debt>, settling: seq<SeenDebt>): int {
    Sum(settling, StaleAmount(debts))
  }

  function StaleAmount(debts: seq<Debt>): SeenDebt -> int {
    (d: SeenDebt) => if d.id < |debts| && debts[d.id].settled then d.amountCents else 0
  }

  ghost function DoClaim(s: State, seller: SellerId, offered: seq<Offer>, seen: seq<SeenDebt>): State {
    if |offered| > 0 && Insertable(s.books.lines, offered) && ReadOf(s.books.debts, seen)
    then s.(books := CommitClaim(s.books, seller, offered, seen),
            overNetted := s.overNetted + OverNetted(s.books.debts, Settling(offered, seen)))
    else s
  }

  function DoSend(s: State, i: nat, answer: SendAnswer): State
    requires i < |s.senders| && s.senders[i].payout < |s.books.payouts|
  {
    var sender := s.senders[i];
    var (payout, stage) := AdvanceSender(s.books.payouts[sender.payout], sender.stage, answer);
    s.(books := s.books.(payouts := s.books.payouts[sender.payout := payout]),
       senders := s.senders[i := sender.(stage := stage)])
  }

  function DoReverse(s: State, i: nat, answer: ReverseAnswer): State
    requires i < |s.reversals| && StageOnBooks(s.books, s.reversals[i].stage)
  {
    var (books, stage) := AdvanceReverser(s.books, s.reversals[i], answer);
    s.(books := books, reversals := s.reversals[i := s.reversals[i].(stage := stage)])
  }

  ghost function Do(s: State, step: Step): State
    requires WellFormed(s)
  {
    match step
    case Claim(seller, offered, seen) => DoClaim(s, seller, offered, seen)
    case StartSend(p, hasAccount) =>
      if p < |s.books.payouts| then s.(senders := s.senders + [Sender(p, Loading(hasAccount))]) else s
    case AdvanceSend(i, answer) => if i < |s.senders| then DoSend(s, i, answer) else s
    case StartReversal(item, refunded) => s.(reversals := s.reversals + [Reversal(item, refunded, Finding)])
    case AdvanceReversal(i, answer) => if i < |s.reversals| then DoReverse(s, i, answer) else s
  }

  /* ------------------------------------------------------------------ *
   * No line twice, no claim sent twice
   * ------------------------------------------------------------------ */

  ghost predicate PayoutOk(p: Payout) {
    && 0 <= p.amountCents
    && (p.transfer.Sent? ==> p.transfer.amountCents == p.amountCents > 0
                             && 0 <= p.transfer.reversedCents <= p.amountCents)
    && (p.status == Pending ==> p.amountCents > 0 && !p.hasTransferId)
    && (p.status == Paid ==> if p.amountCents == 0 then p.transfer == Unseen && !p.hasTransferId
                             else p.transfer.Sent? && p.hasTransferId)
    && (p.status == Failed ==> p.transfer == Declined && !p.hasTransferId)
  }

  ghost predicate SenderOk(p: Payout, stage: SendStage) {
    && (stage.Transferring? ==> stage.amountCents == p.amountCents > 0)
    && (stage == Confirming ==> p.transfer.Sent?)
    && (stage == Failing ==> p.transfer == Declined)
    && (stage == SentBy(true) ==> p.status == Paid)
    && (stage.SentBy? ==> p.transfer.Sent?)
  }

  ghost predicate ReversalOk(b: Books, stage: ReverseStage)
    requires StageOnBooks(b, stage)
  {
    && (stage.Claiming? ==> stage.viaTransfer == b.payouts[b.lines[stage.line].payout].hasTransferId
                            && b.payouts[b.lines[stage.line].payout].status == Paid)
    && (stage.Reversing? ==> b.payouts[b.lines[stage.line].payout].transfer.Sent?)
    && (stage.Claiming? || stage.Reversing? || stage.Recording? ==>
          0 < stage.targetCents <= b.lines[stage.line].amountCents)
    && (stage.Recording? ==> 0 <= stage.heard <= stage.targetCents && 0 <= stage.unheard)
  }

  ghost predicate Claims(s: State) {
    && WellFormed(s)
    && (forall p :: 0 <= p < |s.books.payouts| ==> PayoutOk(s.books.payouts[p]))
    && (forall l, m :: 0 <= l < m < |s.books.lines| ==> s.books.lines[l].item != s.books.lines[m].item)
    && (forall i :: 0 <= i < |s.senders| ==> SenderOk(s.books.payouts[s.senders[i].payout], s.senders[i].stage))
    && (forall i, j :: 0 <= i < j < |s.senders| && s.senders[i].stage == SentBy(true) ==>
          s.senders[j] != s.senders[i])
    && (forall i :: 0 <= i < |s.reversals| ==> ReversalOk(s.books, s.reversals[i].stage))
  }

  lemma ClaimKeepsClaims(s: State, seller: SellerId, offered: seq<Offer>, seen: seq<SeenDebt>)
    requires Claims(s)
    ensures Claims(DoClaim(s, seller, offered, seen))
  {
  }

  lemma SenderStepOk(p: Payout, stage: SendStage, answer: SendAnswer)
    requires PayoutOk(p) && SenderOk(p, stage)
    ensures var (p', stage') := AdvanceSender(p, stage, answer);
            && PayoutOk(p') && SenderOk(p', stage') && PayoutContinues(p, p')
            && (stage' == SentBy(true) && stage != SentBy(true) ==> p.status == Pending)
  {
  }

  /** A payout row only ever moves forward. */
  ghost predicate PayoutContinues(p: Payout, later: Payout) {
    && later.seller == p.seller && later.amountCents == p.amountCents && later.nettedCents == p.nettedCents
    && (p.status != Pending ==> later.status == p.status)
    && (p.status == Paid ==> later.hasTransferId == p.hasTransferId)
    && (p.transfer == Declined ==> later.transfer == Declined)
    && (p.transfer.Sent? ==> later.transfer.Sent? && p.transfer.reversedCents <= later.transfer.reversedCents)
  }

  lemma OthersStayOk(p: Payout, later: Payout, stage: SendStage)
    requires PayoutContinues(p, later) && SenderOk(p, stage)
    ensures SenderOk(later, stage)
  {
  }

  lemma SendKeepsClaims(s: State, i: nat, answer: SendAnswer)
    requires Claims(s) && i < |s.senders|
    ensures Claims(DoSend(s, i, answer))
  {
    var s', q := DoSend(s, i, answer), s.senders[i].payout;
    SenderStepOk(s.books.payouts[q], s.senders[i].stage, answer);
    forall j | 0 <= j < |s.senders| ensures SenderOk(s'.books.payouts[s'.senders[j].payout], s'.senders[j].stage) {
      if j != i && s.senders[j].payout == q {
        OthersStayOk(s.books.payouts[q], s'.books.payouts[q], s.senders[j].stage);
      }
    }
    forall j | 0 <= j < |s.reversals| ensures ReversalOk(s'.books, s'.reversals[j].stage) {
      assert ReversalOk(s.books, s.reversals[j].stage);
    }
    forall j, k | 0 <= j < k < |s'.senders| && s'.senders[j].stage == SentBy(true)
      ensures s'.senders[k] != s'.senders[j]
    {
      assert SenderOk(s.books.payouts[s.senders[j].payout], s.senders[j].stage);
      assert SenderOk(s.books.payouts[s.senders[k].payout], s.senders[k].stage);
    }
  }

  /** What a clawback may do to the books: mark a line, add to a transfer's
      reversals, append a debt. */
  ghost predicate BooksContinue(b: Books, later: Books) {
    && |later.payouts| == |b.payouts| && |later.lines| == |b.lines|
    && (forall p :: 0 <= p < |b.payouts| ==>
          PayoutContinues(b.payouts[p], later.payouts[p]) && later.payouts[p].status == b.payouts[p].status)
    && (forall l :: 0 <= l < |b.lines| ==>
          later.lines[l] == b.lines[l] || later.lines[l] == b.lines[l].(reversed := true))
  }

  lemma {:induction false} LineOfFinds(lines: seq<Line>, item: ItemId)
    ensures LineOf(lines, item).Some? ==>
              LineOf(lines, item).value < |lines| && lines[LineOf(lines, item).value].item == item
    ensures LineOf(lines, item) == None ==> forall l :: 0 <= l < |lines| ==> lines[l].item != item
  {
    if |lines| > 0 && lines[|lines| - 1].item != item {
      LineOfFinds(lines[..|lines| - 1], item);
    }
  }

  lemma CallReverseOk(b: Books, l: LineId, target: int, answer: ReverseAnswer)
    requires l < |b.lines| && b.lines[l].payout < |b.payouts| && 0 < target <= b.lines[l].amountCents
    requires PayoutOk(b.payouts[b.lines[l].payout])
    ensures var (b', stage') := CallReverse(b, l, target, answer);
            && BooksContinue(b, b') && StageOnBooks(b', stage') && ReversalOk(b', stage')
            && forall p :: 0 <= p < |b.payouts| && PayoutOk(b.payouts[p]) ==> PayoutOk(b'.payouts[p])
  {
  }

  lemma ReverserStepOk(b: Books, r: Reversal, answer: ReverseAnswer)
    requires StageOnBooks(b, r.stage) && ReversalOk(b, r.stage)
    requires forall p :: 0 <= p < |b.payouts| ==> PayoutOk(b.payouts[p])
    ensures var (b', stage') := AdvanceReverser(b, r, answer);
            && BooksContinue(b, b') && StageOnBooks(b', stage') && ReversalOk(b', stage')
            && forall p :: 0 <= p < |b.payouts| ==> PayoutOk(b'.payouts[p])
  {
    if r.stage.Reversing? {
      CallReverseOk(b, r.stage.line, r.stage.targetCents, answer);
    } else if r.stage.Claiming? {
      var p := b.lines[r.stage.line].payout;
      assert PayoutOk(b.payouts[p]);
    }
  }

  lemma ReverseKeepsClaims(s: State, i: nat, answer: ReverseAnswer)
    requires Claims(s) && i < |s.reversals|
    ensures Claims(DoReverse(s, i, answer))
  {
    var s' := DoReverse(s, i, answer);
    ReverserStepOk(s.books, s.reversals[i], answer);
    forall j | 0 <= j < |s.senders| ensures SenderOk(s'.books.payouts[s.senders[j].payout], s.senders[j].stage) {
      OthersStayOk(s.books.payouts[s.senders[j].payout], s'.books.payouts[s.senders[j].payout], s.senders[j].stage);
    }
    forall j | 0 <= j < |s.reversals| && j != i
      ensures StageOnBooks(s'.books, s.reversals[j].stage) && ReversalOk(s'.books, s.reversals[j].stage)
    {
      assert StageOnBooks(s.books, s.reversals[j].stage) && ReversalOk(s.books, s.reversals[j].stage);
      ReversalStaysOk(s.books, s'.books, s.reversals[j].stage);
    }
    assert forall l :: 0 <= l < |s.books.lines| ==>
      s'.books.lines[l].item == s.books.lines[l].item && s'.books.lines[l].payout == s.books.lines[l].payout;
  }

  lemma ReversalStaysOk(b: Books, later: Books, stage: ReverseStage)
    requires BooksContinue(b, later) && StageOnBooks(b, stage) && ReversalOk(b, stage)
    ensures StageOnBooks(later, stage) && ReversalOk(later, stage)
  {
    if stage.Claiming? || stage.Reversing? || stage.Recording? {
      var l := stage.line;
      assert later.lines[l].payout == b.lines[l].payout && later.lines[l].amountCents == b.lines[l].amountCents;
      assert PayoutContinues(b.payouts[b.lines[l].payout], later.payouts[b.lines[l].payout]);
    }
  }

  /* ------------------------------------------------------------------ *
   * The ledger identity
   * ------------------------------------------------------------------ */

  function AmountCol(): Payout -> int { (p: Payout) => p.amountCents }
  function NettedCol(): Payout -> int { (p: Payout) => p.nettedCents }
  function SentCol(): Payout -> int { (p: Payout) => if p.transfer.Sent? then p.transfer.amountCents else 0 }
  function ReversedCol(): Payout -> int { (p: Payout) => if p.transfer.Sent? then p.transfer.reversedCents else 0 }
  function UnsentCol(): Payout -> int { (p: Payout) => if p.transfer.Sent? then 0 else p.amountCents }

  function LineCol(): Line -> int { (l: Line) => l.amountCents }
  function OfPayout(p: PayoutId): Line -> int { (l: Line) => if l.payout == p then l.amountCents else 0 }

  function DebtCol(): Debt -> int { (d: Debt) => d.amountCents }
  function SettledCol(): Debt -> int { (d: Debt) => if d.settled then d.amountCents else 0 }
  function OwingCol(): Debt -> int { (d: Debt) => if d.settled then 0 else d.amountCents }

  /** The target of every clawback that claimed its line. */
  function TargetCol(): Reversal -> int {
    (r: Reversal) =>
      if r.stage.Reversing? || r.stage.Recording? || r.stage.WrittenOff? || r.stage.Recovered?
      then r.stage.targetCents else 0
  }
  /** Clawbacks on payouts that went wholly to debt. */
  function WrittenOffCol(): Reversal -> int {
    (r: Reversal) => if r.stage.WrittenOff? then r.stage.targetCents else 0
  }
  /** Claimed, and neither returned by the provider nor on record as a debt yet. */
  function InFlightCol(): Reversal -> int {
    (r: Reversal) =>
      if r.stage.Reversing? then r.stage.targetCents
      else if r.stage.Recording? then r.stage.targetCents - r.stage.heard else 0
  }
  /** Returned by the provider in a call that reported an error. */
  function UnheardCol(): Reversal -> int {
    (r: Reversal) => if r.stage.Recording? || r.stage.Recovered? then r.stage.unheard else 0
  }
  function AccountedCol(): Reversal -> int {
    (r: Reversal) =>
      if r.stage.Recording? then r.stage.heard + r.stage.unheard
      else if r.stage.Recovered? then r.stage.targetCents + r.stage.unheard else 0
  }

  ghost predicate PayoutCovered(b: Books, p: PayoutId)
    requires p < |b.payouts|
  {
    Sum(b.lines, OfPayout(p)) == b.payouts[p].amountCents + b.payouts[p].nettedCents
  }

  ghost predicate Ledger(s: State) {
    var b := s.books;
    && Sum(b.payouts, AmountCol()) + Sum(b.payouts, NettedCol()) == Sum(b.lines, LineCol())
    && Sum(b.payouts, NettedCol()) == Sum(b.debts, SettledCol()) + s.overNetted
    && Sum(b.payouts, ReversedCol()) + Sum(b.debts, DebtCol()) == Sum(s.reversals, AccountedCol())
  }

  ghost predicate Covered(b: Books) {
    forall p :: 0 <= p < |b.payouts| ==> PayoutCovered(b, p)
  }

  /** A debt is a shortfall, so it is never empty. */
  ghost predicate DebtsArePositive(b: Books) {
    forall d <- b.debts :: 0 < d.amountCents
  }

  ghost predicate Inv(s: State) {
    Claims(s) && Ledger(s) && Covered(s.books) && DebtsArePositive(s.books)
  }

  /** Netting never takes more than the payout is worth. */
  lemma {:induction false} NettedWithinGross(debts: seq<SeenDebt>, gross: int)
    requires 0 <= gross
    ensures Sum(debts[..Absorbed(debts, gross)], SeenAmount()) <= gross
  {
    var n := Absorbed(debts, gross);
    if n > 0 {
      NettedWithinGross(debts[1..], gross - debts[0].amountCents);
      SumFirst(debts[..n]);
      assert debts[..n][1..] == debts[1..][..n - 1];
    }
  }

  lemma NewLinesTotal(offered: seq<Offer>, p: PayoutId)
    ensures Sum(NewLines(offered, p), LineCol()) == Gross(offered)
    ensures forall q :: Sum(NewLines(offered, p), OfPayout(q)) == if q == p then Gross(offered) else 0
  {
    SumEqual(NewLines(offered, p), offered, LineCol(), OfferAmount());
    forall q ensures Sum(NewLines(offered, p), OfPayout(q)) == if q == p then Gross(offered) else 0 {
      if q == p {
        SumEqual(NewLines(offered, p), offered, OfPayout(q), OfferAmount());
      } else {
        SumZero(NewLines(offered, p), OfPayout(q));
      }
    }
  }

  lemma {:induction false} SettlingMovesDebts(debts: seq<Debt>, settling: seq<SeenDebt>)
    requires ReadOf(debts, settling)
    ensures Sum(SettleDebts(debts, settling), SettledCol()) + OverNetted(debts, settling)
            == Sum(debts, SettledCol()) + Sum(settling, SeenAmount())
    ensures Sum(SettleDebts(debts, settling), DebtCol()) == Sum(debts, DebtCol())
  {
    SumEqual(SettleDebts(debts, settling), debts, DebtCol(), DebtCol());
    if |settling| == 0 {
      assert SettleDebts(debts, settling) == debts;
    } else {
      var init, d := settling[..|settling| - 1], settling[|settling| - 1];
      SettlingMovesDebts(debts, init);
      var before := SettleDebts(debts, init);
      assert before[d.id] == debts[d.id];
      assert SettleDebts(debts, settling) == before[d.id := before[d.id].(settled := true)];
      SumUpdate(before, d.id, before[d.id].(settled := true), SettledCol());
    }
  }

  lemma NoLinesYet(lines: seq<Line>, p: PayoutId)
    requires forall l :: 0 <= l < |lines| ==> lines[l].payout < p
    ensures Sum(lines, OfPayout(p)) == 0
  {
    SumZero(lines, OfPayout(p));
  }

  lemma ClaimKeepsLedger(s: State, seller: SellerId, offered: seq<Offer>, seen: seq<SeenDebt>)
    requires Inv(s) && ReadOf(s.books.debts, seen)
    ensures var b' := CommitClaim(s.books, seller, offered, seen);
            var over := OverNetted(s.books.debts, Settling(offered, seen));
            Ledger(s.(books := b', overNetted := s.overNetted + over)) && Covered(b')
  {
    var b, settling := s.books, Settling(offered, seen);
    var b' := CommitClaim(b, seller, offered, seen);
    var n := |b.payouts|;
    SumNonNegative(offered, OfferAmount());
    NettedWithinGross(seen, Gross(offered));
    NewLinesTotal(offered, n);
    SettlingMovesDebts(b.debts, settling);
    SumAppend(b.payouts, b'.payouts[n], AmountCol());
    SumAppend(b.payouts, b'.payouts[n], NettedCol());
    SumAppend(b.payouts, b'.payouts[n], ReversedCol());
    SumConcat(b.lines, NewLines(offered, n), LineCol());
    forall p | 0 <= p <= n ensures PayoutCovered(b', p) {
      SumConcat(b.lines, NewLines(offered, n), OfPayout(p));
      if p < n {
        assert PayoutCovered(b, p);
      } else {
        NoLinesYet(b.lines, n);
      }
    }
  }

  lemma SendKeepsLedger(s: State, i: nat, answer: SendAnswer)
    requires Inv(s) && i < |s.senders|
    ensures Ledger(DoSend(s, i, answer)) && Covered(DoSend(s, i, answer).books)
  {
    var b, q := s.books, s.senders[i].payout;
    var p' := AdvanceSender(b.payouts[q], s.senders[i].stage, answer).0;
    SumUpdate(b.payouts, q, p', AmountCol());
    SumUpdate(b.payouts, q, p', NettedCol());
    SumUpdate(b.payouts, q, p', ReversedCol());
    forall p | 0 <= p < |b.payouts| ensures PayoutCovered(DoSend(s, i, answer).books, p) {
      assert PayoutCovered(b, p);
    }
  }

  /** One statement of a clawback moves the reversals, the debts and its own
      account together, and touches no amount of any payout or line. */
  lemma ReverserMovesLedger(b: Books, r: Reversal, answer: ReverseAnswer)
    requires StageOnBooks(b, r.stage) && ReversalOk(b, r.stage)
    ensures var (b', stage) := AdvanceReverser(b, r, answer);
            && Sum(b'.payouts, ReversedCol()) + Sum(b'.debts, DebtCol()) - AccountedCol()(r.(stage := stage))
               == Sum(b.payouts, ReversedCol()) + Sum(b.debts, DebtCol()) - AccountedCol()(r)
            && Sum(b'.debts, SettledCol()) == Sum(b.debts, SettledCol())
  {
    var (b', stage) := AdvanceReverser(b, r, answer);
    if r.stage.Reversing? {
      var p := b.lines[r.stage.line].payout;
      SumUpdate(b.payouts, p, b'.payouts[p], ReversedCol());
    } else if r.stage.Recording? {
      var debt := Debt(b.payouts[b.lines[r.stage.line].payout].seller, r.stage.targetCents - r.stage.heard, false);
      SumAppend(b.debts, debt, DebtCol());
      SumAppend(b.debts, debt, SettledCol());
    }
  }

  lemma ReverserKeepsAmounts(b: Books, r: Reversal, answer: ReverseAnswer)
    requires StageOnBooks(b, r.stage)
    ensures var b' := AdvanceReverser(b, r, answer).0;
            && |b'.payouts| == |b.payouts| && |b'.lines| == |b.lines|
            && (forall p :: 0 <= p < |b.payouts| ==>
                  b'.payouts[p].amountCents == b.payouts[p].amountCents
                  && b'.payouts[p].nettedCents == b.payouts[p].nettedCents)
            && (forall l :: 0 <= l < |b.lines| ==>
                  b'.lines[l].amountCents == b.lines[l].amountCents && b'.lines[l].payout == b.lines[l].payout)
  {
  }

  lemma ReverseKeepsLedger(s: State, i: nat, answer: ReverseAnswer)
    requires Inv(s) && i < |s.reversals|
    ensures Ledger(DoReverse(s, i, answer)) && Covered(DoReverse(s, i, answer).books)
  {
    var b, r := s.books, s.reversals[i];
    var (b', stage) := AdvanceReverser(b, r, answer);
    ReverserMovesLedger(b, r, answer);
    ReverserKeepsAmounts(b, r, answer);
    SumUpdate(s.reversals, i, r.(stage := stage), AccountedCol());
    SumEqual(b'.payouts, b.payouts, AmountCol(), AmountCol());
    SumEqual(b'.payouts, b.payouts, NettedCol(), NettedCol());
    SumEqual(b'.lines, b.lines, LineCol(), LineCol());
    forall p | 0 <= p < |b.payouts| ensures PayoutCovered(b', p) {
      assert PayoutCovered(b, p);
      SumEqual(b'.lines, b.lines, OfPayout(p), OfPayout(p));
    }
  }

  lemma NewSenderKeepsClaims(s: State, sender: Sender)
    requires Claims(s) && sender.payout < |s.books.payouts| && sender.stage.Loading?
    ensures Claims(s.(senders := s.senders + [sender]))
  {
  }

  lemma NewReversalKeepsClaims(s: State, r: Reversal)
    requires Claims(s) && r.stage == Finding
    ensures Claims(s.(reversals := s.reversals + [r]))
  {
  }

  lemma NewReversalKeepsLedger(s: State, r: Reversal)
    requires Ledger(s) && r.stage == Finding
    ensures Ledger(s.(reversals := s.reversals + [r]))
  {
    SumAppend(s.reversals, r, AccountedCol());
  }

  lemma StepKeepsClaims(s: State, step: Step)
    requires Claims(s)
    ensures Claims(Do(s, step))
  {
    match step
    case Claim(seller, offered, seen) => ClaimKeepsClaims(s, seller, offered, seen);
    case AdvanceSend(i, answer) => if i < |s.senders| { SendKeepsClaims(s, i, answer); }
    case AdvanceReversal(i, answer) => if i < |s.reversals| { ReverseKeepsClaims(s, i, answer); }
    case StartSend(p, hasAccount) =>
      if p < |s.books.payouts| { NewSenderKeepsClaims(s, Sender(p, Loading(hasAccount))); }
    case StartReversal(item, refunded) => NewReversalKeepsClaims(s, Reversal(item, refunded, Finding));
  }

  lemma StepKeepsLedger(s: State, step: Step)
    requires Inv(s)
    ensures Ledger(Do(s, step)) && Covered(Do(s, step).books)
  {
    match step
    case Claim(seller, offered, seen) =>
      if ReadOf(s.books.debts, seen) { ClaimKeepsLedger(s, seller, offered, seen); }
    case AdvanceSend(i, answer) => if i < |s.senders| { SendKeepsLedger(s, i, answer); }
    case AdvanceReversal(i, answer) => if i < |s.reversals| { ReverseKeepsLedger(s, i, answer); }
    case StartSend(p, hasAccount) =>
    case StartReversal(item, refunded) => NewReversalKeepsLedger(s, Reversal(item, refunded, Finding));
  }

  lemma DebtsStayPositive(s: State, step: Step)
    requires WellFormed(s) && DebtsArePositive(s.books)
    ensures DebtsArePositive(Do(s, step).books)
  {
    var debts, debts' := s.books.debts, Do(s, step).books.debts;
    forall k | 0 <= k < |debts'| ensures 0 < debts'[k].amountCents {
      assert k < |debts| ==> debts[k] in debts;
    }
  }

  lemma StepKeepsInv(s: State, step: Step)
    requires Inv(s)
    ensures Inv(Do(s, step))
  {
    StepKeepsClaims(s, step);
    StepKeepsLedger(s, step);
    DebtsStayPositive(s, step);
  }

  ghost function Run(steps: seq<Step>): (s: State)
    ensures WellFormed(s)
  {
    if |steps| == 0 then EmptyState
    else
      var before := Run(steps[..|steps| - 1]);
      StepKeepsWellFormed(before, steps[|steps| - 1]);
      Do(before, steps[|steps| - 1])
  }

  lemma StepKeepsWellFormed(s: State, step: Step)
    requires WellFormed(s)
    ensures WellFormed(Do(s, step))
  {
    if step.AdvanceReversal? && step.reversal < |s.reversals| {
      FindStaysOnBooks(s.books, s.reversals[step.reversal], step.reverseAnswer);
    }
  }

  lemma FindStaysOnBooks(b: Books, r: Reversal, answer: ReverseAnswer)
    requires StageOnBooks(b, r.stage)
    ensures var (b', stage) := AdvanceReverser(b, r, answer);
            && StageOnBooks(b', stage) && |b'.lines| == |b.lines| && |b'.payouts| == |b.payouts|
            && forall l :: 0 <= l < |b.lines| ==> b'.lines[l].payout == b.lines[l].payout
  {
  }

  lemma EmptyIsBalanced(s: State)
    requires s == EmptyState
    ensures Inv(s) && s.overNetted == 0
  {
  }

  lemma {:induction false} RunKeepsInv(steps: seq<Step>)
    ensures Inv(Run(steps))
  {
    if |steps| > 0 {
      RunKeepsInv(steps[..|steps| - 1]);
      StepKeepsInv(Run(steps[..|steps| - 1]), steps[|steps| - 1]);
    }
  }

  /** With any number of claimers on stale reads, senders and clawbacks: an order
      item is in at most one payout, the provider holds at most exactly the claimed
      amount under a payout's key, at most one sender reports having settled it, PAID
      means the money was sent or there was none to send, FAILED means it never was. */
  lemma NoLinePaidTwice(steps: seq<Step>)
    ensures var s := Run(steps);
            && (forall l, m :: 0 <= l < m < |s.books.lines| ==> s.books.lines[l].item != s.books.lines[m].item)
            && (forall p :: 0 <= p < |s.books.payouts| && s.books.payouts[p].transfer.Sent? ==>
                  s.books.payouts[p].transfer.amountCents == s.books.payouts[p].amountCents)
            && (forall p :: 0 <= p < |s.books.payouts| && s.books.payouts[p].status == Paid ==>
                  s.books.payouts[p].transfer.Sent? || s.books.payouts[p].amountCents == 0)
            && (forall p :: 0 <= p < |s.books.payouts| && s.books.payouts[p].status == Failed ==>
                  !s.books.payouts[p].transfer.Sent?)
            && (forall i, j :: 0 <= i < j < |s.senders| && s.senders[i].stage == s.senders[j].stage == SentBy(true) ==>
                  s.senders[i].payout != s.senders[j].payout)
  {
    RunKeepsInv(steps);
    assert forall p :: 0 <= p < |Run(steps).books.payouts| ==> PayoutOk(Run(steps).books.payouts[p]);
  }

  /** A clawback that has claimed its line. */
  predicate Clawing(r: Reversal) {
    r.stage.Reversing? || r.stage.Recording? || r.stage.WrittenOff? || r.stage.Recovered?
  }

  /** The line is the refunded item's, and the target is no more than was paid for it nor
      than was refunded. */
  predicate Targets(line: Line, r: Reversal, targetCents: int) {
    && line.item == r.item
    && targetCents == if line.amountCents < r.refundedCents then line.amountCents else r.refundedCents
  }

  ghost predicate HasTarget(lines: seq<Line>, r: Reversal) {
    && (r.stage.Claiming? || r.stage.Reversing? || r.stage.Recording? ==>
          r.stage.line < |lines| && Targets(lines[r.stage.line], r, r.stage.targetCents))
    && (Clawing(r) ==> exists l :: 0 <= l < |lines| && lines[l].reversed && Targets(lines[l], r, r.stage.targetCents))
  }

  /** Each clawback has a target of its own, and no two have claimed one item. */
  ghost predicate Clawbacks(s: State) {
    && (forall i :: 0 <= i < |s.reversals| ==> HasTarget(s.books.lines, s.reversals[i]))
    && (forall i, j :: 0 <= i < j < |s.reversals| && Clawing(s.reversals[i]) && Clawing(s.reversals[j]) ==>
          s.reversals[i].item != s.reversals[j].item)
  }

  /** Lines are never deleted, their amounts never change, and a mark stays. */
  ghost predicate LinesStay(lines: seq<Line>, later: seq<Line>) {
    && |lines| <= |later|
    && forall l :: 0 <= l < |lines| ==>
         later[l] == lines[l] || later[l] == lines[l].(reversed := true)
  }

  lemma TargetStays(lines: seq<Line>, later: seq<Line>, r: Reversal)
    requires LinesStay(lines, later) && HasTarget(lines, r)
    ensures HasTarget(later, r)
  {
    if Clawing(r) {
      var l :| 0 <= l < |lines| && lines[l].reversed && Targets(lines[l], r, r.stage.targetCents);
      assert later[l].reversed && Targets(later[l], r, r.stage.targetCents);
    }
  }

  lemma ReverserHasTarget(b: Books, r: Reversal, answer: ReverseAnswer)
    requires StageOnBooks(b, r.stage) && HasTarget(b.lines, r)
    ensures var (b', stage) := AdvanceReverser(b, r, answer);
            && LinesStay(b.lines, b'.lines) && HasTarget(b'.lines, r.(stage := stage))
            && (Clawing(r.(stage := stage)) && !Clawing(r) ==>
                  && r.stage.Claiming? && !b.lines[r.stage.line].reversed && b.lines[r.stage.line].item == r.item)
  {
    var (b', stage) := AdvanceReverser(b, r, answer);
    if r.stage == Finding {
      LineOfFinds(b.lines, r.item);
    } else if r.stage.Claiming? && !b.lines[r.stage.line].reversed {
      assert b'.lines[r.stage.line].reversed && Targets(b'.lines[r.stage.line], r, r.stage.targetCents);
    } else if Clawing(r) {
      TargetStays(b.lines, b'.lines, r);
      var l :| 0 <= l < |b'.lines| && b'.lines[l].reversed && Targets(b'.lines[l], r, r.stage.targetCents);
      assert Targets(b'.lines[l], r.(stage := stage), stage.targetCents);
    }
  }

  /** A clawback that claims its line is the first to claim that item. */
  lemma FirstToClaw(s: State, i: nat, j: nat)
    requires Clawbacks(s) && OneLinePerItem(s.books.lines) && i < |s.reversals| && j < |s.reversals|
    requires var r := s.reversals[i];
             && r.stage.Claiming? && r.stage.line < |s.books.lines|
             && !s.books.lines[r.stage.line].reversed && s.books.lines[r.stage.line].item == r.item
    requires Clawing(s.reversals[j])
    ensures s.reversals[j].item != s.reversals[i].item
  {
    var lines, d := s.books.lines, s.reversals[j];
    assert HasTarget(lines, d);
    var l :| 0 <= l < |lines| && lines[l].reversed && Targets(lines[l], d, d.stage.targetCents);
  }

  lemma ReverseKeepsClawbacks(s: State, i: nat, answer: ReverseAnswer)
    requires Claims(s) && Clawbacks(s) && i < |s.reversals|
    ensures Clawbacks(DoReverse(s, i, answer))
  {
    var s' := DoReverse(s, i, answer);
    var lines := s.books.lines;
    ReverserHasTarget(s.books, s.reversals[i], answer);
    forall j | 0 <= j < |s.reversals| ensures HasTarget(s'.books.lines, s'.reversals[j]) {
      assert HasTarget(lines, s.reversals[j]);
      if j != i { TargetStays(lines, s'.books.lines, s.reversals[j]); }
    }
    forall j | 0 <= j < |s.reversals| && j != i && Clawing(s'.reversals[i]) && Clawing(s.reversals[j])
      ensures s.reversals[j].item != s.reversals[i].item
    {
      if !Clawing(s.reversals[i]) { FirstToClaw(s, i, j); }
    }
  }

  lemma StepKeepsClawbacks(s: State, step: Step)
    requires Claims(s) && Clawbacks(s)
    ensures Clawbacks(Do(s, step))
  {
    var s' := Do(s, step);
    if step.AdvanceReversal? {
      if step.reversal < |s.reversals| { ReverseKeepsClawbacks(s, step.reversal, step.reverseAnswer); }
    } else {
      assert LinesStay(s.books.lines, s'.books.lines);
      forall i | 0 <= i < |s'.reversals| ensures HasTarget(s'.books.lines, s'.reversals[i]) {
        if i < |s.reversals| { TargetStays(s.books.lines, s'.books.lines, s.reversals[i]); }
      }
    }
  }

  lemma {:induction false} RunKeepsClawbacks(steps: seq<Step>)
    ensures Clawbacks(Run(steps))
  {
    if |steps| > 0 {
      var before := steps[..|steps| - 1];
      RunKeepsClawbacks(before);
      RunKeepsInv(before);
      StepKeepsClawbacks(Run(before), steps[|steps| - 1]);
    }
  }

  /** Over every run, what a clawback that claimed its line takes back or books as debt is
      the smaller of what was paid for the line and what was refunded, the line is marked,
      and no item is clawed back twice. */
  lemma ClawbacksFollowRefunds(steps: seq<Step>, i: nat, j: nat)
    requires var rs := Run(steps).reversals; i < |rs| && j < |rs| && Clawing(rs[i])
    ensures var lines, rs := Run(steps).books.lines, Run(steps).reversals;
            && (exists l :: && 0 <= l < |lines| && lines[l].item == rs[i].item && lines[l].reversed
                            && TargetCol()(rs[i]) == if lines[l].amountCents < rs[i].refundedCents
                                                     then lines[l].amountCents else rs[i].refundedCents)
            && (Clawing(rs[j]) && rs[j].item == rs[i].item ==> i == j)
  {
    RunKeepsClawbacks(steps);
    var lines, r := Run(steps).books.lines, Run(steps).reversals[i];
    assert HasTarget(lines, r);
    var l :| 0 <= l < |lines| && lines[l].reversed && Targets(lines[l], r, r.stage.targetCents);
    assert TargetCol()(r) == r.stage.targetCents;
  }

  /** Every payout accounts for its lines to the cent. */
  lemma LinesCoverPayout(steps: seq<Step>, p: PayoutId)
    requires p < |Run(steps).books.payouts|
    ensures Sum(Run(steps).books.lines, OfPayout(p))
            == Run(steps).books.payouts[p].amountCents + Run(steps).books.payouts[p].nettedCents
  {
    RunKeepsInv(steps);
    assert PayoutCovered(Run(steps).books, p);
  }

  function ClosedCol(): Reversal -> int { (r: Reversal) => AccountedCol()(r) - UnheardCol()(r) }

  function OpenCol(): Reversal -> int { (r: Reversal) => WrittenOffCol()(r) + InFlightCol()(r) }

  lemma ReversalParts(r: Reversal)
    ensures TargetCol()(r) == ClosedCol()(r) + OpenCol()(r)
  {
    assert ClosedCol()(r) == AccountedCol()(r) - UnheardCol()(r);
    assert OpenCol()(r) == WrittenOffCol()(r) + InFlightCol()(r);
  }

  lemma ReversalColumns(s: State)
    requires Claims(s)
    ensures Sum(s.reversals, AccountedCol()) == Sum(s.reversals, TargetCol()) - Sum(s.reversals, WrittenOffCol())
                                               - Sum(s.reversals, InFlightCol()) + Sum(s.reversals, UnheardCol())
  {
    SumSplit(s.reversals, AccountedCol(), ClosedCol(), UnheardCol());
    forall i | 0 <= i < |s.reversals|
      ensures TargetCol()(s.reversals[i]) == ClosedCol()(s.reversals[i]) + OpenCol()(s.reversals[i])
    {
      ReversalParts(s.reversals[i]);
    }
    SumSplit(s.reversals, TargetCol(), ClosedCol(), OpenCol());
    SumSplit(s.reversals, OpenCol(), WrittenOffCol(), InFlightCol());
  }

  /** Money out, less money back, plus what is claimed and unsent, is the lines in
      payouts less what was clawed back, plus the debt still owed — over every run.
      Four things stand between the two sides and each is named: clawbacks written
      off on fully netted payouts, clawbacks in flight, money the provider returned
      in a call that errored, and debts netted twice by claimers on stale reads. */
  lemma PayoutLedgerBalances(steps: seq<Step>)
    ensures var s := Run(steps);
            var b := s.books;
            Sum(b.payouts, SentCol()) - Sum(b.payouts, ReversedCol()) + Sum(b.payouts, UnsentCol())
            == Sum(b.lines, LineCol()) - Sum(s.reversals, TargetCol()) + Sum(b.debts, OwingCol())
               + Sum(s.reversals, WrittenOffCol()) + Sum(s.reversals, InFlightCol())
               - Sum(s.reversals, UnheardCol()) - s.overNetted
  {
    var s := Run(steps);
    var b := s.books;
    RunKeepsInv(steps);
    ReversalColumns(s);
    SumSplit(b.debts, DebtCol(), SettledCol(), OwingCol());
    assert forall p :: 0 <= p < |b.payouts| ==> PayoutOk(b.payouts[p]);
    SumSplit(b.payouts, AmountCol(), SentCol(), UnsentCol());
  }

  /** This claim commits: its lines meet the uniqueness constraint. */
  ghost predicate Commits(s: State, step: Step) {
    step.Claim? && |step.offered| > 0 && Insertable(s.books.lines, step.offered) && ReadOf(s.books.debts, step.seen)
  }

  /** Every claim that committed settled only debts that were unsettled when it did. */
  ghost predicate ClaimsSettleUnsettled(steps: seq<Step>) {
    |steps| > 0 ==>
      var before, last := steps[..|steps| - 1], steps[|steps| - 1];
      && ClaimsSettleUnsettled(before)
      && (Commits(Run(before), last) ==>
            forall d <- Settling(last.offered, last.seen) :: !Run(before).books.debts[d.id].settled)
  }

  lemma SettledTwiceCounts(debts: seq<Debt>, seen: seq<SeenDebt>, n: nat)
    requires ReadOf(debts, seen) && n <= |seen| && forall d <- debts :: 0 < d.amountCents
    ensures 0 <= OverNetted(debts, seen[..n])
    ensures OverNetted(debts, seen[..n]) == 0 <==> forall d <- seen[..n] :: !debts[d.id].settled
  {
    var settling := seen[..n];
    forall k | 0 <= k < n ensures 0 <= StaleAmount(debts)(settling[k]) {
      assert settling[k] == seen[k] && debts[seen[k].id] in debts;
    }
    SumNonNegative(settling, StaleAmount(debts));
    if d :| d in settling && debts[d.id].settled {
      var k :| 0 <= k < n && settling[k] == d;
      SumMember(settling, k, StaleAmount(debts));
      assert debts[seen[k].id] in debts;
    } else {
      SumZero(settling, StaleAmount(debts));
    }
  }

  lemma FreshClaimNetsOnce(s: State, seller: SellerId, offered: seq<Offer>, seen: seq<SeenDebt>)
    requires Inv(s) && Fresh(s.books.debts, seen)
    ensures DoClaim(s, seller, offered, seen)
            == if |offered| > 0 && Insertable(s.books.lines, offered)
               then s.(books := CommitClaim(s.books, seller, offered, seen)) else s
  {
    var debts, n := s.books.debts, Absorbed(seen, Gross(offered));
    forall d <- seen[..n] ensures !debts[d.id].settled {
      var k :| 0 <= k < n && seen[k] == d;
    }
    SettledTwiceCounts(debts, seen, n);
  }

  lemma {:induction false} OverNettedIffSettledTwice(steps: seq<Step>)
    ensures 0 <= Run(steps).overNetted
    ensures Run(steps).overNetted == 0 <==> ClaimsSettleUnsettled(steps)
  {
    if |steps| > 0 {
      var before, last := steps[..|steps| - 1], steps[|steps| - 1];
      OverNettedIffSettledTwice(before);
      RunKeepsInv(before);
      if Commits(Run(before), last) {
        SettledTwiceCounts(Run(before).books.debts, last.seen, Absorbed(last.seen, Gross(last.offered)));
      }
    }
  }

  /** What payouts netted is what debts were settled, and the ledger balances without a
      term for debts netted twice, over a whole run, if and only if every claim that
      committed settled only debts nobody had settled since it read them. */
  lemma NettedIsSettledIffClaimsAreFresh(steps: seq<Step>)
    ensures var s := Run(steps);
            var b := s.books;
            && (Sum(b.payouts, NettedCol()) == Sum(b.debts, SettledCol()) <==> ClaimsSettleUnsettled(steps))
            && (Sum(b.payouts, SentCol()) - Sum(b.payouts, ReversedCol()) + Sum(b.payouts, UnsentCol())
                == Sum(b.lines, LineCol()) - Sum(s.reversals, TargetCol()) + Sum(b.debts, OwingCol())
                   + Sum(s.reversals, WrittenOffCol()) + Sum(s.reversals, InFlightCol())
                   - Sum(s.reversals, UnheardCol())
                <==> ClaimsSettleUnsettled(steps))
  {
    RunKeepsInv(steps);
    OverNettedIffSettledTwice(steps);
    PayoutLedgerBalances(steps);
  }

  /* ------------------------------------------------------------------ *
   * The functions as the code runs them, uninterrupted
   * ------------------------------------------------------------------ */

  datatype Gates = Gates(hasAccount: bool, payoutsEnabled: bool, payoutsReady: bool)

  datatype ClaimOutcome =
    | Claimed(payout: PayoutId, amountCents: int, nettedCents: int, items: nat)
    | NoAccount
    | NotVerified
    | NotReady
    | NothingPayable
    | Raced

  datatype SendOutcome =
    | SentOk(settled: bool)
    | NoSuchPayout
    | AlreadySettled
    | NoPayoutAccount
    | RefusedForGood
    | RetryLater

  /** This seller's unsettled debts, oldest first. */
  function SeenDebts(debts: seq<Debt>, seller: SellerId): (seen: seq<SeenDebt>)
    ensures forall d <- seen :: d.id < |debts| && debts[d.id] == Debt(seller, d.amountCents, false)
    ensures forall j, k :: 0 <= j < k < |seen| ==> seen[j].id < seen[k].id
    ensures forall i :: 0 <= i < |debts| && debts[i].seller == seller && !debts[i].settled ==>
              SeenDebt(i, debts[i].amountCents) in seen
  {
    if |debts| == 0 then []
    else
      var last := debts[|debts| - 1];
      var before := SeenDebts(debts[..|debts| - 1], seller);
      if last.seller == seller && !last.settled
      then before + [SeenDebt(|debts| - 1, last.amountCents)] else before
  }

  function Offers(payable: seq<Earnings.PayableItem>): (offers: seq<Offer>)
    requires forall p <- payable :: 0 <= p.amountCents
    ensures |offers| == |payable|
    ensures forall k :: 0 <= k < |offers| ==> offers[k] == Offer(payable[k].item, payable[k].amountCents)
  {
    seq(|payable|, k requires 0 <= k < |payable| =>
      assert payable[k] in payable; Offer(payable[k].item, payable[k].amountCents))
  }

  lemma {:induction false} OffersAreOfItems(items: seq<Earnings.Item>, f: Earnings.Facts, now: int)
    ensures forall o <- Offers(Earnings.PayableItems(items, f, now)) :: exists i <- items :: i.id == o.item
  {
    if |items| > 0 {
      var init, last := items[..|items| - 1], items[|items| - 1];
      OffersAreOfItems(init, f, now);
      assert forall o <- Offers(Earnings.PayableItems(items, f, now)) ::
        o.item == last.id || o in Offers(Earnings.PayableItems(init, f, now));
      assert last in items && forall i <- init :: i in items;
    }
  }

  lemma {:induction false} PayableIsInsertable(
      items: seq<Earnings.Item>, f: Earnings.Facts, now: int, lines: seq<Line>)
    requires forall i, j :: 0 <= i < j < |items| ==> items[i].id != items[j].id
    requires f.spokenFor == set l <- lines :: l.item
    ensures Insertable(lines, Offers(Earnings.PayableItems(items, f, now)))
  {
    if |items| > 0 {
      var init, last := items[..|items| - 1], items[|items| - 1];
      PayableIsInsertable(init, f, now, lines);
      OffersAreOfItems(init, f, now);
      var before := Offers(Earnings.PayableItems(init, f, now));
      var after := Offers(Earnings.PayableItems(items, f, now));
      assert forall k :: 0 <= k < |before| ==> after[k] == before[k] && before[k] in before;
      if Earnings.IsPayable(last, f, now) {
        assert after == before + [Offer(last.id, Earnings.LineTotal(last))];
        assert forall i <- init :: i.id != last.id;
      } else {
        assert after == before;
      }
    }
  }

  /** What a claim commits: a payout of what the lines come to less the debts it nets, with
      nothing sent yet, PAID at once if nothing is left; one line for each offer; and of the
      debts it saw the longest oldest-first run that fits settled, and no other touched. */
  lemma ClaimMeans(b: Books, seller: SellerId, offered: seq<Offer>, seen: seq<SeenDebt>) returns (n: nat)
    requires forall d <- seen :: 0 <= d.amountCents
    ensures n <= |seen|
    ensures var after, gross := CommitClaim(b, seller, offered, seen), Sum(offered, (x: Offer) => x.amountCents);
            && |after.payouts| == |b.payouts| + 1 && after.payouts[..|b.payouts|] == b.payouts
            && (forall k :: 0 <= k <= |seen| ==>
                  (Sum(seen[..k], (d: SeenDebt) => d.amountCents) <= gross <==> k <= n))
            && var payout := after.payouts[|b.payouts|];
               && payout.seller == seller && payout.transfer == Unseen && !payout.hasTransferId
               && payout.nettedCents == Sum(seen[..n], (d: SeenDebt) => d.amountCents)
               && payout.amountCents == gross - payout.nettedCents >= 0
               && payout.status == (if payout.amountCents == 0 then Paid else Pending)
    ensures var after := CommitClaim(b, seller, offered, seen);
            && |after.lines| == |b.lines| + |offered| && after.lines[..|b.lines|] == b.lines
            && (forall k :: 0 <= k < |offered| ==>
                  after.lines[|b.lines| + k] == Line(|b.payouts|, offered[k].item, offered[k].amountCents, false))
            && |after.debts| == |b.debts|
            && forall i :: 0 <= i < |b.debts| ==>
                 after.debts[i]
                 == if exists d <- seen[..n] :: d.id == i then b.debts[i].(settled := true) else b.debts[i]
  {
    n := Absorbed(seen, Gross(offered));
    SumEqual(offered, offered, OfferAmount(), (x: Offer) => x.amountCents);
    SumNonNegative(offered, OfferAmount());
    NettedWithinGross(seen, Gross(offered));
    forall k | 0 <= k <= |seen|
      ensures Sum(seen[..k], (d: SeenDebt) => d.amountCents) == Sum(seen[..k], SeenAmount())
      ensures Sum(seen[..k], SeenAmount()) <= Gross(offered) <==> k <= n
    {
      SumEqual(seen[..k], seen[..k], SeenAmount(), (d: SeenDebt) => d.amountCents);
      AbsorbedIsLongestPrefix(seen, Gross(offered), k);
    }
  }

  /** One payout row after `sendClaimedPayout` runs alone. */
  function SentPayout(p: Payout, hasAccount: bool, answer: SendAnswer): Payout {
    if p.status != Pending || !hasAccount || answer == TryLater then p
    else if p.transfer == Declined then (if answer == NoAnswer then p else p.(status := Failed))
    else
      var sent := if p.transfer.Sent? then p.transfer else Sent(p.amountCents, 0);
      match answer
      case Accept => p.(status := Paid, hasTransferId := true, transfer := sent)
      case NoAnswer => p.(transfer := sent)
      case _ =>
        if p.transfer.Sent? then p.(status := Paid, hasTransferId := true)
        else p.(status := Failed, transfer := Declined)
  }

  /** What one attempt at sending leaves of a payout. Only a PENDING one with an account moves.
      It is PAID exactly when the provider answers with a transfer, FAILED exactly when it
      answers that there will be none, and stays PENDING without an answer, whatever went out;
      the provider is never asked for more or less than the amount, nor twice. */
  lemma SendingMeans(p: Payout, hasAccount: bool, answer: SendAnswer)
    requires PayoutOk(p)
    ensures var after := SentPayout(p, hasAccount, answer);
            var made := p.transfer.Sent?;
            && after == p.(status := after.status, hasTransferId := after.hasTransferId, transfer := after.transfer)
            && (p.status != Pending || !hasAccount || answer == TryLater ==> after == p)
            && (made ==> after.transfer == p.transfer)
            && (p.transfer == Declined ==> after.transfer == Declined)
            && (p.status == Pending && hasAccount && p.transfer == Unseen ==>
                  after.transfer == match answer
                    case Accept => Sent(p.amountCents, 0)
                    case NoAnswer => Sent(p.amountCents, 0)
                    case TryLater => Unseen
                    case RefuseForGood => Declined)
            && (p.status == Pending && hasAccount ==>
                  && (after.status == Paid
                      <==> answer != TryLater && answer != NoAnswer && after.transfer.Sent?)
                  && (after.status == Failed
                      <==> answer != TryLater && answer != NoAnswer && after.transfer == Declined)
                  && (after.hasTransferId <==> after.status == Paid))
  {
  }

  function SendStatementsLeft(stage: SendStage): nat {
    match stage
    case Loading(_) => 3
    case Transferring(_) => 2
    case Confirming => 1
    case Failing => 1
    case _ => 0
  }

  function SendToEnd(p: Payout, stage: SendStage, answer: SendAnswer): Payout
    decreases SendStatementsLeft(stage)
  {
    if stage.SentBy? || stage.NotSent? then p
    else var (p', stage') := AdvanceSender(p, stage, answer); SendToEnd(p', stage', answer)
  }

  lemma SenderAloneSends(p: Payout, hasAccount: bool, answer: SendAnswer)
    requires PayoutOk(p)
    ensures SendToEnd(p, Loading(hasAccount), answer) == SentPayout(p, hasAccount, answer)
  {
    var (p1, s1) := AdvanceSender(p, Loading(hasAccount), answer);
    var (p2, s2) := AdvanceSender(p1, s1, answer);
    assert SendToEnd(p, Loading(hasAccount), answer) == SendToEnd(p1, s1, answer);
    assert s1 != NotSent ==> SendToEnd(p1, s1, answer) == SendToEnd(p2, s2, answer);
  }

  /** What the provider gives back leaves the transfer, and the rest of the target becomes a debt. */
  function ClawedFrom(b: Books, l: LineId, target: int, answer: ReverseAnswer): Books
    requires l < |b.lines| && b.lines[l].payout < |b.payouts|
  {
    var p := b.lines[l].payout;
    var t := b.payouts[p].transfer;
    var back := Reverses(t, target, answer);
    var heard := if answer.BackUnheard? then 0 else back;
    Books(
      if t.Sent? then b.payouts[p := b.payouts[p].(transfer := Sent(t.amountCents, t.reversedCents + back))]
      else b.payouts,
      b.lines,
      if heard < target then b.debts + [Debt(b.payouts[p].seller, target - heard, false)] else b.debts)
  }

  /** The books after `reverseForRefund` runs alone: the line is marked, and what the
      provider does not give back is a debt of the payout's seller. */
  function ClawedBack(b: Books, item: ItemId, refundedCents: int, answer: ReverseAnswer): Books {
    match Find(b, item, refundedCents)
    case Claiming(l, target, viaTransfer) =>
      if l >= |b.lines| || b.lines[l].payout >= |b.payouts| then b
      else
        var marked := b.(lines := b.lines[l := b.lines[l].(reversed := true)]);
        if viaTransfer then ClawedFrom(marked, l, target, answer) else marked
    case _ => b
  }

  function ReverseStatementsLeft(stage: ReverseStage): nat {
    match stage
    case Finding => 4
    case Claiming(_, _, _) => 3
    case Reversing(_, _) => 2
    case Recording(_, _, _, _) => 1
    case _ => 0
  }

  ghost function ReverseToEnd(b: Books, r: Reversal, answer: ReverseAnswer): Books
    requires StageOnBooks(b, r.stage)
    decreases ReverseStatementsLeft(r.stage)
  {
    if ReverseStatementsLeft(r.stage) == 0 then b
    else var (b', stage') := AdvanceReverser(b, r, answer); ReverseToEnd(b', r.(stage := stage'), answer)
  }

  lemma ReversingRuns(b: Books, r: Reversal, answer: ReverseAnswer)
    requires r.stage.Reversing? && StageOnBooks(b, r.stage)
    ensures ReverseToEnd(b, r, answer) == ClawedFrom(b, r.stage.line, r.stage.targetCents, answer)
  {
    var (b1, stage1) := AdvanceReverser(b, r, answer);
    var (b2, stage2) := AdvanceReverser(b1, r.(stage := stage1), answer);
    assert ReverseToEnd(b, r, answer) == ReverseToEnd(b1, r.(stage := stage1), answer);
    assert ReverseToEnd(b1, r.(stage := stage1), answer) == b2;
  }

  /** The interleaved machine and the uninterrupted function agree. */
  lemma ReverserAloneClawsBack(b: Books, item: ItemId, refundedCents: int, answer: ReverseAnswer)
    ensures ReverseToEnd(b, Reversal(item, refundedCents, Finding), answer)
            == ClawedBack(b, item, refundedCents, answer)
  {
    var found := Reversal(item, refundedCents, Find(b, item, refundedCents));
    assert ReverseToEnd(b, Reversal(item, refundedCents, Finding), answer) == ReverseToEnd(b, found, answer);
    if found.stage.Claiming? {
      var (b1, stage1) := AdvanceReverser(b, found, answer);
      assert ReverseToEnd(b, found, answer) == ReverseToEnd(b1, found.(stage := stage1), answer);
      if stage1.Reversing? {
        ReversingRuns(b1, found.(stage := stage1), answer);
      }
    }
  }

  /** All PENDING payouts, oldest first. */
  function PendingIds(payouts: seq<Payout>): (ids: seq<PayoutId>)
    ensures forall k :: 0 <= k < |ids| ==> ids[k] < |payouts| && payouts[ids[k]].status == Pending
    ensures forall j, k :: 0 <= j < k < |ids| ==> ids[j] < ids[k]
    ensures forall p :: 0 <= p < |payouts| && payouts[p].status == Pending ==> p in ids
  {
    if |payouts| == 0 then []
    else
      var before := PendingIds(payouts[..|payouts| - 1]);
      if payouts[|payouts| - 1].status == Pending then before + [|payouts| - 1] else before
  }

  /** The payouts after each of `ids` was sent in turn. */
  function SentAll(payouts: seq<Payout>, ids: seq<PayoutId>, accounts: PayoutId -> bool,
      answers: PayoutId -> SendAnswer): (after: seq<Payout>)
    ensures |after| == |payouts|
  {
    if |ids| == 0 then payouts
    else
      var before, p := SentAll(payouts, ids[..|ids| - 1], accounts, answers), ids[|ids| - 1];
      if p < |before| then before[p := SentPayout(before[p], accounts(p), answers(p))] else before
  }

  function SettledNow(payouts: seq<Payout>, accounts: PayoutId -> bool, answers: PayoutId -> SendAnswer)
      : PayoutId -> int
  {
    (p: PayoutId) =>
      if p < |payouts| && SentPayout(payouts[p], accounts(p), answers(p)).status == Paid then 1 else 0
  }

  /** Each listed payout is sent exactly once and no other is touched. */
  lemma {:induction false} SentAllOnce(
      payouts: seq<Payout>, ids: seq<PayoutId>, accounts: PayoutId -> bool, answers: PayoutId -> SendAnswer,
      q: PayoutId)
    requires q < |payouts|
    requires forall j, k :: 0 <= j < k < |ids| ==> ids[j] != ids[k]
    ensures SentAll(payouts, ids, accounts, answers)[q]
            == if q in ids then SentPayout(payouts[q], accounts(q), answers(q)) else payouts[q]
  {
    if |ids| > 0 {
      var init, p := ids[..|ids| - 1], ids[|ids| - 1];
      SentAllOnce(payouts, init, accounts, answers, q);
      assert p !in init;
      assert q in ids <==> q in init || q == p;
    }
  }

  /** The k-th payout of a pass is still as the pass found it when its turn comes. */
  lemma NextSent(payouts: seq<Payout>, ids: seq<PayoutId>, k: nat,
      accounts: PayoutId -> bool, answers: PayoutId -> SendAnswer)
    requires k < |ids| && ids[k] < |payouts| && ids[k] !in ids[..k]
    ensures var p := ids[k];
            var before := SentAll(payouts, ids[..k], accounts, answers);
            && before[p] == payouts[p]
            && SentAll(payouts, ids[..k + 1], accounts, answers)
               == before[p := SentPayout(payouts[p], accounts(p), answers(p))]
  {
    NotSentYet(payouts, ids[..k], accounts, answers, ids[k]);
    SentOneMore(payouts, ids[..k], ids[k], accounts, answers);
    PrefixNext(ids, k);
  }

  lemma {:induction false} NotSentYet(
      payouts: seq<Payout>, ids: seq<PayoutId>, accounts: PayoutId -> bool, answers: PayoutId -> SendAnswer,
      q: PayoutId)
    requires q < |payouts| && q !in ids
    ensures SentAll(payouts, ids, accounts, answers)[q] == payouts[q]
  {
    if |ids| > 0 {
      assert ids[|ids| - 1] in ids;
      NotSentYet(payouts, ids[..|ids| - 1], accounts, answers, q);
    }
  }

  lemma SentOneMore(payouts: seq<Payout>, ids: seq<PayoutId>, p: PayoutId,
      accounts: PayoutId -> bool, answers: PayoutId -> SendAnswer)
    requires p < |payouts|
    ensures var before := SentAll(payouts, ids, accounts, answers);
            SentAll(payouts, ids + [p], accounts, answers)
            == before[p := SentPayout(before[p], accounts(p), answers(p))]
  {
    assert (ids + [p])[..|ids|] == ids;
  }

  datatype Counted = Settled | Raced | NotSettled

  /** What a clawback hears of comes off the transfer, as much as was offered, wanted and
      left; what it does not hear of is owed, even if some of it came back. */
  ghost predicate GivesBack(before: Payout, after: Payout, answer: ReverseAnswer, reversedCents: int, debtCents: int) {
    && before.transfer.Sent? && after.transfer.Sent?
    && after == before.(transfer := Sent(before.transfer.amountCents, after.transfer.reversedCents))
    && var left, back := before.transfer.amountCents - before.transfer.reversedCents,
                         after.transfer.reversedCents - before.transfer.reversedCents;
       match answer
       case Back(x) => && reversedCents == back && back <= x && back <= left && 0 <= debtCents
                       && (back == x || back == left || debtCents == 0)
       case Refuse => reversedCents == back == 0
       case BackUnheard(x) => && reversedCents == 0 && 0 <= back <= x && back <= left && back <= debtCents
                              && (back == x || back == left || back == debtCents)
  }

  lemma ReverseGivesBack(p: Payout, targetCents: int, answer: ReverseAnswer)
    requires PayoutOk(p) && p.hasTransferId && 0 < targetCents
    ensures var back := Reverses(p.transfer, targetCents, answer);
            var heard := if answer.BackUnheard? then 0 else back;
            && 0 <= back <= targetCents && p.transfer.Sent?
            && var after := p.(transfer := Sent(p.transfer.amountCents, p.transfer.reversedCents + back));
               GivesBack(p, after, answer, heard, targetCents - heard)
  {
  }

  class PayoutDesk {
    var payouts: seq<Payout>
    var lines: seq<Line>
    var debts: seq<Debt>

    ghost function View(): Books
      reads this
    {
      Books(payouts, lines, debts)
    }

    ghost predicate Valid()
      reads this
    {
      && (forall p :: 0 <= p < |payouts| ==> PayoutOk(payouts[p]))
      && (forall l :: 0 <= l < |lines| ==> lines[l].payout < |payouts|)
      && OneLinePerItem(lines)
    }

    /** The transaction of `claimPayout`. A violated constraint rolls it back whole. */
    method InsertPayout(seller: SellerId, offered: seq<Offer>, seen: seq<SeenDebt>) returns (inserted: bool)
      requires Valid()
      modifies this
      ensures Valid()
      ensures inserted <==> Insertable(old(lines), offered)
      ensures View() == if inserted then CommitClaim(old(View()), seller, offered, seen) else old(View())
    {
      if !Insertable(lines, offered) { return false; }
      var remaining, settling := NetDebts(seen, Sum(offered, OfferAmount()));
      var netted := Sum(offered, OfferAmount()) - remaining;
      var payout := if remaining <= 0 then Payout(seller, 0, netted, Paid, false, Unseen)
                    else Payout(seller, remaining, netted, Pending, false, Unseen);
      lines := lines + NewLines(offered, |payouts|);
      payouts := payouts + [payout];
      debts := SettleDebts(debts, settling);
      return true;
    }

    /** Uninterrupted, the claim takes every payable line and never races. */
    method ClaimPayout(seller: SellerId, gates: Gates, items: seq<Earnings.Item>, refunded: set<ItemId>,
                       holdMs: nat, now: int) returns (r: ClaimOutcome)
      requires Valid()
      requires forall i, j :: 0 <= i < j < |items| ==> items[i].id != items[j].id
      modifies this
      ensures Valid()
      ensures !gates.hasAccount ==> r == NoAccount
      ensures gates.hasAccount && !gates.payoutsEnabled ==> r == NotVerified
      ensures gates.hasAccount && gates.payoutsEnabled && !gates.payoutsReady ==> r == NotReady
      ensures r in {NoAccount, NotVerified, NotReady} ==> View() == old(View())
      ensures gates == Gates(true, true, true) ==>
                var spoken := set l <- old(lines) :: l.item;
                var payable := Earnings.PayableItems(items, Earnings.Facts(refunded, spoken, holdMs), now);
                var offered, seen := Offers(payable), SeenDebts(old(debts), seller);
                var remaining := Gross(offered) - Netted(offered, seen);
                if |payable| == 0 then r == NothingPayable && View() == old(View())
                else && View() == CommitClaim(old(View()), seller, offered, seen)
                     && 0 <= remaining
                     && r == if remaining == 0 then NothingPayable
                             else Claimed(|old(payouts)|, remaining, Netted(offered, seen), |payable|)
    {
      if !gates.hasAccount { return NoAccount; }
      if !gates.payoutsEnabled { return NotVerified; }
      if !gates.payoutsReady { return NotReady; }

      r := ClaimPayable(seller, items, refunded, holdMs, now);
    }

    method ClaimPayable(seller: SellerId, items: seq<Earnings.Item>, refunded: set<ItemId>, holdMs: nat, now: int)
        returns (r: ClaimOutcome)
      requires Valid()
      requires forall i, j :: 0 <= i < j < |items| ==> items[i].id != items[j].id
      modifies this
      ensures Valid()
      ensures var spoken := set l <- old(lines) :: l.item;
              var payable := Earnings.PayableItems(items, Earnings.Facts(refunded, spoken, holdMs), now);
              var offered, seen := Offers(payable), SeenDebts(old(debts), seller);
              var remaining := Gross(offered) - Netted(offered, seen);
              if |payable| == 0 then r == NothingPayable && View() == old(View())
              else && View() == CommitClaim(old(View()), seller, offered, seen)
                   && 0 <= remaining
                   && r == if remaining == 0 then NothingPayable
                           else Claimed(|old(payouts)|, remaining, Netted(offered, seen), |payable|)
    {
      var spoken := set l <- lines :: l.item;
      var facts := Earnings.Facts(refunded, spoken, holdMs);
      var payable := Earnings.PayableItems(items, facts, now);
      if |payable| == 0 { return NothingPayable; }

      var offered := Offers(payable);
      var seen := SeenDebts(debts, seller);
      PayableIsInsertable(items, facts, now, lines);
      SumNonNegative(offered, OfferAmount());
      NettedWithinGross(seen, Gross(offered));
      var inserted := InsertPayout(seller, offered, seen);
      if !inserted { return ClaimOutcome.Raced; }
      var remaining := payouts[|payouts| - 1].amountCents;
      if remaining <= 0 { return NothingPayable; }
      return Claimed(|payouts| - 1, remaining, payouts[|payouts| - 1].nettedCents, |payable|);
    }

    method SendClaimedPayout(p: PayoutId, hasAccount: bool, answer: SendAnswer) returns (r: SendOutcome)
      requires Valid()
      modifies this`payouts
      ensures Valid()
      ensures payouts == if p < |old(payouts)| then old(payouts)[p := SentPayout(old(payouts)[p], hasAccount, answer)]
                         else old(payouts)
      ensures r == (if p >= |old(payouts)| then NoSuchPayout
                    else if old(payouts)[p].status != Pending then AlreadySettled
                    else if !hasAccount then NoPayoutAccount
                    else match payouts[p].status {
                           case Paid => SentOk(true)
                           case Failed => RefusedForGood
                           case Pending => RetryLater
                         })
    {
      if p >= |payouts| { return NoSuchPayout; }
      var payout := payouts[p];
      assert PayoutOk(payout);
      if payout.status != Pending { return AlreadySettled; }
      if !hasAccount { return NoPayoutAccount; }

      var (transfer, next) := CallTransfer(payout, payout.amountCents, answer);
      payouts := payouts[p := payout.(transfer := transfer)];
      if next == Confirming {
        var settled := payouts[p].status == Pending;
        if settled {
          payouts := payouts[p := payouts[p].(status := Paid, hasTransferId := true)];
        }
        return SentOk(settled);
      }
      if next == Failing {
        payouts := payouts[p := payouts[p].(status := Failed)];
        return RefusedForGood;
      }
      return RetryLater;
    }

    /** How one payout of a pass is counted. */
    method SendPending(p: PayoutId, hasAccount: bool, answer: SendAnswer) returns (counted: Counted)
      requires Valid() && p < |payouts| && payouts[p].status == Pending
      modifies this`payouts
      ensures Valid()
      ensures payouts == old(payouts)[p := SentPayout(old(payouts)[p], hasAccount, answer)]
      ensures counted == if payouts[p].status == Paid then Settled else NotSettled
    {
      var outcome := SendClaimedPayout(p, hasAccount, answer);
      return if outcome.SentOk? then (if outcome.settled then Settled else Counted.Raced)
             else if outcome == AlreadySettled || outcome == NoSuchPayout then Counted.Raced
             else NotSettled;
    }

    /** The loop of the pass. */
    method SendEach(ids: seq<PayoutId>, accounts: PayoutId -> bool, answers: PayoutId -> SendAnswer)
        returns (sent: int, failed: int, raced: int)
      requires Valid()
      requires forall k :: 0 <= k < |ids| ==> ids[k] < |payouts| && payouts[ids[k]].status == Pending
      requires forall i, j :: 0 <= i < j < |ids| ==> ids[i] != ids[j]
      modifies this`payouts
      ensures Valid()
      ensures payouts == SentAll(old(payouts), ids, accounts, answers)
      ensures sent + failed == |ids| && raced == 0
      ensures sent == Sum(ids, SettledNow(old(payouts), accounts, answers))
    {
      ghost var before := payouts;
      sent, failed, raced := 0, 0, 0;
      for k := 0 to |ids|
        invariant Valid()
        invariant payouts == SentAll(before, ids[..k], accounts, answers)
        invariant sent + failed == k && raced == 0
        invariant sent == Sum(ids[..k], SettledNow(before, accounts, answers))
      {
        assert ids[k] !in ids[..k];
        NextSent(before, ids, k, accounts, answers);
        SumPrefix(ids, k, SettledNow(before, accounts, answers));
        var outcome := SendPending(ids[k], accounts(ids[k]), answers(ids[k]));
        if outcome == Settled {
          sent := sent + 1;
        } else if outcome == Counted.Raced {
          raced := raced + 1;
        } else {
          failed := failed + 1;
        }
      }
      assert ids[..|ids|] == ids;
    }

    /** One pass over the oldest `limit` pending payouts; the counters account for all of them. */
    method SendPendingPayouts(limit: nat, accounts: PayoutId -> bool, answers: PayoutId -> SendAnswer)
      returns (sent: int, failed: int, raced: int, considered: nat)
      requires Valid()
      modifies this`payouts
      ensures Valid()
      ensures considered == Min(limit, |PendingIds(old(payouts))|)
      ensures payouts == SentAll(old(payouts), PendingIds(old(payouts))[..considered], accounts, answers)
      ensures sent + failed == considered && raced == 0
      ensures sent == Sum(PendingIds(old(payouts))[..considered], SettledNow(old(payouts), accounts, answers))
    {
      var pending := PendingIds(payouts);
      pending := pending[..Min(limit, |pending|)];
      considered := |pending|;
      sent, failed, raced := SendEach(pending, accounts, answers);
    }

    /** What the provider gives back of one transfer. */
    method ReverseTransfer(p: PayoutId, targetCents: int, answer: ReverseAnswer) returns (back: int)
      requires p < |payouts|
      modifies this`payouts
      ensures back == Reverses(old(payouts)[p].transfer, targetCents, answer)
      ensures payouts == var t := old(payouts)[p].transfer;
                         if t.Sent? then
                           old(payouts)[p := old(payouts)[p].(transfer := Sent(t.amountCents, t.reversedCents + back))]
                         else old(payouts)
    {
      back := Reverses(payouts[p].transfer, targetCents, answer);
      if payouts[p].transfer.Sent? {
        var t := payouts[p].transfer;
        payouts := payouts[p := payouts[p].(transfer := Sent(t.amountCents, t.reversedCents + back))];
      }
    }

    /** The provider call of the clawback, and the debt for what it does not bring back. */
    method Recover(l: LineId, targetCents: int, answer: ReverseAnswer) returns (reversedCents: int, debtCents: int)
      requires Valid() && l < |lines| && 0 < targetCents <= lines[l].amountCents
      requires payouts[lines[l].payout].hasTransferId
      modifies this`payouts, this`debts
      ensures Valid()
      ensures View() == ClawedFrom(old(View()), l, targetCents, answer)
      ensures reversedCents + debtCents == targetCents && 0 <= reversedCents && 0 <= debtCents
      ensures var p := lines[l].payout;
              && p < |payouts| && GivesBack(old(payouts)[p], payouts[p], answer, reversedCents, debtCents)
              && debts == old(debts) + (if debtCents > 0 then [Debt(old(payouts)[p].seller, debtCents, false)] else [])
              && |payouts| == |old(payouts)|
              && forall q :: 0 <= q < |payouts| && q != p ==> payouts[q] == old(payouts)[q]
    {
      var p := lines[l].payout;
      assert PayoutOk(payouts[p]);
      CallReverseOk(View(), l, targetCents, answer);
      ReverseGivesBack(payouts[p], targetCents, answer);
      var back := ReverseTransfer(p, targetCents, answer);
      reversedCents := if answer.BackUnheard? then 0 else back;
      debtCents := targetCents - reversedCents;
      if debtCents > 0 {
        debts := debts + [Debt(payouts[p].seller, debtCents, false)];
      }
    }

    /** What the seller no longer has is either back or owed: of the refunded item's line the
        smaller of what was paid for it and what was refunded, and of no other line anything. */
    method ReverseForRefund(item: ItemId, refundedCents: int, answer: ReverseAnswer)
      returns (nothing: bool, reversedCents: int, debtCents: int)
      requires Valid()
      modifies this
      ensures Valid()
      ensures View() == ClawedBack(old(View()), item, refundedCents, answer)
      ensures nothing ==> View() == old(View()) && reversedCents == debtCents == 0
      ensures !nothing <==> exists l :: && 0 <= l < |old(lines)| && old(lines)[l].item == item
                                        && !old(lines)[l].reversed && old(payouts)[old(lines)[l].payout].status == Paid
                                        && 0 < old(lines)[l].amountCents && 0 < refundedCents
      ensures forall l :: 0 <= l < |old(lines)| && old(lines)[l].item == item && !nothing ==>
                var p := old(lines)[l].payout;
                && lines == old(lines)[l := old(lines)[l].(reversed := true)]
                && reversedCents + debtCents == (if !old(payouts)[p].hasTransferId then 0
                                                 else if old(lines)[l].amountCents < refundedCents
                                                      then old(lines)[l].amountCents else refundedCents)
                && debts == old(debts)
                            + (if debtCents > 0 then [Debt(old(payouts)[p].seller, debtCents, false)] else [])
                && |payouts| == |old(payouts)|
                && (forall q :: 0 <= q < |payouts| && q != p ==> payouts[q] == old(payouts)[q])
                && (old(payouts)[p].hasTransferId ==>
                      GivesBack(old(payouts)[p], payouts[p], answer, reversedCents, debtCents))
    {
      ghost var before := View();
      var found := Find(Books(payouts, lines, debts), item, refundedCents);
      LineOfFinds(lines, item);
      if !found.Claiming? { return true, 0, 0; }
      var l := found.line;
      var p := lines[l].payout;
      var target := found.targetCents;
      lines := lines[l := lines[l].(reversed := true)];
      assert forall m :: 0 <= m < |before.lines| && before.lines[m].item == item ==> m == l;
      if !payouts[p].hasTransferId { return false, 0, 0; }

      reversedCents, debtCents := Recover(l, target, answer);
      return false, reversedCents, debtCents;
    }
  }
}
