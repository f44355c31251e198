/** The delivery ledger (backend/src/lib/deliveryLedger.ts) and the sweep over what
quiet hours parked (backend/src/lib/deferredDeliveries.ts).

One row per event and channel, by a uniqueness constraint. A send is allowed only to
whoever moved the row into PENDING.
*/
module DeliveryLedger {
  import opened Tables

  type EventId = nat

  const MAX_AGE_MS: int := 24 * 3600_000
  const SWEEP_BATCH: nat := 100

  datatype Channel = Email | Push | Sms

  datatype Key = Key(event: EventId, channel: Channel)

  datatype Status = Pending | Sent | Failed | Suppressed | Deferred

  datatype Delivery = Delivery(status: Status, notBefore: Option<int>, createdAt: int, attempts: nat)

  type Rows = map<Key, Delivery>

  /** How `send` ends: it returns, or throws one of the ledger's errors or any other. */
  datatype Answer =
    | Accepted
    | NothingToDeliverTo
    | DeferDelivery(notBefore: int)
    | PermanentFailure
    | TransientFailure

  datatype Outcome = WasSent | Duplicate | WasSuppressed | WasFailed | WantsRetry | WasDeferred

  /* ------------------------------------------------------------------ *
   * One statement each
   * ------------------------------------------------------------------ */

  function Fresh(status: Status, now: int): Delivery {
    Delivery(status, None, now, if status == Pending then 1 else 0)
  }

  /** An INSERT under the uniqueness constraint: a row that is there already wins. */
  function Insert(rows: Rows, k: Key, status: Status, now: int): Rows {
    if k in rows then rows else rows[k := Fresh(status, now)]
  }

  predicate HasStatus(rows: Rows, k: Key, status: Status) { k in rows && rows[k].status == status }

  function Retake(d: Delivery): Delivery { d.(status := Pending, attempts := d.attempts + 1) }

  /** `status: FAILED` in the WHERE clause is the claim. */
  function Reclaim(rows: Rows, k: Key): Rows {
    if HasStatus(rows, k, Failed) then rows[k := Retake(rows[k])] else rows
  }

  predicate IsDue(d: Delivery, now: int) {
    d.status == Deferred && d.notBefore.Some? && d.notBefore.value <= now
  }

  predicate DueAt(rows: Rows, k: Key, now: int) { k in rows && IsDue(rows[k], now) }

  /** `status: DEFERRED` and `notBefore` in the WHERE clause are the claim. */
  function TakeDeferred(rows: Rows, k: Key, now: int): Rows {
    if DueAt(rows, k, now) then rows[k := Retake(rows[k])] else rows
  }

  /** `markSent`, `markSuppressed`, `markDeferred` and `markFailed`, each an update by id. */
  function Marked(d: Delivery, answer: Answer): Delivery {
    match answer
    case Accepted => d.(status := Sent, notBefore := None)
    case NothingToDeliverTo => d.(status := Suppressed, notBefore := None)
    case DeferDelivery(t) => d.(status := Deferred, notBefore := Some(t))
    case _ => d.(status := Failed, notBefore := None)
  }

  function Mark(rows: Rows, k: Key, answer: Answer): Rows {
    if k in rows then rows[k := Marked(rows[k], answer)] else rows
  }

  function OutcomeAfter(answer: Answer): Outcome {
    match answer
    case Accepted => WasSent
    case NothingToDeliverTo => WasSuppressed
    case DeferDelivery(_) => WasDeferred
    case PermanentFailure => WasFailed
    case TransientFailure => WantsRetry
  }

  /* ------------------------------------------------------------------ *
   * A whole delivery, uninterrupted
   * ------------------------------------------------------------------ */

  /** Who may call the provider: a first delivery, or a ladder message finding its own failure. */
  predicate MaySend(rows: Rows, k: Key, wanted: bool, reclaim: bool) {
    wanted && (k !in rows || (reclaim && rows[k].status == Failed))
  }

  /** The row one delivery leaves. */
  function AfterDelivery(rows: Rows, k: Key, wanted: bool, reclaim: bool, answer: Answer, now: int): Rows {
    if MaySend(rows, k, wanted, reclaim) then
      rows[k := Marked(if k in rows then Retake(rows[k]) else Fresh(Pending, now), answer)]
    else if k in rows then rows
    else rows[k := Fresh(Suppressed, now)]
  }

  /** How an answer is written down. */
  ghost predicate WrittenDown(before: Delivery, after: Delivery, answer: Answer) {
    && after.createdAt == before.createdAt
    && match answer
       case Accepted => after.status == Sent && after.notBefore == None
       case NothingToDeliverTo => after.status == Suppressed && after.notBefore == None
       case DeferDelivery(t) => after.status == Deferred && after.notBefore == Some(t)
       case PermanentFailure => after.status == Failed && after.notBefore == None
       case TransientFailure => after.status == Failed && after.notBefore == None
  }

  /** The three statements that claim. An insert wins only where there is no row, a retry only
      over a FAILED row, a sweeper only over a parked row whose time has come, and each take
      counts an attempt. */
  lemma ClaimsMean(rows: Rows, k: Key, status: Status, now: int)
    ensures Insert(rows, k, status, now)
            == if k in rows then rows
               else rows[k := Delivery(status, None, now, if status == Pending then 1 else 0)]
    ensures Reclaim(rows, k)
            == if k in rows && rows[k].status == Failed
               then rows[k := rows[k].(status := Pending, attempts := rows[k].attempts + 1)] else rows
    ensures TakeDeferred(rows, k, now)
            == if k in rows && rows[k].status == Deferred && rows[k].notBefore.Some? && rows[k].notBefore.value <= now
               then rows[k := rows[k].(status := Pending, attempts := rows[k].attempts + 1)] else rows
  {
  }

  /** One delivery by its message: an unwanted channel gets a SUPPRESSED row if it had none; a
      first delivery a new row, a retry of a FAILED one its row, with one attempt more and the
      answer on it; and every other row stays. The provider is asked in just those two cases,
      and only a transient failure of it goes on up the ladder. */
  lemma DeliveryMeans(rows: Rows, k: Key, wanted: bool, reclaim: bool, answer: Answer, now: int)
    ensures var after := AfterDelivery(rows, k, wanted, reclaim, answer, now);
            && k in after && after.Keys == rows.Keys + {k} && (forall q <- rows :: q != k ==> after[q] == rows[q])
            && (MaySend(rows, k, wanted, reclaim)
                <==> wanted && (k !in rows || (reclaim && rows[k].status == Failed)))
            && (wanted && k !in rows ==>
                  WrittenDown(after[k], after[k], answer) && after[k].attempts == 1 && after[k].createdAt == now)
            && (wanted && k in rows && reclaim && rows[k].status == Failed ==>
                  WrittenDown(rows[k], after[k], answer) && after[k].attempts == rows[k].attempts + 1)
            && (k in rows && !(wanted && reclaim && rows[k].status == Failed) ==> after == rows)
            && (!wanted && k !in rows ==> after[k] == Delivery(Suppressed, None, now, 0))
    ensures (OutcomeAfter(answer) == WantsRetry <==> answer == TransientFailure)
            && (OutcomeAfter(answer) == WasSent <==> answer == Accepted)
            && (OutcomeAfter(answer) == WasDeferred <==> answer.DeferDelivery?)
            && (OutcomeAfter(answer) == WasSuppressed <==> answer == NothingToDeliverTo)
            && (OutcomeAfter(answer) == WasFailed <==> answer == PermanentFailure)
  {
  }

  /** What a mark leaves open. A SENT or SUPPRESSED row can be claimed by nobody, ever; a
      parked one by nobody but the sweeper, from its time on; a FAILED one by nobody but
      a ladder message. No mark counts an attempt or forgets when the row was made. */
  lemma MarksDecideWhoMayClaim(rows: Rows, k: Key, answer: Answer, wanted: bool, reclaim: bool, now: int)
    requires k in rows
    ensures var after := Mark(rows, k, answer);
            && WrittenDown(rows[k], after[k], answer)
            && (MaySend(after, k, wanted, reclaim)
                <==> wanted && reclaim && (answer == PermanentFailure || answer == TransientFailure))
            && (DueAt(after, k, now) <==> answer.DeferDelivery? && answer.notBefore <= now)
            && after[k].attempts == rows[k].attempts && after[k].createdAt == rows[k].createdAt
            && forall q <- rows :: q != k ==> after[q] == rows[q]
  {
  }

  datatype Claim = Claimed | NotClaimed(suppressed: bool)

  class Ledger {
    var rows: Rows
    /** Every call to a provider, in order. */
    ghost var sends: seq<Key>

    method Claim(k: Key, wanted: bool, reclaim: bool, now: int) returns (c: Claim)
      modifies this`rows
      ensures c == Claimed <==> MaySend(old(rows), k, wanted, reclaim)
      ensures c.NotClaimed? ==> (c.suppressed <==> !wanted)
      ensures rows == if !wanted then Insert(old(rows), k, Suppressed, now)
                      else if k !in old(rows) then Insert(old(rows), k, Pending, now)
                      else if reclaim then Reclaim(old(rows), k) else old(rows)
    {
      if !wanted {
        if k !in rows { rows := rows[k := Delivery(Suppressed, None, now, 0)]; }
        return NotClaimed(true);
      }
      if k !in rows {
        rows := rows[k := Delivery(Pending, None, now, 1)];
        return Claimed;
      }
      if !reclaim { return NotClaimed(false); }
      c := ReclaimFailed(k);
    }

    method ReclaimFailed(k: Key) returns (c: Claim)
      modifies this`rows
      ensures c == if HasStatus(old(rows), k, Failed) then Claimed else NotClaimed(false)
      ensures rows == Reclaim(old(rows), k)
    {
      if k !in rows || rows[k].status != Failed { return NotClaimed(false); }
      rows := rows[k := rows[k].(status := Pending, attempts := rows[k].attempts + 1)];
      return Claimed;
    }

    method MarkSent(k: Key)
      requires k in rows
      modifies this`rows
      ensures rows == Mark(old(rows), k, Accepted)
    {
      rows := rows[k := rows[k].(status := Sent, notBefore := None)];
    }

    method MarkSuppressed(k: Key)
      requires k in rows
      modifies this`rows
      ensures rows == Mark(old(rows), k, NothingToDeliverTo)
    {
      rows := rows[k := rows[k].(status := Suppressed, notBefore := None)];
    }

    method MarkDeferred(k: Key, notBefore: int)
      requires k in rows
      modifies this`rows
      ensures rows == Mark(old(rows), k, DeferDelivery(notBefore))
    {
      rows := rows[k := rows[k].(status := Deferred, notBefore := Some(notBefore))];
    }

    method MarkFailed(k: Key, permanent: bool)
      requires k in rows
      modifies this`rows
      ensures rows == Mark(old(rows), k, if permanent then PermanentFailure else TransientFailure)
    {
      rows := rows[k := rows[k].(status := Failed, notBefore := None)];
    }

    /** The provider is called, then its answer is written down. */
    method SendAndSettle(k: Key, answer: Answer) returns (o: Outcome)
      requires k in rows
      modifies this
      ensures rows == Mark(old(rows), k, answer) && o == OutcomeAfter(answer)
      ensures sends == old(sends) + [k]
    {
      sends := sends + [k];
      match answer
      case Accepted => MarkSent(k); return WasSent;
      case NothingToDeliverTo => MarkSuppressed(k); return WasSuppressed;
      case DeferDelivery(t) => MarkDeferred(k, t); return WasDeferred;
      case PermanentFailure => MarkFailed(k, true); return WasFailed;
      case TransientFailure => MarkFailed(k, false); return WantsRetry;
    }

    /** `answer` is what the provider would say; it is asked only under a claim. */
    method Deliver(k: Key, wanted: bool, reclaim: bool, answer: Answer, now: int) returns (o: Outcome)
      modifies this
      ensures rows == AfterDelivery(old(rows), k, wanted, reclaim, answer, now)
      ensures sends == old(sends) + if MaySend(old(rows), k, wanted, reclaim) then [k] else []
      ensures o == (if MaySend(old(rows), k, wanted, reclaim) then OutcomeAfter(answer)
                    else if wanted then Duplicate else WasSuppressed)
    {
      var c := Claim(k, wanted, reclaim, now);
      if c.NotClaimed? {
        return if c.suppressed then WasSuppressed else Duplicate;
      }
      o := SendAndSettle(k, answer);
    }

    method RedeliverDeferred(k: Key, answer: Answer, now: int) returns (o: Outcome)
      modifies this
      ensures rows == if DueAt(old(rows), k, now) then old(rows)[k := Marked(Retake(old(rows)[k]), answer)]
                      else old(rows)
      ensures sends == old(sends) + if DueAt(old(rows), k, now) then [k] else []
      ensures o == if DueAt(old(rows), k, now) then OutcomeAfter(answer) else Duplicate
    {
      if !DueAt(rows, k, now) { return Duplicate; }
      rows := rows[k := rows[k].(status := Pending, attempts := rows[k].attempts + 1)];
      o := SendAndSettle(k, answer);
    }

    /** One row of the sweep's list, as the code decides it. The row may have been claimed
        or settled since it was listed, and only the redelivery looks again. */
    method SweepRow(k: Key, found: bool, answer: Answer, now: int) returns (act: SweepAct)
      requires k in rows
      modifies this
      ensures act == ActOn(old(rows)[k], k, found, answer, now)
      ensures rows == old(rows)[k := SweptRow(old(rows)[k], k, found, answer, now)]
      ensures sends == old(sends) + if Sends(act) then [k] else []
    {
      if rows[k].createdAt < now - MAX_AGE_MS {
        MarkSuppressed(k);
        return Expire;
      }
      if k.channel != Sms { return Skip; }
      if !found {
        MarkSuppressed(k);
        return Expire;
      }
      var o := RedeliverDeferred(k, answer, now);
      return if o == WasSent then Send else if o == Duplicate then Skip else TrySend;
    }

    /** The loop of the sweep. `found` says whether a row's notification still exists,
        `answers` what the provider would say. */
    method SweepRows(due: seq<Key>, found: Key -> bool, answers: Key -> Answer, now: int) returns (t: Tally)
      requires forall i :: 0 <= i < |due| ==> DueAt(rows, due[i], now)
      requires forall i, j :: 0 <= i < j < |due| ==> due[i] != due[j]
      modifies this
      ensures Swept(old(rows), rows, due, found, answers, now)
      ensures t == TallyOf(old(rows), due, found, answers, now)
      ensures sends == old(sends) + t.calls
    {
      ghost var before, sendsBefore := rows, sends;
      t := Tally(0, 0, 0, []);
      for i := 0 to |due|
        invariant Swept(before, rows, due[..i], found, answers, now)
        invariant sends == sendsBefore + t.calls
        invariant t == TallyOf(before, due[..i], found, answers, now)
      {
        var k := due[i];
        assert DueAt(before, k, now);
        TallyNext(before, due, i, found, answers, now);
        SweptNext(before, rows, due, i, found, answers, now);
        var act := SweepRow(k, found(k), answers(k), now);
        t := t.Add(k, act);
      }
      assert due[..|due|] == due;
    }

    /** The parked row that has waited longest past its time. */
    method EarliestOf(parked: set<Key>) returns (k: Key)
      requires parked != {} && forall q <- parked :: q in rows && rows[q].notBefore.Some?
      ensures k in parked && forall q <- parked :: rows[k].notBefore.value <= rows[q].notBefore.value
    {
      k :| k in parked;
      var left := parked - {k};
      while left != {}
        invariant k in parked && left <= parked
        invariant forall q <- parked - left :: rows[k].notBefore.value <= rows[q].notBefore.value
        decreases |left|
      {
        var q :| q in left;
        if rows[q].notBefore.value < rows[k].notBefore.value { k := q; }
        left := left - {q};
      }
    }

    /** The sweep's query. */
    method FindDue(now: int) returns (due: seq<Key>)
      ensures DueBatch(rows, now, due)
    {
      due := [];
      var left := set k | k in rows && DueAt(rows, k, now);
      while left != {} && |due| < SWEEP_BATCH
        invariant |due| <= SWEEP_BATCH
        invariant forall k <- left :: DueAt(rows, k, now)
        invariant forall i :: 0 <= i < |due| ==> DueAt(rows, due[i], now) && due[i] !in left
        invariant forall i, j :: 0 <= i < j < |due| ==>
                    due[i] != due[j] && rows[due[i]].notBefore.value <= rows[due[j]].notBefore.value
        invariant forall i, k :: 0 <= i < |due| && k in left ==>
                    rows[due[i]].notBefore.value <= rows[k].notBefore.value
        invariant forall k <- rows :: DueAt(rows, k, now) ==> k in left || k in due
        decreases |left|
      {
        var k := EarliestOf(left);
        due := due + [k];
        left := left - {k};
      }
    }

    /** One pass of the sweeper. `due` is what its query found. */
    method SweepDeferredOnce(found: Key -> bool, answers: Key -> Answer, now: int)
        returns (sent: nat, expired: nat, skipped: nat, ghost due: seq<Key>)
      modifies this
      ensures DueBatch(old(rows), now, due)
      ensures Swept(old(rows), rows, due, found, answers, now)
      ensures var t := TallyOf(old(rows), due, found, answers, now);
              && (sent, expired, skipped) == (t.sent, t.expired, t.skipped)
              && sends == old(sends) + t.calls
    {
      var batch := FindDue(now);
      var t := SweepRows(batch, found, answers, now);
      return t.sent, t.expired, t.skipped, batch;
    }
  }

  /** Every row of the batch is settled once, on its own terms, and no other row is touched. */
  ghost predicate Swept(
      before: Rows, after: Rows, due: seq<Key>, found: Key -> bool, answers: Key -> Answer, now: int)
  {
    && after.Keys == before.Keys
    && forall k <- before :: after[k] == if k in due then SweptRow(before[k], k, found(k), answers(k), now)
                                         else before[k]
  }

  /** A row is as the sweep found it when its turn comes, whatever was done before it. */
  lemma SweptNext(before: Rows, mid: Rows, due: seq<Key>, i: nat,
      found: Key -> bool, answers: Key -> Answer, now: int)
    requires i < |due| && due[i] in before
    requires forall j, k :: 0 <= j < k < |due| ==> due[j] != due[k]
    requires Swept(before, mid, due[..i], found, answers, now)
    ensures due[i] in mid && mid[due[i]] == before[due[i]]
    ensures var k := due[i];
            Swept(before, mid[k := SweptRow(before[k], k, found(k), answers(k), now)],
                  due[..i + 1], found, answers, now)
  {
    PrefixNext(due, i);
    assert due[i] !in due[..i];
  }

  /** What `findMany` returns: the earliest due rows first, at most a batch of them. */
  ghost predicate DueBatch(rows: Rows, now: int, due: seq<Key>) {
    && |due| <= SWEEP_BATCH
    && (forall i :: 0 <= i < |due| ==> DueAt(rows, due[i], now))
    && (forall i, j :: 0 <= i < j < |due| ==>
          due[i] != due[j] && rows[due[i]].notBefore.value <= rows[due[j]].notBefore.value)
    && (forall k <- rows :: DueAt(rows, k, now) && k !in due ==>
          && |due| == SWEEP_BATCH
          && forall i :: 0 <= i < |due| ==> rows[due[i]].notBefore.value <= rows[k].notBefore.value)
  }

  /** What the sweep does with one row: `TrySend` is a send the provider did not accept. */
  datatype SweepAct = Expire | Skip | Send | TrySend

  predicate Sends(act: SweepAct) { act == Send || act == TrySend }

  function ActOn(d: Delivery, k: Key, found: bool, answer: Answer, now: int): SweepAct {
    if d.createdAt < now - MAX_AGE_MS then Expire
    else if k.channel != Sms then Skip
    else if !found then Expire
    else if !IsDue(d, now) then Skip
    else if answer == Accepted then Send
    else TrySend
  }

  function SweptRow(d: Delivery, k: Key, found: bool, answer: Answer, now: int): Delivery {
    match ActOn(d, k, found, answer, now)
    case Skip => d
    case Expire => Marked(d, NothingToDeliverTo)
    case _ => Marked(Retake(d), answer)
  }

  /** One row of the sweep's list. Past a day it is suppressed whatever it is; only a text can be
      sent again, is suppressed if its notification is gone, and is otherwise sent if it is
      still parked and its time has come, with one attempt more and the answer on it. */
  lemma SweepMeans(d: Delivery, k: Key, found: bool, answer: Answer, now: int)
    ensures var after, act := SweptRow(d, k, found, answer, now), ActOn(d, k, found, answer, now);
            if d.createdAt < now - 24 * 60 * 60 * 1000 || (k.channel == Sms && !found) then
              act == Expire && after == d.(status := Suppressed, notBefore := None)
            else if k.channel == Sms && d.status == Deferred && d.notBefore.Some? && d.notBefore.value <= now then
              && act == (if answer == Accepted then Send else TrySend)
              && WrittenDown(d, after, answer) && after.attempts == d.attempts + 1
            else
              act == Skip && after == d
  {
  }

  datatype Tally = Tally(sent: nat, expired: nat, skipped: nat, calls: seq<Key>)
  {
    function Add(k: Key, act: SweepAct): Tally {
      match act
      case Send => this.(sent := sent + 1, calls := calls + [k])
      case TrySend => this.(skipped := skipped + 1, calls := calls + [k])
      case Expire => this.(expired := expired + 1)
      case Skip => this.(skipped := skipped + 1)
    }
  }

  /** How many were sent, expired and skipped, and the calls made. */
  function TallyOf(rows: Rows, due: seq<Key>, found: Key -> bool, answers: Key -> Answer, now: int): Tally
  {
    if |due| == 0 then Tally(0, 0, 0, [])
    else
      var k := due[|due| - 1];
      var before := TallyOf(rows, due[..|due| - 1], found, answers, now);
      if k in rows then before.Add(k, ActOn(rows[k], k, found(k), answers(k), now)) else before
  }

  function Acts(rows: Rows, found: Key -> bool, answers: Key -> Answer, now: int, act: SweepAct): Key -> int {
    (k: Key) => if k in rows && ActOn(rows[k], k, found(k), answers(k), now) == act then 1 else 0
  }

  /** The counters account for the batch: a row is counted as sent, expired or skipped by what
      was done with it, a send the provider did not accept as skipped, and the provider was
      called once for each row that was sent or tried. */
  lemma {:induction false} TallyCounts(
      rows: Rows, due: seq<Key>, found: Key -> bool, answers: Key -> Answer, now: int)
    requires forall i :: 0 <= i < |due| ==> due[i] in rows
    ensures var t := TallyOf(rows, due, found, answers, now);
            && t.sent == Sum(due, Acts(rows, found, answers, now, Send))
            && t.expired == Sum(due, Acts(rows, found, answers, now, Expire))
            && t.skipped == Sum(due, Acts(rows, found, answers, now, Skip))
                            + Sum(due, Acts(rows, found, answers, now, TrySend))
            && t.sent + t.expired + t.skipped == |due|
            && |t.calls| == t.sent + Sum(due, Acts(rows, found, answers, now, TrySend))
            && forall k :: k in t.calls <==> k in due && ActOn(rows[k], k, found(k), answers(k), now) in {Send, TrySend}
  {
    if |due| > 0 {
      var init, last := due[..|due| - 1], due[|due| - 1];
      TallyCounts(rows, init, found, answers, now);
      assert due == init + [last];
      assert forall k :: k in due <==> k in init || k == last;
    }
  }

  lemma TallyNext(rows: Rows, due: seq<Key>, i: nat, found: Key -> bool, answers: Key -> Answer, now: int)
    requires i < |due| && due[i] in rows
    ensures TallyOf(rows, due[..i + 1], found, answers, now)
            == TallyOf(rows, due[..i], found, answers, now).Add(
                 due[i], ActOn(rows[due[i]], due[i], found(due[i]), answers(due[i]), now))
  {
    PrefixNext(due, i);
  }
}
