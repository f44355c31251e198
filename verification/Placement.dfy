/** Homepage placements (backend/src/lib/placement.ts): the negotiation, the claim of a
live slot, and the sweep that starts and ends them.

Every transition is a conditional update, and a partial unique index lets at most one
row be LIVE in a slot and position. A counter-offer reads the row before it updates it,
and anything may happen in between.
*/
module Placement {
  import opened Tables

  type PlacementId = nat
  type ListingId = nat
  type SellerId = nat

  const SWEEP_BATCH: nat := 50

  datatype Slot = Hero | PickedShelf

  function PositionsFor(slot: Slot): nat { if slot == Hero then 1 else 4 }

  predicate ValidPosition(slot: Slot, position: int) { 0 <= position < PositionsFor(slot) }

  datatype Status = Requested | Countered | Agreed | Live | Ended | Declined | Withdrawn

  datatype Terms = Terms(
    slot: Slot,
    position: int,
    agreedCents: Option<int>,
    startsAt: Option<int>,
    endsAt: Option<int>)

  datatype Row = Row(listing: ListingId, seller: SellerId, offeredCents: int, terms: Terms, status: Status)

  predicate Terminal(status: Status) { status in {Ended, Declined, Withdrawn} }

  predicate AwaitingAdmin(status: Status) { status in {Requested, Countered} }

  predicate SellerCanWithdraw(status: Status) { status in {Requested, Countered, Agreed} }

  predicate SamePlace(a: Row, b: Row) { a.terms.slot == b.terms.slot && a.terms.position == b.terms.position }

  /** The partial unique index: somebody is LIVE where row `i` wants to be. */
  predicate SlotTaken(rows: seq<Row>, i: PlacementId)
    requires i < |rows|
  {
    exists j :: 0 <= j < |rows| && j != i && rows[j].status == Live && SamePlace(rows[i], rows[j])
  }

  function SetStatus(rows: seq<Row>, i: PlacementId, status: Status): seq<Row>
    requires i < |rows|
  {
    rows[i := rows[i].(status := status)]
  }

  /* ------------------------------------------------------------------ *
   * One statement each
   * ------------------------------------------------------------------ */

  /** A counter-offer with everything it does not name taken from the row as it was read. */
  datatype Counter = Counter(
    agreedCents: int,
    slot: Option<Slot>,
    position: Option<int>,
    startsAt: Option<int>,
    endsAt: Option<int>)

  function Proposed(current: Terms, c: Counter): Terms {
    Terms(OrElse(c.slot, current.slot),
          if c.position.Some? then c.position.value else if c.slot.Some? then 0 else current.position,
          Some(c.agreedCents),
          if c.startsAt.Some? then c.startsAt else current.startsAt,
          if c.endsAt.Some? then c.endsAt else current.endsAt)
  }

  function ApplyCounter(rows: seq<Row>, i: PlacementId, terms: Terms): seq<Row> {
    if i < |rows| && AwaitingAdmin(rows[i].status)
    then rows[i := rows[i].(terms := terms, status := Countered)] else rows
  }

  function AcceptOffer(rows: seq<Row>, i: PlacementId): seq<Row> {
    if i < |rows| && rows[i].status == Requested
    then rows[i := rows[i].(terms := rows[i].terms.(agreedCents := Some(rows[i].offeredCents)), status := Agreed)]
    else rows
  }

  function Move(rows: seq<Row>, i: PlacementId, from: set<Status>, to: Status): seq<Row> {
    if i < |rows| && rows[i].status in from then SetStatus(rows, i, to) else rows
  }

  datatype Activation = Activated | NoPlacement | WrongState | Taken

  function ActivationOf(rows: seq<Row>, i: PlacementId): Activation {
    if i >= |rows| then NoPlacement
    else if rows[i].status != Agreed then WrongState
    else if SlotTaken(rows, i) then Taken
    else Activated
  }

  function ActivateRow(rows: seq<Row>, i: PlacementId): (after: seq<Row>)
    ensures |after| == |rows|
  {
    if ActivationOf(rows, i) == Activated then SetStatus(rows, i, Live) else rows
  }

  function Over(now: int): Row -> bool {
    (r: Row) => r.status == Live && r.terms.endsAt.Some? && r.terms.endsAt.value <= now
  }

  function End(): Row -> Row { (r: Row) => r.(status := Ended) }

  /** The bulk update at the head of the sweep. */
  function EndDue(rows: seq<Row>, now: int): (after: seq<Row>)
    ensures |after| == |rows|
  {
    UpdateRows(rows, RowsWhere(rows, Over(now)), End())
  }

  function Startable(now: int): Row -> bool {
    (r: Row) => && r.status == Agreed && r.terms.startsAt.Some? && r.terms.startsAt.value <= now
                && (r.terms.endsAt.None? || r.terms.endsAt.value > now)
  }

  /* ------------------------------------------------------------------ *
   * Every interleaving
   * ------------------------------------------------------------------ */

  /** A counter-offer between its read and its update. */
  datatype Pending = Pending(placement: PlacementId, terms: Terms)

  datatype State = State(rows: seq<Row>, counters: seq<Pending>)

  datatype Step =
    | Request(listing: ListingId, seller: SellerId, slot: Slot, position: int, offeredCents: int,
              startsAt: Option<int>, endsAt: Option<int>)
    | ReadForCounter(placement: PlacementId, counter: Counter)
    | WriteCounter(pending: nat)
    | AcceptAsOffered(placement: PlacementId)
    | AcceptCounter(placement: PlacementId)
    | Decline(placement: PlacementId)
    | Withdraw(placement: PlacementId)
    | Activate(placement: PlacementId)
    | EndEarly(placement: PlacementId)
    | EndAllDue(now: int)

  function NewRow(step: Step): Row
    requires step.Request?
  {
    Row(step.listing, step.seller, step.offeredCents,
        Terms(step.slot, step.position, None, step.startsAt, step.endsAt), Requested)
  }

  function RowsAfter(s: State, step: Step): seq<Row> {
    match step
    case Request(_, _, slot, position, _, _, _) =>
      if ValidPosition(slot, position) then s.rows + [NewRow(step)] else s.rows
    case ReadForCounter(_, _) => s.rows
    case WriteCounter(p) =>
      if p < |s.counters| then ApplyCounter(s.rows, s.counters[p].placement, s.counters[p].terms) else s.rows
    case AcceptAsOffered(i) => AcceptOffer(s.rows, i)
    case AcceptCounter(i) => Move(s.rows, i, {Countered}, Agreed)
    case Decline(i) => Move(s.rows, i, {Requested, Countered}, Declined)
    case Withdraw(i) => Move(s.rows, i, {Requested, Countered, Agreed}, Withdrawn)
    case Activate(i) => ActivateRow(s.rows, i)
    case EndEarly(i) => Move(s.rows, i, {Live}, Ended)
    case EndAllDue(now) => EndDue(s.rows, now)
  }

  function Do(s: State, step: Step): State {
    State(RowsAfter(s, step),
          if step.ReadForCounter? && step.placement < |s.rows|
             && ValidPosition(Proposed(s.rows[step.placement].terms, step.counter).slot,
                              Proposed(s.rows[step.placement].terms, step.counter).position)
          then s.counters + [Pending(step.placement, Proposed(s.rows[step.placement].terms, step.counter))]
          else s.counters)
  }

  ghost predicate OneLivePerPlace(rows: seq<Row>) {
    forall i, j :: 0 <= i < j < |rows| && rows[i].status == rows[j].status == Live ==> !SamePlace(rows[i], rows[j])
  }

  ghost predicate RowOk(r: Row) {
    && ValidPosition(r.terms.slot, r.terms.position)
    && (r.status in {Countered, Agreed, Live, Ended} ==> r.terms.agreedCents.Some?)
  }

  ghost predicate Inv(s: State) {
    && OneLivePerPlace(s.rows)
    && (forall i :: 0 <= i < |s.rows| ==> RowOk(s.rows[i]))
    && (forall p :: 0 <= p < |s.counters| ==>
          && ValidPosition(s.counters[p].terms.slot, s.counters[p].terms.position)
          && s.counters[p].terms.agreedCents.Some?)
  }

  /** What can still happen to a row: once agreed its terms are fixed, and once over it never changes. */
  ghost predicate Continues(before: Row, after: Row) {
    && after.listing == before.listing && after.seller == before.seller && after.offeredCents == before.offeredCents
    && (!AwaitingAdmin(before.status) ==> after.terms == before.terms)
    && (before.status == Agreed ==> after.status in {Agreed, Live, Ended, Withdrawn})
    && (before.status == Live ==> after.status in {Live, Ended})
    && (Terminal(before.status) ==> after == before)
  }

  /** One row changed, to one that is well formed and not newly live in a taken place. */
  lemma RowKeepsApart(rows: seq<Row>, i: PlacementId, r: Row)
    requires OneLivePerPlace(rows) && i < |rows| && SamePlace(rows[i], r)
    requires r.status == Live ==> rows[i].status == Live || !SlotTaken(rows, i)
    ensures OneLivePerPlace(rows[i := r])
  {
  }

  lemma TermsKeepApart(rows: seq<Row>, i: PlacementId, r: Row)
    requires OneLivePerPlace(rows) && i < |rows| && r.status != Live
    ensures OneLivePerPlace(rows[i := r])
  {
  }

  lemma StepKeepsApart(s: State, step: Step)
    requires OneLivePerPlace(s.rows)
    ensures OneLivePerPlace(Do(s, step).rows)
  {
    match step {
      case Activate(i) =>
        if ActivationOf(s.rows, i) == Activated { RowKeepsApart(s.rows, i, s.rows[i].(status := Live)); }
      case WriteCounter(p) =>
        if p < |s.counters| && s.counters[p].placement < |s.rows|
           && AwaitingAdmin(s.rows[s.counters[p].placement].status)
        {
          TermsKeepApart(s.rows, s.counters[p].placement, RowsAfter(s, step)[s.counters[p].placement]);
        }
      case _ =>
    }
  }

  lemma StepKeepsRowsOk(s: State, step: Step)
    requires Inv(s)
    ensures forall i :: 0 <= i < |Do(s, step).rows| ==> RowOk(Do(s, step).rows[i])
  {
  }

  lemma StepKeepsInv(s: State, step: Step)
    requires Inv(s)
    ensures Inv(Do(s, step))
  {
    StepKeepsApart(s, step);
    StepKeepsRowsOk(s, step);
  }

  lemma StepContinues(s: State, step: Step, i: PlacementId)
    requires i < |s.rows|
    ensures i < |Do(s, step).rows| && Continues(s.rows[i], Do(s, step).rows[i])
  {
  }

  /** Somebody else is live where this row wants to be. */
  ghost predicate PlaceTaken(rows: seq<Row>, i: PlacementId)
    requires i < |rows|
  {
    exists j :: 0 <= j < |rows| && j != i && rows[j].status == Live
                && rows[j].terms.slot == rows[i].terms.slot && rows[j].terms.position == rows[i].terms.position
  }

  /** What a step makes of a row it names. A decision moves it from the states it may be taken in
      and from no other; taking an offer fixes the price offered; only a free place goes live. */
  ghost predicate Decided(rows: seq<Row>, i: PlacementId, step: Step, after: Row)
    requires i < |rows|
  {
    var r := rows[i];
    match step
    case AcceptAsOffered(j) =>
      after == if j == i && r.status == Requested
               then r.(status := Agreed, terms := r.terms.(agreedCents := Some(r.offeredCents))) else r
    case AcceptCounter(j) => after == if j == i && r.status == Countered then r.(status := Agreed) else r
    case Decline(j) => after == if j == i && r.status in {Requested, Countered} then r.(status := Declined) else r
    case Withdraw(j) =>
      after == if j == i && r.status in {Requested, Countered, Agreed} then r.(status := Withdrawn) else r
    case Activate(j) => after == if j == i && r.status == Agreed && !PlaceTaken(rows, i) then r.(status := Live) else r
    case EndEarly(j) => after == if j == i && r.status == Live then r.(status := Ended) else r
    case EndAllDue(now) =>
      after == if r.status == Live && r.terms.endsAt.Some? && r.terms.endsAt.value <= now
               then r.(status := Ended) else r
    case _ => true
  }

  lemma StepsDecide(s: State, step: Step, i: PlacementId)
    requires i < |s.rows|
    ensures i < |Do(s, step).rows| && Decided(s.rows, i, step, Do(s, step).rows[i])
  {
    if step.EndAllDue? { Selects(s.rows, Over(step.now)); }
  }

  /** A request is a new row without a price; a counter-offer is first worked out from the row as
      it is read, and later written if the row still awaits an answer. */
  lemma RequestsAndCounters(s: State, step: Step)
    ensures step.Request? && 0 <= step.position < (if step.slot == Hero then 1 else 4) ==>
              Do(s, step) == s.(rows := s.rows + [Row(step.listing, step.seller, step.offeredCents,
                                  Terms(step.slot, step.position, None, step.startsAt, step.endsAt), Requested)])
    ensures step.Request? && !(0 <= step.position < (if step.slot == Hero then 1 else 4)) ==> Do(s, step) == s
    ensures step.ReadForCounter? ==>
              var terms := if step.placement < |s.rows| then Some(Proposed(s.rows[step.placement].terms, step.counter))
                           else None;
              Do(s, step) == if terms.Some? && ValidPosition(terms.value.slot, terms.value.position)
                             then s.(counters := s.counters + [Pending(step.placement, terms.value)]) else s
    ensures step.WriteCounter? && step.pending < |s.counters| ==>
              var c := s.counters[step.pending];
              Do(s, step) == if c.placement < |s.rows| && s.rows[c.placement].status in {Requested, Countered}
                             then s.(rows := s.rows[c.placement := s.rows[c.placement].(
                                       terms := c.terms, status := Countered)]) else s
  {
  }

  /** Why a placement cannot go live. */
  lemma ActivationMeans(rows: seq<Row>, i: PlacementId)
    ensures ActivationOf(rows, i)
            == if i >= |rows| then NoPlacement else if rows[i].status != Agreed then WrongState
               else if PlaceTaken(rows, i) then Taken else Activated
    ensures i < |rows| ==>
              ActivateRow(rows, i)
              == (if rows[i].status == Agreed && !PlaceTaken(rows, i)
                  then rows[i := rows[i].(status := Live)] else rows)
  {
  }

  /** What a counter-offer proposes: its own price; the slot, position and dates it names, the
      row's where it names none, and the first position of a slot it moves to. */
  lemma CounterMeans(rows: seq<Row>, i: PlacementId, c: Counter)
    requires i < |rows|
    ensures var was, terms := rows[i].terms, Proposed(rows[i].terms, c);
            && terms.agreedCents == Some(c.agreedCents)
            && terms.slot == (if c.slot.Some? then c.slot.value else was.slot)
            && (c.position.Some? ==> terms.position == c.position.value)
            && (c.position == None && c.slot.Some? ==> terms.position == 0)
            && (c.position == None && c.slot == None ==> terms.position == was.position)
            && terms.startsAt == (if c.startsAt.Some? then c.startsAt else was.startsAt)
            && terms.endsAt == (if c.endsAt.Some? then c.endsAt else was.endsAt)
            && ApplyCounter(rows, i, terms)
               == (if rows[i].status in {Requested, Countered}
                   then rows[i := rows[i].(status := Countered, terms := terms)] else rows)
            && (ValidPosition(terms.slot, terms.position)
                <==> 0 <= terms.position < if terms.slot == Hero then 1 else 4)
  {
  }

  function Run(steps: seq<Step>): State {
    if |steps| == 0 then State([], []) else Do(Run(steps[..|steps| - 1]), steps[|steps| - 1])
  }

  lemma {:induction false} RunKeepsInv(steps: seq<Step>)
    ensures Inv(Run(steps))
  {
    if |steps| > 0 {
      RunKeepsInv(steps[..|steps| - 1]);
      StepKeepsInv(Run(steps[..|steps| - 1]), steps[|steps| - 1]);
    }
  }

  /** Over every interleaving no two placements are live in one place, every place
      exists, and whatever was agreed, went live or ended has a price. */
  lemma OneLivePlacementPerPlace(steps: seq<Step>, i: PlacementId, j: PlacementId)
    requires i < |Run(steps).rows| && j < |Run(steps).rows|
    ensures var rows := Run(steps).rows;
            && (rows[i].status == rows[j].status == Live && SamePlace(rows[i], rows[j]) ==> i == j)
            && ValidPosition(rows[i].terms.slot, rows[i].terms.position)
            && (rows[i].status in {Agreed, Live, Ended} ==> rows[i].terms.agreedCents.Some?)
  {
    RunKeepsInv(steps);
    assert RowOk(Run(steps).rows[i]);
  }

  lemma RunOneMore(steps: seq<Step>, step: Step)
    ensures Run(steps + [step]) == Do(Run(steps), step)
  {
    assert (steps + [step])[..|steps|] == steps;
  }

  /** Terminal states stay, and an agreement's terms are never changed again. */
  lemma {:induction false} AgreementsAreKept(steps: seq<Step>, more: seq<Step>, i: PlacementId)
    requires i < |Run(steps).rows|
    ensures i < |Run(steps + more).rows| && Continues(Run(steps).rows[i], Run(steps + more).rows[i])
    decreases |more|
  {
    if |more| == 0 {
      assert steps + more == steps;
    } else {
      var init, last := more[..|more| - 1], more[|more| - 1];
      AgreementsAreKept(steps, init, i);
      LastStep(steps, more);
      RunOneMore(steps + init, last);
      StepContinues(Run(steps + init), last, i);
    }
  }

  /* ------------------------------------------------------------------ *
   * The sweep, with nothing running beside it
   * ------------------------------------------------------------------ */

  function ActivateAll(rows: seq<Row>, due: seq<PlacementId>): (after: seq<Row>)
    ensures |after| == |rows|
  {
    if |due| == 0 then rows else ActivateRow(ActivateAll(rows, due[..|due| - 1]), due[|due| - 1])
  }

  function DueIn(rows: seq<Row>, now: int): seq<PlacementId> { FirstOf(RowsWhere(rows, Startable(now)), SWEEP_BATCH) }

  function Sweep(rows: seq<Row>, now: int): seq<Row> {
    ActivateAll(EndDue(rows, now), DueIn(EndDue(rows, now), now))
  }

  /** How many of the first `k` went live. */
  function WentLive(rows: seq<Row>, due: seq<PlacementId>): nat {
    if |due| == 0 then 0
    else
      var init, last := due[..|due| - 1], due[|due| - 1];
      WentLive(rows, init) + if ActivationOf(ActivateAll(rows, init), last) == Activated then 1 else 0
  }

  /** Why row `i` of the batch is still waiting: its place was live before, or an older row of the batch took it. */
  ghost predicate BlockedByOlder(before: seq<Row>, after: seq<Row>, due: seq<PlacementId>, i: PlacementId)
    requires i < |before| == |after|
  {
    && after[i] == before[i]
    && exists j :: 0 <= j < |after| && after[j].status == Live && SamePlace(after[i], after[j])
                   && (before[j].status == Live || (j in due && j < i))
  }

  /** What activating a batch leaves behind. */
  ghost predicate BatchSettled(before: seq<Row>, after: seq<Row>, due: seq<PlacementId>) {
    && |after| == |before|
    && (forall i :: 0 <= i < |before| && i !in due ==> after[i] == before[i])
    && (forall i :: 0 <= i < |before| && i in due ==>
          after[i] == before[i].(status := Live) || BlockedByOlder(before, after, due, i))
  }

  lemma BlockerStays(before: seq<Row>, mid: seq<Row>, after: seq<Row>, due: seq<PlacementId>,
      more: seq<PlacementId>, i: PlacementId)
    requires i < |before| == |mid| == |after| && BlockedByOlder(before, mid, due, i)
    requires forall j :: 0 <= j < |mid| && mid[j].status == Live ==> after[j] == mid[j]
    requires after[i] == mid[i] && forall j :: j in due ==> j in more
    ensures BlockedByOlder(before, after, more, i)
  {
    var j :| 0 <= j < |mid| && mid[j].status == Live && SamePlace(mid[i], mid[j])
             && (before[j].status == Live || (j in due && j < i));
    assert after[j] == mid[j];
  }

  lemma {:induction false} ActivatingSettles(rows: seq<Row>, due: seq<PlacementId>)
    requires forall k :: 0 <= k < |due| ==> due[k] < |rows| && rows[due[k]].status == Agreed
    requires forall j, k :: 0 <= j < k < |due| ==> due[j] < due[k]
    ensures BatchSettled(rows, ActivateAll(rows, due), due)
  {
    if |due| > 0 {
      var init, last := due[..|due| - 1], due[|due| - 1];
      var mid, after := ActivateAll(rows, init), ActivateAll(rows, due);
      ActivatingSettles(rows, init);
      LastId(due);
      assert mid[last] == rows[last];
      forall i | 0 <= i < |rows| && i in init
        ensures after[i] == rows[i].(status := Live) || BlockedByOlder(rows, after, due, i)
      {
        if BlockedByOlder(rows, mid, init, i) {
          BlockerStays(rows, mid, after, init, due, i);
        }
      }
      if SlotTaken(mid, last) {
        TakenByOlder(rows, mid, init, due, last);
      }
    }
  }

  /** A live row that blocks the next of the batch was live before, or is an older row of the batch. */
  lemma TakenByOlder(rows: seq<Row>, mid: seq<Row>, init: seq<PlacementId>, due: seq<PlacementId>, last: PlacementId)
    requires BatchSettled(rows, mid, init) && last < |mid| && mid[last] == rows[last] && SlotTaken(mid, last)
    requires due == init + [last] && forall i :: i in init ==> i < last
    ensures BlockedByOlder(rows, mid, due, last)
  {
    var j :| 0 <= j < |mid| && j != last && mid[j].status == Live && SamePlace(mid[last], mid[j]);
    assert rows[j].status == Live || j in init;
  }

  /** After the sweep nothing is live past its end, and each of the oldest due placements
      is live or stands behind one that is: one that was live already or an older one of
      the same batch. Ending comes first, so a place freed by this sweep is taken in it. */
  lemma SweepSettles(rows: seq<Row>, now: int)
    requires OneLivePerPlace(rows)
    ensures var ended, after := EndDue(rows, now), Sweep(rows, now);
            && OneLivePerPlace(after)
            && (forall i :: 0 <= i < |after| ==> !Over(now)(after[i]))
            && (forall i :: 0 <= i < |rows| ==>
                  ended[i] == if Over(now)(rows[i]) then rows[i].(status := Ended) else rows[i])
            && (forall i :: 0 <= i < |rows| && i !in DueIn(ended, now) ==> after[i] == ended[i])
            && (forall i :: 0 <= i < |rows| && i in DueIn(ended, now) ==>
                  after[i] == ended[i].(status := Live) || BlockedByOlder(ended, after, DueIn(ended, now), i))
  {
    var ended := EndDue(rows, now);
    EndingKeepsApart(rows, now);
    var due := DueIn(ended, now);
    ActivatingSettles(ended, due);
    ActivatingKeepsApart(ended, due);
    var after := Sweep(rows, now);
    forall i | 0 <= i < |after| ensures !Over(now)(after[i]) {
      if i in due {
        assert Startable(now)(ended[i]);
      }
    }
  }

  /** Agreed for a time that has come and is not over. */
  ghost predicate IsDue(r: Row, now: int) {
    && r.status == Agreed
    && r.terms.startsAt.Some? && r.terms.startsAt.value <= now
    && (r.terms.endsAt.Some? ==> now < r.terms.endsAt.value)
  }

  /** What one row may have become: ended if it was live to its end, live only if it was due,
      and otherwise as it was. */
  ghost predicate RowSwept(before: Row, after: Row, now: int) {
    var over := before.status == Live && before.terms.endsAt.Some? && before.terms.endsAt.value <= now;
    && (over ==> after == before.(status := Ended))
    && (!over ==> after == before || (IsDue(before, now) && after == before.(status := Live)))
  }

  /** Of all that is due the first fifty are live, or their place is. */
  ghost predicate RowServed(before: seq<Row>, after: seq<Row>, i: PlacementId, now: int)
    requires i < |before| == |after|
  {
    IsDue(before[i], now) && |set j: PlacementId | j < i && IsDue(before[j], now)| < 50 ==>
      || after[i].status == Live
      || exists j :: 0 <= j < |after| && after[j].status == Live && (before[j].status == Live || j < i)
                     && after[j].terms.slot == before[i].terms.slot
                     && after[j].terms.position == before[i].terms.position
  }

  lemma DueAreStartable(rows: seq<Row>, now: int, i: PlacementId)
    requires i < |rows|
    ensures Startable(now)(EndDue(rows, now)[i]) <==> IsDue(rows[i], now)
    ensures IsDue(rows[i], now) ==> EndDue(rows, now)[i] == rows[i]
  {
    Selects(rows, Over(now));
  }

  lemma SweepIsABatch(rows: seq<Row>, now: int)
    ensures var ended := EndDue(rows, now);
            && BatchSettled(ended, Sweep(rows, now), DueIn(ended, now))
            && forall i :: 0 <= i < |rows| ==>
                 ended[i] == if Over(now)(rows[i]) then rows[i].(status := Ended) else rows[i]
  {
    Selects(rows, Over(now));
    ActivatingSettles(EndDue(rows, now), DueIn(EndDue(rows, now), now));
  }

  lemma DueAreSwept(rows: seq<Row>, now: int)
    ensures |Sweep(rows, now)| == |rows|
    ensures forall i: PlacementId :: i < |rows| ==> RowSwept(rows[i], Sweep(rows, now)[i], now)
  {
    var ended := EndDue(rows, now);
    SweepIsABatch(rows, now);
    Selects(ended, Startable(now));
    forall i: PlacementId | i < |rows| ensures RowSwept(rows[i], Sweep(rows, now)[i], now) {
      DueAreStartable(rows, now, i);
      assert i in DueIn(ended, now) ==> i in RowsWhere(ended, Startable(now));
    }
  }

  lemma FirstFiftyAreIn(rows: seq<Row>, now: int, i: PlacementId)
    requires i < |rows| && IsDue(rows[i], now) && |set j: PlacementId | j < i && IsDue(rows[j], now)| < 50
    ensures i in DueIn(EndDue(rows, now), now)
  {
    var ended := EndDue(rows, now);
    forall j: PlacementId | j < |rows| ensures Startable(now)(ended[j]) <==> IsDue(rows[j], now) {
      DueAreStartable(rows, now, j);
    }
    var earlier := CountSelected(ended, Startable(now), i);
    assert earlier == set j: PlacementId | j < i && IsDue(rows[j], now);
    EarlyRowsAreFirst(ended, Startable(now), SWEEP_BATCH, i);
  }

  /** Nothing goes live before its time or after its end, and what is due does not wait but
      for its place, or behind fifty others. */
  lemma SweepStartsWhatIsDue(rows: seq<Row>, now: int)
    ensures |Sweep(rows, now)| == |rows|
    ensures forall i: PlacementId :: i < |rows| ==> RowSwept(rows[i], Sweep(rows, now)[i], now)
    ensures forall i: PlacementId :: i < |rows| ==> RowServed(rows, Sweep(rows, now), i, now)
  {
    DueAreSwept(rows, now);
    forall i: PlacementId | i < |rows| ensures RowServed(rows, Sweep(rows, now), i, now) {
      ServedOrBlocked(rows, now, i);
    }
  }

  lemma ServedOrBlocked(rows: seq<Row>, now: int, i: PlacementId)
    requires i < |rows|
    ensures |Sweep(rows, now)| == |rows| && RowServed(rows, Sweep(rows, now), i, now)
  {
    var ended, after := EndDue(rows, now), Sweep(rows, now);
    SweepIsABatch(rows, now);
    if IsDue(rows[i], now) && |set j: PlacementId | j < i && IsDue(rows[j], now)| < 50 && after[i].status != Live {
      FirstFiftyAreIn(rows, now, i);
      DueAreStartable(rows, now, i);
      var j :| 0 <= j < |after| && after[j].status == Live && SamePlace(after[i], after[j])
               && (ended[j].status == Live || (j in DueIn(ended, now) && j < i));
      assert ended[j].status == Live ==> rows[j].status == Live;
    }
  }

  lemma EndingKeepsApart(rows: seq<Row>, now: int)
    requires OneLivePerPlace(rows)
    ensures OneLivePerPlace(EndDue(rows, now))
    ensures forall i :: 0 <= i < |rows| ==>
              EndDue(rows, now)[i] == if Over(now)(rows[i]) then rows[i].(status := Ended) else rows[i]
  {
    Selects(rows, Over(now));
  }

  lemma {:induction false} ActivatingKeepsApart(rows: seq<Row>, due: seq<PlacementId>)
    requires OneLivePerPlace(rows)
    ensures OneLivePerPlace(ActivateAll(rows, due))
  {
    if |due| > 0 {
      ActivatingKeepsApart(rows, due[..|due| - 1]);
    }
  }

  lemma {:induction false} OthersUntouched(rows: seq<Row>, due: seq<PlacementId>, i: PlacementId)
    requires i < |rows| && i !in due
    ensures ActivateAll(rows, due)[i] == rows[i]
  {
    if |due| > 0 {
      assert due == due[..|due| - 1] + [due[|due| - 1]];
      OthersUntouched(rows, due[..|due| - 1], i);
    }
  }

  function LiveIn(rows: seq<Row>, due: seq<PlacementId>): set<PlacementId> {
    set i | i in due && i < |rows| && rows[i].status == Live
  }

  lemma LiveInNext(mid: seq<Row>, init: seq<PlacementId>, last: PlacementId)
    requires last < |mid| && mid[last].status == Agreed && last !in init
    ensures var activated := ActivationOf(mid, last) == Activated;
            |LiveIn(ActivateRow(mid, last), init + [last])| == |LiveIn(mid, init)| + if activated then 1 else 0
  {
    var activated := ActivationOf(mid, last) == Activated;
    assert LiveIn(ActivateRow(mid, last), init + [last]) == LiveIn(mid, init) + if activated then {last} else {};
  }

  /** What the counters mean: `activated` is how many of the batch are live, and the rest were blocked. */
  lemma {:induction false} WentLiveCounts(rows: seq<Row>, due: seq<PlacementId>)
    requires forall k :: 0 <= k < |due| ==> due[k] < |rows| && rows[due[k]].status == Agreed
    requires forall j, k :: 0 <= j < k < |due| ==> due[j] < due[k]
    ensures WentLive(rows, due) == |LiveIn(ActivateAll(rows, due), due)| <= |due|
  {
    if |due| > 0 {
      var init, last := due[..|due| - 1], due[|due| - 1];
      WentLiveCounts(rows, init);
      LastId(due);
      OthersUntouched(rows, init, last);
      LiveInNext(ActivateAll(rows, init), init, last);
    }
  }

  /* ------------------------------------------------------------------ *
   * The functions as the code runs them
   * ------------------------------------------------------------------ */

  /** What the listings table says about a listing. */
  datatype Listing = Missing | Listed(seller: SellerId, active: bool)

  datatype RequestOutcome = Opened(id: PlacementId) | NotRequested(reason: RequestRefusal)

  datatype RequestRefusal = BadPosition | NoListing | NotYours | NotActive | AlreadyOpen

  datatype DecideOutcome = Changed(status: Status) | NotChanged(reason: DecideRefusal)

  datatype DecideRefusal = NoSuchPlacement | NotInState | PositionInvalid

  predicate IsOpen(r: Row, listing: ListingId) {
    r.listing == listing && r.status in {Requested, Countered, Agreed, Live}
  }

  function WhyNotRequested(rows: seq<Row>, r: Row, listing: Listing, hasProfile: bool): Option<RequestRefusal> {
    if !ValidPosition(r.terms.slot, r.terms.position) then Some(BadPosition)
    else if listing.Missing? then Some(NoListing)
    else if listing.seller != r.seller then Some(NotYours)
    else if !listing.active then Some(NotActive)
    else if exists q <- rows :: IsOpen(q, r.listing) then Some(AlreadyOpen)
    else if !hasProfile then Some(NotYours)
    else None
  }

  /** Each refusal of a request, the first that applies; the listing's open business is any row
      of its that is not over. */
  lemma RequestsRefused(rows: seq<Row>, r: Row, listing: Listing, hasProfile: bool)
    ensures var why := WhyNotRequested(rows, r, listing, hasProfile);
            var placed := 0 <= r.terms.position < if r.terms.slot == Hero then 1 else 4;
            var busy := exists q <- rows :: q.listing == r.listing && q.status in {Requested, Countered, Agreed, Live};
            && (why == Some(BadPosition) <==> !placed)
            && (why == Some(NoListing) <==> placed && listing == Missing)
            && (placed && listing.Listed? ==>
                  && (why == Some(NotActive) <==> listing.seller == r.seller && !listing.active)
                  && (why == Some(AlreadyOpen) <==> listing.seller == r.seller && listing.active && busy)
                  && (why == Some(NotYours)
                      <==> listing.seller != r.seller || (listing.active && !busy && !hasProfile))
                  && (why == None <==> listing.seller == r.seller && listing.active && !busy && hasProfile))
  {
  }

  class Desk {
    var rows: seq<Row>

    method RequestPlacement(r: Row, listing: Listing, hasProfile: bool) returns (o: RequestOutcome)
      requires r.status == Requested && r.terms.agreedCents == None
      modifies this
      ensures match WhyNotRequested(old(rows), r, listing, hasProfile) {
                case Some(why) => o == NotRequested(why) && rows == old(rows)
                case None => o == Opened(|old(rows)|) && rows == old(rows) + [r]
              }
    {
      if r.terms.position < 0 || r.terms.position >= PositionsFor(r.terms.slot) { return NotRequested(BadPosition); }
      if listing.Missing? { return NotRequested(NoListing); }
      if listing.seller != r.seller { return NotRequested(NotYours); }
      if !listing.active { return NotRequested(NotActive); }
      if exists q <- rows :: IsOpen(q, r.listing) { return NotRequested(AlreadyOpen); }
      if !hasProfile { return NotRequested(NotYours); }
      rows := rows + [r];
      return Opened(|rows| - 1);
    }

    /** The conditional update every decision goes through. */
    method Transition(i: PlacementId, from: set<Status>, to: Status, terms: Option<Terms>) returns (o: DecideOutcome)
      modifies this
      ensures o == (if i >= |old(rows)| then NotChanged(NoSuchPlacement)
                    else if old(rows)[i].status !in from then NotChanged(NotInState)
                    else Changed(to))
      ensures rows == if o.Changed? then
                        old(rows)[i := old(rows)[i].(status := to,
                                                     terms := if terms.Some? then terms.value else old(rows)[i].terms)]
                      else old(rows)
    {
      if i >= |rows| { return NotChanged(NoSuchPlacement); }
      if rows[i].status !in from { return NotChanged(NotInState); }
      rows := rows[i := rows[i].(status := to, terms := if terms.Some? then terms.value else rows[i].terms)];
      return Changed(to);
    }

    method CounterOffer(i: PlacementId, c: Counter) returns (o: DecideOutcome)
      modifies this
      ensures i >= |old(rows)| ==> o == NotChanged(NoSuchPlacement) && rows == old(rows)
      ensures i < |old(rows)| ==>
                var terms := Proposed(old(rows)[i].terms, c);
                && rows == (if ValidPosition(terms.slot, terms.position) then ApplyCounter(old(rows), i, terms)
                            else old(rows))
                && o == (if !ValidPosition(terms.slot, terms.position) then NotChanged(PositionInvalid)
                         else if !AwaitingAdmin(old(rows)[i].status) then NotChanged(NotInState)
                         else Changed(Countered))
    {
      if i >= |rows| { return NotChanged(NoSuchPlacement); }
      var current := rows[i].terms;
      var slot := if c.slot.Some? then c.slot.value else current.slot;
      var position := if c.position.Some? then c.position.value else if c.slot.Some? then 0 else current.position;
      if position < 0 || position >= PositionsFor(slot) { return NotChanged(PositionInvalid); }
      var startsAt := if c.startsAt.Some? then c.startsAt else current.startsAt;
      var endsAt := if c.endsAt.Some? then c.endsAt else current.endsAt;
      o := Transition(i, {Requested, Countered}, Countered,
                      Some(Terms(slot, position, Some(c.agreedCents), startsAt, endsAt)));
    }

    method AcceptAsOffered(i: PlacementId) returns (o: DecideOutcome)
      modifies this
      ensures rows == AcceptOffer(old(rows), i)
      ensures o == (if i >= |old(rows)| then NotChanged(NoSuchPlacement)
                    else if old(rows)[i].status != Requested then NotChanged(NotInState) else Changed(Agreed))
    {
      if i >= |rows| { return NotChanged(NoSuchPlacement); }
      o := Transition(i, {Requested}, Agreed, Some(rows[i].terms.(agreedCents := Some(rows[i].offeredCents))));
    }

    method AcceptCounter(i: PlacementId) returns (o: DecideOutcome)
      modifies this
      ensures rows == Move(old(rows), i, {Countered}, Agreed)
      ensures o.Changed? <==> i < |old(rows)| && old(rows)[i].status == Countered
    {
      o := Transition(i, {Countered}, Agreed, None);
    }

    method DeclinePlacement(i: PlacementId) returns (o: DecideOutcome)
      modifies this
      ensures rows == Move(old(rows), i, {Requested, Countered}, Declined)
      ensures o.Changed? <==> i < |old(rows)| && AwaitingAdmin(old(rows)[i].status)
    {
      o := Transition(i, {Requested, Countered}, Declined, None);
    }

    method WithdrawPlacement(i: PlacementId, seller: SellerId) returns (o: DecideOutcome)
      modifies this
      ensures rows == if i < |old(rows)| && old(rows)[i].seller == seller
                      then Move(old(rows), i, {Requested, Countered, Agreed}, Withdrawn) else old(rows)
      ensures o.Changed? <==> && i < |old(rows)| && old(rows)[i].seller == seller
                              && SellerCanWithdraw(old(rows)[i].status)
    {
      if i >= |rows| || rows[i].seller != seller { return NotChanged(NoSuchPlacement); }
      o := Transition(i, {Requested, Countered, Agreed}, Withdrawn, None);
    }

    /** The database refuses the update when the index would be violated. */
    method Activate(i: PlacementId) returns (o: Activation)
      modifies this
      ensures o == ActivationOf(old(rows), i) && rows == ActivateRow(old(rows), i)
    {
      if i >= |rows| { return NoPlacement; }
      if rows[i].status != Agreed { return WrongState; }
      if exists j :: 0 <= j < |rows| && j != i && rows[j].status == Live && SamePlace(rows[i], rows[j]) {
        return Taken;
      }
      rows := rows[i := rows[i].(status := Live)];
      return Activated;
    }

    method EndPlacement(i: PlacementId) returns (ended: bool)
      modifies this
      ensures ended <==> i < |old(rows)| && old(rows)[i].status == Live
      ensures rows == Move(old(rows), i, {Live}, Ended)
    {
      ended := i < |rows| && rows[i].status == Live;
      if ended { rows := rows[i := rows[i].(status := Ended)]; }
    }

    /** One at a time, because each can lose its place on its own. */
    method ActivateDue(due: seq<PlacementId>) returns (activated: nat, blocked: nat)
      requires forall k :: 0 <= k < |due| ==> due[k] < |rows| && rows[due[k]].status == Agreed
      requires forall j, k :: 0 <= j < k < |due| ==> due[j] < due[k]
      modifies this
      ensures rows == ActivateAll(old(rows), due)
      ensures activated == |LiveIn(rows, due)| && activated + blocked == |due|
    {
      ghost var before := rows;
      activated, blocked := 0, 0;
      for k := 0 to |due|
        invariant |rows| == |before| && rows == ActivateAll(before, due[..k])
        invariant activated == WentLive(before, due[..k]) && activated + blocked == k
      {
        PrefixNext(due, k);
        assert due[k] !in due[..k];
        OthersUntouched(before, due[..k], due[k]);
        var o := Activate(due[k]);
        if o == Activated { activated := activated + 1; } else if o == Taken { blocked := blocked + 1; }
      }
      assert due[..|due|] == due;
      WentLiveCounts(before, due);
    }

    method SweepPlacements(now: int) returns (activated: nat, blocked: nat, ended: nat)
      modifies this
      ensures rows == Sweep(old(rows), now)
      ensures ended == |RowsWhere(old(rows), Over(now))|
      ensures var due := DueIn(EndDue(old(rows), now), now);
              activated == |LiveIn(rows, due)| && activated + blocked == |due|
      ensures |rows| == |old(rows)|
      ensures OneLivePerPlace(old(rows)) ==> OneLivePerPlace(rows)
      ensures forall i :: 0 <= i < |rows| ==> RowSwept(old(rows)[i], rows[i], now)
      ensures forall i :: 0 <= i < |rows| ==> RowServed(old(rows), rows, i, now)
    {
      ghost var before := rows;
      var over := RowsWhere(rows, Over(now));
      rows := UpdateRows(rows, over, End());
      ended := |over|;
      var due := FirstOf(RowsWhere(rows, Startable(now)), SWEEP_BATCH);
      assert forall k :: 0 <= k < |due| ==> Startable(now)(rows[due[k]]);
      activated, blocked := ActivateDue(due);
      SweepStartsWhatIsDue(before, now);
      if OneLivePerPlace(before) { SweepSettles(before, now); }
    }
  }
}
