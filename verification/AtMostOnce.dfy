/** No notification goes out twice on a channel, whatever is redelivered, retried, parked
or swept, and whoever crashes (backend/src/lib/deliveryLedger.ts,
backend/src/lib/deferredDeliveries.ts, backend/src/worker.ts). */
module AtMostOnce {
  import opened Tables
  import opened Retry
  import opened DeliveryLedger
  import opened Pipeline

  function StatusAt(w: World, k: Key): Option<Status> { if k in w.ledger then Some(w.ledger[k].status) else None }

  /** Sends the provider accepted, less those whose caller was told of an error. */
  function Acknowledged(w: World, k: Key): int { Count(w.accepted, k) - Count(w.lost, k) }

  predicate Claimable(status: Option<Status>) { status in {None, Some(Failed), Some(Deferred)} }

  /** The row this process has claimed and not settled yet. */
  function Owned(a: Actor): Option<Key> {
    match a
    case Worker(group, _, _, Busy(m, _, Sending)) => Some(Key(m.event, group))
    case Worker(group, _, _, Busy(m, _, Marking(_))) => Some(Key(m.event, group))
    case Sweeper(_, _, Redelivering(k)) => Some(k)
    case Sweeper(_, _, Settling(k, _)) => Some(k)
    case _ => None
  }

  predicate HeardAccepted(a: Actor) {
    match a
    case Worker(_, _, _, Busy(_, _, Marking(answer))) => answer == Accepted
    case Sweeper(_, _, Settling(_, answer)) => answer == Accepted
    case _ => false
  }

  /** A row that could be claimed again has no acknowledged send behind it. */
  ghost predicate RowSafe(w: World, k: Key) {
    && 0 <= Acknowledged(w, k) <= 1
    && (Claimable(StatusAt(w, k)) ==> Acknowledged(w, k) == 0)
    && (StatusAt(w, k) == Some(Sent) ==> Acknowledged(w, k) == 1)
  }

  /** An owner's row is PENDING, unless a sweeper with a stale list suppressed it meanwhile. */
  ghost predicate OwnerSafe(w: World, a: Actor) {
    Owned(a).Some? ==>
      && StatusAt(w, Owned(a).value) in {Some(Pending), Some(Suppressed)}
      && Acknowledged(w, Owned(a).value) == if HeardAccepted(a) then 1 else 0
  }

  ghost predicate Apart(a: Actor, b: Actor) { Owned(a) == None || Owned(a) != Owned(b) }

  ghost predicate Inv(s: State) {
    && (forall k :: RowSafe(s.world, k))
    && (forall i :: 0 <= i < |s.actors| ==> OwnerSafe(s.world, s.actors[i]))
    && (forall i, j :: 0 <= i < j < |s.actors| ==> Apart(s.actors[i], s.actors[j]))
  }

  /** The row this process's next statement reads or writes. */
  function Touched(a: Actor): Option<Key> {
    match a
    case Worker(group, _, _, Busy(m, _, _)) => Some(Key(m.event, group))
    case Sweeper(_, due, Picking) => if |due| == 0 then None else Some(due[0].key)
    case Sweeper(_, _, Redelivering(k)) => Some(k)
    case Sweeper(_, _, Settling(k, _)) => Some(k)
    case _ => None
  }

  /** How one statement may move a row: it takes a claimable row, keeps or suppresses a
      row it does not own, sends for a row it owns, or settles it. */
  ghost predicate Moves(w: World, a: Actor, w': World, a': Actor, k: Key) {
    && (Owned(a') == None || Owned(a') == Some(k))
    && (Owned(a) == None && Owned(a') == None ==>
          && Acknowledged(w', k) == Acknowledged(w, k)
          && StatusAt(w', k) in {StatusAt(w, k), Some(Suppressed)})
    && (Owned(a) == None && Owned(a') == Some(k) ==>
          && Acknowledged(w', k) == Acknowledged(w, k)
          && Claimable(StatusAt(w, k)) && StatusAt(w', k) == Some(Pending) && !HeardAccepted(a'))
    && (Owned(a) == Some(k) && Owned(a') == Some(k) ==>
          && !HeardAccepted(a) && StatusAt(w', k) == StatusAt(w, k)
          && Acknowledged(w', k) == Acknowledged(w, k) + if HeardAccepted(a') then 1 else 0)
    && (Owned(a) == Some(k) && Owned(a') == None ==>
          && Acknowledged(w', k) == Acknowledged(w, k)
          && StatusAt(w', k) in {Some(Sent), Some(Suppressed), Some(Failed), Some(Deferred)}
          && (StatusAt(w', k) == Some(Sent) <==> HeardAccepted(a))
          && (HeardAccepted(a) ==> StatusAt(w', k) == Some(Sent)))
  }

  ghost predicate Same(w: World, w': World, k: Key) {
    StatusAt(w', k) == StatusAt(w, k) && Acknowledged(w', k) == Acknowledged(w, k)
  }

  lemma CallCounts(w: World, k: Key, reply: Reply)
    ensures var w' := CallProvider(w, k, reply);
            && w'.ledger == w.ledger
            && Acknowledged(w', k) == Acknowledged(w, k) + (if Heard(reply) == Accepted then 1 else 0)
            && forall q :: q != k ==> Acknowledged(w', q) == Acknowledged(w, q)
  {
  }

  /** What a handler's statement does to the ledger and the counts. */
  lemma HandledRows(w: World, group: Channel, m: Message, t: int, stage: Stage, input: Input)
    ensures var k, w' := Key(m.event, group), Handled(w, group, m, t, stage, input);
            && (stage == Sending ==> w' == CallProvider(w, k, input.reply))
            && (stage != Sending ==> w'.accepted == w.accepted && w'.lost == w.lost)
            && w'.ledger == match stage {
                 case Claiming => Insert(w.ledger, k, if input.wanted then Pending else Suppressed, w.now)
                 case Reclaiming => Reclaim(w.ledger, k)
                 case Marking(answer) => Mark(w.ledger, k, answer)
                 case _ => w.ledger
               }
  {
  }

  lemma WorkerTouchesOne(w: World, a: Actor, input: Input, k: Key)
    requires a.Worker? && a.job.Busy? && Some(k) != Touched(a)
    ensures Same(w, WorkerAct(w, a, input).0, k)
  {
    HandledRows(w, a.group, a.job.message, a.job.startedAt, a.job.stage, input);
    CallCounts(w, Touched(a).value, input.reply);
  }

  lemma ClaimMoves(w: World, a: Actor, input: Input)
    requires a.Worker? && a.job.Busy? && a.job.stage in {Claiming, Reclaiming, Republishing}
    ensures var (w', a') := WorkerAct(w, a, input); Moves(w, a, w', a', Touched(a).value)
  {
    HandledRows(w, a.group, a.job.message, a.job.startedAt, a.job.stage, input);
  }

  lemma SettleMoves(w: World, a: Actor, input: Input)
    requires a.Worker? && a.job.Busy? && (a.job.stage == Sending || a.job.stage.Marking?) && OwnerSafe(w, a)
    ensures var (w', a') := WorkerAct(w, a, input); Moves(w, a, w', a', Touched(a).value)
  {
    HandledRows(w, a.group, a.job.message, a.job.startedAt, a.job.stage, input);
    CallCounts(w, Touched(a).value, input.reply);
  }

  lemma WorkerMoves(w: World, a: Actor, input: Input)
    requires a.Worker? && a.job.Busy? && OwnerSafe(w, a)
    ensures var (w', a') := WorkerAct(w, a, input); Moves(w, a, w', a', Touched(a).value)
  {
    if a.job.stage == Sending || a.job.stage.Marking? {
      SettleMoves(w, a, input);
    } else {
      ClaimMoves(w, a, input);
    }
  }

  lemma SweeperTouchesOne(w: World, a: Actor, input: Input, k: Key)
    requires a.Sweeper? && Touched(a).Some? && Some(k) != Touched(a)
    ensures Same(w, SweeperAct(w, a, input).0, k)
  {
    match a.sweep {
      case Picking => PickTouchesOne(w, a, input, k);
      case Redelivering(q) => CallCounts(w, q, input.reply);
      case Settling(_, _) =>
    }
  }

  lemma PickTouchesOne(w: World, a: Actor, input: Input, k: Key)
    requires a.Sweeper? && a.sweep == Picking && |a.due| > 0 && k != a.due[0].key
    ensures Same(w, SweeperAct(w, a, input).0, k)
  {
  }

  lemma SweeperMoves(w: World, a: Actor, input: Input)
    requires a.Sweeper? && Touched(a).Some? && OwnerSafe(w, a)
    ensures var (w', a') := SweeperAct(w, a, input); Moves(w, a, w', a', Touched(a).value)
  {
    match a.sweep {
      case Picking => PickMoves(w, a, input);
      case Redelivering(k) => CallCounts(w, k, input.reply);
      case Settling(_, _) =>
    }
  }

  lemma PickMoves(w: World, a: Actor, input: Input)
    requires a.Sweeper? && a.sweep == Picking && |a.due| > 0
    ensures var (w', a') := SweeperAct(w, a, input); Moves(w, a, w', a', a.due[0].key)
  {
  }

  lemma ActMoves(w: World, a: Actor, input: Input)
    requires OwnerSafe(w, a)
    ensures var (w', a') := ActorAct(w, a, input);
            && (forall k :: Some(k) != Touched(a) ==> Same(w, w', k))
            && (Touched(a).Some? ==> Moves(w, a, w', a', Touched(a).value))
            && (Touched(a) == None ==> Owned(a) == None && Owned(a') == None)
  {
    if a.Worker? && a.job.Busy? {
      forall k | Some(k) != Touched(a) ensures Same(w, WorkerAct(w, a, input).0, k) {
        WorkerTouchesOne(w, a, input, k);
      }
      WorkerMoves(w, a, input);
    } else if a.Sweeper? && Touched(a).Some? {
      forall k | Some(k) != Touched(a) ensures Same(w, SweeperAct(w, a, input).0, k) {
        SweeperTouchesOne(w, a, input, k);
      }
      SweeperMoves(w, a, input);
    } else {
      assert forall k :: Same(w, ActorAct(w, a, input).0, k);
    }
  }

  lemma MoveKeepsRow(w: World, a: Actor, w': World, a': Actor, k: Key)
    requires RowSafe(w, k) && OwnerSafe(w, a) && Owned(a) in {None, Some(k)} && Moves(w, a, w', a', k)
    ensures RowSafe(w', k) && OwnerSafe(w', a')
  {
  }

  lemma MoveKeepsOther(w: World, a: Actor, w': World, a': Actor, k: Key, b: Actor)
    requires OwnerSafe(w, b) && Apart(a, b) && Owned(a) in {None, Some(k)} && Moves(w, a, w', a', k)
    requires Owned(b) == Some(k)
    ensures OwnerSafe(w', b) && Apart(a', b)
  {
  }

  lemma ActKeepsInv(s: State, i: nat, input: Input)
    requires Inv(s) && i < |s.actors|
    ensures Inv(Do(s, Act(i, input)))
  {
    var a := s.actors[i];
    var (w', a') := ActorAct(s.world, a, input);
    ActMoves(s.world, a, input);
    if Touched(a).Some? {
      MoveKeepsRow(s.world, a, w', a', Touched(a).value);
    }
    forall k ensures RowSafe(w', k) {
      assert RowSafe(s.world, k) && (Some(k) == Touched(a) || Same(s.world, w', k));
    }
    forall j | 0 <= j < |s.actors| && j != i ensures OwnerSafe(w', s.actors[j]) && Apart(a', s.actors[j]) {
      assert Apart(a, s.actors[j]);
      if Owned(s.actors[j]).Some? && Owned(s.actors[j]) == Touched(a) {
        MoveKeepsOther(s.world, a, w', a', Touched(a).value, s.actors[j]);
      } else if Owned(s.actors[j]).Some? {
        assert Same(s.world, w', Owned(s.actors[j]).value);
      }
    }
  }

  lemma StepKeepsInv(s: State, step: Step)
    requires Inv(s)
    ensures Inv(Do(s, step))
  {
    var s' := Do(s, step);
    if step.Act? {
      if step.actor < |s.actors| { ActKeepsInv(s, step.actor, step.input); }
    } else {
      forall k ensures RowSafe(s'.world, k) {
        assert RowSafe(s.world, k) && Same(s.world, s'.world, k);
      }
      forall j | 0 <= j < |s'.actors| ensures OwnerSafe(s'.world, s'.actors[j]) {
        assert Owned(s'.actors[j]) == None || (j < |s.actors| && s'.actors[j] == s.actors[j]);
      }
    }
  }

  lemma {:induction false} RunIsSafe(steps: seq<Step>)
    ensures Inv(Run(steps))
  {
    if |steps| > 0 {
      RunIsSafe(steps[..|steps| - 1]);
      StepKeepsInv(Run(steps[..|steps| - 1]), steps[|steps| - 1]);
    }
  }

  /** The provider accepts an event for a channel at most once, plus once for every
      acceptance it reported as an error. SENT means it was accepted, and a row that is
      absent, FAILED or DEFERRED hides no acknowledged send. */
  lemma AtMostOneSend(steps: seq<Step>, k: Key)
    ensures var w := Run(steps).world;
            && Count(w.accepted, k) <= 1 + Count(w.lost, k)
            && (StatusAt(w, k) == Some(Sent) ==> Count(w.accepted, k) == 1 + Count(w.lost, k))
            && (Claimable(StatusAt(w, k)) ==> Count(w.accepted, k) == Count(w.lost, k))
  {
    RunIsSafe(steps);
    assert RowSafe(Run(steps).world, k);
  }

  /** Every reply reaches whoever asked. */
  predicate Truthful(steps: seq<Step>) {
    forall i :: 0 <= i < |steps| && steps[i].Act? ==> steps[i].input.reply != AnswerLost
  }

  lemma {:induction false} NothingLost(steps: seq<Step>, k: Key)
    requires Truthful(steps)
    ensures Count(Run(steps).world.lost, k) == 0
  {
    if |steps| > 0 {
      NothingLost(steps[..|steps| - 1], k);
      LostOnlyByReply(Run(steps[..|steps| - 1]), steps[|steps| - 1], k);
    }
  }

  lemma LostOnlyByReply(s: State, step: Step, k: Key)
    requires step.Act? ==> step.input.reply != AnswerLost
    ensures Count(Do(s, step).world.lost, k) == Count(s.world.lost, k)
  {
    if step.Act? && step.actor < |s.actors| {
      var a := s.actors[step.actor];
      if a.Worker? && a.job.Busy? {
        HandledRows(s.world, a.group, a.job.message, a.job.startedAt, a.job.stage, step.input);
      }
    }
  }

  /** With a provider that answers truthfully, nobody is told anything twice. */
  lemma NeverSentTwice(steps: seq<Step>, k: Key)
    requires Truthful(steps)
    ensures Count(Run(steps).world.accepted, k) <= 1
  {
    NothingLost(steps, k);
    AtMostOneSend(steps, k);
  }

  /** Two processes never own one row at the same time. */
  lemma OneOwner(steps: seq<Step>, i: nat, j: nat)
    requires i < |Run(steps).actors| && j < |Run(steps).actors|
    requires Owned(Run(steps).actors[i]).Some? && Owned(Run(steps).actors[i]) == Owned(Run(steps).actors[j])
    ensures i == j
  {
    RunIsSafe(steps);
    var actors := Run(steps).actors;
    assert i < j ==> Apart(actors[i], actors[j]);
    assert j < i ==> Apart(actors[j], actors[i]);
  }
}
