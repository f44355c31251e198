/** The retry ladder over whole runs of the pipeline (backend/src/worker.ts,
backend/src/lib/retry.ts): how often a message is handled and how long that takes. */
module Ladder {
  import opened Tables
  import opened Retry
  import opened DeliveryLedger
  import opened Pipeline

  /** The last handling was at least this rung's delay after the one before it. */
  predicate Spaced(times: seq<int>) {
    forall i :: 0 <= i < |times| - 1 && i < |RETRY_LADDER| ==> times[i] + RETRY_LADDER[i].delayMs <= times[i + 1]
  }

  predicate NotAfter(times: seq<int>, t: int) { |times| > 0 ==> times[|times| - 1] <= t }

  /** A message on height k carries k handlings, in order and far enough apart; in the
      dead letters it carries four. Nothing is ever put on another topic. */
  ghost predicate Placed(topic: Topic, m: Message, now: int) {
    && m.timestamp <= now && NotAfter(m.handledAt, m.timestamp) && Spaced(m.handledAt)
    && match HeightOf(topic) {
         case Some(k) => AttemptOf(m.attempt) == k == |m.handledAt| && (m.group == None <==> topic == MainTopic)
         case None => topic == DeadLetters && |m.handledAt| == 4 && m.attempt == Integer(3)
       }
  }

  ghost predicate LogsPlaced(w: World) {
    forall at, o :: 0 <= o < |LogAt(w.logs, at)| && LogAt(w.logs, at)[o].decodes ==>
      Placed(at.topic, LogAt(w.logs, at)[o], w.now)
  }

  /** A worker handles a message once it is old enough. */
  ghost predicate Waited(a: Actor, now: int) {
    a.Worker? ==>
      && HeightOf(a.at.topic).Some?
      && (a.job.Busy? ==>
            && Placed(a.at.topic, a.job.message, now)
            && a.job.message.group in {None, Some(a.group)}
            && a.job.message.timestamp + DelayFor(a.at.topic) <= a.job.startedAt <= now)
  }

  ghost predicate Inv(s: State) {
    LogsPlaced(s.world) && forall i :: 0 <= i < |s.actors| ==> Waited(s.actors[i], s.world.now)
  }

  lemma RepublishedIsPlaced(topic: Topic, m: Message, t: int, group: Channel, now: int)
    requires HeightOf(topic).Some? && Placed(topic, m, now) && m.timestamp + DelayFor(topic) <= t <= now
    ensures Placed(RetryDestination(AttemptOf(m.attempt)).TopicName(), Republished(m, t, group, now), now)
  {
    LadderClimbs(topic);
    Delays();
    SpacedByOneMore(m.handledAt, t);
  }

  lemma SpacedByOneMore(before: seq<int>, t: int)
    requires Spaced(before)
    requires 0 < |before| <= |RETRY_LADDER| ==>
               before[|before| - 1] + RETRY_LADDER[|before| - 1].delayMs <= t
    ensures Spaced(before + [t])
  {
    var times := before + [t];
    forall i | 0 <= i < |times| - 1 && i < |RETRY_LADDER| ensures times[i] + RETRY_LADDER[i].delayMs <= times[i + 1] {
      if i + 1 < |before| {
        assert times[i] == before[i] && times[i + 1] == before[i + 1];
      }
    }
  }

  lemma AppendKeepsPlaced(w: World, at: TopicPartition, m: Message)
    requires LogsPlaced(w) && (m.decodes ==> Placed(at.topic, m, w.now))
    ensures LogsPlaced(Append(w, at, m))
  {
    forall p, o | 0 <= o < |LogAt(Append(w, at, m).logs, p)| && LogAt(Append(w, at, m).logs, p)[o].decodes
      ensures Placed(p.topic, LogAt(Append(w, at, m).logs, p)[o], w.now)
    {
      if o < |LogAt(w.logs, p)| {
        assert Placed(p.topic, LogAt(w.logs, p)[o], w.now);
      }
    }
  }

  lemma FetchWaits(w: World, group: Channel, at: TopicPartition, position: nat)
    requires LogsPlaced(w) && HeightOf(at.topic).Some?
    ensures Waited(Worker(group, at, position, Fetch(w, group, at, position)), w.now)
  {
    Delays();
    LadderClimbs(at.topic);
  }

  lemma OnlyRepublishingWrites(w: World, group: Channel, m: Message, t: int, stage: Stage, input: Input)
    ensures var w' := Handled(w, group, m, t, stage, input);
            w'.now == w.now && (stage != Republishing ==> w'.logs == w.logs)
  {
  }

  lemma WorkerKeepsPlaced(w: World, a: Actor, input: Input)
    requires LogsPlaced(w) && a.Worker? && Waited(a, w.now)
    ensures var (w', a') := WorkerAct(w, a, input); LogsPlaced(w') && Waited(a', w'.now) && w'.now == w.now
  {
    match a.job {
      case Fetching => FetchWaits(w, a.group, a.at, a.position);
      case Busy(m, t, stage) =>
        OnlyRepublishingWrites(w, a.group, m, t, stage, input);
        if stage == Republishing {
          RepublishedIsPlaced(a.at.topic, m, t, a.group, w.now);
          AppendKeepsPlaced(w, TopicPartition(RetryDestination(AttemptOf(m.attempt)).TopicName(), input.partition),
                            Republished(m, t, a.group, w.now));
        }
      case Committing =>
    }
  }

  lemma ActKeepsPlaced(w: World, a: Actor, input: Input)
    requires LogsPlaced(w) && Waited(a, w.now)
    ensures var (w', a') := ActorAct(w, a, input); LogsPlaced(w') && Waited(a', w'.now) && w'.now == w.now
  {
    if a.Worker? {
      WorkerKeepsPlaced(w, a, input);
    } else if a.Relay? && a.sent < |a.batch| && a.batch[a.sent] < |w.outbox| {
      var e := a.batch[a.sent];
      AppendKeepsPlaced(w, MainOf(w.outbox[e].partition), Message(e, Absent, None, w.now, [], true));
    }
  }

  lemma StepKeepsInv(s: State, step: Step)
    requires Inv(s)
    ensures Inv(Do(s, step))
  {
    match step {
      case Act(i, input) => if i < |s.actors| { ActKeepsPlaced(s.world, s.actors[i], input); }
      case Garble(at, m) => AppendKeepsPlaced(s.world, at, m.(decodes := false));
      case StartWorker(group, at) => if MayStart(s, step) { SubscribedHeight(at.topic); }
      case _ =>
    }
  }

  lemma SubscribedHeight(topic: Topic)
    requires Subscribed(topic)
    ensures HeightOf(topic).Some?
  {
  }

  lemma {:induction false} RunIsPlaced(steps: seq<Step>)
    ensures Inv(Run(steps))
  {
    if |steps| > 0 {
      RunIsPlaced(steps[..|steps| - 1]);
      StepKeepsInv(Run(steps[..|steps| - 1]), steps[|steps| - 1]);
    }
  }

  /** Over any run: the chain of republishes behind a message on rung k has exactly k
      links, so no chain has more than four before the dead letters; it gets there only
      after all three rungs, at least 965 seconds after its first message was handled. */
  lemma LadderTakesItsTime(steps: seq<Step>, at: TopicPartition, o: nat)
    requires o < |LogAt(Run(steps).world.logs, at)| && LogAt(Run(steps).world.logs, at)[o].decodes
    ensures var m := LogAt(Run(steps).world.logs, at)[o];
            && (HeightOf(at.topic).Some? ==> |m.handledAt| == AttemptOf(m.attempt) == HeightOf(at.topic).value <= 3)
            && (HeightOf(at.topic) == None ==>
                  && at.topic == DeadLetters && |m.handledAt| == 4
                  && m.handledAt[0] + 965_000 <= m.handledAt[3] <= m.timestamp)
  {
    RunIsPlaced(steps);
    var m := LogAt(Run(steps).world.logs, at)[o];
    assert Placed(at.topic, m, Run(steps).world.now);
    if |m.handledAt| == 4 {
      assert m.handledAt[0] + RETRY_LADDER[0].delayMs <= m.handledAt[1];
      assert m.handledAt[1] + RETRY_LADDER[1].delayMs <= m.handledAt[2];
      assert m.handledAt[2] + RETRY_LADDER[2].delayMs <= m.handledAt[3];
    }
  }

  /** Nothing on a rung is handled before its delay is over, nor by another group than
      the one it failed for; first deliveries, and only they, are for every group. */
  lemma RetriesWaitForTheirOwnGroup(steps: seq<Step>, i: nat)
    requires i < |Run(steps).actors| && Run(steps).actors[i].Worker? && Run(steps).actors[i].job.Busy?
    ensures var a := Run(steps).actors[i];
            && a.job.message.timestamp + DelayFor(a.at.topic) <= a.job.startedAt
            && a.job.message.group == if a.at.topic == MainTopic then None else Some(a.group)
  {
    RunIsPlaced(steps);
    assert Waited(Run(steps).actors[i], Run(steps).world.now);
  }
}
