/** No committed event is ever lost, whatever relays, workers, sweepers, pruning passes
and crashes do (backend/src/lib/relay.ts, backend/src/worker.ts,
backend/src/lib/outboxRetention.ts). */
module NoLoss {
  import opened Tables
  import opened Retry
  import opened DeliveryLedger
  import opened Pipeline

  /** A readable copy of the event is on its user's main partition, at `from` or later. */
  ghost predicate OnMain(w: World, e: EventId, from: nat)
    requires e < |w.outbox|
  {
    var log := LogAt(w.logs, MainOf(w.outbox[e].partition));
    exists o :: from <= o < |log| && log[o].decodes && log[o].event == e
  }

  /** Everything a group has moved past on a main partition is in its ledger. */
  ghost predicate Recorded(w: World, group: Channel, partition: nat, position: nat) {
    var log := LogAt(w.logs, MainOf(partition));
    position <= |log| && forall o :: 0 <= o < position && log[o].decodes ==> Key(log[o].event, group) in w.ledger
  }

  ghost predicate OutboxSafe(w: World) {
    forall e :: 0 <= e < |w.outbox| ==>
      && (w.outbox[e].deleted ==> w.outbox[e].publishedAt.Some?)
      && (w.outbox[e].publishedAt.Some? ==> OnMain(w, e, 0))
  }

  ghost predicate OffsetsSafe(w: World) {
    forall group, partition :: Recorded(w, group, partition, CommittedAt(w, group, MainOf(partition)))
  }

  /** Retries are addressed to a group; first deliveries are for everyone. */
  ghost predicate MainForAll(w: World) {
    forall partition, o :: 0 <= o < |LogAt(w.logs, MainOf(partition))| ==>
      LogAt(w.logs, MainOf(partition))[o].decodes ==> LogAt(w.logs, MainOf(partition))[o].group == None
  }

  ghost predicate WorldSafe(w: World) { OutboxSafe(w) && OffsetsSafe(w) && MainForAll(w) }

  /** A worker never moves past a first delivery that has no ledger row. */
  ghost predicate WorkerSafe(w: World, a: Actor)
    requires a.Worker?
  {
    a.at.topic == MainTopic ==>
      var log := LogAt(w.logs, a.at);
      && Recorded(w, a.group, a.at.partition, a.position)
      && (a.job.Busy? ==> a.position < |log| && log[a.position] == a.job.message && a.job.message.decodes)
      && (a.job == Committing || (a.job.Busy? && a.job.stage != Claiming) ==>
            a.position < |log| && (log[a.position].decodes ==> Key(log[a.position].event, a.group) in w.ledger))
  }

  ghost predicate ActorSafe(w: World, a: Actor) {
    match a
    case Worker(_, _, _, _) => WorkerSafe(w, a)
    case Sweeper(_, _, _) => true
    case Relay(batch, sent) =>
      sent <= |batch| && forall j :: 0 <= j < |batch| ==> batch[j] < |w.outbox| && (j < sent ==> OnMain(w, batch[j], 0))
    case Pruner(doomed) => forall e <- doomed :: e < |w.outbox| && w.outbox[e].publishedAt.Some?
    case Gone => true
  }

  ghost predicate Inv(s: State) {
    WorldSafe(s.world) && forall i :: 0 <= i < |s.actors| ==> ActorSafe(s.world, s.actors[i])
  }

  /** Rows are not unpublished, logs are append-only, ledger rows are never deleted. */
  ghost predicate Grows(w: World, w': World) {
    && |w.outbox| <= |w'.outbox|
    && (forall e :: 0 <= e < |w.outbox| ==>
          && w'.outbox[e].partition == w.outbox[e].partition
          && (w.outbox[e].publishedAt.Some? ==> w'.outbox[e].publishedAt.Some?))
    && (forall at :: LogAt(w.logs, at) <= LogAt(w'.logs, at))
    && w.ledger.Keys <= w'.ledger.Keys
  }

  lemma OnMainGrows(w: World, w': World, e: EventId)
    requires Grows(w, w') && e < |w.outbox| && OnMain(w, e, 0)
    ensures OnMain(w', e, 0)
  {
    var log := LogAt(w.logs, MainOf(w.outbox[e].partition));
    var o :| 0 <= o < |log| && log[o].decodes && log[o].event == e;
    assert LogAt(w'.logs, MainOf(w'.outbox[e].partition))[o] == log[o];
  }

  lemma RecordedGrows(w: World, w': World, group: Channel, partition: nat, position: nat)
    requires Grows(w, w') && Recorded(w, group, partition, position)
    ensures Recorded(w', group, partition, position)
  {
    assert LogAt(w.logs, MainOf(partition)) <= LogAt(w'.logs, MainOf(partition));
  }

  lemma ActorSafeGrows(w: World, w': World, a: Actor)
    requires Grows(w, w') && ActorSafe(w, a)
    ensures ActorSafe(w', a)
  {
    match a {
      case Worker(group, at, position, _) =>
        if at.topic == MainTopic {
          RecordedGrows(w, w', group, at.partition, position);
          assert LogAt(w.logs, at) <= LogAt(w'.logs, at);
        }
      case Relay(batch, sent) =>
        forall j | 0 <= j < sent ensures OnMain(w', batch[j], 0) { OnMainGrows(w, w', batch[j]); }
      case _ =>
    }
  }

  /** A world that only grew, published nothing and committed nothing. */
  lemma GrowthIsSafe(w: World, w': World)
    requires WorldSafe(w) && Grows(w, w') && w'.committed == w.committed && MainForAll(w')
    requires forall e :: 0 <= e < |w'.outbox| ==> if e < |w.outbox| then w'.outbox[e] == w.outbox[e]
                                                  else w'.outbox[e].publishedAt == None && !w'.outbox[e].deleted
    ensures WorldSafe(w')
  {
    forall e | 0 <= e < |w'.outbox| && w'.outbox[e].publishedAt.Some? ensures OnMain(w', e, 0) {
      OnMainGrows(w, w', e);
    }
    forall group, partition ensures Recorded(w', group, partition, CommittedAt(w', group, MainOf(partition))) {
      RecordedGrows(w, w', group, partition, CommittedAt(w, group, MainOf(partition)));
    }
  }

  lemma WorkerActIsSafe(w: World, a: Actor, input: Input)
    requires WorldSafe(w) && a.Worker? && ActorSafe(w, a)
    ensures var (w', a') := WorkerAct(w, a, input); WorldSafe(w') && ActorSafe(w', a') && Grows(w, w')
  {
    var (w', a') := WorkerAct(w, a, input);
    match a.job {
      case Fetching => FetchIsSafe(w, a, input);
      case Busy(m, t, stage) =>
        HandlingGrows(w, a.group, m, t, stage, input);
        GrowthIsSafe(w, w');
        ActorSafeGrows(w, w', a);
      case Committing => CommitIsSafe(w, a, input);
    }
  }

  lemma FetchIsSafe(w: World, a: Actor, input: Input)
    requires WorldSafe(w) && a.Worker? && ActorSafe(w, a) && a.job == Fetching
    ensures var (w', a') := WorkerAct(w, a, input); w' == w && ActorSafe(w, a')
  {
    if a.at.topic == MainTopic && a.position < |LogAt(w.logs, a.at)| {
      assert a.at == MainOf(a.at.partition);
    }
  }

  lemma HandlingGrows(w: World, group: Channel, m: Message, t: int, stage: Stage, input: Input)
    requires MainForAll(w)
    ensures var w' := Handled(w, group, m, t, stage, input);
            && Grows(w, w') && MainForAll(w') && w'.committed == w.committed && w'.outbox == w.outbox
  {
    if stage == Republishing {
      assert RetryDestination(AttemptOf(m.attempt)).TopicName() != MainTopic;
    }
  }

  lemma CommitIsSafe(w: World, a: Actor, input: Input)
    requires WorldSafe(w) && a.Worker? && ActorSafe(w, a) && a.job == Committing
    ensures var (w', a') := WorkerAct(w, a, input); WorldSafe(w') && ActorSafe(w', a') && Grows(w, w')
  {
    var (w', a') := WorkerAct(w, a, input);
    if a.at.topic == MainTopic {
      assert a.at == MainOf(a.at.partition);
      assert Recorded(w', a.group, a.at.partition, a.position + 1);
    }
    forall group, partition ensures Recorded(w', group, partition, CommittedAt(w', group, MainOf(partition))) {
      assert Recorded(w, group, partition, CommittedAt(w, group, MainOf(partition)));
      if group == a.group && MainOf(partition) == a.at {
        assert CommittedAt(w', group, MainOf(partition)) == a.position + 1;
      } else {
        assert CommittedAt(w', group, MainOf(partition)) == CommittedAt(w, group, MainOf(partition));
      }
    }
    forall e | 0 <= e < |w'.outbox| && w'.outbox[e].publishedAt.Some? ensures OnMain(w', e, 0) {
      OnMainGrows(w, w', e);
    }
  }

  lemma SweeperOnlySettles(w: World, a: Actor, input: Input)
    requires a.Sweeper?
    ensures var (w', a') := SweeperAct(w, a, input);
            && w'.outbox == w.outbox && w'.logs == w.logs && w'.committed == w.committed
            && w.ledger.Keys <= w'.ledger.Keys && (a'.Sweeper? || a'.Gone?)
  {
  }

  lemma SweeperActIsSafe(w: World, a: Actor, input: Input)
    requires WorldSafe(w) && a.Sweeper?
    ensures var (w', a') := SweeperAct(w, a, input); WorldSafe(w') && ActorSafe(w', a') && Grows(w, w')
  {
    SweeperOnlySettles(w, a, input);
    GrowthIsSafe(w, SweeperAct(w, a, input).0);
  }

  lemma PublishIsSafe(w: World, a: Actor)
    requires WorldSafe(w) && a.Relay? && ActorSafe(w, a) && a.sent < |a.batch|
    ensures var (w', a') := RelayAct(w, a); WorldSafe(w') && ActorSafe(w', a') && Grows(w, w')
  {
    var (w', a') := RelayAct(w, a);
    var e := a.batch[a.sent];
    var at := MainOf(w.outbox[e].partition);
    GrowthIsSafe(w, w');
    ActorSafeGrows(w, w', a);
    assert LogAt(w'.logs, at)[|LogAt(w.logs, at)|] == Message(e, Absent, None, w.now, [], true);
    assert OnMain(w', e, 0);
  }

  lemma MarkingPublishedIsSafe(w: World, a: Actor)
    requires WorldSafe(w) && a.Relay? && ActorSafe(w, a) && a.sent >= |a.batch|
    ensures var (w', a') := RelayAct(w, a); WorldSafe(w') && Grows(w, w')
  {
    var (w', a') := RelayAct(w, a);
    forall e | 0 <= e < |w'.outbox| && w'.outbox[e].publishedAt.Some? ensures OnMain(w', e, 0) {
      if e in a.batch {
        var j :| 0 <= j < |a.batch| && a.batch[j] == e;
        assert OnMain(w, a.batch[j], 0);
      }
      OnMainGrows(w, w', e);
    }
    forall group, partition ensures Recorded(w', group, partition, CommittedAt(w', group, MainOf(partition))) {
      RecordedGrows(w, w', group, partition, CommittedAt(w, group, MainOf(partition)));
    }
  }

  lemma PruningIsSafe(w: World, a: Actor)
    requires WorldSafe(w) && a.Pruner? && ActorSafe(w, a)
    ensures var w' := w.(outbox := UpdateRows(w.outbox, a.doomed, Delete())); WorldSafe(w') && Grows(w, w')
  {
    var w' := w.(outbox := UpdateRows(w.outbox, a.doomed, Delete()));
    forall e | 0 <= e < |w'.outbox| && w'.outbox[e].publishedAt.Some? ensures OnMain(w', e, 0) {
      OnMainGrows(w, w', e);
    }
    forall group, partition ensures Recorded(w', group, partition, CommittedAt(w', group, MainOf(partition))) {
      RecordedGrows(w, w', group, partition, CommittedAt(w, group, MainOf(partition)));
    }
  }

  lemma ActorActIsSafe(w: World, a: Actor, input: Input)
    requires WorldSafe(w) && ActorSafe(w, a)
    ensures var (w', a') := ActorAct(w, a, input); WorldSafe(w') && ActorSafe(w', a') && Grows(w, w')
  {
    match a {
      case Worker(_, _, _, _) => WorkerActIsSafe(w, a, input);
      case Sweeper(_, _, _) => SweeperActIsSafe(w, a, input);
      case Relay(_, _) => if a.sent < |a.batch| { PublishIsSafe(w, a); } else { MarkingPublishedIsSafe(w, a); }
      case Pruner(_) => PruningIsSafe(w, a);
      case Gone =>
    }
  }

  lemma StartIsSafe(s: State, step: Step)
    requires WorldSafe(s.world) && Starts(step) && MayStart(s, step)
    ensures ActorSafe(s.world, Started(s.world, step))
  {
    if step.StartRelay? {
      assert forall j :: 0 <= j < |step.batch| ==> step.batch[j] in step.batch;
    } else if step.StartWorker? && step.at.topic == MainTopic {
      assert step.at == MainOf(step.at.partition);
      assert Recorded(s.world, step.group, step.at.partition,
                      CommittedAt(s.world, step.group, MainOf(step.at.partition)));
    }
  }

  lemma GarblingKeepsMain(w: World, at: TopicPartition, m: Message)
    requires MainForAll(w)
    ensures MainForAll(Append(w, at, m.(decodes := false)))
  {
    var w' := Append(w, at, m.(decodes := false));
    forall partition, o | 0 <= o < |LogAt(w'.logs, MainOf(partition))| && LogAt(w'.logs, MainOf(partition))[o].decodes
      ensures LogAt(w'.logs, MainOf(partition))[o].group == None
    {
      assert o < |LogAt(w.logs, MainOf(partition))|;
    }
  }

  lemma StepKeepsInv(s: State, step: Step)
    requires Inv(s)
    ensures Inv(Do(s, step))
  {
    var s' := Do(s, step);
    if step.Act? && step.actor < |s.actors| {
      ActorActIsSafe(s.world, s.actors[step.actor], step.input);
    } else if Starts(step) {
      if MayStart(s, step) { StartIsSafe(s, step); }
    } else {
      if step.Garble? { GarblingKeepsMain(s.world, step.at, step.message); }
      GrowthIsSafe(s.world, s'.world);
    }
    assert Grows(s.world, s'.world);
    forall i | 0 <= i < |s'.actors| ensures ActorSafe(s'.world, s'.actors[i]) {
      if i < |s.actors| && s'.actors[i] == s.actors[i] {
        ActorSafeGrows(s.world, s'.world, s.actors[i]);
      }
    }
  }

  lemma {:induction false} RunIsSafe(steps: seq<Step>)
    ensures Inv(Run(steps))
  {
    if |steps| > 0 {
      RunIsSafe(steps[..|steps| - 1]);
      StepKeepsInv(Run(steps[..|steps| - 1]), steps[|steps| - 1]);
    }
  }

  /** In every reachable state each committed event is, for each channel, still in the
      outbox to be published, or on the main log where that channel's group has yet to
      read it, or in the ledger. */
  lemma NoEventIsLost(steps: seq<Step>, e: EventId, channel: Channel)
    requires e < |Run(steps).world.outbox|
    ensures var w := Run(steps).world;
            || Unpublished(w, e)
            || OnMain(w, e, CommittedAt(w, channel, MainOf(w.outbox[e].partition)))
            || Key(e, channel) in w.ledger
  {
    RunIsSafe(steps);
    var w := Run(steps).world;
    if !Unpublished(w, e) {
      var p := w.outbox[e].partition;
      assert Recorded(w, channel, p, CommittedAt(w, channel, MainOf(p)));
      var log := LogAt(w.logs, MainOf(p));
      var o :| 0 <= o < |log| && log[o].decodes && log[o].event == e;
    }
  }
}
