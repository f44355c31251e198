/** One message through a channel worker (`eachMessage` of backend/src/worker.ts), and
what one worker or one deferred sweeper of the pipeline does when it runs alone. */
module WorkerLoop {
  import opened Tables
  import opened Retry
  import opened DeliveryLedger
  import opened Pipeline

  predicate ForAnotherGroup(m: Message, group: Channel) { m.group.Some? && m.group.value != group }

  /** How long a ladder message still has to wait; a first delivery never waits. */
  function WaitMs(topic: Topic, m: Message, now: int): int {
    if IsRetryTopic(topic) then m.timestamp + DelayFor(topic) - now else 0
  }

  function Commit(w: World, group: Channel, at: TopicPartition, offset: nat): World {
    w.(committed := w.committed[GroupPartition(group, at) := offset + 1])
  }

  /** A delivery this worker may attempt: the provider is called, the answer is written
      down, a transient failure goes to the next rung, and the offset is committed. */
  function Delivered(w: World, group: Channel, at: TopicPartition, offset: nat, m: Message, startedAt: int,
      input: Input): World
  {
    var k, heard := Key(m.event, group), Heard(input.reply);
    var called := CallProvider(w, k, input.reply);
    var settled := called.(ledger := AfterDelivery(w.ledger, k, input.wanted, IsRetryTopic(at.topic), heard, w.now));
    var next := TopicPartition(RetryDestination(AttemptOf(m.attempt)).TopicName(), input.partition);
    Commit(if heard == TransientFailure then Append(settled, next, Republished(m, startedAt, group, w.now))
           else settled,
           group, at, offset)
  }

  /** What one uninterrupted call leaves: another group's retry is only committed past, a
      young one is left where it is, an unreadable one is committed past, and anything
      else is delivered under the ledger. */
  function AfterMessage(w: World, group: Channel, at: TopicPartition, offset: nat, input: Input): World
    requires offset < |LogAt(w.logs, at)|
  {
    var m := LogAt(w.logs, at)[offset];
    var k, reclaim := Key(m.event, group), IsRetryTopic(at.topic);
    if ForAnotherGroup(m, group) then Commit(w, group, at, offset)
    else if WaitMs(at.topic, m, w.now) > 0 then w
    else if !m.decodes then Commit(w, group, at, offset)
    else if MaySend(w.ledger, k, input.wanted, reclaim) then Delivered(w, group, at, offset, m, w.now, input)
    else
      Commit(w.(ledger := AfterDelivery(w.ledger, k, input.wanted, reclaim, Heard(input.reply), w.now)),
             group, at, offset)
  }

  /** How long a topic holds its messages back. */
  ghost predicate HeldBack(topic: Topic, delayMs: int) {
    match topic
    case Retry5s => delayMs == 5_000
    case Retry1m => delayMs == 60_000
    case Retry15m => delayMs == 900_000
    case _ => delayMs == 0
  }

  lemma HeldBackBy(topic: Topic, delayMs: int)
    requires HeldBack(topic, delayMs)
    ensures DelayFor(topic) == delayMs && (IsRetryTopic(topic) <==> delayMs > 0)
  {
    Delays();
    var ladder := RETRY_LADDER;
    assert ladder[0] in ladder && ladder[1] in ladder && ladder[2] in ladder;
    if topic !in {Retry5s, Retry1m, Retry15m} {
      assert ladder[1..] == [ladder[1], ladder[2]] && ladder[1..][1..] == [ladder[2]];
      assert FindRung(ladder[1..][1..][1..], topic) == None;
      assert FindRung(ladder[1..][1..], topic) == None;
      assert FindRung(ladder[1..], topic) == None;
    }
  }

  /** One message more, at the end of one log: the next rung's, or the dead letters' after the
      last, one attempt further and for this group only. */
  ghost predicate RepublishedOnce(w: World, after: World, m: Message, group: Channel, partition: nat) {
    var used := if m.attempt.Integer? && m.attempt.n > 0 then m.attempt.n else 0;
    var topic := if used == 0 then Retry5s else if used == 1 then Retry1m
                 else if used == 2 then Retry15m else DeadLetters;
    var to := TopicPartition(topic, partition);
    after.logs == w.logs[to := LogAt(w.logs, to)
                               + [Message(m.event, Integer(if used < 3 then used + 1 else used), Some(group), w.now,
                                          m.handledAt + [w.now], true)]]
  }

  /** A worker starts at its group's offset on the main topic and on each rung, and nowhere else;
      a sweeper starts from what its query finds. */
  lemma ConsumersStart(s: State, group: Channel, at: TopicPartition, due: seq<Key>)
    ensures Do(s, StartWorker(group, at))
            == if at.topic in {MainTopic, Retry5s, Retry1m, Retry15m}
               then s.(actors := s.actors + [Worker(group, at, CommittedAt(s.world, group, at), Fetching)]) else s
    ensures DueBatch(s.world.ledger, s.world.now, due) ==>
              var listed := seq(|due|, i requires 0 <= i < |due| && due[i] in s.world.ledger =>
                                         Due(due[i], s.world.ledger[due[i]].createdAt));
              Do(s, StartSweeper(listed)) == s.(actors := s.actors + [Sweeper(s.world.now, listed, Picking)])
  {
    match at.topic
    case Retry5s => HeldBackBy(Retry5s, 5_000);
    case Retry1m => HeldBackBy(Retry1m, 60_000);
    case Retry15m => HeldBackBy(Retry15m, 900_000);
    case _ => HeldBackBy(at.topic, 0);
  }

  /** A message dealt with: delivered under the ledger, committed, and sent on to the next rung
      exactly if the provider was asked and failed for the moment. */
  ghost predicate HandledMessage(w: World, group: Channel, at: TopicPartition, offset: nat, input: Input, after: World)
    requires offset < |LogAt(w.logs, at)|
  {
    var m, onLadder := LogAt(w.logs, at)[offset], at.topic in {Retry5s, Retry1m, Retry15m};
    var k := Key(m.event, group);
    var asked := input.wanted && (k !in w.ledger || (onLadder && w.ledger[k].status == Failed));
    var failed := input.reply in {Told(TransientFailure), AnswerLost};
    && after.outbox == w.outbox && after.now == w.now
    && after.committed == w.committed[GroupPartition(group, at) := offset + 1]
    && after.ledger == AfterDelivery(w.ledger, k, input.wanted, onLadder, Heard(input.reply), w.now)
    && Count(after.accepted, k)
       == Count(w.accepted, k) + (if asked && input.reply in {Told(Accepted), AnswerLost} then 1 else 0)
    && Count(after.lost, k) == Count(w.lost, k) + (if asked && input.reply == AnswerLost then 1 else 0)
    && if asked && failed then RepublishedOnce(w, after, m, group, input.partition) else after.logs == w.logs
  }

  lemma NextRung(used: nat)
    ensures RetryDestination(used).TopicName() == (if used == 0 then Retry5s else if used == 1 then Retry1m
                                                   else if used == 2 then Retry15m else DeadLetters)
    ensures RetryDestination(used).attempt == if used < 3 then used + 1 else used
  {
  }

  lemma RepublishMeans(w: World, called: World, m: Message, group: Channel, partition: nat)
    requires called.logs == w.logs
    ensures var retry := TopicPartition(RetryDestination(AttemptOf(m.attempt)).TopicName(), partition);
            RepublishedOnce(w, Append(called, retry, Republished(m, w.now, group, w.now)), m, group, partition)
  {
    NextRung(AttemptOf(m.attempt));
  }

  lemma CallMeans(w: World, k: Key, reply: Reply)
    ensures var after := CallProvider(w, k, reply);
            && after == w.(accepted := after.accepted, lost := after.lost)
            && Count(after.accepted, k)
               == Count(w.accepted, k) + (if reply in {Told(Accepted), AnswerLost} then 1 else 0)
            && Count(after.lost, k) == Count(w.lost, k) + (if reply == AnswerLost then 1 else 0)
    ensures Heard(reply) == TransientFailure <==> reply in {Told(TransientFailure), AnswerLost}
  {
  }

  lemma AskedMeans(w: World, group: Channel, at: TopicPartition, offset: nat, input: Input)
    requires offset < |LogAt(w.logs, at)|
    requires MaySend(w.ledger, Key(LogAt(w.logs, at)[offset].event, group), input.wanted, IsRetryTopic(at.topic))
    requires IsRetryTopic(at.topic) <==> at.topic in {Retry5s, Retry1m, Retry15m}
    ensures HandledMessage(w, group, at, offset, input,
                           Delivered(w, group, at, offset, LogAt(w.logs, at)[offset], w.now, input))
  {
    var m := LogAt(w.logs, at)[offset];
    var k := Key(m.event, group);
    var called := CallProvider(w, k, input.reply);
    CallMeans(w, k, input.reply);
    RepublishMeans(w, called.(ledger := AfterDelivery(w.ledger, k, input.wanted, IsRetryTopic(at.topic),
                                                      Heard(input.reply), w.now)), m, group, input.partition);
  }

  lemma HandledMeans(w: World, group: Channel, at: TopicPartition, offset: nat, input: Input, delayMs: int)
    requires offset < |LogAt(w.logs, at)| && HeldBack(at.topic, delayMs)
    requires var m := LogAt(w.logs, at)[offset];
             && (m.group == None || m.group == Some(group)) && m.decodes
             && (delayMs > 0 ==> m.timestamp + delayMs <= w.now)
    ensures HandledMessage(w, group, at, offset, input, AfterMessage(w, group, at, offset, input))
  {
    HeldBackBy(at.topic, delayMs);
    if MaySend(w.ledger, Key(LogAt(w.logs, at)[offset].event, group), input.wanted, IsRetryTopic(at.topic)) {
      AskedMeans(w, group, at, offset, input);
    }
  }

  /** What a message's group, topic and age decide. Another group's is committed past and left
      alone; one whose delay is not over is left for later, and nothing changes at all; an
      unreadable one is committed past; any other is dealt with. */
  lemma MessageMeans(w: World, group: Channel, at: TopicPartition, offset: nat, input: Input, delayMs: int)
    requires offset < |LogAt(w.logs, at)| && HeldBack(at.topic, delayMs)
    ensures var m, after := LogAt(w.logs, at)[offset], AfterMessage(w, group, at, offset, input);
            var past := w.(committed := w.committed[GroupPartition(group, at) := offset + 1]);
            if m.group.Some? && m.group.value != group then after == past
            else if delayMs > 0 && w.now < m.timestamp + delayMs then after == w
            else if !m.decodes then after == past
            else HandledMessage(w, group, at, offset, input, after)
  {
    HeldBackBy(at.topic, delayMs);
    var m := LogAt(w.logs, at)[offset];
    if (m.group == None || m.group == Some(group)) && m.decodes && (delayMs > 0 ==> m.timestamp + delayMs <= w.now) {
      HandledMeans(w, group, at, offset, input, delayMs);
    }
  }

  function StatementsLeft(job: Job): nat {
    match job
    case Fetching => 7
    case Busy(_, _, Claiming) => 6
    case Busy(_, _, Reclaiming) => 5
    case Busy(_, _, Sending) => 4
    case Busy(_, _, Marking(_)) => 3
    case Busy(_, _, Republishing) => 2
    case Committing => 1
  }

  /** A worker's statements run back to back until it commits, or finds nothing to do yet. */
  function RunToCommit(w: World, a: Actor, input: Input): (World, Actor)
    requires a.Worker?
    decreases StatementsLeft(a.job)
  {
    var (w', a') := WorkerAct(w, a, input);
    if a.job == Committing || a'.job == Fetching then (w', a') else RunToCommit(w', a', input)
  }

  lemma SettlingRuns(w: World, a: Actor, input: Input, answer: Answer)
    requires a.Worker? && a.job.Busy? && a.job.stage == Marking(answer)
    ensures var m, t := a.job.message, a.job.startedAt;
            var k, dest := Key(m.event, a.group), RetryDestination(AttemptOf(m.attempt));
            var marked := w.(ledger := Mark(w.ledger, k, answer));
            RunToCommit(w, a, input)
            == (Commit(if answer == TransientFailure
                       then Append(marked, TopicPartition(dest.TopicName(), input.partition),
                                   Republished(m, t, a.group, w.now))
                       else marked, a.group, a.at, a.position),
                a.(position := a.position + 1, job := Fetching))
  {
    var (w1, a1) := WorkerAct(w, a, input);
    var (w2, a2) := WorkerAct(w1, a1, input);
    assert RunToCommit(w, a, input) == RunToCommit(w1, a1, input);
    assert a1.job != Committing ==> RunToCommit(w1, a1, input) == RunToCommit(w2, a2, input);
  }

  lemma SendingRuns(w: World, a: Actor, input: Input)
    requires a.Worker? && a.job.Busy? && a.job.stage == Sending
    ensures var (w', a') := WorkerAct(w, a, input); RunToCommit(w, a, input) == RunToCommit(w', a', input)
    ensures WorkerAct(w, a, input) == (CallProvider(w, Key(a.job.message.event, a.group), input.reply),
                                       a.(job := Busy(a.job.message, a.job.startedAt, Marking(Heard(input.reply)))))
  {
  }

  lemma ClaimingRuns(w: World, a: Actor, input: Input)
    requires a.Worker? && a.job.Busy? && a.job.stage == Claiming
    ensures var m, t := a.job.message, a.job.startedAt;
            var k, reclaim := Key(m.event, a.group), IsRetryTopic(a.at.topic);
            if MaySend(w.ledger, k, input.wanted, reclaim) then
              RunToCommit(w, a, input)
              == RunToCommit(w.(ledger := w.ledger[k := if k in w.ledger then Retake(w.ledger[k])
                                                        else Fresh(Pending, w.now)]),
                             a.(job := Busy(m, t, Sending)), input)
            else
              RunToCommit(w, a, input)
              == (Commit(w.(ledger := if k in w.ledger then w.ledger else w.ledger[k := Fresh(Suppressed, w.now)]),
                         a.group, a.at, a.position),
                  a.(position := a.position + 1, job := Fetching))
  {
    var (w1, a1) := WorkerAct(w, a, input);
    assert RunToCommit(w, a, input) == RunToCommit(w1, a1, input);
    if a1.job.Busy? && a1.job.stage == Reclaiming {
      var (w2, a2) := WorkerAct(w1, a1, input);
      assert RunToCommit(w1, a1, input) == RunToCommit(w2, a2, input);
    }
  }

  lemma CallThenMark(w: World, k: Key, wanted: bool, reclaim: bool, reply: Reply)
    requires MaySend(w.ledger, k, wanted, reclaim)
    ensures var taken := if k in w.ledger then Retake(w.ledger[k]) else Fresh(Pending, w.now);
            var called := CallProvider(w.(ledger := w.ledger[k := taken]), k, reply);
            called.(ledger := Mark(called.ledger, k, Heard(reply)))
            == CallProvider(w, k, reply).(ledger := AfterDelivery(w.ledger, k, wanted, reclaim, Heard(reply), w.now))
  {
    var taken := if k in w.ledger then Retake(w.ledger[k]) else Fresh(Pending, w.now);
    assert w.ledger[k := taken][k := Marked(taken, Heard(reply))] == w.ledger[k := Marked(taken, Heard(reply))];
  }

  /** From a claim that wins, to the commit. */
  lemma SentRuns(w: World, a: Actor, input: Input)
    requires a.Worker? && a.job.Busy? && a.job.stage == Claiming && a.position < |LogAt(w.logs, a.at)|
    requires MaySend(w.ledger, Key(a.job.message.event, a.group), input.wanted, IsRetryTopic(a.at.topic))
    ensures RunToCommit(w, a, input)
            == (Delivered(w, a.group, a.at, a.position, a.job.message, a.job.startedAt, input),
                a.(position := a.position + 1, job := Fetching))
  {
    var m, t, k := a.job.message, a.job.startedAt, Key(a.job.message.event, a.group);
    var taken := if k in w.ledger then Retake(w.ledger[k]) else Fresh(Pending, w.now);
    var w2, a2 := w.(ledger := w.ledger[k := taken]), a.(job := Busy(m, t, Sending));
    ClaimingRuns(w, a, input);
    SendingRuns(w2, a2, input);
    var (w3, a3) := WorkerAct(w2, a2, input);
    SettlingRuns(w3, a3, input, Heard(input.reply));
    CallThenMark(w, k, input.wanted, IsRetryTopic(a.at.topic), input.reply);
  }

  /** The interleaved machine and the uninterrupted function agree: a worker that finds a
      message and runs alone leaves exactly `AfterMessage`, and moves on unless the
      message is too young. */
  lemma WorkerAloneHandles(w: World, group: Channel, at: TopicPartition, offset: nat, input: Input)
    requires offset < |LogAt(w.logs, at)|
    ensures var (w', a') := RunToCommit(w, Actor.Worker(group, at, offset, Fetching), input);
            var m := LogAt(w.logs, at)[offset];
            var waits := !ForAnotherGroup(m, group) && WaitMs(at.topic, m, w.now) > 0;
            w' == AfterMessage(w, group, at, offset, input)
            && a' == Actor.Worker(group, at, if waits then offset else offset + 1, Fetching)
  {
    var a := Actor.Worker(group, at, offset, Fetching);
    var a1 := a.(job := Fetch(w, group, at, offset));
    assert WorkerAct(w, a, input) == (w, a1);
    if a1.job != Fetching {
      assert RunToCommit(w, a, input) == RunToCommit(w, a1, input);
    }
    if a1.job.Busy? {
      if MaySend(w.ledger, Key(a1.job.message.event, group), input.wanted, IsRetryTopic(at.topic)) {
        SentRuns(w, a1, input);
      } else {
        ClaimingRuns(w, a1, input);
      }
    }
  }

  function SweepStatementsLeft(sweep: SweepJob): nat {
    match sweep
    case Picking => 3
    case Redelivering(_) => 2
    case Settling(_, _) => 1
  }

  /** A sweeper's statements run back to back until it is done with one row of its list. */
  function RunToPick(w: World, a: Actor, input: Input): (World, Actor)
    requires a.Sweeper?
    decreases SweepStatementsLeft(a.sweep)
  {
    var (w', a') := SweeperAct(w, a, input);
    if !a'.Sweeper? || a'.sweep == Picking then (w', a') else RunToPick(w', a', input)
  }

  lemma RedeliveryRuns(w: World, a: Actor, input: Input, k: Key)
    requires a.Sweeper? && a.sweep == Redelivering(k)
    ensures var called := CallProvider(w, k, input.reply);
            RunToPick(w, a, input)
            == (called.(ledger := Mark(w.ledger, k, Heard(input.reply))), a.(sweep := Picking))
  {
    var (w1, a1) := SweeperAct(w, a, input);
    assert RunToPick(w, a, input) == RunToPick(w1, a1, input);
  }

  /** The interleaved machine and the sequential sweep agree: a sweeper alone leaves its
      next row exactly as `SweptRow` says, asks the provider only if that row is to be
      sent, and touches nothing else. */
  lemma SweeperAloneSettles(w: World, a: Actor, input: Input)
    requires a.Sweeper? && a.sweep == Picking && |a.due| > 0
    requires a.due[0].key in w.ledger && w.ledger[a.due[0].key].createdAt == a.due[0].createdAt
    ensures var k, heard := a.due[0].key, Heard(input.reply);
            var asked := Sends(ActOn(w.ledger[k], k, input.found, heard, a.startedAt));
            var called := if asked then CallProvider(w, k, input.reply) else w;
            RunToPick(w, a, input)
            == (called.(ledger := w.ledger[k := SweptRow(w.ledger[k], k, input.found, heard, a.startedAt)]),
                a.(due := a.due[1..]))
  {
    var k := a.due[0].key;
    var (w1, a1) := SweeperAct(w, a, input);
    assert w.ledger[k := w.ledger[k]] == w.ledger;
    if a1.sweep != Picking {
      assert RunToPick(w, a, input) == RunToPick(w1, a1, input);
      RedeliveryRuns(w1, a1, input, k);
      assert w.ledger[k := Retake(w.ledger[k])][k := Marked(Retake(w.ledger[k]), Heard(input.reply))]
          == w.ledger[k := Marked(Retake(w.ledger[k]), Heard(input.reply))];
    }
  }

  /** A relay's statements run back to back until it is done. */
  function RelayToEnd(w: World, a: Actor): World
    requires a.Relay?
    decreases |a.batch| - a.sent
  {
    if a.sent >= |a.batch| then RelayAct(w, a).0
    else RelayToEnd(RelayAct(w, a).0, a.(sent := a.sent + 1))
  }

  /** Logs only grow. */
  ghost predicate LogsGrow(before: World, after: World) {
    forall at <- before.logs :: at in after.logs && before.logs[at] <= after.logs[at]
  }

  ghost predicate OnLog(w: World, at: TopicPartition, m: Message) { m in LogAt(w.logs, at) }

  lemma StaysOnLog(before: World, after: World, at: TopicPartition, m: Message)
    requires LogsGrow(before, after) && OnLog(before, at, m)
    ensures OnLog(after, at, m)
  {
    var k :| 0 <= k < |LogAt(before.logs, at)| && LogAt(before.logs, at)[k] == m;
    assert LogAt(after.logs, at)[k] == m;
  }

  lemma RelayPublishesNext(w: World, a: Actor)
    requires a.Relay? && a.sent < |a.batch|
    ensures var (w', a') := RelayAct(w, a);
            && a' == a.(sent := a.sent + 1) && w' == w.(logs := w'.logs) && LogsGrow(w, w')
            && (a.batch[a.sent] < |w.outbox| ==>
                  OnLog(w', TopicPartition(MainTopic, w.outbox[a.batch[a.sent]].partition),
                        Message(a.batch[a.sent], Absent, None, w.now, [], true)))
  {
    var e := a.batch[a.sent];
    if e < |w.outbox| {
      var log := LogAt(RelayAct(w, a).0.logs, MainOf(w.outbox[e].partition));
      assert log[|log| - 1] == Message(e, Absent, None, w.now, [], true);
    }
  }

  lemma {:induction false} RelayAloneMarks(w: World, a: Actor)
    requires a.Relay? && a.sent <= |a.batch|
    ensures var after := RelayToEnd(w, a);
            && after == w.(outbox := UpdateRows(w.outbox, a.batch, Publish(w.now)), logs := after.logs)
            && LogsGrow(w, after)
    decreases |a.batch| - a.sent
  {
    if a.sent < |a.batch| {
      RelayPublishesNext(w, a);
      RelayAloneMarks(RelayAct(w, a).0, a.(sent := a.sent + 1));
    }
  }

  /** A relay that runs alone puts each event of its batch on its user's partition of the main
      topic, with this moment's time, then marks the batch, and does nothing else: the pass of
      `OutboxDesk`. */
  lemma {:induction false} RelayAlonePublishes(w: World, a: Actor)
    requires a.Relay? && a.sent <= |a.batch|
    ensures var after := RelayToEnd(w, a);
            && after == w.(outbox := UpdateRows(w.outbox, a.batch, Publish(w.now)), logs := after.logs)
            && LogsGrow(w, after)
            && forall k :: a.sent <= k < |a.batch| && a.batch[k] < |w.outbox| ==>
                 OnLog(after, TopicPartition(MainTopic, w.outbox[a.batch[k]].partition),
                       Message(a.batch[k], Absent, None, w.now, [], true))
    decreases |a.batch| - a.sent
  {
    RelayAloneMarks(w, a);
    if a.sent < |a.batch| {
      var (w', a') := RelayAct(w, a);
      var after, e := RelayToEnd(w, a), a.batch[a.sent];
      RelayPublishesNext(w, a);
      RelayAloneMarks(w', a');
      RelayAlonePublishes(w', a');
      if e < |w.outbox| {
        StaysOnLog(w', after, TopicPartition(MainTopic, w.outbox[e].partition),
                   Message(e, Absent, None, w.now, [], true));
      }
    }
  }

  class ChannelWorker {
    const group: Channel
    const ledger: Ledger
    var logs: map<TopicPartition, seq<Message>>
    var committed: map<GroupPartition, nat>

    constructor (group: Channel, ledger: Ledger)
      ensures this.group == group && this.ledger == ledger && logs == map[] && committed == map[]
    {
      this.group, this.ledger, logs, committed := group, ledger, map[], map[];
    }

    ghost function View(now: int): World
      reads this, ledger
    {
      World([], logs, committed, ledger.rows, map[], map[], now)
    }

    method CommitOffset(at: TopicPartition, offset: nat)
      modifies this`committed
      ensures committed == old(committed)[GroupPartition(group, at) := offset + 1]
    {
      committed := committed[GroupPartition(group, at) := offset + 1];
    }

    method Republish(m: Message, startedAt: int, partition: nat, now: int)
      modifies this`logs
      ensures logs == old(Append(View(now),
                                 TopicPartition(RetryDestination(AttemptOf(m.attempt)).TopicName(), partition),
                                 Republished(m, startedAt, group, now))).logs
    {
      var dest := RetryDestination(AttemptOf(m.attempt));
      var at := TopicPartition(dest.TopicName(), partition);
      var retry := Message(m.event, Integer(dest.attempt), Some(group), now, m.handledAt + [startedAt], true);
      logs := logs[at := (if at in logs then logs[at] else []) + [retry]];
    }

    /** `resumeIn` is how long the partition is paused; 0 when the message was dealt with. */
    method EachMessage(at: TopicPartition, offset: nat, input: Input, now: int) returns (resumeIn: nat)
      requires offset < |LogAt(logs, at)|
      modifies this, ledger
      ensures var m, w := LogAt(old(logs), at)[offset], AfterMessage(old(View(now)), group, at, offset, input);
              && logs == w.logs && committed == w.committed && ledger.rows == w.ledger
              && resumeIn == if ForAnotherGroup(m, group) then 0 else Max(0, WaitMs(at.topic, m, now))
      ensures var m := LogAt(old(logs), at)[offset];
              ledger.sends == old(ledger.sends)
                + if resumeIn == 0 && !ForAnotherGroup(m, group) && m.decodes
                     && MaySend(old(ledger.rows), Key(m.event, group), input.wanted, IsRetryTopic(at.topic))
                  then [Key(m.event, group)] else []
    {
      var m := LogAt(logs, at)[offset];
      if m.group.Some? && m.group.value != group {
        CommitOffset(at, offset);
        return 0;
      }
      var onLadder := IsRetryTopic(at.topic);
      if onLadder {
        var waitMs := m.timestamp + DelayFor(at.topic) - now;
        if waitMs > 0 { return waitMs; }
      }
      if !m.decodes {
        CommitOffset(at, offset);
        return 0;
      }
      var outcome := ledger.Deliver(Key(m.event, group), input.wanted, onLadder, Heard(input.reply), now);
      if outcome == WantsRetry {
        Republish(m, now, input.partition, now);
      }
      CommitOffset(at, offset);
      return 0;
    }
  }
}
