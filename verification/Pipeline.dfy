/** The notification pipeline as one machine (backend/src/lib/relay.ts,
backend/src/worker.ts, backend/src/lib/deliveryLedger.ts,
backend/src/lib/deferredDeliveries.ts, backend/src/lib/outboxRetention.ts).

Any number of relays, workers, deferred sweepers and pruning passes run at once. One
step is one statement, one publish, one call to a provider or one offset commit; a
process that crashes is never scheduled again, and a crashed relay gives up its locks.
*/
module Pipeline {
  import opened Tables
  import opened Retry
  import opened DeliveryLedger

  datatype TopicPartition = TopicPartition(topic: Topic, partition: nat)

  /** `handledAt` is history: when this message's predecessors on the ladder were handled.
      `decodes` is false of a message `decodeEvent` cannot read. */
  datatype Message = Message(
    event: EventId,
    attempt: AttemptHeader,
    group: Option<Channel>,
    timestamp: int,
    handledAt: seq<int>,
    decodes: bool)

  /** `partition` is where the event's user hashes to on the main topic; `attempts` counts failed batches. */
  datatype OutboxRow = OutboxRow(partition: nat, publishedAt: Option<int>, deleted: bool, attempts: nat)

  datatype GroupPartition = GroupPartition(group: Channel, at: TopicPartition)

  /** `accepted` and `lost` are history: the sends the provider accepted, and those of
      them whose caller was told of an error instead. */
  datatype World = World(
    outbox: seq<OutboxRow>,
    logs: map<TopicPartition, seq<Message>>,
    committed: map<GroupPartition, nat>,
    ledger: Rows,
    accepted: map<Key, nat>,
    lost: map<Key, nat>,
    now: int)

  function LogAt(logs: map<TopicPartition, seq<Message>>, at: TopicPartition): seq<Message> {
    if at in logs then logs[at] else []
  }

  function MainOf(partition: nat): TopicPartition { TopicPartition(MainTopic, partition) }

  /** A group without a committed offset starts from the beginning. */
  function CommittedAt(w: World, group: Channel, at: TopicPartition): nat {
    var g := GroupPartition(group, at);
    if g in w.committed then w.committed[g] else 0
  }

  function Count(counts: map<Key, nat>, k: Key): nat { if k in counts then counts[k] else 0 }

  /* ------------------------------------------------------------------ *
   * The processes
   * ------------------------------------------------------------------ */

  /** How a provider call ends: the caller hears the answer, or the message goes out and the answer is lost. */
  datatype Reply = Told(answer: Answer) | AnswerLost

  function Heard(reply: Reply): Answer { if reply.Told? then reply.answer else TransientFailure }

  predicate Accepts(reply: Reply) { reply == Told(Accepted) || reply == AnswerLost }

  datatype Stage = Claiming | Reclaiming | Sending | Marking(answer: Answer) | Republishing

  datatype Job = Fetching | Busy(message: Message, startedAt: int, stage: Stage) | Committing

  datatype Due = Due(key: Key, createdAt: int)

  datatype SweepJob = Picking | Redelivering(key: Key) | Settling(key: Key, answer: Answer)

  datatype Actor =
    | Worker(group: Channel, at: TopicPartition, position: nat, job: Job)
    | Sweeper(startedAt: int, due: seq<Due>, sweep: SweepJob)
    | Relay(batch: seq<EventId>, sent: nat)
    | Pruner(doomed: seq<EventId>)
    | Gone

  /** What the outside world contributes to one step: the user's preference, the
      provider's reply, whether the notification row still exists, and the partition
      the user hashes to on the topic a retry goes to. */
  datatype Input = Input(wanted: bool, reply: Reply, found: bool, partition: nat)

  datatype State = State(world: World, actors: seq<Actor>)

  datatype Step =
    | Enqueue(partition: nat)
    | Garble(at: TopicPartition, message: Message)
    | StartWorker(group: Channel, at: TopicPartition)
    | StartSweeper(due: seq<Due>)
    | StartRelay(batch: seq<EventId>)
    | StartPruner(doomed: seq<EventId>, retentionMs: nat)
    | Act(actor: nat, input: Input)
    | Crash(actor: nat)
    | Tick(ms: nat)

  const EmptyWorld := World([], map[], map[], map[], map[], map[], 0)

  /* ------------------------------------------------------------------ *
   * One step of each process
   * ------------------------------------------------------------------ */

  function Append(w: World, at: TopicPartition, m: Message): World {
    w.(logs := w.logs[at := LogAt(w.logs, at) + [m]])
  }

  /** One call to a provider. */
  function CallProvider(w: World, k: Key, reply: Reply): World {
    w.(accepted := if Accepts(reply) then w.accepted[k := Count(w.accepted, k) + 1] else w.accepted,
       lost := if reply == AnswerLost then w.lost[k := Count(w.lost, k) + 1] else w.lost)
  }

  /** The head of `eachMessage`: another group's retry is skipped, a young one is waited for,
      an unreadable one is skipped. */
  function Fetch(w: World, group: Channel, at: TopicPartition, position: nat): Job {
    var log := LogAt(w.logs, at);
    if position >= |log| then Fetching
    else if log[position].group.Some? && log[position].group.value != group then Committing
    else if IsRetryTopic(at.topic) && w.now < log[position].timestamp + DelayFor(at.topic) then Fetching
    else if !log[position].decodes then Committing
    else Busy(log[position], w.now, Claiming)
  }

  function Republished(m: Message, startedAt: int, group: Channel, now: int): Message {
    var attempt := RetryDestination(AttemptOf(m.attempt)).attempt;
    Message(m.event, Integer(attempt), Some(group), now, m.handledAt + [startedAt], true)
  }

  /** What one statement of the handler does. */
  function Handled(w: World, group: Channel, m: Message, startedAt: int, stage: Stage, input: Input): World {
    var k := Key(m.event, group);
    match stage
    case Claiming => w.(ledger := Insert(w.ledger, k, if input.wanted then Pending else Suppressed, w.now))
    case Reclaiming => w.(ledger := Reclaim(w.ledger, k))
    case Sending => CallProvider(w, k, input.reply)
    case Marking(answer) => w.(ledger := Mark(w.ledger, k, answer))
    case Republishing =>
      var dest := RetryDestination(AttemptOf(m.attempt));
      Append(w, TopicPartition(dest.TopicName(), input.partition), Republished(m, startedAt, group, w.now))
  }

  function NextJob(ledger: Rows, group: Channel, topic: Topic, m: Message, startedAt: int, stage: Stage,
      input: Input): Job
  {
    var k := Key(m.event, group);
    match stage
    case Claiming =>
      if !input.wanted then Committing
      else if k !in ledger then Busy(m, startedAt, Sending)
      else if IsRetryTopic(topic) then Busy(m, startedAt, Reclaiming)
      else Committing
    case Reclaiming => if HasStatus(ledger, k, Failed) then Busy(m, startedAt, Sending) else Committing
    case Sending => Busy(m, startedAt, Marking(Heard(input.reply)))
    case Marking(answer) => if answer == TransientFailure then Busy(m, startedAt, Republishing) else Committing
    case Republishing => Committing
  }

  function WorkerAct(w: World, a: Actor, input: Input): (World, Actor)
    requires a.Worker?
  {
    match a.job
    case Fetching => (w, a.(job := Fetch(w, a.group, a.at, a.position)))
    case Busy(m, t, stage) =>
      (Handled(w, a.group, m, t, stage, input),
       a.(job := NextJob(w.ledger, a.group, a.at.topic, m, t, stage, input)))
    case Committing =>
      (w.(committed := w.committed[GroupPartition(a.group, a.at) := a.position + 1]),
       a.(position := a.position + 1, job := Fetching))
  }

  /** The sweeper's statements; only the take of a parked row is conditional. */
  function SweeperAct(w: World, a: Actor, input: Input): (World, Actor)
    requires a.Sweeper?
  {
    match a.sweep
    case Picking =>
      if |a.due| == 0 then (w, Gone)
      else
        var d, rest := a.due[0], a.(due := a.due[1..]);
        if d.createdAt < a.startedAt - MAX_AGE_MS then (w.(ledger := Mark(w.ledger, d.key, NothingToDeliverTo)), rest)
        else if d.key.channel != Sms then (w, rest)
        else if !input.found then (w.(ledger := Mark(w.ledger, d.key, NothingToDeliverTo)), rest)
        else if DueAt(w.ledger, d.key, a.startedAt) then
          (w.(ledger := TakeDeferred(w.ledger, d.key, a.startedAt)), rest.(sweep := Redelivering(d.key)))
        else (w, rest)
    case Redelivering(k) => (CallProvider(w, k, input.reply), a.(sweep := Settling(k, Heard(input.reply))))
    case Settling(k, answer) => (w.(ledger := Mark(w.ledger, k, answer)), a.(sweep := Picking))
  }

  function Publish(now: int): OutboxRow -> OutboxRow { (r: OutboxRow) => r.(publishedAt := Some(now)) }

  function CountFailure(): OutboxRow -> OutboxRow { (r: OutboxRow) => r.(attempts := r.attempts + 1) }

  function Delete(): OutboxRow -> OutboxRow { (r: OutboxRow) => r.(deleted := true) }

  /** Publishes the batch one event at a time, then marks it and commits. */
  function RelayAct(w: World, a: Actor): (World, Actor)
    requires a.Relay?
  {
    if a.sent < |a.batch| then
      var e := a.batch[a.sent];
      (if e < |w.outbox|
       then Append(w, MainOf(w.outbox[e].partition), Message(e, Absent, None, w.now, [], true))
       else w,
       a.(sent := a.sent + 1))
    else (w.(outbox := UpdateRows(w.outbox, a.batch, Publish(w.now))), Gone)
  }

  function ActorAct(w: World, a: Actor, input: Input): (World, Actor) {
    match a
    case Worker(_, _, _, _) => WorkerAct(w, a, input)
    case Sweeper(_, _, _) => SweeperAct(w, a, input)
    case Relay(_, _) => RelayAct(w, a)
    case Pruner(doomed) => (w.(outbox := UpdateRows(w.outbox, doomed, Delete())), Gone)
    case Gone => (w, a)
  }

  predicate Unpublished(w: World, e: EventId) {
    e < |w.outbox| && w.outbox[e].publishedAt == None && !w.outbox[e].deleted
  }

  /** FOR UPDATE holds a relay's rows until it commits or dies. */
  predicate Locked(actors: seq<Actor>, e: EventId) {
    exists a <- actors :: a.Relay? && e in a.batch
  }

  /** Every group reads the main topic and every rung. */
  predicate Subscribed(topic: Topic) { topic == MainTopic || IsRetryTopic(topic) }

  /** What each process may start from: the answer of its first query. */
  predicate MayStart(s: State, step: Step) {
    match step
    case StartWorker(_, at) => Subscribed(at.topic)
    case StartSweeper(due) =>
      forall d <- due :: DueAt(s.world.ledger, d.key, s.world.now) && s.world.ledger[d.key].createdAt == d.createdAt
    case StartRelay(batch) =>
      && (forall e <- batch :: Unpublished(s.world, e) && !Locked(s.actors, e))
      && (forall i, j :: 0 <= i < j < |batch| ==> batch[i] != batch[j])
    case StartPruner(doomed, retentionMs) =>
      forall e <- doomed :: e < |s.world.outbox| && s.world.outbox[e].publishedAt.Some?
                            && s.world.outbox[e].publishedAt.value < s.world.now - retentionMs
    case _ => true
  }

  function Started(w: World, step: Step): Actor {
    match step
    case StartWorker(group, at) => Worker(group, at, CommittedAt(w, group, at), Fetching)
    case StartSweeper(due) => Sweeper(w.now, due, Picking)
    case StartRelay(batch) => Relay(batch, 0)
    case StartPruner(doomed, _) => Pruner(doomed)
    case _ => Gone
  }

  predicate Starts(step: Step) {
    step.StartWorker? || step.StartSweeper? || step.StartRelay? || step.StartPruner?
  }

  function Do(s: State, step: Step): State {
    match step
    case Enqueue(p) => s.(world := s.world.(outbox := s.world.outbox + [OutboxRow(p, None, false, 0)]))
    case Garble(at, m) => s.(world := Append(s.world, at, m.(decodes := false)))
    case Act(i, input) =>
      if i < |s.actors| then
        var (w, a) := ActorAct(s.world, s.actors[i], input);
        State(w, s.actors[i := a])
      else s
    case Crash(i) => if i < |s.actors| then s.(actors := s.actors[i := Gone]) else s
    case Tick(ms) => s.(world := s.world.(now := s.world.now + ms))
    case _ => if MayStart(s, step) then s.(actors := s.actors + [Started(s.world, step)]) else s
  }

  function Run(steps: seq<Step>): State {
    if |steps| == 0 then State(EmptyWorld, []) else Do(Run(steps[..|steps| - 1]), steps[|steps| - 1])
  }
}
