/** The retry ladder (backend/src/lib/retry.ts and the topics of backend/src/lib/kafka.ts). */
module Retry {
  import opened Tables

  datatype Topic = MainTopic | Retry5s | Retry1m | Retry15m | DeadLetters | OtherTopic(name: string)

  datatype Rung = Rung(topic: Topic, delayMs: nat)

  const RETRY_LADDER: seq<Rung> := [Rung(Retry5s, 5_000), Rung(Retry1m, 60_000), Rung(Retry15m, 900_000)]

  /** The retry-attempt header as `Number` reads it; a repeated key is read by its first value. */
  datatype AttemptHeader = Absent | NotAnInteger | Integer(n: int)

  /** Rungs already used: anything that is not a positive whole number reads as none. */
  function AttemptOf(h: AttemptHeader): (attempt: nat)
    ensures attempt > 0 ==> h == Integer(attempt)
    ensures attempt == 0 <==> !(h.Integer? && h.n > 0)
  {
    if h.Integer? && h.n > 0 then h.n else 0
  }

  predicate IsRetryTopic(topic: Topic) {
    exists rung <- RETRY_LADDER :: rung.topic == topic
  }

  function FindRung(ladder: seq<Rung>, topic: Topic): Option<Rung> {
    if |ladder| == 0 then None
    else if ladder[0].topic == topic then Some(ladder[0])
    else FindRung(ladder[1..], topic)
  }

  function DelayFor(topic: Topic): nat {
    match FindRung(RETRY_LADDER, topic)
    case Some(rung) => rung.delayMs
    case None => 0
  }

  datatype Destination =
    | ToRung(topic: Topic, delayMs: nat, attempt: nat)
    | ToDeadLetters(attempt: nat)
  {
    function TopicName(): Topic { if ToRung? then topic else DeadLetters }
  }

  /** Falling off the end of the ladder is the dead-letter queue, not a drop. */
  function RetryDestination(attempt: nat): Destination {
    if attempt >= |RETRY_LADDER| then ToDeadLetters(attempt)
    else ToRung(RETRY_LADDER[attempt].topic, RETRY_LADDER[attempt].delayMs, attempt + 1)
  }

  /** The attempts a topic's messages carry: 0 on the main topic, k on rung k, 3 in the queue. */
  function HeightOf(topic: Topic): Option<nat> {
    match topic
    case MainTopic => Some(0)
    case Retry5s => Some(1)
    case Retry1m => Some(2)
    case Retry15m => Some(3)
    case _ => None
  }

  /** One rung at a time: a failure on height k goes to height k + 1, with that rung's
      delay, and from the top rung to the dead letters. */
  lemma LadderClimbs(from: Topic)
    requires HeightOf(from).Some?
    ensures var k, dest := HeightOf(from).value, RetryDestination(HeightOf(from).value);
            && (k == 3 <==> dest == ToDeadLetters(3))
            && (k < 3 ==> && dest.ToRung? && HeightOf(dest.topic) == Some(k + 1) && dest.attempt == k + 1
                          && IsRetryTopic(dest.topic) && DelayFor(dest.topic) == dest.delayMs)
    ensures IsRetryTopic(from) <==> HeightOf(from).value > 0
  {
    Delays();
    assert RETRY_LADDER[0] in RETRY_LADDER && RETRY_LADDER[1] in RETRY_LADDER && RETRY_LADDER[2] in RETRY_LADDER;
  }

  lemma Delays()
    ensures DelayFor(Retry5s) == 5_000 && DelayFor(Retry1m) == 60_000 && DelayFor(Retry15m) == 900_000
    ensures DelayFor(MainTopic) == 0 && DelayFor(DeadLetters) == 0
  {
    var ladder := RETRY_LADDER;
    assert ladder[1..] == [Rung(Retry1m, 60_000), Rung(Retry15m, 900_000)];
    assert ladder[1..][1..] == [Rung(Retry15m, 900_000)];
    forall topic ensures FindRung(ladder, topic) ==
        (if topic == Retry5s then Some(ladder[0]) else if topic == Retry1m then Some(ladder[1])
         else if topic == Retry15m then Some(ladder[2]) else None)
    {
      assert FindRung(ladder[1..][1..][1..], topic) == None;
      assert FindRung(ladder[1..][1..], topic) == if topic == Retry15m then Some(ladder[2]) else None;
      assert FindRung(ladder[1..], topic) ==
        if topic == Retry1m then Some(ladder[1]) else FindRung(ladder[1..][1..], topic);
    }
  }
}
