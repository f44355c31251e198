/** What a deferred sweeper with a stale list does to the ledger
(backend/src/lib/deferredDeliveries.ts, backend/src/lib/deliveryLedger.ts).

Every other writer of the ledger claims a row before it settles it. The sweeper
suppresses rows by id, without the guard `redeliverDeferred` has, so the rule "a row is
settled only by whoever claimed it" fails for it, exactly when that guard would.
*/
module StaleSweeps {
  import opened Tables
  import opened Retry
  import opened DeliveryLedger
  import opened Pipeline
  import opened AtMostOnce

  /** The next row of the list is too old, or its notification is gone. */
  predicate Expiring(a: Actor, input: Input) {
    && a.Sweeper? && a.sweep == Picking && |a.due| > 0
    && (a.due[0].createdAt < a.startedAt - MAX_AGE_MS || (a.due[0].key.channel == Sms && !input.found))
  }

  /** A row this process may write: one it owns, or one its statement could claim. */
  predicate MayWrite(rows: Rows, a: Actor, k: Key) {
    || Owned(a) == Some(k)
    || (a.Worker? && HasStatus(rows, k, Failed))
    || (a.Sweeper? && DueAt(rows, k, a.startedAt))
  }

  /** The statement changed no row but one it owns or could claim. */
  ghost predicate OnlyByClaim(w: World, a: Actor, w': World) {
    forall k <- w.ledger :: MayWrite(w.ledger, a, k) || (k in w'.ledger && w'.ledger[k] == w.ledger[k])
  }

  /** The guard: the row is still parked and due, or there is nothing to overwrite. */
  predicate Guarded(rows: Rows, a: Actor) {
    a.Sweeper? && |a.due| > 0 ==>
      var k := a.due[0].key;
      DueAt(rows, k, a.startedAt) || k !in rows || (rows[k].status == Suppressed && rows[k].notBefore == None)
  }

  lemma OtherStatementsClaim(w: World, a: Actor, input: Input)
    requires !Expiring(a, input)
    ensures OnlyByClaim(w, a, ActorAct(w, a, input).0)
  {
    if a.Worker? && a.job.Busy? {
      HandledRows(w, a.group, a.job.message, a.job.startedAt, a.job.stage, input);
    }
  }

  /** A statement of any process writes only rows it owns or could claim, if and only if
      it is not a sweeper expiring a row that is no longer parked and due. */
  lemma OnlyByClaimIffGuarded(w: World, a: Actor, input: Input)
    ensures OnlyByClaim(w, a, ActorAct(w, a, input).0) <==> (Expiring(a, input) ==> Guarded(w.ledger, a))
  {
    if Expiring(a, input) {
      var k := a.due[0].key;
      assert ActorAct(w, a, input).0 == w.(ledger := Mark(w.ledger, k, NothingToDeliverTo));
      if k in w.ledger {
        assert Marked(w.ledger[k], NothingToDeliverTo) == w.ledger[k]
          <==> w.ledger[k].status == Suppressed && w.ledger[k].notBefore == None;
      }
    } else {
      OtherStatementsClaim(w, a, input);
    }
  }

  predicate Expires(s: State, step: Step, k: Key) {
    && step.Act? && step.actor < |s.actors| && Expiring(s.actors[step.actor], step.input)
    && s.actors[step.actor].due[0].key == k
  }

  /* ------------------------------------------------------------------ *
   * Over whole runs
   * ------------------------------------------------------------------ */

  /** Every statement of the run wrote only rows its process owned or could claim. */
  ghost predicate WritesByClaim(steps: seq<Step>) {
    |steps| > 0 ==>
      var before, last := steps[..|steps| - 1], steps[|steps| - 1];
      var s := Run(before);
      && WritesByClaim(before)
      && (last.Act? && last.actor < |s.actors| ==> OnlyByClaim(s.world, s.actors[last.actor], Do(s, last).world))
  }

  /** No sweeper of the run expired a row that was no longer parked and due. */
  ghost predicate SweepsGuarded(steps: seq<Step>) {
    |steps| > 0 ==>
      var before, last := steps[..|steps| - 1], steps[|steps| - 1];
      var s := Run(before);
      && SweepsGuarded(before)
      && (last.Act? && last.actor < |s.actors| && Expiring(s.actors[last.actor], last.input) ==>
            Guarded(s.world.ledger, s.actors[last.actor]))
  }

  /** A row is settled only by whoever claimed it, over a whole run, if and only if no
      sweeper of the run expires a row that is no longer parked and due. */
  lemma {:induction false} SettledByClaimantsIffGuarded(steps: seq<Step>)
    ensures WritesByClaim(steps) <==> SweepsGuarded(steps)
  {
    if |steps| > 0 {
      var before, last := steps[..|steps| - 1], steps[|steps| - 1];
      SettledByClaimantsIffGuarded(before);
      var s := Run(before);
      if last.Act? && last.actor < |s.actors| {
        OnlyByClaimIffGuarded(s.world, s.actors[last.actor], last.input);
      }
    }
  }

  /** While no sweep is unguarded, the row an owner works on is PENDING and its own. */
  lemma {:induction false} OwnersRowsStayPending(steps: seq<Step>, i: nat)
    requires SweepsGuarded(steps) && i < |Run(steps).actors| && Owned(Run(steps).actors[i]).Some?
    ensures StatusAt(Run(steps).world, Owned(Run(steps).actors[i]).value) == Some(Pending)
  {
    var before, last := steps[..|steps| - 1], steps[|steps| - 1];
    var s := Run(before);
    RunIsSafe(before);
    if i < |s.actors| && Owned(s.actors[i]).Some? {
      OwnersRowsStayPending(before, i);
    }
    StepKeepsOwnersPending(s, last, i);
  }

  lemma StepKeepsOwnersPending(s: State, step: Step, i: nat)
    requires Inv(s) && i < |Do(s, step).actors| && Owned(Do(s, step).actors[i]).Some?
    requires i < |s.actors| && Owned(s.actors[i]).Some? ==>
               StatusAt(s.world, Owned(s.actors[i]).value) == Some(Pending)
    requires step.Act? && step.actor < |s.actors| && Expiring(s.actors[step.actor], step.input) ==>
               Guarded(s.world.ledger, s.actors[step.actor])
    ensures StatusAt(Do(s, step).world, Owned(Do(s, step).actors[i]).value) == Some(Pending)
  {
    if step.Act? && step.actor < |s.actors| {
      var a := s.actors[step.actor];
      ActMoves(s.world, a, step.input);
      OnlyByClaimIffGuarded(s.world, a, step.input);
      if i != step.actor {
        assert Apart(a, s.actors[i]) by {
          assert i < step.actor ==> Apart(s.actors[i], s.actors[step.actor]);
        }
        assert !MayWrite(s.world.ledger, a, Owned(s.actors[i]).value);
      }
    }
  }

  /** A step keeps a SENT row if and only if it is not a sweeper expiring it. */
  lemma SentKeptIff(s: State, step: Step, k: Key)
    requires Inv(s) && StatusAt(s.world, k) == Some(Sent)
    ensures StatusAt(Do(s, step).world, k) == Some(Sent) <==> !Expires(s, step, k)
  {
    if step.Act? && step.actor < |s.actors| {
      var a := s.actors[step.actor];
      assert OwnerSafe(s.world, a);
      if Expiring(a, step.input) {
        assert ActorAct(s.world, a, step.input).0
            == s.world.(ledger := Mark(s.world.ledger, a.due[0].key, NothingToDeliverTo));
      } else {
        OtherStatementsClaim(s.world, a, step.input);
        assert !MayWrite(s.world.ledger, a, k);
      }
    }
  }

  /** SENT at the end of `steps` and at every moment of `more`. */
  ghost predicate StaysSent(steps: seq<Step>, more: seq<Step>, k: Key) {
    && StatusAt(Run(steps + more).world, k) == Some(Sent)
    && (|more| > 0 ==> StaysSent(steps, more[..|more| - 1], k))
  }

  /** No sweeper expires this row during `more`. */
  ghost predicate NeverExpired(steps: seq<Step>, more: seq<Step>, k: Key) {
    |more| > 0 ==>
      var init, last := more[..|more| - 1], more[|more| - 1];
      NeverExpired(steps, init, k) && !Expires(Run(steps + init), last, k)
  }

  /** A message recorded as SENT stays recorded as SENT for good if and only if no sweeper
      takes the expiring branch on it later, as one with a list from before the send may. */
  lemma {:induction false} SentStaysSentIff(steps: seq<Step>, more: seq<Step>, k: Key)
    requires StatusAt(Run(steps).world, k) == Some(Sent)
    ensures StaysSent(steps, more, k) <==> NeverExpired(steps, more, k)
  {
    if |more| == 0 {
      assert steps + more == steps;
    } else {
      var init, last := more[..|more| - 1], more[|more| - 1];
      SentStaysSentIff(steps, init, k);
      LastStep(steps, more);
      RunOneMore(steps + init, last);
      RunIsSafe(steps + init);
      if StaysSent(steps, init, k) {
        assert StatusAt(Run(steps + init).world, k) == Some(Sent);
        SentKeptIff(Run(steps + init), last, k);
      }
    }
  }

  lemma RunOneMore(steps: seq<Step>, step: Step)
    ensures Run(steps + [step]) == Do(Run(steps), step)
  {
    assert (steps + [step])[..|steps|] == steps;
  }

  /* ------------------------------------------------------------------ *
   * It does happen
   * ------------------------------------------------------------------ */

  const Telling := Input(true, Told(Accepted), true, 0)
  const Parking := Input(true, Told(DeferDelivery(0)), true, 0)

  const Parked := Delivery(Deferred, Some(0), 0, 1)
  const Text := Key(0, Sms)

  /** The pipeline after one text was published, read and parked, and the worker is about to commit. */
  function ParkedWorld(now: int): World {
    World([OutboxRow(0, None, false, 0)], map[MainOf(0) := [Message(0, Absent, None, 0, [], true)]], map[],
          map[Text := Parked], map[], map[], now)
  }

  const Telegram := Message(0, Absent, None, 0, [], true)

  /** The world with the text owed, then on the log; the row is absent so far. */
  const Owed := EmptyWorld.(outbox := [OutboxRow(0, None, false, 0)])
  const Logged := Owed.(logs := map[MainOf(0) := [Telegram]])

  function Reading(job: Job): seq<Actor> { [Relay([0], 1), Worker(Sms, MainOf(0), 0, job)] }

  lemma RelayPublishes()
    ensures RelayAct(Owed, Relay([0], 0)) == (Logged, Relay([0], 1))
  {
    var logs: map<TopicPartition, seq<Message>> := map[];
    assert LogAt(logs, MainOf(0)) + [Telegram] == [Telegram];
    assert logs[MainOf(0) := [Telegram]] == map[MainOf(0) := [Telegram]];
  }

  lemma TextIsPublished() returns (steps: seq<Step>)
    ensures Run(steps) == State(Logged, [Relay([0], 1)])
  {
    steps := [Enqueue(0)];
    assert steps[..0] == [];
    RunOneMore(steps, StartRelay([0]));
    steps := steps + [StartRelay([0])];
    assert Run(steps) == State(Owed, [Relay([0], 0)]);
    RunOneMore(steps, Act(0, Telling));
    steps := steps + [Act(0, Telling)];
    RelayPublishes();
  }

  /** The worker reads the text and claims its row. */
  lemma TextIsClaimed() returns (steps: seq<Step>)
    ensures Run(steps) == State(Logged.(ledger := map[Text := Delivery(Pending, None, 0, 1)]),
                                Reading(Busy(Telegram, 0, Sending)))
  {
    steps := TextIsPublished();
    RunOneMore(steps, StartWorker(Sms, MainOf(0)));
    steps := steps + [StartWorker(Sms, MainOf(0))];
    assert Run(steps) == State(Logged, Reading(Fetching));
    RunOneMore(steps, Act(1, Parking));
    steps := steps + [Act(1, Parking)];
    assert Run(steps) == State(Logged, Reading(Busy(Telegram, 0, Claiming)));
    RunOneMore(steps, Act(1, Parking));
    steps := steps + [Act(1, Parking)];
  }

  /** The provider asks for it to be sent later. */
  lemma TextIsParked() returns (steps: seq<Step>)
    ensures Run(steps) == State(ParkedWorld(0), Reading(Committing))
  {
    steps := TextIsClaimed();
    RunOneMore(steps, Act(1, Parking));
    steps := steps + [Act(1, Parking)];
    RunOneMore(steps, Act(1, Parking));
    steps := steps + [Act(1, Parking)];
  }

  function Listed(first: int): Actor { Sweeper(first, [Due(Text, 0)], Picking) }

  lemma MayList(s: State, due: seq<Due>)
    requires s.world.ledger == map[Text := Parked] && due == [Due(Text, 0)] && 0 <= s.world.now
    ensures MayStart(s, StartSweeper(due))
  {
  }

  lemma SweeperListsText(steps: seq<Step>, ms: nat, now: int, actors: seq<Actor>)
    requires Run(steps) == State(ParkedWorld(now), actors) && 0 <= now
    ensures Run(steps + [Tick(ms)] + [StartSweeper([Due(Text, 0)])])
            == State(ParkedWorld(now + ms), actors + [Listed(now + ms)])
  {
    RunOneMore(steps, Tick(ms));
    var s := State(ParkedWorld(now + ms), actors);
    assert Run(steps + [Tick(ms)]) == s;
    MayList(s, [Due(Text, 0)]);
    RunOneMore(steps + [Tick(ms)], StartSweeper([Due(Text, 0)]));
  }

  /** A sweeper that listed the text while it was young enough takes its row. */
  lemma TextIsRetaken()
    ensures ActorAct(ParkedWorld(MAX_AGE_MS + 1), Listed(MAX_AGE_MS), Telling)
            == (ParkedWorld(MAX_AGE_MS + 1).(ledger := map[Text := Delivery(Pending, Some(0), 0, 2)]),
                Sweeper(MAX_AGE_MS, [], Redelivering(Text)))
  {
    var rows := map[Text := Parked];
    assert DueAt(rows, Text, MAX_AGE_MS);
    assert TakeDeferred(rows, Text, MAX_AGE_MS) == map[Text := Delivery(Pending, Some(0), 0, 2)];
    assert [Due(Text, 0)][1..] == [];
  }

  /** Two sweepers list the same parked text, the second a millisecond after it has become
      too old for it. */
  lemma TwoSweepersListIt() returns (steps: seq<Step>)
    ensures Run(steps) == State(ParkedWorld(MAX_AGE_MS + 1),
                                Reading(Committing) + [Listed(MAX_AGE_MS)] + [Listed(MAX_AGE_MS + 1)])
  {
    steps := TextIsParked();
    SweeperListsText(steps, MAX_AGE_MS, 0, Reading(Committing));
    steps := steps + [Tick(MAX_AGE_MS)] + [StartSweeper([Due(Text, 0)])];
    SweeperListsText(steps, 1, MAX_AGE_MS, Reading(Committing) + [Listed(MAX_AGE_MS)]);
    steps := steps + [Tick(1)] + [StartSweeper([Due(Text, 0)])];
  }

  /** The first takes the row. */
  lemma FirstTakesIt() returns (steps: seq<Step>)
    ensures Run(steps) == State(
              ParkedWorld(MAX_AGE_MS + 1).(ledger := map[Text := Delivery(Pending, Some(0), 0, 2)]),
              Reading(Committing) + [Sweeper(MAX_AGE_MS, [], Redelivering(Text))] + [Listed(MAX_AGE_MS + 1)])
  {
    steps := TwoSweepersListIt();
    TextIsRetaken();
    RunOneMore(steps, Act(2, Telling));
    steps := steps + [Act(2, Telling)];
  }

  /** The second sweeper then suppresses the row under the first, which still owns it. */
  lemma OwnedRowIsSuppressed() returns (steps: seq<Step>)
    ensures |Run(steps).actors| > 2 && Owned(Run(steps).actors[2]) == Some(Text)
    ensures StatusAt(Run(steps).world, Text) == Some(Suppressed)
  {
    steps := FirstTakesIt();
    RunOneMore(steps, Act(3, Telling));
    steps := steps + [Act(3, Telling)];
  }

  /** Or it suppresses the row after the first has sent the text: the ledger then reports
      as suppressed a message the provider accepted. */
  lemma SentRowIsOverwritten() returns (steps: seq<Step>, last: Step)
    ensures StatusAt(Run(steps).world, Text) == Some(Sent) && Expires(Run(steps), last, Text)
    ensures StatusAt(Run(steps + [last]).world, Text) == Some(Suppressed)
    ensures Count(Run(steps + [last]).world.accepted, Text) == 1
  {
    steps := FirstTakesIt();
    RunOneMore(steps, Act(2, Telling));
    steps := steps + [Act(2, Telling)];
    assert Run(steps).actors[2] == Sweeper(MAX_AGE_MS, [], Settling(Text, Accepted));
    RunOneMore(steps, Act(2, Telling));
    steps := steps + [Act(2, Telling)];
    assert Run(steps).actors[3] == Listed(MAX_AGE_MS + 1);
    last := Act(3, Telling);
    RunOneMore(steps, last);
  }
}
