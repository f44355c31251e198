/** One relay and one pruning pass as they run (backend/src/lib/relay.ts and
backend/src/lib/outboxRetention.ts). */
module OutboxDesk {
  import opened Tables
  import opened DeliveryLedger
  import opened Pipeline

  const BATCH_SIZE: nat := 100
  const PRUNE_BATCH: nat := 1000

  predicate IsOwed(r: OutboxRow) { r.publishedAt == None && !r.deleted }

  function Owed(): OutboxRow -> bool { (r: OutboxRow) => IsOwed(r) }

  /** Published before the cutoff: the only rows a pruning pass may take. */
  predicate IsDoomed(r: OutboxRow, cutoff: int) {
    r.publishedAt.Some? && r.publishedAt.value < cutoff && !r.deleted
  }

  function Doomed(cutoff: int): OutboxRow -> bool { (r: OutboxRow) => IsDoomed(r, cutoff) }

  class Desk {
    var rows: seq<OutboxRow>
    /** What the transport has been handed, in order. */
    var log: seq<EventId>

    /** One pass. When the broker fails it has taken the first `reached` events of the
        batch; the transaction rolls back, the rows stay owed and the failure is counted
        on them. */
    method RelayOnce(batchSize: nat, brokerUp: bool, reached: nat, now: int) returns (published: nat, failed: nat)
      modifies this
      ensures var batch := FirstOf(RowsWhere(old(rows), Owed()), batchSize);
              if brokerUp || |batch| == 0 then
                && (published, failed) == (|batch|, 0)
                && rows == UpdateRows(old(rows), batch, Publish(now)) && log == old(log) + batch
              else
                && (published, failed) == (0, |batch|)
                && rows == UpdateRows(old(rows), batch, CountFailure()) && log == old(log) + FirstOf(batch, reached)
    {
      var claimed := FirstOf(RowsWhere(rows, Owed()), batchSize);
      if |claimed| == 0 {
        assert UpdateRows(rows, claimed, Publish(now)) == rows;
        return 0, 0;
      }
      if !brokerUp {
        log := log + FirstOf(claimed, reached);
        RecordFailure(claimed);
        return 0, |claimed|;
      }
      log := log + claimed;
      rows := UpdateRows(rows, claimed, Publish(now));
      return |claimed|, 0;
    }

    method RecordFailure(ids: seq<EventId>)
      modifies this`rows
      ensures rows == UpdateRows(old(rows), ids, CountFailure())
    {
      rows := UpdateRows(rows, ids, CountFailure());
    }

    /** `before` has been published up to `done` and the transport holds `sent` and that much. */
    ghost predicate DrainedTo(before: seq<OutboxRow>, sent: seq<EventId>, done: nat, now: int)
      reads this
    {
      var owed := RowsWhere(before, Owed());
      done <= |owed| && rows == UpdateRows(before, owed[..done], Publish(now)) && log == sent + owed[..done]
    }

    /** One pass over a backlog that is partly drained. */
    method DrainPass(ghost before: seq<OutboxRow>, ghost sent: seq<EventId>, ghost done: nat,
                     brokerUp: bool, reached: nat, now: int) returns (published: nat)
      requires DrainedTo(before, sent, done, now)
      modifies this
      ensures brokerUp ==> && published == Min(|RowsWhere(before, Owed())| - done, BATCH_SIZE)
                           && DrainedTo(before, sent, done + published, now)
      ensures !brokerUp ==>
                var batch := FirstOf(RowsWhere(before, Owed())[done..], BATCH_SIZE);
                && published == 0 && rows == UpdateRows(old(rows), batch, CountFailure())
                && log == old(log) + FirstOf(batch, reached)
    {
      OwedNext(before, now, done);
      LogJoins(sent, RowsWhere(before, Owed()), done);
      assert UpdateRows(rows, [], Publish(now)) == UpdateRows(rows, [], CountFailure());
      var marked, _ := RelayOnce(BATCH_SIZE, brokerUp, reached, now);
      return marked;
    }

    /** Drains the backlog until a pass publishes nothing. The first `healthy` passes find
        the broker up, and a failed one may still have taken `reached` events. Oldest
        first, each owed row exactly once, and nothing is marked that was not published;
        the failure is counted on the batch it stopped at. */
    method Drain(healthy: nat, reached: nat, now: int) returns (total: nat)
      modifies this
      ensures total == Min(|RowsWhere(old(rows), Owed())|, 100 * healthy)
      ensures var owed := RowsWhere(old(rows), Owed());
              var left := FirstOf(owed[total..], BATCH_SIZE);
              && rows == UpdateRows(UpdateRows(old(rows), owed[..total], Publish(now)), left, CountFailure())
              && log == old(log) + owed[..total] + FirstOf(left, reached)
    {
      ghost var before, sent := rows, log;
      ghost var backlog := |RowsWhere(before, Owed())|;
      total := 0;
      var pass := 0;
      assert UpdateRows(before, RowsWhere(before, Owed())[..0], Publish(now)) == before;
      while true
        invariant pass <= healthy && total == Min(backlog, 100 * pass)
        invariant DrainedTo(before, sent, total, now)
        decreases healthy - pass, backlog - total
      {
        var published := DrainPass(before, sent, total, pass < healthy, reached, now);
        if published == 0 {
          assert UpdateRows(rows, [], CountFailure()) == rows;
          return;
        }
        total := total + published;
        pass := pass + 1;
      }
    }

    method PruneOutboxOnce(cutoff: int) returns (deleted: nat, oldestKept: Option<int>)
      modifies this`rows
      ensures var batch := FirstOf(RowsWhere(old(rows), Doomed(cutoff)), PRUNE_BATCH);
              && deleted == |batch| && rows == UpdateRows(old(rows), batch, Delete())
      ensures deleted > 0 ==> oldestKept == None
      ensures deleted == 0 ==> IsOldestKept(rows, oldestKept)
    {
      var doomed := FirstOf(RowsWhere(rows, Doomed(cutoff)), PRUNE_BATCH);
      if |doomed| == 0 {
        assert UpdateRows(rows, doomed, Delete()) == rows;
        oldestKept := None;
        for i := 0 to |rows|
          invariant IsOldestKept(rows[..i], oldestKept)
        {
          assert rows[..i + 1] == rows[..i] + [rows[i]];
          if rows[i].publishedAt.Some? && !rows[i].deleted
             && (oldestKept == None || rows[i].publishedAt.value < oldestKept.value) {
            oldestKept := rows[i].publishedAt;
          }
        }
        assert rows[..|rows|] == rows;
        return 0, oldestKept;
      }
      rows := UpdateRows(rows, doomed, Delete());
      return |doomed|, None;
    }

    /** Drains everything past the cutoff and nothing else: work still owed is never touched. */
    method PruneOutbox(cutoff: int) returns (total: nat)
      modifies this`rows
      ensures var doomed := RowsWhere(old(rows), Doomed(cutoff));
              && total == |doomed| && rows == UpdateRows(old(rows), doomed, Delete())
              && RowsWhere(rows, Doomed(cutoff)) == []
              && RowsWhere(rows, Owed()) == RowsWhere(old(rows), Owed())
    {
      ghost var before := rows;
      ghost var doomed := RowsWhere(before, Doomed(cutoff));
      total := 0;
      assert UpdateRows(before, doomed[..0], Delete()) == before;
      while true
        invariant total <= |doomed|
        invariant rows == UpdateRows(before, doomed[..total], Delete())
        decreases |doomed| - total
      {
        NextBatch(before, Doomed(cutoff), Delete(), total, PRUNE_BATCH);
        var deleted, _ := PruneOutboxOnce(cutoff);
        if deleted == 0 {
          PruneEnds(before, cutoff);
          assert doomed[..total] == doomed;
          return;
        }
        total := total + deleted;
      }
    }
  }

  ghost predicate IsOldestKept(rows: seq<OutboxRow>, oldest: Option<int>) {
    && (oldest == None ==> forall r <- rows :: r.publishedAt == None || r.deleted)
    && (oldest.Some? ==>
          && (exists r <- rows :: r.publishedAt == oldest && !r.deleted)
          && forall r <- rows :: r.publishedAt.Some? && !r.deleted ==> oldest.value <= r.publishedAt.value)
  }

  /** What a relay claims: rows nobody has published or deleted, the oldest of them, in order. */
  lemma RelayClaimsOldestOwed(rows: seq<OutboxRow>, batchSize: nat)
    ensures var batch := FirstOf(RowsWhere(rows, Owed()), batchSize);
            && |batch| <= batchSize
            && (forall j, k :: 0 <= j < k < |batch| ==> batch[j] < batch[k])
            && (forall i :: i in batch ==> i < |rows| && rows[i].publishedAt == None && !rows[i].deleted)
            && forall i: nat :: i < |rows| && rows[i].publishedAt == None && !rows[i].deleted && i !in batch ==>
                 |batch| == batchSize && forall k :: 0 <= k < |batch| ==> batch[k] < i
  {
    BatchIsFirst(rows, Owed(), batchSize);
    assert forall i: nat :: i < |rows| && rows[i].publishedAt == None && !rows[i].deleted ==> Owed()(rows[i]);
  }

  /** What a pruning pass takes: published rows from before the cutoff, the oldest in order. */
  lemma PrunerTakesOldestDoomed(rows: seq<OutboxRow>, cutoff: int, batchSize: nat)
    ensures var batch := FirstOf(RowsWhere(rows, Doomed(cutoff)), batchSize);
            && |batch| <= batchSize
            && (forall j, k :: 0 <= j < k < |batch| ==> batch[j] < batch[k])
            && (forall i :: i in batch ==> && i < |rows| && !rows[i].deleted
                                           && rows[i].publishedAt.Some? && rows[i].publishedAt.value < cutoff)
            && forall i: nat :: i < |rows| && !rows[i].deleted && i !in batch
                                && rows[i].publishedAt.Some? && rows[i].publishedAt.value < cutoff ==>
                 |batch| == batchSize && forall k :: 0 <= k < |batch| ==> batch[k] < i
  {
    BatchIsFirst(rows, Doomed(cutoff), batchSize);
    assert forall r <- rows ::
      (Doomed(cutoff)(r) <==> !r.deleted && r.publishedAt.Some? && r.publishedAt.value < cutoff);
  }

  /** The batch a pass claims is one the machine lets a relay start from, unless another relay
      holds some of it. */
  lemma RelayMayStart(s: State, batchSize: nat)
    ensures var batch := FirstOf(RowsWhere(s.world.outbox, Owed()), batchSize);
            (forall e <- batch, a <- s.actors :: a.Relay? ==> e !in a.batch) ==>
              Do(s, StartRelay(batch)) == s.(actors := s.actors + [Relay(batch, 0)])
  {
    RelayClaimsOldestOwed(s.world.outbox, batchSize);
  }

  /** The rows a pruning pass takes are ones a pruner may start from; then they are deleted. */
  lemma PrunerMayStart(s: State, batchSize: nat, retentionMs: nat, input: Input)
    ensures var doomed := FirstOf(RowsWhere(s.world.outbox, Doomed(s.world.now - retentionMs)), batchSize);
            var started := Do(s, StartPruner(doomed, retentionMs));
            && started == s.(actors := s.actors + [Pruner(doomed)])
            && Do(started, Act(|s.actors|, input))
               == State(s.world.(outbox := UpdateRows(s.world.outbox, doomed, Delete())), s.actors + [Gone])
  {
    PrunerTakesOldestDoomed(s.world.outbox, s.world.now - retentionMs, batchSize);
    assert forall a: Actor, b: Actor :: (s.actors + [a])[|s.actors| := b] == s.actors + [b];
  }

  /** Relays that run side by side never hold the same event. */
  lemma {:induction false} RelaysShareNothing(steps: seq<Step>, i: nat, j: nat)
    requires i < j < |Run(steps).actors|
    requires Run(steps).actors[i].Relay? && Run(steps).actors[j].Relay?
    ensures forall e <- Run(steps).actors[i].batch :: e !in Run(steps).actors[j].batch
  {
    if |steps| > 0 {
      var before, last := steps[..|steps| - 1], steps[|steps| - 1];
      var s, s' := Run(before), Run(steps);
      assert s' == Do(s, last);
      if j < |s.actors| {
        assert s.actors[i].Relay? && s.actors[i].batch == s'.actors[i].batch;
        assert s.actors[j].Relay? && s.actors[j].batch == s'.actors[j].batch;
        RelaysShareNothing(before, i, j);
      } else {
        assert s'.actors[i] == s.actors[i] && last.StartRelay? && MayStart(s, last);
        assert s.actors[i] in s.actors;
      }
    }
  }

  /** What the three updates do to a row of theirs; no other row moves. */
  lemma UpdatesMean(rows: seq<OutboxRow>, ids: seq<EventId>, now: int, i: EventId)
    requires i < |rows|
    ensures var row := rows[i];
            && UpdateRows(rows, ids, Publish(now))[i]
               == (if i in ids then OutboxRow(row.partition, Some(now), row.deleted, row.attempts) else row)
            && UpdateRows(rows, ids, CountFailure())[i]
               == (if i in ids then OutboxRow(row.partition, row.publishedAt, row.deleted, row.attempts + 1) else row)
            && UpdateRows(rows, ids, Delete())[i]
               == (if i in ids then OutboxRow(row.partition, row.publishedAt, true, row.attempts) else row)
  {
  }

  /** The backlog after some of it was published, and its next batch. */
  lemma OwedNext(rows: seq<OutboxRow>, now: int, done: nat)
    requires done <= |RowsWhere(rows, Owed())|
    ensures var owed := RowsWhere(rows, Owed());
            var sofar := UpdateRows(rows, owed[..done], Publish(now));
            var batch := FirstOf(RowsWhere(sofar, Owed()), BATCH_SIZE);
            && batch == FirstOf(owed[done..], BATCH_SIZE)
            && |batch| == Min(|owed| - done, BATCH_SIZE)
            && UpdateRows(sofar, batch, Publish(now)) == UpdateRows(rows, owed[..done + |batch|], Publish(now))
  {
    PublishedIsNotOwed(now);
    NextBatch(rows, Owed(), Publish(now), done, BATCH_SIZE);
  }

  lemma PublishedIsNotOwed(now: int)
    ensures forall r :: Owed()(r) ==> !Owed()(Publish(now)(r))
  {
  }

  lemma LogJoins(sent: seq<EventId>, ids: seq<EventId>, done: nat)
    requires done <= |ids|
    ensures var batch := FirstOf(ids[done..], BATCH_SIZE);
            (sent + ids[..done]) + batch == sent + ids[..done + |batch|]
  {
    var batch := FirstOf(ids[done..], BATCH_SIZE);
    assert ids[..done] + batch == ids[..done + |batch|];
  }

  lemma PruneEnds(rows: seq<OutboxRow>, cutoff: int)
    ensures var doomed := RowsWhere(rows, Doomed(cutoff));
            var after := UpdateRows(rows, doomed, Delete());
            RowsWhere(after, Doomed(cutoff)) == [] && RowsWhere(after, Owed()) == RowsWhere(rows, Owed())
  {
    var doomed := RowsWhere(rows, Doomed(cutoff));
    BatchTaken(rows, Doomed(cutoff), Delete(), |doomed|);
    assert doomed[..|doomed|] == doomed;
    OwedStays(rows, doomed, cutoff);
  }

  lemma OwedStays(rows: seq<OutboxRow>, doomed: seq<nat>, cutoff: int)
    requires doomed == RowsWhere(rows, Doomed(cutoff))
    ensures RowsWhere(UpdateRows(rows, doomed, Delete()), Owed()) == RowsWhere(rows, Owed())
  {
    var after := UpdateRows(rows, doomed, Delete());
    var a, b := RowsWhere(after, Owed()), RowsWhere(rows, Owed());
    Selects(rows, Owed());
    Selects(after, Owed());
    Selects(rows, Doomed(cutoff));
    assert forall i: nat :: i in a <==> i in b;
    SameRowsSameOrder(a, b);
  }
}
