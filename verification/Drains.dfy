/** Fair, bounded draining for the agent's own steps: drains that other tasks interrupt at
    every item, as the agent's tunnel runs them. */
module Drains {
  import opened AgentData
  import opened OfflineQueue
  import T = Tunnel

  /** The step ends a drain: it settles the last item, or finds the queue empty. */
  predicate Finishes(s: T.State, step: T.Step) {
    || (step.DrainItem? && |s.draining| == 1)
    || (step.DrainStart? && s.draining == [] && s.queue.rows == [])
  }

  /** The number of drains a run completes. */
  function Finished(s: T.State, steps: seq<T.Step>): nat
    decreases |steps|
  {
    if steps == [] then 0 else (if Finishes(s, steps[0]) then 1 else 0) + Finished(T.Next(s, steps[0]), steps[1..])
  }

  /** Every row below `hi` has failed `k` times, and once more if a drain is past it. */
  ghost predicate Stage(s: T.State, hi: nat, k: nat) {
    forall r :: r in s.queue.rows && r.id < hi
        ==> k + (if s.draining == [] || r in s.draining then 0 else 1) <= r.attempts
  }

  // ---------------------------------------------------------------------------
  // One step
  // ---------------------------------------------------------------------------

  /** What a step does to the queue, if anything: it appends a row, or settles one. */
  lemma QueueMoves(s: T.State, step: T.Step)
    ensures var t := T.Next(s, step);
            || (t.queue == s.queue && (t.draining == s.draining || step.DrainStart?))
            || (t.draining == s.draining && exists item :: t.queue == Inserted(s.queue, [item]))
            || (step.DrainItem? && s.draining != [] && t.draining == s.draining[1..]
                && t.queue == Settled(s.queue, s.draining[0], step.reply))
  {}

  lemma InsertedRow(t: Table<Payload>, item: Item<Payload>)
    ensures Inserted(t, [item]) == Table(t.rows + [Row(t.nextId, item, 0)], t.nextId + 1)
  {
    assert Fresh([item], t.nextId) == [Row(t.nextId, item, 0)];
  }

  /** No step puts a row in front of an existing one. */
  lemma StepKeepsOrder(s: T.State, step: T.Step, lo: nat, hi: nat)
    requires T.QueueInv(s) && hi <= s.queue.nextId
    ensures var t := T.Next(s, step);
            s.queue.nextId <= t.queue.nextId && CountIn(t.queue.rows, lo, hi) <= CountIn(s.queue.rows, lo, hi)
  {
    QueueMoves(s, step);
    var t := T.Next(s, step);
    if item :| t.queue == Inserted(s.queue, [item]) {
      InsertedRow(s.queue, item);
      CountSplit(s.queue.rows, [Row(s.queue.nextId, item, 0)], lo, hi);
      CountNone([Row(s.queue.nextId, item, 0)], lo, hi);
    } else if step.DrainItem? && s.draining != [] {
      SettleKeepsCount(s.queue, s.draining[0], step.reply, lo, hi);
    }
  }

  lemma SettleKeepsCount(t: Table<Payload>, row: Row<Payload>, reply: Reply, lo: nat, hi: nat)
    requires Valid(t) && row in t.rows
    ensures CountIn(Settled(t, row, reply).rows, lo, hi) <= CountIn(t.rows, lo, hi)
  {
    var a, b := SettleInPlace(t, row, reply);
    var left := Left(row, reply);
    CountSplit(a + [row], b, lo, hi);
    CountSplit(a, [row], lo, hi);
    CountSplit(a + left, b, lo, hi);
    CountSplit(a, left, lo, hi);
  }

  /** A drain in progress takes its rows one stage further, a finished one all of them. */
  lemma StepPresses(s: T.State, step: T.Step, hi: nat, k: nat)
    requires T.QueueInv(s) && hi <= s.queue.nextId && CountIn(s.queue.rows, 0, hi) <= DRAIN_BATCH && Stage(s, hi, k)
    ensures Stage(T.Next(s, step), hi, k + if Finishes(s, step) then 1 else 0)
  {
    QueueMoves(s, step);
    var t := T.Next(s, step);
    if step.DrainStart? {
      StartPresses(s, hi, k);
    } else if item :| t.queue == Inserted(s.queue, [item]) && t.draining == s.draining {
      InsertedRow(s.queue, item);
    } else if step.DrainItem? && s.draining != [] {
      ItemPresses(s, step.reply, hi, k);
    }
  }

  lemma StartPresses(s: T.State, hi: nat, k: nat)
    requires T.QueueInv(s) && hi <= s.queue.nextId && CountIn(s.queue.rows, 0, hi) <= DRAIN_BATCH && Stage(s, hi, k)
    ensures Stage(T.Next(s, T.DrainStart), hi, k + if Finishes(s, T.DrainStart) then 1 else 0)
  {
    if s.draining == [] {
      var q := s.queue;
      assert q.rows + Fresh([], q.nextId) == q.rows;
      assert Started(q, Refusing()) == q;
      BatchCovers(q, Refusing(), hi);
      assert q.rows == q.rows[..Batch(q)] + q.rows[Batch(q)..];
    }
  }

  lemma ItemPresses(s: T.State, reply: Reply, hi: nat, k: nat)
    requires T.QueueInv(s) && s.draining != [] && Stage(s, hi, k)
    ensures Stage(T.Next(s, T.DrainItem(reply)), hi, k + if |s.draining| == 1 then 1 else 0)
  {
    var t, row := T.Next(s, T.DrainItem(reply)), s.draining[0];
    assert row in s.queue.rows;
    var a, b := SettleInPlace(s.queue, row, reply);
    forall r | r in t.queue.rows && r.id < hi
      ensures k + (if |s.draining| == 1 then 1 else 0)
          + (if t.draining == [] || r in t.draining then 0 else 1) <= r.attempts
    {
      if r in a || r in b {
        StillToDo(s.draining, r);
      } else {
        assert r in Left(row, reply);
      }
    }
  }

  lemma StillToDo(draining: seq<Row<Payload>>, r: Row<Payload>)
    requires draining != [] && r != draining[0]
    ensures r in draining <==> r in draining[1..]
  {
    assert draining == [draining[0]] + draining[1..];
  }

  // ---------------------------------------------------------------------------
  // Runs
  // ---------------------------------------------------------------------------

  lemma {:induction false} StepsPress(s: T.State, steps: seq<T.Step>, lo: nat, hi: nat, k: nat)
    requires T.QueueInv(s) && hi <= s.queue.nextId
    ensures var t := T.Run(s, steps);
            && T.QueueInv(t) && s.queue.nextId <= t.queue.nextId
            && CountIn(t.queue.rows, lo, hi) <= CountIn(s.queue.rows, lo, hi)
            && (CountIn(s.queue.rows, 0, hi) <= DRAIN_BATCH && Stage(s, hi, k) ==> Stage(t, hi, k + Finished(s, steps)))
    decreases |steps|
  {
    if steps != [] {
      T.NextKeepsQueue(s, steps[0]);
      StepKeepsOrder(s, steps[0], lo, hi);
      StepKeepsOrder(s, steps[0], 0, hi);
      var more := if Finishes(s, steps[0]) then 1 else 0;
      if CountIn(s.queue.rows, 0, hi) <= DRAIN_BATCH && Stage(s, hi, k) {
        StepPresses(s, steps[0], hi, k);
      }
      StepsPress(T.Next(s, steps[0]), steps[1..], lo, hi, k + more);
    }
  }

  /** Ten drains empty the part of the queue that one batch can hold. */
  lemma TenDrainsClear(s: T.State, steps: seq<T.Step>, hi: nat)
    requires T.QueueInv(s) && s.draining == [] && hi <= s.queue.nextId && CountIn(s.queue.rows, 0, hi) <= DRAIN_BATCH
    requires MAX_ATTEMPTS <= Finished(s, steps)
    ensures var t := T.Run(s, steps).queue; CountIn(t.rows, 0, hi) == 0 && forall r :: r in t.rows ==> hi <= r.id
  {
    StepsPress(s, steps, 0, hi, 0);
    var t := T.Run(s, steps).queue;
    forall r | r in t.rows ensures hi <= r.id {
      var i :| 0 <= i < |t.rows| && t.rows[i] == r;
    }
    CountNone(t.rows, 0, hi);
  }

  /** The point at which `m` drains are complete. */
  lemma {:induction false} SplitAfter(s: T.State, steps: seq<T.Step>, m: nat) returns (n: nat)
    requires 0 < m <= Finished(s, steps)
    ensures n <= |steps| && Finished(s, steps[..n]) == m
    ensures var t := T.Run(s, steps[..n]);
            t.draining == [] && Finished(t, steps[n..]) == Finished(s, steps) - m
                && T.Run(t, steps[n..]) == T.Run(s, steps)
    decreases |steps|
  {
    var next := T.Next(s, steps[0]);
    var more := if Finishes(s, steps[0]) then 1 else 0;
    if more == m {
      n := 1;
      assert steps[..1] == [steps[0]] && [steps[0]][1..] == [];
      assert T.Run(s, [steps[0]]) == T.Run(next, []) && Finished(s, [steps[0]]) == more + Finished(next, []);
    } else {
      var k := SplitAfter(next, steps[1..], m - more);
      n := k + 1;
      assert steps[..n][0] == steps[0] && steps[..n][1..] == steps[1..][..k] && steps[1..][k..] == steps[n..];
    }
  }

  /** A row with at most `r` older rows in front of it has left the agent's queue when
      10 * (r / 50 + 1) drains are complete, whatever interrupts them. */
  lemma {:induction false} FairDrains(s: T.State, steps: seq<T.Step>, id: nat, r: nat)
    requires T.QueueInv(s) && s.draining == [] && id < s.queue.nextId && CountIn(s.queue.rows, 0, id) <= r
    requires MAX_ATTEMPTS * (r / DRAIN_BATCH + 1) <= Finished(s, steps)
    ensures !Present(T.Run(s, steps).queue, id)
    decreases r
  {
    if CountIn(s.queue.rows, 0, id + 1) <= DRAIN_BATCH {
      TenDrainsClear(s, steps, id + 1);
    } else {
      var n := SplitAfter(s, steps, MAX_ATTEMPTS);
      TenDrainsAdvance(s, steps[..n], id);
      assert r / DRAIN_BATCH == (r - DRAIN_BATCH) / DRAIN_BATCH + 1;
      FairDrains(T.Run(s, steps[..n]), steps[n..], id, r - DRAIN_BATCH);
    }
  }

  /** With a full batch in front of it, a row is 50 places further after ten drains. */
  lemma TenDrainsAdvance(s: T.State, steps: seq<T.Step>, id: nat)
    requires T.QueueInv(s) && s.draining == [] && id < s.queue.nextId && Finished(s, steps) == MAX_ATTEMPTS
    requires DRAIN_BATCH < CountIn(s.queue.rows, 0, id + 1)
    ensures var t := T.Run(s, steps);
            && T.QueueInv(t) && id < t.queue.nextId && DRAIN_BATCH <= CountIn(s.queue.rows, 0, id)
            && CountIn(t.queue.rows, 0, id) <= CountIn(s.queue.rows, 0, id) - DRAIN_BATCH
  {
    var rows := s.queue.rows;
    CountRange(rows, 0, id, id + 1);
    AtMostOne(rows, id);
    CountAllBelow(rows, id);
    FirstBatchBelow(s.queue, id);
    var hi := rows[DRAIN_BATCH - 1].id + 1;
    CountRange(rows, 0, hi, id);
    TenDrainsClear(s, steps, hi);
    StepsPress(s, steps, hi, id, 0);
    CountRange(T.Run(s, steps).queue.rows, 0, hi, id);
  }
}
