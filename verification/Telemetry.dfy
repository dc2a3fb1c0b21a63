/** The telemetry buffer, its flush, and the drain of queued batches, over every
    interleaving in which no task is cancelled.

    A flush swaps the buffer out and is suspended while it posts; a drain is
    suspended at every item. The steps are cut at those points. */
module Telemetry {
  import opened Prelude
  import opened AgentData
  import opened Bags
  import opened OfflineQueue

  /** `flying[i]` is the batch of the i-th flush until its post has ended. `draining`
      is what the running drain still has to send. The last four fields record the
      past: the samples recorded, answered with 2xx, dropped with a row at its tenth
      failure, and put back into the buffer beside a queued copy. */
  datatype State = State(
    buffer: seq<Sample>, flying: seq<seq<Sample>>, queue: Table<Payload>, draining: seq<Row<Payload>>,
    recorded: multiset<Sample>, accepted: multiset<Sample>, dropped: multiset<Sample>, doubled: multiset<Sample>)

  datatype Step =
    | Record(sample: Sample)
    | FlushStart
    | FlushEnd(i: nat, reply: Reply)
    | QueueResult(callback: Callback)
    | DrainStart
    | DrainItem(reply: Reply)

  const INIT := State([], [], Table([], 1), [], multiset{}, multiset{}, multiset{}, multiset{})

  /** A sample as it is posted: fields that are None are left out. */
  function Posted(s: Sample): Sample {
    map k | k in s && s[k] != Null :: s[k]
  }

  function PostedAll(batch: seq<Sample>): (r: seq<Sample>)
    ensures |r| == |batch|
  {
    seq(|batch|, i requires 0 <= i < |batch| => Posted(batch[i]))
  }

  function Bag(batch: seq<Sample>): multiset<Sample> {
    multiset(PostedAll(batch))
  }

  /** The samples a queue row carries. */
  function Carried(row: Row<Payload>): multiset<Sample> {
    if row.item.kind == TELEMETRY && row.item.payload.Samples? then multiset(row.item.payload.samples) else multiset{}
  }

  function QueuedBatch(batch: seq<Sample>): Item<Payload> {
    Item(TELEMETRY, Samples(PostedAll(batch)))
  }

  function EndFlush(s: State, i: nat, reply: Reply): State
    requires i < |s.flying|
  {
    var batch := s.flying[i];
    var landed := s.(flying := s.flying[i := []]);
    match reply
    case Accepted => landed.(accepted := s.accepted + Bag(batch))
    case Refused => landed.(queue := Inserted(s.queue, [QueuedBatch(batch)]))
    case Raised =>
      landed.(buffer := s.buffer + batch, queue := Inserted(s.queue, [QueuedBatch(batch)]),
              doubled := s.doubled + Bag(batch))
  }

  function SendOne(s: State, reply: Reply): State
    requires s.draining != []
  {
    var row := s.draining[0];
    var sent := s.(draining := s.draining[1..], queue := Settled(s.queue, row, reply));
    if OfflineQueue.Delivered(row, reply) then sent.(accepted := s.accepted + Carried(row))
    else if row.attempts + 1 >= MAX_ATTEMPTS then sent.(dropped := s.dropped + Carried(row))
    else sent
  }

  /** Steps that are not enabled do nothing; drains do not overlap. */
  function Next(s: State, step: Step): State {
    match step
    case Record(sample) =>
      s.(buffer := s.buffer + [sample], recorded := s.recorded + Bag([sample]))
    case FlushStart =>
      if s.buffer == [] then s else s.(buffer := [], flying := s.flying + [s.buffer])
    case FlushEnd(i, reply) =>
      if Flying(s, i) then EndFlush(s, i, reply) else s
    case QueueResult(callback) =>
      s.(queue := Inserted(s.queue, [Item(CALLBACK, Result(callback))]))
    case DrainStart =>
      if s.draining == [] then s.(draining := s.queue.rows[..Batch(s.queue)]) else s
    case DrainItem(reply) =>
      if s.draining == [] then s else SendOne(s, reply)
  }

  /** The i-th flush is suspended in its post. */
  predicate Flying(s: State, i: nat) {
    i < |s.flying| && s.flying[i] != []
  }

  function Run(s: State, steps: seq<Step>): State
    decreases |steps|
  {
    if steps == [] then s else Run(Next(s, steps[0]), steps[1..])
  }

  // ---------------------------------------------------------------------------
  // Conservation
  // ---------------------------------------------------------------------------

  /** Every copy of a sample, wherever it is. */
  function Everywhere(s: State): multiset<Sample> {
    Bag(s.buffer) + Total(s.flying, Bag) + Total(s.queue.rows, Carried) + s.accepted + s.dropped
  }

  /** The same for one sample, as it is posted. */
  function Copies(s: State, x: Sample): nat {
    Bag(s.buffer)[x] + Total(s.flying, Bag)[x] + Total(s.queue.rows, Carried)[x] + s.accepted[x] + s.dropped[x]
  }

  ghost predicate Inv(s: State) {
    DrainSound(s.queue, s.draining) && forall x :: Balanced(s, x)
  }

  lemma BagSum(a: seq<Sample>, b: seq<Sample>)
    ensures Bag(a + b) == Bag(a) + Bag(b)
  {
    assert PostedAll(a + b) == PostedAll(a) + PostedAll(b);
  }

  lemma NextKeepsQueue(s: State, step: Step)
    requires DrainSound(s.queue, s.draining)
    ensures DrainSound(Next(s, step).queue, Next(s, step).draining)
  {
    match step
    case FlushEnd(i, reply) => if Flying(s, i) { InsertKeepsDrain(s.queue, s.draining, QueuedBatch(s.flying[i])); }
    case QueueResult(callback) => InsertKeepsDrain(s.queue, s.draining, Item(CALLBACK, Result(callback)));
    case DrainItem(reply) => if s.draining != [] { SettleKeepsDrain(s.queue, s.draining, reply); }
    case _ =>
  }

  ghost predicate Balanced(s: State, x: Sample) {
    Copies(s, x) == s.recorded[x] + s.doubled[x]
  }

  lemma FlushKeepsCopies(s: State, i: nat, reply: Reply, x: Sample)
    requires Flying(s, i) && Balanced(s, x)
    ensures Balanced(EndFlush(s, i, reply), x)
  {
    TotalUpdate(s.flying, i, [], Bag, x);
    assert PostedAll([]) == [];
    InsertAdds(s.queue, QueuedBatch(s.flying[i]), Carried);
    BagSum(s.buffer, s.flying[i]);
  }

  lemma DrainKeepsCopies(s: State, reply: Reply, x: Sample)
    requires DrainSound(s.queue, s.draining) && s.draining != [] && Balanced(s, x)
    ensures Balanced(SendOne(s, reply), x)
  {
    var row := s.draining[0];
    assert row in s.queue.rows;
    var a, b := SettleInPlace(s.queue, row, reply);
    TotalReplace(a, row, Left(row, reply), b, Carried, x);
  }

  lemma NextKeepsCopies(s: State, step: Step, x: Sample)
    requires DrainSound(s.queue, s.draining) && Balanced(s, x)
    ensures Balanced(Next(s, step), x)
  {
    match step
    case Record(sample) => BagSum(s.buffer, [sample]);
    case FlushStart =>
      TotalAppend(s.flying, s.buffer, Bag);
      assert PostedAll([]) == [];
    case FlushEnd(i, reply) => if Flying(s, i) { FlushKeepsCopies(s, i, reply, x); }
    case QueueResult(callback) => InsertAdds(s.queue, Item(CALLBACK, Result(callback)), Carried);
    case DrainStart =>
    case DrainItem(reply) => if s.draining != [] { DrainKeepsCopies(s, reply, x); }
  }

  lemma NextKeepsInv(s: State, step: Step)
    requires Inv(s)
    ensures Inv(Next(s, step))
  {
    NextKeepsQueue(s, step);
    forall x ensures Balanced(Next(s, step), x) {
      NextKeepsCopies(s, step, x);
    }
  }

  lemma {:induction false} RunKeepsInv(s: State, steps: seq<Step>)
    requires Inv(s)
    ensures Inv(Run(s, steps))
    decreases |steps|
  {
    if steps != [] {
      NextKeepsInv(s, steps[0]);
      RunKeepsInv(Next(s, steps[0]), steps[1..]);
    }
  }

  /** The samples of the flushes whose post raised. */
  function RaisedIn(s: State, steps: seq<Step>): multiset<Sample>
    decreases |steps|
  {
    if steps == [] then multiset{}
    else
      (if steps[0].FlushEnd? && steps[0].reply.Raised? && Flying(s, steps[0].i) then Bag(s.flying[steps[0].i])
       else multiset{})
      + RaisedIn(Next(s, steps[0]), steps[1..])
  }

  lemma {:induction false} DoubledIsRaised(s: State, steps: seq<Step>, x: Sample)
    ensures Run(s, steps).doubled[x] == s.doubled[x] + RaisedIn(s, steps)[x]
    decreases |steps|
  {
    if steps != [] {
      var t := Next(s, steps[0]);
      assert t.doubled[x] == s.doubled[x]
        + if steps[0].FlushEnd? && steps[0].reply.Raised? && Flying(s, steps[0].i) then Bag(s.flying[steps[0].i])[x]
          else 0;
      DoubledIsRaised(t, steps[1..], x);
    }
  }

  lemma EverywhereCounts(s: State, x: Sample)
    ensures Everywhere(s)[x] == Copies(s, x)
  {}

  /** In every interleaving the copies of the samples, up to their None fields, are
      the recorded samples plus one more for each sample of a flush whose post raised. */
  lemma CopiesAreCounted(steps: seq<Step>)
    ensures Everywhere(Run(INIT, steps)) == Run(INIT, steps).recorded + RaisedIn(INIT, steps)
  {
    assert PostedAll([]) == [];
    forall x ensures Balanced(INIT, x) { assert Bag([])[x] == 0; }
    RunKeepsInv(INIT, steps);
    var s := Run(INIT, steps);
    forall x ensures Everywhere(s)[x] == (s.recorded + RaisedIn(INIT, steps))[x] {
      DoubledIsRaised(INIT, steps, x);
      assert Balanced(s, x);
      EverywhereCounts(s, x);
    }
  }

  /** Some flush of the run ends in an exception. */
  ghost predicate Raises(s: State, steps: seq<Step>)
    decreases |steps|
  {
    steps != [] &&
    ((steps[0].FlushEnd? && steps[0].reply.Raised? && Flying(s, steps[0].i)) || Raises(Next(s, steps[0]), steps[1..]))
  }

  lemma {:induction false} RaisedIsEmpty(s: State, steps: seq<Step>)
    ensures RaisedIn(s, steps) == multiset{} <==> !Raises(s, steps)
    decreases |steps|
  {
    if steps != [] {
      RaisedIsEmpty(Next(s, steps[0]), steps[1..]);
      if steps[0].FlushEnd? && steps[0].reply.Raised? && Flying(s, steps[0].i) {
        var batch := s.flying[steps[0].i];
        assert PostedAll(batch)[0] in Bag(batch);
      }
    }
  }

  /** No recorded sample is ever lost. */
  lemma NothingIsLost(steps: seq<Step>)
    ensures Run(INIT, steps).recorded <= Everywhere(Run(INIT, steps))
  {
    CopiesAreCounted(steps);
  }

  /** Every recorded sample is in exactly one place if and only if no post raised. */
  lemma ExactlyOnceIff(steps: seq<Step>)
    ensures Everywhere(Run(INIT, steps)) == Run(INIT, steps).recorded <==> !Raises(INIT, steps)
  {
    CopiesAreCounted(steps);
    RaisedIsEmpty(INIT, steps);
    var recorded, raised := Run(INIT, steps).recorded, RaisedIn(INIT, steps);
    if recorded + raised == recorded {
      assert |recorded + raised| == |recorded| + |raised|;
    }
  }

  /** Such a run: one sample, one flush whose post raises, and the sample is both in the
      buffer and in a queued row. */
  lemma RaisedPostDoubles(x: Sample)
    ensures var s := Run(INIT, RaisedPost(x));
            && s.buffer == [x] && |s.queue.rows| == 1 && s.queue.rows[0].item == QueuedBatch([x])
            && s.recorded[Posted(x)] == 1 && Everywhere(s)[Posted(x)] == 2
  {
    RaisedPostRun(x);
    CopiesAreCounted(RaisedPost(x));
    DoubledIsRaised(INIT, RaisedPost(x), Posted(x));
    assert PostedAll([x]) == [Posted(x)];
  }

  function RaisedPost(x: Sample): seq<Step> {
    [Record(x), FlushStart, FlushEnd(0, Raised)]
  }

  lemma RaisedPostRun(x: Sample)
    ensures Run(INIT, RaisedPost(x))
         == State([x], [[]], Inserted(Table([], 1), [QueuedBatch([x])]), [], Bag([x]), multiset{}, multiset{}, Bag([x]))
  {
    var s1 := INIT.(buffer := [x], recorded := Bag([x]));
    var s2 := s1.(buffer := [], flying := [[x]]);
    assert Next(INIT, Record(x)) == s1 && Next(s1, FlushStart) == s2;
    assert RaisedPost(x)[1..] == [FlushStart, FlushEnd(0, Raised)] && RaisedPost(x)[1..][1..] == [FlushEnd(0, Raised)];
    assert Run(INIT, RaisedPost(x)) == Run(s2, [FlushEnd(0, Raised)]);
    assert Run(s2, [FlushEnd(0, Raised)]) == Run(EndFlush(s2, 0, Raised), []);
    assert s2.flying[0 := []] == [[]] && [] + [x] == [x];
  }

  /** The samples whose post a step sees answered with success. */
  function Answered(s: State, step: Step): multiset<Sample> {
    match step
    case FlushEnd(i, reply) => if i < |s.flying| && reply == Accepted then Bag(s.flying[i]) else multiset{}
    case DrainItem(reply) =>
      if s.draining != [] && reply == Accepted && s.draining[0].item.kind == "telemetry"
         && s.draining[0].item.payload.Samples?
      then multiset(s.draining[0].item.payload.samples) else multiset{}
    case _ => multiset{}
  }

  function AnsweredIn(s: State, steps: seq<Step>): multiset<Sample>
    decreases |steps|
  {
    if steps == [] then multiset{} else Answered(s, steps[0]) + AnsweredIn(Next(s, steps[0]), steps[1..])
  }

  lemma StepBooks(s: State, step: Step)
    ensures Next(s, step).accepted == s.accepted + Answered(s, step)
  {
    assert PostedAll([]) == [];
  }

  /** In every run the accepted samples are exactly those whose posts were answered with
      success, by a flush or by a drain. */
  lemma {:induction false} AcceptedIsAnswered(s: State, steps: seq<Step>)
    ensures Run(s, steps).accepted == s.accepted + AnsweredIn(s, steps)
    decreases |steps|
  {
    if steps != [] {
      StepBooks(s, steps[0]);
      AcceptedIsAnswered(Next(s, steps[0]), steps[1..]);
    }
  }

  /** An accepted batch leaves the queue; a refused or raised one stays with one more
      attempt, unless that is its tenth: then its samples are dropped. */
  lemma ItemDecides(s: State, reply: Reply)
    requires DrainSound(s.queue, s.draining) && s.draining != [] && s.draining[0].item.kind == "telemetry"
    ensures var row, t := s.draining[0], Next(s, DrainItem(reply));
            && (if reply != Accepted && row.attempts < 9 then row.(attempts := row.attempts + 1) in t.queue.rows
                else forall r :: r in t.queue.rows ==> r.id != row.id)
            && t.dropped == s.dropped + if reply != Accepted && row.attempts == 9 then Carried(row) else multiset{}
  {
    assert s.draining[0] in s.queue.rows;
    var a, b := SettleInPlace(s.queue, s.draining[0], reply);
  }

  /** What the steps do. A flush takes the whole buffer; when its post has ended it is over,
      its batch is a fresh row of the queue unless it was accepted, and back in the buffer
      if the post raised. A drain takes the oldest rows, fifty at most. */
  lemma FlushTakesBuffer(s: State)
    requires s.buffer != []
    ensures var t := Next(s, FlushStart); t.buffer == [] && t.flying == s.flying + [s.buffer] && t.queue == s.queue
  {}

  lemma FlushEnds(s: State, i: nat, reply: Reply)
    requires Flying(s, i)
    ensures var t, batch := Next(s, FlushEnd(i, reply)), s.flying[i];
            && t.flying == s.flying[i := []]
            && t.buffer == (if reply == Raised then s.buffer + batch else s.buffer)
            && t.queue.rows == s.queue.rows
               + if reply == Accepted then []
                 else [Row(s.queue.nextId, Item("telemetry", Samples(PostedAll(batch))), 0)]
  {}

  lemma DrainTakesOldest(s: State)
    requires s.draining == []
    ensures var t := Next(s, DrainStart);
            t.queue == s.queue && t.draining == if |s.queue.rows| <= 50 then s.queue.rows else s.queue.rows[..50]
  {}

  lemma ResultsAreQueued(s: State, c: Callback)
    ensures var t := Next(s, QueueResult(c));
            t.queue.rows == s.queue.rows + [Row(s.queue.nextId, Item("callback", Result(c)), 0)]
  {}

  /** A sample as `record` builds it. */
  function NewSample(metric: string, value: real, unit: Option<string>, ts: real): Sample {
    map["metric" := Text(metric), "value" := Number(value),
        "unit" := if unit.Some? then Text(unit.value) else Null, "ts" := Number(ts)]
  }

  /** What is posted of a sample: every field that was given, with its value, and no
      other; so of a recorded one all but a missing unit. */
  lemma PostedFields(s: Sample, k: string)
    ensures k in Posted(s) <==> k in s && s[k] != Null
    ensures k in Posted(s) ==> Posted(s)[k] == s[k]
  {}

  lemma RecordedFields(metric: string, value: real, unit: Option<string>, ts: real)
    ensures var p := Posted(NewSample(metric, value, unit, ts));
            && p.Keys == {"metric", "value", "ts"} + (if unit.Some? then {"unit"} else {})
            && p["metric"] == Text(metric) && p["value"] == Number(value) && p["ts"] == Number(ts)
            && (unit.Some? ==> p["unit"] == Text(unit.value))
  {}

  // ---------------------------------------------------------------------------
  // The agent's code
  // ---------------------------------------------------------------------------

  /** The module's globals. `flying` stands for the local variables of the flushes
      that are suspended; the ghost fields record the past. */
  class Agent {
    var buffer: seq<Sample>
    var flying: seq<seq<Sample>>
    var queue: Table<Payload>
    var draining: seq<Row<Payload>>
    ghost var recorded: multiset<Sample>
    ghost var accepted: multiset<Sample>
    ghost var dropped: multiset<Sample>
    ghost var doubled: multiset<Sample>

    ghost function S(): State
      reads this
    {
      State(buffer, flying, queue, draining, recorded, accepted, dropped, doubled)
    }

    constructor ()
      ensures S() == INIT
    {
      buffer, flying, queue, draining := [], [], Table([], 1), [];
      recorded, accepted, dropped, doubled := multiset{}, multiset{}, multiset{}, multiset{};
    }

    method RecordOne(metric: string, value: real, unit: Option<string>, ts: real)
      modifies this
      ensures S() == Next(old(S()), Record(NewSample(metric, value, unit, ts)))
    {
      var sample := map["metric" := Text(metric), "value" := Number(value),
                        "unit" := if unit.Some? then Text(unit.value) else Null, "ts" := Number(ts)];
      RecordSample(sample);
    }

    method RecordSample(sample: Sample)
      modifies this
      ensures S() == Next(old(S()), Record(sample))
    {
      buffer := buffer + [sample];
      recorded := recorded + Bag([sample]);
    }

    /** The start of `flush`, under its lock. */
    method TakeBatch() returns (batch: seq<Sample>)
      requires buffer != []
      modifies this
      ensures batch == old(buffer) && S() == Next(old(S()), FlushStart)
    {
      batch := buffer;
      buffer := [];
      flying := flying + [batch];
    }

    /** The end of `flush`, when the post of `batch` has been answered or has raised. */
    method Land(batch: seq<Sample>, i: nat, reply: Reply) returns (ok: bool)
      requires i < |flying| && flying[i] == batch && batch != []
      modifies this
      ensures S() == EndFlush(old(S()), i, reply) && ok == reply.Accepted?
    {
      flying := flying[i := []];
      match reply {
        case Accepted =>
          accepted := accepted + Bag(batch);
          return true;
        case Refused =>
          queue := Inserted(queue, [QueuedBatch(batch)]);
          return false;
        case Raised =>
          buffer := buffer + batch;
          doubled := doubled + Bag(batch);
          queue := Inserted(queue, [QueuedBatch(batch)]);
          return false;
      }
    }

    method Drain(reply: Reply)
      modifies this
      ensures S() == Next(old(S()), DrainItem(reply))
    {
      if draining != [] {
        SendItem(reply);
      }
    }

    /** One item of a drain: its row is settled, and its samples are booked. */
    method SendItem(reply: Reply)
      requires draining != []
      modifies this`draining, this`queue, this`accepted, this`dropped
      ensures S() == SendOne(old(S()), reply)
    {
      var row := draining[0];
      draining := draining[1..];
      queue := Settled(queue, row, reply);
      Book(row, Carried(row), reply);
    }

    method Book(row: Row<Payload>, ghost samples: multiset<Sample>, reply: Reply)
      modifies this`accepted, this`dropped
      ensures var sent := OfflineQueue.Delivered(row, reply); var last := row.attempts + 1 >= MAX_ATTEMPTS;
              && accepted == (if sent then old(accepted) + samples else old(accepted))
              && dropped == (if !sent && last then old(dropped) + samples else old(dropped))
    {
      if OfflineQueue.Delivered(row, reply) {
        accepted := accepted + samples;
      } else if row.attempts + 1 >= MAX_ATTEMPTS {
        dropped := dropped + samples;
      }
    }

    /** What other tasks do while a flush is suspended. */
    method Meanwhile(steps: seq<Step>)
      modifies this
      ensures S() == Run(old(S()), steps)
    {
      var i, batch, ok := 0, [], false;
      while i < |steps|
        invariant 0 <= i <= |steps|
        invariant Run(S(), steps[i..]) == Run(old(S()), steps)
      {
        ghost var before := S();
        match steps[i] {
          case Record(sample) => RecordSample(sample);
          case FlushStart => if buffer != [] { batch := TakeBatch(); }
          case FlushEnd(k, reply) => if k < |flying| && flying[k] != [] { ok := Land(flying[k], k, reply); }
          case QueueResult(callback) => queue := Inserted(queue, [Item(CALLBACK, Result(callback))]);
          case DrainStart => if draining == [] { draining := queue.rows[..Batch(queue)]; }
          case DrainItem(reply) => Drain(reply);
        }
        assert S() == Next(before, steps[i]);
        assert steps[i..][1..] == steps[i + 1..];
        i := i + 1;
      }
    }

    /** One call of `flush`, with anything but the end of this very flush happening
        while it posts: it is the three parts in a row, and true means posted. */
    method Flush(reply: Reply, others: seq<Step>) returns (ok: bool)
      requires Inv(S())
      requires forall k :: 0 <= k < |others| ==> !(others[k].FlushEnd? && others[k].i == |flying|)
      modifies this
      ensures Inv(S())
      ensures old(buffer) == [] ==> ok && S() == old(S())
      ensures old(buffer) != [] ==>
                && ok == reply.Accepted?
                && S() == Next(Run(Next(old(S()), FlushStart), others), FlushEnd(|old(flying)|, reply))
    {
      if buffer == [] {
        return true;
      }
      var me := |flying|;
      NextKeepsInv(S(), FlushStart);
      var batch := TakeBatch();
      RunKeepsInv(S(), others);
      FlightLasts(S(), others, me);
      Meanwhile(others);
      NextKeepsInv(S(), FlushEnd(me, reply));
      ok := Land(batch, me, reply);
    }
  }

  lemma {:induction false} FlightLasts(s: State, steps: seq<Step>, i: nat)
    requires i < |s.flying|
    requires forall k :: 0 <= k < |steps| ==> !(steps[k].FlushEnd? && steps[k].i == i)
    ensures i < |Run(s, steps).flying| && Run(s, steps).flying[i] == s.flying[i]
    decreases |steps|
  {
    if steps != [] {
      FlightLasts(Next(s, steps[0]), steps[1..], i);
    }
  }
}
