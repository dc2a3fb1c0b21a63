/** The agent's end of the tunnel: every control message starts a task that reports
    "running", executes, acknowledges, and posts the result or queues it; a drain
    re-posts queued results. The steps are cut where a task is suspended. */
module Tunnel {
  import opened Prelude
  import opened AgentData
  import opened Bags
  import opened OfflineQueue

  /** What a task does next. A task whose executor raises ends there. */
  datatype Phase = Announcing | Executing | Acking(result: Callback) | Posting(result: Callback) | Ended

  datatype Task = Task(socket: nat, execution: string, phase: Phase)

  /** `acked` are the acknowledgements sent, by socket. The last five fields record the
      past: the executions run to completion, their results, the results answered with
      2xx, the results dropped from the queue, and every failed post of a queue row. */
  datatype State = State(
    tasks: seq<Task>, acked: set<(nat, string)>, queue: Table<Payload>, draining: seq<Row<Payload>>,
    executed: set<string>, finished: multiset<Callback>, accepted: multiset<Callback>, dropped: seq<Row<Payload>>,
    failures: multiset<nat>)

  datatype Step =
    | Receive(socket: nat, execution: string)
    | Announce(i: nat)
    | Execute(i: nat, result: Callback)
    | Crash(i: nat)
    | SendAck(i: nat, sent: bool)
    | Post(i: nat, ok: bool)
    | QueueSamples(batch: seq<Sample>)
    | DrainStart
    | DrainItem(reply: Reply)

  const INIT := State([], {}, Table([], 1), [], {}, multiset{}, multiset{}, [], multiset{})

  function ResultItem(c: Callback): Item<Payload> {
    Item(CALLBACK, Result(c))
  }

  /** The result a task still has to get rid of. */
  function Held(t: Task): multiset<Callback> {
    if t.phase.Acking? || t.phase.Posting? then multiset{t.phase.result} else multiset{}
  }

  function Carried(row: Row<Payload>): multiset<Callback> {
    if row.item.kind == CALLBACK && row.item.payload.Result? then multiset{row.item.payload.callback} else multiset{}
  }

  predicate At(s: State, i: nat) {
    i < |s.tasks|
  }

  function Moved(s: State, i: nat, phase: Phase): State
    requires At(s, i)
  {
    s.(tasks := s.tasks[i := s.tasks[i].(phase := phase)])
  }

  function SendOne(s: State, reply: Reply): State
    requires s.draining != []
  {
    var row := s.draining[0];
    var sent := s.(draining := s.draining[1..], queue := Settled(s.queue, row, reply));
    if Delivered(row, reply) then sent.(accepted := s.accepted + Carried(row))
    else
      var failed := sent.(failures := s.failures + multiset{row.id});
      if row.attempts + 1 >= MAX_ATTEMPTS then failed.(dropped := s.dropped + [row]) else failed
  }

  /** Steps that are not enabled do nothing; drains do not overlap. The acknowledgement
      is lost when its send raises; the outcome of the first report is ignored. */
  function Next(s: State, step: Step): State {
    match step
    case Receive(w, e) => s.(tasks := s.tasks + [Task(w, e, Announcing)])
    case Announce(i) => if At(s, i) && s.tasks[i].phase.Announcing? then Moved(s, i, Executing) else s
    case Execute(i, result) =>
      if At(s, i) && s.tasks[i].phase.Executing? && result.execution == s.tasks[i].execution then
        Moved(s, i, Acking(result)).(
          executed := s.executed + {result.execution}, finished := s.finished + multiset{result})
      else s
    case Crash(i) => if At(s, i) && s.tasks[i].phase.Executing? then Moved(s, i, Ended) else s
    case SendAck(i, sent) =>
      if At(s, i) && s.tasks[i].phase.Acking? then
        Moved(s, i, Posting(s.tasks[i].phase.result)).(
          acked := if sent then s.acked + {(s.tasks[i].socket, s.tasks[i].execution)} else s.acked)
      else s
    case Post(i, ok) =>
      if At(s, i) && s.tasks[i].phase.Posting? then
        var result := s.tasks[i].phase.result;
        if ok then Moved(s, i, Ended).(accepted := s.accepted + multiset{result})
        else Moved(s, i, Ended).(queue := Inserted(s.queue, [ResultItem(result)]))
      else s
    case QueueSamples(batch) => s.(queue := Inserted(s.queue, [Item(TELEMETRY, Samples(batch))]))
    case DrainStart => if s.draining == [] then s.(draining := s.queue.rows[..Batch(s.queue)]) else s
    case DrainItem(reply) => if s.draining == [] then s else SendOne(s, reply)
  }

  function Run(s: State, steps: seq<Step>): State
    decreases |steps|
  {
    if steps == [] then s else Run(Next(s, steps[0]), steps[1..])
  }

  // ---------------------------------------------------------------------------
  // Nothing is acknowledged before it was executed
  // ---------------------------------------------------------------------------

  ghost predicate TaskHonest(t: Task, executed: set<string>) {
    t.phase.Acking? || t.phase.Posting? ==> t.execution in executed && t.phase.result.execution == t.execution
  }

  ghost predicate HasResult(s: State, e: string) {
    exists c :: c in s.finished && c.execution == e
  }

  ghost predicate TasksHonest(s: State) {
    && (forall a :: a in s.acked ==> a.1 in s.executed)
    && (forall i :: 0 <= i < |s.tasks| ==> TaskHonest(s.tasks[i], s.executed))
    && (forall e :: e in s.executed ==> HasResult(s, e))
  }

  lemma NextKeepsResults(s: State, step: Step, e: string)
    requires e in Next(s, step).executed && (e in s.executed ==> HasResult(s, e))
    ensures HasResult(Next(s, step), e)
  {
    var t := Next(s, step);
    if e in s.executed {
      var c :| c in s.finished && c.execution == e;
      assert c in t.finished;
    } else {
      assert step.result in t.finished;
    }
  }

  lemma NextKeepsTaskHonest(s: State, step: Step, i: nat)
    requires i < |Next(s, step).tasks| && (i < |s.tasks| ==> TaskHonest(s.tasks[i], s.executed))
    ensures TaskHonest(Next(s, step).tasks[i], Next(s, step).executed)
  {
    if i < |s.tasks| && Moves(step, i) {
      MovedTaskHonest(s, step, i);
    } else if i < |s.tasks| {
      OthersLeaveTask(s, step, i);
    }
  }

  lemma MovedTaskHonest(s: State, step: Step, i: nat)
    requires i < |s.tasks| && Moves(step, i) && TaskHonest(s.tasks[i], s.executed)
    ensures i < |Next(s, step).tasks| && TaskHonest(Next(s, step).tasks[i], Next(s, step).executed)
  {
    match step
    case Announce(j) =>
    case Execute(j, result) =>
    case Crash(j) =>
    case SendAck(j, sent) =>
    case Post(j, ok) =>
    case _ =>
  }

  lemma NextKeepsHonest(s: State, step: Step)
    requires TasksHonest(s)
    ensures TasksHonest(Next(s, step))
  {
    var t := Next(s, step);
    forall i | 0 <= i < |t.tasks| ensures TaskHonest(t.tasks[i], t.executed) { NextKeepsTaskHonest(s, step, i); }
    forall e | e in t.executed ensures HasResult(t, e) { NextKeepsResults(s, step, e); }
    forall a | a in t.acked ensures a.1 in t.executed {
      if a !in s.acked {
        assert TaskHonest(s.tasks[step.i], s.executed);
      }
    }
  }

  // ---------------------------------------------------------------------------
  // The queue and its failures
  // ---------------------------------------------------------------------------

  ghost predicate FailuresCounted(s: State) {
    && (forall r :: r in s.queue.rows ==> s.failures[r.id] == r.attempts)
    && (forall id :: s.queue.nextId <= id ==> s.failures[id] == 0)
    && (forall r :: r in s.dropped ==> s.failures[r.id] == MAX_ATTEMPTS && Gone(s.queue, r.id))
  }

  ghost predicate Gone(t: Table<Payload>, id: nat) {
    id < t.nextId && forall r :: r in t.rows ==> r.id != id
  }

  ghost predicate QueueInv(s: State) {
    DrainSound(s.queue, s.draining) && FailuresCounted(s)
  }

  lemma InsertKeepsQueue(s: State, item: Item<Payload>)
    requires QueueInv(s)
    ensures QueueInv(s.(queue := Inserted(s.queue, [item])))
  {
    InsertKeepsDrain(s.queue, s.draining, item);
  }

  lemma DrainKeepsFailures(s: State, reply: Reply)
    requires QueueInv(s) && s.draining != []
    ensures FailuresCounted(SendOne(s, reply))
  {
    var t, row := SendOne(s, reply), s.draining[0];
    assert row in s.queue.rows;
    var a, b := SettleInPlace(s.queue, row, reply);
    DroppedStayGone(s, row, reply, a, b);
  }

  lemma DroppedStayGone(s: State, row: Row<Payload>, reply: Reply, a: seq<Row<Payload>>, b: seq<Row<Payload>>)
    requires QueueInv(s) && s.draining != [] && row == s.draining[0] && row in s.queue.rows
    requires Settled(s.queue, row, reply).rows == a + Left(row, reply) + b
    requires s.queue.rows == a + [row] + b && forall r :: r in a || r in b ==> r.id != row.id
    ensures var t := SendOne(s, reply);
            forall r :: r in t.dropped ==> t.failures[r.id] == MAX_ATTEMPTS && Gone(t.queue, r.id)
  {
    var t := SendOne(s, reply);
    forall r | r in t.dropped ensures t.failures[r.id] == MAX_ATTEMPTS && Gone(t.queue, r.id) {
      if r in s.dropped {
        assert row.id != r.id;
      }
    }
  }

  lemma NextKeepsQueue(s: State, step: Step)
    requires QueueInv(s)
    ensures QueueInv(Next(s, step))
  {
    match step
    case Post(i, ok) =>
      if At(s, i) && s.tasks[i].phase.Posting? && !ok {
        InsertKeepsQueue(Moved(s, i, Ended), ResultItem(s.tasks[i].phase.result));
      }
    case QueueSamples(batch) => InsertKeepsQueue(s, Item(TELEMETRY, Samples(batch)));
    case DrainItem(reply) =>
      if s.draining != [] {
        SettleKeepsDrain(s.queue, s.draining, reply);
        DrainKeepsFailures(s, reply);
      }
    case _ =>
  }

  // ---------------------------------------------------------------------------
  // Conservation of results
  // ---------------------------------------------------------------------------

  /** Where copies of a result are. */
  function Copies(s: State, x: Callback): nat {
    Total(s.tasks, Held)[x] + Total(s.queue.rows, Carried)[x] + s.accepted[x] + Total(s.dropped, Carried)[x]
  }

  ghost predicate Balanced(s: State, x: Callback) {
    Copies(s, x) == s.finished[x]
  }

  /** A row's result stays with it, or moves to the accepted or the dropped ones. */
  lemma RowMoves(s: State, t: State, a: seq<Row<Payload>>, row: Row<Payload>, left: seq<Row<Payload>>,
                 b: seq<Row<Payload>>, x: Callback)
    requires Balanced(s, x) && t.tasks == s.tasks && t.finished == s.finished
    requires s.queue.rows == a + [row] + b && t.queue.rows == a + left + b && |left| <= 1
    requires left != [] ==> Carried(left[0]) == Carried(row) && t.accepted == s.accepted && t.dropped == s.dropped
    requires left == [] ==>
               (t.accepted == s.accepted + Carried(row) && t.dropped == s.dropped)
               || (t.accepted == s.accepted && t.dropped == s.dropped + [row])
    ensures Balanced(t, x)
  {
    TotalReplace(a, row, left, b, Carried, x);
    TotalAppend(s.dropped, row, Carried);
  }

  lemma DrainKeepsBalance(s: State, reply: Reply, x: Callback)
    requires QueueInv(s) && s.draining != [] && Balanced(s, x)
    ensures Balanced(SendOne(s, reply), x)
  {
    var row := s.draining[0];
    assert row in s.queue.rows;
    var a, b := SettleInPlace(s.queue, row, reply);
    RowMoves(s, SendOne(s, reply), a, row, Left(row, reply), b, x);
  }

  lemma MoveKeepsBalance(s: State, i: nat, phase: Phase, x: Callback)
    requires At(s, i)
    ensures Copies(Moved(s, i, phase), x) + Held(s.tasks[i])[x]
         == Copies(s, x) + Held(s.tasks[i].(phase := phase))[x]
  {
    TotalUpdate(s.tasks, i, s.tasks[i].(phase := phase), Held, x);
  }

  lemma RefusedPostKeepsBalance(s: State, i: nat, x: Callback)
    requires Balanced(s, x) && At(s, i) && s.tasks[i].phase.Posting?
    ensures Balanced(Next(s, Post(i, false)), x)
  {
    var moved := Moved(s, i, Ended);
    MoveKeepsBalance(s, i, Ended, x);
    InsertAdds(s.queue, ResultItem(s.tasks[i].phase.result), Carried);
    assert Next(s, Post(i, false)) == moved.(queue := Inserted(s.queue, [ResultItem(s.tasks[i].phase.result)]));
  }

  lemma AcceptedPostKeepsBalance(s: State, i: nat, x: Callback)
    requires Balanced(s, x) && At(s, i) && s.tasks[i].phase.Posting?
    ensures Balanced(Next(s, Post(i, true)), x)
  {
    MoveKeepsBalance(s, i, Ended, x);
  }

  lemma PostKeepsBalance(s: State, i: nat, ok: bool, x: Callback)
    requires Balanced(s, x)
    ensures Balanced(Next(s, Post(i, ok)), x)
  {
    if At(s, i) && s.tasks[i].phase.Posting? {
      if ok {
        AcceptedPostKeepsBalance(s, i, x);
      } else {
        RefusedPostKeepsBalance(s, i, x);
      }
    }
  }

  lemma ExecuteKeepsBalance(s: State, i: nat, result: Callback, x: Callback)
    requires Balanced(s, x)
    ensures Balanced(Next(s, Execute(i, result)), x)
  {
    if At(s, i) && s.tasks[i].phase.Executing? {
      MoveKeepsBalance(s, i, Acking(result), x);
    }
  }

  /** A move that changes nothing but where a task stands and what it has acknowledged. */
  lemma SilentMoveKeepsBalance(s: State, t: State, i: nat, phase: Phase, x: Callback)
    requires Balanced(s, x) && At(s, i) && Held(s.tasks[i]) == Held(s.tasks[i].(phase := phase))
    requires t == Moved(s, i, phase).(acked := t.acked)
    ensures Balanced(t, x)
  {
    MoveKeepsBalance(s, i, phase, x);
  }

  lemma SilentStepsKeepBalance(s: State, step: Step, x: Callback)
    requires Balanced(s, x) && (step.Announce? || step.Crash? || step.SendAck?)
    ensures Balanced(Next(s, step), x)
  {
    match step
    case Announce(i) =>
      if At(s, i) && s.tasks[i].phase.Announcing? { SilentMoveKeepsBalance(s, Next(s, step), i, Executing, x); }
    case Crash(i) =>
      if At(s, i) && s.tasks[i].phase.Executing? { SilentMoveKeepsBalance(s, Next(s, step), i, Ended, x); }
    case SendAck(i, sent) => AckKeepsBalance(s, i, sent, x);
  }

  lemma AckKeepsBalance(s: State, i: nat, sent: bool, x: Callback)
    requires Balanced(s, x)
    ensures Balanced(Next(s, SendAck(i, sent)), x)
  {
    if At(s, i) && s.tasks[i].phase.Acking? {
      SilentMoveKeepsBalance(s, Next(s, SendAck(i, sent)), i, Posting(s.tasks[i].phase.result), x);
    }
  }

  lemma ReceiveKeepsBalance(s: State, w: nat, e: string, x: Callback)
    requires Balanced(s, x)
    ensures Balanced(Next(s, Receive(w, e)), x)
  {
    TotalAppend(s.tasks, Task(w, e, Announcing), Held);
  }

  lemma SamplesKeepBalance(s: State, batch: seq<Sample>, x: Callback)
    requires Balanced(s, x)
    ensures Balanced(Next(s, QueueSamples(batch)), x)
  {
    InsertAdds(s.queue, Item(TELEMETRY, Samples(batch)), Carried);
  }

  lemma NextKeepsBalance(s: State, step: Step, x: Callback)
    requires QueueInv(s) && Balanced(s, x)
    ensures Balanced(Next(s, step), x)
  {
    if step.Post? {
      PostKeepsBalance(s, step.i, step.ok, x);
    } else if step.Execute? {
      ExecuteKeepsBalance(s, step.i, step.result, x);
    } else if step.Announce? || step.Crash? || step.SendAck? {
      SilentStepsKeepBalance(s, step, x);
    } else if step.Receive? {
      ReceiveKeepsBalance(s, step.socket, step.execution, x);
    } else if step.QueueSamples? {
      SamplesKeepBalance(s, step.batch, x);
    } else if step.DrainItem? && s.draining != [] {
      DrainKeepsBalance(s, step.reply, x);
    }
  }

  ghost predicate Inv(s: State) {
    TasksHonest(s) && QueueInv(s) && forall x :: Balanced(s, x)
  }

  lemma NextKeepsInv(s: State, step: Step)
    requires Inv(s)
    ensures Inv(Next(s, step))
  {
    NextKeepsHonest(s, step);
    NextKeepsQueue(s, step);
    forall x ensures Balanced(Next(s, step), x) { NextKeepsBalance(s, step, x); }
  }

  lemma {:induction false} RunKeepsInv(s: State, steps: seq<Step>)
    requires Inv(s)
    ensures Inv(Run(s, steps))
    decreases |steps|
  {
    if steps != [] {
      NextKeepsInv(s, steps[0]);
      RunKeepsInv(Next(s, steps[0]), steps[1..]);
    }
  }

  /** In every interleaving each finished execution's result is, exactly once, about
      to be posted, queued, answered with 2xx, or dropped with a row whose post had
      failed exactly ten times. */
  lemma ResultsAreConserved(steps: seq<Step>)
    ensures var s := Run(INIT, steps);
            && s.finished == Total(s.tasks, Held) + Total(s.queue.rows, Carried) + s.accepted
                + Total(s.dropped, Carried)
            && forall r :: r in s.dropped ==> s.failures[r.id] == MAX_ATTEMPTS
  {
    forall x ensures Balanced(INIT, x) {}
    RunKeepsInv(INIT, steps);
    var s := Run(INIT, steps);
    var all := Total(s.tasks, Held) + Total(s.queue.rows, Carried) + s.accepted + Total(s.dropped, Carried);
    forall x ensures all[x] == s.finished[x] {
      assert Balanced(s, x);
    }
  }

  /** The result whose post a step sees answered with success. */
  function Answered(s: State, step: Step): multiset<Callback> {
    match step
    case Post(i, ok) =>
      if i < |s.tasks| && s.tasks[i].phase.Posting? && ok then multiset{s.tasks[i].phase.result} else multiset{}
    case DrainItem(reply) =>
      if s.draining != [] && reply == Accepted && s.draining[0].item.kind == "callback"
         && s.draining[0].item.payload.Result?
      then multiset{s.draining[0].item.payload.callback} else multiset{}
    case _ => multiset{}
  }

  function AnsweredIn(s: State, steps: seq<Step>): multiset<Callback>
    decreases |steps|
  {
    if steps == [] then multiset{} else Answered(s, steps[0]) + AnsweredIn(Next(s, steps[0]), steps[1..])
  }

  /** The row whose post in a drain a step sees refused or raised. */
  function RefusedRow(s: State, step: Step): multiset<nat> {
    if step.DrainItem? && s.draining != [] && step.reply != Accepted
       && s.draining[0].item.kind in {"telemetry", "callback"}
    then multiset{s.draining[0].id} else multiset{}
  }

  function RefusedIn(s: State, steps: seq<Step>): multiset<nat>
    decreases |steps|
  {
    if steps == [] then multiset{} else RefusedRow(s, steps[0]) + RefusedIn(Next(s, steps[0]), steps[1..])
  }

  lemma StepBooksAccepted(s: State, step: Step)
    ensures Next(s, step).accepted == s.accepted + Answered(s, step)
  {}

  lemma StepBooksFailures(s: State, step: Step)
    ensures Next(s, step).failures == s.failures + RefusedRow(s, step)
  {}

  /** In every run the accepted results are exactly those whose posts were answered with
      success, and the failures of a row are exactly its refused or raised posts. */
  lemma {:induction false} BooksAreExact(s: State, steps: seq<Step>)
    ensures Run(s, steps).accepted == s.accepted + AnsweredIn(s, steps)
    ensures Run(s, steps).failures == s.failures + RefusedIn(s, steps)
    decreases |steps|
  {
    if steps != [] {
      StepBooksAccepted(s, steps[0]);
      StepBooksFailures(s, steps[0]);
      BooksAreExact(Next(s, steps[0]), steps[1..]);
    }
  }

  /** What a task does: it reports "running", executes, acknowledges what it executed if the
      message goes out, and posts the result, which is queued unless that is answered. */
  lemma TasksAdvance(s: State, i: nat, result: Callback, sent: bool, ok: bool)
    requires At(s, i)
    ensures s.tasks[i].phase == Announcing ==> Next(s, Announce(i)).tasks[i].phase == Executing
    ensures s.tasks[i].phase == Executing && result.execution == s.tasks[i].execution ==>
              var t := Next(s, Execute(i, result));
              t.tasks[i].phase == Acking(result) && result.execution in t.executed
              && t.finished == s.finished + multiset{result}
    ensures s.tasks[i].phase == Executing ==> Next(s, Crash(i)).tasks[i].phase == Ended
    ensures s.tasks[i].phase == Acking(result) ==>
              var t := Next(s, SendAck(i, sent));
              t.tasks[i].phase == Posting(result)
              && t.acked == s.acked + if sent then {(s.tasks[i].socket, s.tasks[i].execution)} else {}
    ensures s.tasks[i].phase == Posting(result) ==>
              var t := Next(s, Post(i, ok));
              t.tasks[i].phase == Ended
              && t.queue.rows == s.queue.rows
                 + if ok then [] else [Row(s.queue.nextId, Item("callback", Result(result)), 0)]
  {}

  /** A control message starts a task; samples are queued; a drain takes the oldest rows,
      fifty at most. */
  lemma OthersAdvance(s: State, w: nat, e: string, batch: seq<Sample>)
    ensures Next(s, Receive(w, e)).tasks == s.tasks + [Task(w, e, Announcing)]
    ensures Next(s, QueueSamples(batch)).queue.rows
         == s.queue.rows + [Row(s.queue.nextId, Item("telemetry", Samples(batch)), 0)]
    ensures s.draining == [] ==>
              Next(s, DrainStart).draining == if |s.queue.rows| <= 50 then s.queue.rows else s.queue.rows[..50]
  {}

  /** An item of a drain that was accepted leaves the queue; a refused or raised one stays
      with one more attempt, unless that is its tenth. */
  lemma ItemDecides(s: State, reply: Reply)
    requires QueueInv(s) && s.draining != [] && s.draining[0].item.kind in {"telemetry", "callback"}
    ensures var row, after := s.draining[0], Next(s, DrainItem(reply)).queue;
            if reply != Accepted && row.attempts < 9 then row.(attempts := row.attempts + 1) in after.rows
            else forall r :: r in after.rows ==> r.id != row.id
  {
    assert s.draining[0] in s.queue.rows;
    var a, b := SettleInPlace(s.queue, s.draining[0], reply);
  }

  // ---------------------------------------------------------------------------
  // The agent's code
  // ---------------------------------------------------------------------------

  /** How the awaits of one control message end: with an executor's result or an
      exception, with the acknowledgement sent or lost, with the post answered or not. */
  datatype Handling = Handling(result: Option<Callback>, ackSent: bool, posted: bool)

  predicate Moves(step: Step, i: nat) {
    (step.Announce? || step.Execute? || step.Crash? || step.SendAck? || step.Post?) && step.i == i
  }

  /** `tasks` stands for the local state of the running tasks, `draining` for that of
      the drain; the ghost fields record the past. */
  class Agent {
    var tasks: seq<Task>
    var acked: set<(nat, string)>
    var queue: Table<Payload>
    var draining: seq<Row<Payload>>
    ghost var executed: set<string>
    ghost var finished: multiset<Callback>
    ghost var accepted: multiset<Callback>
    ghost var dropped: seq<Row<Payload>>
    ghost var failures: multiset<nat>

    ghost function S(): State
      reads this
    {
      State(tasks, acked, queue, draining, executed, finished, accepted, dropped, failures)
    }

    constructor ()
      ensures S() == INIT
    {
      tasks, acked, queue, draining := [], {}, Table([], 1), [];
      executed, finished, accepted, dropped, failures := {}, multiset{}, multiset{}, [], multiset{};
    }

    method Move(i: nat, phase: Phase)
      requires i < |tasks|
      modifies this`tasks
      ensures S() == Moved(old(S()), i, phase)
    {
      tasks := tasks[i := tasks[i].(phase := phase)];
    }

    method Executed(i: nat, result: Callback)
      requires i < |tasks| && tasks[i].phase.Executing? && result.execution == tasks[i].execution
      modifies this
      ensures S() == Next(old(S()), Execute(i, result))
    {
      executed := executed + {result.execution};
      finished := finished + multiset{result};
      Move(i, Acking(result));
    }

    method Acknowledge(i: nat, sent: bool)
      requires i < |tasks| && tasks[i].phase.Acking?
      modifies this
      ensures S() == Next(old(S()), SendAck(i, sent))
    {
      if sent {
        acked := acked + {(tasks[i].socket, tasks[i].execution)};
      }
      Move(i, Posting(tasks[i].phase.result));
    }

    method Report(i: nat, ok: bool)
      requires i < |tasks| && tasks[i].phase.Posting?
      modifies this
      ensures S() == Next(old(S()), Post(i, ok))
    {
      var result := tasks[i].phase.result;
      if ok {
        accepted := accepted + multiset{result};
      } else {
        queue := Inserted(queue, [ResultItem(result)]);
      }
      Move(i, Ended);
    }

    method DrainNext(reply: Reply)
      modifies this
      ensures S() == Next(old(S()), DrainItem(reply))
    {
      if draining != [] {
        var row := draining[0];
        draining := draining[1..];
        queue := Settled(queue, row, reply);
        if Delivered(row, reply) {
          accepted := accepted + Carried(row);
        } else {
          failures := failures + multiset{row.id};
          if row.attempts + 1 >= MAX_ATTEMPTS {
            dropped := dropped + [row];
          }
        }
      }
    }

    method Do(step: Step)
      modifies this
      ensures S() == Next(old(S()), step)
    {
      match step {
        case Receive(w, e) => tasks := tasks + [Task(w, e, Announcing)];
        case Announce(i) => if i < |tasks| && tasks[i].phase.Announcing? { Move(i, Executing); }
        case Execute(i, result) =>
          if i < |tasks| && tasks[i].phase.Executing? && result.execution == tasks[i].execution { Executed(i, result); }
        case Crash(i) => if i < |tasks| && tasks[i].phase.Executing? { Move(i, Ended); }
        case SendAck(i, sent) => if i < |tasks| && tasks[i].phase.Acking? { Acknowledge(i, sent); }
        case Post(i, ok) => if i < |tasks| && tasks[i].phase.Posting? { Report(i, ok); }
        case QueueSamples(batch) => queue := Inserted(queue, [Item(TELEMETRY, Samples(batch))]);
        case DrainStart => if draining == [] { draining := queue.rows[..Batch(queue)]; }
        case DrainItem(reply) => DrainNext(reply);
      }
    }

    /** What other tasks do while task `me` is suspended. */
    method Meanwhile(steps: seq<Step>, ghost me: nat)
      requires Inv(S()) && me < |tasks| && Elsewhere(steps, me)
      modifies this
      ensures Inv(S()) && me < |tasks| && tasks[me] == old(tasks[me]) && old(acked) <= acked
      ensures S() == Run(old(S()), steps)
    {
      var i := 0;
      while i < |steps|
        invariant 0 <= i <= |steps|
        invariant Run(S(), steps[i..]) == Run(old(S()), steps)
        invariant Inv(S()) && me < |tasks| && tasks[me] == old(tasks[me]) && old(acked) <= acked
      {
        NextKeepsInv(S(), steps[i]);
        OthersLeaveTask(S(), steps[i], me);
        Do(steps[i]);
        assert steps[i..][1..] == steps[i + 1..];
        i := i + 1;
      }
    }

    /** A step of task `me` up to its next await, and what happens during that await. */
    method Proceed(phase: Phase, step: Step, steps: seq<Step>, me: nat)
      requires Inv(S()) && Moves(step, me) && Elsewhere(steps, me) && me < |tasks|
      requires Next(S(), step).tasks[me] == tasks[me].(phase := phase)
      modifies this
      ensures Inv(S()) && me < |tasks| && tasks[me] == old(tasks[me]).(phase := phase)
      ensures S() == Run(Next(old(S()), step), steps) && Next(old(S()), step).acked <= acked
    {
      NextKeepsInv(S(), step);
      Do(step);
      Meanwhile(steps, me);
    }

    /** A control message from receipt to end, with other tasks running at every await.
        If the executor ends normally, its result is executed before the acknowledgement
        goes out, and the task ends with the result answered or queued. */
    method HandleControl(w: nat, e: string, h: Handling, others: nat -> seq<Step>)
      requires Inv(S())
      requires h.result.Some? ==> h.result.value.execution == e
      requires forall n :: Elsewhere(others(n), |tasks|)
      modifies this
      ensures Inv(S()) && S() == Handled(old(S()), w, e, h, others)
      ensures |old(tasks)| < |tasks| && tasks[|old(tasks)|] == Task(w, e, Ended)
      ensures h.result.Some? && h.ackSent ==> (w, e) in acked && e in executed
      ensures h.result.Some? && !h.posted ==> exists r :: r in queue.rows && r.item == ResultItem(h.result.value)
      ensures h.result.Some? && h.posted ==> h.result.value in accepted
    {
      var me := |tasks|;
      Begin(w, e, others(0), others(1));
      match h.result {
        case None =>
          NextKeepsInv(S(), Crash(me));
          Do(Crash(me));
        case Some(result) =>
          Complete(w, result, h, others(2), others(3), me);
      }
    }

    method Begin(w: nat, e: string, others0: seq<Step>, others1: seq<Step>)
      requires Inv(S()) && Elsewhere(others0, |tasks|) && Elsewhere(others1, |tasks|)
      modifies this
      ensures Inv(S()) && |old(tasks)| < |tasks| && tasks[|old(tasks)|] == Task(w, e, Executing)
      ensures S() == Begun(old(S()), w, e, others0, others1)
    {
      var me := |tasks|;
      NextKeepsInv(S(), Receive(w, e));
      Do(Receive(w, e));
      Meanwhile(others0, me);
      Proceed(Executing, Announce(me), others1, me);
    }

    method Complete(w: nat, result: Callback, h: Handling, others2: seq<Step>, others3: seq<Step>, me: nat)
      requires Inv(S()) && me < |tasks| && tasks[me] == Task(w, result.execution, Executing)
      requires Elsewhere(others2, me) && Elsewhere(others3, me)
      modifies this
      ensures Inv(S()) && me < |tasks| && tasks[me] == Task(w, result.execution, Ended)
      ensures S() == Ending(old(S()), result, h, others2, others3, me)
      ensures h.ackSent ==> (w, result.execution) in acked && result.execution in executed
      ensures !h.posted ==> exists r :: r in queue.rows && r.item == ResultItem(result)
      ensures h.posted ==> result in accepted
    {
      Proceed(Acking(result), Execute(me, result), others2, me);
      Proceed(Posting(result), SendAck(me, h.ackSent), others3, me);
      FinishPost(w, result, h, me);
    }

    method FinishPost(w: nat, result: Callback, h: Handling, me: nat)
      requires Inv(S()) && me < |tasks| && tasks[me] == Task(w, result.execution, Posting(result))
      modifies this
      ensures Inv(S()) && S() == Next(old(S()), Post(me, h.posted))
      ensures me < |tasks| && tasks[me] == Task(w, result.execution, Ended) && acked == old(acked)
      ensures (w, result.execution) in acked ==> result.execution in executed
      ensures !h.posted ==> exists r :: r in queue.rows && r.item == ResultItem(result)
      ensures h.posted ==> result in accepted
    {
      NextKeepsInv(S(), Post(me, h.posted));
      Report(me, h.posted);
      if !h.posted {
        assert queue.rows[|queue.rows| - 1].item == ResultItem(result);
      }
    }
  }

  /** One control message as a run: what its task does, and what others do meanwhile. */
  function Handled(s: State, w: nat, e: string, h: Handling, others: nat -> seq<Step>): State {
    var me, begun := |s.tasks|, Begun(s, w, e, others(0), others(1));
    match h.result
    case None => Next(begun, Crash(me))
    case Some(result) => Ending(begun, result, h, others(2), others(3), me)
  }

  function Begun(s: State, w: nat, e: string, others0: seq<Step>, others1: seq<Step>): State {
    Run(Next(Run(Next(s, Receive(w, e)), others0), Announce(|s.tasks|)), others1)
  }

  function Ending(s: State, result: Callback, h: Handling, others2: seq<Step>, others3: seq<Step>, me: nat): State {
    Next(Run(Next(Run(Next(s, Execute(me, result)), others2), SendAck(me, h.ackSent)), others3), Post(me, h.posted))
  }

  ghost predicate Elsewhere(steps: seq<Step>, i: nat) {
    forall k :: 0 <= k < |steps| ==> !Moves(steps[k], i)
  }

  lemma OthersLeaveTask(s: State, step: Step, i: nat)
    requires i < |s.tasks| && !Moves(step, i)
    ensures i < |Next(s, step).tasks| && Next(s, step).tasks[i] == s.tasks[i]
    ensures s.acked <= Next(s, step).acked
  {}
}
