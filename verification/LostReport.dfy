/** An agent that posts to the execution service: what becomes of a result when the early
    "running" report of its execution was lost.

    The agent is one of any number; what the others and the operators do are steps of the
    service. A post may be lost on its way or its answer may be, so it may change the
    service's row without counting as accepted, but never the other way round. */
module LostReport {
  import opened Prelude
  import opened AgentData
  import Bags
  import Q = OfflineQueue
  import Drains
  import T = Tunnel
  import E = Executions

  datatype System = System(agent: T.State, store: E.Table)

  /** `landed` tells whether the post of the agent's step, if it makes one, arrives. */
  datatype Step = Agent(a: T.Step, landed: bool, now: int) | Service(e: E.Step)

  /** The result a step of the agent posts. */
  function Posted(a: T.State, step: T.Step): Option<Callback> {
    match step
    case Post(i, _) => if T.At(a, i) && a.tasks[i].phase.Posting? then Some(a.tasks[i].phase.result) else None
    case DrainItem(_) =>
      if a.draining != [] && T.Carried(a.draining[0]) != multiset{}
      then Some(a.draining[0].item.payload.callback) else None
    case _ => None
  }

  /** The agent takes the answer for an acceptance. */
  predicate Acknowledged(step: T.Step) {
    (step.Post? && step.ok) || (step.DrainItem? && step.reply.Accepted?)
  }

  function StatusOf(text: string): E.StatusField {
    if text == "" then E.NoStatus
    else if text == "queued" then E.Valid(E.Queued)
    else if text == "dispatched" then E.Valid(E.Dispatched)
    else if text == "running" then E.Valid(E.Running)
    else if text == "succeeded" then E.Valid(E.Succeeded)
    else if text == "failed" then E.Valid(E.Failed)
    else if text == "timeout" then E.Valid(E.Timeout)
    else if text == "cancelled" then E.Valid(E.Cancelled)
    else E.Invalid(text)
  }

  function TextField(s: Option<string>): E.Field<string> {
    if E.Truthy(s) then E.Given(s) else E.Missing
  }

  /** The body the agent sends. It has no callback key, which is accepted only where no
      secret is configured. */
  function BodyOf(c: Callback, keyless: bool): E.CallbackBody {
    E.CallbackBody(false, StatusOf(c.status), keyless, if c.exitCode.Some? then E.Given(c.exitCode) else E.Missing,
                   TextField(c.stdout), TextField(c.stderr), E.Missing)
  }

  /** What a step does to the service. */
  function Effect(s: System, step: Step, keyless: bool): Option<E.Step> {
    match step
    case Service(e) => Some(e)
    case Agent(a, landed, now) =>
      var c := Posted(s.agent, a);
      if c.Some? && landed then Some(E.Callback(c.value.execution, BodyOf(c.value, keyless), now)) else None
  }

  /** A post is acknowledged only if it arrived and the service accepted it. */
  predicate Enabled(s: System, step: Step, keyless: bool) {
    step.Agent? && Acknowledged(step.a) && Posted(s.agent, step.a).Some? ==>
      var c := Posted(s.agent, step.a).value;
      step.landed && E.CallbackError(s.store, c.execution, BodyOf(c, keyless)).None?
  }

  function Next(settings: E.Settings, s: System, step: Step, keyless: bool): System {
    if !Enabled(s, step, keyless) then s
    else
      var effect := Effect(s, step, keyless);
      System(if step.Agent? then T.Next(s.agent, step.a) else s.agent,
             if effect.Some? then E.Next(settings, s.store, effect.value) else s.store)
  }

  function Run(settings: E.Settings, s: System, steps: seq<Step>, keyless: bool): System
    decreases |steps|
  {
    if steps == [] then s else Run(settings, Next(settings, s, steps[0], keyless), steps[1..], keyless)
  }

  /** No report that execution `e` is running arrives, and nobody deletes its row. */
  ghost predicate Unannounced(settings: E.Settings, s: System, steps: seq<Step>, keyless: bool, e: string)
    decreases |steps|
  {
    steps != [] ==>
      && Silent(Effect(s, steps[0], keyless), e)
      && Unannounced(settings, Next(settings, s, steps[0], keyless), steps[1..], keyless, e)
  }

  predicate Silent(effect: Option<E.Step>, e: string) {
    effect.Some? ==> !E.ReportsRunning(effect.value, e) && effect.value != E.Delete(e)
  }

  /** The row waits for a report that it runs, and no success was accepted. */
  ghost predicate Waiting(s: System, e: string) {
    && T.Inv(s.agent)
    && e in s.store && !s.store[e].status.Running? && !s.store[e].status.Succeeded?
    && forall x: Callback :: x.execution == e && x.status == "succeeded" ==> s.agent.accepted[x] == 0
  }

  /** Only an acknowledged post adds to the accepted results, and only what it posts. */
  lemma AcceptedIsAcknowledged(a: T.State, step: T.Step, x: Callback)
    requires T.Next(a, step).accepted[x] > a.accepted[x]
    ensures Acknowledged(step) && Posted(a, step) == Some(x)
  {}

  lemma NextKeepsWaiting(settings: E.Settings, s: System, step: Step, keyless: bool, e: string)
    requires Waiting(s, e) && Silent(Effect(s, step, keyless), e)
    ensures Waiting(Next(settings, s, step, keyless), e)
  {
    var t := Next(settings, s, step, keyless);
    if Enabled(s, step, keyless) {
      StoreWaits(settings, s.store, Effect(s, step, keyless), e);
      if step.Agent? {
        T.NextKeepsInv(s.agent, step.a);
        forall x: Callback | x.execution == e && x.status == "succeeded" ensures t.agent.accepted[x] == 0 {
          SuccessIsRefused(s, step, keyless, x);
        }
      }
    }
  }

  lemma StoreWaits(settings: E.Settings, store: E.Table, effect: Option<E.Step>, e: string)
    requires e in store && !store[e].status.Running? && !store[e].status.Succeeded? && Silent(effect, e)
    ensures effect.Some? ==>
              var u := E.Next(settings, store, effect.value); e in u && !u[e].status.Running? && !u[e].status.Succeeded?
  {
    if effect.Some? {
      var steps := [effect.value];
      E.NeverRunning(settings, store, steps, e);
      assert E.Run(settings, store, steps) == E.Next(settings, store, effect.value) by { assert steps[1..] == []; }
    }
  }

  /** A report of success is answered 409 while the row waits. */
  lemma SuccessIsRefused(s: System, step: Step, keyless: bool, x: Callback)
    requires Waiting(s, x.execution) && x.status == "succeeded" && step.Agent? && Enabled(s, step, keyless)
    ensures T.Next(s.agent, step.a).accepted[x] == 0
  {
    if T.Next(s.agent, step.a).accepted[x] > 0 {
      AcceptedIsAcknowledged(s.agent, step.a, x);
      assert false;
    }
  }

  lemma {:induction false} RunKeepsWaiting(settings: E.Settings, s: System, steps: seq<Step>, keyless: bool, e: string)
    requires Waiting(s, e) && Unannounced(settings, s, steps, keyless, e)
    ensures Waiting(Run(settings, s, steps, keyless), e)
    decreases |steps|
  {
    if steps != [] {
      NextKeepsWaiting(settings, s, steps[0], keyless, e);
      RunKeepsWaiting(settings, Next(settings, s, steps[0], keyless), steps[1..], keyless, e);
    }
  }

  /** When no report that execution `e` is running arrives, a successful result of it is
      never accepted and its row never reads succeeded, whatever else happens and however
      often the agent posts. Every copy of the result is still held, still queued, or was
      dropped with a row whose post had failed exactly ten times. */
  lemma LostReportLosesSuccess(settings: E.Settings, store: E.Table, steps: seq<Step>, keyless: bool, x: Callback)
    requires x.execution in store && x.status == "succeeded"
    requires !store[x.execution].status.Running? && !store[x.execution].status.Succeeded?
    requires Unannounced(settings, System(T.INIT, store), steps, keyless, x.execution)
    ensures var s := Run(settings, System(T.INIT, store), steps, keyless); var a := s.agent;
            && x.execution in s.store && !s.store[x.execution].status.Succeeded?
            && a.accepted[x] == 0
            && a.finished[x] == Bags.Total(a.tasks, T.Held)[x] + Bags.Total(a.queue.rows, T.Carried)[x]
                + Bags.Total(a.dropped, T.Carried)[x]
            && (forall r :: r in a.dropped ==> a.failures[r.id] == 10)
            && E.CallbackError(s.store, x.execution, BodyOf(x, true)) == Some(409)
  {
    forall y ensures T.Balanced(T.INIT, y) {}
    RunKeepsWaiting(settings, System(T.INIT, store), steps, keyless, x.execution);
    WaitingMeans(Run(settings, System(T.INIT, store), steps, keyless), x);
  }

  lemma WaitingMeans(s: System, x: Callback)
    requires Waiting(s, x.execution) && x.status == "succeeded"
    ensures var a := s.agent;
            && a.accepted[x] == 0
            && a.finished[x] == Bags.Total(a.tasks, T.Held)[x] + Bags.Total(a.queue.rows, T.Carried)[x]
                + Bags.Total(a.dropped, T.Carried)[x]
            && (forall r :: r in a.dropped ==> a.failures[r.id] == 10)
            && E.CallbackError(s.store, x.execution, BodyOf(x, true)) == Some(409)
  {
    assert T.Balanced(s.agent, x);
    SuccessGets409(s.store, x);
  }

  lemma SuccessGets409(store: E.Table, x: Callback)
    requires x.execution in store && !store[x.execution].status.Running? && x.status == "succeeded"
    ensures E.CallbackError(store, x.execution, BodyOf(x, true)) == Some(409)
  {
    assert StatusOf(x.status) == E.Valid(E.Succeeded);
  }

  // ---------------------------------------------------------------------------
  // How long it takes
  // ---------------------------------------------------------------------------

  /** The steps the agent takes in a run. */
  function AgentSteps(settings: E.Settings, s: System, steps: seq<Step>, keyless: bool): seq<T.Step>
    decreases |steps|
  {
    if steps == [] then []
    else
      (if steps[0].Agent? && Enabled(s, steps[0], keyless) then [steps[0].a] else [])
      + AgentSteps(settings, Next(settings, s, steps[0], keyless), steps[1..], keyless)
  }

  lemma {:induction false} AgentRuns(settings: E.Settings, s: System, steps: seq<Step>, keyless: bool)
    ensures Run(settings, s, steps, keyless).agent == T.Run(s.agent, AgentSteps(settings, s, steps, keyless))
    decreases |steps|
  {
    if steps != [] {
      var u := Next(settings, s, steps[0], keyless);
      AgentRuns(settings, u, steps[1..], keyless);
      var rest := AgentSteps(settings, u, steps[1..], keyless);
      if steps[0].Agent? && Enabled(s, steps[0], keyless) {
        assert ([steps[0].a] + rest)[1..] == rest;
      } else {
        assert [] + rest == rest;
      }
    }
  }

  predicate Carries(r: Q.Row<Payload>, id: nat, x: Callback) {
    r.id == id && r.item == T.ResultItem(x)
  }

  /** The row is queued, or it was dropped. */
  ghost predicate Kept(a: T.State, id: nat, x: Callback) {
    (exists r :: r in a.queue.rows && Carries(r, id, x)) || (exists r :: r in a.dropped && Carries(r, id, x))
  }

  /** Only an accepted post takes a row out of both. */
  lemma StepKeepsRow(a: T.State, step: T.Step, id: nat, x: Callback)
    requires T.QueueInv(a) && Kept(a, id, x) && T.Next(a, step).accepted[x] == 0
    ensures Kept(T.Next(a, step), id, x)
  {
    var b := T.Next(a, step);
    if r :| r in a.dropped && Carries(r, id, x) {
      assert r in b.dropped;
    } else {
      var r :| r in a.queue.rows && Carries(r, id, x);
      if step.DrainItem? && a.draining != [] {
        ItemKeepsRow(a, step.reply, r, id, x);
      } else {
        Drains.QueueMoves(a, step);
        if item :| b.queue == Q.Inserted(a.queue, [item]) {
          Drains.InsertedRow(a.queue, item);
        }
        assert r in b.queue.rows;
      }
    }
  }

  lemma ItemKeepsRow(a: T.State, reply: Q.Reply, r: Q.Row<Payload>, id: nat, x: Callback)
    requires T.QueueInv(a) && a.draining != [] && r in a.queue.rows && Carries(r, id, x)
    requires T.SendOne(a, reply).accepted[x] == 0
    ensures Kept(T.SendOne(a, reply), id, x)
  {
    var b, row := T.SendOne(a, reply), a.draining[0];
    assert row in a.queue.rows;
    var front, back := Q.SettleInPlace(a.queue, row, reply);
    if r.id != row.id {
      assert r in front || r in back;
      assert r in b.queue.rows;
    } else {
      SameId(a.queue, r, row);
      assert !Q.Delivered(row, reply);
      if row.attempts + 1 >= 10 {
        assert row in b.dropped;
      } else {
        var up := row.(attempts := row.attempts + 1);
        assert up in Q.Left(row, reply) && Carries(up, id, x);
        assert up in b.queue.rows;
      }
    }
  }

  lemma SameId(t: Q.Table<Payload>, r: Q.Row<Payload>, s: Q.Row<Payload>)
    requires Q.Valid(t) && r in t.rows && s in t.rows && r.id == s.id
    ensures r == s
  {
    var i :| 0 <= i < |t.rows| && t.rows[i] == r;
    var j :| 0 <= j < |t.rows| && t.rows[j] == s;
    assert i == j;
  }

  lemma {:induction false} RunKeepsRow(settings: E.Settings, s: System, steps: seq<Step>, keyless: bool, id: nat,
      x: Callback)
    requires Waiting(s, x.execution) && Unannounced(settings, s, steps, keyless, x.execution)
    requires x.status == "succeeded" && Kept(s.agent, id, x)
    ensures Kept(Run(settings, s, steps, keyless).agent, id, x)
    decreases |steps|
  {
    if steps != [] {
      var u := Next(settings, s, steps[0], keyless);
      NextKeepsWaiting(settings, s, steps[0], keyless, x.execution);
      if steps[0].Agent? && Enabled(s, steps[0], keyless) {
        StepKeepsRow(s.agent, steps[0].a, id, x);
      }
      RunKeepsRow(settings, u, steps[1..], keyless, id, x);
    }
  }

  /** In the same runs: when such a result is queued with at most `r` rows in front of it
      and no drain is under way, then once 10 * (r / 50 + 1) further drains are complete,
      whatever interrupts them, its row was dropped after exactly ten failed posts. */
  lemma LostSuccessIsDropped(
    settings: E.Settings, store: E.Table, before: seq<Step>, after: seq<Step>, keyless: bool, x: Callback,
    id: nat, r: nat)
    requires x.execution in store && x.status == "succeeded"
    requires !store[x.execution].status.Running? && !store[x.execution].status.Succeeded?
    requires Unannounced(settings, System(T.INIT, store), before, keyless, x.execution)
    requires var s := Run(settings, System(T.INIT, store), before, keyless);
             && Unannounced(settings, s, after, keyless, x.execution)
             && s.agent.draining == [] && Q.CountIn(s.agent.queue.rows, 0, id) <= r
             && (exists row :: row in s.agent.queue.rows && Carries(row, id, x))
             && 10 * (r / 50 + 1) <= Drains.Finished(s.agent, AgentSteps(settings, s, after, keyless))
    ensures var a := Run(settings, Run(settings, System(T.INIT, store), before, keyless), after, keyless).agent;
            && !Q.Present(a.queue, id) && a.accepted[x] == 0 && a.failures[id] == 10
            && exists row :: row in a.dropped && Carries(row, id, x)
  {
    forall y ensures T.Balanced(T.INIT, y) {}
    RunKeepsWaiting(settings, System(T.INIT, store), before, keyless, x.execution);
    var s := Run(settings, System(T.INIT, store), before, keyless);
    DropsFrom(settings, s, after, keyless, x, id, r);
  }

  lemma DropsFrom(settings: E.Settings, s: System, steps: seq<Step>, keyless: bool, x: Callback, id: nat, r: nat)
    requires Waiting(s, x.execution) && x.status == "succeeded" && Unannounced(settings, s, steps, keyless, x.execution)
    requires s.agent.draining == [] && Q.CountIn(s.agent.queue.rows, 0, id) <= r
    requires exists row :: row in s.agent.queue.rows && Carries(row, id, x)
    requires 10 * (r / 50 + 1) <= Drains.Finished(s.agent, AgentSteps(settings, s, steps, keyless))
    ensures var a := Run(settings, s, steps, keyless).agent;
            && !Q.Present(a.queue, id) && a.accepted[x] == 0 && a.failures[id] == 10
            && exists row :: row in a.dropped && Carries(row, id, x)
  {
    var row :| row in s.agent.queue.rows && Carries(row, id, x);
    assert id < s.agent.queue.nextId;
    Drains.FairDrains(s.agent, AgentSteps(settings, s, steps, keyless), id, r);
    AgentRuns(settings, s, steps, keyless);
    RunKeepsWaiting(settings, s, steps, keyless, x.execution);
    RunKeepsRow(settings, s, steps, keyless, id, x);
    var a := Run(settings, s, steps, keyless).agent;
    GoneWasDropped(a, id, x);
  }

  lemma GoneWasDropped(a: T.State, id: nat, x: Callback)
    requires T.QueueInv(a) && Kept(a, id, x) && !Q.Present(a.queue, id)
    ensures a.failures[id] == 10 && exists row :: row in a.dropped && Carries(row, id, x)
  {}
}
