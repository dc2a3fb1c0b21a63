/** The gateway and the agents of its devices together.

    The network may deliver the messages of a socket in any order, repeat them and
    lose them, but invents none: an agent receives only what was sent on a socket of
    its device, and the gateway reads an acknowledgement only from a socket on which
    the agent sent it. Agents do not crash. */
module CommandPath {
  import opened Prelude
  import opened AgentData
  import G = Gateway
  import T = Tunnel

  /** `ingested` records the executions ever ingested, with the device they name. */
  datatype System = System(gateway: G.State, agents: map<string, T.State>, ingested: set<(string, Option<string>)>)

  datatype Step = Plane(g: G.Step) | Device(device: string, a: T.Step)

  const INIT := System(G.INIT, map[], {})

  function AgentOf(s: System, device: string): T.State {
    if device in s.agents then s.agents[device] else T.INIT
  }

  /** The agent behind a socket. */
  function Behind(s: System, w: nat): T.State
    requires w in s.gateway.sockets
  {
    AgentOf(s, s.gateway.sockets[w].device)
  }

  ghost predicate Enabled(s: System, step: Step) {
    match step
    case Plane(Ack(w, e)) => w in s.gateway.sockets && (w, e) in Behind(s, w).acked
    case Plane(_) => true
    case Device(d, Receive(w, e)) =>
      w in s.gateway.sockets && s.gateway.sockets[w].device == d
      && exists p :: p in s.gateway.sockets[w].sent && p.execution == e
    case Device(_, _) => true
  }

  ghost function Next(s: System, step: Step): System {
    if !Enabled(s, step) then s
    else
      match step
      case Plane(g) =>
        s.(gateway := G.Next(s.gateway, g),
           ingested := if g.Ingest? then s.ingested + {(g.dispatch.execution, g.dispatch.device)} else s.ingested)
      case Device(d, a) => s.(agents := s.agents[d := T.Next(AgentOf(s, d), a)])
  }

  ghost function Run(s: System, steps: seq<Step>): System
    decreases |steps|
  {
    if steps == [] then s else Run(Next(s, steps[0]), steps[1..])
  }

  // ---------------------------------------------------------------------------
  // Invariants
  // ---------------------------------------------------------------------------

  ghost predicate Pending(s: System, e: string) {
    exists p :: p in s.gateway.pending && p.execution == e
  }

  ghost predicate ExecutedSomewhere(s: System, e: string) {
    exists d :: e in AgentOf(s, d).executed
  }

  /** Whatever is no longer pending has been executed. */
  ghost predicate NothingForgotten(s: System) {
    forall e, d :: (e, d) in s.ingested ==> Pending(s, e) || ExecutedSomewhere(s, e)
  }

  /** Whatever is pending or was sent on a socket has been ingested. */
  ghost predicate SentWasIngested(s: System) {
    && (forall p :: p in s.gateway.pending ==> (p.execution, p.device) in s.ingested)
    && (forall w :: w in s.gateway.sockets ==> SocketWasIngested(s.gateway.sockets[w], s.ingested))
  }

  ghost predicate SocketWasIngested(k: G.Socket, ingested: set<(string, Option<string>)>) {
    && (forall p :: p in k.sent ==> (p.execution, p.device) in ingested)
    && (k.phase.Replaying? ==> forall p :: p in k.phase.todo ==> (p.execution, p.device) in ingested)
  }

  /** An agent works only on executions ingested for its device. */
  ghost predicate OwnWork(a: T.State, device: string, ingested: set<(string, Option<string>)>) {
    && (forall t :: t in a.tasks ==> (t.execution, Some(device)) in ingested)
    && (forall e :: e in a.executed ==> (e, Some(device)) in ingested)
  }

  ghost predicate Inv(s: System) {
    && G.Inv(s.gateway)
    && (forall d :: d in s.agents ==> T.Inv(s.agents[d]) && OwnWork(s.agents[d], d, s.ingested))
    && SentWasIngested(s)
    && NothingForgotten(s)
  }

  lemma NewAgentInv()
    ensures T.Inv(T.INIT)
  {
    forall x ensures T.Balanced(T.INIT, x) {}
  }

  lemma IngestKeepsSent(s: System, g: G.Step)
    requires SentWasIngested(s) && Enabled(s, Plane(g))
    ensures SentWasIngested(Next(s, Plane(g)))
  {
    var t := Next(s, Plane(g));
    forall w | w in t.gateway.sockets ensures SocketWasIngested(t.gateway.sockets[w], t.ingested) {
      assert w in s.gateway.sockets ==> SocketWasIngested(s.gateway.sockets[w], s.ingested);
    }
  }

  lemma PlaneForgetsNothing(s: System, g: G.Step, e: string, d: Option<string>)
    requires Inv(s) && Enabled(s, Plane(g)) && (e, d) in Next(s, Plane(g)).ingested
    ensures Pending(Next(s, Plane(g)), e) || ExecutedSomewhere(Next(s, Plane(g)), e)
  {
    var t := Next(s, Plane(g));
    if g.Ack? && e == g.execution {
      NewAgentInv();
      assert T.TasksHonest(Behind(s, g.socket));
      assert (g.socket, e) in Behind(s, g.socket).acked;
      assert e in AgentOf(t, s.gateway.sockets[g.socket].device).executed;
    } else if g.Ingest? && e == g.dispatch.execution {
      assert g.dispatch in t.gateway.pending;
    } else if ExecutedSomewhere(s, e) {
      var x :| e in AgentOf(s, x).executed;
      assert e in AgentOf(t, x).executed;
    } else {
      var p :| p in s.gateway.pending && p.execution == e;
      assert p in t.gateway.pending;
    }
  }

  lemma OwnWorkGrows(a: T.State, device: string, before: set<(string, Option<string>)>,
      after: set<(string, Option<string>)>)
    requires OwnWork(a, device, before) && before <= after
    ensures OwnWork(a, device, after)
  {}

  lemma PlaneKeepsInv(s: System, g: G.Step)
    requires Inv(s) && Enabled(s, Plane(g))
    ensures Inv(Next(s, Plane(g)))
  {
    var t := Next(s, Plane(g));
    G.NextKeepsInv(s.gateway, g);
    IngestKeepsSent(s, g);
    forall d | d in t.agents ensures T.Inv(t.agents[d]) && OwnWork(t.agents[d], d, t.ingested) {
      OwnWorkGrows(s.agents[d], d, s.ingested, t.ingested);
    }
    forall e, d | (e, d) in t.ingested ensures Pending(t, e) || ExecutedSomewhere(t, e) {
      PlaneForgetsNothing(s, g, e, d);
    }
  }

  lemma AgentKeepsOwnWork(a: T.State, step: T.Step, device: string, ingested: set<(string, Option<string>)>)
    requires OwnWork(a, device, ingested)
    requires step.Receive? ==> (step.execution, Some(device)) in ingested
    ensures OwnWork(T.Next(a, step), device, ingested)
  {
    var b := T.Next(a, step);
    forall t | t in b.tasks ensures (t.execution, Some(device)) in ingested {
      var j :| 0 <= j < |b.tasks| && b.tasks[j] == t;
      TasksKeepExecutions(a, step, j);
      assert j < |a.tasks| ==> a.tasks[j] in a.tasks;
    }
    forall e | e in b.executed ensures (e, Some(device)) in ingested {
      if e !in a.executed {
        assert a.tasks[step.i] in a.tasks;
      }
    }
  }

  lemma TasksKeepExecutions(a: T.State, step: T.Step, j: nat)
    requires j < |T.Next(a, step).tasks|
    ensures j < |a.tasks| ==> T.Next(a, step).tasks[j].execution == a.tasks[j].execution
    ensures j >= |a.tasks| ==> step.Receive? && T.Next(a, step).tasks[j].execution == step.execution
  {}

  lemma ExecutedGrows(a: T.State, step: T.Step)
    ensures a.executed <= T.Next(a, step).executed
  {}

  lemma DeviceForgetsNothing(s: System, d: string, a: T.Step, e: string)
    requires Enabled(s, Device(d, a)) && (Pending(s, e) || ExecutedSomewhere(s, e))
    ensures Pending(Next(s, Device(d, a)), e) || ExecutedSomewhere(Next(s, Device(d, a)), e)
  {
    var t := Next(s, Device(d, a));
    if ExecutedSomewhere(s, e) {
      var y :| e in AgentOf(s, y).executed;
      ExecutedGrows(AgentOf(s, d), a);
      assert e in AgentOf(t, y).executed;
    } else {
      var p :| p in s.gateway.pending && p.execution == e;
      assert p in t.gateway.pending;
    }
  }

  lemma AgentKeepsInv(s: System, d: string, a: T.Step)
    requires Inv(s) && Enabled(s, Device(d, a))
    ensures T.Inv(T.Next(AgentOf(s, d), a)) && OwnWork(T.Next(AgentOf(s, d), a), d, s.ingested)
  {
    NewAgentInv();
    T.NextKeepsInv(AgentOf(s, d), a);
    if a.Receive? {
      var p :| p in s.gateway.sockets[a.socket].sent && p.execution == a.execution;
      assert G.OwnOnly(s.gateway.sockets[a.socket]);
      assert SocketWasIngested(s.gateway.sockets[a.socket], s.ingested);
    }
    AgentKeepsOwnWork(AgentOf(s, d), a, d, s.ingested);
  }

  lemma DeviceKeepsInv(s: System, d: string, a: T.Step)
    requires Inv(s) && Enabled(s, Device(d, a))
    ensures Inv(Next(s, Device(d, a)))
  {
    var t := Next(s, Device(d, a));
    AgentKeepsInv(s, d, a);
    forall x | x in t.agents ensures T.Inv(t.agents[x]) && OwnWork(t.agents[x], x, t.ingested) {
      assert x != d ==> t.agents[x] == s.agents[x];
    }
    forall e, x | (e, x) in t.ingested ensures Pending(t, e) || ExecutedSomewhere(t, e) {
      DeviceForgetsNothing(s, d, a, e);
    }
  }

  lemma {:induction false} RunKeepsInv(s: System, steps: seq<Step>)
    requires Inv(s)
    ensures Inv(Run(s, steps))
    decreases |steps|
  {
    if steps != [] {
      if Enabled(s, steps[0]) {
        match steps[0]
        case Plane(g) => PlaneKeepsInv(s, g);
        case Device(d, a) => DeviceKeepsInv(s, d, a);
      }
      RunKeepsInv(Next(s, steps[0]), steps[1..]);
    }
  }

  // ---------------------------------------------------------------------------
  // Main results
  // ---------------------------------------------------------------------------

  /** In every run an ingested execution that is no longer pending was executed to
      completion by some agent, and agents execute only what was ingested for them. */
  lemma AcknowledgedMeansExecuted(steps: seq<Step>, e: string, device: Option<string>)
    ensures var s := Run(INIT, steps);
            (e, device) in s.ingested ==> Pending(s, e) || ExecutedSomewhere(s, e)
    ensures var s := Run(INIT, steps);
            forall d :: e in AgentOf(s, d).executed ==> (e, Some(d)) in s.ingested
  {
    RunKeepsInv(INIT, steps);
    var s := Run(INIT, steps);
    forall d | e in AgentOf(s, d).executed ensures (e, Some(d)) in s.ingested {
      assert d in s.agents && OwnWork(s.agents[d], d, s.ingested);
    }
  }

  /** When an execution is ingested for one device only, it is that device's agent. */
  lemma ExecutedByItsDevice(steps: seq<Step>, e: string, device: string)
    ensures var s := Run(INIT, steps);
            (e, Some(device)) in s.ingested && !Pending(s, e)
            && (forall d :: (e, d) in s.ingested ==> d == Some(device)) ==>
              e in AgentOf(s, device).executed
  {
    AcknowledgedMeansExecuted(steps, e, Some(device));
  }

  /** In every run each result of each agent is accounted for, every copy of it: held by
      its task for the post, queued, answered with 2xx, or dropped after its row had failed
      ten times. An ingested execution that is no longer pending has such a result. */
  lemma ResultsAccountedFor(steps: seq<Step>, e: string, device: Option<string>)
    ensures var s := Run(INIT, steps);
            forall d, x :: x in AgentOf(s, d).finished ==> AccountedFor(AgentOf(s, d), x)
    ensures var s := Run(INIT, steps);
            (e, device) in s.ingested && !Pending(s, e) ==>
              exists d, x :: x in AgentOf(s, d).finished && x.execution == e
  {
    RunKeepsInv(INIT, steps);
    NewAgentInv();
    var s := Run(INIT, steps);
    forall d, x | x in AgentOf(s, d).finished ensures AccountedFor(AgentOf(s, d), x) {
      assert T.Inv(AgentOf(s, d)) && T.Balanced(AgentOf(s, d), x);
    }
    if (e, device) in s.ingested && !Pending(s, e) {
      assert ExecutedSomewhere(s, e);
      var d :| e in AgentOf(s, d).executed;
      assert T.Inv(AgentOf(s, d)) && T.HasResult(AgentOf(s, d), e);
    }
  }

  ghost predicate AccountedFor(a: T.State, x: Callback) {
    && T.Copies(a, x) == a.finished[x]
    && forall r :: r in a.dropped ==> a.failures[r.id] == 10
  }
}
