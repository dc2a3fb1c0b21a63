/** The gateway's dispatch plane with its in-memory store.

    A handler runs without interruption between two awaits that really suspend, so
    it is cut into steps there: a Kafka message is stored and pushed in one step, a
    websocket handler registers, takes its replay snapshot, and then sends one
    dispatch per step before it starts to read acknowledgements. Registration and
    snapshot are kept apart although nothing suspends between them, which only adds
    interleavings. */
module Gateway {
  import opened Prelude

  /** `device` is absent when the event names none. */
  datatype Dispatch = Dispatch(
    execution: string, device: Option<string>, event: string, receivedAt: int, attempts: nat, lastError: string)

  /** Where a websocket handler stands. */
  datatype Phase = Registered | Replaying(todo: seq<Dispatch>) | Listening | Closed

  /** `sent` lists the dispatches handed to the socket's `send_json`, oldest first. */
  datatype Socket = Socket(device: string, phase: Phase, sent: seq<Dispatch>)

  /** `pending` is the dispatch dictionary in insertion order, `routes` the
      dictionary from device to the socket pushed to. */
  datatype State = State(pending: seq<Dispatch>, routes: map<string, nat>, sockets: map<nat, Socket>)

  datatype Step =
    | Ingest(dispatch: Dispatch)
    | Accept(socket: nat, device: string)
    | BeginReplay(socket: nat)
    | ReplayNext(socket: nat)
    | Ack(socket: nat, execution: string)
    | Close(socket: nat)

  const INIT := State([], map[], map[])

  // ---------------------------------------------------------------------------
  // The dispatch dictionary
  // ---------------------------------------------------------------------------

  /** dict[execution] = dispatch: an existing key keeps its place. */
  function Put(pending: seq<Dispatch>, d: Dispatch): (r: seq<Dispatch>)
    ensures forall p :: p in r <==> p == d || (p in pending && p.execution != d.execution)
  {
    if pending == [] then [d]
    else if pending[0].execution == d.execution then [d] + Drop(pending[1..], d.execution)  // keys are unique
    else [pending[0]] + Put(pending[1..], d)
  }

  function Drop(pending: seq<Dispatch>, execution: string): (r: seq<Dispatch>)
    ensures forall p :: p in r <==> p in pending && p.execution != execution
  {
    if pending == [] then []
    else (if pending[0].execution == execution then [] else [pending[0]]) + Drop(pending[1..], execution)
  }

  function ForDevice(pending: seq<Dispatch>, device: string): (r: seq<Dispatch>)
    ensures forall p :: p in r <==> p in pending && p.device == Some(device)
  {
    if pending == [] then []
    else (if pending[0].device == Some(device) then [pending[0]] else []) + ForDevice(pending[1..], device)
  }

  // ---------------------------------------------------------------------------
  // The steps
  // ---------------------------------------------------------------------------

  function Push(s: State, w: nat, d: Dispatch): State
    requires w in s.sockets
  {
    s.(sockets := s.sockets[w := s.sockets[w].(sent := s.sockets[w].sent + [d])])
  }

  /** A device name counts only when it is not empty. */
  predicate Routed(s: State, device: Option<string>) {
    device.Some? && device.value != "" && device.value in s.routes && s.routes[device.value] in s.sockets
  }

  /** A step whose handler does not exist or stands elsewhere does nothing. */
  function Next(s: State, step: Step): State {
    match step
    case Ingest(d) =>
      var stored := s.(pending := Put(s.pending, d));
      if Routed(s, d.device) then Push(stored, s.routes[d.device.value], d) else stored
    case Accept(w, device) =>
      if w in s.sockets || device == "" then s
      else s.(routes := s.routes[device := w], sockets := s.sockets[w := Socket(device, Registered, [])])
    case BeginReplay(w) =>
      if w in s.sockets && s.sockets[w].phase.Registered? then
        s.(sockets := s.sockets[w := s.sockets[w].(phase := Replaying(ForDevice(s.pending, s.sockets[w].device)))])
      else s
    case ReplayNext(w) =>
      if w in s.sockets && s.sockets[w].phase.Replaying? then
        var todo := s.sockets[w].phase.todo;
        if todo == [] then s.(sockets := s.sockets[w := s.sockets[w].(phase := Listening)])
        else
          s.(sockets := s.sockets[
            w := s.sockets[w].(phase := Replaying(todo[1..]), sent := s.sockets[w].sent + [todo[0]])])
      else s
    case Ack(w, execution) =>
      if w in s.sockets && s.sockets[w].phase.Listening? && execution != "" then
        s.(pending := Drop(s.pending, execution))
      else s
    case Close(w) =>
      if w in s.sockets && s.sockets[w].phase.Listening? then
        s.(routes := s.routes - {s.sockets[w].device}, sockets := s.sockets[w := s.sockets[w].(phase := Closed)])
      else s
  }

  function Run(s: State, steps: seq<Step>): State
    decreases |steps|
  {
    if steps == [] then s else Run(Next(s, steps[0]), steps[1..])
  }

  // ---------------------------------------------------------------------------
  // No missed push
  // ---------------------------------------------------------------------------

  /** The dispatch was handed to the socket, or its replay is about to send it, or
      has not looked yet. */
  predicate Reaches(k: Socket, p: Dispatch) {
    k.phase.Registered? || p in k.sent || (k.phase.Replaying? && p in k.phase.todo)
  }

  ghost predicate Covered(s: State, w: nat)
    requires w in s.sockets
  {
    forall p :: p in s.pending && p.device == Some(s.sockets[w].device) ==> Reaches(s.sockets[w], p)
  }

  /** A socket is only ever handed its own device's dispatches. */
  ghost predicate OwnOnly(k: Socket) {
    && (forall p :: p in k.sent ==> p.device == Some(k.device))
    && (k.phase.Replaying? ==> forall p :: p in k.phase.todo ==> p.device == Some(k.device))
  }

  ghost predicate RoutesOpen(s: State) {
    && "" !in s.routes
    && forall d :: d in s.routes ==>
         && s.routes[d] in s.sockets
         && s.sockets[s.routes[d]].device == d
         && !s.sockets[s.routes[d]].phase.Closed?
  }

  ghost predicate Inv(s: State) {
    && RoutesOpen(s)
    && (forall d :: d in s.routes ==> Covered(s, s.routes[d]))
    && (forall w :: w in s.sockets ==> OwnOnly(s.sockets[w]))
  }

  lemma NextKeepsRoutes(s: State, step: Step)
    requires RoutesOpen(s)
    ensures RoutesOpen(Next(s, step))
  {}

  lemma NextKeepsCovered(s: State, step: Step, d: string)
    requires RoutesOpen(s) && d in Next(s, step).routes && RoutesOpen(Next(s, step))
    requires d in s.routes ==> Covered(s, s.routes[d])
    ensures Covered(Next(s, step), Next(s, step).routes[d])
  {
    var t := Next(s, step);
    var w := t.routes[d];
    if d in s.routes && s.routes[d] == w {
      forall p | p in t.pending && p.device == Some(d) ensures Reaches(t.sockets[w], p) {
        assert p in s.pending ==> Reaches(s.sockets[w], p);
      }
    }
  }

  lemma NextKeepsOwn(s: State, step: Step, w: nat)
    requires RoutesOpen(s) && w in Next(s, step).sockets
    requires w in s.sockets ==> OwnOnly(s.sockets[w])
    ensures OwnOnly(Next(s, step).sockets[w])
  {}

  lemma NextKeepsInv(s: State, step: Step)
    requires Inv(s)
    ensures Inv(Next(s, step))
  {
    var t := Next(s, step);
    NextKeepsRoutes(s, step);
    forall d | d in t.routes ensures Covered(t, t.routes[d]) { NextKeepsCovered(s, step, d); }
    forall w | w in t.sockets ensures OwnOnly(t.sockets[w]) { NextKeepsOwn(s, step, w); }
  }

  lemma {:induction false} RunKeepsInv(s: State, steps: seq<Step>)
    requires Inv(s)
    ensures Inv(Run(s, steps))
    decreases |steps|
  {
    if steps != [] {
      NextKeepsInv(s, steps[0]);
      RunKeepsInv(Next(s, steps[0]), steps[1..]);
    }
  }

  /** In every interleaving, once the replay of the socket a device is routed to has
      finished, every pending dispatch of the device has been handed to that socket. */
  lemma NoMissedPush(steps: seq<Step>, device: string, p: Dispatch)
    ensures var s := Run(INIT, steps);
            device in s.routes ==>
              && s.routes[device] in s.sockets
              && (s.sockets[s.routes[device]].phase.Listening? && p in s.pending && p.device == Some(device) ==>
                    p in s.sockets[s.routes[device]].sent)
  {
    RunKeepsInv(INIT, steps);
    var s := Run(INIT, steps);
    assert device in s.routes ==> Covered(s, s.routes[device]);
  }

  // ---------------------------------------------------------------------------
  // Overlapping connections
  // ---------------------------------------------------------------------------

  /** A live socket in its receive loop. */
  predicate Live(s: State, w: nat) {
    w in s.sockets && s.sockets[w].phase.Listening?
  }

  /** `Close` drops the device's route whichever socket it points to. When a device
      reconnects before the old handler ends, the new socket is live and replayed but
      no longer routed; a dispatch that comes then is not handed to it, nor ever after. */
  lemma OverlapMissesPush(p: Dispatch, later: seq<Step>)
    requires p.device == Some("d")
    ensures var s := Run(INIT, Overlapping(p));
            Live(s, 2) && s.sockets[2].device == "d" && p in s.pending && p !in s.sockets[2].sent
    ensures var t := Run(INIT, Overlapping(p) + later); 2 in t.sockets && p !in t.sockets[2].sent
  {
    var s2, s5 := Connected(INIT, 1), Connected(Connected(INIT, 1), 2);
    ConnectIdle(INIT, 1);
    ConnectIdle(s2, 2);
    var s6 := Next(s5, Close(1));
    var last := [Close(1), Ingest(p)];
    assert last[1..] == [Ingest(p)] && [Ingest(p)][1..] == [];
    assert Run(s6, [Ingest(p)]) == Run(Next(s6, Ingest(p)), []);
    assert Run(s5, last) == Run(s6, [Ingest(p)]);
    RunSplit(s2, Connecting(2), last);
    RunSplit(INIT, Connecting(1), Connecting(2) + last);
    RunSplit(INIT, Overlapping(p), later);
    RunKeepsInv(INIT, Overlapping(p));
    UnroutedIsNeverHanded(Run(INIT, Overlapping(p)), later, 2, p);
  }

  function Overlapping(p: Dispatch): seq<Step> {
    Connecting(1) + (Connecting(2) + [Close(1), Ingest(p)])
  }

  function Connecting(w: nat): seq<Step> {
    [Accept(w, "d"), BeginReplay(w), ReplayNext(w)]
  }

  function Connected(s: State, w: nat): State {
    State([], s.routes["d" := w], s.sockets[w := Socket("d", Listening, [])])
  }

  lemma ConnectIdle(s: State, w: nat)
    requires s.pending == [] && w !in s.sockets
    ensures Run(s, Connecting(w)) == Connected(s, w)
  {
    RunThree(s, Accept(w, "d"), BeginReplay(w), ReplayNext(w));
    var a := Next(s, Accept(w, "d"));
    var b := Next(a, BeginReplay(w));
    assert b.sockets[w] == Socket("d", Replaying([]), []);
    assert Next(b, ReplayNext(w)).sockets == s.sockets[w := Socket("d", Listening, [])];
  }

  lemma RunThree(s: State, a: Step, b: Step, c: Step)
    ensures Run(s, [a, b, c]) == Next(Next(Next(s, a), b), c)
  {
    assert [a, b, c][1..] == [b, c] && [b, c][1..] == [c] && [c][1..] == [];
    assert Run(Next(Next(s, a), b), [c]) == Run(Next(Next(Next(s, a), b), c), []);
    assert Run(Next(s, a), [b, c]) == Run(Next(Next(s, a), b), [c]);
  }

  /** A fresh dispatch reaches an open socket of its device that has taken its snapshot
      exactly when the device is routed to that socket at that moment. */
  lemma IngestMissesUnrouted(steps: seq<Step>, p: Dispatch, w: nat)
    requires var s := Run(INIT, steps);
             && w in s.sockets && (s.sockets[w].phase.Replaying? || s.sockets[w].phase.Listening?)
             && p.device == Some(s.sockets[w].device) && !Reaches(s.sockets[w], p)
    ensures var s := Run(INIT, steps); var t := Next(s, Ingest(p)); var d := s.sockets[w].device;
            p in t.pending && w in t.sockets && (Reaches(t.sockets[w], p) <==> (d in s.routes && s.routes[d] == w))
  {
    RunKeepsInv(INIT, steps);
  }

  /** No device is routed to the socket, and its handler has taken its snapshot. */
  ghost predicate Unrouted(s: State, w: nat) {
    w in s.sockets && !s.sockets[w].phase.Registered? && forall d :: d in s.routes ==> s.routes[d] != w
  }

  /** Once that is so it stays so: nothing is ever handed to the socket but what its
      replay still holds, and to a listening one nothing at all. */
  lemma {:induction false} UnroutedIsNeverHanded(s: State, steps: seq<Step>, w: nat, p: Dispatch)
    requires Inv(s) && Unrouted(s, w)
    ensures var t := Run(s, steps);
            && Unrouted(t, w) && (Reaches(t.sockets[w], p) ==> Reaches(s.sockets[w], p))
            && (s.sockets[w].phase.Listening? || s.sockets[w].phase.Closed? ==> t.sockets[w].sent == s.sockets[w].sent)
    decreases |steps|
  {
    if steps != [] {
      NextKeepsInv(s, steps[0]);
      UnroutedStep(s, steps[0], w, p);
      UnroutedIsNeverHanded(Next(s, steps[0]), steps[1..], w, p);
    }
  }

  lemma UnroutedStep(s: State, step: Step, w: nat, p: Dispatch)
    requires Inv(s) && Unrouted(s, w)
    ensures var t := Next(s, step);
            && Unrouted(t, w) && (Reaches(t.sockets[w], p) ==> Reaches(s.sockets[w], p))
            && (s.sockets[w].phase.Listening? || s.sockets[w].phase.Closed? ==>
                  t.sockets[w].sent == s.sockets[w].sent && !t.sockets[w].phase.Replaying?)
  {}

  /** No device connects while a handler of an earlier connection still runs. */
  ghost predicate OneAtATime(s: State, steps: seq<Step>)
    decreases |steps|
  {
    steps != [] ==>
      && (steps[0].Accept? ==>
            forall w :: w in s.sockets && s.sockets[w].device == steps[0].device ==> s.sockets[w].phase.Closed?)
      && OneAtATime(Next(s, steps[0]), steps[1..])
  }

  ghost predicate AllRouted(s: State) {
    forall w :: w in s.sockets && !s.sockets[w].phase.Closed? ==>
      s.sockets[w].device in s.routes && s.routes[s.sockets[w].device] == w
  }

  lemma {:induction false} OneAtATimeRoutes(s: State, steps: seq<Step>)
    requires Inv(s) && AllRouted(s) && OneAtATime(s, steps)
    ensures AllRouted(Run(s, steps))
    decreases |steps|
  {
    if steps != [] {
      NextKeepsInv(s, steps[0]);
      StepKeepsRouted(s, steps[0]);
      OneAtATimeRoutes(Next(s, steps[0]), steps[1..]);
    }
  }

  lemma StepKeepsRouted(s: State, step: Step)
    requires RoutesOpen(s) && AllRouted(s) && OneAtATime(s, [step])
    ensures AllRouted(Next(s, step))
  {
    var t := Next(s, step);
    forall w | w in t.sockets && !t.sockets[w].phase.Closed?
      ensures t.sockets[w].device in t.routes && t.routes[t.sockets[w].device] == w
    {
      assert w in s.sockets ==> s.sockets[w].device == t.sockets[w].device;
    }
  }

  /** With one connection at a time per device, every live socket has been handed
      every pending dispatch of its device, and nothing of another device. */
  lemma LiveSocketsAreServed(steps: seq<Step>, w: nat)
    requires OneAtATime(INIT, steps)
    ensures var s := Run(INIT, steps);
            Live(s, w) ==>
              && (forall p :: p in s.pending && p.device == Some(s.sockets[w].device) ==> p in s.sockets[w].sent)
              && (forall p :: p in s.sockets[w].sent ==> p.device == Some(s.sockets[w].device))
  {
    RunKeepsInv(INIT, steps);
    OneAtATimeRoutes(INIT, steps);
    var s := Run(INIT, steps);
    if Live(s, w) {
      assert Covered(s, s.routes[s.sockets[w].device]);
    }
  }

  // ---------------------------------------------------------------------------
  // At-least-once delivery across reconnects
  // ---------------------------------------------------------------------------

  predicate Settles(step: Step, execution: string) {
    match step
    case Ack(_, e) => e == execution
    case Ingest(d) => d.execution == execution
    case _ => false
  }

  lemma {:induction false} UnackedSurvives(s: State, steps: seq<Step>, p: Dispatch)
    requires p in s.pending && forall i :: 0 <= i < |steps| ==> !Settles(steps[i], p.execution)
    ensures p in Run(s, steps).pending
    decreases |steps|
  {
    if steps != [] {
      assert p in Next(s, steps[0]).pending;
      UnackedSurvives(Next(s, steps[0]), steps[1..], p);
    }
  }

  lemma {:induction false} RunSplit(s: State, a: seq<Step>, b: seq<Step>)
    ensures Run(s, a + b) == Run(Run(s, a), b)
    decreases |a|
  {
    if a == [] {
      assert a + b == b;
    } else {
      assert (a + b)[1..] == a[1..] + b;
      RunSplit(Next(s, a[0]), a[1..], b);
    }
  }

  /** A dispatch stays pending until its execution is acknowledged, through any
      number of disconnects, and a routed socket whose replay is over has been
      handed it by then. */
  lemma UnackedIsRedelivered(before: seq<Step>, p: Dispatch, after: seq<Step>)
    requires p.device.Some? && forall i :: 0 <= i < |after| ==> !Settles(after[i], p.execution)
    ensures var s := Run(INIT, before + [Ingest(p)] + after); var d := p.device.value;
            p in s.pending && (d in s.routes && Live(s, s.routes[d]) ==> p in s.sockets[s.routes[d]].sent)
  {
    var ingested := Next(Run(INIT, before), Ingest(p));
    RunSplit(INIT, before, [Ingest(p)]);
    RunSplit(INIT, before + [Ingest(p)], after);
    assert Run(INIT, before + [Ingest(p)]) == ingested;
    UnackedSurvives(ingested, after, p);
    NoMissedPush(before + [Ingest(p)] + after, p.device.value, p);
  }

  /** A step that takes a dispatch from the pending ones: an acknowledgement read from a
      socket in its receive loop, or another dispatch of the same execution. */
  ghost predicate Removes(s: State, step: Step, p: Dispatch) {
    match step
    case Ack(w, e) => w in s.sockets && s.sockets[w].phase.Listening? && e == p.execution && e != ""
    case Ingest(d) => d.execution == p.execution && d != p
    case _ => false
  }

  ghost predicate RemovedIn(s: State, steps: seq<Step>, p: Dispatch)
    decreases |steps|
  {
    steps != [] && (Removes(s, steps[0], p) || RemovedIn(Next(s, steps[0]), steps[1..], p))
  }

  /** Exactly: after its last ingest a dispatch is pending if and only if nothing has
      acknowledged or replaced it since. */
  lemma PendingIff(before: seq<Step>, p: Dispatch, after: seq<Step>)
    requires Ingest(p) !in after
    ensures p in Run(INIT, before + [Ingest(p)] + after).pending
            <==> !RemovedIn(Run(INIT, before + [Ingest(p)]), after, p)
  {
    RunSplit(INIT, before + [Ingest(p)], after);
    RunSplit(INIT, before, [Ingest(p)]);
    var s := Run(INIT, before);
    assert [Ingest(p)][1..] == [];
    assert Run(s, [Ingest(p)]) == Run(Next(s, Ingest(p)), []);
    PendingFrom(Run(INIT, before + [Ingest(p)]), after, p);
  }

  lemma {:induction false} PendingFrom(s: State, steps: seq<Step>, p: Dispatch)
    requires Ingest(p) !in steps
    ensures p in Run(s, steps).pending <==> p in s.pending && !RemovedIn(s, steps, p)
    decreases |steps|
  {
    if steps != [] {
      assert p in Next(s, steps[0]).pending <==> p in s.pending && !Removes(s, steps[0], p);
      PendingFrom(Next(s, steps[0]), steps[1..], p);
    }
  }

  /** No dispatch of this execution is pending, nor among the messages of a socket that is
      not `known`, nor in a replay that began after that of the sockets in `past`. */
  ghost predicate Forgotten(s: State, e: string, known: set<nat>, past: set<nat>) {
    && (forall p :: p in s.pending ==> p.execution != e)
    && (forall w :: w in s.sockets && w !in known ==> forall p :: p in s.sockets[w].sent ==> p.execution != e)
    && (forall w, p :: w in s.sockets && w !in past && s.sockets[w].phase.Replaying? && p in s.sockets[w].phase.todo ==>
          p.execution != e)
  }

  /** The sockets that have taken their snapshot. */
  function Snapshotted(s: State): set<nat> {
    set w | w in s.sockets && !s.sockets[w].phase.Registered?
  }

  /** After an acknowledgement the execution is forgotten until it is ingested again: it is
      not pending, no replay that begins later holds it, and no socket that connects later
      is ever handed it. */
  lemma AckIsFinal(before: seq<Step>, w: nat, e: string, after: seq<Step>)
    requires Live(Run(INIT, before), w) && e != ""
    requires forall i :: 0 <= i < |after| && after[i].Ingest? ==> after[i].dispatch.execution != e
    ensures var s := Run(INIT, before);
            Forgotten(Run(INIT, before + [Ack(w, e)] + after), e, s.sockets.Keys, Snapshotted(s))
  {
    var s := Run(INIT, before);
    RunSplit(INIT, before + [Ack(w, e)], after);
    RunSplit(INIT, before, [Ack(w, e)]);
    assert [Ack(w, e)][1..] == [];
    assert Run(s, [Ack(w, e)]) == Run(Next(s, Ack(w, e)), []);
    StaysForgotten(Next(s, Ack(w, e)), after, e, s.sockets.Keys, Snapshotted(s));
  }

  lemma {:induction false} StaysForgotten(s: State, steps: seq<Step>, e: string, known: set<nat>, past: set<nat>)
    requires past <= known && Forgotten(s, e, known, past)
    requires forall i :: 0 <= i < |steps| && steps[i].Ingest? ==> steps[i].dispatch.execution != e
    ensures Forgotten(Run(s, steps), e, known, past)
    decreases |steps|
  {
    if steps != [] {
      StepForgets(s, steps[0], e, known, past);
      StaysForgotten(Next(s, steps[0]), steps[1..], e, known, past);
    }
  }

  lemma StepForgets(s: State, step: Step, e: string, known: set<nat>, past: set<nat>)
    requires past <= known && Forgotten(s, e, known, past) && (step.Ingest? ==> step.dispatch.execution != e)
    ensures Forgotten(Next(s, step), e, known, past)
  {}

  /** A closed socket is closed for good: nothing is sent on it and nothing is read from it. */
  lemma {:induction false} ClosedStays(s: State, steps: seq<Step>, w: nat)
    requires Inv(s) && w in s.sockets && s.sockets[w].phase.Closed?
    ensures var t := Run(s, steps); w in t.sockets && t.sockets[w] == s.sockets[w]
    ensures forall e :: Next(s, Ack(w, e)) == s
    decreases |steps|
  {
    if steps != [] {
      NextKeepsInv(s, steps[0]);
      ClosedStays(Next(s, steps[0]), steps[1..], w);
    }
  }

  /** The end of a connection closes its socket and leaves its device without a route; a
      connection routes its device to its own socket. */
  lemma ConnectionsRoute(s: State, w: nat, device: string)
    ensures Live(s, w) ==>
              var t := Next(s, Close(w));
              t.sockets[w].phase == Closed && s.sockets[w].device !in t.routes && t.pending == s.pending
    ensures w !in s.sockets && device != "" ==>
              var t := Next(s, Accept(w, device));
              && device in t.routes && t.routes[device] == w && t.pending == s.pending
              && t.sockets[w] == Socket(device, Registered, [])
  {}

  // ---------------------------------------------------------------------------
  // The handlers
  // ---------------------------------------------------------------------------

  predicate ByHandlerOf(step: Step, w: nat) {
    !step.Ingest? && step.socket == w
  }

  class Process {
    var pending: seq<Dispatch>
    var routes: map<string, nat>
    var sockets: map<nat, Socket>

    ghost function S(): State
      reads this
    {
      State(pending, routes, sockets)
    }

    constructor ()
      ensures S() == INIT
    {
      pending, routes, sockets := [], map[], map[];
    }

    /** One message of the Kafka consumer: store, then push over a local socket. */
    method ConsumeDispatched(d: Dispatch)
      modifies this
      ensures S() == Next(old(S()), Ingest(d))
    {
      pending := Put(pending, d);
      if d.device.Some? && d.device.value != "" && d.device.value in routes {
        var w := routes[d.device.value];
        if w in sockets {
          sockets := sockets[w := sockets[w].(sent := sockets[w].sent + [d])];
        }
      }
    }

    method Register(w: nat, device: string)
      modifies this
      ensures S() == Next(old(S()), Accept(w, device))
    {
      if w !in sockets && device != "" {
        routes := routes[device := w];
        sockets := sockets[w := Socket(device, Registered, [])];
      }
    }

    /** The snapshot of the pending dispatches that the replay works through. */
    method Snapshot(w: nat)
      modifies this`sockets
      ensures S() == Next(old(S()), BeginReplay(w))
    {
      if w in sockets && sockets[w].phase.Registered? {
        var todo := ForDevice(pending, sockets[w].device);
        sockets := sockets[w := sockets[w].(phase := Replaying(todo))];
      }
    }

    method PushNext(w: nat)
      modifies this`sockets
      ensures S() == Next(old(S()), ReplayNext(w))
    {
      if w in sockets && sockets[w].phase.Replaying? {
        var k := sockets[w];
        if k.phase.todo == [] {
          k := k.(phase := Listening);
        } else {
          k := k.(phase := Replaying(k.phase.todo[1..]), sent := k.sent + [k.phase.todo[0]]);
        }
        sockets := sockets[w := k];
      }
    }

    method ReceiveAck(w: nat, execution: string)
      modifies this`pending
      ensures S() == Next(old(S()), Ack(w, execution))
    {
      if w in sockets && sockets[w].phase.Listening? && execution != "" {
        pending := Drop(pending, execution);
      }
    }

    /** The handler's `finally`: the route goes whichever socket it points to. */
    method Disconnect(w: nat)
      modifies this
      ensures S() == Next(old(S()), Close(w))
    {
      if w in sockets && sockets[w].phase.Listening? {
        routes := routes - {sockets[w].device};
        sockets := sockets[w := sockets[w].(phase := Closed)];
      }
    }

    /** What other tasks do while a handler is suspended. */
    method Meanwhile(steps: seq<Step>)
      modifies this
      ensures S() == Run(old(S()), steps)
    {
      var i := 0;
      while i < |steps|
        invariant 0 <= i <= |steps|
        invariant Run(S(), steps[i..]) == Run(old(S()), steps)
      {
        ghost var before := S();
        match steps[i] {
          case Ingest(d) => ConsumeDispatched(d);
          case Accept(w, device) => Register(w, device);
          case BeginReplay(w) => Snapshot(w);
          case ReplayNext(w) => PushNext(w);
          case Ack(w, execution) => ReceiveAck(w, execution);
          case Close(w) => Disconnect(w);
        }
        assert S() == Next(before, steps[i]);
        assert steps[i..][1..] == steps[i + 1..];
        i := i + 1;
      }
    }

    /** A websocket handler up to its receive loop: it registers, then sends each of the
        dispatches it found pending for its device, with other tasks running at every
        send, and then listens. If the device is routed to this socket when the replay
        ends, everything pending for it has been handed to this socket. */
    method OpenTunnel(w: nat, device: string, others: nat -> seq<Step>)
      requires Inv(S()) && w !in sockets && device != ""
      requires forall i, k :: 0 <= k < |others(i)| ==> !ByHandlerOf(others(i)[k], w)
      modifies this
      ensures Inv(S())
      ensures S() == Next(Replayed(Next(Next(old(S()), Accept(w, device)), BeginReplay(w)), w, others,
                                   |ForDevice(old(pending), device)|), ReplayNext(w))
      ensures w in sockets && sockets[w].device == device && sockets[w].phase.Listening?
      ensures device in routes && routes[device] == w ==>
                forall p :: p in pending && p.device == Some(device) ==> p in sockets[w].sent
    {
      NextKeepsInv(S(), Accept(w, device));
      Register(w, device);
      NextKeepsInv(S(), BeginReplay(w));
      Snapshot(w);
      Replay(w, others);
      Listen(w);
      assert device in routes ==> Covered(S(), routes[device]);
    }

    /** The loop of the replay over what is left of its snapshot. */
    method Replay(w: nat, others: nat -> seq<Step>)
      requires Inv(S()) && w in sockets && sockets[w].phase.Replaying?
      requires forall i, k :: 0 <= k < |others(i)| ==> !ByHandlerOf(others(i)[k], w)
      modifies this
      ensures Inv(S()) && S() == Replayed(old(S()), w, others, |old(sockets[w].phase.todo)|)
      ensures w in sockets && sockets[w].device == old(sockets[w].device) && sockets[w].phase == Replaying([])
    {
      ghost var n, start := |sockets[w].phase.todo|, S();
      var i := 0;
      while sockets[w].phase.todo != []
        invariant Inv(S()) && S() == Replayed(start, w, others, i)
        invariant w in sockets && sockets[w].device == start.sockets[w].device && sockets[w].phase.Replaying?
        invariant i + |sockets[w].phase.todo| == n
        decreases |sockets[w].phase.todo|
      {
        ReplayTurn(w, others(i));
        i := i + 1;
      }
    }

    /** One send of the replay, and what others do while it is awaited. */
    method ReplayTurn(w: nat, steps: seq<Step>)
      requires Inv(S()) && w in sockets && sockets[w].phase.Replaying? && sockets[w].phase.todo != []
      requires forall k :: 0 <= k < |steps| ==> !ByHandlerOf(steps[k], w)
      modifies this
      ensures Inv(S()) && S() == Run(Next(old(S()), ReplayNext(w)), steps)
      ensures w in sockets && sockets[w].device == old(sockets[w].device)
      ensures sockets[w].phase == Replaying(old(sockets[w].phase.todo)[1..])
    {
      NextKeepsInv(S(), ReplayNext(w));
      PushNext(w);
      RunKeepsInv(S(), steps);
      OthersLeaveReplay(S(), steps, w);
      Meanwhile(steps);
    }

    /** The end of the replay: the handler starts to listen. */
    method Listen(w: nat)
      requires Inv(S()) && w in sockets && sockets[w].phase == Replaying([])
      modifies this
      ensures Inv(S()) && S() == Next(old(S()), ReplayNext(w))
      ensures w in sockets && sockets[w].device == old(sockets[w].device) && sockets[w].phase.Listening?
    {
      NextKeepsInv(S(), ReplayNext(w));
      PushNext(w);
    }
  }

  /** After n sends of a replay, each followed by what others do meanwhile. */
  function Replayed(s: State, w: nat, others: nat -> seq<Step>, n: nat): State {
    if n == 0 then s else Run(Next(Replayed(s, w, others, n - 1), ReplayNext(w)), others(n - 1))
  }

  lemma {:induction false} OthersLeaveReplay(s: State, steps: seq<Step>, w: nat)
    requires w in s.sockets && forall k :: 0 <= k < |steps| ==> !ByHandlerOf(steps[k], w)
    ensures var t := Run(s, steps);
            w in t.sockets && t.sockets[w].device == s.sockets[w].device && t.sockets[w].phase == s.sockets[w].phase
    decreases |steps|
  {
    if steps != [] {
      assert !ByHandlerOf(steps[0], w);
      OthersLeaveReplay(Next(s, steps[0]), steps[1..], w);
    }
  }
}
