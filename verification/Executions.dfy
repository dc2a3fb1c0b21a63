/** The execution table: life cycle, per-device quota, idempotency keys, timeouts.

    Every handler runs between two database commits without suspending, so it is one
    step. Ids are drawn outside; an id that is taken fails as the primary key would. */
module Executions {
  import opened Prelude

  datatype Status = Queued | Dispatched | Running | Succeeded | Failed | Timeout | Cancelled

  predicate Active(s: Status) {
    s.Queued? || s.Dispatched? || s.Running?
  }

  predicate Terminal(s: Status) {
    !Active(s)
  }

  predicate TransitionAllowed(from: Status, to: Status) {
    match from
    case Queued => to.Dispatched? || to.Cancelled?
    case Dispatched => to.Running? || to.Failed? || to.Timeout? || to.Cancelled?
    case Running => to.Succeeded? || to.Failed? || to.Timeout? || to.Cancelled?
    case _ => false
  }

  /** Rows made by an event trigger are created past the quota. */
  datatype Origin = Api | Trigger

  datatype Row = Row(
    device: Option<string>, kind: string, command: string, plugin: Option<string>, status: Status,
    key: Option<string>, exitCode: Option<int>, stdout: Option<string>, stderr: Option<string>,
    result: Option<string>, dispatchedAt: Option<int>, runningAt: Option<int>, origin: Origin)

  type Table = map<string, Row>

  /** `blocked` is the guardrails policy on execution type and command. */
  datatype Settings = Settings(
    maxPerDevice: nat, dispatchedTimeout: int, runningTimeout: int, blocked: (string, string) -> bool)

  datatype Request = Request(
    device: Option<string>, kind: string, command: string, plugin: Option<string>, key: Option<string>)

  /** A field of a JSON body: missing, or given with a value or null. */
  datatype Field<T> = Missing | Given(value: Option<T>)

  datatype StatusField = NoStatus | Invalid(text: string) | Valid(status: Status)

  datatype CallbackBody = CallbackBody(
    unknownFields: bool, status: StatusField, keyAccepted: bool,
    exitCode: Field<int>, stdout: Field<string>, stderr: Field<string>, result: Field<string>)

  /** How the plugin and capability lookups of a function dispatch end. */
  datatype Lookup = Found | Refused(code: nat)

  datatype Reply = Ok(id: string) | Error(code: nat)

  const INSTALL := "function.install"
  const INVOKE := "function.invoke"

  predicate Truthy(s: Option<string>) {
    s.Some? && s.value != ""
  }

  predicate IsFunction(kind: string) {
    kind == INSTALL || kind == INVOKE
  }

  // ---------------------------------------------------------------------------
  // Queries
  // ---------------------------------------------------------------------------

  function ActiveIds(t: Table, device: string): set<string> {
    set id | id in t && t[id].device == Some(device) && Active(t[id].status)
  }

  function ActiveOf(t: Table, device: string, origin: Origin): set<string> {
    set id | id in t && t[id].device == Some(device) && Active(t[id].status) && t[id].origin == origin
  }

  function Holders(t: Table, key: string): set<string> {
    set id | id in t && t[id].key == Some(key)
  }

  // ---------------------------------------------------------------------------
  // The handlers
  // ---------------------------------------------------------------------------

  function NewRow(r: Request, origin: Origin): Row {
    Row(r.device, r.kind, r.command, r.plugin, Queued, r.key, None, None, None, None, None, None, origin)
  }

  /** The checks of `create_execution` after the key lookup, in order. */
  function CreateError(c: Settings, t: Table, r: Request, id: string): Option<nat> {
    if Truthy(r.device) && |ActiveIds(t, r.device.value)| >= c.maxPerDevice then Some(429)
    else if c.blocked(r.kind, r.command) then Some(403)
    else if IsFunction(r.kind) && !Truthy(r.plugin) then Some(400)
    else if id in t || (r.key.Some? && Holders(t, r.key.value) != {}) then Some(500)
    else None
  }

  ghost predicate Created(c: Settings, t: Table, r: Request, id: string, t': Table, reply: Reply) {
    if Truthy(r.key) && Holders(t, r.key.value) != {} then
      t' == t && reply.Ok? && reply.id in Holders(t, r.key.value)
    else if CreateError(c, t, r, id).Some? then t' == t && reply == Error(CreateError(c, t, r, id).value)
    else t' == t[id := NewRow(r, Api)] && reply == Ok(id)
  }

  function DispatchError(c: Settings, t: Table, id: string): Option<nat> {
    if id !in t then Some(404)
    else if c.blocked(t[id].kind, t[id].command) then Some(403)
    else if !TransitionAllowed(t[id].status, Dispatched) then Some(409)
    else None
  }

  function AfterDispatch(c: Settings, t: Table, id: string, now: int): Table {
    if DispatchError(c, t, id).Some? then t
    else t[id := t[id].(status := Dispatched, dispatchedAt := Some(now))]
  }

  /** The status is committed before a function's lookups can fail. */
  function DispatchReply(c: Settings, t: Table, id: string, lookup: Lookup): Reply {
    if DispatchError(c, t, id).Some? then Error(DispatchError(c, t, id).value)
    else if IsFunction(t[id].kind) && lookup.Refused? then Error(lookup.code)
    else Ok(id)
  }

  function CallbackError(t: Table, id: string, b: CallbackBody): Option<nat> {
    if b.unknownFields || !b.status.Valid? then Some(422)
    else if id !in t then Some(404)
    else if !b.keyAccepted then Some(422)
    else if !TransitionAllowed(t[id].status, b.status.status) then Some(409)
    else None
  }

  function Written<T>(f: Field<T>, previous: Option<T>): Option<T> {
    if f.Given? then f.value else previous
  }

  function Recorded(row: Row, b: CallbackBody, now: int): Row
    requires b.status.Valid?
  {
    row.(
      status := b.status.status,
      runningAt := if b.status.status.Running? then Some(now) else row.runningAt,
      exitCode := Written(b.exitCode, row.exitCode),
      stdout := Written(b.stdout, row.stdout),
      stderr := Written(b.stderr, row.stderr),
      result := if b.result.Given? && b.result.value.Some? then b.result.value else row.result)
  }

  function AfterCallback(t: Table, id: string, b: CallbackBody, now: int): Table {
    if CallbackError(t, id, b).Some? then t else t[id := Recorded(t[id], b, now)]
  }

  function CancelError(t: Table, id: string): Option<nat> {
    if id !in t then Some(404) else if !TransitionAllowed(t[id].status, Cancelled) then Some(409) else None
  }

  function AfterCancel(t: Table, id: string): Table {
    if CancelError(t, id).Some? then t else t[id := t[id].(status := Cancelled)]
  }

  predicate Expired(c: Settings, row: Row, now: int) {
    (row.status.Dispatched? && row.dispatchedAt.Some? && now - row.dispatchedAt.value > c.dispatchedTimeout)
    || (row.status.Running? && row.runningAt.Some? && now - row.runningAt.value > c.runningTimeout)
  }

  function SweptRow(c: Settings, row: Row, now: int): Row {
    if Expired(c, row, now) then row.(status := Timeout) else row
  }

  function Swept(c: Settings, t: Table, now: int): Table {
    map id | id in t :: SweptRow(c, t[id], now)
  }

  /** Where a trigger sends its function: to the device of the event, to a device of its
      own, or elsewhere. */
  datatype Target = SameDevice | OneDevice(device: Option<string>) | OtherTarget

  datatype EventTrigger = EventTrigger(id: string, functionId: string, target: Target)

  /** The device an event names itself, and the one its payload names. */
  datatype EventDevice = EventDevice(outer: Option<string>, inner: Option<string>)

  function TargetDevice(trigger: EventTrigger, event: EventDevice): Option<string> {
    match trigger.target
    case SameDevice => if Truthy(event.outer) then event.outer else event.inner
    case OneDevice(device) => device
    case OtherTarget => None
  }

  /** A trigger for a device is skipped without one; any other runs without a device. */
  predicate Skipped(trigger: EventTrigger, event: EventDevice) {
    !trigger.target.OtherTarget? && !Truthy(TargetDevice(trigger, event))
  }

  function TriggerRequest(trigger: EventTrigger, event: EventDevice): Request {
    Request(TargetDevice(trigger, event), INVOKE, "trigger:" + trigger.id, Some(trigger.functionId), None)
  }

  /** A trigger inserts its row and dispatches it, ignoring every error. */
  function Triggered(c: Settings, t: Table, r: Request, id: string, now: int): Table {
    if id in t then t else AfterDispatch(c, t[id := NewRow(r.(key := None), Trigger)], id, now)
  }

  datatype Step =
    | Create(request: Request, id: string)
    | Dispatch(id: string, now: int)
    | Callback(id: string, body: CallbackBody, now: int)
    | Cancel(id: string)
    | Sweep(now: int)
    | Fire(request: Request, id: string, now: int)
    | Delete(id: string)

  function Next(c: Settings, t: Table, step: Step): Table {
    match step
    case Create(r, id) =>
      if (Truthy(r.key) && Holders(t, r.key.value) != {}) || CreateError(c, t, r, id).Some? then t
      else t[id := NewRow(r, Api)]
    case Dispatch(id, now) => AfterDispatch(c, t, id, now)
    case Callback(id, body, now) => AfterCallback(t, id, body, now)
    case Cancel(id) => AfterCancel(t, id)
    case Sweep(now) => Swept(c, t, now)
    case Fire(r, id, now) => Triggered(c, t, r, id, now)
    case Delete(id) => t - {id}
  }

  function Run(c: Settings, t: Table, steps: seq<Step>): Table
    decreases |steps|
  {
    if steps == [] then t else Run(c, Next(c, t, steps[0]), steps[1..])
  }

  // ---------------------------------------------------------------------------
  // Quota and idempotency
  // ---------------------------------------------------------------------------

  ghost predicate QuotaKept(c: Settings, t: Table) {
    forall d :: d != "" ==> |ActiveOf(t, d, Api)| <= c.maxPerDevice
  }

  ghost predicate KeysUnique(t: Table) {
    forall i, j :: i in t && j in t && t[i].key.Some? && t[i].key == t[j].key ==> i == j
  }

  lemma SubsetSize<T>(a: set<T>, b: set<T>)
    requires a <= b
    ensures |a| <= |b|
  {
    assert b == a + (b - a);
  }

  /** A step other than a successful creation makes no row active. */
  lemma OnlyCreateActivates(c: Settings, t: Table, step: Step, d: string, origin: Origin)
    requires !(step.Create? && origin.Api?) && !(step.Fire? && origin.Trigger?)
    ensures ActiveOf(Next(c, t, step), d, origin) <= ActiveOf(t, d, origin)
  {}

  lemma CreateKeepsQuota(c: Settings, t: Table, r: Request, id: string, d: string)
    requires d != "" && |ActiveOf(t, d, Api)| <= c.maxPerDevice
    ensures |ActiveOf(Next(c, t, Create(r, id)), d, Api)| <= c.maxPerDevice
  {
    var u := Next(c, t, Create(r, id));
    if u != t && r.device == Some(d) {
      assert ActiveOf(u, d, Api) == ActiveOf(t, d, Api) + {id};
      SubsetSize(ActiveOf(t, d, Api), ActiveIds(t, d));
    } else {
      assert ActiveOf(u, d, Api) == ActiveOf(t, d, Api);
    }
  }

  lemma NextKeepsQuota(c: Settings, t: Table, step: Step)
    requires QuotaKept(c, t)
    ensures QuotaKept(c, Next(c, t, step))
  {
    forall d | d != "" ensures |ActiveOf(Next(c, t, step), d, Api)| <= c.maxPerDevice {
      if step.Create? {
        CreateKeepsQuota(c, t, step.request, step.id, d);
      } else {
        OnlyCreateActivates(c, t, step, d, Api);
        SubsetSize(ActiveOf(Next(c, t, step), d, Api), ActiveOf(t, d, Api));
      }
    }
  }

  lemma NextKeepsKeys(c: Settings, t: Table, step: Step)
    requires KeysUnique(t)
    ensures KeysUnique(Next(c, t, step))
  {
    if step.Create? && step.request.key.Some? {
      assert forall i :: i in t && t[i].key == step.request.key ==> i in Holders(t, step.request.key.value);
    }
  }

  lemma {:induction false} RunKeepsQuotaAndKeys(c: Settings, t: Table, steps: seq<Step>)
    requires QuotaKept(c, t) && KeysUnique(t)
    ensures QuotaKept(c, Run(c, t, steps)) && KeysUnique(Run(c, t, steps))
    decreases |steps|
  {
    if steps != [] {
      NextKeepsQuota(c, t, steps[0]);
      NextKeepsKeys(c, t, steps[0]);
      RunKeepsQuotaAndKeys(c, Next(c, t, steps[0]), steps[1..]);
    }
  }

  /** In every reachable state a named device has at most the limit of active rows made
      through the API, so at most that many beside the trigger-made ones, and no two
      rows share an idempotency key. */
  lemma QuotaAndKeys(c: Settings, steps: seq<Step>, d: string)
    requires d != ""
    ensures var t := Run(c, map[], steps);
            && |ActiveOf(t, d, Api)| <= c.maxPerDevice
            && |ActiveIds(t, d)| <= c.maxPerDevice + |ActiveOf(t, d, Trigger)|
            && KeysUnique(t)
  {
    assert forall e :: ActiveOf(map[], e, Api) == {};
    RunKeepsQuotaAndKeys(c, map[], steps);
    var t := Run(c, map[], steps);
    assert ActiveIds(t, d) == ActiveOf(t, d, Api) + ActiveOf(t, d, Trigger);
    assert ActiveOf(t, d, Api) !! ActiveOf(t, d, Trigger);
  }

  lemma NewRowIsActive(t: Table, id: string, row: Row, d: string)
    requires id !in t && row.device == Some(d) && Active(row.status) && row.origin == Api
    ensures ActiveOf(t[id := row], d, Api) == ActiveOf(t, d, Api) + {id}
    ensures |ActiveOf(t[id := row], d, Api)| == |ActiveOf(t, d, Api)| + 1
  {
    assert ActiveOf(t[id := row], d, Api) == ActiveOf(t, d, Api) + {id};
  }

  /** The quota does not reach the empty device name: the check is skipped for it. */
  lemma EmptyDeviceIsUnlimited(c: Settings, t: Table, r: Request, id: string)
    requires r.device == Some("") && r.key == None && id !in t
    requires !c.blocked(r.kind, r.command) && !IsFunction(r.kind)
    ensures ActiveOf(Next(c, t, Create(r, id)), "", Api) == ActiveOf(t, "", Api) + {id}
    ensures |ActiveOf(Next(c, t, Create(r, id)), "", Api)| == |ActiveOf(t, "", Api)| + 1
  {
    NewRowIsActive(t, id, NewRow(r, Api), "");
  }

  /** One creation after the other, all with the empty device name. */
  function Creations(r: Request, ids: nat -> string, n: nat): seq<Step> {
    seq(n, i requires i >= 0 => Create(r, ids(i)))
  }

  /** So from the empty table n creations leave n active rows under that name, for every
      n and whatever the limit. */
  lemma {:induction false} EmptyDeviceFillsUp(c: Settings, r: Request, ids: nat -> string, n: nat)
    requires r.device == Some("") && r.key == None && !c.blocked(r.kind, r.command) && !IsFunction(r.kind)
    requires forall i: nat, j: nat :: ids(i) == ids(j) ==> i == j
    ensures var t := Run(c, map[], Creations(r, ids, n));
            && |ActiveOf(t, "", Api)| == n
            && forall id :: id in t ==> exists i :: 0 <= i < n && ids(i) == id
  {
    if n == 0 {
      assert ActiveOf(map[], "", Api) == {};
    } else {
      EmptyDeviceFillsUp(c, r, ids, n - 1);
      var t := Run(c, map[], Creations(r, ids, n - 1));
      var id := ids(n - 1);
      assert id !in t;
      EmptyDeviceIsUnlimited(c, t, r, id);
      assert Creations(r, ids, n) == Creations(r, ids, n - 1) + [Create(r, id)];
      RunSnoc(c, map[], Creations(r, ids, n - 1), Create(r, id));
      assert Next(c, t, Create(r, id)) == t[id := NewRow(r, Api)];
    }
  }

  lemma {:induction false} RunSnoc(c: Settings, t: Table, steps: seq<Step>, last: Step)
    ensures Run(c, t, steps + [last]) == Next(c, Run(c, t, steps), last)
    decreases |steps|
  {
    if steps == [] {
      assert [last][1..] == [];
      assert steps + [last] == [last];
    } else {
      assert (steps + [last])[1..] == steps[1..] + [last];
      RunSnoc(c, Next(c, t, steps[0]), steps[1..], last);
    }
  }

  lemma KeyFound(c: Settings, t: Table, id: string, r: Request, id': string)
    requires KeysUnique(t) && id in t && Truthy(t[id].key) && r.key == t[id].key
    ensures Holders(t, r.key.value) == {id} && Next(c, t, Create(r, id')) == t
    ensures forall u', reply :: Created(c, t, r, id', u', reply) ==> u' == t && reply == Ok(id)
  {
    assert id in Holders(t, r.key.value);
    assert Holders(t, r.key.value) == {id};
  }

  lemma KeyStays(c: Settings, t: Table, step: Step, id: string)
    requires id in t && step != Delete(id)
    ensures id in Next(c, t, step) && Next(c, t, step)[id].key == t[id].key
  {}

  /** While a row lives, every creation with its non-empty key answers with that row
      and changes nothing, whatever happens to the row in between. */
  lemma {:induction false} KeyAnswersItsRow(c: Settings, t: Table, steps: seq<Step>, id: string, r: Request,
      id': string)
    requires KeysUnique(t) && id in t && Truthy(t[id].key) && r.key == t[id].key
    requires Delete(id) !in steps
    ensures var u := Run(c, t, steps);
            && Holders(u, r.key.value) == {id}
            && Next(c, u, Create(r, id')) == u
            && forall u', reply :: Created(c, u, r, id', u', reply) ==> u' == u && reply == Ok(id)
    decreases |steps|
  {
    if steps == [] {
      KeyFound(c, t, id, r, id');
    } else {
      NextKeepsKeys(c, t, steps[0]);
      KeyStays(c, t, steps[0], id);
      var u := Next(c, t, steps[0]);
      KeyAnswersItsRow(c, u, steps[1..], id, r, id');
    }
  }

  // ---------------------------------------------------------------------------
  // The first terminal result wins
  // ---------------------------------------------------------------------------

  /** Once a row is terminal, no dispatch, callback, cancellation, sweep or creation
      changes any of it until it is deleted. */
  lemma {:induction false} FirstTerminalResultWins(c: Settings, t: Table, steps: seq<Step>, id: string)
    requires id in t && Terminal(t[id].status) && Delete(id) !in steps
    ensures id in Run(c, t, steps) && Run(c, t, steps)[id] == t[id]
    decreases |steps|
  {
    if steps != [] {
      var u := Next(c, t, steps[0]);
      assert id in u && u[id] == t[id];
      FirstTerminalResultWins(c, u, steps[1..], id);
    }
  }

  /** A duplicate of a final callback is refused, with nothing written. */
  lemma DuplicateIsRefused(c: Settings, t: Table, steps: seq<Step>, id: string, b: CallbackBody, now: int)
    requires id in t && CallbackError(t, id, b).None? && Terminal(b.status.status) && Delete(id) !in steps
    ensures var u := Run(c, AfterCallback(t, id, b, now), steps);
            CallbackError(u, id, b) == Some(409) && AfterCallback(u, id, b, now) == u
  {
    FirstTerminalResultWins(c, AfterCallback(t, id, b, now), steps, id);
  }

  // ---------------------------------------------------------------------------
  // A success must have been announced
  // ---------------------------------------------------------------------------

  ghost predicate RunningStamped(t: Table) {
    forall id :: id in t && (t[id].status.Running? || t[id].status.Succeeded?) ==> t[id].runningAt.Some?
  }

  predicate ReportsRunning(step: Step, id: string) {
    step.Callback? && step.id == id && step.body.status == Valid(Running)
  }

  lemma NextKeepsStamp(c: Settings, t: Table, step: Step)
    requires RunningStamped(t)
    ensures RunningStamped(Next(c, t, step))
  {}

  /** A dispatched row can only end in success if a "running" callback was accepted
      first: when the agent's early report is lost, every later report of success is
      answered 409, and the row never reads succeeded. */
  lemma {:induction false} LostRunningReport(c: Settings, t: Table, steps: seq<Step>, id: string, b: CallbackBody)
    requires id in t && t[id].status.Dispatched?
    requires forall i :: 0 <= i < |steps| ==> !ReportsRunning(steps[i], id) && steps[i] != Delete(id)
    requires b.status == Valid(Succeeded) && b.keyAccepted && !b.unknownFields
    ensures id in Run(c, t, steps) && !Run(c, t, steps)[id].status.Succeeded?
    ensures CallbackError(Run(c, t, steps), id, b) == Some(409)
  {
    NeverRunning(c, t, steps, id);
  }

  lemma {:induction false} NeverRunning(c: Settings, t: Table, steps: seq<Step>, id: string)
    requires id in t && !t[id].status.Running? && !t[id].status.Succeeded?
    requires forall i :: 0 <= i < |steps| ==> !ReportsRunning(steps[i], id) && steps[i] != Delete(id)
    ensures id in Run(c, t, steps)
    ensures !Run(c, t, steps)[id].status.Running? && !Run(c, t, steps)[id].status.Succeeded?
    decreases |steps|
  {
    if steps != [] {
      var u := Next(c, t, steps[0]);
      assert !ReportsRunning(steps[0], id) && steps[0] != Delete(id);
      assert id in u && !u[id].status.Running? && !u[id].status.Succeeded?;
      NeverRunning(c, u, steps[1..], id);
    }
  }

  /** The exact condition: a well-formed report of success is accepted if and only if
      the row is running. */
  lemma SuccessIff(c: Settings, steps: seq<Step>, id: string, b: CallbackBody)
    requires id in Run(c, map[], steps) && b.status == Valid(Succeeded) && b.keyAccepted && !b.unknownFields
    ensures var t := Run(c, map[], steps);
            CallbackError(t, id, b).None? <==> t[id].status.Running? && t[id].runningAt.Some?
  {
    RunKeepsStamp(c, map[], steps);
  }

  lemma {:induction false} RunKeepsStamp(c: Settings, t: Table, steps: seq<Step>)
    requires RunningStamped(t)
    ensures RunningStamped(Run(c, t, steps))
    decreases |steps|
  {
    if steps != [] {
      NextKeepsStamp(c, t, steps[0]);
      RunKeepsStamp(c, Next(c, t, steps[0]), steps[1..]);
    }
  }

  // ---------------------------------------------------------------------------
  // What a row says
  // ---------------------------------------------------------------------------

  /** A callback about the row that is accepted: well-formed, with a key that fits, and
      with a status the row may move to. */
  predicate Accepts(t: Table, step: Step, id: string) {
    && step.Callback? && step.id == id && id in t
    && !step.body.unknownFields && step.body.keyAccepted && step.body.status.Valid?
    && (t[id].status, step.body.status.status) in MOVES
  }

  /** The moves between statuses there are. */
  const MOVES: set<(Status, Status)> := {
    (Queued, Dispatched), (Queued, Cancelled),
    (Dispatched, Running), (Dispatched, Failed), (Dispatched, Timeout), (Dispatched, Cancelled),
    (Running, Succeeded), (Running, Failed), (Running, Timeout), (Running, Cancelled)}

  lemma MovesAreAllowed(a: Status, b: Status)
    ensures TransitionAllowed(a, b) <==> (a, b) in MOVES
  {}

  /** What the last accepted callback that names a field of the row gave for it, since the
      row was created. */
  function LastGiven<T>(c: Settings, steps: seq<Step>, id: string, field: CallbackBody -> Field<T>): Option<T> {
    if steps == [] then None
    else
      var n := |steps| - 1;
      var before := Run(c, map[], steps[..n]);
      if id !in before then None
      else if Accepts(before, steps[n], id) && field(steps[n].body).Given? then field(steps[n].body).value
      else LastGiven(c, steps[..n], id, field)
  }

  lemma RunLast(c: Settings, steps: seq<Step>)
    requires steps != []
    ensures var n := |steps| - 1; Run(c, map[], steps) == Next(c, Run(c, map[], steps[..n]), steps[n])
  {
    var n := |steps| - 1;
    assert steps == steps[..n] + [steps[n]];
    RunSnoc(c, map[], steps[..n], steps[n]);
  }

  /** The fields of a callback that can be written; null is no function result. */
  function ExitCodeOf(b: CallbackBody): Field<int> { b.exitCode }
  function StdoutOf(b: CallbackBody): Field<string> { b.stdout }
  function StderrOf(b: CallbackBody): Field<string> { b.stderr }
  function ResultOf(b: CallbackBody): Field<string> {
    if b.result.Given? && b.result.value.Some? then b.result else Missing
  }

  /** In every reachable state the exit code, the two outputs and the function result of a
      row are each what the last accepted callback that names them gave. */
  lemma {:induction false} OutputsAreTheReported(c: Settings, steps: seq<Step>, id: string)
    requires id in Run(c, map[], steps)
    ensures var row := Run(c, map[], steps)[id];
            && row.exitCode == LastGiven(c, steps, id, ExitCodeOf)
            && row.stdout == LastGiven(c, steps, id, StdoutOf)
            && row.stderr == LastGiven(c, steps, id, StderrOf)
            && row.result == LastGiven(c, steps, id, ResultOf)
    decreases |steps|
  {
    if steps != [] {
      var n := |steps| - 1;
      RunLast(c, steps);
      var before := Run(c, map[], steps[..n]);
      if id in before {
        OutputsAreTheReported(c, steps[..n], id);
        StepWritesOutputs(c, before, steps[n], id);
      } else {
        NewRowIsBlank(c, before, steps[n], id);
      }
    }
  }

  /** One field after one step. */
  function Given<T>(t: Table, step: Step, id: string, field: CallbackBody -> Field<T>, previous: Option<T>): Option<T> {
    if Accepts(t, step, id) && field(step.body).Given? then field(step.body).value else previous
  }

  lemma StepWritesOutputs(c: Settings, t: Table, step: Step, id: string)
    requires id in t && id in Next(c, t, step)
    ensures var row, after := t[id], Next(c, t, step)[id];
            && after.exitCode == Given(t, step, id, ExitCodeOf, row.exitCode)
            && after.stdout == Given(t, step, id, StdoutOf, row.stdout)
            && after.stderr == Given(t, step, id, StderrOf, row.stderr)
            && after.result == Given(t, step, id, ResultOf, row.result)
  {
    if step.Callback? && step.id == id && step.body.status.Valid? {
      MovesAreAllowed(t[id].status, step.body.status.status);
    }
  }

  lemma NewRowIsBlank(c: Settings, t: Table, step: Step, id: string)
    requires id !in t && id in Next(c, t, step)
    ensures var row := Next(c, t, step)[id];
            && row.exitCode == None && row.stdout == None && row.stderr == None && row.result == None
            && row.runningAt == None && !step.Callback?
            && (row.status.Queued? || (row.status.Dispatched? && step.Fire? && row.dispatchedAt == Some(step.now)))
  {}

  /** A creation or a trigger that asked for the row as it is. */
  predicate AskedFor(step: Step, id: string, row: Row) {
    match step
    case Create(r, i) =>
      && i == id && row.device == r.device && row.kind == r.kind && row.command == r.command
      && row.plugin == r.plugin && row.key == r.key && row.origin == Api
    case Fire(r, i, _) =>
      && i == id && row.device == r.device && row.kind == r.kind && row.command == r.command
      && row.plugin == r.plugin && row.key == None && row.origin == Trigger
    case _ => false
  }

  /** What the guardrails and the checks of a creation leave in the table: a blocked row is
      a trigger's and no dispatch has sent it, and a function made through the API names its
      plugin. */
  predicate Guarded(c: Settings, row: Row) {
    && (c.blocked(row.kind, row.command) ==> row.origin == Trigger && row.dispatchedAt == None)
    && (row.kind in {"function.install", "function.invoke"} && row.origin == Api ==>
          row.plugin != None && row.plugin != Some(""))
  }

  /** In every reachable state each row is as some step asked for it, and is guarded. */
  lemma {:induction false} RowsAreAsAskedFor(c: Settings, steps: seq<Step>, id: string)
    requires id in Run(c, map[], steps)
    ensures var row := Run(c, map[], steps)[id];
            Guarded(c, row) && exists k :: 0 <= k < |steps| && AskedFor(steps[k], id, row)
    decreases |steps|
  {
    if steps != [] {
      var n := |steps| - 1;
      RunLast(c, steps);
      var before := Run(c, map[], steps[..n]);
      if id in before {
        RowsAreAsAskedFor(c, steps[..n], id);
        var k :| 0 <= k < n && AskedFor(steps[..n][k], id, before[id]);
        StepKeepsAskedFor(c, before, steps[n], id, steps[k]);
      } else {
        NewRowIsAskedFor(c, before, steps[n], id);
      }
    }
  }

  lemma StepKeepsAskedFor(c: Settings, t: Table, step: Step, id: string, origin: Step)
    requires id in t && id in Next(c, t, step) && AskedFor(origin, id, t[id]) && Guarded(c, t[id])
    ensures AskedFor(origin, id, Next(c, t, step)[id]) && Guarded(c, Next(c, t, step)[id])
  {}

  lemma NewRowIsAskedFor(c: Settings, t: Table, step: Step, id: string)
    requires id !in t && id in Next(c, t, step)
    ensures AskedFor(step, id, Next(c, t, step)[id]) && Guarded(c, Next(c, t, step)[id])
  {}

  /** Why a step changes the status of a row, and to what. */
  ghost predicate Explains(c: Settings, step: Step, id: string, row: Row, after: Row) {
    match step
    case Dispatch(i, now) => i == id && after.status.Dispatched? && after.dispatchedAt == Some(now)
    case Callback(i, body, now) =>
      i == id && body.status == Valid(after.status) && (after.status.Running? ==> after.runningAt == Some(now))
    case Cancel(i) => i == id && after.status.Cancelled?
    case Sweep(now) =>
      && after.status.Timeout?
      && ((row.status.Dispatched? && row.dispatchedAt.Some? && row.dispatchedAt.value + c.dispatchedTimeout < now)
          || (row.status.Running? && row.runningAt.Some? && row.runningAt.value + c.runningTimeout < now))
    case _ => false
  }

  /** A status changes only by a step that says so, and along an allowed move; no step
      but an accepted dispatch or "running" report touches the two times. */
  lemma StatusChangesAreExplained(c: Settings, t: Table, step: Step, id: string)
    requires id in t && id in Next(c, t, step)
    ensures var row, after := t[id], Next(c, t, step)[id];
            && (after.status != row.status ==> (row.status, after.status) in MOVES && Explains(c, step, id, row, after))
            && (after.dispatchedAt != row.dispatchedAt ==> row.status.Queued? && after.status.Dispatched?)
            && (after.runningAt != row.runningAt ==> row.status.Dispatched? && after.status.Running?)
  {}

  /** And every such step has its effect: dispatching a queued row the policy permits,
      cancelling an active one, and sweeping one that is past its time. */
  lemma StepsTakeEffect(c: Settings, t: Table, id: string, now: int)
    requires id in t
    ensures Next(c, t, Dispatch(id, now))[id].status.Dispatched?
            <==> t[id].status.Dispatched? || (t[id].status.Queued? && !c.blocked(t[id].kind, t[id].command))
    ensures Next(c, t, Cancel(id))[id].status.Cancelled? <==> t[id].status.Cancelled? || Active(t[id].status)
    ensures Next(c, t, Sweep(now))[id].status.Timeout?
            <==> t[id].status.Timeout? || Explains(c, Sweep(now), id, t[id], t[id].(status := Timeout))
  {}

  /** A silent device times out: a row dispatched at `at` about which nothing is heard is
      still dispatched as long as every sweep comes within the limit, and the first sweep
      after it times the row out. */
  lemma {:induction false} SilentDeviceTimesOut(c: Settings, t: Table, steps: seq<Step>, id: string, at: int, now: int)
    requires id in t && t[id].status.Dispatched? && t[id].dispatchedAt == Some(at)
    requires forall i :: 0 <= i < |steps| ==> Ignores(c, steps[i], id, at)
    ensures var u := Run(c, t, steps); id in u && u[id] == t[id]
    ensures var u := Next(c, Run(c, t, steps), Sweep(now));
            id in u && (u[id].status == if now - at > c.dispatchedTimeout then Timeout else Dispatched)
    decreases |steps|
  {
    if steps != [] {
      assert Ignores(c, steps[0], id, at);
      SilentDeviceTimesOut(c, Next(c, t, steps[0]), steps[1..], id, at, now);
    }
  }

  /** A callback may report "dispatched" itself. The row has no dispatch time then, and no
      sweep, however late, times it out; with one it does, as above. */
  lemma {:induction false} UntimedNeverTimesOut(c: Settings, t: Table, steps: seq<Step>, id: string)
    requires id in t && t[id].status.Dispatched? && t[id].dispatchedAt == None
    requires forall i :: 0 <= i < |steps| ==> steps[i].Sweep? || Ignores(c, steps[i], id, 0)
    ensures var u := Run(c, t, steps); id in u && u[id] == t[id]
    decreases |steps|
  {
    if steps != [] {
      assert steps[0].Sweep? || Ignores(c, steps[0], id, 0);
      UntimedNeverTimesOut(c, Next(c, t, steps[0]), steps[1..], id);
    }
  }

  lemma CallbackDispatchIsUntimed(c: Settings, r: Request, id: string, b: CallbackBody, now: int)
    requires b.status == Valid(Dispatched) && b.keyAccepted && !b.unknownFields && CreateError(c, map[], r, id).None?
    requires !(Truthy(r.key) && Holders(map[], r.key.value) != {})
    ensures var t := Next(c, Next(c, map[], Create(r, id)), Callback(id, b, now));
            id in t && t[id].status.Dispatched? && t[id].dispatchedAt == None
  {}

  /** The step is not about the row, or a sweep that comes in time. */
  predicate Ignores(c: Settings, step: Step, id: string, at: int) {
    match step
    case Callback(i, _, _) => i != id
    case Cancel(i) => i != id
    case Delete(i) => i != id
    case Sweep(now) => now - at <= c.dispatchedTimeout
    case _ => true
  }

  /** A deletion removes its row and no other. */
  lemma DeletionRemoves(c: Settings, t: Table, id: string)
    ensures var u := Next(c, t, Delete(id));
            u.Keys == t.Keys - {id} && forall other :: other in u ==> u[other] == t[other]
  {}

  /** What a creation answers: the row that holds its key, if there is one; otherwise 429
      for a named device with as many active rows as the limit, 403 for what the policy
      blocks, 400 for a function without a plugin, 500 for an id or an empty key that is
      taken; and the new row in every other case. */
  lemma CreationAnswers(c: Settings, t: Table, r: Request, id: string, u: Table, reply: Reply)
    requires Created(c, t, r, id, u, reply)
    ensures u == Next(c, t, Create(r, id))
    ensures reply.Ok? ==> reply.id in u && (reply.id == id || (u == t && t[reply.id].key == r.key && r.key != Some("")))
    ensures reply.Ok? && u != t ==> u.Keys == t.Keys + {id} && id !in t && reply.id == id && u[id].status == Queued
    ensures reply.Error? ==> u == t && reply.code in {400, 403, 429, 500}
    ensures (exists i :: i in t && t[i].key == r.key && r.key.Some? && r.key != Some("")) ==> reply.Ok? && u == t
    ensures reply == Error(429) ==>
              r.device.Some? && r.device != Some("") && |ActiveIds(t, r.device.value)| >= c.maxPerDevice
    ensures reply == Error(403) ==> c.blocked(r.kind, r.command)
    ensures reply == Error(400) ==> r.kind in {"function.install", "function.invoke"}
                                    && (r.plugin == None || r.plugin == Some(""))
    ensures reply == Error(500) ==> id in t || (r.key == Some("") && exists i :: i in t && t[i].key == r.key)
  {
    if i :| i in t && t[i].key == r.key && r.key.Some? && r.key != Some("") {
      assert i in Holders(t, r.key.value);
    }
    if reply == Error(500) && id !in t {
      var i :| i in Holders(t, r.key.value);
    }
  }

  /** What the other handlers answer: 404 for a row that is not there, 403 for what the
      policy blocks, 409 for a move that is not allowed, 422 for a malformed report or a key
      that does not fit, and success if and only if none of these holds. */
  lemma RefusalsAreExplained(c: Settings, t: Table, id: string, b: CallbackBody, now: int)
    ensures DispatchError(c, t, id) == Some(404) <==> id !in t
    ensures DispatchError(c, t, id) == Some(403) <==> id in t && c.blocked(t[id].kind, t[id].command)
    ensures DispatchError(c, t, id) == None
            <==> id in t && !c.blocked(t[id].kind, t[id].command) && t[id].status.Queued?
    ensures DispatchError(c, t, id) in {None, Some(403), Some(404), Some(409)}
    ensures CallbackError(t, id, b) == None <==> Accepts(t, Callback(id, b, now), id)
    ensures CallbackError(t, id, b) == Some(409) ==>
              id in t && b.status.Valid? && (t[id].status, b.status.status) !in MOVES
    ensures CallbackError(t, id, b) == Some(422)
            <==> b.unknownFields || !b.status.Valid? || (id in t && !b.keyAccepted)
    ensures CallbackError(t, id, b) in {None, Some(404), Some(409), Some(422)}
    ensures CallbackError(t, id, b) == Some(404) ==> id !in t
    ensures CancelError(t, id) == Some(404) <==> id !in t
    ensures CancelError(t, id) == Some(409) <==> id in t && t[id].status in {Succeeded, Failed, Timeout, Cancelled}
    ensures CancelError(t, id) in {None, Some(404), Some(409)}
  {
    if id in t && b.status.Valid? {
      MovesAreAllowed(t[id].status, b.status.status);
    }
  }

  /** A function's dispatch is answered with the refusal of its lookups, if there is one. */
  lemma LookupsDecide(c: Settings, t: Table, id: string, lookup: Lookup)
    requires DispatchError(c, t, id) == None
    ensures DispatchReply(c, t, id, lookup) == Ok(id)
            <==> lookup == Found || t[id].kind !in {"function.install", "function.invoke"}
    ensures DispatchReply(c, t, id, lookup) != Ok(id) ==> DispatchReply(c, t, id, lookup) == Error(lookup.code)
  {}

  // ---------------------------------------------------------------------------
  // Triggers
  // ---------------------------------------------------------------------------

  /** The table after a trigger has fired. */
  function Fired(c: Settings, t: Table, trigger: EventTrigger, event: EventDevice, id: string, now: int): Table {
    if Skipped(trigger, event) then t else Next(c, t, Fire(TriggerRequest(trigger, event), id, now))
  }

  /** A trigger that finds no device changes nothing if and only if it is for the device of
      the event or for one of its own. Any other leaves an execution of no device, which
      is dispatched if and only if the policy lets it. */
  lemma TriggerWithoutDevice(c: Settings, t: Table, trigger: EventTrigger, event: EventDevice, id: string, now: int)
    requires id !in t && !Truthy(TargetDevice(trigger, event))
    ensures var u := Fired(c, t, trigger, event, id, now);
            && (u == t <==> !trigger.target.OtherTarget?)
            && (trigger.target.OtherTarget? ==>
                  && u.Keys == t.Keys + {id} && u[id].device == None
                  && (u[id].status.Dispatched? <==> !c.blocked(INVOKE, "trigger:" + trigger.id))
                  && (u[id].status.Queued? <==> c.blocked(INVOKE, "trigger:" + trigger.id)))
  {
    if trigger.target.OtherTarget? {
      assert id in Fired(c, t, trigger, event, id, now);
    }
  }

  /** The execution of a trigger is for the device the event names itself, or else its
      payload, or for the trigger's own device; it invokes the trigger's function. */
  lemma TriggersTarget(c: Settings, t: Table, trigger: EventTrigger, event: EventDevice, id: string, now: int,
      name: string)
    requires id !in t && name != ""
    ensures var u := Fired(c, t, trigger, event, id, now);
            && (trigger.target == SameDevice && event.outer == Some(name) ==> id in u && u[id].device == Some(name))
            && (trigger.target == SameDevice && event.outer in {None, Some("")} && event.inner == Some(name) ==>
                  id in u && u[id].device == Some(name))
            && (trigger.target == OneDevice(Some(name)) ==> id in u && u[id].device == Some(name))
            && (id in u ==> && u[id].kind == "function.invoke" && u[id].plugin == Some(trigger.functionId)
                            && u[id].command == "trigger:" + trigger.id && u[id].key == None)
  {}

  // ---------------------------------------------------------------------------
  // The service
  // ---------------------------------------------------------------------------

  class Store {
    const settings: Settings
    var rows: Table

    constructor (settings: Settings)
      ensures this.settings == settings && rows == map[]
    {
      this.settings := settings;
      rows := map[];
    }

    method CountActive(device: string) returns (n: nat)
      ensures n == |ActiveIds(rows, device)|
    {
      n := |ActiveIds(rows, device)|;
    }

    method FindByKey(key: string) returns (found: Option<string>)
      ensures found.Some? ==> found.value in Holders(rows, key)
      ensures found.None? ==> Holders(rows, key) == {}
    {
      var holders := Holders(rows, key);
      if holders == {} {
        return None;
      }
      var id :| id in holders;
      return Some(id);
    }

    method CreateExecution(r: Request, id: string) returns (reply: Reply)
      modifies this
      ensures Created(settings, old(rows), r, id, rows, reply)
      ensures rows == Next(settings, old(rows), Create(r, id))
    {
      if Truthy(r.key) {
        var existing := FindByKey(r.key.value);
        if existing.Some? {
          return Ok(existing.value);
        }
      }
      if Truthy(r.device) {
        var active := CountActive(r.device.value);
        if active >= settings.maxPerDevice {
          return Error(429);
        }
      }
      if settings.blocked(r.kind, r.command) {
        return Error(403);
      }
      if IsFunction(r.kind) && !Truthy(r.plugin) {
        return Error(400);
      }
      var clash := false;
      if r.key.Some? {
        var holder := FindByKey(r.key.value);
        clash := holder.Some?;
      }
      if id in rows || clash {
        return Error(500);
      }
      rows := rows[id := NewRow(r, Api)];
      return Ok(id);
    }

    method DispatchExecution(id: string, now: int, lookup: Lookup) returns (reply: Reply)
      modifies this
      ensures rows == AfterDispatch(settings, old(rows), id, now)
      ensures reply == DispatchReply(settings, old(rows), id, lookup)
    {
      if id !in rows {
        return Error(404);
      }
      if settings.blocked(rows[id].kind, rows[id].command) {
        return Error(403);
      }
      if !TransitionAllowed(rows[id].status, Dispatched) {
        return Error(409);
      }
      rows := rows[id := rows[id].(status := Dispatched, dispatchedAt := Some(now))];
      if IsFunction(rows[id].kind) && lookup.Refused? {
        return Error(lookup.code);
      }
      return Ok(id);
    }

    method CallbackExecution(id: string, b: CallbackBody, now: int) returns (reply: Reply)
      modifies this
      ensures rows == AfterCallback(old(rows), id, b, now)
      ensures var error := CallbackError(old(rows), id, b);
              reply == if error.Some? then Error(error.value) else Ok(id)
    {
      if b.unknownFields || !b.status.Valid? {
        return Error(422);
      }
      if id !in rows {
        return Error(404);
      }
      if !b.keyAccepted {
        return Error(422);
      }
      var row := rows[id];
      if !TransitionAllowed(row.status, b.status.status) {
        return Error(409);
      }
      row := row.(status := b.status.status);
      if b.status.status.Running? {
        row := row.(runningAt := Some(now));
      }
      if b.exitCode.Given? {
        row := row.(exitCode := b.exitCode.value);
      }
      if b.stdout.Given? {
        row := row.(stdout := b.stdout.value);
      }
      if b.stderr.Given? {
        row := row.(stderr := b.stderr.value);
      }
      if b.result.Given? && b.result.value.Some? {
        row := row.(result := b.result.value);
      }
      rows := rows[id := row];
      return Ok(id);
    }

    method CancelExecution(id: string) returns (reply: Reply)
      modifies this
      ensures rows == AfterCancel(old(rows), id)
      ensures reply == if CancelError(old(rows), id).Some? then Error(CancelError(old(rows), id).value) else Ok(id)
    {
      if id !in rows {
        return Error(404);
      }
      if !TransitionAllowed(rows[id].status, Cancelled) {
        return Error(409);
      }
      rows := rows[id := rows[id].(status := Cancelled)];
      return Ok(id);
    }

    method DeleteExecution(id: string) returns (reply: Reply)
      modifies this
      ensures rows == Next(settings, old(rows), Delete(id))
      ensures reply == if id in old(rows) then Ok(id) else Error(404)
    {
      if id !in rows {
        return Error(404);
      }
      rows := rows - {id};
      return Ok(id);
    }

    /** One iteration of the timeout loop. */
    method TimeoutSweep(now: int)
      modifies this
      ensures rows == Swept(settings, old(rows), now)
    {
      var todo := set id | id in rows && (rows[id].status.Dispatched? || rows[id].status.Running?);
      while todo != {}
        invariant todo <= rows.Keys == old(rows).Keys
        invariant forall id :: id in rows ==>
                    rows[id] == if id in todo then old(rows)[id] else SweptRow(settings, old(rows)[id], now)
        decreases |todo|
      {
        var id :| id in todo;
        var row := rows[id];
        if row.status.Dispatched? && row.dispatchedAt.Some? {
          if now - row.dispatchedAt.value > settings.dispatchedTimeout {
            rows := rows[id := row.(status := Timeout)];
          }
        } else if row.status.Running? && row.runningAt.Some? {
          if now - row.runningAt.value > settings.runningTimeout {
            rows := rows[id := row.(status := Timeout)];
          }
        }
        todo := todo - {id};
      }
    }

    /** A trigger fires: its row is inserted and dispatched, and every error is swallowed. */
    method FireTrigger(trigger: EventTrigger, event: EventDevice, id: string, now: int, lookup: Lookup)
      modifies this
      ensures rows == Fired(settings, old(rows), trigger, event, id, now)
    {
      var device := TargetDevice(trigger, event);
      if !Truthy(device) && !trigger.target.OtherTarget? {
        return;
      }
      if id !in rows {
        var r := Request(device, INVOKE, "trigger:" + trigger.id, Some(trigger.functionId), None);
        rows := rows[id := NewRow(r, Trigger)];
        var reply := DispatchExecution(id, now, lookup);
      }
    }
  }
}
