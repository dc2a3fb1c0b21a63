/** Runbooks: an ordered list of steps created and dispatched on one device. */
module Runbook {
  import opened Prelude
  import opened Executions

  /** A step as it comes in the request. */
  datatype StepSpec = NotAnObject | StepSpec(kind: string, command: Option<string>, plugin: Option<string>)

  datatype Entry = Done(id: string) | Failure(code: nat)

  /** `Rejected` ends the whole request; what was dispatched before it stays. */
  datatype Report = Rejected(code: nat) | Report(entries: seq<Entry>, stopped: bool)

  /** What a runbook runs with: the ids are uuids drawn for its steps, `lookups` are
      the answers of the services that a function step asks. */
  datatype Plan = Plan(device: string, steps: seq<StepSpec>, stop: bool, ids: nat -> string, now: int,
      lookups: nat -> Lookup)

  datatype Outcome = Outcome(rows: Table, entries: seq<Entry>, cut: bool)

  /** From the i-th on, the ids are all different and none of them is in the table. */
  ghost predicate FreshIds(t: Table, ids: nat -> string, i: nat) {
    (forall k: nat :: i <= k ==> ids(k) !in t) && (forall j: nat, k: nat :: ids(j) == ids(k) ==> j == k)
  }

  /** The payload of a step, unless a field it needs is missing. */
  function StepRequest(step: StepSpec, device: string): Option<Request>
    requires step.StepSpec?
  {
    if IsFunction(step.kind) then
      if !Truthy(step.plugin) then None
      else
        var command := if Truthy(step.command) then step.command.value else step.kind + ":" + step.plugin.value;
        Some(Request(Some(device), step.kind, command, step.plugin, None))
    else if !Truthy(step.command) then None
    else
      var plugin := if Truthy(step.plugin) then step.plugin else None;
      Some(Request(Some(device), step.kind, step.command.value, plugin, None))
  }

  /** Create, then dispatch: the table it leaves, and the error that ended it. */
  function Attempt(c: Settings, t: Table, r: Request, id: string, now: int, lookup: Lookup): (Table, Option<nat>)
    requires r.key.None?
  {
    if CreateError(c, t, r, id).Some? then (t, CreateError(c, t, r, id))
    else
      var u := Next(c, t, Create(r, id));
      var reply := DispatchReply(c, u, id, lookup);
      (AfterDispatch(c, u, id, now), if reply.Error? then Some(reply.code) else None)
  }

  method TryExecution(store: Store, r: Request, id: string, now: int, lookup: Lookup) returns (error: Option<nat>)
    requires r.key.None?
    modifies store
    ensures (store.rows, error) == Attempt(store.settings, old(store.rows), r, id, now, lookup)
  {
    var created := store.CreateExecution(r, id);
    if created.Error? {
      return Some(created.code);
    }
    var reply := store.DispatchExecution(created.id, now, lookup);
    return if reply.Error? then Some(reply.code) else None;
  }

  /** What one step does. */
  function TakeStep(c: Settings, t: Table, device: string, step: StepSpec, id: string, now: int, lookup: Lookup)
    : (Table, Entry)
    requires step.StepSpec?
  {
    match StepRequest(step, device)
    case None => (t, Failure(400))
    case Some(r) =>
      var (u, error) := Attempt(c, t, r, id, now, lookup);
      (u, if error.Some? then Failure(error.value) else Done(id))
  }

  function Before(entry: Entry, o: Outcome): Outcome {
    o.(entries := [entry] + o.entries)
  }

  /** The steps from the i-th on; `cut` tells that they ended at something that is not
      a step. */
  function TakeSteps(c: Settings, t: Table, p: Plan, i: nat): Outcome
    decreases |p.steps| - i
  {
    if i >= |p.steps| then Outcome(t, [], false)
    else if p.steps[i].NotAnObject? then Outcome(t, [], true)
    else
      var (u, entry) := TakeStep(c, t, p.device, p.steps[i], p.ids(i), p.now, p.lookups(i));
      if entry.Failure? && p.stop then Outcome(u, [entry], false)
      else Before(entry, TakeSteps(c, u, p, i + 1))
  }

  function Summary(o: Outcome, stop: bool): Report {
    if o.cut then Rejected(400) else Report(o.entries, stop && exists e :: e in o.entries && e.Failure?)
  }

  method DoStep(store: Store, p: Plan, i: nat) returns (entry: Entry)
    requires i < |p.steps| && p.steps[i].StepSpec?
    modifies store
    ensures (store.rows, entry)
        == TakeStep(store.settings, old(store.rows), p.device, p.steps[i], p.ids(i), p.now, p.lookups(i))
  {
    var request := StepRequest(p.steps[i], p.device);
    if request.None? {
      return Failure(400);
    }
    var error := TryExecution(store, request.value, p.ids(i), p.now, p.lookups(i));
    return if error.Some? then Failure(error.value) else Done(p.ids(i));
  }

  method ExecuteRunbook(store: Store, device: Option<string>, p: Plan) returns (report: Report)
    requires Truthy(device) ==> p.device == device.value
    modifies store
    ensures !Truthy(device) || p.steps == [] ==> report == Rejected(400) && store.rows == old(store.rows)
    ensures Truthy(device) && p.steps != [] ==>
              var o := TakeSteps(store.settings, old(store.rows), p, 0);
              store.rows == o.rows && report == Summary(o, p.stop)
  {
    if !Truthy(device) || |p.steps| == 0 {
      return Rejected(400);
    }
    var results: seq<Entry> := [];
    var i := 0;
    ghost var all := TakeSteps(store.settings, store.rows, p, 0);
    assert Joined([], all) == all;
    while i < |p.steps|
      invariant 0 <= i <= |p.steps|
      invariant Joined(results, TakeSteps(store.settings, store.rows, p, i)) == all
    {
      if p.steps[i].NotAnObject? {
        return Rejected(400);
      }
      var entry := DoStep(store, p, i);
      JoinStep(results, entry, TakeSteps(store.settings, store.rows, p, i + 1));
      results := results + [entry];
      if entry.Failure? && p.stop {
        break;
      }
      i := i + 1;
    }
    report := Report(results, p.stop && exists e :: e in results && e.Failure?);
  }

  function Joined(results: seq<Entry>, o: Outcome): Outcome {
    o.(entries := results + o.entries)
  }

  lemma JoinStep(results: seq<Entry>, entry: Entry, o: Outcome)
    ensures Joined(results, Before(entry, o)) == Joined(results + [entry], o)
  {
    assert results + ([entry] + o.entries) == results + [entry] + o.entries;
  }

  // ---------------------------------------------------------------------------
  // What a runbook does with its steps
  // ---------------------------------------------------------------------------

  /** A step becomes a request for its device with its kind and plugin, and with its command
      or, for a function, one made of kind and plugin; it has none without what it needs. */
  lemma RequestsAreTheSteps(step: StepSpec, device: string)
    requires step.StepSpec?
    ensures var isFunction := step.kind in {"function.install", "function.invoke"};
            var noPlugin := step.plugin.None? || |step.plugin.value| == 0;
            var noCommand := step.command.None? || |step.command.value| == 0;
            && (StepRequest(step, device).None? <==> if isFunction then noPlugin else noCommand)
            && (StepRequest(step, device).Some? ==>
                  var r := StepRequest(step, device).value;
                  && r.device == Some(device) && r.kind == step.kind && r.key == None
                  && r.plugin == (if noPlugin then None else step.plugin)
                  && r.command == (if noCommand then step.kind + ":" + step.plugin.value else step.command.value))
  {}

  /** The steps end for a reason: at the end of the list, at something that is not a step,
      or, with `stop_on_failure`, at the first error, which is then the last entry. */
  lemma {:induction false} StepsEndForAReason(c: Settings, t: Table, p: Plan, i: nat)
    requires i <= |p.steps|
    ensures var o := TakeSteps(c, t, p, i); var n := |o.entries|;
            && i + n <= |p.steps|
            && (p.stop ==> forall k :: 0 <= k < n - 1 ==> !o.entries[k].Failure?)
            && (o.cut ==>
                  && i + n < |p.steps| && p.steps[i + n].NotAnObject?
                  && (p.stop && n > 0 ==> !o.entries[n - 1].Failure?))
            && (!o.cut ==> i + n == |p.steps| || (p.stop && n > 0 && o.entries[n - 1].Failure?))
            && (forall j :: i <= j < i + n ==> p.steps[j].StepSpec?)
    decreases |p.steps| - i
  {
    if i < |p.steps| && p.steps[i].StepSpec? {
      var (u, entry) := TakeStep(c, t, p.device, p.steps[i], p.ids(i), p.now, p.lookups(i));
      if !(entry.Failure? && p.stop) {
        StepsEndForAReason(c, u, p, i + 1);
        var rest := TakeSteps(c, u, p, i + 1);
        assert TakeSteps(c, t, p, i) == Before(entry, rest);
        forall k | 0 <= k < |rest.entries| && p.stop ensures !Before(entry, rest).entries[k].Failure? {
          assert k > 0 ==> Before(entry, rest).entries[k] == rest.entries[k - 1];
        }
        assert rest.entries != [] ==>
          Before(entry, rest).entries[|rest.entries|] == rest.entries[|rest.entries| - 1];
      }
    }
  }

  /** What is reported: 400 if something was not a step, and otherwise the entries, as
      stopped if there is an error among them and errors stop. */
  lemma ReportMeans(o: Outcome, stop: bool)
    ensures Summary(o, stop) == Rejected(400) <==> o.cut
    ensures !o.cut ==>
              Summary(o, stop).entries == o.entries
              && (Summary(o, stop).stopped <==> stop && exists k :: 0 <= k < |o.entries| && o.entries[k].Failure?)
  {
    if e :| e in o.entries && e.Failure? {
      var k :| 0 <= k < |o.entries| && o.entries[k] == e;
    }
    if k :| 0 <= k < |o.entries| && o.entries[k].Failure? {
      assert o.entries[k] in o.entries;
    }
  }

  // ---------------------------------------------------------------------------
  // A runbook uses exactly the room the quota leaves
  // ---------------------------------------------------------------------------

  /** A shell step that the guardrails let pass. */
  predicate Permitted(c: Settings, step: StepSpec) {
    step.StepSpec? && !IsFunction(step.kind) && Truthy(step.command) && !c.blocked(step.kind, step.command.value)
  }

  function Room(c: Settings, t: Table, device: string): nat {
    if |ActiveIds(t, device)| < c.maxPerDevice then c.maxPerDevice - |ActiveIds(t, device)| else 0
  }

  lemma OneMoreActive(t: Table, id: string, row: Row, device: string)
    requires id !in t && row.device == Some(device) && Active(row.status)
    ensures |ActiveIds(t[id := row], device)| == |ActiveIds(t, device)| + 1
  {
    assert ActiveIds(t[id := row], device) == ActiveIds(t, device) + {id};
  }

  lemma PlaceTaken(c: Settings, t: Table, id: string, row: Row, device: string)
    requires id !in t && row.device == Some(device) && Active(row.status) && Room(c, t, device) > 0
    ensures Room(c, t[id := row], device) == Room(c, t, device) - 1 && t[id := row].Keys == t.Keys + {id}
  {
    OneMoreActive(t, id, row, device);
  }

  /** With room left, an execution is created and dispatched, and takes one place. */
  lemma AttemptTakesPlace(c: Settings, t: Table, r: Request, id: string, now: int, lookup: Lookup)
    requires r.key.None? && Truthy(r.device) && id !in t && Room(c, t, r.device.value) > 0
    requires !c.blocked(r.kind, r.command) && !IsFunction(r.kind)
    ensures var (u, error) := Attempt(c, t, r, id, now, lookup);
            error.None? && Room(c, u, r.device.value) == Room(c, t, r.device.value) - 1 && u.Keys == t.Keys + {id}
  {
    var row := NewRow(r, Api);
    var v := t[id := row];
    assert CreateError(c, t, r, id).None? && Next(c, t, Create(r, id)) == v;
    assert DispatchError(c, v, id).None?;
    var dispatched := row.(status := Dispatched, dispatchedAt := Some(now));
    assert v[id := dispatched] == t[id := dispatched];
    PlaceTaken(c, t, id, dispatched, r.device.value);
  }

  /** A permitted step is dispatched exactly when there is room, and takes one place. */
  lemma StepTakesRoom(c: Settings, t: Table, device: string, step: StepSpec, id: string, now: int, lookup: Lookup)
    requires device != "" && Permitted(c, step) && id !in t
    ensures var (u, entry) := TakeStep(c, t, device, step, id, now, lookup);
            if Room(c, t, device) > 0 then
              entry == Done(id) && Room(c, u, device) == Room(c, t, device) - 1 && u.Keys == t.Keys + {id}
            else entry == Failure(429) && u == t
  {
    if Room(c, t, device) > 0 {
      AttemptTakesPlace(c, t, StepRequest(step, device).value, id, now, lookup);
    }
  }

  /** The entries a runbook of permitted steps must give: done while there is room,
      refused with 429 afterwards. */
  function Expected(n: nat, room: nat, from: nat, ids: nat -> string, stop: bool): seq<Entry>
    decreases n
  {
    if n == 0 then []
    else if room > 0 then [Done(ids(from))] + Expected(n - 1, room - 1, from + 1, ids, stop)
    else if stop then [Failure(429)]
    else [Failure(429)] + Expected(n - 1, 0, from + 1, ids, stop)
  }

  /** The i-th step and what the others do after it. */
  lemma NextStep(c: Settings, t: Table, p: Plan, i: nat) returns (u: Table, o: Outcome)
    requires p.device != "" && i < |p.steps| && Permitted(c, p.steps[i]) && FreshIds(t, p.ids, i)
    ensures o == TakeSteps(c, u, p, i + 1) && FreshIds(u, p.ids, i + 1)
    ensures if Room(c, t, p.device) > 0 then
              TakeSteps(c, t, p, i) == Before(Done(p.ids(i)), o) && Room(c, u, p.device) == Room(c, t, p.device) - 1
            else
              u == t && TakeSteps(c, t, p, i) == if p.stop then Outcome(t, [Failure(429)], false)
                  else Before(Failure(429), o)
  {
    StepTakesRoom(c, t, p.device, p.steps[i], p.ids(i), p.now, p.lookups(i));
    var (v, entry) := TakeStep(c, t, p.device, p.steps[i], p.ids(i), p.now, p.lookups(i));
    u, o := v, TakeSteps(c, v, p, i + 1);
  }

  lemma {:induction false} StepsFillRoom(c: Settings, t: Table, p: Plan, i: nat)
    requires p.device != "" && i <= |p.steps| && forall k :: 0 <= k < |p.steps| ==> Permitted(c, p.steps[k])
    requires FreshIds(t, p.ids, i)
    ensures var o := TakeSteps(c, t, p, i); var n, r := |p.steps| - i, Room(c, t, p.device);
            && !o.cut && o.entries == Expected(n, r, i, p.ids, p.stop)
            && Room(c, o.rows, p.device) == r - Min(n, r)
    decreases |p.steps| - i
  {
    if i < |p.steps| {
      var u, o := NextStep(c, t, p, i);
      if Room(c, t, p.device) > 0 || !p.stop {
        StepsFillRoom(c, u, p, i + 1);
      }
    }
  }

  lemma {:induction false} ExpectedShape(n: nat, room: nat, from: nat, ids: nat -> string, stop: bool)
    ensures var e := Expected(n, room, from, ids, stop);
            && |e| == (if stop then Min(n, room + 1) else n)
            && forall k :: 0 <= k < |e| ==> e[k] == if k < room then Done(ids(from + k)) else Failure(429)
    decreases n
  {
    if n > 0 {
      ExpectedShape(n - 1, if room > 0 then room - 1 else 0, from + 1, ids, stop);
    }
  }

  /** On a device with room for r more executions, n permitted steps dispatch exactly
      the first min(n, r), and every other entry is a 429. If the runbook stops on
      failure there is at most one such entry; it is there, and last, iff n > r. */
  lemma RunbookMeetsQuota(c: Settings, t: Table, p: Plan)
    requires p.device != "" && FreshIds(t, p.ids, 0) && forall k :: 0 <= k < |p.steps| ==> Permitted(c, p.steps[k])
    ensures var o := TakeSteps(c, t, p, 0); var n, r := |p.steps|, Room(c, t, p.device);
            && !o.cut
            && |o.entries| == (if p.stop then Min(n, r + 1) else n)
            && (forall k :: 0 <= k < |o.entries| ==> o.entries[k] == if k < r then Done(p.ids(k)) else Failure(429))
            && ((exists k :: 0 <= k < |o.entries| && o.entries[k].Failure?) <==> n > r)
            && Room(c, o.rows, p.device) == r - Min(n, r)
  {
    StepsFillRoom(c, t, p, 0);
    ExpectedShape(|p.steps|, Room(c, t, p.device), 0, p.ids, p.stop);
    var o := TakeSteps(c, t, p, 0);
    if |p.steps| > Room(c, t, p.device) {
      assert o.entries[Room(c, t, p.device)].Failure?;
    }
  }
}
