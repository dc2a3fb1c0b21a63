/** Canary rollouts: the ring sizes, and the rings run over a fleet. */
module Rollout {
  import opened Prelude
  import opened Executions
  import opened Runbook

  /** `sizes` is the explicit list, if one is given; otherwise rings of `size`. */
  datatype RingPlan = RingPlan(sizes: seq<int>, size: int, maxRings: Option<int>)

  // ---------------------------------------------------------------------------
  // Ring sizes
  // ---------------------------------------------------------------------------

  function Positive(sizes: seq<int>): (r: seq<nat>)
    ensures forall i :: 0 <= i < |r| ==> r[i] > 0
  {
    if sizes == [] then [] else (if sizes[0] > 0 then [sizes[0]] else []) + Positive(sizes[1..])
  }

  function Sum(sizes: seq<nat>): nat {
    if sizes == [] then 0 else sizes[0] + Sum(sizes[1..])
  }

  lemma {:induction false} SumAppend(a: seq<nat>, b: seq<nat>)
    ensures Sum(a + b) == Sum(a) + Sum(b)
  {
    if a == [] {
      assert a + b == b;
    } else {
      assert (a + b)[1..] == a[1..] + b;
      SumAppend(a[1..], b);
    }
  }

  /** The slices of the device list that rings of these sizes get: a slice past the
      end of the list is cut short, possibly to nothing. */
  function Slices(devices: seq<string>, sizes: seq<nat>): (r: seq<seq<string>>)
    ensures |r| == |sizes|
  {
    if sizes == [] then []
    else
      var k := Min(sizes[0], |devices|);
      [devices[..k]] + Slices(devices[k..], sizes[1..])
  }

  function Flat<T>(parts: seq<seq<T>>): seq<T> {
    if parts == [] then [] else parts[0] + Flat(parts[1..])
  }

  /** Rings of one size that cover the total exactly, the last one possibly smaller. */
  ghost predicate Uniform(sizes: seq<nat>, total: int, size: int) {
    && sizes != [] && Sum(sizes) == total
    && (forall i :: 0 <= i < |sizes| - 1 ==> sizes[i] == size)
    && 0 < sizes[|sizes| - 1] <= size
  }

  /** The sizes before truncation or completion. */
  ghost predicate Base(base: seq<nat>, total: int, p: RingPlan) {
    if p.sizes != [] then base == Positive(p.sizes) else Uniform(base, total, p.size)
  }

  /** With `max_rings` the list is cut off, otherwise a last ring takes what is left. */
  function Planned(base: seq<nat>, total: nat, p: RingPlan): seq<nat> {
    if p.maxRings.Some? then base[..Min(if p.maxRings.value < 0 then 0 else p.maxRings.value, |base|)]
    else if Sum(base) < total then base + [total - Sum(base)]
    else base
  }

  predicate Malformed(p: RingPlan) {
    || (p.sizes != [] && Positive(p.sizes) == [])
    || (p.sizes == [] && p.size <= 0)
    || (p.maxRings.Some? && p.maxRings.value <= 0)
  }

  method UniformRings(total: nat, size: nat) returns (sizes: seq<nat>)
    requires total > 0 && size > 0
    ensures Uniform(sizes, total, size)
  {
    sizes := [];
    var left := total;
    while left > 0
      invariant 0 <= left <= total
      invariant left > 0 ==> forall i :: 0 <= i < |sizes| ==> sizes[i] == size
      invariant Sum(sizes) == total - left
      invariant left == 0 ==> Uniform(sizes, total, size)
    {
      var chunk := Min(size, left);
      SumAppend(sizes, [chunk]);
      assert Sum([chunk]) == chunk + Sum([]);
      sizes := sizes + [chunk];
      left := left - chunk;
    }
  }

  /** `None` answers 400. */
  method ComputeCanaryRings(total: int, p: RingPlan) returns (rings: Option<seq<nat>>, ghost base: seq<nat>)
    ensures total <= 0 ==> rings == Some([])
    ensures total > 0 ==> (rings.None? <==> Malformed(p))
    ensures total > 0 && rings.Some? ==> Base(base, total, p) && rings.value == Planned(base, total, p)
  {
    base := [];
    if total <= 0 {
      return Some([]), base;
    }
    var sizes: seq<nat>;
    if p.sizes != [] {
      sizes := Positive(p.sizes);
      if sizes == [] {
        return None, base;
      }
    } else {
      if p.size <= 0 {
        return None, base;
      }
      sizes := UniformRings(total, p.size);
    }
    base := sizes;
    if p.maxRings.Some? {
      if p.maxRings.value <= 0 {
        return None, base;
      }
      sizes := sizes[..Min(p.maxRings.value, |sizes|)];
    }
    var covered := Sum(sizes);
    if p.maxRings.None? && covered < total {
      sizes := sizes + [total - covered];
    }
    return Some(sizes), base;
  }

  lemma {:induction false} SumSame(sizes: seq<nat>, size: int)
    requires forall i :: 0 <= i < |sizes| ==> sizes[i] == size
    ensures Sum(sizes) == |sizes| * size
  {
    if sizes != [] {
      SumSame(sizes[1..], size);
    }
  }

  /** Uniform rings number total / size, rounded up: n is the number with
      (n - 1) * size < total <= n * size. Without `max_rings` they stay as they are. */
  lemma UniformPlan(base: seq<nat>, total: nat, p: RingPlan)
    requires p.sizes == [] && p.maxRings.None? && Base(base, total, p)
    ensures Planned(base, total, p) == base && Sum(base) == total
    ensures (|base| - 1) * p.size < total <= |base| * p.size
  {
    var n, last := |base|, base[|base| - 1];
    assert base == base[..n - 1] + [last];
    SumAppend(base[..n - 1], [last]);
    assert Sum([last]) == last + Sum([]);
    SumSame(base[..n - 1], p.size);
  }

  /** Any plan without `max_rings` reaches the whole fleet, any plan with it at most
      that many rings. */
  lemma PlanReaches(base: seq<nat>, total: nat, p: RingPlan)
    ensures p.maxRings.None? ==> Sum(Planned(base, total, p)) >= total
    ensures p.maxRings.Some? && p.maxRings.value >= 0 ==> |Planned(base, total, p)| <= p.maxRings.value
  {
    if p.maxRings.None? && Sum(base) < total {
      var rest := [total - Sum(base)];
      SumAppend(base, rest);
      assert Sum(rest) == rest[0] + Sum(rest[1..]);
    }
  }

  /** The slices are taken in order and without gaps: they make up the list as far as
      the sizes reach. */
  lemma {:induction false} SlicesArePrefix(devices: seq<string>, sizes: seq<nat>)
    ensures Flat(Slices(devices, sizes)) == devices[..Min(Sum(sizes), |devices|)]
  {
    if sizes != [] {
      var k := Min(sizes[0], |devices|);
      var m := Min(Sum(sizes[1..]), |devices| - k);
      SlicesArePrefix(devices[k..], sizes[1..]);
      FirstSlice(devices, sizes, k);
      PrefixInParts(devices, k, m);
      assert k + m == Min(Sum(sizes), |devices|);
    }
  }

  lemma FirstSlice(devices: seq<string>, sizes: seq<nat>, k: nat)
    requires sizes != [] && k == Min(sizes[0], |devices|)
    ensures Flat(Slices(devices, sizes)) == devices[..k] + Flat(Slices(devices[k..], sizes[1..]))
  {
    assert Slices(devices, sizes)[1..] == Slices(devices[k..], sizes[1..]);
  }

  lemma PrefixInParts<T>(s: seq<T>, k: nat, m: nat)
    requires k + m <= |s|
    ensures s[..k] + s[k..][..m] == s[..k + m]
  {}

  // ---------------------------------------------------------------------------
  // Running the rings
  // ---------------------------------------------------------------------------

  /** What is rolled out. The n-th attempt uses the n-th id and the n-th lookups. */
  datatype Order = Order(
    kind: string, command: string, plugin: Option<string>, stop: bool, ids: nat -> string, now: int,
        lookups: nat -> Lookup)

  datatype Item = Item(device: string, error: Option<nat>)

  function RequestFor(q: Order, device: string): Request {
    Request(Some(device), q.kind, q.command, if Truthy(q.plugin) then q.plugin else None, None)
  }

  function RunRing(c: Settings, t: Table, devices: seq<string>, q: Order, n: nat): (Table, seq<Item>)
    decreases |devices|
  {
    if devices == [] then (t, [])
    else
      var (u, error) := Attempt(c, t, RequestFor(q, devices[0]), q.ids(n), q.now, q.lookups(n));
      var (v, items) := RunRing(c, u, devices[1..], q, n + 1);
      (v, [Item(devices[0], error)] + items)
  }

  predicate HasFailure(items: seq<Item>) {
    exists i :: i in items && i.error.Some?
  }

  function RunRings(c: Settings, t: Table, slices: seq<seq<string>>, q: Order, n: nat): (Table, seq<seq<Item>>)
    decreases |slices|
  {
    if slices == [] then (t, [])
    else
      var (u, items) := RunRing(c, t, slices[0], q, n);
      if q.stop && HasFailure(items) then (u, [items])
      else
        var (v, rings) := RunRings(c, u, slices[1..], q, n + |slices[0]|);
        (v, [items] + rings)
  }

  /** The rings already run, followed by the rest. */
  function Joined<T>(done: seq<T>, rest: (Table, seq<T>)): (Table, seq<T>) {
    (rest.0, done + rest.1)
  }

  lemma JoinOne<T>(done: seq<T>, x: T, rest: (Table, seq<T>))
    ensures Joined(done, (rest.0, [x] + rest.1)) == Joined(done + [x], rest)
    ensures Joined(done, (rest.0, [])) == (rest.0, done) && Joined([], rest) == rest
  {
    assert done + ([x] + rest.1) == done + [x] + rest.1;
    assert done + [] == done && [] + rest.1 == rest.1;
  }

  lemma JoinEnds<T>(done: seq<T>, rows: Table)
    ensures Joined(done, (rows, [])) == (rows, done)
  {
    assert done + [] == done;
  }

  method DeployRing(store: Store, devices: seq<string>, q: Order, n: nat) returns (items: seq<Item>)
    modifies store
    ensures (store.rows, items) == RunRing(store.settings, old(store.rows), devices, q, n)
  {
    items := [];
    var i := 0;
    ghost var goal := RunRing(store.settings, store.rows, devices, q, n);
    assert devices[0..] == devices && [] + goal.1 == goal.1;
    while i < |devices|
      invariant 0 <= i <= |devices|
      invariant Joined(items, RunRing(store.settings, store.rows, devices[i..], q, n + i)) == goal
    {
      ghost var before := store.rows;
      var error := TryExecution(store, RequestFor(q, devices[i]), q.ids(n + i), q.now, q.lookups(n + i));
      NextDevice(store.settings, before, devices, q, n, i, items, store.rows, error);
      items := items + [Item(devices[i], error)];
      i := i + 1;
    }
    JoinEnds(items, store.rows);
  }

  /** One turn of the device loop. */
  lemma NextDevice(c: Settings, t: Table, devices: seq<string>, q: Order, n: nat, i: nat, items: seq<Item>,
                   u: Table, error: Option<nat>)
    requires i < |devices|
    requires (u, error) == Attempt(c, t, RequestFor(q, devices[i]), q.ids(n + i), q.now, q.lookups(n + i))
    ensures Joined(items, RunRing(c, t, devices[i..], q, n + i))
         == Joined(items + [Item(devices[i], error)], RunRing(c, u, devices[i + 1..], q, n + i + 1))
  {
    assert devices[i..][1..] == devices[i + 1..];
    JoinOne(items, Item(devices[i], error), RunRing(c, u, devices[i + 1..], q, n + i + 1));
  }

  /** All rings, each on its slice of the device list. */
  method DeployRings(store: Store, devices: seq<string>, sizes: seq<nat>, q: Order)
    returns (rings: seq<seq<Item>>, stopped: bool)
    modifies store
    ensures (store.rows, rings) == RunRings(store.settings, old(store.rows), Slices(devices, sizes), q, 0)
    ensures stopped <==> q.stop && rings != [] && HasFailure(rings[|rings| - 1])
  {
    rings := [];
    var cursor, j := 0, 0;
    ghost var all := RunRings(store.settings, store.rows, Slices(devices, sizes), q, 0);
    assert devices[0..] == devices && sizes[0..] == sizes && [] + all.1 == all.1;
    while j < |sizes|
      invariant 0 <= j <= |sizes| && 0 <= cursor <= |devices|
      invariant Joined(rings, RunRings(store.settings, store.rows, Slices(devices[cursor..], sizes[j..]), q, cursor))
          == all
      invariant rings != [] && q.stop ==> !HasFailure(rings[|rings| - 1])
    {
      var next := Min(cursor + sizes[j], |devices|);
      NextRing(store.settings, store.rows, devices, sizes, q, cursor, j, rings);
      var items := DeployRing(store, devices[cursor..next], q, cursor);
      rings := rings + [items];
      if q.stop && HasFailure(items) {
        return rings, true;
      }
      cursor := next;
      j := j + 1;
    }
    JoinEnds(rings, store.rows);
    return rings, false;
  }

  /** One turn of the ring loop. */
  lemma NextRing(c: Settings, t: Table, devices: seq<string>, sizes: seq<nat>, q: Order, cursor: nat, j: nat,
                 rings: seq<seq<Item>>)
    requires cursor <= |devices| && j < |sizes|
    ensures var next := Min(cursor + sizes[j], |devices|);
            var (u, items) := RunRing(c, t, devices[cursor..next], q, cursor);
            Joined(rings, RunRings(c, t, Slices(devices[cursor..], sizes[j..]), q, cursor))
            == if q.stop && HasFailure(items) then (u, rings + [items])
               else Joined(rings + [items], RunRings(c, u, Slices(devices[next..], sizes[j + 1..]), q, next))
  {
    var next := Min(cursor + sizes[j], |devices|);
    NextSlice(devices, sizes, cursor, j);
    var slice, rest := devices[cursor..next], Slices(devices[next..], sizes[j + 1..]);
    assert ([slice] + rest)[1..] == rest;
    var (u, items) := RunRing(c, t, slice, q, cursor);
    JoinOne(rings, items, RunRings(c, u, rest, q, next));
  }

  lemma NextSlice(devices: seq<string>, sizes: seq<nat>, cursor: nat, j: nat)
    requires cursor <= |devices| && j < |sizes|
    ensures var next := Min(cursor + sizes[j], |devices|);
            && cursor <= next
            && Slices(devices[cursor..], sizes[j..])
                == [devices[cursor..next]] + Slices(devices[next..], sizes[j + 1..])
  {
    var next := Min(cursor + sizes[j], |devices|);
    assert sizes[j..][1..] == sizes[j + 1..];
    assert devices[cursor..][..next - cursor] == devices[cursor..next];
    assert devices[cursor..][next - cursor..] == devices[next..];
  }

  datatype Reply = BadRequest | Rollout(rings: seq<seq<Item>>, planned: nat, stopped: bool, dispatched: nat,
      failed: nat)

  function Failures(items: seq<Item>): nat {
    if items == [] then 0 else (if items[0].error.Some? then 1 else 0) + Failures(items[1..])
  }

  function Dispatches(items: seq<Item>): nat {
    if items == [] then 0 else (if items[0].error.None? then 1 else 0) + Dispatches(items[1..])
  }

  /** A function rollout without a command gets one; any other must name it. */
  predicate Incomplete(q: Order) {
    if IsFunction(q.kind) then !Truthy(q.plugin) else q.command == ""
  }

  function Completed(q: Order): Order
    requires !Incomplete(q)
  {
    if IsFunction(q.kind) && q.command == "" then q.(command := q.kind + ":" + q.plugin.value) else q
  }

  /** What a rollout is refused for: sizes of which none is positive, a ring size or a number
      of rings that is not, a function without a plugin, or another kind without a command. */
  lemma RefusalsAreExplained(p: RingPlan, q: Order)
    ensures Malformed(p)
            <==> || (p.sizes != [] && forall x :: x in p.sizes ==> x <= 0)
                 || (p.sizes == [] && p.size <= 0)
                 || (p.maxRings.Some? && p.maxRings.value <= 0)
    ensures Incomplete(q)
            <==> if q.kind in {"function.install", "function.invoke"} then q.plugin == None || q.plugin == Some("")
                 else q.command == ""
    ensures !Incomplete(q) ==>
              && Completed(q).command == (if q.command != "" then q.command else q.kind + ":" + q.plugin.value)
              && Completed(q).kind == q.kind && Completed(q).plugin == q.plugin && Completed(q).stop == q.stop
  {
    PositiveKeeps(p.sizes);
  }

  /** Explicit sizes are kept in order, without those that are not positive. */
  lemma {:induction false} PositiveKeeps(sizes: seq<int>)
    ensures Positive(sizes) == [] <==> forall x :: x in sizes ==> x <= 0
  {
    if sizes != [] {
      var rest := sizes[1..];
      PositiveKeeps(rest);
      assert Positive(sizes) == (if sizes[0] > 0 then [sizes[0]] else []) + Positive(rest);
      assert sizes[0] in sizes && forall x :: x in sizes <==> x == sizes[0] || x in rest;
      if sizes[0] > 0 {
        assert Positive(sizes)[0] == sizes[0];
      }
    }
  }

  lemma {:induction false} PositiveSum(a: seq<int>, b: seq<int>)
    ensures Positive(a + b) == Positive(a) + Positive(b)
    ensures forall x :: Positive([x]) == if x > 0 then [x] else []
  {
    forall x: int ensures Positive([x]) == if x > 0 then [x] else [] {
      assert [x][1..] == [];
    }
    if a == [] {
      assert a + b == b;
    } else {
      assert (a + b)[1..] == a[1..] + b;
      PositiveSum(a[1..], b);
    }
  }

  /** A plan with explicit sizes is these, and one last ring for the rest of the fleet if
      they do not reach it and the number of rings is not limited. */
  lemma ExplicitPlan(base: seq<nat>, total: nat, p: RingPlan)
    requires p.sizes != [] && Base(base, total, p)
    ensures p.maxRings.None? ==>
              Planned(base, total, p)
              == Positive(p.sizes) + if Sum(Positive(p.sizes)) < total then [total - Sum(Positive(p.sizes))] else []
    ensures p.maxRings.Some? && p.maxRings.value > 0 ==> Planned(base, total, p) <= Positive(p.sizes)
  {}

  method RolloutToFleet(store: Store, devices: seq<string>, p: RingPlan, q: Order)
    returns (reply: Reply, ghost base: seq<nat>)
    modifies store
    ensures reply.BadRequest? <==> devices == [] || Incomplete(q) || Malformed(p)
    ensures reply.BadRequest? ==> store.rows == old(store.rows)
    ensures reply.Rollout? ==>
              var sizes := Planned(base, |devices|, p);
              && Base(base, |devices|, p)
              && reply.planned == |sizes|
              && (store.rows, reply.rings)
                 == RunRings(store.settings, old(store.rows), Slices(devices, sizes), Completed(q), 0)
              && (reply.stopped <==> q.stop && reply.rings != [] && HasFailure(reply.rings[|reply.rings| - 1]))
    ensures reply.Rollout? ==>
              && reply.failed == Failures(Flat(reply.rings))
              && reply.dispatched + reply.failed == |Flat(Attempted(reply.rings))|
  {
    base := [];
    if devices == [] || Incomplete(q) {
      return BadRequest, base;
    }
    var order := Completed(q);
    var sizes;
    sizes, base := ComputeCanaryRings(|devices|, p);
    if sizes.None? {
      return BadRequest, base;
    }
    var rings, stopped := DeployRings(store, devices, sizes.value, order);
    CountsAddUp(rings);
    var all := Flat(rings);
    return Rollout(rings, |sizes.value|, stopped, Dispatches(all), Failures(all)), base;
  }

  lemma {:induction false} CountsSplit(a: seq<Item>, b: seq<Item>)
    ensures Failures(a + b) == Failures(a) + Failures(b) && Dispatches(a + b) == Dispatches(a) + Dispatches(b)
    ensures Dispatches(a) + Failures(a) == |a|
  {
    if a == [] {
      assert a + b == b;
    } else {
      assert (a + b)[1..] == a[1..] + b;
      CountsSplit(a[1..], b);
    }
  }

  /** Every attempt is counted once, as dispatched or as failed. */
  lemma {:induction false} CountsAddUp(rings: seq<seq<Item>>)
    ensures Dispatches(Flat(rings)) + Failures(Flat(rings)) == |Flat(Attempted(rings))|
  {
    if rings != [] {
      CountsSplit(rings[0], Flat(rings[1..]));
      CountsAddUp(rings[1..]);
      assert Attempted(rings)[1..] == Attempted(rings[1..]);
    }
  }

  // ---------------------------------------------------------------------------
  // What a rollout attempts
  // ---------------------------------------------------------------------------

  function DevicesOf(items: seq<Item>): seq<string> {
    seq(|items|, i requires 0 <= i < |items| => items[i].device)
  }

  lemma {:induction false} RingAttemptsItsSlice(c: Settings, t: Table, devices: seq<string>, q: Order, n: nat)
    ensures DevicesOf(RunRing(c, t, devices, q, n).1) == devices
    decreases |devices|
  {
    if devices != [] {
      var u := Attempt(c, t, RequestFor(q, devices[0]), q.ids(n), q.now, q.lookups(n)).0;
      RingAttemptsItsSlice(c, u, devices[1..], q, n + 1);
    }
  }

  /** What is known of the rings that were run. */
  ghost predicate RingsFit(rings: seq<seq<Item>>, slices: seq<seq<string>>, stop: bool) {
    && |rings| <= |slices|
    && (forall j :: 0 <= j < |rings| ==> DevicesOf(rings[j]) == slices[j])
    && (stop ==> forall j :: 0 <= j < |rings| - 1 ==> !HasFailure(rings[j]))
    && (|rings| < |slices| ==> stop && rings != [] && HasFailure(rings[|rings| - 1]))
  }

  lemma FirstRingFits(items: seq<Item>, rest: seq<seq<Item>>, slices: seq<seq<string>>, stop: bool)
    requires slices != [] && DevicesOf(items) == slices[0]
    requires if stop && HasFailure(items) then rest == [] else RingsFit(rest, slices[1..], stop)
    ensures RingsFit([items] + rest, slices, stop)
  {}

  /** Rings are run in order, each on exactly its slice; a rollout that stops on
      failure ends with the first ring that has one, and otherwise runs them all. */
  lemma {:induction false} RingsEndAtFailure(c: Settings, t: Table, slices: seq<seq<string>>, q: Order, n: nat)
    ensures RingsFit(RunRings(c, t, slices, q, n).1, slices, q.stop)
    decreases |slices|
  {
    if slices != [] {
      RingAttemptsItsSlice(c, t, slices[0], q, n);
      var (u, items) := RunRing(c, t, slices[0], q, n);
      if q.stop && HasFailure(items) {
        FirstRingFits(items, [], slices, q.stop);
        assert [items] + [] == [items];
      } else {
        RingsEndAtFailure(c, u, slices[1..], q, n + |slices[0]|);
        FirstRingFits(items, RunRings(c, u, slices[1..], q, n + |slices[0]|).1, slices, q.stop);
      }
    }
  }

  lemma {:induction false} FlatPrefix<T>(a: seq<seq<T>>, b: seq<seq<T>>)
    requires a <= b
    ensures Flat(a) <= Flat(b)
  {
    if a != [] {
      FlatPrefix(a[1..], b[1..]);
    }
  }

  function Attempted(rings: seq<seq<Item>>): seq<seq<string>> {
    seq(|rings|, j requires 0 <= j < |rings| => DevicesOf(rings[j]))
  }

  /** The attempts are the first slices of the plan, and the only reason to stop
      before the last one is a failure in the last ring run. */
  lemma AttemptsAreSlices(c: Settings, t: Table, slices: seq<seq<string>>, q: Order)
    ensures var rings := RunRings(c, t, slices, q, 0).1;
            && Attempted(rings) <= slices
            && (|rings| < |slices| ==> q.stop && rings != [] && HasFailure(rings[|rings| - 1]))
            && (q.stop ==> forall j :: 0 <= j < |rings| - 1 ==> !HasFailure(rings[j]))
  {
    RingsEndAtFailure(c, t, slices, q, 0);
  }

  /** The devices a rollout attempts are, in order, a prefix of the fleet that ends at
      a ring boundary; without `max_rings` and without an early stop it is the fleet. */
  lemma RolloutCoversInOrder(c: Settings, t: Table, devices: seq<string>, base: seq<nat>, p: RingPlan, q: Order)
    requires devices != [] && Base(base, |devices|, p) && !Malformed(p)
    ensures var slices := Slices(devices, Planned(base, |devices|, p));
            var rings := RunRings(c, t, slices, q, 0).1;
            && Attempted(rings) <= slices
            && Flat(Attempted(rings)) <= devices
            && (|rings| == |slices| && p.maxRings.None? ==> Flat(Attempted(rings)) == devices)
            && (|rings| < |slices| ==> q.stop && rings != [] && HasFailure(rings[|rings| - 1]))
            && (q.stop ==> forall j :: 0 <= j < |rings| - 1 ==> !HasFailure(rings[j]))
  {
    var sizes := Planned(base, |devices|, p);
    var slices := Slices(devices, sizes);
    AttemptsAreSlices(c, t, slices, q);
    PlanReaches(base, |devices|, p);
    SlicesArePrefix(devices, sizes);
    PrefixOfFleet(devices, slices, Attempted(RunRings(c, t, slices, q, 0).1), Min(Sum(sizes), |devices|));
  }

  lemma PrefixOfFleet(devices: seq<string>, slices: seq<seq<string>>, attempted: seq<seq<string>>, k: nat)
    requires attempted <= slices && k <= |devices| && Flat(slices) == devices[..k]
    ensures Flat(attempted) <= devices
    ensures |attempted| == |slices| && k == |devices| ==> Flat(attempted) == devices
  {
    FlatPrefix(attempted, slices);
    assert |attempted| == |slices| ==> attempted == slices;
  }

  // ---------------------------------------------------------------------------
  // Which devices a command rollout reaches
  // ---------------------------------------------------------------------------

  ghost predicate Distinct(devices: seq<string>) {
    forall i, j :: 0 <= i < j < |devices| ==> devices[i] != devices[j]
  }

  predicate PermittedOrder(c: Settings, q: Order) {
    !IsFunction(q.kind) && !c.blocked(q.kind, q.command)
  }

  /** What an attempt on a device must give, judged by the table before the rollout. */
  function Verdict(c: Settings, t: Table, device: string): Option<nat> {
    if Room(c, t, device) > 0 then None else Some(429)
  }

  lemma OtherDevicesKeepRoom(c: Settings, t: Table, q: Order, device: string, id: string, n: nat, d: string)
    requires PermittedOrder(c, q) && device != "" && id !in t && d != device
    ensures Room(c, Attempt(c, t, RequestFor(q, device), id, q.now, q.lookups(n)).0, d) == Room(c, t, d)
  {
    var u := Attempt(c, t, RequestFor(q, device), id, q.now, q.lookups(n)).0;
    assert ActiveIds(u, d) == ActiveIds(t, d);
  }

  lemma OneAttempt(c: Settings, t: Table, q: Order, device: string, n: nat)
    requires PermittedOrder(c, q) && device != "" && FreshIds(t, q.ids, n)
    ensures var (u, error) := Attempt(c, t, RequestFor(q, device), q.ids(n), q.now, q.lookups(n));
            error == Verdict(c, t, device) && FreshIds(u, q.ids, n + 1)
  {
    if Room(c, t, device) > 0 {
      AttemptTakesPlace(c, t, RequestFor(q, device), q.ids(n), q.now, q.lookups(n));
    }
  }

  lemma {:induction false} RingOutcome(c: Settings, t: Table, devices: seq<string>, q: Order, n: nat)
    requires PermittedOrder(c, q) && Distinct(devices) && "" !in devices && FreshIds(t, q.ids, n)
    ensures var (u, items) := RunRing(c, t, devices, q, n);
            && FreshIds(u, q.ids, n + |devices|)
            && Judged(c, t, devices, items)
            && (forall d :: d !in devices ==> Room(c, u, d) == Room(c, t, d))
    decreases |devices|
  {
    if devices != [] {
      var d0 := devices[0];
      var u := Attempt(c, t, RequestFor(q, d0), q.ids(n), q.now, q.lookups(n)).0;
      OneAttempt(c, t, q, d0, n);
      forall d | d != d0 ensures Room(c, u, d) == Room(c, t, d) { OtherDevicesKeepRoom(c, t, q, d0, q.ids(n), n, d); }
      assert forall i :: 0 < i < |devices| ==> devices[i] != d0;
      RingOutcome(c, u, devices[1..], q, n + 1);
    }
  }

  ghost predicate Full(c: Settings, t: Table, slice: seq<string>) {
    exists d :: d in slice && Room(c, t, d) == 0
  }

  /** The items of a ring, judged by the table before the rollout. */
  ghost predicate Judged(c: Settings, t: Table, slice: seq<string>, items: seq<Item>) {
    && |items| == |slice|
    && forall i :: 0 <= i < |items| ==> items[i] == Item(slice[i], Verdict(c, t, slice[i]))
  }

  /** The number of rings up to the first that holds a device without room, or all. */
  ghost function RingsToRun(c: Settings, t: Table, slices: seq<seq<string>>, stop: bool): nat {
    if slices == [] then 0
    else if stop && Full(c, t, slices[0]) then 1
    else 1 + RingsToRun(c, t, slices[1..], stop)
  }

  /** In a command rollout over different devices every attempt succeeds exactly when
      its device had room before the rollout began, and with `stop_on_failure` the
      rings run are all those up to the first that holds a device without room. */
  lemma {:induction false} RolloutOutcome(c: Settings, t: Table, slices: seq<seq<string>>, q: Order, n: nat)
    requires PermittedOrder(c, q) && Distinct(Flat(slices)) && "" !in Flat(slices) && FreshIds(t, q.ids, n)
    ensures var rings := RunRings(c, t, slices, q, n).1;
            && |rings| == RingsToRun(c, t, slices, q.stop) <= |slices|
            && forall j :: 0 <= j < |rings| ==> Judged(c, t, slices[j], rings[j])
    decreases |slices|
  {
    if slices != [] {
      var s0 := slices[0];
      SplitDistinct(s0, Flat(slices[1..]));
      RingOutcome(c, t, s0, q, n);
      var (u, items) := RunRing(c, t, s0, q, n);
      FullMeansFailure(c, t, s0, items);
      if !(q.stop && HasFailure(items)) {
        RolloutOutcome(c, u, slices[1..], q, n + |s0|);
        var rest := RunRings(c, u, slices[1..], q, n + |s0|).1;
        SameRings(c, t, u, slices[1..], q.stop);
        forall j | 0 <= j < |rest| ensures Judged(c, t, slices[1..][j], rest[j]) {
          SameVerdicts(c, t, u, slices[1..], j);
          assert Judged(c, u, slices[1..][j], rest[j]);
        }
      }
    }
  }

  lemma SplitDistinct(a: seq<string>, b: seq<string>)
    requires Distinct(a + b) && "" !in a + b
    ensures Distinct(a) && Distinct(b) && "" !in a && "" !in b && forall d :: d in b ==> d !in a
  {
    forall i, j | 0 <= i < j < |a| ensures a[i] != a[j] { assert (a + b)[i] != (a + b)[j]; }
    forall i, j | 0 <= i < j < |b| ensures b[i] != b[j] { assert (a + b)[|a| + i] != (a + b)[|a| + j]; }
    forall d | d in b ensures d !in a {
      var j :| 0 <= j < |b| && b[j] == d;
      forall i | 0 <= i < |a| ensures a[i] != d { assert (a + b)[i] != (a + b)[|a| + j]; }
    }
  }

  lemma FullMeansFailure(c: Settings, t: Table, slice: seq<string>, items: seq<Item>)
    requires Judged(c, t, slice, items)
    ensures HasFailure(items) <==> Full(c, t, slice)
  {
    if d :| d in slice && Room(c, t, d) == 0 {
      var i :| 0 <= i < |slice| && slice[i] == d;
      assert items[i] in items;
    }
  }

  /** What `RingsToRun` counts. */
  lemma {:induction false} RingsToRunIsFirst(c: Settings, t: Table, slices: seq<seq<string>>, stop: bool)
    ensures var k := RingsToRun(c, t, slices, stop);
            && k <= |slices|
            && (forall j :: 0 <= j < k - 1 ==> !(stop && Full(c, t, slices[j])))
            && (k < |slices| ==> stop && k > 0 && Full(c, t, slices[k - 1]))
  {
    if slices != [] {
      RingsToRunIsFirst(c, t, slices[1..], stop);
    }
  }

  lemma {:induction false} InFlat(slices: seq<seq<string>>, j: nat, d: string)
    requires j < |slices| && d in slices[j]
    ensures d in Flat(slices)
  {
    if j > 0 {
      InFlat(slices[1..], j - 1, d);
    }
  }

  lemma SameVerdicts(c: Settings, t: Table, u: Table, slices: seq<seq<string>>, j: nat)
    requires j < |slices| && forall d :: d in Flat(slices) ==> Room(c, u, d) == Room(c, t, d)
    ensures Full(c, u, slices[j]) <==> Full(c, t, slices[j])
    ensures forall i :: 0 <= i < |slices[j]| ==> Verdict(c, u, slices[j][i]) == Verdict(c, t, slices[j][i])
  {
    forall d | d in slices[j] ensures Room(c, u, d) == Room(c, t, d) { InFlat(slices, j, d); }
  }

  lemma {:induction false} SameRings(c: Settings, t: Table, u: Table, slices: seq<seq<string>>, stop: bool)
    requires forall d :: d in Flat(slices) ==> Room(c, u, d) == Room(c, t, d)
    ensures RingsToRun(c, t, slices, stop) == RingsToRun(c, u, slices, stop)
  {
    if slices != [] {
      SameVerdicts(c, t, u, slices, 0);
      SameRings(c, t, u, slices[1..], stop);
    }
  }
}
