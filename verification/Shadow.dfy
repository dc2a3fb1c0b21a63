/** The device shadow: desired and reported state, their cached delta, the version
    counter and the events published. It has three writers: the desired and reported
    endpoints, and the telemetry of an agent's heartbeat. Each update is one serialised
    step. */
module Shadow {
  import opened Prelude

  /** A JSON value up to Python's comparison: booleans are the numbers 0 and 1, which
      they compare equal to. NaN is a value of its own, because as a top-level value it
      compares unequal even to itself. */
  datatype Json =
    | Null | NaN | Number(n: real) | Text(s: string)
    | List(items: seq<Json>) | Object(fields: map<string, Json>)

  type State = map<string, Json>

  /** Columns that were never written are None. */
  datatype Doc = Doc(
    desired: Option<State>, reported: Option<State>, delta: Option<State>, version: nat,
    desiredAt: Option<int>, reportedAt: Option<int>)

  datatype Event = Delta(version: nat, delta: State) | Synced(version: nat)

  const NEW := Doc(None, None, None, 1, None, None)

  /** json.loads(column) if column else {} */
  function Loaded(column: Option<State>): State {
    if column.Some? then column.value else map[]
  }

  /** Python's `a != b` between two values. */
  predicate Differs(a: Json, b: Json) {
    a != b || a.NaN?
  }

  /** dict.get */
  function Get(s: State, k: string): Json {
    if k in s then s[k] else Null
  }

  function ComputeDelta(desired: State, reported: State): State {
    map k | k in desired && Differs(Get(reported, k), desired[k]) :: desired[k]
  }

  /** A shallow merge in which null removes a key. */
  function Merge(s: State, patch: State): State {
    map k | k in s.Keys + patch.Keys && (if k in patch then patch[k] else s[k]) != Null ::
      if k in patch then patch[k] else s[k]
  }

  /** A shallow merge in which null is a value like any other. */
  function Overlay(s: State, patch: State): State {
    s + patch
  }

  // ---------------------------------------------------------------------------
  // One shadow over its updates
  // ---------------------------------------------------------------------------

  datatype Update =
    | Desired(patch: State, now: int)
    | Reported(patch: State, now: int)
    | Heartbeat(patch: State, now: int)

  /** A heartbeat without telemetry does not touch the shadow. */
  predicate Idle(u: Update) {
    u.Heartbeat? && u.patch == map[]
  }

  function Applied(d: Doc, u: Update): Doc {
    match u
    case Desired(patch, now) =>
      var merged := Merge(Loaded(d.desired), patch);
      d.(desired := Some(merged), delta := Some(ComputeDelta(merged, Loaded(d.reported))), version := d.version + 1,
         desiredAt := Some(now))
    case Reported(patch, now) =>
      var merged := Merge(Loaded(d.reported), patch);
      d.(reported := Some(merged), delta := Some(ComputeDelta(Loaded(d.desired), merged)), version := d.version + 1,
         reportedAt := Some(now))
    case Heartbeat(patch, now) =>
      if patch == map[] then d
      else
        var merged := Overlay(Loaded(d.reported), patch);
        d.(reported := Some(merged), delta := Some(ComputeDelta(Loaded(d.desired), merged)), version := d.version + 1,
           reportedAt := Some(now))
  }

  /** A non-empty delta is announced; an empty one only by the reported endpoint. */
  function Published(d: Doc, u: Update): seq<Event> {
    var after := Applied(d, u);
    if Idle(u) then []
    else if Loaded(after.delta) != map[] then [Event.Delta(after.version, Loaded(after.delta))]
    else if u.Reported? then [Synced(after.version)]
    else []
  }

  function Replay(d: Doc, updates: seq<Update>): Doc
    decreases |updates|
  {
    if updates == [] then d else Replay(Applied(d, updates[0]), updates[1..])
  }

  ghost predicate NoNull(s: State) {
    forall k :: k in s ==> s[k] != Null
  }

  /** The delta holds exactly the desired entries that are missing from the reported
      state or differ there. */
  ghost predicate ExactDelta(delta: State, desired: State, reported: State) {
    forall k ::
      && (k in delta <==> k in desired && (k !in reported || reported[k] != desired[k] || desired[k].NaN?))
      && (k in delta ==> delta[k] == desired[k])
  }

  ghost predicate Consistent(d: Doc) {
    && NoNull(Loaded(d.desired))
    && ExactDelta(Loaded(d.delta), Loaded(d.desired), Loaded(d.reported))
  }

  lemma AppliedKeepsConsistent(d: Doc, u: Update)
    requires Consistent(d)
    ensures Consistent(Applied(d, u))
  {}

  /** How many updates are counted by the version. */
  function Counted(updates: seq<Update>): nat {
    if updates == [] then 0 else (if Idle(updates[0]) then 0 else 1) + Counted(updates[1..])
  }

  /** In every reachable state the desired half holds no top-level null, the cached delta
      is exact, and the version has grown by one for each update but empty heartbeats. */
  lemma {:induction false} DeltaIsExact(d: Doc, updates: seq<Update>)
    requires Consistent(d)
    ensures Consistent(Replay(d, updates))
    ensures Replay(d, updates).version == d.version + Counted(updates)
    decreases |updates|
  {
    if updates != [] {
      AppliedKeepsConsistent(d, updates[0]);
      DeltaIsExact(Applied(d, updates[0]), updates[1..]);
    }
  }

  /** The value of the last patch of one half that names a key; null when it is removed,
      or a heartbeat says so. */
  function LastWritten(updates: seq<Update>, desired: bool, k: string): Option<Json> {
    if updates == [] then None
    else
      var u := updates[|updates| - 1];
      if u.Desired? == desired && k in u.patch then Some(u.patch[k])
      else LastWritten(updates[..|updates| - 1], desired, k)
  }

  /** The last heartbeat since the last report that names the key set it to null. */
  predicate NullLeft(updates: seq<Update>, k: string) {
    updates != [] &&
    var n := |updates| - 1;
    match updates[n]
    case Desired(_, _) => NullLeft(updates[..n], k)
    case Reported(_, _) => false
    case Heartbeat(patch, _) => if k in patch then patch[k] == Null else NullLeft(updates[..n], k)
  }

  lemma {:induction false} ReplaySplit(d: Doc, a: seq<Update>, b: seq<Update>)
    ensures Replay(d, a + b) == Replay(Replay(d, a), b)
    decreases |a|
  {
    if a == [] {
      assert a + b == b;
    } else {
      assert (a + b)[1..] == a[1..] + b;
      ReplaySplit(Applied(d, a[0]), a[1..], b);
    }
  }

  lemma ReplayLast(d: Doc, updates: seq<Update>)
    requires updates != []
    ensures var n := |updates| - 1; Replay(d, updates) == Applied(Replay(d, updates[..n]), updates[n])
  {
    var n := |updates| - 1;
    assert updates == updates[..n] + [updates[n]] && [updates[n]][1..] == [];
    ReplaySplit(d, updates[..n], [updates[n]]);
    var before := Replay(d, updates[..n]);
    assert Replay(before, [updates[n]]) == Replay(Applied(before, updates[n]), []);
  }

  /** After any history of updates each key of the desired half has the value of the last
      patch that names it, and is absent if that is null or there is none. */
  lemma {:induction false} LastPatchWins(updates: seq<Update>, k: string)
    ensures var s := Loaded(Replay(NEW, updates).desired); var w := LastWritten(updates, true, k);
            && Get(s, k) == (if w.Some? then w.value else Null)
            && (k in s <==> w.Some? && w.value != Null)
    decreases |updates|
  {
    if updates != [] {
      ReplayLast(NEW, updates);
      LastPatchWins(updates[..|updates| - 1], k);
    }
  }

  /** A key of the reported half reads as the last report or heartbeat that names it says.
      It is there if that is not null, and also if it is a null that a heartbeat left and
      no report has cleared since; such nulls are there exactly then. */
  lemma {:induction false} LastReportWins(updates: seq<Update>, k: string)
    ensures var s := Loaded(Replay(NEW, updates).reported); var w := LastWritten(updates, false, k);
            && Get(s, k) == (if w.Some? then w.value else Null)
            && (k in s <==> (w.Some? && w.value != Null) || NullLeft(updates, k))
            && (k in s && s[k] == Null <==> NullLeft(updates, k))
    decreases |updates|
  {
    if updates != [] {
      ReplayLast(NEW, updates);
      LastReportWins(updates[..|updates| - 1], k);
    }
  }

  /** Such a null: one heartbeat on a new shadow. The reported endpoint would have
      removed the key. */
  lemma HeartbeatLeavesNull(k: string, now: int)
    ensures Loaded(Replay(NEW, [Heartbeat(map[k := Null], now)]).reported) == map[k := Null]
    ensures Loaded(Replay(NEW, [Reported(map[k := Null], now)]).reported) == map[]
  {
    ReplayLast(NEW, [Heartbeat(map[k := Null], now)]);
    ReplayLast(NEW, [Reported(map[k := Null], now)]);
    assert [Heartbeat(map[k := Null], now)][..0] == [] && [Reported(map[k := Null], now)][..0] == [];
  }

  /** Reporting the current delta leaves in it exactly the NaN entries; so it empties
      it, and publishes `synced`, if and only if the desired state holds no NaN. */
  lemma ReportingDeltaConverges(d: Doc, now: int)
    requires Consistent(d)
    ensures var u := Reported(Loaded(d.delta), now); var after := Applied(d, u); var desired := Loaded(d.desired);
            && (forall k :: k in Loaded(after.delta) <==> k in desired && desired[k].NaN?)
            && (Loaded(after.delta) == map[] <==> forall k :: k in desired ==> !desired[k].NaN?)
            && (Published(d, u) == [Synced(d.version + 1)] <==> forall k :: k in desired ==> !desired[k].NaN?)
  {
    var u := Reported(Loaded(d.delta), now);
    var after := Applied(d, u);
    var merged, desired := Loaded(after.reported), Loaded(d.desired);
    forall k | k in desired ensures k in merged && merged[k] == desired[k] {
      if k !in Loaded(d.delta) {
        assert k in Loaded(d.reported);
      }
    }
    AppliedKeepsConsistent(d, u);
    if forall k :: k in desired ==> !desired[k].NaN? {
      assert Loaded(after.delta) == map[];
    }
  }

  /** What is desired and not yet reported so. */
  ghost predicate OutOfSync(d: Doc) {
    exists k :: k in Loaded(d.desired)
      && (k !in Loaded(d.reported) || Loaded(d.reported)[k] != Loaded(d.desired)[k] || Loaded(d.desired)[k].NaN?)
  }

  /** What an update tells the others: while the shadow is out of sync afterwards, exactly
      the new version and what is missing; in sync, the new version if the device reported
      it, and nothing otherwise. */
  lemma AnnouncesExactly(d: Doc, u: Update)
    requires Consistent(d) && !Idle(u)
    ensures var after := Applied(d, u);
            if OutOfSync(after) then
              exists delta :: Published(d, u) == [Event.Delta(d.version + 1, delta)]
                              && ExactDelta(delta, Loaded(after.desired), Loaded(after.reported))
            else Published(d, u) == if u.Reported? then [Synced(d.version + 1)] else []
    ensures Applied(d, u).version == d.version + 1
  {
    var after := Applied(d, u);
    AppliedKeepsConsistent(d, u);
    var delta := Loaded(after.delta);
    assert ExactDelta(delta, Loaded(after.desired), Loaded(after.reported));
    if OutOfSync(after) {
      var k :| k in Loaded(after.desired)
        && (k !in Loaded(after.reported) || Loaded(after.reported)[k] != Loaded(after.desired)[k]
            || Loaded(after.desired)[k].NaN?);
      assert k in delta;
    } else {
      assert forall k :: k !in delta;
      assert delta == map[];
    }
  }

  /** The times at which a half was last written are those of its last update. */
  lemma TimesAreUpdates(d: Doc, u: Update)
    requires !Idle(u)
    ensures Applied(d, u).desiredAt == if u.Desired? then Some(u.now) else d.desiredAt
    ensures Applied(d, u).reportedAt == if u.Desired? then d.reportedAt else Some(u.now)
  {}

  /** A heartbeat that carries the delta empties it as well, but nobody is told: no
      heartbeat ever publishes `synced`. */
  lemma HeartbeatSyncsSilently(d: Doc, now: int)
    requires Consistent(d) && forall k :: k in Loaded(d.desired) ==> !Loaded(d.desired)[k].NaN?
    ensures var u := Heartbeat(Loaded(d.delta), now); Loaded(Applied(d, u).delta) == map[] && Published(d, u) == []
    ensures forall patch, version :: Synced(version) !in Published(d, Heartbeat(patch, now))
  {
    var u := Heartbeat(Loaded(d.delta), now);
    AppliedKeepsConsistent(d, u);
    var after := Applied(d, u);
    forall k | k in Loaded(d.desired) ensures k !in Loaded(after.delta) {
      if k !in Loaded(d.delta) {
        assert k in Loaded(d.reported);
      }
    }
    assert Loaded(after.delta) == map[];
  }

  /** A device that desires NaN never comes into sync by reporting it. */
  lemma NaNNeverSyncs(now: int)
    ensures var d := Applied(NEW, Desired(map["t" := NaN], now));
            var after := Applied(d, Reported(map["t" := NaN], now));
            Loaded(after.reported) == Loaded(after.desired) && Loaded(after.delta) == map["t" := NaN]
  {
    var d := Applied(NEW, Desired(map["t" := NaN], now));
    var after := Applied(d, Reported(map["t" := NaN], now));
    assert Loaded(d.desired) == map["t" := NaN];
    assert Loaded(after.reported) == map["t" := NaN];
  }

  /** Adjacent updates of different halves may be exchanged: all but the times at
      which events go out is the same. */
  lemma UpdatesCommute(d: Doc, p: State, now: int, other: Update)
    requires !other.Desired?
    ensures Applied(Applied(d, Desired(p, now)), other) == Applied(Applied(d, other), Desired(p, now))
  {}

  lemma {:induction false} MergeTwice(s: State, p: State)
    ensures Merge(Merge(s, p), p) == Merge(s, p)
  {
    var once := Merge(s, p);
    assert forall k :: k in Merge(once, p) <==> k in once;
  }

  /** A redelivered patch changes the version and nothing else of the state. */
  lemma RedeliveryIsHarmless(d: Doc, u: Update)
    ensures Applied(Applied(d, u), u) == Applied(d, u).(version := d.version + 2 * Counted([u]))
  {
    MergeTwice(Loaded(if u.Desired? then d.desired else d.reported), u.patch);
    assert Overlay(Overlay(Loaded(d.reported), u.patch), u.patch) == Overlay(Loaded(d.reported), u.patch);
    assert [u][1..] == [];
  }

  // ---------------------------------------------------------------------------
  // The endpoints
  // ---------------------------------------------------------------------------

  class Shadows {
    var devices: set<string>
    var docs: map<string, Doc>
    var events: seq<(string, Event)>

    constructor (devices: set<string>)
      ensures this.devices == devices && docs == map[] && events == []
    {
      this.devices := devices;
      docs, events := map[], [];
    }

    ghost predicate Valid()
      reads this
    {
      forall id :: id in docs ==> Consistent(docs[id])
    }

    /** A device without a shadow answers with an empty one of version 0. */
    method GetShadow(device: string) returns (r: Option<Doc>)
      requires Valid()
      ensures r.Some? ==> Consistent(r.value)
      ensures r == if device !in devices then None
                   else if device in docs then Some(docs[device]) else Some(NEW.(version := 0))
    {
      if device !in devices {
        return None;
      }
      if device in docs {
        return Some(docs[device]);
      }
      return Some(Doc(None, None, None, 0, None, None));
    }

    method GetOrCreate(device: string) returns (d: Doc)
      modifies this`docs
      ensures d == (if device in old(docs) then old(docs)[device] else NEW)
      ensures docs == old(docs)[device := d]
    {
      if device !in docs {
        docs := docs[device := Doc(None, None, None, 1, None, None)];
      }
      d := docs[device];
      assert device in old(docs) ==> docs == docs[device := d];
    }

    /** `None` answers 404. */
    method UpdateDesired(device: string, patch: State, now: int) returns (r: Option<Doc>)
      requires Valid()
      modifies this`docs, this`events
      ensures Valid()
      ensures device !in devices ==> r == None && docs == old(docs) && events == old(events)
      ensures device in devices ==>
                var before := if device in old(docs) then old(docs)[device] else NEW;
                && r == Some(Applied(before, Desired(patch, now))) && docs == old(docs)[device := r.value]
                && events == old(events) + For(device, Published(before, Desired(patch, now)))
    {
      if device !in devices {
        return None;
      }
      var shadow := GetOrCreate(device);
      ghost var before := shadow;
      var merged := Merge(Loaded(shadow.desired), patch);
      var delta := ComputeDelta(merged, Loaded(shadow.reported));
      shadow := shadow.(desired := Some(merged), delta := Some(delta), version := shadow.version + 1,
          desiredAt := Some(now));
      AppliedKeepsConsistent(before, Desired(patch, now));
      docs := docs[device := shadow];
      if delta != map[] {
        events := events + [(device, Event.Delta(shadow.version, delta))];
      }
      return Some(shadow);
    }

    method UpdateReported(device: string, patch: State, now: int) returns (r: Option<Doc>)
      requires Valid()
      modifies this`docs, this`events
      ensures Valid()
      ensures device !in devices ==> r == None && docs == old(docs) && events == old(events)
      ensures device in devices ==>
                var before := if device in old(docs) then old(docs)[device] else NEW;
                && r == Some(Applied(before, Reported(patch, now))) && docs == old(docs)[device := r.value]
                && events == old(events) + For(device, Published(before, Reported(patch, now)))
    {
      if device !in devices {
        return None;
      }
      var shadow := GetOrCreate(device);
      ghost var before := shadow;
      var merged := Merge(Loaded(shadow.reported), patch);
      var delta := ComputeDelta(Loaded(shadow.desired), merged);
      shadow := shadow.(reported := Some(merged), delta := Some(delta), version := shadow.version + 1,
          reportedAt := Some(now));
      AppliedKeepsConsistent(before, Reported(patch, now));
      docs := docs[device := shadow];
      if delta != map[] {
        events := events + [(device, Event.Delta(shadow.version, delta))];
      } else {
        events := events + [(device, Synced(shadow.version))];
      }
      return Some(shadow);
    }

    /** The telemetry of an agent's heartbeat; false answers 404. */
    method AgentHeartbeat(device: string, telemetry: Option<State>, now: int) returns (found: bool)
      requires Valid()
      modifies this`docs, this`events
      ensures Valid() && found == (device in devices)
      ensures !found || telemetry.None? || telemetry.value == map[] ==> docs == old(docs) && events == old(events)
      ensures found && telemetry.Some? && telemetry.value != map[] ==>
                var before := if device in old(docs) then old(docs)[device] else NEW;
                var u := Heartbeat(telemetry.value, now);
                && docs == old(docs)[device := Applied(before, u)]
                && events == old(events) + For(device, Published(before, u))
    {
      found := device in devices;
      if found && telemetry.Some? && telemetry.value != map[] {
        UpdateShadowReported(device, telemetry.value, now);
      }
    }

    method UpdateShadowReported(device: string, telemetry: State, now: int)
      requires Valid() && telemetry != map[]
      modifies this`docs, this`events
      ensures Valid()
      ensures var before := if device in old(docs) then old(docs)[device] else NEW;
              var u := Heartbeat(telemetry, now);
              docs == old(docs)[device := Applied(before, u)]
                  && events == old(events) + For(device, Published(before, u))
    {
      var shadow := GetOrCreate(device);
      ghost var before := shadow;
      var merged := Overlay(Loaded(shadow.reported), telemetry);
      var delta := ComputeDelta(Loaded(shadow.desired), merged);
      shadow := shadow.(reported := Some(merged), delta := Some(delta), version := shadow.version + 1,
          reportedAt := Some(now));
      AppliedKeepsConsistent(before, Heartbeat(telemetry, now));
      docs := docs[device := shadow];
      if delta != map[] {
        events := events + [(device, Event.Delta(shadow.version, delta))];
      }
    }

    method DeleteShadow(device: string) returns (found: bool)
      requires Valid()
      modifies this`docs
      ensures Valid() && found == (device in devices)
      ensures docs == if device in devices then old(docs) - {device} else old(docs)
    {
      if device !in devices {
        return false;
      }
      docs := docs - {device};
      return true;
    }
  }

  function For(device: string, events: seq<Event>): seq<(string, Event)> {
    seq(|events|, i requires 0 <= i < |events| => (device, events[i]))
  }
}
