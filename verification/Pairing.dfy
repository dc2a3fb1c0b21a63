/** Discovery and pairing of devices, after the device flow of RFC 8628 (sections 3.2
    and 3.5). Each endpoint is one serialised step; ids, codes and tokens are drawn
    outside, and one that is taken violates a unique index and rolls the step back. Ids
    are uuids: one that was drawn before counts as taken even when its row is gone. */
module Pairing {
  import opened Prelude

  datatype Status = Announced | Approved | Rejected | Expired

  datatype Discovery = Discovery(
    hardware: string, deviceCode: string, userCode: string, status: Status, expiresAt: int,
    token: Option<string>, device: Option<string>, claimedBy: Option<string>)

  /** The audit event of a claim. */
  datatype Paired = Paired(device: string, actor: string, discovery: string, hardware: string)

  type Discoveries = map<string, Discovery>

  /** `devices` holds the owner of every device made by a claim, and `gone` that of those
      deleted since. */
  datatype State = State(
    discoveries: Discoveries, devices: map<string, string>, gone: map<string, string>, events: seq<Paired>)

  const INIT := State(map[], map[], map[], [])

  datatype Step =
    | Announce(hardware: string, id: string, deviceCode: string, userCode: string, now: int, lifetime: nat)
    | Poll(deviceCode: string, now: int)
    | ListPending(now: int)
    | Claim(id: string, user: string, device: string, token: string, now: int)
    | Reject(id: string)
    | DeleteDevice(device: string)

  // ---------------------------------------------------------------------------
  // The endpoints
  // ---------------------------------------------------------------------------

  function Superseded(ds: Discoveries, hardware: string): Discoveries {
    map id | id in ds ::
      if ds[id].hardware == hardware && ds[id].status.Announced? then ds[id].(status := Expired) else ds[id]
  }

  predicate Late(d: Discovery, now: int) {
    d.status.Announced? && now > d.expiresAt
  }

  function Lapsed(d: Discovery, now: int): Discovery {
    if Late(d, now) then d.(status := Expired) else d
  }

  predicate Taken(ds: Discoveries, id: string, deviceCode: string, userCode: string) {
    id in ds || exists i :: i in ds && (ds[i].deviceCode == deviceCode || ds[i].userCode == userCode)
  }

  function AfterAnnounce(ds: Discoveries, a: Step): Discoveries
    requires a.Announce?
  {
    if Taken(ds, a.id, a.deviceCode, a.userCode) then ds
    else
      Superseded(ds, a.hardware)[
        a.id := Discovery(a.hardware, a.deviceCode, a.userCode, Announced, a.now + a.lifetime, None, None, None)]
  }

  /** A poll looks its discovery up by code and expires it when it is late. */
  function AfterPoll(ds: Discoveries, deviceCode: string, now: int): Discoveries {
    map id | id in ds :: if ds[id].deviceCode == deviceCode then Lapsed(ds[id], now) else ds[id]
  }

  function AfterList(ds: Discoveries, now: int): Discoveries {
    map id | id in ds :: Lapsed(ds[id], now)
  }

  /** The devices ever made by a claim, with their owners. */
  function Ever(s: State): map<string, string> {
    s.devices + s.gone
  }

  /** `None` when the claim goes through, otherwise the status code. */
  function ClaimError(s: State, id: string, device: string, now: int): Option<nat> {
    if id !in s.discoveries then Some(404)
    else if !s.discoveries[id].status.Announced? || now > s.discoveries[id].expiresAt then Some(409)
    else if device in Ever(s) then Some(500)
    else None
  }

  function Claimed(d: Discovery, c: Step): Discovery
    requires c.Claim?
  {
    d.(status := Approved, token := Some(c.token), device := Some(c.device), claimedBy := Some(c.user))
  }

  function AfterClaim(s: State, c: Step): State
    requires c.Claim?
  {
    if ClaimError(s, c.id, c.device, c.now).Some? then s
    else
      var d := s.discoveries[c.id];
      State(
        s.discoveries[c.id := Claimed(d, c)],
        s.devices[c.device := c.user],
        s.gone,
        s.events + [Paired(c.device, c.user, c.id, d.hardware)])
  }

  /** A rejection does not look at the deadline. */
  function RejectError(s: State, id: string): Option<nat> {
    if id !in s.discoveries then Some(404) else if !s.discoveries[id].status.Announced? then Some(409) else None
  }

  function Next(s: State, step: Step): State {
    match step
    case Announce(_, _, _, _, _, _) => s.(discoveries := AfterAnnounce(s.discoveries, step))
    case Poll(code, now) => s.(discoveries := AfterPoll(s.discoveries, code, now))
    case ListPending(now) => s.(discoveries := AfterList(s.discoveries, now))
    case Claim(_, _, _, _, _) => AfterClaim(s, step)
    case Reject(id) =>
      if RejectError(s, id).Some? then s
      else s.(discoveries := s.discoveries[id := s.discoveries[id].(status := Rejected)])
    case DeleteDevice(device) =>
      if device !in s.devices then s
      else s.(devices := s.devices - {device}, gone := s.gone[device := s.devices[device]])
  }

  function Run(s: State, steps: seq<Step>): State
    decreases |steps|
  {
    if steps == [] then s else Run(Next(s, steps[0]), steps[1..])
  }

  // ---------------------------------------------------------------------------
  // Invariants
  // ---------------------------------------------------------------------------

  ghost predicate OneAnnounced(ds: Discoveries) {
    forall i, j | i in ds && j in ds && ds[i].status.Announced? && ds[j].status.Announced? ::
      ds[i].hardware == ds[j].hardware ==> i == j
  }

  ghost predicate CodesUnique(ds: Discoveries) {
    && (forall i, j :: i in ds && j in ds && ds[i].deviceCode == ds[j].deviceCode ==> i == j)
    && (forall i, j :: i in ds && j in ds && ds[i].userCode == ds[j].userCode ==> i == j)
  }

  /** The event, the discovery and the device it names tell the same story. */
  ghost predicate Matches(ds: Discoveries, ever: map<string, string>, e: Paired) {
    && e.discovery in ds && e.device in ever
    && ds[e.discovery].status.Approved?
    && ds[e.discovery].device == Some(e.device)
    && ds[e.discovery].token.Some?
    && ds[e.discovery].hardware == e.hardware
    && ds[e.discovery].claimedBy == Some(e.actor)
    && ever[e.device] == e.actor
  }

  ghost predicate HasEvent(events: seq<Paired>, id: string) {
    exists e :: e in events && e.discovery == id
  }

  ghost predicate HasDevice(events: seq<Paired>, device: string) {
    exists e :: e in events && e.device == device
  }

  /** Approved discoveries, devices ever paired and events correspond one to one. */
  ghost predicate Agree(ds: Discoveries, ever: map<string, string>, events: seq<Paired>) {
    && (forall e :: e in events ==> Matches(ds, ever, e))
    && (forall i, j :: 0 <= i < j < |events| ==>
          events[i].discovery != events[j].discovery && events[i].device != events[j].device)
    && (forall id :: id in ds && ds[id].status.Approved? ==> HasEvent(events, id))
    && (forall d :: d in ever ==> HasDevice(events, d))
  }

  ghost predicate OneToOne(s: State) {
    s.devices.Keys !! s.gone.Keys && Agree(s.discoveries, Ever(s), s.events)
  }

  ghost predicate Inv(s: State) {
    OneAnnounced(s.discoveries) && CodesUnique(s.discoveries) && OneToOne(s)
  }

  /** A discovery keeps its codes; only an announcement with free codes adds one. */
  lemma CodesAreKept(s: State, step: Step, id: string)
    requires id in Next(s, step).discoveries
    ensures var d := Next(s, step).discoveries[id];
            if id in s.discoveries then
              d.deviceCode == s.discoveries[id].deviceCode && d.userCode == s.discoveries[id].userCode
            else
              && step.Announce? && !Taken(s.discoveries, step.id, step.deviceCode, step.userCode)
              && id == step.id && d.deviceCode == step.deviceCode && d.userCode == step.userCode
  {}

  lemma NextKeepsCodes(s: State, step: Step)
    requires CodesUnique(s.discoveries)
    ensures CodesUnique(Next(s, step).discoveries)
  {
    var ds := Next(s, step).discoveries;
    forall i, j | i in ds && j in ds && i != j
      ensures ds[i].deviceCode != ds[j].deviceCode && ds[i].userCode != ds[j].userCode
    {
      CodesAreKept(s, step, i);
      CodesAreKept(s, step, j);
    }
  }

  lemma NextKeepsOneAnnounced(s: State, step: Step)
    requires OneAnnounced(s.discoveries)
    ensures OneAnnounced(Next(s, step).discoveries)
  {}

  /** A step leaves every settled discovery exactly as it is. */
  lemma SettledStays(s: State, step: Step, id: string)
    requires id in s.discoveries && !s.discoveries[id].status.Announced?
    ensures id in Next(s, step).discoveries && Next(s, step).discoveries[id] == s.discoveries[id]
  {}

  /** Only a claim approves. */
  lemma NewApproval(s: State, step: Step, id: string)
    requires id in Next(s, step).discoveries && Next(s, step).discoveries[id].status.Approved?
    ensures (id in s.discoveries && s.discoveries[id].status.Approved?)
            || (step.Claim? && step.id == id && ClaimError(s, id, step.device, step.now).None?)
  {}

  /** An approval with its event and its device. */
  lemma ClaimKeepsAgree(ds: Discoveries, ever: map<string, string>, events: seq<Paired>, id: string, d: Discovery,
      e: Paired)
    requires Agree(ds, ever, events) && e.discovery == id && e.device !in ever
    requires id in ds && !ds[id].status.Approved? && Matches(ds[id := d], ever[e.device := e.actor], e)
    ensures Agree(ds[id := d], ever[e.device := e.actor], events + [e])
  {
    var ds', ever', events' := ds[id := d], ever[e.device := e.actor], events + [e];
    forall x | x in events ensures x.discovery != id && x.device != e.device && Matches(ds', ever', x) {
      assert Matches(ds, ever, x);
    }
    forall i, j | 0 <= i < j < |events'|
      ensures events'[i].discovery != events'[j].discovery && events'[i].device != events'[j].device
    {
      assert events'[i] in events;
    }
    assert e in events';
    forall x | x in ds' && ds'[x].status.Approved? ensures HasEvent(events', x) {
      assert x == id || HasEvent(events, x);
    }
    forall x | x in ever' ensures HasDevice(events', x) {
      assert x == e.device || HasDevice(events, x);
    }
  }

  /** A change that leaves settled discoveries alone and approves none. */
  lemma SettledKeepsAgree(ds: Discoveries, ds': Discoveries, ever: map<string, string>, events: seq<Paired>)
    requires Agree(ds, ever, events)
    requires forall id :: id in ds && !ds[id].status.Announced? ==> id in ds' && ds'[id] == ds[id]
    requires forall id :: id in ds' && ds'[id].status.Approved? ==> id in ds && ds[id].status.Approved?
    ensures Agree(ds', ever, events)
  {
    forall e | e in events ensures Matches(ds', ever, e) {
      assert Matches(ds, ever, e);
    }
  }

  /** Only a claim adds a device or an event; a deletion only moves a device. */
  lemma OthersKeepDevices(s: State, step: Step)
    requires s.devices.Keys !! s.gone.Keys
    requires step.Claim? ==> ClaimError(s, step.id, step.device, step.now).Some?
    ensures var t := Next(s, step); t.devices.Keys !! t.gone.Keys && Ever(t) == Ever(s) && t.events == s.events
  {
    if step.DeleteDevice? {
      assert Ever(Next(s, step)) == Ever(s);
    }
  }

  lemma OthersKeepOneToOne(s: State, step: Step)
    requires OneToOne(s)
    requires step.Claim? ==> ClaimError(s, step.id, step.device, step.now).Some?
    ensures OneToOne(Next(s, step))
  {
    var before, after := s.discoveries, Next(s, step).discoveries;
    OthersKeepDevices(s, step);
    forall id | id in before && !before[id].status.Announced? ensures id in after && after[id] == before[id] {
      SettledStays(s, step, id);
    }
    forall id | id in after && after[id].status.Approved? ensures id in before && before[id].status.Approved? {
      NewApproval(s, step, id);
    }
    SettledKeepsAgree(before, after, Ever(s), s.events);
  }

  lemma EverAfterClaim(s: State, c: Step)
    requires c.Claim? && ClaimError(s, c.id, c.device, c.now).None? && s.devices.Keys !! s.gone.Keys
    ensures var t := AfterClaim(s, c); t.devices.Keys !! t.gone.Keys && Ever(t) == Ever(s)[c.device := c.user]
  {
    assert Ever(AfterClaim(s, c)) == Ever(s)[c.device := c.user];
  }

  lemma ClaimKeepsOneToOne(s: State, c: Step)
    requires OneToOne(s) && c.Claim? && ClaimError(s, c.id, c.device, c.now).None?
    ensures OneToOne(AfterClaim(s, c))
  {
    var e := Paired(c.device, c.user, c.id, s.discoveries[c.id].hardware);
    EverAfterClaim(s, c);
    ClaimKeepsAgree(s.discoveries, Ever(s), s.events, c.id, Claimed(s.discoveries[c.id], c), e);
  }

  lemma NextKeepsOneToOne(s: State, step: Step)
    requires OneToOne(s)
    ensures OneToOne(Next(s, step))
  {
    if step.Claim? && ClaimError(s, step.id, step.device, step.now).None? {
      ClaimKeepsOneToOne(s, step);
    } else {
      OthersKeepOneToOne(s, step);
    }
  }

  lemma NextKeepsInv(s: State, step: Step)
    requires Inv(s)
    ensures Inv(Next(s, step))
  {
    NextKeepsCodes(s, step);
    NextKeepsOneAnnounced(s, step);
    NextKeepsOneToOne(s, step);
  }

  lemma {:induction false} RunKeepsInv(s: State, steps: seq<Step>)
    requires Inv(s)
    ensures Inv(Run(s, steps))
    decreases |steps|
  {
    if steps != [] {
      NextKeepsInv(s, steps[0]);
      RunKeepsInv(Next(s, steps[0]), steps[1..]);
    }
  }

  /** In every reachable state a hardware id has at most one announced discovery, and
      approved discoveries, devices ever paired and `paired` events correspond one to one.
      The device of an approved discovery is there unless it was deleted, and every device
      that is there has its event and its approved discovery. */
  lemma PairingIsSound(steps: seq<Step>)
    ensures var s := Run(INIT, steps);
            && OneAnnounced(s.discoveries) && OneToOne(s)
            && (forall id :: id in s.discoveries && s.discoveries[id].status.Approved? ==>
                  var device := s.discoveries[id].device;
                  device.Some? && (device.value in s.devices <==> device.value !in s.gone))
            && (forall d :: d in s.devices ==>
                  exists e :: e in s.events && e.device == d && Matches(s.discoveries, Ever(s), e))
  {
    RunKeepsInv(INIT, steps);
    var s := Run(INIT, steps);
    forall id | id in s.discoveries && s.discoveries[id].status.Approved?
      ensures s.discoveries[id].device.Some?
      ensures var d := s.discoveries[id].device.value; d in s.devices <==> d !in s.gone
    {
      assert HasEvent(s.events, id);
      var e :| e in s.events && e.discovery == id;
      assert Matches(s.discoveries, Ever(s), e);
    }
    forall d | d in s.devices ensures exists e :: e in s.events && e.device == d && Matches(s.discoveries, Ever(s), e) {
      assert d in Ever(s) && HasDevice(s.events, d);
      var e :| e in s.events && e.device == d;
      assert Matches(s.discoveries, Ever(s), e);
    }
  }

  /** A device is gone exactly when a step deleted it while it was there, and stays gone. */
  lemma {:induction false} GoneMeansDeleted(steps: seq<Step>, device: string)
    ensures device in Run(INIT, steps).gone <==> exists k :: 0 <= k < |steps| && Deletes(steps, k, device)
    decreases |steps|
  {
    if steps != [] {
      var n := |steps| - 1;
      RunLast(steps);
      GoneStep(Run(INIT, steps[..n]), steps[n], device);
      GoneMeansDeleted(steps[..n], device);
      forall k | 0 <= k < n ensures Deletes(steps[..n], k, device) <==> Deletes(steps, k, device) {
        assert steps[..n][..k] == steps[..k];
      }
      assert Deletes(steps, n, device) <==> steps[n] == DeleteDevice(device) && device in Run(INIT, steps[..n]).devices;
      if k :| 0 <= k < n && Deletes(steps[..n], k, device) {
        assert Deletes(steps, k, device);
      }
      if k :| 0 <= k < |steps| && Deletes(steps, k, device) {
        assert k == n || Deletes(steps[..n], k, device);
      }
    }
  }

  /** The k-th step deletes the device while it is there. */
  ghost predicate Deletes(steps: seq<Step>, k: nat, device: string)
    requires k < |steps|
  {
    steps[k] == DeleteDevice(device) && device in Run(INIT, steps[..k]).devices
  }

  lemma GoneStep(s: State, step: Step, device: string)
    ensures device in Next(s, step).gone <==> device in s.gone || (step == DeleteDevice(device) && device in s.devices)
  {}

  lemma RunLast(steps: seq<Step>)
    requires steps != []
    ensures var n := |steps| - 1; Run(INIT, steps) == Next(Run(INIT, steps[..n]), steps[n])
  {
    var n := |steps| - 1;
    assert steps == steps[..n] + [steps[n]];
    RunSplit(INIT, steps[..n], [steps[n]]);
    RunOne(Run(INIT, steps[..n]), steps[n]);
  }

  lemma RunOne(s: State, step: Step)
    ensures Run(s, [step]) == Next(s, step)
  {
    assert [step][1..] == [];
  }

  lemma {:induction false} SettledForever(s: State, steps: seq<Step>, id: string)
    requires id in s.discoveries && !s.discoveries[id].status.Announced?
    ensures id in Run(s, steps).discoveries && Run(s, steps).discoveries[id] == s.discoveries[id]
    decreases |steps|
  {
    if steps != [] {
      SettledStays(s, steps[0], id);
      SettledForever(Next(s, steps[0]), steps[1..], id);
    }
  }

  // ---------------------------------------------------------------------------
  // Polling
  // ---------------------------------------------------------------------------

  datatype Answer = Unknown | Answer(status: Status, token: Option<string>, device: Option<string>)

  /** Token and device are told only once the discovery is approved. */
  function AnswerOf(d: Discovery, now: int): Answer {
    if d.status.Approved? then Answer(Approved, d.token, d.device) else Answer(Lapsed(d, now).status, None, None)
  }

  ghost predicate Answers(ds: Discoveries, deviceCode: string, now: int, a: Answer) {
    match a
    case Unknown => forall id :: id in ds ==> ds[id].deviceCode != deviceCode
    case Answer(_, _, _) => exists id :: id in ds && ds[id].deviceCode == deviceCode && a == AnswerOf(ds[id], now)
  }

  /** An answer other than "announced" repeats for ever: whatever happens in between
      and whenever the device asks again, it gets the same status, token and device. */
  lemma AnswerIsFinal(before: seq<Step>, code: string, now: int, a: Answer, after: seq<Step>, later: int, b: Answer)
    requires Answers(Run(INIT, before).discoveries, code, now, a) && a.Answer? && !a.status.Announced?
    requires Answers(Run(Next(Run(INIT, before), Poll(code, now)), after).discoveries, code, later, b)
    ensures b == a
    ensures a.status.Approved? ==> a.token.Some? && a.device.Some?
  {
    RunKeepsInv(INIT, before);
    var s := Run(INIT, before);
    NextKeepsInv(s, Poll(code, now));
    AnswerStays(s, code, now, a, after, later, b);
  }

  lemma AnswerStays(s: State, code: string, now: int, a: Answer, after: seq<Step>, later: int, b: Answer)
    requires Inv(s) && Inv(Next(s, Poll(code, now)))
    requires Answers(s.discoveries, code, now, a) && a.Answer? && !a.status.Announced?
    requires Answers(Run(Next(s, Poll(code, now)), after).discoveries, code, later, b)
    ensures b == a
    ensures a.status.Approved? ==> a.token.Some? && a.device.Some?
  {
    var polled := Next(s, Poll(code, now));
    RunKeepsInv(polled, after);
    var id :| id in s.discoveries && s.discoveries[id].deviceCode == code && AnswerOf(s.discoveries[id], now) == a;
    SettledForever(polled, after, id);
    var end := Run(polled, after).discoveries;
    assert end[id].deviceCode == code;
    if a.status.Approved? {
      assert HasEvent(s.events, id);
      var e :| e in s.events && e.discovery == id;
      assert Matches(s.discoveries, Ever(s), e);
    }
  }

  // ---------------------------------------------------------------------------
  // Why a discovery expired
  // ---------------------------------------------------------------------------

  /** A step that expires a discovery looked at it after its deadline, or announced
      its hardware again. */
  ghost predicate Expires(s: State, step: Step, id: string) {
    && id in s.discoveries && s.discoveries[id].status.Announced?
    && match step
       case Announce(hardware, _, _, _, _, _) => hardware == s.discoveries[id].hardware
       case Poll(code, now) => code == s.discoveries[id].deviceCode && now > s.discoveries[id].expiresAt
       case ListPending(now) => now > s.discoveries[id].expiresAt
       case _ => false
  }

  lemma NewExpiry(s: State, step: Step, id: string)
    requires id in Next(s, step).discoveries && Next(s, step).discoveries[id].status.Expired?
    ensures (id in s.discoveries && s.discoveries[id].status.Expired?) || Expires(s, step, id)
  {}

  lemma {:induction false} RunSplit(s: State, a: seq<Step>, b: seq<Step>)
    ensures Run(s, a + b) == Run(Run(s, a), b)
    decreases |a|
  {
    if a == [] {
      assert a + b == b;
    } else {
      assert (a + b)[1..] == a[1..] + b;
      RunSplit(Next(s, a[0]), a[1..], b);
    }
  }

  /** Every expired discovery of every run had passed its deadline when it was looked
      at, or was superseded by a later announcement of the same hardware. */
  lemma {:induction false} ExpiredForAReason(steps: seq<Step>, id: string)
    requires id in Run(INIT, steps).discoveries && Run(INIT, steps).discoveries[id].status.Expired?
    ensures exists k :: 0 <= k < |steps| && Expires(Run(INIT, steps[..k]), steps[k], id)
    decreases |steps|
  {
    if steps != [] {
      var n := |steps| - 1;
      RunLast(steps);
      var s := Run(INIT, steps[..n]);
      NewExpiry(s, steps[n], id);
      if !Expires(s, steps[n], id) {
        ExpiredForAReason(steps[..n], id);
        var k :| 0 <= k < n && Expires(Run(INIT, steps[..n][..k]), steps[..n][k], id);
        assert steps[..n][..k] == steps[..k];
      }
    }
  }

  // ---------------------------------------------------------------------------
  // What each step does
  // ---------------------------------------------------------------------------

  /** The codes and the id of an announcement are new. */
  ghost predicate Free(s: State, a: Step)
    requires a.Announce?
  {
    && a.id !in s.discoveries
    && forall i :: i in s.discoveries ==>
         s.discoveries[i].deviceCode != a.deviceCode && s.discoveries[i].userCode != a.userCode
  }

  /** What becomes of an announced discovery: it expires when its hardware is announced
      again, and when it is polled or listed after its deadline; it is approved by a claim
      in time for a new device, and rejected at any time. Nothing else changes it. */
  ghost function Becomes(s: State, step: Step, id: string): Status
    requires id in s.discoveries
  {
    var d := s.discoveries[id];
    match step
    case Announce(hardware, _, _, _, _, _) => if Free(s, step) && hardware == d.hardware then Expired else Announced
    case Poll(code, now) => if code == d.deviceCode && d.expiresAt < now then Expired else Announced
    case ListPending(now) => if d.expiresAt < now then Expired else Announced
    case Claim(i, _, device, _, now) =>
      if i == id && now <= d.expiresAt && device !in s.devices && device !in s.gone then Approved else Announced
    case Reject(i) => if i == id then Rejected else Announced
    case DeleteDevice(_) => Announced
  }

  lemma AnnouncedBecomes(s: State, step: Step, id: string)
    requires id in s.discoveries && s.discoveries[id].status.Announced?
    ensures id in Next(s, step).discoveries && Next(s, step).discoveries[id].status == Becomes(s, step, id)
  {}

  /** An announcement adds its discovery, announced, if and only if its id and codes are
      new; otherwise it changes nothing. No other step adds or removes one. */
  lemma AnnouncementsAdd(s: State, step: Step)
    ensures Next(s, step).discoveries.Keys
         == s.discoveries.Keys + if step.Announce? && Free(s, step) then {step.id} else {}
    ensures step.Announce? && Free(s, step) ==> Next(s, step).discoveries[step.id].status == Announced
    ensures step.Announce? && !Free(s, step) ==> Next(s, step) == s
  {}

  /** A poll is answered with the status its discovery has then, and with token and device
      only if that is approved; an unknown code is answered as such. */
  lemma AnswersAreHonest(s: State, code: string, now: int, a: Answer)
    requires CodesUnique(s.discoveries) && Answers(s.discoveries, code, now, a)
    ensures a == Unknown <==> forall id :: id in s.discoveries ==> s.discoveries[id].deviceCode != code
    ensures forall id :: id in s.discoveries && s.discoveries[id].deviceCode == code ==>
              var after := Next(s, Poll(code, now)).discoveries[id];
              a == Answer(after.status, if after.status.Approved? then after.token else None,
                          if after.status.Approved? then after.device else None)
  {}

  /** Every poll has an answer. */
  lemma EveryPollIsAnswered(ds: Discoveries, code: string, now: int)
    ensures exists a :: Answers(ds, code, now, a)
  {
    if id :| id in ds && ds[id].deviceCode == code {
      assert Answers(ds, code, now, AnswerOf(ds[id], now));
    } else {
      assert Answers(ds, code, now, Unknown);
    }
  }

  /** What a refused claim or rejection says: 404 for an unknown discovery, 409 for one that
      is settled or late, 500 for a device id that was drawn before. */
  lemma RefusalsAreExplained(s: State, id: string, device: string, now: int)
    ensures ClaimError(s, id, device, now) == Some(404) <==> id !in s.discoveries
    ensures ClaimError(s, id, device, now) == Some(409)
            <==> id in s.discoveries && (!s.discoveries[id].status.Announced? || s.discoveries[id].expiresAt < now)
    ensures ClaimError(s, id, device, now) == Some(500) ==> device in s.devices || device in s.gone
    ensures ClaimError(s, id, device, now) in {None, Some(404), Some(409), Some(500)}
    ensures RejectError(s, id) == Some(404) <==> id !in s.discoveries
    ensures RejectError(s, id) == Some(409) <==> id in s.discoveries && !s.discoveries[id].status.Announced?
    ensures RejectError(s, id) in {None, Some(404), Some(409)}
  {}

  // ---------------------------------------------------------------------------
  // Why a discovery was approved
  // ---------------------------------------------------------------------------

  /** The k-th step announced the discovery as it is, with free codes. */
  ghost predicate AnnouncedBy(steps: seq<Step>, k: nat, id: string, d: Discovery)
    requires k < |steps|
  {
    match steps[k]
    case Announce(hardware, i, deviceCode, userCode, now, lifetime) =>
      && i == id && id !in Run(INIT, steps[..k]).discoveries
      && d.hardware == hardware && d.deviceCode == deviceCode && d.userCode == userCode
      && d.expiresAt == now + lifetime
    case _ => false
  }

  /** The k-th step claimed the discovery as it is, in time. */
  ghost predicate ClaimedBy(steps: seq<Step>, k: nat, id: string, d: Discovery)
    requires k < |steps|
  {
    ClaimsNow(Run(INIT, steps[..k]), steps[k], id, d)
  }

  /** The step claims the discovery while it is announced, and not after the time of its
      announcement plus its lifetime. */
  ghost predicate ClaimsNow(s: State, step: Step, id: string, d: Discovery) {
    match step
    case Claim(i, user, device, token, now) =>
      && i == id && d.token == Some(token) && d.device == Some(device) && d.claimedBy == Some(user)
      && now <= d.expiresAt && id in s.discoveries && s.discoveries[id].status.Announced?
      && device !in s.devices && device !in s.gone
    case _ => false
  }

  /** Every discovery of every run is as it was announced; and an approved one was claimed
      in time, by the user, for the device and with the token that it names. */
  lemma {:induction false} ApprovedInTime(steps: seq<Step>, id: string)
    requires id in Run(INIT, steps).discoveries
    ensures var d := Run(INIT, steps).discoveries[id];
            && WasAnnounced(steps, id, d)
            && (d.status.Approved? <==> WasClaimed(steps, id, d))
            && (!d.status.Approved? ==> d.token == None && d.device == None && d.claimedBy == None)
    decreases |steps|
  {
    if steps != [] {
      var n := |steps| - 1;
      var front, d := steps[..n], Run(INIT, steps).discoveries[id];
      if id in Run(INIT, front).discoveries {
        ApprovedInTime(front, id);
        ReasonsStay(steps, front, id, Run(INIT, front).discoveries[id], d);
      } else {
        NewReasons(steps, front, id, d);
      }
    }
  }

  /** The reasons for a discovery before the last step become those after it. */
  lemma ReasonsStay(steps: seq<Step>, front: seq<Step>, id: string, before: Discovery, d: Discovery)
    requires steps != [] && front == steps[..|steps| - 1]
    requires id in Run(INIT, front).discoveries && Run(INIT, front).discoveries[id] == before
    requires id in Run(INIT, steps).discoveries && Run(INIT, steps).discoveries[id] == d
    requires WasAnnounced(front, id, before) && (before.status.Approved? <==> WasClaimed(front, id, before))
    requires !before.status.Approved? ==> before.token == None && before.device == None && before.claimedBy == None
    ensures WasAnnounced(steps, id, d) && (d.status.Approved? <==> WasClaimed(steps, id, d))
    ensures !d.status.Approved? ==> d.token == None && d.device == None && d.claimedBy == None
  {
    LastOnDiscovery(INIT, steps, front, id);
    AnnouncementStays(steps, front, id, before, d);
    ClaimStays(steps, front, id, before, d);
  }

  lemma NewReasons(steps: seq<Step>, front: seq<Step>, id: string, d: Discovery)
    requires steps != [] && front == steps[..|steps| - 1] && id !in Run(INIT, front).discoveries
    requires id in Run(INIT, steps).discoveries && Run(INIT, steps).discoveries[id] == d
    ensures WasAnnounced(steps, id, d) && d.status.Announced? && !WasClaimed(steps, id, d)
    ensures d.token == None && d.device == None && d.claimedBy == None
  {
    RunLast(steps);
    NewDiscovery(Run(INIT, front), steps[|front|], id);
    assert AnnouncedBy(steps, |front|, id, d);
    NoClaimYet(steps, id, d);
  }

  /** Some step announced the discovery as it is. */
  ghost predicate WasAnnounced(steps: seq<Step>, id: string, d: Discovery) {
    exists k :: 0 <= k < |steps| && AnnouncedBy(steps, k, id, d)
  }

  /** Some step claimed it as it is, and in time. */
  ghost predicate WasClaimed(steps: seq<Step>, id: string, d: Discovery) {
    exists k :: 0 <= k < |steps| && ClaimedBy(steps, k, id, d)
  }

  /** What a step does to a discovery that is there: it keeps what was announced, and a
      claim in time is what approves it. */
  lemma StepOnDiscovery(s: State, step: Step, id: string)
    requires id in s.discoveries
    ensures id in Next(s, step).discoveries
    ensures Follows(s, step, id, s.discoveries[id], Next(s, step).discoveries[id])
  {}

  ghost predicate Follows(s: State, step: Step, id: string, before: Discovery, after: Discovery) {
    && after.hardware == before.hardware && after.deviceCode == before.deviceCode
    && after.userCode == before.userCode && after.expiresAt == before.expiresAt
    && (before.status.Approved? ==> after.status.Approved?)
    && (ClaimsNow(s, step, id, after) ==> after.status.Approved?)
    && (after.status.Approved? && !before.status.Approved? ==> ClaimsNow(s, step, id, after))
    && (!after.status.Approved? || before.status.Approved? ==>
          after.token == before.token && after.device == before.device && after.claimedBy == before.claimedBy)
  }

  lemma NewDiscovery(s: State, step: Step, id: string)
    requires id !in s.discoveries && id in Next(s, step).discoveries
    ensures step.Announce? && step.id == id
    ensures Next(s, step).discoveries[id]
         == Discovery(step.hardware, step.deviceCode, step.userCode, Announced, step.now + step.lifetime,
                      None, None, None)
  {}

  /** A discovery that is new was not claimed before. */
  lemma NoClaimYet(steps: seq<Step>, id: string, d: Discovery)
    requires steps != [] && id !in Run(INIT, steps[..|steps| - 1]).discoveries && d.token == None
    ensures forall k :: 0 <= k < |steps| ==> !ClaimedBy(steps, k, id, d)
  {}

  lemma AnnouncedBefore(steps: seq<Step>, k: nat, id: string, before: Discovery, d: Discovery)
    requires k < |steps| - 1 && d.hardware == before.hardware && d.expiresAt == before.expiresAt
    requires d.deviceCode == before.deviceCode && d.userCode == before.userCode
    ensures AnnouncedBy(steps[..|steps| - 1], k, id, before) <==> AnnouncedBy(steps, k, id, d)
  {
    assert steps[..|steps| - 1][..k] == steps[..k];
  }

  lemma ClaimedBefore(steps: seq<Step>, k: nat, id: string, before: Discovery, d: Discovery)
    requires k < |steps| - 1 && d.expiresAt == before.expiresAt
    requires d.token == before.token && d.device == before.device && d.claimedBy == before.claimedBy
    ensures ClaimedBy(steps[..|steps| - 1], k, id, before) <==> ClaimedBy(steps, k, id, d)
  {
    assert steps[..|steps| - 1][..k] == steps[..k];
  }

  lemma AnnouncementStays(steps: seq<Step>, front: seq<Step>, id: string, before: Discovery, d: Discovery)
    requires steps != [] && front == steps[..|steps| - 1] && WasAnnounced(front, id, before)
    requires d.hardware == before.hardware && d.expiresAt == before.expiresAt
    requires d.deviceCode == before.deviceCode && d.userCode == before.userCode
    ensures WasAnnounced(steps, id, d)
  {
    var k :| 0 <= k < |front| && AnnouncedBy(front, k, id, before);
    AnnouncedBefore(steps, k, id, before, d);
  }

  /** What the last step of a run does to a discovery that was there. */
  lemma {:induction false} LastOnDiscovery(start: State, steps: seq<Step>, front: seq<Step>, id: string)
    requires steps != [] && front == steps[..|steps| - 1]
    requires id in Run(start, front).discoveries && id in Run(start, steps).discoveries
    ensures Follows(Run(start, front), steps[|front|], id, Run(start, front).discoveries[id],
        Run(start, steps).discoveries[id])
    decreases |steps|
  {
    if front == [] {
      StepOnDiscovery(start, steps[0], id);
      assert steps[1..] == [];
    } else {
      assert front[0] == steps[0] && front[1..] == steps[1..][..|steps| - 2];
      LastOnDiscovery(Next(start, steps[0]), steps[1..], front[1..], id);
    }
  }

  /** A claim by the last step, or one before it. */
  lemma ClaimStays(steps: seq<Step>, front: seq<Step>, id: string, before: Discovery, d: Discovery)
    requires steps != [] && front == steps[..|steps| - 1]
    requires Follows(Run(INIT, front), steps[|front|], id, before, d)
    requires before.status.Approved? <==> WasClaimed(front, id, before)
    ensures d.status.Approved? <==> WasClaimed(steps, id, d)
  {
    assert ClaimedBy(steps, |front|, id, d) <==> ClaimsNow(Run(INIT, front), steps[|front|], id, d);
    if k :| 0 <= k < |front| && ClaimedBy(front, k, id, before) {
      ClaimedBefore(steps, k, id, before, d);
    }
    if !d.status.Approved? {
      if k :| 0 <= k < |steps| && ClaimedBy(steps, k, id, d) {
        ClaimedBefore(steps, k, id, before, d);
      }
    }
  }

  /** A device that polls after a claim in time gets the token and the device of that claim,
      for ever. */
  lemma PollAfterClaim(before: seq<Step>, id: string, user: string, device: string, token: string, now: int,
                       after: seq<Step>, later: int)
    requires var s := Run(INIT, before);
             && id in s.discoveries && s.discoveries[id].status.Announced? && now <= s.discoveries[id].expiresAt
             && device !in s.devices && device !in s.gone
    ensures var ds := Run(Next(Run(INIT, before), Claim(id, user, device, token, now)), after).discoveries;
            && id in ds && ds[id].deviceCode == Run(INIT, before).discoveries[id].deviceCode
            && AnswerOf(ds[id], later) == Answer(Approved, Some(token), Some(device))
  {
    SettledForever(Next(Run(INIT, before), Claim(id, user, device, token, now)), after, id);
  }

  // ---------------------------------------------------------------------------
  // The service
  // ---------------------------------------------------------------------------

  class Service {
    var discoveries: Discoveries
    var devices: map<string, string>
    ghost var gone: map<string, string>
    var events: seq<Paired>

    ghost function S(): State
      reads this
    {
      State(discoveries, devices, gone, events)
    }

    constructor ()
      ensures S() == INIT
    {
      discoveries, devices, gone, events := map[], map[], map[], [];
    }

    /** False stands for the violation of a unique index. */
    method AnnounceDevice(hardware: string, id: string, deviceCode: string, userCode: string, now: int, lifetime: nat)
      returns (ok: bool)
      modifies this`discoveries
      ensures S() == Next(old(S()), Announce(hardware, id, deviceCode, userCode, now, lifetime))
      ensures ok <==> !Taken(old(discoveries), id, deviceCode, userCode)
    {
      if Taken(discoveries, id, deviceCode, userCode) {
        return false;
      }
      var stale := set i | i in discoveries && discoveries[i].hardware == hardware && discoveries[i].status.Announced?;
      while stale != {}
        invariant stale <= discoveries.Keys == old(discoveries).Keys
        invariant forall i :: i in stale ==>
                    old(discoveries)[i].hardware == hardware && old(discoveries)[i].status.Announced?
        invariant forall i :: i in discoveries ==>
                    discoveries[i] == if i in stale then old(discoveries)[i]
                        else Superseded(old(discoveries), hardware)[i]
        decreases |stale|
      {
        var i :| i in stale;
        discoveries := discoveries[i := discoveries[i].(status := Expired)];
        stale := stale - {i};
      }
      assert discoveries == Superseded(old(discoveries), hardware);
      discoveries := discoveries[
        id := Discovery(hardware, deviceCode, userCode, Announced, now + lifetime, None, None, None)];
      return true;
    }

    method PollStatus(deviceCode: string, now: int) returns (a: Answer)
      requires CodesUnique(discoveries)
      modifies this`discoveries
      ensures S() == Next(old(S()), Poll(deviceCode, now))
      ensures Answers(old(discoveries), deviceCode, now, a)
    {
      var found := set i | i in discoveries && discoveries[i].deviceCode == deviceCode;
      if found == {} {
        assert forall i :: i in discoveries ==> i !in found;
        assert discoveries == AfterPoll(discoveries, deviceCode, now);
        return Unknown;
      }
      var id :| id in found;
      var d := discoveries[id];
      if d.status.Announced? && now > d.expiresAt {
        d := d.(status := Expired);
        discoveries := discoveries[id := d];
      }
      assert discoveries == AfterPoll(old(discoveries), deviceCode, now);
      assert old(discoveries)[id].deviceCode == deviceCode && d == Lapsed(old(discoveries)[id], now);
      if d.status.Approved? {
        return Answer(Approved, d.token, d.device);
      }
      return Answer(d.status, None, None);
    }

    /** The discoveries an owner may claim; late ones are expired on the way. */
    method Pending(now: int) returns (items: set<string>)
      modifies this`discoveries
      ensures S() == Next(old(S()), ListPending(now))
      ensures forall i :: i in items <==> i in discoveries && discoveries[i].status.Announced?
    {
      var todo := set i | i in discoveries && discoveries[i].status.Announced?;
      items := {};
      while todo != {}
        invariant todo <= discoveries.Keys == old(discoveries).Keys
        invariant forall i :: i in discoveries ==>
                    discoveries[i] == if i in todo then old(discoveries)[i] else Lapsed(old(discoveries)[i], now)
        invariant forall i :: i in todo ==> discoveries[i].status.Announced?
        invariant forall i :: i in items <==> i in discoveries && i !in todo && discoveries[i].status.Announced?
        decreases |todo|
      {
        var i :| i in todo;
        todo := todo - {i};
        if now > discoveries[i].expiresAt {
          discoveries := discoveries[i := discoveries[i].(status := Expired)];
        } else {
          items := items + {i};
        }
      }
      assert discoveries == AfterList(old(discoveries), now);
    }

    method ClaimDiscovery(id: string, user: string, device: string, token: string, now: int)
        returns (error: Option<nat>)
      requires device !in gone
      modifies this
      ensures S() == Next(old(S()), Claim(id, user, device, token, now))
      ensures error == ClaimError(old(S()), id, device, now)
    {
      if id !in discoveries {
        return Some(404);
      }
      var d := discoveries[id];
      if !d.status.Announced? || now > d.expiresAt {
        return Some(409);
      }
      if device in devices {
        return Some(500);
      }
      devices := devices[device := user];
      events := events + [Paired(device, user, id, d.hardware)];
      discoveries := discoveries[
        id := d.(status := Approved, token := Some(token), device := Some(device), claimedBy := Some(user))];
      return None;
    }

    /** False answers 404. */
    method DeleteOne(device: string) returns (found: bool)
      modifies this`devices, this`gone
      ensures S() == Next(old(S()), DeleteDevice(device)) && found == (device in old(devices))
    {
      found := device in devices;
      if found {
        gone := gone[device := devices[device]];
        devices := devices - {device};
      }
    }

    method RejectDiscovery(id: string) returns (error: Option<nat>)
      modifies this`discoveries
      ensures S() == Next(old(S()), Reject(id)) && error == RejectError(old(S()), id)
    {
      if id !in discoveries {
        return Some(404);
      }
      if !discoveries[id].status.Announced? {
        return Some(409);
      }
      discoveries := discoveries[id := discoveries[id].(status := Rejected)];
      return None;
    }
  }
}
