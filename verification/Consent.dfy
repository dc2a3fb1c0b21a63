/** Privacy consents and the audit log of their grants and revocations. Each endpoint
    is one serialised step; a consent id that is taken violates the primary key. */
module Consent {
  import opened Prelude

  datatype Consent = Consent(device: string, grantee: string, kind: string, level: int, active: bool)

  /** The events as they are logged: a revocation names the consent but not its kind. */
  datatype Event =
    | Granted(device: string, grantee: string, kind: string, level: int)
    | Revoked(device: string, consent: string, level: int, grantee: string)

  type Consents = map<string, Consent>

  /** `owners` gives the owner of every device. */
  datatype State = State(owners: map<string, string>, consents: Consents, log: seq<Event>)

  datatype User = User(id: string, operator: bool)

  datatype Grant = Grant(device: string, grantee: string, kind: string, level: int)

  /** Devices come and go beside the consents. */
  datatype Step =
    | GrantStep(user: User, grant: Grant, id: string)
    | RevokeStep(user: User, device: string, id: string)
    | OwnersStep(owners: map<string, string>)

  const KINDS := {"user", "role", "tenant"}

  // ---------------------------------------------------------------------------
  // The endpoints
  // ---------------------------------------------------------------------------

  function OwnerError(owners: map<string, string>, device: string, user: User): Option<nat> {
    if device !in owners then Some(404)
    else if !user.operator && owners[device] != user.id then Some(403)
    else None
  }

  /** The active consents for one target, kind and level. */
  function Duplicates(cs: Consents, g: Grant): set<string> {
    set id | id in cs && cs[id] == Consent(g.device, g.grantee, g.kind, g.level, true)
  }

  /** More than one duplicate would make the lookup itself fail. */
  function GrantError(s: State, user: User, g: Grant, id: string): Option<nat> {
    if g.kind !in KINDS || !(1 <= g.level <= 3) then Some(422)
    else if OwnerError(s.owners, g.device, user).Some? then OwnerError(s.owners, g.device, user)
    else if |Duplicates(s.consents, g)| > 1 then Some(500)
    else if |Duplicates(s.consents, g)| == 1 then Some(409)
    else if id in s.consents then Some(500)
    else None
  }

  function RevokeError(s: State, user: User, device: string, id: string): Option<nat> {
    if OwnerError(s.owners, device, user).Some? then OwnerError(s.owners, device, user)
    else if id !in s.consents || s.consents[id].device != device then Some(404)
    else if !s.consents[id].active then Some(409)
    else None
  }

  function Next(s: State, step: Step): State {
    match step
    case GrantStep(user, g, id) =>
      if GrantError(s, user, g, id).Some? then s
      else
        s.(consents := s.consents[id := Consent(g.device, g.grantee, g.kind, g.level, true)],
           log := s.log + [Granted(g.device, g.grantee, g.kind, g.level)])
    case RevokeStep(user, device, id) =>
      if RevokeError(s, user, device, id).Some? then s
      else
        s.(consents := s.consents[id := s.consents[id].(active := false)],
           log := s.log + [Revoked(device, id, s.consents[id].level, s.consents[id].grantee)])
    case OwnersStep(owners) => s.(owners := owners)
  }

  function Run(s: State, steps: seq<Step>): State
    decreases |steps|
  {
    if steps == [] then s else Run(Next(s, steps[0]), steps[1..])
  }

  // ---------------------------------------------------------------------------
  // The log against the live state
  // ---------------------------------------------------------------------------

  /** What one event adds to the balance of a device, target and level. */
  function Weight(e: Event, device: string, grantee: string, level: int): int {
    if e.device == device && e.grantee == grantee && e.level == level then (if e.Granted? then 1 else -1) else 0
  }

  /** Granted minus revoked events. */
  function Balance(log: seq<Event>, device: string, grantee: string, level: int): int {
    if log == [] then 0
    else Balance(log[..|log| - 1], device, grantee, level) + Weight(log[|log| - 1], device, grantee, level)
  }

  function Revocations(log: seq<Event>, id: string): nat {
    if log == [] then 0
    else
      var e := log[|log| - 1];
      Revocations(log[..|log| - 1], id) + if e.Revoked? && e.consent == id then 1 else 0
  }

  function ActiveIds(cs: Consents, device: string, grantee: string, level: int): set<string> {
    set id | id in cs && cs[id].device == device && cs[id].grantee == grantee && cs[id].level == level && cs[id].active
  }

  ghost predicate ActiveUnique(cs: Consents) {
    forall i, j :: i in cs && j in cs && cs[i].active && cs[i] == cs[j] ==> i == j
  }

  ghost predicate WellFormed(cs: Consents) {
    forall i :: i in cs ==> cs[i].kind in KINDS && 1 <= cs[i].level <= 3
  }

  ghost predicate Balanced(s: State, device: string, grantee: string, level: int) {
    Balance(s.log, device, grantee, level) == |ActiveIds(s.consents, device, grantee, level)|
  }

  ghost predicate RevokedOnce(s: State, id: string) {
    Revocations(s.log, id) == if id in s.consents && !s.consents[id].active then 1 else 0
  }

  ghost predicate Inv(s: State) {
    && ActiveUnique(s.consents) && WellFormed(s.consents)
    && (forall d, g, l :: Balanced(s, d, g, l))
    && (forall id :: RevokedOnce(s, id))
  }

  lemma AppendEvent(log: seq<Event>, e: Event, device: string, grantee: string, level: int, id: string)
    ensures Balance(log + [e], device, grantee, level)
        == Balance(log, device, grantee, level) + Weight(e, device, grantee, level)
    ensures Revocations(log + [e], id) == Revocations(log, id) + if e.Revoked? && e.consent == id then 1 else 0
  {
    assert (log + [e])[..|log|] == log;
  }

  lemma GrantKeepsUnique(s: State, user: User, g: Grant, id: string)
    requires ActiveUnique(s.consents) && GrantError(s, user, g, id).None?
    ensures ActiveUnique(Next(s, GrantStep(user, g, id)).consents)
  {
    var dup := Duplicates(s.consents, g);
    assert dup == {};
    forall i | i in s.consents && s.consents[i].active
      ensures s.consents[i] != Consent(g.device, g.grantee, g.kind, g.level, true)
    {
      assert i !in dup;
    }
  }

  lemma GrantMovesActive(cs: Consents, id: string, c: Consent, d: string, g: string, l: int)
    requires id !in cs && c.active
    ensures |ActiveIds(cs[id := c], d, g, l)|
         == |ActiveIds(cs, d, g, l)| + if c.device == d && c.grantee == g && c.level == l then 1 else 0
  {
    var after := ActiveIds(cs[id := c], d, g, l);
    if c.device == d && c.grantee == g && c.level == l {
      assert after == ActiveIds(cs, d, g, l) + {id};
    } else {
      assert after == ActiveIds(cs, d, g, l);
    }
  }

  lemma RevokeMovesActive(cs: Consents, id: string, d: string, g: string, l: int)
    requires id in cs && cs[id].active
    ensures |ActiveIds(cs[id := cs[id].(active := false)], d, g, l)|
         == |ActiveIds(cs, d, g, l)| - if cs[id].device == d && cs[id].grantee == g && cs[id].level == l then 1 else 0
  {
    var after := ActiveIds(cs[id := cs[id].(active := false)], d, g, l);
    assert after == ActiveIds(cs, d, g, l) - {id};
  }

  lemma NextKeepsBalance(s: State, step: Step, d: string, g: string, l: int)
    requires Balanced(s, d, g, l)
    ensures Balanced(Next(s, step), d, g, l)
  {
    match step
    case GrantStep(user, r, id) =>
      if GrantError(s, user, r, id).None? {
        GrantMovesActive(s.consents, id, Consent(r.device, r.grantee, r.kind, r.level, true), d, g, l);
        AppendEvent(s.log, Granted(r.device, r.grantee, r.kind, r.level), d, g, l, "");
      }
    case RevokeStep(user, device, id) =>
      if RevokeError(s, user, device, id).None? {
        RevokeMovesActive(s.consents, id, d, g, l);
        AppendEvent(s.log, Revoked(device, id, s.consents[id].level, s.consents[id].grantee), d, g, l, "");
      }
    case OwnersStep(_) =>
  }

  lemma NextKeepsRevocations(s: State, step: Step, id: string)
    requires RevokedOnce(s, id)
    ensures RevokedOnce(Next(s, step), id)
  {
    match step
    case GrantStep(user, g, added) => GrantKeepsRevocations(s, user, g, added, id);
    case RevokeStep(user, device, revoked) => RevokeKeepsRevocations(s, user, device, revoked, id);
    case OwnersStep(_) =>
  }

  lemma GrantKeepsRevocations(s: State, user: User, g: Grant, added: string, id: string)
    requires RevokedOnce(s, id)
    ensures RevokedOnce(Next(s, GrantStep(user, g, added)), id)
  {
    if GrantError(s, user, g, added).None? {
      AppendEvent(s.log, Granted(g.device, g.grantee, g.kind, g.level), "", "", 0, id);
    }
  }

  lemma RevokeKeepsRevocations(s: State, user: User, device: string, revoked: string, id: string)
    requires RevokedOnce(s, id)
    ensures RevokedOnce(Next(s, RevokeStep(user, device, revoked)), id)
  {
    if RevokeError(s, user, device, revoked).None? {
      var c := s.consents[revoked];
      AppendEvent(s.log, Revoked(device, revoked, c.level, c.grantee), "", "", 0, id);
    }
  }

  lemma NextKeepsInv(s: State, step: Step)
    requires Inv(s)
    ensures Inv(Next(s, step))
  {
    if step.GrantStep? && GrantError(s, step.user, step.grant, step.id).None? {
      GrantKeepsUnique(s, step.user, step.grant, step.id);
    }
    forall d, g, l ensures Balanced(Next(s, step), d, g, l) { NextKeepsBalance(s, step, d, g, l); }
    forall id ensures RevokedOnce(Next(s, step), id) { NextKeepsRevocations(s, step, id); }
  }

  lemma {:induction false} RunKeepsInv(s: State, steps: seq<Step>)
    requires Inv(s)
    ensures Inv(Run(s, steps))
    decreases |steps|
  {
    if steps != [] {
      NextKeepsInv(s, steps[0]);
      RunKeepsInv(Next(s, steps[0]), steps[1..]);
    }
  }

  lemma StartInv(owners: map<string, string>)
    ensures Inv(State(owners, map[], []))
  {
    var s := State(owners, map[], []);
    forall d, g, l ensures Balanced(s, d, g, l) { assert ActiveIds(map[], d, g, l) == {}; }
  }

  /** One of three kinds: active consents of one device, target and level are at most 3. */
  lemma AtMostThree(cs: Consents, device: string, grantee: string, level: int)
    requires ActiveUnique(cs) && WellFormed(cs)
    ensures |ActiveIds(cs, device, grantee, level)| <= 3
  {
    var ids := ActiveIds(cs, device, grantee, level);
    var kinds := set id | id in ids :: cs[id].kind;
    OnePerKind(cs, ids, kinds, device, grantee, level);
    assert kinds <= KINDS;
    assert KINDS == kinds + (KINDS - kinds);
  }

  lemma {:induction false} OnePerKind(cs: Consents, ids: set<string>, kinds: set<string>, device: string,
      grantee: string, level: int)
    requires ActiveUnique(cs) && ids <= ActiveIds(cs, device, grantee, level)
    requires kinds == set id | id in ids :: cs[id].kind
    ensures |ids| == |kinds|
    decreases ids
  {
    if ids != {} {
      var id :| id in ids;
      var rest := ids - {id};
      var restKinds := set i | i in rest :: cs[i].kind;
      forall i | i in rest ensures cs[i].kind != cs[id].kind { assert cs[i] != cs[id]; }
      assert kinds == restKinds + {cs[id].kind};
      OnePerKind(cs, rest, restKinds, device, grantee, level);
    }
  }

  /** In every reachable state, per device, target and level, the granted events minus
      the revoked ones are the active consents, between none and three of them; every
      revoked consent has exactly one revocation in the log and every other none. */
  lemma LogAgrees(owners: map<string, string>, steps: seq<Step>, device: string, grantee: string, level: int,
      id: string)
    ensures var s := Run(State(owners, map[], []), steps);
            && Balance(s.log, device, grantee, level) == |ActiveIds(s.consents, device, grantee, level)|
            && 0 <= Balance(s.log, device, grantee, level) <= 3
            && Revocations(s.log, id) == if id in s.consents && !s.consents[id].active then 1 else 0
  {
    StartInv(owners);
    RunKeepsInv(State(owners, map[], []), steps);
    var s := Run(State(owners, map[], []), steps);
    assert Balanced(s, device, grantee, level) && RevokedOnce(s, id);
    AtMostThree(s.consents, device, grantee, level);
  }

  /** So the duplicate lookup finds at most one row, and never fails. */
  lemma LookupFindsAtMostOne(owners: map<string, string>, steps: seq<Step>, g: Grant)
    ensures |Duplicates(Run(State(owners, map[], []), steps).consents, g)| <= 1
  {
    StartInv(owners);
    RunKeepsInv(State(owners, map[], []), steps);
    var dup := Duplicates(Run(State(owners, map[], []), steps).consents, g);
    if dup != {} {
      var id :| id in dup;
      assert dup == {id};
    }
  }

  /** A revocation is final: no later step changes the revoked consent. */
  lemma {:induction false} RevokedStays(s: State, steps: seq<Step>, id: string)
    requires id in s.consents && !s.consents[id].active
    ensures id in Run(s, steps).consents && Run(s, steps).consents[id] == s.consents[id]
    decreases |steps|
  {
    if steps != [] {
      RevokedStays(Next(s, steps[0]), steps[1..], id);
    }
  }

  // ---------------------------------------------------------------------------
  // Who may write the log
  // ---------------------------------------------------------------------------

  /** The step is the owner's, or an operator's, and the device is there. */
  predicate Authorised(s: State, user: User, device: string) {
    device in s.owners && (user.operator || s.owners[device] == user.id)
  }

  /** The step that wrote an event, by someone who might: a grant of one of the three
      kinds and levels, or the revocation of a consent that was active on the device. */
  ghost predicate WrittenBy(s: State, step: Step, e: Event) {
    match step
    case GrantStep(user, g, id) =>
      && Authorised(s, user, g.device) && e == Granted(g.device, g.grantee, g.kind, g.level)
      && g.kind in {"user", "role", "tenant"} && g.level in {1, 2, 3}
      && (forall i :: i in s.consents ==> s.consents[i] != Consent(g.device, g.grantee, g.kind, g.level, true))
    case RevokeStep(user, device, id) =>
      && Authorised(s, user, device) && id in s.consents && s.consents[id].active && s.consents[id].device == device
      && e == Revoked(device, id, s.consents[id].level, s.consents[id].grantee)
    case OwnersStep(_) => false
  }

  /** Every event of every run was written by a step of the owner of its device or of an
      operator. */
  lemma {:induction false} OnlyOwnersWrite(owners: map<string, string>, steps: seq<Step>, i: nat)
    requires i < |Run(State(owners, map[], []), steps).log|
    ensures exists k :: 0 <= k < |steps|
              && WrittenBy(Run(State(owners, map[], []), steps[..k]), steps[k],
                  Run(State(owners, map[], []), steps).log[i])
    decreases |steps|
  {
    var start := State(owners, map[], []);
    if steps != [] {
      var n := |steps| - 1;
      RunLast(start, steps);
      var s := Run(start, steps[..n]);
      if i < |s.log| {
        OnlyOwnersWrite(owners, steps[..n], i);
        var k :| 0 <= k < n && WrittenBy(Run(start, steps[..n][..k]), steps[..n][k], s.log[i]);
        assert steps[..n][..k] == steps[..k];
        StepAppends(s, steps[n]);
      } else {
        StepIsAuthorised(s, steps[n]);
        StepAppends(s, steps[n]);
      }
    }
  }

  lemma RunLast(s: State, steps: seq<Step>)
    requires steps != []
    ensures var n := |steps| - 1; Run(s, steps) == Next(Run(s, steps[..n]), steps[n])
    decreases |steps|
  {
    if |steps| > 1 {
      var n := |steps| - 1;
      assert steps[1..][..n - 1] == steps[..n][1..];
      RunLast(Next(s, steps[0]), steps[1..]);
    } else {
      assert steps[..0] == [] && steps[1..] == [];
    }
  }

  lemma StepAppends(s: State, step: Step)
    ensures s.log <= Next(s, step).log && |Next(s, step).log| <= |s.log| + 1
  {}

  lemma StepIsAuthorised(s: State, step: Step)
    requires |Next(s, step).log| > |s.log|
    ensures WrittenBy(s, step, Next(s, step).log[|s.log|])
  {
    if step.GrantStep? {
      var dup := Duplicates(s.consents, step.grant);
      assert dup == {};
      forall i | i in s.consents
        ensures s.consents[i] != Consent(step.grant.device, step.grant.grantee, step.grant.kind, step.grant.level, true)
      {
        assert i !in dup;
      }
    }
  }

  /** Grants and revocations take effect exactly when a step like that is taken. */
  lemma StepsTakeEffect(s: State, step: Step, id: string)
    ensures step.GrantStep? && step.id == id && id !in s.consents ==>
              (id in Next(s, step).consents <==> exists e :: WrittenBy(s, step, e))
    ensures step.GrantStep? && id in Next(s, step).consents && id !in s.consents ==>
              var g := step.grant; Next(s, step).consents[id] == Consent(g.device, g.grantee, g.kind, g.level, true)
    ensures step.RevokeStep? && step.id == id && id in s.consents && s.consents[id].active ==>
              && id in Next(s, step).consents
              && (!Next(s, step).consents[id].active <==> exists e :: WrittenBy(s, step, e))
  {
    if step.GrantStep? && step.id == id && id !in s.consents {
      var g := step.grant;
      if id in Next(s, step).consents {
        StepIsAuthorised(s, step);
      }
      if GrantError(s, step.user, g, id) == Some(409) || GrantError(s, step.user, g, id) == Some(500) {
        var i :| i in Duplicates(s.consents, g);
      }
    } else if step.RevokeStep? && step.id == id && id in s.consents {
      if RevokeError(s, step.user, step.device, id).None? {
        StepIsAuthorised(s, step);
      }
    }
  }

  /** What a refusal says: 404 for a device or a consent that is not there, 403 for a user
      who may not, 409 for a consent that is active already or no more, 422 for a kind or
      level there is not, and 500 for an id that is taken. */
  lemma RefusalsAreExplained(s: State, user: User, g: Grant, id: string, device: string)
    requires |Duplicates(s.consents, g)| <= 1
    ensures match GrantError(s, user, g, id)
            case None => exists e :: WrittenBy(s, GrantStep(user, g, id), e)
            case Some(code) =>
              && (code == 422 <==> g.kind !in {"user", "role", "tenant"} || g.level !in {1, 2, 3})
              && (code == 404 ==> g.device !in s.owners)
              && (code == 403 ==> g.device in s.owners && !Authorised(s, user, g.device))
              && (code == 409 ==> exists i :: i in s.consents
                                    && s.consents[i] == Consent(g.device, g.grantee, g.kind, g.level, true))
              && (code == 500 ==> id in s.consents)
              && code in {403, 404, 409, 422, 500}
    ensures match RevokeError(s, user, device, id)
            case None => exists e :: WrittenBy(s, RevokeStep(user, device, id), e)
            case Some(code) =>
              && (code == 403 <==> device in s.owners && !Authorised(s, user, device))
              && (code == 409 ==> id in s.consents && s.consents[id].device == device && !s.consents[id].active)
              && (code == 404 ==> device !in s.owners || id !in s.consents || s.consents[id].device != device)
              && code in {403, 404, 409}
  {
    var dup := Duplicates(s.consents, g);
    if GrantError(s, user, g, id) == Some(409) {
      var i :| i in dup;
    } else if GrantError(s, user, g, id) == None {
      assert dup == {};
      StepIsAuthorised(s, GrantStep(user, g, id));
    }
    if RevokeError(s, user, device, id) == None {
      StepIsAuthorised(s, RevokeStep(user, device, id));
    }
  }

  // ---------------------------------------------------------------------------
  // The service
  // ---------------------------------------------------------------------------

  class Service {
    var owners: map<string, string>
    var consents: Consents
    var log: seq<Event>

    ghost function S(): State
      reads this
    {
      State(owners, consents, log)
    }

    constructor (owners: map<string, string>)
      ensures S() == State(owners, map[], []) && Inv(S())
    {
      this.owners := owners;
      consents, log := map[], [];
      StartInv(owners);
    }

    /** Devices are created and deleted by other endpoints. */
    method ChangeOwners(owners: map<string, string>)
      requires Inv(S())
      modifies this`owners
      ensures Inv(S()) && S() == Next(old(S()), OwnersStep(owners))
    {
      NextKeepsInv(S(), OwnersStep(owners));
      this.owners := owners;
    }

    method GrantConsent(user: User, g: Grant, id: string) returns (error: Option<nat>)
      requires Inv(S())
      modifies this
      ensures Inv(S()) && S() == Next(old(S()), GrantStep(user, g, id))
      ensures error == GrantError(old(S()), user, g, id)
    {
      NextKeepsInv(S(), GrantStep(user, g, id));
      if g.kind !in KINDS || !(1 <= g.level <= 3) {
        return Some(422);
      }
      var denied := OwnerError(owners, g.device, user);
      if denied.Some? {
        return denied;
      }
      var existing := Duplicates(consents, g);
      if |existing| > 1 {
        return Some(500);
      }
      if existing != {} {
        return Some(409);
      }
      if id in consents {
        return Some(500);
      }
      consents := consents[id := Consent(g.device, g.grantee, g.kind, g.level, true)];
      log := log + [Granted(g.device, g.grantee, g.kind, g.level)];
      return None;
    }

    method RevokeConsent(user: User, device: string, id: string) returns (error: Option<nat>)
      requires Inv(S())
      modifies this
      ensures Inv(S()) && S() == Next(old(S()), RevokeStep(user, device, id))
      ensures error == RevokeError(old(S()), user, device, id)
    {
      NextKeepsInv(S(), RevokeStep(user, device, id));
      var denied := OwnerError(owners, device, user);
      if denied.Some? {
        return denied;
      }
      if id !in consents || consents[id].device != device {
        return Some(404);
      }
      var consent := consents[id];
      if !consent.active {
        return Some(409);
      }
      consents := consents[id := consent.(active := false)];
      log := log + [Revoked(device, id, consent.level, consent.grantee)];
      return None;
    }
  }
}
