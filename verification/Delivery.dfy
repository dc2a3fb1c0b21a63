/** The gateway's pull endpoint `deliver`: bounded attempts with linear backoff, a
    counter that survives an interrupted call, and one outcome per dispatch.

    Calls for one execution do not overlap. A call that is suspended can be cancelled
    there: `patience` is the number of suspensions it survives. */
module Delivery {
  import opened Prelude
  import opened Gateway

  /** MAX_DELIVERY_ATTEMPTS and DELIVERY_BACKOFF_SECONDS. */
  datatype Settings = Settings(maxAttempts: nat, backoff: real)

  datatype Outcome = NotFound | Delivered(attempts: nat) | Failed(lastError: string) | Cancelled

  /** The device has a session. */
  predicate Served(d: Dispatch, sessions: set<string>) {
    d.device.Some? && d.device.value != "unknown" && d.device.value in sessions
  }

  function NoSession(device: Option<string>): string {
    "no active session for device " + if device.Some? then device.value else "None"
  }

  /** 1 + 2 + ... + n */
  function Triangle(n: int): int {
    if n <= 0 then 0 else n + Triangle(n - 1)
  }

  lemma {:induction false} TriangleClosed(n: nat)
    ensures 2 * Triangle(n) == n * (n + 1)
  {
    if n != 0 {
      TriangleClosed(n - 1);
    }
  }

  /** How often a call suspends: one sleep between two attempts, and the publication
      of the failure. */
  function Suspensions(c: Settings, d: Dispatch): nat {
    if d.attempts < c.maxAttempts then c.maxAttempts - d.attempts else 1
  }

  function Concludes(c: Settings, d: Dispatch, session: bool, patience: nat): Outcome {
    if session && d.attempts < c.maxAttempts then Delivered(d.attempts + 1)
    else if patience < Suspensions(c, d) then Cancelled
    else Failed(if d.attempts < c.maxAttempts then NoSession(d.device) else d.lastError)
  }

  /** The stored dispatch after a call, if it is still stored. */
  function Leaves(c: Settings, d: Dispatch, session: bool, patience: nat): Option<Dispatch> {
    if Concludes(c, d, session, patience) != Cancelled then None
    else if d.attempts < c.maxAttempts then
      Some(d.(attempts := d.attempts + 1 + patience, lastError := NoSession(d.device)))
    else Some(d)
  }

  /** The sleeps a call completes, in units of the backoff: the k-th attempt is
      followed by a sleep of B * k, unless it is the last. */
  function SleepUnits(c: Settings, d: Dispatch, session: bool, patience: nat): int {
    if session || d.attempts >= c.maxAttempts then 0
    else Triangle(Min(d.attempts + patience, c.maxAttempts - 1)) - Triangle(d.attempts)
  }

  class Endpoint {
    const settings: Settings
    var pending: seq<Dispatch>
    var sessions: set<string>
    var failures: seq<string>

    constructor (settings: Settings)
      ensures this.settings == settings && pending == [] && sessions == {} && failures == []
    {
      this.settings := settings;
      pending, sessions, failures := [], {}, [];
    }

    predicate HasSession(d: Dispatch)
      reads this`sessions
    {
      Served(d, sessions)
    }

    method Get(execution: string) returns (r: Option<Dispatch>)
      ensures r.Some? ==> r.value in pending && r.value.execution == execution
      ensures r.None? ==> forall p :: p in pending ==> p.execution != execution
    {
      var i := 0;
      while i < |pending|
        invariant 0 <= i <= |pending|
        invariant forall p :: p in pending[..i] ==> p.execution != execution
      {
        if pending[i].execution == execution {
          return Some(pending[i]);
        }
        i := i + 1;
      }
      return None;
    }

    method Set(d: Dispatch)
      modifies this`pending
      ensures Replaced(old(pending), d.execution, Some(d), pending)
    {
      pending := Put(pending, d);
    }

    method Delete(execution: string)
      modifies this`pending
      ensures Replaced(old(pending), execution, None, pending)
    {
      pending := Drop(pending, execution);
    }

    /** `slept` adds up the attempt numbers k whose backoff B * k was slept through. */
    method Deliver(execution: string, patience: nat)
      returns (outcome: Outcome, slept: int, ghost found: Option<Dispatch>)
      requires UniqueKeys(pending)
      modifies this`pending, this`failures
      ensures UniqueKeys(pending)
      ensures found.None? <==> forall p :: p in old(pending) ==> p.execution != execution
      ensures found.None? ==> outcome == NotFound && slept == 0 && pending == old(pending) && failures == old(failures)
      ensures found.Some? ==>
                var d := found.value;
                && d in old(pending) && d.execution == execution
                && outcome == Concludes(settings, d, HasSession(d), patience)
                && slept == SleepUnits(settings, d, HasSession(d), patience)
                && Replaced(old(pending), execution, Leaves(settings, d, HasSession(d), patience), pending)
                && failures == (if outcome.Failed? then old(failures) + [execution] else old(failures))
                && Meant(settings, d, sessions, outcome, slept)
    {
      var get := Get(execution);
      found := get;
      if get.None? {
        return NotFound, 0, found;
      }
      var d := get.value;
      OutcomeMeans(settings, d, sessions, patience);
      outcome, slept := Attempt(d, HasSession(d), patience);
      if outcome.Failed? {
        failures := failures + [execution];
        Delete(execution);
      }
    }

    /** The attempts of one call, up to the publication of the failure. */
    method Attempt(d: Dispatch, session: bool, patience: nat) returns (outcome: Outcome, slept: int)
      modifies this`pending
      ensures outcome == Concludes(settings, d, session, patience)
      ensures slept == SleepUnits(settings, d, session, patience)
      ensures && !outcome.Failed? && UniqueKeys(old(pending))
              && (d.attempts < settings.maxAttempts || d in old(pending)) ==>
                Replaced(old(pending), d.execution, Leaves(settings, d, session, patience), pending)
      ensures outcome.Failed? ==>
                forall p: Dispatch :: p.execution != d.execution ==> (p in pending <==> p in old(pending))
    {
      slept := 0;
      var cached, survived, attempt := d, 0, d.attempts + 1;
      ghost var first := attempt;
      while attempt < settings.maxAttempts + 1
        invariant first <= attempt
        invariant attempt == first ==> cached == d && survived == 0 && pending == old(pending)
        invariant attempt > first ==>
                    && attempt <= settings.maxAttempts + 1 && !session
                    && cached == d.(attempts := attempt - 1, lastError := NoSession(d.device))
                    && survived == Min(attempt, settings.maxAttempts) - first
                    && Replaced(old(pending), d.execution, Some(cached), pending)
        invariant survived <= patience
        invariant slept == Triangle(d.attempts + survived) - Triangle(d.attempts)
      {
        cached := cached.(attempts := attempt);
        Set(cached);
        if session {
          Delete(d.execution);
          return Delivered(attempt), slept;
        }
        cached := cached.(lastError := NoSession(cached.device));
        Set(cached);
        if attempt < settings.maxAttempts {
          if survived == patience {
            return Cancelled, slept;
          }
          slept := slept + attempt;
          survived := survived + 1;
        }
        attempt := attempt + 1;
      }
      outcome := if survived == patience then Cancelled else Failed(cached.lastError);
    }
  }

  /** What the outcome of a call tells: a delivery, if and only if there was an attempt left
      and the device has a session under a name other than "unknown"; a failure, after
      B * (M(M-1) - a(a+1)) / 2 of sleep if it made attempts. */
  predicate Meant(c: Settings, d: Dispatch, sessions: set<string>, outcome: Outcome, slept: int) {
    && (outcome.Delivered? <==>
          && d.attempts < c.maxAttempts
          && d.device.Some? && d.device.value != "unknown" && d.device.value in sessions)
    && (outcome.Delivered? ==> outcome.attempts == d.attempts + 1 && slept == 0)
    && (outcome.Failed? ==>
          if d.attempts < c.maxAttempts then
            && 2 * slept == c.maxAttempts * (c.maxAttempts - 1) - d.attempts * (d.attempts + 1)
            && outcome.lastError
               == "no active session for device " + if d.device.Some? then d.device.value else "None"
          else slept == 0 && outcome.lastError == d.lastError)
    && outcome != NotFound
  }

  lemma OutcomeMeans(c: Settings, d: Dispatch, sessions: set<string>, patience: nat)
    ensures var session := Served(d, sessions);
            Meant(c, d, sessions, Concludes(c, d, session, patience), SleepUnits(c, d, session, patience))
  {
    if d.attempts < c.maxAttempts && Concludes(c, d, false, patience).Failed? {
      FullUnits(c, d, patience);
    }
  }

  ghost predicate UniqueKeys(pending: seq<Dispatch>) {
    forall p, q :: p in pending && q in pending && p.execution == q.execution ==> p == q
  }

  /** The dictionary is as before except for what is stored under `execution`. */
  ghost predicate Replaced(before: seq<Dispatch>, execution: string, stored: Option<Dispatch>, after: seq<Dispatch>) {
    forall p :: p in after <==> (p in before && p.execution != execution) || stored == Some(p)
  }

  // ---------------------------------------------------------------------------
  // What the contract means
  // ---------------------------------------------------------------------------

  /** A call with no session that runs to its end sleeps B * (M(M-1) - a(a+1)) / 2. */
  lemma FullSleep(c: Settings, d: Dispatch, patience: nat)
    requires d.attempts < c.maxAttempts && Concludes(c, d, false, patience).Failed?
    ensures c.backoff * SleepUnits(c, d, false, patience) as real
         == c.backoff * (c.maxAttempts * (c.maxAttempts - 1) - d.attempts * (d.attempts + 1)) as real / 2.0
  {
    FullUnits(c, d, patience);
    Halved(c.backoff, SleepUnits(c, d, false, patience),
        c.maxAttempts * (c.maxAttempts - 1) - d.attempts * (d.attempts + 1));
  }

  /** A call that is cut off after `patience` suspensions has made one attempt more than
      that, which the stored dispatch counts with the reason, and slept for each of them. */
  lemma CutOffIsCounted(c: Settings, d: Dispatch, patience: nat)
    requires d.attempts < c.maxAttempts && Concludes(c, d, false, patience).Cancelled?
    ensures Leaves(c, d, false, patience)
         == Some(d.(attempts := d.attempts + patience + 1, lastError := NoSession(d.device)))
    ensures d.attempts + patience < c.maxAttempts
    ensures 2 * SleepUnits(c, d, false, patience) == patience * (2 * d.attempts + patience + 1)
  {
    var a, p := d.attempts, patience;
    TriangleClosed(a + p);
    TriangleClosed(a);
    Spread(a, p);
  }

  lemma Spread(a: int, p: int)
    ensures (a + p) * (a + p + 1) - a * (a + 1) == p * (2 * a + p + 1)
  {}

  /** A call without a session runs to its end exactly when it survives the pauses between
      its attempts and the publication of its failure. */
  lemma ConcludesIff(c: Settings, d: Dispatch, patience: nat)
    ensures Concludes(c, d, false, patience).Failed?
            <==> patience >= (if d.attempts < c.maxAttempts then c.maxAttempts - d.attempts else 1)
    ensures Leaves(c, d, false, patience).None? <==> Concludes(c, d, false, patience).Failed?
  {}

  lemma FullUnits(c: Settings, d: Dispatch, patience: nat)
    requires d.attempts < c.maxAttempts && Concludes(c, d, false, patience).Failed?
    ensures 2 * SleepUnits(c, d, false, patience) == c.maxAttempts * (c.maxAttempts - 1) - d.attempts * (d.attempts + 1)
  {
    TriangleClosed(c.maxAttempts - 1);
    TriangleClosed(d.attempts);
  }

  lemma Halved(backoff: real, units: int, double: int)
    requires 2 * units == double
    ensures backoff * units as real == backoff * double as real / 2.0
  {
    assert double as real == 2.0 * units as real;
  }

  /** One call: the sessions there are at its start and the suspensions it survives. */
  datatype Call = Call(sessions: set<string>, patience: nat)

  /** The stored dispatch after a sequence of calls. */
  function After(c: Settings, stored: Option<Dispatch>, calls: seq<Call>): Option<Dispatch>
    decreases |calls|
  {
    if calls == [] || stored.None? then stored
    else After(c, Leaves(c, stored.value, Served(stored.value, calls[0].sessions), calls[0].patience), calls[1..])
  }

  function OutcomeOf(c: Settings, stored: Option<Dispatch>, call: Call): Outcome {
    if stored.None? then NotFound else Concludes(c, stored.value, Served(stored.value, call.sessions), call.patience)
  }

  /** The attempts the calls make, over all of them. */
  function Tries(c: Settings, stored: Option<Dispatch>, calls: seq<Call>): int
    decreases |calls|
  {
    if calls == [] || stored.None? then 0
    else
      var d := stored.value;
      var next := Leaves(c, d, Served(d, calls[0].sessions), calls[0].patience);
      (match OutcomeOf(c, stored, calls[0])
       case Delivered(_) => 1
       case Cancelled => next.value.attempts - d.attempts
       case _ => if d.attempts < c.maxAttempts then c.maxAttempts - d.attempts else 0)
      + Tries(c, next, calls[1..])
  }

  /** How many of the calls end in a delivery or a failure. */
  function Conclusions(c: Settings, stored: Option<Dispatch>, calls: seq<Call>): nat
    decreases |calls|
  {
    if calls == [] || stored.None? then 0
    else
      (if OutcomeOf(c, stored, calls[0]).Cancelled? then 0 else 1)
      + Conclusions(c, Leaves(c, stored.value, Served(stored.value, calls[0].sessions), calls[0].patience), calls[1..])
  }

  /** Over any number of calls, interrupted or not: the counter only grows, never
      passes the limit, and counts every attempt ever made; the dispatch is gone
      exactly when one call has concluded, and no second one ever does. */
  lemma {:induction false} RetriesAreBounded(c: Settings, d: Dispatch, calls: seq<Call>)
    requires d.attempts <= c.maxAttempts
    ensures d.attempts + Tries(c, Some(d), calls) <= c.maxAttempts
    ensures After(c, Some(d), calls).Some? ==>
              d.attempts + Tries(c, Some(d), calls) == After(c, Some(d), calls).value.attempts
    ensures 0 <= Tries(c, Some(d), calls)
    ensures Conclusions(c, Some(d), calls) == if After(c, Some(d), calls).Some? then 0 else 1
    decreases |calls|
  {
    if calls != [] {
      var next := Leaves(c, d, Served(d, calls[0].sessions), calls[0].patience);
      if next.Some? {
        RetriesAreBounded(c, next.value, calls[1..]);
      }
    }
  }

  function Deliveries(c: Settings, stored: Option<Dispatch>, calls: seq<Call>): nat
    decreases |calls|
  {
    if calls == [] || stored.None? then 0
    else
      (if OutcomeOf(c, stored, calls[0]).Delivered? then 1 else 0)
      + Deliveries(c, Leaves(c, stored.value, Served(stored.value, calls[0].sessions), calls[0].patience), calls[1..])
  }

  /** The i-th call finds the dispatch, a session, and an attempt left. */
  ghost predicate Reaches(c: Settings, d: Dispatch, calls: seq<Call>, i: nat)
    requires i < |calls|
  {
    var found := After(c, Some(d), calls[..i]);
    found.Some? && found.value.attempts < c.maxAttempts
    && d.device.Some? && d.device.value != "unknown" && d.device.value in calls[i].sessions
  }

  /** Over any calls, the dispatch is delivered if and only if one of them reaches it
      with an attempt left; a session that comes after the last attempt is too late,
      even if that attempt's call was cut off before it published the failure. */
  lemma {:induction false} DeliveredIff(c: Settings, d: Dispatch, calls: seq<Call>)
    ensures Deliveries(c, Some(d), calls) == 1 <==> exists i :: 0 <= i < |calls| && Reaches(c, d, calls, i)
    ensures Deliveries(c, Some(d), calls) <= 1
    decreases |calls|
  {
    if calls != [] {
      var next := Leaves(c, d, Served(d, calls[0].sessions), calls[0].patience);
      assert calls[..0] == [];
      assert Reaches(c, d, calls, 0) <==> Served(d, calls[0].sessions) && d.attempts < c.maxAttempts;
      forall i | 0 < i < |calls|
        ensures After(c, Some(d), calls[..i]) == After(c, next, calls[1..][..i - 1])
      {
        assert calls[..i][1..] == calls[1..][..i - 1];
      }
      if next.Some? {
        var rest := calls[1..];
        DeliveredIff(c, next.value, rest);
        if i :| 0 <= i < |rest| && Reaches(c, next.value, rest, i) {
          assert Reaches(c, d, calls, i + 1);
        }
        if i :| 1 <= i < |calls| && Reaches(c, d, calls, i) {
          assert Reaches(c, next.value, rest, i - 1);
        }
      }
    }
  }

  /** Such a loss: when the call that makes the last attempt is cut off during it, no
      later call delivers, whatever sessions there are. */
  lemma LastAttemptIsLost(c: Settings, d: Dispatch, later: seq<Call>)
    requires d.attempts < c.maxAttempts
    ensures Deliveries(c, Some(d), [Call({}, c.maxAttempts - d.attempts - 1)] + later) == 0
  {
    var calls := [Call({}, c.maxAttempts - d.attempts - 1)] + later;
    var next := Leaves(c, d, false, c.maxAttempts - d.attempts - 1);
    assert next.Some? && next.value.attempts == c.maxAttempts;
    assert calls[1..] == later;
    ExhaustedIsNeverDelivered(c, next.value, later);
  }

  lemma {:induction false} ExhaustedIsNeverDelivered(c: Settings, d: Dispatch, calls: seq<Call>)
    requires d.attempts >= c.maxAttempts
    ensures Deliveries(c, Some(d), calls) == 0
    decreases |calls|
  {
    if calls != [] {
      var next := Leaves(c, d, Served(d, calls[0].sessions), calls[0].patience);
      if next.Some? {
        ExhaustedIsNeverDelivered(c, next.value, calls[1..]);
      }
    }
  }
}
