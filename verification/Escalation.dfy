/** Event analysis with an escalation window: repeated breaches and failures of one
    device turn critical. The summary is awaited between an event's analysis and the
    storing of its insight, so other handlers may run there; events of the consumer are
    taken one at a time. Times are integers in any unit. */
module Escalation {
  import opened Prelude

  /** The fields of a message or its body; a missing or falsy one reads as empty or zero. */
  datatype Fields = Fields(tenant: string, device: string, status: string, samples: int, metrics: nat)

  /** What a message holds under `payload`. */
  datatype Inner = Missing | Scalar | Object(fields: Fields)

  datatype Kind =
    | SloViolated | ExecutionFailed | ExecutionTimeout | ExecutionCallback
    | TelemetryIngested | DeliveryFailed | ExecutionDeliveryFailed | OtherKind

  datatype Severity = Info | Warning | Critical

  datatype Category = SloBreach | ExecutionFailure | Anomaly | DeliveryRisk | OperationalSummary

  datatype Status = Open | Acknowledged | Resolved

  datatype Event = Event(kind: Kind, outer: Fields, action: string, inner: Inner)

  datatype Rules = Rules(window: nat, threshold: int)

  /** `analysed` is history: the time at which the event was analysed, which the program
      reads but does not store. */
  datatype Insight = Insight(
    tenant: string, scopeType: string, scope: string, severity: Severity, category: Category,
    repeats: nat, status: Status, analysed: int, created: int)

  datatype Analysis =
    | Raised
    | Nothing
    | Found(tenant: string, scope: string, severity: Severity, category: Category, repeats: nat)

  datatype Pending = Pending(analysis: Analysis, at: int)

  datatype State = State(insights: seq<Insight>, pending: Option<Pending>)

  datatype Step =
    | Analyse(event: Event, now: int)
    | Store(now: int)
    | Abandon
    | Manual(device: string, now: int)
    | SetStatus(index: nat, status: Status)

  /** The categories that escalate. */
  predicate Watched(category: Category) {
    category == SloBreach || category == ExecutionFailure
  }

  const START := State([], None)

  // ---------------------------------------------------------------------------
  // The analyzer
  // ---------------------------------------------------------------------------

  function Or(text: string, other: string): string {
    if text != "" then text else other
  }

  function Body(e: Event): Fields {
    if e.inner.Object? then e.inner.fields else e.outer
  }

  /** None where the lookup in a body that is not an object raises. */
  function Tenant(e: Event): Option<string> {
    if e.outer.tenant != "" then Some(e.outer.tenant)
    else match e.inner
      case Missing => Some("default")
      case Scalar => None
      case Object(fields) => Some(Or(fields.tenant, "default"))
  }

  predicate Same(x: Insight, scope: string, category: Category) {
    x.scopeType == "device" && x.scope == scope && x.category == category
  }

  function CountRecent(insights: seq<Insight>, scope: string, category: Category, since: int): nat {
    if insights == [] then 0
    else
      var n := |insights| - 1;
      CountRecent(insights[..n], scope, category, since)
      + if Same(insights[n], scope, category) && insights[n].created >= since then 1 else 0
  }

  function Grade(rules: Rules, recent: nat): Severity {
    if recent + 1 >= rules.threshold then Critical else Warning
  }

  function Finding(e: Event, severity: Severity, category: Category, repeats: nat): Analysis {
    var tenant := Tenant(e);
    if tenant.None? then Raised
    else Found(tenant.value, Or(Body(e).device, "unknown"), severity, category, repeats)
  }

  /** Breaches and failures are critical exactly when they and the recent ones of their
      device and category reach the threshold; nothing else is ever critical. */
  function AnalyzeEvent(rules: Rules, e: Event, now: int, insights: seq<Insight>): (r: Analysis)
    ensures r.Found? && Watched(r.category) ==>
              && r.repeats == CountRecent(insights, r.scope, r.category, now - rules.window) + 1
              && (r.severity == Critical <==> r.repeats >= rules.threshold)
              && (r.severity == Warning <==> r.repeats < rules.threshold)
    ensures r.Found? && !Watched(r.category) ==> r.severity != Critical
    ensures r.Found? ==> r.scope != "" && r.tenant != "" && (r.severity == Info <==> r.category == Anomaly)
  {
    var body := Body(e);
    var device := Or(body.device, "unknown");
    if e.kind == SloViolated then
      var recent := CountRecent(insights, device, SloBreach, now - rules.window);
      Finding(e, Grade(rules, recent), SloBreach, recent + 1)
    else if e.kind in {ExecutionFailed, ExecutionTimeout, ExecutionCallback} then
      var status := Or(body.status, e.action);
      if e.kind == ExecutionCallback && status !in {"failed", "timeout"} then Nothing
      else
        var recent := CountRecent(insights, device, ExecutionFailure, now - rules.window);
        Finding(e, Grade(rules, recent), ExecutionFailure, recent + 1)
    else if e.kind == TelemetryIngested then
      if body.samples >= 500 || body.metrics >= 20
      then Finding(e, Info, Anomaly, 0) else Nothing
    else if e.kind in {DeliveryFailed, ExecutionDeliveryFailed} then
      Finding(e, Warning, DeliveryRisk, 0)
    else Nothing
  }

  // ---------------------------------------------------------------------------
  // The steps
  // ---------------------------------------------------------------------------

  function Created(a: Analysis, at: int, now: int): Insight
    requires a.Found?
  {
    Insight(a.tenant, "device", a.scope, a.severity, a.category, a.repeats, Open, at, now)
  }

  function ManualInsight(device: string, now: int): Insight {
    Insight("default", "device", device, Info, OperationalSummary, 0, Open, now, now)
  }

  /** A step that is not possible changes nothing. The times are whatever the clock reads,
      which may also turn back. */
  function Next(rules: Rules, s: State, step: Step): State {
    match step
    case Analyse(e, now) =>
      if s.pending.Some? then s
      else
        var a := AnalyzeEvent(rules, e, now, s.insights);
        s.(pending := if a.Found? then Some(Pending(a, now)) else None)
    case Store(now) =>
      if s.pending.None? || !s.pending.value.analysis.Found? then s
      else State(s.insights + [Created(s.pending.value.analysis, s.pending.value.at, now)], None)
    case Abandon => s.(pending := None)
    case Manual(device, now) => s.(insights := s.insights + [ManualInsight(device, now)])
    case SetStatus(index, status) =>
      if index >= |s.insights| then s
      else s.(insights := s.insights[index := s.insights[index].(status := status)])
  }

  function Run(rules: Rules, s: State, steps: seq<Step>): State
    decreases |steps|
  {
    if steps == [] then s else Run(rules, Next(rules, s, steps[0]), steps[1..])
  }

  // ---------------------------------------------------------------------------
  // Counting
  // ---------------------------------------------------------------------------

  /** The count does not look at anything a status change touches. */
  lemma {:induction false} CountIgnoresStatus(insights: seq<Insight>, i: nat, status: Status, scope: string,
      category: Category, since: int)
    requires i < |insights|
    ensures CountRecent(insights[i := insights[i].(status := status)], scope, category, since)
         == CountRecent(insights, scope, category, since)
  {
    var n := |insights| - 1;
    var after := insights[i := insights[i].(status := status)];
    if i == n {
      assert after[..n] == insights[..n];
    } else {
      assert after[..n] == insights[..n][i := insights[..n][i].(status := status)];
      CountIgnoresStatus(insights[..n], i, status, scope, category, since);
    }
  }

  lemma CountAppend(insights: seq<Insight>, x: Insight, scope: string, category: Category, since: int)
    ensures CountRecent(insights + [x], scope, category, since)
         == CountRecent(insights, scope, category, since)
            + if Same(x, scope, category) && x.created >= since then 1 else 0
  {
    assert (insights + [x])[..|insights|] == insights;
  }

  // ---------------------------------------------------------------------------
  // What every state keeps
  // ---------------------------------------------------------------------------

  /** An insight is graded by its predecessors in the window that ends at its analysis. */
  ghost predicate Graded(rules: Rules, before: seq<Insight>, x: Insight) {
    if Watched(x.category) then
      x.scopeType == "device"
          && x.severity == Grade(rules, CountRecent(before, x.scope, x.category, x.analysed - rules.window))
    else x.severity != Critical
  }

  ghost predicate AllGraded(rules: Rules, insights: seq<Insight>) {
    forall i :: 0 <= i < |insights| ==> Graded(rules, insights[..i], insights[i])
  }

  /** The insight that awaits its summary still has the severity its count gives. */
  ghost predicate PendingFits(rules: Rules, insights: seq<Insight>, p: Pending) {
    p.analysis.Found? && Graded(rules, insights, Created(p.analysis, p.at, p.at))
  }

  ghost predicate Inv(rules: Rules, s: State) {
    AllGraded(rules, s.insights) && (s.pending.Some? ==> PendingFits(rules, s.insights, s.pending.value))
  }

  lemma AppendKeepsGraded(rules: Rules, insights: seq<Insight>, x: Insight)
    requires AllGraded(rules, insights) && Graded(rules, insights, x)
    ensures AllGraded(rules, insights + [x])
  {
    var after := insights + [x];
    forall i | 0 <= i < |after| ensures Graded(rules, after[..i], after[i]) {
      assert after[..i] == insights[..i];
      if i == |insights| {
        assert insights[..i] == insights;
      }
    }
  }

  lemma StatusKeepsGraded(rules: Rules, insights: seq<Insight>, index: nat, status: Status)
    requires AllGraded(rules, insights) && index < |insights|
    ensures AllGraded(rules, insights[index := insights[index].(status := status)])
  {
    var after := insights[index := insights[index].(status := status)];
    forall i | 0 <= i < |after| ensures Graded(rules, after[..i], after[i]) {
      assert Graded(rules, insights[..i], insights[i]);
      var x := insights[i];
      if index < i {
        assert after[..i] == insights[..i][index := insights[..i][index].(status := status)];
        CountIgnoresStatus(insights[..i], index, status, x.scope, x.category, x.analysed - rules.window);
      } else {
        assert after[..i] == insights[..i];
      }
    }
  }

  lemma NextKeepsInv(rules: Rules, s: State, step: Step)
    requires Inv(rules, s)
    ensures Inv(rules, Next(rules, s, step))
  {
    match step
    case Analyse(e, now) =>
    case Store(now) =>
      if s.pending.Some? {
        AppendKeepsGraded(rules, s.insights, Created(s.pending.value.analysis, s.pending.value.at, now));
      }
    case Abandon =>
    case Manual(device, now) => ManualKeepsInv(rules, s, device, now);
    case SetStatus(index, status) => StatusKeepsInv(rules, s, index, status);
  }

  lemma ManualKeepsInv(rules: Rules, s: State, device: string, now: int)
    requires Inv(rules, s)
    ensures Inv(rules, Next(rules, s, Manual(device, now)))
  {
    AppendKeepsGraded(rules, s.insights, ManualInsight(device, now));
    if s.pending.Some? {
      var p := s.pending.value;
      CountAppend(s.insights, ManualInsight(device, now), p.analysis.scope, p.analysis.category, p.at - rules.window);
    }
  }

  lemma StatusKeepsInv(rules: Rules, s: State, index: nat, status: Status)
    requires Inv(rules, s)
    ensures Inv(rules, Next(rules, s, SetStatus(index, status)))
  {
    if index < |s.insights| {
      StatusKeepsGraded(rules, s.insights, index, status);
      if s.pending.Some? {
        var p := s.pending.value;
        CountIgnoresStatus(s.insights, index, status, p.analysis.scope, p.analysis.category, p.at - rules.window);
      }
    }
  }

  lemma {:induction false} RunKeepsInv(rules: Rules, s: State, steps: seq<Step>)
    requires Inv(rules, s)
    ensures Inv(rules, Run(rules, s, steps))
    decreases |steps|
  {
    if steps != [] {
      NextKeepsInv(rules, s, steps[0]);
      RunKeepsInv(rules, Next(rules, s, steps[0]), steps[1..]);
    }
  }

  // ---------------------------------------------------------------------------
  // The window
  // ---------------------------------------------------------------------------

  predicate InWindow(x: Insight, scope: string, category: Category, from: int, to: int) {
    Same(x, scope, category) && from <= x.created <= to
  }

  /** The number of insights of one device and category created in a period. */
  function Held(insights: seq<Insight>, scope: string, category: Category, from: int, to: int): nat {
    if insights == [] then 0
    else
      var n := |insights| - 1;
      Held(insights[..n], scope, category, from, to) + if InWindow(insights[n], scope, category, from, to) then 1 else 0
  }

  /** How many of them are only warnings. */
  function Warnings(insights: seq<Insight>, scope: string, category: Category, from: int, to: int): nat {
    if insights == [] then 0
    else
      var n := |insights| - 1;
      Warnings(insights[..n], scope, category, from, to)
      + if InWindow(insights[n], scope, category, from, to) && insights[n].severity == Warning then 1 else 0
  }

  lemma {:induction false} WarningsAreHeld(insights: seq<Insight>, scope: string, category: Category, from: int,
      to: int)
    ensures Warnings(insights, scope, category, from, to) <= Held(insights, scope, category, from, to)
  {
    if insights != [] {
      WarningsAreHeld(insights[..|insights| - 1], scope, category, from, to);
    }
  }

  /** The count of the analyzer, which has no upper end, covers every earlier period. */
  lemma {:induction false} CountCovers(insights: seq<Insight>, scope: string, category: Category, since: int,
      from: int, to: int)
    requires since <= from
    ensures Held(insights, scope, category, from, to) <= CountRecent(insights, scope, category, since)
  {
    if insights != [] {
      CountCovers(insights[..|insights| - 1], scope, category, since, from, to);
    }
  }

  /** Moving the start of the count back adds what was created in between. */
  lemma {:induction false} CountSplits(insights: seq<Insight>, scope: string, category: Category, early: int, late: int)
    requires early <= late
    ensures CountRecent(insights, scope, category, early)
         == Held(insights, scope, category, early, late - 1) + CountRecent(insights, scope, category, late)
  {
    if insights != [] {
      CountSplits(insights[..|insights| - 1], scope, category, early, late);
    }
  }

  /** Exactly: whatever the clock does and however long the summaries take, an insight is
      critical if and only if it is a breach or a failure and, with its predecessors of the
      same device and category created since a window before its own analysis, reaches the
      threshold. */
  lemma SeverityIsExact(rules: Rules, steps: seq<Step>, i: nat)
    requires i < |Run(rules, START, steps).insights|
    ensures var all := Run(rules, START, steps).insights; var x := all[i];
            var recent := CountRecent(all[..i], x.scope, x.category, x.analysed - rules.window);
            && (x.severity == Critical <==> Watched(x.category) && recent + 1 >= rules.threshold)
            && (Watched(x.category) ==> x.severity == if recent + 1 >= rules.threshold then Critical else Warning)
  {
    RunKeepsInv(rules, START, steps);
    var all := Run(rules, START, steps).insights;
    assert Graded(rules, all[..i], all[i]);
  }

  /** What the window that ends at the creation would give. */
  function ByCreation(rules: Rules, before: seq<Insight>, x: Insight): Severity {
    Grade(rules, CountRecent(before, x.scope, x.category, x.created - rules.window))
  }

  /** The severity is the one of the window that ends at the creation if and only if the
      insights created between the starts of the two windows do not carry the smaller of
      the two counts over the threshold: with a slow summary the severity can be too high,
      and with a clock that turned back meanwhile too low. */
  lemma AgreesWithCreationIff(rules: Rules, steps: seq<Step>, i: nat)
    requires i < |Run(rules, START, steps).insights|
    requires Watched(Run(rules, START, steps).insights[i].category)
    ensures var all := Run(rules, START, steps).insights; var x, before := all[i], all[..i];
            && (x.severity == ByCreation(rules, before, x) <==> !Crosses(rules, before, x))
            && (Crosses(rules, before, x) ==> (x.severity == Critical <==> x.analysed < x.created))
  {
    RunKeepsInv(rules, START, steps);
    var all := Run(rules, START, steps).insights;
    GradedAgreesIff(rules, all[..i], all[i]);
  }

  /** The insights created between the starts of the two windows carry the count over. */
  predicate Crosses(rules: Rules, before: seq<Insight>, x: Insight) {
    var first, last := Min(x.analysed, x.created) - rules.window, Max(x.analysed, x.created) - rules.window;
    var least := CountRecent(before, x.scope, x.category, last);
    var between := Held(before, x.scope, x.category, first, last - 1);
    least + 1 < rules.threshold <= least + between + 1
  }

  lemma GradedAgreesIff(rules: Rules, before: seq<Insight>, x: Insight)
    requires Graded(rules, before, x) && Watched(x.category)
    ensures x.severity == ByCreation(rules, before, x) <==> !Crosses(rules, before, x)
    ensures Crosses(rules, before, x) ==> (x.severity == Critical <==> x.analysed < x.created)
  {
    CountSplits(before, x.scope, x.category,
                Min(x.analysed, x.created) - rules.window, Max(x.analysed, x.created) - rules.window);
  }

  function Max(a: int, b: int): int {
    if a <= b then b else a
  }

  /** So it always is when the summary took no time. */
  lemma InstantSummariesAreExact(rules: Rules, steps: seq<Step>, i: nat)
    requires i < |Run(rules, START, steps).insights|
    requires var x := Run(rules, START, steps).insights[i]; Watched(x.category) && x.analysed == x.created
    ensures var all := Run(rules, START, steps).insights; all[i].severity == ByCreation(rules, all[..i], all[i])
  {
    SeverityIsExact(rules, steps, i);
  }

  // ---------------------------------------------------------------------------
  // The escalation window
  // ---------------------------------------------------------------------------

  /** The clock does not turn back between an analysis and a later storing. */
  ghost predicate Chronological(steps: seq<Step>) {
    forall i, j :: 0 <= i < j < |steps| && steps[i].Analyse? && steps[j].Store? ==> steps[i].now <= steps[j].now
  }

  ghost predicate Forward(insights: seq<Insight>) {
    forall i :: 0 <= i < |insights| ==> insights[i].analysed <= insights[i].created
  }

  lemma {:induction false} RunKeepsForward(rules: Rules, s: State, steps: seq<Step>)
    requires Chronological(steps) && Forward(s.insights)
    requires s.pending.Some? ==> forall j :: 0 <= j < |steps| && steps[j].Store? ==> s.pending.value.at <= steps[j].now
    ensures Forward(Run(rules, s, steps).insights)
    decreases |steps|
  {
    if steps != [] {
      RunKeepsForward(rules, Next(rules, s, steps[0]), steps[1..]);
    }
  }

  function MostWarnings(rules: Rules): nat {
    if rules.threshold > 1 then rules.threshold - 1 else 0
  }

  lemma {:induction false} FewWarnings(rules: Rules, insights: seq<Insight>, scope: string, category: Category,
      from: int)
    requires AllGraded(rules, insights) && Forward(insights) && Watched(category)
    ensures Warnings(insights, scope, category, from, from + rules.window) <= MostWarnings(rules)
  {
    if insights != [] {
      var n, to := |insights| - 1, from + rules.window;
      var before, last := insights[..n], insights[n];
      forall i | 0 <= i < n ensures before[..i] == insights[..i] {}
      FewWarnings(rules, before, scope, category, from);
      if InWindow(last, scope, category, from, to) && last.severity == Warning {
        assert Graded(rules, insights[..n], last);
        CountCovers(before, scope, category, last.analysed - rules.window, from, to);
        WarningsAreHeld(before, scope, category, from, to);
      }
    }
  }

  lemma LaterOnesAreCritical(rules: Rules, insights: seq<Insight>, scope: string, category: Category, from: int, i: nat)
    requires AllGraded(rules, insights) && Forward(insights) && Watched(category) && i < |insights|
    requires InWindow(insights[i], scope, category, from, from + rules.window)
    requires Held(insights[..i], scope, category, from, from + rules.window) >= rules.threshold - 1
    ensures insights[i].severity == Critical
  {
    assert Graded(rules, insights[..i], insights[i]);
    CountCovers(insights[..i], scope, category, insights[i].analysed - rules.window, from, from + rules.window);
  }

  /** In every reachable state, of the insights of one device and watched category whose
      creation times fit in one window, at most threshold - 1 are warnings, and each one
      that comes after threshold - 1 others of them is critical. */
  lemma EscalationWindow(rules: Rules, steps: seq<Step>, scope: string, category: Category, from: int, i: nat)
    requires Chronological(steps) && Watched(category)
    ensures var all := Run(rules, START, steps).insights;
            && Warnings(all, scope, category, from, from + rules.window) <= MostWarnings(rules)
            && (i < |all| && InWindow(all[i], scope, category, from, from + rules.window)
                && Held(all[..i], scope, category, from, from + rules.window) >= rules.threshold - 1
                ==> all[i].severity == Critical)
  {
    RunKeepsInv(rules, START, steps);
    RunKeepsForward(rules, START, steps);
    var all := Run(rules, START, steps).insights;
    FewWarnings(rules, all, scope, category, from);
    if && i < |all| && InWindow(all[i], scope, category, from, from + rules.window)
       && Held(all[..i], scope, category, from, from + rules.window) >= rules.threshold - 1 {
      LaterOnesAreCritical(rules, all, scope, category, from, i);
    }
  }

  function Breach(device: string): Event {
    Event(SloViolated, Fields("", device, "", 0, 0), "", Missing)
  }

  /** Where they do carry it over: two breaches, the threshold 2 and any window: when the
      second is analysed a window after the first was stored, and stored later than that,
      it is critical though the window that ends at its creation holds no other. */
  lemma SlowSummaryEscalatesEarly(rules: Rules, device: string, done: int)
    requires device != "" && rules.threshold == 2 && done > rules.window
    ensures var all := Run(rules, START, TwoBreaches(rules, device, done)).insights;
            && |all| == 2 && all[1].severity == Critical && all[1].created == done
            && Held(all, device, SloBreach, done - rules.window, done) == 1
            && ByCreation(rules, all[..1], all[1]) == Warning
  {
    var a, b := Stored(device, Warning, 1, 0, 0), Stored(device, Critical, 2, rules.window, done);
    OneCounted(a, device, 0);
    SecondBreach(rules, device, rules.window, done, 1, a);
    LastHeld([a], b, device, SloBreach, done - rules.window, done);
    LastHeld([], a, device, SloBreach, done - rules.window, done);
    OneCounted(a, device, done - rules.window);
    assert [] + [a] == [a] && ([a] + [b])[..1] == [a];
  }

  /** With a clock that turns back the window has too many warnings: two breaches, the
      threshold 2 and any window, where the second is analysed just after the window of
      the first and stored within it. */
  lemma ClockBackHidesBreach(rules: Rules, device: string, done: int)
    requires device != "" && rules.threshold == 2 && 0 <= done <= rules.window
    ensures !Chronological(ClockBack(rules, device, done))
    ensures Warnings(Run(rules, START, ClockBack(rules, device, done)).insights, device, SloBreach, 0, rules.window)
         == 2 > rules.threshold - 1
  {
    var a, b := Stored(device, Warning, 1, 0, 0), Stored(device, Warning, 1, rules.window + 1, done);
    OneCounted(a, device, 1);
    SecondBreach(rules, device, rules.window + 1, done, 0, a);
    LastWarning([a], b, device, SloBreach, 0, rules.window);
    LastWarning([], a, device, SloBreach, 0, rules.window);
    assert [] + [a] == [a];
    var steps := ClockBack(rules, device, done);
    assert steps[2].Analyse? && steps[3].Store?;
  }

  function ClockBack(rules: Rules, device: string, done: int): seq<Step> {
    [Analyse(Breach(device), 0), Store(0), Analyse(Breach(device), rules.window + 1), Store(done)]
  }

  lemma LastWarning(insights: seq<Insight>, x: Insight, scope: string, category: Category, from: int, to: int)
    requires x.severity == Warning
    ensures Warnings(insights + [x], scope, category, from, to)
         == Warnings(insights, scope, category, from, to) + if InWindow(x, scope, category, from, to) then 1 else 0
  {
    assert (insights + [x])[..|insights|] == insights;
  }

  function TwoBreaches(rules: Rules, device: string, done: int): seq<Step> {
    [Analyse(Breach(device), 0), Store(0), Analyse(Breach(device), rules.window), Store(done)]
  }

  lemma OneCounted(x: Insight, device: string, since: int)
    requires Same(x, device, SloBreach)
    ensures CountRecent([x], device, SloBreach, since) == if x.created >= since then 1 else 0
  {
    assert [x][..0] == [];
  }

  /** A breach at 0, then one analysed at `now` that counts `recent` others. */
  lemma SecondBreach(rules: Rules, device: string, now: int, done: int, recent: nat, a: Insight)
    requires device != "" && rules.threshold == 2 && a == Stored(device, Warning, 1, 0, 0)
    requires recent == CountRecent([a], device, SloBreach, now - rules.window)
    ensures Run(rules, START,
        [Analyse(Breach(device), 0), Store(0), Analyse(Breach(device), now), Store(done)]).insights
         == [a] + [Stored(device, Grade(rules, recent), recent + 1, now, done)]
  {
    var one := State([a], None);
    var two := State([a] + [Stored(device, Grade(rules, recent), recent + 1, now, done)], None);
    FirstBreach(rules, device, a);
    OneBreach(rules, one, device, now, done, recent);
    TwoPairs(rules, Analyse(Breach(device), 0), Store(0), Analyse(Breach(device), now), Store(done), one, two);
  }

  lemma FirstBreach(rules: Rules, device: string, a: Insight)
    requires device != "" && rules.threshold == 2 && a == Stored(device, Warning, 1, 0, 0)
    ensures Next(rules, Next(rules, START, Analyse(Breach(device), 0)), Store(0)) == State([a], None)
  {
    OneBreach(rules, START, device, 0, 0, 0);
    assert [] + [a] == [a];
  }

  lemma TwoPairs(rules: Rules, a: Step, b: Step, c: Step, d: Step, one: State, two: State)
    requires Next(rules, Next(rules, START, a), b) == one && Next(rules, Next(rules, one, c), d) == two
    ensures Run(rules, START, [a, b, c, d]) == two
  {
    PairThenPair(rules, START, a, b, c, d);
  }

  lemma PairThenPair(rules: Rules, s: State, a: Step, b: Step, c: Step, d: Step)
    ensures Run(rules, s, [a, b, c, d]) == Next(rules, Next(rules, Next(rules, Next(rules, s, a), b), c), d)
  {
    RunConcat(rules, s, [a], [b, c, d]);
    RunConcat(rules, Next(rules, s, a), [b], [c, d]);
    RunConcat(rules, Next(rules, Next(rules, s, a), b), [c], [d]);
    assert [a] + [b, c, d] == [a, b, c, d] && [b] + [c, d] == [b, c, d] && [c] + [d] == [c, d];
    RunOne(rules, s, a);
    RunOne(rules, Next(rules, s, a), b);
    RunOne(rules, Next(rules, Next(rules, s, a), b), c);
    RunOne(rules, Next(rules, Next(rules, Next(rules, s, a), b), c), d);
  }

  lemma RunOne(rules: Rules, s: State, step: Step)
    ensures Run(rules, s, [step]) == Next(rules, s, step)
  {
    assert [step][1..] == [];
  }

  /** One breach from analysis to storing, `recent` others counted. */
  lemma OneBreach(rules: Rules, s: State, device: string, now: int, done: int, recent: nat)
    requires device != ""
    requires s.pending.None?
    requires recent == CountRecent(s.insights, device, SloBreach, now - rules.window)
    ensures Next(rules, Next(rules, s, Analyse(Breach(device), now)), Store(done))
         == State(s.insights + [Stored(device, Grade(rules, recent), recent + 1, now, done)], None)
  {
    var a := Found("default", device, Grade(rules, recent), SloBreach, recent + 1);
    assert AnalyzeEvent(rules, Breach(device), now, s.insights) == a;
    assert Next(rules, s, Analyse(Breach(device), now)) == State(s.insights, Some(Pending(a, now)));
  }

  function Stored(device: string, severity: Severity, repeats: nat, analysed: int, created: int): Insight {
    Insight("default", "device", device, severity, SloBreach, repeats, Open, analysed, created)
  }

  lemma {:induction false} RunConcat(rules: Rules, s: State, a: seq<Step>, b: seq<Step>)
    ensures Run(rules, s, a + b) == Run(rules, Run(rules, s, a), b)
    decreases |a|
  {
    if a == [] {
      assert a + b == b;
    } else {
      assert (a + b)[1..] == a[1..] + b;
      RunConcat(rules, Next(rules, s, a[0]), a[1..], b);
    }
  }

  lemma LastHeld(insights: seq<Insight>, x: Insight, scope: string, category: Category, from: int, to: int)
    ensures Held(insights + [x], scope, category, from, to)
         == Held(insights, scope, category, from, to) + if InWindow(x, scope, category, from, to) then 1 else 0
  {
    assert (insights + [x])[..|insights|] == insights;
  }

  /** The category in which an event is recorded, if any. */
  function CountsAs(e: Event): Option<Category> {
    var status := if Body(e).status == "" then e.action else Body(e).status;
    match e.kind
    case SloViolated => Some(SloBreach)
    case ExecutionFailed => Some(ExecutionFailure)
    case ExecutionTimeout => Some(ExecutionFailure)
    case ExecutionCallback => if status == "failed" || status == "timeout" then Some(ExecutionFailure) else None
    case TelemetryIngested => if Body(e).samples < 500 && Body(e).metrics < 20 then None else Some(Anomaly)
    case DeliveryFailed => Some(DeliveryRisk)
    case ExecutionDeliveryFailed => Some(DeliveryRisk)
    case OtherKind => None
  }

  /** The tenant an event is recorded for; none when its payload is not an object and the
      message names none itself. */
  function RecordedFor(e: Event): Option<string> {
    if e.outer.tenant != "" then Some(e.outer.tenant)
    else if e.inner.Scalar? then None
    else if e.inner.Missing? || e.inner.fields.tenant == "" then Some("default")
    else Some(e.inner.fields.tenant)
  }

  /** The device an event is about: the one its body names, which is its payload if that is
      an object and the message itself otherwise. */
  function About(e: Event): string {
    var device := if e.inner.Object? then e.inner.fields.device else e.outer.device;
    if device == "" then "unknown" else device
  }

  /** Recording: an event of a category with a readable tenant stores one insight, for that
      tenant, device and category, open, with the times of its analysis and its storing and
      a severity by its category; any other event stores none. */
  lemma EventsAreRecorded(rules: Rules, s: State, e: Event, now: int, done: int)
    requires s.pending.None?
    ensures var t := Next(rules, Next(rules, s, Analyse(e, now)), Store(done));
            if CountsAs(e).Some? && RecordedFor(e).Some? then
              && |t.insights| == |s.insights| + 1 && t.insights[..|s.insights|] == s.insights
              && var x := t.insights[|s.insights|];
                 && x.tenant == RecordedFor(e).value && x.scopeType == "device" && x.scope == About(e)
                 && x.category == CountsAs(e).value && x.status == Open && x.analysed == now && x.created == done
                 && (x.category == Anomaly ==> x.severity == Info)
                 && (x.category == DeliveryRisk ==> x.severity == Warning)
            else t.insights == s.insights
  {
    var a := AnalyzeEvent(rules, e, now, s.insights);
    if a.Found? {
      assert (s.insights + [Created(a, now, done)])[..|s.insights|] == s.insights;
    }
  }

  /** So it adds one to the count of its own device and category, as the next analysis will
      see it, and to no other count. */
  lemma ViolationsAreRecorded(rules: Rules, s: State, e: Event, now: int, done: int, scope: string,
                              category: Category, since: int)
    requires s.pending.None? && since <= done
    ensures var t := Next(rules, Next(rules, s, Analyse(e, now)), Store(done));
            CountRecent(t.insights, scope, category, since) == CountRecent(s.insights, scope, category, since)
            + if RecordedFor(e).Some? && CountsAs(e) == Some(category) && scope == About(e) then 1 else 0
  {
    EventsAreRecorded(rules, s, e, now, done);
    var t := Next(rules, Next(rules, s, Analyse(e, now)), Store(done));
    if |t.insights| > |s.insights| {
      assert t.insights == s.insights + [t.insights[|s.insights|]];
      CountAppend(s.insights, t.insights[|s.insights|], scope, category, since);
    }
  }

  /** What the other handlers do to the insights: a manual analysis adds one informational
      summary, and a status change touches the status of its insight alone; neither touches
      the event in hand. An abandoned event leaves nothing. */
  lemma OthersDo(rules: Rules, s: State, device: string, now: int, index: nat, status: Status)
    ensures var t := Next(rules, s, Manual(device, now));
            && t.pending == s.pending && |t.insights| == |s.insights| + 1 && t.insights[..|s.insights|] == s.insights
            && var x := t.insights[|s.insights|];
               && x.scopeType == "device" && x.scope == device && x.tenant == "default" && x.status == Open
               && x.severity == Info && x.category == OperationalSummary && x.created == now
    ensures var t := Next(rules, s, SetStatus(index, status));
            && t.pending == s.pending && |t.insights| == |s.insights|
            && forall i :: 0 <= i < |s.insights| ==>
                 t.insights[i] == if i == index then s.insights[i].(status := status) else s.insights[i]
    ensures Next(rules, s, Abandon) == State(s.insights, None)
  {
    assert (s.insights + [ManualInsight(device, now)])[..|s.insights|] == s.insights;
  }

  // ---------------------------------------------------------------------------
  // The pipeline
  // ---------------------------------------------------------------------------

  /** What the handlers that run while a summary is awaited can do. */
  predicate Aside(step: Step) {
    step.Manual? || step.SetStatus?
  }

  class Pipeline {
    const rules: Rules
    var insights: seq<Insight>
    // The analysis of the event in hand while its summary is awaited.
    var waiting: Option<Pending>

    ghost function S(): State
      reads this
    {
      State(insights, waiting)
    }

    constructor (rules: Rules)
      ensures this.rules == rules && S() == START
    {
      this.rules := rules;
      insights, waiting := [], None;
    }

    method AnalyzeDevice(device: string, now: int)
      modifies this
      ensures S() == Next(rules, old(S()), Manual(device, now))
    {
      insights := insights + [ManualInsight(device, now)];
    }

    /** Fails with 404 for an insight that is not there. */
    method TransitionStatus(index: nat, status: Status) returns (error: Option<nat>)
      modifies this`insights
      ensures S() == Next(rules, old(S()), SetStatus(index, status))
      ensures error == if index < |old(insights)| then None else Some(404)
    {
      if index >= |insights| {
        return Some(404);
      }
      insights := insights[index := insights[index].(status := status)];
      return None;
    }

    /** What other handlers do while a summary is awaited. */
    method Meanwhile(steps: seq<Step>)
      requires forall i :: 0 <= i < |steps| ==> Aside(steps[i])
      modifies this
      ensures S() == Run(rules, old(S()), steps) && waiting == old(waiting)
    {
      var k := 0;
      while k < |steps|
        invariant 0 <= k <= |steps|
        invariant Run(rules, S(), steps[k..]) == Run(rules, old(S()), steps)
        invariant waiting == old(waiting)
      {
        match steps[k] {
          case Manual(device, now) => AnalyzeDevice(device, now);
          case SetStatus(index, status) => var error := TransitionStatus(index, status);
        }
        assert steps[k..][1..] == steps[k + 1..];
        k := k + 1;
      }
    }

    /** One event, from its analysis to its stored insight, with other handlers running
        while the summary is awaited; `done` is when the insight is created, or None when
        awaiting the summary fails. What is returned is what the analysis found, stored last. */
    method ProcessEvent(e: Event, now: int, during: seq<Step>, done: Option<int>) returns (stored: Option<Insight>)
      requires waiting == None
      requires forall i :: 0 <= i < |during| ==> Aside(during[i])
      modifies this
      ensures waiting == None
      ensures S() == if AnalyzeEvent(rules, e, now, old(insights)).Found?
                     then Run(rules, old(S()), [Analyse(e, now)] + during
                         + [if done.Some? then Store(done.value) else Abandon])
                     else Next(rules, old(S()), Analyse(e, now))
      ensures stored.Some? <==> done.Some? && AnalyzeEvent(rules, e, now, old(insights)).Found?
      ensures stored.Some? ==> insights != [] && insights[|insights| - 1] == stored.value
                               && stored.value == Created(AnalyzeEvent(rules, e, now, old(insights)), now, done.value)
    {
      ghost var start := S();
      var analysis := AnalyzeEvent(rules, e, now, insights);
      if !analysis.Found? {
        return None;
      }
      waiting := Some(Pending(analysis, now));
      ghost var begun := S();
      assert begun == Next(rules, start, Analyse(e, now));
      Meanwhile(during);
      ghost var all := [Analyse(e, now)] + during;
      assert all[1..] == during;
      assert Run(rules, start, all) == S();
      ghost var last := if done.Some? then Store(done.value) else Abandon;
      RunConcat(rules, start, all, [last]);
      assert Run(rules, S(), [last]) == Next(rules, S(), last);
      waiting := None;
      if done.Some? {
        var insight := Created(analysis, now, done.value);
        insights := insights + [insight];
        return Some(insight);
      }
      return None;
    }
  }
}
