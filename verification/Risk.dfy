/** Device and fleet risk scores over the stored insights. Double arithmetic is a
    parameter: any rounding of the reals that is monotone, exact on small integers and
    close on small reals, as round-to-nearest doubles are. */
module Risk {
  import opened Prelude
  import opened Escalation

  datatype DeviceStatus = Offline | Unknown | OtherStatus

  /** What the device service answers; a failed lookup or an empty answer is None. */
  datatype Device = Device(status: DeviceStatus, wasm: bool)

  datatype Level = Low | Medium | High | Critical

  datatype Reason =
    | DeviceOffline | StatusUnknown | MissingWasm
    | RecentDeliveryRisk | RecentExecutionFailure | RecentSloBreach

  datatype Evidence = DeviceEvidence(count: nat, reasons: set<Reason>) | FleetEvidence(scores: seq<int>)

  datatype Score = Score(score: int, level: Level, evidence: Evidence)

  datatype Key = DeviceKey(device: string) | FleetKey(fleet: string)

  const NEWEST := 50

  // ---------------------------------------------------------------------------
  // Doubles
  // ---------------------------------------------------------------------------

  const EPSILON: real := 1.0 / 140737488355328.0

  /** What is used of double rounding between 0 and 128, where half a unit in the last
      place is at most 2 to the power -47. */
  ghost predicate Doubles(rnd: real -> real) {
    && (forall x, y :: 0.0 <= x <= y <= 128.0 ==> rnd(x) <= rnd(y))
    && (forall x :: 0.0 <= x <= 128.0 && x == x.Floor as real ==> rnd(x) == x)
    && (forall x :: 0.0 <= x <= 128.0 ==> x - EPSILON <= rnd(x) <= x + EPSILON)
  }

  /** Python's `round` to an integer. */
  function RoundHalfEven(x: real): int {
    var f := x.Floor;
    var d := x - f as real;
    if d < 0.5 || (d == 0.5 && f % 2 == 0) then f else f + 1
  }

  lemma RoundingIsMonotone(x: real, y: real)
    requires x <= y
    ensures RoundHalfEven(x) <= RoundHalfEven(y)
  {
    if x.Floor < y.Floor {
      assert RoundHalfEven(x) <= x.Floor + 1 <= y.Floor;
    }
  }

  /** Half-even rounding takes an integer no farther than half away, and even on ties. */
  lemma RoundingIsNearest(x: real)
    ensures var n := RoundHalfEven(x);
            && n as real - 0.5 <= x <= n as real + 0.5
            && (x == n as real - 0.5 || x == n as real + 0.5 ==> n % 2 == 0)
  {}

  /** The whole of a real strictly within half of an integer. */
  lemma RoundsTo(x: real, n: int)
    requires n as real - 0.5 < x < n as real + 0.5
    ensures RoundHalfEven(x) == n
  {
    if x < n as real {
      assert x.Floor == n - 1;
    } else {
      assert x.Floor == n;
    }
  }

  // ---------------------------------------------------------------------------
  // One device
  // ---------------------------------------------------------------------------

  /** The thresholds put every score into one level and keep the order. */
  function RiskLevel(score: int): (r: Level)
    ensures r == Level.Critical <==> score >= 80
    ensures r == Low <==> score < 30
    ensures r == High <==> 60 <= score < 80
  {
    if score >= 80 then Level.Critical else if score >= 60 then High else if score >= 30 then Medium else Low
  }

  const THRESHOLDS: seq<int> := [30, 60, 80]

  /** The rank of a level is the number of thresholds the score has reached. */
  lemma LevelCountsThresholds(score: int)
    ensures Rank(RiskLevel(score)) == |set i | 0 <= i < 3 && THRESHOLDS[i] <= score|
  {
    var reached := set i | 0 <= i < 3 && THRESHOLDS[i] <= score;
    assert reached
        == if score >= 80 then {0, 1, 2} else if score >= 60 then {0, 1} else if score >= 30 then {0} else {};
  }

  /** A higher score never has a lower level, and different levels have different ranks. */
  lemma LevelKeepsOrder(a: int, b: int)
    requires a <= b
    ensures Rank(RiskLevel(a)) <= Rank(RiskLevel(b))
    ensures Rank(RiskLevel(a)) == Rank(RiskLevel(b)) <==> RiskLevel(a) == RiskLevel(b)
  {
  }

  function Rank(level: Level): nat {
    match level
    case Low => 0
    case Medium => 1
    case High => 2
    case Critical => 3
  }

  /** The insights of a device, oldest first. */
  function Of(insights: seq<Insight>, device: string): seq<Insight> {
    if insights == [] then []
    else
      var n := |insights| - 1;
      Of(insights[..n], device)
      + if insights[n].scopeType == "device" && insights[n].scope == device then [insights[n]] else []
  }

  function Newest(rows: seq<Insight>): seq<Insight> {
    if |rows| <= NEWEST then rows else rows[|rows| - NEWEST..]
  }

  /** How many unresolved insights have a severity. */
  function Unresolved(rows: seq<Insight>, severity: Severity): nat {
    if rows == [] then 0
    else (if rows[0].status != Resolved && rows[0].severity == severity then 1 else 0) + Unresolved(rows[1..], severity)
  }

  function Base(device: Option<Device>): nat {
    match device
    case None => 0
    case Some(d) =>
      (match d.status case Offline => 30 case Unknown => 15 case OtherStatus => 0) + if d.wasm then 0 else 10
  }

  function Weighed(rows: seq<Insight>): nat {
    25 * Unresolved(rows, Severity.Critical) + 12 * Unresolved(rows, Warning) + 4 * Unresolved(rows, Info)
  }

  function DeviceScore(insights: seq<Insight>, id: string, device: Option<Device>): (r: int)
    ensures 0 <= r <= 100
  {
    Min(100, Base(device) + Weighed(Newest(Of(insights, id))))
  }

  /** What a device's answer costs, whatever its insights are, as long as the cap is not
      reached: 30 when it is offline, 15 when its status is unknown, 10 without the
      capability; nothing when there is no answer. */
  lemma StatusCosts(insights: seq<Insight>, id: string, d: Device)
    ensures var healthy := DeviceScore(insights, id, Some(Device(OtherStatus, true)));
            var extra := (if d.status == Offline then 30 else if d.status == Unknown then 15 else 0)
                         + (if d.wasm then 0 else 10);
            && DeviceScore(insights, id, Some(d)) == Min(100, healthy + extra)
            && DeviceScore(insights, id, None) == healthy
            && (Of(insights, id) == [] ==> healthy == 0)
  {}

  ghost predicate Blamed(rows: seq<Insight>, category: Category) {
    exists i :: 0 <= i < |rows| && rows[i].status != Resolved && rows[i].category == category
  }

  ghost predicate ReasonsFit(device: Option<Device>, rows: seq<Insight>, reasons: set<Reason>) {
    && (DeviceOffline in reasons <==> device.Some? && device.value.status == Offline)
    && (StatusUnknown in reasons <==> device.Some? && device.value.status == Unknown)
    && (MissingWasm in reasons <==> device.Some? && !device.value.wasm)
    && (RecentDeliveryRisk in reasons <==> Blamed(rows, DeliveryRisk))
    && (RecentExecutionFailure in reasons <==> Blamed(rows, ExecutionFailure))
    && (RecentSloBreach in reasons <==> Blamed(rows, SloBreach))
  }

  lemma UnresolvedSum(a: seq<Insight>, b: seq<Insight>, severity: Severity)
    ensures Unresolved(a + b, severity) == Unresolved(a, severity) + Unresolved(b, severity)
  {
    if a == [] {
      assert a + b == b;
    } else {
      assert (a + b)[1..] == a[1..] + b;
      UnresolvedSum(a[1..], b, severity);
    }
  }

  lemma WeighedSum(a: seq<Insight>, b: seq<Insight>)
    ensures Weighed(a + b) == Weighed(a) + Weighed(b)
  {
    UnresolvedSum(a, b, Severity.Critical);
    UnresolvedSum(a, b, Warning);
    UnresolvedSum(a, b, Info);
  }

  /** What one insight weighs on its own. */
  function Points(x: Insight): nat {
    Weighed([x])
  }

  lemma PointsAre(x: Insight)
    ensures Points(x) == if x.status == Resolved then 0
                         else match x.severity case Critical => 25 case Warning => 12 case Info => 4
  {
    assert [x][1..] == [];
    assert Unresolved([x], Severity.Critical)
        == if x.status != Resolved && x.severity == Severity.Critical then 1 else 0;
    assert Unresolved([x], Warning) == if x.status != Resolved && x.severity == Warning then 1 else 0;
    assert Unresolved([x], Info) == if x.status != Resolved && x.severity == Info then 1 else 0;
  }

  /** A row replaced by one that weighs no more. */
  lemma WeighedReplace(rows: seq<Insight>, i: nat, x: Insight)
    requires i < |rows| && Points(x) <= Points(rows[i])
    ensures Weighed(rows[i := x]) <= Weighed(rows)
  {
    var a, b := rows[..i], rows[i + 1..];
    assert rows == a + ([rows[i]] + b) && rows[i := x] == a + ([x] + b);
    WeighedSum(a, [rows[i]] + b);
    WeighedSum([rows[i]], b);
    WeighedSum(a, [x] + b);
    WeighedSum([x], b);
  }

  /** A status change shows up in the rows of the insight's own device, in place. */
  lemma {:induction false} StatusInPlace(insights: seq<Insight>, i: nat, status: Status, device: string)
      returns (k: nat)
    requires i < |insights|
    ensures var after := Of(insights[i := insights[i].(status := status)], device); var rows := Of(insights, device);
            || after == rows
            || (k < |rows| && after == rows[k := rows[k].(status := status)])
  {
    var n := |insights| - 1;
    var after := insights[i := insights[i].(status := status)];
    k := 0;
    if i == n {
      assert after[..n] == insights[..n];
      k := |Of(insights[..n], device)|;
    } else {
      assert after[..n] == insights[..n][i := insights[..n][i].(status := status)];
      k := StatusInPlace(insights[..n], i, status, device);
    }
  }

  lemma NewestReplace(rows: seq<Insight>, k: nat, x: Insight)
    requires k < |rows| && Points(x) <= Points(rows[k])
    ensures Weighed(Newest(rows[k := x])) <= Weighed(Newest(rows))
  {
    var cut := |rows| - |Newest(rows)|;
    if k < cut {
      assert Newest(rows[k := x]) == Newest(rows);
    } else {
      assert Newest(rows[k := x]) == Newest(rows)[k - cut := x];
      WeighedReplace(Newest(rows), k - cut, x);
    }
  }

  /** Resolving an insight never raises the score of any device, nor its level. */
  lemma ResolvingNeverRaises(insights: seq<Insight>, i: nat, id: string, device: Option<Device>)
    requires i < |insights|
    ensures var after := insights[i := insights[i].(status := Resolved)];
            && DeviceScore(after, id, device) <= DeviceScore(insights, id, device)
            && Rank(RiskLevel(DeviceScore(after, id, device))) <= Rank(RiskLevel(DeviceScore(insights, id, device)))
  {
    var rows := Of(insights, id);
    var k := StatusInPlace(insights, i, Resolved, id);
    if Of(insights[i := insights[i].(status := Resolved)], id) != rows {
      PointsAre(rows[k].(status := Resolved));
      NewestReplace(rows, k, rows[k].(status := Resolved));
    }
  }

  /** The history of a device is all of its own insights and no others. */
  lemma {:induction false} HistoryIsOwn(insights: seq<Insight>, x: Insight, device: string)
    ensures x in Of(insights, device) <==> x in insights && x.scopeType == "device" && x.scope == device
  {
    if insights != [] {
      var n := |insights| - 1;
      HistoryIsOwn(insights[..n], x, device);
      assert insights == insights[..n] + [insights[n]];
    }
  }

  /** So the insights of other devices do not count. */
  lemma OthersDoNotCount(insights: seq<Insight>, x: Insight, id: string, device: Option<Device>)
    requires !(x.scopeType == "device" && x.scope == id)
    ensures DeviceScore(insights + [x], id, device) == DeviceScore(insights, id, device)
  {
    OthersAreSkipped(insights, x, id);
  }

  lemma OthersAreSkipped(insights: seq<Insight>, x: Insight, device: string)
    requires !(x.scopeType == "device" && x.scope == device)
    ensures Of(insights + [x], device) == Of(insights, device)
  {
    assert (insights + [x])[..|insights|] == insights;
  }

  /** A new insight adds its own weight and, once 50 are stored, takes away that of the
      oldest row it pushes out. */
  lemma NewInsightWeighs(insights: seq<Insight>, x: Insight, id: string)
    requires x.scopeType == "device" && x.scope == id
    ensures var rows := Of(insights, id);
            Weighed(Newest(Of(insights + [x], id)))
            == Weighed(Newest(rows)) + Points(x) - if |rows| < NEWEST then 0 else Points(rows[|rows| - NEWEST])
  {
    assert (insights + [x])[..|insights|] == insights;
    NewestPushed(Of(insights, id), x);
  }

  lemma NewestPushed(rows: seq<Insight>, x: Insight)
    ensures Weighed(Newest(rows + [x]))
         == Weighed(Newest(rows)) + Points(x) - if |rows| < NEWEST then 0 else Points(rows[|rows| - NEWEST])
  {
    if |rows| < NEWEST {
      WeighedSum(rows, [x]);
    } else {
      var first := |rows| - NEWEST;
      NewestShift(rows, x, first);
      WeighedShift(rows[first], rows[first + 1..], x);
    }
  }

  lemma NewestShift(rows: seq<Insight>, x: Insight, first: nat)
    requires |rows| >= NEWEST && first == |rows| - NEWEST
    ensures Newest(rows) == [rows[first]] + rows[first + 1..]
    ensures Newest(rows + [x]) == rows[first + 1..] + [x]
  {
    assert rows[first..] == [rows[first]] + rows[first + 1..];
    assert (rows + [x])[first + 1..] == rows[first + 1..] + [x];
  }

  lemma WeighedShift(oldest: Insight, kept: seq<Insight>, x: Insight)
    ensures Weighed(kept + [x]) == Weighed([oldest] + kept) + Points(x) - Points(oldest)
  {
    WeighedSum([oldest], kept);
    WeighedSum(kept, [x]);
  }

  /** So a new insight lowers a device's score exactly when the row it pushes out weighs
      more, and the cap does not hide the difference. */
  lemma NewInsightLowersIff(insights: seq<Insight>, x: Insight, id: string, device: Option<Device>)
    requires x.scopeType == "device" && x.scope == id
    ensures var rows := Of(insights, id);
            DeviceScore(insights + [x], id, device) < DeviceScore(insights, id, device)
            <==> && |rows| >= NEWEST && Points(x) < Points(rows[|rows| - NEWEST])
                 && Base(device) + Weighed(Newest(rows)) + Points(x) - Points(rows[|rows| - NEWEST]) < 100
  {
    NewInsightWeighs(insights, x, id);
  }

  /** A device's full history: one critical insight, then 49 resolved ones. */
  function Full(critical: Insight, resolved: Insight): seq<Insight> {
    [critical] + seq(NEWEST - 1, i => resolved)
  }

  /** It does happen: an informational insight takes the score of such a device from 25
      to 4, because it pushes the critical one out. */
  lemma NewInsightCanLower(critical: Insight, resolved: Insight, x: Insight, id: string)
    requires forall y :: y in {critical, resolved, x} ==> y.scopeType == "device" && y.scope == id
    requires critical.severity == Severity.Critical && critical.status == Open
    requires resolved.status == Resolved && x.severity == Info && x.status == Open
    ensures DeviceScore(Full(critical, resolved), id, None) == 25
    ensures DeviceScore(Full(critical, resolved) + [x], id, None) == 4
  {
    var rows := Full(critical, resolved);
    AllOf(rows, id);
    var rest := seq(NEWEST - 1, i => resolved);
    WeighedSum([critical], rest);
    ResolvedWeighNothing(rest);
    PointsAre(critical);
    PointsAre(x);
    NewInsightWeighs(rows, x, id);
  }

  lemma {:induction false} AllOf(insights: seq<Insight>, id: string)
    requires forall x :: x in insights ==> x.scopeType == "device" && x.scope == id
    ensures Of(insights, id) == insights
  {
    if insights != [] {
      AllOf(insights[..|insights| - 1], id);
    }
  }

  lemma {:induction false} ResolvedWeighNothing(rows: seq<Insight>)
    requires forall x :: x in rows ==> x.status == Resolved
    ensures Weighed(rows) == 0
  {
    if rows != [] {
      ResolvedWeighNothing(rows[1..]);
    }
  }

  // ---------------------------------------------------------------------------
  // A fleet
  // ---------------------------------------------------------------------------

  function Sum(scores: seq<int>): int {
    if scores == [] then 0 else scores[0] + Sum(scores[1..])
  }

  function Worst(scores: seq<int>): (r: int)
    requires scores != []
    ensures r in scores && forall i :: 0 <= i < |scores| ==> scores[i] <= r
  {
    if |scores| == 1 then scores[0]
    else
      var rest := Worst(scores[1..]);
      if scores[0] > rest then scores[0] else rest
  }

  function Mean(rnd: real -> real, scores: seq<int>): int
    requires scores != []
  {
    RoundHalfEven(rnd(Sum(scores) as real / |scores| as real))
  }

  /** The product of an integer with a real as a repeated sum: see ScaledIsProduct. */
  function Scaled(n: int, c: real): real
    decreases if n < 0 then -n else n
  {
    if n == 0 then 0.0 else if n > 0 then Scaled(n - 1, c) + c else Scaled(n + 1, c) - c
  }

  lemma {:induction false} ScaledIsProduct(n: int, c: real)
    ensures Scaled(n, c) == n as real * c
    decreases if n < 0 then -n else n
  {
    if n > 0 {
      ScaledIsProduct(n - 1, c);
      assert n as real * c == (n - 1) as real * c + c;
    } else if n < 0 {
      ScaledIsProduct(n + 1, c);
      assert n as real * c == (n + 1) as real * c - c;
    }
  }

  function Blend(rnd: real -> real, mean: int, worst: int): real {
    rnd(rnd(Scaled(mean, rnd(0.7))) + rnd(Scaled(worst, rnd(0.3))))
  }

  function FleetScore(rnd: real -> real, scores: seq<int>): int {
    if scores == [] then 20 else Min(100, RoundHalfEven(Blend(rnd, Mean(rnd, scores), Worst(scores))))
  }

  predicate Scores(scores: seq<int>, low: int, high: int) {
    forall i :: 0 <= i < |scores| ==> low <= scores[i] <= high
  }

  lemma {:induction false} SumBounds(scores: seq<int>, low: int, high: int)
    requires Scores(scores, low, high)
    ensures low * |scores| <= Sum(scores) <= high * |scores|
  {
    if scores != [] {
      SumBounds(scores[1..], low, high);
      assert low * |scores| == low + low * |scores[1..]| && high * |scores| == high + high * |scores[1..]|;
    }
  }

  lemma {:induction false} SumMonotone(a: seq<int>, b: seq<int>)
    requires |a| == |b| && forall i :: 0 <= i < |a| ==> a[i] <= b[i]
    ensures Sum(a) <= Sum(b)
  {
    if a != [] {
      SumMonotone(a[1..], b[1..]);
    }
  }

  /** A quotient between bounds, and in the order of its numerators. */
  lemma DivideBounds(sum: int, n: nat, low: int, high: int)
    requires n > 0 && low * n <= sum <= high * n
    ensures low as real <= sum as real / n as real <= high as real
  {
    DivideMonotone(low * n, sum, n);
    DivideMonotone(sum, high * n, n);
    DivideExact(low, n);
    DivideExact(high, n);
  }

  lemma DivideExact(k: int, n: nat)
    requires n > 0
    ensures (k * n) as real / n as real == k as real
  {
    assert (k * n) as real == k as real * n as real;
  }

  lemma DivideMonotone(a: int, b: int, n: nat)
    requires n > 0 && a <= b
    ensures a as real / n as real <= b as real / n as real
  {
    var d := (b - a) as real / n as real;
    assert d * n as real >= 0.0;
    assert b as real / n as real == a as real / n as real + d;
  }

  lemma MeanBounds(rnd: real -> real, scores: seq<int>, low: int, high: int)
    requires Doubles(rnd) && scores != [] && 0 <= low <= high <= 100 && Scores(scores, low, high)
    ensures low <= Mean(rnd, scores) <= high
  {
    SumBounds(scores, low, high);
    DivideBounds(Sum(scores), |scores|, low, high);
    var q := Sum(scores) as real / |scores| as real;
    assert rnd(low as real) <= rnd(q) <= rnd(high as real);
    RoundingIsMonotone(low as real, rnd(q));
    RoundingIsMonotone(rnd(q), high as real);
  }

  lemma WeightsAreClose(rnd: real -> real)
    requires Doubles(rnd)
    ensures 0.7 - EPSILON <= rnd(0.7) <= 0.7 + EPSILON && 0.3 - EPSILON <= rnd(0.3) <= 0.3 + EPSILON
  {}

  /** Products with a rounded weight, against the exact ones. */
  lemma {:induction false} SevenTenths(n: nat, c: real)
    requires 0.7 - EPSILON <= c <= 0.7 + EPSILON
    ensures n as real * (0.7 - EPSILON) <= Scaled(n, c) <= n as real * (0.7 + EPSILON)
  {
    if n > 0 { SevenTenths(n - 1, c); }
  }

  lemma {:induction false} ThreeTenths(n: nat, c: real)
    requires 0.3 - EPSILON <= c <= 0.3 + EPSILON
    ensures n as real * (0.3 - EPSILON) <= Scaled(n, c) <= n as real * (0.3 + EPSILON)
  {
    if n > 0 { ThreeTenths(n - 1, c); }
  }

  lemma {:induction false} ScaledMonotone(n: nat, m: nat, c: real)
    requires n <= m && 0.0 <= c
    ensures Scaled(n, c) <= Scaled(m, c)
  {
    if n < m { ScaledMonotone(n, m - 1, c); }
  }

  /** Rounding two close parts and their sum stays close. */
  lemma SumIsClose(rnd: real -> real, a: real, b: real, x: real, y: real)
    requires Doubles(rnd) && 0.0 <= x <= 71.0 && 0.0 <= y <= 31.0 && 0.0 <= a && 0.0 <= b
    requires x - 100.0 * EPSILON <= a <= x + 100.0 * EPSILON && y - 100.0 * EPSILON <= b <= y + 100.0 * EPSILON
    ensures x + y - 0.001 < rnd(rnd(a) + rnd(b)) < x + y + 0.001
  {
    assert rnd(0.0) == 0.0 && rnd(0.0) <= rnd(a) && rnd(0.0) <= rnd(b);
    assert rnd(a) <= a + EPSILON && rnd(b) <= b + EPSILON;
  }

  lemma SumIsMonotone(rnd: real -> real, a: real, a': real, b: real, b': real)
    requires Doubles(rnd) && 0.0 <= a <= a' <= 72.0 && 0.0 <= b <= b' <= 32.0
    ensures rnd(rnd(a) + rnd(b)) <= rnd(rnd(a') + rnd(b'))
  {
    assert rnd(a) <= rnd(a') && rnd(b) <= rnd(b');
    assert rnd(0.0) == 0.0 && rnd(0.0) <= rnd(a) && rnd(0.0) <= rnd(b);
    assert rnd(a') <= a' + EPSILON && rnd(b') <= b' + EPSILON;
  }

  /** The blend is within a hair of the exact one, seven tenths and three tenths. */
  lemma BlendIsClose(rnd: real -> real, mean: nat, worst: nat)
    requires Doubles(rnd) && mean <= 100 && worst <= 100
    ensures var exact := mean as real * 0.7 + worst as real * 0.3;
            exact - 0.001 < Blend(rnd, mean, worst) < exact + 0.001
  {
    WeightsAreClose(rnd);
    SevenTenths(mean, rnd(0.7));
    ThreeTenths(worst, rnd(0.3));
    SumIsClose(rnd, Scaled(mean, rnd(0.7)), Scaled(worst, rnd(0.3)), mean as real * 0.7, worst as real * 0.3);
  }

  /** The blend is monotone in both parts. */
  lemma BlendIsMonotone(rnd: real -> real, mean: nat, mean': nat, worst: nat, worst': nat)
    requires Doubles(rnd) && mean <= mean' <= 100 && worst <= worst' <= 100
    ensures Blend(rnd, mean, worst) <= Blend(rnd, mean', worst')
  {
    WeightsAreClose(rnd);
    var c7, c3 := rnd(0.7), rnd(0.3);
    SevenTenths(mean, c7);
    SevenTenths(mean', c7);
    ThreeTenths(worst, c3);
    ThreeTenths(worst', c3);
    ScaledMonotone(mean, mean', c7);
    ScaledMonotone(worst, worst', c3);
    SumIsMonotone(rnd, Scaled(mean, c7), Scaled(mean', c7), Scaled(worst, c3), Scaled(worst', c3));
  }

  /** A real within a hair of some tenths rounds to their nearest integer, and on a tie
      to one of the two. */
  lemma TenthsRound(x: real, tenths: int)
    requires tenths as real * 0.1 - 0.001 < x < tenths as real * 0.1 + 0.001
    ensures tenths % 10 != 5 ==> RoundHalfEven(x) == (tenths + 5) / 10
    ensures tenths % 10 == 5 ==> RoundHalfEven(x) == tenths / 10 || RoundHalfEven(x) == tenths / 10 + 1
  {
    var q, r := tenths / 10, tenths % 10;
    assert tenths as real * 0.1 == q as real + r as real * 0.1;
    if r < 5 {
      RoundsTo(x, q);
    } else if r > 5 {
      RoundsTo(x, q + 1);
    } else if x != q as real + 0.5 {
      RoundsTo(x, if x < q as real + 0.5 then q else q + 1);
    }
  }

  lemma BlendRounds(rnd: real -> real, mean: int, worst: int, n: int)
    requires Doubles(rnd) && 0 <= mean <= 100 && 0 <= worst <= 100
    requires n == RoundHalfEven(Blend(rnd, mean, worst))
    ensures var tenths := 7 * mean + 3 * worst;
            && (tenths % 10 != 5 ==> n == (tenths + 5) / 10)
            && (tenths % 10 == 5 ==> n == tenths / 10 || n == tenths / 10 + 1)
  {
    BlendIsClose(rnd, mean, worst);
    TenthsRound(Blend(rnd, mean, worst), 7 * mean + 3 * worst);
  }

  lemma TenthsBetween(mean: int, worst: int)
    requires mean <= worst
    ensures var tenths := 7 * mean + 3 * worst;
            && mean <= tenths / 10 <= worst
            && (tenths % 10 >= 5 ==> tenths / 10 + 1 <= worst)
            && (tenths % 10 != 5 ==> mean <= (tenths + 5) / 10 <= worst)
  {}

  /** For a fleet with members the score is their rounded mean and worst score blended to
      the nearest integer: no less than the mean, which is no less than the least score,
      and no more than the worst, so that the cap never acts. */
  lemma FleetScoreBounds(rnd: real -> real, scores: seq<int>, low: int)
    requires Doubles(rnd) && scores != [] && 0 <= low && Scores(scores, low, 100)
    ensures var mean := Mean(rnd, scores); var tenths := 7 * mean + 3 * Worst(scores);
            && low <= mean <= FleetScore(rnd, scores) <= Worst(scores) <= 100
            && FleetScore(rnd, scores) == RoundHalfEven(Blend(rnd, mean, Worst(scores)))
            && (tenths % 10 != 5 ==> FleetScore(rnd, scores) == (tenths + 5) / 10)
  {
    var worst := Worst(scores);
    assert Scores(scores, low, worst);
    assert low <= worst <= 100;
    MeanBounds(rnd, scores, low, worst);
    BlendRounds(rnd, Mean(rnd, scores), worst, RoundHalfEven(Blend(rnd, Mean(rnd, scores), worst)));
    TenthsBetween(Mean(rnd, scores), worst);
  }

  lemma MeanMonotone(rnd: real -> real, a: seq<int>, b: seq<int>)
    requires Doubles(rnd) && a != [] && |a| == |b| && Scores(a, 0, 100) && Scores(b, 0, 100)
    requires forall i :: 0 <= i < |a| ==> a[i] <= b[i]
    ensures Mean(rnd, a) <= Mean(rnd, b)
  {
    var p, q := Sum(a) as real / |a| as real, Sum(b) as real / |b| as real;
    SumMonotone(a, b);
    DivideMonotone(Sum(a), Sum(b), |a|);
    SumBounds(a, 0, 100);
    SumBounds(b, 0, 100);
    DivideBounds(Sum(a), |a|, 0, 100);
    DivideBounds(Sum(b), |b|, 0, 100);
    RoundingIsMonotone(rnd(p), rnd(q));
  }

  /** A fleet without members has a score of 20, which is low. */
  lemma EmptyFleet(rnd: real -> real)
    ensures FleetScore(rnd, []) == 20 && RiskLevel(FleetScore(rnd, [])) == Low
  {}

  /** Raising scores never lowers the fleet's score or level. */
  lemma RaisingNeverLowers(rnd: real -> real, a: seq<int>, b: seq<int>)
    requires Doubles(rnd) && |a| == |b| && Scores(a, 0, 100) && Scores(b, 0, 100)
    requires forall i :: 0 <= i < |a| ==> a[i] <= b[i]
    ensures FleetScore(rnd, a) <= FleetScore(rnd, b)
    ensures Rank(RiskLevel(FleetScore(rnd, a))) <= Rank(RiskLevel(FleetScore(rnd, b)))
  {
    FleetScoreMonotone(rnd, a, b);
  }

  lemma FleetScoreMonotone(rnd: real -> real, a: seq<int>, b: seq<int>)
    requires Doubles(rnd) && |a| == |b| && Scores(a, 0, 100) && Scores(b, 0, 100)
    requires forall i :: 0 <= i < |a| ==> a[i] <= b[i]
    ensures FleetScore(rnd, a) <= FleetScore(rnd, b)
  {
    if a != [] {
      MeanBounds(rnd, a, 0, 100);
      MeanBounds(rnd, b, 0, 100);
      MeanMonotone(rnd, a, b);
      WorstMonotone(a, b);
      BlendIsMonotone(rnd, Mean(rnd, a), Mean(rnd, b), Worst(a), Worst(b));
      RoundingIsMonotone(Blend(rnd, Mean(rnd, a), Worst(a)), Blend(rnd, Mean(rnd, b), Worst(b)));
    }
  }

  lemma WorstMonotone(a: seq<int>, b: seq<int>)
    requires a != [] && |a| == |b| && forall i :: 0 <= i < |a| ==> a[i] <= b[i]
    ensures Worst(a) <= Worst(b)
  {
    var i :| 0 <= i < |a| && a[i] == Worst(a);
    assert b[i] <= Worst(b);
  }

  /** Exact arithmetic is one such rounding. */
  lemma ExactIsDoubles()
    ensures Doubles(x => x)
  {}

  /** A member with what the device service answers for it. */
  datatype Member = Member(id: string, device: Option<Device>)

  function Mapped<A, B>(f: A -> B, items: seq<A>): (r: seq<B>)
    ensures |r| == |items| && forall i :: 0 <= i < |items| ==> r[i] == f(items[i])
  {
    if items == [] then [] else [f(items[0])] + Mapped(f, items[1..])
  }

  /** A second score for the same member is counted twice. */
  function MemberScores(insights: seq<Insight>, members: seq<Member>): seq<int> {
    Mapped((m: Member) => DeviceScore(insights, m.id, m.device), members)
  }

  lemma MemberAt(insights: seq<Insight>, members: seq<Member>, i: nat)
    requires i < |members|
    ensures |MemberScores(insights, members)| == |members|
    ensures MemberScores(insights, members)[i] == DeviceScore(insights, members[i].id, members[i].device)
  {}

  lemma MembersSoFar(insights: seq<Insight>, members: seq<Member>, k: nat, score: int)
    requires k < |members| && score == DeviceScore(insights, members[k].id, members[k].device)
    ensures MemberScores(insights, members[..k + 1]) == MemberScores(insights, members[..k]) + [score]
  {
    assert members[..k + 1] == members[..k] + [members[k]];
    MappedSum((m: Member) => DeviceScore(insights, m.id, m.device), members[..k], [members[k]]);
  }

  lemma {:induction false} MappedSum<A, B>(f: A -> B, a: seq<A>, b: seq<A>)
    ensures Mapped(f, a + b) == Mapped(f, a) + Mapped(f, b)
  {
    if a == [] {
      assert a + b == b;
    } else {
      assert (a + b)[1..] == a[1..] + b;
      MappedSum(f, a[1..], b);
    }
  }

  lemma MembersInRange(insights: seq<Insight>, members: seq<Member>)
    ensures |MemberScores(insights, members)| == |members| && Scores(MemberScores(insights, members), 0, 100)
  {
    forall i | 0 <= i < |members| ensures 0 <= MemberScores(insights, members)[i] <= 100 {
      MemberAt(insights, members, i);
    }
  }

  /** End to end: resolving an insight never raises any fleet's score or level. */
  lemma ResolvingCalmsTheFleet(rnd: real -> real, insights: seq<Insight>, i: nat, members: seq<Member>)
    requires Doubles(rnd) && i < |insights|
    ensures var before := FleetScore(rnd, MemberScores(insights, members));
            var after := FleetScore(rnd, MemberScores(insights[i := insights[i].(status := Resolved)], members));
            after <= before && Rank(RiskLevel(after)) <= Rank(RiskLevel(before))
  {
    var resolved := insights[i := insights[i].(status := Resolved)];
    var a, b := MemberScores(resolved, members), MemberScores(insights, members);
    MembersInRange(resolved, members);
    MembersInRange(insights, members);
    forall k | 0 <= k < |members| ensures a[k] <= b[k] {
      MemberAt(insights, members, k);
      MemberAt(resolved, members, k);
      ResolvingNeverRaises(insights, i, members[k].id, members[k].device);
    }
    RaisingNeverLowers(rnd, a, b);
  }

  // ---------------------------------------------------------------------------
  // The scoring
  // ---------------------------------------------------------------------------

  method ComputeDeviceRisk(insights: seq<Insight>, id: string, device: Option<Device>) returns (r: Score)
    ensures r.score == DeviceScore(insights, id, device) && 0 <= r.score <= 100
    ensures r.level == RiskLevel(r.score)
    ensures r.evidence.DeviceEvidence? && r.evidence.count == Min(NEWEST, |Of(insights, id)|)
    ensures ReasonsFit(device, Newest(Of(insights, id)), r.evidence.reasons)
  {
    var rows := Newest(Of(insights, id));
    var score := 0;
    var reasons: set<Reason> := {};
    if device.Some? {
      match device.value.status {
        case Offline => score, reasons := score + 30, reasons + {DeviceOffline};
        case Unknown => score, reasons := score + 15, reasons + {StatusUnknown};
        case OtherStatus =>
      }
      if !device.value.wasm {
        score, reasons := score + 10, reasons + {MissingWasm};
      }
    }
    assert rows[..0] == [];
    for k := 0 to |rows|
      invariant score == Base(device) + Weighed(rows[..k])
      invariant ReasonsFit(device, rows[..k], reasons)
    {
      var x := rows[k];
      assert rows[..k + 1] == rows[..k] + [x];
      WeighedSum(rows[..k], [x]);
      PointsAre(x);
      ghost var was := reasons;
      if x.status != Resolved {
        match x.severity {
          case Critical => score := score + 25;
          case Warning => score := score + 12;
          case Info => score := score + 4;
        }
        match x.category {
          case DeliveryRisk => reasons := reasons + {RecentDeliveryRisk};
          case ExecutionFailure => reasons := reasons + {RecentExecutionFailure};
          case SloBreach => reasons := reasons + {RecentSloBreach};
          case _ =>
        }
      }
      BlamedNext(rows[..k], x, DeliveryRisk);
      BlamedNext(rows[..k], x, ExecutionFailure);
      BlamedNext(rows[..k], x, SloBreach);
    }
    assert rows[..|rows|] == rows;
    score := Min(score, 100);
    r := Score(score, RiskLevel(score), DeviceEvidence(|rows|, reasons));
  }

  lemma BlamedNext(rows: seq<Insight>, x: Insight, category: Category)
    ensures Blamed(rows + [x], category) <==> Blamed(rows, category) || (x.status != Resolved && x.category == category)
  {
    if Blamed(rows, category) {
      var i :| 0 <= i < |rows| && rows[i].status != Resolved && rows[i].category == category;
      assert (rows + [x])[i] == rows[i];
    }
    assert (rows + [x])[|rows|] == x;
  }

  lemma BlendIsProduct(rnd: real -> real, mean: int, worst: int)
    ensures Blend(rnd, mean, worst) == rnd(rnd(mean as real * rnd(0.7)) + rnd(worst as real * rnd(0.3)))
  {
    ScaledIsProduct(mean, rnd(0.7));
    ScaledIsProduct(worst, rnd(0.3));
  }

  method WeighFleet(rnd: real -> real, members: seq<int>) returns (score: int)
    ensures score == FleetScore(rnd, members)
  {
    if members == [] {
      return 20;
    }
    var mean := RoundHalfEven(rnd(Sum(members) as real / |members| as real));
    var worst := Worst(members);
    var blend := rnd(rnd(mean as real * rnd(0.7)) + rnd(worst as real * rnd(0.3)));
    BlendIsProduct(rnd, mean, worst);
    score := Min(100, RoundHalfEven(blend));
  }

  method ScoreOf(insights: seq<Insight>, m: Member) returns (score: int)
    ensures score == DeviceScore(insights, m.id, m.device)
  {
    var risk := ComputeDeviceRisk(insights, m.id, m.device);
    score := risk.score;
  }

  method ScoreMembers(insights: seq<Insight>, members: seq<Member>) returns (scores: seq<int>)
    ensures scores == MemberScores(insights, members)
  {
    scores := [];
    for k := 0 to |members|
      invariant scores == MemberScores(insights, members[..k])
    {
      var score := ScoreOf(insights, members[k]);
      MembersSoFar(insights, members, k, score);
      scores := scores + [score];
    }
    assert members[..|members|] == members;
  }

  class Scorer {
    const rnd: real -> real
    var insights: seq<Insight>
    var scores: map<Key, Score>

    constructor (rnd: real -> real, insights: seq<Insight>)
      requires Doubles(rnd)
      ensures this.rnd == rnd && this.insights == insights && scores == map[]
    {
      this.rnd, this.insights, scores := rnd, insights, map[];
    }

    method ComputeAndStoreDeviceRisk(id: string, device: Option<Device>) returns (r: Score)
      modifies this`scores
      ensures scores == old(scores)[DeviceKey(id) := r]
      ensures r.score == DeviceScore(insights, id, device) && r.level == RiskLevel(r.score)
    {
      r := ComputeDeviceRisk(insights, id, device);
      scores := scores[DeviceKey(id) := r];
    }

    method ComputeAndStoreFleetRisk(fleet: string, members: seq<Member>) returns (r: Score)
      requires Doubles(rnd)
      modifies this`scores
      ensures scores == old(scores)[FleetKey(fleet) := r]
      ensures r.evidence == FleetEvidence(MemberScores(insights, members))
      ensures r.score == FleetScore(rnd, MemberScores(insights, members)) && r.level == RiskLevel(r.score)
      ensures 0 <= r.score <= 100
    {
      var memberScores := ScoreMembers(insights, members);
      var score := WeighFleet(rnd, memberScores);
      if memberScores != [] {
        MembersInRange(insights, members);
        FleetScoreBounds(rnd, memberScores, 0);
      }
      r := Score(score, RiskLevel(score), FleetEvidence(memberScores));
      scores := scores[FleetKey(fleet) := r];
    }
  }
}
