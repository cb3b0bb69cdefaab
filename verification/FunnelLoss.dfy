/** Per-transition loss attribution: the funnel comparison of `DuckDBAnalyticsSource.get_funnel` and the
    row loss of `breakdown_loss`, over exact rationals. The SQL counts are inputs. */
module FunnelLoss {
  import opened Domain

  type StageCounts = map<FunnelStage, nat>

  const ANOMALY_THRESHOLD: real := 0.05

  datatype StageStat = StageStat(
    stage: FunnelStage, reachedCount: nat, stepRate: Option<real>, overallRate: real)

  datatype PeriodStats = PeriodStats(stages: seq<StageStat>, orderConfirmed: nat, completed: nat)

  datatype StageDelta = StageDelta(
    stage: FunnelStage,
    baselineOverall: real, incidentOverall: real, rateDelta: real,
    baselineStep: Option<real>, incidentStep: Option<real>,
    estimatedLost: int)

  datatype FunnelResult = FunnelResult(
    baseline: PeriodStats, incident: PeriodStats, deltas: seq<StageDelta>, anomalousStages: seq<FunnelStage>)

  // ----- Python arithmetic -------------------------------------------------------------------

  /** Python's `round`: to the nearest integer, ties to the even one. */
  function Round(x: real): (r: int)
    ensures x - 0.5 <= r as real <= x + 0.5
    ensures r as real == x - 0.5 || r as real == x + 0.5 ==> r % 2 == 0
  {
    var f := x.Floor;
    var d := x - f as real;
    if d < 0.5 then f else if d > 0.5 then f + 1 else if f % 2 == 0 then f else f + 1
  }

  /** Rounding never passes an integer bound. */
  lemma RoundBelow(x: real, n: int)
    requires x <= n as real
    ensures Round(x) <= n
  {
  }

  function Abs(x: real): real { if x < 0.0 then -x else x }

  function Max(a: int, b: int): int { if a < b then b else a }

  // ----- What each stage of one period shows ---------------------------------------------------

  function Reached(c: StageCounts, k: nat): nat
    requires k < STAGES
  {
    var stage := FUNNEL_STAGE_ORDER[k];
    if stage in c then c[stage] else 0
  }

  /** Conversion into stage `k`, undefined for the first stage and after an empty one. */
  function StepRate(c: StageCounts, k: nat): Option<real>
    requires k < STAGES
  {
    if k == 0 || Reached(c, k - 1) == 0 then None
    else Some(Reached(c, k) as real / Reached(c, k - 1) as real)
  }

  function OverallRate(c: StageCounts, k: nat): real
    requires k < STAGES
  {
    if Reached(c, 0) == 0 then 0.0 else Reached(c, k) as real / Reached(c, 0) as real
  }

  function StatAt(c: StageCounts, k: nat): StageStat
    requires k < STAGES
  {
    StageStat(FUNNEL_STAGE_ORDER[k], Reached(c, k), StepRate(c, k), OverallRate(c, k))
  }

  ghost predicate Describes(p: PeriodStats, c: StageCounts) {
    && |p.stages| == STAGES
    && (forall k :: 0 <= k < STAGES ==> p.stages[k] == StatAt(c, k))
    && p.orderConfirmed == Reached(c, 0)
    && p.completed == Reached(c, STAGES - 1)
  }

  method BuildPeriod(c: StageCounts) returns (p: PeriodStats)
    ensures Describes(p, c)
  {
    var first := if FUNNEL_STAGE_ORDER[0] in c then c[FUNNEL_STAGE_ORDER[0]] else 0;
    var stages: seq<StageStat> := [];
    var prev: Option<nat> := None;
    for k := 0 to STAGES
      invariant |stages| == k
      invariant forall i :: 0 <= i < k ==> stages[i] == StatAt(c, i)
      invariant prev == if k == 0 then None else Some(Reached(c, k - 1))
    {
      var stage := FUNNEL_STAGE_ORDER[k];
      var n := if stage in c then c[stage] else 0;
      var step := if prev.Some? && prev.value != 0 then Some(n as real / prev.value as real) else None;
      var overall := if first != 0 then n as real / first as real else 0.0;
      stages := stages + [StageStat(stage, n, step, overall)];
      prev := Some(n);
    }
    var last := FUNNEL_STAGE_ORDER[STAGES - 1];
    p := PeriodStats(stages, first, if last in c then c[last] else 0);
  }

  // ----- What each transition is charged ---------------------------------------------------------

  /** A transition is anomalous when both step rates exist and differ by more than the threshold,
      in either direction. */
  predicate Anomalous(base: StageCounts, inc: StageCounts, k: nat)
    requires k < STAGES
  {
    k > 0 && Moved(StepRate(base, k), StepRate(inc, k))
  }

  predicate Moved(b: Option<real>, i: Option<real>) {
    b.Some? && i.Some? && Abs(i.value - b.value) > ANOMALY_THRESHOLD
  }

  /** The intents that entered a transition and would have passed it at the baseline rate only. */
  function ExcessDrop(entered: nat, b: real, i: real): (lost: int)
    ensures lost >= 0
  {
    Max(0, Round(entered as real * (b - i)))
  }

  /** The loss charged to the transition into stage `k`: the excess drop of the intents that entered it. */
  function Charged(base: StageCounts, inc: StageCounts, k: nat): (lost: int)
    requires k < STAGES
    ensures lost >= 0
    ensures !Anomalous(base, inc, k) ==> lost == 0
  {
    if Anomalous(base, inc, k) && StepRate(base, k).value > StepRate(inc, k).value then
      ExcessDrop(Reached(inc, k - 1), StepRate(base, k).value, StepRate(inc, k).value)
    else 0
  }

  function DeltaAt(base: StageCounts, inc: StageCounts, k: nat): StageDelta
    requires k < STAGES
  {
    StageDelta(FUNNEL_STAGE_ORDER[k], OverallRate(base, k), OverallRate(inc, k),
               OverallRate(inc, k) - OverallRate(base, k), StepRate(base, k), StepRate(inc, k),
               Charged(base, inc, k))
  }

  /** The anomalous stages among the first `n`, in funnel order. */
  function AnomalousAmong(base: StageCounts, inc: StageCounts, n: nat): (stages: seq<FunnelStage>)
    requires n <= STAGES
    ensures |stages| <= n
    ensures forall s :: s in stages <==> Index(s) < n && Anomalous(base, inc, Index(s))
  {
    if n == 0 then []
    else
      StageAtHasIndex(n - 1);
      AnomalousAmong(base, inc, n - 1) +
      (if Anomalous(base, inc, n - 1) then [FUNNEL_STAGE_ORDER[n - 1]] else [])
  }

  ghost predicate Compares(r: FunnelResult, base: StageCounts, inc: StageCounts) {
    && Describes(r.baseline, base)
    && Describes(r.incident, inc)
    && |r.deltas| == STAGES && (forall k :: 0 <= k < STAGES ==> r.deltas[k] == DeltaAt(base, inc, k))
    && r.anomalousStages == AnomalousAmong(base, inc, STAGES)
  }

  /** The comparison of one stage, from its two statistics and the incident count of the stage before. */
  method CompareStage(index: nat, b: StageStat, i: StageStat, previousIncidentReached: nat,
                      ghost base: StageCounts, ghost inc: StageCounts)
    returns (delta: StageDelta, isAnomalous: bool)
    requires index < STAGES && b == StatAt(base, index) && i == StatAt(inc, index)
    requires index > 0 ==> previousIncidentReached == Reached(inc, index - 1)
    ensures delta == DeltaAt(base, inc, index) && isAnomalous == Anomalous(base, inc, index)
  {
    isAnomalous := index > 0 && Moved(b.stepRate, i.stepRate);
    var lost := 0;
    if isAnomalous && b.stepRate.value > i.stepRate.value {
      lost := ExcessDrop(previousIncidentReached, b.stepRate.value, i.stepRate.value);
    }
    delta := StageDelta(b.stage, b.overallRate, i.overallRate, i.overallRate - b.overallRate,
                        b.stepRate, i.stepRate, lost);
  }

  method GetFunnel(base: StageCounts, inc: StageCounts) returns (r: FunnelResult)
    ensures Compares(r, base, inc)
    ensures ReadsByCounts(r, base, inc)
  {
    var baseline := BuildPeriod(base);
    var incident := BuildPeriod(inc);
    var deltas: seq<StageDelta> := [];
    var anomalous: seq<FunnelStage> := [];
    var previousIncidentReached := incident.stages[0].reachedCount;
    for index := 0 to STAGES
      invariant |deltas| == index
      invariant forall k :: 0 <= k < index ==> deltas[k] == DeltaAt(base, inc, k)
      invariant anomalous == AnomalousAmong(base, inc, index)
      invariant index > 0 ==> previousIncidentReached == Reached(inc, index - 1)
    {
      var b, i := baseline.stages[index], incident.stages[index];
      var delta, isAnomalous := CompareStage(index, b, i, previousIncidentReached, base, inc);
      if isAnomalous {
        anomalous := anomalous + [b.stage];
      }
      deltas := deltas + [delta];
      previousIncidentReached := i.reachedCount;
    }
    r := FunnelResult(baseline, incident, deltas, anomalous);
    ComparesByCounts(r, base, inc);
  }

  // ----- The same in terms of the counts alone -----------------------------------------------------

  /** The count of a stage, 0 when the query returned no row for it. */
  function At(c: StageCounts, stage: FunnelStage): nat {
    if stage in c then c[stage] else 0
  }

  function IntAbs(x: int): nat { if x < 0 then -x else x }

  /** The share of intents that passed into stage `k` moved by more than a twentieth, up or down. */
  predicate Shifted(base: StageCounts, inc: StageCounts, k: nat)
    requires k < STAGES
  {
    k > 0 &&
    var p, q := At(base, FUNNEL_STAGE_ORDER[k - 1]), At(inc, FUNNEL_STAGE_ORDER[k - 1]);
    var b, i := At(base, FUNNEL_STAGE_ORDER[k]), At(inc, FUNNEL_STAGE_ORDER[k]);
    p > 0 && q > 0 && 20 * IntAbs(i * p - b * q) > p * q
  }

  /** A smaller share of the incident's intents passed into stage `k`. */
  predicate FellShort(base: StageCounts, inc: StageCounts, k: nat)
    requires 0 < k < STAGES
  {
    At(inc, FUNNEL_STAGE_ORDER[k]) * At(base, FUNNEL_STAGE_ORDER[k - 1])
    < At(base, FUNNEL_STAGE_ORDER[k]) * At(inc, FUNNEL_STAGE_ORDER[k - 1])
  }

  /** `lost` is `num / den` rounded, ties to the even integer. */
  predicate IsQuotient(lost: int, num: int, den: nat) {
    2 * IntAbs(lost * den - num) <= den && (2 * IntAbs(lost * den - num) == den ==> lost % 2 == 0)
  }

  /** What a stage is charged: nothing unless it shifted down, and then what the baseline share of its entrants
      is more than passed. */
  ghost predicate LossByCounts(lost: int, base: StageCounts, inc: StageCounts, k: nat)
    requires k < STAGES
  {
    if Shifted(base, inc, k) && FellShort(base, inc, k) then
      var p, q := At(base, FUNNEL_STAGE_ORDER[k - 1]), At(inc, FUNNEL_STAGE_ORDER[k - 1]);
      var b, i := At(base, FUNNEL_STAGE_ORDER[k]), At(inc, FUNNEL_STAGE_ORDER[k]);
      IsQuotient(lost, b * q - i * p, p)
    else lost == 0
  }

  ghost predicate StepByCounts(step: Option<real>, c: StageCounts, k: nat)
    requires k < STAGES
  {
    if k > 0 && At(c, FUNNEL_STAGE_ORDER[k - 1]) > 0 then
      step.Some? && step.value * At(c, FUNNEL_STAGE_ORDER[k - 1]) as real == At(c, FUNNEL_STAGE_ORDER[k]) as real
    else step.None?
  }

  ghost predicate OverallByCounts(overall: real, c: StageCounts, k: nat)
    requires k < STAGES
  {
    if At(c, ORDER_CONFIRMED) > 0 then overall * At(c, ORDER_CONFIRMED) as real == At(c, FUNNEL_STAGE_ORDER[k]) as real
    else overall == 0.0
  }

  ghost predicate DeltaByCounts(d: StageDelta, base: StageCounts, inc: StageCounts, k: nat)
    requires k < STAGES
  {
    && d.stage == FUNNEL_STAGE_ORDER[k] && LossByCounts(d.estimatedLost, base, inc, k)
    && StepByCounts(d.baselineStep, base, k) && StepByCounts(d.incidentStep, inc, k)
    && OverallByCounts(d.baselineOverall, base, k) && OverallByCounts(d.incidentOverall, inc, k)
    && d.rateDelta == d.incidentOverall - d.baselineOverall
  }

  ghost predicate DeltasRead(deltas: seq<StageDelta>, base: StageCounts, inc: StageCounts) {
    |deltas| == STAGES && forall k :: 0 <= k < STAGES ==> DeltaByCounts(deltas[k], base, inc, k)
  }

  /** The stages that shifted, in funnel order. */
  ghost predicate StagesRead(stages: seq<FunnelStage>, base: StageCounts, inc: StageCounts) {
    && (forall s :: s in stages <==> Shifted(base, inc, Index(s)))
    && InFunnelOrder(stages)
  }

  ghost predicate EndsRead(p: PeriodStats, c: StageCounts) {
    p.orderConfirmed == At(c, ORDER_CONFIRMED) && p.completed == At(c, PAYMENT_COMPLETED)
  }

  /** The whole comparison read off the counts: one delta per stage, the stages that shifted in funnel order,
      and both ends of both periods. */
  ghost predicate ReadsByCounts(r: FunnelResult, base: StageCounts, inc: StageCounts) {
    && DeltasRead(r.deltas, base, inc) && StagesRead(r.anomalousStages, base, inc)
    && EndsRead(r.baseline, base) && EndsRead(r.incident, inc)
  }

  lemma ReachedIsCount(c: StageCounts, k: nat)
    requires k < STAGES
    ensures Reached(c, k) == At(c, FUNNEL_STAGE_ORDER[k])
  {
  }

  /** Both rates over a common denominator. */
  lemma RatesApart(p: real, q: real, b: real, i: real, br: real, ir: real)
    requires p > 0.0 && q > 0.0 && br == b / p && ir == i / q
    ensures (ir - br) * (p * q) == i * p - b * q
  {
    QuotientTimes(p, b);
    QuotientTimes(q, i);
    assert ir * (p * q) == (q * ir) * p && br * (p * q) == (p * br) * q;
    Distribute(p * q, ir, br);
  }

  lemma ScaledMore(x: real, y: real, w: real)
    requires w > 0.0
    ensures x > y <==> x * w > y * w
  {
  }

  lemma AbsScaled(x: real, w: real, n: real)
    requires w > 0.0 && x * w == n
    ensures Abs(x) * w == Abs(n)
  {
  }

  lemma ThresholdOf(a: real, w: real, m: real)
    requires w > 0.0 && w * a == m
    ensures a > 0.05 <==> 20.0 * m > w
  {
    if a > 0.05 {
      PositiveProduct(w, a - 0.05);
      Distribute(w, a, 0.05);
    } else {
      NonNegativeProduct(w, 0.05 - a);
      Distribute(w, 0.05, a);
    }
  }

  lemma ScaledThreshold(x: real, w: real, n: real)
    requires w > 0.0 && x * w == n
    ensures Abs(x) > 0.05 <==> 20.0 * Abs(n) > w
    ensures x < 0.0 <==> n < 0.0
  {
    AbsScaled(x, w, n);
    ThresholdOf(Abs(x), w, Abs(n));
    ScaledMore(0.0, x, w);
  }

  lemma MovedApart(p: real, q: real, b: real, i: real, br: real, ir: real)
    requires p > 0.0 && q > 0.0 && br == b / p && ir == i / q
    ensures Abs(ir - br) > 0.05 <==> 20.0 * Abs(i * p - b * q) > p * q
    ensures br > ir <==> i * p < b * q
  {
    PositiveProduct(p, q);
    RatesApart(p, q, b, i, br, ir);
    ScaledThreshold(ir - br, p * q, i * p - b * q);
  }

  lemma RealProducts(p: nat, q: nat, b: nat, i: nat)
    ensures i as real * p as real - b as real * q as real == (i * p - b * q) as real
    ensures p as real * q as real == (p * q) as real
  {
  }

  lemma RatesMoved(p: nat, q: nat, b: nat, i: nat, br: real, ir: real)
    requires p > 0 && q > 0 && br == b as real / p as real && ir == i as real / q as real
    ensures Abs(ir - br) > 0.05 <==> 20 * IntAbs(i * p - b * q) > p * q
    ensures br > ir <==> i * p < b * q
  {
    MovedApart(p as real, q as real, b as real, i as real, br, ir);
    RealProducts(p, q, b, i);
    SameMagnitude(i * p - b * q, i as real * p as real - b as real * q as real);
  }

  lemma SameMagnitude(n: int, x: real)
    requires x == n as real
    ensures Abs(x) == IntAbs(n) as real
  {
  }

  /** The rate of a step, from counts. */
  lemma RateOfCounts(c: StageCounts, k: nat, entered: nat, passed: nat)
    requires 0 < k < STAGES
    requires entered == At(c, FUNNEL_STAGE_ORDER[k - 1]) && passed == At(c, FUNNEL_STAGE_ORDER[k])
    ensures StepRate(c, k) == if entered == 0 then None else Some(passed as real / entered as real)
  {
    ReachedIsCount(c, k - 1);
    ReachedIsCount(c, k);
  }

  lemma AnomalousByCounts(base: StageCounts, inc: StageCounts, k: nat)
    requires k < STAGES
    ensures Anomalous(base, inc, k) <==> Shifted(base, inc, k)
    ensures Anomalous(base, inc, k) ==>
              (StepRate(base, k).value > StepRate(inc, k).value <==> FellShort(base, inc, k))
  {
    if k > 0 {
      var p, q := At(base, FUNNEL_STAGE_ORDER[k - 1]), At(inc, FUNNEL_STAGE_ORDER[k - 1]);
      var b, i := At(base, FUNNEL_STAGE_ORDER[k]), At(inc, FUNNEL_STAGE_ORDER[k]);
      RateOfCounts(base, k, p, b);
      RateOfCounts(inc, k, q, i);
      if p > 0 && q > 0 {
        RatesMoved(p, q, b, i, StepRate(base, k).value, StepRate(inc, k).value);
      }
    }
  }

  lemma RealOffset(r: int, den: nat, num: int)
    ensures (r * den - num) as real == r as real * den as real - num as real
  {
  }

  lemma OffsetTimes(r: real, x: real, d: real, num: real, off: real, scaled: real)
    requires x * d == num && off == r - x && scaled == off * d
    ensures scaled == r * d - num
  {
  }

  lemma NearestQuotient(r: int, x: real, num: int, den: nat)
    requires den > 0 && x * den as real == num as real
    requires x - 0.5 <= r as real <= x + 0.5
    requires r as real == x - 0.5 || r as real == x + 0.5 ==> r % 2 == 0
    ensures IsQuotient(r, num, den)
  {
    var off := r as real - x;
    var scaled := off * den as real;
    RealOffset(r, den, num);
    OffsetTimes(r as real, x, den as real, num as real, off, scaled);
    OffByHalf(off, den as real, scaled);
    WithinHalf(r, r * den - num, den, scaled, off);
    SameOffset(r, num, den);
  }

  lemma SameOffset(r: int, num: int, den: nat)
    requires 2 * IntAbs(r * den - num) <= den && (2 * IntAbs(r * den - num) == den ==> r % 2 == 0)
    ensures IsQuotient(r, num, den)
  {
  }

  lemma WithinHalf(r: int, e: int, den: nat, scaled: real, off: real)
    requires e as real == scaled && -(den as real) <= 2.0 * scaled <= den as real
    requires 2.0 * scaled == den as real ==> off == 0.5
    requires 2.0 * scaled == -(den as real) ==> off == -0.5
    requires off == 0.5 || off == -0.5 ==> r % 2 == 0
    ensures 2 * IntAbs(e) <= den && (2 * IntAbs(e) == den ==> r % 2 == 0)
  {
  }

  lemma OffByHalf(off: real, d: real, scaled: real)
    requires d > 0.0 && -0.5 <= off <= 0.5 && scaled == off * d
    ensures -d <= 2.0 * scaled <= d
    ensures 2.0 * scaled == d ==> off == 0.5
    ensures 2.0 * scaled == -d ==> off == -0.5
  {
    NonNegativeProduct(d, 0.5 - off);
    NonNegativeProduct(d, off + 0.5);
    Distribute(d, 0.5, off);
    Distribute(d, off, -0.5);
    if off < 0.5 {
      PositiveProduct(d, 0.5 - off);
    }
    if off > -0.5 {
      PositiveProduct(d, off + 0.5);
    }
  }

  lemma ExcessTimes(p: real, q: real, b: real, i: real, br: real, ir: real, x: real)
    requires p > 0.0 && q > 0.0 && br == b / p && ir == i / q && x == q * (br - ir)
    ensures x * p == b * q - i * p
  {
    QuotientTimes(p, b);
    QuotientTimes(q, i);
    Distribute(q, br, ir);
    assert x == q * br - i;
    assert (q * br) * p == q * (p * br);
  }

  lemma PositiveFactor(x: real, p: real)
    requires p > 0.0 && x * p > 0.0
    ensures x > 0.0
  {
  }

  lemma RoundedQuotient(x: real, num: int, den: nat)
    requires den > 0 && num > 0 && x * den as real == num as real
    ensures Round(x) >= 0 && IsQuotient(Round(x), num, den)
  {
    PositiveFactor(x, den as real);
    RoundOfPositive(x);
    NearestQuotient(Round(x), x, num, den);
  }

  lemma RealDifference(p: nat, q: nat, b: nat, i: nat)
    ensures b as real * q as real - i as real * p as real == (b * q - i * p) as real
  {
  }

  lemma ExcessByCounts(p: nat, q: nat, b: nat, i: nat, br: real, ir: real, x: real)
    requires p > 0 && q > 0 && br == b as real / p as real && ir == i as real / q as real && i * p < b * q
    requires x == q as real * (br - ir)
    ensures IsQuotient(ExcessDrop(q, br, ir), b * q - i * p, p)
  {
    ExcessTimes(p as real, q as real, b as real, i as real, br, ir, x);
    RealDifference(p, q, b, i);
    RoundedQuotient(x, b * q - i * p, p);
    RoundedExcess(q, br, ir, x);
  }

  lemma RoundedExcess(entered: nat, b: real, i: real, x: real)
    requires x == entered as real * (b - i) && Round(x) >= 0
    ensures ExcessDrop(entered, b, i) == Round(x)
  {
  }

  lemma ChargedByCounts(base: StageCounts, inc: StageCounts, k: nat)
    requires k < STAGES
    ensures LossByCounts(Charged(base, inc, k), base, inc, k)
  {
    AnomalousByCounts(base, inc, k);
    if Shifted(base, inc, k) && FellShort(base, inc, k) {
      var p, q := At(base, FUNNEL_STAGE_ORDER[k - 1]), At(inc, FUNNEL_STAGE_ORDER[k - 1]);
      var b, i := At(base, FUNNEL_STAGE_ORDER[k]), At(inc, FUNNEL_STAGE_ORDER[k]);
      RateOfCounts(base, k, p, b);
      RateOfCounts(inc, k, q, i);
      ReachedIsCount(inc, k - 1);
      var br, ir := StepRate(base, k).value, StepRate(inc, k).value;
      ExcessByCounts(p, q, b, i, br, ir, q as real * (br - ir));
      assert Charged(base, inc, k) == ExcessDrop(q, br, ir);
    }
  }

  lemma RatesByCounts(c: StageCounts, k: nat)
    requires k < STAGES
    ensures StepByCounts(StepRate(c, k), c, k) && OverallByCounts(OverallRate(c, k), c, k)
  {
    ReachedIsCount(c, 0);
    ReachedIsCount(c, k);
    if Reached(c, 0) > 0 {
      QuotientTimes(Reached(c, 0) as real, Reached(c, k) as real);
    }
    if k > 0 && Reached(c, k - 1) > 0 {
      ReachedIsCount(c, k - 1);
      QuotientTimes(Reached(c, k - 1) as real, Reached(c, k) as real);
    }
  }

  /** Stages in strict funnel order. */
  ghost predicate InFunnelOrder(stages: seq<FunnelStage>) {
    forall i, j :: 0 <= i < j < |stages| ==> Index(stages[i]) < Index(stages[j])
  }

  lemma LaterStageAppended(stages: seq<FunnelStage>, s: FunnelStage)
    requires InFunnelOrder(stages) && forall t :: t in stages ==> Index(t) < Index(s)
    ensures InFunnelOrder(stages + [s])
  {
  }

  lemma {:induction false} AnomalousInOrder(base: StageCounts, inc: StageCounts, n: nat)
    requires n <= STAGES
    ensures InFunnelOrder(AnomalousAmong(base, inc, n))
  {
    if n > 0 {
      AnomalousInOrder(base, inc, n - 1);
      StageAtHasIndex(n - 1);
      if Anomalous(base, inc, n - 1) {
        LaterStageAppended(AnomalousAmong(base, inc, n - 1), FUNNEL_STAGE_ORDER[n - 1]);
      }
    }
  }

  lemma StagesByCounts(base: StageCounts, inc: StageCounts)
    ensures StagesRead(AnomalousAmong(base, inc, STAGES), base, inc)
  {
    forall s: FunnelStage ensures s in AnomalousAmong(base, inc, STAGES) <==> Shifted(base, inc, Index(s)) {
      AnomalousByCounts(base, inc, Index(s));
    }
    AnomalousInOrder(base, inc, STAGES);
  }

  lemma EndsByCounts(p: PeriodStats, c: StageCounts)
    requires Describes(p, c)
    ensures EndsRead(p, c)
  {
    ReachedIsCount(c, 0);
    ReachedIsCount(c, STAGES - 1);
    assert FUNNEL_STAGE_ORDER[0] == ORDER_CONFIRMED && FUNNEL_STAGE_ORDER[STAGES - 1] == PAYMENT_COMPLETED;
  }

  lemma DeltasByCounts(deltas: seq<StageDelta>, base: StageCounts, inc: StageCounts)
    requires |deltas| == STAGES && forall k :: 0 <= k < STAGES ==> deltas[k] == DeltaAt(base, inc, k)
    ensures DeltasRead(deltas, base, inc)
  {
    forall k | 0 <= k < STAGES ensures DeltaByCounts(deltas[k], base, inc, k) {
      DeltaAtByCounts(base, inc, k);
    }
  }

  lemma ComparesByCounts(r: FunnelResult, base: StageCounts, inc: StageCounts)
    requires Compares(r, base, inc)
    ensures ReadsByCounts(r, base, inc)
  {
    DeltasByCounts(r.deltas, base, inc);
    StagesByCounts(base, inc);
    EndsByCounts(r.baseline, base);
    EndsByCounts(r.incident, inc);
  }

  lemma DeltaAtByCounts(base: StageCounts, inc: StageCounts, k: nat)
    requires k < STAGES
    ensures DeltaByCounts(DeltaAt(base, inc, k), base, inc, k)
  {
    ChargedByCounts(base, inc, k);
    RatesByCounts(base, k);
    RatesByCounts(inc, k);
  }

  /** The counts leave one loss only. */
  lemma LossIsUnique(x: int, y: int, base: StageCounts, inc: StageCounts, k: nat)
    requires k < STAGES && LossByCounts(x, base, inc, k) && LossByCounts(y, base, inc, k)
    ensures x == y
  {
    if Shifted(base, inc, k) && FellShort(base, inc, k) {
      var p, q := At(base, FUNNEL_STAGE_ORDER[k - 1]), At(inc, FUNNEL_STAGE_ORDER[k - 1]);
      var b, i := At(base, FUNNEL_STAGE_ORDER[k]), At(inc, FUNNEL_STAGE_ORDER[k]);
      QuotientIsUnique(x, y, b * q - i * p, p);
    }
  }

  lemma QuotientIsUnique(x: int, y: int, num: int, den: nat)
    requires den > 0 && IsQuotient(x, num, den) && IsQuotient(y, num, den)
    ensures x == y
  {
    if x < y {
      Spread(x, y, den);
    } else if y < x {
      Spread(y, x, den);
    }
  }

  /** Two integers that far apart cannot both be nearest unless they are neighbours, one of them odd. */
  lemma Spread(x: int, y: int, den: nat)
    requires den > 0 && x < y
    ensures y * den - x * den >= den
    ensures y - x >= 2 ==> y * den - x * den >= 2 * den
  {
    ProductAtLeast(y - x, den, 1);
    if y - x >= 2 {
      ProductAtLeast(y - x, den, 2);
    }
    assert y * den - x * den == (y - x) * den;
  }

  lemma ProductAtLeast(n: int, den: nat, m: int)
    requires n >= m
    ensures n * den >= m * den
  {
  }

  /** An improved stage is flagged like a degraded one, and charged nothing. */
  lemma ImprovedStageFlagged(r: FunnelResult, base: StageCounts, inc: StageCounts, k: nat)
    requires Compares(r, base, inc) && 0 < k < STAGES && Shifted(base, inc, k) && !FellShort(base, inc, k)
    ensures FUNNEL_STAGE_ORDER[k] in r.anomalousStages && r.deltas[k].estimatedLost == 0
  {
    ComparesByCounts(r, base, inc);
    StageAtHasIndex(k);
    assert DeltaByCounts(r.deltas[k], base, inc, k);
  }

  /** `total` is a nearest integer to `entered * rate`. */
  predicate IsNearest(total: int, entered: nat, rate: real) {
    Abs(total as real - entered as real * rate) <= 0.5
  }

  /** What a charge means: at a degraded transition, the intents that passed plus the intents charged are
      the intents that would have passed at the baseline rate, to the nearest integer. */
  lemma ChargeRestoresBaseline(base: StageCounts, inc: StageCounts, k: nat)
    requires k < STAGES && Anomalous(base, inc, k)
    requires StepRate(base, k).value > StepRate(inc, k).value
    ensures IsNearest(Reached(inc, k) + Charged(base, inc, k), Reached(inc, k - 1), StepRate(base, k).value)
  {
    assert Charged(base, inc, k) ==
      ExcessDrop(Reached(inc, k - 1), StepRate(base, k).value, StepRate(inc, k).value);
    ExcessDropRestores(Reached(inc, k - 1), Reached(inc, k), StepRate(base, k).value, StepRate(inc, k).value);
  }

  lemma RoundedNearest(x: real)
    requires x > 0.0
    ensures Abs(Max(0, Round(x)) as real - x) <= 0.5
  {
    RoundOfPositive(x);
  }

  lemma ExcessDropNearest(prev: nat, b: real, i: real, shortfall: real)
    requires shortfall == prev as real * (b - i) && shortfall > 0.0
    ensures Abs(ExcessDrop(prev, b, i) as real - shortfall) <= 0.5
  {
    RoundedNearest(shortfall);
  }

  lemma ShortfallIs(p: real, n: real, b: real, i: real)
    requires p > 0.0 && i == n / p && b > i
    ensures p * (b - i) == p * b - n && p * (b - i) > 0.0
  {
    QuotientTimes(p, n);
    Distribute(p, b, i);
    PositiveProduct(p, b - i);
  }

  lemma ExcessDropRestores(prev: nat, n: nat, b: real, i: real)
    requires prev > 0 && i == n as real / prev as real && b > i
    ensures IsNearest(n + ExcessDrop(prev, b, i), prev, b)
  {
    ShortfallIs(prev as real, n as real, b, i);
    ExcessDropNearest(prev, b, i, prev as real * (b - i));
  }

  lemma RoundOfPositive(x: real)
    requires x > 0.0
    ensures Round(x) >= 0
  {
  }

  lemma PositiveProduct(x: real, y: real)
    requires x > 0.0 && y > 0.0
    ensures x * y > 0.0
  {
  }

  // ----- No intent is charged twice ------------------------------------------------------------

  /** Every intent that reaches a stage reached the one before it. */
  ghost predicate Nested(c: StageCounts) {
    forall k :: 0 < k < STAGES ==> Reached(c, k) <= Reached(c, k - 1)
  }

  /** Loss charged to the transitions into stages `lo`, ..., `hi - 1`. */
  function ChargedBetween(base: StageCounts, inc: StageCounts, lo: nat, hi: nat): int
    requires lo <= hi <= STAGES
    decreases hi
  {
    if lo == hi then 0 else ChargedBetween(base, inc, lo, hi - 1) + Charged(base, inc, hi - 1)
  }

  function TotalCharged(base: StageCounts, inc: StageCounts): int {
    ChargedBetween(base, inc, 0, STAGES)
  }

  lemma ExcessDropBounded(prev: nat, b: real, i: real, shortfall: real, m: nat)
    requires shortfall == prev as real * (b - i) && shortfall <= m as real
    ensures ExcessDrop(prev, b, i) <= m
  {
    RoundBelow(shortfall, m);
  }

  /** At a rate of at most one, what is missing from the rate is at most what dropped out. */
  lemma ShortfallAtMostDrop(p: real, n: real, b: real, i: real)
    requires p > 0.0 && i == n / p && b <= 1.0
    ensures p * (b - i) <= p - n
  {
    QuotientTimes(p, n);
    Distribute(p, b, i);
    ScaleAtMost(p, b);
  }

  lemma ExcessDropAtMostDrop(prev: nat, n: nat, b: real, i: real)
    requires prev > 0 && n <= prev && i == n as real / prev as real && b <= 1.0
    ensures ExcessDrop(prev, b, i) <= prev - n
  {
    ShortfallAtMostDrop(prev as real, n as real, b, i);
    ExcessDropBounded(prev, b, i, prev as real * (b - i), prev - n);
  }

  lemma QuotientTimes(p: real, n: real)
    requires p > 0.0
    ensures p * (n / p) == n
  {
  }

  lemma Distribute(p: real, b: real, i: real)
    ensures p * (b - i) == p * b - p * i
  {
  }

  lemma ScaleAtMost(p: real, b: real)
    requires p >= 0.0 && b <= 1.0
    ensures p * b <= p
  {
  }

  /** No step of a period gains intents, as far as its rates are defined. */
  ghost predicate NeverGains(c: StageCounts) {
    forall k :: 0 < k < STAGES && StepRate(c, k).Some? ==> StepRate(c, k).value <= 1.0
  }

  lemma NestedNeverGains(c: StageCounts)
    requires Nested(c)
    ensures NeverGains(c)
  {
    forall k | 0 < k < STAGES && StepRate(c, k).Some? ensures StepRate(c, k).value <= 1.0 {
      RatioAtMostOne(Reached(c, k) as real, Reached(c, k - 1) as real);
    }
  }

  /** A transition is never charged more than the intents that dropped out at it. */
  lemma ChargedAtMostDrop(base: StageCounts, inc: StageCounts, k: nat)
    requires 0 < k < STAGES
    requires StepRate(base, k).Some? ==> StepRate(base, k).value <= 1.0
    requires Reached(inc, k) <= Reached(inc, k - 1)
    ensures Charged(base, inc, k) <= Reached(inc, k - 1) - Reached(inc, k)
  {
    if Charged(base, inc, k) > 0 {
      var b, i := StepRate(base, k).value, StepRate(inc, k).value;
      ExcessDropAtMostDrop(Reached(inc, k - 1), Reached(inc, k), b, i);
    }
  }

  /** Over any stretch of the funnel that loses intents only, the charges are covered by what it lost. */
  lemma {:induction false} ChargesTelescope(base: StageCounts, inc: StageCounts, lo: nat, hi: nat)
    requires lo < hi <= STAGES && NeverGains(base)
    requires forall k :: lo < k < hi ==> Reached(inc, k) <= Reached(inc, k - 1)
    ensures ChargedBetween(base, inc, lo + 1, hi) <= Reached(inc, lo) - Reached(inc, hi - 1)
    decreases hi
  {
    if lo + 1 < hi {
      ChargesTelescope(base, inc, lo, hi - 1);
      ChargedAtMostDrop(base, inc, hi - 1);
    }
  }

  lemma {:induction false} ChargedBetweenSplits(base: StageCounts, inc: StageCounts, lo: nat, mid: nat, hi: nat)
    requires lo <= mid <= hi <= STAGES
    ensures ChargedBetween(base, inc, lo, hi)
         == ChargedBetween(base, inc, lo, mid) + ChargedBetween(base, inc, mid, hi)
    decreases hi
  {
    if mid < hi {
      ChargedBetweenSplits(base, inc, lo, mid, hi - 1);
    }
  }

  /** The intents of a period that were confirmed and did not complete. */
  function Unfinished(c: StageCounts): int {
    Reached(c, 0) - Reached(c, STAGES - 1)
  }

  /** No intent is charged twice: all transitions together are charged at most the intents that were
      confirmed and did not complete. */
  lemma NoIntentChargedTwice(base: StageCounts, inc: StageCounts)
    requires NeverGains(base) && Nested(inc)
    ensures TotalCharged(base, inc) <= Unfinished(inc)
  {
    ChargedBetweenSplits(base, inc, 0, 1, STAGES);
    ChargesTelescope(base, inc, 0, STAGES);
  }

  // ----- Exactly when the bound holds ------------------------------------------------------------

  /** `n` intents at each stage before `k`, none from it on. */
  function StoppedAt(k: nat, n: nat): StageCounts {
    map s | s in FUNNEL_STAGE_ORDER :: if Index(s) < k then n else 0
  }

  lemma ReachedWhenStopped(k: nat, n: nat, i: nat)
    requires i < STAGES
    ensures Reached(StoppedAt(k, n), i) == if i < k then n else 0
  {
    StageAtHasIndex(i);
  }

  lemma StoppedIsNested(k: nat, n: nat)
    requires 0 < k < STAGES
    ensures Nested(StoppedAt(k, n)) && Unfinished(StoppedAt(k, n)) == n
  {
    forall i | 0 <= i < STAGES ensures Reached(StoppedAt(k, n), i) == if i < k then n else 0 {
      ReachedWhenStopped(k, n, i);
    }
  }

  lemma StoppedRate(k: nat, n: nat)
    requires 0 < k < STAGES && n > 0
    ensures StepRate(StoppedAt(k, n), k) == Some(0.0) && Reached(StoppedAt(k, n), k - 1) == n
  {
    ReachedWhenStopped(k, n, k);
    ReachedWhenStopped(k, n, k - 1);
    NothingPassed(n);
  }

  lemma StoppedCharge(base: StageCounts, k: nat)
    requires 0 < k < STAGES && StepRate(base, k).Some? && StepRate(base, k).value > 1.0
    ensures Charged(base, StoppedAt(k, Reached(base, k - 1)), k) == Reached(base, k) > Reached(base, k - 1)
  {
    var entered, n, b := Reached(base, k - 1), Reached(base, k), StepRate(base, k).value;
    StoppedRate(k, entered);
    QuotientTimes(entered as real, n as real);
    AllCharged(entered, n, b);
    RateAboveOne(entered as real, n as real, b);
  }

  lemma RateAboveOne(p: real, n: real, b: real)
    requires p > 0.0 && b == n / p && b > 1.0
    ensures n > p
  {
    QuotientTimes(p, n);
    PositiveProduct(p, b - 1.0);
    Distribute(p, b, 1.0);
  }

  /** A step that gained intents in the baseline is charged more than all of them when every one of them
      stops there. */
  lemma GainOvercharges(base: StageCounts, k: nat)
    requires 0 < k < STAGES && StepRate(base, k).Some? && StepRate(base, k).value > 1.0
    ensures var inc := StoppedAt(k, Reached(base, k - 1));
            Nested(inc) && TotalCharged(base, inc) > Unfinished(inc)
  {
    StoppedIsNested(k, Reached(base, k - 1));
    StoppedCharge(base, k);
    TotalCoversEach(base, StoppedAt(k, Reached(base, k - 1)), k);
  }

  lemma NothingPassed(entered: nat)
    requires entered > 0
    ensures 0 as real / entered as real == 0.0
  {
  }

  lemma AllCharged(entered: nat, n: nat, b: real)
    requires entered as real * b == n as real
    ensures ExcessDrop(entered, b, 0.0) == n
  {
    assert b - 0.0 == b;
    RoundOfWhole(n);
  }

  lemma RoundOfWhole(n: nat)
    ensures Round(n as real) == n
  {
  }

  /** For a given baseline the bound holds whatever the (nested) incident exactly when no step of the
      baseline gained intents. */
  lemma BoundForAllIncidentsIff(base: StageCounts)
    ensures (forall inc :: Nested(inc) ==> TotalCharged(base, inc) <= Unfinished(inc)) <==> NeverGains(base)
  {
    if NeverGains(base) {
      forall inc | Nested(inc) ensures TotalCharged(base, inc) <= Unfinished(inc) {
        NoIntentChargedTwice(base, inc);
      }
    } else {
      var k :| 0 < k < STAGES && StepRate(base, k).Some? && StepRate(base, k).value > 1.0;
      GainOvercharges(base, k);
    }
  }

  /** A step that everyone passed in the baseline and nobody in the incident is charged everyone. */
  lemma AllLostAtOneStep(base: StageCounts, inc: StageCounts, n: nat, k: nat)
    requires 0 < k < STAGES && n > 0
    requires Reached(base, k - 1) == n && Reached(base, k) == n
    requires Reached(inc, k - 1) == n && Reached(inc, k) == 0
    ensures Charged(base, inc, k) == n
  {
    NothingPassed(n);
    QuotientTimes(n as real, n as real);
    AllPassed(n);
    AllCharged(n, n, 1.0);
  }

  lemma AllPassed(n: nat)
    requires n > 0
    ensures n as real / n as real == 1.0
  {
  }

  /** A baseline in which every intent passes every step. */
  const LOSSLESS: StageCounts := StoppedAt(STAGES, 1)

  lemma LosslessRates(k: nat)
    requires 0 < k < STAGES
    ensures StepRate(LOSSLESS, k) == Some(1.0)
  {
    ReachedWhenStopped(STAGES, 1, k);
    ReachedWhenStopped(STAGES, 1, k - 1);
  }

  lemma ShortfallGrows(p: real, b: real, i: real, low: real, high: real)
    requires p >= 0.0 && b <= 1.0 && low == p * (b - i) && high == p * (1.0 - i)
    ensures low <= high
  {
    Distribute(p, b, i);
    Distribute(p, 1.0, i);
    ScaleAtMost(p, b);
  }

  lemma ExcessDropGrows(entered: nat, b: real, i: real, low: real, high: real)
    requires low == entered as real * (b - i) && high == entered as real * (1.0 - i) && low <= high
    ensures ExcessDrop(entered, b, i) <= ExcessDrop(entered, 1.0, i)
  {
    RoundGrows(low, high);
  }

  lemma RoundGrows(x: real, y: real)
    requires x <= y
    ensures Round(x) <= Round(y)
  {
  }

  /** No baseline that gains nothing charges a transition more than the lossless one. */
  lemma LosslessChargesMost(base: StageCounts, inc: StageCounts, k: nat)
    requires k < STAGES && NeverGains(base)
    ensures Charged(base, inc, k) <= Charged(LOSSLESS, inc, k)
  {
    if Charged(base, inc, k) > 0 {
      var entered, b, i := Reached(inc, k - 1), StepRate(base, k).value, StepRate(inc, k).value;
      LosslessRates(k);
      var low, high := entered as real * (b - i), entered as real * (1.0 - i);
      ShortfallGrows(entered as real, b, i, low, high);
      ExcessDropGrows(entered, b, i, low, high);
      assert Charged(LOSSLESS, inc, k) == ExcessDrop(entered, 1.0, i);
    }
  }

  lemma {:induction false} LosslessChargesMostUpTo(base: StageCounts, inc: StageCounts, n: nat)
    requires n <= STAGES && NeverGains(base)
    ensures ChargedBetween(base, inc, 0, n) <= ChargedBetween(LOSSLESS, inc, 0, n)
  {
    if n > 0 {
      LosslessChargesMostUpTo(base, inc, n - 1);
      LosslessChargesMost(base, inc, n - 1);
    }
  }

  lemma LosslessNeverGains()
    ensures NeverGains(LOSSLESS)
  {
    forall k | 0 < k < STAGES ensures StepRate(LOSSLESS, k) == Some(1.0) {
      LosslessRates(k);
    }
  }

  /** Whatever the baseline, as long as it never gains, the large drops bound what is charged. */
  lemma ChargedAtMostLargeDrops(base: StageCounts, inc: StageCounts)
    requires NeverGains(base)
    ensures TotalCharged(base, inc) <= LargeDrops(inc, STAGES)
  {
    LosslessChargesMostUpTo(base, inc, STAGES);
    LosslessChargesLargeDrops(inc, STAGES);
  }

  /** For a given incident the bound holds whatever the (never gaining) baseline exactly when the drops of
      more than a twentieth, added up over its steps, do not exceed its unfinished intents. */
  lemma BoundForAllBaselinesIff(inc: StageCounts)
    ensures (forall base :: NeverGains(base) ==> TotalCharged(base, inc) <= Unfinished(inc)) <==>
            LargeDrops(inc, STAGES) <= Unfinished(inc)
  {
    LosslessNeverGains();
    LosslessChargesLargeDrops(inc, STAGES);
    if LargeDrops(inc, STAGES) <= Unfinished(inc) {
      forall base | NeverGains(base) ensures TotalCharged(base, inc) <= Unfinished(inc) {
        ChargedAtMostLargeDrops(base, inc);
      }
    }
  }

  /** The intents that dropped out at a step which lost more than a twentieth of them. */
  function LargeDrop(inc: StageCounts, k: nat): nat
    requires k < STAGES
  {
    if k > 0 && 20 * Reached(inc, k) < 19 * Reached(inc, k - 1) then Reached(inc, k - 1) - Reached(inc, k) else 0
  }

  function LargeDrops(inc: StageCounts, n: nat): nat
    requires n <= STAGES
  {
    if n == 0 then 0 else LargeDrops(inc, n - 1) + LargeDrop(inc, n - 1)
  }

  lemma LosslessChargesLargeDrop(inc: StageCounts, k: nat)
    requires k < STAGES
    ensures Charged(LOSSLESS, inc, k) == LargeDrop(inc, k)
  {
    if k > 0 && Reached(inc, k - 1) > 0 {
      var entered, n := Reached(inc, k - 1), Reached(inc, k);
      var i := n as real / entered as real;
      LosslessRates(k);
      LargeIff(entered as real, n as real, i);
      if LargeDrop(inc, k) > 0 {
        WholeDropCharged(entered, n, i);
      }
    }
  }

  lemma LargeIff(p: real, n: real, i: real)
    requires p > 0.0 && i == n / p
    ensures 1.0 - i > 0.05 <==> 20.0 * n < 19.0 * p
  {
    QuotientTimes(p, n);
    if 1.0 - i > 0.05 {
      PositiveProduct(p, 0.95 - i);
      Distribute(p, 0.95, i);
    } else {
      NonNegativeProduct(p, i - 0.95);
      Distribute(p, i, 0.95);
    }
  }

  lemma NonNegativeProduct(x: real, y: real)
    requires x > 0.0 && y >= 0.0
    ensures x * y >= 0.0
  {
  }

  lemma WholeDropCharged(entered: nat, n: nat, i: real)
    requires entered > 0 && n <= entered && i == n as real / entered as real
    ensures ExcessDrop(entered, 1.0, i) == entered - n
  {
    QuotientTimes(entered as real, n as real);
    Distribute(entered as real, 1.0, i);
    ExcessDropOf(entered, 1.0, i, entered - n);
  }

  lemma ExcessDropOf(entered: nat, b: real, i: real, n: nat)
    requires entered as real * (b - i) == n as real
    ensures ExcessDrop(entered, b, i) == n
  {
    RoundOfWhole(n);
  }

  lemma {:induction false} LosslessChargesLargeDrops(inc: StageCounts, n: nat)
    requires n <= STAGES
    ensures ChargedBetween(LOSSLESS, inc, 0, n) == LargeDrops(inc, n)
  {
    if n > 0 {
      LosslessChargesLargeDrops(inc, n - 1);
      LosslessChargesLargeDrop(inc, n - 1);
    }
  }

  lemma TotalCoversEach(base: StageCounts, inc: StageCounts, k: nat)
    requires k < STAGES
    ensures TotalCharged(base, inc) >= Charged(base, inc, k)
  {
    ChargedBetweenSplits(base, inc, 0, k, STAGES);
    ChargedBetweenSplits(base, inc, k, k + 1, STAGES);
    ChargedBetweenNonNegative(base, inc, k + 1, STAGES);
    ChargedBetweenNonNegative(base, inc, 0, k);
    assert ChargedBetween(base, inc, k, k + 1) == Charged(base, inc, k);
  }

  lemma {:induction false} ChargedBetweenNonNegative(base: StageCounts, inc: StageCounts, lo: nat, hi: nat)
    requires lo <= hi <= STAGES
    ensures ChargedBetween(base, inc, lo, hi) >= 0
    decreases hi
  {
    if lo < hi {
      ChargedBetweenNonNegative(base, inc, lo, hi - 1);
    }
  }

  // ----- Breakdown rows ------------------------------------------------------------------------

  /** The loss of one dimension value, from its confirmed and completed counts in both periods. */
  function RowLoss(bFirst: nat, iFirst: nat, bLast: nat, iLast: nat): (lost: nat) {
    var bRate := if bFirst != 0 then bLast as real / bFirst as real else 0.0;
    var iRate := if iFirst != 0 then iLast as real / iFirst as real else 0.0;
    if bRate > iRate then ExcessDrop(iFirst, bRate, iRate) else 0
  }

  /** A dimension value is never charged more than its own unfinished intents. */
  lemma RowLossAtMostUnfinished(bFirst: nat, iFirst: nat, bLast: nat, iLast: nat)
    requires bLast <= bFirst && iLast <= iFirst
    ensures RowLoss(bFirst, iFirst, bLast, iLast) <= iFirst - iLast
  {
    if bFirst != 0 {
      RatioAtMostOne(bLast as real, bFirst as real);
    }
    if iFirst != 0 {
      var bRate := if bFirst != 0 then bLast as real / bFirst as real else 0.0;
      var iRate := iLast as real / iFirst as real;
      ExcessDropAtMostDrop(iFirst, iLast, bRate, iRate);
    } else {
      assert RowLoss(bFirst, 0, bLast, 0) == 0 by {
        ZeroTimes(if bFirst != 0 then bLast as real / bFirst as real else 0.0);
      }
    }
  }

  /** A dimension value whose completed share fell loses what the baseline share of its confirmed intents is more
      than completed, rounded; any other loses nothing. */
  lemma RowLossByCounts(bFirst: nat, iFirst: nat, bLast: nat, iLast: nat)
    ensures if bFirst > 0 && iFirst > 0 && iLast * bFirst < bLast * iFirst
            then IsQuotient(RowLoss(bFirst, iFirst, bLast, iLast), bLast * iFirst - iLast * bFirst, bFirst)
            else RowLoss(bFirst, iFirst, bLast, iLast) == 0
  {
    if bFirst > 0 && iFirst > 0 {
      var br, ir := bLast as real / bFirst as real, iLast as real / iFirst as real;
      RatesMoved(bFirst, iFirst, bLast, iLast, br, ir);
      if br > ir {
        ExcessByCounts(bFirst, iFirst, bLast, iLast, br, ir, iFirst as real * (br - ir));
      }
    } else if bFirst == 0 {
      NonNegativeRate(iFirst, iLast);
    } else {
      ZeroTimes(bLast as real / bFirst as real);
      assert RowLoss(bFirst, 0, bLast, iLast) == 0;
    }
  }

  lemma NonNegativeRate(first: nat, last: nat)
    ensures (if first != 0 then last as real / first as real else 0.0) >= 0.0
  {
    if first != 0 && last as real / first as real < 0.0 {
      QuotientTimes(first as real, last as real);
      PositiveProduct(first as real, -(last as real / first as real));
    }
  }

  lemma ZeroTimes(x: real)
    ensures 0.0 * x == 0.0
  {
  }

  lemma RatioAtMostOne(n: real, d: real)
    requires 0.0 <= n <= d && d > 0.0
    ensures 0.0 <= n / d <= 1.0
  {
  }
}
