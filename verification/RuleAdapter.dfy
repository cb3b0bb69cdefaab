/** The rule-based adapter: a report from evidence alone, which the evidence contract then has nothing to
    change about. */
module RuleAdapter {
  import opened Domain
  import opened EvidenceContract
  import opened Publication

  // ----- Codes and losses ----------------------------------------------------------------------------

  function CodesWhere(items: seq<Evidence>, p: Evidence -> bool): (codes: seq<string>)
    ensures forall c :: c in codes <==> exists e :: e in items && p(e) && e.code == c
  {
    if items == [] then []
    else (if p(items[0]) then [items[0].code] else []) + CodesWhere(items[1..], p)
  }

  function OfType(t: EvidenceType): Evidence -> bool {
    (e: Evidence) => e.evidenceType == t
  }

  function DegradedAt(stages: seq<FunnelStage>): Evidence -> bool {
    (e: Evidence) => e.evidenceType == FUNNEL_STAGE_DEGRADATION && e.stage.Some? && e.stage.value.Stage?
        && e.stage.value.stage in stages
  }

  const CHANNEL_FAULT_STAGES: seq<FunnelStage> := [CHANNEL_SUCCEEDED]
  const FRICTION_STAGES: seq<FunnelStage> := [PAYMENT_OPTIONS_SHOWN, PAYMENT_METHOD_SELECTED, PAYMENT_INITIATED]

  function FirstLossAt(items: seq<Evidence>, stage: FunnelStage): Option<int> {
    if items == [] then None
    else if items[0].evidenceType == FUNNEL_STAGE_DEGRADATION && items[0].stage == Some(Stage(stage)) then
      Some(items[0].Loss())
    else FirstLossAt(items[1..], stage)
  }

  /** The loss localised at the first degraded stage of a family, 0 if none is. */
  function LostAtStages(items: seq<Evidence>, stages: seq<FunnelStage>): int {
    if stages == [] then 0
    else
      match FirstLossAt(items, stages[0])
      case Some(lost) => lost
      case None => LostAtStages(items, stages[1..])
  }

  function EstimatedLoss(items: seq<Evidence>, a: EvidenceType, b: EvidenceType): int {
    if items == [] then 0
    else (if items[0].evidenceType == a || items[0].evidenceType == b then items[0].Loss() else 0)
         + EstimatedLoss(items[1..], a, b)
  }

  function Or(x: int, y: int): int { if x != 0 then x else y }

  function TimeoutLost(items: seq<Evidence>): int {
    Or(LostAtStages(items, CHANNEL_FAULT_STAGES), EstimatedLoss(items, CHANNEL_TIMEOUT_SEEN, DIMENSION_CONTRIBUTION))
  }

  function BenefitLost(items: seq<Evidence>): int {
    Or(LostAtStages(items, FRICTION_STAGES), EstimatedLoss(items, BENEFIT_GAP_FRICTION, CANCEL_REORDER_FLOW))
  }

  function CapLoss(lost: int, total: int): int {
    if total > 0 then Min(lost, total) else lost
  }

  predicate Has(items: seq<Evidence>, t: EvidenceType) {
    exists e :: e in items && e.evidenceType == t
  }

  // ----- The claims ------------------------------------------------------------------------------------

  function Claim(items: seq<Evidence>, cause: Label, confidence: Confidence, lost: int, codes: seq<string>,
                 rank: int): RootCause {
    RootCause(cause, confidence, Some(lost), codes, rank, ResolveSupport(cause, codes, ByCode(items)))
  }

  function TimeoutCodes(items: seq<Evidence>): seq<string> {
    CodesWhere(items, OfType(CHANNEL_TIMEOUT_SEEN)) + CodesWhere(items, DegradedAt(CHANNEL_FAULT_STAGES))
    + CodesWhere(items, OfType(DIMENSION_CONTRIBUTION))
  }

  function BenefitCodes(items: seq<Evidence>): seq<string> {
    CodesWhere(items, OfType(BENEFIT_GAP_FRICTION)) + CodesWhere(items, DegradedAt(FRICTION_STAGES))
  }

  function UnmatchedCodes(items: seq<Evidence>): seq<string> {
    CodesWhere(items, OfType(FUNNEL_STAGE_DEGRADATION)) + CodesWhere(items, OfType(DIMENSION_CONTRIBUTION))
    + CodesWhere(items, OfType(ERROR_CODE_CONCENTRATION))
  }

  function TimeoutClaim(items: seq<Evidence>, total: int): RootCause {
    Claim(items, CHANNEL_TIMEOUT, HIGH, CapLoss(TimeoutLost(items), total), TimeoutCodes(items), 1)
  }

  function BenefitClaim(items: seq<Evidence>, total: int, rank: int): RootCause {
    Claim(items, BENEFIT_SELECTION_FRICTION, MEDIUM, CapLoss(BenefitLost(items), total), BenefitCodes(items), rank)
  }

  function UnmatchedClaim(items: seq<Evidence>, total: int): RootCause {
    Claim(items, UNKNOWN_CAUSE, LOW, total, UnmatchedCodes(items), 1)
  }

  function NormalClaim(items: seq<Evidence>): RootCause {
    Claim(items, NORMAL_PAYMENT_FAILURE, LOW, 0, CodesWhere(items, OfType(FUNNEL_BASELINE_STABLE)), 1)
  }

  /** Rules 2 to 6, first match wins. */
  function Claims(items: seq<Evidence>, total: int): (causes: seq<RootCause>)
    ensures causes != []
  {
    var timeout, benefit := Has(items, CHANNEL_TIMEOUT_SEEN), Has(items, BENEFIT_GAP_FRICTION);
    if timeout && benefit then [TimeoutClaim(items, total), BenefitClaim(items, total, 2)]
    else if timeout then [TimeoutClaim(items, total)]
    else if benefit then [BenefitClaim(items, total, 1)]
    else if Has(items, FUNNEL_STAGE_DEGRADATION) || Has(items, DIMENSION_CONTRIBUTION) then
      [UnmatchedClaim(items, total)]
    else [NormalClaim(items)]
  }

  function SumLoss(causes: seq<RootCause>, n: nat): int
    requires n <= |causes|
  {
    if n == 0 then 0 else SumLoss(causes, n - 1) + causes[n - 1].Loss()
  }

  function RuleReport(version: string, ctx: Context): Report {
    var total := LossOfType(ctx.evidence, FUNNEL_STAGE_DEGRADATION);
    if ctx.missingData != [] then
      Report(ctx.incidentId, ctx.runId, NeedsData, [], total, 0, total, ctx.missingData, version)
    else
      var causes := Claims(ctx.evidence, total);
      var explained := Min(SumLoss(causes, |causes|), total);
      Report(ctx.incidentId, ctx.runId, Succeeded, causes, total, explained, Max(0, total - explained), [], version)
  }

  method TotalLost(items: seq<Evidence>) returns (total: int)
    ensures total == LossOfType(items, FUNNEL_STAGE_DEGRADATION)
  {
    total := 0;
    for i := 0 to |items|
      invariant total == LossOfType(items[..i], FUNNEL_STAGE_DEGRADATION)
    {
      assert items[..i + 1] == items[..i] + [items[i]];
      LossOfTypeConcat(items[..i], [items[i]], FUNNEL_STAGE_DEGRADATION);
      if items[i].evidenceType == FUNNEL_STAGE_DEGRADATION {
        total := total + items[i].Loss();
      }
    }
    assert items[..|items|] == items;
  }

  /** The claims in the order of the rules, with what they explain before the cap. */
  method MakeClaims(items: seq<Evidence>, total: int) returns (causes: seq<RootCause>, explained: int)
    ensures causes == Claims(items, total) && explained == SumLoss(causes, |causes|)
  {
    causes, explained := [], 0;
    var rank := 1;
    if Has(items, CHANNEL_TIMEOUT_SEEN) {
      var claim := TimeoutClaim(items, total);
      causes := causes + [claim];
      explained := explained + claim.Loss();
      rank := rank + 1;
    }
    if Has(items, BENEFIT_GAP_FRICTION) {
      var claim := BenefitClaim(items, total, rank);
      causes := causes + [claim];
      explained := explained + claim.Loss();
      rank := rank + 1;
    }
    if causes == [] && (Has(items, FUNNEL_STAGE_DEGRADATION) || Has(items, DIMENSION_CONTRIBUTION)) {
      causes := [UnmatchedClaim(items, total)];
      explained := total;
    }
    if causes == [] {
      causes := [NormalClaim(items)];
    }
    SumOfUpToTwo(causes);
  }

  method Generate(version: string, ctx: Context) returns (report: Report)
    ensures report == RuleReport(version, ctx)
  {
    var total := TotalLost(ctx.evidence);
    if ctx.missingData != [] {
      return Report(ctx.incidentId, ctx.runId, NeedsData, [], total, 0, total, ctx.missingData, version);
    }
    var causes, explained := MakeClaims(ctx.evidence, total);
    explained := Min(explained, total);
    report := Report(ctx.incidentId, ctx.runId, Succeeded, causes, total, explained, Max(0, total - explained), [],
                     version);
  }

  lemma SumOfUpToTwo(causes: seq<RootCause>)
    requires 1 <= |causes| <= 2
    ensures SumLoss(causes, |causes|) == causes[0].Loss() + (if |causes| == 2 then causes[1].Loss() else 0)
  {
    assert SumLoss(causes, 1) == causes[0].Loss();
  }

  // ----- What the claims cite ------------------------------------------------------------------------------

  /** A cited code of a filter resolves to a record the filter selected. */
  lemma CitedRecord(items: seq<Evidence>, p: Evidence -> bool, c: string)
    requires DistinctCodes(items) && c in CodesWhere(items, p)
    ensures c in ByCode(items) && p(ByCode(items)[c])
  {
    var e :| e in items && p(e) && e.code == c;
    ByCodeOfDistinct(items, e);
  }

  lemma CitesType(items: seq<Evidence>, t: EvidenceType, codes: seq<string>)
    requires DistinctCodes(items) && Has(items, t)
    requires forall c :: c in CodesWhere(items, OfType(t)) ==> c in codes
    ensures t in TypesOf(codes, ByCode(items))
    ensures exists c :: c in codes && c in ByCode(items)
  {
    var e :| e in items && e.evidenceType == t;
    assert OfType(t)(e);
    assert e.code in CodesWhere(items, OfType(t));
    CitedRecord(items, OfType(t), e.code);
  }

  lemma TimeoutTypes(items: seq<Evidence>)
    requires DistinctCodes(items) && Has(items, CHANNEL_TIMEOUT_SEEN)
    ensures ResolveSupport(CHANNEL_TIMEOUT, TimeoutCodes(items), ByCode(items)) == SUPPORTED
  {
    CitesType(items, CHANNEL_TIMEOUT_SEEN, TimeoutCodes(items));
    TimeoutEvidenceDecides(TypesOf(TimeoutCodes(items), ByCode(items)));
  }

  lemma BenefitTypes(items: seq<Evidence>)
    requires DistinctCodes(items) && Has(items, BENEFIT_GAP_FRICTION)
    ensures ResolveSupport(BENEFIT_SELECTION_FRICTION, BenefitCodes(items), ByCode(items)) == PARTIAL
  {
    CitesType(items, BENEFIT_GAP_FRICTION, BenefitCodes(items));
    BenefitCitesOnly(items);
    FrictionAloneIsPartial(TypesOf(BenefitCodes(items), ByCode(items)));
  }

  lemma BenefitCitesOnly(items: seq<Evidence>)
    requires DistinctCodes(items)
    ensures TypesOf(BenefitCodes(items), ByCode(items)) <= {BENEFIT_GAP_FRICTION, FUNNEL_STAGE_DEGRADATION}
  {
    var run := ByCode(items);
    forall c | c in BenefitCodes(items)
      ensures c in run && run[c].evidenceType in {BENEFIT_GAP_FRICTION, FUNNEL_STAGE_DEGRADATION}
    {
      if c in CodesWhere(items, OfType(BENEFIT_GAP_FRICTION)) {
        CitedRecord(items, OfType(BENEFIT_GAP_FRICTION), c);
      } else {
        CitedRecord(items, DegradedAt(FRICTION_STAGES), c);
      }
    }
  }

  lemma FrictionAloneIsPartial(types: set<EvidenceType>)
    requires BENEFIT_GAP_FRICTION in types && types <= {BENEFIT_GAP_FRICTION, FUNNEL_STAGE_DEGRADATION}
    ensures ClassifySupport(BENEFIT_SELECTION_FRICTION, types).0 == PARTIAL
  {
    assert types - NEGATIVE - GENERIC == {BENEFIT_GAP_FRICTION};
    FrictionEvidenceDecides(types);
  }

  lemma NormalTypes(items: seq<Evidence>)
    requires DistinctCodes(items)
    ensures TypesOf(NormalClaim(items).codes, ByCode(items)) <= {FUNNEL_BASELINE_STABLE}
    ensures ResolveSupport(NORMAL_PAYMENT_FAILURE, NormalClaim(items).codes, ByCode(items)) ==
              (if Has(items, FUNNEL_BASELINE_STABLE) then SUPPORTED else UNKNOWN)
  {
    var run, codes := ByCode(items), NormalClaim(items).codes;
    forall c | c in codes ensures c in run && run[c].evidenceType == FUNNEL_BASELINE_STABLE {
      CitedRecord(items, OfType(FUNNEL_BASELINE_STABLE), c);
    }
    if Has(items, FUNNEL_BASELINE_STABLE) {
      CitesType(items, FUNNEL_BASELINE_STABLE, codes);
    }
    NegativeEvidenceDecides(TypesOf(codes, run));
  }

  // ----- The report is a fixed point of the contract -----------------------------------------------------------

  /** A claim of the adapter that carries loss is supported. */
  lemma ClaimsWithLossAreSupported(items: seq<Evidence>, total: int, rc: RootCause)
    requires DistinctCodes(items) && rc in Claims(items, total)
    ensures Settled(rc, ByCode(items)) == rc
    ensures rc.status == UNKNOWN ==> rc.Loss() == 0
  {
    ClaimForms(items, total, rc);
    ClaimIsSettled(items, rc.cause, rc.confidence, rc.Loss(), rc.codes, rc.rank);
    if IsTimeoutClaim(items, total, rc) {
      TimeoutTypes(items);
    } else if IsBenefitClaim(items, total, rc) {
      BenefitTypes(items);
    }
  }

  lemma ClaimIsSettled(items: seq<Evidence>, cause: Label, confidence: Confidence, lost: int, codes: seq<string>,
                       rank: int)
    ensures Settled(Claim(items, cause, confidence, lost, codes, rank), ByCode(items)) ==
              Claim(items, cause, confidence, lost, codes, rank)
  {
  }

  lemma {:induction false} SupportedLossIsAllLoss(causes: seq<RootCause>, run: RunEvidence, n: nat)
    requires n <= |causes|
    requires forall rc :: rc in causes ==> Settled(rc, run) == rc && (rc.status == UNKNOWN ==> rc.Loss() == 0)
    ensures Explainable(causes, run, n) == SumLoss(causes, n)
  {
    if n > 0 {
      SupportedLossIsAllLoss(causes, run, n - 1);
      assert causes[n - 1] in causes;
      assert Settled(causes[n - 1], run) == causes[n - 1];
    }
  }

  /** For every context with distinct codes the adapter's report passes through the contract unchanged and
      without a note. */
  lemma RuleReportIsFixedPoint(version: string, ctx: Context)
    requires DistinctCodes(ctx.evidence)
    ensures Contracted(RuleReport(version, ctx), ctx) == RuleReport(version, ctx)
    ensures ContractNotes(RuleReport(version, ctx), ctx) == []
  {
    var r := RuleReport(version, ctx);
    if ctx.missingData == [] {
      var run := ByCode(ctx.evidence);
      forall rc | rc in r.causes ensures Settled(rc, run) == rc && (rc.status == UNKNOWN ==> rc.Loss() == 0) {
        ClaimsWithLossAreSupported(ctx.evidence, r.total, rc);
      }
      SupportedLossIsAllLoss(r.causes, run, |r.causes|);
      FixedPointIff(r, ctx);
    }
  }

  // ----- Retryable issues of the rule report --------------------------------------------------------------------

  ghost predicate NonNegativeLosses(items: seq<Evidence>) {
    forall e :: e in items ==> e.Loss() >= 0
  }

  /** The one case the adapter's report is sent back: nothing was lost at any stage, yet evidence of another
      type carries loss that a claim then reports. */
  predicate LossWithoutTotal(items: seq<Evidence>) {
    && LossOfType(items, FUNNEL_STAGE_DEGRADATION) == 0
    && ((Has(items, CHANNEL_TIMEOUT_SEEN) && EstimatedLoss(items, CHANNEL_TIMEOUT_SEEN, DIMENSION_CONTRIBUTION) > 0)
        || (Has(items, BENEFIT_GAP_FRICTION) && EstimatedLoss(items, BENEFIT_GAP_FRICTION, CANCEL_REORDER_FLOW) > 0))
  }

  lemma {:induction false} TypeLossBoundsEach(items: seq<Evidence>, t: EvidenceType)
    requires NonNegativeLosses(items)
    ensures LossOfType(items, t) >= 0
    ensures forall e :: e in items && e.evidenceType == t ==> e.Loss() <= LossOfType(items, t)
  {
    if items != [] {
      assert items[0] in items;
      assert forall e :: e in items[1..] ==> e in items;
      TypeLossBoundsEach(items[1..], t);
      assert forall e :: e in items ==> e == items[0] || e in items[1..];
    }
  }

  lemma {:induction false} EstimateIsNonNegative(items: seq<Evidence>, a: EvidenceType, b: EvidenceType)
    requires NonNegativeLosses(items)
    ensures EstimatedLoss(items, a, b) >= 0
  {
    if items != [] {
      assert items[0] in items;
      assert forall e :: e in items[1..] ==> e in items;
      EstimateIsNonNegative(items[1..], a, b);
    }
  }

  lemma {:induction false} FirstLossIsARecord(items: seq<Evidence>, stage: FunnelStage)
    ensures FirstLossAt(items, stage).Some? ==>
              exists e :: e in items && e.evidenceType == FUNNEL_STAGE_DEGRADATION
                  && e.Loss() == FirstLossAt(items, stage).value
  {
    if items != [] {
      FirstLossIsARecord(items[1..], stage);
      if FirstLossAt(items, stage).Some?
          && !(items[0].evidenceType == FUNNEL_STAGE_DEGRADATION && items[0].stage == Some(Stage(stage))) {
        var e :| e in items[1..] && e.evidenceType == FUNNEL_STAGE_DEGRADATION
            && e.Loss() == FirstLossAt(items, stage).value;
        assert e in items;
      }
    }
  }

  lemma {:induction false} StageLossWithinTotal(items: seq<Evidence>, stages: seq<FunnelStage>)
    requires NonNegativeLosses(items)
    ensures 0 <= LostAtStages(items, stages) <= LossOfType(items, FUNNEL_STAGE_DEGRADATION)
  {
    TypeLossBoundsEach(items, FUNNEL_STAGE_DEGRADATION);
    if stages != [] {
      FirstLossIsARecord(items, stages[0]);
      StageLossWithinTotal(items, stages[1..]);
    }
  }

  /** A claim's capped loss is non-negative, and exceeds the total exactly when the total is zero and the
      evidence's own estimate is not. */
  lemma ClaimLosses(items: seq<Evidence>)
    requires NonNegativeLosses(items)
    ensures var total := LossOfType(items, FUNNEL_STAGE_DEGRADATION);
            && total >= 0
            && CapLoss(TimeoutLost(items), total) >= 0 && CapLoss(BenefitLost(items), total) >= 0
            && (CapLoss(TimeoutLost(items), total) > total <==>
                  total == 0 && EstimatedLoss(items, CHANNEL_TIMEOUT_SEEN, DIMENSION_CONTRIBUTION) > 0)
            && (CapLoss(BenefitLost(items), total) > total <==>
                  total == 0 && EstimatedLoss(items, BENEFIT_GAP_FRICTION, CANCEL_REORDER_FLOW) > 0)
  {
    StageLossWithinTotal(items, CHANNEL_FAULT_STAGES);
    StageLossWithinTotal(items, FRICTION_STAGES);
    EstimateIsNonNegative(items, CHANNEL_TIMEOUT_SEEN, DIMENSION_CONTRIBUTION);
    EstimateIsNonNegative(items, BENEFIT_GAP_FRICTION, CANCEL_REORDER_FLOW);
  }

  // Codes cited by one claim do not repeat.

  lemma {:induction false} FilterHasNoRepeats(items: seq<Evidence>, p: Evidence -> bool)
    requires DistinctCodes(items)
    ensures !HasRepeats(CodesWhere(items, p))
  {
    if items != [] {
      assert DistinctCodes(items[1..]);
      FilterHasNoRepeats(items[1..], p);
      var rest := CodesWhere(items[1..], p);
      assert items[0].code !in rest;
      if p(items[0]) {
        assert CodesWhere(items, p) == [items[0].code] + rest;
        ConcatHasNoRepeats([items[0].code], rest);
      } else {
        assert CodesWhere(items, p) == rest;
      }
    }
  }

  lemma ConcatHasNoRepeats(a: seq<string>, b: seq<string>)
    requires !HasRepeats(a) && !HasRepeats(b) && forall c :: c in a ==> c !in b
    ensures !HasRepeats(a + b)
  {
    var s := a + b;
    forall i, j | 0 <= i < j < |s| ensures s[i] != s[j] {
      if i < |a| && j >= |a| {
        assert s[i] in a && s[j] in b;
      } else if i >= |a| {
        assert s[i] == b[i - |a|] && s[j] == b[j - |a|];
      }
    }
  }

  /** Filters that select different records cite different codes. */
  lemma DisjointFilters(items: seq<Evidence>, p: Evidence -> bool, q: Evidence -> bool)
    requires DistinctCodes(items) && forall e :: !(p(e) && q(e))
    ensures forall c :: c in CodesWhere(items, p) ==> c !in CodesWhere(items, q)
  {
    forall c | c in CodesWhere(items, p) && c in CodesWhere(items, q) ensures false {
      CitedRecord(items, p, c);
      CitedRecord(items, q, c);
    }
  }

  lemma TwoFiltersNoRepeats(items: seq<Evidence>, p: Evidence -> bool, q: Evidence -> bool)
    requires DistinctCodes(items) && forall e :: !(p(e) && q(e))
    ensures !HasRepeats(CodesWhere(items, p) + CodesWhere(items, q))
  {
    FilterHasNoRepeats(items, p);
    FilterHasNoRepeats(items, q);
    DisjointFilters(items, p, q);
    ConcatHasNoRepeats(CodesWhere(items, p), CodesWhere(items, q));
  }

  lemma ThreeFiltersNoRepeats(items: seq<Evidence>, p: Evidence -> bool, q: Evidence -> bool, r: Evidence -> bool)
    requires DistinctCodes(items) && forall e :: !(p(e) && q(e)) && !(p(e) && r(e)) && !(q(e) && r(e))
    ensures !HasRepeats(CodesWhere(items, p) + CodesWhere(items, q) + CodesWhere(items, r))
  {
    TwoFiltersNoRepeats(items, p, q);
    FilterHasNoRepeats(items, r);
    DisjointFilters(items, p, r);
    DisjointFilters(items, q, r);
    ConcatHasNoRepeats(CodesWhere(items, p) + CodesWhere(items, q), CodesWhere(items, r));
  }

  /** Every claim cites codes of the run only. */
  lemma ClaimCitesRun(items: seq<Evidence>, total: int, rc: RootCause)
    requires rc in Claims(items, total)
    ensures forall c :: c in rc.codes ==> c in ByCode(items)
  {
    assert forall c :: c in rc.codes ==> exists e :: e in items && e.code == c;
  }

  lemma NoCodesNoTypes(rc: RootCause, run: RunEvidence)
    requires NoValidCodesIn(rc, run)
    ensures TypesOf(rc.codes, run) == {}
  {
  }

  /** What keeps a claim clear of every retryable rule but the cap. */
  ghost predicate WellBacked(rc: RootCause, ctx: Context) {
    && SupportMatchesCodes(rc, ByCode(ctx.evidence))
    && !rc.cause.OtherLabel? && !HasRepeats(rc.codes)
    && rc.lost.Some? && rc.lost.value >= 0
    && (rc.confidence == HIGH ==> rc.cause != NORMAL_PAYMENT_FAILURE && !OnlyNegative(ctx.evidence))
  }

  /** A claim is UNKNOWN exactly when it cites nothing that counts. */
  predicate SupportMatchesCodes(rc: RootCause, run: RunEvidence) {
    && rc.status == ResolveSupport(rc.cause, rc.codes, run)
    && (rc.status == UNKNOWN <==> TypesOf(rc.codes, run) == {})
  }

  lemma TimeoutClaimIsBacked(ctx: Context, total: int)
    requires DistinctCodes(ctx.evidence) && Has(ctx.evidence, CHANNEL_TIMEOUT_SEEN)
    requires CapLoss(TimeoutLost(ctx.evidence), total) >= 0
    ensures WellBacked(TimeoutClaim(ctx.evidence, total), ctx)
  {
    var items := ctx.evidence;
    CitesType(items, CHANNEL_TIMEOUT_SEEN, TimeoutCodes(items));
    TimeoutTypes(items);
    ThreeFiltersNoRepeats(items, OfType(CHANNEL_TIMEOUT_SEEN), DegradedAt(CHANNEL_FAULT_STAGES),
                          OfType(DIMENSION_CONTRIBUTION));
  }

  lemma BenefitClaimIsBacked(ctx: Context, total: int, rank: int)
    requires DistinctCodes(ctx.evidence) && Has(ctx.evidence, BENEFIT_GAP_FRICTION)
    requires CapLoss(BenefitLost(ctx.evidence), total) >= 0
    ensures WellBacked(BenefitClaim(ctx.evidence, total, rank), ctx)
  {
    var items := ctx.evidence;
    CitesType(items, BENEFIT_GAP_FRICTION, BenefitCodes(items));
    BenefitTypes(items);
    TwoFiltersNoRepeats(items, OfType(BENEFIT_GAP_FRICTION), DegradedAt(FRICTION_STAGES));
  }

  lemma UnmatchedClaimIsBacked(ctx: Context, total: int)
    requires DistinctCodes(ctx.evidence) && total >= 0
    requires Has(ctx.evidence, FUNNEL_STAGE_DEGRADATION) || Has(ctx.evidence, DIMENSION_CONTRIBUTION)
    ensures WellBacked(UnmatchedClaim(ctx.evidence, total), ctx)
  {
    var items := ctx.evidence;
    CitesType(items, if Has(items, FUNNEL_STAGE_DEGRADATION) then FUNNEL_STAGE_DEGRADATION else DIMENSION_CONTRIBUTION,
              UnmatchedCodes(items));
    ThreeFiltersNoRepeats(items, OfType(FUNNEL_STAGE_DEGRADATION), OfType(DIMENSION_CONTRIBUTION),
                          OfType(ERROR_CODE_CONCENTRATION));
  }

  lemma NormalClaimIsBacked(ctx: Context)
    requires DistinctCodes(ctx.evidence)
    ensures WellBacked(NormalClaim(ctx.evidence), ctx)
  {
    var items := ctx.evidence;
    NormalTypes(items);
    FilterHasNoRepeats(items, OfType(FUNNEL_BASELINE_STABLE));
    NegativeEvidenceDecides(TypesOf(NormalClaim(items).codes, ByCode(items)));
  }

  lemma ClaimIsWellBacked(ctx: Context, total: int, rc: RootCause)
    requires DistinctCodes(ctx.evidence) && NonNegativeLosses(ctx.evidence)
    requires total == LossOfType(ctx.evidence, FUNNEL_STAGE_DEGRADATION) && rc in Claims(ctx.evidence, total)
    ensures WellBacked(rc, ctx)
  {
    ClaimForms(ctx.evidence, total, rc);
    if IsTimeoutClaim(ctx.evidence, total, rc) {
      NonNegativeCaps(ctx.evidence);
      TimeoutClaimIsBacked(ctx, total);
    } else if IsBenefitClaim(ctx.evidence, total, rc) {
      NonNegativeCaps(ctx.evidence);
      BenefitClaimIsBacked(ctx, total, rc.rank);
    } else if IsUnmatchedClaim(ctx.evidence, total, rc) {
      TypeLossBoundsEach(ctx.evidence, FUNNEL_STAGE_DEGRADATION);
      UnmatchedClaimIsBacked(ctx, total);
    } else {
      NormalClaimIsBacked(ctx);
    }
  }

  lemma NonNegativeCaps(items: seq<Evidence>)
    requires NonNegativeLosses(items)
    ensures CapLoss(TimeoutLost(items), LossOfType(items, FUNNEL_STAGE_DEGRADATION)) >= 0
    ensures CapLoss(BenefitLost(items), LossOfType(items, FUNNEL_STAGE_DEGRADATION)) >= 0
  {
    ClaimLosses(items);
  }

  predicate IsTimeoutClaim(items: seq<Evidence>, total: int, rc: RootCause) {
    Has(items, CHANNEL_TIMEOUT_SEEN) && rc == TimeoutClaim(items, total)
  }

  predicate IsBenefitClaim(items: seq<Evidence>, total: int, rc: RootCause) {
    Has(items, BENEFIT_GAP_FRICTION) && rc == BenefitClaim(items, total, rc.rank)
  }

  predicate IsUnmatchedClaim(items: seq<Evidence>, total: int, rc: RootCause) {
    && (Has(items, FUNNEL_STAGE_DEGRADATION) || Has(items, DIMENSION_CONTRIBUTION))
    && rc == UnmatchedClaim(items, total)
  }

  lemma ClaimForms(items: seq<Evidence>, total: int, rc: RootCause)
    requires rc in Claims(items, total)
    ensures IsTimeoutClaim(items, total, rc) || IsBenefitClaim(items, total, rc)
         || IsUnmatchedClaim(items, total, rc) || rc == NormalClaim(items)
  {
  }

  /** Only the loss cap can make a well-backed claim retryable. */
  lemma ViolationsOfWellBacked(report: Report, ctx: Context, rc: RootCause, code: IssueCode)
    requires WellBacked(rc, ctx) && Retryable(code, Succeeded)
    ensures ClaimViolates(code, report, ctx, rc) <==> code == R7_RC_EXCEEDS_TOTAL && rc.lost.value > report.total
  {
    if NoValidCodesIn(rc, ByCode(ctx.evidence)) {
      NoCodesNoTypes(rc, ByCode(ctx.evidence));
    }
  }

  /** The adapter's report raises a retryable issue exactly when loss was found without a total. */
  lemma RuleReportRetriedIff(version: string, ctx: Context)
    requires DistinctCodes(ctx.evidence) && NonNegativeLosses(ctx.evidence)
    ensures !Clean(version, RuleReport(version, ctx), ctx) <==>
              ctx.missingData == [] && LossWithoutTotal(ctx.evidence)
  {
    var r, items := RuleReport(version, ctx), ctx.evidence;
    ClaimLosses(items);
    if ctx.missingData == [] && LossWithoutTotal(items) {
      var i := if Has(items, CHANNEL_TIMEOUT_SEEN)
          && EstimatedLoss(items, CHANNEL_TIMEOUT_SEEN, DIMENSION_CONTRIBUTION) > 0
               then 0 else |r.causes| - 1;
      assert r.causes[i].lost.value > r.total;
      assert Raised(version, r, ctx, ValidationIssue(R7_RC_EXCEEDS_TOTAL, Some(i), true));
    } else {
      forall x | Raised(version, r, ctx, x) ensures !x.retryable {
        RetryableOnlyFromClaims(version, ctx, x);
      }
    }
  }

  lemma RetryableOnlyFromClaims(version: string, ctx: Context, x: ValidationIssue)
    requires DistinctCodes(ctx.evidence) && NonNegativeLosses(ctx.evidence)
    requires !(ctx.missingData == [] && LossWithoutTotal(ctx.evidence))
    requires Raised(version, RuleReport(version, ctx), ctx, x)
    ensures !x.retryable
  {
    if x.retryable {
      var r := RuleReport(version, ctx);
      if x.claim.Some? {
        var rc := r.causes[x.claim.value];
        ClaimIsWellBacked(ctx, r.total, rc);
        ViolationsOfWellBacked(r, ctx, rc, x.code);
        ClaimWithinTotal(ctx.evidence, r.total, rc);
      } else {
        ReportLevelRulesPass(version, ctx, x.code);
      }
    }
  }

  lemma ClaimWithinTotal(items: seq<Evidence>, total: int, rc: RootCause)
    requires NonNegativeLosses(items) && total == LossOfType(items, FUNNEL_STAGE_DEGRADATION)
               && rc in Claims(items, total)
    ensures rc.lost.Some?
    ensures !LossWithoutTotal(items) ==> rc.lost.value <= total
  {
    ClaimLosses(items);
  }

  lemma ReportLevelRulesPass(version: string, ctx: Context, code: IssueCode)
    requires DistinctCodes(ctx.evidence) && NonNegativeLosses(ctx.evidence)
    ensures !ReportViolates(code, version, RuleReport(version, ctx), ctx)
  {
    var r := RuleReport(version, ctx);
    TypeLossBoundsEach(ctx.evidence, FUNNEL_STAGE_DEGRADATION);
    if ctx.missingData == [] {
      RuleReportLedger(version, ctx);
      forall rc | rc in r.causes ensures forall c :: c in rc.codes ==> c in ByCode(ctx.evidence) {
        ClaimCitesRun(ctx.evidence, r.total, rc);
      }
    }
  }

  /** The ledger of the adapter's report: non-negative, balanced, and explained by supported claims. */
  lemma RuleReportLedger(version: string, ctx: Context)
    requires DistinctCodes(ctx.evidence) && NonNegativeLosses(ctx.evidence) && ctx.missingData == []
    ensures var r := RuleReport(version, ctx);
            && 0 <= r.explained <= r.total && 0 <= r.unexplained && r.explained + r.unexplained == r.total
            && r.explained <= ExplainableIn(r, ctx)
  {
    var r := RuleReport(version, ctx);
    TypeLossBoundsEach(ctx.evidence, FUNNEL_STAGE_DEGRADATION);
    forall rc | rc in r.causes ensures rc.Loss() >= 0 {
      ClaimIsWellBacked(ctx, r.total, rc);
    }
    SumLossNonNegative(r.causes, |r.causes|);
    RuleReportIsFixedPoint(version, ctx);
    PublishedReportBalances(r, ctx);
  }

  lemma {:induction false} SumLossNonNegative(causes: seq<RootCause>, n: nat)
    requires n <= |causes| && forall rc :: rc in causes ==> rc.Loss() >= 0
    ensures SumLoss(causes, n) >= 0
  {
    if n > 0 {
      assert causes[n - 1] in causes;
      SumLossNonNegative(causes, n - 1);
    }
  }

  /** In particular one generation is enough whenever the funnel localised any loss. */
  lemma OneGenerationWhenLossLocalised(version: string, ctx: Context)
    requires DistinctCodes(ctx.evidence) && NonNegativeLosses(ctx.evidence)
    requires LossOfType(ctx.evidence, FUNNEL_STAGE_DEGRADATION) > 0 || forall e :: e in ctx.evidence ==> e.Loss() == 0
    ensures Clean(version, RuleReport(version, ctx), ctx)
  {
    RuleReportRetriedIff(version, ctx);
    if forall e :: e in ctx.evidence ==> e.Loss() == 0 {
      NoLossNoEstimate(ctx.evidence, CHANNEL_TIMEOUT_SEEN, DIMENSION_CONTRIBUTION);
      NoLossNoEstimate(ctx.evidence, BENEFIT_GAP_FRICTION, CANCEL_REORDER_FLOW);
    }
  }

  lemma {:induction false} NoLossNoEstimate(items: seq<Evidence>, a: EvidenceType, b: EvidenceType)
    requires forall e :: e in items ==> e.Loss() == 0
    ensures EstimatedLoss(items, a, b) == 0
  {
    if items != [] {
      assert items[0] in items;
      assert forall e :: e in items[1..] ==> e in items;
      NoLossNoEstimate(items[1..], a, b);
    }
  }

  /** And the published report is never refused for the adapter's own version. */
  lemma RuleReportNeverRefused(version: string, ctx: Context)
    ensures !Refused(version, RuleReport(version, ctx), ctx)
  {
    RefusedIff(version, RuleReport(version, ctx), ctx);
  }

  // ----- The report, read off the evidence ---------------------------------------------------------------------

  predicate DegradedHere(e: Evidence, stage: FunnelStage) {
    e.evidenceType == FUNNEL_STAGE_DEGRADATION && e.stage == Some(Stage(stage))
  }

  /** The first degradation record at a stage. */
  predicate FirstAt(items: seq<Evidence>, stage: FunnelStage, k: nat) {
    k < |items| && DegradedHere(items[k], stage) && forall j :: 0 <= j < k ==> !DegradedHere(items[j], stage)
  }

  predicate NoneAt(items: seq<Evidence>, stage: FunnelStage) {
    forall e :: e in items ==> !DegradedHere(e, stage)
  }

  /** The record friction loss is read from: the first one at the earliest of its three stages that has any. */
  predicate FrictionRecord(items: seq<Evidence>, k: nat) {
    || FirstAt(items, PAYMENT_OPTIONS_SHOWN, k)
    || (NoneAt(items, PAYMENT_OPTIONS_SHOWN)
        && (|| FirstAt(items, PAYMENT_METHOD_SELECTED, k)
            || (NoneAt(items, PAYMENT_METHOD_SELECTED) && FirstAt(items, PAYMENT_INITIATED, k))))
  }

  function WithinTotal(lost: int, total: int): int {
    if 0 < total < lost then total else lost
  }

  lemma {:induction false} FirstLossIsFirst(items: seq<Evidence>, stage: FunnelStage, k: nat)
    requires FirstAt(items, stage, k)
    ensures FirstLossAt(items, stage) == Some(items[k].Loss())
  {
    if k > 0 {
      assert !DegradedHere(items[0], stage);
      FirstLossIsFirst(items[1..], stage, k - 1);
    }
  }

  lemma {:induction false} NoLossWithoutRecord(items: seq<Evidence>, stage: FunnelStage)
    requires NoneAt(items, stage)
    ensures FirstLossAt(items, stage) == None
  {
    if items != [] {
      assert !DegradedHere(items[0], stage);
      NoLossWithoutRecord(items[1..], stage);
    }
  }

  lemma {:induction false} FindFirst(items: seq<Evidence>, stage: FunnelStage) returns (k: nat)
    requires !NoneAt(items, stage)
    ensures FirstAt(items, stage, k)
  {
    k := 0;
    if !DegradedHere(items[0], stage) {
      var e :| e in items && DegradedHere(e, stage);
      assert e in items[1..];
      var rest := FindFirst(items[1..], stage);
      k := rest + 1;
    }
  }

  lemma {:induction false} EstimateIsTwoSums(items: seq<Evidence>, a: EvidenceType, b: EvidenceType)
    requires a != b
    ensures EstimatedLoss(items, a, b) == LossOfType(items, a) + LossOfType(items, b)
  {
    if items != [] {
      EstimateIsTwoSums(items[1..], a, b);
    }
  }

  /** The loss a claim reports where its record `k` says something, and where none does. */
  predicate ReadsLoss(items: seq<Evidence>, total: int, loss: int, k: nat, fallback: int)
    requires k < |items|
  {
    loss == WithinTotal(if items[k].Loss() != 0 then items[k].Loss() else fallback, total)
  }

  /** Timeout loss: the first degradation at CHANNEL_SUCCEEDED, else what the timeout and dimension records
      estimate. */
  predicate TimeoutLossRead(items: seq<Evidence>, total: int, loss: int) {
    var fallback := LossOfType(items, CHANNEL_TIMEOUT_SEEN) + LossOfType(items, DIMENSION_CONTRIBUTION);
    && (forall k :: 0 <= k < |items| && FirstAt(items, CHANNEL_SUCCEEDED, k) ==>
          ReadsLoss(items, total, loss, k, fallback))
    && (NoneAt(items, CHANNEL_SUCCEEDED) ==> loss == WithinTotal(fallback, total))
  }

  /** Friction loss: the first degradation at the earliest of three stages, else what the benefit and
      cancellation records estimate. */
  predicate FrictionLossRead(items: seq<Evidence>, total: int, loss: int) {
    var fallback := LossOfType(items, BENEFIT_GAP_FRICTION) + LossOfType(items, CANCEL_REORDER_FLOW);
    && (forall k :: 0 <= k < |items| && FrictionRecord(items, k) ==> ReadsLoss(items, total, loss, k, fallback))
    && ((forall k :: 0 <= k < |items| ==> !FrictionRecord(items, k)) ==> loss == WithinTotal(fallback, total))
  }

  predicate RestsOnTimeout(e: Evidence) {
    || e.evidenceType == CHANNEL_TIMEOUT_SEEN || e.evidenceType == DIMENSION_CONTRIBUTION
    || DegradedHere(e, CHANNEL_SUCCEEDED)
  }

  predicate RestsOnFriction(e: Evidence) {
    || e.evidenceType == BENEFIT_GAP_FRICTION || DegradedHere(e, PAYMENT_OPTIONS_SHOWN)
    || DegradedHere(e, PAYMENT_METHOD_SELECTED) || DegradedHere(e, PAYMENT_INITIATED)
  }

  lemma TimeoutLoss(items: seq<Evidence>, total: int)
    ensures TimeoutLossRead(items, total, CapLoss(TimeoutLost(items), total))
  {
    EstimateIsTwoSums(items, CHANNEL_TIMEOUT_SEEN, DIMENSION_CONTRIBUTION);
    assert CHANNEL_FAULT_STAGES[1..] == [];
    assert LostAtStages(items, CHANNEL_FAULT_STAGES[1..]) == 0;
    forall k | 0 <= k < |items| && FirstAt(items, CHANNEL_SUCCEEDED, k)
      ensures FirstLossAt(items, CHANNEL_SUCCEEDED) == Some(items[k].Loss())
    {
      FirstLossIsFirst(items, CHANNEL_SUCCEEDED, k);
    }
    if NoneAt(items, CHANNEL_SUCCEEDED) {
      NoLossWithoutRecord(items, CHANNEL_SUCCEEDED);
    }
  }

  lemma FrictionStagesInOrder(items: seq<Evidence>)
    ensures LostAtStages(items, FRICTION_STAGES) ==
              if FirstLossAt(items, PAYMENT_OPTIONS_SHOWN).Some? then FirstLossAt(items, PAYMENT_OPTIONS_SHOWN).value
              else if FirstLossAt(items, PAYMENT_METHOD_SELECTED).Some? then
                FirstLossAt(items, PAYMENT_METHOD_SELECTED).value
              else if FirstLossAt(items, PAYMENT_INITIATED).Some? then FirstLossAt(items, PAYMENT_INITIATED).value
              else 0
  {
    var later := FRICTION_STAGES[1..];
    assert later[0] == PAYMENT_METHOD_SELECTED && later[1..][0] == PAYMENT_INITIATED && later[1..][1..] == [];
    assert LostAtStages(items, later[1..][1..]) == 0;
    assert LostAtStages(items, later) ==
           if FirstLossAt(items, PAYMENT_METHOD_SELECTED).Some? then FirstLossAt(items, PAYMENT_METHOD_SELECTED).value
           else LostAtStages(items, later[1..]);
  }

  lemma FrictionLoss(items: seq<Evidence>, total: int)
    ensures FrictionLossRead(items, total, CapLoss(BenefitLost(items), total))
  {
    EstimateIsTwoSums(items, BENEFIT_GAP_FRICTION, CANCEL_REORDER_FLOW);
    forall k | 0 <= k < |items| && FrictionRecord(items, k)
      ensures LostAtStages(items, FRICTION_STAGES) == items[k].Loss()
    {
      FrictionLossFrom(items, k);
    }
    if forall k :: 0 <= k < |items| ==> !FrictionRecord(items, k) {
      NoFrictionLoss(items);
    }
  }

  lemma FrictionLossFrom(items: seq<Evidence>, k: nat)
    requires FrictionRecord(items, k)
    ensures LostAtStages(items, FRICTION_STAGES) == items[k].Loss()
  {
    FrictionStagesInOrder(items);
    if FirstAt(items, PAYMENT_OPTIONS_SHOWN, k) {
      FirstLossIsFirst(items, PAYMENT_OPTIONS_SHOWN, k);
    } else {
      NoLossWithoutRecord(items, PAYMENT_OPTIONS_SHOWN);
      if FirstAt(items, PAYMENT_METHOD_SELECTED, k) {
        FirstLossIsFirst(items, PAYMENT_METHOD_SELECTED, k);
      } else {
        NoLossWithoutRecord(items, PAYMENT_METHOD_SELECTED);
        FirstLossIsFirst(items, PAYMENT_INITIATED, k);
      }
    }
  }

  lemma NoFrictionLoss(items: seq<Evidence>)
    requires forall k :: 0 <= k < |items| ==> !FrictionRecord(items, k)
    ensures LostAtStages(items, FRICTION_STAGES) == 0
  {
    FrictionStagesInOrder(items);
    if !NoneAt(items, PAYMENT_OPTIONS_SHOWN) {
      var k := FindFirst(items, PAYMENT_OPTIONS_SHOWN);
      assert FrictionRecord(items, k);
    } else if !NoneAt(items, PAYMENT_METHOD_SELECTED) {
      var k := FindFirst(items, PAYMENT_METHOD_SELECTED);
      assert FrictionRecord(items, k);
    } else if !NoneAt(items, PAYMENT_INITIATED) {
      var k := FindFirst(items, PAYMENT_INITIATED);
      assert FrictionRecord(items, k);
    } else {
      NoLossWithoutRecord(items, PAYMENT_OPTIONS_SHOWN);
      NoLossWithoutRecord(items, PAYMENT_METHOD_SELECTED);
      NoLossWithoutRecord(items, PAYMENT_INITIATED);
    }
  }

  /** The codes of exactly the records the claim rests on. */
  ghost predicate Cites(rc: RootCause, items: seq<Evidence>, rests: Evidence -> bool) {
    forall c :: c in rc.codes <==> exists e :: e in items && rests(e) && e.code == c
  }

  lemma CitesOneOfThree(items: seq<Evidence>, p: Evidence -> bool, q: Evidence -> bool, r: Evidence -> bool,
                        rests: Evidence -> bool, rc: RootCause)
    requires rc.codes == CodesWhere(items, p) + CodesWhere(items, q) + CodesWhere(items, r)
    requires forall e :: rests(e) <==> p(e) || q(e) || r(e)
    ensures Cites(rc, items, rests)
  {
    forall c ensures c in rc.codes <==> exists e :: e in items && rests(e) && e.code == c {
      assert c in rc.codes <==>
             c in CodesWhere(items, p) || c in CodesWhere(items, q) || c in CodesWhere(items, r);
    }
  }

  lemma CitesOneOfTwo(items: seq<Evidence>, p: Evidence -> bool, q: Evidence -> bool, rests: Evidence -> bool,
                      rc: RootCause)
    requires rc.codes == CodesWhere(items, p) + CodesWhere(items, q)
    requires forall e :: rests(e) <==> p(e) || q(e)
    ensures Cites(rc, items, rests)
  {
    forall c ensures c in rc.codes <==> exists e :: e in items && rests(e) && e.code == c {
      assert c in rc.codes <==> c in CodesWhere(items, p) || c in CodesWhere(items, q);
    }
  }

  lemma TimeoutCodesExactly(items: seq<Evidence>, rc: RootCause)
    requires rc.codes == TimeoutCodes(items)
    ensures Cites(rc, items, RestsOnTimeout)
  {
    CitesOneOfThree(items, OfType(CHANNEL_TIMEOUT_SEEN), DegradedAt(CHANNEL_FAULT_STAGES),
                    OfType(DIMENSION_CONTRIBUTION), RestsOnTimeout, rc);
  }

  lemma BenefitCodesExactly(items: seq<Evidence>, rc: RootCause)
    requires rc.codes == BenefitCodes(items)
    ensures Cites(rc, items, RestsOnFriction)
  {
    CitesOneOfTwo(items, OfType(BENEFIT_GAP_FRICTION), DegradedAt(FRICTION_STAGES), RestsOnFriction, rc);
  }

  lemma FindTimeoutClaim(version: string, ctx: Context, rc: RootCause)
    requires rc in RuleReport(version, ctx).causes && rc.cause == CHANNEL_TIMEOUT
    ensures rc == TimeoutClaim(ctx.evidence, LossOfType(ctx.evidence, FUNNEL_STAGE_DEGRADATION))
  {
  }

  lemma FindBenefitClaim(version: string, ctx: Context, rc: RootCause)
    requires rc in RuleReport(version, ctx).causes && rc.cause == BENEFIT_SELECTION_FRICTION
    ensures rc == BenefitClaim(ctx.evidence, LossOfType(ctx.evidence, FUNNEL_STAGE_DEGRADATION), rc.rank)
    ensures rc.rank == if Has(ctx.evidence, CHANNEL_TIMEOUT_SEEN) then 2 else 1
  {
  }

  /** A timeout claim reports the loss of the first degradation at CHANNEL_SUCCEEDED, or what the timeout and
      dimension records estimate when that is nothing, up to a positive total; and it cites those records. */
  lemma TimeoutClaimExactly(version: string, ctx: Context, rc: RootCause)
    requires rc in RuleReport(version, ctx).causes && rc.cause == CHANNEL_TIMEOUT
    ensures rc.confidence == HIGH && rc.rank == 1 && rc.lost.Some?
    ensures TimeoutLossRead(ctx.evidence, LossOfType(ctx.evidence, FUNNEL_STAGE_DEGRADATION), rc.lost.value)
    ensures Cites(rc, ctx.evidence, RestsOnTimeout)
  {
    FindTimeoutClaim(version, ctx, rc);
    TimeoutLoss(ctx.evidence, LossOfType(ctx.evidence, FUNNEL_STAGE_DEGRADATION));
    TimeoutCodesExactly(ctx.evidence, rc);
  }

  /** A friction claim reports the loss of the first degradation at the earliest of its stages that has one,
      or what the benefit and cancellation records estimate; and it cites the benefit records and every
      degradation at those stages. */
  lemma FrictionClaimExactly(version: string, ctx: Context, rc: RootCause)
    requires rc in RuleReport(version, ctx).causes && rc.cause == BENEFIT_SELECTION_FRICTION
    ensures rc.confidence == MEDIUM && rc.lost.Some?
    ensures rc.rank == if exists e :: e in ctx.evidence && e.evidenceType == CHANNEL_TIMEOUT_SEEN then 2 else 1
    ensures FrictionLossRead(ctx.evidence, LossOfType(ctx.evidence, FUNNEL_STAGE_DEGRADATION), rc.lost.value)
    ensures Cites(rc, ctx.evidence, RestsOnFriction)
  {
    FindBenefitClaim(version, ctx, rc);
    FrictionLoss(ctx.evidence, LossOfType(ctx.evidence, FUNNEL_STAGE_DEGRADATION));
    BenefitCodesExactly(ctx.evidence, rc);
  }

  /** A claim of unknown cause reports the whole total, a claim that nothing is wrong none of it. */
  lemma RemainingClaimsExactly(version: string, ctx: Context, rc: RootCause)
    requires rc in RuleReport(version, ctx).causes
    requires rc.cause != CHANNEL_TIMEOUT && rc.cause != BENEFIT_SELECTION_FRICTION
    ensures rc.confidence == LOW && rc.rank == 1
    ensures rc.cause == UNKNOWN_CAUSE || rc.cause == NORMAL_PAYMENT_FAILURE
    ensures rc.cause == UNKNOWN_CAUSE ==>
              rc.lost == Some(LossOfType(ctx.evidence, FUNNEL_STAGE_DEGRADATION))
              && Cites(rc, ctx.evidence, (e: Evidence) => e.evidenceType == FUNNEL_STAGE_DEGRADATION
                   || e.evidenceType == DIMENSION_CONTRIBUTION || e.evidenceType == ERROR_CODE_CONCENTRATION)
    ensures rc.cause == NORMAL_PAYMENT_FAILURE ==>
              rc.lost == Some(0) && Cites(rc, ctx.evidence, (e: Evidence) => e.evidenceType == FUNNEL_BASELINE_STABLE)
  {
    var items, total := ctx.evidence, LossOfType(ctx.evidence, FUNNEL_STAGE_DEGRADATION);
    if rc.cause == UNKNOWN_CAUSE {
      assert rc == UnmatchedClaim(items, total);
      CitesOneOfThree(items, OfType(FUNNEL_STAGE_DEGRADATION), OfType(DIMENSION_CONTRIBUTION),
                      OfType(ERROR_CODE_CONCENTRATION), (e: Evidence) => e.evidenceType == FUNNEL_STAGE_DEGRADATION
                        || e.evidenceType == DIMENSION_CONTRIBUTION || e.evidenceType == ERROR_CODE_CONCENTRATION, rc);
    } else {
      assert rc == NormalClaim(items);
      assert forall e :: OfType(FUNNEL_BASELINE_STABLE)(e) <==> e.evidenceType == FUNNEL_BASELINE_STABLE;
    }
  }

  predicate Shows(items: seq<Evidence>, t: EvidenceType) {
    exists k :: 0 <= k < |items| && items[k].evidenceType == t
  }

  /** Which claims a report makes, and in which order; a report that asks for data makes none. */
  lemma LabelsExactly(version: string, ctx: Context)
    ensures var causes, items := RuleReport(version, ctx).causes, ctx.evidence;
            var timeout, friction := Shows(items, CHANNEL_TIMEOUT_SEEN), Shows(items, BENEFIT_GAP_FRICTION);
            && |causes| == (if ctx.missingData != [] then 0 else if timeout && friction then 2 else 1)
            && (|causes| == 2 ==>
                  causes[0].cause == CHANNEL_TIMEOUT && causes[1].cause == BENEFIT_SELECTION_FRICTION)
            && (|causes| == 1 ==>
                  causes[0].cause ==
                    if timeout then CHANNEL_TIMEOUT else if friction then BENEFIT_SELECTION_FRICTION
                    else if Shows(items, FUNNEL_STAGE_DEGRADATION)
                        || Shows(items, DIMENSION_CONTRIBUTION) then UNKNOWN_CAUSE
                    else NORMAL_PAYMENT_FAILURE)
  {
    var items := ctx.evidence;
    HasShows(items, CHANNEL_TIMEOUT_SEEN);
    HasShows(items, BENEFIT_GAP_FRICTION);
    HasShows(items, FUNNEL_STAGE_DEGRADATION);
    HasShows(items, DIMENSION_CONTRIBUTION);
  }

  lemma HasShows(items: seq<Evidence>, t: EvidenceType)
    ensures Has(items, t) <==> Shows(items, t)
  {
    if Has(items, t) {
      var e :| e in items && e.evidenceType == t;
      var k :| 0 <= k < |items| && items[k] == e;
    }
  }

  /** The ledger of the report, and all that a report asking for data says. */
  lemma RuleLedgerExactly(version: string, ctx: Context)
    ensures var r := RuleReport(version, ctx);
            && r.total == LossOfType(ctx.evidence, FUNNEL_STAGE_DEGRADATION)
            && r.incidentId == ctx.incidentId && r.runId == ctx.runId && r.validatorVersion == version
            && r.missingData == ctx.missingData && (r.status == NeedsData <==> ctx.missingData != [])
            && (r.status == NeedsData ==> r.causes == [] && r.explained == 0 && r.unexplained == r.total)
            && (r.status == Succeeded ==>
                  var claimed := r.causes[0].Loss() + (if |r.causes| == 2 then r.causes[1].Loss() else 0);
                  && r.explained == (if claimed <= r.total then claimed else r.total)
                  && r.unexplained == r.total - r.explained)
  {
    var r := RuleReport(version, ctx);
    if ctx.missingData == [] {
      SumOfUpToTwo(r.causes);
    }
  }
}
