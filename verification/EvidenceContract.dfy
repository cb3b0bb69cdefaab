/** The evidence contract: what a set of evidence types can support, the report validator's rules, and the
    rewrite that downgrades claims and rebalances a report before it is published. */
module EvidenceContract {
  import opened Domain

  datatype SupportStatus = SUPPORTED | PARTIAL | UNKNOWN

  datatype Reason =
    | NoValidCodes
    | ContradictsPositiveEvidence
    | OnlyNegativeEvidence
    | MissingRequiredEvidence
    | NoConfirmingTypeExists  // raised by the hypothesis ledger
    | NeverTested             // raised by the harness's final sweep

  const NEGATIVE: set<EvidenceType> := {DATA_GAP, FUNNEL_BASELINE_STABLE}
  const GENERIC: set<EvidenceType> := {FUNNEL_STAGE_DEGRADATION, DIMENSION_CONTRIBUTION, ERROR_CODE_CONCENTRATION}
  const OBSERVATIONAL: set<EvidenceType> := {BENEFIT_GAP_FRICTION, CONFIG_CHANGE, CANCEL_REORDER_FLOW}

  /** The evidence type a label cannot do without, if it has one. */
  function RequiredType(cause: Label): Option<EvidenceType> {
    match cause
    case CHANNEL_TIMEOUT => Some(CHANNEL_TIMEOUT_SEEN)
    case BENEFIT_SELECTION_FRICTION => Some(BENEFIT_GAP_FRICTION)
    case _ => None
  }

  function ClassifySupport(cause: Label, types: set<EvidenceType>): (SupportStatus, Option<Reason>) {
    if cause == UNKNOWN_CAUSE then (SUPPORTED, None)
    else if cause == DATA_QUALITY_ISSUE then
      if DATA_GAP !in types then (UNKNOWN, Some(MissingRequiredEvidence)) else (SUPPORTED, None)
    else if types == {} then (UNKNOWN, Some(NoValidCodes))
    else
      var positive := types - NEGATIVE;
      if cause == NORMAL_PAYMENT_FAILURE then
        if positive != {} then (UNKNOWN, Some(ContradictsPositiveEvidence)) else (SUPPORTED, None)
      else if positive == {} then (UNKNOWN, Some(OnlyNegativeEvidence))
      else if RequiredType(cause).Some? && RequiredType(cause).value !in types then
        (UNKNOWN, Some(MissingRequiredEvidence))
      else (Weigh(positive - GENERIC), None)
  }

  /** What the specific (neither negative nor merely directional) evidence is worth. */
  function Weigh(specific: set<EvidenceType>): SupportStatus {
    if |specific| >= 2 then SUPPORTED
    else if |specific| == 1 then (if specific <= OBSERVATIONAL then PARTIAL else SUPPORTED)
    else PARTIAL
  }

  function Rank(s: SupportStatus): nat {
    match s case UNKNOWN => 0 case PARTIAL => 1 case SUPPORTED => 2
  }

  lemma WeighGrows(specific: set<EvidenceType>, more: set<EvidenceType>)
    requires specific <= more
    ensures 1 <= Rank(Weigh(specific)) <= Rank(Weigh(more))
  {
    assert more == specific + (more - specific);
    if |specific| == 1 && |more| == 1 {
      assert more - specific == {};
    }
  }

  /** More evidence never weakens a claim, except a claim that nothing is wrong. */
  lemma MoreEvidenceNeverWeakens(cause: Label, types: set<EvidenceType>, more: set<EvidenceType>)
    requires types <= more && cause != NORMAL_PAYMENT_FAILURE
    ensures Rank(ClassifySupport(cause, types).0) <= Rank(ClassifySupport(cause, more).0)
  {
    WeighGrows(types - NEGATIVE - GENERIC, more - NEGATIVE - GENERIC);
    assert types - NEGATIVE <= more - NEGATIVE;
    if cause != UNKNOWN_CAUSE && cause != DATA_QUALITY_ISSUE && ClassifySupport(cause, types).0 != UNKNOWN {
      assert ClassifySupport(cause, types).0 == Weigh(types - NEGATIVE - GENERIC);
      assert ClassifySupport(cause, more).0 == Weigh(more - NEGATIVE - GENERIC);
    }
  }

  lemma WeighNeedsOneProof(specific: set<EvidenceType>, t: EvidenceType)
    requires t in specific && t !in OBSERVATIONAL
    ensures Weigh(specific) == SUPPORTED
  {
    assert specific == {t} + (specific - {t});
  }

  /** A channel timeout is carried, fully, exactly when its own type of evidence is present. */
  lemma TimeoutEvidenceDecides(types: set<EvidenceType>)
    ensures ClassifySupport(CHANNEL_TIMEOUT, types).0 == (if CHANNEL_TIMEOUT_SEEN in types then SUPPORTED else UNKNOWN)
  {
    if CHANNEL_TIMEOUT_SEEN in types {
      assert CHANNEL_TIMEOUT_SEEN in types - NEGATIVE;
      WeighNeedsOneProof(types - NEGATIVE - GENERIC, CHANNEL_TIMEOUT_SEEN);
    }
  }

  /** Friction is carried exactly when benefit-gap evidence is present, and only in part while that is the
      only specific evidence. */
  lemma FrictionEvidenceDecides(types: set<EvidenceType>)
    ensures ClassifySupport(BENEFIT_SELECTION_FRICTION, types).0 == UNKNOWN <==> BENEFIT_GAP_FRICTION !in types
    ensures types - NEGATIVE - GENERIC == {BENEFIT_GAP_FRICTION} ==>
              ClassifySupport(BENEFIT_SELECTION_FRICTION, types).0 == PARTIAL
  {
    WeighGrows(types - NEGATIVE - GENERIC, types - NEGATIVE - GENERIC);
    if BENEFIT_GAP_FRICTION in types {
      assert BENEFIT_GAP_FRICTION in types - NEGATIVE;
    }
  }

  /** "Nothing is wrong" is carried exactly by negative evidence alone. */
  lemma NegativeEvidenceDecides(types: set<EvidenceType>)
    ensures ClassifySupport(NORMAL_PAYMENT_FAILURE, types).0 ==
              (if types != {} && types <= NEGATIVE then SUPPORTED else UNKNOWN)
  {
    assert types - NEGATIVE == {} <==> types <= NEGATIVE;
  }

  // ----- Reports -----------------------------------------------------------------------------------

  datatype Confidence = LOW | MEDIUM | HIGH

  datatype RootCause = RootCause(
    cause: Label, confidence: Confidence, lost: Option<int>, codes: seq<string>, rank: int, status: SupportStatus)
  {
    /** `estimated_lost_intents or 0` */
    function Loss(): int {
      if lost.Some? then lost.value else 0
    }
  }

  datatype ReportStatus = Succeeded | NeedsData

  datatype Report = Report(
    incidentId: string, runId: string, status: ReportStatus, causes: seq<RootCause>,
    total: int, explained: int, unexplained: int, missingData: seq<string>, validatorVersion: string)

  datatype Context = Context(
    incidentId: string, runId: string, anomalousStages: seq<StageName>,
    evidence: seq<Evidence>, missingData: seq<string>, feedback: seq<ValidationIssue>)

  type RunEvidence = map<string, Evidence>

  /** The evidence of a run by code; a repeated code keeps its last record. */
  function ByCode(items: seq<Evidence>): (m: RunEvidence)
    ensures forall c :: c in m <==> exists e :: e in items && e.code == c
    ensures forall c :: c in m ==> m[c] in items && m[c].code == c
  {
    if items == [] then map[]
    else
      var init, last := items[..|items| - 1], items[|items| - 1];
      assert items == init + [last];
      ByCode(init)[last.code := last]
  }

  lemma ByCodeOfDistinct(items: seq<Evidence>, e: Evidence)
    requires DistinctCodes(items) && e in items
    ensures e.code in ByCode(items) && ByCode(items)[e.code] == e
  {
    var found := ByCode(items)[e.code];
    var i :| 0 <= i < |items| && items[i] == e;
    var j :| 0 <= j < |items| && items[j] == found;
    if i < j {
      assert items[i].code != items[j].code;
    } else if j < i {
      assert items[j].code != items[i].code;
    }
  }

  /** The evidence types a list of codes resolves to; codes of another run resolve to nothing. */
  function TypesOf(codes: seq<string>, run: RunEvidence): set<EvidenceType> {
    set c | c in codes && c in run :: run[c].evidenceType
  }

  function ResolveSupport(cause: Label, codes: seq<string>, run: RunEvidence): SupportStatus {
    ClassifySupport(cause, TypesOf(codes, run)).0
  }

  /** The loss carried by the first `n` claims that the evidence supports. */
  function Explainable(causes: seq<RootCause>, run: RunEvidence, n: nat): int
    requires n <= |causes|
  {
    if n == 0 then 0
    else
      Explainable(causes, run, n - 1) +
      (if ResolveSupport(causes[n - 1].cause, causes[n - 1].codes, run) != UNKNOWN then causes[n - 1].Loss() else 0)
  }

  // ----- The validator -------------------------------------------------------------------------------

  const ROUNDING_TOLERANCE: int := 2

  datatype IssueCode =
    | R1_INCIDENT_MISMATCH | R1_RUN_MISMATCH | R2_BAD_EVIDENCE_REF | R3_NO_EVIDENCE | R4_BAD_LABEL
    | R5_NEGATIVE_TOTAL | R5_NEGATIVE_EXPLAINED | R5_NEGATIVE_UNEXPLAINED | R5_NEGATIVE_RC_LOSS
    | R6_LOSS_IMBALANCE | R7_RC_EXCEEDS_TOTAL | R8_EVIDENCE_LABEL_MISMATCH | R9_NEEDS_DATA_EMPTY
    | R10_HIGH_CONF_NO_EV | R10_HIGH_CONF_NORMAL | R11_BENEFIT_ONLY | R12_SCHEMA_VERSION
    | R13_DUPLICATE_CODES | R14_UNSUPPORTED_STATUS | R15_UNKNOWN_EXPLAINS_LOSS

  /** `claim` is the index of the root cause an issue is about, if it is about one. */
  datatype ValidationIssue = ValidationIssue(code: IssueCode, claim: Option<nat>, retryable: bool)

  function Abs(x: int): int { if x < 0 then -x else x }

  predicate HasRepeats(codes: seq<string>) {
    exists i, j :: 0 <= i < j < |codes| && codes[i] == codes[j]
  }

  predicate NoValidCodesIn(rc: RootCause, run: RunEvidence) {
    forall c :: c in rc.codes ==> c !in run
  }

  predicate OnlyNegative(items: seq<Evidence>) {
    forall e :: e in items ==> e.evidenceType in NEGATIVE
  }

  predicate CitesForeignCode(report: Report, run: RunEvidence) {
    exists rc, c :: rc in report.causes && c in rc.codes && c !in run
  }

  function ExplainableIn(report: Report, ctx: Context): int {
    Explainable(report.causes, ByCode(ctx.evidence), |report.causes|)
  }

  /** What each claim-by-claim rule objects to. */
  predicate ClaimViolates(code: IssueCode, report: Report, ctx: Context, rc: RootCause) {
    var run := ByCode(ctx.evidence);
    match code
    // A claim marked UNKNOWN asserts nothing the evidence must carry.
    case R3_NO_EVIDENCE => NoValidCodesIn(rc, run) && rc.status != UNKNOWN
    case R4_BAD_LABEL => rc.cause.OtherLabel?
    case R5_NEGATIVE_RC_LOSS => rc.lost.Some? && rc.lost.value < 0
    case R7_RC_EXCEEDS_TOTAL => rc.lost.Some? && rc.lost.value > report.total
    case R8_EVIDENCE_LABEL_MISMATCH =>
      TypesOf(rc.codes, run) != {} && ResolveSupport(rc.cause, rc.codes, run) == UNKNOWN
    case R10_HIGH_CONF_NO_EV => rc.confidence == HIGH && OnlyNegative(ctx.evidence)
    case R10_HIGH_CONF_NORMAL => rc.cause == NORMAL_PAYMENT_FAILURE && rc.confidence == HIGH
    case R11_BENEFIT_ONLY =>
      rc.cause == BENEFIT_SELECTION_FRICTION && TypesOf(rc.codes, run) == {BENEFIT_GAP_FRICTION}
    case R13_DUPLICATE_CODES => HasRepeats(rc.codes)
    case R14_UNSUPPORTED_STATUS => ResolveSupport(rc.cause, rc.codes, run) == UNKNOWN && rc.status != UNKNOWN
    case _ => false
  }

  /** What each report-level rule objects to. */
  predicate ReportViolates(code: IssueCode, version: string, report: Report, ctx: Context) {
    match code
    case R1_INCIDENT_MISMATCH => report.incidentId != ctx.incidentId
    case R1_RUN_MISMATCH => report.runId != ctx.runId
    case R2_BAD_EVIDENCE_REF => CitesForeignCode(report, ByCode(ctx.evidence))
    case R5_NEGATIVE_TOTAL => report.total < 0
    case R5_NEGATIVE_EXPLAINED => report.explained < 0
    case R5_NEGATIVE_UNEXPLAINED => report.unexplained < 0
    case R6_LOSS_IMBALANCE => Abs(report.total - (report.explained + report.unexplained)) > ROUNDING_TOLERANCE
    case R9_NEEDS_DATA_EMPTY => report.status == NeedsData && report.missingData == []
    case R12_SCHEMA_VERSION => report.validatorVersion != version
    case R15_UNKNOWN_EXPLAINS_LOSS =>
      report.explained > (if ExplainableIn(report, ctx) > 0 then ExplainableIn(report, ctx) else 0)
    case _ => false
  }

  /** An unsupported claim can be retried unless the report asks for data; benefit-only support and a
      schema mismatch never can; everything else can. */
  predicate Retryable(code: IssueCode, status: ReportStatus) {
    match code
    case R3_NO_EVIDENCE => status == Succeeded
    case R11_BENEFIT_ONLY => false
    case R12_SCHEMA_VERSION => false
    case _ => true
  }

  /** The rules in the order the validator runs them. */
  const RULES: seq<IssueCode> := [
    R1_INCIDENT_MISMATCH, R1_RUN_MISMATCH, R2_BAD_EVIDENCE_REF, R3_NO_EVIDENCE, R4_BAD_LABEL,
    R5_NEGATIVE_TOTAL, R5_NEGATIVE_EXPLAINED, R5_NEGATIVE_UNEXPLAINED, R5_NEGATIVE_RC_LOSS,
    R6_LOSS_IMBALANCE, R7_RC_EXCEEDS_TOTAL, R8_EVIDENCE_LABEL_MISMATCH, R9_NEEDS_DATA_EMPTY,
    R10_HIGH_CONF_NO_EV, R10_HIGH_CONF_NORMAL, R11_BENEFIT_ONLY, R12_SCHEMA_VERSION,
    R13_DUPLICATE_CODES, R14_UNSUPPORTED_STATUS, R15_UNKNOWN_EXPLAINS_LOSS]

  function PositionOf(code: IssueCode): (k: nat)
    ensures k < |RULES| && RULES[k] == code
  {
    match code
    case R1_INCIDENT_MISMATCH => 0
    case R1_RUN_MISMATCH => 1
    case R2_BAD_EVIDENCE_REF => 2
    case R3_NO_EVIDENCE => 3
    case R4_BAD_LABEL => 4
    case R5_NEGATIVE_TOTAL => 5
    case R5_NEGATIVE_EXPLAINED => 6
    case R5_NEGATIVE_UNEXPLAINED => 7
    case R5_NEGATIVE_RC_LOSS => 8
    case R6_LOSS_IMBALANCE => 9
    case R7_RC_EXCEEDS_TOTAL => 10
    case R8_EVIDENCE_LABEL_MISMATCH => 11
    case R9_NEEDS_DATA_EMPTY => 12
    case R10_HIGH_CONF_NO_EV => 13
    case R10_HIGH_CONF_NORMAL => 14
    case R11_BENEFIT_ONLY => 15
    case R12_SCHEMA_VERSION => 16
    case R13_DUPLICATE_CODES => 17
    case R14_UNSUPPORTED_STATUS => 18
    case R15_UNKNOWN_EXPLAINS_LOSS => 19
  }

  /** The issues of a report: the rules it breaks, claim by claim and as a whole. */
  predicate Raised(version: string, report: Report, ctx: Context, x: ValidationIssue) {
    && x.retryable == Retryable(x.code, report.status)
    && match x.claim
       case Some(i) => i < |report.causes| && ClaimViolates(x.code, report, ctx, report.causes[i])
       case None => ReportViolates(x.code, version, report, ctx)
  }

  /** One rule applied to every claim. */
  method CheckClaims(code: IssueCode, retryable: bool, causes: seq<RootCause>, violates: RootCause -> bool,
                     before: seq<ValidationIssue>)
    returns (issues: seq<ValidationIssue>)
    ensures forall x :: x in issues <==> x in before || FromClaim(x, code, retryable, causes, violates, |causes|)
  {
    issues := before;
    for i := 0 to |causes|
      invariant forall x :: x in issues <==> x in before || FromClaim(x, code, retryable, causes, violates, i)
    {
      if violates(causes[i]) {
        issues := issues + [ValidationIssue(code, Some(i), retryable)];
      }
    }
  }

  predicate FromClaim(x: ValidationIssue, code: IssueCode, retryable: bool, causes: seq<RootCause>,
                      violates: RootCause -> bool, n: nat)
    requires n <= |causes|
  {
    x.code == code && x.retryable == retryable && x.claim.Some? && x.claim.value < n && violates(causes[x.claim.value])
  }

  /** Rules 1 to 15 in order, claim by claim where the rule is about claims. */
  method Validate(version: string, report: Report, ctx: Context) returns (issues: seq<ValidationIssue>)
    ensures forall x :: x in issues <==> Raised(version, report, ctx, x)
  {
    issues := [];
    for k := 0 to |RULES|
      invariant forall x :: x in issues <==> PositionOf(x.code) < k && Raised(version, report, ctx, x)
    {
      issues := CheckRule(RULES[k], version, report, ctx, issues);
      assert PositionOf(RULES[k]) == k;
    }
  }

  method CheckRule(code: IssueCode, version: string, report: Report, ctx: Context, before: seq<ValidationIssue>)
    returns (issues: seq<ValidationIssue>)
    ensures forall x :: x in issues <==> x in before || (x.code == code && Raised(version, report, ctx, x))
  {
    var retryable := Retryable(code, report.status);
    var violates := rc => ClaimViolates(code, report, ctx, rc);
    issues := CheckClaims(code, retryable, report.causes, violates, before);
    if ReportViolates(code, version, report, ctx) {
      issues := issues + [ValidationIssue(code, None, retryable)];
    }
  }

  // ----- What the issues say, rule by rule -----------------------------------------------------------------

  /** The record a repeated code stands for is the last one. */
  lemma {:induction false} ByCodeIsLast(items: seq<Evidence>, i: nat)
    requires i < |items| && forall j :: i < j < |items| ==> items[j].code != items[i].code
    ensures items[i].code in ByCode(items) && ByCode(items)[items[i].code] == items[i]
  {
    var n := |items| - 1;
    if i < n {
      assert items[..n][i] == items[i];
      ByCodeIsLast(items[..n], i);
    }
  }

  /** Some record of the run has the code. */
  predicate HasRecord(items: seq<Evidence>, code: string) {
    exists e :: e in items && e.code == code
  }

  /** The claim cites some record of the run. */
  predicate CitesRecord(items: seq<Evidence>, rc: RootCause) {
    exists c :: c in rc.codes && HasRecord(items, c)
  }

  lemma CodesAndTypes(items: seq<Evidence>, rc: RootCause)
    ensures NoValidCodesIn(rc, ByCode(items)) <==> !CitesRecord(items, rc)
    ensures TypesOf(rc.codes, ByCode(items)) == {} <==> !CitesRecord(items, rc)
  {
    var run := ByCode(items);
    forall c ensures c in run <==> HasRecord(items, c) {
    }
    if CitesRecord(items, rc) {
      var c :| c in rc.codes && HasRecord(items, c);
      assert run[c].evidenceType in TypesOf(rc.codes, run);
    }
  }

  /** What the evidence a claim cites supports. */
  function SupportOf(items: seq<Evidence>, rc: RootCause): SupportStatus {
    ClassifySupport(rc.cause, TypesOf(rc.codes, ByCode(items))).0
  }

  lemma IssueRaised(version: string, report: Report, ctx: Context, code: IssueCode, claim: Option<nat>, retryable: bool)
    ensures Raised(version, report, ctx, ValidationIssue(code, claim, retryable)) <==>
              && retryable == Retryable(code, report.status)
              && match claim
                 case Some(i) => i < |report.causes| && ClaimViolates(code, report, ctx, report.causes[i])
                 case None => ReportViolates(code, version, report, ctx)
  {
  }

  ghost predicate Says(issues: seq<ValidationIssue>, code: IssueCode, claim: Option<nat>, retryable: bool) {
    ValidationIssue(code, claim, retryable) in issues
  }

  /** The issues about one claim, for whatever list of issues a validation returns: what it cites, ... */
  lemma CitationIssues(version: string, report: Report, ctx: Context, issues: seq<ValidationIssue>, i: nat)
    requires i < |report.causes| && forall x :: x in issues <==> Raised(version, report, ctx, x)
    ensures Says(issues, R3_NO_EVIDENCE, Some(i), report.status == Succeeded) <==>
              report.causes[i].status != UNKNOWN && !CitesRecord(ctx.evidence, report.causes[i])
    ensures Says(issues, R13_DUPLICATE_CODES, Some(i), true) <==> RepeatsCode(report.causes[i])
  {
    CodesAndTypes(ctx.evidence, report.causes[i]);
  }

  predicate RepeatsCode(rc: RootCause) {
    exists j, k :: 0 <= j < k < |rc.codes| && rc.codes[j] == rc.codes[k]
  }

  /** ... whether all that it cites is a preference, ... */
  lemma BenefitIssues(version: string, report: Report, ctx: Context, issues: seq<ValidationIssue>, i: nat)
    requires i < |report.causes| && forall x :: x in issues <==> Raised(version, report, ctx, x)
    ensures Says(issues, R11_BENEFIT_ONLY, Some(i), false) <==>
              && report.causes[i].cause == BENEFIT_SELECTION_FRICTION && CitesRecord(ctx.evidence, report.causes[i])
              && forall c :: c in report.causes[i].codes && HasRecord(ctx.evidence, c) ==>
                   ByCode(ctx.evidence)[c].evidenceType == BENEFIT_GAP_FRICTION
  {
    BenefitOnly(ctx.evidence, report.causes[i]);
  }

  /** ... what it claims against what its citations support, ... */
  lemma SupportIssues(version: string, report: Report, ctx: Context, issues: seq<ValidationIssue>, i: nat)
    requires i < |report.causes| && forall x :: x in issues <==> Raised(version, report, ctx, x)
    ensures var rc, items := report.causes[i], ctx.evidence;
            && (Says(issues, R8_EVIDENCE_LABEL_MISMATCH, Some(i), true) <==>
                  CitesRecord(items, rc) && SupportOf(items, rc) == UNKNOWN)
            && (Says(issues, R14_UNSUPPORTED_STATUS, Some(i), true) <==>
                  rc.status != UNKNOWN && SupportOf(items, rc) == UNKNOWN)
  {
    CodesAndTypes(ctx.evidence, report.causes[i]);
  }

  /** ... its label and loss, ... */
  lemma LabelAndLossIssues(version: string, report: Report, ctx: Context, issues: seq<ValidationIssue>, i: nat)
    requires i < |report.causes| && forall x :: x in issues <==> Raised(version, report, ctx, x)
    ensures var rc := report.causes[i];
            && (Says(issues, R4_BAD_LABEL, Some(i), true) <==> rc.cause.OtherLabel?)
            && (Says(issues, R5_NEGATIVE_RC_LOSS, Some(i), true) <==> rc.lost.Some? && rc.lost.value < 0)
            && (Says(issues, R7_RC_EXCEEDS_TOTAL, Some(i), true) <==> rc.lost.Some? && rc.lost.value > report.total)
  {
  }

  /** ... and its confidence. */
  lemma ConfidenceIssues(version: string, report: Report, ctx: Context, issues: seq<ValidationIssue>, i: nat)
    requires i < |report.causes| && forall x :: x in issues <==> Raised(version, report, ctx, x)
    ensures Says(issues, R10_HIGH_CONF_NO_EV, Some(i), true) <==>
            report.causes[i].confidence == HIGH && NothingObserved(ctx.evidence)
    ensures Says(issues, R10_HIGH_CONF_NORMAL, Some(i), true) <==>
            report.causes[i].confidence == HIGH && report.causes[i].cause == NORMAL_PAYMENT_FAILURE
  {
    assert OnlyNegative(ctx.evidence) <==> NothingObserved(ctx.evidence);
  }

  /** No evidence but gaps and stability. */
  predicate NothingObserved(items: seq<Evidence>) {
    forall e :: e in items ==> e.evidenceType == DATA_GAP || e.evidenceType == FUNNEL_BASELINE_STABLE
  }

  lemma BenefitOnly(items: seq<Evidence>, rc: RootCause)
    ensures TypesOf(rc.codes, ByCode(items)) == {BENEFIT_GAP_FRICTION} <==>
              CitesRecord(items, rc)
              && forall c :: c in rc.codes && HasRecord(items, c) ==>
                   ByCode(items)[c].evidenceType == BENEFIT_GAP_FRICTION
  {
    var run := ByCode(items);
    var types := TypesOf(rc.codes, run);
    CodesAndTypes(items, rc);
    if types == {BENEFIT_GAP_FRICTION} {
      forall c | c in rc.codes && HasRecord(items, c) ensures run[c].evidenceType == BENEFIT_GAP_FRICTION {
        assert run[c].evidenceType in types;
      }
    }
  }

  /** The issues about the report as a whole: whose it is and what it cites and asks for, ... */
  lemma IdentityIssues(version: string, report: Report, ctx: Context, issues: seq<ValidationIssue>)
    requires forall x :: x in issues <==> Raised(version, report, ctx, x)
    ensures Says(issues, R1_INCIDENT_MISMATCH, None, true) <==> report.incidentId != ctx.incidentId
    ensures Says(issues, R1_RUN_MISMATCH, None, true) <==> report.runId != ctx.runId
    ensures Says(issues, R2_BAD_EVIDENCE_REF, None, true) <==> CitesUnrecorded(report, ctx.evidence)
    ensures Says(issues, R9_NEEDS_DATA_EMPTY, None, true) <==> report.status == NeedsData && report.missingData == []
    ensures Says(issues, R12_SCHEMA_VERSION, None, false) <==> report.validatorVersion != version
  {
    ForeignCodes(report, ctx.evidence);
  }

  lemma ForeignCodes(report: Report, items: seq<Evidence>)
    ensures CitesForeignCode(report, ByCode(items)) <==> CitesUnrecorded(report, items)
  {
    forall c ensures c in ByCode(items) <==> HasRecord(items, c) {
    }
    if CitesForeignCode(report, ByCode(items)) {
      var rc, c :| rc in report.causes && c in rc.codes && c !in ByCode(items);
      assert rc in report.causes && c in rc.codes && !HasRecord(items, c);
    }
  }

  /** Some claim cites a code that no record of the context has. */
  predicate CitesUnrecorded(report: Report, items: seq<Evidence>) {
    exists rc, c :: rc in report.causes && c in rc.codes && !HasRecord(items, c)
  }

  /** ... and its loss ledger. */
  lemma LedgerIssues(version: string, report: Report, ctx: Context, issues: seq<ValidationIssue>)
    requires forall x :: x in issues <==> Raised(version, report, ctx, x)
    ensures Says(issues, R5_NEGATIVE_TOTAL, None, true) <==> report.total < 0
    ensures Says(issues, R5_NEGATIVE_EXPLAINED, None, true) <==> report.explained < 0
    ensures Says(issues, R5_NEGATIVE_UNEXPLAINED, None, true) <==> report.unexplained < 0
    ensures Says(issues, R6_LOSS_IMBALANCE, None, true) <==>
            !(-2 <= report.total - report.explained - report.unexplained <= 2)
    ensures Says(issues, R15_UNKNOWN_EXPLAINS_LOSS, None, true) <==>
            report.explained > 0 && report.explained > ExplainableIn(report, ctx)
  {
  }

  /** There are no other issues. */
  lemma NoOtherIssues(version: string, report: Report, ctx: Context, issues: seq<ValidationIssue>, x: ValidationIssue)
    requires x in issues && forall y :: y in issues <==> Raised(version, report, ctx, y)
    ensures match x.claim
            case Some(i) =>
              && i < |report.causes|
              && x.code in {R3_NO_EVIDENCE, R4_BAD_LABEL, R5_NEGATIVE_RC_LOSS, R7_RC_EXCEEDS_TOTAL,
                            R8_EVIDENCE_LABEL_MISMATCH, R10_HIGH_CONF_NO_EV, R10_HIGH_CONF_NORMAL, R11_BENEFIT_ONLY,
                            R13_DUPLICATE_CODES, R14_UNSUPPORTED_STATUS}
              && x.retryable == (x.code != R11_BENEFIT_ONLY
                                 && !(x.code == R3_NO_EVIDENCE && report.status == NeedsData))
            case None =>
              && x.code in {R1_INCIDENT_MISMATCH, R1_RUN_MISMATCH, R2_BAD_EVIDENCE_REF, R5_NEGATIVE_TOTAL,
                            R5_NEGATIVE_EXPLAINED, R5_NEGATIVE_UNEXPLAINED, R6_LOSS_IMBALANCE, R9_NEEDS_DATA_EMPTY,
                            R12_SCHEMA_VERSION, R15_UNKNOWN_EXPLAINS_LOSS}
              && x.retryable == (x.code != R12_SCHEMA_VERSION)
  {
  }

  // ----- Support, spelled out ------------------------------------------------------------------------------

  /** How many of the merely observational evidence types there are. */
  function Observations(types: set<EvidenceType>): nat {
    (if BENEFIT_GAP_FRICTION in types then 1 else 0) + (if CONFIG_CHANGE in types then 1 else 0)
    + (if CANCEL_REORDER_FLOW in types then 1 else 0)
  }

  lemma SpecificType(t: EvidenceType)
    ensures t !in NEGATIVE && t !in GENERIC <==>
              t == CHANNEL_TIMEOUT_SEEN || t == BENEFIT_GAP_FRICTION || t == CONFIG_CHANGE || t == CANCEL_REORDER_FLOW
    ensures t in NEGATIVE <==> t == DATA_GAP || t == FUNNEL_BASELINE_STABLE
    ensures t in OBSERVATIONAL <==> t == BENEFIT_GAP_FRICTION || t == CONFIG_CHANGE || t == CANCEL_REORDER_FLOW
  {
  }

  function Kept(types: set<EvidenceType>, t: EvidenceType): set<EvidenceType> {
    if t in types then {t} else {}
  }

  lemma FourKept(types: set<EvidenceType>, specific: set<EvidenceType>)
    requires specific == Kept(types, CHANNEL_TIMEOUT_SEEN) + Kept(types, BENEFIT_GAP_FRICTION)
                         + Kept(types, CONFIG_CHANGE) + Kept(types, CANCEL_REORDER_FLOW)
    ensures |specific| == Observations(types) + (if CHANNEL_TIMEOUT_SEEN in types then 1 else 0)
  {
    var a, b := Kept(types, CHANNEL_TIMEOUT_SEEN), Kept(types, BENEFIT_GAP_FRICTION);
    var c, d := Kept(types, CONFIG_CHANGE), Kept(types, CANCEL_REORDER_FLOW);
    assert |a + b| == |a| + |b|;
    assert |a + b + c| == |a + b| + |c|;
    assert |a + b + c + d| == |a + b + c| + |d|;
  }

  lemma SpecificTypes(types: set<EvidenceType>)
    ensures var specific := types - NEGATIVE - GENERIC;
            && |specific| == Observations(types) + (if CHANNEL_TIMEOUT_SEEN in types then 1 else 0)
            && (CHANNEL_TIMEOUT_SEEN !in types ==> specific <= OBSERVATIONAL)
            && (CHANNEL_TIMEOUT_SEEN in types ==> CHANNEL_TIMEOUT_SEEN in specific)
  {
    var specific := types - NEGATIVE - GENERIC;
    var kept := Kept(types, CHANNEL_TIMEOUT_SEEN) + Kept(types, BENEFIT_GAP_FRICTION) + Kept(types, CONFIG_CHANGE)
                + Kept(types, CANCEL_REORDER_FLOW);
    forall t ensures t in specific <==> t in kept {
      SpecificType(t);
    }
    assert specific == kept;
    FourKept(types, specific);
    forall t | t in specific && CHANNEL_TIMEOUT_SEEN !in types ensures t in OBSERVATIONAL {
      SpecificType(t);
    }
    SpecificType(CHANNEL_TIMEOUT_SEEN);
  }

  lemma WeighExactly(types: set<EvidenceType>)
    ensures Weigh(types - NEGATIVE - GENERIC) ==
              if CHANNEL_TIMEOUT_SEEN in types || Observations(types) >= 2 then SUPPORTED else PARTIAL
  {
    var specific := types - NEGATIVE - GENERIC;
    SpecificTypes(types);
    if CHANNEL_TIMEOUT_SEEN in types {
      SpecificType(CHANNEL_TIMEOUT_SEEN);
      WeighNeedsOneProof(specific, CHANNEL_TIMEOUT_SEEN);
    }
  }

  /** A label whose support is weighed rather than decided by one type of evidence. */
  predicate Weighed(cause: Label) {
    cause != UNKNOWN_CAUSE && cause != DATA_QUALITY_ISSUE && cause != NORMAL_PAYMENT_FAILURE
  }

  predicate OnlyGapsOrStable(types: set<EvidenceType>) {
    forall t :: t in types ==> t == DATA_GAP || t == FUNNEL_BASELINE_STABLE
  }

  lemma NothingPositive(types: set<EvidenceType>)
    ensures types - NEGATIVE == {} <==> OnlyGapsOrStable(types)
  {
    forall t | t in types ensures t in types - NEGATIVE <==> t != DATA_GAP && t != FUNNEL_BASELINE_STABLE {
      SpecificType(t);
    }
    if types - NEGATIVE == {} {
      forall t | t in types ensures t == DATA_GAP || t == FUNNEL_BASELINE_STABLE {
        assert t !in types - NEGATIVE;
      }
    }
  }

  /** What any set of evidence types supports, for every label, and why not. */
  lemma SupportExactly(cause: Label, types: set<EvidenceType>)
    ensures cause == UNKNOWN_CAUSE ==> ClassifySupport(cause, types) == (SUPPORTED, None)
    ensures cause == DATA_QUALITY_ISSUE ==>
              ClassifySupport(cause, types) ==
                if DATA_GAP in types then (SUPPORTED, None) else (UNKNOWN, Some(MissingRequiredEvidence))
    ensures cause == NORMAL_PAYMENT_FAILURE ==>
              ClassifySupport(cause, types) ==
                if types == {} then (UNKNOWN, Some(NoValidCodes))
                else if OnlyGapsOrStable(types) then (SUPPORTED, None)
                else (UNKNOWN, Some(ContradictsPositiveEvidence))
    ensures Weighed(cause) ==>
              ClassifySupport(cause, types) ==
                if types == {} then (UNKNOWN, Some(NoValidCodes))
                else if OnlyGapsOrStable(types) then (UNKNOWN, Some(OnlyNegativeEvidence))
                else if cause == CHANNEL_TIMEOUT && CHANNEL_TIMEOUT_SEEN !in types then
                  (UNKNOWN, Some(MissingRequiredEvidence))
                else if cause == BENEFIT_SELECTION_FRICTION && BENEFIT_GAP_FRICTION !in types then
                  (UNKNOWN, Some(MissingRequiredEvidence))
                else if CHANNEL_TIMEOUT_SEEN in types || Observations(types) >= 2 then (SUPPORTED, None)
                else (PARTIAL, None)
  {
    WeighExactly(types);
    NothingPositive(types);
  }

  /** The types a claim rests on: those of the last record under each code it cites. */
  lemma TypesAreCited(items: seq<Evidence>, codes: seq<string>, t: EvidenceType)
    ensures t in TypesOf(codes, ByCode(items)) <==> exists i :: CitedAs(items, codes, i, t)
  {
    var run := ByCode(items);
    if t in TypesOf(codes, run) {
      var c :| c in codes && c in run && run[c].evidenceType == t;
      var i := LastOf(items, c);
      ByCodeIsLast(items, i);
      assert CitedAs(items, codes, i, t);
    }
    forall i | CitedAs(items, codes, i, t) ensures t in TypesOf(codes, run) {
      ByCodeIsLast(items, i);
      assert items[i].code in run;
    }
  }

  predicate CitedAs(items: seq<Evidence>, codes: seq<string>, i: int, t: EvidenceType) {
    && 0 <= i < |items| && items[i].code in codes && items[i].evidenceType == t
    && forall j :: i < j < |items| ==> items[j].code != items[i].code
  }

  lemma {:induction false} LastOf(items: seq<Evidence>, code: string) returns (i: nat)
    requires HasRecord(items, code)
    ensures i < |items| && items[i].code == code && forall j :: i < j < |items| ==> items[j].code != code
  {
    i := |items| - 1;
    if items[i].code != code {
      i := LastOf(items[..i], code);
    }
  }

  // ----- What a report without retryable issues is ---------------------------------------------------------

  /** A claim nothing can be retried about, given that all its citations resolve. */
  predicate SoundClaim(report: Report, ctx: Context, rc: RootCause) {
    && (forall c :: c in rc.codes ==> HasRecord(ctx.evidence, c))
    && (report.status == Succeeded && rc.status != UNKNOWN ==> rc.codes != [])
    && !rc.cause.OtherLabel?
    && (rc.lost.Some? ==> 0 <= rc.lost.value <= report.total)
    && (rc.codes != [] || rc.status != UNKNOWN ==> SupportOf(ctx.evidence, rc) != UNKNOWN)
    && (rc.confidence == HIGH ==> rc.cause != NORMAL_PAYMENT_FAILURE && !NothingObserved(ctx.evidence))
    && (forall j, k :: 0 <= j < k < |rc.codes| ==> rc.codes[j] != rc.codes[k])
  }

  /** A report whose identity, data requests and ledger leave nothing to retry. */
  predicate SoundLedger(report: Report, ctx: Context) {
    && report.incidentId == ctx.incidentId && report.runId == ctx.runId
    && (report.status == NeedsData ==> report.missingData != [])
    && report.total >= 0 && report.explained >= 0 && report.unexplained >= 0
    && -2 <= report.total - report.explained - report.unexplained <= 2
    && (report.explained == 0 || report.explained <= ExplainableIn(report, ctx))
  }

  predicate QuietAbout(code: IssueCode, report: Report, ctx: Context, rc: RootCause) {
    ClaimViolates(code, report, ctx, rc) ==> !Retryable(code, report.status)
  }

  lemma SoundClaimIsQuiet(report: Report, ctx: Context, rc: RootCause, code: IssueCode)
    requires SoundClaim(report, ctx, rc)
    ensures QuietAbout(code, report, ctx, rc)
  {
    CodesAndTypes(ctx.evidence, rc);
    if rc.codes != [] {
      assert HasRecord(ctx.evidence, rc.codes[0]);
    }
  }

  lemma QuietOnMismatch(report: Report, ctx: Context, rc: RootCause)
    requires forall c :: c in rc.codes ==> HasRecord(ctx.evidence, c)
    requires QuietAbout(R8_EVIDENCE_LABEL_MISMATCH, report, ctx, rc)
    ensures rc.codes != [] ==> SupportOf(ctx.evidence, rc) != UNKNOWN
  {
    CodesAndTypes(ctx.evidence, rc);
    if rc.codes != [] {
      assert HasRecord(ctx.evidence, rc.codes[0]);
      assert CitesRecord(ctx.evidence, rc);
    }
  }

  lemma QuietOnStatus(report: Report, ctx: Context, rc: RootCause)
    requires QuietAbout(R14_UNSUPPORTED_STATUS, report, ctx, rc)
    ensures rc.status != UNKNOWN ==> SupportOf(ctx.evidence, rc) != UNKNOWN
  {
  }

  lemma QuietOnCitations(report: Report, ctx: Context, rc: RootCause)
    requires QuietAbout(R3_NO_EVIDENCE, report, ctx, rc)
    ensures report.status == Succeeded && rc.status != UNKNOWN ==> rc.codes != []
  {
  }

  lemma QuietOnConfidence(report: Report, ctx: Context, rc: RootCause)
    requires QuietAbout(R10_HIGH_CONF_NO_EV, report, ctx, rc) && QuietAbout(R10_HIGH_CONF_NORMAL, report, ctx, rc)
    ensures rc.confidence == HIGH ==> rc.cause != NORMAL_PAYMENT_FAILURE && !NothingObserved(ctx.evidence)
  {
    assert OnlyNegative(ctx.evidence) <==> NothingObserved(ctx.evidence);
  }

  lemma QuietOnLabel(report: Report, ctx: Context, rc: RootCause)
    requires QuietAbout(R4_BAD_LABEL, report, ctx, rc) && QuietAbout(R5_NEGATIVE_RC_LOSS, report, ctx, rc)
    requires QuietAbout(R7_RC_EXCEEDS_TOTAL, report, ctx, rc)
    ensures !rc.cause.OtherLabel? && (rc.lost.Some? ==> 0 <= rc.lost.value <= report.total)
  {
  }

  lemma QuietOnRepeats(report: Report, ctx: Context, rc: RootCause)
    requires QuietAbout(R13_DUPLICATE_CODES, report, ctx, rc)
    ensures forall j, k :: 0 <= j < k < |rc.codes| ==> rc.codes[j] != rc.codes[k]
  {
  }

  predicate QuietOverall(code: IssueCode, version: string, report: Report, ctx: Context) {
    ReportViolates(code, version, report, ctx) ==> !Retryable(code, report.status)
  }

  lemma QuietReport(version: string, report: Report, ctx: Context)
    ensures (forall code :: QuietOverall(code, version, report, ctx)) <==>
              SoundLedger(report, ctx) && !CitesUnrecorded(report, ctx.evidence)
  {
    ForeignCodes(report, ctx.evidence);
    if forall code :: QuietOverall(code, version, report, ctx) {
      assert QuietOverall(R1_INCIDENT_MISMATCH, version, report, ctx)
          && QuietOverall(R1_RUN_MISMATCH, version, report, ctx);
      assert QuietOverall(R2_BAD_EVIDENCE_REF, version, report, ctx)
          && QuietOverall(R9_NEEDS_DATA_EMPTY, version, report, ctx);
      assert QuietOverall(R5_NEGATIVE_TOTAL, version, report, ctx)
          && QuietOverall(R5_NEGATIVE_EXPLAINED, version, report, ctx);
      assert QuietOverall(R5_NEGATIVE_UNEXPLAINED, version, report, ctx)
          && QuietOverall(R6_LOSS_IMBALANCE, version, report, ctx);
      assert QuietOverall(R15_UNKNOWN_EXPLAINS_LOSS, version, report, ctx);
    }
  }
}
