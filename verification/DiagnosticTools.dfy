/** The six diagnosis tools: what each reads from the analytics source and which evidence it drafts. */
module DiagnosticTools {
  import opened Domain
  import opened Tooling
  import opened Investigation
  import FunnelLoss

  // ----- The analytics source ------------------------------------------------------------------------

  /** Confirmed and completed intents of one dimension value, in both periods. */
  datatype Row = Row(baseConfirmed: nat, incConfirmed: nat, baseCompleted: nat, incCompleted: nat)

  datatype PaymentEvents = PaymentEvents(timeouts: nat, timeoutCodes: nat, otherCodes: nat)

  /** Both periods' stage counts under a filter, the rows of a breakdown, and the scalar readings. */
  datatype Source = Source(
    counts: Option<Json> -> (FunnelLoss.StageCounts, FunnelLoss.StageCounts),
    rows: (string, int) -> seq<Row>,
    gapShift: real,
    events: int -> PaymentEvents,
    cancelRateDelta: real,
    relevantChanges: Option<Json> -> nat)

  const DEGRADATION_THRESHOLD: real := 0.05
  const GAP_SHIFT_THRESHOLD: real := 100.0

  // ----- The funnel tool -------------------------------------------------------------------------------

  function DegradationDraft(stage: FunnelStage, lost: int): EvidenceDraft {
    EvidenceDraft(FUNNEL_STAGE_DEGRADATION, Some(Stage(stage)), Some(lost))
  }

  /** One degradation per anomalous stage, with the loss charged to the transition into it. */
  function Degradations(charge: FunnelStage -> int, stages: seq<FunnelStage>): (drafts: seq<EvidenceDraft>)
    ensures |drafts| == |stages|
    ensures forall i :: 0 <= i < |stages| ==> drafts[i] == DegradationDraft(stages[i], charge(stages[i]))
  {
    seq(|stages|, i requires 0 <= i < |stages| => DegradationDraft(stages[i], charge(stages[i])))
  }

  function ChargeInto(base: FunnelLoss.StageCounts, inc: FunnelLoss.StageCounts): FunnelStage -> int {
    (stage: FunnelStage) => FunnelLoss.Charged(base, inc, Index(stage))
  }

  const STABLE := EvidenceDraft(FUNNEL_BASELINE_STABLE, None, None)

  /** When nothing is anomalous, that is evidence too. */
  function FunnelDrafts(base: FunnelLoss.StageCounts, inc: FunnelLoss.StageCounts): seq<EvidenceDraft> {
    var stages := FunnelLoss.AnomalousAmong(base, inc, STAGES);
    if stages == [] then [STABLE] else Degradations(ChargeInto(base, inc), stages)
  }

  method FirstDelta(deltas: seq<FunnelLoss.StageDelta>, stage: FunnelStage)
      returns (delta: Option<FunnelLoss.StageDelta>)
    ensures delta.None? ==> forall d :: d in deltas ==> d.stage != stage
    ensures delta.Some? ==> delta.value.stage == stage && delta.value in deltas
  {
    for i := 0 to |deltas|
      invariant forall j :: 0 <= j < i ==> deltas[j].stage != stage
    {
      if deltas[i].stage == stage {
        return Some(deltas[i]);
      }
    }
    delta := None;
  }

  /** The degradations of the anomalous stages, read off the first delta of each. */
  method DraftDegradations(stages: seq<FunnelStage>, deltas: seq<FunnelLoss.StageDelta>,
                           ghost charge: FunnelStage -> int)
    returns (drafts: seq<EvidenceDraft>)
    requires forall d :: d in deltas ==> d.estimatedLost == charge(d.stage)
    requires forall s :: s in stages ==> exists d :: d in deltas && d.stage == s
    ensures drafts == Degradations(charge, stages)
  {
    drafts := [];
    for i := 0 to |stages|
      invariant drafts == Degradations(charge, stages[..i])
    {
      assert stages[i] in stages;
      var delta := FirstDelta(deltas, stages[i]);
      drafts := drafts + [DegradationDraft(stages[i], delta.value.estimatedLost)];
    }
    assert stages[..|stages|] == stages;
  }

  method RunFunnelTool(base: FunnelLoss.StageCounts, inc: FunnelLoss.StageCounts) returns (drafts: seq<EvidenceDraft>)
    ensures drafts == FunnelDrafts(base, inc)
  {
    var res := FunnelLoss.GetFunnel(base, inc);
    ghost var charge := ChargeInto(base, inc);
    forall d | d in res.deltas ensures d.estimatedLost == charge(d.stage) {
      DeltaOfStage(res, base, inc, d);
    }
    forall s | s in res.anomalousStages ensures exists d :: d in res.deltas && d.stage == s {
      assert res.deltas[Index(s)].stage == s;
    }
    drafts := DraftDegradations(res.anomalousStages, res.deltas, charge);
    if res.anomalousStages == [] {
      drafts := drafts + [STABLE];
    }
  }

  /** The deltas carry one entry per stage, so any with a stage's name is that stage's. */
  lemma DeltaOfStage(res: FunnelLoss.FunnelResult, base: FunnelLoss.StageCounts, inc: FunnelLoss.StageCounts,
                     delta: FunnelLoss.StageDelta)
    requires FunnelLoss.Compares(res, base, inc) && delta in res.deltas
    ensures delta.estimatedLost == ChargeInto(base, inc)(delta.stage)
  {
    var k :| 0 <= k < |res.deltas| && res.deltas[k] == delta;
    StageAtHasIndex(k);
  }

  /** Loss of the drafts of one type. */
  function DraftLoss(drafts: seq<EvidenceDraft>, t: EvidenceType): int {
    if drafts == [] then 0
    else
      (if drafts[0].evidenceType == t && drafts[0].lost.Some? then drafts[0].lost.value else 0)
      + DraftLoss(drafts[1..], t)
  }

  lemma {:induction false} DraftLossAppend(drafts: seq<EvidenceDraft>, d: EvidenceDraft, t: EvidenceType)
    ensures DraftLoss(drafts + [d], t) ==
            DraftLoss(drafts, t) + (if d.evidenceType == t && d.lost.Some? then d.lost.value else 0)
  {
    if drafts == [] {
      assert drafts + [d] == [d];
    } else {
      assert (drafts + [d])[1..] == drafts[1..] + [d];
      DraftLossAppend(drafts[1..], d, t);
    }
  }

  lemma DegradationsStep(charge: FunnelStage -> int, before: seq<FunnelStage>, stage: FunnelStage)
    ensures DraftLoss(Degradations(charge, before + [stage]), FUNNEL_STAGE_DEGRADATION)
         == DraftLoss(Degradations(charge, before), FUNNEL_STAGE_DEGRADATION) + charge(stage)
  {
    assert Degradations(charge, before + [stage]) == Degradations(charge, before)
        + [DegradationDraft(stage, charge(stage))];
    DraftLossAppend(Degradations(charge, before), DegradationDraft(stage, charge(stage)), FUNNEL_STAGE_DEGRADATION);
  }

  /** Charges of the transitions into the first `n` stages. */
  function ChargesUpTo(charge: FunnelStage -> int, n: nat): int
    requires n <= STAGES
  {
    if n == 0 then 0 else ChargesUpTo(charge, n - 1) + charge(FUNNEL_STAGE_ORDER[n - 1])
  }

  lemma {:induction false} ChargesAreTotal(base: FunnelLoss.StageCounts, inc: FunnelLoss.StageCounts, n: nat)
    requires n <= STAGES
    ensures ChargesUpTo(ChargeInto(base, inc), n) == FunnelLoss.ChargedBetween(base, inc, 0, n)
  {
    if n > 0 {
      ChargesAreTotal(base, inc, n - 1);
      StageAtHasIndex(n - 1);
    }
  }

  lemma UnchargedUnlessAnomalous(base: FunnelLoss.StageCounts, inc: FunnelLoss.StageCounts, k: nat)
    requires k < STAGES && !FunnelLoss.Anomalous(base, inc, k)
    ensures ChargeInto(base, inc)(FUNNEL_STAGE_ORDER[k]) == 0
  {
    StageAtHasIndex(k);
  }

  /** Drafting stage by stage, and skipping only stages that are charged nothing, drafts every charge. */
  lemma {:induction false} DegradationsCarryCharges(charge: FunnelStage -> int, among: nat -> seq<FunnelStage>, n: nat)
    requires n <= STAGES && among(0) == []
    requires forall k: nat :: k < STAGES ==>
               among(k + 1) == among(k) + [FUNNEL_STAGE_ORDER[k]]
               || (among(k + 1) == among(k) && charge(FUNNEL_STAGE_ORDER[k]) == 0)
    ensures DraftLoss(Degradations(charge, among(n)), FUNNEL_STAGE_DEGRADATION) == ChargesUpTo(charge, n)
  {
    if n > 0 {
      var k := n - 1;
      DegradationsCarryCharges(charge, among, k);
      if among(k + 1) == among(k) + [FUNNEL_STAGE_ORDER[k]] {
        DegradationsStep(charge, among(k), FUNNEL_STAGE_ORDER[k]);
      }
    }
  }

  lemma AnomalousStep(base: FunnelLoss.StageCounts, inc: FunnelLoss.StageCounts, k: nat)
    requires k < STAGES
    ensures FunnelLoss.AnomalousAmong(base, inc, k + 1) == FunnelLoss.AnomalousAmong(base, inc, k)
              + [FUNNEL_STAGE_ORDER[k]]
         || (FunnelLoss.AnomalousAmong(base, inc, k + 1) == FunnelLoss.AnomalousAmong(base, inc, k)
             && ChargeInto(base, inc)(FUNNEL_STAGE_ORDER[k]) == 0)
  {
    if !FunnelLoss.Anomalous(base, inc, k) {
      UnchargedUnlessAnomalous(base, inc, k);
    }
  }

  lemma AnomalousStagesCarryTotal(base: FunnelLoss.StageCounts, inc: FunnelLoss.StageCounts)
    ensures DraftLoss(Degradations(ChargeInto(base, inc), FunnelLoss.AnomalousAmong(base, inc, STAGES)),
                      FUNNEL_STAGE_DEGRADATION)
         == FunnelLoss.TotalCharged(base, inc)
  {
    var among := (k: nat) => if k <= STAGES then FunnelLoss.AnomalousAmong(base, inc, k) else [];
    forall k: nat | k < STAGES
      ensures among(k + 1) == among(k) + [FUNNEL_STAGE_ORDER[k]]
              || (among(k + 1) == among(k) && ChargeInto(base, inc)(FUNNEL_STAGE_ORDER[k]) == 0)
    {
      AnomalousStep(base, inc, k);
    }
    DegradationsCarryCharges(ChargeInto(base, inc), among, STAGES);
    ChargesAreTotal(base, inc, STAGES);
  }

  lemma NoDegradationsNoLoss(charge: FunnelStage -> int)
    ensures DraftLoss(Degradations(charge, []), FUNNEL_STAGE_DEGRADATION) == 0
    ensures DraftLoss([STABLE], FUNNEL_STAGE_DEGRADATION) == 0
  {
    assert Degradations(charge, []) == [] && [STABLE][1..] == [];
  }

  /** The tool's degradation evidence carries exactly the loss the comparison charged, transition by
      transition: a stage that is not anomalous is charged nothing. */
  lemma FunnelDraftsCarryTotal(base: FunnelLoss.StageCounts, inc: FunnelLoss.StageCounts)
    ensures DraftLoss(FunnelDrafts(base, inc), FUNNEL_STAGE_DEGRADATION) == FunnelLoss.TotalCharged(base, inc)
    ensures 1 <= |FunnelDrafts(base, inc)| <= STAGES
  {
    AnomalousStagesCarryTotal(base, inc);
    NoDegradationsNoLoss(ChargeInto(base, inc));
  }

  // ----- The other tools ---------------------------------------------------------------------------------

  function RowRate(completed: nat, confirmed: nat): real {
    if confirmed != 0 then completed as real / confirmed as real else 0.0
  }

  function RowLost(row: Row): nat {
    FunnelLoss.RowLoss(row.baseConfirmed, row.incConfirmed, row.baseCompleted, row.incCompleted)
  }

  /** A dimension value that lost both rate and intents. */
  predicate Contributes(row: Row) {
    RowRate(row.incCompleted, row.incConfirmed) - RowRate(row.baseCompleted, row.baseConfirmed) < -DEGRADATION_THRESHOLD
    && RowLost(row) > 0
  }

  function BreakdownDrafts(rows: seq<Row>): seq<EvidenceDraft> {
    if rows == [] then []
    else
      var init, last := rows[..|rows| - 1], rows[|rows| - 1];
      BreakdownDrafts(init)
          + (if Contributes(last) then [EvidenceDraft(DIMENSION_CONTRIBUTION, None, Some(RowLost(last)))] else [])
  }

  method RunBreakdownTool(rows: seq<Row>) returns (drafts: seq<EvidenceDraft>)
    ensures drafts == BreakdownDrafts(rows)
  {
    drafts := [];
    for i := 0 to |rows|
      invariant drafts == BreakdownDrafts(rows[..i])
    {
      assert rows[..i + 1][..i] == rows[..i];
      if Contributes(rows[i]) {
        drafts := drafts + [EvidenceDraft(DIMENSION_CONTRIBUTION, None, Some(RowLost(rows[i])))];
      }
    }
    assert rows[..|rows|] == rows;
  }

  function BenefitDrafts(gapShift: real): seq<EvidenceDraft> {
    if gapShift > GAP_SHIFT_THRESHOLD then [EvidenceDraft(BENEFIT_GAP_FRICTION, None, None)] else []
  }

  /** Timeouts count only together with a timeout code; other codes are reported whether or not there are. */
  function InspectDrafts(e: PaymentEvents): seq<EvidenceDraft> {
    (if e.timeouts > 0 && e.timeoutCodes > 0 then [EvidenceDraft(CHANNEL_TIMEOUT_SEEN, None, None)] else [])
    + (if e.otherCodes > 0 then [EvidenceDraft(ERROR_CODE_CONCENTRATION, None, None)] else [])
  }

  function CancelDrafts(cancelRateDelta: real): seq<EvidenceDraft> {
    if cancelRateDelta > DEGRADATION_THRESHOLD then [EvidenceDraft(CANCEL_REORDER_FLOW, None, None)] else []
  }

  function ConfigDrafts(relevantChanges: nat): seq<EvidenceDraft> {
    seq(relevantChanges, i requires 0 <= i < relevantChanges => EvidenceDraft(CONFIG_CHANGE, None, None))
  }

  // ----- The registry of default tools -----------------------------------------------------------------------

  function TopK(args: Arguments): int {
    if TopKArg in args && args[TopKArg].JInt? then args[TopKArg].i else 10
  }

  function Given(args: Arguments, key: ArgKey): Option<Json> {
    if key in args then Some(args[key]) else None
  }

  /** The schema accepts any object as filters and any list as change types; the query behind the tool wants
      string values, and whitelisted dimensions. */
  predicate FiltersRead(filters: Option<Json>) {
    filters.Some? && filters.value.JObject? ==>
      forall k :: k in filters.value.fields ==> k in ALLOWED_DIMENSIONS && filters.value.fields[k].JString?
  }

  predicate ChangeTypesRead(types: Option<Json>) {
    types.Some? && types.value.JList? ==> forall v :: v in types.value.items ==> v.JString?
  }

  /** What a call to the default tools returns; `None` when it raises. Every tool that returns reports
      success. */
  function Answer(src: Source, call: Call): Option<ToolOutput> {
    match call.tool
    case GetPaymentFunnel =>
      if FiltersRead(Given(call.args, FiltersArg)) then
        var (base, inc) := src.counts(Given(call.args, FiltersArg));
        Some(ToolOutput(Success, FunnelDrafts(base, inc)))
      else None
    case BreakdownConversionLoss =>
      if DimensionArg in call.args && call.args[DimensionArg].JString?
         && call.args[DimensionArg].s in ALLOWED_DIMENSIONS then
        Some(ToolOutput(Success, BreakdownDrafts(src.rows(call.args[DimensionArg].s, TopK(call.args)))))
      else None
    case AnalyzeBenefitGap => Some(ToolOutput(Success, BenefitDrafts(src.gapShift)))
    case InspectPaymentEvents => Some(ToolOutput(Success, InspectDrafts(src.events(TopK(call.args)))))
    case TraceCancelAndReorder => Some(ToolOutput(Success, CancelDrafts(src.cancelRateDelta)))
    case GetConfigChanges =>
      if ChangeTypesRead(Given(call.args, ChangeTypesArg)) then
        Some(ToolOutput(Success, ConfigDrafts(src.relevantChanges(Given(call.args, ChangeTypesArg)))))
      else None
    case UnregisteredTool(_) => None
  }

  /** The evidence types a tool can draft. */
  function Emits(tool: ToolName): set<EvidenceType> {
    match tool
    case GetPaymentFunnel => {FUNNEL_STAGE_DEGRADATION, FUNNEL_BASELINE_STABLE}
    case BreakdownConversionLoss => {DIMENSION_CONTRIBUTION}
    case AnalyzeBenefitGap => {BENEFIT_GAP_FRICTION}
    case InspectPaymentEvents => {CHANNEL_TIMEOUT_SEEN, ERROR_CODE_CONCENTRATION}
    case TraceCancelAndReorder => {CANCEL_REORDER_FLOW}
    case GetConfigChanges => {CONFIG_CHANGE}
    case UnregisteredTool(_) => {}
  }

  lemma {:induction false} BreakdownDraftsAreContributions(rows: seq<Row>)
    ensures forall d :: d in BreakdownDrafts(rows) ==>
              d.evidenceType == DIMENSION_CONTRIBUTION && d.stage.None? && d.lost.Some? && d.lost.value > 0
  {
    if rows != [] {
      BreakdownDraftsAreContributions(rows[..|rows| - 1]);
    }
  }

  /** What a tool may draft: its own types of evidence, no negative loss, a stage only with a degradation. */
  predicate Drafted(tool: ToolName, d: EvidenceDraft) {
    && d.evidenceType in Emits(tool)
    && (d.lost.Some? ==> d.lost.value >= 0)
    && (d.stage.Some? <==> d.evidenceType == FUNNEL_STAGE_DEGRADATION)
  }

  lemma FunnelDraftsAreTyped(base: FunnelLoss.StageCounts, inc: FunnelLoss.StageCounts)
    ensures forall d :: d in FunnelDrafts(base, inc) ==> Drafted(GetPaymentFunnel, d)
  {
    var stages := FunnelLoss.AnomalousAmong(base, inc, STAGES);
    var drafts := Degradations(ChargeInto(base, inc), stages);
    forall i | 0 <= i < |drafts| ensures Drafted(GetPaymentFunnel, drafts[i]) {
      assert drafts[i] == DegradationDraft(stages[i], ChargeInto(base, inc)(stages[i]));
    }
  }

  /** Whatever is called, a tool that returns succeeds, and drafts only what it may. */
  lemma AnswerIsTyped(src: Source, call: Call)
    requires Answer(src, call).Some?
    ensures Answer(src, call).value.status == Success
    ensures forall d :: d in Answer(src, call).value.evidence ==> Drafted(call.tool, d)
  {
    if call.tool == GetPaymentFunnel {
      var counts := src.counts(Given(call.args, FiltersArg));
      FunnelDraftsAreTyped(counts.0, counts.1);
    } else if call.tool == BreakdownConversionLoss {
      BreakdownDraftsAreContributions(src.rows(call.args[DimensionArg].s, TopK(call.args)));
    }
  }

  /** A call that fits its schema raises exactly when the query cannot read its filters or change types;
      otherwise it succeeds, and drafts only what its tool may. */
  lemma AdmittedCallReturnsIff(src: Source, call: Call)
    requires ValidateArguments(call.tool, call.args) == None
    ensures Answer(src, call).Some? <==>
              FiltersRead(Given(call.args, FiltersArg)) && ChangeTypesRead(Given(call.args, ChangeTypesArg))
    ensures Answer(src, call).Some? ==> Answer(src, call).value.status == Success
    ensures Answer(src, call).Some? ==> forall d :: d in Answer(src, call).value.evidence ==> Drafted(call.tool, d)
  {
    if Answer(src, call).Some? {
      AnswerIsTyped(src, call);
    }
    if call.tool == BreakdownConversionLoss {
      assert Fits(Properties(call.tool)[DimensionArg], call.args[DimensionArg]);
    }
  }

  // ----- What triage localises ---------------------------------------------------------------------------

  /** The stages a first, unfiltered funnel call reports. */
  function TriageStages(src: Source): seq<StageName> {
    StagesIn(FunnelDrafts(src.counts(None).0, src.counts(None).1))
  }

  lemma {:induction false} StagesOfDegradations(charge: FunnelStage -> int, stages: seq<FunnelStage>, name: StageName)
    ensures name in StagesIn(Degradations(charge, stages)) <==> name.Stage? && name.stage in stages
  {
    if stages != [] {
      StagesOfDegradations(charge, stages[1..], name);
      assert Degradations(charge, stages)[1..] == Degradations(charge, stages[1..]);
      assert stages == [stages[0]] + stages[1..];
    }
  }

  /** Triage names exactly the stages at which the share of passing intents moved by more than a twentieth, up or
      down. */
  lemma TriageLocalisesAnomalies(src: Source, name: StageName)
    ensures name in TriageStages(src) <==>
              name.Stage? && FunnelLoss.Shifted(src.counts(None).0, src.counts(None).1, Index(name.stage))
  {
    var (base, inc) := src.counts(None);
    var stages := FunnelLoss.AnomalousAmong(base, inc, STAGES);
    FunnelLoss.StagesByCounts(base, inc);
    StagesOfDegradations(ChargeInto(base, inc), stages, name);
    assert StagesIn([STABLE]) == [] by { assert [STABLE][1..] == []; }
  }

  // ----- What each tool drafts, in terms of what it read --------------------------------------------------

  /** What the funnel tool drafts: for each stage that shifted, a degradation with the loss its counts give; a
      stability record exactly when no stage shifted; and nothing else. */
  lemma FunnelDraftsByCounts(base: FunnelLoss.StageCounts, inc: FunnelLoss.StageCounts, d: EvidenceDraft)
    ensures d in FunnelDrafts(base, inc) <==>
            if forall s: FunnelStage :: !FunnelLoss.Shifted(base, inc, Index(s))
            then d == EvidenceDraft(FUNNEL_BASELINE_STABLE, None, None)
            else exists s: FunnelStage :: FunnelLoss.Shifted(base, inc, Index(s)) && StageDraft(base, inc, s, d)
  {
    var stages := FunnelLoss.AnomalousAmong(base, inc, STAGES);
    FunnelLoss.StagesByCounts(base, inc);
    DegradationsByCounts(base, inc, stages, d);
    if stages != [] {
      assert FunnelLoss.Shifted(base, inc, Index(stages[0]));
    }
  }

  lemma DegradationsByCounts(base: FunnelLoss.StageCounts, inc: FunnelLoss.StageCounts, stages: seq<FunnelStage>,
                             d: EvidenceDraft)
    ensures d in Degradations(ChargeInto(base, inc), stages) <==>
            exists s: FunnelStage :: s in stages && StageDraft(base, inc, s, d)
  {
    var drafts := Degradations(ChargeInto(base, inc), stages);
    if d in drafts {
      var i :| 0 <= i < |drafts| && drafts[i] == d;
      StageDraftOf(base, inc, stages[i]);
      assert stages[i] in stages && StageDraft(base, inc, stages[i], d);
    }
    if exists s: FunnelStage :: s in stages && StageDraft(base, inc, s, d) {
      var s: FunnelStage :| s in stages && StageDraft(base, inc, s, d);
      var i :| 0 <= i < |stages| && stages[i] == s;
      StageDraftOf(base, inc, s);
      SameStageDraft(base, inc, s, d, drafts[i]);
    }
  }

  /** The degradation draft of a stage, from the counts. */
  ghost predicate StageDraft(base: FunnelLoss.StageCounts, inc: FunnelLoss.StageCounts, s: FunnelStage,
                             d: EvidenceDraft) {
    && d.evidenceType == FUNNEL_STAGE_DEGRADATION && d.stage == Some(Stage(s))
    && d.lost.Some? && FunnelLoss.LossByCounts(d.lost.value, base, inc, Index(s))
  }

  lemma StageDraftOf(base: FunnelLoss.StageCounts, inc: FunnelLoss.StageCounts, s: FunnelStage)
    ensures StageDraft(base, inc, s, DegradationDraft(s, ChargeInto(base, inc)(s)))
  {
    FunnelLoss.ChargedByCounts(base, inc, Index(s));
  }

  lemma SameStageDraft(base: FunnelLoss.StageCounts, inc: FunnelLoss.StageCounts, s: FunnelStage, d: EvidenceDraft,
                       e: EvidenceDraft)
    requires StageDraft(base, inc, s, d) && StageDraft(base, inc, s, e)
    ensures d == e
  {
    FunnelLoss.LossIsUnique(d.lost.value, e.lost.value, base, inc, Index(s));
  }

  /** The completed share of a dimension value fell by more than a twentieth. */
  predicate Worse(row: Row) {
    && row.baseConfirmed > 0 && row.incConfirmed > 0
    && 20 * RowExcess(row) > row.baseConfirmed * row.incConfirmed
  }

  function RowExcess(row: Row): int {
    row.baseCompleted * row.incConfirmed - row.incCompleted * row.baseConfirmed
  }

  /** What a row adds to a breakdown: one contribution with its rounded loss, if it got worse and that loss is
      positive. */
  ghost predicate RowDrafts(row: Row, drafts: seq<EvidenceDraft>) {
    || (drafts == [] && !(Worse(row) && !FunnelLoss.IsQuotient(0, RowExcess(row), row.baseConfirmed)))
    || (|drafts| == 1 && Worse(row) && drafts[0].evidenceType == DIMENSION_CONTRIBUTION && drafts[0].stage == None
        && drafts[0].lost.Some? && drafts[0].lost.value > 0
        && FunnelLoss.IsQuotient(drafts[0].lost.value, RowExcess(row), row.baseConfirmed))
  }

  /** A breakdown reports its rows one by one, in order. */
  lemma BreakdownRowByRow(rows: seq<Row>, row: Row) returns (added: seq<EvidenceDraft>)
    ensures BreakdownDrafts([]) == [] && BreakdownDrafts(rows + [row]) == BreakdownDrafts(rows) + added
    ensures RowDrafts(row, added)
  {
    assert (rows + [row])[..|rows|] == rows;
    added := if Contributes(row) then [EvidenceDraft(DIMENSION_CONTRIBUTION, None, Some(RowLost(row)))] else [];
    RowByCounts(row);
  }

  lemma RowByCounts(row: Row)
    ensures Contributes(row) <==> Worse(row) && RowLost(row) > 0
    ensures Worse(row) ==> FunnelLoss.IsQuotient(RowLost(row), RowExcess(row), row.baseConfirmed)
  {
    var p, q, b, i := row.baseConfirmed, row.incConfirmed, row.baseCompleted, row.incCompleted;
    FunnelLoss.RowLossByCounts(p, q, b, i);
    if p > 0 && q > 0 {
      FunnelLoss.RatesMoved(p, q, b, i, b as real / p as real, i as real / q as real);
    }
  }

  /** The tools that report a reading as it is: the benefit gap above a hundred minor units, timeouts together with
      a timeout code, other error codes, a cancel rate up by more than a twentieth, and each relevant change. */
  lemma PlainReadings(src: Source, call: Call)
    requires Answer(src, call).Some?
    ensures var drafts := Answer(src, call).value.evidence;
            && (call.tool == AnalyzeBenefitGap ==>
                  drafts == if src.gapShift > 100.0 then [EvidenceDraft(BENEFIT_GAP_FRICTION, None, None)] else [])
            && (call.tool == TraceCancelAndReorder ==>
                  drafts == if src.cancelRateDelta > 0.05 then [EvidenceDraft(CANCEL_REORDER_FLOW, None, None)] else [])
    ensures call.tool == InspectPaymentEvents ==>
              var drafts := Answer(src, call).value.evidence;
              exists topK :: ReadWith(call.args, TopKArg, topK, 10) &&
                var e := src.events(topK);
                && (EvidenceDraft(CHANNEL_TIMEOUT_SEEN, None, None) in drafts <==> e.timeouts > 0 && e.timeoutCodes > 0)
                && (EvidenceDraft(ERROR_CODE_CONCENTRATION, None, None) in drafts <==> e.otherCodes > 0)
                && |drafts| == (if e.timeouts > 0 && e.timeoutCodes > 0 then 1 else 0)
                    + (if e.otherCodes > 0 then 1 else 0)
    ensures call.tool == GetConfigChanges ==>
              var drafts := Answer(src, call).value.evidence;
              var types := if ChangeTypesArg in call.args then Some(call.args[ChangeTypesArg]) else None;
              |drafts| == src.relevantChanges(types)
              && forall d :: d in drafts ==> d == EvidenceDraft(CONFIG_CHANGE, None, None)
  {
    if call.tool == InspectPaymentEvents {
      assert ReadWith(call.args, TopKArg, TopK(call.args), 10);
    }
  }

  /** The integer argument under a key, or its default. */
  predicate ReadWith(args: Arguments, key: ArgKey, value: int, default_: int) {
    if key in args && args[key].JInt? then value == args[key].i else value == default_
  }
}
