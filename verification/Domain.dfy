/** The vocabulary every other module shares: funnel stages, evidence types, root-cause labels,
    tools, and the records that tools and the evidence ledger exchange. */
module Domain {

  datatype Option<+T> = None | Some(value: T)

  // ----- Funnel stages ---------------------------------------------------------------------

  datatype FunnelStage =
    | ORDER_CONFIRMED
    | CHECKOUT_ENTERED
    | PAYMENT_OPTIONS_SHOWN
    | PAYMENT_METHOD_SELECTED
    | PAYMENT_INITIATED
    | AUTHENTICATION_PASSED
    | CHANNEL_SUCCEEDED
    | PLATFORM_CONFIRMED
    | PAYMENT_COMPLETED

  const STAGES: nat := 9

  const FUNNEL_STAGE_ORDER: seq<FunnelStage> := [
    ORDER_CONFIRMED, CHECKOUT_ENTERED, PAYMENT_OPTIONS_SHOWN, PAYMENT_METHOD_SELECTED, PAYMENT_INITIATED,
    AUTHENTICATION_PASSED, CHANNEL_SUCCEEDED, PLATFORM_CONFIRMED, PAYMENT_COMPLETED]

  /** Position of a stage in the funnel. */
  function Index(stage: FunnelStage): (k: nat)
    ensures k < STAGES && FUNNEL_STAGE_ORDER[k] == stage
  {
    match stage
    case ORDER_CONFIRMED => 0
    case CHECKOUT_ENTERED => 1
    case PAYMENT_OPTIONS_SHOWN => 2
    case PAYMENT_METHOD_SELECTED => 3
    case PAYMENT_INITIATED => 4
    case AUTHENTICATION_PASSED => 5
    case CHANNEL_SUCCEEDED => 6
    case PLATFORM_CONFIRMED => 7
    case PAYMENT_COMPLETED => 8
  }

  lemma StageAtHasIndex(k: nat)
    requires k < STAGES
    ensures Index(FUNNEL_STAGE_ORDER[k]) == k
  {
  }

  /** A stage name as it appears in evidence metrics: any string may be there. */
  datatype StageName = Stage(stage: FunnelStage) | OtherStage(name: string)

  // ----- Evidence and labels -----------------------------------------------------------------

  datatype EvidenceType =
    | FUNNEL_STAGE_DEGRADATION
    | FUNNEL_BASELINE_STABLE
    | DIMENSION_CONTRIBUTION
    | BENEFIT_GAP_FRICTION
    | CHANNEL_TIMEOUT_SEEN
    | ERROR_CODE_CONCENTRATION
    | DATA_GAP
    | CANCEL_REORDER_FLOW
    | CONFIG_CHANGE

  /** Root-cause labels. A model may write anything, hence `OtherLabel`. */
  datatype Label =
    | BENEFIT_SELECTION_FRICTION
    | AUTHENTICATION_FAILURE
    | CHANNEL_TIMEOUT
    | CALLBACK_FAILURE
    | NORMAL_PAYMENT_FAILURE
    | DATA_QUALITY_ISSUE
    | UNKNOWN_CAUSE
    | OtherLabel(name: string)

  // ----- Tools ---------------------------------------------------------------------------------

  datatype ToolName =
    | GetPaymentFunnel
    | BreakdownConversionLoss
    | AnalyzeBenefitGap
    | TraceCancelAndReorder
    | InspectPaymentEvents
    | GetConfigChanges
    | UnregisteredTool(name: string)

  /** Tool arguments. Keys are the ones the schemas know, plus anything else a model may send. */
  datatype ArgKey = FiltersArg | DimensionArg | TopKArg | ChangeTypesArg | DatasetRefArg | OtherArg(name: string)

  datatype Json =
    | JString(s: string)
    | JInt(i: int)
    | JFloat(r: real)
    | JBool(b: bool)
    | JList(items: seq<Json>)
    | JObject(fields: map<string, Json>)
    | JNull

  type Arguments = map<ArgKey, Json>

  datatype ToolStatus = Success | Partial | Failed

  /** What a tool proposes; the ledger adds the code, the tool and the call. */
  datatype EvidenceDraft = EvidenceDraft(
    evidenceType: EvidenceType, stage: Option<StageName>, lost: Option<int>)

  datatype ToolResult = ToolResult(
    callId: string, tool: ToolName, status: ToolStatus, evidence: seq<EvidenceDraft>)

  datatype Evidence = Evidence(
    code: string, evidenceType: EvidenceType, stage: Option<StageName>, lost: Option<int>,
    tool: ToolName, callId: string)
  {
    /** `metrics.get("estimated_lost_intents", 0)` */
    function Loss(): int {
      if lost.Some? then lost.value else 0
    }
  }

  predicate DistinctCodes(items: seq<Evidence>) {
    forall i, j :: 0 <= i < j < |items| ==> items[i].code != items[j].code
  }

  /** Sum of the losses of the records of one type. */
  function LossOfType(items: seq<Evidence>, t: EvidenceType): int {
    if items == [] then 0
    else (if items[0].evidenceType == t then items[0].Loss() else 0) + LossOfType(items[1..], t)
  }

  lemma {:induction false} LossOfTypeConcat(a: seq<Evidence>, b: seq<Evidence>, t: EvidenceType)
    ensures LossOfType(a + b, t) == LossOfType(a, t) + LossOfType(b, t)
  {
    if a == [] {
      assert a + b == b;
    } else {
      assert (a + b)[1..] == a[1..] + b;
      LossOfTypeConcat(a[1..], b, t);
    }
  }
}
