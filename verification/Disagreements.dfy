/** Two datasets: one on which investigation and report disagree, because the breakdowns fill the context before
    the timeout probe is called, and one on which the two modes disagree, because the investigation never looks. */
module Disagreements {
  import opened Domain
  import opened EvidenceContract
  import opened Publication
  import opened RuleAdapter
  import opened Tooling
  import opened ContextSelection
  import opened Investigation
  import opened DiagnosticTools
  import opened Routing
  import opened HypothesisLedger
  import opened ScriptedPolicy
  import opened LossTotals
  import opened Agreement
  import opened Trimming
  import opened Agenda
  import opened EndToEnd
  import opened ProbeReach
  import opened PublishedLabels
  import opened FixedPipeline
  import FunnelLoss

  // ----- A friction and channel incident -------------------------------------------------------------------

  const FRICTION_THEN_TIMEOUT: seq<ToolName> := [
    AnalyzeBenefitGap, TraceCancelAndReorder, BreakdownConversionLoss, GetPaymentFunnel, InspectPaymentEvents,
    GetConfigChanges]

  /** With friction and channel stages localised, and no authentication or callback stage, both breakdowns come
      before the timeout probe. */
  lemma FrictionBeforeTimeout(stages: seq<StageName>)
    requires Indicated(stages, DECISION_FRICTION) && Indicated(stages, CHANNEL_TIMEOUT_SIGNAL)
    requires !Indicated(stages, AUTH_FAILURE) && !Indicated(stages, CALLBACK_ANOMALY)
    ensures Route(stages, []).preferred == FRICTION_THEN_TIMEOUT
  {
    assert SignalsUpTo(stages, [], 0) == [] && SignalsUpTo(stages, [], 1) == [] && SignalsUpTo(stages, [], 2) == [];
    assert SignalsUpTo(stages, [], 3) == [DECISION_FRICTION];
    assert Signals(stages, []) == [DECISION_FRICTION, CHANNEL_TIMEOUT_SIGNAL];
    TwoSignalTools();
  }

  lemma TwoSignalTools()
    ensures ToolsFor([DECISION_FRICTION, CHANNEL_TIMEOUT_SIGNAL]) == FRICTION_THEN_TIMEOUT
  {
    FrictionTools();
    ToolsForAppend([DECISION_FRICTION], CHANNEL_TIMEOUT_SIGNAL);
    ChannelToolsAdded();
    assert [DECISION_FRICTION] + [CHANNEL_TIMEOUT_SIGNAL] == [DECISION_FRICTION, CHANNEL_TIMEOUT_SIGNAL];
  }

  lemma ChannelToolsAdded()
    ensures AddTools(FRICTION_THEN_TIMEOUT[..4], Capabilities(CHANNEL_TIMEOUT_SIGNAL)) == FRICTION_THEN_TIMEOUT
  {
    AddFour(FRICTION_THEN_TIMEOUT[..4], InspectPaymentEvents, BreakdownConversionLoss, GetPaymentFunnel,
            GetConfigChanges);
    AddedOneByOne(FRICTION_THEN_TIMEOUT[..4]);
  }

  lemma AddedOneByOne(first: seq<ToolName>)
    requires first == FRICTION_THEN_TIMEOUT[..4]
    ensures AddTool(AddTool(AddTool(AddTool(first, InspectPaymentEvents), BreakdownConversionLoss), GetPaymentFunnel),
                    GetConfigChanges) == FRICTION_THEN_TIMEOUT
  {
    assert first[2] == BreakdownConversionLoss && first[3] == GetPaymentFunnel;
    var second := first + [InspectPaymentEvents];
    assert AddTool(first, InspectPaymentEvents) == second;
    assert second[2] == BreakdownConversionLoss && second[3] == GetPaymentFunnel;
    assert AddTool(second, BreakdownConversionLoss) == second && AddTool(second, GetPaymentFunnel) == second;
  }

  lemma FrictionTools()
    ensures ToolsFor([DECISION_FRICTION]) == FRICTION_THEN_TIMEOUT[..4]
  {
    ToolsForAppend([], DECISION_FRICTION);
    AddFour([], AnalyzeBenefitGap, TraceCancelAndReorder, BreakdownConversionLoss, GetPaymentFunnel);
    assert [] + [DECISION_FRICTION] == [DECISION_FRICTION] && ToolsFor([]) == [];
  }

  function AddTool(list: seq<ToolName>, tool: ToolName): seq<ToolName> {
    if tool in list then list else list + [tool]
  }

  lemma AddOne(list: seq<ToolName>, tool: ToolName, rest: seq<ToolName>)
    ensures AddTools(list, [tool] + rest) == AddTools(AddTool(list, tool), rest)
  {
    assert ([tool] + rest)[1..] == rest;
  }

  lemma AddFour(list: seq<ToolName>, a: ToolName, b: ToolName, c: ToolName, d: ToolName)
    ensures AddTools(list, [a, b, c, d]) == AddTool(AddTool(AddTool(AddTool(list, a), b), c), d)
  {
    assert [a, b, c, d] == [a] + ([b] + ([c] + ([d] + [])));
    AddOne(list, a, [b] + ([c] + ([d] + [])));
    AddOne(AddTool(list, a), b, [c] + ([d] + []));
    AddOne(AddTool(AddTool(list, a), b), c, [d] + []);
    AddOne(AddTool(AddTool(AddTool(list, a), b), c), d, []);
  }

  /** The agenda of that bundle. */
  lemma FrictionAgenda()
    ensures CallsOfAll(FRICTION_THEN_TIMEOUT) == AHEAD_OF_TIMEOUT + [Call(InspectPaymentEvents, map[])]
              + [Call(GetConfigChanges, map[])]
  {
    var t0, t1, t2 := [], [AnalyzeBenefitGap], [AnalyzeBenefitGap, TraceCancelAndReorder];
    var t3 := t2 + [BreakdownConversionLoss];
    var t4 := t3 + [GetPaymentFunnel];
    var t5 := t4 + [InspectPaymentEvents];
    CallsOfAppend(t0, AnalyzeBenefitGap);
    CallsOfAppend(t1, TraceCancelAndReorder);
    CallsOfAppend(t2, BreakdownConversionLoss);
    CallsOfAppend(t3, GetPaymentFunnel);
    CallsOfAppend(t4, InspectPaymentEvents);
    CallsOfAppend(t5, GetConfigChanges);
    assert t0 + [AnalyzeBenefitGap] == t1 && t1 + [TraceCancelAndReorder] == t2;
    assert t5 + [GetConfigChanges] == FRICTION_THEN_TIMEOUT;
    assert CallsOfAll(t0) == [];
  }

  const AHEAD_OF_TIMEOUT: seq<Call> := [
    Call(AnalyzeBenefitGap, map[]), Call(TraceCancelAndReorder, map[]),
    BreakdownBy(BREAKDOWN_DIMENSIONS[0]), BreakdownBy(BREAKDOWN_DIMENSIONS[1])]

  lemma AheadOfTimeout(bundle: Bundle)
    requires bundle.preferred == FRICTION_THEN_TIMEOUT
    ensures Ahead(AgendaOf(bundle), InspectPaymentEvents) == [TRIAGE] + AHEAD_OF_TIMEOUT
  {
    var agenda := AgendaOf(bundle);
    FrictionAgenda();
    assert agenda[..5] == [TRIAGE] + AHEAD_OF_TIMEOUT;
    assert agenda[5] == Call(InspectPaymentEvents, map[]);
    forall i | 0 <= i < 5 ensures agenda[i].tool != InspectPaymentEvents {
      assert agenda[i] == ([TRIAGE] + AHEAD_OF_TIMEOUT)[i];
    }
    AheadIs(agenda, InspectPaymentEvents, 5);
  }

  lemma CountAhead(src: Source)
    ensures DraftCount(src, [TRIAGE] + AHEAD_OF_TIMEOUT) >=
            DraftsOf(src, BreakdownBy("payment_channel")) + DraftsOf(src, BreakdownBy("payment_method"))
  {
    var c3 := [TRIAGE, AHEAD_OF_TIMEOUT[0], AHEAD_OF_TIMEOUT[1]];
    assert [TRIAGE] + AHEAD_OF_TIMEOUT == (c3 + [AHEAD_OF_TIMEOUT[2]]) + [AHEAD_OF_TIMEOUT[3]];
    DraftCountAppend(src, c3, AHEAD_OF_TIMEOUT[2]);
    DraftCountAppend(src, c3 + [AHEAD_OF_TIMEOUT[2]], AHEAD_OF_TIMEOUT[3]);
  }

  /** On such an incident the breakdowns alone can fill the context before the timeout probe is called. */
  lemma BreakdownsCrowdOut(src: Source)
    requires Indicated(TriageStages(src), DECISION_FRICTION) && Indicated(TriageStages(src), CHANNEL_TIMEOUT_SIGNAL)
    requires !Indicated(TriageStages(src), AUTH_FAILURE) && !Indicated(TriageStages(src), CALLBACK_ANOMALY)
    requires DraftsOf(src, BreakdownBy("payment_channel"))
               + DraftsOf(src, BreakdownBy("payment_method")) >= MAX_EVIDENCE_ITEMS
    ensures DraftsAhead(src, [], InspectPaymentEvents) >= MAX_EVIDENCE_ITEMS
  {
    FrictionBeforeTimeout(TriageStages(src));
    AheadOfTimeout(Route(TriageStages(src), []));
    CountAhead(src);
  }

  // ----- The dataset -----------------------------------------------------------------------------------------

  /** A hundred intents per period: half of them leave at the choice of a payment method, and half of the rest
      at the channel, over ten payment channels and ten payment methods. */
  const TRIMMED: Source := Source(
    _ => (EVERYONE, HALVED_TWICE), (_, _) => TEN_ROWS, 1200.0, _ => PaymentEvents(25, 1, 0), 0.0, _ => 0)

  const EVERYONE: FunnelLoss.StageCounts := map s | s in FUNNEL_STAGE_ORDER :: 100

  const HALVED_TWICE: FunnelLoss.StageCounts :=
    map s | s in FUNNEL_STAGE_ORDER :: if Index(s) < 3 then 100 else if Index(s) < 6 then 50 else 25

  const TEN_ROWS: seq<Row> := seq(10, i => if i < 5 then Row(10, 10, 10, 2) else Row(10, 10, 10, 3))

  lemma RowsContribute()
    ensures Contributes(Row(10, 10, 10, 2)) && Contributes(Row(10, 10, 10, 3))
  {
    assert FunnelLoss.ExcessDrop(10, 1.0, 0.2) == 8 && FunnelLoss.ExcessDrop(10, 1.0, 0.3) == 7;
  }

  lemma {:induction false} AllRowsDrafted(rows: seq<Row>)
    requires forall r :: r in rows ==> Contributes(r)
    ensures |BreakdownDrafts(rows)| == |rows|
  {
    if rows != [] {
      assert rows[|rows| - 1] in rows;
      AllRowsDrafted(rows[..|rows| - 1]);
    }
  }

  lemma TrimmedBreakdowns(dimension: string)
    requires dimension == "payment_channel" || dimension == "payment_method"
    ensures DraftsOf(TRIMMED, BreakdownBy(dimension)) == 10
  {
    RowsContribute();
    AllRowsDrafted(TEN_ROWS);
    assert ALLOWED_DIMENSIONS[0] == "payment_method" && ALLOWED_DIMENSIONS[1] == "payment_channel";
  }

  lemma TrimmedCounts(k: nat)
    requires k < STAGES
    ensures FunnelLoss.At(EVERYONE, FUNNEL_STAGE_ORDER[k]) == 100
    ensures FunnelLoss.At(HALVED_TWICE, FUNNEL_STAGE_ORDER[k]) == if k < 3 then 100 else if k < 6 then 50 else 25
  {
    StageAtHasIndex(k);
  }

  lemma TrimmedAnomalies(k: nat)
    requires k < STAGES
    ensures FunnelLoss.Shifted(EVERYONE, HALVED_TWICE, k) <==> k == 3 || k == 6
  {
    TrimmedCounts(k);
    if k > 0 {
      TrimmedCounts(k - 1);
    }
  }

  lemma StageNamed(s: FunnelStage)
    ensures Index(s) == 3 <==> s == PAYMENT_METHOD_SELECTED
    ensures Index(s) == 6 <==> s == CHANNEL_SUCCEEDED
  {
  }

  lemma TrimmedStages(src: Source, name: StageName)
    requires src.counts(None) == (EVERYONE, HALVED_TWICE)
    ensures name in TriageStages(src) <==> name == Stage(PAYMENT_METHOD_SELECTED) || name == Stage(CHANNEL_SUCCEEDED)
  {
    TriageLocalisesAnomalies(src, name);
    if name.Stage? {
      StageNamed(name.stage);
      TrimmedAnomalies(Index(name.stage));
    }
  }

  lemma TrimmedSignals(src: Source)
    requires src.counts(None) == (EVERYONE, HALVED_TWICE)
    ensures Indicated(TriageStages(src), DECISION_FRICTION) && Indicated(TriageStages(src), CHANNEL_TIMEOUT_SIGNAL)
    ensures !Indicated(TriageStages(src), AUTH_FAILURE) && !Indicated(TriageStages(src), CALLBACK_ANOMALY)
  {
    forall name ensures name in TriageStages(src) <==>
                          name == Stage(PAYMENT_METHOD_SELECTED) || name == Stage(CHANNEL_SUCCEEDED)
    {
      TrimmedStages(src, name);
    }
    SignalsOfTwoStages(TriageStages(src));
  }

  lemma SignalsOfTwoStages(stages: seq<StageName>)
    requires forall name :: name in stages <==>
               name == Stage(PAYMENT_METHOD_SELECTED) || name == Stage(CHANNEL_SUCCEEDED)
    ensures Indicated(stages, DECISION_FRICTION) && Indicated(stages, CHANNEL_TIMEOUT_SIGNAL)
    ensures !Indicated(stages, AUTH_FAILURE) && !Indicated(stages, CALLBACK_ANOMALY)
  {
    assert Stage(PAYMENT_METHOD_SELECTED) in stages && Stage(CHANNEL_SUCCEEDED) in stages;
  }

  lemma TrimmedIsSuch()
    ensures TRIMMED.counts(None) == (EVERYONE, HALVED_TWICE) && ShowsFault(TRIMMED, TIMEOUT_PROBE)
  {
  }

  /** On this dataset the investigation returns CHANNEL_TIMEOUT as SUPPORTED and the published report does not
      mention it. */
  lemma SupportedButUnpublished(inc: Incident, version: string, ctx: Context)
    requires Scripted(inc) && Reads(inc, TRIMMED) && inc.maxCalls >= 8 && inc.missingData == []
    ensures Run(inc).Done?
    ensures exists h :: h in Run(inc).result.hypotheses && h.cause == CHANNEL_TIMEOUT && h.status == Supported
    ensures BuiltFrom(ctx, Run(inc).result.evidence, []) ==>
              !Labelled(Contracted(RuleReport(version, ctx), ctx), CHANNEL_TIMEOUT)
  {
    TrimmedIsSuch();
    TrimmedSignals(TRIMMED);
    TrimmedBreakdowns("payment_channel");
    TrimmedBreakdowns("payment_method");
    BreakdownsCrowdOut(TRIMMED);
    VerdictFollowsData(inc, TRIMMED, TIMEOUT_PROBE);
    if BuiltFrom(ctx, Run(inc).result.evidence, []) {
      ReportFollowsData(inc, TRIMMED, TIMEOUT_PROBE, version, ctx);
    }
  }

  // ----- A fault nobody looks for ----------------------------------------------------------------------------

  /** Timeouts among a hundred intents that all complete in both periods. */
  const UNLOOKED: Source := Source(
    _ => (EVERYONE, EVERYONE), (_, _) => [], 0.0, _ => PaymentEvents(25, 1, 0), 0.0, _ => 0)

  lemma NothingMoved(k: nat)
    requires k < STAGES
    ensures !FunnelLoss.Shifted(EVERYONE, EVERYONE, k)
  {
    TrimmedCounts(k);
    if k > 0 {
      TrimmedCounts(k - 1);
    }
  }

  lemma NothingLocalised(src: Source)
    requires src.counts(None) == (EVERYONE, EVERYONE)
    ensures !Looks(TriageStages(src), TIMEOUT_PROBE)
  {
    forall name ensures name !in TriageStages(src) {
      TriageLocalisesAnomalies(src, name);
      if name.Stage? {
        NothingMoved(Index(name.stage));
      }
    }
  }

  lemma UnlookedIsSuch()
    ensures UNLOOKED.counts(None) == (EVERYONE, EVERYONE) && ShowsFault(UNLOOKED, TIMEOUT_PROBE)
  {
  }

  /** On this dataset the fixed workflow publishes CHANNEL_TIMEOUT and the scripted investigation does not. */
  lemma PublishedByOneMode(inc: Incident, dims: seq<string>, version: string, b0: Context, b2: Context)
    requires Scripted(inc) && Reads(inc, UNLOOKED) && inc.maxCalls >= 8 && inc.missingData == []
    requires Workflow(inc.prefix, DefaultTools(UNLOOKED), dims).Gathered?
    requires BuiltFrom(b0, Workflow(inc.prefix, DefaultTools(UNLOOKED), dims).evidence, [])
    ensures Run(inc).Done? && Labelled(Contracted(RuleReport(version, b0), b0), CHANNEL_TIMEOUT)
    ensures BuiltFrom(b2, Run(inc).result.evidence, []) ==>
              !Labelled(Contracted(RuleReport(version, b2), b2), CHANNEL_TIMEOUT)
  {
    UnlookedIsSuch();
    NothingLocalised(UNLOOKED);
    ScriptedRunCompletesIff(inc, UNLOOKED);
    WorkflowReportFollowsData(UNLOOKED, inc.prefix, dims, [], TIMEOUT_PROBE, version, b0);
    if BuiltFrom(b2, Run(inc).result.evidence, []) {
      ReportFollowsData(inc, UNLOOKED, TIMEOUT_PROBE, version, b2);
    }
  }
}
