/** The fixed six-tool workflow (mode B0): the same tools, call policy and ledger as the governed
    investigation, in a set order. */
module FixedPipeline {
  import opened Domain
  import opened Identifiers
  import opened EvidenceContract
  import opened Tooling
  import opened Investigation
  import opened DiagnosticTools
  import opened LossTotals
  import opened Routing

  const MAX_TOOL_CALLS: nat := 8

  const DEFAULT_DIMENSIONS: seq<string> := ["payment_channel", "payment_method"]

  type Tools = (nat, Call) -> Option<ToolOutput>

  // ----- What the workflow calls ---------------------------------------------------------------------

  /** Every tool but the breakdown, in the order they are called. */
  const ALWAYS: seq<Call> := [
    TRIAGE, Call(AnalyzeBenefitGap, map[]), Call(InspectPaymentEvents, map[]), Call(TraceCancelAndReorder, map[]),
    Call(GetConfigChanges, map[])]

  function Breakdowns(dims: seq<string>): (calls: seq<Call>)
    ensures |calls| == |dims| && forall i :: 0 <= i < |dims| ==> calls[i] == BreakdownBy(dims[i])
  {
    seq(|dims|, i requires 0 <= i < |dims| => BreakdownBy(dims[i]))
  }

  /** Drilldowns only when triage localised a stage. */
  function CallsFor(stages: seq<StageName>, dims: seq<string>): seq<Call> {
    ALWAYS + (if stages != [] then Breakdowns(dims) else [])
  }

  /** The results of a list of calls made in order under the call policy; `None` once one is refused or
      raises. */
  function Made(tools: Tools, calls: seq<Call>): (results: Option<seq<ToolResult>>)
    ensures results.Some? ==> |results.value| == |calls|
  {
    if calls == [] then Some([])
    else
      var n := |calls| - 1;
      var before := Made(tools, calls[..n]);
      if before.None? || n >= MAX_TOOL_CALLS || calls[n] in calls[..n] then None
      else
        match tools(n, calls[n])
        case None => None
        case Some(out) => Some(before.value + [ToolResult(CallId(n), calls[n].tool, out.status, out.evidence)])
  }

  predicate IsResultOf(tools: Tools, calls: seq<Call>, results: seq<ToolResult>, i: nat)
    requires i < |calls| && i < |results|
  {
    && results[i].callId == CallId(i) && results[i].tool == calls[i].tool
    && tools(i, calls[i]) == Some(ToolOutput(results[i].status, results[i].evidence))
  }

  lemma {:induction false} MadeResults(tools: Tools, calls: seq<Call>, i: nat)
    requires Made(tools, calls).Some? && i < |calls|
    ensures IsResultOf(tools, calls, Made(tools, calls).value, i)
  {
    var n := |calls| - 1;
    if i < n {
      MadeResults(tools, calls[..n], i);
      assert calls[..n][i] == calls[i];
      assert Made(tools, calls).value[i] == Made(tools, calls[..n]).value[i];
    }
  }

  function ResultAt(n: nat, c: Call, out: ToolOutput): ToolResult {
    ToolResult(CallId(n), c.tool, out.status, out.evidence)
  }

  lemma MadeAppend(tools: Tools, calls: seq<Call>, c: Call)
    ensures Made(tools, calls + [c]) ==
              if Made(tools, calls).None? || |calls| >= MAX_TOOL_CALLS || c in calls || tools(|calls|, c).None?
              then None
              else Some(Made(tools, calls).value + [ResultAt(|calls|, c, tools(|calls|, c).value)])
  {
    assert (calls + [c])[..|calls|] == calls;
  }

  ghost predicate AllAnswered(tools: Tools, calls: seq<Call>) {
    forall i :: 0 <= i < |calls| ==> tools(i, calls[i]).Some?
  }

  lemma OneMoreAnswered(tools: Tools, init: seq<Call>, c: Call)
    ensures AllAnswered(tools, init + [c]) <==> AllAnswered(tools, init) && tools(|init|, c).Some?
  {
    var calls := init + [c];
    if AllAnswered(tools, calls) {
      forall i | 0 <= i < |init| ensures tools(i, init[i]).Some? {
        assert calls[i] == init[i];
      }
      assert calls[|init|] == c;
    }
  }

  lemma OneMoreDistinct(init: seq<Call>, c: Call)
    ensures NoRepeats(init + [c]) <==> NoRepeats(init) && c !in init
  {
    NoRepeatsConcat(init, [c]);
  }

  /** A list of calls goes through exactly when the policy admits each and no tool raises. */
  lemma {:induction false} MadeIff(tools: Tools, calls: seq<Call>)
    ensures Made(tools, calls).Some? <==>
              |calls| <= MAX_TOOL_CALLS && NoRepeats(calls) && AllAnswered(tools, calls)
  {
    if calls != [] {
      var n := |calls| - 1;
      var init := calls[..n];
      MadeIff(tools, init);
      assert calls == init + [calls[n]];
      OneMoreAnswered(tools, init, calls[n]);
      OneMoreDistinct(init, calls[n]);
    }
  }

  /** Once a call is refused or raises, the rest of the workflow never happens. */
  lemma {:induction false} FailureIsFinal(tools: Tools, calls: seq<Call>, k: nat)
    requires k <= |calls|
    ensures Made(tools, calls[..k]).None? ==> Made(tools, calls).None?
  {
    if k < |calls| {
      var n := |calls| - 1;
      FailureIsFinal(tools, calls[..n], k);
      assert calls[..n][..k] == calls[..k];
    } else {
      assert calls[..k] == calls;
    }
  }

  /** The next call of a list either fails, and the list with it, or adds its result. */
  lemma NextCall(tools: Tools, calls: seq<Call>, made: seq<Call>, call: Call)
    requires made < calls && calls[|made|] == call && Made(tools, made).Some?
    ensures calls[..|made| + 1] == made + [call]
    ensures if |made| >= MAX_TOOL_CALLS || call in made || tools(|made|, call).None?
            then Made(tools, calls).None?
            else Made(tools, made + [call]) ==
                   Some(Made(tools, made).value + [ResultAt(|made|, call, tools(|made|, call).value)])
  {
    MadeAppend(tools, made, call);
    assert calls[..|made| + 1] == made + [call];
    FailureIsFinal(tools, calls, |made| + 1);
  }

  // ----- The workflow as it runs ---------------------------------------------------------------------------

  class Pipeline {
    const dataset: string
    const tools: Tools
    const policy: ToolPolicy
    const ledger: EvidenceLedger
    var results: seq<ToolResult>
    var callIdx: nat
    ghost var made: seq<Call>

    constructor (dataset: string, prefix: string, tools: Tools)
      ensures Valid() && fresh(policy) && fresh(ledger) && made == []
      ensures this.dataset == dataset && ledger.prefix == prefix && this.tools == tools
    {
      this.dataset, this.tools := dataset, tools;
      policy := new ToolPolicy(MAX_TOOL_CALLS);
      ledger := new EvidenceLedger(prefix);
      results, callIdx, made := [], 0, [];
    }

    ghost predicate Valid()
      reads this, policy, ledger
    {
      Books() && Guarded()
    }

    /** The results and the ledger are those of the calls made. */
    ghost predicate Books()
      reads this, ledger
    {
      && Made(tools, made) == Some(results) && callIdx == |made|
      && ledger.counter == |ledger.items| && ledger.items == LedgerOf(ledger.prefix, results)
    }

    /** The call policy has counted and fingerprinted them. */
    ghost predicate Guarded()
      reads this, policy
    {
      && policy.maxCalls == MAX_TOOL_CALLS && policy.callCount == |made|
      && Fingerprints(policy.seen, made, dataset)
    }

    method Record(call: Call, out: ToolOutput)
      requires Books() && Made(tools, made + [call]) == Some(results + [ResultAt(|made|, call, out)])
      modifies this`results, this`callIdx, this`made, ledger
      ensures Books() && made == old(made) + [call]
    {
      var result := ToolResult(CallId(callIdx), call.tool, out.status, out.evidence);
      LedgerOfAppend(ledger.prefix, results, result);
      var recorded := ledger.RecordResult(result);
      results := results + [result];
      callIdx := callIdx + 1;
      made := made + [call];
    }

    /** The next call of the list: policy, tool, ledger. */
    method Execute(call: Call, ghost calls: seq<Call>) returns (ok: bool)
      requires Valid() && DatasetRefArg !in call.args
      requires made < calls && calls[|made|] == call
      modifies this, policy, ledger
      ensures ok ==> Valid() && made == calls[..|old(made)| + 1]
      ensures !ok ==> Made(tools, calls).None?
    {
      NextCall(tools, calls, made, call);
      FingerprintIsNew(policy.seen, made, dataset, call);
      var admitted := policy.BeforeCall(Aimed(call, dataset));
      if !admitted {
        return false;
      }
      var answer := tools(callIdx, call);
      if answer.None? {
        return false;
      }
      Record(call, answer.value);
      ok := true;
    }

    /** The calls after triage that are always made. */
    method ExecuteAlways(ghost calls: seq<Call>) returns (ok: bool)
      requires Valid() && ALWAYS <= calls && made == calls[..1]
      modifies this, policy, ledger
      ensures ok ==> Valid() && made == calls[..5]
      ensures !ok ==> Made(tools, calls).None?
    {
      ok := Execute(Call(AnalyzeBenefitGap, map[]), calls);
      if ok {
        ok := Execute(Call(InspectPaymentEvents, map[]), calls);
      }
      if ok {
        ok := Execute(Call(TraceCancelAndReorder, map[]), calls);
      }
      if ok {
        ok := Execute(Call(GetConfigChanges, map[]), calls);
      }
    }

    method ExecuteBreakdowns(dims: seq<string>, ghost calls: seq<Call>) returns (ok: bool)
      requires Valid() && calls == ALWAYS + Breakdowns(dims) && made == calls[..5]
      modifies this, policy, ledger
      ensures ok ==> Valid() && made == calls
      ensures !ok ==> Made(tools, calls).None?
    {
      ok := true;
      for i := 0 to |dims|
        invariant ok && Valid() && made == calls[..5 + i]
      {
        ok := Execute(BreakdownBy(dims[i]), calls);
        if !ok {
          return;
        }
      }
      assert calls[..|calls|] == calls;
    }
  }

  ghost predicate Fingerprints(seen: set<Call>, made: seq<Call>, dataset: string) {
    && (forall c :: c in seen <==> exists m :: m in made && c == Aimed(m, dataset))
    && (forall m :: m in made ==> DatasetRefArg !in m.args)
  }

  lemma FingerprintIsNew(seen: set<Call>, made: seq<Call>, dataset: string, call: Call)
    requires Fingerprints(seen, made, dataset) && DatasetRefArg !in call.args
    ensures Aimed(call, dataset) in seen <==> call in made
    ensures Fingerprints(seen + {Aimed(call, dataset)}, made + [call], dataset)
  {
    if Aimed(call, dataset) in seen {
      var m :| m in made && Aimed(call, dataset) == Aimed(m, dataset);
      AimedInjective(call, m, dataset);
    }
    var seen', made' := seen + {Aimed(call, dataset)}, made + [call];
    forall c ensures c in seen' <==> exists m :: m in made' && c == Aimed(m, dataset) {
      if c in seen {
        var m :| m in made && c == Aimed(m, dataset);
        assert m in made';
      }
      if c == Aimed(call, dataset) {
        assert call in made';
      }
    }
  }

  datatype Gathering = WorkflowFailed | Gathered(results: seq<ToolResult>, evidence: seq<Evidence>,
                                                 stages: seq<StageName>)

  /** What the workflow leaves: the results of its calls and the ledger they fill. */
  function Workflow(prefix: string, tools: Tools, dims: seq<string>): Gathering {
    match tools(0, TRIAGE)
    case None => WorkflowFailed
    case Some(out) =>
      var stages := StagesIn(out.evidence);
      match Made(tools, CallsFor(stages, dims))
      case None => WorkflowFailed
      case Some(results) => Gathered(results, LedgerOf(prefix, results), stages)
  }

  method RunToolPipeline(dataset: string, prefix: string, tools: Tools, dims: seq<string>) returns (r: Gathering)
    ensures r == Workflow(prefix, tools, dims)
  {
    var p := new Pipeline(dataset, prefix, tools);
    ghost var triage := tools(0, TRIAGE);
    ghost var calls := if triage.Some? then CallsFor(StagesIn(triage.value.evidence), dims) else ALWAYS;
    var ok := p.Execute(TRIAGE, calls);
    if !ok {
      return WorkflowFailed;
    }
    MadeResults(tools, p.made, 0);
    var stages := StagesIn(p.results[0].evidence);
    ok := p.ExecuteAlways(calls);
    if ok && stages != [] {
      ok := p.ExecuteBreakdowns(dims, calls);
    }
    if !ok {
      return WorkflowFailed;
    }
    assert p.made == calls;
    r := Gathered(p.results, p.ledger.items, stages);
  }

  // ----- What it guarantees ------------------------------------------------------------------------------------

  /** The default tools over an analytics source. */
  function DefaultTools(src: Source): Tools {
    (n, call) => Answer(src, call)
  }

  /** Dimensions the workflow can break down by: whitelisted, each once, and few enough for the call policy. */
  ghost predicate DimensionsFit(dims: seq<string>) {
    |dims| <= 3 && NoRepeats(dims) && forall d :: d in dims ==> d in ALLOWED_DIMENSIONS
  }

  lemma AlwaysDistinct()
    ensures NoRepeats(ALWAYS) && forall c :: c in ALWAYS ==> c.tool != BreakdownConversionLoss
  {
  }

  lemma BreakdownsRepeatIff(dims: seq<string>)
    ensures NoRepeats(ALWAYS + Breakdowns(dims)) <==> NoRepeats(dims)
  {
    var b := Breakdowns(dims);
    AlwaysDistinct();
    NoRepeatsConcat(ALWAYS, b);
    assert forall c :: c in b ==> c.tool == BreakdownConversionLoss;
    if NoRepeats(dims) {
      forall i, j | 0 <= i < j < |b| ensures b[i] != b[j] {
        DifferentBreakdowns(dims[i], dims[j]);
      }
    }
    if NoRepeats(b) {
      forall i, j | 0 <= i < j < |dims| ensures dims[i] != dims[j] {
        assert b[i] != b[j];
      }
    }
  }

  lemma DifferentBreakdowns(d: string, e: string)
    requires d != e
    ensures BreakdownBy(d) != BreakdownBy(e)
  {
    assert BreakdownBy(d).args[DimensionArg] != BreakdownBy(e).args[DimensionArg];
  }

  lemma AlwaysAnswered(src: Source)
    ensures forall c :: c in ALWAYS ==> Answer(src, c).Some?
  {
  }

  lemma BreakdownAnswered(src: Source, d: string)
    ensures Answer(src, BreakdownBy(d)).Some? <==> d in ALLOWED_DIMENSIONS
  {
  }

  lemma BreakdownsAnsweredIff(src: Source, dims: seq<string>)
    ensures (forall c :: c in Breakdowns(dims) ==> Answer(src, c).Some?) <==>
            (forall d :: d in dims ==> d in ALLOWED_DIMENSIONS)
  {
    var b := Breakdowns(dims);
    forall i | 0 <= i < |dims| ensures Answer(src, b[i]).Some? <==> dims[i] in ALLOWED_DIMENSIONS {
      BreakdownAnswered(src, dims[i]);
    }
    if forall c :: c in b ==> Answer(src, c).Some? {
      forall i | 0 <= i < |dims| ensures dims[i] in ALLOWED_DIMENSIONS {
        assert b[i] in b;
      }
    }
  }

  /** When the default tools carry out a list of calls. */
  lemma DefaultMadeIff(src: Source, calls: seq<Call>)
    ensures Made(DefaultTools(src), calls).Some? <==>
              |calls| <= MAX_TOOL_CALLS && NoRepeats(calls) && forall c :: c in calls ==> Answer(src, c).Some?
  {
    MadeIff(DefaultTools(src), calls);
    if forall i :: 0 <= i < |calls| ==> DefaultTools(src)(i, calls[i]).Some? {
      forall c | c in calls ensures Answer(src, c).Some? {
        var i :| 0 <= i < |calls| && calls[i] == c;
        assert DefaultTools(src)(i, calls[i]).Some?;
      }
    }
  }

  lemma CallsCompleteIff(src: Source, stages: seq<StageName>, dims: seq<string>)
    ensures Made(DefaultTools(src), CallsFor(stages, dims)).Some? <==> stages == [] || DimensionsFit(dims)
  {
    DefaultMadeIff(src, CallsFor(stages, dims));
    AlwaysAnswered(src);
    AlwaysDistinct();
    if stages == [] {
      assert CallsFor(stages, dims) == ALWAYS;
    } else {
      BreakdownsAnsweredIff(src, dims);
      BreakdownsRepeatIff(dims);
      assert forall c :: c in ALWAYS + Breakdowns(dims) <==> c in ALWAYS || c in Breakdowns(dims);
    }
  }

  lemma TriageAnswer(src: Source)
    ensures Answer(src, TRIAGE) == Some(ToolOutput(Success, FunnelDrafts(src.counts(None).0, src.counts(None).1)))
  {
  }

  /** With the default tools the workflow fails exactly when triage localises a stage and the configured
      dimensions do not fit: the call policy then refuses a call, or the tool rejects a dimension. */
  lemma WorkflowCompletesIff(src: Source, prefix: string, dims: seq<string>)
    ensures Workflow(prefix, DefaultTools(src), dims).Gathered? <==> TriageStages(src) == [] || DimensionsFit(dims)
  {
    TriageAnswer(src);
    CallsCompleteIff(src, TriageStages(src), dims);
  }

  lemma DefaultDimensionsFit()
    ensures DimensionsFit(DEFAULT_DIMENSIONS)
  {
    assert DEFAULT_DIMENSIONS[0] == ALLOWED_DIMENSIONS[1] && DEFAULT_DIMENSIONS[1] == ALLOWED_DIMENSIONS[0];
    assert DEFAULT_DIMENSIONS[0][8] != DEFAULT_DIMENSIONS[1][8];
  }

  /** With the default dimensions it never fails. */
  lemma DefaultWorkflowCompletes(src: Source, prefix: string)
    ensures Workflow(prefix, DefaultTools(src), DEFAULT_DIMENSIONS).Gathered?
  {
    WorkflowCompletesIff(src, prefix, DEFAULT_DIMENSIONS);
    DefaultDimensionsFit();
  }

  /** Its evidence is each call's drafts in call order under distinct codes, for any tools. */
  lemma WorkflowEvidenceIsConserved(prefix: string, tools: Tools, dims: seq<string>)
    requires Workflow(prefix, tools, dims).Gathered?
    ensures var r := Workflow(prefix, tools, dims);
            && r.evidence == LedgerOf(prefix, r.results) && DistinctCodes(r.evidence)
            && forall i :: 0 <= i < |r.results| ==> r.results[i].callId == CallId(i)
  {
    var r := Workflow(prefix, tools, dims);
    LedgerIsCodedInOrder(prefix, r.results);
    LedgerCodesDistinct(prefix, r.evidence);
    forall i | 0 <= i < |r.results| ensures r.results[i].callId == CallId(i) {
      MadeResults(tools, CallsFor(r.stages, dims), i);
    }
  }

  /** The calls of the workflow: the funnel, the benefit gap, the payment events, the cancellations and the
      configuration changes, then a breakdown by each dimension if the funnel localised a stage. */
  lemma WorkflowCallsExactly(prefix: string, tools: Tools, dims: seq<string>, i: nat)
    requires Workflow(prefix, tools, dims).Gathered? && i < |Workflow(prefix, tools, dims).results|
    ensures var r := Workflow(prefix, tools, dims);
            && |r.results| == 5 + (if r.stages == [] then 0 else |dims|)
            && r.stages == StagesIn(r.results[0].evidence)
            && (i < 5 ==>
                  var tool := [GetPaymentFunnel, AnalyzeBenefitGap, InspectPaymentEvents, TraceCancelAndReorder,
                               GetConfigChanges][i];
                  && r.results[i].tool == tool
                  && tools(i, Call(tool, map[])) == Some(ToolOutput(r.results[i].status, r.results[i].evidence)))
            && (i >= 5 ==>
                  && r.results[i].tool == BreakdownConversionLoss
                  && tools(i, Call(BreakdownConversionLoss, map[DimensionArg := JString(dims[i - 5])])) ==
                     Some(ToolOutput(r.results[i].status, r.results[i].evidence)))
  {
    var r := Workflow(prefix, tools, dims);
    MadeResults(tools, CallsFor(r.stages, dims), i);
    MadeResults(tools, CallsFor(r.stages, dims), 0);
  }

  lemma OtherToolsNeverDegrade(src: Source, call: Call, d: EvidenceDraft)
    requires call.tool != GetPaymentFunnel && Answer(src, call).Some? && d in Answer(src, call).value.evidence
    ensures d.evidenceType != FUNNEL_STAGE_DEGRADATION
  {
    if call.tool == BreakdownConversionLoss {
      BreakdownDraftsAreContributions(src.rows(call.args[DimensionArg].s, TopK(call.args)));
    }
  }

  /** Among the calls of the workflow only the first reads the funnel. */
  lemma FunnelCalledFirst(stages: seq<StageName>, dims: seq<string>, i: nat)
    requires i < |CallsFor(stages, dims)|
    ensures CallsFor(stages, dims)[i].tool == GetPaymentFunnel <==> i == 0
    ensures CallsFor(stages, dims)[0] == TRIAGE
  {
  }

  lemma MadeReadsFunnelFirst(src: Source, stages: seq<StageName>, dims: seq<string>, results: seq<ToolResult>)
    requires Made(DefaultTools(src), CallsFor(stages, dims)) == Some(results)
    ensures results != [] && OnlyFirstDegrades(results)
    ensures results[0].evidence == FunnelDrafts(src.counts(None).0, src.counts(None).1)
  {
    var tools, calls := DefaultTools(src), CallsFor(stages, dims);
    MadeResults(tools, calls, 0);
    FunnelCalledFirst(stages, dims, 0);
    TriageAnswer(src);
    forall i, d | 1 <= i < |results| && d in results[i].evidence ensures d.evidenceType != FUNNEL_STAGE_DEGRADATION {
      MadeResults(tools, calls, i);
      FunnelCalledFirst(stages, dims, i);
      OtherToolsNeverDegrade(src, calls[i], d);
    }
  }

  /** The funnel is read once, so the report's total is the comparison's. */
  lemma WorkflowTotalsAgree(src: Source, prefix: string, dims: seq<string>, missingData: seq<string>, ctx: Context,
                            version: string)
    requires Workflow(prefix, DefaultTools(src), dims).Gathered?
    requires BuiltFrom(ctx, Workflow(prefix, DefaultTools(src), dims).evidence, missingData)
    ensures TotalsAgree(src.counts(None).0, src.counts(None).1, Workflow(prefix, DefaultTools(src), dims).evidence,
                        ctx, version)
  {
    var r, counts := Workflow(prefix, DefaultTools(src), dims), src.counts(None);
    MadeReadsFunnelFirst(src, r.stages, dims, r.results);
    TotalsFollowFirstCall(counts.0, counts.1, prefix, r.results, missingData, ctx, version);
  }
}
