/** One loss figure from the funnel comparison to the published report: through the tool's drafts, the
    ledger, the selection of a context and the rule adapter. */
module LossTotals {
  import opened Domain
  import opened EvidenceContract
  import opened Publication
  import opened RuleAdapter
  import opened Tooling
  import opened ContextSelection
  import opened Investigation
  import opened DiagnosticTools
  import opened Routing
  import opened Governance
  import opened ScriptedPolicy
  import FunnelLoss

  // ----- From drafts to the ledger -------------------------------------------------------------------

  lemma {:induction false} CodedLoss(prefix: string, n: nat, drafts: seq<EvidenceDraft>, tool: ToolName,
                                     callId: string, t: EvidenceType)
    ensures LossOfType(Coded(prefix, n, drafts, tool, callId), t) == DraftLoss(drafts, t)
    decreases |drafts|
  {
    if drafts != [] {
      CodedLoss(prefix, n + 1, drafts[1..], tool, callId, t);
      assert Coded(prefix, n, drafts, tool, callId)[1..] == Coded(prefix, n + 1, drafts[1..], tool, callId);
    }
  }

  lemma {:induction false} NoneOfType(items: seq<Evidence>, t: EvidenceType)
    requires forall e :: e in items ==> e.evidenceType != t
    ensures LossOfType(items, t) == 0
  {
    if items != [] {
      assert items[0] in items;
      assert forall e :: e in items[1..] ==> e in items;
      NoneOfType(items[1..], t);
    }
  }

  /** Only the first call drafted degradations. */
  ghost predicate OnlyFirstDegrades(results: seq<ToolResult>) {
    forall i :: 1 <= i < |results| ==>
      forall d :: d in results[i].evidence ==> d.evidenceType != FUNNEL_STAGE_DEGRADATION
  }

  ghost predicate Tail(items: seq<Evidence>, m: nat) {
    m <= |items| && forall k :: m <= k < |items| ==> items[k].evidenceType != FUNNEL_STAGE_DEGRADATION
  }

  lemma {:induction false} FirstCallLeads(prefix: string, results: seq<ToolResult>)
    requires results != [] && OnlyFirstDegrades(results)
    ensures var m, ledger := |results[0].evidence|, LedgerOf(prefix, results);
            && Tail(ledger, m)
            && ledger[..m] == Coded(prefix, 0, results[0].evidence, results[0].tool, results[0].callId)
  {
    var init, last := results[..|results| - 1], results[|results| - 1];
    var before := LedgerOf(prefix, init);
    if init != [] {
      FirstCallLeads(prefix, init);
      var m, added := |results[0].evidence|, Coded(prefix, |before|, last.evidence, last.tool, last.callId);
      assert forall k :: 0 <= k < |added| ==> last.evidence[k] in last.evidence;
      assert LedgerOf(prefix, results) == before + added;
      assert LedgerOf(prefix, results)[..m] == before[..m];
    } else {
      assert before == [];
      assert LedgerOf(prefix, results) == Coded(prefix, 0, last.evidence, last.tool, last.callId);
    }
  }

  /** Any cut of the ledger that keeps the first call's records keeps all the degradation loss. */
  lemma CutKeepsLoss(prefix: string, results: seq<ToolResult>, k: nat)
    requires results != [] && OnlyFirstDegrades(results)
    requires |results[0].evidence| <= k <= |LedgerOf(prefix, results)|
    ensures LossOfType(LedgerOf(prefix, results)[..k], FUNNEL_STAGE_DEGRADATION)
         == DraftLoss(results[0].evidence, FUNNEL_STAGE_DEGRADATION)
  {
    var m, ledger := |results[0].evidence|, LedgerOf(prefix, results);
    FirstCallLeads(prefix, results);
    assert ledger[..k] == ledger[..m] + ledger[m..k];
    LossOfTypeConcat(ledger[..m], ledger[m..k], FUNNEL_STAGE_DEGRADATION);
    NoneOfType(ledger[m..k], FUNNEL_STAGE_DEGRADATION);
    CodedLoss(prefix, 0, results[0].evidence, results[0].tool, results[0].callId, FUNNEL_STAGE_DEGRADATION);
  }

  // ----- From the ledger to the report -------------------------------------------------------------------

  /** The context of a run: the selected evidence of its ledger. */
  ghost predicate BuiltFrom(ctx: Context, evidence: seq<Evidence>, missingData: seq<string>) {
    ctx.evidence == Selected(evidence, MAX_EVIDENCE_ITEMS) && ctx.missingData == missingData
  }

  /** All the places that state the run's loss state the same one. */
  ghost predicate TotalsAgree(base: FunnelLoss.StageCounts, inc: FunnelLoss.StageCounts, evidence: seq<Evidence>,
                              ctx: Context, version: string) {
    var total := FunnelLoss.TotalCharged(base, inc);
    && LossOfType(evidence, FUNNEL_STAGE_DEGRADATION) == total
    && LossOfType(ctx.evidence, FUNNEL_STAGE_DEGRADATION) == total
    && RuleReport(version, ctx).total == total
    && Contracted(RuleReport(version, ctx), ctx).total == total
  }

  /** Whatever else was called: if only the first call reads the funnel, its loss is the report's total, even
      when the ledger is longer than a context. */
  lemma TotalsFollowFirstCall(base: FunnelLoss.StageCounts, inc: FunnelLoss.StageCounts, prefix: string,
                              results: seq<ToolResult>, missingData: seq<string>, ctx: Context, version: string)
    requires results != [] && OnlyFirstDegrades(results) && results[0].evidence == FunnelDrafts(base, inc)
    requires BuiltFrom(ctx, LedgerOf(prefix, results), missingData)
    ensures TotalsAgree(base, inc, LedgerOf(prefix, results), ctx, version)
  {
    var ledger := LedgerOf(prefix, results);
    var k := Least(MAX_EVIDENCE_ITEMS, |ledger|);
    FunnelDraftsCarryTotal(base, inc);
    LedgerIsCodedInOrder(prefix, results);
    ContextGetsFirstTwenty(prefix, ledger);
    FirstCallLeads(prefix, results);
    CutKeepsLoss(prefix, results, k);
    CutKeepsLoss(prefix, results, |ledger|);
    assert ledger[..|ledger|] == ledger;
  }

  /** And while no step gains intents, a report's total never exceeds the intents confirmed but not completed. */
  lemma ReportNeverOverstates(base: FunnelLoss.StageCounts, inc: FunnelLoss.StageCounts, evidence: seq<Evidence>,
                              ctx: Context, version: string)
    requires TotalsAgree(base, inc, evidence, ctx, version)
    requires FunnelLoss.NeverGains(base) && FunnelLoss.Nested(inc)
    ensures var p := Contracted(RuleReport(version, ctx), ctx);
            p.total <= FunnelLoss.Unfinished(inc)
  {
    FunnelLoss.NoIntentChargedTwice(base, inc);
  }

  // ----- The scripted investigation --------------------------------------------------------------------------

  /** An incident investigated with the default tools over an analytics source. */
  ghost predicate Reads(inc: Incident, src: Source) {
    forall n, call :: inc.tools(n, call) == Answer(src, call)
  }

  /** Every result so far holds only drafts its tool may make, and the funnel was read first. */
  ghost predicate Typed(s: State, triage: ToolResult) {
    && s.results != [] && s.results[0] == triage
    && (forall r :: r in s.results ==> DraftedBy(r))
  }

  predicate DraftedBy(r: ToolResult) {
    r.status == Success && forall d :: d in r.evidence ==> Drafted(r.tool, d)
  }

  lemma TurnStaysTyped(inc: Incident, src: Source, bundle: Bundle, stages: seq<StageName>, s: State, triage: ToolResult)
    requires Reads(inc, src) && Typed(s, triage)
    ensures Typed(Turn(inc, bundle, stages, s), triage)
  {
    var a := Investigation.Decision(inc, bundle, stages, s);
    if a.CallTool? && LoopVerdict(inc, bundle, s, Call(a.tool, WithDataset(a.args, inc.dataset)),
                                  a.hypothesis) == None {
      AdmittedTurn(inc, bundle, stages, s, a);
      AdmittedCall(inc, bundle, s, a);
      assert Strip(WithDataset(a.args, inc.dataset)) == Strip(a.args);
      AdmittedCallReturnsIff(src, Call(a.tool, Strip(a.args)));
    }
  }

  lemma HeadsStayTyped(inc: Incident, src: Source, bundle: Bundle, stages: seq<StageName>, s: State,
                       triage: ToolResult, n: nat)
    requires Reads(inc, src) && Typed(s, triage)
    ensures Typed(Head(inc, bundle, stages, s, n), triage)
  {
    var typed := x => Typed(x, triage);
    forall x | typed(x) ensures typed(Advance(inc, bundle, stages, x)) {
      TurnStaysTyped(inc, src, bundle, stages, x, triage);
    }
    InvariantOfIteration(x => Advance(inc, bundle, stages, x), typed, s, n);
  }

  /** What every head of a run with the default tools has recorded. */
  lemma DefaultResults(inc: Incident, src: Source, n: nat)
    requires Reads(inc, src) && Opening(inc).Ran?
    ensures var counts := src.counts(None);
            && Typed(RunHead(inc, n), Opening(inc).first.results[0])
            && Opening(inc).first.results[0].evidence == FunnelDrafts(counts.0, counts.1)
  {
    var o := Opening(inc);
    AdmittedCallReturnsIff(src, TRIAGE);
    assert inc.tools(0, TRIAGE) == Answer(src, TRIAGE);
    HeadsStayTyped(inc, src, o.bundle, o.stages, o.first, o.first.results[0], n);
  }

  lemma OnlyTriageReadsFunnel(c: Call)
    requires c in REPERTOIRE
    ensures c.tool == GetPaymentFunnel <==> c == TRIAGE
  {
  }

  /** No call after triage reads the funnel again. */
  lemma FunnelReadOnce(inc: Incident, bundle: Bundle, s: State, triage: ToolResult)
    requires Recorded(inc, s) && InBounds(bundle, s.signatures) && Unrefused(inc, s) && Typed(s, triage)
    ensures OnlyFirstDegrades(s.results)
  {
    forall i | 1 <= i < |s.results| ensures s.results[i].tool != GetPaymentFunnel {
      assert s.signatures[i] in s.signatures;
      assert s.signatures[0] != s.signatures[i];
      OnlyTriageReadsFunnel(s.signatures[i]);
    }
    forall i, d | 1 <= i < |s.results| && d in s.results[i].evidence
      ensures d.evidenceType != FUNNEL_STAGE_DEGRADATION
    {
      assert s.results[i] in s.results && Drafted(s.results[i].tool, d);
    }
  }

  /** Totals agree end to end in a scripted investigation, whatever its budget: what the comparison charged,
      what the evidence carries, what the context keeps and what the report states. */
  lemma ScriptedTotalsAgree(inc: Incident, src: Source, ctx: Context, version: string)
    requires Scripted(inc) && Reads(inc, src) && Run(inc).Done?
    requires BuiltFrom(ctx, Run(inc).result.evidence, inc.missingData)
    ensures TotalsAgree(src.counts(None).0, src.counts(None).1, Run(inc).result.evidence, ctx, version)
  {
    var n := RunEnds(inc);
    var o, s, counts := Opening(inc), RunHead(inc, n), src.counts(None);
    EveryHeadIsGoverned(inc, n);
    DefaultResults(inc, src, n);
    if inc.maxCalls >= 2 {
      OpeningIsQuiet(inc);
      HeadsStayQuiet(inc, o.bundle, o.stages, o.first.ledger, o.first, n);
      FunnelReadOnce(inc, o.bundle, s, o.first.results[0]);
    }
    TotalsFollowFirstCall(counts.0, counts.1, inc.prefix, s.results, inc.missingData, ctx, version);
  }
}
