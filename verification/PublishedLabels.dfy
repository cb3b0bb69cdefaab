/** What is published about a cause with a probe, in both modes: a property of the dataset, its gaps and the
    order of the calls. */
module PublishedLabels {
  import opened Domain
  import opened EvidenceContract
  import opened Publication
  import opened RuleAdapter
  import opened Tooling
  import opened ContextSelection
  import opened Investigation
  import opened DiagnosticTools
  import opened HypothesisLedger
  import opened Governance
  import opened ScriptedPolicy
  import opened LossTotals
  import opened Agreement
  import opened Trimming
  import opened EndToEnd
  import opened ProbeReach
  import opened FixedPipeline

  // ----- The scripted investigation --------------------------------------------------------------------------

  /** The proof of a probe is in the context of a complete dataset exactly when some localised family looks for
      it, the dataset shows the fault, and fewer than twenty records are drafted before the probe. */
  lemma ScriptedProofKept(inc: Incident, src: Source, p: Probe)
    requires Scripted(inc) && Reads(inc, src) && IsProbe(p) && inc.maxCalls >= 8 && inc.missingData == []
    requires Run(inc).Done?
    ensures Has(Selected(Run(inc).result.evidence, MAX_EVIDENCE_ITEMS), p.proof) <==>
            Looks(TriageStages(src), p) && ShowsFault(src, p)
            && DraftsAhead(src, [], p.tool) < MAX_EVIDENCE_ITEMS
  {
    var n := ProbeCalledIff(inc, src, p);
    if Called(RunHead(inc, n).results, p.tool) {
      HeadProofKept(inc, src, p, n);
    } else {
      UncalledProofMissing(inc, src, p, n);
    }
  }

  lemma UncalledProofMissing(inc: Incident, src: Source, p: Probe, n: nat)
    requires Reads(inc, src) && IsProbe(p) && Opening(inc).Ran? && !Called(RunHead(inc, n).results, p.tool)
    ensures !Has(Selected(LedgerOf(inc.prefix, RunHead(inc, n).results), MAX_EVIDENCE_ITEMS), p.proof)
  {
    var results := RunHead(inc, n).results;
    DefaultResults(inc, src, n);
    FoundOnlyByProbe(p, results);
    LedgerHasWhatWasFound(inc.prefix, results, p.proof);
    LedgerIsCodedInOrder(inc.prefix, results);
    ContextGetsFirstTwenty(inc.prefix, LedgerOf(inc.prefix, results));
  }

  /** A report that asks for data labels nothing. */
  lemma NeedsDataUnlabelled(version: string, ctx: Context, cause: Label)
    requires ctx.missingData != []
    ensures Contracted(RuleReport(version, ctx), ctx).causes == []
    ensures !Labelled(Contracted(RuleReport(version, ctx), ctx), cause)
  {
  }

  /** Whether a dataset gets a label published by a scripted investigation. */
  predicate Publishable(src: Source, missingData: seq<string>, p: Probe) {
    && missingData == [] && Looks(TriageStages(src), p) && ShowsFault(src, p)
    && DraftsAhead(src, missingData, p.tool) < MAX_EVIDENCE_ITEMS
  }

  /** What the published report says about a cause with a probe: its label is there exactly when no data is
      missing, triage localised a family that looks for it, the dataset shows the fault, and fewer than twenty
      records are drafted before the probe. */
  lemma ReportFollowsData(inc: Incident, src: Source, p: Probe, version: string, ctx: Context)
    requires Scripted(inc) && Reads(inc, src) && IsProbe(p) && inc.maxCalls >= 8 && Run(inc).Done?
    requires BuiltFrom(ctx, Run(inc).result.evidence, inc.missingData)
    ensures var r := Contracted(RuleReport(version, ctx), ctx);
            && (Labelled(r, p.cause) <==> Publishable(src, inc.missingData, p))
            && (forall rc :: rc in r.causes && rc.cause == p.cause ==> FromSupport(rc.status) == p.verdict)
  {
    if inc.missingData == [] {
      ScriptedProofKept(inc, src, p);
      SelectionIsPartOfRun(inc, ctx);
      ReportFollowsProof(p, version, ctx);
    } else {
      NeedsDataUnlabelled(version, ctx, p.cause);
    }
  }

  /** Ledger and report agree on a hypothesis with a probe exactly when the dataset does not show the fault, or
      no data is missing and fewer than twenty records are drafted before the probe. Otherwise the hypothesis is
      returned SUPPORTED or PARTIAL and the published report is silent about it. */
  lemma LedgerAndReportAgreeIff(inc: Incident, src: Source, p: Probe, h: Hypothesis, version: string, ctx: Context)
    requires Scripted(inc) && Reads(inc, src) && IsProbe(p) && inc.maxCalls >= 8 && Run(inc).Done?
    requires h in Run(inc).result.hypotheses && h.cause == p.cause
    requires BuiltFrom(ctx, Run(inc).result.evidence, inc.missingData)
    ensures Agrees(h, Contracted(RuleReport(version, ctx), ctx)) <==>
            (ShowsFault(src, p) ==>
               inc.missingData == [] && DraftsAhead(src, inc.missingData, p.tool) < MAX_EVIDENCE_ITEMS)
  {
    RaisedFollowsData(inc, src, p);
    StatusFollowsData(inc, src, p, h);
    ReportFollowsData(inc, src, p, version, ctx);
  }

  // ----- Both modes say the same -----------------------------------------------------------------------------------

  /** The place of a probe among the calls the fixed workflow always makes. */
  function ProbeIndex(p: Probe): nat {
    if p == TIMEOUT_PROBE then 2 else 1
  }

  lemma WorkflowProbesAt(stages: seq<StageName>, dims: seq<string>, p: Probe)
    requires IsProbe(p)
    ensures ProbedAt(p, CallsFor(stages, dims), ProbeIndex(p))
  {
  }

  lemma TriageDraftsFew(src: Source)
    ensures DraftsOf(src, TRIAGE) <= STAGES
  {
    FunnelDraftsCarryTotal(src.counts(None).0, src.counts(None).1);
    TriageAnswer(src);
  }

  lemma BenefitDraftsFew(src: Source)
    ensures DraftsOf(src, Call(AnalyzeBenefitGap, map[])) <= 1
  {
  }

  /** At most the funnel's records and one more come before a probe of the workflow. */
  lemma WorkflowDraftsAhead(src: Source, stages: seq<StageName>, dims: seq<string>, p: Probe)
    requires IsProbe(p)
    ensures DraftCount(src, CallsFor(stages, dims)[..ProbeIndex(p)]) < MAX_EVIDENCE_ITEMS
  {
    var calls := CallsFor(stages, dims);
    TriageDraftsFew(src);
    BenefitDraftsFew(src);
    assert calls[..1] == [] + [TRIAGE] && calls[..2] == [TRIAGE] + [Call(AnalyzeBenefitGap, map[])];
    DraftCountAppend(src, [], TRIAGE);
    DraftCountAppend(src, [TRIAGE], Call(AnalyzeBenefitGap, map[]));
  }

  lemma MadeAreAnswered(src: Source, calls: seq<Call>, results: seq<ToolResult>)
    requires Made(DefaultTools(src), calls) == Some(results)
    ensures AnswersAll(src, calls, results)
  {
    forall i | 0 <= i < |results| ensures AnswersCall(src, calls[i], results[i]) {
      MadeResults(DefaultTools(src), calls, i);
    }
  }

  lemma WorkflowProofKept(src: Source, prefix: string, stages: seq<StageName>, dims: seq<string>, p: Probe,
                          results: seq<ToolResult>)
    requires IsProbe(p) && Made(DefaultTools(src), CallsFor(stages, dims)) == Some(results)
    ensures Has(Selected(LedgerOf(prefix, results), MAX_EVIDENCE_ITEMS), p.proof) <==> ShowsFault(src, p)
  {
    var calls := CallsFor(stages, dims);
    MadeAreAnswered(src, calls, results);
    WorkflowProbesAt(stages, dims, p);
    WorkflowDraftsAhead(src, stages, dims, p);
    ProofKeptIff(src, prefix, p, calls, results, ProbeIndex(p));
  }

  /** In mode B0 the label is published exactly when no data is missing and the dataset shows the fault, whether
      or not triage localised anything and however long the ledger is: the probes come first. */
  lemma WorkflowReportFollowsData(src: Source, prefix: string, dims: seq<string>, missingData: seq<string>, p: Probe,
                                  version: string, ctx: Context)
    requires IsProbe(p) && Workflow(prefix, DefaultTools(src), dims).Gathered?
    requires BuiltFrom(ctx, Workflow(prefix, DefaultTools(src), dims).evidence, missingData)
    ensures Labelled(Contracted(RuleReport(version, ctx), ctx), p.cause) <==> missingData == [] && ShowsFault(src, p)
  {
    var r := Workflow(prefix, DefaultTools(src), dims);
    if missingData == [] {
      WorkflowEvidenceIsConserved(prefix, DefaultTools(src), dims);
      LedgerIsCodedInOrder(prefix, r.results);
      ContextGetsFirstTwenty(prefix, r.evidence);
      WorkflowProofKept(src, prefix, r.stages, dims, p, r.results);
      ReportFollowsProof(p, version, ctx);
    } else {
      NeedsDataUnlabelled(version, ctx, p.cause);
    }
  }

  /** The two modes always publish the same total; and they disagree on a label exactly when the data is complete,
      the dataset shows the fault, and the investigation either never looks for it or drafts twenty records or
      more before it does. */
  lemma ModesAgreeIff(inc: Incident, src: Source, dims: seq<string>, p: Probe, version: string, b0: Context,
                      b2: Context)
    requires Scripted(inc) && Reads(inc, src) && inc.maxCalls >= 8 && Run(inc).Done? && IsProbe(p)
    requires Workflow(inc.prefix, DefaultTools(src), dims).Gathered?
    requires BuiltFrom(b0, Workflow(inc.prefix, DefaultTools(src), dims).evidence, inc.missingData)
    requires BuiltFrom(b2, Run(inc).result.evidence, inc.missingData)
    ensures Contracted(RuleReport(version, b0), b0).total == Contracted(RuleReport(version, b2), b2).total
    ensures var b0Label := Labelled(Contracted(RuleReport(version, b0), b0), p.cause);
            var b2Label := Labelled(Contracted(RuleReport(version, b2), b2), p.cause);
            b0Label == b2Label <==>
              (inc.missingData == [] && ShowsFault(src, p) ==>
                 Looks(TriageStages(src), p) && DraftsAhead(src, inc.missingData, p.tool) < MAX_EVIDENCE_ITEMS)
  {
    ScriptedTotalsAgree(inc, src, b2, version);
    WorkflowTotalsAgree(src, inc.prefix, dims, inc.missingData, b0, version);
    WorkflowReportFollowsData(src, inc.prefix, dims, inc.missingData, p, version, b0);
    ReportFollowsData(inc, src, p, version, b2);
  }
}
