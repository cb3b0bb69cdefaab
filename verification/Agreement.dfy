/** The investigation ledger and the published report agree: in a scripted run with the default tools, a
    hypothesis with a confirming evidence type is settled by its probe, and the report says the same. */
module Agreement {
  import opened Domain
  import opened EvidenceContract
  import opened Publication
  import opened RuleAdapter
  import opened Tooling
  import opened ContextSelection
  import opened Investigation
  import opened DiagnosticTools
  import opened Routing
  import opened HypothesisLedger
  import opened Governance
  import opened ScriptedPolicy
  import opened LossTotals

  // ----- Causes with a probe -------------------------------------------------------------------------

  /** A cause the scripted policy raises, with the signal that raises it, the tool that probes it and the
      evidence type only that tool drafts. */
  datatype Probe = Probe(cause: Label, signal: Signal, tool: ToolName, proof: EvidenceType, verdict: HypothesisStatus)

  const TIMEOUT_PROBE :=
    Probe(CHANNEL_TIMEOUT, CHANNEL_TIMEOUT_SIGNAL, InspectPaymentEvents, CHANNEL_TIMEOUT_SEEN, Supported)

  const FRICTION_PROBE :=
    Probe(BENEFIT_SELECTION_FRICTION, DECISION_FRICTION, AnalyzeBenefitGap, BENEFIT_GAP_FRICTION, PartlySupported)

  predicate IsProbe(p: Probe) {
    p == TIMEOUT_PROBE || p == FRICTION_PROBE
  }

  /** Without its proof a cause stays open, until its probe comes back empty and rules it out. */
  lemma WithoutProof(p: Probe, types: set<EvidenceType>, probed: bool)
    requires IsProbe(p) && p.proof !in types
    ensures var e := Evaluate(p.cause, types, probed);
            if probed then e.Some? && e.value.0 == Rejected else e.None?
  {
    TimeoutEvidenceDecides(types);
    FrictionEvidenceDecides(types);
  }

  /** With its proof, from a call of its own probe, it is settled. */
  lemma WithProof(p: Probe, types: set<EvidenceType>, probed: bool)
    requires IsProbe(p) && p.proof in types && types <= Emits(p.tool)
    ensures var e := Evaluate(p.cause, types, probed);
            e.Some? && e.value.0 == p.verdict
  {
    if p == TIMEOUT_PROBE {
      TimeoutEvidenceDecides(types);
    } else {
      assert types - NEGATIVE - GENERIC == {BENEFIT_GAP_FRICTION};
      FrictionEvidenceDecides(types);
    }
  }

  lemma OnlyItsProbe(p: Probe, tool: ToolName)
    requires IsProbe(p)
    ensures DesignatedProbe(tool, p.cause) <==> tool == p.tool
    ensures p.proof in Emits(tool) <==> tool == p.tool
    ensures ProbeTarget(tool) == Some(p.cause) <==> tool == p.tool
  {
  }

  // ----- What the after-hooks make of one hypothesis ---------------------------------------------------------

  /** The status of a hypothesis after a call, given what it was bound to. */
  function StatusAfter(h: Hypothesis, hypothesis: Option<nat>, result: ToolResult): HypothesisStatus {
    if hypothesis != Some(h.id) || Terminal(h.status) then h.status
    else
      var probed := result.status == Success && DesignatedProbe(result.tool, h.cause);
      match Evaluate(h.cause, Produced(result.evidence), probed)
      case None => h.status
      case Some(verdict) => verdict.0
  }

  lemma JudgedStatus(l: Ledger, hypothesis: Option<nat>, result: ToolResult, k: nat)
    requires HypothesisLedger.Valid(l) && k < |l.items|
    ensures |Judged(l, hypothesis, result).items| == |l.items|
    ensures Judged(l, hypothesis, result).items[k].status == StatusAfter(l.items[k], hypothesis, result)
  {
    if hypothesis.Some? {
      var id := hypothesis.value;
      GetById(l, id);
      if 1 <= id <= |l.items| && Open(l.items[id - 1]) {
        var h := l.items[id - 1];
        var probed := result.status == Success && DesignatedProbe(result.tool, h.cause);
        var verdict := Evaluate(h.cause, Produced(result.evidence), probed);
        if verdict.Some? {
          ResolveKeepsValid(l, id, verdict.value.0, verdict.value.1);
        }
      }
    }
  }

  lemma StatusAfterCall(inc: Incident, s: State, a: Action, result: ToolResult, k: nat)
    requires a.CallTool? && HypothesisLedger.Valid(s.ledger) && k < |s.ledger.items|
    ensures k < |LedgerAfter(inc, s, a, result).items|
    ensures LedgerAfter(inc, s, a, result).items[k].status == StatusAfter(s.ledger.items[k], a.hypothesis, result)
  {
    var recorded := Coded(inc.prefix, |s.evidence|, result.evidence, result.tool, result.callId);
    LinkedKeepsStanding(s.ledger, a.hypothesis, CodesIn(recorded));
    JudgedStatus(Linked(s.ledger, a.hypothesis, CodesIn(recorded)), a.hypothesis, result, k);
  }

  // ----- The invariant ---------------------------------------------------------------------------------------

  predicate Called(results: seq<ToolResult>, tool: ToolName) {
    exists r :: r in results && r.tool == tool
  }

  predicate Drafts(r: ToolResult, t: EvidenceType) {
    t in Produced(r.evidence)
  }

  predicate Found(results: seq<ToolResult>, t: EvidenceType) {
    exists r :: r in results && Drafts(r, t)
  }

  /** Where a hypothesis stands: open until its probe was called, then settled by what the probe found. */
  function Standing(p: Probe, results: seq<ToolResult>): Option<HypothesisStatus> {
    if !Called(results, p.tool) then None else if Found(results, p.proof) then Some(p.verdict) else Some(Rejected)
  }

  predicate StandsAs(h: Hypothesis, standing: Option<HypothesisStatus>) {
    if standing.None? then Open(h) else h.status == standing.value
  }

  ghost predicate Tracks(p: Probe, l: Ledger, results: seq<ToolResult>) {
    forall k :: 0 <= k < |l.items| && l.items[k].cause == p.cause ==> StandsAs(l.items[k], Standing(p, results))
  }

  /** A settled hypothesis was settled while its probe, bound to it, came back. */
  ghost predicate SettledByProbe(p: Probe, l: Ledger, steps: seq<StepRecord>) {
    forall k :: 0 <= k < |l.items| && l.items[k].cause == p.cause && !Open(l.items[k]) ==>
      exists step :: step in steps && Probes(step, l.items[k])
  }

  lemma CalledAppend(results: seq<ToolResult>, r: ToolResult, tool: ToolName)
    ensures Called(results + [r], tool) <==> Called(results, tool) || r.tool == tool
  {
    if Called(results, tool) {
      var x :| x in results && x.tool == tool;
      assert x in results + [r];
    }
    assert r in results + [r];
  }

  lemma FoundAppend(results: seq<ToolResult>, r: ToolResult, t: EvidenceType)
    ensures Found(results + [r], t) <==> Found(results, t) || Drafts(r, t)
  {
    if Found(results, t) {
      var x :| x in results && Drafts(x, t);
      assert x in results + [r];
    }
    assert r in results + [r];
  }

  lemma ProducedAreEmitted(r: ToolResult)
    requires DraftedBy(r)
    ensures Produced(r.evidence) <= Emits(r.tool)
  {
  }

  /** Proof is only ever found by the probe. */
  lemma FoundOnlyByProbe(p: Probe, results: seq<ToolResult>)
    requires IsProbe(p) && forall r :: r in results ==> DraftedBy(r)
    ensures Found(results, p.proof) ==> Called(results, p.tool)
  {
    if Found(results, p.proof) {
      var r :| r in results && Drafts(r, p.proof);
      ProducedAreEmitted(r);
      OnlyItsProbe(p, r.tool);
    }
  }

  /** How a call moves the standing of a cause. */
  lemma StandingAfter(p: Probe, results: seq<ToolResult>, r: ToolResult)
    requires IsProbe(p) && DraftedBy(r) && forall x :: x in results ==> DraftedBy(x)
    requires r.tool == p.tool ==> !Called(results, p.tool)
    ensures Standing(p, results + [r]) ==
              if r.tool != p.tool then Standing(p, results)
              else Some(if Drafts(r, p.proof) then p.verdict else Rejected)
  {
    CalledAppend(results, r, p.tool);
    FoundAppend(results, r, p.proof);
    FoundOnlyByProbe(p, results);
    ProducedAreEmitted(r);
    OnlyItsProbe(p, r.tool);
  }

  /** A hypothesis the policy left to another tool keeps its standing; its own probe, which the policy binds to
      it while it is open, settles it. */
  lemma HypothesisKeepsStanding(p: Probe, h: Hypothesis, bound: Option<nat>, results: seq<ToolResult>, r: ToolResult)
    requires IsProbe(p) && h.cause == p.cause && StandsAs(h, Standing(p, results))
    requires DraftedBy(r) && forall x :: x in results ==> DraftedBy(x)
    requires r.tool == p.tool ==> !Called(results, p.tool) && bound == Some(h.id)
    ensures var h' := h.(status := StatusAfter(h, bound, r));
            StandsAs(h', Standing(p, results + [r]))
  {
    StandingAfter(p, results, r);
    ProducedAreEmitted(r);
    OnlyItsProbe(p, r.tool);
    var types, probed := Produced(r.evidence), r.status == Success && DesignatedProbe(r.tool, p.cause);
    if p.proof in types {
      WithProof(p, types, probed);
    } else {
      WithoutProof(p, types, probed);
    }
  }

  /** The policy binds a probe to the open hypothesis it is the probe of. */
  lemma ProbeBindsItsCause(p: Probe, l: Ledger, k: nat)
    requires IsProbe(p) && HypothesisLedger.Valid(l) && k < |l.items| && l.items[k].cause == p.cause && Open(l.items[k])
    ensures Bind(p.tool, l.items) == Some(l.items[k])
  {
    OnlyItsProbe(p, p.tool);
    assert l.items[k] in l.items;
    var found := FirstOpenFor(l.items, p.cause);
    var j :| 0 <= j < |l.items| && l.items[j] == found.value;
    assert j == k;
  }

  lemma ExecutedKeepsTrack(inc: Incident, p: Probe, s: State, a: Action, result: ToolResult, bound: Hypothesis)
    requires IsProbe(p) && a.CallTool? && result.tool == a.tool
    requires HypothesisLedger.Valid(s.ledger) && Tracks(p, s.ledger, s.results)
    requires DraftedBy(result) && forall x :: x in s.results ==> DraftedBy(x)
    requires a.tool == p.tool ==> !Called(s.results, p.tool)
    requires Bind(a.tool, s.ledger.items) == Some(bound) && a.hypothesis == Some(bound.id)
    ensures Tracks(p, LedgerAfter(inc, s, a, result), s.results + [result])
  {
    var l' := LedgerAfter(inc, s, a, result);
    LedgerAfterIsSound(inc, s, a, result);
    forall k | 0 <= k < |l'.items| && l'.items[k].cause == p.cause
      ensures StandsAs(l'.items[k], Standing(p, s.results + [result]))
    {
      var h := s.ledger.items[k];
      StatusAfterCall(inc, s, a, result, k);
      if a.tool == p.tool {
        ProbeBindsItsCause(p, s.ledger, k);
      }
      HypothesisKeepsStanding(p, h, a.hypothesis, s.results, result);
      SameStandingSameStatus(h, l'.items[k], StatusAfter(h, a.hypothesis, result), Standing(p, s.results + [result]));
    }
  }

  lemma SameStandingSameStatus(h: Hypothesis, h': Hypothesis, status: HypothesisStatus,
                               standing: Option<HypothesisStatus>)
    requires h'.status == status && StandsAs(h.(status := status), standing)
    ensures StandsAs(h', standing)
  {
  }

  lemma ProbeStepKept(p: Probe, h: Hypothesis, h': Hypothesis, r: ToolResult, steps: seq<StepRecord>, last: StepRecord)
    requires IsProbe(p) && h.cause == p.cause && DraftedBy(r)
    requires last.tool == Some(r.tool) && last.status == Executed(r.status)
    requires !Open(h) ==> exists step :: step in steps && Probes(step, h)
    requires h'.id == h.id && h'.cause == h.cause && h'.status == StatusAfter(h, last.hypothesis, r) && !Open(h')
    ensures exists step :: step in steps + [last] && Probes(step, h')
  {
    if !Open(h) {
      var step :| step in steps && Probes(step, h);
      assert step in steps + [last] && Probes(step, h');
    } else {
      SettledOnlyByProbe(p, h, last.hypothesis, r);
      OnlyItsProbe(p, r.tool);
      assert last in steps + [last] && Probes(last, h');
    }
  }

  lemma ExecutedKeepsProbeSteps(inc: Incident, p: Probe, s: State, a: Action, r: ToolResult, last: StepRecord)
    requires IsProbe(p) && a.CallTool? && HypothesisLedger.Valid(s.ledger) && DraftedBy(r)
    requires last.tool == Some(r.tool) && last.status == Executed(r.status) && last.hypothesis == a.hypothesis
    requires SettledByProbe(p, s.ledger, s.steps)
    ensures SettledByProbe(p, LedgerAfter(inc, s, a, r), s.steps + [last])
  {
    var l' := LedgerAfter(inc, s, a, r);
    LedgerAfterIsSound(inc, s, a, r);
    forall k | 0 <= k < |l'.items| && l'.items[k].cause == p.cause && !Open(l'.items[k])
      ensures exists step :: step in s.steps + [last] && Probes(step, l'.items[k])
    {
      StatusAfterCall(inc, s, a, r, k);
      ProbeStepKept(p, s.ledger.items[k], l'.items[k], r, s.steps, last);
    }
  }

  /** Only a call of its probe, bound to it, settles a hypothesis with a probe. */
  lemma SettledOnlyByProbe(p: Probe, h: Hypothesis, bound: Option<nat>, r: ToolResult)
    requires IsProbe(p) && h.cause == p.cause && Open(h) && DraftedBy(r)
    requires Terminal(StatusAfter(h, bound, r))
    ensures bound == Some(h.id) && r.tool == p.tool
  {
    ProducedAreEmitted(r);
    OnlyItsProbe(p, r.tool);
    var types, probed := Produced(r.evidence), r.status == Success && DesignatedProbe(r.tool, p.cause);
    if p.proof !in types {
      WithoutProof(p, types, probed);
    }
  }

  // ----- Over the run ------------------------------------------------------------------------------------------

  /** Why a stopped run of this policy stopped. */
  ghost predicate NothingLeft(inc: Incident, bundle: Bundle, stages: seq<StageName>, s: State) {
    || s.stopReason == Some(BUDGET_EXHAUSTED) || !AnyOpen(s.ledger)
    || Plan(View(inc, bundle, stages, s)) == []
  }

  ghost predicate Settling(inc: Incident, bundle: Bundle, stages: seq<StageName>, p: Probe, s: State) {
    && Tracks(p, s.ledger, s.results) && SettledByProbe(p, s.ledger, s.steps)
    && (s.phase == Stopped ==> NothingLeft(inc, bundle, stages, s))
  }

  /** A tool the policy proposes to call, other than the breakdown, was not called before. */
  lemma ProposedToolIsNew(inc: Incident, bundle: Bundle, stages: seq<StageName>, s: State, a: Action)
    requires a == ScriptedAction(View(inc, bundle, stages, s)) && a.CallTool? && a.tool != BreakdownConversionLoss
    ensures !Called(s.results, a.tool)
  {
    var view := View(inc, bundle, stages, s);
    DecisionForm(view, a);
    assert Plan(view)[0] in Plan(view);
    PlanHolds(view, Plan(view)[0]);
    forall r | r in s.results ensures r.tool != a.tool {
      var i :| 0 <= i < |s.results| && s.results[i] == r;
      assert ToolsOf(s.results)[i] == r.tool;
    }
  }

  lemma ExecutedKeepsSettling(inc: Incident, bundle: Bundle, stages: seq<StageName>, p: Probe, s: State, a: Action,
                              out: ToolOutput)
    requires IsProbe(p) && HypothesisLedger.Valid(s.ledger) && Settling(inc, bundle, stages, p, s)
    requires a == ScriptedAction(View(inc, bundle, stages, s)) && a.CallTool?
    requires DraftedBy(ResultOf(s, a.tool, out)) && forall x :: x in s.results ==> DraftedBy(x)
    ensures Settling(inc, bundle, stages, p, ExecutedTurn(inc, s, a, out))
  {
    var view, result := View(inc, bundle, stages, s), ResultOf(s, a.tool, out);
    DecisionForm(view, a);
    var bound :| bound in s.ledger.items && Bind(a.tool, s.ledger.items) == Some(bound)
                 && a.hypothesis == Some(bound.id);
    if a.tool == p.tool {
      ProposedToolIsNew(inc, bundle, stages, s, a);
    }
    ExecutedKeepsTrack(inc, p, s, a, result, bound);
    ExecutedKeepsProbeSteps(inc, p, s, a, result,
                            StepRecord(|s.steps|, Some(a.tool), a.hypothesis, Executed(out.status)));
  }

  lemma FinishKeepsSettling(inc: Incident, bundle: Bundle, stages: seq<StageName>, p: Probe, s: State)
    requires Settling(inc, bundle, stages, p, s) && ScriptedAction(View(inc, bundle, stages, s)) == Finish
    ensures Settling(inc, bundle, stages, p, FinishTurn(s))
  {
    var s' := FinishTurn(s);
    forall k | 0 <= k < |s.ledger.items| && s.ledger.items[k].cause == p.cause && !Open(s.ledger.items[k])
      ensures exists step :: step in s'.steps && Probes(step, s.ledger.items[k])
    {
      var step :| step in s.steps && Probes(step, s.ledger.items[k]);
      assert step in s'.steps;
    }
    assert View(inc, bundle, stages, s') == View(inc, bundle, stages, s);
  }

  /** What an admitted call to a default tool brings back. */
  lemma AnswerIsDrafted(inc: Incident, src: Source, bundle: Bundle, s: State, a: Action, out: ToolOutput)
    requires Reads(inc, src) && a.CallTool?
    requires LoopVerdict(inc, bundle, s, Call(a.tool, WithDataset(a.args, inc.dataset)), a.hypothesis) == None
    requires inc.tools(s.callIdx, Call(a.tool, Strip(WithDataset(a.args, inc.dataset)))) == Some(out)
    ensures DraftedBy(ResultOf(s, a.tool, out))
  {
    AdmittedCall(inc, bundle, s, a);
    assert Strip(WithDataset(a.args, inc.dataset)) == Strip(a.args);
    AdmittedCallReturnsIff(src, Call(a.tool, Strip(a.args)));
  }

  lemma TurnKeepsSettling(inc: Incident, src: Source, bundle: Bundle, stages: seq<StageName>, p: Probe, s: State,
                          triage: ToolResult)
    requires Scripted(inc) && Reads(inc, src) && Routed(inc, bundle, stages) && IsProbe(p)
    requires Governed(inc, bundle, s) && s.callsUsed < inc.maxCalls && Typed(s, triage)
    requires s.phase == Looping && Settling(inc, bundle, stages, p, s)
    ensures Settling(inc, bundle, stages, p, Turn(inc, bundle, stages, s))
  {
    var a := ScriptedAction(View(inc, bundle, stages, s));
    assert Investigation.Decision(inc, bundle, stages, s) == a;
    if a == Finish {
      FinishKeepsSettling(inc, bundle, stages, p, s);
    } else {
      ProposedCallAdmitted(inc, bundle, stages, s, a);
      AdmittedTurn(inc, bundle, stages, s, a);
      var answer := inc.tools(s.callIdx, Call(a.tool, Strip(WithDataset(a.args, inc.dataset))));
      if answer.Some? {
        AnswerIsDrafted(inc, src, bundle, s, a, answer.value);
        ExecutedKeepsSettling(inc, bundle, stages, p, s, a, answer.value);
      }
    }
  }

  /** Everything the run keeps, at once. */
  ghost predicate OnCourse(inc: Incident, bundle: Bundle, stages: seq<StageName>, p: Probe, since: Ledger,
                           triage: ToolResult, s: State) {
    QuietHead(inc, bundle, since, s) && Typed(s, triage) && Settling(inc, bundle, stages, p, s)
  }

  lemma HeadsStayOnCourse(inc: Incident, src: Source, bundle: Bundle, stages: seq<StageName>, p: Probe, since: Ledger,
                          triage: ToolResult, s: State, n: nat)
    requires Scripted(inc) && Reads(inc, src) && Routed(inc, bundle, stages) && IsProbe(p)
    requires OnCourse(inc, bundle, stages, p, since, triage, s)
    ensures OnCourse(inc, bundle, stages, p, since, triage, Head(inc, bundle, stages, s, n))
  {
    var onCourse := x => OnCourse(inc, bundle, stages, p, since, triage, x);
    forall x | onCourse(x) ensures onCourse(Advance(inc, bundle, stages, x)) {
      AdvanceStaysOnTrack(inc, bundle, stages, since, x);
      if x.phase == Looping {
        TurnStaysUnrefused(inc, bundle, stages, x);
        TurnStaysTyped(inc, src, bundle, stages, x, triage);
        TurnKeepsSettling(inc, src, bundle, stages, p, x, triage);
      }
    }
    InvariantOfIteration(x => Advance(inc, bundle, stages, x), onCourse, s, n);
  }

  /** Before any probe was called every hypothesis is open. */
  lemma FirstSettling(inc: Incident, bundle: Bundle, stages: seq<StageName>, p: Probe, s: State)
    requires IsProbe(p) && s.phase == Looping && |s.results| == 1 && s.results[0].tool == GetPaymentFunnel
    requires forall h :: h in s.ledger.items ==> Open(h)
    ensures Settling(inc, bundle, stages, p, s)
  {
    assert !Called(s.results, p.tool);
  }

  lemma OpeningIsOnCourse(inc: Incident, src: Source, p: Probe)
    requires Scripted(inc) && Reads(inc, src) && IsProbe(p) && inc.maxCalls >= 2 && Opening(inc).Ran?
    ensures var o := Opening(inc);
            && Routed(inc, o.bundle, o.stages)
            && OnCourse(inc, o.bundle, o.stages, p, o.first.ledger, o.first.results[0], o.first)
  {
    var o := Opening(inc);
    OpeningIsQuiet(inc);
    FirstHypotheses(inc);
    DefaultResults(inc, src, 0);
    FirstSettling(inc, o.bundle, o.stages, p, o.first);
  }

  // ----- Why the probe was routed ----------------------------------------------------------------------------------

  lemma {:induction false} RaisedFromProposal(proposals: seq<Proposal>, h: Hypothesis)
    requires h in ProposeAll(EMPTY, proposals).items
    ensures exists x :: x in proposals && x.cause == h.cause
    decreases |proposals|
  {
    var init, last := proposals[..|proposals| - 1], proposals[|proposals| - 1];
    assert proposals == init + [last];
    if h in ProposeAll(EMPTY, init).items {
      RaisedFromProposal(init, h);
    } else {
      assert last in proposals;
    }
  }

  lemma RaisedBySignal(p: Probe, signals: seq<Signal>, h: Hypothesis)
    requires IsProbe(p) && h in ProposeAll(EMPTY, Proposals(signals)).items && h.cause == p.cause
    ensures p.signal in signals
  {
    RaisedFromProposal(Proposals(signals), h);
    var i :| 0 <= i < |signals| && CauseOf(signals[i]) == p.cause;
    assert signals[i] == p.signal;
  }

  lemma SignalledMeansRouted(p: Probe, stages: seq<StageName>, missingData: seq<string>)
    requires IsProbe(p) && p.signal in Signals(stages, missingData)
    ensures stages != []
    ensures p.tool in Route(stages, missingData).preferred && p.tool in Route(stages, missingData).allowed
  {
    SignalsAreRight(stages, missingData);
    assert STAGE_SIGNALS[2] == DECISION_FRICTION && STAGE_SIGNALS[3] == CHANNEL_TIMEOUT_SIGNAL;
    assert Indicated(stages, p.signal);
    ProbesAreRouted(stages, missingData);
    BundleIsBounded(Signals(stages, missingData), p.tool);
  }

  /** A hypothesis with a probe was raised by its signal, so a stage is localised and the probe is routed. */
  lemma RaisedMeansRouted(inc: Incident, p: Probe, h: Hypothesis)
    requires Scripted(inc) && IsProbe(p) && Opening(inc).Ran?
    requires h in Opening(inc).first.ledger.items && h.cause == p.cause
    ensures var o := Opening(inc);
            o.stages != [] && p.tool in o.bundle.preferred && p.tool in o.bundle.allowed
  {
    var o := Opening(inc);
    var signals := Signals(o.stages, inc.missingData);
    assert o.first.ledger == ProposeAll(EMPTY, inc.propose(signals));
    RaisedBySignal(p, signals, h);
    SignalledMeansRouted(p, o.stages, inc.missingData);
  }

  /** A plan without a routed probe means that the probe was called. */
  lemma EmptyPlanMeansProbed(inc: Incident, bundle: Bundle, stages: seq<StageName>, p: Probe, s: State)
    requires IsProbe(p) && stages != [] && p.tool in bundle.preferred && p.tool in bundle.allowed
    requires Plan(View(inc, bundle, stages, s)) == []
    ensures Called(s.results, p.tool)
  {
    var view := View(inc, bundle, stages, s);
    PlanHolds(view, Call(p.tool, map[]));
    var i :| 0 <= i < |ToolsOf(s.results)| && ToolsOf(s.results)[i] == p.tool;
    assert s.results[i] in s.results;
  }

  lemma StoppedMeansSettled(inc: Incident, bundle: Bundle, stages: seq<StageName>, p: Probe, s: State, k: nat)
    requires IsProbe(p) && stages != [] && p.tool in bundle.preferred && p.tool in bundle.allowed
    requires Tracks(p, s.ledger, s.results) && NothingLeft(inc, bundle, stages, s)
               && s.stopReason != Some(BUDGET_EXHAUSTED)
    requires k < |s.ledger.items| && s.ledger.items[k].cause == p.cause
    ensures Called(s.results, p.tool) || !Open(s.ledger.items[k])
  {
    if Open(s.ledger.items[k]) {
      assert s.ledger.items[k] in s.ledger.items;
      assert AnyOpen(s.ledger);
      EmptyPlanMeansProbed(inc, bundle, stages, p, s);
    }
  }

  lemma HeadsOnCourse(inc: Incident, src: Source, p: Probe, n: nat)
    requires Scripted(inc) && Reads(inc, src) && IsProbe(p) && inc.maxCalls >= 2 && Opening(inc).Ran?
    ensures var o, s := Opening(inc), RunHead(inc, n);
            Settling(inc, o.bundle, o.stages, p, s) && Absorbs(o.first.ledger, s.ledger)
  {
    var o := Opening(inc);
    OpeningIsOnCourse(inc, src, p);
    HeadsStayOnCourse(inc, src, o.bundle, o.stages, p, o.first.ledger, o.first.results[0], o.first, n);
  }

  lemma SettledStatus(inc: Incident, bundle: Bundle, stages: seq<StageName>, p: Probe, s: State, k: nat)
    requires IsProbe(p) && stages != [] && p.tool in bundle.preferred && p.tool in bundle.allowed
    requires Settling(inc, bundle, stages, p, s) && s.phase == Stopped && s.stopReason != Some(BUDGET_EXHAUSTED)
    requires k < |s.ledger.items| && s.ledger.items[k].cause == p.cause
    ensures s.ledger.items[k].status == (if Found(s.results, p.proof) then p.verdict else Rejected)
    ensures exists step :: step in s.steps && Probes(step, s.ledger.items[k])
  {
    StoppedMeansSettled(inc, bundle, stages, p, s, k);
    assert StandsAs(s.ledger.items[k], Standing(p, s.results));
  }

  lemma EndIsSettled(inc: Incident, src: Source, p: Probe, n: nat, k: nat)
    requires Scripted(inc) && Reads(inc, src) && IsProbe(p) && inc.maxCalls >= 8 && Opening(inc).Ran?
    requires RunHead(inc, n).phase == Stopped
    requires k < |RunHead(inc, n).ledger.items| && RunHead(inc, n).ledger.items[k].cause == p.cause
    ensures var s := RunHead(inc, n);
            && s.ledger.items[k].status == (if Found(s.results, p.proof) then p.verdict else Rejected)
            && exists step :: step in s.steps && Probes(step, s.ledger.items[k])
  {
    var o := Opening(inc);
    HeadsOnCourse(inc, src, p, n);
    ScriptedNeverRefused(inc, n);
    RaisedMeansRouted(inc, p, o.first.ledger.items[k]);
    SettledStatus(inc, o.bundle, o.stages, p, RunHead(inc, n), k);
  }

  // ----- Agreement -------------------------------------------------------------------------------------------

  lemma LedgerHasWhatWasFound(prefix: string, results: seq<ToolResult>, t: EvidenceType)
    ensures Has(LedgerOf(prefix, results), t) <==> Found(results, t)
  {
    if Has(LedgerOf(prefix, results), t) {
      var e :| e in LedgerOf(prefix, results) && e.evidenceType == t;
      LedgerRecordsComeFromCalls(prefix, results, e);
    }
    if Found(results, t) {
      var r :| r in results && Drafts(r, t);
      var d :| d in r.evidence && d.evidenceType == t;
      DraftsReachLedger(prefix, results, r, d);
    }
  }

  /** A settled hypothesis is returned as it was settled. */
  lemma ReturnedAsSettled(l: Ledger, returned: seq<Hypothesis>, steps: seq<StepRecord>, k: nat)
    requires Closes(l, returned) && HypothesisLedger.Valid(l) && k < |returned|
    requires Terminal(l.items[k].status) && exists step :: step in steps && Probes(step, l.items[k])
    ensures returned[k].status == l.items[k].status && returned[k].cause == l.items[k].cause
    ensures exists step :: step in steps && Probes(step, returned[k])
  {
    var step :| step in steps && Probes(step, l.items[k]);
    assert Probes(step, returned[k]);
  }

  /** A hypothesis with a probe, as a finished run returns it: settled by its probe with what the evidence
      shows, never by the final sweep. */
  lemma ProbedHypothesesAreSettled(inc: Incident, src: Source, p: Probe, h: Hypothesis)
    requires Scripted(inc) && Reads(inc, src) && IsProbe(p) && inc.maxCalls >= 8 && Run(inc).Done?
    requires h in Run(inc).result.hypotheses && h.cause == p.cause
    ensures h.status == (if Has(Run(inc).result.evidence, p.proof) then p.verdict else Rejected)
    ensures exists step :: step in Run(inc).result.steps && Probes(step, h)
  {
    var n := ReturnedFromHead(inc);
    var k :| 0 <= k < |Run(inc).result.hypotheses| && Run(inc).result.hypotheses[k] == h;
    EndIsSettled(inc, src, p, n, k);
    ReturnedAsSettled(RunHead(inc, n).ledger, Run(inc).result.hypotheses, Run(inc).result.steps, k);
    LedgerHasWhatWasFound(inc.prefix, RunHead(inc, n).results, p.proof);
  }

  /** Whether a report claims a cause. */
  predicate Labelled(report: Report, cause: Label) {
    exists rc :: rc in report.causes && rc.cause == cause
  }

  /** The report claims a hypothesis's cause exactly when it is not REJECTED, and then with its status. */
  predicate Agrees(h: Hypothesis, report: Report) {
    && (Labelled(report, h.cause) <==> h.status != Rejected)
    && (forall rc :: rc in report.causes && rc.cause == h.cause ==> FromSupport(rc.status) == h.status)
  }

  /** What the published rule report says about a cause with a probe depends only on the proof in its
      context. */
  lemma ReportFollowsProof(p: Probe, version: string, ctx: Context)
    requires IsProbe(p) && DistinctCodes(ctx.evidence) && ctx.missingData == []
    ensures var r := Contracted(RuleReport(version, ctx), ctx);
            && (Labelled(r, p.cause) <==> Has(ctx.evidence, p.proof))
            && (forall rc :: rc in r.causes && rc.cause == p.cause ==> FromSupport(rc.status) == p.verdict)
  {
    RuleReportIsFixedPoint(version, ctx);
    var items, total := ctx.evidence, LossOfType(ctx.evidence, FUNNEL_STAGE_DEGRADATION);
    ClaimsFollowProof(p, items, total);
  }

  lemma ClaimsFollowProof(p: Probe, items: seq<Evidence>, total: int)
    requires IsProbe(p) && DistinctCodes(items)
    ensures (exists rc :: rc in Claims(items, total) && rc.cause == p.cause) <==> Has(items, p.proof)
    ensures forall rc :: rc in Claims(items, total) && rc.cause == p.cause ==> FromSupport(rc.status) == p.verdict
  {
    if Has(items, p.proof) {
      if p == TIMEOUT_PROBE {
        assert TimeoutClaim(items, total) in Claims(items, total);
      } else {
        var rank := if Has(items, CHANNEL_TIMEOUT_SEEN) then 2 else 1;
        assert BenefitClaim(items, total, rank) in Claims(items, total);
      }
    }
    forall rc | rc in Claims(items, total) && rc.cause == p.cause
      ensures Has(items, p.proof) && FromSupport(rc.status) == p.verdict
    {
      ClaimForms(items, total, rc);
      if p == TIMEOUT_PROBE {
        TimeoutTypes(items);
      } else {
        BenefitTypes(items);
      }
    }
  }

  lemma SelectionIsPartOfRun(inc: Incident, ctx: Context)
    requires Run(inc).Done? && BuiltFrom(ctx, Run(inc).result.evidence, inc.missingData)
    ensures DistinctCodes(ctx.evidence) && forall e :: e in ctx.evidence ==> e in Run(inc).result.evidence
    ensures |Run(inc).result.evidence| <= MAX_EVIDENCE_ITEMS ==> ctx.evidence == Run(inc).result.evidence
  {
    var r := Run(inc).result;
    ReturnedEvidenceIsConserved(inc);
    LedgerIsCodedInOrder(inc.prefix, r.results);
    ContextGetsFirstTwenty(inc.prefix, r.evidence);
  }

  /** Ledger and report agree whenever the run left at most twenty records: every CHANNEL_TIMEOUT or
      BENEFIT_SELECTION_FRICTION hypothesis is SUPPORTED, PARTIAL or REJECTED by its probe, and the published
      report has that label exactly when it is not REJECTED, with the same status. */
  lemma LedgerAndReportAgree(inc: Incident, src: Source, p: Probe, h: Hypothesis, version: string, ctx: Context)
    requires Scripted(inc) && Reads(inc, src) && IsProbe(p) && inc.maxCalls >= 8 && inc.missingData == []
               && Run(inc).Done?
    requires h in Run(inc).result.hypotheses && h.cause == p.cause
    requires BuiltFrom(ctx, Run(inc).result.evidence, inc.missingData)
               && |Run(inc).result.evidence| <= MAX_EVIDENCE_ITEMS
    ensures h.status in {Supported, PartlySupported, Rejected}
    ensures exists step :: step in Run(inc).result.steps && Probes(step, h)
    ensures Agrees(h, Contracted(RuleReport(version, ctx), ctx))
  {
    ProbedHypothesesAreSettled(inc, src, p, h);
    SelectionIsPartOfRun(inc, ctx);
    ReportFollowsProof(p, version, ctx);
  }
}
