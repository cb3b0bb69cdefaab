/** The scripted investigation policy: one hypothesis per routed signal, each tested by the routed tools in
    order. The harness never refuses a call it proposes, except on a budget that triage already spent. */
module ScriptedPolicy {
  import opened Domain
  import opened Tooling
  import opened Routing
  import opened HypothesisLedger
  import opened Investigation
  import opened Governance

  // ----- Proposals -----------------------------------------------------------------------------------

  function CauseOf(signal: Signal): Label {
    match signal
    case DATA_INTEGRITY => DATA_QUALITY_ISSUE
    case AUTH_FAILURE => AUTHENTICATION_FAILURE
    case CHANNEL_TIMEOUT_SIGNAL => CHANNEL_TIMEOUT
    case CALLBACK_ANOMALY => CALLBACK_FAILURE
    case DECISION_FRICTION => BENEFIT_SELECTION_FRICTION
    case UNKNOWN_SIGNAL => UNKNOWN_CAUSE
  }

  /** The cause a tool is planned as the probe of. */
  function ProbeTarget(tool: ToolName): Option<Label> {
    match tool
    case InspectPaymentEvents => Some(CHANNEL_TIMEOUT)
    case AnalyzeBenefitGap => Some(BENEFIT_SELECTION_FRICTION)
    case _ => None
  }

  function ProbeFor(cause: Label): Option<ToolName> {
    match cause
    case CHANNEL_TIMEOUT => Some(InspectPaymentEvents)
    case BENEFIT_SELECTION_FRICTION => Some(AnalyzeBenefitGap)
    case _ => None
  }

  function Proposals(signals: seq<Signal>): (proposals: seq<Proposal>)
    ensures |proposals| == |signals|
    ensures forall i :: 0 <= i < |signals| ==>
              proposals[i] == Proposal(CauseOf(signals[i]), ProbeFor(CauseOf(signals[i])))
  {
    seq(|signals|, i requires 0 <= i < |signals| => Proposal(CauseOf(signals[i]), ProbeFor(CauseOf(signals[i]))))
  }

  /** What the scripted policy asks, from the degraded stages and the data gaps: a cause for each family, with
      the probe of the two causes that have one. */
  lemma ProposalsByStage(stages: seq<StageName>, missingData: seq<string>, p: Proposal)
    ensures p in Proposals(Signals(stages, missingData)) <==>
              || (p == Proposal(DATA_QUALITY_ISSUE, None) && missingData != [])
              || (p == Proposal(AUTHENTICATION_FAILURE, None) && AtStage(stages, AUTHENTICATION_PASSED))
              || (p == Proposal(CALLBACK_FAILURE, None) && AtStage(stages, PLATFORM_CONFIRMED))
              || (p == Proposal(BENEFIT_SELECTION_FRICTION, Some(AnalyzeBenefitGap)) && AtDecision(stages))
              || (p == Proposal(CHANNEL_TIMEOUT, Some(InspectPaymentEvents)) && AtStage(stages, CHANNEL_SUCCEEDED))
              || (p == Proposal(UNKNOWN_CAUSE, None) && NothingIndicated(stages, missingData))
  {
    SignalsHeldByStage(stages, missingData);
    ProposedBySignals(Signals(stages, missingData), p);
  }

  lemma ProposedBySignals(signals: seq<Signal>, p: Proposal)
    ensures p in Proposals(signals) <==> exists s :: s in signals && p == Proposal(CauseOf(s), ProbeFor(CauseOf(s)))
  {
    if s :| s in signals && p == Proposal(CauseOf(s), ProbeFor(CauseOf(s))) {
      var i :| 0 <= i < |signals| && signals[i] == s;
      assert Proposals(signals)[i] == p;
    }
  }

  // ----- The plan ----------------------------------------------------------------------------------------

  const BREAKDOWN_DIMENSIONS: seq<string> := ["payment_channel", "payment_method"]

  function Dimensions(called: seq<Call>, n: nat): seq<Call>
    requires n <= |BREAKDOWN_DIMENSIONS|
  {
    if n == 0 then []
    else
      var c := BreakdownBy(BREAKDOWN_DIMENSIONS[n - 1]);
      Dimensions(called, n - 1) + (if c !in called then [c] else [])
  }

  function StepsFor(view: PolicyView, tool: ToolName): seq<Call> {
    if tool !in view.bundle.allowed then []
    else if tool == BreakdownConversionLoss then Dimensions(view.calledSignatures, |BREAKDOWN_DIMENSIONS|)
    else if tool !in view.calledTools then [Call(tool, map[])]
    else []
  }

  function PlanOver(view: PolicyView, tools: seq<ToolName>): seq<Call> {
    if tools == [] then [] else PlanOver(view, tools[..|tools| - 1]) + StepsFor(view, tools[|tools| - 1])
  }

  /** Nothing to drill into without a localised stage or a data gap. */
  function Plan(view: PolicyView): seq<Call> {
    if view.localizedStages == [] && view.missingData == [] then [] else PlanOver(view, view.bundle.preferred)
  }

  method BuildPlan(view: PolicyView) returns (plan: seq<Call>)
    ensures plan == Plan(view)
  {
    plan := [];
    if view.localizedStages == [] && view.missingData == [] {
      return;
    }
    var tools := view.bundle.preferred;
    for i := 0 to |tools|
      invariant plan == PlanOver(view, tools[..i])
    {
      assert tools[..i + 1][..i] == tools[..i];
      if tools[i] in view.bundle.allowed {
        if tools[i] == BreakdownConversionLoss {
          var before := plan;
          for k := 0 to |BREAKDOWN_DIMENSIONS|
            invariant plan == before + Dimensions(view.calledSignatures, k)
          {
            var candidate := BreakdownBy(BREAKDOWN_DIMENSIONS[k]);
            if candidate !in view.calledSignatures {
              plan := plan + [candidate];
            }
          }
        } else if tools[i] !in view.calledTools {
          plan := plan + [Call(tools[i], map[])];
        }
      }
    }
    assert tools[..|tools|] == tools;
  }

  /** A call the plan may hold: a breakdown by a dimension not yet asked for, or a tool not yet called. */
  predicate Pending(view: PolicyView, c: Call) {
    if c.tool == BreakdownConversionLoss then
      (exists d :: d in BREAKDOWN_DIMENSIONS && c == BreakdownBy(d)) && c !in view.calledSignatures
    else c.args == map[] && c.tool !in view.calledTools
  }

  lemma {:induction false} DimensionsHold(called: seq<Call>, n: nat, c: Call)
    requires n <= |BREAKDOWN_DIMENSIONS|
    ensures c in Dimensions(called, n) <==>
            (exists k :: 0 <= k < n && c == BreakdownBy(BREAKDOWN_DIMENSIONS[k])) && c !in called
  {
    if n > 0 {
      DimensionsHold(called, n - 1, c);
      if c == BreakdownBy(BREAKDOWN_DIMENSIONS[n - 1]) && c !in called {
        assert c in Dimensions(called, n);
      }
    }
  }

  lemma StepsHold(view: PolicyView, tool: ToolName, c: Call)
    ensures c in StepsFor(view, tool) <==> c.tool == tool && tool in view.bundle.allowed && Pending(view, c)
  {
    if tool == BreakdownConversionLoss {
      DimensionsHold(view.calledSignatures, |BREAKDOWN_DIMENSIONS|, c);
      if exists d :: d in BREAKDOWN_DIMENSIONS && c == BreakdownBy(d) {
        var d :| d in BREAKDOWN_DIMENSIONS && c == BreakdownBy(d);
        var k :| 0 <= k < |BREAKDOWN_DIMENSIONS| && BREAKDOWN_DIMENSIONS[k] == d;
      }
    }
  }

  lemma {:induction false} PlanOverHolds(view: PolicyView, tools: seq<ToolName>, c: Call)
    ensures c in PlanOver(view, tools) <==> c.tool in tools && c.tool in view.bundle.allowed && Pending(view, c)
  {
    if tools != [] {
      var init, last := tools[..|tools| - 1], tools[|tools| - 1];
      assert tools == init + [last];
      PlanOverHolds(view, init, c);
      StepsHold(view, last, c);
    }
  }

  /** The plan is exactly the pending calls of the preferred tools that the bundle allows. */
  lemma PlanHolds(view: PolicyView, c: Call)
    ensures c in Plan(view) <==>
              && (view.localizedStages != [] || view.missingData != [])
              && c.tool in view.bundle.preferred && c.tool in view.bundle.allowed && Pending(view, c)
  {
    PlanOverHolds(view, view.bundle.preferred, c);
  }

  // ----- Binding and deciding --------------------------------------------------------------------------------

  function FirstOpen(items: seq<Hypothesis>): (found: Option<Hypothesis>)
    ensures found.Some? ==> found.value in items && Open(found.value)
    ensures found.None? <==> forall h :: h in items ==> !Open(h)
  {
    if items == [] then None else if Open(items[0]) then Some(items[0]) else FirstOpen(items[1..])
  }

  function FirstOpenFor(items: seq<Hypothesis>, cause: Label): (found: Option<Hypothesis>)
    ensures found.Some? ==> found.value in items && Open(found.value) && found.value.cause == cause
    ensures found.None? <==> forall h :: h in items ==> !(Open(h) && h.cause == cause)
  {
    if items == [] then None
    else if Open(items[0]) && items[0].cause == cause then Some(items[0])
    else FirstOpenFor(items[1..], cause)
  }

  /** The open hypothesis a tool is the probe of, otherwise the first open one. */
  function Bind(tool: ToolName, items: seq<Hypothesis>): (bound: Option<Hypothesis>)
    ensures bound.Some? ==> bound.value in items && Open(bound.value)
    ensures bound.None? <==> forall h :: h in items ==> !Open(h)
  {
    if ProbeTarget(tool).Some? && FirstOpenFor(items, ProbeTarget(tool).value).Some?
    then FirstOpenFor(items, ProbeTarget(tool).value)
    else FirstOpen(items)
  }

  /** `decide`: the first planned call that can be bound. */
  method Decide(view: PolicyView) returns (a: Action)
    ensures a == ScriptedAction(view)
  {
    if FirstOpen(view.hypotheses).None? {
      return Finish;
    }
    var plan := BuildPlan(view);
    for i := 0 to |plan|
      invariant i == 0
    {
      var bound := Bind(plan[i].tool, view.hypotheses);
      if bound.Some? {
        return CallTool(plan[i].tool, plan[i].args, Some(bound.value.id));
      }
    }
    a := Finish;
  }

  /** As long as a hypothesis is open every tool can be bound, so it is the first planned call that is made. */
  function ScriptedAction(view: PolicyView): Action {
    if FirstOpen(view.hypotheses).None? || Plan(view) == [] then Finish
    else
      var first := Plan(view)[0];
      CallTool(first.tool, first.args, Some(Bind(first.tool, view.hypotheses).value.id))
  }

  predicate OpenAt(items: seq<Hypothesis>, k: int) {
    0 <= k < |items| && (items[k].status == Proposed || items[k].status == Investigating)
  }

  /** A hypothesis this tool is planned as the probe of. */
  predicate Awaits(h: Hypothesis, tool: ToolName) {
    || (tool == InspectPaymentEvents && h.cause == CHANNEL_TIMEOUT)
    || (tool == AnalyzeBenefitGap && h.cause == BENEFIT_SELECTION_FRICTION)
  }

  /** The first open hypothesis that awaits the tool, or the first open one if none does. */
  predicate Served(items: seq<Hypothesis>, tool: ToolName, k: int) {
    && OpenAt(items, k)
    && (if Awaits(items[k], tool)
        then forall j :: 0 <= j < k ==> !(OpenAt(items, j) && Awaits(items[j], tool))
        else && (forall j :: 0 <= j < k ==> !OpenAt(items, j))
             && (forall j :: 0 <= j < |items| ==> !(OpenAt(items, j) && Awaits(items[j], tool))))
  }

  lemma {:induction false} FirstOpenIsFirst(items: seq<Hypothesis>) returns (k: int)
    requires FirstOpen(items).Some?
    ensures OpenAt(items, k) && items[k] == FirstOpen(items).value && forall j :: 0 <= j < k ==> !OpenAt(items, j)
  {
    k := 0;
    if !Open(items[0]) {
      var rest := FirstOpenIsFirst(items[1..]);
      k := rest + 1;
      assert forall j :: 0 < j < k ==> (OpenAt(items, j) <==> OpenAt(items[1..], j - 1));
    }
  }

  lemma {:induction false} FirstOpenForIsFirst(items: seq<Hypothesis>, cause: Label) returns (k: int)
    requires FirstOpenFor(items, cause).Some?
    ensures OpenAt(items, k) && items[k] == FirstOpenFor(items, cause).value
    ensures forall j :: 0 <= j < k ==> !(OpenAt(items, j) && items[j].cause == cause)
  {
    k := 0;
    if !(Open(items[0]) && items[0].cause == cause) {
      var rest := FirstOpenForIsFirst(items[1..], cause);
      k := rest + 1;
      assert forall j :: 0 < j < k ==> (OpenAt(items, j) <==> OpenAt(items[1..], j - 1));
    }
  }

  lemma BindServes(tool: ToolName, items: seq<Hypothesis>) returns (k: int)
    requires exists h :: h in items && Open(h)
    ensures Served(items, tool, k) && Bind(tool, items) == Some(items[k])
  {
    var target := ProbeTarget(tool);
    assert forall h: Hypothesis :: Awaits(h, tool) <==> target == Some(h.cause);
    if target.Some? && FirstOpenFor(items, target.value).Some? {
      k := FirstOpenForIsFirst(items, target.value);
    } else {
      k := FirstOpenIsFirst(items);
    }
  }

  /** The policy finishes without an open hypothesis or without a plan; otherwise it makes the first planned
      call, for the first open hypothesis that awaits that tool or, if none does, for the first open one. */
  lemma DecisionExactly(view: PolicyView)
    ensures ScriptedAction(view) == Finish <==>
            (forall k :: 0 <= k < |view.hypotheses| ==> !OpenAt(view.hypotheses, k)) || Plan(view) == []
    ensures ScriptedAction(view).CallTool? ==>
              && Call(ScriptedAction(view).tool, ScriptedAction(view).args) == Plan(view)[0]
              && exists k :: Served(view.hypotheses, ScriptedAction(view).tool, k)
                             && ScriptedAction(view).hypothesis == Some(view.hypotheses[k].id)
  {
    var items := view.hypotheses;
    if FirstOpen(items).Some? {
      var first := FirstOpenIsFirst(items);
      if Plan(view) != [] {
        var k := BindServes(Plan(view)[0].tool, items);
      }
    } else {
      forall k | 0 <= k < |items| ensures !OpenAt(items, k) {
        assert !Open(items[k]);
      }
    }
  }

  /** An incident investigated by this policy; data gaps, budget and tools are arbitrary. */
  ghost predicate Scripted(inc: Incident) {
    && (forall n, view :: inc.decide(n, view) == ScriptedAction(view))
    && (forall signals :: inc.propose(signals) == Proposals(signals))
  }

  // ----- Nothing is refused ----------------------------------------------------------------------------------

  /** The calls this policy can ever make, triage included. */
  const REPERTOIRE: seq<Call> := [
    TRIAGE, BreakdownBy("payment_channel"), BreakdownBy("payment_method"), Call(AnalyzeBenefitGap, map[]),
    Call(InspectPaymentEvents, map[]), Call(TraceCancelAndReorder, map[]), Call(GetConfigChanges, map[])]

  /** A planned call of a registered tool fits its schema and is in the repertoire. */
  lemma PendingFits(view: PolicyView, c: Call)
    requires Pending(view, c) && Registered(c.tool)
    ensures ValidateArguments(c.tool, c.args) == None && c in REPERTOIRE && DatasetRefArg !in c.args
  {
    if c.tool == BreakdownConversionLoss {
      var d :| d in BREAKDOWN_DIMENSIONS && c == BreakdownBy(d);
      assert d == "payment_channel" || d == "payment_method";
      assert BreakdownBy("payment_channel") == REPERTOIRE[1] && BreakdownBy("payment_method") == REPERTOIRE[2];
      assert "payment_channel" == ALLOWED_DIMENSIONS[1] && "payment_method" == ALLOWED_DIMENSIONS[0];
    } else {
      assert c == Call(c.tool, map[]);
      assert REPERTOIRE[0] == TRIAGE && REPERTOIRE[3] == Call(AnalyzeBenefitGap, map[])
          && REPERTOIRE[4] == Call(InspectPaymentEvents, map[]) && REPERTOIRE[5] == Call(TraceCancelAndReorder, map[])
          && REPERTOIRE[6] == Call(GetConfigChanges, map[]);
    }
  }

  /** A pending call is not among the executed ones. */
  lemma PendingIsNew(inc: Incident, bundle: Bundle, stages: seq<StageName>, s: State, c: Call)
    requires Recorded(inc, s) && Pending(View(inc, bundle, stages, s), c)
    ensures c !in s.signatures
  {
    forall i | 0 <= i < |s.signatures| ensures s.signatures[i] != c {
      assert ToolsOf(s.results)[i] == s.signatures[i].tool;
    }
  }

  /** So its fingerprint is new to the call policy. */
  lemma NewIsUnseen(dataset: string, bundle: Bundle, signatures: seq<Call>, seen: set<Call>, c: Call)
    requires SameCalls(dataset, signatures, seen) && InBounds(bundle, signatures)
    requires c !in signatures && DatasetRefArg !in c.args
    ensures Aimed(c, dataset) !in seen
  {
    if Aimed(c, dataset) in seen {
      var i :| 0 <= i < |signatures| && Aimed(c, dataset) == Aimed(signatures[i], dataset);
      assert Permitted(bundle, signatures[i]);
      AimedInjective(c, signatures[i], dataset);
    }
  }

  lemma BoundIsNotRejected(l: Ledger, h: Hypothesis)
    requires HypothesisLedger.Valid(l) && h in l.items && Open(h)
    ensures !RejectedTarget(l, Some(h.id))
  {
    var k :| 0 <= k < |l.items| && l.items[k] == h;
    GetById(l, h.id);
  }

  ghost predicate Routed(inc: Incident, bundle: Bundle, stages: seq<StageName>) {
    bundle == Route(stages, inc.missingData)
  }

  /** The call this policy makes first: allowed, well-formed, in the repertoire and not made before. */
  lemma PlannedCall(inc: Incident, bundle: Bundle, stages: seq<StageName>, s: State)
    requires Recorded(inc, s) && Routed(inc, bundle, stages)
    requires Plan(View(inc, bundle, stages, s)) != []
    ensures var c := Plan(View(inc, bundle, stages, s))[0];
            && c.tool in bundle.allowed && ValidateArguments(c.tool, c.args) == None
            && DatasetRefArg !in c.args && c in REPERTOIRE && c !in s.signatures
  {
    var view := View(inc, bundle, stages, s);
    var c := Plan(view)[0];
    assert c in Plan(view);
    PlanHolds(view, c);
    BundleIsBounded(Signals(stages, inc.missingData), c.tool);
    PendingFits(view, c);
    PendingIsNew(inc, bundle, stages, s, c);
  }

  /** What the hook chain asks of a call, hook by hook. */
  lemma AdmittedByHooks(inc: Incident, bundle: Bundle, s: State, c: Call, hypothesis: Option<nat>)
    requires c.tool in bundle.allowed && ValidateArguments(c.tool, c.args) == None && DatasetRefArg !in c.args
    requires s.callsUsed == s.policyCount < inc.maxCalls && Aimed(c, inc.dataset) !in s.seen
    requires !RejectedTarget(s.ledger, hypothesis)
    ensures LoopVerdict(inc, bundle, s, Aimed(c, inc.dataset), hypothesis) == None
  {
    assert Strip(WithDataset(c.args, inc.dataset)) == c.args;
  }

  /** The call of a decision: the first planned one, serving an open hypothesis. */
  lemma DecisionForm(view: PolicyView, a: Action)
    requires a == ScriptedAction(view) && a.CallTool?
    ensures Plan(view) != [] && Plan(view)[0] == Call(a.tool, a.args)
    ensures exists h :: h in view.hypotheses && Open(h) && Bind(a.tool, view.hypotheses) == Some(h)
              && a.hypothesis == Some(h.id)
  {
    assert Bind(a.tool, view.hypotheses).value in view.hypotheses;
  }

  /** Every call this policy proposes at a loop head with budget left passes every hook. */
  lemma ProposedCallAdmitted(inc: Incident, bundle: Bundle, stages: seq<StageName>, s: State, a: Action)
    requires Governed(inc, bundle, s) && Routed(inc, bundle, stages) && s.callsUsed < inc.maxCalls
    requires a == ScriptedAction(View(inc, bundle, stages, s)) && a.CallTool?
    ensures LoopVerdict(inc, bundle, s, Call(a.tool, WithDataset(a.args, inc.dataset)), a.hypothesis) == None
    ensures Call(a.tool, Strip(a.args)) in REPERTOIRE && Call(a.tool, Strip(a.args)) !in s.signatures
  {
    var c := Call(a.tool, a.args);
    DecisionForm(View(inc, bundle, stages, s), a);
    var h :| h in s.ledger.items && Open(h) && a.hypothesis == Some(h.id);
    PlannedCall(inc, bundle, stages, s);
    assert Strip(c.args) == c.args;
    NewIsUnseen(inc.dataset, bundle, s.signatures, s.seen, c);
    BoundIsNotRejected(s.ledger, h);
    AdmittedByHooks(inc, bundle, s, c, Some(h.id));
  }

  /** Nothing refused so far, only calls of the repertoire made, each once, and budget left while looping. */
  ghost predicate Unrefused(inc: Incident, s: State) {
    && s.blocked == [] && |s.results| == |s.signatures|
    && NoRepeats(s.signatures) && (forall c :: c in s.signatures ==> c in REPERTOIRE)
    && (s.phase == Looping ==> s.callsUsed < inc.maxCalls)
    && (s.stopReason == Some(BUDGET_EXHAUSTED) ==> |s.results| >= inc.maxCalls)
  }

  lemma ExecutedStaysUnrefused(inc: Incident, s: State, a: Action, out: ToolOutput)
    requires Unrefused(inc, s) && |s.results| == s.callsUsed && a.CallTool?
    requires Call(a.tool, Strip(a.args)) in REPERTOIRE && Call(a.tool, Strip(a.args)) !in s.signatures
    ensures Unrefused(inc, ExecutedTurn(inc, s, a, out))
  {
  }

  /** A turn in which an admitted call is made. */
  lemma AdmittedTurn(inc: Incident, bundle: Bundle, stages: seq<StageName>, s: State, a: Action)
    requires a.CallTool? && Investigation.Decision(inc, bundle, stages, s) == a
    requires LoopVerdict(inc, bundle, s, Call(a.tool, WithDataset(a.args, inc.dataset)), a.hypothesis) == None
    ensures Turn(inc, bundle, stages, s) ==
              match inc.tools(s.callIdx, Call(a.tool, Strip(WithDataset(a.args, inc.dataset))))
              case None => RaisedTurn(inc, s, a)
              case Some(out) => ExecutedTurn(inc, s, a, out)
  {
  }

  lemma TurnStaysUnrefused(inc: Incident, bundle: Bundle, stages: seq<StageName>, s: State)
    requires Scripted(inc) && Routed(inc, bundle, stages)
    requires Governed(inc, bundle, s) && s.phase == Looping && Unrefused(inc, s)
    ensures Unrefused(inc, Turn(inc, bundle, stages, s))
  {
    var a := ScriptedAction(View(inc, bundle, stages, s));
    assert Investigation.Decision(inc, bundle, stages, s) == a;
    if a.CallTool? {
      ProposedCallAdmitted(inc, bundle, stages, s, a);
      AdmittedTurn(inc, bundle, stages, s, a);
      var answer := inc.tools(s.callIdx, Call(a.tool, Strip(WithDataset(a.args, inc.dataset))));
      if answer.Some? {
        ExecutedStaysUnrefused(inc, s, a, answer.value);
      }
    }
  }

  ghost predicate QuietHead(inc: Incident, bundle: Bundle, since: Ledger, s: State) {
    OnTrack(inc, bundle, since, s) && Unrefused(inc, s)
  }

  lemma HeadsStayQuiet(inc: Incident, bundle: Bundle, stages: seq<StageName>, since: Ledger, s: State, n: nat)
    requires Scripted(inc) && Routed(inc, bundle, stages) && QuietHead(inc, bundle, since, s)
    ensures QuietHead(inc, bundle, since, Head(inc, bundle, stages, s, n))
  {
    var quiet := x => QuietHead(inc, bundle, since, x);
    forall x | quiet(x) ensures quiet(Advance(inc, bundle, stages, x)) {
      AdvanceStaysOnTrack(inc, bundle, stages, since, x);
      if x.phase == Looping {
        TurnStaysUnrefused(inc, bundle, stages, x);
      }
    }
    InvariantOfIteration(x => Advance(inc, bundle, stages, x), quiet, s, n);
  }

  lemma OpeningIsQuiet(inc: Incident)
    requires Scripted(inc) && inc.maxCalls >= 2 && Opening(inc).Ran?
    ensures var o := Opening(inc);
            Routed(inc, o.bundle, o.stages) && QuietHead(inc, o.bundle, o.first.ledger, o.first)
  {
    OpeningIsGoverned(inc);
    assert TRIAGE == REPERTOIRE[0];
  }

  /** Distinct calls of the repertoire are at most seven. */
  lemma AtMostSeven(calls: seq<Call>)
    requires NoRepeats(calls) && forall c :: c in calls ==> c in REPERTOIRE
    ensures |calls| <= 7
  {
    var all := set c | c in REPERTOIRE;
    DistinctFit(calls, all);
    SizeAtMost(REPERTOIRE);
  }

  lemma {:induction false} DistinctFit<T>(s: seq<T>, all: set<T>)
    requires NoRepeats(s) && forall x :: x in s ==> x in all
    ensures |s| <= |all|
  {
    if s != [] {
      var init, last := s[..|s| - 1], s[|s| - 1];
      assert last in s;
      forall x | x in init ensures x in all - {last} {
        var i :| 0 <= i < |init| && init[i] == x;
        assert s[i] != s[|s| - 1] && x in s;
      }
      DistinctFit(init, all - {last});
    }
  }

  lemma {:induction false} SizeAtMost<T>(s: seq<T>)
    ensures |(set x | x in s)| <= |s|
  {
    if s != [] {
      SizeAtMost(s[1..]);
      assert (set x | x in s) == {s[0]} + (set x | x in s[1..]);
    }
  }

  /** With at least one call beyond triage, whatever the tools return: at every loop head nothing has been
      refused and at most seven calls were made; and a budget of eight is never what stops the run. */
  lemma ScriptedNeverRefused(inc: Incident, n: nat)
    requires Scripted(inc) && inc.maxCalls >= 2 && Opening(inc).Ran?
    ensures var s := RunHead(inc, n);
            && s.blocked == [] && |s.results| <= 7
            && (inc.maxCalls >= 8 ==> s.stopReason != Some(BUDGET_EXHAUSTED))
  {
    OpeningIsQuiet(inc);
    var o := Opening(inc);
    HeadsStayQuiet(inc, o.bundle, o.stages, o.first.ledger, o.first, n);
    AtMostSeven(RunHead(inc, n).signatures);
  }

  // ----- A budget of one ---------------------------------------------------------------------------------------

  /** Every signal has a tool beyond the funnel to test it. */
  function FirstProbe(signal: Signal): (tool: ToolName)
    ensures tool in Capabilities(signal) && (tool == InspectPaymentEvents || tool == AnalyzeBenefitGap)
  {
    if signal == DECISION_FRICTION then AnalyzeBenefitGap else InspectPaymentEvents
  }

  lemma {:induction false} ProposalsRaiseSomething(l: Ledger, proposals: seq<Proposal>)
    requires proposals != [] || l.items != []
    ensures ProposeAll(l, proposals).items != []
    decreases |proposals|
  {
    if proposals != [] && |proposals| > 1 {
      ProposalsRaiseSomething(l, proposals[..|proposals| - 1]);
    } else if proposals != [] {
      assert ProposeAll(l, proposals[..0]) == l;
    }
  }

  /** What the policy first sees: at least one hypothesis, all of them open. */
  lemma FirstHypotheses(inc: Incident)
    requires Scripted(inc) && Opening(inc).Ran?
    ensures var items := Opening(inc).first.ledger.items;
            items != [] && forall h :: h in items ==> Open(h)
  {
    var o := Opening(inc);
    var signals := Signals(o.stages, inc.missingData);
    SignalsAreRight(o.stages, inc.missingData);
    ProposalsAreOpen(EMPTY, Proposals(signals));
    ProposalsRaiseSomething(EMPTY, Proposals(signals));
    assert o.first.ledger == ProposeAll(EMPTY, inc.propose(signals));
  }

  /** With a stage localised or data missing, some tool of the bundle other than the funnel is pending. */
  lemma FirstPlan(stages: seq<StageName>, missingData: seq<string>, view: PolicyView)
    requires view.bundle == Route(stages, missingData) && view.calledTools == [GetPaymentFunnel]
    requires view.localizedStages == stages && view.missingData == missingData
    ensures Plan(view) != [] <==> stages != [] || missingData != []
  {
    if stages != [] || missingData != [] {
      var signals := Signals(stages, missingData);
      SignalsAreRight(stages, missingData);
      var tool := FirstProbe(signals[0]);
      BundleIsBounded(signals, tool);
      PlanHolds(view, Call(tool, map[]));
    }
  }

  /** After triage the policy asks for a call exactly when a stage is localised or data is missing. */
  lemma FirstDecision(inc: Incident)
    requires Scripted(inc) && Opening(inc).Ran?
    ensures var o := Opening(inc);
            ScriptedAction(View(inc, o.bundle, o.stages, o.first)).CallTool? <==>
            o.stages != [] || inc.missingData != []
  {
    var o := Opening(inc);
    var view := View(inc, o.bundle, o.stages, o.first);
    FirstHypotheses(inc);
    assert view.hypotheses[0] in view.hypotheses;
    assert ToolsOf(o.first.results) == [GetPaymentFunnel];
    FirstPlan(o.stages, inc.missingData, view);
  }

  lemma ExhaustedByHooks(inc: Incident, bundle: Bundle, s: State, c: Call, hypothesis: Option<nat>)
    requires c.tool in bundle.allowed && ValidateArguments(c.tool, c.args) == None && DatasetRefArg !in c.args
    requires s.callsUsed >= inc.maxCalls
    ensures LoopVerdict(inc, bundle, s, Aimed(c, inc.dataset), hypothesis) == Some(BUDGET_EXHAUSTED_BLOCK)
  {
    assert Strip(WithDataset(c.args, inc.dataset)) == c.args;
  }

  lemma PlannedFits(view: PolicyView, stages: seq<StageName>, missingData: seq<string>)
    requires view.bundle == Route(stages, missingData) && Plan(view) != []
    ensures var c := Plan(view)[0];
            c.tool in view.bundle.allowed && ValidateArguments(c.tool, c.args) == None && DatasetRefArg !in c.args
  {
    var c := Plan(view)[0];
    assert c in Plan(view);
    PlanHolds(view, c);
    BundleIsBounded(Signals(stages, missingData), c.tool);
    PendingFits(view, c);
  }

  /** With no budget left the hooks refuse whatever this policy plans, and it plans the same again. */
  lemma ExhaustedTurn(inc: Incident, bundle: Bundle, stages: seq<StageName>, s: State, a: Action)
    requires Scripted(inc) && Routed(inc, bundle, stages) && s.callsUsed >= inc.maxCalls
    requires a == ScriptedAction(View(inc, bundle, stages, s)) && a.CallTool?
    ensures Turn(inc, bundle, stages, s) == BlockedTurn(s, a, BUDGET_EXHAUSTED_BLOCK)
    ensures ScriptedAction(View(inc, bundle, stages, BlockedTurn(s, a, BUDGET_EXHAUSTED_BLOCK))) == a
  {
    var view := View(inc, bundle, stages, s);
    assert Investigation.Decision(inc, bundle, stages, s) == a;
    DecisionForm(view, a);
    PlannedFits(view, stages, inc.missingData);
    ExhaustedByHooks(inc, bundle, s, Call(a.tool, a.args), a.hypothesis);
    SamePlan(view, View(inc, bundle, stages, BlockedTurn(s, a, BUDGET_EXHAUSTED_BLOCK)));
  }

  /** The plan does not depend on what was refused. */
  lemma SamePlan(view: PolicyView, view': PolicyView)
    requires view' == view.(blockedAttempts := view'.blockedAttempts)
    ensures ScriptedAction(view') == ScriptedAction(view)
  {
    SamePlanOver(view, view', view.bundle.preferred);
  }

  lemma {:induction false} SamePlanOver(view: PolicyView, view': PolicyView, tools: seq<ToolName>)
    requires view' == view.(blockedAttempts := view'.blockedAttempts)
    ensures PlanOver(view', tools) == PlanOver(view, tools)
  {
    if tools != [] {
      SamePlanOver(view, view', tools[..|tools| - 1]);
    }
  }

  const THREE_REFUSALS: seq<BlockCode> := [BUDGET_EXHAUSTED_BLOCK, BUDGET_EXHAUSTED_BLOCK, BUDGET_EXHAUSTED_BLOCK]

  lemma ExhaustedLoop(inc: Incident, bundle: Bundle, stages: seq<StageName>, s: State)
    requires Scripted(inc) && Routed(inc, bundle, stages) && LoopHead(inc, s)
    requires s.phase == Looping && s.callsUsed >= inc.maxCalls
    requires ScriptedAction(View(inc, bundle, stages, s)).CallTool?
    ensures |LoopEnd(inc, bundle, stages, s).blocked| == MAX_BLOCKED_ATTEMPTS
    ensures s.blocked <= LoopEnd(inc, bundle, stages, s).blocked
    ensures forall i :: |s.blocked| <= i < MAX_BLOCKED_ATTEMPTS ==>
              LoopEnd(inc, bundle, stages, s).blocked[i] == BUDGET_EXHAUSTED_BLOCK
    decreases MAX_BLOCKED_ATTEMPTS - |s.blocked|
  {
    TurnCountsDown(inc, bundle, stages, s);
    ExhaustedTurn(inc, bundle, stages, s, ScriptedAction(View(inc, bundle, stages, s)));
    var s' := Turn(inc, bundle, stages, s);
    if s'.phase == Looping {
      ExhaustedLoop(inc, bundle, stages, s');
    }
  }

  /** A run of this policy has calls refused exactly when its whole budget is the triage call and triage found
      something to investigate; the three refusals are then all for the budget. */
  lemma ScriptedRefusedIff(inc: Incident)
    requires Scripted(inc) && Run(inc).Done?
    ensures Run(inc).result.blocked ==
              (if inc.maxCalls == 1 && (Opening(inc).stages != [] || inc.missingData != []) then THREE_REFUSALS else [])
  {
    TriageBlockedIff(inc);
    if inc.maxCalls >= 2 {
      var n := RunEnds(inc);
      ScriptedNeverRefused(inc, n);
    } else {
      SingleCallRun(inc);
    }
  }

  lemma SingleCallRun(inc: Incident)
    requires Scripted(inc) && inc.maxCalls == 1 && Opening(inc).Ran?
    ensures LoopHead(inc, Opening(inc).first)
    ensures LoopEnd(inc, Opening(inc).bundle, Opening(inc).stages, Opening(inc).first).blocked ==
              (if Opening(inc).stages != [] || inc.missingData != [] then THREE_REFUSALS else [])
  {
    var o := Opening(inc);
    FirstDecision(inc);
    OpeningIsLoopHead(inc);
    if ScriptedAction(View(inc, o.bundle, o.stages, o.first)).CallTool? {
      ExhaustedLoop(inc, o.bundle, o.stages, o.first);
    } else {
      assert Investigation.Decision(inc, o.bundle, o.stages, o.first) == Finish;
      assert Turn(inc, o.bundle, o.stages, o.first) == FinishTurn(o.first);
    }
  }
}
