/** The governed investigation as a state machine: which calls the before-hooks admit, what the after-hooks
    do with a result, and one turn of the loop after another. The policy and the tools are arbitrary. */
module Investigation {
  import opened Domain
  import opened Identifiers
  import opened EvidenceContract
  import opened Tooling
  import opened Routing
  import opened HypothesisLedger

  const MAX_BLOCKED_ATTEMPTS: nat := 3

  // ----- The policy and the tools ----------------------------------------------------------------------

  datatype BlockCode =
    | TOOL_NOT_IN_BUNDLE | OUT_OF_INCIDENT_SCOPE | SCHEMA_INVALID | BUDGET_EXHAUSTED_BLOCK
    | HYPOTHESIS_REJECTED | POLICY_VIOLATION

  /** What the policy is allowed to know at each step. */
  datatype PolicyView = PolicyView(
    bundle: Bundle, localizedStages: seq<StageName>, observedLoss: int, evidence: seq<Evidence>,
    hypotheses: seq<Hypothesis>, rejected: map<Label, Option<Reason>>, missingData: seq<string>,
    remainingBudget: nat, calledTools: seq<ToolName>, calledSignatures: seq<Call>, blockedAttempts: seq<BlockCode>)

  datatype Action = Finish | CallTool(tool: ToolName, args: Arguments, hypothesis: Option<nat>)

  datatype ToolOutput = ToolOutput(status: ToolStatus, evidence: seq<EvidenceDraft>)

  datatype Proposal = Proposal(cause: Label, tool: Option<ToolName>)

  /** An incident to investigate. `decide` may depend on the turn as well as on what the policy sees, so it
      stands for any policy, with or without memory; `tools` answers the n-th call, `None` when the tool
      raises. */
  datatype Incident = Incident(
    dataset: string, maxCalls: int, prefix: string, missingData: seq<string>,
    propose: seq<Signal> -> seq<Proposal>,
    decide: (nat, PolicyView) -> Action,
    tools: (nat, Call) -> Option<ToolOutput>)

  // ----- The state of a run --------------------------------------------------------------------------------

  datatype StepStatus = Finished | BlockedStep(code: BlockCode) | Executed(status: ToolStatus)

  datatype StepRecord = StepRecord(step: nat, tool: Option<ToolName>, hypothesis: Option<nat>, status: StepStatus)

  datatype StopReason = BUDGET_EXHAUSTED | NO_OPEN_HYPOTHESES | ALL_HYPOTHESES_RESOLVED

  datatype Phase = Looping | Stopped | Raised

  datatype State = State(
    ledger: Ledger, evidence: seq<Evidence>,
    callsUsed: nat, policyCount: nat, seen: set<Call>,
    results: seq<ToolResult>, signatures: seq<Call>, callIdx: nat,
    steps: seq<StepRecord>, blocked: seq<BlockCode>,
    stopReason: Option<StopReason>, phase: Phase)

  // ----- Before-hooks ----------------------------------------------------------------------------------------

  /** The dataset a call asks for, if it names one, is the incident's. */
  predicate InScope(inc: Incident, args: Arguments) {
    DatasetRefArg in args ==> args[DatasetRefArg] == JNull || args[DatasetRefArg] == JString(inc.dataset)
  }

  predicate RejectedTarget(l: Ledger, hypothesis: Option<nat>) {
    hypothesis.Some? && Get(l.items, hypothesis.value).Some? && Get(l.items, hypothesis.value).value.status == Rejected
  }

  /** The call policy: read-only tools only (all registered ones are), a call budget, and no repeats. */
  predicate PolicyAdmits(inc: Incident, s: State, call: Call) {
    s.policyCount < inc.maxCalls && call !in s.seen
  }

  function TriageVerdict(inc: Incident, s: State, call: Call): Option<BlockCode> {
    if !InScope(inc, call.args) then Some(OUT_OF_INCIDENT_SCOPE)
    else if ValidateArguments(call.tool, Strip(call.args)) != None then Some(SCHEMA_INVALID)
    else if Left(inc.maxCalls, s.callsUsed) == 0 then Some(BUDGET_EXHAUSTED_BLOCK)
    else if !PolicyAdmits(inc, s, call) then Some(POLICY_VIOLATION)
    else None
  }

  function LoopVerdict(inc: Incident, bundle: Bundle, s: State, call: Call,
                       hypothesis: Option<nat>): Option<BlockCode> {
    if call.tool !in bundle.allowed then Some(TOOL_NOT_IN_BUNDLE)
    else if !InScope(inc, call.args) then Some(OUT_OF_INCIDENT_SCOPE)
    else if ValidateArguments(call.tool, Strip(call.args)) != None then Some(SCHEMA_INVALID)
    else if Left(inc.maxCalls, s.callsUsed) == 0 then Some(BUDGET_EXHAUSTED_BLOCK)
    else if RejectedTarget(s.ledger, hypothesis) then Some(HYPOTHESIS_REJECTED)
    else if !PolicyAdmits(inc, s, call) then Some(POLICY_VIOLATION)
    else None
  }

  // ----- After-hooks -------------------------------------------------------------------------------------------

  /** Links a call's evidence to the hypothesis it served, unless that is settled other than NEEDS_DATA. */
  function Linked(l: Ledger, hypothesis: Option<nat>, codes: seq<string>): Ledger {
    if hypothesis.None? || codes == [] then l
    else
      match Get(l.items, hypothesis.value)
      case None => l
      case Some(h) =>
        if h.status in {Rejected, Supported, PartlySupported} then l else RecordEvidence(l, hypothesis.value, codes)
  }

  function Produced(drafts: seq<EvidenceDraft>): set<EvidenceType> {
    set d | d in drafts :: d.evidenceType
  }

  /** Settles the bound hypothesis when its evidence, or its probe, has spoken. */
  function Judged(l: Ledger, hypothesis: Option<nat>, result: ToolResult): Ledger {
    if hypothesis.None? then l
    else
      match Get(l.items, hypothesis.value)
      case None => l
      case Some(h) =>
        if Terminal(h.status) then l
        else
          var probed := result.status == Success && DesignatedProbe(result.tool, h.cause);
          match Evaluate(h.cause, Produced(result.evidence), probed)
          case None => l
          case Some(verdict) => Resolve(l, hypothesis.value, verdict.0, verdict.1)
  }

  function StopAfter(inc: Incident, used: nat, l: Ledger, status: ToolStatus): Option<StopReason> {
    if Left(inc.maxCalls, used) == 0 then Some(BUDGET_EXHAUSTED)
    else if status == Failed && !AnyOpen(l) then Some(NO_OPEN_HYPOTHESES)
    else if !AnyOpen(l) && l.items != [] then Some(ALL_HYPOTHESES_RESOLVED)
    else None
  }

  // ----- Turns ---------------------------------------------------------------------------------------------------

  function StagesIn(drafts: seq<EvidenceDraft>): seq<StageName> {
    if drafts == [] then []
    else (if drafts[0].stage.Some? then [drafts[0].stage.value] else []) + StagesIn(drafts[1..])
  }

  /** `int(sum(...))` of the losses recorded so far. */
  function ObservedLoss(items: seq<Evidence>): int {
    if items == [] then 0 else items[0].Loss() + ObservedLoss(items[1..])
  }

  function ToolsOf(results: seq<ToolResult>): (tools: seq<ToolName>)
    ensures |tools| == |results|
    ensures forall i :: 0 <= i < |results| ==> tools[i] == results[i].tool
  {
    seq(|results|, i requires 0 <= i < |results| => results[i].tool)
  }

  function View(inc: Incident, bundle: Bundle, stages: seq<StageName>, s: State): PolicyView {
    PolicyView(bundle, stages, ObservedLoss(s.evidence), s.evidence, s.ledger.items, s.ledger.rejected, inc.missingData,
               Left(inc.maxCalls, s.callsUsed), ToolsOf(s.results), s.signatures, s.blocked)
  }

  function ResultOf(s: State, tool: ToolName, out: ToolOutput): ToolResult {
    ToolResult(CallId(s.callIdx), tool, out.status, out.evidence)
  }

  function FinishTurn(s: State): State {
    s.(steps := s.steps + [StepRecord(|s.steps|, None, None, Finished)], phase := Stopped)
  }

  function BlockedTurn(s: State, a: Action, code: BlockCode): State
    requires a.CallTool?
  {
    s.(blocked := s.blocked + [code],
       steps := s.steps + [StepRecord(|s.steps|, Some(a.tool), a.hypothesis, BlockedStep(code))],
       phase := if |s.blocked| + 1 >= MAX_BLOCKED_ATTEMPTS then Stopped else Looping)
  }

  /** The ledger after a call's result went through the registration and resolution hooks. */
  function LedgerAfter(inc: Incident, s: State, a: Action, result: ToolResult): Ledger
    requires a.CallTool?
  {
    var recorded := Coded(inc.prefix, |s.evidence|, result.evidence, result.tool, result.callId);
    Judged(Linked(s.ledger, a.hypothesis, CodesIn(recorded)), a.hypothesis, result)
  }

  function CodesIn(items: seq<Evidence>): (codes: seq<string>)
    ensures |codes| == |items|
  {
    seq(|items|, i requires 0 <= i < |items| => items[i].code)
  }

  function ExecutedTurn(inc: Incident, s: State, a: Action, out: ToolOutput): State
    requires a.CallTool?
  {
    var result := ResultOf(s, a.tool, out);
    var ledger := LedgerAfter(inc, s, a, result);
    var stop := StopAfter(inc, s.callsUsed + 1, ledger, out.status);
    State(ledger,
          s.evidence + Coded(inc.prefix, |s.evidence|, result.evidence, result.tool, result.callId),
          s.callsUsed + 1, s.policyCount + 1, s.seen + {Call(a.tool, WithDataset(a.args, inc.dataset))},
          s.results + [result], s.signatures + [Call(a.tool, Strip(a.args))], s.callIdx + 1,
          s.steps + [StepRecord(|s.steps|, Some(a.tool), a.hypothesis, Executed(out.status))],
          s.blocked, stop, if stop.Some? then Stopped else Looping)
  }

  /** A tool raised: the policy had admitted the call, and the run ends there. */
  function RaisedTurn(inc: Incident, s: State, a: Action): State
    requires a.CallTool?
  {
    s.(policyCount := s.policyCount + 1, seen := s.seen + {Call(a.tool, WithDataset(a.args, inc.dataset))},
       phase := Raised)
  }

  function Decision(inc: Incident, bundle: Bundle, stages: seq<StageName>, s: State): Action {
    inc.decide(|s.steps|, View(inc, bundle, stages, s))
  }

  /** One turn of the loop. The dataset is injected over whatever the policy supplied. */
  function Turn(inc: Incident, bundle: Bundle, stages: seq<StageName>, s: State): State {
    var a := Decision(inc, bundle, stages, s);
    if a == Finish then FinishTurn(s)
    else
      var call := Call(a.tool, WithDataset(a.args, inc.dataset));
      match LoopVerdict(inc, bundle, s, call, a.hypothesis)
      case Some(code) => BlockedTurn(s, a, code)
      case None =>
        match inc.tools(s.callIdx, Call(a.tool, Strip(call.args)))
        case None => RaisedTurn(inc, s, a)
        case Some(out) => ExecutedTurn(inc, s, a, out)
  }

  /** The state from which the loop's termination measure counts down. */
  predicate LoopHead(inc: Incident, s: State) {
    s.phase == Looping ==> |s.blocked| < MAX_BLOCKED_ATTEMPTS && s.callsUsed <= inc.maxCalls
  }

  function Measure(inc: Incident, s: State): int {
    (MAX_BLOCKED_ATTEMPTS - |s.blocked|) + (inc.maxCalls - s.callsUsed)
  }

  /** Whatever the policy does, a turn that loops again has blocked one attempt or spent one call. */
  lemma TurnCountsDown(inc: Incident, bundle: Bundle, stages: seq<StageName>, s: State)
    requires s.phase == Looping && LoopHead(inc, s)
    ensures var s' := Turn(inc, bundle, stages, s);
            LoopHead(inc, s') && Measure(inc, s) >= 1
                && (s'.phase == Looping ==> Measure(inc, s') == Measure(inc, s) - 1)
  {
  }

  /** A turn while the loop goes on, nothing once it has stopped. */
  function Advance(inc: Incident, bundle: Bundle, stages: seq<StageName>, s: State): State {
    if s.phase == Looping then Turn(inc, bundle, stages, s) else s
  }

  function Iterate<T>(step: T -> T, s: T, n: nat): T {
    if n == 0 then s else step(Iterate(step, s, n - 1))
  }

  /** The state after `n` turns: the `n`-th loop head, or where the loop stopped before. */
  function Head(inc: Incident, bundle: Bundle, stages: seq<StageName>, s: State, n: nat): State {
    Iterate(x => Advance(inc, bundle, stages, x), s, n)
  }

  lemma {:induction false} InvariantOfIteration<T(!new)>(step: T -> T, inv: T -> bool, s: T, n: nat)
    requires inv(s) && forall x :: inv(x) ==> inv(step(x))
    ensures inv(Iterate(step, s, n))
  {
    if n > 0 {
      InvariantOfIteration(step, inv, s, n - 1);
    }
  }

  lemma {:induction false} IterationComposes<T>(step: T -> T, s: T, m: nat, n: nat)
    ensures Iterate(step, s, m + n) == Iterate(step, Iterate(step, s, m), n)
  {
    if n > 0 {
      IterationComposes(step, s, m, n - 1);
    }
  }

  /** The state the loop ends in. */
  function LoopEnd(inc: Incident, bundle: Bundle, stages: seq<StageName>, s: State): (end: State)
    requires LoopHead(inc, s)
    ensures end.phase != Looping
    decreases s.phase == Looping, Measure(inc, s)
  {
    if s.phase != Looping then s
    else
      TurnCountsDown(inc, bundle, stages, s);
      LoopEnd(inc, bundle, stages, Turn(inc, bundle, stages, s))
  }

  /** The number of turns until the loop ends: at most one per refusal and per call left. */
  function Turns(inc: Incident, bundle: Bundle, stages: seq<StageName>, s: State): (n: nat)
    requires LoopHead(inc, s)
    ensures s.phase == Looping ==> n <= Measure(inc, s)
    decreases s.phase == Looping, Measure(inc, s)
  {
    if s.phase != Looping then 0
    else
      TurnCountsDown(inc, bundle, stages, s);
      1 + Turns(inc, bundle, stages, Turn(inc, bundle, stages, s))
  }

  lemma {:induction false} IterateFromNext<T>(step: T -> T, s: T, n: nat)
    ensures Iterate(step, s, n + 1) == Iterate(step, step(s), n)
  {
    if n > 0 {
      IterateFromNext(step, s, n - 1);
    }
  }

  lemma HeadFromNext(inc: Incident, bundle: Bundle, stages: seq<StageName>, s: State, n: nat)
    requires s.phase == Looping
    ensures Head(inc, bundle, stages, s, n + 1) == Head(inc, bundle, stages, Turn(inc, bundle, stages, s), n)
  {
    IterateFromNext(x => Advance(inc, bundle, stages, x), s, n);
  }

  lemma EndFromNext(inc: Incident, bundle: Bundle, stages: seq<StageName>, s: State)
    requires s.phase == Looping && LoopHead(inc, s)
    ensures var s' := Turn(inc, bundle, stages, s);
            && LoopHead(inc, s') && LoopEnd(inc, bundle, stages, s) == LoopEnd(inc, bundle, stages, s')
            && Turns(inc, bundle, stages, s) == 1 + Turns(inc, bundle, stages, s')
  {
    TurnCountsDown(inc, bundle, stages, s);
  }

  /** One turn on: the loop from the next head has the same end, in one turn less. */
  lemma OneTurnOn(inc: Incident, bundle: Bundle, stages: seq<StageName>, s: State) returns (next: State)
    requires s.phase == Looping && LoopHead(inc, s)
    ensures LoopHead(inc, next)
    ensures LoopEnd(inc, bundle, stages, s) == LoopEnd(inc, bundle, stages, next)
    ensures Turns(inc, bundle, stages, s) == 1 + Turns(inc, bundle, stages, next)
    ensures Head(inc, bundle, stages, s, Turns(inc, bundle, stages, s)) ==
            Head(inc, bundle, stages, next, Turns(inc, bundle, stages, next))
  {
    EndFromNext(inc, bundle, stages, s);
    next := Turn(inc, bundle, stages, s);
    HeadFromNext(inc, bundle, stages, s, Turns(inc, bundle, stages, next));
  }

  lemma {:induction false} LoopEndIsAHead(inc: Incident, bundle: Bundle, stages: seq<StageName>, s: State)
    requires LoopHead(inc, s)
    ensures LoopEnd(inc, bundle, stages, s) == Head(inc, bundle, stages, s, Turns(inc, bundle, stages, s))
    decreases Turns(inc, bundle, stages, s)
  {
    if s.phase == Looping {
      var next := OneTurnOn(inc, bundle, stages, s);
      LoopEndIsAHead(inc, bundle, stages, next);
    }
  }

  // ----- A whole run -----------------------------------------------------------------------------------------------

  const START := State(EMPTY, [], 0, 0, {}, [], [], 0, [], [], None, Looping)

  const TRIAGE := Call(GetPaymentFunnel, map[])

  function ProposeAll(l: Ledger, proposals: seq<Proposal>): Ledger {
    if proposals == [] then l
    else
      var init, last := proposals[..|proposals| - 1], proposals[|proposals| - 1];
      Propose(ProposeAll(l, init), last.cause, last.tool)
  }

  datatype Outcome =
    | TriageBlocked(code: BlockCode)
    | ToolFailed
    | Ran(bundle: Bundle, stages: seq<StageName>, first: State)

  /** Triage, routing and the first hypotheses: everything before the loop. */
  function Opening(inc: Incident): Outcome {
    match TriageVerdict(inc, START, Aimed(TRIAGE, inc.dataset))
    case Some(code) => TriageBlocked(code)
    case None =>
      match inc.tools(0, TRIAGE)
      case None => ToolFailed
      case Some(out) =>
        var stages := StagesIn(out.evidence);
        var bundle := Route(stages, inc.missingData);
        Ran(bundle, stages, Triaged(inc, out, bundle))
  }

  function Triaged(inc: Incident, out: ToolOutput, bundle: Bundle): State {
    var result := ResultOf(START, GetPaymentFunnel, out);
    State(ProposeAll(EMPTY, inc.propose(bundle.signals)),
          Coded(inc.prefix, 0, result.evidence, result.tool, result.callId),
          1, 1, {Aimed(TRIAGE, inc.dataset)}, [result], [TRIAGE], 1,
          [StepRecord(0, Some(GetPaymentFunnel), None, Executed(out.status))], [], None, Looping)
  }

  datatype ExitReason = Stop(reason: StopReason) | POLICY_FINISHED

  datatype HarnessResult = HarnessResult(
    evidence: seq<Evidence>, results: seq<ToolResult>, hypotheses: seq<Hypothesis>,
    anomalousStages: seq<StageName>, missingData: seq<string>, bundle: Bundle,
    exitReason: ExitReason, steps: seq<StepRecord>, blocked: seq<BlockCode>)

  /** The returned result: the final sweep, and the early-exit reason if there was one. */
  function Concluded(inc: Incident, bundle: Bundle, stages: seq<StageName>, s: State): HarnessResult {
    HarnessResult(s.evidence, s.results, Sweep(s.ledger, |s.ledger.items|).items, stages, inc.missingData, bundle,
                  if s.stopReason.Some? then Stop(s.stopReason.value) else POLICY_FINISHED, s.steps, s.blocked)
  }

  datatype RunResult = Blocked(code: BlockCode) | RaisedByTool | Done(result: HarnessResult)

  lemma OpeningIsLoopHead(inc: Incident)
    requires Opening(inc).Ran?
    ensures LoopHead(inc, Opening(inc).first)
  {
  }

  function Run(inc: Incident): RunResult {
    match Opening(inc)
    case TriageBlocked(code) => Blocked(code)
    case ToolFailed => RaisedByTool
    case Ran(bundle, stages, first) =>
      OpeningIsLoopHead(inc);
      var last := LoopEnd(inc, bundle, stages, first);
      if last.phase == Phase.Raised then RaisedByTool else Done(Concluded(inc, bundle, stages, last))
  }

  /** Triage is refused exactly when there is no budget at all, and then for that reason; with a budget, the run
      fails before the loop exactly when the funnel tool raises on its first call. */
  lemma TriageBlockedIff(inc: Incident)
    ensures Opening(inc).TriageBlocked? <==> inc.maxCalls <= 0
    ensures Opening(inc).TriageBlocked? ==> Opening(inc).code == BUDGET_EXHAUSTED_BLOCK
    ensures Opening(inc).ToolFailed? <==> inc.maxCalls > 0 && inc.tools(0, Call(GetPaymentFunnel, map[])) == None
  {
    assert Strip(Aimed(TRIAGE, inc.dataset).args) == map[];
  }
}
