/** `DiagnosticHarness.run` as it is written: mutable objects shared by two hook chains and a loop that
    appends to its local lists. It computes exactly what the state machine of `Investigation` describes. */
module Harness {
  import opened Domain
  import opened Identifiers
  import opened Tooling
  import opened Routing
  import opened HypothesisLedger
  import opened Investigation
  import Governance

  /** The early-exit latch: once set it stays. */
  class EarlyExitHook {
    var stopReason: Option<StopReason>

    constructor ()
      ensures stopReason == None
    {
      stopReason := None;
    }

    method Observe(inc: Incident, budget: Budget, hypotheses: HypothesisStore, status: ToolStatus)
      requires budget.maxCalls == inc.maxCalls
      modifies this
      ensures stopReason == if old(stopReason).Some? then old(stopReason)
                            else StopAfter(inc, budget.callsUsed, hypotheses.State(), status)
    {
      if stopReason.Some? {
        return;
      }
      if budget.Exhausted() {
        stopReason := Some(BUDGET_EXHAUSTED);
        return;
      }
      var anyOpen := AnyOpen(hypotheses.State());
      if status == Failed && !anyOpen {
        stopReason := Some(NO_OPEN_HYPOTHESES);
        return;
      }
      if !anyOpen && hypotheses.items != [] {
        stopReason := Some(ALL_HYPOTHESES_RESOLVED);
      }
    }
  }

  /** The objects of one run, which both hook chains share. */
  class Workbench {
    const inc: Incident
    const budget: Budget
    const policy: ToolPolicy
    const evidence: EvidenceLedger
    const hypotheses: HypothesisStore
    const earlyExit: EarlyExitHook
    ghost const Repr: set<object>

    constructor (inc: Incident)
      ensures Valid() && fresh(Repr) && this.inc == inc
      ensures budget.callsUsed == 0 && policy.callCount == 0 && policy.seen == {}
      ensures evidence.items == [] && hypotheses.State() == EMPTY && earlyExit.stopReason == None
    {
      this.inc := inc;
      var b := new Budget(inc.maxCalls);
      var p := new ToolPolicy(inc.maxCalls);
      var e := new EvidenceLedger(inc.prefix);
      var h := new HypothesisStore();
      var x := new EarlyExitHook();
      budget, policy, evidence, hypotheses, earlyExit := b, p, e, h, x;
      Repr := {b, p, e, h, x};
    }

    ghost predicate Valid()
      reads this, Repr
    {
      && Repr == {budget, policy, evidence, hypotheses, earlyExit}
      && budget.maxCalls == inc.maxCalls && policy.maxCalls == inc.maxCalls
      && evidence.prefix == inc.prefix && evidence.counter == |evidence.items|
    }

    /** The part of the run's state these objects hold. */
    ghost predicate Holds(s: State)
      reads this, Repr
      requires Valid()
    {
      && budget.callsUsed == s.callsUsed && policy.callCount == s.policyCount && policy.seen == s.seen
      && evidence.items == s.evidence && hypotheses.State() == s.ledger && earlyExit.stopReason == s.stopReason
    }

    /** Scope, schema and budget: the hooks both chains run, in the order of `LoopVerdict`. */
    method SharedChecks(call: Call) returns (verdict: Option<BlockCode>)
      requires Valid()
      ensures verdict == if !InScope(inc, call.args) then Some(OUT_OF_INCIDENT_SCOPE)
                         else if ValidateArguments(call.tool, Strip(call.args)) != None then Some(SCHEMA_INVALID)
                         else if Left(inc.maxCalls, budget.callsUsed) == 0 then Some(BUDGET_EXHAUSTED_BLOCK)
                         else None
    {
      if !InScope(inc, call.args) {
        return Some(OUT_OF_INCIDENT_SCOPE);
      }
      if ValidateArguments(call.tool, Strip(call.args)) != None {
        return Some(SCHEMA_INVALID);
      }
      if budget.Exhausted() {
        return Some(BUDGET_EXHAUSTED_BLOCK);
      }
      verdict := None;
    }

    method BeforeTriage(call: Call, ghost s: State) returns (verdict: Option<BlockCode>)
      requires Valid() && Holds(s)
      modifies policy
      ensures Valid() && verdict == TriageVerdict(inc, s, call)
      ensures Holds(if verdict.None? then s.(policyCount := s.policyCount + 1, seen := s.seen + {call}) else s)
    {
      verdict := SharedChecks(call);
      if verdict.Some? {
        return;
      }
      var admitted := policy.BeforeCall(call);
      verdict := if admitted then None else Some(POLICY_VIOLATION);
    }

    method BeforeLoopCall(bundle: Bundle, call: Call, hypothesis: Option<nat>, ghost s: State)
      returns (verdict: Option<BlockCode>)
      requires Valid() && Holds(s)
      modifies policy
      ensures Valid() && verdict == LoopVerdict(inc, bundle, s, call, hypothesis)
      ensures Holds(if verdict.None? then s.(policyCount := s.policyCount + 1, seen := s.seen + {call}) else s)
    {
      if call.tool !in bundle.allowed {
        return Some(TOOL_NOT_IN_BUNDLE);
      }
      verdict := SharedChecks(call);
      if verdict.Some? {
        return;
      }
      if RejectedTarget(hypotheses.State(), hypothesis) {
        return Some(HYPOTHESIS_REJECTED);
      }
      var admitted := policy.BeforeCall(call);
      verdict := if admitted then None else Some(POLICY_VIOLATION);
    }

    /** Registration: record the drafts and link their codes to the hypothesis the call served. */
    method Register(result: ToolResult, hypothesis: Option<nat>)
      requires Valid()
      modifies evidence, hypotheses
      ensures Valid()
      ensures evidence.items == old(evidence.items)
                + Coded(inc.prefix, |old(evidence.items)|, result.evidence, result.tool, result.callId)
      ensures hypotheses.State() == Linked(old(hypotheses.State()), hypothesis,
                CodesIn(Coded(inc.prefix, |old(evidence.items)|, result.evidence, result.tool, result.callId)))
    {
      var recorded := evidence.RecordResult(result);
      var codes := CodesIn(recorded);
      if hypothesis.None? || codes == [] {
        return;
      }
      var h := Get(hypotheses.items, hypothesis.value);
      if h.None? || h.value.status in {Rejected, Supported, PartlySupported} {
        return;
      }
      hypotheses.Attach(hypothesis.value, codes);
    }

    /** Resolution: settle the bound hypothesis if its evidence or its probe has spoken. */
    method Judge(result: ToolResult, hypothesis: Option<nat>)
      requires Valid()
      modifies hypotheses
      ensures Valid() && hypotheses.State() == Judged(old(hypotheses.State()), hypothesis, result)
    {
      if hypothesis.None? {
        return;
      }
      var h := Get(hypotheses.items, hypothesis.value);
      if h.None? || HypothesisLedger.Terminal(h.value.status) {
        return;
      }
      var probed := result.status == Success && DesignatedProbe(result.tool, h.value.cause);
      var decision := Evaluate(h.value.cause, Produced(result.evidence), probed);
      if decision.Some? {
        VerdictIsTerminal(h.value.cause, Produced(result.evidence), probed);
        hypotheses.Settle(hypothesis.value, decision.value.0, decision.value.1);
      }
    }

    /** Everything after a loop call returned: consume the budget, then the after-hooks in order. */
    method AfterLoopCall(a: Action, result: ToolResult, ghost s: State)
      requires Valid() && a.CallTool? && s.stopReason.None?
      requires result == ResultOf(s, a.tool, ToolOutput(result.status, result.evidence))
      requires Holds(Charged(inc, s, a))
      modifies budget, evidence, hypotheses, earlyExit
      ensures Valid() && Holds(ExecutedTurn(inc, s, a, ToolOutput(result.status, result.evidence)))
    {
      budget.Consume();
      Register(result, a.hypothesis);
      Judge(result, a.hypothesis);
      earlyExit.Observe(inc, budget, hypotheses, result.status);
    }

    /** One triage call through its hook chain. */
    method InvokeTriage() returns (outcome: CallOutcome)
      requires Valid() && Holds(START)
      modifies policy, budget, evidence, hypotheses
      ensures Valid()
      ensures match outcome
              case Refused(code) => TriageVerdict(inc, START, Aimed(TRIAGE, inc.dataset)) == Some(code)
              case Broke =>
                TriageVerdict(inc, START, Aimed(TRIAGE, inc.dataset)) == None && inc.tools(0, TRIAGE) == None
              case Returned(result) =>
                && TriageVerdict(inc, START, Aimed(TRIAGE, inc.dataset)) == None
                && inc.tools(0, TRIAGE) == Some(ToolOutput(result.status, result.evidence))
                && result == ResultOf(START, GetPaymentFunnel, ToolOutput(result.status, result.evidence))
                && hypotheses.State() == EMPTY && Holds(BeforeHypotheses(inc, result))
    {
      var verdict := BeforeTriage(Aimed(TRIAGE, inc.dataset), START);
      if verdict.Some? {
        return Refused(verdict.value);
      }
      var answer := inc.tools(0, TRIAGE);
      if answer.None? {
        return Broke;
      }
      budget.Consume();
      var result := ToolResult(CallId(0), GetPaymentFunnel, answer.value.status, answer.value.evidence);
      Register(result, None);
      outcome := Returned(result);
    }

    /** One call of the loop through its hook chain. */
    method Invoke(bundle: Bundle, a: Action, callIdx: nat, ghost s: State) returns (outcome: CallOutcome)
      requires Valid() && Holds(s) && a.CallTool? && s.callIdx == callIdx && s.stopReason.None?
      modifies policy, budget, evidence, hypotheses, earlyExit
      ensures Valid()
      ensures var verdict := LoopVerdict(inc, bundle, s, Call(a.tool, WithDataset(a.args, inc.dataset)), a.hypothesis);
              var answer := inc.tools(callIdx, Call(a.tool, Strip(WithDataset(a.args, inc.dataset))));
              match outcome
              case Refused(code) => verdict == Some(code) && Holds(s)
              case Broke => verdict == None && answer == None
              case Returned(result) =>
                && verdict == None && answer == Some(ToolOutput(result.status, result.evidence))
                && result == ResultOf(s, a.tool, answer.value) && Holds(ExecutedTurn(inc, s, a, answer.value))
    {
      var call := Call(a.tool, WithDataset(a.args, inc.dataset));
      var verdict := BeforeLoopCall(bundle, call, a.hypothesis, s);
      if verdict.Some? {
        return Refused(verdict.value);
      }
      var answer := inc.tools(callIdx, Call(a.tool, Strip(call.args)));
      if answer.None? {
        return Broke;
      }
      var result := ToolResult(CallId(callIdx), a.tool, answer.value.status, answer.value.evidence);
      AfterLoopCall(a, result, s);
      outcome := Returned(result);
    }
  }

  datatype CallOutcome = Refused(code: BlockCode) | Broke | Returned(result: ToolResult)

  /** Triage has run; no hypothesis has been raised yet. */
  ghost function BeforeHypotheses(inc: Incident, result: ToolResult): State {
    START.(evidence := Coded(inc.prefix, 0, result.evidence, result.tool, result.callId),
           callsUsed := 1, policyCount := 1, seen := {Aimed(TRIAGE, inc.dataset)})
  }

  /** The state once the call policy has admitted a call. */
  ghost function Charged(inc: Incident, s: State, a: Action): State
    requires a.CallTool?
  {
    s.(policyCount := s.policyCount + 1, seen := s.seen + {Call(a.tool, WithDataset(a.args, inc.dataset))})
  }

  // ----- The run -----------------------------------------------------------------------------------------

  /** The initial hypotheses. No status is REJECTED yet, so no proposal raises. */
  method RaiseHypotheses(store: HypothesisStore, proposals: seq<Proposal>)
    requires store.State() == EMPTY
    modifies store
    ensures store.State() == ProposeAll(EMPTY, proposals)
  {
    for i := 0 to |proposals|
      invariant store.State() == ProposeAll(EMPTY, proposals[..i])
    {
      Governance.ProposalsAreOpen(EMPTY, proposals[..i]);
      assert proposals[..i + 1][..i] == proposals[..i];
      var raised := store.ProposeHypothesis(proposals[i].cause, proposals[i].tool);
      assert !raised;
    }
    assert proposals[..|proposals|] == proposals;
  }

  /** What the loop keeps in local variables, beside the shared objects. */
  ghost predicate Locals(s: State, results: seq<ToolResult>, signatures: seq<Call>, callIdx: nat,
                         steps: seq<StepRecord>, blocked: seq<BlockCode>) {
    && s.results == results && s.signatures == signatures && s.callIdx == callIdx
    && s.steps == steps && s.blocked == blocked
  }

  /** Triage, routing and the first hypotheses, then the loop. */
  method Run(inc: Incident) returns (r: RunResult)
    ensures r == Investigation.Run(inc)
  {
    var bench := new Workbench(inc);
    var triage := bench.InvokeTriage();
    if triage.Refused? {
      return Blocked(triage.code);
    }
    if triage.Broke? {
      return RaisedByTool;
    }
    var stages := StagesIn(triage.result.evidence);
    var bundle := RouteCapabilities(stages, inc.missingData);
    RaiseHypotheses(bench.hypotheses, inc.propose(bundle.signals));
    ghost var out := ToolOutput(triage.result.status, triage.result.evidence);
    assert Opening(inc) == Ran(bundle, stages, Triaged(inc, out, bundle));
    r := Loop(bench, bundle, stages, triage.result);
  }

  /** The investigation loop and the final sweep, from the state triage and routing leave. */
  method Loop(bench: Workbench, bundle: Bundle, stages: seq<StageName>, funnel: ToolResult) returns (r: RunResult)
    requires bench.Valid()
    requires Opening(bench.inc) == Ran(bundle, stages,
                                       Triaged(bench.inc, ToolOutput(funnel.status, funnel.evidence), bundle))
    requires bench.Holds(Opening(bench.inc).first) && funnel == Opening(bench.inc).first.results[0]
    modifies bench.Repr
    ensures r == Investigation.Run(bench.inc)
  {
    var inc := bench.inc;
    var results, signatures, callIdx, blocked := [funnel], [TRIAGE], 1, [];
    var steps := [StepRecord(0, Some(GetPaymentFunnel), None, Executed(funnel.status))];
    ghost var s := Opening(inc).first;
    OpeningIsLoopHead(inc);
    var looping := true;
    while looping
      invariant bench.Valid() && bench.Holds(s) && Locals(s, results, signatures, callIdx, steps, blocked)
      invariant LoopHead(inc, s) && looping == (s.phase == Looping) && s.phase != Phase.Raised
      invariant looping ==> s.stopReason.None?
      invariant LoopEnd(inc, bundle, stages, s) == LoopEnd(inc, bundle, stages, Opening(inc).first)
      decreases looping, Measure(inc, s)
    {
      TurnCountsDown(inc, bundle, stages, s);
      ghost var next := Turn(inc, bundle, stages, s);
      var view := PolicyView(bundle, stages, ObservedLoss(bench.evidence.items), bench.evidence.items,
                             bench.hypotheses.items, bench.hypotheses.rejectedTypes, inc.missingData,
                             bench.budget.Remaining(), ToolsOf(results), signatures, blocked);
      assert view == View(inc, bundle, stages, s);
      var action := inc.decide(|steps|, view);
      if action == Finish {
        steps := steps + [StepRecord(|steps|, None, None, Finished)];
        looping := false;
      } else {
        var outcome := bench.Invoke(bundle, action, callIdx, s);
        if outcome.Refused? {
          blocked := blocked + [outcome.code];
          steps := steps + [StepRecord(|steps|, Some(action.tool), action.hypothesis, BlockedStep(outcome.code))];
          looping := |blocked| < MAX_BLOCKED_ATTEMPTS;
        } else if outcome.Broke? {
          return RaisedByTool;
        } else {
          var result := outcome.result;
          callIdx := callIdx + 1;
          results := results + [result];
          signatures := signatures + [Call(action.tool, Strip(action.args))];
          steps := steps + [StepRecord(|steps|, Some(action.tool), action.hypothesis, Executed(result.status))];
          looping := bench.earlyExit.stopReason.None?;
        }
      }
      s := next;
    }

    bench.hypotheses.CloseOpen();
    r := Done(HarnessResult(
      bench.evidence.items, results, bench.hypotheses.items, stages, inc.missingData, bundle,
      if bench.earlyExit.stopReason.Some? then Stop(bench.earlyExit.stopReason.value) else POLICY_FINISHED,
      steps, blocked));
  }
}
