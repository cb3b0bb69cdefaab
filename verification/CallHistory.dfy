/** A run read back from what it returns: which call each step executed, what the calls bound to a hypothesis
    left it with, and why the loop ended. The policy and the tools are arbitrary. */
module CallHistory {
  import opened Domain
  import opened Identifiers
  import opened EvidenceContract
  import opened Tooling
  import opened Routing
  import opened HypothesisLedger
  import opened Investigation
  import opened Governance

  // ----- Steps and results -----------------------------------------------------------------------------

  /** The steps that executed a call. */
  function Executions(steps: seq<StepRecord>): seq<StepRecord> {
    if steps == [] then []
    else
      var init, last := steps[..|steps| - 1], steps[|steps| - 1];
      Executions(init) + (if last.status.Executed? then [last] else [])
  }

  /** The codes of the steps that were refused. */
  function Refusals(steps: seq<StepRecord>): seq<BlockCode> {
    if steps == [] then []
    else
      var init, last := steps[..|steps| - 1], steps[|steps| - 1];
      Refusals(init) + (if last.status.BlockedStep? then [last.status.code] else [])
  }

  lemma OneMoreStep(steps: seq<StepRecord>, step: StepRecord)
    ensures Executions(steps + [step]) == Executions(steps) + (if step.status.Executed? then [step] else [])
    ensures Refusals(steps + [step]) == Refusals(steps) + (if step.status.BlockedStep? then [step.status.code] else [])
  {
    assert (steps + [step])[..|steps|] == steps;
  }

  /** Steps are numbered; the n-th executed one is the n-th result, and the refused ones are the refusals. */
  ghost predicate Told(steps: seq<StepRecord>, results: seq<ToolResult>, blocked: seq<BlockCode>) {
    && (forall k :: 0 <= k < |steps| ==> steps[k].step == k)
    && Refusals(steps) == blocked && |Executions(steps)| == |results|
    && forall i :: 0 <= i < |results| ==>
         Executions(steps)[i].tool == Some(results[i].tool)
             && Executions(steps)[i].status == Executed(results[i].status)
  }

  lemma ExecutionIsTold(steps: seq<StepRecord>, results: seq<ToolResult>, blocked: seq<BlockCode>, step: StepRecord,
                        r: ToolResult)
    requires Told(steps, results, blocked) && step.step == |steps|
    requires step.tool == Some(r.tool) && step.status == Executed(r.status)
    ensures Told(steps + [step], results + [r], blocked)
  {
    OneMoreStep(steps, step);
  }

  lemma RefusalIsTold(steps: seq<StepRecord>, results: seq<ToolResult>, blocked: seq<BlockCode>, step: StepRecord,
                      code: BlockCode)
    requires Told(steps, results, blocked) && step.step == |steps| && step.status == BlockedStep(code)
    ensures Told(steps + [step], results, blocked + [code])
  {
    OneMoreStep(steps, step);
  }

  lemma FinishIsTold(steps: seq<StepRecord>, results: seq<ToolResult>, blocked: seq<BlockCode>, step: StepRecord)
    requires Told(steps, results, blocked) && step.step == |steps| && step.status == StepStatus.Finished
    ensures Told(steps + [step], results, blocked)
  {
    OneMoreStep(steps, step);
    assert blocked + [] == blocked;
  }

  lemma TurnIsTold(inc: Incident, bundle: Bundle, stages: seq<StageName>, s: State)
    requires s.phase == Looping && Told(s.steps, s.results, s.blocked)
    ensures var s' := Turn(inc, bundle, stages, s);
            s'.phase != Raised ==> Told(s'.steps, s'.results, s'.blocked)
  {
    var s' := Turn(inc, bundle, stages, s);
    if s'.phase != Raised {
      var step := s'.steps[|s.steps|];
      match step.status
      case Finished => FinishIsTold(s.steps, s.results, s.blocked, step);
      case BlockedStep(code) => RefusalIsTold(s.steps, s.results, s.blocked, step, code);
      case Executed(_) => ExecutionIsTold(s.steps, s.results, s.blocked, step, s'.results[|s.results|]);
    }
  }

  // ----- What calls leave a hypothesis with ---------------------------------------------------------------

  /** The codes of the records of one call, in ledger order. */
  function CodesOfCall(items: seq<Evidence>, callId: string): seq<string> {
    CodesIn(OfCall(items, callId))
  }

  lemma CodesOfMoreRecords(items: seq<Evidence>, added: seq<Evidence>, of: string, callId: string)
    requires forall e :: e in added ==> e.callId == of
    ensures CodesOfCall(items + added, callId) ==
              CodesOfCall(items, callId) + (if callId == of then CodesIn(added) else [])
  {
    OfCallConcat(items, added, callId);
    OfCallUniform(added, of, callId);
  }

  /** A tool that looks for the proof of a cause. */
  predicate LooksFor(tool: ToolName, cause: Label) {
    || (tool == InspectPaymentEvents
        && (cause == CHANNEL_TIMEOUT || cause == AUTHENTICATION_FAILURE || cause == CALLBACK_FAILURE))
    || (tool == AnalyzeBenefitGap && cause == BENEFIT_SELECTION_FRICTION)
    || (tool == GetPaymentFunnel && cause == DATA_QUALITY_ISSUE)
  }

  /** The evidence types of a call's own drafts. */
  function Reported(r: ToolResult): set<EvidenceType> {
    set d | d in r.evidence :: d.evidenceType
  }

  /** What a hypothesis has been left with. */
  datatype Account = Account(supporting: seq<string>, status: HypothesisStatus, reason: Option<Reason>)

  /** The account of an open hypothesis after a call bound to it: settled by the call's own evidence, or else
      by a successful call of its probe, which rules it out only if its cause has evidence of its own. */
  function Heard(cause: Label, before: Account, r: ToolResult): Account {
    var support := ClassifySupport(cause, Reported(r));
    match support.0
    case SUPPORTED => before.(status := Supported, reason := None)
    case PARTIAL => before.(status := PartlySupported, reason := None)
    case UNKNOWN =>
      if r.status != Success || !LooksFor(r.tool, cause) then before
      else if cause == CHANNEL_TIMEOUT || cause == BENEFIT_SELECTION_FRICTION || cause == DATA_QUALITY_ISSUE then
        before.(status := Rejected, reason := support.1)
      else before.(status := Undecided, reason := Some(NoConfirmingTypeExists))
  }

  /** One call: its codes go to the hypothesis it is bound to unless that is settled by evidence, and then it
      is heard if the hypothesis is still open. */
  function AccountAfter(cause: Label, before: Account, r: ToolResult, codes: seq<string>): Account {
    var given := if before.status == Rejected || before.status == Supported || before.status == PartlySupported
                 then before else before.(supporting := before.supporting + codes);
    if before.status == Proposed || before.status == Investigating then Heard(cause, given, r) else given
  }

  /** The account of hypothesis `id` after the first `n` calls. */
  function AccountOf(cause: Label, id: nat, items: seq<Evidence>, results: seq<ToolResult>, calls: seq<StepRecord>,
                     n: nat): Account
    requires n <= |results| == |calls|
  {
    if n == 0 then Account([], Proposed, None)
    else
      var before := AccountOf(cause, id, items, results, calls, n - 1);
      if calls[n - 1].hypothesis != Some(id) then before
      else AccountAfter(cause, before, results[n - 1], CodesOfCall(items, results[n - 1].callId))
  }

  lemma {:induction false} AccountKeepsPast(cause: Label, id: nat, items: seq<Evidence>, items': seq<Evidence>,
                                            results: seq<ToolResult>, results': seq<ToolResult>,
                                            calls: seq<StepRecord>, calls': seq<StepRecord>, n: nat)
    requires n <= |results| == |calls| && results <= results' && calls <= calls' && |results'| == |calls'|
    requires forall i :: 0 <= i < n ==>
               CodesOfCall(items', results[i].callId) == CodesOfCall(items, results[i].callId)
    ensures AccountOf(cause, id, items', results', calls', n) == AccountOf(cause, id, items, results, calls, n)
  {
    if n > 0 {
      AccountKeepsPast(cause, id, items, items', results, results', calls, calls', n - 1);
    }
  }

  function AccountIn(h: Hypothesis): Account {
    Account(h.supporting, h.status, h.reason)
  }

  // ----- The after-hooks, one hypothesis at a time -----------------------------------------------------------

  lemma HeardIsEvaluated(h: Hypothesis, r: ToolResult)
    ensures var verdict := Evaluate(h.cause, Produced(r.evidence),
                                    r.status == Success && DesignatedProbe(r.tool, h.cause));
            Heard(h.cause, AccountIn(h), r) ==
              if verdict.None? then AccountIn(h)
              else AccountIn(h).(status := verdict.value.0, reason := verdict.value.1)
  {
    assert LooksFor(r.tool, h.cause) <==> DesignatedProbe(r.tool, h.cause);
    assert Produced(r.evidence) == Reported(r);
  }

  predicate Attaches(h: Hypothesis, hypothesis: Option<nat>) {
    hypothesis == Some(h.id) && h.status !in {Rejected, Supported, PartlySupported}
  }

  lemma LinkedItem(l: Ledger, hypothesis: Option<nat>, codes: seq<string>, k: nat)
    requires Valid(l) && k < |l.items|
    ensures Valid(Linked(l, hypothesis, codes)) && |Linked(l, hypothesis, codes).items| == |l.items|
    ensures Linked(l, hypothesis, codes).items[k] ==
              if Attaches(l.items[k], hypothesis) then l.items[k].(supporting := l.items[k].supporting + codes)
              else l.items[k]
  {
    LinkedKeepsStanding(l, hypothesis, codes);
    if hypothesis.Some? {
      GetById(l, hypothesis.value);
    }
    assert codes == [] ==> l.items[k].supporting + codes == l.items[k].supporting;
  }

  lemma JudgedItem(l: Ledger, hypothesis: Option<nat>, r: ToolResult, k: nat)
    requires Valid(l) && k < |l.items|
    ensures |Judged(l, hypothesis, r).items| == |l.items|
    ensures var h, h' := l.items[k], Judged(l, hypothesis, r).items[k];
            && h'.id == h.id && h'.cause == h.cause && h'.requiredTool == h.requiredTool
            && AccountIn(h') == if hypothesis == Some(h.id) && Open(h) then Heard(h.cause, AccountIn(h), r)
                                else AccountIn(h)
  {
    if hypothesis.Some? {
      var id := hypothesis.value;
      GetById(l, id);
      if 1 <= id <= |l.items| && Open(l.items[id - 1]) {
        var h := l.items[id - 1];
        HeardIsEvaluated(h, r);
        var probed := r.status == Success && DesignatedProbe(r.tool, h.cause);
        var verdict := Evaluate(h.cause, Produced(r.evidence), probed);
        if verdict.Some? {
          ResolveKeepsValid(l, id, verdict.value.0, verdict.value.1);
        }
      }
    }
  }

  lemma ItemAfterCall(inc: Incident, s: State, a: Action, r: ToolResult, k: nat)
    requires a.CallTool? && Valid(s.ledger) && k < |s.ledger.items|
    ensures |LedgerAfter(inc, s, a, r).items| == |s.ledger.items|
    ensures var h, h' := s.ledger.items[k], LedgerAfter(inc, s, a, r).items[k];
            var codes := CodesIn(Coded(inc.prefix, |s.evidence|, r.evidence, r.tool, r.callId));
            && h'.id == h.id && h'.cause == h.cause && h'.requiredTool == h.requiredTool
            && AccountIn(h') == if a.hypothesis == Some(h.id) then AccountAfter(h.cause, AccountIn(h), r, codes)
                                else AccountIn(h)
  {
    var codes := CodesIn(Coded(inc.prefix, |s.evidence|, r.evidence, r.tool, r.callId));
    LinkedItem(s.ledger, a.hypothesis, codes, k);
    JudgedItem(Linked(s.ledger, a.hypothesis, codes), a.hypothesis, r, k);
  }

  // ----- Every head --------------------------------------------------------------------------------------------

  /** Every hypothesis holds what the calls bound to it left it with. */
  ghost predicate Accounted(s: State) {
    && |Executions(s.steps)| == |s.results|
    && forall k :: 0 <= k < |s.ledger.items| ==>
         AccountIn(s.ledger.items[k]) ==
           AccountOf(s.ledger.items[k].cause, s.ledger.items[k].id, s.evidence, s.results, Executions(s.steps),
                     |s.results|)
  }

  lemma RecordsOfEarlierCalls(prefix: string, results: seq<ToolResult>, e: Evidence)
    requires e in LedgerOf(prefix, results) && forall i :: 0 <= i < |results| ==> results[i].callId == CallId(i)
    ensures e.callId != CallId(|results|)
  {
    LedgerRecordsComeFromCalls(prefix, results, e);
    var j :| 0 <= j < |results| && e.callId == results[j].callId;
    if e.callId == CallId(|results|) {
      CallIdInjective(j, |results|);
    }
  }

  lemma {:induction false} NoRecordsNoCodes(items: seq<Evidence>, callId: string)
    requires forall e :: e in items ==> e.callId != callId
    ensures OfCall(items, callId) == []
  {
    if items != [] {
      NoRecordsNoCodes(items[..|items| - 1], callId);
    }
  }

  lemma NewCallNewCodes(inc: Incident, s: State, r: ToolResult, i: nat)
    requires Recorded(inc, s) && i <= |s.results| && r.callId == CallId(|s.results|)
    ensures var added := Coded(inc.prefix, |s.evidence|, r.evidence, r.tool, r.callId);
            CodesOfCall(s.evidence + added, CallId(i)) ==
              if i < |s.results| then CodesOfCall(s.evidence, CallId(i)) else CodesIn(added)
  {
    var added := Coded(inc.prefix, |s.evidence|, r.evidence, r.tool, r.callId);
    CodesOfMoreRecords(s.evidence, added, r.callId, CallId(i));
    if i < |s.results| {
      if CallId(i) == CallId(|s.results|) {
        CallIdInjective(i, |s.results|);
      }
    } else {
      forall e | e in s.evidence ensures e.callId != CallId(i) {
        RecordsOfEarlierCalls(inc.prefix, s.results, e);
      }
      NoRecordsNoCodes(s.evidence, CallId(i));
    }
  }

  lemma AccountOneMore(inc: Incident, s: State, a: Action, out: ToolOutput, cause: Label, id: nat)
    requires a.CallTool? && Recorded(inc, s) && s.callIdx == |s.results| == |Executions(s.steps)|
    ensures var s', n := ExecutedTurn(inc, s, a, out), |s.results|;
            var r := ResultOf(s, a.tool, out);
            var before := AccountOf(cause, id, s.evidence, s.results, Executions(s.steps), n);
            var codes := CodesIn(Coded(inc.prefix, |s.evidence|, r.evidence, r.tool, r.callId));
            && |Executions(s'.steps)| == |s'.results| == n + 1
            && AccountOf(cause, id, s'.evidence, s'.results, Executions(s'.steps), n + 1) ==
                 if a.hypothesis == Some(id) then AccountAfter(cause, before, r, codes) else before
  {
    var s', r := ExecutedTurn(inc, s, a, out), ResultOf(s, a.tool, out);
    OneMoreStep(s.steps, s'.steps[|s.steps|]);
    forall i | 0 <= i < |s.results|
      ensures CodesOfCall(s'.evidence, s.results[i].callId) == CodesOfCall(s.evidence, s.results[i].callId)
    {
      NewCallNewCodes(inc, s, r, i);
    }
    NewCallNewCodes(inc, s, r, |s.results|);
    AccountKeepsPast(cause, id, s.evidence, s'.evidence, s.results, s'.results, Executions(s.steps),
                     Executions(s'.steps), |s.results|);
  }

  lemma ExecutedIsAccounted(inc: Incident, s: State, a: Action, out: ToolOutput)
    requires a.CallTool? && Recorded(inc, s) && s.callIdx == |s.results| && Valid(s.ledger) && Accounted(s)
    ensures Accounted(ExecutedTurn(inc, s, a, out))
  {
    var s', r := ExecutedTurn(inc, s, a, out), ResultOf(s, a.tool, out);
    AccountOneMore(inc, s, a, out, UNKNOWN_CAUSE, 0);
    forall k | 0 <= k < |s'.ledger.items|
      ensures AccountIn(s'.ledger.items[k]) ==
                AccountOf(s'.ledger.items[k].cause, s'.ledger.items[k].id, s'.evidence, s'.results,
                          Executions(s'.steps), |s'.results|)
    {
      LedgerAfterIsSound(inc, s, a, r);
      ItemAfterCall(inc, s, a, r, k);
      AccountOneMore(inc, s, a, out, s.ledger.items[k].cause, s.ledger.items[k].id);
    }
  }

  /** What a turn executed, if it did. */
  lemma TurnExecutes(inc: Incident, bundle: Bundle, stages: seq<StageName>, s: State) returns (out: Option<ToolOutput>)
    requires s.phase == Looping
    ensures var s', a := Turn(inc, bundle, stages, s), Decision(inc, bundle, stages, s);
            && (out.Some? ==>
                  a.CallTool? && !RejectedTarget(s.ledger, a.hypothesis) && s' == ExecutedTurn(inc, s, a, out.value))
            && (out.None? && s'.phase != Phase.Raised ==>
                  && s'.ledger == s.ledger && s'.evidence == s.evidence && s'.results == s.results
                  && Executions(s'.steps) == Executions(s.steps))
  {
    var s', a := Turn(inc, bundle, stages, s), Decision(inc, bundle, stages, s);
    out := None;
    if s'.phase != Phase.Raised {
      OneMoreStep(s.steps, s'.steps[|s.steps|]);
      if s'.steps[|s.steps|].status.Executed? {
        out := inc.tools(s.callIdx, Call(a.tool, Strip(WithDataset(a.args, inc.dataset))));
      }
    }
  }

  /** No call was bound to a hypothesis that the calls before it had rejected. */
  ghost predicate SparesRejected(s: State) {
    && |Executions(s.steps)| == |s.results|
    && forall k, i :: 0 <= k < |s.ledger.items| && 0 <= i < |s.results| ==> Spares(s, s.ledger.items[k], i)
  }

  ghost predicate Spares(s: State, h: Hypothesis, i: nat)
    requires |Executions(s.steps)| == |s.results| && i < |s.results|
  {
    Executions(s.steps)[i].hypothesis == Some(h.id) ==>
      AccountOf(h.cause, h.id, s.evidence, s.results, Executions(s.steps), i).status != Rejected
  }

  ghost predicate SameQuestions(since: Ledger, l: Ledger) {
    && |l.items| == |since.items|
    && forall k :: 0 <= k < |l.items| ==>
         && l.items[k].id == since.items[k].id && l.items[k].cause == since.items[k].cause
         && l.items[k].requiredTool == since.items[k].requiredTool
  }

  /** On track, with the first hypotheses, and the history so far told and accounted for. */
  ghost predicate Kept(inc: Incident, bundle: Bundle, since: Ledger, s: State) {
    && OnTrack(inc, bundle, since, s)
    && (s.phase != Phase.Raised ==>
          Told(s.steps, s.results, s.blocked) && Accounted(s) && SparesRejected(s) && SameQuestions(since, s.ledger))
  }

  lemma TargetIsNotRejected(l: Ledger, hypothesis: Option<nat>, k: nat)
    requires Valid(l) && !RejectedTarget(l, hypothesis) && k < |l.items| && hypothesis == Some(l.items[k].id)
    ensures l.items[k].status != Rejected
  {
    GetById(l, l.items[k].id);
  }

  lemma AccountBefore(inc: Incident, s: State, a: Action, out: ToolOutput, cause: Label, id: nat, i: nat)
    requires a.CallTool? && Recorded(inc, s) && s.callIdx == |s.results| == |Executions(s.steps)| && i <= |s.results|
    ensures var s' := ExecutedTurn(inc, s, a, out);
            && |Executions(s'.steps)| == |s'.results| == |s.results| + 1
            && Executions(s.steps) <= Executions(s'.steps)
            && Executions(s'.steps)[|s.results|].hypothesis == a.hypothesis
            && AccountOf(cause, id, s'.evidence, s'.results, Executions(s'.steps), i) ==
               AccountOf(cause, id, s.evidence, s.results, Executions(s.steps), i)
  {
    var s', r := ExecutedTurn(inc, s, a, out), ResultOf(s, a.tool, out);
    OneMoreStep(s.steps, s'.steps[|s.steps|]);
    forall j | 0 <= j < i
      ensures CodesOfCall(s'.evidence, s.results[j].callId) == CodesOfCall(s.evidence, s.results[j].callId)
    {
      NewCallNewCodes(inc, s, r, j);
    }
    AccountKeepsPast(cause, id, s.evidence, s'.evidence, s.results, s'.results, Executions(s.steps),
                     Executions(s'.steps), i);
  }

  lemma OneCallSpares(inc: Incident, s: State, a: Action, out: ToolOutput, h: Hypothesis, i: nat)
    requires a.CallTool? && Recorded(inc, s) && s.callIdx == |s.results| == |Executions(s.steps)| && i <= |s.results|
    requires i < |s.results| ==> Spares(s, h, i)
    requires i == |s.results| && a.hypothesis == Some(h.id) ==>
               AccountOf(h.cause, h.id, s.evidence, s.results, Executions(s.steps), i).status != Rejected
    ensures var s' := ExecutedTurn(inc, s, a, out);
            |Executions(s'.steps)| == |s'.results| == |s.results| + 1 && Spares(s', h, i)
  {
    AccountBefore(inc, s, a, out, h.cause, h.id, i);
  }

  lemma ExecutedSpares(inc: Incident, s: State, a: Action, out: ToolOutput)
    requires a.CallTool? && Recorded(inc, s) && s.callIdx == |s.results| && Valid(s.ledger)
    requires Accounted(s) && SparesRejected(s) && !RejectedTarget(s.ledger, a.hypothesis)
    ensures SparesRejected(ExecutedTurn(inc, s, a, out))
    ensures SameQuestions(s.ledger, ExecutedTurn(inc, s, a, out).ledger)
  {
    var s', r := ExecutedTurn(inc, s, a, out), ResultOf(s, a.tool, out);
    AccountBefore(inc, s, a, out, UNKNOWN_CAUSE, 0, 0);
    LedgerAfterIsSound(inc, s, a, r);
    forall k | 0 <= k < |s.ledger.items|
      ensures s'.ledger.items[k].id == s.ledger.items[k].id && s'.ledger.items[k].cause == s.ledger.items[k].cause
      ensures s'.ledger.items[k].requiredTool == s.ledger.items[k].requiredTool
    {
      ItemAfterCall(inc, s, a, r, k);
    }
    forall k, i | 0 <= k < |s.ledger.items| && 0 <= i < |s'.results| ensures Spares(s', s'.ledger.items[k], i) {
      var h := s.ledger.items[k];
      if i == |s.results| && a.hypothesis == Some(h.id) {
        TargetIsNotRejected(s.ledger, a.hypothesis, k);
      }
      OneCallSpares(inc, s, a, out, h, i);
    }
  }

  lemma TurnSpares(inc: Incident, bundle: Bundle, stages: seq<StageName>, s: State)
    requires GoverningHead(inc, bundle, s) && Accounted(s) && SparesRejected(s)
    ensures var s' := Turn(inc, bundle, stages, s);
            s'.phase != Phase.Raised ==> SparesRejected(s') && SameQuestions(s.ledger, s'.ledger)
  {
    var s', a := Turn(inc, bundle, stages, s), Decision(inc, bundle, stages, s);
    var out := TurnExecutes(inc, bundle, stages, s);
    if out.Some? {
      ExecutedSpares(inc, s, a, out.value);
    } else if s'.phase != Phase.Raised {
      SameCallsSpareTheSame(s, s');
    }
  }

  lemma SameCallsSpareTheSame(s: State, s': State)
    requires SparesRejected(s) && s'.ledger == s.ledger && s'.evidence == s.evidence && s'.results == s.results
    requires Executions(s'.steps) == Executions(s.steps)
    ensures SparesRejected(s') && SameQuestions(s.ledger, s'.ledger)
  {
    forall k, i | 0 <= k < |s.ledger.items| && 0 <= i < |s.results| ensures Spares(s', s'.ledger.items[k], i) {
      assert Spares(s, s.ledger.items[k], i);
    }
  }

  lemma SameCallsSameAccounts(s: State, s': State)
    requires Accounted(s) && s'.ledger == s.ledger && s'.evidence == s.evidence && s'.results == s.results
    requires Executions(s'.steps) == Executions(s.steps)
    ensures Accounted(s')
  {
  }

  lemma TurnIsAccounted(inc: Incident, bundle: Bundle, stages: seq<StageName>, s: State)
    requires GoverningHead(inc, bundle, s) && Accounted(s)
    ensures var s' := Turn(inc, bundle, stages, s);
            s'.phase != Phase.Raised ==> Accounted(s')
  {
    var s', a := Turn(inc, bundle, stages, s), Decision(inc, bundle, stages, s);
    var out := TurnExecutes(inc, bundle, stages, s);
    if out.Some? {
      ExecutedIsAccounted(inc, s, a, out.value);
    } else if s'.phase != Phase.Raised {
      SameCallsSameAccounts(s, s');
    }
  }

  lemma AdvanceIsKept(inc: Incident, bundle: Bundle, stages: seq<StageName>, since: Ledger, s: State)
    requires Kept(inc, bundle, since, s)
    ensures Kept(inc, bundle, since, Advance(inc, bundle, stages, s))
  {
    AdvanceStaysOnTrack(inc, bundle, stages, since, s);
    if s.phase == Looping {
      TurnIsTold(inc, bundle, stages, s);
      TurnIsAccounted(inc, bundle, stages, s);
      TurnSpares(inc, bundle, stages, s);
    }
  }

  lemma {:induction false} ProposalsHaveNothing(l: Ledger, proposals: seq<Proposal>)
    requires forall h :: h in l.items ==> AccountIn(h) == Account([], Proposed, None)
    ensures forall h :: h in ProposeAll(l, proposals).items ==> AccountIn(h) == Account([], Proposed, None)
    decreases |proposals|
  {
    if proposals != [] {
      ProposalsHaveNothing(l, proposals[..|proposals| - 1]);
    }
  }

  lemma TriageIsAccounted(s: State)
    requires |s.steps| == |s.results| == 1
    requires s.steps[0].status == Executed(s.results[0].status) && s.steps[0].hypothesis == None
    requires forall h :: h in s.ledger.items ==> AccountIn(h) == Account([], Proposed, None)
    ensures Accounted(s) && SparesRejected(s)
  {
    OneMoreStep([], s.steps[0]);
    assert [] + s.steps == s.steps;
    forall k | 0 <= k < |s.ledger.items|
      ensures AccountOf(s.ledger.items[k].cause, s.ledger.items[k].id, s.evidence, s.results, Executions(s.steps), 1)
           == Account([], Proposed, None)
    {
      TriageAccountsForNothing(s.ledger.items[k].cause, s.ledger.items[k].id, s.evidence, s.results,
                               Executions(s.steps));
    }
  }

  lemma OpeningIsKept(inc: Incident)
    requires Opening(inc).Ran?
    ensures Kept(inc, Opening(inc).bundle, Opening(inc).first.ledger, Opening(inc).first)
  {
    OpeningIsGoverned(inc);
    var first := Opening(inc).first;
    ProposalsHaveNothing(EMPTY, inc.propose(Opening(inc).bundle.signals));
    TriageIsAccounted(first);
    OneMoreStep([], first.steps[0]);
    assert [] + first.steps == first.steps;
  }

  /** Triage serves no hypothesis. */
  lemma TriageAccountsForNothing(cause: Label, id: nat, items: seq<Evidence>, results: seq<ToolResult>,
                                 calls: seq<StepRecord>)
    requires |results| == |calls| == 1 && calls[0].hypothesis == None
    ensures AccountOf(cause, id, items, results, calls, 1) == Account([], Proposed, None)
  {
  }

  lemma HeadIsKept(inc: Incident, n: nat)
    requires Opening(inc).Ran?
    ensures Kept(inc, Opening(inc).bundle, Opening(inc).first.ledger, RunHead(inc, n))
  {
    OpeningIsKept(inc);
    var o := Opening(inc);
    var kept := x => Kept(inc, o.bundle, o.first.ledger, x);
    forall x | kept(x) ensures kept(Advance(inc, o.bundle, o.stages, x)) {
      AdvanceIsKept(inc, o.bundle, o.stages, o.first.ledger, x);
    }
    InvariantOfIteration(x => Advance(inc, o.bundle, o.stages, x), kept, o.first, n);
  }

  // ----- What a run returns ------------------------------------------------------------------------------------

  /** At every head of every run each hypothesis holds the codes, status and reason that the executed calls
      bound to it left it with, and the steps tell the same story as the results and refusals. */
  lemma EveryHeadIsAccounted(inc: Incident, n: nat)
    requires Opening(inc).Ran? && RunHead(inc, n).phase != Phase.Raised
    ensures Accounted(RunHead(inc, n))
    ensures Told(RunHead(inc, n).steps, RunHead(inc, n).results, RunHead(inc, n).blocked)
  {
    HeadIsKept(inc, n);
  }

  /** No call of a run is ever bound to a hypothesis that the calls before it had rejected. */
  lemma RejectedGetsNoCall(inc: Incident, n: nat, k: nat, i: nat)
    requires Opening(inc).Ran? && RunHead(inc, n).phase != Phase.Raised
    requires k < |RunHead(inc, n).ledger.items| && i < |RunHead(inc, n).results|
    ensures var s := RunHead(inc, n);
            var h := s.ledger.items[k];
            && |Executions(s.steps)| == |s.results|
            && (AccountOf(h.cause, h.id, s.evidence, s.results, Executions(s.steps), i).status == Rejected ==>
                  Executions(s.steps)[i].hypothesis != Some(h.id))
  {
    HeadIsKept(inc, n);
    assert Spares(RunHead(inc, n), RunHead(inc, n).ledger.items[k], i);
  }

  /** What is returned for a hypothesis: the account of its calls, closed as never tested if they left it open. */
  predicate ClosedAccount(h: Hypothesis, account: Account) {
    && h.supporting == account.supporting
    && h.status == (if Terminal(account.status) then account.status else Undecided)
    && h.reason == (if Terminal(account.status) then account.reason else Some(NeverTested))
  }

  ghost predicate Settles(r: HarnessResult, h: Hypothesis) {
    && |Executions(r.steps)| == |r.results|
    && ClosedAccount(h, AccountOf(h.cause, h.id, r.evidence, r.results, Executions(r.steps), |r.results|))
  }

  /** The head a completed run ended in. */
  lemma LastHead(inc: Incident) returns (n: nat)
    requires Run(inc).Done?
    ensures Opening(inc).Ran? && RunHead(inc, n).phase == Stopped && Valid(RunHead(inc, n).ledger)
    ensures |RunHead(inc, n).results| == RunHead(inc, n).callsUsed <= inc.maxCalls
    ensures var s, r := RunHead(inc, n), Run(inc).result;
            && r.steps == s.steps && r.results == s.results && r.evidence == s.evidence
            && r.hypotheses == Sweep(s.ledger, |s.ledger.items|).items
            && r.exitReason == if s.stopReason.Some? then Stop(s.stopReason.value) else POLICY_FINISHED
  {
    n := RunEnds(inc);
    EveryHeadIsGoverned(inc, n);
  }

  lemma ClosingKeepsAccount(before: Hypothesis, after: Hypothesis)
    requires after == if Open(before) then before.(status := Undecided, reason := Some(NeverTested)) else before
    ensures after.cause == before.cause && after.id == before.id && ClosedAccount(after, AccountIn(before))
  {
  }

  /** A returned hypothesis holds the codes, status and reason that the calls bound to it left it with. */
  lemma ReturnedHypothesesAreAccounted(inc: Incident, h: Hypothesis)
    requires Run(inc).Done? && h in Run(inc).result.hypotheses
    ensures Settles(Run(inc).result, h)
  {
    var n := LastHead(inc);
    var l, r := RunHead(inc, n).ledger, Run(inc).result;
    EveryHeadIsAccounted(inc, n);
    var k :| 0 <= k < |r.hypotheses| && r.hypotheses[k] == h;
    SweepItems(l, |l.items|);
    ClosingKeepsAccount(l.items[k], h);
  }

  lemma ReturnedStepsAreTold(inc: Incident)
    requires Run(inc).Done?
    ensures Told(Run(inc).result.steps, Run(inc).result.results, Run(inc).result.blocked)
  {
    var n := RunEnds(inc);
    EveryHeadIsAccounted(inc, n);
  }

  /** A record of a call bound to the hypothesis. */
  ghost predicate RecordOfCallFor(r: HarnessResult, id: nat, i: int, e: Evidence) {
    && |Executions(r.steps)| == |r.results| && 0 <= i < |r.results|
    && Executions(r.steps)[i].hypothesis == Some(id) && e in r.evidence && e.callId == r.results[i].callId
  }

  lemma CodesAreOfRecords(items: seq<Evidence>, callId: string, c: string)
    ensures c in CodesOfCall(items, callId) <==> exists e :: e in items && e.callId == callId && e.code == c
  {
    forall e ensures e in OfCall(items, callId) <==> e in items && e.callId == callId {
      RecordsOfCall(items, callId, e);
    }
    if c in CodesOfCall(items, callId) {
      var i :| 0 <= i < |OfCall(items, callId)| && OfCall(items, callId)[i].code == c;
      assert OfCall(items, callId)[i] in OfCall(items, callId);
    }
    forall e | e in OfCall(items, callId) && e.code == c ensures c in CodesOfCall(items, callId) {
      var i :| 0 <= i < |OfCall(items, callId)| && OfCall(items, callId)[i] == e;
      assert CodesOfCall(items, callId)[i] == c;
    }
  }

  lemma {:induction false} RecordsOfCall(items: seq<Evidence>, callId: string, e: Evidence)
    ensures e in OfCall(items, callId) <==> e in items && e.callId == callId
  {
    if items != [] {
      assert items == items[..|items| - 1] + [items[|items| - 1]];
      RecordsOfCall(items[..|items| - 1], callId, e);
    }
  }

  lemma {:induction false} SupportComesFromCalls(cause: Label, id: nat, items: seq<Evidence>, results: seq<ToolResult>,
                                                 calls: seq<StepRecord>, n: nat, c: string) returns (i: nat)
    requires n <= |results| == |calls| && c in AccountOf(cause, id, items, results, calls, n).supporting
    ensures i < n && calls[i].hypothesis == Some(id) && c in CodesOfCall(items, results[i].callId)
  {
    if c in AccountOf(cause, id, items, results, calls, n - 1).supporting {
      i := SupportComesFromCalls(cause, id, items, results, calls, n - 1, c);
    } else {
      i := n - 1;
    }
  }

  /** A returned hypothesis cites only records of calls bound to it. */
  lemma SupportIsItsOwn(inc: Incident, h: Hypothesis, c: string)
    requires Run(inc).Done? && h in Run(inc).result.hypotheses && c in h.supporting
    ensures exists i, e :: RecordOfCallFor(Run(inc).result, h.id, i, e) && e.code == c
  {
    ReturnedHypothesesAreAccounted(inc, h);
    var r := Run(inc).result;
    var i := SupportComesFromCalls(h.cause, h.id, r.evidence, r.results, Executions(r.steps), |r.results|, c);
    CodesAreOfRecords(r.evidence, r.results[i].callId, c);
    var e :| e in r.evidence && e.callId == r.results[i].callId && e.code == c;
    assert RecordOfCallFor(r, h.id, i, e);
  }

  predicate Verdict(s: HypothesisStatus, support: SupportStatus) {
    (s == Supported && support == SUPPORTED) || (s == PartlySupported && support == PARTIAL)
  }

  /** Call `n` of a hypothesis' history, as its account sees it. */
  lemma OneMoreCall(cause: Label, id: nat, items: seq<Evidence>, results: seq<ToolResult>, calls: seq<StepRecord>,
                    n: nat)
    returns (before: Account, codes: seq<string>)
    requires n < |results| == |calls|
    ensures before == AccountOf(cause, id, items, results, calls, n)
    ensures codes == CodesOfCall(items, results[n].callId)
    ensures AccountOf(cause, id, items, results, calls, n + 1) ==
            if calls[n].hypothesis != Some(id) then before else AccountAfter(cause, before, results[n], codes)
  {
    before, codes := AccountOf(cause, id, items, results, calls, n), CodesOfCall(items, results[n].callId);
  }

  /** The call whose evidence settled an account. */
  lemma {:induction false} SettledByACall(cause: Label, id: nat, items: seq<Evidence>, results: seq<ToolResult>,
                                          calls: seq<StepRecord>, n: nat, account: Account)
    returns (i: nat, codes: seq<string>)
    requires n <= |results| == |calls| && account == AccountOf(cause, id, items, results, calls, n)
    requires account.status == Supported || account.status == PartlySupported
    ensures i < n && calls[i].hypothesis == Some(id) && codes == CodesOfCall(items, results[i].callId)
    ensures Verdict(account.status, ClassifySupport(cause, Reported(results[i])).0)
    ensures forall c :: c in codes ==> c in account.supporting
  {
    var before, added := OneMoreCall(cause, id, items, results, calls, n - 1);
    if before.status == Supported || before.status == PartlySupported {
      CallKeepsSupport(cause, before, results[n - 1], added);
      assert account == before;
      i, codes := SettledByACall(cause, id, items, results, calls, n - 1, account);
    } else {
      assert account == AccountAfter(cause, before, results[n - 1], added);
      i, codes := n - 1, added;
      HearingSettles(cause, before, results[i], added);
    }
  }

  lemma HearingSettles(cause: Label, before: Account, r: ToolResult, codes: seq<string>)
    requires before.status != Supported && before.status != PartlySupported
    requires AccountAfter(cause, before, r, codes).status in {Supported, PartlySupported}
    ensures Verdict(AccountAfter(cause, before, r, codes).status,
                    ClassifySupport(cause, Reported(r)).0)
    ensures AccountAfter(cause, before, r, codes).supporting == before.supporting + codes
  {
  }

  lemma CallKeepsSupport(cause: Label, before: Account, r: ToolResult, codes: seq<string>)
    requires before.status in {Supported, PartlySupported}
    ensures AccountAfter(cause, before, r, codes) == before
  {
  }

  /** A hypothesis settled by evidence cites every record of the call that settled it; and unless its cause is
      the unknown one, that call has a record. */
  lemma SettledHypothesesCiteTheirProof(inc: Incident, h: Hypothesis) returns (i: nat)
    requires Run(inc).Done? && h in Run(inc).result.hypotheses && h.status in {Supported, PartlySupported}
    ensures var r := Run(inc).result;
            && |Executions(r.steps)| == |r.results| && i < |r.results|
                && Executions(r.steps)[i].hypothesis == Some(h.id)
            && Verdict(h.status, ClassifySupport(h.cause, Reported(r.results[i])).0)
            && (forall e :: e in r.evidence && e.callId == r.results[i].callId ==> e.code in h.supporting)
            && (h.cause != UNKNOWN_CAUSE ==> exists e :: RecordOfCallFor(r, h.id, i, e) && e.code in h.supporting)
  {
    ReturnedHypothesesAreAccounted(inc, h);
    var r := Run(inc).result;
    var account := AccountOf(h.cause, h.id, r.evidence, r.results, Executions(r.steps), |r.results|);
    var codes;
    i, codes := SettledByACall(h.cause, h.id, r.evidence, r.results, Executions(r.steps), |r.results|, account);
    forall e | e in r.evidence && e.callId == r.results[i].callId ensures e.code in h.supporting {
      CodesAreOfRecords(r.evidence, r.results[i].callId, e.code);
    }
    if h.cause != UNKNOWN_CAUSE {
      var d := SupportNeedsADraft(h.cause, r.results[i]);
      ReturnedEvidenceIsConserved(inc);
      DraftsReachLedger(inc.prefix, r.results, r.results[i], d);
      var e :| e in r.evidence && e.callId == r.results[i].callId;
      assert RecordOfCallFor(r, h.id, i, e);
    }
  }

  lemma SupportNeedsADraft(cause: Label, r: ToolResult) returns (d: EvidenceDraft)
    requires cause != UNKNOWN_CAUSE
    requires ClassifySupport(cause, Reported(r)).0 != UNKNOWN
    ensures d in r.evidence
  {
    assert r.evidence == [] ==> Reported(r) == {};
    d := r.evidence[0];
  }

  // ----- Why the loop ended ------------------------------------------------------------------------------------

  function LastStatus(steps: seq<StepRecord>): StepStatus
    requires steps != []
  {
    steps[|steps| - 1].status
  }

  /** The reason a last executed call ends the loop for. */
  function ReasonToStop(budgetSpent: bool, status: ToolStatus): StopReason {
    if budgetSpent then BUDGET_EXHAUSTED else if status == Failed then NO_OPEN_HYPOTHESES else ALL_HYPOTHESES_RESOLVED
  }

  /** While the loop goes on there is budget and, after a call of the loop, something left to test. Where it
      stopped after a call there was no budget, or nothing left to test. */
  ghost predicate StopsForCause(inc: Incident, s: State) {
    && s.steps != [] && s.callsUsed >= 1
    && match s.phase
       case Looping =>
         && s.stopReason == None
         && (s.callsUsed >= 2 ==> s.callsUsed < inc.maxCalls && (AnyOpen(s.ledger) || s.ledger.items == []))
         && (s.callsUsed >= 2 && LastStatus(s.steps) == Executed(Failed) ==> AnyOpen(s.ledger))
       case Stopped =>
         (match LastStatus(s.steps)
          case Executed(status) =>
            && s.stopReason == Some(ReasonToStop(s.callsUsed >= inc.maxCalls, status))
            && (s.callsUsed < inc.maxCalls ==> !AnyOpen(s.ledger) && (status == Failed || s.ledger.items != []))
          case _ => s.stopReason == None)
       case Raised => true
  }

  lemma AdvanceStopsForCause(inc: Incident, bundle: Bundle, stages: seq<StageName>, s: State)
    requires StopsForCause(inc, s)
    ensures StopsForCause(inc, Advance(inc, bundle, stages, s))
  {
  }

  lemma HeadStopsForCause(inc: Incident, n: nat)
    requires Opening(inc).Ran?
    ensures StopsForCause(inc, RunHead(inc, n))
  {
    var o := Opening(inc);
    var stops := x => StopsForCause(inc, x);
    forall x | stops(x) ensures stops(Advance(inc, o.bundle, o.stages, x)) {
      AdvanceStopsForCause(inc, o.bundle, o.stages, x);
    }
    InvariantOfIteration(x => Advance(inc, o.bundle, o.stages, x), stops, o.first, n);
  }

  lemma {:induction false} OnlyTheSweepNeverTests(cause: Label, id: nat, items: seq<Evidence>, results: seq<ToolResult>,
                                                  calls: seq<StepRecord>, n: nat)
    requires n <= |results| == |calls|
    ensures AccountOf(cause, id, items, results, calls, n).reason != Some(NeverTested)
  {
    if n > 0 {
      OnlyTheSweepNeverTests(cause, id, items, results, calls, n - 1);
    }
  }

  /** Whether some hypothesis of the result was closed without ever having been settled. */
  predicate LeftUntested(hypotheses: seq<Hypothesis>) {
    exists h :: h in hypotheses && h.reason == Some(NeverTested)
  }

  lemma UntestedWereOpen(inc: Incident, n: nat)
    requires Opening(inc).Ran? && RunHead(inc, n).phase == Stopped && Valid(RunHead(inc, n).ledger)
    ensures var l := RunHead(inc, n).ledger;
            LeftUntested(Sweep(l, |l.items|).items) <==> AnyOpen(l)
  {
    var s := RunHead(inc, n);
    var l := s.ledger;
    SweepItems(l, |l.items|);
    EveryHeadIsAccounted(inc, n);
    forall k | 0 <= k < |l.items|
      ensures Sweep(l, |l.items|).items[k].reason == Some(NeverTested) <==> Open(l.items[k])
    {
      OnlyTheSweepNeverTests(l.items[k].cause, l.items[k].id, s.evidence, s.results, Executions(s.steps), |s.results|);
    }
    if AnyOpen(l) {
      var k :| 0 <= k < |l.items| && Open(l.items[k]);
      assert Sweep(l, |l.items|).items[k] in Sweep(l, |l.items|).items;
    }
  }

  /** The reported reason, from the last step, the number of calls and the returned hypotheses alone: finished
      after a finish or a refusal; the budget when the calls spent it; otherwise no open hypotheses after a
      failed call and all resolved after any other, in both cases with nothing left untested. */
  lemma ExitReasonExactly(inc: Incident)
    requires Run(inc).Done?
    ensures var r := Run(inc).result;
            && r.steps != []
            && r.exitReason ==
                 (match LastStatus(r.steps)
                  case Executed(status) => Stop(ReasonToStop(|r.results| == inc.maxCalls, status))
                  case _ => POLICY_FINISHED)
            && (LastStatus(r.steps).Executed? && |r.results| < inc.maxCalls ==>
                  !LeftUntested(r.hypotheses) && (LastStatus(r.steps) == Executed(Failed) || r.hypotheses != []))
  {
    var n := LastHead(inc);
    HeadStopsForCause(inc, n);
    UntestedWereOpen(inc, n);
    SweepItems(RunHead(inc, n).ledger, |RunHead(inc, n).ledger.items|);
  }

  // ----- What was asked -------------------------------------------------------------------------------------------

  predicate Asks(proposals: seq<Proposal>, cause: Label) {
    exists p :: p in proposals && p.cause == cause
  }

  /** The proposals whose cause no earlier one has. */
  function FirstOfEachCause(proposals: seq<Proposal>): seq<Proposal> {
    if proposals == [] then []
    else
      var init, last := proposals[..|proposals| - 1], proposals[|proposals| - 1];
      FirstOfEachCause(init) + (if Asks(init, last.cause) then [] else [last])
  }

  predicate Questions(items: seq<Hypothesis>, asked: seq<Proposal>) {
    && |items| == |asked|
    && forall k :: 0 <= k < |items| ==>
         items[k].id == k + 1 && items[k].cause == asked[k].cause && items[k].requiredTool == asked[k].tool
  }

  lemma {:induction false} ProposalsAreAsked(proposals: seq<Proposal>)
    ensures var l := ProposeAll(EMPTY, proposals);
            && Questions(l.items, FirstOfEachCause(proposals)) && l.counter == |l.items|
            && forall c :: Asks(proposals, c) <==> exists h :: h in l.items && h.cause == c
  {
    if proposals != [] {
      var init, last := proposals[..|proposals| - 1], proposals[|proposals| - 1];
      ProposalsAreAsked(init);
      AskOneMore(init, last, ProposeAll(EMPTY, init));
      assert proposals == init + [last];
    }
  }

  lemma AskOneMore(init: seq<Proposal>, last: Proposal, before: Ledger)
    requires Questions(before.items, FirstOfEachCause(init)) && before.counter == |before.items|
    requires forall c :: Asks(init, c) <==> exists h :: h in before.items && h.cause == c
    ensures var after := Propose(before, last.cause, last.tool);
            && Questions(after.items, FirstOfEachCause(init) + (if Asks(init, last.cause) then [] else [last]))
            && after.counter == |after.items|
            && forall c :: Asks(init + [last], c) <==> exists h :: h in after.items && h.cause == c
  {
    var after := Propose(before, last.cause, last.tool);
    var found := Find(before.items, last.cause);
    assert Asks(init, last.cause) <==> found.Some?;
    forall c ensures Asks(init + [last], c) <==> exists h :: h in after.items && h.cause == c {
      AskedCauses(init, last, c);
      if found.None? {
        HasCauseAppend(before.items, after.items[|before.items|], c);
      }
    }
  }

  lemma AskedCauses(init: seq<Proposal>, last: Proposal, c: Label)
    ensures Asks(init + [last], c) <==> Asks(init, c) || c == last.cause
  {
    if Asks(init, c) {
      var p :| p in init && p.cause == c;
      assert p in init + [last];
    }
    assert last in init + [last];
  }

  lemma HasCauseAppend(items: seq<Hypothesis>, h: Hypothesis, c: Label)
    ensures (exists x :: x in items + [h] && x.cause == c) <==> (exists x :: x in items && x.cause == c) || c == h.cause
  {
    if x :| x in items && x.cause == c {
      assert x in items + [h];
    }
    assert h in items + [h];
  }

  /** A run returns one hypothesis per proposed cause, numbered in the order of proposal and still naming the
      tool of its first proposal. */
  lemma ReturnedQuestions(inc: Incident)
    requires Run(inc).Done?
    ensures Opening(inc).Ran?
    ensures Questions(Run(inc).result.hypotheses, FirstOfEachCause(inc.propose(Opening(inc).bundle.signals)))
  {
    var n := LastHead(inc);
    var l := RunHead(inc, n).ledger;
    QuestionsRemain(inc, n);
    SweepItems(l, |l.items|);
    forall k | 0 <= k < |l.items| ensures Run(inc).result.hypotheses[k].requiredTool == l.items[k].requiredTool {
    }
  }

  lemma QuestionsRemain(inc: Incident, n: nat)
    requires Opening(inc).Ran? && RunHead(inc, n).phase != Phase.Raised
    ensures Questions(RunHead(inc, n).ledger.items, FirstOfEachCause(inc.propose(Opening(inc).bundle.signals)))
  {
    HeadIsKept(inc, n);
    ProposalsAreAsked(inc.propose(Opening(inc).bundle.signals));
  }
}
