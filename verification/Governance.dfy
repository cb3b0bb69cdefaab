/** What holds at every loop head of an investigation, whatever the policy decides and the tools return. */
module Governance {
  import opened Domain
  import opened Identifiers
  import opened Tooling
  import opened Routing
  import opened HypothesisLedger
  import opened Investigation

  // ----- The invariant ---------------------------------------------------------------------------------

  /** All counters agree: one result, one call id, one unit of budget, one policy admission, one fingerprint
      and one signature per executed call; one step per executed or blocked call. */
  ghost predicate Lockstep(inc: Incident, s: State) {
    && |s.results| == s.callIdx == s.callsUsed == s.policyCount == |s.seen| == |s.signatures|
    && 1 <= s.callsUsed <= inc.maxCalls
    && |s.blocked| <= MAX_BLOCKED_ATTEMPTS
    && |s.steps| == |s.results| + |s.blocked| + (if EndedByPolicy(s) then 1 else 0)
  }

  predicate EndedByPolicy(s: State) {
    PolicyFinished(s.steps)
  }

  /** The signatures the policy sees and the fingerprints the call policy keeps are the same calls, aimed at
      the incident's dataset; no two executed calls are alike. */
  ghost predicate SameCalls(dataset: string, signatures: seq<Call>, seen: set<Call>) {
    && (forall i :: 0 <= i < |signatures| ==> Aimed(signatures[i], dataset) in seen)
    && (forall c :: c in seen ==> exists i :: 0 <= i < |signatures| && c == Aimed(signatures[i], dataset))
    && NoRepeats(signatures)
  }

  /** Every executed call after triage is in the bundle, fits its schema and names no dataset of its own. */
  ghost predicate InBounds(bundle: Bundle, signatures: seq<Call>) {
    && signatures != [] && signatures[0] == TRIAGE
    && (forall i :: 0 <= i < |signatures| ==> Permitted(bundle, signatures[i]))
  }

  predicate Permitted(bundle: Bundle, signature: Call) {
    && DatasetRefArg !in signature.args
    && signature.tool in bundle.allowed
    && ValidateArguments(signature.tool, signature.args) == None
  }

  /** The n-th result belongs to the n-th call, and the ledger is what the results left there, in order. */
  ghost predicate Recorded(inc: Incident, s: State) {
    && |s.results| == |s.signatures|
    && (forall i :: 0 <= i < |s.results| ==>
          s.results[i].tool == s.signatures[i].tool && s.results[i].callId == CallId(i))
    && s.evidence == LedgerOf(inc.prefix, s.results)
  }

  /** A step that ran a designated probe of a hypothesis to completion. */
  predicate Probes(step: StepRecord, h: Hypothesis) {
    && step.hypothesis == Some(h.id) && step.status == Executed(Success)
    && step.tool.Some? && DesignatedProbe(step.tool.value, h.cause)
  }

  /** Every rejected hypothesis was ruled out by such a step. */
  ghost predicate RejectionsAreProbed(s: State) {
    forall k :: 0 <= k < |s.ledger.items| && s.ledger.items[k].status == Rejected ==>
      exists j :: 0 <= j < |s.steps| && Probes(s.steps[j], s.ledger.items[k])
  }

  ghost predicate Governed(inc: Incident, bundle: Bundle, s: State) {
    && Lockstep(inc, s) && Recorded(inc, s)
    && SameCalls(inc.dataset, s.signatures, s.seen) && InBounds(bundle, s.signatures)
    && HypothesisLedger.Valid(s.ledger) && RejectionsAreProbed(s)
  }

  // ----- One turn ------------------------------------------------------------------------------------------

  /** The call of an admitted turn, as the policy will see it. */
  function SignatureOf(a: Action): Call
    requires a.CallTool?
  {
    Call(a.tool, Strip(a.args))
  }

  /** What admission by the hook chain means. */
  lemma AdmittedCall(inc: Incident, bundle: Bundle, s: State, a: Action)
    requires a.CallTool? && LoopVerdict(inc, bundle, s, Call(a.tool, WithDataset(a.args, inc.dataset)),
                                        a.hypothesis) == None
    ensures a.tool in bundle.allowed && ValidateArguments(a.tool, Strip(a.args)) == None
    ensures s.callsUsed < inc.maxCalls && s.policyCount < inc.maxCalls
    ensures Aimed(SignatureOf(a), inc.dataset) == Call(a.tool, WithDataset(a.args, inc.dataset))
    ensures Aimed(SignatureOf(a), inc.dataset) !in s.seen
    ensures !RejectedTarget(s.ledger, a.hypothesis)
  {
    assert Strip(WithDataset(a.args, inc.dataset)) == Strip(a.args);
    assert WithDataset(Strip(a.args), inc.dataset) == WithDataset(a.args, inc.dataset);
  }

  lemma LinkedKeepsStanding(l: Ledger, hypothesis: Option<nat>, codes: seq<string>)
    requires Valid(l)
    ensures Valid(Linked(l, hypothesis, codes)) && SameStanding(l, Linked(l, hypothesis, codes))
  {
    if hypothesis.Some? {
      RecordKeepsValid(l, hypothesis.value, codes);
    }
  }

  /** Judging settles at most the bound hypothesis, only while it is open, and rejects it only when its own
      designated probe came back successful. */
  lemma JudgedSettlesOne(l: Ledger, hypothesis: Option<nat>, result: ToolResult)
    requires Valid(l)
    ensures var l' := Judged(l, hypothesis, result);
            && Valid(l') && Absorbs(l, l')
            && forall k :: 0 <= k < |l.items| && l'.items[k].status == Rejected && l.items[k].status != Rejected ==>
                 hypothesis == Some(l'.items[k].id) && result.status == Success
                 && DesignatedProbe(result.tool, l'.items[k].cause)
  {
    if hypothesis.Some? {
      var id := hypothesis.value;
      GetById(l, id);
      if 1 <= id <= |l.items| && Open(l.items[id - 1]) {
        var h := l.items[id - 1];
        var probed := result.status == Success && DesignatedProbe(result.tool, h.cause);
        var verdict := Evaluate(h.cause, Produced(result.evidence), probed);
        if verdict.Some? {
          VerdictIsTerminal(h.cause, Produced(result.evidence), probed);
          ResolveKeepsValid(l, id, verdict.value.0, verdict.value.1);
        }
      }
    }
  }

  predicate RejectedSince(l: Ledger, l': Ledger, k: nat)
    requires k < |l.items| && k < |l'.items|
  {
    l'.items[k].status == Rejected && l.items[k].status != Rejected
  }

  lemma LedgerAfterIsSound(inc: Incident, s: State, a: Action, result: ToolResult)
    requires a.CallTool? && Valid(s.ledger)
    ensures var l' := LedgerAfter(inc, s, a, result);
            && Valid(l') && Absorbs(s.ledger, l')
            && forall k :: 0 <= k < |l'.items| && RejectedSince(s.ledger, l', k) ==>
                 a.hypothesis == Some(l'.items[k].id) && result.status == Success
                 && DesignatedProbe(result.tool, l'.items[k].cause)
  {
    var recorded := Coded(inc.prefix, |s.evidence|, result.evidence, result.tool, result.callId);
    LinkedKeepsStanding(s.ledger, a.hypothesis, CodesIn(recorded));
    JudgedSettlesOne(Linked(s.ledger, a.hypothesis, CodesIn(recorded)), a.hypothesis, result);
  }

  lemma ExecutedKeepsLockstep(inc: Incident, bundle: Bundle, s: State, a: Action, out: ToolOutput)
    requires Lockstep(inc, s) && !EndedByPolicy(s)
    requires a.CallTool? && LoopVerdict(inc, bundle, s, Call(a.tool, WithDataset(a.args, inc.dataset)),
                                        a.hypothesis) == None
    ensures Lockstep(inc, ExecutedTurn(inc, s, a, out)) && !EndedByPolicy(ExecutedTurn(inc, s, a, out))
  {
    AdmittedCall(inc, bundle, s, a);
  }

  lemma AddingACall(dataset: string, signatures: seq<Call>, seen: set<Call>, added: Call)
    requires SameCalls(dataset, signatures, seen) && Aimed(added, dataset) !in seen
    ensures SameCalls(dataset, signatures + [added], seen + {Aimed(added, dataset)})
  {
    var signatures', seen', n := signatures + [added], seen + {Aimed(added, dataset)}, |signatures|;
    forall i, j | 0 <= i < j < |signatures'| ensures signatures'[i] != signatures'[j] {
      if j == n {
        assert Aimed(signatures[i], dataset) in seen;
      }
    }
    forall c | c in seen' ensures exists i :: 0 <= i < |signatures'| && c == Aimed(signatures'[i], dataset) {
      if c in seen {
        var i :| 0 <= i < n && c == Aimed(signatures[i], dataset);
        assert signatures'[i] == signatures[i];
      } else {
        assert c == Aimed(signatures'[n], dataset);
      }
    }
  }

  lemma ExecutedKeepsCalls(inc: Incident, bundle: Bundle, s: State, a: Action, out: ToolOutput)
    requires SameCalls(inc.dataset, s.signatures, s.seen) && InBounds(bundle, s.signatures)
    requires a.CallTool? && LoopVerdict(inc, bundle, s, Call(a.tool, WithDataset(a.args, inc.dataset)),
                                        a.hypothesis) == None
    ensures var s' := ExecutedTurn(inc, s, a, out);
            SameCalls(inc.dataset, s'.signatures, s'.seen) && InBounds(bundle, s'.signatures)
  {
    AdmittedCall(inc, bundle, s, a);
    AddingACall(inc.dataset, s.signatures, s.seen, SignatureOf(a));
    assert Permitted(bundle, SignatureOf(a));
  }

  lemma ExecutedKeepsRecord(inc: Incident, bundle: Bundle, s: State, a: Action, out: ToolOutput)
    requires Recorded(inc, s) && s.callIdx == |s.results| && a.CallTool?
    ensures Recorded(inc, ExecutedTurn(inc, s, a, out))
  {
    LedgerOfAppend(inc.prefix, s.results, ResultOf(s, a.tool, out));
  }

  lemma ExecutedKeepsLedger(inc: Incident, bundle: Bundle, s: State, a: Action, out: ToolOutput)
    requires HypothesisLedger.Valid(s.ledger) && RejectionsAreProbed(s) && a.CallTool?
    ensures var s' := ExecutedTurn(inc, s, a, out);
            HypothesisLedger.Valid(s'.ledger) && Absorbs(s.ledger, s'.ledger) && RejectionsAreProbed(s')
  {
    var s', n := ExecutedTurn(inc, s, a, out), |s.steps|;
    LedgerAfterIsSound(inc, s, a, ResultOf(s, a.tool, out));
    forall k | 0 <= k < |s'.ledger.items| && s'.ledger.items[k].status == Rejected
      ensures exists j :: 0 <= j < |s'.steps| && Probes(s'.steps[j], s'.ledger.items[k])
    {
      if s.ledger.items[k].status == Rejected {
        var j :| 0 <= j < n && Probes(s.steps[j], s.ledger.items[k]);
        assert s'.steps[j] == s.steps[j] && Probes(s'.steps[j], s'.ledger.items[k]);
      } else {
        assert Probes(s'.steps[n], s'.ledger.items[k]);
      }
    }
  }

  lemma StepsOnlyGrow(s: State, s': State)
    requires RejectionsAreProbed(s) && s.steps <= s'.steps && s'.ledger == s.ledger
    ensures RejectionsAreProbed(s')
  {
    forall k | 0 <= k < |s.ledger.items| && s.ledger.items[k].status == Rejected
      ensures exists j :: 0 <= j < |s'.steps| && Probes(s'.steps[j], s'.ledger.items[k])
    {
      var j :| 0 <= j < |s.steps| && Probes(s.steps[j], s.ledger.items[k]);
      assert s'.steps[j] == s.steps[j];
    }
  }

  /** A head of the loop from which the loop goes on. */
  ghost predicate GoverningHead(inc: Incident, bundle: Bundle, s: State) {
    Governed(inc, bundle, s) && s.phase == Looping && LoopHead(inc, s) && !EndedByPolicy(s)
  }

  /** Governed while the loop goes on and where it stops, and settled hypotheses as in `since`. */
  ghost predicate OnTrack(inc: Incident, bundle: Bundle, since: Ledger, s: State) {
    && Absorbs(since, s.ledger)
    && match s.phase
       case Looping => GoverningHead(inc, bundle, s)
       case Stopped => Governed(inc, bundle, s)
       case Raised => true
  }

  lemma ExecutedStaysOnTrack(inc: Incident, bundle: Bundle, s: State, a: Action, out: ToolOutput)
    requires GoverningHead(inc, bundle, s)
    requires a.CallTool? && LoopVerdict(inc, bundle, s, Call(a.tool, WithDataset(a.args, inc.dataset)),
                                        a.hypothesis) == None
    ensures OnTrack(inc, bundle, s.ledger, ExecutedTurn(inc, s, a, out))
  {
    ExecutedKeepsLockstep(inc, bundle, s, a, out);
    ExecutedKeepsCalls(inc, bundle, s, a, out);
    ExecutedKeepsRecord(inc, bundle, s, a, out);
    ExecutedKeepsLedger(inc, bundle, s, a, out);
  }

  lemma BlockedStaysOnTrack(inc: Incident, bundle: Bundle, s: State, a: Action, code: BlockCode)
    requires GoverningHead(inc, bundle, s) && a.CallTool?
    ensures OnTrack(inc, bundle, s.ledger, BlockedTurn(s, a, code))
  {
    StepsOnlyGrow(s, BlockedTurn(s, a, code));
  }

  lemma FinishStaysOnTrack(inc: Incident, bundle: Bundle, s: State)
    requires GoverningHead(inc, bundle, s)
    ensures OnTrack(inc, bundle, s.ledger, FinishTurn(s))
  {
    StepsOnlyGrow(s, FinishTurn(s));
  }

  /** A turn keeps the invariant and every terminal status. */
  lemma TurnStaysOnTrack(inc: Incident, bundle: Bundle, stages: seq<StageName>, s: State)
    requires GoverningHead(inc, bundle, s)
    ensures OnTrack(inc, bundle, s.ledger, Turn(inc, bundle, stages, s))
  {
    var a := Decision(inc, bundle, stages, s);
    if a == Finish {
      FinishStaysOnTrack(inc, bundle, s);
    } else {
      var call := Call(a.tool, WithDataset(a.args, inc.dataset));
      match LoopVerdict(inc, bundle, s, call, a.hypothesis)
      case Some(code) => BlockedStaysOnTrack(inc, bundle, s, a, code);
      case None =>
        match inc.tools(s.callIdx, Call(a.tool, Strip(call.args)))
        case None =>
        case Some(out) => ExecutedStaysOnTrack(inc, bundle, s, a, out);
    }
  }

  // ----- Every loop head ---------------------------------------------------------------------------------------

  lemma {:induction false} ProposalsAreOpen(l: Ledger, proposals: seq<Proposal>)
    requires Valid(l) && forall h :: h in l.items ==> h.status == Proposed
    ensures Valid(ProposeAll(l, proposals)) && forall h :: h in ProposeAll(l, proposals).items ==> h.status == Proposed
    decreases |proposals|
  {
    if proposals != [] {
      var init, last := proposals[..|proposals| - 1], proposals[|proposals| - 1];
      ProposalsAreOpen(l, init);
      ProposeKeepsValid(ProposeAll(l, init), last.cause, last.tool);
    }
  }

  lemma TriageIsRecorded(inc: Incident, out: ToolOutput, bundle: Bundle)
    ensures Recorded(inc, Triaged(inc, out, bundle))
  {
    var first := Triaged(inc, out, bundle);
    LedgerOfAppend(inc.prefix, [], first.results[0]);
    assert [] + first.results == first.results;
    assert LedgerOf(inc.prefix, []) == [];
  }

  lemma TriageIsGoverned(inc: Incident, out: ToolOutput, bundle: Bundle)
    requires inc.maxCalls >= 1 && GetPaymentFunnel in bundle.allowed
    ensures GoverningHead(inc, bundle, Triaged(inc, out, bundle))
  {
    ProposalsAreOpen(EMPTY, inc.propose(bundle.signals));
    TriageIsRecorded(inc, out, bundle);
  }

  lemma OpeningIsGoverned(inc: Incident)
    requires Opening(inc).Ran?
    ensures GoverningHead(inc, Opening(inc).bundle, Opening(inc).first)
  {
    TriageBlockedIff(inc);
    BundleIsBounded(Signals(Opening(inc).stages, inc.missingData), GetPaymentFunnel);
    TriageIsGoverned(inc, inc.tools(0, TRIAGE).value, Opening(inc).bundle);
  }

  lemma AdvanceStaysOnTrack(inc: Incident, bundle: Bundle, stages: seq<StageName>, since: Ledger, s: State)
    requires OnTrack(inc, bundle, since, s)
    ensures OnTrack(inc, bundle, since, Advance(inc, bundle, stages, s))
  {
    if s.phase == Looping {
      TurnStaysOnTrack(inc, bundle, stages, s);
      AbsorbsTransitive(since, s.ledger, Turn(inc, bundle, stages, s).ledger);
    }
  }

  lemma HeadsStayOnTrack(inc: Incident, bundle: Bundle, stages: seq<StageName>, since: Ledger, s: State, n: nat)
    requires OnTrack(inc, bundle, since, s)
    ensures OnTrack(inc, bundle, since, Head(inc, bundle, stages, s, n))
  {
    var onTrack := x => OnTrack(inc, bundle, since, x);
    forall x | onTrack(x) ensures onTrack(Advance(inc, bundle, stages, x)) {
      AdvanceStaysOnTrack(inc, bundle, stages, since, x);
    }
    InvariantOfIteration(x => Advance(inc, bundle, stages, x), onTrack, s, n);
  }

  // ----- The theorems ------------------------------------------------------------------------------------------

  /** The `n`-th loop head of a whole run that gets past triage. */
  function RunHead(inc: Incident, n: nat): State
    requires Opening(inc).Ran?
  {
    Head(inc, Opening(inc).bundle, Opening(inc).stages, Opening(inc).first, n)
  }

  /** For any policy and any tools, at every loop head: all counters in lockstep, every executed call in the
      routed bundle, fitting its schema, aimed at the incident's dataset and unlike every other, the ledger
      exactly what the calls reported, and every rejection backed by a completed probe. */
  lemma EveryHeadIsGoverned(inc: Incident, n: nat)
    requires Opening(inc).Ran?
    ensures RunHead(inc, n).phase != Phase.Raised ==> Governed(inc, Opening(inc).bundle, RunHead(inc, n))
  {
    OpeningIsGoverned(inc);
    var o := Opening(inc);
    HeadsStayOnTrack(inc, o.bundle, o.stages, o.first.ledger, o.first, n);
  }

  /** Terminal statuses never change: between any two heads of a run a settled hypothesis keeps its status. */
  lemma SettledStaysSettled(inc: Incident, m: nat, n: nat)
    requires Opening(inc).Ran?
    ensures Absorbs(RunHead(inc, m).ledger, RunHead(inc, m + n).ledger)
  {
    OpeningIsGoverned(inc);
    var o, s := Opening(inc), RunHead(inc, m);
    HeadsStayOnTrack(inc, o.bundle, o.stages, o.first.ledger, o.first, m);
    assert OnTrack(inc, o.bundle, s.ledger, s);
    HeadsStayOnTrack(inc, o.bundle, o.stages, s.ledger, s, n);
    IterationComposes(x => Advance(inc, o.bundle, o.stages, x), o.first, m, n);
  }

  /** The loop ends, within three refusals and the rest of the budget. */
  lemma RunEnds(inc: Incident) returns (n: nat)
    requires Opening(inc).Ran?
    ensures n <= MAX_BLOCKED_ATTEMPTS + inc.maxCalls - 1 && RunHead(inc, n).phase != Looping
    ensures LoopHead(inc, Opening(inc).first)
    ensures RunHead(inc, n) == LoopEnd(inc, Opening(inc).bundle, Opening(inc).stages, Opening(inc).first)
  {
    OpeningIsLoopHead(inc);
    var o := Opening(inc);
    n := Turns(inc, o.bundle, o.stages, o.first);
    LoopEndIsAHead(inc, o.bundle, o.stages, o.first);
  }

  /** What the final sweep leaves of a ledger: no hypothesis open, the settled ones as they were, the rejected
      types exactly the rejected hypotheses. */
  ghost predicate Closes(l: Ledger, hypotheses: seq<Hypothesis>) {
    && |hypotheses| == |l.items|
    && (forall k :: 0 <= k < |hypotheses| ==>
          && hypotheses[k].id == k + 1 && hypotheses[k].cause == l.items[k].cause
          && hypotheses[k].status == if Open(l.items[k]) then Undecided else l.items[k].status)
    && (forall h :: h in hypotheses ==> HypothesisLedger.Terminal(h.status))
    && (forall c :: c in l.rejected <==> RejectedCause(hypotheses, c))
  }

  lemma SweepCloses(l: Ledger)
    requires Valid(l)
    ensures Closes(l, Sweep(l, |l.items|).items)
  {
    SweepClosesAll(l);
  }

  /** A completed run returns its last head, closed: every hypothesis terminal, every settled one with the
      verdict it was given, and the rejected types exactly the rejected hypotheses. */
  lemma ReturnedHypothesesAreClosed(inc: Incident) returns (last: State)
    requires Run(inc).Done?
    ensures Governed(inc, Opening(inc).bundle, last) && last.phase == Stopped
    ensures exists n :: last == RunHead(inc, n)
    ensures Run(inc).result == Concluded(inc, Opening(inc).bundle, Opening(inc).stages, last)
    ensures Closes(last.ledger, Run(inc).result.hypotheses)
  {
    var n := RunEnds(inc);
    last := RunHead(inc, n);
    EveryHeadIsGoverned(inc, n);
    SweepCloses(last.ledger);
  }

  /** The head a completed run ended in, and what it returns of it. */
  lemma ReturnedFromHead(inc: Incident) returns (n: nat)
    requires Run(inc).Done?
    ensures Opening(inc).Ran? && RunHead(inc, n).phase == Stopped
    ensures HypothesisLedger.Valid(RunHead(inc, n).ledger)
    ensures Closes(RunHead(inc, n).ledger, Run(inc).result.hypotheses)
    ensures Run(inc).result.steps == RunHead(inc, n).steps && Run(inc).result.results == RunHead(inc, n).results
    ensures Run(inc).result.evidence == LedgerOf(inc.prefix, RunHead(inc, n).results)
  {
    var last := ReturnedHypothesesAreClosed(inc);
    n :| last == RunHead(inc, n);
  }

  /** Each returned REJECTED hypothesis was ruled out by an executed, successful, designated-probe call bound
      to it. */
  lemma ReturnedRejectionsAreProbed(inc: Incident, h: Hypothesis)
    requires Run(inc).Done? && h in Run(inc).result.hypotheses && h.status == Rejected
    ensures exists step :: step in Run(inc).result.steps && Probes(step, h)
  {
    var last := ReturnedHypothesesAreClosed(inc);
    var k :| 0 <= k < |last.ledger.items| && Run(inc).result.hypotheses[k] == h;
    assert last.ledger.items[k].status == Rejected && last.ledger.items[k].id == h.id;
    var j :| 0 <= j < |last.steps| && Probes(last.steps[j], last.ledger.items[k]);
    assert Probes(last.steps[j], h);
  }

  /** The returned evidence is each call's drafts in call order, under distinct codes. */
  lemma ReturnedEvidenceIsConserved(inc: Incident)
    requires Run(inc).Done?
    ensures var r := Run(inc).result;
            && r.evidence == LedgerOf(inc.prefix, r.results) && DistinctCodes(r.evidence)
            && forall i :: 0 <= i < |r.results| ==> r.results[i].callId == CallId(i)
  {
    var last := ReturnedHypothesesAreClosed(inc);
    LedgerIsCodedInOrder(inc.prefix, last.results);
    LedgerCodesDistinct(inc.prefix, last.evidence);
  }

  /** The policy itself finished: the last step says so. */
  predicate PolicyFinished(steps: seq<StepRecord>) {
    steps != [] && steps[|steps| - 1].status == StepStatus.Finished
  }

  /** What a run reports as its end: POLICY_FINISHED exactly when the policy did finish or three calls were
      refused. The two never coincide, so the reported reason is wrong exactly for three refusals. */
  lemma ReportedFinishedIff(inc: Incident)
    requires Run(inc).Done?
    ensures var r := Run(inc).result;
            r.exitReason == POLICY_FINISHED <==> PolicyFinished(r.steps) || |r.blocked| == MAX_BLOCKED_ATTEMPTS
    ensures var r := Run(inc).result;
            !(PolicyFinished(r.steps) && |r.blocked| == MAX_BLOCKED_ATTEMPTS)
  {
    var o := Opening(inc);
    var n := RunEnds(inc);
    HeadsEndForReason(inc, o.bundle, o.stages, o.first, n);
  }

  /** Why a head is where the loop ended. */
  ghost predicate EndsForReason(s: State) {
    match s.phase
    case Looping => |s.blocked| < MAX_BLOCKED_ATTEMPTS && s.stopReason.None?
    case Stopped =>
      && (s.stopReason.None? <==> PolicyFinished(s.steps) || |s.blocked| == MAX_BLOCKED_ATTEMPTS)
      && !(PolicyFinished(s.steps) && |s.blocked| == MAX_BLOCKED_ATTEMPTS)
    case Raised => true
  }

  lemma HeadsEndForReason(inc: Incident, bundle: Bundle, stages: seq<StageName>, s: State, n: nat)
    requires EndsForReason(s)
    ensures EndsForReason(Head(inc, bundle, stages, s, n))
  {
    InvariantOfIteration(x => Advance(inc, bundle, stages, x), x => EndsForReason(x), s, n);
  }
}
