/** One turn of any run in its own terms: what the policy is shown, why its call is refused, and what the run
    hands back beside the hypotheses. */
module TurnByTurn {
  import opened Domain
  import opened Identifiers
  import opened Tooling
  import opened Routing
  import opened HypothesisLedger
  import opened Investigation
  import opened Governance
  import opened CallHistory

  // ----- The hook chain and the policy's view -----------------------------------------------------------------------

  /** Why a call of the loop is refused, from the bundle, the budget, the hypotheses and the calls made so far.
      The dataset is injected before the hooks see a call, so it is never out of the incident's scope. */
  ghost function Refusal(inc: Incident, bundle: Bundle, s: State, a: Action): Option<BlockCode>
    requires a.CallTool?
  {
    var args := map k | k in a.args && k != DatasetRefArg :: a.args[k];
    if a.tool !in bundle.allowed then Some(TOOL_NOT_IN_BUNDLE)
    else if !Acceptable(a.tool, args) then Some(SCHEMA_INVALID)
    else if |s.results| >= inc.maxCalls then Some(BUDGET_EXHAUSTED_BLOCK)
    else if exists h :: h in s.ledger.items && a.hypothesis == Some(h.id) && h.status == Rejected then
      Some(HYPOTHESIS_REJECTED)
    else if Call(a.tool, args) in s.signatures then Some(POLICY_VIOLATION)
    else None
  }

  lemma RepeatsAreSeen(dataset: string, signatures: seq<Call>, seen: set<Call>, tool: ToolName, args: Arguments)
    requires SameCalls(dataset, signatures, seen) && forall c :: c in signatures ==> DatasetRefArg !in c.args
    ensures Call(tool, WithDataset(args, dataset)) in seen <==> Call(tool, Strip(args)) in signatures
  {
    var aimed, signature := Call(tool, WithDataset(args, dataset)), Call(tool, Strip(args));
    assert WithDataset(Strip(args), dataset) == WithDataset(args, dataset);
    if aimed in seen {
      var i :| 0 <= i < |signatures| && aimed == Aimed(signatures[i], dataset);
      AimedInjective(signatures[i], signature, dataset);
    }
    if signature in signatures {
      var i :| 0 <= i < |signatures| && signatures[i] == signature;
      assert Aimed(signatures[i], dataset) in seen;
    }
  }

  lemma TargetRejectedIff(l: Ledger, hypothesis: Option<nat>)
    requires Valid(l)
    ensures RejectedTarget(l, hypothesis) <==>
            exists h :: h in l.items && hypothesis == Some(h.id) && h.status == Rejected
  {
    if hypothesis.Some? {
      GetById(l, hypothesis.value);
      forall h | h in l.items && h.id == hypothesis.value ensures Get(l.items, h.id) == Some(h) {
        var k :| 0 <= k < |l.items| && l.items[k] == h;
      }
    }
  }

  lemma VerdictIsRefusal(inc: Incident, bundle: Bundle, s: State, a: Action)
    requires a.CallTool? && Lockstep(inc, s) && SameCalls(inc.dataset, s.signatures, s.seen)
    requires InBounds(bundle, s.signatures) && Valid(s.ledger)
    ensures LoopVerdict(inc, bundle, s, Call(a.tool, WithDataset(a.args, inc.dataset)), a.hypothesis) ==
            Refusal(inc, bundle, s, a)
  {
    assert Strip(WithDataset(a.args, inc.dataset)) == Strip(a.args);
    assert Strip(a.args) == map k | k in a.args && k != DatasetRefArg :: a.args[k];
    TargetRejectedIff(s.ledger, a.hypothesis);
    forall c | c in s.signatures ensures DatasetRefArg !in c.args {
      var i :| 0 <= i < |s.signatures| && s.signatures[i] == c;
      assert Permitted(bundle, s.signatures[i]);
    }
    RepeatsAreSeen(inc.dataset, s.signatures, s.seen, a.tool, a.args);
  }

  /** What a turn makes of the policy's action: a refused call changes nothing but the record of it, an
      admitted one reaches the tool under the next call id, and the third refusal ends the loop. */
  ghost predicate Follows(inc: Incident, bundle: Bundle, s: State, a: Action, t: State) {
    match a
    case Finish => t.phase == Stopped && t.results == s.results && t.blocked == s.blocked
    case CallTool(tool, args, hypothesis) =>
      match Refusal(inc, bundle, s, a)
      case Some(code) =>
        && t.results == s.results && t.ledger == s.ledger && t.evidence == s.evidence
        && t.blocked == s.blocked + [code] && (t.phase == Stopped <==> |t.blocked| == 3)
      case None =>
        match inc.tools(|s.results|, Call(tool, Strip(args)))
        case None => t.phase == Phase.Raised
        case Some(out) =>
          && t.blocked == s.blocked && t.signatures == s.signatures + [Call(tool, Strip(args))]
          && t.results == s.results + [ToolResult(CallId(|s.results|), tool, out.status, out.evidence)]
  }

  lemma TurnFollows(inc: Incident, bundle: Bundle, stages: seq<StageName>, s: State)
    requires s.phase == Looping && LoopHead(inc, s) && s.callIdx == |s.results|
    requires var a := Decision(inc, bundle, stages, s);
             a.CallTool? ==>
               LoopVerdict(inc, bundle, s, Call(a.tool, WithDataset(a.args, inc.dataset)), a.hypothesis) ==
               Refusal(inc, bundle, s, a)
    ensures Follows(inc, bundle, s, Decision(inc, bundle, stages, s), Turn(inc, bundle, stages, s))
  {
    var a := Decision(inc, bundle, stages, s);
    if a.CallTool? {
      assert Strip(WithDataset(a.args, inc.dataset)) == Strip(a.args);
    }
  }

  /** Every turn of any run follows from the policy's action and what was done before. */
  lemma NextTurnExactly(inc: Incident, n: nat)
    requires Opening(inc).Ran? && RunHead(inc, n).phase == Looping
    ensures var o, s := Opening(inc), RunHead(inc, n);
            Follows(inc, o.bundle, s, Decision(inc, o.bundle, o.stages, s), RunHead(inc, n + 1))
  {
    var o, s := Opening(inc), RunHead(inc, n);
    OpeningIsGoverned(inc);
    HeadsStayOnTrack(inc, o.bundle, o.stages, o.first.ledger, o.first, n);
    assert RunHead(inc, n + 1) == Turn(inc, o.bundle, o.stages, s);
    var a := Decision(inc, o.bundle, o.stages, s);
    if a.CallTool? {
      VerdictIsRefusal(inc, o.bundle, s, a);
    }
    TurnFollows(inc, o.bundle, o.stages, s);
  }

  /** Loss of the records, read from the last one back. */
  function RecordedLoss(items: seq<Evidence>): int {
    if items == [] then 0
    else
      var last := items[|items| - 1];
      RecordedLoss(items[..|items| - 1]) + (if last.lost.Some? then last.lost.value else 0)
  }

  lemma {:induction false} ObservedGrows(items: seq<Evidence>, e: Evidence)
    ensures ObservedLoss(items + [e]) == ObservedLoss(items) + e.Loss()
  {
    if items == [] {
      assert items + [e] == [e];
    } else {
      assert (items + [e])[1..] == items[1..] + [e];
      ObservedGrows(items[1..], e);
    }
  }

  lemma {:induction false} ObservedIsRecorded(items: seq<Evidence>)
    ensures ObservedLoss(items) == RecordedLoss(items)
  {
    if items != [] {
      var init, last := items[..|items| - 1], items[|items| - 1];
      assert items == init + [last];
      ObservedGrows(init, last);
      ObservedIsRecorded(init);
    }
  }

  /** What any policy is shown at any head: the routed bundle and the stages triage localised, the records of
      the calls so far and their loss, the hypotheses as those calls left them and the causes they ruled out,
      the calls and refusals so far, and what is left of the budget. */
  lemma ViewExactly(inc: Incident, n: nat)
    requires Opening(inc).Ran? && RunHead(inc, n).phase == Looping
    ensures var o, s := Opening(inc), RunHead(inc, n);
            var v := View(inc, o.bundle, o.stages, s);
            && v.bundle == o.bundle && v.localizedStages == o.stages && v.missingData == inc.missingData
            && v.evidence == LedgerOf(inc.prefix, s.results) && v.observedLoss == RecordedLoss(v.evidence)
            && v.hypotheses == s.ledger.items
            && (forall c :: c in v.rejected <==> exists h :: h in v.hypotheses && h.cause == c && h.status == Rejected)
            && v.remainingBudget == inc.maxCalls - |s.results|
            && |v.calledTools| == |v.calledSignatures| == |s.results|
            && (forall i :: 0 <= i < |s.results| ==>
                  v.calledTools[i] == v.calledSignatures[i].tool == s.results[i].tool)
            && v.blockedAttempts == Refusals(s.steps)
  {
    var o, s := Opening(inc), RunHead(inc, n);
    EveryHeadIsGoverned(inc, n);
    EveryHeadIsAccounted(inc, n);
    ObservedIsRecorded(s.evidence);
    forall c ensures c in s.ledger.rejected <==>
                     exists h :: h in s.ledger.items && h.cause == c && h.status == Rejected
    {
      RejectedCauseIsHeld(s.ledger.items, c);
    }
  }

  lemma RejectedCauseIsHeld(items: seq<Hypothesis>, c: Label)
    ensures RejectedCause(items, c) <==> exists h :: h in items && h.cause == c && h.status == Rejected
  {
    if RejectedCause(items, c) {
      var k :| 0 <= k < |items| && items[k].cause == c && items[k].status == Rejected;
      assert items[k] in items;
    }
  }

  /** Beside the hypotheses a run returns what it was opened with: the stages of the triage records in order,
      the bundle routed from them, and the incident's data gaps. */
  lemma ReturnedContext(inc: Incident)
    requires Run(inc).Done?
    ensures var r := Run(inc).result;
            && r.results != [] && r.results[0].tool == GetPaymentFunnel && r.missingData == inc.missingData
            && r.bundle == Route(r.anomalousStages, inc.missingData)
            && r.anomalousStages == StagesIn(r.results[0].evidence)
            && forall x :: x in r.anomalousStages <==> exists d :: d in r.results[0].evidence && d.stage == Some(x)
  {
    var n := LastHead(inc);
    ResultsOnlyGrow(inc, n);
    StagesAreDrafted(Opening(inc).first.results[0].evidence);
  }

  lemma ResultsOnlyGrow(inc: Incident, n: nat)
    requires Opening(inc).Ran?
    ensures Opening(inc).first.results <= RunHead(inc, n).results
  {
    var o := Opening(inc);
    var grown := (x: State) => o.first.results <= x.results;
    forall x | grown(x) ensures grown(Advance(inc, o.bundle, o.stages, x)) {
    }
    InvariantOfIteration(x => Advance(inc, o.bundle, o.stages, x), grown, o.first, n);
  }

  lemma {:induction false} StagesAreDrafted(drafts: seq<EvidenceDraft>)
    ensures forall x :: x in StagesIn(drafts) <==> exists d :: d in drafts && d.stage == Some(x)
  {
    if drafts != [] {
      StagesAreDrafted(drafts[1..]);
      forall x ensures x in StagesIn(drafts) <==> exists d :: d in drafts && d.stage == Some(x) {
        if x in StagesIn(drafts[1..]) {
          var d :| d in drafts[1..] && d.stage == Some(x);
          assert d in drafts;
        }
      }
    }
  }
}
