/** From the data to the verdict: a scripted investigation with the default tools always completes, and what
    it concludes about a cause with a probe is a property of the dataset. */
module EndToEnd {
  import opened Domain
  import opened RuleAdapter
  import opened Tooling
  import opened ContextSelection
  import opened Investigation
  import opened DiagnosticTools
  import opened Routing
  import opened HypothesisLedger
  import opened Governance
  import opened ScriptedPolicy
  import opened LossTotals
  import opened Agreement
  import opened Trimming
  import opened Agenda

  // ----- The deterministic setup ---------------------------------------------------------------------

  /** The investigation that runs without a model: this policy over the default tools, for any dataset,
      budget and data gaps. */
  function DefaultIncident(dataset: string, maxCalls: int, prefix: string, missingData: seq<string>,
                           src: Source): (inc: Incident)
    ensures Scripted(inc) && Reads(inc, src) && inc.maxCalls == maxCalls && inc.missingData == missingData
  {
    Incident(dataset, maxCalls, prefix, missingData, signals => Proposals(signals),
             (n, view) => ScriptedAction(view), (n, call) => Answer(src, call))
  }

  // ----- The run completes ---------------------------------------------------------------------------

  /** No call of the repertoire makes a default tool raise. */
  lemma RepertoireAnswered(src: Source, c: Call)
    requires c in REPERTOIRE
    ensures Answer(src, c).Some?
  {
  }

  /** A turn raises only when an admitted call's tool does. */
  lemma RaisedTurnOnly(inc: Incident, bundle: Bundle, stages: seq<StageName>, s: State, a: Action)
    requires s.phase == Looping && Investigation.Decision(inc, bundle, stages, s) == a
    ensures Turn(inc, bundle, stages, s).phase == Phase.Raised ==>
              a.CallTool? && inc.tools(s.callIdx, Call(a.tool, Strip(WithDataset(a.args, inc.dataset)))) == None
  {
  }

  lemma AskedInRepertoire(inc: Incident, bundle: Bundle, stages: seq<StageName>, s: State, a: Action)
    requires Routed(inc, bundle, stages) && Recorded(inc, s)
    requires a == ScriptedAction(View(inc, bundle, stages, s)) && a.CallTool?
    ensures Call(a.tool, Strip(WithDataset(a.args, inc.dataset))) in REPERTOIRE
  {
    DecisionForm(View(inc, bundle, stages, s), a);
    PlannedCall(inc, bundle, stages, s);
    StripUndoesInjection(a.args, inc.dataset);
  }

  /** The default tools answer whatever this policy asks. */
  lemma ScriptedCallAnswered(inc: Incident, src: Source, bundle: Bundle, stages: seq<StageName>, s: State, a: Action)
    requires Routed(inc, bundle, stages) && Recorded(inc, s)
    requires a == ScriptedAction(View(inc, bundle, stages, s)) && a.CallTool?
    ensures Answer(src, Call(a.tool, Strip(WithDataset(a.args, inc.dataset)))).Some?
  {
    AskedInRepertoire(inc, bundle, stages, s, a);
    RepertoireAnswered(src, Call(a.tool, Strip(WithDataset(a.args, inc.dataset))));
  }

  lemma ScriptedTurnNeverRaises(inc: Incident, src: Source, bundle: Bundle, stages: seq<StageName>, s: State)
    requires Scripted(inc) && Reads(inc, src) && Routed(inc, bundle, stages) && Recorded(inc, s) && s.phase == Looping
    ensures Turn(inc, bundle, stages, s).phase != Phase.Raised
  {
    var a := Investigation.Decision(inc, bundle, stages, s);
    RaisedTurnOnly(inc, bundle, stages, s, a);
    if a.CallTool? {
      ScriptedCallAnswered(inc, src, bundle, stages, s, a);
    }
  }

  ghost predicate Unraised(inc: Incident, bundle: Bundle, since: Ledger, s: State) {
    OnTrack(inc, bundle, since, s) && s.phase != Phase.Raised
  }

  lemma HeadsNeverRaise(inc: Incident, src: Source, bundle: Bundle, stages: seq<StageName>, since: Ledger, s: State,
                        n: nat)
    requires Scripted(inc) && Reads(inc, src) && Routed(inc, bundle, stages) && Unraised(inc, bundle, since, s)
    ensures Unraised(inc, bundle, since, Head(inc, bundle, stages, s, n))
  {
    var unraised := x => Unraised(inc, bundle, since, x);
    forall x | unraised(x) ensures unraised(Advance(inc, bundle, stages, x)) {
      AdvanceStaysOnTrack(inc, bundle, stages, since, x);
      if x.phase == Looping {
        ScriptedTurnNeverRaises(inc, src, bundle, stages, x);
      }
    }
    InvariantOfIteration(x => Advance(inc, bundle, stages, x), unraised, s, n);
  }

  lemma OpensIff(inc: Incident, src: Source)
    requires Reads(inc, src)
    ensures Opening(inc).Ran? <==> inc.maxCalls >= 1
    ensures Opening(inc).Ran? ==> Opening(inc).stages == TriageStages(src)
  {
    TriageBlockedIff(inc);
    AdmittedCallReturnsIff(src, TRIAGE);
    assert inc.tools(0, TRIAGE) == Answer(src, TRIAGE);
  }

  lemma OpeningIsUnraised(inc: Incident)
    requires Opening(inc).Ran?
    ensures var o := Opening(inc);
            Routed(inc, o.bundle, o.stages) && Unraised(inc, o.bundle, o.first.ledger, o.first)
  {
    OpeningIsGoverned(inc);
  }

  lemma ScriptedHeadsNeverRaise(inc: Incident, src: Source, n: nat)
    requires Scripted(inc) && Reads(inc, src) && Opening(inc).Ran?
    ensures RunHead(inc, n).phase != Phase.Raised
  {
    var o := Opening(inc);
    OpeningIsUnraised(inc);
    HeadsNeverRaise(inc, src, o.bundle, o.stages, o.first.ledger, o.first, n);
  }

  lemma DoneUnlessRaised(inc: Incident) returns (n: nat)
    requires Opening(inc).Ran?
    ensures RunHead(inc, n).phase != Phase.Raised ==> Run(inc).Done?
  {
    n := RunEnds(inc);
  }

  /** A scripted run with the default tools completes exactly when there is any budget: it is neither blocked
      nor ended by a raising tool. */
  lemma ScriptedRunCompletesIff(inc: Incident, src: Source)
    requires Scripted(inc) && Reads(inc, src)
    ensures Run(inc).Done? <==> inc.maxCalls >= 1
  {
    OpensIff(inc, src);
    if inc.maxCalls >= 1 {
      var n := DoneUnlessRaised(inc);
      ScriptedHeadsNeverRaise(inc, src, n);
    }
  }

  // ----- Any policy over the default tools ---------------------------------------------------------------

  /** A head at which the policy makes a call that the hooks admit and whose arguments the query behind the tool
      cannot read. */
  ghost predicate AsksUnreadable(inc: Incident, bundle: Bundle, stages: seq<StageName>, s: State) {
    var a := Investigation.Decision(inc, bundle, stages, s);
    && s.phase == Looping && a.CallTool?
    && LoopVerdict(inc, bundle, s, Call(a.tool, WithDataset(a.args, inc.dataset)), a.hypothesis) == None
    && !(FiltersRead(Given(Strip(a.args), FiltersArg)) && ChangeTypesRead(Given(Strip(a.args), ChangeTypesArg)))
  }

  lemma RefusedTurn(inc: Incident, bundle: Bundle, stages: seq<StageName>, s: State, a: Action)
    requires s.phase == Looping && Investigation.Decision(inc, bundle, stages, s) == a
    requires a.CallTool? ==>
               LoopVerdict(inc, bundle, s, Call(a.tool, WithDataset(a.args, inc.dataset)), a.hypothesis) != None
    ensures Turn(inc, bundle, stages, s).phase != Phase.Raised
  {
  }

  /** A turn raises exactly on such a call. */
  lemma TurnRaisesIff(inc: Incident, src: Source, bundle: Bundle, stages: seq<StageName>, s: State)
    requires Reads(inc, src) && s.phase == Looping
    ensures Turn(inc, bundle, stages, s).phase == Phase.Raised <==> AsksUnreadable(inc, bundle, stages, s)
  {
    var a := Investigation.Decision(inc, bundle, stages, s);
    if a.CallTool? && LoopVerdict(inc, bundle, s, Call(a.tool, WithDataset(a.args, inc.dataset)),
                                  a.hypothesis) == None {
      AdmittedTurn(inc, bundle, stages, s, a);
      AdmittedCall(inc, bundle, s, a);
      assert Strip(WithDataset(a.args, inc.dataset)) == Strip(a.args);
      AdmittedCallReturnsIff(src, Call(a.tool, Strip(a.args)));
    } else {
      RefusedTurn(inc, bundle, stages, s, a);
    }
  }

  /** A loop that ended by raising raised at some turn. */
  lemma {:induction false} RaisedAtATurn(inc: Incident, bundle: Bundle, stages: seq<StageName>, s: State, n: nat)
    returns (m: nat)
    requires s.phase != Phase.Raised && Head(inc, bundle, stages, s, n).phase == Phase.Raised
    ensures Head(inc, bundle, stages, s, m).phase == Looping
    ensures Turn(inc, bundle, stages, Head(inc, bundle, stages, s, m)).phase == Phase.Raised
  {
    var before := Head(inc, bundle, stages, s, n - 1);
    if before.phase == Looping {
      m := n - 1;
    } else {
      m := RaisedAtATurn(inc, bundle, stages, s, n - 1);
    }
  }

  lemma {:induction false} StaysEnded(inc: Incident, bundle: Bundle, stages: seq<StageName>, s: State, m: nat, n: nat)
    requires m <= n && Head(inc, bundle, stages, s, m).phase != Looping
    ensures Head(inc, bundle, stages, s, n) == Head(inc, bundle, stages, s, m)
  {
    if m < n {
      StaysEnded(inc, bundle, stages, s, m, n - 1);
      AtRest(inc, bundle, stages, s, n - 1);
    }
  }

  lemma AtRest(inc: Incident, bundle: Bundle, stages: seq<StageName>, s: State, n: nat)
    requires Head(inc, bundle, stages, s, n).phase != Looping
    ensures Head(inc, bundle, stages, s, n + 1) == Head(inc, bundle, stages, s, n)
  {
  }

  /** Once a turn raised, that is how the loop ends. */
  lemma RaisedForGood(inc: Incident, bundle: Bundle, stages: seq<StageName>, s: State, m: nat, n: nat)
    requires Head(inc, bundle, stages, s, m).phase == Looping
    requires Head(inc, bundle, stages, s, m + 1).phase == Phase.Raised
    requires Head(inc, bundle, stages, s, n).phase != Looping
    ensures Head(inc, bundle, stages, s, n).phase == Phase.Raised
  {
    if n <= m {
      StaysEnded(inc, bundle, stages, s, n, m);
    } else {
      StaysEnded(inc, bundle, stages, s, m + 1, n);
    }
  }

  lemma NextHead(inc: Incident, bundle: Bundle, stages: seq<StageName>, s: State, m: nat)
    requires Head(inc, bundle, stages, s, m).phase == Looping
    ensures Head(inc, bundle, stages, s, m + 1) == Turn(inc, bundle, stages, Head(inc, bundle, stages, s, m))
  {
  }

  lemma RaisedRunIsNotDone(inc: Incident) returns (n: nat)
    requires Opening(inc).Ran?
    ensures RunHead(inc, n).phase != Looping
    ensures RunHead(inc, n).phase == Phase.Raised ==> !Run(inc).Done?
  {
    n := RunEnds(inc);
  }

  /** A run that once asks something unreadable ends there. */
  lemma UnreadableEndsRun(inc: Incident, src: Source, m: nat)
    requires Reads(inc, src) && Opening(inc).Ran?
    requires AsksUnreadable(inc, Opening(inc).bundle, Opening(inc).stages, RunHead(inc, m))
    ensures !Run(inc).Done?
  {
    var o := Opening(inc);
    var n := RaisedRunIsNotDone(inc);
    TurnRaisesIff(inc, src, o.bundle, o.stages, RunHead(inc, m));
    NextHead(inc, o.bundle, o.stages, o.first, m);
    RaisedForGood(inc, o.bundle, o.stages, o.first, m, n);
  }

  /** For any policy over the default tools: a run completes exactly when there is any budget and no admitted call
      of it carries filters or change types that cannot be read. */
  lemma DefaultRunCompletesIff(inc: Incident, src: Source)
    requires Reads(inc, src)
    ensures Opening(inc).Ran? <==> inc.maxCalls >= 1
    ensures Run(inc).Done? <==>
            Opening(inc).Ran?
            && forall n :: !AsksUnreadable(inc, Opening(inc).bundle, Opening(inc).stages, RunHead(inc, n))
  {
    OpensIff(inc, src);
    if Opening(inc).Ran? {
      var o := Opening(inc);
      forall m | AsksUnreadable(inc, o.bundle, o.stages, RunHead(inc, m)) ensures !Run(inc).Done? {
        UnreadableEndsRun(inc, src, m);
      }
      var n := DoneUnlessRaised(inc);
      if RunHead(inc, n).phase == Phase.Raised {
        var m := RaisedAtATurn(inc, o.bundle, o.stages, o.first, n);
        TurnRaisesIff(inc, src, o.bundle, o.stages, RunHead(inc, m));
      }
    }
  }

  // ----- What the calls brought back -------------------------------------------------------------------

  /** Each recorded result is what the default tools answer to its call. */
  ghost predicate Answered(src: Source, s: State) {
    AnswersAll(src, s.signatures, s.results)
  }

  lemma TurnStaysAnswered(inc: Incident, src: Source, bundle: Bundle, stages: seq<StageName>, s: State)
    requires Reads(inc, src) && Answered(src, s)
    ensures Answered(src, Turn(inc, bundle, stages, s))
  {
    var a := Investigation.Decision(inc, bundle, stages, s);
    if a.CallTool? && LoopVerdict(inc, bundle, s, Call(a.tool, WithDataset(a.args, inc.dataset)),
                                  a.hypothesis) == None {
      AdmittedTurn(inc, bundle, stages, s, a);
      assert Strip(WithDataset(a.args, inc.dataset)) == Strip(a.args);
    }
  }

  lemma HeadsStayAnswered(inc: Incident, src: Source, bundle: Bundle, stages: seq<StageName>, s: State, n: nat)
    requires Reads(inc, src) && Answered(src, s)
    ensures Answered(src, Head(inc, bundle, stages, s, n))
  {
    var answered := x => Answered(src, x);
    forall x | answered(x) ensures answered(Advance(inc, bundle, stages, x)) {
      TurnStaysAnswered(inc, src, bundle, stages, x);
    }
    InvariantOfIteration(x => Advance(inc, bundle, stages, x), answered, s, n);
  }

  lemma EveryHeadIsAnswered(inc: Incident, src: Source, n: nat)
    requires Reads(inc, src) && Opening(inc).Ran?
    ensures Answered(src, RunHead(inc, n))
  {
    var o := Opening(inc);
    AdmittedCallReturnsIff(src, TRIAGE);
    assert inc.tools(0, TRIAGE) == Answer(src, TRIAGE);
    HeadsStayAnswered(inc, src, o.bundle, o.stages, o.first, n);
  }

  // ----- What the probe found ------------------------------------------------------------------------------

  lemma ProbeIsCalledPlainly(p: Probe, c: Call)
    requires IsProbe(p) && c in REPERTOIRE && c.tool == p.tool
    ensures c == Call(p.tool, map[])
  {
  }

  /** Once the probe was called, its proof was found exactly when the dataset shows the fault. */
  lemma FoundIffShown(src: Source, p: Probe, s: State)
    requires IsProbe(p) && Answered(src, s) && Called(s.results, p.tool)
    requires (forall c :: c in s.signatures ==> c in REPERTOIRE) && (forall r :: r in s.results ==> DraftedBy(r))
    ensures Found(s.results, p.proof) <==> ShowsFault(src, p)
  {
    forall r | r in s.results && r.tool == p.tool ensures Drafts(r, p.proof) <==> ShowsFault(src, p) {
      var i :| 0 <= i < |s.results| && s.results[i] == r;
      assert s.signatures[i] in s.signatures && AnswersCall(src, s.signatures[i], r);
      ProbeIsCalledPlainly(p, s.signatures[i]);
      ProbeShowsFault(src, p, r);
    }
    forall r | r in s.results && Drafts(r, p.proof) ensures r.tool == p.tool {
      ProducedAreEmitted(r);
      OnlyItsProbe(p, r.tool);
    }
  }

  // ----- What is raised ----------------------------------------------------------------------------------------

  lemma {:induction false} ProposalIsRaised(proposals: seq<Proposal>, x: Proposal)
    requires x in proposals
    ensures exists h :: h in ProposeAll(EMPTY, proposals).items && h.cause == x.cause
    decreases |proposals|
  {
    var init, last := proposals[..|proposals| - 1], proposals[|proposals| - 1];
    assert proposals == init + [last];
    var before, after := ProposeAll(EMPTY, init), ProposeAll(EMPTY, proposals);
    if x in init {
      ProposalIsRaised(init, x);
      var h :| h in before.items && h.cause == x.cause;
      assert h in after.items;
    } else if Find(before.items, x.cause).Some? {
      assert Find(before.items, x.cause).value in after.items;
    } else {
      assert after.items[|before.items|].cause == x.cause;
      assert after.items[|before.items|] in after.items;
    }
  }

  predicate Raises(items: seq<Hypothesis>, cause: Label) {
    exists h :: h in items && h.cause == cause
  }

  /** A cause with a probe is raised exactly when triage localised a stage of its family. */
  lemma RaisedIff(p: Probe, stages: seq<StageName>, missingData: seq<string>)
    requires IsProbe(p)
    ensures Raises(ProposeAll(EMPTY, Proposals(Signals(stages, missingData))).items, p.cause) <==>
            Indicated(stages, p.signal)
  {
    var signals := Signals(stages, missingData);
    var items := ProposeAll(EMPTY, Proposals(signals)).items;
    SignalsAreRight(stages, missingData);
    assert STAGE_SIGNALS[2] == DECISION_FRICTION && STAGE_SIGNALS[3] == CHANNEL_TIMEOUT_SIGNAL;
    if Raises(items, p.cause) {
      var h :| h in items && h.cause == p.cause;
      RaisedBySignal(p, signals, h);
    }
    if p.signal in signals {
      var i :| 0 <= i < |signals| && signals[i] == p.signal;
      assert Proposals(signals)[i] in Proposals(signals);
      ProposalIsRaised(Proposals(signals), Proposals(signals)[i]);
    }
  }

  /** Returned hypotheses have the causes of the first ones. */
  lemma ReturnedCausesAreRaised(first: Ledger, last: Ledger, returned: seq<Hypothesis>, cause: Label)
    requires Absorbs(first, last) && Closes(last, returned)
    ensures Raises(returned, cause) <==> Raises(first.items, cause)
  {
    assert forall k :: 0 <= k < |returned| ==> returned[k].cause == last.items[k].cause == first.items[k].cause;
    if Raises(first.items, cause) {
      var k :| 0 <= k < |first.items| && first.items[k].cause == cause;
      assert returned[k] in returned;
    }
    if Raises(returned, cause) {
      var k :| 0 <= k < |returned| && returned[k].cause == cause;
      assert first.items[k] in first.items;
    }
  }

  // ----- The verdict is a property of the data -----------------------------------------------------------------

  lemma RaisedFollowsData(inc: Incident, src: Source, p: Probe)
    requires Scripted(inc) && Reads(inc, src) && IsProbe(p) && Run(inc).Done?
    ensures Raises(Run(inc).result.hypotheses, p.cause) <==> Indicated(TriageStages(src), p.signal)
  {
    OpensIff(inc, src);
    var o := Opening(inc);
    var n := ReturnedFromHead(inc);
    OpeningIsGoverned(inc);
    HeadsStayOnTrack(inc, o.bundle, o.stages, o.first.ledger, o.first, n);
    ReturnedCausesAreRaised(o.first.ledger, RunHead(inc, n).ledger, Run(inc).result.hypotheses, p.cause);
    assert o.first.ledger == ProposeAll(EMPTY, inc.propose(Signals(o.stages, inc.missingData)));
    RaisedIff(p, o.stages, inc.missingData);
  }

  /** When the run ends, a raised cause with a probe has had its probe called. */
  lemma ProbeWasCalled(inc: Incident, src: Source, p: Probe, n: nat, k: nat)
    requires Scripted(inc) && Reads(inc, src) && IsProbe(p) && inc.maxCalls >= 8 && Opening(inc).Ran?
    requires RunHead(inc, n).phase == Stopped
    requires k < |RunHead(inc, n).ledger.items| && RunHead(inc, n).ledger.items[k].cause == p.cause
    ensures Called(RunHead(inc, n).results, p.tool)
  {
    HeadsOnCourse(inc, src, p, n);
    EndIsSettled(inc, src, p, n, k);
    assert StandsAs(RunHead(inc, n).ledger.items[k], Standing(p, RunHead(inc, n).results));
  }

  lemma FoundFollowsData(inc: Incident, src: Source, p: Probe, n: nat)
    requires Scripted(inc) && Reads(inc, src) && IsProbe(p) && inc.maxCalls >= 2 && Opening(inc).Ran?
    requires Called(RunHead(inc, n).results, p.tool)
    ensures Found(RunHead(inc, n).results, p.proof) <==> ShowsFault(src, p)
  {
    var o := Opening(inc);
    EveryHeadIsAnswered(inc, src, n);
    OpeningIsQuiet(inc);
    HeadsStayQuiet(inc, o.bundle, o.stages, o.first.ledger, o.first, n);
    DefaultResults(inc, src, n);
    FoundIffShown(src, p, RunHead(inc, n));
  }

  lemma StatusFollowsData(inc: Incident, src: Source, p: Probe, h: Hypothesis)
    requires Scripted(inc) && Reads(inc, src) && IsProbe(p) && inc.maxCalls >= 8 && Run(inc).Done?
    requires h in Run(inc).result.hypotheses && h.cause == p.cause
    ensures h.status == if ShowsFault(src, p) then p.verdict else Rejected
  {
    var n := ReturnedFromHead(inc);
    var k :| 0 <= k < |Run(inc).result.hypotheses| && Run(inc).result.hypotheses[k] == h;
    EndIsSettled(inc, src, p, n, k);
    ProbeWasCalled(inc, src, p, n, k);
    FoundFollowsData(inc, src, p, n);
  }

  /** With a budget of eight a scripted investigation completes; it raises a cause with a probe exactly when
      triage localised a stage of its family, and then returns it SUPPORTED (CHANNEL_TIMEOUT) or PARTIAL
      (BENEFIT_SELECTION_FRICTION) when the dataset shows the fault, and REJECTED when it does not. */
  lemma VerdictFollowsData(inc: Incident, src: Source, p: Probe)
    requires Scripted(inc) && Reads(inc, src) && IsProbe(p) && inc.maxCalls >= 8
    ensures Run(inc).Done?
    ensures Raises(Run(inc).result.hypotheses, p.cause) <==> Indicated(TriageStages(src), p.signal)
    ensures forall h :: h in Run(inc).result.hypotheses && h.cause == p.cause ==>
              h.status == if ShowsFault(src, p) then p.verdict else Rejected
  {
    ScriptedRunCompletesIff(inc, src);
    RaisedFollowsData(inc, src, p);
    forall h | h in Run(inc).result.hypotheses && h.cause == p.cause
      ensures h.status == if ShowsFault(src, p) then p.verdict else Rejected
    {
      StatusFollowsData(inc, src, p, h);
    }
  }

  // ----- What the report publishes ---------------------------------------------------------------------------

  /** The records drafted before a tool is called: a property of the dataset and its gaps alone. */
  function DraftsAhead(src: Source, missingData: seq<string>, tool: ToolName): nat {
    DraftCount(src, Ahead(AgendaOf(Route(TriageStages(src), missingData)), tool))
  }

  /** Where a followed agenda called a probe. */
  lemma ProbeOnAgenda(bundle: Bundle, signatures: seq<Call>, p: Probe, j: nat)
    requires IsProbe(p) && Follows(bundle, signatures) && NoRepeats(signatures)
    requires j < |signatures| && signatures[j].tool == p.tool
    ensures ProbedAt(p, signatures, j) && signatures[..j] == Ahead(AgendaOf(bundle), p.tool)
  {
    FollowedCalls(bundle, signatures);
    forall i | 0 <= i < |signatures| && signatures[i].tool == p.tool ensures i == j {
      assert signatures[i] in signatures && signatures[j] in signatures;
      assert signatures[i] == Call(p.tool, map[]) == signatures[j];
    }
    assert signatures[j] in signatures;
    var agenda := AgendaOf(bundle);
    assert forall i :: 0 <= i < |signatures| ==> signatures[i] == agenda[i];
    AheadIs(agenda, p.tool, j);
    assert agenda[..j] == signatures[..j];
  }

  /** The proof of a called probe is in the context exactly when the dataset shows the fault and the agenda
      drafts fewer than twenty records before the probe. */
  lemma HeadProofKept(inc: Incident, src: Source, p: Probe, n: nat)
    requires Scripted(inc) && Reads(inc, src) && IsProbe(p) && Opening(inc).Ran?
    requires RunHead(inc, n).phase != Phase.Raised && Called(RunHead(inc, n).results, p.tool)
    ensures Has(Selected(LedgerOf(inc.prefix, RunHead(inc, n).results), MAX_EVIDENCE_ITEMS), p.proof) <==>
            ShowsFault(src, p) && DraftsAhead(src, inc.missingData, p.tool) < MAX_EVIDENCE_ITEMS
  {
    var o, s := Opening(inc), RunHead(inc, n);
    OpensIff(inc, src);
    EveryHeadIsGoverned(inc, n);
    EveryHeadIsAnswered(inc, src, n);
    ScriptedFollowsAgenda(inc, n);
    var j :| 0 <= j < |s.results| && s.results[j].tool == p.tool;
    ProbeOnAgenda(o.bundle, s.signatures, p, j);
    ProofKeptIff(src, inc.prefix, p, s.signatures, s.results, j);
  }

  /** A localised cause has had its probe called where the run ended. */
  lemma EndCalledProbe(inc: Incident, src: Source, p: Probe) returns (n: nat)
    requires Scripted(inc) && Reads(inc, src) && IsProbe(p) && inc.maxCalls >= 8 && Run(inc).Done?
    requires Raises(Run(inc).result.hypotheses, p.cause)
    ensures RunHead(inc, n).phase == Stopped && Called(RunHead(inc, n).results, p.tool)
    ensures Run(inc).result.evidence == LedgerOf(inc.prefix, RunHead(inc, n).results)
  {
    n := ReturnedFromHead(inc);
    var h :| h in Run(inc).result.hypotheses && h.cause == p.cause;
    var k :| 0 <= k < |Run(inc).result.hypotheses| && Run(inc).result.hypotheses[k] == h;
    ProbeWasCalled(inc, src, p, n, k);
  }
}
