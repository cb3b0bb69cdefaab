/** Which probes a scripted investigation reaches: a probe may be called for a cause it was not raised for, and
    an investigation of unknown signals stops before any probe. */
module ProbeReach {
  import opened Domain
  import opened Tooling
  import opened Investigation
  import opened DiagnosticTools
  import opened Routing
  import opened HypothesisLedger
  import opened Governance
  import opened ScriptedPolicy
  import opened LossTotals
  import opened Agreement
  import opened Trimming
  import opened Agenda
  import opened EndToEnd

  /** Whether triage localised a stage of a family whose investigation calls the probe. */
  predicate Looks(stages: seq<StageName>, p: Probe) {
    if p == TIMEOUT_PROBE then
      Indicated(stages, AUTH_FAILURE) || Indicated(stages, CALLBACK_ANOMALY)
          || Indicated(stages, CHANNEL_TIMEOUT_SIGNAL)
    else Indicated(stages, DECISION_FRICTION)
  }

  // ----- The first call after triage ---------------------------------------------------------------------

  lemma {:induction false} AddToolsKeeps(list: seq<ToolName>, tools: seq<ToolName>)
    ensures list <= AddTools(list, tools)
    decreases |tools|
  {
    if tools != [] {
      AddToolsKeeps(if tools[0] in list then list else list + [tools[0]], tools[1..]);
    }
  }

  lemma ToolsForAppend(signals: seq<Signal>, signal: Signal)
    ensures ToolsFor(signals + [signal]) == AddTools(ToolsFor(signals), Capabilities(signal))
  {
    assert (signals + [signal])[..|signals|] == signals;
  }

  /** The first tool of the first signal comes first. */
  lemma {:induction false} FirstToolFirst(first: Signal, rest: seq<Signal>)
    ensures [Capabilities(first)[0]] <= ToolsFor([first] + rest)
    decreases |rest|
  {
    if rest == [] {
      ToolsForAppend([], first);
      FirstOfOne(Capabilities(first));
      assert [first] + rest == [] + [first] && ToolsFor([]) == [];
    } else {
      var init, last := rest[..|rest| - 1], rest[|rest| - 1];
      FirstToolFirst(first, init);
      ToolsForAppend([first] + init, last);
      AddToolsKeeps(ToolsFor([first] + init), Capabilities(last));
      assert [first] + rest == ([first] + init) + [last];
    }
  }

  lemma FirstOfOne(tools: seq<ToolName>)
    requires tools != []
    ensures [tools[0]] <= AddTools([], tools)
  {
    assert [] + [tools[0]] == [tools[0]];
    AddToolsKeeps([tools[0]], tools[1..]);
  }

  lemma {:induction false} CallsOfPrefix(tools: seq<ToolName>, k: nat)
    requires k <= |tools|
    ensures CallsOfAll(tools[..k]) <= CallsOfAll(tools)
  {
    if k == |tools| {
      assert tools[..k] == tools;
    } else {
      var n := |tools| - 1;
      CallsOfPrefix(tools[..n], k);
      assert tools[..n][..k] == tools[..k];
    }
  }

  /** With an authentication or callback stage localised the timeout probe is the first call after triage. */
  lemma InspectFirst(stages: seq<StageName>)
    requires Indicated(stages, AUTH_FAILURE) || Indicated(stages, CALLBACK_ANOMALY)
    ensures var agenda := AgendaOf(Route(stages, []));
            |agenda| > 1 && agenda[1] == Call(InspectPaymentEvents, map[])
  {
    var signals := Signals(stages, []);
    FirstSignal(stages);
    FirstToolFirst(signals[0], signals[1..]);
    assert [signals[0]] + signals[1..] == signals;
    var tools := Route(stages, []).preferred;
    BundleHoldsFunnel(signals);
    assert tools == ToolsFor(signals) && tools[..1] == [] + [InspectPaymentEvents];
    CallsOfAppend([], InspectPaymentEvents);
    CallsOfPrefix(tools, 1);
    assert CallsOfAll([]) == [];
    assert CallsOfAll(tools)[0] == CallsOfAll(tools[..1])[0];
  }

  lemma BundleHoldsFunnel(signals: seq<Signal>)
    requires signals != []
    ensures BundleFor(signals).preferred == ToolsFor(signals)
  {
    assert signals[0] in signals;
    assert GetPaymentFunnel in Capabilities(signals[0]);
    ToolsForHas(signals, GetPaymentFunnel);
  }

  lemma {:induction false} SignalsKeep(stages: seq<StageName>, missingData: seq<string>, j: nat, k: nat)
    requires j <= k <= |STAGE_SIGNALS|
    ensures SignalsUpTo(stages, missingData, j) <= SignalsUpTo(stages, missingData, k)
  {
    if j < k {
      SignalsKeep(stages, missingData, j, k - 1);
    }
  }

  lemma FirstSignal(stages: seq<StageName>)
    requires Indicated(stages, AUTH_FAILURE) || Indicated(stages, CALLBACK_ANOMALY)
    ensures var signals := Signals(stages, []);
            signals != [] && (signals[0] == AUTH_FAILURE || signals[0] == CALLBACK_ANOMALY)
  {
    SignalsKeep(stages, [], 2, |STAGE_SIGNALS|);
    assert SignalsUpTo(stages, [], 0) == [];
    assert STAGE_SIGNALS[0] == AUTH_FAILURE && STAGE_SIGNALS[1] == CALLBACK_ANOMALY;
    var two := SignalsUpTo(stages, [], 2);
    assert two != [] && (two[0] == AUTH_FAILURE || two[0] == CALLBACK_ANOMALY);
  }

  // ----- The first turn ----------------------------------------------------------------------------------

  /** The first turn of a run with something to investigate makes a call. */
  lemma FirstTurnCalls(inc: Incident, src: Source)
    requires Scripted(inc) && Reads(inc, src) && inc.maxCalls >= 2 && Opening(inc).Ran? && Opening(inc).stages != []
    ensures var o := Opening(inc);
            |Turn(inc, o.bundle, o.stages, o.first).signatures| == 2
  {
    var o := Opening(inc);
    FirstDecision(inc);
    OpeningIsGoverned(inc);
    var a := ScriptedAction(View(inc, o.bundle, o.stages, o.first));
    assert Investigation.Decision(inc, o.bundle, o.stages, o.first) == a;
    ProposedCallAdmitted(inc, o.bundle, o.stages, o.first, a);
    AdmittedTurn(inc, o.bundle, o.stages, o.first, a);
    ScriptedCallAnswered(inc, src, o.bundle, o.stages, o.first, a);
  }

  lemma HeadsOnlyAddCalls(inc: Incident, bundle: Bundle, stages: seq<StageName>, s: State, n: nat)
    requires |s.signatures| >= 2
    ensures |Head(inc, bundle, stages, s, n).signatures| >= 2
  {
    var called := (x: State) => |x.signatures| >= 2;
    forall x | called(x) ensures called(Advance(inc, bundle, stages, x)) {
      TurnSignatures(inc, bundle, stages, x, Investigation.Decision(inc, bundle, stages, x));
    }
    InvariantOfIteration(x => Advance(inc, bundle, stages, x), called, s, n);
  }

  lemma EndIsLater(inc: Incident, n: nat)
    requires Opening(inc).Ran? && RunHead(inc, n).phase != Looping
    ensures n > 0
  {
  }

  lemma LaterFromNext(inc: Incident, bundle: Bundle, stages: seq<StageName>, s: State, n: nat)
    requires s.phase == Looping && n > 0 && |Turn(inc, bundle, stages, s).signatures| == 2
    ensures |Head(inc, bundle, stages, s, n).signatures| >= 2
  {
    HeadFromNext(inc, bundle, stages, s, n - 1);
    HeadsOnlyAddCalls(inc, bundle, stages, Turn(inc, bundle, stages, s), n - 1);
  }

  lemma LaterHeadsCalled(inc: Incident, src: Source, n: nat)
    requires Scripted(inc) && Reads(inc, src) && inc.maxCalls >= 2 && Opening(inc).Ran? && Opening(inc).stages != []
    requires n > 0
    ensures |RunHead(inc, n).signatures| >= 2
  {
    var o := Opening(inc);
    FirstTurnCalls(inc, src);
    LaterFromNext(inc, o.bundle, o.stages, o.first, n);
  }

  /** So where the loop has ended, the first call of the agenda was made. */
  lemma FirstCallMade(inc: Incident, src: Source, n: nat)
    requires Scripted(inc) && Reads(inc, src) && inc.maxCalls >= 2 && Opening(inc).Ran? && Opening(inc).stages != []
    requires RunHead(inc, n).phase != Looping
    ensures |RunHead(inc, n).signatures| >= 2 && |AgendaOf(Opening(inc).bundle)| >= 2
    ensures RunHead(inc, n).signatures[1] == AgendaOf(Opening(inc).bundle)[1]
  {
    EndIsLater(inc, n);
    LaterHeadsCalled(inc, src, n);
    ScriptedFollowsAgenda(inc, n);
  }

  // ----- Unknown signals -----------------------------------------------------------------------------------

  /** The one hypothesis of unknown signals. */
  lemma UnknownHypothesis()
    ensures ProposeAll(EMPTY, Proposals([UNKNOWN_SIGNAL])).items ==
            [Hypothesis(1, UNKNOWN_CAUSE, None, [], Proposed, None)]
  {
    var proposals := Proposals([UNKNOWN_SIGNAL]);
    assert proposals[..0] == [] && ProposeAll(EMPTY, []) == EMPTY;
  }

  /** Any result settles it, and that ends the run. */
  lemma UnknownSettles(inc: Incident, s: State, a: Action, out: ToolOutput)
    requires HypothesisLedger.Valid(s.ledger) && |s.ledger.items| == 1 && s.ledger.items[0].cause == UNKNOWN_CAUSE
    requires a.CallTool? && a.hypothesis == Some(s.ledger.items[0].id) && Open(s.ledger.items[0])
    ensures ExecutedTurn(inc, s, a, out).phase == Stopped
  {
    var result := ResultOf(s, a.tool, out);
    StatusAfterCall(inc, s, a, result, 0);
    LedgerAfterIsSound(inc, s, a, result);
    assert !AnyOpen(LedgerAfter(inc, s, a, result));
  }

  /** With unknown signals the loop takes one turn. */
  lemma UnknownTakesOneTurn(inc: Incident, src: Source)
    requires Scripted(inc) && Reads(inc, src) && inc.maxCalls >= 2 && Opening(inc).Ran?
    requires Signals(Opening(inc).stages, inc.missingData) == [UNKNOWN_SIGNAL]
    ensures var o := Opening(inc);
            var next := Turn(inc, o.bundle, o.stages, o.first);
            next.phase != Looping && |next.signatures| <= 2
  {
    var o := Opening(inc);
    OpeningIsGoverned(inc);
    UnknownHypothesis();
    assert o.first.ledger == ProposeAll(EMPTY, inc.propose([UNKNOWN_SIGNAL]));
    var a := ScriptedAction(View(inc, o.bundle, o.stages, o.first));
    assert Investigation.Decision(inc, o.bundle, o.stages, o.first) == a;
    if a.CallTool? {
      DecisionForm(View(inc, o.bundle, o.stages, o.first), a);
      ProposedCallAdmitted(inc, o.bundle, o.stages, o.first, a);
      AdmittedTurn(inc, o.bundle, o.stages, o.first, a);
      var answer := inc.tools(o.first.callIdx, Call(a.tool, Strip(WithDataset(a.args, inc.dataset))));
      if answer.Some? {
        UnknownSettles(inc, o.first, a, answer.value);
      }
    }
  }

  lemma UnknownToolsAdded(rest: seq<ToolName>)
    ensures [GetPaymentFunnel, BreakdownConversionLoss] <= AddTools([], [GetPaymentFunnel]
                                                                    + ([BreakdownConversionLoss] + rest))
  {
    AddFirst([], GetPaymentFunnel, [BreakdownConversionLoss] + rest);
    assert [] + [GetPaymentFunnel] == [GetPaymentFunnel];
    AddFirst([GetPaymentFunnel], BreakdownConversionLoss, rest);
    assert [GetPaymentFunnel] + [BreakdownConversionLoss] == [GetPaymentFunnel, BreakdownConversionLoss];
    AddToolsKeeps([GetPaymentFunnel, BreakdownConversionLoss], rest);
  }

  lemma UnknownToolsFor()
    ensures ToolsFor([UNKNOWN_SIGNAL]) == AddTools([], ALL_TOOLS)
  {
    ToolsForAppend([], UNKNOWN_SIGNAL);
    assert [] + [UNKNOWN_SIGNAL] == [UNKNOWN_SIGNAL] && ToolsFor([]) == [];
  }

  lemma AllToolsSplit()
    ensures ALL_TOOLS == [GetPaymentFunnel] + ([BreakdownConversionLoss] + ALL_TOOLS[2..])
  {
  }

  lemma UnknownBundle()
    ensures [GetPaymentFunnel, BreakdownConversionLoss] <= BundleFor([UNKNOWN_SIGNAL]).preferred
  {
    AllToolsSplit();
    UnknownToolsAdded(ALL_TOOLS[2..]);
    UnknownToolsFor();
    BundleHoldsFunnel([UNKNOWN_SIGNAL]);
  }

  lemma AddFirst(list: seq<ToolName>, tool: ToolName, rest: seq<ToolName>)
    requires tool !in list
    ensures AddTools(list, [tool] + rest) == AddTools(list + [tool], rest)
  {
    assert ([tool] + rest)[1..] == rest;
  }

  /** Its first call is a breakdown. */
  lemma UnknownAgenda()
    ensures var agenda := AgendaOf(BundleFor([UNKNOWN_SIGNAL]));
            |agenda| > 1 && agenda[1].tool == BreakdownConversionLoss
  {
    var tools := BundleFor([UNKNOWN_SIGNAL]).preferred;
    UnknownBundle();
    CallsOfPrefix(tools, 2);
    CallsOfAppend([], GetPaymentFunnel);
    CallsOfAppend([GetPaymentFunnel], BreakdownConversionLoss);
    assert [] + [GetPaymentFunnel] == [GetPaymentFunnel] && CallsOfAll([]) == [];
    assert [GetPaymentFunnel] + [BreakdownConversionLoss] == tools[..2];
    assert CallsOfAll(tools)[0] == CallsOfAll(tools[..2])[0];
  }

  lemma UnknownHeads(inc: Incident, src: Source, n: nat)
    requires Scripted(inc) && Reads(inc, src) && inc.maxCalls >= 2 && Opening(inc).Ran?
    requires Signals(Opening(inc).stages, inc.missingData) == [UNKNOWN_SIGNAL]
    requires n > 0
    ensures |RunHead(inc, n).signatures| <= 2
  {
    UnknownTakesOneTurn(inc, src);
    EndedAfterOne(inc, Opening(inc).bundle, Opening(inc).stages, Opening(inc).first, n);
  }

  lemma EndedAfterOne(inc: Incident, bundle: Bundle, stages: seq<StageName>, s: State, n: nat)
    requires s.phase == Looping && n > 0 && Turn(inc, bundle, stages, s).phase != Looping
    ensures Head(inc, bundle, stages, s, n) == Turn(inc, bundle, stages, s)
  {
    HeadFromNext(inc, bundle, stages, s, 0);
    StaysEnded(inc, bundle, stages, s, 1, n);
  }

  lemma UnknownFollowers(signatures: seq<Call>, p: Probe)
    requires signatures <= AgendaOf(BundleFor([UNKNOWN_SIGNAL])) && |signatures| <= 2 && IsProbe(p)
    ensures forall c :: c in signatures ==> c.tool != p.tool
  {
    UnknownAgenda();
    forall i | 0 <= i < |signatures| ensures signatures[i].tool != p.tool {
      assert signatures[i] == AgendaOf(BundleFor([UNKNOWN_SIGNAL]))[i];
    }
  }

  /** So a run with unknown signals calls no probe. */
  lemma UnknownCallsNoProbe(inc: Incident, src: Source, p: Probe, n: nat)
    requires Scripted(inc) && Reads(inc, src) && inc.maxCalls >= 2 && Opening(inc).Ran? && IsProbe(p)
    requires Signals(Opening(inc).stages, inc.missingData) == [UNKNOWN_SIGNAL]
    requires RunHead(inc, n).phase != Looping
    ensures forall c :: c in RunHead(inc, n).signatures ==> c.tool != p.tool
  {
    EndIsLater(inc, n);
    UnknownHeads(inc, src, n);
    ScriptedFollowsAgenda(inc, n);
    OpeningIsRouted(inc);
    UnknownFollowers(RunHead(inc, n).signatures, p);
  }

  lemma OpeningIsRouted(inc: Incident)
    requires Opening(inc).Ran?
    ensures Opening(inc).bundle == BundleFor(Signals(Opening(inc).stages, inc.missingData))
  {
  }

  // ----- Which probes are called -----------------------------------------------------------------------------

  /** A probe that no localised family leads to is either off the agenda or there because nothing is known. */
  lemma OffAgendaUnlessUnknown(stages: seq<StageName>, p: Probe)
    requires IsProbe(p) && !Looks(stages, p) && p.tool in Route(stages, []).preferred
    ensures Signals(stages, []) == [UNKNOWN_SIGNAL]
  {
    var signals := Signals(stages, []);
    SignalsAreRight(stages, []);
    BundleIsBounded(signals, p.tool);
    var s :| s in signals && p.tool in Capabilities(s);
    assert STAGE_SIGNALS[0] == AUTH_FAILURE && STAGE_SIGNALS[1] == CALLBACK_ANOMALY;
    assert STAGE_SIGNALS[2] == DECISION_FRICTION && STAGE_SIGNALS[3] == CHANNEL_TIMEOUT_SIGNAL;
    assert s == UNKNOWN_SIGNAL;
  }

  lemma UnlookedUncalled(inc: Incident, src: Source, p: Probe, n: nat)
    requires Scripted(inc) && Reads(inc, src) && inc.maxCalls >= 2 && inc.missingData == [] && Opening(inc).Ran?
    requires IsProbe(p) && !Looks(Opening(inc).stages, p) && RunHead(inc, n).phase != Looping
    ensures forall c :: c in RunHead(inc, n).signatures ==> c.tool != p.tool
  {
    var o, s := Opening(inc), RunHead(inc, n);
    OpeningIsRouted(inc);
    if p.tool in o.bundle.preferred {
      OffAgendaUnlessUnknown(o.stages, p);
      UnknownCallsNoProbe(inc, src, p, n);
    } else {
      ScriptedFollowsAgenda(inc, n);
      forall i | 0 <= i < |s.signatures| ensures s.signatures[i].tool != p.tool {
        assert s.signatures[i] == AgendaOf(o.bundle)[i];
        if i > 0 {
          AgendaCalls(o.bundle.preferred, s.signatures[i]);
        }
      }
    }
  }

  lemma InspectCalledFirst(inc: Incident, src: Source, n: nat)
    requires Scripted(inc) && Reads(inc, src) && inc.maxCalls >= 2 && inc.missingData == [] && Opening(inc).Ran?
    requires Indicated(Opening(inc).stages, AUTH_FAILURE) || Indicated(Opening(inc).stages, CALLBACK_ANOMALY)
    requires RunHead(inc, n).phase != Looping
    ensures |RunHead(inc, n).signatures| > 1 && RunHead(inc, n).signatures[1] == Call(InspectPaymentEvents, map[])
  {
    FirstCallMade(inc, src, n);
    OpeningIsRouted(inc);
    InspectFirst(Opening(inc).stages);
  }

  lemma CalledBySignature(inc: Incident, src: Source, n: nat, tool: ToolName)
    requires Reads(inc, src) && Opening(inc).Ran?
    ensures Called(RunHead(inc, n).results, tool) <==> exists c :: c in RunHead(inc, n).signatures && c.tool == tool
  {
    EveryHeadIsAnswered(inc, src, n);
    CalledByCall(src, RunHead(inc, n).signatures, RunHead(inc, n).results, tool);
  }

  lemma CalledByCall(src: Source, calls: seq<Call>, results: seq<ToolResult>, tool: ToolName)
    requires AnswersAll(src, calls, results)
    ensures Called(results, tool) <==> exists c :: c in calls && c.tool == tool
  {
    if Called(results, tool) {
      var i :| 0 <= i < |results| && results[i].tool == tool;
      assert AnswersCall(src, calls[i], results[i]) && calls[i] in calls;
    }
    if exists c :: c in calls && c.tool == tool {
      var i :| 0 <= i < |calls| && calls[i].tool == tool;
      assert AnswersCall(src, calls[i], results[i]) && results[i] in results;
    }
  }

  /** On complete data a run has called a probe exactly when triage localised a stage of a family that looks for
      it. */
  lemma ProbeCalledIff(inc: Incident, src: Source, p: Probe) returns (n: nat)
    requires Scripted(inc) && Reads(inc, src) && IsProbe(p) && inc.maxCalls >= 8 && inc.missingData == []
               && Run(inc).Done?
    ensures RunHead(inc, n).phase == Stopped
              && Run(inc).result.evidence == LedgerOf(inc.prefix, RunHead(inc, n).results)
    ensures Called(RunHead(inc, n).results, p.tool) <==> Looks(TriageStages(src), p)
  {
    OpensIff(inc, src);
    if Indicated(TriageStages(src), p.signal) {
      RaisedFollowsData(inc, src, p);
      n := EndCalledProbe(inc, src, p);
    } else {
      n := ReturnedFromHead(inc);
      CalledBySignature(inc, src, n, p.tool);
      if Looks(TriageStages(src), p) {
        InspectCalledFirst(inc, src, n);
        assert RunHead(inc, n).signatures[1] in RunHead(inc, n).signatures;
      } else {
        UnlookedUncalled(inc, src, p, n);
      }
    }
  }
}
