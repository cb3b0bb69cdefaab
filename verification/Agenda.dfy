/** The order in which the scripted policy calls the tools: triage, then the bundle's preferred tools one after
    the other, and nothing else, for as long as the investigation goes on. */
module Agenda {
  import opened Domain
  import opened Tooling
  import opened Routing
  import opened Investigation
  import opened Governance
  import opened ScriptedPolicy
  import HypothesisLedger

  // ----- The agenda of a bundle ------------------------------------------------------------------------

  /** The calls a preferred tool stands for; triage has already read the funnel. */
  function CallsOf(tool: ToolName): seq<Call> {
    match tool
    case GetPaymentFunnel => []
    case BreakdownConversionLoss => [BreakdownBy(BREAKDOWN_DIMENSIONS[0]), BreakdownBy(BREAKDOWN_DIMENSIONS[1])]
    case _ => [Call(tool, map[])]
  }

  function CallsOfAll(tools: seq<ToolName>): seq<Call> {
    if tools == [] then [] else CallsOfAll(tools[..|tools| - 1]) + CallsOf(tools[|tools| - 1])
  }

  lemma CallsOfAppend(tools: seq<ToolName>, tool: ToolName)
    ensures CallsOfAll(tools + [tool]) == CallsOfAll(tools) + CallsOf(tool)
  {
    assert (tools + [tool])[..|tools|] == tools;
  }

  /** Everything the policy will call, in order, if nothing stops it. */
  function AgendaOf(bundle: Bundle): seq<Call> {
    [TRIAGE] + CallsOfAll(bundle.preferred)
  }

  /** A call as the agenda holds it: a tool without arguments, or a breakdown. */
  predicate Plain(c: Call) {
    c.tool != BreakdownConversionLoss ==> c.args == map[]
  }

  lemma {:induction false} AgendaCalls(tools: seq<ToolName>, c: Call)
    requires c in CallsOfAll(tools)
    ensures c.tool in tools && c.tool != GetPaymentFunnel && Plain(c)
  {
    var init, last := tools[..|tools| - 1], tools[|tools| - 1];
    if c in CallsOfAll(init) {
      AgendaCalls(init, c);
    }
  }

  lemma {:induction false} ToolIsOnAgenda(tools: seq<ToolName>, tool: ToolName)
    requires tool in tools && tool != GetPaymentFunnel && tool != BreakdownConversionLoss
    ensures Call(tool, map[]) in CallsOfAll(tools)
  {
    var init, last := tools[..|tools| - 1], tools[|tools| - 1];
    assert tools == init + [last];
    if tool in init {
      ToolIsOnAgenda(init, tool);
    }
  }

  lemma CallsOfDistinct(tool: ToolName)
    ensures NoRepeats(CallsOf(tool)) && forall c :: c in CallsOf(tool) ==> c.tool == tool
  {
    if tool == BreakdownConversionLoss {
      DifferentDimensions();
    }
  }

  lemma DifferentDimensions()
    ensures BreakdownBy(BREAKDOWN_DIMENSIONS[0]) != BreakdownBy(BREAKDOWN_DIMENSIONS[1])
  {
    assert BREAKDOWN_DIMENSIONS[0][8] != BREAKDOWN_DIMENSIONS[1][8];
    var a, b := BreakdownBy(BREAKDOWN_DIMENSIONS[0]), BreakdownBy(BREAKDOWN_DIMENSIONS[1]);
    assert a.args[DimensionArg] != b.args[DimensionArg];
  }

  lemma {:induction false} AgendaDistinct(tools: seq<ToolName>)
    requires NoRepeats(tools)
    ensures NoRepeats(CallsOfAll(tools))
  {
    if tools != [] {
      var init, last := tools[..|tools| - 1], tools[|tools| - 1];
      AgendaDistinct(init);
      CallsOfDistinct(last);
      forall c | c in CallsOfAll(init) ensures c !in CallsOf(last) {
        AgendaCalls(init, c);
      }
      NoRepeatsConcat(CallsOfAll(init), CallsOf(last));
    }
  }

  // ----- The plan is the rest of the agenda ----------------------------------------------------------------

  /** The calls that have not been made yet. */
  function Unmade(calls: seq<Call>, made: seq<Call>): seq<Call> {
    if calls == [] then [] else (if calls[0] in made then [] else [calls[0]]) + Unmade(calls[1..], made)
  }

  lemma {:induction false} UnmadeConcat(a: seq<Call>, b: seq<Call>, made: seq<Call>)
    ensures Unmade(a + b, made) == Unmade(a, made) + Unmade(b, made)
  {
    if a == [] {
      assert a + b == b;
    } else {
      assert (a + b)[1..] == a[1..] + b;
      UnmadeConcat(a[1..], b, made);
    }
  }

  lemma {:induction false} UnmadeIsRest(calls: seq<Call>, made: seq<Call>, n: nat)
    requires n <= |calls|
    requires forall i :: 0 <= i < n ==> calls[i] in made
    requires forall i :: n <= i < |calls| ==> calls[i] !in made
    ensures Unmade(calls, made) == calls[n..]
  {
    if calls != [] {
      var rest := calls[1..];
      if n == 0 {
        UnmadeIsRest(rest, made, 0);
        assert calls == [calls[0]] + rest;
      } else {
        UnmadeIsRest(rest, made, n - 1);
        assert rest[n - 1..] == calls[n..];
      }
    }
  }

  /** What the policy sees of the calls is consistent: a tool is called exactly when its plain call was made. */
  ghost predicate SeesCalls(view: PolicyView) {
    && TRIAGE in view.calledSignatures
    && forall t :: t != BreakdownConversionLoss ==> (t in view.calledTools <==> Call(t, map[]) in view.calledSignatures)
  }

  lemma StepsAreUnmade(view: PolicyView, tool: ToolName)
    requires SeesCalls(view) && tool in view.bundle.allowed
    ensures StepsFor(view, tool) == Unmade(CallsOf(tool), view.calledSignatures)
  {
    if tool == BreakdownConversionLoss {
      DimensionsAreUnmade(view.calledSignatures);
    } else if tool != GetPaymentFunnel {
      UnmadeOne(Call(tool, map[]), view.calledSignatures);
    }
  }

  lemma UnmadeOne(c: Call, made: seq<Call>)
    ensures Unmade([c], made) == if c in made then [] else [c]
  {
    assert [c][1..] == [];
  }

  lemma DimensionsAreUnmade(made: seq<Call>)
    ensures Dimensions(made, |BREAKDOWN_DIMENSIONS|) == Unmade(CallsOf(BreakdownConversionLoss), made)
  {
    var a, b := BreakdownBy(BREAKDOWN_DIMENSIONS[0]), BreakdownBy(BREAKDOWN_DIMENSIONS[1]);
    assert CallsOf(BreakdownConversionLoss) == [a] + [b];
    UnmadeConcat([a], [b], made);
    UnmadeOne(a, made);
    UnmadeOne(b, made);
    assert Dimensions(made, 0) == [];
    assert Dimensions(made, 1) == Unmade([a], made);
  }

  lemma {:induction false} PlanIsUnmade(view: PolicyView, tools: seq<ToolName>)
    requires SeesCalls(view) && forall t :: t in tools ==> t in view.bundle.allowed
    ensures PlanOver(view, tools) == Unmade(CallsOfAll(tools), view.calledSignatures)
  {
    if tools != [] {
      var init, last := tools[..|tools| - 1], tools[|tools| - 1];
      PlanIsUnmade(view, init);
      StepsAreUnmade(view, last);
      UnmadeConcat(CallsOfAll(init), CallsOf(last), view.calledSignatures);
    }
  }

  // ----- The run follows the agenda --------------------------------------------------------------------------

  /** The calls made so far are the first ones of the agenda. */
  ghost predicate Follows(bundle: Bundle, signatures: seq<Call>) {
    signatures != [] && signatures <= AgendaOf(bundle)
  }

  lemma FollowedCalls(bundle: Bundle, signatures: seq<Call>)
    requires Follows(bundle, signatures)
    ensures signatures[0] == TRIAGE && forall c :: c in signatures ==> Plain(c)
  {
    forall i | 0 <= i < |signatures| ensures Plain(signatures[i]) {
      assert signatures[i] == AgendaOf(bundle)[i];
      if i > 0 {
        AgendaCalls(bundle.preferred, signatures[i]);
      }
    }
  }

  lemma FollowerSeesCalls(inc: Incident, bundle: Bundle, stages: seq<StageName>, s: State)
    requires Recorded(inc, s) && Follows(bundle, s.signatures)
    ensures SeesCalls(View(inc, bundle, stages, s))
  {
    FollowedCalls(bundle, s.signatures);
    var tools := ToolsOf(s.results);
    assert s.signatures[0] in s.signatures;
    forall t | t != BreakdownConversionLoss ensures t in tools <==> Call(t, map[]) in s.signatures {
      if t in tools {
        var i :| 0 <= i < |tools| && tools[i] == t;
        assert s.signatures[i] in s.signatures && s.signatures[i].tool == t;
      }
      if Call(t, map[]) in s.signatures {
        var i :| 0 <= i < |s.signatures| && s.signatures[i] == Call(t, map[]);
        assert tools[i] == t;
      }
    }
  }

  /** Which calls of the agenda were made, for a run that follows it. */
  lemma MadeAreFirst(bundle: Bundle, signatures: seq<Call>)
    requires Follows(bundle, signatures) && NoRepeats(bundle.preferred)
    ensures forall i :: 0 <= i < |CallsOfAll(bundle.preferred)| ==>
              (CallsOfAll(bundle.preferred)[i] in signatures <==> i < |signatures| - 1)
  {
    var calls, agenda := CallsOfAll(bundle.preferred), AgendaOf(bundle);
    AgendaDistinct(bundle.preferred);
    forall i | 0 <= i < |calls| ensures calls[i] in signatures <==> i < |signatures| - 1 {
      assert agenda[i + 1] == calls[i];
      AgendaCalls(bundle.preferred, calls[i]);
      if i < |signatures| - 1 {
        assert signatures[i + 1] == calls[i];
      }
      if calls[i] in signatures {
        var j :| 0 <= j < |signatures| && signatures[j] == calls[i];
        assert signatures[j] == agenda[j];
        if j > 0 {
          assert calls[j - 1] == calls[i];
        }
      }
    }
  }

  /** At every head of a run that follows the agenda, with something to investigate, the plan is its rest. */
  lemma PlanIsRest(inc: Incident, bundle: Bundle, stages: seq<StageName>, s: State)
    requires Recorded(inc, s) && Follows(bundle, s.signatures) && Routed(inc, bundle, stages)
    requires stages != [] || inc.missingData != []
    ensures Plan(View(inc, bundle, stages, s)) == AgendaOf(bundle)[|s.signatures|..]
  {
    var view, signals := View(inc, bundle, stages, s), Signals(stages, inc.missingData);
    FollowerSeesCalls(inc, bundle, stages, s);
    BundlePrefersOnce(signals);
    forall t | t in bundle.preferred ensures t in bundle.allowed {
      BundleIsBounded(signals, t);
    }
    PlanIsUnmade(view, bundle.preferred);
    MadeAreFirst(bundle, s.signatures);
    UnmadeIsRest(CallsOfAll(bundle.preferred), s.signatures, |s.signatures| - 1);
    assert AgendaOf(bundle)[|s.signatures|..] == CallsOfAll(bundle.preferred)[|s.signatures| - 1..];
  }

  lemma NextExtends(bundle: Bundle, signatures: seq<Call>, next: Call)
    requires Follows(bundle, signatures)
    requires AgendaOf(bundle)[|signatures|..] != [] && AgendaOf(bundle)[|signatures|..][0] == next
    ensures Follows(bundle, signatures + [next])
  {
    assert AgendaOf(bundle)[|signatures|] == next;
  }

  /** So the next call is the next one of the agenda. */
  lemma NextOnAgenda(inc: Incident, bundle: Bundle, stages: seq<StageName>, s: State, a: Action)
    requires Recorded(inc, s) && Follows(bundle, s.signatures) && Routed(inc, bundle, stages)
    requires a == ScriptedAction(View(inc, bundle, stages, s)) && a.CallTool?
    ensures Follows(bundle, s.signatures + [Call(a.tool, Strip(a.args))])
  {
    DecisionForm(View(inc, bundle, stages, s), a);
    PlannedCall(inc, bundle, stages, s);
    PlanIsRest(inc, bundle, stages, s);
    StripOfPlain(a.args);
    NextExtends(bundle, s.signatures, Call(a.tool, a.args));
  }

  lemma StripOfPlain(args: Arguments)
    requires DatasetRefArg !in args
    ensures Strip(args) == args
  {
  }

  lemma TurnSignatures(inc: Incident, bundle: Bundle, stages: seq<StageName>, s: State, a: Action)
    requires Investigation.Decision(inc, bundle, stages, s) == a
    ensures var s' := Turn(inc, bundle, stages, s);
            || s'.signatures == s.signatures
            || (a.CallTool? && s'.signatures == s.signatures + [Call(a.tool, Strip(a.args))])
  {
  }

  lemma TurnFollows(inc: Incident, bundle: Bundle, stages: seq<StageName>, s: State)
    requires Scripted(inc) && Routed(inc, bundle, stages) && Recorded(inc, s) && Follows(bundle, s.signatures)
    ensures Follows(bundle, Turn(inc, bundle, stages, s).signatures)
  {
    var a := Investigation.Decision(inc, bundle, stages, s);
    TurnSignatures(inc, bundle, stages, s, a);
    if a.CallTool? {
      NextOnAgenda(inc, bundle, stages, s, a);
    }
  }

  ghost predicate FollowingHead(inc: Incident, bundle: Bundle, since: HypothesisLedger.Ledger, s: State) {
    OnTrack(inc, bundle, since, s) && Follows(bundle, s.signatures)
  }

  lemma HeadsFollow(inc: Incident, bundle: Bundle, stages: seq<StageName>, since: HypothesisLedger.Ledger, s: State,
                    n: nat)
    requires Scripted(inc) && Routed(inc, bundle, stages) && FollowingHead(inc, bundle, since, s)
    ensures FollowingHead(inc, bundle, since, Head(inc, bundle, stages, s, n))
  {
    var following := x => FollowingHead(inc, bundle, since, x);
    forall x | following(x) ensures following(Advance(inc, bundle, stages, x)) {
      AdvanceStaysOnTrack(inc, bundle, stages, since, x);
      if x.phase == Looping {
        TurnFollows(inc, bundle, stages, x);
      }
    }
    InvariantOfIteration(x => Advance(inc, bundle, stages, x), following, s, n);
  }

  lemma OpeningFollows(inc: Incident)
    requires Opening(inc).Ran?
    ensures var o := Opening(inc);
            Routed(inc, o.bundle, o.stages) && FollowingHead(inc, o.bundle, o.first.ledger, o.first)
  {
    OpeningIsGoverned(inc);
  }

  /** For any budget and any tools, the calls of a scripted run are at every head the first ones of the agenda
      its bundle sets. */
  lemma ScriptedFollowsAgenda(inc: Incident, n: nat)
    requires Scripted(inc) && Opening(inc).Ran?
    ensures RunHead(inc, n).signatures <= AgendaOf(Opening(inc).bundle)
  {
    var o := Opening(inc);
    OpeningFollows(inc);
    HeadsFollow(inc, o.bundle, o.stages, o.first.ledger, o.first, n);
  }

  // ----- What comes before a tool ------------------------------------------------------------------------------

  /** The calls ahead of the first call of a tool. */
  function Ahead(calls: seq<Call>, tool: ToolName): seq<Call> {
    if calls == [] || calls[0].tool == tool then [] else [calls[0]] + Ahead(calls[1..], tool)
  }

  lemma {:induction false} AheadIs(calls: seq<Call>, tool: ToolName, j: nat)
    requires j < |calls| && calls[j].tool == tool && forall i :: 0 <= i < j ==> calls[i].tool != tool
    ensures Ahead(calls, tool) == calls[..j]
  {
    if j > 0 {
      assert forall i :: 0 <= i < j - 1 ==> calls[1..][i] == calls[i + 1];
      AheadIs(calls[1..], tool, j - 1);
      assert calls[..j] == [calls[0]] + calls[1..][..j - 1];
    }
  }
}
