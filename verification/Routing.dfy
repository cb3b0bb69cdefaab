/** Capability routing: the initial signals of an incident and the bounded tool bundle they permit. */
module Routing {
  import opened Domain

  datatype Signal =
    | DATA_INTEGRITY | AUTH_FAILURE | CHANNEL_TIMEOUT_SIGNAL | CALLBACK_ANOMALY | DECISION_FRICTION | UNKNOWN_SIGNAL

  const ALL_TOOLS: seq<ToolName> := [
    GetPaymentFunnel, BreakdownConversionLoss, AnalyzeBenefitGap, TraceCancelAndReorder,
    InspectPaymentEvents, GetConfigChanges]

  function Capabilities(signal: Signal): seq<ToolName> {
    match signal
    case DATA_INTEGRITY => [GetPaymentFunnel, InspectPaymentEvents, BreakdownConversionLoss]
    case AUTH_FAILURE => [InspectPaymentEvents, BreakdownConversionLoss, GetPaymentFunnel]
    case CHANNEL_TIMEOUT_SIGNAL => [InspectPaymentEvents, BreakdownConversionLoss, GetPaymentFunnel, GetConfigChanges]
    case CALLBACK_ANOMALY => [InspectPaymentEvents, TraceCancelAndReorder, GetPaymentFunnel]
    case DECISION_FRICTION => [AnalyzeBenefitGap, TraceCancelAndReorder, BreakdownConversionLoss, GetPaymentFunnel]
    case UNKNOWN_SIGNAL => ALL_TOOLS
  }

  // ----- Signals -----------------------------------------------------------------------------------

  /** The stage families of the routing table, in its order. */
  const STAGE_SIGNALS: seq<Signal> := [AUTH_FAILURE, CALLBACK_ANOMALY, DECISION_FRICTION, CHANNEL_TIMEOUT_SIGNAL]

  /** The family a degraded stage belongs to, if any. Unknown stage names belong to none. */
  function SignalOfStage(name: StageName): Option<Signal> {
    match name
    case OtherStage(_) => None
    case Stage(stage) =>
      match stage
      case AUTHENTICATION_PASSED => Some(AUTH_FAILURE)
      case PLATFORM_CONFIRMED => Some(CALLBACK_ANOMALY)
      case PAYMENT_METHOD_SELECTED => Some(DECISION_FRICTION)
      case PAYMENT_INITIATED => Some(DECISION_FRICTION)
      case PAYMENT_OPTIONS_SHOWN => Some(DECISION_FRICTION)
      case CHANNEL_SUCCEEDED => Some(CHANNEL_TIMEOUT_SIGNAL)
      case _ => None
  }

  predicate Indicated(stages: seq<StageName>, signal: Signal) {
    exists name :: name in stages && SignalOfStage(name) == Some(signal)
  }

  ghost predicate NoRepeats<T>(s: seq<T>) {
    forall i, j :: 0 <= i < j < |s| ==> s[i] != s[j]
  }

  lemma NoRepeatsConcat<T>(a: seq<T>, b: seq<T>)
    ensures NoRepeats(a + b) <==> NoRepeats(a) && NoRepeats(b) && forall x :: x in a ==> x !in b
  {
    var s := a + b;
    assert forall i :: 0 <= i < |a| ==> s[i] == a[i];
    assert forall j :: 0 <= j < |b| ==> s[|a| + j] == b[j];
    if NoRepeats(s) {
      forall i, j | 0 <= i < j < |a| ensures a[i] != a[j] {
        assert s[i] != s[j];
      }
      forall i, j | 0 <= i < j < |b| ensures b[i] != b[j] {
        assert s[|a| + i] != s[|a| + j];
      }
      forall i, j | 0 <= i < |a| && 0 <= j < |b| ensures a[i] != b[j] {
        assert s[i] != s[|a| + j];
      }
    } else {
      var i, j :| 0 <= i < j < |s| && s[i] == s[j];
      if j < |a| {
        assert a[i] == a[j];
      } else if i >= |a| {
        assert b[i - |a|] == b[j - |a|];
      } else {
        assert a[i] in a && b[j - |a|] in b;
      }
    }
  }

  /** What the signals of an incident are: data gaps, every family with a degraded stage, or UNKNOWN when
      there is neither; each at most once. */
  ghost predicate SignalsOf(signals: seq<Signal>, stages: seq<StageName>, dataGaps: bool) {
    && signals != [] && NoRepeats(signals)
    && (DATA_INTEGRITY in signals <==> dataGaps)
    && (forall s :: s in STAGE_SIGNALS ==> (s in signals <==> Indicated(stages, s)))
    && (UNKNOWN_SIGNAL in signals <==> signals == [UNKNOWN_SIGNAL])
  }

  method DetectSignals(stages: seq<StageName>, missingData: seq<string>) returns (signals: seq<Signal>)
    ensures signals == Signals(stages, missingData)
  {
    signals := if missingData != [] then [DATA_INTEGRITY] else [];
    for k := 0 to |STAGE_SIGNALS|
      invariant signals == SignalsUpTo(stages, missingData, k)
    {
      var s := STAGE_SIGNALS[k];
      if Indicated(stages, s) && s !in signals {
        signals := signals + [s];
      }
    }
    if signals == [] {
      signals := [UNKNOWN_SIGNAL];
    }
  }

  function SignalsUpTo(stages: seq<StageName>, missingData: seq<string>, k: nat): (signals: seq<Signal>)
    requires k <= |STAGE_SIGNALS|
  {
    if k == 0 then (if missingData != [] then [DATA_INTEGRITY] else [])
    else
      var before := SignalsUpTo(stages, missingData, k - 1);
      var s := STAGE_SIGNALS[k - 1];
      if Indicated(stages, s) && s !in before then before + [s] else before
  }

  function Signals(stages: seq<StageName>, missingData: seq<string>): seq<Signal> {
    var found := SignalsUpTo(stages, missingData, |STAGE_SIGNALS|);
    if found == [] then [UNKNOWN_SIGNAL] else found
  }

  lemma {:induction false} FamiliesSoFar(stages: seq<StageName>, missingData: seq<string>, k: nat)
    requires k <= |STAGE_SIGNALS|
    ensures var signals := SignalsUpTo(stages, missingData, k);
            && NoRepeats(signals) && UNKNOWN_SIGNAL !in signals
            && (DATA_INTEGRITY in signals <==> missingData != [])
            && (forall j :: 0 <= j < |STAGE_SIGNALS| ==>
                  (STAGE_SIGNALS[j] in signals <==> j < k && Indicated(stages, STAGE_SIGNALS[j])))
  {
    if k > 0 {
      FamiliesSoFar(stages, missingData, k - 1);
    }
  }

  lemma SignalsAreRight(stages: seq<StageName>, missingData: seq<string>)
    ensures SignalsOf(Signals(stages, missingData), stages, missingData != [])
  {
    FamiliesSoFar(stages, missingData, |STAGE_SIGNALS|);
    var found := SignalsUpTo(stages, missingData, |STAGE_SIGNALS|);
    if found == [] {
      forall s | s in STAGE_SIGNALS ensures !Indicated(stages, s) {
        var j :| 0 <= j < |STAGE_SIGNALS| && STAGE_SIGNALS[j] == s;
        assert STAGE_SIGNALS[j] !in found;
      }
    }
  }

  // ----- The bundle ------------------------------------------------------------------------------------

  /** `allowed` and `preferred` grow together, so the preferred list is the allowed set in order. */
  datatype Bundle = Bundle(signals: seq<Signal>, allowed: set<ToolName>, preferred: seq<ToolName>)

  function AddTools(list: seq<ToolName>, tools: seq<ToolName>): seq<ToolName>
    decreases |tools|
  {
    if tools == [] then list
    else AddTools(if tools[0] in list then list else list + [tools[0]], tools[1..])
  }

  lemma {:induction false} AddToolsHas(list: seq<ToolName>, tools: seq<ToolName>, t: ToolName)
    ensures t in AddTools(list, tools) <==> t in list || t in tools
    decreases |tools|
  {
    if tools != [] {
      AddToolsHas(if tools[0] in list then list else list + [tools[0]], tools[1..], t);
      assert t in tools <==> t == tools[0] || t in tools[1..];
    }
  }

  lemma {:induction false} AddToolsDistinct(list: seq<ToolName>, tools: seq<ToolName>)
    requires NoRepeats(list)
    ensures NoRepeats(AddTools(list, tools))
    decreases |tools|
  {
    if tools != [] {
      AddToolsDistinct(if tools[0] in list then list else list + [tools[0]], tools[1..]);
    }
  }

  function ToolsFor(signals: seq<Signal>): seq<ToolName> {
    if signals == [] then []
    else AddTools(ToolsFor(signals[..|signals| - 1]), Capabilities(signals[|signals| - 1]))
  }

  lemma {:induction false} ToolsForHas(signals: seq<Signal>, t: ToolName)
    ensures t in ToolsFor(signals) <==> exists s :: s in signals && t in Capabilities(s)
  {
    if signals != [] {
      var init, last := signals[..|signals| - 1], signals[|signals| - 1];
      assert signals == init + [last];
      ToolsForHas(init, t);
      AddToolsHas(ToolsFor(init), Capabilities(last), t);
    }
  }

  lemma {:induction false} ToolsForDistinct(signals: seq<Signal>)
    ensures NoRepeats(ToolsFor(signals))
  {
    if signals != [] {
      ToolsForDistinct(signals[..|signals| - 1]);
      AddToolsDistinct(ToolsFor(signals[..|signals| - 1]), Capabilities(signals[|signals| - 1]));
    }
  }

  function BundleFor(signals: seq<Signal>): Bundle {
    var tools := ToolsFor(signals);
    var preferred := if GetPaymentFunnel in tools then tools else [GetPaymentFunnel] + tools;
    Bundle(signals, (set t | t in preferred), preferred)
  }

  function Route(stages: seq<StageName>, missingData: seq<string>): Bundle {
    BundleFor(Signals(stages, missingData))
  }

  method RouteCapabilities(stages: seq<StageName>, missingData: seq<string>) returns (bundle: Bundle)
    ensures bundle == Route(stages, missingData)
  {
    var resolved := DetectSignals(stages, missingData);
    var allowed: seq<ToolName> := [];
    for i := 0 to |resolved|
      invariant allowed == ToolsFor(resolved[..i])
    {
      assert resolved[..i + 1][..i] == resolved[..i];
      var tools := Capabilities(resolved[i]);
      var before := allowed;
      for j := 0 to |tools|
        invariant AddTools(allowed, tools[j..]) == AddTools(before, tools)
      {
        assert tools[j..][0] == tools[j] && tools[j..][1..] == tools[j + 1..];
        if tools[j] !in allowed {
          allowed := allowed + [tools[j]];
        }
      }
    }
    assert resolved[..|resolved|] == resolved;
    if GetPaymentFunnel !in allowed {
      allowed := [GetPaymentFunnel] + allowed;
    }
    bundle := Bundle(resolved, (set t | t in allowed), allowed);
  }

  predicate Registered(tool: ToolName) {
    !tool.UnregisteredTool?
  }

  lemma CapabilitiesAreRegistered(signal: Signal, tool: ToolName)
    requires tool in Capabilities(signal)
    ensures Registered(tool)
  {
  }

  /** A bundle permits exactly the funnel tool and the tools of its signals, all of them registered. */
  lemma BundleIsBounded(signals: seq<Signal>, tool: ToolName)
    ensures var b := BundleFor(signals);
            && (tool in b.allowed <==> tool == GetPaymentFunnel || exists s :: s in signals && tool in Capabilities(s))
            && (tool in b.allowed ==> Registered(tool))
            && (tool in b.preferred <==> tool in b.allowed)
  {
    ToolsForHas(signals, tool);
    if tool in BundleFor(signals).allowed && tool != GetPaymentFunnel {
      var s :| s in signals && tool in Capabilities(s);
      CapabilitiesAreRegistered(s, tool);
    }
  }

  /** Each permitted tool is preferred once. */
  lemma BundlePrefersOnce(signals: seq<Signal>)
    ensures NoRepeats(BundleFor(signals).preferred)
  {
    var tools := ToolsFor(signals);
    ToolsForDistinct(signals);
    if GetPaymentFunnel !in tools {
      var preferred := [GetPaymentFunnel] + tools;
      forall i, j | 0 <= i < j < |preferred| ensures preferred[i] != preferred[j] {
        assert preferred[j] == tools[j - 1];
        if i > 0 {
          assert preferred[i] == tools[i - 1];
        }
      }
    }
  }

  /** The bundle of a degraded channel holds its probe, and the bundle of degraded friction stages holds
      theirs. */
  lemma ProbesAreRouted(stages: seq<StageName>, missingData: seq<string>)
    ensures var b := Route(stages, missingData);
            && (CHANNEL_TIMEOUT_SIGNAL in b.signals ==> InspectPaymentEvents in b.preferred)
            && (DECISION_FRICTION in b.signals ==> AnalyzeBenefitGap in b.preferred)
  {
    var signals := Signals(stages, missingData);
    BundleIsBounded(signals, InspectPaymentEvents);
    BundleIsBounded(signals, AnalyzeBenefitGap);
    assert InspectPaymentEvents in Capabilities(CHANNEL_TIMEOUT_SIGNAL);
    assert AnalyzeBenefitGap in Capabilities(DECISION_FRICTION);
  }

  /** The tools that are not in a list, in their order. */
  function Without(tools: seq<ToolName>, list: seq<ToolName>): seq<ToolName> {
    if tools == [] then []
    else
      var init, last := tools[..|tools| - 1], tools[|tools| - 1];
      Without(init, list) + (if last in list then [] else [last])
  }

  lemma {:induction false} AddToolsAtEnd(list: seq<ToolName>, tools: seq<ToolName>, t: ToolName)
    ensures AddTools(list, tools + [t]) ==
            AddTools(list, tools) + (if t in list || t in tools then [] else [t])
    decreases |tools|
  {
    if tools == [] {
      assert (tools + [t])[0] == t && (tools + [t])[1..] == [];
    } else {
      var list' := if tools[0] in list then list else list + [tools[0]];
      assert (tools + [t])[0] == tools[0] && (tools + [t])[1..] == tools[1..] + [t];
      AddToolsAtEnd(list', tools[1..], t);
      assert t in list' || t in tools[1..] <==> t in list || t in tools;
    }
  }

  lemma {:induction false} AddToolsInOrder(list: seq<ToolName>, tools: seq<ToolName>)
    requires NoRepeats(tools)
    ensures AddTools(list, tools) == list + Without(tools, list)
    decreases |tools|
  {
    if tools != [] {
      var init, last := tools[..|tools| - 1], tools[|tools| - 1];
      assert tools == init + [last];
      AddToolsInOrder(list, init);
      AddToolsAtEnd(list, init, last);
    }
  }

  /** Each further signal appends those of its tools that are not preferred yet, in its own order. */
  lemma PreferredInOrder(signals: seq<Signal>, s: Signal)
    ensures ToolsFor(signals + [s]) == ToolsFor(signals) + Without(Capabilities(s), ToolsFor(signals))
  {
    assert (signals + [s])[..|signals|] == signals;
    AddToolsInOrder(ToolsFor(signals), Capabilities(s));
  }

  // ----- Routing, stage by stage ---------------------------------------------------------------------------

  predicate AtStage(stages: seq<StageName>, stage: FunnelStage) {
    Stage(stage) in stages
  }

  /** A stage at which a payer decides. */
  predicate AtDecision(stages: seq<StageName>) {
    AtStage(stages, PAYMENT_OPTIONS_SHOWN) || AtStage(stages, PAYMENT_METHOD_SELECTED)
    || AtStage(stages, PAYMENT_INITIATED)
  }

  lemma IndicatedByStage(stages: seq<StageName>)
    ensures Indicated(stages, AUTH_FAILURE) <==> AtStage(stages, AUTHENTICATION_PASSED)
    ensures Indicated(stages, CALLBACK_ANOMALY) <==> AtStage(stages, PLATFORM_CONFIRMED)
    ensures Indicated(stages, DECISION_FRICTION) <==> AtDecision(stages)
    ensures Indicated(stages, CHANNEL_TIMEOUT_SIGNAL) <==> AtStage(stages, CHANNEL_SUCCEEDED)
  {
    assert SignalOfStage(Stage(AUTHENTICATION_PASSED)) == Some(AUTH_FAILURE);
    assert SignalOfStage(Stage(PLATFORM_CONFIRMED)) == Some(CALLBACK_ANOMALY);
    assert SignalOfStage(Stage(PAYMENT_OPTIONS_SHOWN)) == Some(DECISION_FRICTION);
    assert SignalOfStage(Stage(PAYMENT_METHOD_SELECTED)) == Some(DECISION_FRICTION);
    assert SignalOfStage(Stage(PAYMENT_INITIATED)) == Some(DECISION_FRICTION);
    assert SignalOfStage(Stage(CHANNEL_SUCCEEDED)) == Some(CHANNEL_TIMEOUT_SIGNAL);
  }

  function When(c: bool, signal: Signal): seq<Signal> {
    if c then [signal] else []
  }

  /** The signals of an incident, in order, from the stages that degraded and the data gaps. */
  lemma SignalsByStage(stages: seq<StageName>, missingData: seq<string>)
    ensures var found := When(missingData != [], DATA_INTEGRITY)
                         + When(AtStage(stages, AUTHENTICATION_PASSED), AUTH_FAILURE)
                         + When(AtStage(stages, PLATFORM_CONFIRMED), CALLBACK_ANOMALY)
                         + When(AtDecision(stages), DECISION_FRICTION)
                         + When(AtStage(stages, CHANNEL_SUCCEEDED), CHANNEL_TIMEOUT_SIGNAL);
            Signals(stages, missingData) == if found == [] then [UNKNOWN_SIGNAL] else found
  {
    IndicatedByStage(stages);
    var s0, s1 := SignalsUpTo(stages, missingData, 0), SignalsUpTo(stages, missingData, 1);
    var s2, s3 := SignalsUpTo(stages, missingData, 2), SignalsUpTo(stages, missingData, 3);
    FamiliesSoFar(stages, missingData, 0);
    FamiliesSoFar(stages, missingData, 1);
    FamiliesSoFar(stages, missingData, 2);
    FamiliesSoFar(stages, missingData, 3);
    assert s1 == s0 + When(AtStage(stages, AUTHENTICATION_PASSED), AUTH_FAILURE);
    assert s2 == s1 + When(AtStage(stages, PLATFORM_CONFIRMED), CALLBACK_ANOMALY);
    assert s3 == s2 + When(AtDecision(stages), DECISION_FRICTION);
    assert SignalsUpTo(stages, missingData, 4) == s3 + When(AtStage(stages, CHANNEL_SUCCEEDED), CHANNEL_TIMEOUT_SIGNAL);
  }

  /** No data gap, and no degraded stage that any family looks after. */
  predicate NothingIndicated(stages: seq<StageName>, missingData: seq<string>) {
    missingData == [] && !AtStage(stages, AUTHENTICATION_PASSED) && !AtStage(stages, PLATFORM_CONFIRMED)
    && !AtDecision(stages) && !AtStage(stages, CHANNEL_SUCCEEDED)
  }

  lemma SignalsHeldByStage(stages: seq<StageName>, missingData: seq<string>)
    ensures var signals := Signals(stages, missingData);
            && (DATA_INTEGRITY in signals <==> missingData != [])
            && (AUTH_FAILURE in signals <==> AtStage(stages, AUTHENTICATION_PASSED))
            && (CALLBACK_ANOMALY in signals <==> AtStage(stages, PLATFORM_CONFIRMED))
            && (DECISION_FRICTION in signals <==> AtDecision(stages))
            && (CHANNEL_TIMEOUT_SIGNAL in signals <==> AtStage(stages, CHANNEL_SUCCEEDED))
            && (UNKNOWN_SIGNAL in signals <==> NothingIndicated(stages, missingData))
  {
    SignalsByStage(stages, missingData);
  }

  /** When a tool is due: the funnel always, every tool when nothing is indicated, and otherwise each of the
      others exactly for these stages and gaps. */
  predicate Due(stages: seq<StageName>, missingData: seq<string>, tool: ToolName) {
    var all, channel := NothingIndicated(stages, missingData), AtStage(stages, CHANNEL_SUCCEEDED);
    var auth, callback := AtStage(stages, AUTHENTICATION_PASSED), AtStage(stages, PLATFORM_CONFIRMED);
    match tool
    case GetPaymentFunnel => true
    case InspectPaymentEvents => all || missingData != [] || auth || channel || callback
    case BreakdownConversionLoss => all || missingData != [] || auth || channel || AtDecision(stages)
    case TraceCancelAndReorder => all || callback || AtDecision(stages)
    case AnalyzeBenefitGap => all || AtDecision(stages)
    case GetConfigChanges => all || channel
    case UnregisteredTool(_) => false
  }

  /** An incident gets exactly the tools that are due. */
  lemma ToolsByStage(stages: seq<StageName>, missingData: seq<string>, tool: ToolName)
    ensures tool in Route(stages, missingData).allowed <==> Due(stages, missingData, tool)
  {
    var signals := Signals(stages, missingData);
    SignalsHeldByStage(stages, missingData);
    BundleIsBounded(signals, tool);
    GrantedBySignals(signals, tool);
    Offers(tool);
  }

  lemma Offers(tool: ToolName)
    ensures tool in Capabilities(DATA_INTEGRITY) <==>
            tool in {GetPaymentFunnel, InspectPaymentEvents, BreakdownConversionLoss}
    ensures tool in Capabilities(AUTH_FAILURE) <==>
            tool in {GetPaymentFunnel, InspectPaymentEvents, BreakdownConversionLoss}
    ensures tool in Capabilities(CHANNEL_TIMEOUT_SIGNAL) <==>
            tool in {GetPaymentFunnel, InspectPaymentEvents, BreakdownConversionLoss, GetConfigChanges}
    ensures tool in Capabilities(CALLBACK_ANOMALY) <==>
            tool in {GetPaymentFunnel, InspectPaymentEvents, TraceCancelAndReorder}
    ensures tool in Capabilities(DECISION_FRICTION) <==>
            tool in {GetPaymentFunnel, AnalyzeBenefitGap, TraceCancelAndReorder, BreakdownConversionLoss}
    ensures tool in Capabilities(UNKNOWN_SIGNAL) <==> !tool.UnregisteredTool?
  {
  }

  lemma GrantedBySignals(signals: seq<Signal>, t: ToolName)
    ensures (exists s :: s in signals && t in Capabilities(s)) <==>
              || (DATA_INTEGRITY in signals && t in Capabilities(DATA_INTEGRITY))
              || (AUTH_FAILURE in signals && t in Capabilities(AUTH_FAILURE))
              || (CHANNEL_TIMEOUT_SIGNAL in signals && t in Capabilities(CHANNEL_TIMEOUT_SIGNAL))
              || (CALLBACK_ANOMALY in signals && t in Capabilities(CALLBACK_ANOMALY))
              || (DECISION_FRICTION in signals && t in Capabilities(DECISION_FRICTION))
              || (UNKNOWN_SIGNAL in signals && t in Capabilities(UNKNOWN_SIGNAL))
  {
  }
}
