/** The scenario generator: an intent walks the funnel on given random draws, injected faults cap where
    it ends, and the ground truth counts the completions the faults removed. */
module Scenario {
  import opened Domain
  import FunnelLoss

  datatype Period = Baseline | Incident

  datatype InjectedParameters = InjectedParameters(
    benefitGapShift: int, highGapCancelRate: real, highGapSwitchRate: real,
    timeoutChannel: Option<string>, timeoutRate: real,
    dropStages: set<FunnelStage>)

  /** Everything random about one intent: its draws, one per place the generator may ask for one. */
  datatype Draws = Draws(
    bestPayable: int, selectedPayable: int, channel: string,
    friction: real, reorder: real, timeout: real, walk: seq<real>)

  type IntentDraws = d: Draws | |d.walk| == STAGES - 1
    witness Draws(0, 0, "", 0.0, 0.0, 0.0, [0.0, 0.0, 0.0, 0.0, 0.0, 0.0, 0.0, 0.0])

  /** Baseline probability of passing into a stage. */
  function BaselineReach(stage: FunnelStage): real {
    match stage
    case ORDER_CONFIRMED => 1.0
    case CHECKOUT_ENTERED => 0.92
    case PAYMENT_OPTIONS_SHOWN => 0.98
    case PAYMENT_METHOD_SELECTED => 0.95
    case PAYMENT_INITIATED => 0.97
    case AUTHENTICATION_PASSED => 0.96
    case CHANNEL_SUCCEEDED => 0.97
    case PLATFORM_CONFIRMED => 0.99
    case PAYMENT_COMPLETED => 0.995
  }

  // ----- One intent ----------------------------------------------------------------------------

  predicate Passes(d: IntentDraws, k: nat)
    requires 0 < k < STAGES
  {
    d.walk[k - 1] < BaselineReach(FUNNEL_STAGE_ORDER[k])
  }

  /** Where a walk that has reached stage `k` ends without any fault: at the first failed draw. */
  function WalkFrom(d: IntentDraws, k: nat): (end: nat)
    requires k < STAGES
    ensures k <= end < STAGES
    decreases STAGES - k
  {
    if k + 1 < STAGES && Passes(d, k + 1) then WalkFrom(d, k + 1) else k
  }

  function FreeEnd(d: IntentDraws): nat { WalkFrom(d, 0) }

  /** An intent completes without faults exactly when every draw passes. */
  lemma {:induction false} CompletesIffAllDrawsPass(d: IntentDraws, k: nat)
    requires k < STAGES
    ensures WalkFrom(d, k) == STAGES - 1 <==> forall i :: k < i < STAGES ==> Passes(d, i)
    decreases STAGES - k
  {
    if k + 1 < STAGES {
      CompletesIffAllDrawsPass(d, k + 1);
    }
  }

  // What the injected faults do to one incident intent.

  predicate HighGap(p: InjectedParameters, d: IntentDraws) {
    p.benefitGapShift != 0 && d.selectedPayable + p.benefitGapShift - d.bestPayable >= 1000
  }

  predicate Cancels(p: InjectedParameters, d: IntentDraws) {
    HighGap(p, d) && d.friction < p.highGapCancelRate
  }

  /** Cancelled and never reordered. */
  predicate LeavesFlow(p: InjectedParameters, d: IntentDraws) {
    Cancels(p, d) && !(d.reorder < 0.6)
  }

  predicate TimesOut(p: InjectedParameters, d: IntentDraws) {
    p.timeoutChannel == Some(d.channel) && d.timeout < p.timeoutRate
  }

  /** Where the caps leave an intent that walked to stage `k`. */
  function CappedAt(k: nat, timedOut: bool, leftFlow: bool): nat {
    var k' := if timedOut && k >= Index(CHANNEL_SUCCEEDED) then Index(AUTHENTICATION_PASSED) else k;
    if leftFlow && k' > Index(PAYMENT_METHOD_SELECTED) then Index(PAYMENT_METHOD_SELECTED) else k'
  }

  /** Per intent, a fault either removes the completion or leaves it alone: never both, never neither. */
  lemma CapsRemoveCompletionExactly(k: nat, timedOut: bool, leftFlow: bool)
    requires k < STAGES
    ensures CappedAt(k, timedOut, leftFlow) == STAGES - 1 <==> k == STAGES - 1 && !timedOut && !leftFlow
    ensures CappedAt(k, timedOut, leftFlow) <= k
  {
  }

  /** The caps leave the furthest stage that the walk reached and each fault allows: a timeout stops an intent
      before CHANNEL_SUCCEEDED, leaving the flow stops it at PAYMENT_METHOD_SELECTED. */
  lemma CapsExactly(k: nat, timedOut: bool, leftFlow: bool, stage: FunnelStage)
    requires k < STAGES
    ensures Index(stage) <= CappedAt(k, timedOut, leftFlow) <==>
              && Index(stage) <= k
              && (timedOut ==> stage !in {CHANNEL_SUCCEEDED, PLATFORM_CONFIRMED, PAYMENT_COMPLETED})
              && (leftFlow ==>
                    stage in {ORDER_CONFIRMED, CHECKOUT_ENTERED, PAYMENT_OPTIONS_SHOWN, PAYMENT_METHOD_SELECTED})
  {
  }

  /** A walk passes exactly the draws before the stage it ends at. */
  lemma {:induction false} WalkReaches(d: IntentDraws, k: nat, m: nat)
    requires k < STAGES && m < STAGES
    ensures m <= WalkFrom(d, k) <==> forall i :: k < i <= m ==> d.walk[i - 1] < BaselineReach(FUNNEL_STAGE_ORDER[i])
    decreases STAGES - k
  {
    if k + 1 < STAGES {
      WalkReaches(d, k + 1, m);
    }
  }

  class IntentState {
    var selectedPayable: int
    var bestPayable: int
    var channel: string
    var cancelled: bool
    var reordered: bool
    var switchedMethod: bool
    var timedOut: bool
    var reachedStage: FunnelStage
    var wouldHaveCompleted: bool

    constructor (d: IntentDraws)
      ensures selectedPayable == d.selectedPayable && bestPayable == d.bestPayable && channel == d.channel
      ensures !cancelled && !reordered && !switchedMethod && !timedOut && !wouldHaveCompleted
      ensures reachedStage == ORDER_CONFIRMED
    {
      selectedPayable, bestPayable, channel := d.selectedPayable, d.bestPayable, d.channel;
      cancelled, reordered, switchedMethod, timedOut, wouldHaveCompleted := false, false, false, false, false;
      reachedStage := ORDER_CONFIRMED;
    }

    /** Shifts the benefit gap up; an intent in the high-gap bucket cancels, or switches method. */
    method ApplyBenefitFriction(p: InjectedParameters, d: IntentDraws)
      modifies this`selectedPayable, this`cancelled, this`reordered, this`switchedMethod
      ensures selectedPayable == old(selectedPayable) + p.benefitGapShift
      ensures cancelled == (old(cancelled)
                            || (selectedPayable - bestPayable >= 1000 && d.friction < p.highGapCancelRate))
      ensures reordered == (old(reordered) ||
                (selectedPayable - bestPayable >= 1000 && d.friction < p.highGapCancelRate && d.reorder < 0.6))
      ensures switchedMethod == (old(switchedMethod) ||
                (selectedPayable - bestPayable >= 1000 && d.friction >= p.highGapCancelRate
                 && d.friction < p.highGapCancelRate + p.highGapSwitchRate))
    {
      selectedPayable := selectedPayable + p.benefitGapShift;
      if selectedPayable - bestPayable >= 1000 {
        if d.friction < p.highGapCancelRate {
          cancelled := true;
          if d.reorder < 0.6 {
            reordered := true;
          }
        } else if d.friction < p.highGapCancelRate + p.highGapSwitchRate {
          switchedMethod := true;
        }
      }
    }

    method ApplyChannelTimeout(p: InjectedParameters, d: IntentDraws)
      modifies this`timedOut
      ensures timedOut == (old(timedOut) || (Some(channel) == p.timeoutChannel && d.timeout < p.timeoutRate))
    {
      if Some(channel) != p.timeoutChannel {
        return;
      }
      if d.timeout < p.timeoutRate {
        timedOut := true;
      }
    }

    /** Advances the intent until a draw fails, records whether it would have completed, then applies the
        caps of a timeout and of a cancellation that was never reordered. */
    method WalkFunnel(d: IntentDraws)
      requires reachedStage == ORDER_CONFIRMED
      modifies this`reachedStage, this`wouldHaveCompleted
      ensures wouldHaveCompleted <==> FreeEnd(d) == STAGES - 1
      ensures Index(reachedStage) == CappedAt(FreeEnd(d), timedOut, cancelled && !reordered)
    {
      var k := 1;
      while k < STAGES
        invariant 1 <= k <= STAGES
        invariant reachedStage == FUNNEL_STAGE_ORDER[k - 1]
        invariant FreeEnd(d) == WalkFrom(d, k - 1)
      {
        if d.walk[k - 1] >= BaselineReach(FUNNEL_STAGE_ORDER[k]) {
          break;
        }
        reachedStage := FUNNEL_STAGE_ORDER[k];
        k := k + 1;
      }
      StageAtHasIndex(k - 1);
      wouldHaveCompleted := reachedStage == PAYMENT_COMPLETED;
      if timedOut && Index(reachedStage) >= Index(CHANNEL_SUCCEEDED) {
        reachedStage := AUTHENTICATION_PASSED;
      }
      if cancelled && !reordered {
        if Index(reachedStage) > Index(PAYMENT_METHOD_SELECTED) {
          reachedStage := PAYMENT_METHOD_SELECTED;
        }
      }
    }

    /** Whether the injected fault took this intent out of the completed set. */
    predicate FaultRemovedCompletion()
      reads this
    {
      if !wouldHaveCompleted then false
      else if timedOut then true
      else cancelled && !reordered
    }
  }

  // ----- Events ----------------------------------------------------------------------------------

  datatype BranchKind = OrderCancelled | Reordered | MethodSwitched | PaymentTimeout

  datatype Event =
    | Progression(period: Period, intent: nat, stage: FunnelStage)
    | Branch(period: Period, intent: nat, kind: BranchKind)

  method EmitEvents(state: IntentState, period: Period, intent: nat, drop: set<FunnelStage>)
    returns (events: seq<Event>)
    ensures forall e :: e in events ==> e.period == period && e.intent == intent
    ensures forall s: FunnelStage :: Progression(period, intent, s) in events <==>
                                     Index(s) <= Index(state.reachedStage) && s !in drop
    ensures Branch(period, intent, OrderCancelled) in events <==> state.cancelled
    ensures Branch(period, intent, Reordered) in events <==> state.reordered
    ensures Branch(period, intent, MethodSwitched) in events <==> state.switchedMethod
    ensures Branch(period, intent, PaymentTimeout) in events <==> state.timedOut
  {
    events := [];
    var reached := Index(state.reachedStage);
    for k := 0 to reached + 1
      invariant forall e :: e in events ==> e.Progression? && e.period == period && e.intent == intent
      invariant forall s: FunnelStage :: Progression(period, intent, s) in events <==> Index(s) < k && s !in drop
    {
      StageAtHasIndex(k);
      var stage := FUNNEL_STAGE_ORDER[k];
      if stage !in drop {
        events := events + [Progression(period, intent, stage)];
      }
    }
    if state.cancelled {
      events := events + [Branch(period, intent, OrderCancelled)];
    }
    if state.reordered {
      events := events + [Branch(period, intent, Reordered)];
    }
    if state.switchedMethod {
      events := events + [Branch(period, intent, MethodSwitched)];
    }
    if state.timedOut {
      events := events + [Branch(period, intent, PaymentTimeout)];
    }
  }

  // ----- A whole scenario ------------------------------------------------------------------------

  const NO_FAULTS := InjectedParameters(0, 0.0, 0.0, None, 0.0, {})

  function FinalIndex(p: InjectedParameters, d: IntentDraws): nat {
    CappedAt(FreeEnd(d), TimesOut(p, d), LeavesFlow(p, d))
  }

  predicate FaultRemoves(p: InjectedParameters, d: IntentDraws) {
    FreeEnd(d) == STAGES - 1 && (TimesOut(p, d) || LeavesFlow(p, d))
  }

  /** An intent of the incident period gets to a stage exactly when every draw on the way passes, no timeout
      stops it before CHANNEL_SUCCEEDED, and no cancellation without a reorder stops it at
      PAYMENT_METHOD_SELECTED. */
  lemma ReachesExactly(p: InjectedParameters, d: IntentDraws, stage: FunnelStage)
    ensures var timedOut := p.timeoutChannel == Some(d.channel) && d.timeout < p.timeoutRate;
            var leftFlow := p.benefitGapShift != 0 && d.selectedPayable + p.benefitGapShift - d.bestPayable >= 1000
                            && d.friction < p.highGapCancelRate && d.reorder >= 0.6;
            Index(stage) <= FinalIndex(p, d) <==>
              && (forall i :: 0 < i <= Index(stage) ==> d.walk[i - 1] < BaselineReach(FUNNEL_STAGE_ORDER[i]))
              && (timedOut ==> stage !in {CHANNEL_SUCCEEDED, PLATFORM_CONFIRMED, PAYMENT_COMPLETED})
              && (leftFlow ==>
                    stage in {ORDER_CONFIRMED, CHECKOUT_ENTERED, PAYMENT_OPTIONS_SHOWN, PAYMENT_METHOD_SELECTED})
  {
    WalkReaches(d, 0, Index(stage));
    CapsExactly(FreeEnd(d), TimesOut(p, d), LeavesFlow(p, d), stage);
  }

  function RemovedIntents(p: InjectedParameters, draws: seq<IntentDraws>): set<nat> {
    set i: nat | i < |draws| && FaultRemoves(p, draws[i])
  }

  /** Exactly the funnel-progression events the intents of one period should emit. */
  ghost predicate Progresses(events: seq<Event>, period: Period, p: InjectedParameters, draws: seq<IntentDraws>) {
    forall i: nat, s: FunnelStage ::
      Progression(period, i, s) in events <==>
        i < |draws| && Index(s) <= FinalIndex(p, draws[i]) && s !in p.dropStages
  }

  /** One intent: apply the faults of its period, then walk. */
  method GenerateState(p: InjectedParameters, period: Period, d: IntentDraws) returns (state: IntentState)
    ensures fresh(state)
    ensures var p' := if period == Incident then p else NO_FAULTS;
            && Index(state.reachedStage) == FinalIndex(p', d)
            && (state.FaultRemovedCompletion() <==> FaultRemoves(p', d))
  {
    state := new IntentState(d);
    if period == Incident {
      if p.benefitGapShift != 0 {
        state.ApplyBenefitFriction(p, d);
      }
      assert state.cancelled == Cancels(p, d) && (state.cancelled && !state.reordered) == LeavesFlow(p, d);
      if p.timeoutChannel.Some? {
        state.ApplyChannelTimeout(p, d);
      }
      assert state.timedOut == TimesOut(p, d);
    }
    state.WalkFunnel(d);
  }

  method GenerateIntent(p: InjectedParameters, period: Period, i: nat, d: IntentDraws)
    returns (events: seq<Event>, removed: bool)
    ensures removed <==> period == Incident && FaultRemoves(p, d)
    ensures forall e :: e in events ==> e.period == period && e.intent == i
    ensures forall s: FunnelStage :: Progression(period, i, s) in events <==>
              Index(s) <= FinalIndex(if period == Incident then p else NO_FAULTS, d) && s !in p.dropStages
  {
    var state := GenerateState(p, period, d);
    removed := period == Incident && state.FaultRemovedCompletion();
    events := EmitEvents(state, period, i, p.dropStages);
  }

  method GeneratePeriod(p: InjectedParameters, period: Period, draws: seq<IntentDraws>)
    returns (events: seq<Event>, lost: nat)
    requires period == Baseline ==> p == NO_FAULTS
    ensures Progresses(events, period, p, draws)
    ensures forall e :: e in events ==> e.period == period
    ensures lost == if period == Incident then |RemovedIntents(p, draws)| else 0
  {
    events, lost := [], 0;
    assert RemovedIntents(p, draws[..0]) == {};
    for i := 0 to |draws|
      invariant Progresses(events, period, p, draws[..i])
      invariant forall e :: e in events ==> e.period == period && e.intent < i
      invariant lost == if period == Incident then |RemovedIntents(p, draws[..i])| else 0
    {
      var emitted, removed := GenerateIntent(p, period, i, draws[i]);
      RemovedGrows(p, draws, i);
      if removed {
        lost := lost + 1;
      }
      ProgressesGrows(events, emitted, period, p, draws, i);
      events := events + emitted;
    }
    assert draws[..|draws|] == draws;
  }

  lemma RemovedGrows(p: InjectedParameters, draws: seq<IntentDraws>, n: nat)
    requires n < |draws|
    ensures |RemovedIntents(p, draws[..n + 1])|
         == |RemovedIntents(p, draws[..n])| + (if FaultRemoves(p, draws[n]) then 1 else 0)
  {
    var before, after := RemovedIntents(p, draws[..n]), RemovedIntents(p, draws[..n + 1]);
    forall i: nat ensures i in after <==> i in before || (i == n && FaultRemoves(p, draws[n])) {
      if i < n {
        assert draws[..n][i] == draws[..n + 1][i];
      }
    }
    assert after == before + if FaultRemoves(p, draws[n]) then {n} else {};
  }

  lemma ProgressesGrows(events: seq<Event>, emitted: seq<Event>, period: Period, p: InjectedParameters,
                        draws: seq<IntentDraws>, n: nat)
    requires n < |draws| && Progresses(events, period, p, draws[..n])
    requires forall e :: e in events ==> e.intent < n
    requires forall e :: e in emitted ==> e.period == period && e.intent == n
    requires forall s: FunnelStage :: Progression(period, n, s) in emitted <==>
               Index(s) <= FinalIndex(p, draws[n]) && s !in p.dropStages
    ensures Progresses(events + emitted, period, p, draws[..n + 1])
  {
    forall i: nat, s: FunnelStage
      ensures Progression(period, i, s) in events + emitted <==>
        i < n + 1 && Index(s) <= FinalIndex(p, draws[..n + 1][i]) && s !in p.dropStages
    {
      var e := Progression(period, i, s);
      assert e in events + emitted <==> e in events || e in emitted;
    }
  }

  method GenerateScenario(p: InjectedParameters, baseline: seq<IntentDraws>, incident: seq<IntentDraws>)
    returns (events: seq<Event>, expectedLost: nat)
    ensures Progresses(events, Baseline, NO_FAULTS, baseline)
    ensures Progresses(events, Incident, p, incident)
    ensures expectedLost == |RemovedIntents(p, incident)|
  {
    var before, _ := GeneratePeriod(NO_FAULTS, Baseline, baseline);
    var after, lost := GeneratePeriod(p, Incident, incident);
    events, expectedLost := before + after, lost;
  }

  // ----- Conservation ------------------------------------------------------------------------------

  /** `COUNT(DISTINCT purchase_intent_id)` of the progression events of one period at one stage. */
  function IntentsAt(events: seq<Event>, period: Period, stage: FunnelStage): set<nat> {
    set e | e in events && e.Progression? && e.period == period && e.stage == stage :: e.intent
  }

  function CountsOf(events: seq<Event>, period: Period): FunnelLoss.StageCounts {
    map s | s in FUNNEL_STAGE_ORDER :: |IntentsAt(events, period, s)|
  }

  function WouldCompleteIntents(draws: seq<IntentDraws>): set<nat> {
    set i: nat | i < |draws| && FreeEnd(draws[i]) == STAGES - 1
  }

  /** The intents whose final position, after the fault caps, is the end of the funnel. */
  function CompletedIntents(p: InjectedParameters, draws: seq<IntentDraws>): set<nat> {
    set i: nat | i < |draws| && FinalIndex(p, draws[i]) == STAGES - 1
  }

  /** The completions of the incident period plus the expected loss are the completions there would have
      been without the fault caps, for any draws; and unless the scenario drops that stage's events, those
      completions are the ones seen in the events. */
  lemma FaultLossConserved(events: seq<Event>, p: InjectedParameters, draws: seq<IntentDraws>)
    requires Progresses(events, Incident, p, draws)
    ensures |CompletedIntents(p, draws)| + |RemovedIntents(p, draws)| == |WouldCompleteIntents(draws)|
    ensures IntentsAt(events, Incident, PAYMENT_COMPLETED) ==
              if PAYMENT_COMPLETED in p.dropStages then {} else CompletedIntents(p, draws)
  {
    CompletionsConserved(p, draws);
    IntentsAtAre(events, Incident, p, draws, PAYMENT_COMPLETED);
    assert ReachIntents(p, draws, STAGES - 1) == CompletedIntents(p, draws);
  }

  lemma CompletionsConserved(p: InjectedParameters, draws: seq<IntentDraws>)
    ensures |CompletedIntents(p, draws)| + |RemovedIntents(p, draws)| == |WouldCompleteIntents(draws)|
  {
    var done, removed := CompletedIntents(p, draws), RemovedIntents(p, draws);
    forall i: nat | i < |draws|
      ensures i in done || i in removed <==> i in WouldCompleteIntents(draws)
      ensures !(i in done && i in removed)
    {
      CapsRemoveCompletionExactly(FreeEnd(draws[i]), TimesOut(p, draws[i]), LeavesFlow(p, draws[i]));
    }
    assert done + removed == WouldCompleteIntents(draws);
    assert done !! removed;
  }

  /** The intents whose final position is at or past stage `k`. */
  function ReachIntents(p: InjectedParameters, draws: seq<IntentDraws>, k: nat): set<nat> {
    set i: nat | i < |draws| && FinalIndex(p, draws[i]) >= k
  }

  /** What the analytics count at a stage: the intents that got there, unless the stage is dropped. */
  lemma IntentsAtAre(events: seq<Event>, period: Period, p: InjectedParameters, draws: seq<IntentDraws>,
                     stage: FunnelStage)
    requires Progresses(events, period, p, draws)
    ensures IntentsAt(events, period, stage) ==
              if stage in p.dropStages then {} else ReachIntents(p, draws, Index(stage))
  {
    forall i: nat
      ensures i in IntentsAt(events, period, stage) <==>
                stage !in p.dropStages && i < |draws| && FinalIndex(p, draws[i]) >= Index(stage)
    {
      if stage !in p.dropStages && i < |draws| && FinalIndex(p, draws[i]) >= Index(stage) {
        assert Progression(period, i, stage) in events;
      }
    }
  }

  /** The stage counts that given draws lead to. */
  function CountsFor(p: InjectedParameters, draws: seq<IntentDraws>): FunnelLoss.StageCounts {
    map s | s in FUNNEL_STAGE_ORDER :: if s in p.dropStages then 0 else |ReachIntents(p, draws, Index(s))|
  }

  lemma CountsAreFor(events: seq<Event>, period: Period, p: InjectedParameters, draws: seq<IntentDraws>)
    requires Progresses(events, period, p, draws)
    ensures CountsOf(events, period) == CountsFor(p, draws)
  {
    forall s | s in FUNNEL_STAGE_ORDER ensures CountsOf(events, period)[s] == CountsFor(p, draws)[s] {
      IntentsAtAre(events, period, p, draws, s);
    }
  }

  lemma ReachedOf(p: InjectedParameters, draws: seq<IntentDraws>, k: nat)
    requires k < STAGES
    ensures FunnelLoss.Reached(CountsFor(p, draws), k) ==
              if FUNNEL_STAGE_ORDER[k] in p.dropStages then 0 else |ReachIntents(p, draws, k)|
  {
    StageAtHasIndex(k);
  }

  lemma ReachShrinks(p: InjectedParameters, draws: seq<IntentDraws>, j: nat, k: nat)
    requires j <= k
    ensures |ReachIntents(p, draws, k)| <= |ReachIntents(p, draws, j)|
  {
    SubsetIsSmaller(ReachIntents(p, draws, k), ReachIntents(p, draws, j));
  }

  lemma ReachedAtMost(p: InjectedParameters, draws: seq<IntentDraws>, k: nat)
    requires k < STAGES
    ensures FunnelLoss.Reached(CountsFor(p, draws), k) <= |ReachIntents(p, draws, k)|
  {
    ReachedOf(p, draws, k);
  }

  lemma KeptStep(p: InjectedParameters, draws: seq<IntentDraws>, k: nat)
    requires 0 < k < STAGES && FUNNEL_STAGE_ORDER[k - 1] !in p.dropStages
    ensures FunnelLoss.Reached(CountsFor(p, draws), k) <= FunnelLoss.Reached(CountsFor(p, draws), k - 1)
  {
    ReachedAtMost(p, draws, k);
    ReachShrinks(p, draws, k - 1, k);
    ReachedOf(p, draws, k - 1);
  }

  lemma AllReachTheStart(p: InjectedParameters, draws: seq<IntentDraws>)
    ensures |ReachIntents(p, draws, 0)| == |draws|
  {
    SizeOfInitialSegment(ReachIntents(p, draws, 0), |draws|);
  }

  /** With no dropped stage the counts of the emitted events never grow along the funnel. */
  lemma CountsAreNested(events: seq<Event>, period: Period, p: InjectedParameters, draws: seq<IntentDraws>)
    requires Progresses(events, period, p, draws) && p.dropStages == {}
    ensures FunnelLoss.Nested(CountsOf(events, period))
    ensures FunnelLoss.Reached(CountsOf(events, period), 0) == |draws|
  {
    CountsAreFor(events, period, p, draws);
    KeptCountsAreNested(p, draws);
    ReachedOf(p, draws, 0);
    AllReachTheStart(p, draws);
  }

  lemma KeptCountsAreNested(p: InjectedParameters, draws: seq<IntentDraws>)
    requires p.dropStages == {}
    ensures FunnelLoss.Nested(CountsFor(p, draws))
  {
    var c := CountsFor(p, draws);
    forall k | 0 < k < STAGES ensures FunnelLoss.Reached(c, k) <= FunnelLoss.Reached(c, k - 1) {
      KeptStep(p, draws, k);
    }
  }

  lemma {:induction false} SubsetIsSmaller<T>(a: set<T>, b: set<T>)
    requires a <= b
    ensures |a| <= |b|
  {
    assert b == a + (b - a);
  }

  lemma {:induction false} SizeOfInitialSegment(s: set<nat>, n: nat)
    requires forall i: nat :: i in s <==> i < n
    ensures |s| == n
  {
    if n == 0 {
      assert s == {};
    } else {
      SizeOfInitialSegment(s - {n - 1}, n - 1);
    }
  }

  // ----- What the comparison makes of a generated scenario -----------------------------------------

  /** The incident intents that did not complete. */
  function UnfinishedIntents(p: InjectedParameters, draws: seq<IntentDraws>): int {
    |draws| - |CompletedIntents(p, draws)|
  }

  /** The loss attributed to a scenario: its clean baseline against its incident. */
  function Attributed(p: InjectedParameters, baseline: seq<IntentDraws>, incident: seq<IntentDraws>): int {
    FunnelLoss.TotalCharged(CountsFor(NO_FAULTS, baseline), CountsFor(p, incident))
  }

  /** No dropped stage follows a kept one. */
  ghost predicate OnlyHeadDropped(p: InjectedParameters) {
    forall k :: 0 < k < STAGES && FUNNEL_STAGE_ORDER[k] in p.dropStages ==> FUNNEL_STAGE_ORDER[k - 1] in p.dropStages
  }

  lemma {:induction false} DroppedHead(p: InjectedParameters, k: nat, j: nat)
    requires OnlyHeadDropped(p) && j <= k < STAGES && FUNNEL_STAGE_ORDER[k] in p.dropStages
    ensures FUNNEL_STAGE_ORDER[j] in p.dropStages
  {
    if j < k {
      DroppedHead(p, k - 1, j);
    }
  }

  /** Nothing is charged up to the first kept stage: the stages before it count nobody. */
  lemma {:induction false} HeadIsFree(base: FunnelLoss.StageCounts, inc: FunnelLoss.StageCounts, m: nat)
    requires m < STAGES && forall k :: 0 <= k < m ==> FunnelLoss.Reached(inc, k) == 0
    ensures FunnelLoss.ChargedBetween(base, inc, 0, m + 1) == 0
  {
    if m > 0 {
      HeadIsFree(base, inc, m - 1);
      assert FunnelLoss.StepRate(inc, m) == None;
    }
  }

  lemma KeptPartNested(p: InjectedParameters, incident: seq<IntentDraws>, m: nat)
    requires m < STAGES && forall k :: m <= k < STAGES ==> FUNNEL_STAGE_ORDER[k] !in p.dropStages
    ensures var c := CountsFor(p, incident);
            forall k :: m < k < STAGES ==> FunnelLoss.Reached(c, k) <= FunnelLoss.Reached(c, k - 1)
  {
    var c := CountsFor(p, incident);
    forall k | m < k < STAGES ensures FunnelLoss.Reached(c, k) <= FunnelLoss.Reached(c, k - 1) {
      KeptStep(p, incident, k);
    }
  }

  lemma KeptEnds(p: InjectedParameters, incident: seq<IntentDraws>, m: nat)
    requires m < STAGES
    requires FUNNEL_STAGE_ORDER[m] !in p.dropStages && FUNNEL_STAGE_ORDER[STAGES - 1] !in p.dropStages
    ensures FunnelLoss.Reached(CountsFor(p, incident), m) - FunnelLoss.Reached(CountsFor(p, incident), STAGES - 1)
         <= UnfinishedIntents(p, incident)
  {
    ReachedOf(p, incident, m);
    ReachedOf(p, incident, STAGES - 1);
    AllReachTheStart(p, incident);
    SubsetIsSmaller(ReachIntents(p, incident, m), ReachIntents(p, incident, 0));
    assert ReachIntents(p, incident, STAGES - 1) == CompletedIntents(p, incident);
  }

  lemma UnfinishedIsNonNegative(p: InjectedParameters, incident: seq<IntentDraws>)
    ensures UnfinishedIntents(p, incident) >= 0
  {
    AllReachTheStart(p, incident);
    SubsetIsSmaller(CompletedIntents(p, incident), ReachIntents(p, incident, 0));
  }

  lemma CleanBaselineNeverGains(baseline: seq<IntentDraws>)
    ensures FunnelLoss.NeverGains(CountsFor(NO_FAULTS, baseline))
  {
    KeptCountsAreNested(NO_FAULTS, baseline);
    FunnelLoss.NestedNeverGains(CountsFor(NO_FAULTS, baseline));
  }

  lemma KeptTailNotOvercharged(p: InjectedParameters, baseline: seq<IntentDraws>, incident: seq<IntentDraws>, m: nat)
    requires m < STAGES && forall k :: m <= k < STAGES ==> FUNNEL_STAGE_ORDER[k] !in p.dropStages
    requires forall k :: 0 <= k < m ==> FUNNEL_STAGE_ORDER[k] in p.dropStages
    ensures Attributed(p, baseline, incident) <= UnfinishedIntents(p, incident)
  {
    var base, inc := CountsFor(NO_FAULTS, baseline), CountsFor(p, incident);
    forall k | 0 <= k < m ensures FunnelLoss.Reached(inc, k) == 0 {
      ReachedOf(p, incident, k);
    }
    HeadIsFree(base, inc, m);
    CleanBaselineNeverGains(baseline);
    KeptPartNested(p, incident, m);
    KeptEnds(p, incident, m);
    FunnelLoss.ChargesTelescope(base, inc, m, STAGES);
    FunnelLoss.ChargedBetweenSplits(base, inc, 0, m + 1, STAGES);
  }

  /** Generator and analytics together: on a scenario whose dropped stages, if any, are the first ones, the
      attributed loss never exceeds the incident intents that did not complete. */
  lemma HeadDropsNotOvercharged(p: InjectedParameters, baseline: seq<IntentDraws>, incident: seq<IntentDraws>)
    requires OnlyHeadDropped(p)
    ensures Attributed(p, baseline, incident) <= UnfinishedIntents(p, incident)
  {
    var m := FirstKept(p, 0);
    if m < STAGES {
      forall k | m <= k < STAGES ensures FUNNEL_STAGE_ORDER[k] !in p.dropStages {
        if FUNNEL_STAGE_ORDER[k] in p.dropStages {
          DroppedHead(p, k, m);
        }
      }
      KeptTailNotOvercharged(p, baseline, incident, m);
    } else {
      var inc := CountsFor(p, incident);
      forall k | 0 <= k < STAGES ensures FunnelLoss.Reached(inc, k) == 0 {
        ReachedOf(p, incident, k);
      }
      HeadIsFree(CountsFor(NO_FAULTS, baseline), inc, STAGES - 1);
      UnfinishedIsNonNegative(p, incident);
    }
  }

  function FirstKept(p: InjectedParameters, k: nat): (m: nat)
    requires k <= STAGES
    ensures k <= m <= STAGES && (forall i :: k <= i < m ==> FUNNEL_STAGE_ORDER[i] in p.dropStages)
    ensures m < STAGES ==> FUNNEL_STAGE_ORDER[m] !in p.dropStages
    decreases STAGES - k
  {
    if k < STAGES && FUNNEL_STAGE_ORDER[k] in p.dropStages then FirstKept(p, k + 1) else k
  }

  // ----- Scenarios that drop a later stage ---------------------------------------------------------

  /** Draws of an intent that passes every step and that no fault touches. */
  function Untouched(p: InjectedParameters): IntentDraws {
    Draws(p.benefitGapShift, 0, if p.timeoutChannel.Some? then p.timeoutChannel.value + "!" else "", 0.0, 0.0, 0.0,
          [0.0, 0.0, 0.0, 0.0, 0.0, 0.0, 0.0, 0.0])
  }

  lemma UntouchedCompletes(p: InjectedParameters, d: InjectedParameters)
    requires d == p || d == NO_FAULTS
    ensures FinalIndex(d, Untouched(p)) == STAGES - 1
  {
    CompletesIffAllDrawsPass(Untouched(p), 0);
    if d == p && p.timeoutChannel.Some? {
      assert |p.timeoutChannel.value + "!"| == |p.timeoutChannel.value| + 1;
    }
  }

  function Copies(d: IntentDraws, n: nat): (draws: seq<IntentDraws>)
    ensures |draws| == n && forall i :: 0 <= i < n ==> draws[i] == d
  {
    seq(n, _ => d)
  }

  lemma UntouchedCounts(p: InjectedParameters, d: InjectedParameters, n: nat)
    requires d == p || d == NO_FAULTS
    ensures UnfinishedIntents(d, Copies(Untouched(p), n)) == 0
    ensures forall k :: 0 <= k < STAGES ==>
              FunnelLoss.Reached(CountsFor(d, Copies(Untouched(p), n)), k) ==
                if FUNNEL_STAGE_ORDER[k] in d.dropStages then 0 else n
  {
    var draws := Copies(Untouched(p), n);
    UntouchedCompletes(p, d);
    forall k | 0 <= k < STAGES ensures |ReachIntents(d, draws, k)| == n {
      SizeOfInitialSegment(ReachIntents(d, draws, k), n);
    }
    forall k | 0 <= k < STAGES
      ensures FunnelLoss.Reached(CountsFor(d, draws), k) == if FUNNEL_STAGE_ORDER[k] in d.dropStages then 0 else n
    {
      ReachedOf(d, draws, k);
    }
    SizeOfInitialSegment(CompletedIntents(d, draws), n);
  }

  /** Where a dropped stage follows a kept one, every intent is charged there although every one completed. */
  lemma LaterDropOvercharges(p: InjectedParameters, n: nat, k: nat)
    requires 0 < k < STAGES && n > 0
    requires FUNNEL_STAGE_ORDER[k] in p.dropStages && FUNNEL_STAGE_ORDER[k - 1] !in p.dropStages
    ensures Attributed(p, Copies(Untouched(p), n), Copies(Untouched(p), n)) >= n
    ensures UnfinishedIntents(p, Copies(Untouched(p), n)) == 0
  {
    var draws := Copies(Untouched(p), n);
    UntouchedCounts(p, NO_FAULTS, n);
    UntouchedCounts(p, p, n);
    FunnelLoss.AllLostAtOneStep(CountsFor(NO_FAULTS, draws), CountsFor(p, draws), n, k);
    FunnelLoss.TotalCoversEach(CountsFor(NO_FAULTS, draws), CountsFor(p, draws), k);
  }

  /** The attributed loss stays within the unfinished intents, for all draws of both periods, exactly when
      the scenario drops no stage after a kept one. */
  lemma ScenarioNotOverchargedIff(p: InjectedParameters)
    ensures (forall baseline, incident :: Attributed(p, baseline, incident) <= UnfinishedIntents(p, incident))
       <==> OnlyHeadDropped(p)
  {
    if OnlyHeadDropped(p) {
      forall baseline, incident ensures Attributed(p, baseline, incident) <= UnfinishedIntents(p, incident) {
        HeadDropsNotOvercharged(p, baseline, incident);
      }
    } else {
      var k :| 0 < k < STAGES && FUNNEL_STAGE_ORDER[k] in p.dropStages && FUNNEL_STAGE_ORDER[k - 1] !in p.dropStages;
      LaterDropOvercharges(p, 1, k);
    }
  }

  /** In terms of the emitted events. */
  lemma GeneratedScenarioNotOvercharged(events: seq<Event>, p: InjectedParameters,
                                        baseline: seq<IntentDraws>, incident: seq<IntentDraws>)
    requires Progresses(events, Baseline, NO_FAULTS, baseline) && Progresses(events, Incident, p, incident)
    requires OnlyHeadDropped(p)
    ensures FunnelLoss.TotalCharged(CountsOf(events, Baseline), CountsOf(events, Incident))
         <= |incident| - |CompletedIntents(p, incident)|
  {
    CountsAreFor(events, Baseline, NO_FAULTS, baseline);
    CountsAreFor(events, Incident, p, incident);
    HeadDropsNotOvercharged(p, baseline, incident);
  }

  /** The incident parameters of the `data_gap` kind. */
  const DATA_GAP := InjectedParameters(0, 0.0, 0.0, None, 0.0, {AUTHENTICATION_PASSED, CHANNEL_SUCCEEDED})

  /** So the generator's own `data_gap` kind overcharges: with every intent of both periods completing, all of
      them are charged as lost. */
  lemma DataGapOvercharges(n: nat) returns (draws: seq<IntentDraws>)
    requires n > 0
    ensures |draws| == n && UnfinishedIntents(DATA_GAP, draws) == 0
    ensures Attributed(DATA_GAP, draws, draws) >= n
  {
    draws := Copies(Untouched(DATA_GAP), n);
    assert FUNNEL_STAGE_ORDER[5] == AUTHENTICATION_PASSED && FUNNEL_STAGE_ORDER[4] == PAYMENT_INITIATED;
    LaterDropOvercharges(DATA_GAP, n, 5);
  }
}
