# PayTrace diagnosis engine, verified in Dafny

PayTrace compares a payment funnel before and during an incident, investigates what changed with a bounded
set of read-only tools, and publishes a report whose every claim rests on recorded evidence. This project
models that engine and proves what it is trusted for. `dafny verify dfyconfig.toml` checks everything.

- **Loss accounting.** `FunnelLoss` (per-transition attribution over exact rationals), `Scenario` (the
  generator and its counterfactual ground truth), `LossTotals` (one figure from comparison to report).
- **Evidence.** `Tooling`, `DiagnosticTools`, `Identifiers`, `ContextSelection`: calls, schemas, the evidence
  ledger, the six tools, printed codes and what sorting them restores.
- **Reports.** `EvidenceContract` (what evidence supports, the validator's rules), `Publication` (the rewrite
  before publishing, refusal, retries), `RuleAdapter`.
- **The governed investigation (B2).** `Routing`, `HypothesisLedger`, `Investigation` (the loop as a state
  machine over an arbitrary policy and arbitrary tools), `Harness` (the run as it is written, over shared
  mutable objects, proved equal to the state machine), `Governance` (what holds at every loop head of every
  run), `CallHistory` (each hypothesis read back from the calls bound to it), `TurnByTurn` (what a turn shows the
  policy and why it refuses), `ScriptedPolicy` (the deterministic policy), `Agreement` (hypotheses and report say
  the same).
- **The fixed workflow (B0).** `FixedPipeline`.
- **From data to report.** `EndToEnd` (a run completes, and its verdicts are a property of the dataset),
  `Agenda` and `ProbeReach` (which calls a scripted run makes, in which order), `Trimming` (what the cut of a
  context keeps), `PublishedLabels` (what both modes publish), `Disagreements` (two datasets on which they, or
  ledger and report, differ).
- **Around a run.** `Persistence` (stored trace, evidence validity), `RunLifecycle` (API, duplicate workers and
  scanner on one run), `EventLog` (the append-only log and its resumable stream), `TraceRail` (the evidence
  graph of the user interface), `ArtifactStore`.

Reading conventions: an exception is a result value; a JSON call signature and a hashed fingerprint are the
call itself; the policy is any function of the turn number and of what the harness shows it, so it may have a
memory; tools are any function of call number and call, and may raise.

## What turned out not to hold

The model follows the code. Where that differs from what the code or its comments suggest, a lemma says so:

- A worker job retried after a transient error re-enters within ten minutes, finds its run RUNNING and executes
  nothing (`RunLifecycle.WorkerStartsExactly`), although backend/app/tasks/diagnosis.py:228-230 expects it to
  execute again.
- DISPATCH_FAILED is asked for from QUEUED, which the transition table does not allow
  (`RunLifecycle.DispatchFailureIsInvisible`).
- A worker that fails on a run already FAILED writes a second run_failed event and touches the run, because a
  move to the same status is legal (`RunLifecycle.FailureIsRecorded`).
- No call of the loop is ever refused as out of the incident's scope: the dataset is injected before the hooks
  look (`TurnByTurn.NextTurnExactly`).
- A run stopped by three refused calls reports POLICY_FINISHED, and that is the only way the reported reason is
  wrong (`Governance.ReportedFinishedIff`).
- A scripted run with a budget of one has calls refused (`ScriptedPolicy.ScriptedRefusedIff`).
- The rule adapter can be sent back to itself: zero total, but loss in other evidence
  (`RuleAdapter.RuleReportRetriedIff`).
- Text order of evidence codes is issue order only up to a point
  (`ContextSelection.SelectionIsFirstIssuedIff`); the cut of twenty is always on the safe side of it.
- A stream may close before its last event (`EventLog.StreamMayCloseEarly`).
- The attributed loss can exceed the intents that did not complete. On the baseline side exactly when some step
  gained intents (`FunnelLoss.BoundForAllIncidentsIff`), on the incident side exactly when its large drops exceed
  its unfinished intents (`FunnelLoss.BoundForAllBaselinesIff`). The generator's own data_gap kind overcharges:
  a stage whose events are dropped counts nobody, and everyone who passed it is charged
  (`Scenario.DataGapOvercharges`, `Scenario.ScenarioNotOverchargedIff`).
- The investigation can return CHANNEL_TIMEOUT or BENEFIT_SELECTION_FRICTION as settled while the published report
  is silent: exactly when the fault is there but data is missing, or twenty records or more are drafted before its
  probe and the context trims the proof away (`PublishedLabels.LedgerAndReportAgreeIff`,
  `Disagreements.SupportedButUnpublished`).
- The fixed workflow publishes faults that the scripted investigation does not: those of families triage did not
  localise, and the trimmed ones (`PublishedLabels.ModesAgreeIff`, `Disagreements.PublishedByOneMode`).
- A schema-valid call can still make a tool raise (`DiagnosticTools.AdmittedCallReturnsIff`), which ends the
  investigation (`EndToEnd.DefaultRunCompletesIff`).
- `resolve` itself accepts settled hypotheses, and taking a rejection back leaves its memory behind
  (`HypothesisLedger.ResolveKeepsValidIff`); that settled ones stay settled comes from its callers
  (`Governance.SettledStaysSettled`).

## Model

| member | source | states |
|---|---|---|
| FunnelLoss.Round | backend/app/analytics/duckdb_source.py:178 | the integer nearest to the exact shortfall, ties to the even one |
| FunnelLoss.GetFunnel | backend/app/analytics/duckdb_source.py:122-198 | both periods' statistics, one delta per transition, and the anomalous stages in funnel order, for any counts; stated again over the counts alone: a stage with positive predecessors is anomalous exactly when its two step ratios differ by more than a twentieth in either direction, and its loss is the rounded shortfall |
| FunnelLoss.ImprovedStageFlagged | backend/app/analytics/duckdb_source.py:160-178 | a stage whose step rate improved by more than the threshold is flagged, with loss 0 |
| FunnelLoss.RowLossByCounts | backend/app/analytics/duckdb_source.py:232-242 | a breakdown row's loss is the integer nearest to the shortfall over its four counts, ties to even, and 0 without one |
| FunnelLoss.ChargeRestoresBaseline | backend/app/analytics/duckdb_source.py:160-178 | passed plus charged intents at a degraded transition are the nearest integer to what the baseline rate would have let through |
| FunnelLoss.ChargedAtMostDrop | backend/app/analytics/duckdb_source.py:169-178 | a transition that gains nothing in either period is charged at most the intents that dropped out at it |
| FunnelLoss.ChargesTelescope | backend/app/analytics/duckdb_source.py:169-191 | along any stretch of the funnel the charges are covered by the intents lost along it |
| FunnelLoss.NoIntentChargedTwice | backend/app/analytics/duckdb_source.py:152-191 | as long as no baseline step gains intents and the incident is nested, all charges together are at most confirmed minus completed incident intents |
| FunnelLoss.BoundForAllIncidentsIff | backend/app/analytics/duckdb_source.py:177-178 | for a given baseline the bound holds for every nested incident exactly when no baseline step rate exceeds one |
| FunnelLoss.GainOvercharges | backend/app/analytics/duckdb_source.py:177-178 | for each baseline step that gained intents, an incident that is charged more than it lost |
| FunnelLoss.BoundForAllBaselinesIff | backend/app/analytics/duckdb_source.py:160-178 | for a given incident, nested or not, the bound holds for every baseline that never gains exactly when the incident's drops of more than a twentieth add up to at most its unfinished intents |
| FunnelLoss.RowLossAtMostUnfinished | backend/app/analytics/duckdb_source.py:238-242 | a breakdown row never loses more than its own unfinished intents |
| Scenario.IntentState.ApplyBenefitFriction | backend/app/harness/scenarios/generator.py:175-191 | the gap shift and which of cancel, reorder and switch follow from the draws |
| Scenario.IntentState.WalkFunnel | backend/app/harness/scenarios/generator.py:207-230 | the final stage is the fault-free one cut by the two caps, and the counterfactual flag records the fault-free outcome |
| Scenario.CompletesIffAllDrawsPass | backend/app/harness/scenarios/generator.py:209-217 | the fault-free walk reaches the end exactly when every remaining draw passes |
| Scenario.CapsRemoveCompletionExactly | backend/app/harness/scenarios/generator.py:218-230 | the caps keep a completion exactly when neither fault applies, and never move an intent forward |
| Scenario.CapsExactly | backend/app/harness/scenarios/generator.py:218-230 | the caps leave the furthest stage that the walk reached and each fault allows: before CHANNEL_SUCCEEDED for a timeout, PAYMENT_METHOD_SELECTED for leaving the flow |
| Scenario.ReachesExactly | backend/app/harness/scenarios/generator.py:175-230 | an incident intent gets to a stage exactly when every draw on the way passes and neither a timeout nor an unretracted cancellation stops it before |
| Scenario.GenerateScenario | backend/app/harness/scenarios/generator.py:448-472 | the progression events of both periods are exactly those the intents' final stages call for, and the expected loss counts exactly the completions a fault removed |
| Scenario.FaultLossConserved | backend/app/harness/scenarios/generator.py:434-472 | incident completions plus expected loss are the completions without the fault caps, for any number of intents and any draws; those completions are the ones in the events unless that stage is dropped |
| Scenario.CountsAreNested | backend/app/harness/scenarios/generator.py:233-244 | with no dropped stage the emitted per-stage counts never grow along the funnel |
| Scenario.GeneratedScenarioNotOvercharged | backend/app/harness/scenarios/generator.py:448-472 | on a generated scenario whose dropped stages, if any, are the first ones, the attributed loss never exceeds the intents that did not complete |
| Scenario.ScenarioNotOverchargedIff | backend/app/harness/scenarios/generator.py:238-240 | for given parameters that bound holds for all draws of both periods exactly when no dropped stage follows a kept one |
| Scenario.DataGapOvercharges | backend/app/harness/scenarios/generator.py:319-326 | the generator's own data_gap kind, with every intent of both periods completing, is charged all of them |
| DiagnosticTools.RunFunnelTool | backend/app/tools/diagnostic.py:62-107 | one degradation per anomalous stage with its delta's loss, or one stability record when there is none |
| DiagnosticTools.FunnelDraftsByCounts | backend/app/tools/diagnostic.py:62-107 | over the counts alone: a degradation exactly for each stage that moved, with its loss, in funnel order, and otherwise exactly the stability record |
| DiagnosticTools.FunnelDraftsCarryTotal | backend/app/tools/diagnostic.py:62-83 | the degradation drafts carry exactly the loss the comparison charged, and there are between one and nine drafts |
| DiagnosticTools.TriageLocalisesAnomalies | backend/app/harness/harness.py:151-155 | triage names exactly the stages for which twenty times the absolute cross difference of the counts exceeds the product of their predecessors, in either direction |
| DiagnosticTools.RunBreakdownTool | backend/app/tools/diagnostic.py:150-172 | one contribution per row that lost rate and intents, in row order |
| DiagnosticTools.BreakdownRowByRow | backend/app/tools/diagnostic.py:150-172 | row by row over the counts: a contribution exactly for a row that lost more than a twentieth of its rate and a positive number of intents, with that number |
| DiagnosticTools.PlainReadings | backend/app/tools/diagnostic.py:184-411 | what the other four tools draft, from the readings: the benefit gap, the timeouts together with a timeout code, the cancellation rate and one record per relevant change |
| DiagnosticTools.AdmittedCallReturnsIff | backend/app/tools/diagnostic.py:54-411 | a call that fits its schema raises exactly when its filters or change types cannot be read; otherwise it succeeds, drafts only its tool's evidence types, no negative loss, and a stage only with a degradation |
| Tooling.ValidateArguments | backend/app/tools/schemas.py:138-175 | arguments are accepted exactly when the tool is known, every required key is there, and every key is known with a value that fits (booleans are not integers) |
| Tooling.AimedInjective | backend/app/harness/harness.py:228-234 | injecting the incident's dataset loses nothing: different signatures have different fingerprints |
| Tooling.ToolPolicy.BeforeCall | backend/app/tools/base.py:97-109 | a call is admitted exactly when the budget is not spent and it was not seen; only then count and fingerprints change |
| Tooling.EvidenceLedger.RecordResult | backend/app/tools/base.py:184-203 | a result's drafts are appended in order, each under the next code and the call's own id |
| Tooling.LedgerCodesDistinct | backend/app/tools/base.py:184-199 | codes issued by one ledger never repeat |
| Tooling.LedgerRecordsComeFromCalls | backend/app/tools/base.py:202-203 | every record of the ledger was drafted by the call it names |
| Tooling.DraftsReachLedger | backend/app/tools/base.py:202-203 | every draft of every call is in the ledger |
| Identifiers.EvidenceCodeInjective | backend/app/tools/base.py:186-191 | different record numbers print different codes |
| Identifiers.CallIdRoundTrip | backend/app/incidents/service.py:508-521 | reading the digits of `c<n>` gives back n, for every n |
| Identifiers.FirstHundredSortFirst | backend/app/diagnosis/context.py:42-43 | the first hundred numbers sort, as zero-padded text, before every later one |
| Identifiers.ThousandJumpsTheQueue | backend/app/diagnosis/context.py:42-43 | from the hundred-and-first on, the thousandth sorts before them |
| Identifiers.SortedPermutationKeepsPrefix | backend/app/diagnosis/context.py:42-48 | a sorted permutation starts with the items that strictly precede all later ones, in their order |
| ContextSelection.SortByCodeSorts | backend/app/diagnosis/context.py:42-43 | the evidence sorted by code is in text order of the codes |
| ContextSelection.SelectionIsFirstIssuedIff | backend/app/diagnosis/context.py:42-48 | sorting by code and cutting gives the first records issued exactly while the ledger has fewer than 1000 records or the cut is at most 100 |
| ContextSelection.ContextGetsFirstTwenty | backend/app/diagnosis/context.py:42-48 | with the cut of 20 the context always gets the first 20 records issued, for any ledger size |
| ContextSelection.TraceOrderRestored | backend/app/incidents/service.py:508-535 | sorting the call ids of a run from any permutation restores execution order |
| EvidenceContract.MoreEvidenceNeverWeakens | backend/app/diagnosis/validator.py:66-112 | a larger set of evidence types never lowers the status of a claim, unless the claim is that nothing is wrong |
| EvidenceContract.TimeoutEvidenceDecides | backend/app/diagnosis/validator.py:98-110 | CHANNEL_TIMEOUT is SUPPORTED exactly with its own type of evidence, otherwise UNKNOWN |
| EvidenceContract.FrictionEvidenceDecides | backend/app/diagnosis/validator.py:98-112 | BENEFIT_SELECTION_FRICTION is carried exactly with benefit-gap evidence, and only PARTIAL while that is the only specific evidence |
| EvidenceContract.NegativeEvidenceDecides | backend/app/diagnosis/validator.py:84-92 | NORMAL_PAYMENT_FAILURE is carried exactly by a non-empty set of negative evidence |
| EvidenceContract.SupportExactly | backend/app/diagnosis/validator.py:66-112 | for every label and every set of types, the status and the reason, type by type |
| EvidenceContract.TypesAreCited | backend/app/diagnosis/validator.py:115-131 | a claim rests on a type exactly when the last record under some code it cites has it |
| EvidenceContract.Validate | backend/app/diagnosis/validator.py:134-462 | the issues are exactly the violations of rules R1 to R15, claim by claim and for the report, each with its retryable flag |
| EvidenceContract.IdentityIssues | backend/app/diagnosis/validator.py:142-404 | R1, R2, R9 and R12 are raised exactly for other ids, a cited code that no record of the context has, a data request that names nothing, another version |
| EvidenceContract.LedgerIssues | backend/app/diagnosis/validator.py:224-462 | R5, R6 and R15 are raised exactly for a negative figure, an imbalance of more than two, and more explained than the supported claims carry |
| EvidenceContract.CitationIssues | backend/app/diagnosis/validator.py:188-422 | R3 and R13 are raised exactly for a claim that asserts something and cites no record, and for a repeated code |
| EvidenceContract.SupportIssues | backend/app/diagnosis/validator.py:305-440 | R8 and R14 are raised exactly when what a claim cites supports nothing, and the claim cites a record or says otherwise |
| EvidenceContract.BenefitIssues | backend/app/diagnosis/validator.py:368-394 | R11 is raised exactly for a friction claim all of whose records are benefit-gap friction |
| EvidenceContract.LabelAndLossIssues | backend/app/diagnosis/validator.py:212-301 | R4, R5 and R7 for a claim exactly with a label outside the ontology, a negative loss, a loss above the total |
| EvidenceContract.ConfidenceIssues | backend/app/diagnosis/validator.py:339-367 | R10 is raised exactly for a HIGH claim when the context holds nothing but gaps and stability, and for a HIGH claim that nothing is wrong |
| EvidenceContract.NoOtherIssues | backend/app/diagnosis/validator.py:134-462 | there is no other issue, and only R11, R12 and the R3 of a report asking for data cannot be retried |
| Publication.CleanIff | backend/app/diagnosis/validator.py:134-462 | nothing retryable is raised exactly when every cited code is recorded, no claim repeats one, ids match, no figure is negative, the ledger balances, no claim exceeds the total or outruns its support or its confidence, every label is of the ontology and a data request names its data |
| Publication.ApplyEvidenceContract | backend/app/diagnosis/orchestrator.py:258-306 | statuses, explained and unexplained loss are rewritten and one note is left per changed claim; a report without claims is left alone |
| Publication.PublishedExactly | backend/app/diagnosis/orchestrator.py:270-306 | every claim keeps all but its status, which becomes what it cites supports; explained is the loss of the published claims not marked UNKNOWN, up to the total |
| Publication.NotesExactly | backend/app/diagnosis/orchestrator.py:279-294 | a note for each claim whose status changes, and for no other |
| Publication.PublishedReportBalances | backend/app/diagnosis/orchestrator.py:270-306 | explained plus unexplained is the total, and what is explained is the supported claims' loss capped by the total |
| Publication.PublishedReportPassesLossRules | backend/app/diagnosis/validator.py:268-284 | a rewritten report with a claim cannot raise R6, R14 or R15 |
| Publication.PublishedImbalanceIff | backend/app/diagnosis/orchestrator.py:270-271 | R6 on a published report means exactly a report without claims whose ledger was already off |
| Publication.ContractIdempotent | backend/app/diagnosis/orchestrator.py:258-306 | applying the contract again changes nothing and notes nothing |
| Publication.FixedPointIff | backend/app/diagnosis/orchestrator.py:279-306 | a report passes unchanged exactly when its statuses and its ledger are already what the contract writes |
| Publication.RefusedIff | backend/app/diagnosis/orchestrator.py:195-211 | a run is refused exactly on a version mismatch or a NEEDS_DATA report that keeps an UNKNOWN-labelled claim without run evidence |
| Publication.GenerateWithRetry | backend/app/diagnosis/orchestrator.py:407-432 | the loop stops on a clean report or when retries are used up, always judging against the same evidence; each further generation sees the context before it with exactly the retryable issues of that report added, and a clean first report costs one generation |
| RuleAdapter.Generate | backend/app/diagnosis/adapter.py:50-223 | the claims of the rules in order, their capped losses and the report's ledger |
| RuleAdapter.TimeoutClaimExactly | backend/app/diagnosis/adapter.py:86-137 | a timeout claim reports the loss of the first degradation at CHANNEL_SUCCEEDED, or if that is nothing what timeout and dimension records estimate, capped by a positive total, and cites exactly those records |
| RuleAdapter.FrictionClaimExactly | backend/app/diagnosis/adapter.py:86-160 | a friction claim reports the loss of the first degradation at the earliest of its three stages, or what benefit and cancellation records estimate, and cites exactly the benefit records and the degradations there; second behind a timeout |
| RuleAdapter.RemainingClaimsExactly | backend/app/diagnosis/adapter.py:162-201 | an unknown cause reports the whole total, a claim that nothing is wrong none, each over its own records |
| RuleAdapter.LabelsExactly | backend/app/diagnosis/adapter.py:60-201 | which claims a report makes and in which order, from the evidence types alone |
| RuleAdapter.RuleLedgerExactly | backend/app/diagnosis/adapter.py:50-223 | total, explained and unexplained loss, and all that a report asking for data says |
| RuleAdapter.TimeoutTypes | backend/app/diagnosis/adapter.py:121-137 | the timeout claim's own citations make it SUPPORTED |
| RuleAdapter.BenefitTypes | backend/app/diagnosis/adapter.py:142-160 | the friction claim's own citations make it PARTIAL, never more |
| RuleAdapter.ClaimsWithLossAreSupported | backend/app/diagnosis/adapter.py:226-237 | every claim already has the status its citations support, and an UNKNOWN one carries no loss |
| RuleAdapter.RuleReportIsFixedPoint | backend/app/diagnosis/adapter.py:50-237 | for every context with distinct codes the report passes the contract unchanged and without a note |
| RuleAdapter.RuleReportRetriedIff | backend/app/diagnosis/adapter.py:121-144 | a retryable issue is raised exactly when the total is zero and a claim's own evidence still carries loss |
| RuleAdapter.OneGenerationWhenLossLocalised | backend/app/diagnosis/orchestrator.py:420-432 | a positive total, or no loss in any evidence, means no retryable issue |
| RuleAdapter.RuleReportNeverRefused | backend/app/diagnosis/orchestrator.py:201-211 | the adapter's report is never refused by a validator of its own version |
| Routing.DetectSignals | backend/app/harness/routing.py:87-113 | the signals are built in routing-table order from stages and data gaps |
| Routing.SignalsAreRight | backend/app/harness/routing.py:48-113 | each signal is there exactly when a stage of its family (or a data gap) is, once, and UNKNOWN exactly alone |
| Routing.SignalsByStage | backend/app/harness/routing.py:48-113 | the signals of an incident in their order, from the degraded stages and data gaps alone |
| Routing.RouteCapabilities | backend/app/harness/routing.py:116-153 | the bundle is the de-duplicated union of the signals' tools in order, with the funnel tool put first when missing |
| Routing.BundleIsBounded | backend/app/harness/routing.py:133-153 | the bundle allows exactly the funnel tool and its signals' tools, all registered, and prefers exactly those |
| Routing.BundlePrefersOnce | backend/app/harness/routing.py:133-153 | no tool is preferred twice |
| Routing.ToolsByStage | backend/app/harness/routing.py:39-153 | which tools an incident is allowed, from the degraded stages and data gaps alone |
| Routing.PreferredInOrder | backend/app/harness/routing.py:133-153 | each further signal appends those of its tools that are not preferred yet, in its own order |
| Routing.ProbesAreRouted | backend/app/harness/routing.py:39-72 | a channel or friction signal always brings its probe into the bundle |
| HypothesisLedger.VerdictIsTerminal | backend/app/harness/ledger.py:57-87 | every verdict is terminal, and REJECTED only after a completed probe that supports nothing |
| HypothesisLedger.ResolveKeepsValid | backend/app/harness/ledger.py:174-196 | settling an open hypothesis changes that one only, and the rejected types stay exactly the rejected items |
| HypothesisLedger.ResolveKeepsValidIff | backend/app/harness/ledger.py:174-196 | for any hypothesis, settled or not, resolve keeps the rejected types exactly the rejected items if and only if it does not take a rejection back |
| HypothesisLedger.ProposeKeepsValid | backend/app/harness/ledger.py:121-152 | proposing keeps ids consecutive and causes distinct |
| HypothesisLedger.SweepClosesAll | backend/app/harness/harness.py:296-301 | the final sweep leaves no hypothesis open, changes only open ones, and rejects none |
| HypothesisLedger.SweepItems | backend/app/harness/harness.py:296-301 | the sweep closes each open hypothesis as never tested and writes nothing else |
| HypothesisLedger.HypothesisStore.CloseOpen | backend/app/harness/harness.py:296-301 | iterating over the open hypotheses performs exactly that sweep |
| Investigation.TurnCountsDown | backend/app/harness/harness.py:212-289 | every turn that loops again lowers (3 - blocked) + (max_calls - calls_used) by exactly one |
| Investigation.LoopEndIsAHead | backend/app/harness/harness.py:212-289 | the loop ends, in the state after a number of turns bounded by that measure |
| Investigation.TriageBlockedIff | backend/app/harness/harness.py:142-149 | triage is refused exactly without a budget, and for that reason; with one, the run fails before its loop exactly when the funnel tool raises |
| Harness.EarlyExitHook.Observe | backend/app/harness/hooks.py:289-303 | the stop reason is set once and by the first of three conditions |
| Harness.Workbench.BeforeLoopCall | backend/app/harness/harness.py:191-200 | the before-hooks refuse with the first failing hook's code, and only an admitted call changes the call policy |
| Harness.Workbench.Register | backend/app/harness/hooks.py:192-203 | the drafts are recorded and their codes attached to the bound hypothesis unless it is settled |
| Harness.Workbench.Judge | backend/app/harness/hooks.py:255-274 | an open bound hypothesis is settled by what the result says, and nothing else changes |
| Harness.Workbench.Invoke | backend/app/harness/harness.py:327-349 | hooks, tool, budget and after-hooks in order take the shared objects to the next state of the state machine |
| Harness.Run | backend/app/harness/harness.py:100-321 | the imperative run over shared mutable objects returns exactly what the state machine computes, for every policy and every tool |
| Governance.EveryHeadIsGoverned | backend/app/harness/harness.py:123-289 | at every loop head of every run: all counters equal, steps are results plus refusals, calls in the bundle, schema-valid, pairwise distinct and aimed at the incident's dataset, signatures and fingerprints the same calls, the ledger exactly what the calls reported, rejections probed |
| Governance.SettledStaysSettled | backend/app/harness/hooks.py:255-274 | between any two loop heads a terminal hypothesis keeps its status |
| CallHistory.EveryHeadIsAccounted | backend/app/harness/hooks.py:192-274 | at every loop head of every run each hypothesis holds exactly the codes, status and reason left by the executed calls bound to it, in order: a call's ledger codes are added unless it was settled by evidence, and while open it is settled by the call's own evidence or a successful probe; steps, results and refusals tell one story |
| CallHistory.ReturnedHypothesesAreAccounted | backend/app/harness/harness.py:296-321 | the same for every returned hypothesis, closed as never tested exactly if its calls left it open |
| CallHistory.SettledHypothesesCiteTheirProof | backend/app/harness/hooks.py:192-274 | a hypothesis settled by evidence cites every record of the call that settled it, and unless its cause is the unknown one there is such a record |
| CallHistory.SupportIsItsOwn | backend/app/harness/hooks.py:192-203 | a returned hypothesis cites only records of calls bound to it |
| CallHistory.RejectedGetsNoCall | backend/app/harness/hooks.py:159-176 | no executed call is bound to a hypothesis that the calls before it had rejected |
| CallHistory.ReturnedQuestions | backend/app/harness/ledger.py:121-152 | one hypothesis per proposed cause, numbered in order of proposal, naming the tool of its first proposal |
| TurnByTurn.NextTurnExactly | backend/app/harness/harness.py:200-289 | every turn of every run: a refused call leaves only its first failing reason, read off bundle, schema, budget, hypotheses and earlier calls; an admitted one reaches the tool under the next call id; the third refusal ends the loop |
| TurnByTurn.ViewExactly | backend/app/harness/harness.py:200-214 | what the policy is shown at any head: the records of the calls so far and their loss, the hypotheses and ruled-out causes, the calls, the refusals and the remaining budget |
| Governance.RunEnds | backend/app/harness/harness.py:200-289 | the loop ends within three refusals and the remaining budget |
| Governance.ReturnedHypothesesAreClosed | backend/app/harness/harness.py:296-321 | every returned hypothesis is terminal, with its verdict if it had one, and the rejected types are exactly the rejected hypotheses |
| Governance.ReturnedRejectionsAreProbed | backend/app/harness/hooks.py:261-274 | every returned REJECTED hypothesis has an executed, successful, designated-probe call bound to it |
| Governance.ReturnedEvidenceIsConserved | backend/app/tools/base.py:184-206 | the returned evidence is each call's drafts in call order under distinct codes |
| Governance.ReportedFinishedIff | backend/app/harness/harness.py:248-312 | a run reports POLICY_FINISHED exactly when the policy did finish or three calls were refused, and never both, so the reason is wrong exactly for three refusals |
| CallHistory.ExitReasonExactly | backend/app/harness/hooks.py:289-303 | which reason is reported, from the last step, the number of calls and the returned hypotheses; the two reasons that say nothing is open leave nothing untested |
| TurnByTurn.ReturnedContext | backend/app/harness/harness.py:151-166 | the returned stages are those of the triage records in order, and the bundle is routed from them and the data gaps |
| ScriptedPolicy.BuildPlan | backend/app/harness/investigation.py:134-153 | the plan is built tool by tool in preferred order |
| ScriptedPolicy.PlanHolds | backend/app/harness/investigation.py:134-153 | the plan holds exactly the pending calls of preferred, allowed tools, and nothing on a clean incident |
| ScriptedPolicy.Decide | backend/app/harness/investigation.py:109-132 | the first planned call, bound to the hypothesis it probes or else the first open one |
| ScriptedPolicy.DecisionExactly | backend/app/harness/investigation.py:109-165 | finish without an open hypothesis or a plan, else the first planned call, for the first open hypothesis that awaits its tool or else the first open one |
| ScriptedPolicy.ProposalsByStage | backend/app/harness/investigation.py:167-181 | which causes are proposed, with which probe, from the degraded stages and data gaps alone |
| ScriptedPolicy.ProposedCallAdmitted | backend/app/harness/hooks.py:76-176 | every call it proposes with budget left passes every before-hook |
| ScriptedPolicy.ScriptedNeverRefused | backend/app/harness/investigation.py:134-165 | with a budget of at least two and any tools nothing is ever refused and at most seven calls are made; with eight the budget never stops the run |
| ScriptedPolicy.ScriptedRefusedIff | backend/app/harness/harness.py:249-266 | calls are refused exactly when the whole budget is the triage call and triage found something; then there are three budget refusals |
| LossTotals.TotalsFollowFirstCall | backend/app/diagnosis/context.py:42-48 | if only the first call reads the funnel, comparison, ledger, context and report state one total, even when the ledger is longer than a context |
| LossTotals.ScriptedTotalsAgree | backend/app/diagnosis/adapter.py:53-57 | in every scripted run with the default tools the four totals agree |
| LossTotals.ReportNeverOverstates | backend/app/diagnosis/adapter.py:53-57 | as long as no baseline step gains intents and the incident is nested, the published total is at most confirmed minus completed |
| Agreement.ProbeBindsItsCause | backend/app/harness/investigation.py:155-165 | a probe is bound to the open hypothesis it probes |
| Agreement.SettledOnlyByProbe | backend/app/harness/hooks.py:255-274 | only a call of its own probe, bound to it, settles such a hypothesis |
| Agreement.ProbedHypothesesAreSettled | backend/app/harness/ledger.py:68-87 | with a budget of eight each raised CHANNEL_TIMEOUT or BENEFIT_SELECTION_FRICTION hypothesis ends settled by its probe, as the evidence says |
| Trimming.ProofKeptIff | backend/app/diagnosis/context.py:42-48 | whatever calls were made over a dataset, the proof a probe brings back is in the context exactly when the dataset shows the fault and the calls before the probe left fewer than twenty records |
| Agenda.PlanIsRest | backend/app/harness/investigation.py:134-153 | at every head of a scripted run with something to investigate, the plan is the rest of the agenda its bundle sets |
| Agenda.ScriptedFollowsAgenda | backend/app/harness/investigation.py:109-153 | for any budget and tools the calls of a scripted run are at every head the first ones of that agenda: triage, then the preferred tools in order |
| Agreement.LedgerAndReportAgree | backend/app/harness/ledger.py:68-87 | with at most twenty records ledger and report always agree, and every such hypothesis is SUPPORTED, PARTIAL or REJECTED by its probe |
| EndToEnd.DefaultIncident | backend/app/harness/harness.py:83-112 | the setup without a model: the scripted policy and the default tools, for any dataset, budget and data gaps |
| EndToEnd.ScriptedRunCompletesIff | backend/app/harness/harness.py:100-321 | a scripted run with the default tools completes exactly when there is any budget: never blocked at triage, never ended by a raising tool |
| EndToEnd.VerdictFollowsData | backend/app/harness/ledger.py:57-87 | with a budget of eight a cause with a probe is raised exactly when triage localised a stage of its family, and returned SUPPORTED (timeout) or PARTIAL (friction) exactly when the dataset shows the fault, otherwise REJECTED |
| EndToEnd.DefaultRunCompletesIff | backend/app/harness/harness.py:200-289 | for any policy over the default tools, a run completes exactly when there is budget and no admitted call carries filters or change types that cannot be read |
| ProbeReach.ProbeCalledIff | backend/app/harness/investigation.py:109-153 | on complete data a scripted run calls the timeout probe exactly when triage localised an authentication, callback or channel stage, and the friction probe exactly when it localised a friction stage |
| PublishedLabels.ReportFollowsData | backend/app/diagnosis/adapter.py:121-162 | the B2 report has a label with a probe exactly when no data is missing, a localised family looks for it, the dataset shows the fault and fewer than twenty records are drafted before the probe; then with the probe's status |
| PublishedLabels.LedgerAndReportAgreeIff | backend/app/diagnosis/context.py:42-48 | hypothesis and report agree exactly when the dataset does not show the fault, or no data is missing and fewer than twenty records are drafted before the probe |
| Disagreements.SupportedButUnpublished | backend/app/diagnosis/context.py:42-48 | a dataset on which CHANNEL_TIMEOUT is returned SUPPORTED and the published report does not mention it |
| PublishedLabels.WorkflowReportFollowsData | backend/app/diagnosis/orchestrator.py:343-368 | the B0 report has the label exactly when no data is missing and the dataset shows the fault, however long the ledger is |
| PublishedLabels.ModesAgreeIff | backend/app/diagnosis/orchestrator.py:146-189 | B0 and scripted B2 always publish the same total, and disagree on a label exactly when the data is complete, the dataset shows the fault, and the investigation never looks for it or drafts twenty records or more before it does |
| Disagreements.PublishedByOneMode | backend/app/diagnosis/orchestrator.py:146-189 | a dataset on which B0 publishes CHANNEL_TIMEOUT and scripted B2 does not |
| FixedPipeline.Pipeline.Execute | backend/app/tools/base.py:137-157 | one call through policy, tool and ledger, or the end of the workflow |
| FixedPipeline.RunToolPipeline | backend/app/diagnosis/orchestrator.py:326-401 | five calls always, then one breakdown per dimension when a stage is localised; results, ledger and stages returned |
| FixedPipeline.WorkflowCallsExactly | backend/app/diagnosis/orchestrator.py:339-399 | the five fixed calls in their order, then the breakdowns by each dimension exactly if a stage is localised, each with its tool's own answer |
| FixedPipeline.MadeIff | backend/app/tools/base.py:97-109 | a list of calls goes through exactly when it is within budget, repeats nothing and no tool raises |
| FixedPipeline.WorkflowCompletesIff | backend/app/diagnosis/orchestrator.py:386-399 | with the default tools the workflow fails exactly when a stage is localised and the dimensions are more than three, repeated or not whitelisted |
| FixedPipeline.DefaultWorkflowCompletes | backend/app/diagnosis/orchestrator.py:36 | with the default dimensions it never fails |
| FixedPipeline.WorkflowEvidenceIsConserved | backend/app/diagnosis/orchestrator.py:339-401 | its ledger is each call's drafts in call order under distinct codes |
| FixedPipeline.WorkflowTotalsAgree | backend/app/diagnosis/orchestrator.py:343-357 | comparison, ledger, context and report state one total in mode B0 too |
| Persistence.PersistExecutionTrace | backend/app/incidents/service.py:429-486 | the evidence rows stored are each call's group of the ledger, call by call |
| Persistence.TraceStoresLedgerOnce | backend/app/incidents/service.py:429-486 | they are the ledger, record for record in its order, each once and under its own call |
| Persistence.FullyValidIff | backend/app/evaluation/metrics.py:136-152 | evidence validity is 1 exactly when every cited code resolves to a record of a successful call (or there is nothing to check against) |
| Persistence.ValidityExactly | backend/app/evaluation/metrics.py:136-152 | the score is the share of citations, repeats counted, that a successful call stands behind |
| Persistence.RuleReportIsFullyValid | backend/app/evaluation/metrics.py:136-152 | a rule-adapter run whose calls all succeeded scores exactly 1, or nothing when it asks for data |
| Persistence.GovernedRunIsFullyValid | backend/app/evaluation/metrics.py:136-152 | so does every governed run over the default tools, whatever its policy |
| RunLifecycle.Session.UpdateRunStatus | backend/app/incidents/service.py:210-228 | a legal move sets status and time stamps once each; an illegal one changes nothing |
| RunLifecycle.Session.WorkerLoad | backend/app/tasks/diagnosis.py:120-173 | what a worker that picks up a run, fresh or duplicate, does to its rows |
| RunLifecycle.Session.WorkerPersist | backend/app/tasks/diagnosis.py:235-303 | status, events, trace and report commit together or not at all, exactly when the move is legal and the unique constraints hold |
| RunLifecycle.Session.Scan | backend/app/tasks/stale_scan.py:53-83 | exactly the stale active run is failed |
| RunLifecycle.MovesInto | backend/app/incidents/service.py:60-82 | the whole transition table, target by target |
| RunLifecycle.FailureIsRecorded | backend/app/tasks/diagnosis.py:206-225 | over every history a failing worker leaves a QUEUED or RUNNING run FAILED with its finish time and one more run_failed event, and a PENDING or otherwise finished run as it was |
| RunLifecycle.LoadIsRecorded | backend/app/tasks/diagnosis.py:120-173 | over every history, exactly what loading a run does to its rows, with or without its incident |
| RunLifecycle.ApiIsRecorded | backend/app/api/v1/incidents.py:270-312 | over every history, exactly what queueing, attaching to a run and a failed dispatch leave behind |
| RunLifecycle.PublicationIsRecorded | backend/app/tasks/diagnosis.py:235-303 | over every history, a publish commits exactly from RUNNING with distinct calls, and then writes outcome, finish time, report, one execution per call and the events in order |
| RunLifecycle.ScanIsRecorded | backend/app/tasks/stale_scan.py:53-83 | over every history, a scan fails exactly a queued or running run not updated for more than ten minutes, and writes no event |
| RunLifecycle.StartTimeNeverMoves | backend/app/incidents/service.py:210-228 | once set, the start time of a run stays the same over the rest of any history |
| RunLifecycle.StatusAndReportMoveTogether | backend/app/incidents/service.py:60-85 | over any interleaving of API, duplicate workers and scanner, `finished_at` is set exactly in terminal states and SUCCEEDED or NEEDS_DATA exactly with one report of that status |
| RunLifecycle.TerminalAbsorbs | backend/app/incidents/service.py:76-85 | no transaction changes the outcome of a finished run |
| RunLifecycle.OutcomeIsFinal | backend/app/tasks/diagnosis.py:120-303 | once terminal at some point of a history, status, finish time, report and trace stay |
| RunLifecycle.PublishesOnlyWhileRunning | backend/app/tasks/diagnosis.py:235-303 | a publish commits exactly while the run is RUNNING and its call ids are new; otherwise it leaves no trace |
| RunLifecycle.DispatchFailureIsInvisible | backend/app/api/v1/incidents.py:296-312 | DISPATCH_FAILED is never reached and a failed dispatch changes nothing |
| RunLifecycle.WorkerStartsExactly | backend/app/tasks/diagnosis.py:126-138 | a worker executes exactly a queued run or one started ten minutes ago or more, so a job retried sooner does nothing |
| EventLog.EventTable.WriteEvent | backend/app/incidents/service.py:231-267 | one row with the run's next number is appended |
| EventLog.AppendKeepsGapless | backend/app/incidents/service.py:247-267 | every run's numbers stay 1..n without gaps under any interleaving |
| EventLog.OrderedQueryIsLogSuffix | backend/app/api/v1/diagnosis.py:177-185 | the ordered query returns exactly the run's log past the cursor |
| EventLog.Stream.SendRound | backend/app/api/v1/diagnosis.py:177-201 | one round sends that suffix and moves the cursor to its end |
| EventLog.DeliveryIsAPrefix | backend/app/api/v1/diagnosis.py:168-201 | over any appends, polls, losses and reconnects what the client received is a prefix of the log, each event once, in order |
| EventLog.ReconnectCatchesUp | backend/app/api/v1/diagnosis.py:168-201 | from any reachable state one reconnect and poll bring the client level with the log |
| EventLog.StreamEndsExactly | backend/app/api/v1/diagnosis.py:196-207 | a stream ends exactly when the connection is lost or a status check after a sent batch finds the run terminal; only a reconnect opens it again |
| EventLog.ClosedOnlyWhenTerminal | backend/app/api/v1/diagnosis.py:203-207 | over any history a stream that closed by itself belongs to a finished run |
| EventLog.ClosedStreamIsCompleteIff | backend/app/api/v1/diagnosis.py:203-207 | a closed stream sent the whole log exactly when nothing was appended after its last poll |
| EventLog.StreamMayCloseEarly | backend/app/api/v1/diagnosis.py:177-207 | a concrete history in which the stream closes before the last event |
| TraceRail.Index.Link | frontend/components/ledger/trace.tsx:49-54 | both nodes exist and each is the other's neighbour, nothing else changes |
| TraceRail.BuildIndex | frontend/components/ledger/trace.tsx:67-119 | the index holds exactly the edges report and trace call for, both ways, and a node per funnel stage |
| TraceRail.ClaimEdgesExactly | frontend/components/ledger/trace.tsx:67-100 | a claim's neighbours in rows of the trace: each code, the call named on the code's last row, the stage on its first |
| TraceRail.HypothesisEdgesExactly | frontend/components/ledger/trace.tsx:100-119 | a hypothesis' neighbours: the codes for and against it and the first call of the tool it waits for |
| TraceRail.Light | frontend/components/ledger/trace.tsx:141-156 | the search ends, and lights exactly the nodes reachable from the selection |
| TraceRail.LightingIsEquivalence | frontend/components/ledger/trace.tsx:49-54 | on any index so built "A lights B" is reflexive, symmetric and transitive |
| ArtifactStore.SplitUndoesJoin | backend/app/harness/artifact_store.py:53-57 | splitting joined clean segments gives them back |
| ArtifactStore.SanitizeIdempotent | backend/app/harness/artifact_store.py:50-57 | a sanitised key sanitises to itself, for all strings |
| ArtifactStore.SegmentsKeptOneByOne | backend/app/harness/artifact_store.py:53-57 | empty, dot and double-dot segments are dropped wherever they stand, all others are kept in place |
| ArtifactStore.SanitizeFixesExactlySafeKeys | backend/app/harness/artifact_store.py:50-57 | a key is left alone exactly when it is a non-empty path of safe segments |
| ArtifactStore.PathStaysBelowRoot | backend/app/harness/artifact_store.py:138-144 | the resolved path of any accepted key lies strictly below the store's root |
| ArtifactStore.LocalArtifactStore.PutBytes | backend/app/harness/artifact_store.py:146-157 | the bytes are stored under the sanitised key and the reference names key and checksum; a bad key changes nothing |
| ArtifactStore.RefNeverYieldsOtherBytes | backend/app/harness/artifact_store.py:146-167 | whatever is put later, a reference yields its own bytes or is refused, and yields them exactly while its key still holds them |

## Left out

- Floating-point rounding: rates are exact rationals, so a rate within rounding noise of a threshold may fall on the other side in the program.
- SQL, DuckDB and Parquet: per-stage counts, breakdown rows (in the order the tool iterates them, and of any number although the query returns at most twenty) and the scalar readings of the other queries are inputs; a missing dataset file is not modelled.
- The model-backed policy and adapter: replaced by an arbitrary policy and an arbitrary report; prompts, parsing and fallback bookkeeping are absent.
- Concurrency inside a transaction: each database session is one atomic step, although the scanner selects and updates without a row lock; the cancelled status has no writer among the modelled actors.
- The stored input hash of a tool execution is the pair of tool and call id; tools have distinct call ids within a run, so the model keeps the call id only.
- Summaries, explanations, recommended actions, categories, durations, token counts and row counts.
- The artifact and tool-status hooks, which only collect degradation messages, and artifact offloading by the tools.
- Hypothesis fields no modelled code reads: proposed scope, conflicting evidence, alternatives and loss ranges; `start`, which the harness never calls.
- The order and text of validation issues: the model says which issues are raised, with their retryable flag.
- Malformed metrics: a loss is an integer or absent, a stage is a text or absent; the validator's and adapter's behaviour on other types is absent.
- The character budget of evidence summaries in a context, which no report rule reads.
- The null-benefit-id fault, event time stamps, amounts other than the two payable ones, and the random generator itself: draws are inputs.
- MinIO, the file system beyond a map from path to bytes (directory clashes), and SHA-256, of which only injectivity is assumed where a lemma says so.
- The client's event list, which the user interface resets on reconnect; the stream's sixty-second deadline is a disconnect.
- React components, formatting, routing of HTTP requests, settings, health checks, migrations other than the unique constraints.
- The remaining evaluation metrics and aggregates: bounds on ratios.

