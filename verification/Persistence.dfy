/** What a finished run stores, and how an evaluation scores its citations. */
module Persistence {
  import opened Domain
  import opened Identifiers
  import opened EvidenceContract
  import opened Publication
  import opened RuleAdapter
  import opened Tooling
  import opened ContextSelection
  import opened Investigation
  import opened DiagnosticTools
  import opened Governance
  import opened LossTotals

  // ----- The stored trace ------------------------------------------------------------------------------

  /** An evidence row and the tool execution row it belongs to, by position. */
  datatype StoredEvidence = StoredEvidence(evidence: Evidence, execution: nat)

  function GroupOf(groups: map<string, seq<Evidence>>, id: string): seq<Evidence> {
    if id in groups then groups[id] else []
  }

  lemma OfCallAppend(items: seq<Evidence>, e: Evidence, id: string)
    ensures OfCall(items + [e], id) == OfCall(items, id) + (if e.callId == id then [e] else [])
  {
    assert (items + [e])[..|items|] == items;
  }

  lemma AddToGroup(groups: map<string, seq<Evidence>>, items: seq<Evidence>, e: Evidence)
    requires forall id: string :: GroupOf(groups, id) == OfCall(items, id)
    ensures var groups' := groups[e.callId := GroupOf(groups, e.callId) + [e]];
            forall id: string :: GroupOf(groups', id) == OfCall(items + [e], id)
  {
    var groups' := groups[e.callId := GroupOf(groups, e.callId) + [e]];
    forall id: string ensures GroupOf(groups', id) == OfCall(items + [e], id) {
      OfCallAppend(items, e, id);
      assert GroupOf(groups, id) == OfCall(items, id);
    }
  }

  /** `evidence_by_call`: the ledger grouped by call id. */
  method GroupByCall(items: seq<Evidence>) returns (groups: map<string, seq<Evidence>>)
    ensures forall id: string :: GroupOf(groups, id) == OfCall(items, id)
  {
    groups := map[];
    for i := 0 to |items|
      invariant forall id: string :: GroupOf(groups, id) == OfCall(items[..i], id)
    {
      assert items[..i + 1] == items[..i] + [items[i]];
      AddToGroup(groups, items[..i], items[i]);
      groups := groups[items[i].callId := GroupOf(groups, items[i].callId) + [items[i]]];
    }
    assert items[..|items|] == items;
  }

  function RowsOf(group: seq<Evidence>, execution: nat): (rows: seq<StoredEvidence>)
    ensures |rows| == |group| && forall i :: 0 <= i < |group| ==> rows[i] == StoredEvidence(group[i], execution)
  {
    seq(|group|, i requires 0 <= i < |group| => StoredEvidence(group[i], execution))
  }

  function Stored(items: seq<Evidence>, results: seq<ToolResult>): seq<StoredEvidence> {
    if results == [] then []
    else
      var init, last := results[..|results| - 1], results[|results| - 1];
      Stored(items, init) + RowsOf(OfCall(items, last.callId), |init|)
  }

  method StoreGroup(group: seq<Evidence>, execution: nat, before: seq<StoredEvidence>)
      returns (rows: seq<StoredEvidence>)
    ensures rows == before + RowsOf(group, execution)
  {
    rows := before;
    for j := 0 to |group|
      invariant rows == before + RowsOf(group[..j], execution)
    {
      rows := rows + [StoredEvidence(group[j], execution)];
    }
    assert group[..|group|] == group;
  }

  method PersistExecutionTrace(items: seq<Evidence>, results: seq<ToolResult>) returns (rows: seq<StoredEvidence>)
    ensures rows == Stored(items, results)
  {
    var groups := GroupByCall(items);
    rows := [];
    for i := 0 to |results|
      invariant rows == Stored(items, results[..i])
    {
      assert results[..i + 1] == results[..i] + [results[i]];
      StoredAppend(items, results[..i], results[i]);
      var group := GroupOf(groups, results[i].callId);
      rows := StoreGroup(group, i, rows);
    }
    assert results[..|results|] == results;
  }

  // ----- Each record is stored once, under its own call ------------------------------------------------------

  ghost predicate Numbered(results: seq<ToolResult>) {
    forall i :: 0 <= i < |results| ==> results[i].callId == CallId(i)
  }

  /** The part of the ledger that one call recorded. */
  function RecordedBy(prefix: string, results: seq<ToolResult>, i: nat): seq<Evidence>
    requires i < |results|
  {
    Coded(prefix, |LedgerOf(prefix, results[..i])|, results[i].evidence, results[i].tool, results[i].callId)
  }

  lemma {:induction false} OfCallOfLedger(prefix: string, results: seq<ToolResult>, i: nat)
    requires Numbered(results)
    ensures OfCall(LedgerOf(prefix, results), CallId(i)) == if i < |results| then RecordedBy(prefix, results, i) else []
  {
    if results != [] {
      var n := |results| - 1;
      var init := results[..n];
      OfCallOfLedger(prefix, init, i);
      OfLastCall(prefix, results, i);
      if i < n {
        RecordedBefore(prefix, results, i);
      }
    }
  }

  lemma RecordedBefore(prefix: string, results: seq<ToolResult>, i: nat)
    requires i < |results| - 1
    ensures RecordedBy(prefix, results[..|results| - 1], i) == RecordedBy(prefix, results, i)
  {
    assert results[..|results| - 1][..i] == results[..i];
  }

  lemma OfLastCall(prefix: string, results: seq<ToolResult>, i: nat)
    requires results != [] && Numbered(results)
    ensures var n := |results| - 1;
            OfCall(LedgerOf(prefix, results), CallId(i)) ==
              OfCall(LedgerOf(prefix, results[..n]), CallId(i))
                  + (if i == n then RecordedBy(prefix, results, n) else [])
  {
    var n := |results| - 1;
    var added := RecordedBy(prefix, results, n);
    OfCallConcat(LedgerOf(prefix, results[..n]), added, CallId(i));
    OfCallUniform(added, CallId(n), CallId(i));
    if i != n {
      CallIdDiffers(i, n);
    }
  }

  lemma CallIdDiffers(i: nat, n: nat)
    requires i != n
    ensures CallId(i) != CallId(n)
  {
    if CallId(i) == CallId(n) {
      CallIdInjective(i, n);
    }
  }

  function EvidenceOf(rows: seq<StoredEvidence>): (items: seq<Evidence>)
    ensures |items| == |rows| && forall i :: 0 <= i < |rows| ==> items[i] == rows[i].evidence
  {
    seq(|rows|, i requires 0 <= i < |rows| => rows[i].evidence)
  }

  ghost predicate UnderOwnCalls(rows: seq<StoredEvidence>, results: seq<ToolResult>) {
    forall k :: 0 <= k < |rows| ==>
      rows[k].execution < |results| && rows[k].evidence.callId == results[rows[k].execution].callId
  }

  lemma EvidenceOfConcat(a: seq<StoredEvidence>, group: seq<Evidence>, execution: nat)
    ensures EvidenceOf(a + RowsOf(group, execution)) == EvidenceOf(a) + group
  {
  }

  lemma LedgerUpTo(prefix: string, results: seq<ToolResult>, n: nat)
    requires 0 < n <= |results|
    ensures LedgerOf(prefix, results[..n]) == LedgerOf(prefix, results[..n - 1]) + RecordedBy(prefix, results, n - 1)
  {
    assert results[..n] == results[..n - 1] + [results[n - 1]];
    LedgerOfAppend(prefix, results[..n - 1], results[n - 1]);
  }

  ghost predicate GroupedRight(prefix: string, results: seq<ToolResult>, ledger: seq<Evidence>) {
    forall i :: 0 <= i < |results| ==> OfCall(ledger, results[i].callId) == RecordedBy(prefix, results, i)
  }

  lemma {:induction false} StoredSoFar(prefix: string, results: seq<ToolResult>, ledger: seq<Evidence>, n: nat)
    requires GroupedRight(prefix, results, ledger) && n <= |results|
    ensures EvidenceOf(Stored(ledger, results[..n])) == LedgerOf(prefix, results[..n])
  {
    if n > 0 {
      var init := results[..n - 1];
      StoredSoFar(prefix, results, ledger, n - 1);
      LedgerUpTo(prefix, results, n);
      assert results[..n] == init + [results[n - 1]];
      StoredAppend(ledger, init, results[n - 1]);
      EvidenceOfConcat(Stored(ledger, init), RecordedBy(prefix, results, n - 1), n - 1);
    }
  }

  lemma StoredAppend(items: seq<Evidence>, results: seq<ToolResult>, r: ToolResult)
    ensures Stored(items, results + [r]) == Stored(items, results) + RowsOf(OfCall(items, r.callId), |results|)
  {
    assert (results + [r])[..|results|] == results;
  }

  lemma {:induction false} OfCallIsOfCall(items: seq<Evidence>, id: string)
    ensures forall e :: e in OfCall(items, id) ==> e.callId == id
  {
    if items != [] {
      OfCallIsOfCall(items[..|items| - 1], id);
    }
  }

  lemma {:induction false} StoredUnderOwnCalls(items: seq<Evidence>, results: seq<ToolResult>)
    ensures UnderOwnCalls(Stored(items, results), results)
  {
    if results != [] {
      var n := |results| - 1;
      StoredUnderOwnCalls(items, results[..n]);
      OfCallIsOfCall(items, results[n].callId);
    }
  }

  /** Persistence stores the ledger, record for record in its order, each record once and under the row of
      the call that produced it. */
  lemma TraceStoresLedgerOnce(prefix: string, results: seq<ToolResult>)
    requires Numbered(results)
    ensures var rows := Stored(LedgerOf(prefix, results), results);
            && EvidenceOf(rows) == LedgerOf(prefix, results) && DistinctCodes(EvidenceOf(rows))
            && UnderOwnCalls(rows, results)
  {
    forall i | 0 <= i < |results|
      ensures OfCall(LedgerOf(prefix, results), results[i].callId) == RecordedBy(prefix, results, i)
    {
      OfCallOfLedger(prefix, results, i);
    }
    StoredSoFar(prefix, results, LedgerOf(prefix, results), |results|);
    StoredUnderOwnCalls(LedgerOf(prefix, results), results);
    assert results[..|results|] == results;
    LedgerIsCodedInOrder(prefix, results);
    LedgerCodesDistinct(prefix, LedgerOf(prefix, results));
  }

  // ----- Evidence validity -----------------------------------------------------------------------------------------

  function CodesCited(causes: seq<RootCause>): seq<string> {
    if causes == [] then [] else CodesCited(causes[..|causes| - 1]) + causes[|causes| - 1].codes
  }

  function Successful(results: seq<ToolResult>): set<string> {
    set r | r in results && r.status == Success :: r.callId
  }

  /** A code of this run whose call succeeded. */
  predicate Citable(run: RunEvidence, calls: set<string>, code: string) {
    code in run && run[code].callId in calls
  }

  function CitableCount(cited: seq<string>, run: RunEvidence, calls: set<string>): (n: nat)
    ensures n <= |cited|
  {
    if cited == [] then 0
    else CitableCount(cited[1..], run, calls) + (if Citable(run, calls, cited[0]) then 1 else 0)
  }

  predicate AllCitable(cited: seq<string>, run: RunEvidence, calls: set<string>) {
    forall c :: c in cited ==> Citable(run, calls, c)
  }

  lemma {:induction false} AllCountedIff(cited: seq<string>, run: RunEvidence, calls: set<string>)
    ensures CitableCount(cited, run, calls) == |cited| <==> AllCitable(cited, run, calls)
  {
    if cited != [] {
      AllCountedIff(cited[1..], run, calls);
      assert AllCitable(cited, run, calls) <==> Citable(run, calls, cited[0]) && AllCitable(cited[1..], run, calls);
    }
  }

  function Share(cited: seq<string>, run: RunEvidence, calls: set<string>): real
    requires cited != []
  {
    CitableCount(cited, run, calls) as real / |cited| as real
  }

  lemma ShareIsOneIff(cited: seq<string>, run: RunEvidence, calls: set<string>)
    requires cited != []
    ensures Share(cited, run, calls) == 1.0 <==> AllCitable(cited, run, calls)
  {
    AllCountedIff(cited, run, calls);
    RatioIsOneIff(CitableCount(cited, run, calls) as real, |cited| as real);
  }

  lemma RatioIsOneIff(n: real, d: real)
    requires d > 0.0
    ensures n / d == 1.0 <==> n == d
  {
    assert n == (n / d) * d;
  }

  /** The share of cited codes the run can stand behind; no score for a report that asks for data. */
  function EvidenceValidity(report: Report, items: seq<Evidence>, results: seq<ToolResult>): Option<real> {
    if report.status == NeedsData then None
    else
      var cited, calls := CodesCited(report.causes), Successful(results);
      if cited == [] then Some(1.0)
      else if items != [] && calls != {} then Some(Share(cited, ByCode(items), calls))
      else Some(1.0)
  }

  /** A report is fully valid exactly when every code it cites resolves to a record of a successful call, or
      when there was no ledger or no successful call to check against. */
  lemma FullyValidIff(report: Report, items: seq<Evidence>, results: seq<ToolResult>)
    requires report.status == Succeeded
    ensures EvidenceValidity(report, items, results) == Some(1.0) <==>
              (items == [] || Successful(results) == {}
               || AllCitable(CodesCited(report.causes), ByCode(items), Successful(results)))
  {
    var cited := CodesCited(report.causes);
    if cited != [] {
      ShareIsOneIff(cited, ByCode(items), Successful(results));
    }
  }

  /** The last record of a code was made by a successful call. */
  predicate Stands(items: seq<Evidence>, results: seq<ToolResult>, code: string) {
    exists i, k :: 0 <= i < |items| && 0 <= k < |results| && BackedBy(items, results, code, i, k)
  }

  predicate BackedBy(items: seq<Evidence>, results: seq<ToolResult>, code: string, i: nat, k: nat)
    requires i < |items| && k < |results|
  {
    && items[i].code == code && (forall j :: i < j < |items| ==> items[j].code != code)
    && results[k].status == Success && results[k].callId == items[i].callId
  }

  lemma CitableIsStanding(items: seq<Evidence>, results: seq<ToolResult>, code: string)
    ensures Citable(ByCode(items), Successful(results), code) <==> Stands(items, results, code)
  {
    if Citable(ByCode(items), Successful(results), code) {
      var i := LastOf(items, code);
      ByCodeIsLast(items, i);
      var r :| r in results && r.status == Success && r.callId == items[i].callId;
      var k :| 0 <= k < |results| && results[k] == r;
      assert BackedBy(items, results, code, i, k);
    }
    forall i, k | 0 <= i < |items| && 0 <= k < |results| && BackedBy(items, results, code, i, k)
      ensures Citable(ByCode(items), Successful(results), code)
    {
      ByCodeIsLast(items, i);
      assert results[k] in results;
    }
  }

  function StandingAt(cited: seq<string>, items: seq<Evidence>, results: seq<ToolResult>, from: nat): set<nat> {
    set i: nat | from <= i < |cited| && Stands(items, results, cited[i])
  }

  lemma {:induction false} CountIsStanding(cited: seq<string>, items: seq<Evidence>, results: seq<ToolResult>,
                                           from: nat)
    requires from <= |cited|
    ensures CitableCount(cited[from..], ByCode(items), Successful(results)) == |StandingAt(cited, items, results, from)|
    decreases |cited| - from
  {
    var here := StandingAt(cited, items, results, from);
    if from == |cited| {
      assert here == {};
    } else {
      CountIsStanding(cited, items, results, from + 1);
      CitableIsStanding(items, results, cited[from]);
      assert cited[from..][1..] == cited[from + 1..];
      var later := StandingAt(cited, items, results, from + 1);
      assert here == later + (if Stands(items, results, cited[from]) then {from} else {});
    }
  }

  /** The score is the share of citations, repeats counted, that a successful call stands behind. */
  lemma ValidityExactly(report: Report, items: seq<Evidence>, results: seq<ToolResult>)
    requires report.status == Succeeded && items != [] && CodesCited(report.causes) != []
    requires exists r :: r in results && r.status == Success
    ensures var cited := CodesCited(report.causes);
            EvidenceValidity(report, items, results) ==
              Some(|StandingAt(cited, items, results, 0)| as real / |cited| as real)
  {
    var cited := CodesCited(report.causes);
    CountIsStanding(cited, items, results, 0);
    assert cited[0..] == cited;
    var r :| r in results && r.status == Success;
    assert r.callId in Successful(results);
  }

  lemma {:induction false} CitedByAClaim(causes: seq<RootCause>, c: string)
    requires c in CodesCited(causes)
    ensures exists rc :: rc in causes && c in rc.codes
  {
    var init, last := causes[..|causes| - 1], causes[|causes| - 1];
    if c in CodesCited(init) {
      CitedByAClaim(init, c);
      var rc :| rc in init && c in rc.codes;
      assert rc in causes;
    } else {
      assert last in causes;
    }
  }

  /** The published rule report cites only codes of its context. */
  lemma RuleReportCitesContext(version: string, ctx: Context, c: string)
    requires DistinctCodes(ctx.evidence)
    requires c in CodesCited(Contracted(RuleReport(version, ctx), ctx).causes)
    ensures exists e :: e in ctx.evidence && e.code == c
  {
    RuleReportIsFixedPoint(version, ctx);
    CitedByAClaim(RuleReport(version, ctx).causes, c);
    var rc :| rc in RuleReport(version, ctx).causes && c in rc.codes;
    ClaimCitesRun(ctx.evidence, LossOfType(ctx.evidence, FUNNEL_STAGE_DEGRADATION), rc);
  }

  /** A rule-adapter run whose calls all succeeded scores evidence validity exactly 1, whatever the size of
      its ledger. */
  lemma RuleReportIsFullyValid(prefix: string, results: seq<ToolResult>, missingData: seq<string>, ctx: Context,
                               version: string)
    requires forall r :: r in results ==> r.status == Success
    requires BuiltFrom(ctx, LedgerOf(prefix, results), missingData)
    ensures EvidenceValidity(Contracted(RuleReport(version, ctx), ctx), LedgerOf(prefix, results), results) ==
              (if missingData == [] then Some(1.0) else None)
  {
    var ledger, p := LedgerOf(prefix, results), Contracted(RuleReport(version, ctx), ctx);
    LedgerIsCodedInOrder(prefix, results);
    LedgerCodesDistinct(prefix, ledger);
    ContextGetsFirstTwenty(prefix, ledger);
    RuleReportIsFixedPoint(version, ctx);
    if missingData == [] {
      forall c | c in CodesCited(p.causes) ensures Citable(ByCode(ledger), Successful(results), c) {
        RuleReportCitesContext(version, ctx, c);
        var e :| e in ctx.evidence && e.code == c;
        CitedRecordIsCitable(prefix, results, e);
      }
      FullyValidIff(p, ledger, results);
    }
  }

  lemma CitedRecordIsCitable(prefix: string, results: seq<ToolResult>, e: Evidence)
    requires e in LedgerOf(prefix, results) && DistinctCodes(LedgerOf(prefix, results))
    requires forall r :: r in results ==> r.status == Success
    ensures Citable(ByCode(LedgerOf(prefix, results)), Successful(results), e.code)
  {
    ByCodeOfDistinct(LedgerOf(prefix, results), e);
    LedgerRecordsComeFromCalls(prefix, results, e);
  }

  /** So does every governed run over the default tools, whatever its policy: what it stores is its ledger,
      once, and everything its report cites can be stood behind. */
  lemma GovernedRunIsFullyValid(inc: Incident, src: Source, ctx: Context, version: string)
    requires Reads(inc, src) && Run(inc).Done?
    requires BuiltFrom(ctx, Run(inc).result.evidence, inc.missingData)
    ensures var r := Run(inc).result;
            && EvidenceOf(Stored(r.evidence, r.results)) == r.evidence
            && UnderOwnCalls(Stored(r.evidence, r.results), r.results)
            && EvidenceValidity(Contracted(RuleReport(version, ctx), ctx), r.evidence, r.results) ==
                 (if inc.missingData == [] then Some(1.0) else None)
  {
    var n := RunEnds(inc);
    DefaultResults(inc, src, n);
    ReturnedEvidenceIsConserved(inc);
    TraceStoresLedgerOnce(inc.prefix, Run(inc).result.results);
    RuleReportIsFullyValid(inc.prefix, Run(inc).result.results, inc.missingData, ctx, version);
  }
}
