/** The tool framework: the call policy, the argument schemas, and the evidence ledger that codes what the
    tools report. */
module Tooling {
  import opened Domain
  import opened Identifiers

  // ----- Calls ---------------------------------------------------------------------------------------

  /** A tool with its arguments. The JSON signature and the hashed fingerprint both determine the call. */
  datatype Call = Call(tool: ToolName, args: Arguments)

  function WithDataset(args: Arguments, dataset: string): Arguments {
    args[DatasetRefArg := JString(dataset)]
  }

  /** The arguments without `dataset_ref`. */
  function Strip(args: Arguments): Arguments {
    args - {DatasetRefArg}
  }

  lemma StripUndoesInjection(args: Arguments, dataset: string)
    requires DatasetRefArg !in args
    ensures Strip(WithDataset(args, dataset)) == args
  {
  }

  /** The fingerprint of a call the policy made: its signature aimed at the incident's dataset. */
  function Aimed(signature: Call, dataset: string): Call {
    Call(signature.tool, WithDataset(signature.args, dataset))
  }

  /** Aiming loses nothing: different signatures have different fingerprints. */
  lemma AimedInjective(a: Call, b: Call, dataset: string)
    requires DatasetRefArg !in a.args && DatasetRefArg !in b.args
    requires Aimed(a, dataset) == Aimed(b, dataset)
    ensures a == b
  {
    assert Strip(WithDataset(a.args, dataset)) == a.args;
    assert Strip(WithDataset(b.args, dataset)) == b.args;
  }

  // ----- Schemas ---------------------------------------------------------------------------------------

  const ALLOWED_DIMENSIONS: seq<string> := ["payment_method", "payment_channel", "region", "currency", "client_version"]

  /** A breakdown of the conversion loss by one dimension. */
  function BreakdownBy(dimension: string): Call {
    Call(BreakdownConversionLoss, map[DimensionArg := JString(dimension)])
  }

  datatype ParamSpec = ObjectParam | ArrayParam | StringEnum(values: seq<string>) | IntRange(lo: int, hi: int)

  function Properties(tool: ToolName): map<ArgKey, ParamSpec> {
    match tool
    case GetPaymentFunnel => map[FiltersArg := ObjectParam]
    case BreakdownConversionLoss => map[DimensionArg := StringEnum(ALLOWED_DIMENSIONS), TopKArg := IntRange(1, 20)]
    case InspectPaymentEvents => map[TopKArg := IntRange(1, 20)]
    case GetConfigChanges => map[ChangeTypesArg := ArrayParam]
    case _ => map[]
  }

  function Required(tool: ToolName): set<ArgKey> {
    if tool == BreakdownConversionLoss then {DimensionArg} else {}
  }

  /** Booleans are not integers here, although Python would let them pass as such. */
  predicate Fits(spec: ParamSpec, value: Json) {
    match spec
    case ObjectParam => value.JObject?
    case ArrayParam => value.JList?
    case StringEnum(values) => value.JString? && value.s in values
    case IntRange(lo, hi) => value.JInt? && lo <= value.i <= hi
  }

  datatype Problem = UnknownTool | MissingArgument(key: ArgKey) | UnknownArgument | BadValue

  /** Arguments a schema accepts: a known tool, every required key, and only known keys with fitting values. */
  predicate Acceptable(tool: ToolName, args: Arguments) {
    && !tool.UnregisteredTool? && Required(tool) <= args.Keys
    && forall k :: k in args ==> k in Properties(tool) && Fits(Properties(tool)[k], args[k])
  }

  function ValidateArguments(tool: ToolName, args: Arguments): (problem: Option<Problem>)
    ensures problem == None <==> Acceptable(tool, args)
  {
    if tool.UnregisteredTool? then Some(UnknownTool)
    else if tool == BreakdownConversionLoss && DimensionArg !in args then Some(MissingArgument(DimensionArg))
    else if exists k :: k in args && k !in Properties(tool) then Some(UnknownArgument)
    else if exists k :: k in args && !Fits(Properties(tool)[k], args[k]) then Some(BadValue)
    else None
  }

  // ----- Budget and policy ---------------------------------------------------------------------------------

  class Budget {
    const maxCalls: int
    var callsUsed: nat

    constructor (maxCalls: int)
      ensures this.maxCalls == maxCalls && callsUsed == 0
    {
      this.maxCalls := maxCalls;
      callsUsed := 0;
    }

    function Remaining(): nat
      reads this
    {
      Left(maxCalls, callsUsed)
    }

    predicate Exhausted()
      reads this
    {
      Remaining() == 0
    }

    method Consume()
      modifies this
      ensures callsUsed == old(callsUsed) + 1
    {
      callsUsed := callsUsed + 1;
    }
  }

  function Left(maxCalls: int, used: nat): nat {
    if maxCalls > used then maxCalls - used else 0
  }

  class ToolPolicy {
    const maxCalls: int
    var callCount: nat
    var seen: set<Call>

    constructor (maxCalls: int)
      ensures this.maxCalls == maxCalls && callCount == 0 && seen == {}
    {
      this.maxCalls := maxCalls;
      callCount, seen := 0, {};
    }

    /** Admits a call at most once and at most `maxCalls` calls in all; every registered tool is read-only. */
    method BeforeCall(call: Call) returns (admitted: bool)
      modifies this
      ensures admitted <==> old(callCount) < maxCalls && call !in old(seen)
      ensures callCount == old(callCount) + (if admitted then 1 else 0)
      ensures seen == old(seen) + (if admitted then {call} else {})
    {
      if callCount >= maxCalls || call in seen {
        return false;
      }
      seen := seen + {call};
      callCount := callCount + 1;
      admitted := true;
    }
  }

  // ----- The evidence ledger ---------------------------------------------------------------------------------

  /** The records of a call's drafts, numbered after the `n` records already in the ledger. */
  function Coded(prefix: string, n: nat, drafts: seq<EvidenceDraft>, tool: ToolName,
                 callId: string): (items: seq<Evidence>)
    ensures |items| == |drafts|
  {
    seq(|drafts|, i requires 0 <= i < |drafts| =>
      Evidence(EvidenceCode(prefix, n + i + 1), drafts[i].evidenceType, drafts[i].stage, drafts[i].lost, tool, callId))
  }

  class EvidenceLedger {
    const prefix: string
    var items: seq<Evidence>
    var counter: nat

    constructor (prefix: string)
      ensures this.prefix == prefix && items == [] && counter == 0
    {
      this.prefix := prefix;
      items, counter := [], 0;
    }

    method Record(draft: EvidenceDraft, tool: ToolName, callId: string) returns (e: Evidence)
      modifies this
      ensures counter == old(counter) + 1
      ensures e == Evidence(EvidenceCode(prefix, counter), draft.evidenceType, draft.stage, draft.lost, tool, callId)
      ensures items == old(items) + [e]
    {
      counter := counter + 1;
      e := Evidence(EvidenceCode(prefix, counter), draft.evidenceType, draft.stage, draft.lost, tool, callId);
      items := items + [e];
    }

    method RecordResult(result: ToolResult) returns (recorded: seq<Evidence>)
      modifies this
      ensures recorded == Coded(prefix, old(counter), result.evidence, result.tool, result.callId)
      ensures items == old(items) + recorded
      ensures counter == old(counter) + |result.evidence|
    {
      recorded := [];
      for i := 0 to |result.evidence|
        invariant |recorded| == i && items == old(items) + recorded && counter == old(counter) + i
        invariant forall j :: 0 <= j < i ==>
                    recorded[j] == Coded(prefix, old(counter), result.evidence, result.tool, result.callId)[j]
      {
        var e := Record(result.evidence[i], result.tool, result.callId);
        recorded := recorded + [e];
      }
    }
  }

  /** The `k`-th record bears the `k`-th code. */
  ghost predicate CodedInOrder(prefix: string, items: seq<Evidence>) {
    forall k :: 0 <= k < |items| ==> items[k].code == EvidenceCode(prefix, k + 1)
  }

  /** Codes issued in order never repeat. */
  lemma LedgerCodesDistinct(prefix: string, items: seq<Evidence>)
    requires CodedInOrder(prefix, items)
    ensures DistinctCodes(items)
  {
    forall i, j | 0 <= i < j < |items| ensures items[i].code != items[j].code {
      if items[i].code == items[j].code {
        EvidenceCodeInjective(prefix, i + 1, j + 1);
      }
    }
  }

  /** What a list of results leaves in the ledger: each call's drafts, in call order. */
  function LedgerOf(prefix: string, results: seq<ToolResult>): (items: seq<Evidence>)
  {
    if results == [] then []
    else
      var init, last := LedgerOf(prefix, results[..|results| - 1]), results[|results| - 1];
      init + Coded(prefix, |init|, last.evidence, last.tool, last.callId)
  }

  lemma LedgerOfAppend(prefix: string, results: seq<ToolResult>, r: ToolResult)
    ensures LedgerOf(prefix, results + [r]) ==
            LedgerOf(prefix, results) + Coded(prefix, |LedgerOf(prefix, results)|, r.evidence, r.tool, r.callId)
  {
    assert (results + [r])[..|results|] == results;
  }

  lemma {:induction false} LedgerIsCodedInOrder(prefix: string, results: seq<ToolResult>)
    ensures CodedInOrder(prefix, LedgerOf(prefix, results))
  {
    if results != [] {
      LedgerIsCodedInOrder(prefix, results[..|results| - 1]);
    }
  }

  /** The records of one call, in ledger order. */
  function OfCall(items: seq<Evidence>, callId: string): seq<Evidence> {
    if items == [] then []
    else
      var init, last := items[..|items| - 1], items[|items| - 1];
      OfCall(init, callId) + (if last.callId == callId then [last] else [])
  }

  lemma {:induction false} OfCallConcat(a: seq<Evidence>, b: seq<Evidence>, id: string)
    ensures OfCall(a + b, id) == OfCall(a, id) + OfCall(b, id)
  {
    if b == [] {
      assert a + b == a;
    } else {
      assert (a + b)[..|a + b| - 1] == a + b[..|b| - 1];
      OfCallConcat(a, b[..|b| - 1], id);
    }
  }

  lemma {:induction false} OfCallUniform(items: seq<Evidence>, callId: string, id: string)
    requires forall e :: e in items ==> e.callId == callId
    ensures OfCall(items, id) == if id == callId then items else []
  {
    if items != [] {
      var init, last := items[..|items| - 1], items[|items| - 1];
      assert last in items;
      assert forall e :: e in init ==> e in items;
      OfCallUniform(init, callId, id);
      assert items == init + [last];
    }
  }

  /** Every record of the ledger was drafted by the call it names. */
  lemma {:induction false} LedgerRecordsComeFromCalls(prefix: string, results: seq<ToolResult>, e: Evidence)
    requires e in LedgerOf(prefix, results)
    ensures exists r :: r in results && e.callId == r.callId && e.tool == r.tool
                        && EvidenceDraft(e.evidenceType, e.stage, e.lost) in r.evidence
  {
    var init, last := results[..|results| - 1], results[|results| - 1];
    var before := LedgerOf(prefix, init);
    if e in before {
      LedgerRecordsComeFromCalls(prefix, init, e);
      var r :| r in init && e.callId == r.callId && e.tool == r.tool
               && EvidenceDraft(e.evidenceType, e.stage, e.lost) in r.evidence;
      assert r in results;
    } else {
      var items := Coded(prefix, |before|, last.evidence, last.tool, last.callId);
      var k :| 0 <= k < |items| && items[k] == e;
      assert last in results && last.evidence[k] in last.evidence;
    }
  }

  /** And every draft is in the ledger. */
  lemma {:induction false} DraftsReachLedger(prefix: string, results: seq<ToolResult>, r: ToolResult, d: EvidenceDraft)
    requires r in results && d in r.evidence
    ensures exists e :: e in LedgerOf(prefix, results) && e.tool == r.tool && e.callId == r.callId
                        && e.evidenceType == d.evidenceType && e.stage == d.stage && e.lost == d.lost
  {
    var init, last := results[..|results| - 1], results[|results| - 1];
    var before := LedgerOf(prefix, init);
    if r in init {
      DraftsReachLedger(prefix, init, r, d);
      var e :| e in before && e.tool == r.tool && e.callId == r.callId
               && e.evidenceType == d.evidenceType && e.stage == d.stage && e.lost == d.lost;
      assert e in LedgerOf(prefix, results);
    } else {
      assert results == init + [last];
      var k :| 0 <= k < |r.evidence| && r.evidence[k] == d;
      var items := Coded(prefix, |before|, last.evidence, last.tool, last.callId);
      assert items[k] in items;
      assert items[k] in LedgerOf(prefix, results);
    }
  }
}
