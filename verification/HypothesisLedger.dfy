/** The hypothesis ledger: root-cause candidates, what the evidence says about each, and the memory of what
    was ruled out. */
module HypothesisLedger {
  import opened Domain
  import opened EvidenceContract

  /** PROPOSED, INVESTIGATING, SUPPORTED, PARTIAL, REJECTED and NEEDS_DATA. */
  datatype HypothesisStatus = Proposed | Investigating | Supported | PartlySupported | Rejected | Undecided

  predicate Terminal(s: HypothesisStatus) {
    s != Proposed && s != Investigating
  }

  /** Hypotheses are numbered `H-01`, `H-02`, ... in the order they were raised. */
  datatype Hypothesis = Hypothesis(
    id: nat, cause: Label, requiredTool: Option<ToolName>,
    supporting: seq<string>, status: HypothesisStatus, reason: Option<Reason>)

  // ----- Verdicts ------------------------------------------------------------------------------------

  /** Causes with a dedicated evidence type, which an empty probe may therefore rule out. */
  predicate HasConfirmingEvidence(cause: Label) {
    cause == CHANNEL_TIMEOUT || cause == BENEFIT_SELECTION_FRICTION || cause == DATA_QUALITY_ISSUE
  }

  predicate DesignatedProbe(tool: ToolName, cause: Label) {
    match tool
    case InspectPaymentEvents => cause == CHANNEL_TIMEOUT || cause == AUTHENTICATION_FAILURE
        || cause == CALLBACK_FAILURE
    case AnalyzeBenefitGap => cause == BENEFIT_SELECTION_FRICTION
    case GetPaymentFunnel => cause == DATA_QUALITY_ISSUE
    case _ => false
  }

  function FromSupport(s: SupportStatus): HypothesisStatus {
    match s case SUPPORTED => Supported case PARTIAL => PartlySupported case UNKNOWN => Rejected
  }

  /** What the evidence of one call says about a hypothesis; `None` while the question is open. */
  function Evaluate(cause: Label, types: set<EvidenceType>, probeCompleted: bool)
    : Option<(HypothesisStatus, Option<Reason>)>
  {
    var (status, reason) := ClassifySupport(cause, types);
    if status != UNKNOWN then Some((FromSupport(status), None))
    else if !probeCompleted then None
    else if HasConfirmingEvidence(cause) then Some((Rejected, reason))
    else Some((Undecided, Some(NoConfirmingTypeExists)))
  }

  /** A verdict is always terminal, and REJECTED only ever from a completed probe. */
  lemma VerdictIsTerminal(cause: Label, types: set<EvidenceType>, probeCompleted: bool)
    requires Evaluate(cause, types, probeCompleted).Some?
    ensures Terminal(Evaluate(cause, types, probeCompleted).value.0)
    ensures Evaluate(cause, types, probeCompleted).value.0 == Rejected ==>
              probeCompleted && ClassifySupport(cause, types).0 == UNKNOWN
  {
  }

  // ----- The ledger as a value -----------------------------------------------------------------------

  datatype Ledger = Ledger(items: seq<Hypothesis>, counter: nat, rejected: map<Label, Option<Reason>>)

  const EMPTY := Ledger([], 0, map[])

  function Find(items: seq<Hypothesis>, cause: Label): (found: Option<Hypothesis>)
    ensures found.Some? ==> found.value in items && found.value.cause == cause
    ensures found.None? ==> forall h :: h in items ==> h.cause != cause
  {
    if items == [] then None else if items[0].cause == cause then Some(items[0]) else Find(items[1..], cause)
  }

  function Get(items: seq<Hypothesis>, id: nat): (found: Option<Hypothesis>)
    ensures found.Some? ==> found.value in items && found.value.id == id
    ensures found.None? ==> forall h :: h in items ==> h.id != id
  {
    if items == [] then None else if items[0].id == id then Some(items[0]) else Get(items[1..], id)
  }

  /** Re-proposing a rejected explanation with the same tool raises. */
  predicate ProposalRaises(l: Ledger, cause: Label, tool: Option<ToolName>) {
    var existing := Find(l.items, cause);
    existing.Some? && existing.value.status == Rejected && existing.value.requiredTool == tool
  }

  /** Raises a hypothesis unless its cause was already raised. */
  function Propose(l: Ledger, cause: Label, tool: Option<ToolName>): Ledger {
    if Find(l.items, cause).Some? then l
    else Ledger(l.items + [Hypothesis(l.counter + 1, cause, tool, [], Proposed, None)], l.counter + 1, l.rejected)
  }

  function Replace(items: seq<Hypothesis>, id: nat, updated: Hypothesis): (r: seq<Hypothesis>)
    ensures |r| == |items|
    ensures forall k :: 0 <= k < |items| ==> r[k] == if items[k].id == id then updated else items[k]
  {
    seq(|items|, k requires 0 <= k < |items| => if items[k].id == id then updated else items[k])
  }

  function RecordEvidence(l: Ledger, id: nat, codes: seq<string>): Ledger {
    match Get(l.items, id)
    case None => l
    case Some(h) => l.(items := Replace(l.items, id, h.(supporting := h.supporting + codes)))
  }

  function Resolve(l: Ledger, id: nat, status: HypothesisStatus, reason: Option<Reason>): Ledger {
    match Get(l.items, id)
    case None => l
    case Some(h) =>
      Ledger(Replace(l.items, id, h.(status := status, reason := reason)), l.counter,
             if status == Rejected then l.rejected[h.cause := reason] else l.rejected)
  }

  predicate Open(h: Hypothesis) { !Terminal(h.status) }

  predicate AnyOpen(l: Ledger) {
    exists h :: h in l.items && Open(h)
  }

  /** Ids run 1, 2, ...; causes are distinct; the rejected types are exactly the rejected items. */
  ghost predicate Valid(l: Ledger) {
    && l.counter == |l.items|
    && (forall k :: 0 <= k < |l.items| ==> l.items[k].id == k + 1)
    && (forall i, j :: 0 <= i < j < |l.items| ==> l.items[i].cause != l.items[j].cause)
    && (forall c :: c in l.rejected <==> RejectedCause(l.items, c))
  }

  ghost predicate RejectedCause(items: seq<Hypothesis>, c: Label) {
    exists k :: 0 <= k < |items| && items[k].cause == c && items[k].status == Rejected
  }

  lemma {:induction false} GetFindsFirst(items: seq<Hypothesis>, id: nat, k: nat)
    requires k < |items| && items[k].id == id && forall j :: 0 <= j < k ==> items[j].id != id
    ensures Get(items, id) == Some(items[k])
  {
    if k > 0 {
      GetFindsFirst(items[1..], id, k - 1);
    }
  }

  /** In a valid ledger the hypothesis with id `n` is the `n`-th. */
  lemma GetById(l: Ledger, id: nat)
    requires Valid(l)
    ensures Get(l.items, id) == if 1 <= id <= |l.items| then Some(l.items[id - 1]) else None
  {
    if 1 <= id <= |l.items| {
      GetFindsFirst(l.items, id, id - 1);
    }
  }

  /** Replacing the hypothesis with id `n` in a valid ledger changes the `n`-th item only. */
  lemma ReplaceById(l: Ledger, id: nat, updated: Hypothesis)
    requires Valid(l) && 1 <= id <= |l.items|
    ensures Replace(l.items, id, updated) == l.items[id - 1 := updated]
  {
  }

  lemma ProposeKeepsValid(l: Ledger, cause: Label, tool: Option<ToolName>)
    requires Valid(l)
    ensures Valid(Propose(l, cause, tool))
  {
    var l' := Propose(l, cause, tool);
    if l' != l {
      forall c ensures c in l'.rejected <==> RejectedCause(l'.items, c) {
        if RejectedCause(l.items, c) {
          var k :| 0 <= k < |l.items| && l.items[k].cause == c && l.items[k].status == Rejected;
          assert l'.items[k] == l.items[k];
        }
      }
    }
  }

  lemma RecordKeepsValid(l: Ledger, id: nat, codes: seq<string>)
    requires Valid(l)
    ensures Valid(RecordEvidence(l, id, codes))
    ensures SameStanding(l, RecordEvidence(l, id, codes))
  {
    GetById(l, id);
    var l' := RecordEvidence(l, id, codes);
    assert forall k :: 0 <= k < |l.items| ==>
             && l'.items[k].id == l.items[k].id && l'.items[k].cause == l.items[k].cause
             && l'.items[k].status == l.items[k].status;
    forall c ensures RejectedCause(l'.items, c) <==> RejectedCause(l.items, c) {
      if RejectedCause(l.items, c) {
        var k :| 0 <= k < |l.items| && l.items[k].cause == c && l.items[k].status == Rejected;
        assert l'.items[k].status == Rejected;
      }
    }
  }

  lemma ResolveKeepsValid(l: Ledger, id: nat, status: HypothesisStatus, reason: Option<Reason>)
    requires Valid(l) && 1 <= id <= |l.items| && Open(l.items[id - 1])
    ensures Valid(Resolve(l, id, status, reason))
    ensures Resolve(l, id, status, reason).items ==
            l.items[id - 1 := l.items[id - 1].(status := status, reason := reason)]
  {
    GetById(l, id);
    var h := l.items[id - 1];
    ReplaceById(l, id, h.(status := status, reason := reason));
    var l' := Resolve(l, id, status, reason);
    forall c ensures c in l'.rejected <==> RejectedCause(l'.items, c) {
      RejectedAfterUpdate(l.items, id - 1, l'.items[id - 1], c);
    }
  }

  /** `resolve` itself refuses nothing. In a valid ledger it keeps the rejected types exactly the rejected
      items if and only if it does not take a rejection back: the memory of a rejection is never erased. */
  lemma ResolveKeepsValidIff(l: Ledger, id: nat, status: HypothesisStatus, reason: Option<Reason>)
    requires Valid(l) && 1 <= id <= |l.items|
    ensures Valid(Resolve(l, id, status, reason)) <==> (l.items[id - 1].status == Rejected ==> status == Rejected)
  {
    GetById(l, id);
    var h, l' := l.items[id - 1], Resolve(l, id, status, reason);
    ReplaceById(l, id, h.(status := status, reason := reason));
    if h.status == Rejected && status != Rejected {
      RejectionTakenBack(l, l', id);
    } else {
      forall c ensures c in l'.rejected <==> RejectedCause(l'.items, c) {
        RejectionKept(l.items, id - 1, l'.items[id - 1], c);
      }
    }
  }

  lemma RejectionTakenBack(l: Ledger, l': Ledger, id: nat)
    requires Valid(l) && 1 <= id <= |l.items| && l.items[id - 1].status == Rejected
    requires l'.rejected == l.rejected && |l'.items| == |l.items|
    requires forall k :: 0 <= k < |l.items| ==> l'.items[k].cause == l.items[k].cause
    requires l'.items[id - 1].status != Rejected
    ensures !Valid(l')
  {
    var c := l.items[id - 1].cause;
    assert RejectedCause(l.items, c);
    forall k | 0 <= k < |l'.items| && l'.items[k].cause == c ensures k == id - 1 {
      assert l.items[k].cause == l.items[id - 1].cause;
    }
  }

  lemma RejectionKept(items: seq<Hypothesis>, at: nat, updated: Hypothesis, c: Label)
    requires at < |items| && updated.cause == items[at].cause
               && (items[at].status == Rejected ==> updated.status == Rejected)
    ensures RejectedCause(items[at := updated], c) <==>
            RejectedCause(items, c) || (c == updated.cause && updated.status == Rejected)
  {
    var items' := items[at := updated];
    if RejectedCause(items, c) {
      var k :| 0 <= k < |items| && items[k].cause == c && items[k].status == Rejected;
      assert items'[k].cause == c && items'[k].status == Rejected;
    }
    if c == updated.cause && updated.status == Rejected {
      assert items'[at].cause == c;
    }
    if RejectedCause(items', c) {
      var k :| 0 <= k < |items'| && items'[k].cause == c && items'[k].status == Rejected;
      if k != at {
        assert items[k] == items'[k];
      }
    }
  }

  lemma RejectedAfterUpdate(items: seq<Hypothesis>, at: nat, updated: Hypothesis, c: Label)
    requires at < |items| && Open(items[at]) && updated.cause == items[at].cause
    ensures RejectedCause(items[at := updated], c) <==>
              RejectedCause(items, c) || (c == updated.cause && updated.status == Rejected)
  {
    var items' := items[at := updated];
    if RejectedCause(items, c) {
      var k :| 0 <= k < |items| && items[k].cause == c && items[k].status == Rejected;
      assert items'[k] == items[k];
    }
    if c == updated.cause && updated.status == Rejected {
      assert items'[at].cause == c;
    }
  }

  // ----- Absorption -------------------------------------------------------------------------------------

  /** Same hypotheses with the same statuses; only the evidence lists may differ. */
  ghost predicate SameStanding(l: Ledger, l': Ledger) {
    && |l'.items| == |l.items| && l'.rejected == l.rejected
    && forall k :: 0 <= k < |l.items| ==>
         && l'.items[k].id == l.items[k].id && l'.items[k].cause == l.items[k].cause
         && l'.items[k].status == l.items[k].status
  }

  /** The same hypotheses, and whichever was terminal keeps its status. */
  ghost predicate Absorbs(l: Ledger, l': Ledger) {
    && |l'.items| == |l.items|
    && forall k :: 0 <= k < |l.items| ==>
         && l'.items[k].id == l.items[k].id && l'.items[k].cause == l.items[k].cause
         && (Terminal(l.items[k].status) ==> l'.items[k].status == l.items[k].status)
  }

  lemma AbsorbsTransitive(a: Ledger, b: Ledger, c: Ledger)
    requires Absorbs(a, b) && Absorbs(b, c)
    ensures Absorbs(a, c)
  {
    forall k | 0 <= k < |a.items|
      ensures c.items[k].id == a.items[k].id && c.items[k].cause == a.items[k].cause
      ensures Terminal(a.items[k].status) ==> c.items[k].status == a.items[k].status
    {
      assert b.items[k].id == a.items[k].id;
    }
  }

  /** Closing what was never reached: each hypothesis open in `l`, among the first `n`, becomes NEEDS_DATA. */
  function Sweep(l: Ledger, n: nat): Ledger
    requires n <= |l.items|
  {
    if n == 0 then l
    else
      var before := Sweep(l, n - 1);
      if Open(l.items[n - 1]) then Resolve(before, l.items[n - 1].id, Undecided, Some(NeverTested)) else before
  }

  function SweptStatus(l: Ledger, n: nat, k: nat): HypothesisStatus
    requires k < |l.items|
  {
    if k < n && Open(l.items[k]) then Undecided else l.items[k].status
  }

  /** `s` is `l` with the open ones among the first `n` hypotheses closed. */
  ghost predicate SweptTo(l: Ledger, s: Ledger, n: nat) {
    && Valid(s) && Absorbs(l, s) && s.rejected == l.rejected
    && forall k :: 0 <= k < |l.items| ==> s.items[k].status == SweptStatus(l, n, k)
  }

  lemma SweepOne(l: Ledger, before: Ledger, n: nat)
    requires Valid(l) && 0 < n <= |l.items| && SweptTo(l, before, n - 1) && Open(l.items[n - 1])
    ensures SweptTo(l, Resolve(before, n, Undecided, Some(NeverTested)), n)
  {
    assert before.items[n - 1].status == SweptStatus(l, n - 1, n - 1);
    ResolveKeepsValid(before, n, Undecided, Some(NeverTested));
    GetById(before, n);
  }

  lemma SweepNone(l: Ledger, before: Ledger, n: nat)
    requires 0 < n <= |l.items| && SweptTo(l, before, n - 1) && !Open(l.items[n - 1])
    ensures SweptTo(l, before, n)
  {
  }

  lemma {:induction false} SweepSoFar(l: Ledger, n: nat)
    requires Valid(l) && n <= |l.items|
    ensures SweptTo(l, Sweep(l, n), n)
  {
    if n > 0 {
      SweepSoFar(l, n - 1);
      if Open(l.items[n - 1]) {
        SweepOne(l, Sweep(l, n - 1), n);
      } else {
        SweepNone(l, Sweep(l, n - 1), n);
      }
    }
  }

  /** The first `n` of the hypotheses closed if they were open, field by field. */
  ghost predicate ClosedUpTo(items: seq<Hypothesis>, closed: seq<Hypothesis>, n: nat) {
    && |closed| == |items|
    && forall k :: 0 <= k < |items| ==>
         closed[k] == if k < n && Open(items[k]) then items[k].(status := Undecided, reason := Some(NeverTested))
                      else items[k]
  }

  /** What the sweep writes. */
  lemma {:induction false} SweepItems(l: Ledger, n: nat)
    requires Valid(l) && n <= |l.items|
    ensures ClosedUpTo(l.items, Sweep(l, n).items, n)
  {
    if n > 0 {
      SweepItems(l, n - 1);
      CloseLast(l, n);
    }
  }

  lemma CloseLast(l: Ledger, n: nat)
    requires Valid(l) && 0 < n <= |l.items| && ClosedUpTo(l.items, Sweep(l, n - 1).items, n - 1)
    ensures ClosedUpTo(l.items, Sweep(l, n).items, n)
  {
    SweepStaysValid(l, n - 1);
    assert l.items[n - 1].id == n;
    CloseOneMore(l, Sweep(l, n - 1), n);
  }

  lemma SweepStaysValid(l: Ledger, n: nat)
    requires Valid(l) && n <= |l.items|
    ensures Valid(Sweep(l, n))
  {
    SweepSoFar(l, n);
  }

  lemma CloseOneMore(l: Ledger, before: Ledger, n: nat)
    requires 0 < n <= |l.items| && l.items[n - 1].id == n && Valid(before)
    requires ClosedUpTo(l.items, before.items, n - 1)
    ensures Open(l.items[n - 1]) ==> ClosedUpTo(l.items, Resolve(before, n, Undecided, Some(NeverTested)).items, n)
    ensures !Open(l.items[n - 1]) ==> ClosedUpTo(l.items, before.items, n)
  {
    assert before.items[n - 1] == l.items[n - 1];
    if Open(l.items[n - 1]) {
      ResolveKeepsValid(before, n, Undecided, Some(NeverTested));
    }
  }

  /** The sweep ends with no open hypothesis, settles only the open ones, and rejects nothing. */
  lemma SweepClosesAll(l: Ledger)
    requires Valid(l)
    ensures var s := Sweep(l, |l.items|);
            && Valid(s) && Absorbs(l, s) && s.rejected == l.rejected
            && (forall k :: 0 <= k < |l.items| ==>
                  s.items[k].status == if Open(l.items[k]) then Undecided else l.items[k].status)
            && (forall h :: h in s.items ==> Terminal(h.status))
  {
    SweepSoFar(l, |l.items|);
    var s := Sweep(l, |l.items|);
    forall k | 0 <= k < |s.items| ensures Terminal(s.items[k].status) {
      assert s.items[k].status == SweptStatus(l, |l.items|, k);
    }
  }

  // ----- The ledger as the harness holds it ----------------------------------------------------------------

  class HypothesisStore {
    var items: seq<Hypothesis>
    var counter: nat
    var rejectedTypes: map<Label, Option<Reason>>

    function State(): Ledger
      reads this
    {
      Ledger(items, counter, rejectedTypes)
    }

    constructor ()
      ensures State() == EMPTY
    {
      items, counter, rejectedTypes := [], 0, map[];
    }

    method ProposeHypothesis(cause: Label, tool: Option<ToolName>) returns (raised: bool)
      modifies this
      ensures raised <==> ProposalRaises(old(State()), cause, tool)
      ensures State() == Propose(old(State()), cause, tool)
    {
      var existing := Find(items, cause);
      if existing.Some? {
        return existing.value.status == Rejected && existing.value.requiredTool == tool;
      }
      counter := counter + 1;
      items := items + [Hypothesis(counter, cause, tool, [], Proposed, None)];
      raised := false;
    }

    method Attach(id: nat, codes: seq<string>)
      modifies this
      ensures State() == RecordEvidence(old(State()), id, codes)
    {
      var current := Get(items, id);
      if current.Some? {
        items := Replace(items, id, current.value.(supporting := current.value.supporting + codes));
      }
    }

    method Settle(id: nat, status: HypothesisStatus, reason: Option<Reason>)
      requires Terminal(status)
      modifies this
      ensures State() == Resolve(old(State()), id, status, reason)
    {
      var current := Get(items, id);
      if current.Some? {
        items := Replace(items, id, current.value.(status := status, reason := reason));
        if status == Rejected {
          rejectedTypes := rejectedTypes[current.value.cause := reason];
        }
      }
    }

    /** Every hypothesis that is still open is recorded as NEEDS_DATA. */
    method CloseOpen()
      modifies this
      ensures State() == Sweep(old(State()), |old(items)|)
    {
      var snapshot := items;
      for i := 0 to |snapshot|
        invariant State() == Sweep(old(State()), i)
      {
        if Open(snapshot[i]) {
          Settle(snapshot[i].id, Undecided, Some(NeverTested));
        }
      }
    }
  }
}
