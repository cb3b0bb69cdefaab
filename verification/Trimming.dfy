/** What the cut of a context keeps: the proof a probe brought back is in the context exactly when fewer than
    twenty records were drafted before it. */
module Trimming {
  import opened Domain
  import opened RuleAdapter
  import opened Tooling
  import opened ContextSelection
  import opened Investigation
  import opened DiagnosticTools
  import opened LossTotals
  import opened Agreement

  // ----- Calls and their answers -------------------------------------------------------------------------

  predicate AnswersCall(src: Source, c: Call, r: ToolResult) {
    r.tool == c.tool && Answer(src, c) == Some(ToolOutput(r.status, r.evidence))
  }

  /** Each result is what the default tools answer to the call at its place. */
  ghost predicate AnswersAll(src: Source, calls: seq<Call>, results: seq<ToolResult>) {
    && |results| == |calls|
    && forall i :: 0 <= i < |results| ==> AnswersCall(src, calls[i], results[i])
  }

  /** An answer holds only what its tool may draft. */
  lemma AnswerIsDraftedBy(src: Source, c: Call, r: ToolResult)
    requires AnswersCall(src, c, r)
    ensures DraftedBy(r)
  {
    AnswerIsTyped(src, c);
  }

  // ----- What the probe shows ------------------------------------------------------------------------------

  /** Whether the dataset shows the fault a probe looks for. */
  predicate ShowsFault(src: Source, p: Probe) {
    if p == TIMEOUT_PROBE then src.events(10).timeouts > 0 && src.events(10).timeoutCodes > 0
    else src.gapShift > GAP_SHIFT_THRESHOLD
  }

  lemma ProbeShowsFault(src: Source, p: Probe, r: ToolResult)
    requires IsProbe(p) && AnswersCall(src, Call(p.tool, map[]), r)
    ensures Drafts(r, p.proof) <==> ShowsFault(src, p)
  {
    if p == TIMEOUT_PROBE {
      var timeout := EvidenceDraft(CHANNEL_TIMEOUT_SEEN, None, None);
      assert ShowsFault(src, p) ==> timeout in r.evidence;
    } else {
      var gap := EvidenceDraft(BENEFIT_GAP_FRICTION, None, None);
      assert ShowsFault(src, p) ==> gap in r.evidence;
    }
  }

  // ----- How many records come first ---------------------------------------------------------------------

  /** The records one call adds to the ledger. */
  function DraftsOf(src: Source, c: Call): nat {
    if Answer(src, c).Some? then |Answer(src, c).value.evidence| else 0
  }

  /** The records a list of calls adds to the ledger. */
  function DraftCount(src: Source, calls: seq<Call>): nat {
    if calls == [] then 0 else DraftCount(src, calls[..|calls| - 1]) + DraftsOf(src, calls[|calls| - 1])
  }

  lemma DraftCountAppend(src: Source, calls: seq<Call>, c: Call)
    ensures DraftCount(src, calls + [c]) == DraftCount(src, calls) + DraftsOf(src, c)
  {
    assert (calls + [c])[..|calls|] == calls;
  }

  lemma {:induction false} LedgerLength(src: Source, prefix: string, calls: seq<Call>, results: seq<ToolResult>)
    requires AnswersAll(src, calls, results)
    ensures |LedgerOf(prefix, results)| == DraftCount(src, calls)
  {
    if calls != [] {
      var n := |calls| - 1;
      assert AnswersCall(src, calls[n], results[n]);
      LedgerLength(src, prefix, calls[..n], results[..n]);
    }
  }

  lemma {:induction false} LedgerGrows(prefix: string, results: seq<ToolResult>, j: nat)
    requires j <= |results|
    ensures LedgerOf(prefix, results[..j]) <= LedgerOf(prefix, results)
  {
    if j == |results| {
      assert results[..j] == results;
    } else {
      var n := |results| - 1;
      LedgerGrows(prefix, results[..n], j);
      assert results[..n][..j] == results[..j];
    }
  }

  /** The probe is the call at place `j`, and no other call is of its tool. */
  ghost predicate ProbedAt(p: Probe, calls: seq<Call>, j: nat) {
    && j < |calls| && calls[j] == Call(p.tool, map[])
    && forall i :: 0 <= i < |calls| && i != j ==> calls[i].tool != p.tool
  }

  lemma NoProofElsewhere(src: Source, p: Probe, calls: seq<Call>, results: seq<ToolResult>, j: nat, i: nat)
    requires IsProbe(p) && AnswersAll(src, calls, results) && ProbedAt(p, calls, j) && i < |calls| && i != j
    ensures !Drafts(results[i], p.proof)
  {
    assert AnswersCall(src, calls[i], results[i]);
    AnswerIsDraftedBy(src, calls[i], results[i]);
    ProducedAreEmitted(results[i]);
    OnlyItsProbe(p, results[i].tool);
  }

  /** Nothing recorded before the probe is its proof. */
  lemma NoProofBefore(src: Source, prefix: string, p: Probe, calls: seq<Call>, results: seq<ToolResult>, j: nat)
    requires IsProbe(p) && AnswersAll(src, calls, results) && ProbedAt(p, calls, j)
    ensures !Has(LedgerOf(prefix, results[..j]), p.proof)
  {
    LedgerHasWhatWasFound(prefix, results[..j], p.proof);
    forall r | r in results[..j] ensures !Drafts(r, p.proof) {
      var i :| 0 <= i < j && results[i] == r;
      NoProofElsewhere(src, p, calls, results, j, i);
    }
  }

  /** The ledger holds the proof exactly when the dataset shows the fault. */
  lemma ProofRecordedIffShown(src: Source, prefix: string, p: Probe, calls: seq<Call>, results: seq<ToolResult>, j: nat)
    requires IsProbe(p) && AnswersAll(src, calls, results) && ProbedAt(p, calls, j)
    ensures Has(LedgerOf(prefix, results), p.proof) <==> ShowsFault(src, p)
  {
    LedgerHasWhatWasFound(prefix, results, p.proof);
    assert AnswersCall(src, calls[j], results[j]) && results[j] in results;
    ProbeShowsFault(src, p, results[j]);
    forall r | r in results && Drafts(r, p.proof) ensures r == results[j] {
      var i :| 0 <= i < |results| && results[i] == r;
      if i != j {
        NoProofElsewhere(src, p, calls, results, j, i);
      }
    }
  }

  /** A probe that shows its fault drafts the proof first. */
  lemma ProofComesFirst(src: Source, p: Probe, r: ToolResult)
    requires IsProbe(p) && AnswersCall(src, Call(p.tool, map[]), r) && ShowsFault(src, p)
    ensures r.evidence != [] && r.evidence[0].evidenceType == p.proof
  {
  }

  /** So it is the first record after those of the calls before. */
  lemma ProofRecordedAt(src: Source, prefix: string, p: Probe, calls: seq<Call>, results: seq<ToolResult>, j: nat)
    requires IsProbe(p) && AnswersAll(src, calls, results) && ProbedAt(p, calls, j) && ShowsFault(src, p)
    ensures DraftCount(src, calls[..j]) < |LedgerOf(prefix, results)|
    ensures LedgerOf(prefix, results)[DraftCount(src, calls[..j])].evidenceType == p.proof
  {
    var before := LedgerOf(prefix, results[..j]);
    assert AnswersAll(src, calls[..j], results[..j]) && AnswersCall(src, calls[j], results[j]);
    LedgerLength(src, prefix, calls[..j], results[..j]);
    ProofComesFirst(src, p, results[j]);
    assert results[..j + 1] == results[..j] + [results[j]];
    LedgerOfAppend(prefix, results[..j], results[j]);
    LedgerGrows(prefix, results, j + 1);
    assert LedgerOf(prefix, results)[|before|] == LedgerOf(prefix, results[..j + 1])[|before|];
  }

  /** What a context keeps of a probe's proof, for any calls over any dataset: it is there exactly when the
      dataset shows the fault and the calls before the probe left fewer than twenty records. */
  lemma ProofKeptIff(src: Source, prefix: string, p: Probe, calls: seq<Call>, results: seq<ToolResult>, j: nat)
    requires IsProbe(p) && AnswersAll(src, calls, results) && ProbedAt(p, calls, j)
    ensures Has(Selected(LedgerOf(prefix, results), MAX_EVIDENCE_ITEMS), p.proof) <==>
            ShowsFault(src, p) && DraftCount(src, calls[..j]) < MAX_EVIDENCE_ITEMS
  {
    var ledger, before := LedgerOf(prefix, results), LedgerOf(prefix, results[..j]);
    var k := Least(MAX_EVIDENCE_ITEMS, |ledger|);
    LedgerIsCodedInOrder(prefix, results);
    ContextGetsFirstTwenty(prefix, ledger);
    assert Selected(ledger, MAX_EVIDENCE_ITEMS) == ledger[..k];
    ProofRecordedIffShown(src, prefix, p, calls, results, j);
    if ShowsFault(src, p) {
      ProofRecordedAt(src, prefix, p, calls, results, j);
      if DraftCount(src, calls[..j]) < MAX_EVIDENCE_ITEMS {
        assert ledger[DraftCount(src, calls[..j])] in ledger[..k];
      } else {
        assert AnswersAll(src, calls[..j], results[..j]);
        LedgerLength(src, prefix, calls[..j], results[..j]);
        LedgerGrows(prefix, results, j);
        assert ledger[..k] == before[..k];
        NoProofBefore(src, prefix, p, calls, results, j);
      }
    }
  }
}
