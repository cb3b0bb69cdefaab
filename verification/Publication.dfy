/** Publishing a report: the evidence contract applied to it, the retry loop around the adapter, and what
    the validator can still say about the result. */
module Publication {
  import opened Domain
  import opened EvidenceContract

  // ----- Applying the contract ---------------------------------------------------------------------

  /** A claim with the status its evidence supports. */
  function Settled(rc: RootCause, run: RunEvidence): RootCause {
    rc.(status := ResolveSupport(rc.cause, rc.codes, run))
  }

  /** The downgrade (or upgrade) notes of the first `n` claims. */
  function Notes(causes: seq<RootCause>, run: RunEvidence, n: nat): seq<ValidationIssue>
    requires n <= |causes|
  {
    if n == 0 then []
    else
      Notes(causes, run, n - 1) +
      (if Settled(causes[n - 1], run) != causes[n - 1]
       then [ValidationIssue(R14_UNSUPPORTED_STATUS, Some(n - 1), false)] else [])
  }

  function Min(a: int, b: int): int { if a < b then a else b }

  function Max(a: int, b: int): int { if a < b then b else a }

  /** The report as it is published. */
  function Contracted(report: Report, ctx: Context): Report {
    if report.causes == [] then report
    else
      var run := ByCode(ctx.evidence);
      var explained := Min(ExplainableIn(report, ctx), report.total);
      report.(causes := SettledAll(report.causes, run),
              explained := explained,
              unexplained := Max(0, report.total - explained))
  }

  function SettledAll(causes: seq<RootCause>, run: RunEvidence): (settled: seq<RootCause>)
    ensures |settled| == |causes|
    ensures forall i :: 0 <= i < |causes| ==> settled[i] == Settled(causes[i], run)
  {
    seq(|causes|, i requires 0 <= i < |causes| => Settled(causes[i], run))
  }

  function ContractNotes(report: Report, ctx: Context): seq<ValidationIssue> {
    Notes(report.causes, ByCode(ctx.evidence), |report.causes|)
  }

  method ApplyEvidenceContract(report: Report, ctx: Context) returns (published: Report, notes: seq<ValidationIssue>)
    ensures published == Contracted(report, ctx)
    ensures notes == ContractNotes(report, ctx)
  {
    notes := [];
    if report.causes == [] {
      return report, [];
    }
    var run := ByCode(ctx.evidence);
    var causes: seq<RootCause> := [];
    var explainable := 0;
    for i := 0 to |report.causes|
      invariant |causes| == i && forall j :: 0 <= j < i ==> causes[j] == Settled(report.causes[j], run)
      invariant notes == Notes(report.causes, run, i)
      invariant explainable == Explainable(report.causes, run, i)
    {
      var rc := report.causes[i];
      var status := ResolveSupport(rc.cause, rc.codes, run);
      if status != rc.status {
        notes := notes + [ValidationIssue(R14_UNSUPPORTED_STATUS, Some(i), false)];
        causes := causes + [rc.(status := status)];
      } else {
        causes := causes + [rc];
      }
      if status != UNKNOWN {
        explainable := explainable + rc.Loss();
      }
    }
    assert causes == SettledAll(report.causes, run);
    var explained := Min(explainable, report.total);
    published := report.(causes := causes, explained := explained, unexplained := Max(0, report.total - explained));
  }

  // ----- What the contract establishes -----------------------------------------------------------------

  lemma {:induction false} SettlingKeepsExplainable(causes: seq<RootCause>, run: RunEvidence, n: nat)
    requires n <= |causes|
    ensures Explainable(SettledAll(causes, run), run, n) == Explainable(causes, run, n)
  {
    if n > 0 {
      SettlingKeepsExplainable(causes, run, n - 1);
    }
  }

  /** The published report balances exactly, and no UNKNOWN claim accounts for explained loss: what is
      explained is the supported claims' loss, capped by the total. */
  lemma PublishedReportBalances(report: Report, ctx: Context)
    requires report.causes != []
    ensures var p := Contracted(report, ctx);
            && p.explained + p.unexplained == p.total == report.total
            && p.explained <= ExplainableIn(p, ctx) == ExplainableIn(report, ctx)
            && (p.explained < p.total ==> p.explained == ExplainableIn(p, ctx))
  {
    SettlingKeepsExplainable(report.causes, ByCode(ctx.evidence), |report.causes|);
  }

  /** So the rules on balance, unsupported statuses and unknown explanations can no longer fire. */
  lemma PublishedReportPassesLossRules(version: string, report: Report, ctx: Context, x: ValidationIssue)
    requires report.causes != [] && Raised(version, Contracted(report, ctx), ctx, x)
    ensures x.code !in {R6_LOSS_IMBALANCE, R14_UNSUPPORTED_STATUS, R15_UNKNOWN_EXPLAINS_LOSS}
  {
    PublishedReportBalances(report, ctx);
  }

  /** A report without claims is published as it is, so it may keep an imbalance. */
  lemma PublishedImbalanceIff(version: string, report: Report, ctx: Context)
    ensures Raised(version, Contracted(report, ctx), ctx, ValidationIssue(R6_LOSS_IMBALANCE, None, true))
       <==> report.causes == [] && Abs(report.total - (report.explained + report.unexplained)) > ROUNDING_TOLERANCE
  {
    if report.causes != [] {
      PublishedReportBalances(report, ctx);
    }
  }

  /** The loss of the claims that are not marked UNKNOWN. */
  function CarriedLoss(causes: seq<RootCause>): int {
    if causes == [] then 0
    else (if causes[0].status == UNKNOWN then 0 else causes[0].Loss()) + CarriedLoss(causes[1..])
  }

  lemma {:induction false} CarriedLossGrows(causes: seq<RootCause>, rc: RootCause)
    ensures CarriedLoss(causes + [rc]) == CarriedLoss(causes) + (if rc.status == UNKNOWN then 0 else rc.Loss())
  {
    if causes == [] {
      assert causes + [rc] == [rc];
    } else {
      assert (causes + [rc])[1..] == causes[1..] + [rc];
      CarriedLossGrows(causes[1..], rc);
    }
  }

  lemma {:induction false} ExplainableIsCarried(causes: seq<RootCause>, run: RunEvidence, n: nat)
    requires n <= |causes|
    ensures Explainable(causes, run, n) == CarriedLoss(SettledAll(causes, run)[..n])
  {
    if n > 0 {
      var settled := SettledAll(causes, run);
      ExplainableIsCarried(causes, run, n - 1);
      assert settled[..n] == settled[..n - 1] + [settled[n - 1]];
      CarriedLossGrows(settled[..n - 1], settled[n - 1]);
    }
  }

  /** What is published, read off the published claims: each keeps all but its status, which is what its
      evidence supports, and what is explained is the loss of those not marked UNKNOWN, up to the total. */
  lemma PublishedExactly(report: Report, ctx: Context)
    requires report.causes != []
    ensures var p := Contracted(report, ctx);
            && |p.causes| == |report.causes|
            && (forall i :: 0 <= i < |p.causes| ==>
                  p.causes[i] == report.causes[i].(status := SupportOf(ctx.evidence, report.causes[i])))
            && p.explained == (if CarriedLoss(p.causes) <= p.total then CarriedLoss(p.causes) else p.total)
            && p.unexplained == p.total - p.explained
            && p == report.(causes := p.causes, explained := p.explained, unexplained := p.unexplained)
  {
    var run, settled := ByCode(ctx.evidence), SettledAll(report.causes, ByCode(ctx.evidence));
    ExplainableIsCarried(report.causes, run, |report.causes|);
    assert settled[..|settled|] == settled;
  }

  /** A note for each claim whose status the contract changes, and for no other. */
  lemma NotesExactly(report: Report, ctx: Context, x: ValidationIssue)
    ensures x in ContractNotes(report, ctx) <==>
              && x.code == R14_UNSUPPORTED_STATUS && !x.retryable && x.claim.Some? && x.claim.value < |report.causes|
              && report.causes[x.claim.value].status != SupportOf(ctx.evidence, report.causes[x.claim.value])
  {
    NotesUpTo(report.causes, ctx.evidence, |report.causes|, x);
  }

  lemma {:induction false} NotesUpTo(causes: seq<RootCause>, items: seq<Evidence>, n: nat, x: ValidationIssue)
    requires n <= |causes|
    ensures x in Notes(causes, ByCode(items), n) <==>
              && x.code == R14_UNSUPPORTED_STATUS && !x.retryable && x.claim.Some? && x.claim.value < n
              && causes[x.claim.value].status != SupportOf(items, causes[x.claim.value])
  {
    if n > 0 {
      NotesUpTo(causes, items, n - 1, x);
    }
  }

  lemma {:induction false} NoNotesOnceSettled(causes: seq<RootCause>, run: RunEvidence, n: nat)
    requires n <= |causes| && forall i :: 0 <= i < |causes| ==> Settled(causes[i], run) == causes[i]
    ensures Notes(causes, run, n) == []
  {
    if n > 0 {
      NoNotesOnceSettled(causes, run, n - 1);
    }
  }

  /** Applying the contract twice changes nothing and notes nothing. */
  lemma ContractIdempotent(report: Report, ctx: Context)
    ensures Contracted(Contracted(report, ctx), ctx) == Contracted(report, ctx)
    ensures ContractNotes(Contracted(report, ctx), ctx) == []
  {
    if report.causes != [] {
      var run := ByCode(ctx.evidence);
      var settled := SettledAll(report.causes, run);
      assert SettledAll(settled, run) == settled;
      PublishedReportBalances(report, ctx);
      NoNotesOnceSettled(settled, run, |settled|);
    }
  }

  /** A report is a fixed point, with nothing noted, exactly when every claim already has the status its
      evidence supports and (if there are claims) the ledger is what the contract would write. */
  lemma FixedPointIff(report: Report, ctx: Context)
    ensures Contracted(report, ctx) == report <==>
              (report.causes == [] ||
               ((forall rc :: rc in report.causes ==> Settled(rc, ByCode(ctx.evidence)) == rc)
                && report.explained == Min(ExplainableIn(report, ctx), report.total)
                && report.unexplained == Max(0, report.total - report.explained)))
    ensures Contracted(report, ctx) == report ==> ContractNotes(report, ctx) == []
  {
    if report.causes != [] {
      var run := ByCode(ctx.evidence);
      var settled := SettledAll(report.causes, run);
      if forall rc :: rc in report.causes ==> Settled(rc, run) == rc {
        assert settled == report.causes;
      }
      if settled == report.causes {
        NoNotesOnceSettled(report.causes, run, |report.causes|);
        assert forall i :: 0 <= i < |settled| ==> settled[i] == report.causes[i];
      }
    }
  }

  // ----- Refusal -----------------------------------------------------------------------------------------

  predicate Blocking(x: ValidationIssue) {
    !x.retryable && (x.code == R12_SCHEMA_VERSION || x.code == R3_NO_EVIDENCE)
  }

  /** The check of `run_detailed`: publish unless a blocking issue is left. */
  method Publish(version: string, report: Report, ctx: Context)
    returns (published: Report, issues: seq<ValidationIssue>, refused: bool)
    ensures published == Contracted(report, ctx)
    ensures refused <==> Refused(version, report, ctx)
  {
    var notes;
    published, notes := ApplyEvidenceContract(report, ctx);
    NotesNeverBlock(report.causes, ByCode(ctx.evidence), |report.causes|);
    var validated := Validate(version, published, ctx);
    issues := validated + notes;
    refused := exists x :: x in issues && Blocking(x);
  }

  lemma {:induction false} NotesNeverBlock(causes: seq<RootCause>, run: RunEvidence, n: nat)
    requires n <= |causes|
    ensures forall x :: x in Notes(causes, run, n) ==> !Blocking(x)
  {
    if n > 0 {
      NotesNeverBlock(causes, run, n - 1);
    }
  }

  ghost predicate Refused(version: string, report: Report, ctx: Context) {
    exists x :: Raised(version, Contracted(report, ctx), ctx, x) && Blocking(x)
  }

  /** A run is refused exactly when the report was written for another validator version, or when it asks
      for data and yet keeps a claim labelled UNKNOWN that cites no evidence of the run. */
  lemma RefusedIff(version: string, report: Report, ctx: Context)
    ensures Refused(version, report, ctx) <==>
              (report.validatorVersion != version ||
               (report.status == NeedsData &&
                exists rc :: rc in report.causes && rc.cause == UNKNOWN_CAUSE
                    && NoValidCodesIn(rc, ByCode(ctx.evidence))))
  {
    var p, run := Contracted(report, ctx), ByCode(ctx.evidence);
    if report.validatorVersion != version {
      assert Raised(version, p, ctx, ValidationIssue(R12_SCHEMA_VERSION, None, false));
      assert Blocking(ValidationIssue(R12_SCHEMA_VERSION, None, false));
    }
    if report.status == NeedsData {
      forall i | 0 <= i < |report.causes| && report.causes[i].cause == UNKNOWN_CAUSE
          && NoValidCodesIn(report.causes[i], run)
        ensures Refused(version, report, ctx)
      {
        var x := ValidationIssue(R3_NO_EVIDENCE, Some(i), false);
        assert p.causes[i] == Settled(report.causes[i], run);
        assert Raised(version, p, ctx, x) && Blocking(x);
      }
    }
    if Refused(version, report, ctx) {
      var x :| Raised(version, p, ctx, x) && Blocking(x);
      if x.claim.Some? {
        var rc := report.causes[x.claim.value];
        assert p.causes[x.claim.value] == Settled(rc, run);
        NoCodesNoSupport(rc, run);
      }
    }
  }

  /** Without a valid code only the UNKNOWN label is supported. */
  lemma NoCodesNoSupport(rc: RootCause, run: RunEvidence)
    requires NoValidCodesIn(rc, run)
    ensures ResolveSupport(rc.cause, rc.codes, run) != UNKNOWN <==> rc.cause == UNKNOWN_CAUSE
  {
    assert TypesOf(rc.codes, run) == {};
  }

  // ----- The retry loop ------------------------------------------------------------------------------------

  ghost predicate SameEvidence(a: Context, b: Context) {
    a.(feedback := []) == b.(feedback := [])
  }

  function RetryableIssues(issues: seq<ValidationIssue>): (r: seq<ValidationIssue>)
    ensures forall x :: x in r <==> x in issues && x.retryable
  {
    if issues == [] then []
    else (if issues[0].retryable then [issues[0]] else []) + RetryableIssues(issues[1..])
  }

  ghost predicate Clean(version: string, report: Report, ctx: Context) {
    forall x :: Raised(version, report, ctx, x) ==> !x.retryable
  }

  lemma CleanIsQuiet(version: string, report: Report, ctx: Context, i: nat, code: IssueCode)
    requires Clean(version, report, ctx) && i < |report.causes|
    ensures QuietAbout(code, report, ctx, report.causes[i])
  {
    assert !Raised(version, report, ctx, ValidationIssue(code, Some(i), true));
  }

  lemma CleanOnSupport(version: string, report: Report, ctx: Context, i: nat)
    requires Clean(version, report, ctx) && i < |report.causes|
    requires forall c :: c in report.causes[i].codes ==> HasRecord(ctx.evidence, c)
    ensures var rc := report.causes[i];
            && (report.status == Succeeded && rc.status != UNKNOWN ==> rc.codes != [])
            && (rc.codes != [] || rc.status != UNKNOWN ==> SupportOf(ctx.evidence, rc) != UNKNOWN)
            && (rc.confidence == HIGH ==> rc.cause != NORMAL_PAYMENT_FAILURE && !NothingObserved(ctx.evidence))
  {
    forall code ensures QuietAbout(code, report, ctx, report.causes[i]) {
      CleanIsQuiet(version, report, ctx, i, code);
    }
    QuietOnCitations(report, ctx, report.causes[i]);
    QuietOnMismatch(report, ctx, report.causes[i]);
    QuietOnStatus(report, ctx, report.causes[i]);
    QuietOnConfidence(report, ctx, report.causes[i]);
  }

  lemma CleanOnLabel(version: string, report: Report, ctx: Context, i: nat)
    requires Clean(version, report, ctx) && i < |report.causes|
    ensures var rc := report.causes[i];
            && !rc.cause.OtherLabel? && (rc.lost.Some? ==> 0 <= rc.lost.value <= report.total)
            && forall j, k :: 0 <= j < k < |rc.codes| ==> rc.codes[j] != rc.codes[k]
  {
    forall code ensures QuietAbout(code, report, ctx, report.causes[i]) {
      CleanIsQuiet(version, report, ctx, i, code);
    }
    QuietOnLabel(report, ctx, report.causes[i]);
    QuietOnRepeats(report, ctx, report.causes[i]);
  }

  lemma CleanClaimIsSound(version: string, report: Report, ctx: Context, i: nat)
    requires Clean(version, report, ctx) && i < |report.causes|
    requires forall c :: c in report.causes[i].codes ==> HasRecord(ctx.evidence, c)
    ensures SoundClaim(report, ctx, report.causes[i])
  {
    CleanOnSupport(version, report, ctx, i);
    CleanOnLabel(version, report, ctx, i);
  }

  /** A validation finds nothing to retry exactly in a report that is sound claim by claim and as a whole. */
  lemma CleanIff(version: string, report: Report, ctx: Context)
    ensures Clean(version, report, ctx) <==>
              SoundLedger(report, ctx) && forall rc :: rc in report.causes ==> SoundClaim(report, ctx, rc)
  {
    QuietReport(version, report, ctx);
    if Clean(version, report, ctx) {
      forall code ensures QuietOverall(code, version, report, ctx) {
        assert !Raised(version, report, ctx, ValidationIssue(code, None, true));
      }
      forall rc | rc in report.causes ensures SoundClaim(report, ctx, rc) {
        var i :| 0 <= i < |report.causes| && report.causes[i] == rc;
        CleanClaimIsSound(version, report, ctx, i);
      }
    }
    if SoundLedger(report, ctx) && forall rc :: rc in report.causes ==> SoundClaim(report, ctx, rc) {
      forall x | Raised(version, report, ctx, x) ensures !x.retryable {
        match x.claim
        case Some(i) => SoundClaimIsQuiet(report, ctx, report.causes[i], x.code);
        case None => assert QuietOverall(x.code, version, report, ctx);
      }
    }
  }

  /** One round of feedback: the next context is the last one with every retryable issue of the report
      that was written on it. */
  ghost predicate FedBack(version: string, adapter: Context -> Report, a: Context, b: Context) {
    exists added: seq<ValidationIssue> ::
      && added != [] && b == a.(feedback := a.feedback + added)
      && forall x :: x in added <==> x.retryable && Raised(version, adapter(a), a, x)
  }

  /** The validator never looks at the feedback. */
  lemma FeedbackIsIgnored(version: string, report: Report, a: Context, b: Context, x: ValidationIssue)
    requires SameEvidence(a, b)
    ensures Raised(version, report, a, x) <==> Raised(version, report, b, x)
  {
  }

  lemma NextAttempt(version: string, adapter: Context -> Report, ctx: Context, seen: seq<Context>,
                    issues: seq<ValidationIssue>, next: Context)
    requires Attempts(version, adapter, ctx, seen) && RetryableIssues(issues) != []
    requires forall x :: x in issues <==> Raised(version, adapter(seen[|seen| - 1]), seen[|seen| - 1], x)
    requires next == seen[|seen| - 1].(feedback := seen[|seen| - 1].feedback + RetryableIssues(issues))
    ensures Attempts(version, adapter, ctx, seen + [next])
    ensures !Clean(version, adapter(seen[|seen| - 1]), seen[|seen| - 1])
  {
    assert RetryableIssues(issues)[0] in issues;
    assert FedBack(version, adapter, seen[|seen| - 1], next);
  }

  lemma JudgedOnContext(version: string, report: Report, a: Context, b: Context, issues: seq<ValidationIssue>)
    requires SameEvidence(a, b) && forall x :: x in issues <==> Raised(version, report, a, x)
    ensures forall x :: x in issues <==> Raised(version, report, b, x)
    ensures RetryableIssues(issues) == [] ==> Clean(version, report, b)
  {
    forall x ensures x in issues <==> Raised(version, report, b, x) {
      FeedbackIsIgnored(version, report, a, b, x);
    }
    if RetryableIssues(issues) == [] {
      forall x | Raised(version, report, b, x) ensures !x.retryable {
        assert x in issues && x !in RetryableIssues(issues);
      }
    }
  }

  ghost predicate Attempts(version: string, adapter: Context -> Report, ctx: Context, seen: seq<Context>) {
    && seen != [] && seen[0] == ctx
    && forall k :: 0 < k < |seen| ==> FedBack(version, adapter, seen[k - 1], seen[k])
  }

  lemma {:induction false} FeedbackKeepsEvidence(version: string, adapter: Context -> Report, ctx: Context,
                                                 seen: seq<Context>, k: nat)
    requires Attempts(version, adapter, ctx, seen) && k < |seen|
    ensures SameEvidence(seen[k], ctx)
  {
    if k > 0 {
      assert FedBack(version, adapter, seen[k - 1], seen[k]);
      FeedbackKeepsEvidence(version, adapter, ctx, seen, k - 1);
    }
  }

  /** Generate, validate, and generate again with the issues as feedback while something retryable is left
      and attempts remain. The evidence the report is judged on never changes. */
  method GenerateWithRetry(version: string, adapter: Context -> Report, maxRetries: nat, ctx: Context)
    returns (report: Report, issues: seq<ValidationIssue>, generations: nat)
    ensures 1 <= generations <= maxRetries + 1
    ensures exists seen :: |seen| == generations && Attempts(version, adapter, ctx, seen)
              && report == adapter(seen[generations - 1]) && SameEvidence(seen[generations - 1], ctx)
    ensures forall x :: x in issues <==> Raised(version, report, ctx, x)
    ensures Clean(version, report, ctx) || generations == maxRetries + 1
    ensures Clean(version, adapter(ctx), ctx) ==> generations == 1 && report == adapter(ctx)
  {
    var seen := ctx;
    ghost var history := [ctx];
    generations := 1;
    report := adapter(seen);
    issues := Validate(version, report, seen);
    var retryable := RetryableIssues(issues);
    while retryable != [] && generations <= maxRetries
      invariant 1 <= generations <= maxRetries + 1
      invariant |history| == generations && history[generations - 1] == seen
      invariant Attempts(version, adapter, ctx, history)
      invariant report == adapter(seen)
      invariant forall x :: x in issues <==> Raised(version, report, seen, x)
      invariant retryable == RetryableIssues(issues)
      invariant generations == 1 || !Clean(version, adapter(ctx), ctx)
      decreases maxRetries + 1 - generations
    {
      var next := seen.(feedback := seen.feedback + retryable);
      NextAttempt(version, adapter, ctx, history, issues, next);
      history := history + [next];
      seen := next;
      generations := generations + 1;
      report := adapter(seen);
      issues := Validate(version, report, seen);
      retryable := RetryableIssues(issues);
    }
    FeedbackKeepsEvidence(version, adapter, ctx, history, generations - 1);
    JudgedOnContext(version, report, seen, ctx, issues);
  }
}
