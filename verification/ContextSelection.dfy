/** What the printed identifiers are sorted by, and what the sorting restores: the evidence selected for a
    context, and the tool calls of a stored trace. */
module ContextSelection {
  import opened Domain
  import opened Identifiers
  import opened Tooling

  const MAX_EVIDENCE_ITEMS: nat := 20

  function CodeLeq(): (Evidence, Evidence) -> bool {
    (a: Evidence, b: Evidence) => TextLeq(a.code, b.code)
  }

  // ----- Sorting by code ---------------------------------------------------------------------------

  /** `e` into a sorted list, before its equals. */
  function Insert(e: Evidence, sorted: seq<Evidence>): (r: seq<Evidence>)
    ensures multiset(r) == multiset{e} + multiset(sorted)
  {
    if sorted == [] || TextLeq(e.code, sorted[0].code) then [e] + sorted
    else
      assert sorted == [sorted[0]] + sorted[1..];
      [sorted[0]] + Insert(e, sorted[1..])
  }

  lemma ConsSorted<T(!new)>(leq: (T, T) -> bool, x: T, rest: seq<T>)
    requires SortedBy(leq, rest) && forall y :: y in rest ==> leq(x, y)
    ensures SortedBy(leq, [x] + rest)
  {
  }

  lemma TailSorted<T(!new)>(leq: (T, T) -> bool, s: seq<T>)
    requires SortedBy(leq, s) && s != []
    ensures SortedBy(leq, s[1..]) && forall y :: y in s[1..] ==> leq(s[0], y)
  {
  }

  lemma InsertedItems(e: Evidence, sorted: seq<Evidence>)
    ensures forall x :: x in Insert(e, sorted) ==> x == e || x in sorted
  {
    forall x | x in Insert(e, sorted) ensures x == e || x in sorted {
      assert x in multiset(Insert(e, sorted));
    }
  }

  lemma {:induction false} InsertSorted(e: Evidence, sorted: seq<Evidence>)
    requires SortedBy(CodeLeq(), sorted)
    ensures SortedBy(CodeLeq(), Insert(e, sorted))
  {
    var leq := CodeLeq();
    if sorted == [] {
      ConsSorted(leq, e, sorted);
    } else {
      TailSorted(leq, sorted);
      var first, tail := sorted[0], sorted[1..];
      if leq(e, first) {
        forall y | y in sorted ensures leq(e, y) {
          if y != first {
            assert y in tail;
            TextLeqTransitive(e.code, first.code, y.code);
          }
        }
        ConsSorted(leq, e, sorted);
      } else {
        InsertSorted(e, tail);
        InsertedItems(e, tail);
        TextLeqTotal(e.code, first.code);
        ConsSorted(leq, first, Insert(e, tail));
      }
    }
  }

  function SortByCode(items: seq<Evidence>): (r: seq<Evidence>)
    ensures multiset(r) == multiset(items) && |r| == |items|
  {
    if items == [] then []
    else
      assert items == [items[0]] + items[1..];
      var r := Insert(items[0], SortByCode(items[1..]));
      assert |multiset(r)| == |r| && |multiset(items)| == |items|;
      r
  }

  lemma {:induction false} SortByCodeSorts(items: seq<Evidence>)
    ensures SortedBy(CodeLeq(), SortByCode(items))
  {
    if items != [] {
      SortByCodeSorts(items[1..]);
      InsertSorted(items[0], SortByCode(items[1..]));
    }
  }

  // ----- The selection of a context --------------------------------------------------------------------

  function Least(a: nat, b: nat): nat { if a < b then a else b }

  /** The evidence of a context: the ledger by code, cut to `maxItems`. */
  function Selected(ledger: seq<Evidence>, maxItems: nat): seq<Evidence> {
    SortByCode(ledger)[..Least(maxItems, |ledger|)]
  }

  lemma CodesCompareByNumber(prefix: string, n: nat, m: nat)
    ensures TextLeq(EvidenceCode(prefix, n), EvidenceCode(prefix, m)) <==> TextLeq(Padded3(n), Padded3(m))
  {
    TextLeqCommonStem(CodeStem(prefix), Padded3(n), Padded3(m));
  }

  /** Each of the first `k` records of a ledger sorts before every later one, as long as the ledger is short
      or `k` is at most a hundred. */
  lemma EarlyCodesPrecede(prefix: string, ledger: seq<Evidence>, k: nat)
    requires CodedInOrder(prefix, ledger) && k <= |ledger|
    requires |ledger| < 1000 || k <= 100
    ensures PrefixPrecedes(CodeLeq(), ledger, k)
  {
    forall i, j | 0 <= i < k && i < j < |ledger| ensures !CodeLeq()(ledger[j], ledger[i]) {
      CodesCompareByNumber(prefix, j + 1, i + 1);
      if i + 1 <= 100 {
        FirstHundredSortFirst(i + 1, j + 1);
      } else {
        ThreeDigitOrder(i + 1, j + 1);
      }
    }
  }

  /** Sorting the zero-padded codes as text and cutting at `maxItems` yields the first records issued exactly
      while the ledger holds fewer than a thousand records or the cut is at most a hundred. */
  lemma SelectionIsFirstIssuedIff(prefix: string, ledger: seq<Evidence>, maxItems: nat)
    requires CodedInOrder(prefix, ledger)
    ensures Selected(ledger, maxItems) == ledger[..Least(maxItems, |ledger|)] <==>
            (|ledger| < 1000 || Least(maxItems, |ledger|) <= 100)
  {
    var k, sorted := Least(maxItems, |ledger|), SortByCode(ledger);
    SortByCodeSorts(ledger);
    if |ledger| < 1000 || k <= 100 {
      EarlyCodesPrecede(prefix, ledger, k);
      SortedPermutationKeepsPrefix(CodeLeq(), ledger, sorted, k);
    } else if sorted[..k] == ledger[..k] {
      LateCodeOutOfPlace(prefix, ledger, sorted, k);
    }
  }

  /** The thousandth record sorts before the hundred-and-first, so no sorted order starts like the ledger. */
  lemma LateCodeOutOfPlace(prefix: string, ledger: seq<Evidence>, sorted: seq<Evidence>, k: nat)
    requires CodedInOrder(prefix, ledger) && 1000 <= |ledger| && 100 < k <= |ledger|
    requires multiset(sorted) == multiset(ledger) && SortedBy(CodeLeq(), sorted) && |sorted| == |ledger|
    ensures sorted[..k] != ledger[..k]
  {
    if sorted[..k] == ledger[..k] {
      ThousandJumpsTheQueue(101);
      CodesCompareByNumber(prefix, 101, 1000);
      assert sorted[100] == sorted[..k][100] == ledger[100];
      assert ledger[999] in multiset(sorted);
      var at :| 0 <= at < |sorted| && sorted[at] == ledger[999];
      if at < 100 {
        assert sorted[at] == sorted[..k][at] == ledger[at];
        EvidenceCodeInjective(prefix, at + 1, 1000);
      } else if at == 100 {
        EvidenceCodeInjective(prefix, 101, 1000);
      }
    }
  }

  /** So a context always gets the first twenty records issued, for any ledger size. */
  lemma ContextGetsFirstTwenty(prefix: string, ledger: seq<Evidence>)
    requires CodedInOrder(prefix, ledger)
    ensures Selected(ledger, MAX_EVIDENCE_ITEMS) == ledger[..Least(MAX_EVIDENCE_ITEMS, |ledger|)]
    ensures |ledger| <= MAX_EVIDENCE_ITEMS ==> Selected(ledger, MAX_EVIDENCE_ITEMS) == ledger
  {
    SelectionIsFirstIssuedIff(prefix, ledger, MAX_EVIDENCE_ITEMS);
    assert |ledger| <= MAX_EVIDENCE_ITEMS ==> ledger[..|ledger|] == ledger;
  }

  // ----- The order of a stored trace ---------------------------------------------------------------------

  /** `_tool_execution_order`: by call number, then by call id as text. */
  predicate ExecutedBefore(a: string, b: string) {
    ExecutionOrderKey(a) < ExecutionOrderKey(b)
    || (ExecutionOrderKey(a) == ExecutionOrderKey(b) && TextLeq(a, b))
  }

  ghost predicate NumberedCalls(callIds: seq<string>) {
    forall i :: 0 <= i < |callIds| ==> callIds[i] == CallId(i)
  }

  /** Sorting the call ids of a run by that key, from any permutation and for any number of calls, restores
      the order in which the calls ran. */
  lemma TraceOrderRestored(callIds: seq<string>, sorted: seq<string>)
    requires NumberedCalls(callIds)
    requires multiset(sorted) == multiset(callIds) && SortedBy((a, b) => ExecutedBefore(a, b), sorted)
    ensures sorted == callIds
  {
    var leq := (a, b) => ExecutedBefore(a, b);
    forall i, j | 0 <= i < |callIds| && i < j < |callIds| ensures !leq(callIds[j], callIds[i]) {
      CallIdRoundTrip(i);
      CallIdRoundTrip(j);
    }
    SortedPermutationKeepsPrefix(leq, callIds, sorted, |callIds|);
    assert sorted[..|sorted|] == sorted && callIds[..|callIds|] == callIds;
  }
}
