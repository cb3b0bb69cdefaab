/** Printed identifiers: evidence codes `EV-001`, `EV-<prefix>-001`, call ids `c0`, `c1`, ..., the
    order Python sorts them in, and what that order is worth. */
module Identifiers {

  // ----- Decimal printing ------------------------------------------------------------------

  function DigitChar(d: nat): (c: char)
    requires d < 10
    ensures '0' <= c <= '9' && c as int == '0' as int + d
  {
    (('0' as int) + d) as char
  }

  predicate IsDigit(c: char) { '0' <= c <= '9' }

  /** `str(n)` */
  function Decimal(n: nat): (s: string)
    ensures |s| > 0
    ensures forall i :: 0 <= i < |s| ==> IsDigit(s[i])
  {
    if n < 10 then [DigitChar(n)] else Decimal(n / 10) + [DigitChar(n % 10)]
  }

  /** `f"{n:03d}"` */
  function Padded3(n: nat): (s: string)
    ensures |s| >= 3
    ensures forall i :: 0 <= i < |s| ==> IsDigit(s[i])
  {
    var s := Decimal(n);
    if |s| == 1 then "00" + s else if |s| == 2 then "0" + s else s
  }

  /** `int(s)` on a string of digits; 0 on the empty string. */
  function ParseInt(s: string): nat
    requires forall i :: 0 <= i < |s| ==> IsDigit(s[i])
  {
    if s == [] then 0
    else
      assert IsDigit(s[|s| - 1]);
      10 * ParseInt(s[..|s| - 1]) + (s[|s| - 1] as int - '0' as int)
  }

  lemma {:induction false} ParseDecimal(n: nat)
    ensures ParseInt(Decimal(n)) == n
  {
    var s := Decimal(n);
    if n < 10 {
      assert s[..|s| - 1] == [];
    } else {
      assert s[..|s| - 1] == Decimal(n / 10);
      ParseDecimal(n / 10);
    }
  }

  lemma {:induction false} ParseLeadingZero(s: string)
    requires forall i :: 0 <= i < |s| ==> IsDigit(s[i])
    ensures ParseInt("0" + s) == ParseInt(s)
  {
    if s == [] {
      assert ("0" + s)[..0] == [];
    } else {
      assert ("0" + s)[..|s|] == "0" + s[..|s| - 1];
      ParseLeadingZero(s[..|s| - 1]);
    }
  }

  lemma ParsePadded3(n: nat)
    ensures ParseInt(Padded3(n)) == n
  {
    var s := Decimal(n);
    ParseDecimal(n);
    if |s| == 1 {
      assert "00" + s == "0" + ("0" + s);
      ParseLeadingZero(s);
      ParseLeadingZero("0" + s);
    } else if |s| == 2 {
      ParseLeadingZero(s);
    }
  }

  // ----- The codes ---------------------------------------------------------------------------

  /** `EV-{prefix}-{n:03d}`, or `EV-{n:03d}` without a prefix. */
  function EvidenceCode(prefix: string, n: nat): string {
    CodeStem(prefix) + Padded3(n)
  }

  function CodeStem(prefix: string): string {
    if prefix == "" then "EV-" else "EV-" + prefix + "-"
  }

  lemma EvidenceCodeInjective(prefix: string, n: nat, m: nat)
    requires EvidenceCode(prefix, n) == EvidenceCode(prefix, m)
    ensures n == m
  {
    var stem := CodeStem(prefix);
    assert EvidenceCode(prefix, n)[|stem|..] == Padded3(n);
    assert EvidenceCode(prefix, m)[|stem|..] == Padded3(m);
    ParsePadded3(n);
    ParsePadded3(m);
  }

  /** `f"c{n}"` */
  function CallId(n: nat): string {
    "c" + Decimal(n)
  }

  /** The digits of a string, in order. */
  function DigitsOf(s: string): (d: string)
    ensures forall i :: 0 <= i < |d| ==> IsDigit(d[i])
  {
    if s == [] then []
    else (if IsDigit(s[0]) then [s[0]] else []) + DigitsOf(s[1..])
  }

  lemma {:induction false} DigitsOfDigits(s: string)
    requires forall i :: 0 <= i < |s| ==> IsDigit(s[i])
    ensures DigitsOf(s) == s
  {
    if s != [] {
      DigitsOfDigits(s[1..]);
      assert s == [s[0]] + s[1..];
    }
  }

  /** The numeric part of `_tool_execution_order`: ids without a digit sort after a million. */
  function ExecutionOrderKey(callId: string): nat {
    var digits := DigitsOf(callId);
    if digits == [] then 1_000_000 else ParseInt(digits)
  }

  /** Reading the digits of a printed call id gives the call number back. */
  lemma CallIdRoundTrip(n: nat)
    ensures ExecutionOrderKey(CallId(n)) == n
  {
    var s := CallId(n);
    assert s[0] == 'c' && s[1..] == Decimal(n);
    DigitsOfDigits(Decimal(n));
    assert !IsDigit(s[0]);
    assert DigitsOf(s) == DigitsOf(s[1..]) == Decimal(n);
    ParseDecimal(n);
  }

  lemma CallIdInjective(n: nat, m: nat)
    requires CallId(n) == CallId(m)
    ensures n == m
  {
    CallIdRoundTrip(n);
    CallIdRoundTrip(m);
  }

  // ----- Text order ----------------------------------------------------------------------------

  /** Python's `a <= b` on strings: code point by code point, a prefix first. */
  predicate TextLeq(a: string, b: string) {
    a == [] || (b != [] && (a[0] < b[0] || (a[0] == b[0] && TextLeq(a[1..], b[1..]))))
  }

  lemma {:induction false} TextLeqCommonStem(stem: string, a: string, b: string)
    ensures TextLeq(stem + a, stem + b) <==> TextLeq(a, b)
  {
    if stem == [] {
      assert stem + a == a && stem + b == b;
    } else {
      assert (stem + a)[1..] == stem[1..] + a && (stem + b)[1..] == stem[1..] + b;
      TextLeqCommonStem(stem[1..], a, b);
    }
  }

  lemma {:induction false} TextLeqTotal(a: string, b: string)
    ensures TextLeq(a, b) || TextLeq(b, a)
    decreases |a|
  {
    if a != [] && b != [] && a[0] == b[0] {
      TextLeqTotal(a[1..], b[1..]);
    }
  }

  lemma {:induction false} TextLeqTransitive(a: string, b: string, c: string)
    requires TextLeq(a, b) && TextLeq(b, c)
    ensures TextLeq(a, c)
    decreases |a|
  {
    if a != [] && a[0] == b[0] && b[0] == c[0] {
      TextLeqTransitive(a[1..], b[1..], c[1..]);
    }
  }

  /** Text order on three digits is numeric order. */
  lemma ThreeDigits(n: nat)
    requires n < 1000
    ensures Padded3(n) == [DigitChar(n / 100), DigitChar(n / 10 % 10), DigitChar(n % 10)]
  {
    if n >= 100 {
      assert Decimal(n / 100) == [DigitChar(n / 100)];
      assert Decimal(n / 10) == Decimal(n / 100) + [DigitChar(n / 10 % 10)];
    } else if n >= 10 {
      assert Decimal(n / 10) == [DigitChar(n / 10)];
    }
  }

  lemma TextLeqThree(a: string, b: string)
    requires |a| == 3 && |b| >= 3
    ensures TextLeq(a, b) <==>
            a[0] < b[0] || (a[0] == b[0] && (a[1] < b[1] || (a[1] == b[1] && a[2] <= b[2])))
  {
    assert a[1..][1..] == a[2..] && b[1..][1..] == b[2..];
    assert a[2..][1..] == [];
    assert TextLeq(a[1..], b[1..]) <==> a[1] < b[1] || (a[1] == b[1] && TextLeq(a[2..], b[2..]));
    assert TextLeq(a[2..], b[2..]) <==> a[2] <= b[2];
  }

  /** A number of four digits or more prints at least four digits, the first of them not zero. */
  lemma {:induction false} ManyDigits(n: nat)
    requires n >= 100
    ensures |Decimal(n)| >= 3 && Decimal(n)[0] != '0'
    ensures n >= 1000 ==> |Decimal(n)| >= 4
  {
    if n >= 1000 {
      ManyDigits(n / 10);
    } else {
      ThreeDigits(n);
      assert Decimal(n / 100) == [DigitChar(n / 100)];
      assert Decimal(n / 10) == Decimal(n / 100) + [DigitChar(n / 10 % 10)];
    }
  }

  lemma DigitCharOrder(d: nat, e: nat)
    requires d < 10 && e < 10
    ensures DigitChar(d) < DigitChar(e) <==> d < e
    ensures DigitChar(d) == DigitChar(e) <==> d == e
  {
  }

  /** Below one thousand, text order is issue order. */
  lemma ThreeDigitOrder(n: nat, m: nat)
    requires n < m < 1000
    ensures !TextLeq(Padded3(m), Padded3(n))
  {
    ThreeDigits(n);
    ThreeDigits(m);
    TextLeqThree(Padded3(m), Padded3(n));
    SmallerByDigits(n, m);
  }

  lemma SmallerByDigits(n: nat, m: nat)
    requires n < m < 1000
    ensures n / 100 < m / 100
         || (n / 100 == m / 100 && (n / 10 % 10 < m / 10 % 10
                                    || (n / 10 % 10 == m / 10 % 10 && n % 10 < m % 10)))
  {
    assert n == 100 * (n / 100) + 10 * (n / 10 % 10) + n % 10;
    assert m == 100 * (m / 100) + 10 * (m / 10 % 10) + m % 10;
  }

  /** The first hundred codes sort strictly before every later one, however many there are. */
  lemma FirstHundredSortFirst(n: nat, m: nat)
    requires n <= 100 && n < m
    ensures !TextLeq(Padded3(m), Padded3(n))
  {
    if m < 1000 {
      ThreeDigitOrder(n, m);
    } else {
      ManyDigits(m);
      ThreeDigits(n);
      var a, b := Padded3(n), Padded3(m);
      assert |b| >= 4 && b[0] != '0';
      assert a[1..][1..] == a[2..] && b[1..][1..] == b[2..];
      assert a[2..][1..] == [] && b[2..][1..] == b[3..];
      if n < 100 {
        assert n / 100 == 0;
        assert a[0] == '0';
      } else {
        assert a == ['1', '0', '0'];
        assert !TextLeq(b[3..], []);
        assert !TextLeq(b[2..], a[2..]) by { assert a[2..] == ['0']; }
        assert !TextLeq(b[1..], a[1..]);
      }
    }
  }

  /** From the hundred-and-first on, `1000` sorts before them. */
  lemma ThousandJumpsTheQueue(n: nat)
    requires 100 < n < 1000
    ensures TextLeq(Padded3(1000), Padded3(n)) && !TextLeq(Padded3(n), Padded3(1000))
  {
    ThreeDigits(n);
    var a, b := Padded3(n), Padded3(1000);
    assert Decimal(100) == Decimal(10) + ['0'] && Decimal(10) == Decimal(1) + ['0'] && Decimal(1) == ['1'];
    assert b == ['1', '0', '0', '0'];
    TextLeqThree(a, b);
    DigitCharOrder(1, n / 100);
    DigitCharOrder(0, n / 10 % 10);
    DigitCharOrder(0, n % 10);
    assert n == 100 * (n / 100) + 10 * (n / 10 % 10) + n % 10;
    TextLeqTotal(a, b);
  }

  // ----- Sorting ---------------------------------------------------------------------------------

  ghost predicate SortedBy<T(!new)>(leq: (T, T) -> bool, s: seq<T>) {
    forall i, j :: 0 <= i < j < |s| ==> leq(s[i], s[j])
  }

  /** Each of the first `k` items sorts strictly before every item issued after it. */
  ghost predicate PrefixPrecedes<T(!new)>(leq: (T, T) -> bool, items: seq<T>, k: nat) {
    forall i, j :: 0 <= i < k && i < j < |items| ==> !leq(items[j], items[i])
  }

  /** Then every sorted permutation starts with those `k` items in the order they were issued. */
  lemma {:induction false} SortedPermutationKeepsPrefix<T(!new)>(
      leq: (T, T) -> bool, items: seq<T>, sorted: seq<T>, k: nat)
    requires k <= |items| && PrefixPrecedes(leq, items, k)
    requires multiset(sorted) == multiset(items) && SortedBy(leq, sorted)
    ensures |sorted| == |items| && sorted[..k] == items[..k]
    decreases k
  {
    assert |multiset(sorted)| == |sorted| && |multiset(items)| == |items|;
    if k > 0 {
      StartsWithFirst(leq, items, sorted, k);
      TailsStillMatch(leq, items, sorted, k);
      SortedPermutationKeepsPrefix(leq, items[1..], sorted[1..], k - 1);
      assert sorted[..k] == [sorted[0]] + sorted[1..][..k - 1];
      assert items[..k] == [items[0]] + items[1..][..k - 1];
    }
  }

  lemma StartsWithFirst<T(!new)>(leq: (T, T) -> bool, items: seq<T>, sorted: seq<T>, k: nat)
    requires 0 < k <= |items| && PrefixPrecedes(leq, items, k)
    requires multiset(sorted) == multiset(items) && SortedBy(leq, sorted)
    ensures sorted != [] && sorted[0] == items[0]
  {
    assert items[0] in multiset(sorted);
    assert sorted[0] in multiset(items);
    var at :| 0 <= at < |sorted| && sorted[at] == items[0];
    var from :| 0 <= from < |items| && items[from] == sorted[0];
    if from > 0 && at > 0 {
      assert leq(sorted[0], sorted[at]);
    }
  }

  lemma MultisetOfTail<T>(s: seq<T>)
    requires s != []
    ensures multiset(s[1..]) == multiset(s) - multiset{s[0]}
  {
    assert s == [s[0]] + s[1..];
  }

  lemma TailsStillMatch<T(!new)>(leq: (T, T) -> bool, items: seq<T>, sorted: seq<T>, k: nat)
    requires 0 < k <= |items| && PrefixPrecedes(leq, items, k)
    requires multiset(sorted) == multiset(items) && SortedBy(leq, sorted)
    requires sorted != [] && sorted[0] == items[0]
    ensures PrefixPrecedes(leq, items[1..], k - 1) && SortedBy(leq, sorted[1..])
    ensures multiset(sorted[1..]) == multiset(items[1..])
  {
    var items', sorted' := items[1..], sorted[1..];
    MultisetOfTail(items);
    MultisetOfTail(sorted);
    forall i, j | 0 <= i < k - 1 && i < j < |items'| ensures !leq(items'[j], items'[i]) {
      assert items'[j] == items[j + 1] && items'[i] == items[i + 1];
    }
    forall i, j | 0 <= i < j < |sorted'| ensures leq(sorted'[i], sorted'[j]) {
      assert sorted'[j] == sorted[j + 1] && sorted'[i] == sorted[i + 1];
    }
  }
}
