/**
 Decimal numerals and the splitting of strings, as the version and the ledger code use them.
 */
module Decimals {

  predicate IsDigit(c: char) {
    '0' <= c <= '9'
  }

  function DigitOf(d: nat): char
    requires d < 10
  {
    '0' + d as char
  }

  function ValueOf(c: char): nat
    requires IsDigit(c)
  {
    (c - '0') as int
  }

  predicate AllDigits(s: string) {
    forall i :: 0 <= i < |s| ==> IsDigit(s[i])
  }

  /** What a string of digits denotes. */
  function Value(s: string): nat
    requires AllDigits(s)
  {
    if s == "" then 0 else 10 * Value(s[..|s| - 1]) + ValueOf(s[|s| - 1])
  }

  /** The shortest numeral of a number. */
  function Numeral(n: nat): (s: string)
    ensures AllDigits(s) && |s| >= 1
  {
    if n < 10 then [DigitOf(n)] else Numeral(n / 10) + [DigitOf(n % 10)]
  }

  /** A numeral denotes its number, so different numbers have different numerals. */
  lemma {:induction false} NumeralDenotes(n: nat)
    ensures Value(Numeral(n)) == n
  {
    var s := Numeral(n);
    if n < 10 {
      assert s[..0] == "";
    } else {
      NumeralDenotes(n / 10);
      assert s[..|s| - 1] == Numeral(n / 10);
    }
  }

  lemma {:induction false} NumeralInjective(m: nat, n: nat)
    requires Numeral(m) == Numeral(n)
    ensures m == n
  {
    NumeralDenotes(m);
    NumeralDenotes(n);
  }

  lemma {:induction false} NumeralLength(n: nat)
    requires n < 0x1_0000_0000
    ensures |Numeral(n)| <= 10
  {
    assert n / 10 < 429496730 && n / 100 < 42949673 && n / 1000 < 4294968;
    Shorter(n, 10);
  }

  /** At most `k` digits for a number below ten to the `k`. */
  lemma {:induction false} Shorter(n: nat, k: nat)
    requires k >= 1 && n < TenTo(k)
    ensures |Numeral(n)| <= k
  {
    if n >= 10 {
      assert k > 1;
      Shorter(n / 10, k - 1);
    }
  }

  function TenTo(k: nat): nat {
    if k == 0 then 1 else 10 * TenTo(k - 1)
  }

  // ---------- Splitting ----------

  /** The first piece and what follows its separator, `found` if there is one. */
  function Cut(s: string, sep: char): (r: (string, string, bool))
    ensures sep !in r.0
    ensures s == if r.2 then r.0 + [sep] + r.1 else r.0
    ensures r.2 ==> |r.1| < |s|
  {
    if s == "" then ("", "", false)
    else if s[0] == sep then ("", s[1..], true)
    else
      var rest := Cut(s[1..], sep);
      ([s[0]] + rest.0, rest.1, rest.2)
  }

  function Split(s: string, sep: char): (parts: seq<string>)
    ensures |parts| >= 1 && Join(parts, sep) == s
    ensures forall i :: 0 <= i < |parts| ==> sep !in parts[i]
    decreases |s|
  {
    var cut := Cut(s, sep);
    if cut.2 then [cut.0] + Split(cut.1, sep) else [cut.0]
  }

  function Join(parts: seq<string>, sep: char): string
    requires |parts| >= 1
  {
    if |parts| == 1 then parts[0] else parts[0] + [sep] + Join(parts[1..], sep)
  }

  /** Splitting undoes joining pieces free of the separator. */
  lemma {:induction false} SplitJoin(parts: seq<string>, sep: char)
    requires |parts| >= 1 && forall i :: 0 <= i < |parts| ==> sep !in parts[i]
    ensures Split(Join(parts, sep), sep) == parts
  {
    if |parts| == 1 {
      CutFirst(parts[0], "", sep, false);
    } else {
      var rest := Join(parts[1..], sep);
      CutFirst(parts[0], rest, sep, true);
      SplitJoin(parts[1..], sep);
    }
  }

  lemma {:induction false} CutFirst(first: string, rest: string, sep: char, more: bool)
    requires sep !in first
    ensures var s := if more then first + [sep] + rest else first;
            Cut(s, sep) == (first, if more then rest else "", more)
  {
    var s := if more then first + [sep] + rest else first;
    if first != "" {
      CutFirst(first[1..], rest, sep, more);
      assert s[1..] == if more then first[1..] + [sep] + rest else first[1..];
      assert [first[0]] + first[1..] == first;
    } else if more {
      assert s[1..] == rest;
    }
  }

  lemma {:induction false} NoneInDigits(s: string, c: char)
    requires AllDigits(s) && !IsDigit(c)
    ensures c !in s
  {
  }
}
