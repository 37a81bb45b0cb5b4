/** Text produced by the detector: the decimal form of an integer (what `str`
    and an f-string give for an `int`), and a list of strings joined with a
    separator, together with the splitting that reads such a list back. */
module Rendering {

  predicate IsDigit(c: char) {
    '0' <= c <= '9'
  }

  predicate AllDigits(s: string) {
    forall k :: 0 <= k < |s| ==> IsDigit(s[k])
  }

  function DigitChar(d: nat): (c: char)
    requires d < 10
    ensures IsDigit(c) && c as int - '0' as int == d
  {
    ('0' as int + d) as char
  }

  /** The decimal digits of `n`, most significant first, without leading zeros. */
  function Decimal(n: nat): (s: string)
    ensures |s| > 0 && AllDigits(s)
    ensures |s| > 1 ==> s[0] != '0'
    decreases n
  {
    if n < 10 then [DigitChar(n)] else Decimal(n / 10) + [DigitChar(n % 10)]
  }

  /** The value of a string of decimal digits: the inverse of Decimal. */
  function ParseDecimal(s: string): nat
    requires AllDigits(s)
  {
    if s == [] then 0
    else ParseDecimal(s[..|s| - 1]) * 10 + (s[|s| - 1] as int - '0' as int)
  }

  lemma {:induction false} DecimalRoundTrip(n: nat)
    ensures ParseDecimal(Decimal(n)) == n
  {
    if n >= 10 {
      var s := Decimal(n);
      assert s[..|s| - 1] == Decimal(n / 10);
      DecimalRoundTrip(n / 10);
    }
  }

  lemma DecimalInjective(m: nat, n: nat)
    requires Decimal(m) == Decimal(n)
    ensures m == n
  {
    DecimalRoundTrip(m);
    DecimalRoundTrip(n);
  }

  /** The decimal form of any integer: a minus sign before a negative one. */
  function IntDecimal(i: int): string {
    if i < 0 then "-" + Decimal(-i) else Decimal(i)
  }

  lemma IntDecimalHasNo(i: int, c: char)
    requires !IsDigit(c) && c != '-'
    ensures c !in IntDecimal(i)
  {
    var s := IntDecimal(i);
    forall k | 0 <= k < |s|
      ensures s[k] != c
    {
      if i < 0 && k > 0 {
        assert s[k] == Decimal(-i)[k - 1];
      }
    }
  }

  /** The items separated by `sep`: the empty list gives the empty string. */
  function Join(sep: char, items: seq<string>): string
    decreases |items|
  {
    if |items| == 0 then ""
    else if |items| == 1 then items[0]
    else items[0] + [sep] + Join(sep, items[1..])
  }

  /** The pieces of `s` between occurrences of `sep`; there is always at least
      one piece, and a string without `sep` is a single piece. */
  function Split(sep: char, s: string): (pieces: seq<string>)
    ensures |pieces| > 0
  {
    if s == [] then [""]
    else
      var rest := Split(sep, s[1..]);
      if s[0] == sep then [""] + rest else [[s[0]] + rest[0]] + rest[1..]
  }

  lemma {:induction false} SplitWhole(sep: char, a: string)
    requires sep !in a
    ensures Split(sep, a) == [a]
  {
    if a != [] {
      assert sep !in a[1..];
      SplitWhole(sep, a[1..]);
      assert [a[0]] + a[1..] == a;
    }
  }

  lemma {:induction false} SplitAfterFirst(sep: char, a: string, b: string)
    requires sep !in a
    ensures Split(sep, a + [sep] + b) == [a] + Split(sep, b)
  {
    var s := a + [sep] + b;
    if a == [] {
      assert s[1..] == b;
    } else {
      assert s[1..] == a[1..] + [sep] + b;
      assert sep !in a[1..];
      SplitAfterFirst(sep, a[1..], b);
      assert [a[0]] + a[1..] == a;
    }
  }

  /** Splitting a joined list gives the list back, provided it is not empty and
      no item contains the separator. */
  lemma {:induction false} SplitJoin(sep: char, items: seq<string>)
    requires |items| > 0
    requires forall k :: 0 <= k < |items| ==> sep !in items[k]
    ensures Split(sep, Join(sep, items)) == items
    decreases |items|
  {
    if |items| == 1 {
      SplitWhole(sep, items[0]);
    } else {
      SplitAfterFirst(sep, items[0], Join(sep, items[1..]));
      SplitJoin(sep, items[1..]);
      assert [items[0]] + items[1..] == items;
    }
  }
}
