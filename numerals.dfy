/**
 * Python's rendering of non-negative integers: `str(n)` and the thousands-separated
 * `f"{n:,}"` the costs module prints dollar amounts with, and reading such a text back.
 */
module Numerals {
  import opened Seqs
  import opened Text

  function DigitChar(d: nat): (c: char)
    requires d < 10
    ensures IsDigit(c) && DigitValue(c) == d
  {
    ('0' as int + d) as char
  }

  function DigitValue(c: char): int {
    c as int - '0' as int
  }

  /** `str(n)`: the decimal digits of `n`, most significant first, with no leading zero. */
  function Decimal(n: nat): (s: string)
    ensures |s| > 0 && forall i :: 0 <= i < |s| ==> IsDigit(s[i])
    ensures n > 0 ==> s[0] != '0'
    decreases n
  {
    if n < 10 then [DigitChar(n)] else Decimal(n / 10) + [DigitChar(n % 10)]
  }

  /** A group of three digits after a comma, zero-padded: `k:03d`. */
  function Pad3(k: nat): (s: string)
    requires k < 1000
    ensures |s| == 3 && forall i :: 0 <= i < 3 ==> IsDigit(s[i])
  {
    [DigitChar(k / 100), DigitChar(k / 10 % 10), DigitChar(k % 10)]
  }

  /** `f"{n:,}"`: the digits of `n` with a comma before every group of three counted from the right. */
  function Grouped(n: nat): (s: string)
    ensures |s| > 0 && IsDigit(s[0])
    decreases n
  {
    if n < 1000 then Decimal(n) else Grouped(n / 1000) + "," + Pad3(n % 1000)
  }

  /** `f"{n:,}"` for any integer: a minus sign before the grouped magnitude. */
  function Money(n: int): (s: string)
    ensures |s| > 0
    ensures n < 0 <==> s[0] == '-'
  {
    if n < 0 then "-" + Grouped(-n) else Grouped(n)
  }

  /** The two amounts of the simple uncontested arbitration stay, as `f"{n:,}"` prints them. */
  lemma ThousandsExamples()
    ensures Money(5000) == "5,000" && Money(12000) == "12,000"
  {
    assert Grouped(5) == "5" && Grouped(12) == "12" && Pad3(0) == "000";
  }

  // ---------------------------------------------------------------------------
  // Reading a rendered amount back

  /** The characters of `s` other than commas, in order. */
  function Digits(s: string): (r: string)
    ensures |r| <= |s| && ',' !in r
  {
    if |s| == 0 then ""
    else Digits(s[..|s| - 1]) + (if Last(s) == ',' then "" else [Last(s)])
  }

  /** The number a string of decimal digits denotes. */
  function Value(s: string): int {
    if |s| == 0 then 0 else Value(s[..|s| - 1]) * 10 + DigitValue(Last(s))
  }

  lemma DigitsSnoc(s: string, c: char)
    ensures Digits(s + [c]) == Digits(s) + (if c == ',' then "" else [c])
    ensures Value(s + [c]) == Value(s) * 10 + DigitValue(c)
  {
    assert (s + [c])[..|s|] == s;
  }

  lemma {:induction false} DigitsAppend(a: string, b: string)
    ensures Digits(a + b) == Digits(a) + Digits(b)
    decreases |b|
  {
    if |b| == 0 {
      assert a + b == a;
    } else {
      var b' := b[..|b| - 1];
      assert a + b == (a + b') + [Last(b)];
      assert b == b' + [Last(b)];
      DigitsSnoc(a + b', Last(b));
      DigitsSnoc(b', Last(b));
      DigitsAppend(a, b');
    }
  }

  /** A run of digits has no comma to drop. */
  lemma {:induction false} DigitsOfDigits(s: string)
    requires forall i :: 0 <= i < |s| ==> IsDigit(s[i])
    ensures Digits(s) == s
  {
    if |s| > 0 {
      DigitsOfDigits(s[..|s| - 1]);
      assert s == s[..|s| - 1] + [Last(s)];
    }
  }

  lemma {:induction false} DecimalValue(n: nat)
    ensures Value(Decimal(n)) == n
    decreases n
  {
    if n >= 10 {
      DecimalValue(n / 10);
      DigitsSnoc(Decimal(n / 10), DigitChar(n % 10));
    }
  }

  /** Three more digits multiply what precedes them by a thousand. */
  lemma Pad3Value(s: string, k: nat)
    requires k < 1000
    ensures Value(s + Pad3(k)) == Value(s) * 1000 + k
  {
    var a, b, c := DigitChar(k / 100), DigitChar(k / 10 % 10), DigitChar(k % 10);
    assert s + Pad3(k) == ((s + [a]) + [b]) + [c];
    DigitsSnoc(s, a);
    DigitsSnoc(s + [a], b);
    DigitsSnoc((s + [a]) + [b], c);
    assert k == 100 * (k / 100) + 10 * (k / 10 % 10) + k % 10;
  }

  /**
   * Removing the commas from `f"{n:,}"` gives `str(n)`'s digits, which denote `n`: the
   * separators change how an amount reads, never its value.
   */
  lemma {:induction false} GroupedValue(n: nat)
    ensures Value(Digits(Grouped(n))) == n
    decreases n
  {
    if n < 1000 {
      DigitsOfDigits(Decimal(n));
      DecimalValue(n);
    } else {
      var head, tail := Grouped(n / 1000), Pad3(n % 1000);
      assert Grouped(n) == (head + ",") + tail;
      GroupedValue(n / 1000);
      CommaDropped(head, tail);
      Pad3Value(Digits(head), n % 1000);
      assert Value(Digits(head)) * 1000 + n % 1000 == n;
    }
  }

  /** The comma before a group of digits disappears. */
  lemma CommaDropped(head: string, tail: string)
    requires forall i :: 0 <= i < |tail| ==> IsDigit(tail[i])
    ensures Digits((head + ",") + tail) == Digits(head) + tail
  {
    var hc := head + ",";
    assert hc == head + [','];
    DigitsSnoc(head, ',');
    assert Digits(hc) == Digits(head);
    DigitsAppend(hc, tail);
    DigitsOfDigits(tail);
  }
}
