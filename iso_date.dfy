/**
 * Naive date-times as Python's `datetime` holds them, with the ISO 8601 text that
 * `datetime.isoformat()` writes and `datetime.fromisoformat()` reads back.
 */
module IsoDate {
  import opened Wrappers
  import opened Text
  import Numerals

  datatype DateFields = DateFields(
    year: int, month: int, day: int,
    hour: int, minute: int, second: int, microsecond: int)

  predicate IsLeap(y: int) {
    y % 4 == 0 && (y % 100 != 0 || y % 400 == 0)
  }

  function DaysInMonth(y: int, m: int): int
    requires 1 <= m <= 12
  {
    if m == 2 then (if IsLeap(y) then 29 else 28)
    else if m == 4 || m == 6 || m == 9 || m == 11 then 30
    else 31
  }

  /** The ranges Python's `datetime` constructor enforces. */
  predicate ValidFields(d: DateFields) {
    1 <= d.year <= 9999 && 1 <= d.month <= 12 && 1 <= d.day <= DaysInMonth(d.year, d.month)
    && 0 <= d.hour < 24 && 0 <= d.minute < 60 && 0 <= d.second < 60
    && 0 <= d.microsecond < 1000000
  }

  type DateTime = d: DateFields | ValidFields(d) witness DateFields(1, 1, 1, 0, 0, 0, 0)

  function Key(d: DateFields): seq<int> {
    [d.year, d.month, d.day, d.hour, d.minute, d.second, d.microsecond]
  }

  predicate LexLess(a: seq<int>, b: seq<int>)
    requires |a| == |b|
  {
    |a| > 0 && (a[0] < b[0] || (a[0] == b[0] && LexLess(a[1..], b[1..])))
  }

  /** Chronological order: `a < b` on datetimes. */
  predicate Before(a: DateTime, b: DateTime) {
    LexLess(Key(a), Key(b))
  }

  /** No key sequence precedes itself. */
  lemma {:induction false} LexIrreflexive(a: seq<int>)
    ensures !LexLess(a, a)
  {
    if |a| > 0 {
      LexIrreflexive(a[1..]);
    }
  }

  /** No datetime is before itself. */
  lemma BeforeIrreflexive(d: DateTime)
    ensures !Before(d, d)
  {
    LexIrreflexive(Key(d));
  }

  function Pow10(w: nat): (p: nat)
    ensures p >= 1
  {
    if w == 0 then 1 else 10 * Pow10(w - 1)
  }

  predicate AllDigits(s: string) {
    forall i :: 0 <= i < |s| ==> IsDigit(s[i])
  }

  /** `n` written in decimal with exactly `width` digits (zero-padded, like `%04d`). */
  function Digits(n: nat, width: nat): (s: string)
    ensures |s| == width && AllDigits(s)
  {
    if width == 0 then "" else Digits(n / 10, width - 1) + [Numerals.DigitChar(n % 10)]
  }

  /** The number a string of decimal digits denotes. */
  function Value(s: string): nat
    requires AllDigits(s)
  {
    if |s| == 0 then 0 else Value(s[..|s| - 1]) * 10 + Numerals.DigitValue(s[|s| - 1])
  }

  lemma {:induction false} ValueDigits(n: nat, width: nat)
    requires n < Pow10(width)
    ensures Value(Digits(n, width)) == n
  {
    if width > 0 {
      ValueDigits(n / 10, width - 1);
      var s := Digits(n, width);
      assert s[..|s| - 1] == Digits(n / 10, width - 1);
    }
  }

  function DatePart(d: DateFields): (s: string)
    requires d.year >= 0 && d.month >= 0 && d.day >= 0
    ensures |s| == 10
  {
    Digits(d.year, 4) + "-" + Digits(d.month, 2) + "-" + Digits(d.day, 2)
  }

  function TimePart(d: DateFields): (s: string)
    requires d.hour >= 0 && d.minute >= 0 && d.second >= 0
    ensures |s| == 8
  {
    Digits(d.hour, 2) + ":" + Digits(d.minute, 2) + ":" + Digits(d.second, 2)
  }

  /** `datetime.isoformat()`: the microseconds appear only when they are not zero. */
  function IsoFormat(d: DateTime): (s: string)
    ensures |s| == (if d.microsecond == 0 then 19 else 26)
  {
    DatePart(d) + "T" + TimePart(d)
    + (if d.microsecond == 0 then "" else "." + Digits(d.microsecond, 6))
  }

  /** Three two-or-four digit fields separated by `sep`, as in "2024-01-31" or "09:30:00". */
  predicate Triple(s: string, w: nat, sep: char) {
    |s| == w + 6 && AllDigits(s[..w]) && s[w] == sep && AllDigits(s[w + 1..w + 3])
    && s[w + 3] == sep && AllDigits(s[w + 4..])
  }

  predicate IsoShape(s: string) {
    (|s| == 19 || (|s| == 26 && s[19] == '.' && AllDigits(s[20..])))
    && Triple(s[..10], 4, '-') && s[10] == 'T' && Triple(s[11..19], 2, ':')
  }

  function TripleValues(s: string, w: nat, sep: char): (r: (nat, nat, nat))
    requires Triple(s, w, sep)
  {
    (Value(s[..w]), Value(s[w + 1..w + 3]), Value(s[w + 4..]))
  }

  /**
   * `datetime.fromisoformat()` restricted to the two shapes `isoformat()` writes (19 or 26
   * characters); `None` for every other string, including shapes Python also accepts.
   */
  function FromIsoFormat(s: string): (r: Option<DateTime>)
    ensures r.Some? ==> IsoShape(s)
  {
    if !IsoShape(s) then None
    else
      var (y, mo, dd) := TripleValues(s[..10], 4, '-');
      var (h, mi, sec) := TripleValues(s[11..19], 2, ':');
      var d := DateFields(y, mo, dd, h, mi, sec, if |s| == 26 then Value(s[20..]) else 0);
      if ValidFields(d) then Some(d) else None
  }

  lemma TripleOfParts(x: string, y: string, z: string, w: nat, sep: char)
    requires |x| == w && |y| == 2 && |z| == 2 && AllDigits(x) && AllDigits(y) && AllDigits(z)
    ensures Triple(x + [sep] + y + [sep] + z, w, sep)
    ensures TripleValues(x + [sep] + y + [sep] + z, w, sep) == (Value(x), Value(y), Value(z))
  {
    var s := x + [sep] + y + [sep] + z;
    assert s[..w] == x;
    assert s[w + 1..w + 3] == y;
    assert s[w + 4..] == z;
  }

  lemma TripleRoundTrip(a: nat, b: nat, c: nat, w: nat, sep: char)
    requires a < Pow10(w) && b < 100 && c < 100
    ensures Triple(Digits(a, w) + [sep] + Digits(b, 2) + [sep] + Digits(c, 2), w, sep)
    ensures TripleValues(Digits(a, w) + [sep] + Digits(b, 2) + [sep] + Digits(c, 2), w, sep) == (a, b, c)
  {
    TripleOfParts(Digits(a, w), Digits(b, 2), Digits(c, 2), w, sep);
    ValueDigits(a, w);
    ValueDigits(b, 2);
    ValueDigits(c, 2);
  }

  /** A datetime written by `isoformat` reads back as the same datetime. */
  lemma IsoRoundTrip(d: DateTime)
    ensures FromIsoFormat(IsoFormat(d)) == Some(d)
  {
    IsoFormatParts(d);
    TripleRoundTrip(d.year, d.month, d.day, 4, '-');
    TripleRoundTrip(d.hour, d.minute, d.second, 2, ':');
    if d.microsecond != 0 {
      ValueDigits(d.microsecond, 6);
    }
  }

  /** Where `isoformat` puts the date, the separator, the time and the microseconds. */
  lemma IsoFormatParts(d: DateTime)
    ensures var s := IsoFormat(d);
      s[..10] == DatePart(d) && s[10] == 'T' && s[11..19] == TimePart(d)
      && (d.microsecond != 0 ==> s[19] == '.' && s[20..] == Digits(d.microsecond, 6))
  {
  }
}
