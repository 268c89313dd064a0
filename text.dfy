/**
 * The handful of Python string operations the system relies on, over ASCII text:
 * substring membership (`sub in s`), `lower()`, `join`, `strip()`, `lstrip(chars)`,
 * `split()`, `split('\n')`, `capitalize()` and `isdigit()`.
 */
module Text {

  predicate IsPrefix(p: string, s: string) {
    |p| <= |s| && s[..|p|] == p
  }

  /** Python's `s.endswith(p)`. */
  predicate IsSuffix(p: string, s: string) {
    |p| <= |s| && s[|s| - |p|..] == p
  }

  /** Python's `sub in s`. */
  predicate Contains(s: string, sub: string)
    decreases |s|
  {
    IsPrefix(sub, s) || (|s| > 0 && Contains(s[1..], sub))
  }

  /** `Contains` means exactly that `sub` occurs at some index of `s`. */
  lemma {:induction false} ContainsAt(s: string, sub: string, i: nat)
    requires i + |sub| <= |s| && s[i..i + |sub|] == sub
    ensures Contains(s, sub)
    decreases i
  {
    if i == 0 {
      assert s[..|sub|] == sub;
    } else {
      assert s[1..][i - 1..i - 1 + |sub|] == s[i..i + |sub|];
      ContainsAt(s[1..], sub, i - 1);
    }
  }

  lemma {:induction false} ContainsIndex(s: string, sub: string) returns (i: nat)
    requires Contains(s, sub)
    ensures i + |sub| <= |s| && s[i..i + |sub|] == sub
    decreases |s|
  {
    if IsPrefix(sub, s) {
      i := 0;
    } else {
      var j := ContainsIndex(s[1..], sub);
      assert s[1..][j..j + |sub|] == s[j + 1..j + 1 + |sub|];
      i := j + 1;
    }
  }

  lemma ContainsMid(a: string, sub: string, b: string)
    ensures Contains(a + sub + b, sub)
  {
    assert (a + sub + b)[|a|..|a| + |sub|] == sub;
    ContainsAt(a + sub + b, sub, |a|);
  }

  lemma ContainsWithin(a: string, s: string, b: string, sub: string)
    requires Contains(s, sub)
    ensures Contains(a + s + b, sub)
  {
    var i := ContainsIndex(s, sub);
    assert (a + s + b)[|a| + i..|a| + i + |sub|] == s[i..i + |sub|];
    ContainsAt(a + s + b, sub, |a| + i);
  }

  /** Substring containment is transitive: a text holding "cannot" holds "can". */
  lemma ContainsTrans(s: string, t: string, sub: string)
    requires Contains(s, t) && Contains(t, sub)
    ensures Contains(s, sub)
  {
    var i := ContainsIndex(s, t);
    var j := ContainsIndex(t, sub);
    forall k | 0 <= k < |sub|
      ensures s[i + j..i + j + |sub|][k] == sub[k]
    {
      assert s[i + j + k] == s[i..i + |t|][j + k] == t[j + k] == t[j..j + |sub|][k];
    }
    assert s[i + j..i + j + |sub|] == sub;
    ContainsAt(s, sub, i + j);
  }

  /** A prefix stays a prefix under a common start and any continuation. */
  lemma PrefixExtend(a: string, p: string, s: string, b: string)
    requires IsPrefix(p, s)
    ensures IsPrefix(a + p, a + s + b)
  {
    assert (a + s + b)[..|a + p|] == a + s[..|p|];
  }

  /** A text starting with `a + x` holds `x`. */
  lemma PrefixContains(a: string, x: string, s: string)
    requires IsPrefix(a + x, s)
    ensures Contains(s, x)
  {
    assert s[|a|..|a| + |x|] == (a + x)[|a|..];
    ContainsAt(s, x, |a|);
  }

  predicate IsUpper(c: char) { 'A' <= c <= 'Z' }

  function LowerChar(c: char): char {
    if IsUpper(c) then (c as int + 32) as char else c
  }

  function UpperChar(c: char): char {
    if 'a' <= c <= 'z' then (c as int - 32) as char else c
  }

  /** Python's `lower()`, restricted to ASCII letters. */
  function Lower(s: string): (r: string)
    ensures |r| == |s|
    ensures forall i :: 0 <= i < |s| ==> r[i] == LowerChar(s[i])
  {
    seq(|s|, i requires 0 <= i < |s| => LowerChar(s[i]))
  }

  lemma LowerAppend(a: string, b: string)
    ensures Lower(a + b) == Lower(a) + Lower(b)
  {
  }

  lemma LowerIdempotent(s: string)
    ensures Lower(Lower(s)) == Lower(s)
  {
  }

  /** Python's `sep.join(parts)`. */
  function Join(sep: string, parts: seq<string>): string
    decreases |parts|
  {
    if |parts| == 0 then ""
    else if |parts| == 1 then parts[0]
    else parts[0] + sep + Join(sep, parts[1..])
  }

  /** The joined text opens with the first part. */
  lemma JoinPrefix(sep: string, parts: seq<string>)
    requires |parts| > 0
    ensures IsPrefix(parts[0], Join(sep, parts))
  {
    if |parts| > 1 {
      assert Join(sep, parts) == parts[0] + (sep + Join(sep, parts[1..]));
    }
  }

  /** The joined text closes with the last part. */
  lemma {:induction false} JoinSuffix(sep: string, parts: seq<string>)
    requires |parts| > 0
    ensures IsSuffix(parts[|parts| - 1], Join(sep, parts))
    decreases |parts|
  {
    if |parts| > 1 {
      JoinSuffix(sep, parts[1..]);
      var rest := Join(sep, parts[1..]);
      var p := parts[|parts| - 1];
      assert parts[1..][|parts[1..]| - 1] == p;
      assert Join(sep, parts) == (parts[0] + sep) + rest;
      assert rest[|rest| - |p|..] == p;
      assert Join(sep, parts)[|Join(sep, parts)| - |p|..] == rest[|rest| - |p|..];
    }
  }

  /** Every part occurs in the joined text. */
  lemma {:induction false} JoinContains(sep: string, parts: seq<string>, i: nat)
    requires i < |parts|
    ensures Contains(Join(sep, parts), parts[i])
    decreases i
  {
    if i == 0 {
      JoinPrefix(sep, parts);
    } else {
      JoinContains(sep, parts[1..], i - 1);
      ContainsWithin(parts[0] + sep, Join(sep, parts[1..]), "", parts[i]);
      assert parts[0] + sep + Join(sep, parts[1..]) + "" == Join(sep, parts);
    }
  }

  /** The ASCII characters for which Python's `str.isspace()` holds. */
  predicate IsSpace(c: char) {
    c == ' ' || c == '\t' || c == '\n' || c == '\r' || c == '\U{B}' || c == '\U{C}'
    || ('\U{1C}' <= c <= '\U{1F}')
  }

  predicate IsDigit(c: char) { '0' <= c <= '9' }

  /** Drops leading characters that satisfy `IsSpace`. */
  function LStrip(s: string): (r: string)
    ensures |r| <= |s| && r == s[|s| - |r|..]
    ensures |r| > 0 ==> !IsSpace(r[0])
    ensures forall i :: 0 <= i < |s| - |r| ==> IsSpace(s[i])
    decreases |s|
  {
    if |s| > 0 && IsSpace(s[0]) then LStrip(s[1..]) else s
  }

  /** Drops trailing characters that satisfy `IsSpace`. */
  function RStrip(s: string): (r: string)
    ensures |r| <= |s| && r == s[..|r|]
    ensures |r| > 0 ==> !IsSpace(r[|r| - 1])
    ensures forall i :: |r| <= i < |s| ==> IsSpace(s[i])
    decreases |s|
  {
    if |s| > 0 && IsSpace(s[|s| - 1]) then RStrip(s[..|s| - 1]) else s
  }

  /** Python's `strip()`. */
  function Strip(s: string): (r: string)
    ensures |r| > 0 ==> !IsSpace(r[0]) && !IsSpace(r[|r| - 1])
    ensures r == [] <==> forall i :: 0 <= i < |s| ==> IsSpace(s[i])
  {
    var l := LStrip(s);
    var r := RStrip(l);
    assert r == [] ==> forall i :: 0 <= i < |s| ==> IsSpace(s[i]) by {
      if r == [] && |l| > 0 {
        assert false;
      }
    }
    assert (forall i :: 0 <= i < |s| ==> IsSpace(s[i])) ==> r == [] by {
      if |r| > 0 { assert r[0] == l[0] == s[|s| - |l|]; }
    }
    r
  }

  /** `strip()` keeps one stretch `s[i..i + |r|]` and drops only whitespace around it. */
  lemma StripSpan(s: string) returns (i: nat)
    ensures var r := Strip(s);
      i + |r| <= |s| && s[i..i + |r|] == r
      && (forall k :: 0 <= k < i ==> IsSpace(s[k]))
      && (forall k :: i + |r| <= k < |s| ==> IsSpace(s[k]))
  {
    var l := LStrip(s);
    var r := RStrip(l);
    i := |s| - |l|;
    SliceOfSuffix(s, l, r, i, 0);
    SuffixIndex(s, l, i);
  }

  /** A stretch of a suffix is a stretch of the whole. */
  lemma SliceOfSuffix<T>(s: seq<T>, l: seq<T>, r: seq<T>, a: nat, j: nat)
    requires a <= |s| && l == s[a..] && j + |r| <= |l| && r == l[j..j + |r|]
    ensures a + j + |r| <= |s| && s[a + j..a + j + |r|] == r
  {
  }

  /** The elements of a suffix are those of the whole, shifted. */
  lemma SuffixIndex<T>(s: seq<T>, l: seq<T>, a: nat)
    requires a <= |s| && l == s[a..]
    ensures forall k :: a <= k < |s| ==> s[k] == l[k - a]
  {
  }

  /** Python's `lstrip(chars)`: drops leading characters that occur in `chars`. */
  function LStripChars(s: string, chars: string): (r: string)
    ensures |r| <= |s| && r == s[|s| - |r|..]
    ensures |r| > 0 ==> r[0] !in chars
    ensures forall i :: 0 <= i < |s| - |r| ==> s[i] in chars
    decreases |s|
  {
    if |s| > 0 && s[0] in chars then LStripChars(s[1..], chars) else s
  }

  /** `r` occurs in `s` at index `i`. */
  predicate StretchAt(s: string, r: string, i: nat) {
    i + |r| <= |s| && s[i..i + |r|] == r
  }

  /**
   * `lstrip(chars).strip()` keeps one stretch `s[i..i + |r|]`: it drops characters of
   * `chars` and whitespace in front of it and whitespace behind it.
   */
  lemma LStripCharsStripSpan(s: string, chars: string) returns (i: nat)
    ensures StretchAt(s, Strip(LStripChars(s, chars)), i)
    ensures forall k :: 0 <= k < i ==> s[k] in chars || IsSpace(s[k])
    ensures forall k :: i + |Strip(LStripChars(s, chars))| <= k < |s| ==> IsSpace(s[k])
  {
    var l := LStripChars(s, chars);
    var j := StripSpan(l);
    i := SpanInSuffix(s, l, Strip(l), chars, |s| - |l|, j);
  }

  /**
   * A stretch `l[j..j + |r|]` of the suffix `l == s[a..]`, with only `chars` before the
   * suffix and only whitespace around the stretch, is a stretch of `s` with the same margins.
   */
  lemma SpanInSuffix(s: string, l: string, r: string, chars: string, a: nat, j: nat) returns (i: nat)
    requires a <= |s| && l == s[a..] && forall k :: 0 <= k < a ==> s[k] in chars
    requires j + |r| <= |l| && l[j..j + |r|] == r
    requires forall k :: 0 <= k < j ==> IsSpace(l[k])
    requires forall k :: j + |r| <= k < |l| ==> IsSpace(l[k])
    ensures i == a + j && StretchAt(s, r, i)
    ensures forall k :: 0 <= k < i ==> s[k] in chars || IsSpace(s[k])
    ensures forall k :: i + |r| <= k < |s| ==> IsSpace(s[k])
  {
    i := a + j;
    SliceOfSuffix(s, l, r, a, j);
    SuffixIndex(s, l, a);
    forall k | 0 <= k < i
      ensures s[k] in chars || IsSpace(s[k])
    {
      if k >= a {
        assert s[k] == l[k - a] && IsSpace(l[k - a]);
      }
    }
  }

  /** The longest prefix of `s` with no whitespace. */
  function Word(s: string): (w: string)
    ensures IsPrefix(w, s)
    ensures forall i :: 0 <= i < |w| ==> !IsSpace(w[i])
    ensures |w| < |s| ==> IsSpace(s[|w|])
    decreases |s|
  {
    if |s| == 0 || IsSpace(s[0]) then "" else [s[0]] + Word(s[1..])
  }

  /** Python's `split()` with no separator: the maximal runs of non-whitespace characters. */
  function SplitWhitespace(s: string): (words: seq<string>)
    ensures forall w :: w in words ==> |w| > 0 && forall i :: 0 <= i < |w| ==> !IsSpace(w[i])
    decreases |s|
  {
    var t := LStrip(s);
    if |t| == 0 then []
    else
      var w := Word(t);
      assert |w| > 0;
      assert |t[|w|..]| < |s|;
      [w] + SplitWhitespace(t[|w|..])
  }

  /** A text starting with a word followed by whitespace or nothing splits first into that word. */
  lemma SplitFirstWord(w: string, rest: string)
    requires |w| > 0 && forall i :: 0 <= i < |w| ==> !IsSpace(w[i])
    requires |rest| == 0 || IsSpace(rest[0])
    ensures |SplitWhitespace(w + rest)| > 0 && SplitWhitespace(w + rest)[0] == w
  {
    var s := w + rest;
    assert LStrip(s) == s;
    var x := Word(s);
    assert x == s[..|w|] == w;
  }

  /** Python's `split('\n')`: always at least one piece, none containing a newline. */
  function SplitLines(s: string): (lines: seq<string>)
    ensures |lines| >= 1
    ensures forall k :: 0 <= k < |lines| ==> '\n' !in lines[k]
    decreases |s|
  {
    if '\n' !in s then [s]
    else
      var i := IndexOf(s, '\n');
      [s[..i]] + SplitLines(s[i + 1..])
  }

  function IndexOf(s: string, c: char): (i: nat)
    requires c in s
    ensures i < |s| && s[i] == c && c !in s[..i]
  {
    if s[0] == c then 0 else 1 + IndexOf(s[1..], c)
  }

  /** Python's `capitalize()`: first character in upper case, the rest in lower case. */
  function Capitalize(s: string): (r: string)
    ensures |r| == |s|
    ensures |s| > 0 ==> r[0] == UpperChar(s[0]) && r[1..] == Lower(s[1..])
  {
    if |s| == 0 then "" else [UpperChar(s[0])] + Lower(s[1..])
  }

  /** Python's `s[:n]` on a sequence, including counts past the end and negative counts. */
  function Take<T>(s: seq<T>, n: int): (r: seq<T>)
    ensures n >= 0 ==> |r| == if n < |s| then n else |s|
    ensures n < 0 ==> |r| == if |s| + n > 0 then |s| + n else 0
    ensures |r| <= |s| && r == s[..|r|]
  {
    if n >= 0 then (if n < |s| then s[..n] else s)
    else if |s| + n > 0 then s[..|s| + n]
    else []
  }

  /** Taking as many as a first part holds keeps exactly that part. */
  lemma TakeAppend<T>(a: seq<T>, b: seq<T>, k: nat)
    requires |a| == k
    ensures Take(a + b, k) == a
  {
    assert (a + b)[..k] == a;
  }
}
