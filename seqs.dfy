/** Small facts about sequences used across the model. */
module Seqs {

  predicate Distinct<T(==)>(s: seq<T>) {
    forall i, j :: 0 <= i < j < |s| ==> s[i] != s[j]
  }

  function Last<T>(s: seq<T>): T
    requires |s| > 0
  {
    s[|s| - 1]
  }

  /** A sequence's multiset is that of all but its last element, plus the last. */
  lemma MultisetSnoc<T>(s: seq<T>)
    requires |s| > 0
    ensures multiset(s) == multiset(s[..|s| - 1]) + multiset{Last(s)}
  {
    assert s == s[..|s| - 1] + [Last(s)];
  }

  /** A property of ten values holds for every element of their sequence. */
  lemma EachOfTen<T>(p: T -> bool, x0: T, x1: T, x2: T, x3: T, x4: T, x5: T, x6: T, x7: T, x8: T, x9: T)
    requires p(x0) && p(x1) && p(x2) && p(x3) && p(x4) && p(x5) && p(x6) && p(x7) && p(x8) && p(x9)
    ensures forall x :: x in [x0, x1, x2, x3, x4, x5, x6, x7, x8, x9] ==> p(x)
  {
  }

  /** A property of seven values holds for every element of their sequence. */
  lemma EachOfSeven<T>(p: T -> bool, x0: T, x1: T, x2: T, x3: T, x4: T, x5: T, x6: T)
    requires p(x0) && p(x1) && p(x2) && p(x3) && p(x4) && p(x5) && p(x6)
    ensures forall x :: x in [x0, x1, x2, x3, x4, x5, x6] ==> p(x)
  {
  }

  /** The non-empty strings `f` gives for the elements of `s`, in order. */
  function NonEmptyImages<T>(s: seq<T>, f: T -> string): seq<string>
    decreases |s|
  {
    if |s| == 0 then []
    else NonEmptyImages(s[..|s| - 1], f) + (if f(Last(s)) != "" then [f(Last(s))] else [])
  }

  /** Each of those strings is non-empty and is the image of an element. */
  lemma {:induction false} NonEmptyImagesFrom<T>(s: seq<T>, f: T -> string)
    ensures forall c :: c in NonEmptyImages(s, f) ==> c != "" && exists x :: x in s && c == f(x)
    decreases |s|
  {
    if |s| > 0 {
      NonEmptyImagesFrom(s[..|s| - 1], f);
      assert forall x :: x in s[..|s| - 1] ==> x in s;
    }
  }

  /** One more element adds its image when that is not empty. */
  lemma NonEmptyImagesSnoc<T>(s: seq<T>, f: T -> string, j: nat)
    requires j < |s|
    ensures NonEmptyImages(s[..j + 1], f) == NonEmptyImages(s[..j], f) + (if f(s[j]) != "" then [f(s[j])] else [])
  {
    assert s[..j + 1][..j] == s[..j] && Last(s[..j + 1]) == s[j];
  }

  /** A prefix one longer is the prefix followed by the next element, after any `a`. */
  lemma PrefixSnoc<T>(a: seq<T>, s: seq<T>, j: nat)
    requires j < |s|
    ensures a + s[..j + 1] == (a + s[..j]) + [s[j]]
  {
    assert s[..j + 1] == s[..j] + [s[j]];
  }

  /** The pieces `f` gives for the elements of `s`, one after the other. */
  function FlatMap<T, U>(s: seq<T>, f: T -> seq<U>): seq<U> {
    if |s| == 0 then [] else FlatMap(s[..|s| - 1], f) + f(Last(s))
  }

  /** Extending the sequence by one element appends that element's piece. */
  lemma FlatMapSnoc<T, U>(s: seq<T>, f: T -> seq<U>, i: nat)
    requires i < |s|
    ensures FlatMap(s[..i + 1], f) == FlatMap(s[..i], f) + f(s[i])
  {
    assert s[..i + 1][..i] == s[..i];
  }

  /** The first element's piece comes first. */
  lemma {:induction false} FlatMapCons<T, U>(s: seq<T>, f: T -> seq<U>)
    requires |s| > 0
    ensures FlatMap(s, f) == f(s[0]) + FlatMap(s[1..], f)
    decreases |s|
  {
    if |s| == 1 {
      assert s[..0] == [] && s[1..] == [];
    } else {
      var init := s[..|s| - 1];
      FlatMapCons(init, f);
      assert init[0] == s[0];
      assert s[1..][..|s[1..]| - 1] == init[1..];
      assert Last(s[1..]) == Last(s);
    }
  }

  /** Pieces of at most `b` elements give at most `b` per element. */
  lemma {:induction false} FlatMapLength<T, U>(s: seq<T>, f: T -> seq<U>, b: nat)
    requires forall x :: x in s ==> |f(x)| <= b
    ensures |FlatMap(s, f)| <= b * |s|
    decreases |s|
  {
    if |s| > 0 {
      var init := s[..|s| - 1];
      assert forall x :: x in init ==> x in s;
      FlatMapLength(init, f, b);
      assert Last(s) in s;
      assert b * (|s| - 1) + b == b * |s|;
    }
  }

  /** Where element `i` of the result comes from: element `j` of the piece of `s[k]`. */
  lemma {:induction false} FlatMapSource<T, U>(s: seq<T>, f: T -> seq<U>, i: nat) returns (k: nat, j: nat)
    requires i < |FlatMap(s, f)|
    ensures k < |s| && j < |f(s[k])| && FlatMap(s, f)[i] == f(s[k])[j]
    decreases |s|
  {
    var init := s[..|s| - 1];
    var head := FlatMap(init, f);
    if i < |head| {
      k, j := FlatMapSource(init, f, i);
      assert init[k] == s[k];
    } else {
      k, j := |s| - 1, i - |head|;
    }
  }

  /** Two displays of five, one after the other, are the display of ten. */
  lemma Concat5And5<T>(x0: T, x1: T, x2: T, x3: T, x4: T, x5: T, x6: T, x7: T, x8: T, x9: T)
    ensures [x0, x1, x2, x3, x4] + [x5, x6, x7, x8, x9] == [x0, x1, x2, x3, x4, x5, x6, x7, x8, x9]
  {
  }

  /** A sequence without repetitions has as many elements as its set. */
  lemma {:induction false} DistinctCard<T>(s: seq<T>)
    requires Distinct(s)
    ensures |set x | x in s| == |s|
  {
    if |s| > 0 {
      var init := s[..|s| - 1];
      assert Distinct(init);
      DistinctCard(init);
      assert (set x | x in s) == (set x | x in init) + {Last(s)};
      assert Last(s) !in init;
    }
  }

  /** Two repetition-free sequences with the same elements have the same length. */
  lemma SameElementsSameLength<T>(s: seq<T>, t: seq<T>)
    requires Distinct(s) && Distinct(t)
    requires forall x :: x in s <==> x in t
    ensures |s| == |t|
  {
    DistinctCard(s);
    DistinctCard(t);
    assert (set x | x in s) == (set x | x in t);
  }

  lemma AppendDistinct<T>(s: seq<T>, x: T)
    requires Distinct(s) && x !in s
    ensures Distinct(s + [x])
  {
  }

  lemma HeadNotInTail<T>(s: seq<T>)
    requires Distinct(s) && |s| > 0
    ensures s[0] !in s[1..]
  {
    forall i | 0 <= i < |s| - 1
      ensures s[1..][i] != s[0]
    {
      assert s[1..][i] == s[i + 1];
    }
  }

  lemma AppendFrontDistinct<T>(x: T, s: seq<T>)
    requires Distinct(s) && x !in s
    ensures Distinct([x] + s)
  {
  }

  /** Removing one more element of `u` from `s` strictly shrinks what is left of `u`. */
  lemma RemainingShrinks<T>(u: set<T>, s: set<T>, x: T)
    requires x in u && x !in s
    ensures |u - (s + {x})| < |u - s|
  {
    assert u - (s + {x}) == (u - s) - {x};
  }
}
