/**
 * What the concrete logic tree modules (Order 21, Order 21 costs, Order 5, Order 14)
 * share: reasoning steps built from a node's dimensions, a chain filtered by
 * dimension (`[s for s in chain if s.dimension == d]`), counting and first-match over
 * a dimension's items, the "not covered" result, and the end of every `search`:
 * `results.sort(key=score, reverse=True); return results[:top_k]`.
 */
module ModuleKit {
  import opened Wrappers
  import opened Text
  import opened JsonValue
  import opened SixDimensions
  import opened NodeTables
  import opened Ranking
  import opened Seqs

  // ---------------------------------------------------------------------------
  // Reasoning steps

  /** One `ReasoningStep` per proposition, in order, carrying the proposition's text. */
  function PropSteps(n: Node, dim: string, ps: seq<Proposition>): seq<ReasoningStep> {
    seq(|ps|, i requires 0 <= i < |ps| => StepOf(n, dim, ps[i].text))
  }

  /** One step per conditional, in order, carrying `str(conditional)`. */
  function CondSteps(n: Node, dim: string, cs: seq<Conditional>): seq<ReasoningStep> {
    seq(|cs|, i requires 0 <= i < |cs| => StepOf(n, dim, ConditionalText(cs[i])))
  }

  /** One step per modality, in order, carrying `str(modality)`. */
  function ModSteps(n: Node, dim: string, ms: seq<Modality>): seq<ReasoningStep> {
    seq(|ms|, i requires 0 <= i < |ms| => StepOf(n, dim, ModalityText(ms[i])))
  }

  /** Every step of `s` carries node `n`'s id, citation and authority weight. */
  predicate Belongs(s: seq<ReasoningStep>, n: Node) {
    forall i :: 0 <= i < |s| ==>
      s[i].nodeId == n.nodeId && s[i].citation == n.citation && s[i].authorityWeight == AuthorityWeight(n)
  }

  /** Every step of `s` is in dimension `dim`. */
  predicate InDimension(s: seq<ReasoningStep>, dim: string) {
    forall i :: 0 <= i < |s| ==> s[i].dimension == dim
  }

  /** Every step of `s` belongs to node `n` and to dimension `dim`. */
  predicate StepsOf(s: seq<ReasoningStep>, n: Node, dim: string) {
    Belongs(s, n) && InDimension(s, dim)
  }

  lemma BelongsAppend(a: seq<ReasoningStep>, b: seq<ReasoningStep>, n: Node)
    requires Belongs(a, n) && Belongs(b, n)
    ensures Belongs(a + b, n)
  {
    forall i | 0 <= i < |a + b|
      ensures (a + b)[i].nodeId == n.nodeId && (a + b)[i].citation == n.citation
              && (a + b)[i].authorityWeight == AuthorityWeight(n)
    {
      if i >= |a| {
        assert (a + b)[i] == b[i - |a|];
      }
    }
  }

  lemma StepsOfAll(n: Node, dim: string, ps: seq<Proposition>, cs: seq<Conditional>, ms: seq<Modality>)
    ensures StepsOf(PropSteps(n, dim, ps), n, dim)
    ensures StepsOf(CondSteps(n, dim, cs), n, dim)
    ensures StepsOf(ModSteps(n, dim, ms), n, dim)
  {
  }

  /** The loop `for p in ps: chain.append(ReasoningStep(...p.text...))`. */
  method AppendPropSteps(chain: seq<ReasoningStep>, n: Node, dim: string, ps: seq<Proposition>)
    returns (r: seq<ReasoningStep>)
    ensures r == chain + PropSteps(n, dim, ps)
  {
    r := chain;
    var i := 0;
    while i < |ps|
      invariant 0 <= i <= |ps|
      invariant r == chain + PropSteps(n, dim, ps[..i])
    {
      assert PropSteps(n, dim, ps[..i + 1]) == PropSteps(n, dim, ps[..i]) + [StepOf(n, dim, ps[i].text)];
      r := r + [StepOf(n, dim, ps[i].text)];
      i := i + 1;
    }
    assert ps[..i] == ps;
  }

  /** The loop `for c in cs: chain.append(ReasoningStep(...str(c)...))`. */
  method AppendCondSteps(chain: seq<ReasoningStep>, n: Node, dim: string, cs: seq<Conditional>)
    returns (r: seq<ReasoningStep>)
    ensures r == chain + CondSteps(n, dim, cs)
  {
    r := chain;
    var i := 0;
    while i < |cs|
      invariant 0 <= i <= |cs|
      invariant r == chain + CondSteps(n, dim, cs[..i])
    {
      assert CondSteps(n, dim, cs[..i + 1]) == CondSteps(n, dim, cs[..i]) + [StepOf(n, dim, ConditionalText(cs[i]))];
      r := r + [StepOf(n, dim, ConditionalText(cs[i]))];
      i := i + 1;
    }
    assert cs[..i] == cs;
  }

  /** The loop `for m in ms: chain.append(ReasoningStep(...str(m)...))`. */
  method AppendModSteps(chain: seq<ReasoningStep>, n: Node, dim: string, ms: seq<Modality>)
    returns (r: seq<ReasoningStep>)
    ensures r == chain + ModSteps(n, dim, ms)
  {
    r := chain;
    var i := 0;
    while i < |ms|
      invariant 0 <= i <= |ms|
      invariant r == chain + ModSteps(n, dim, ms[..i])
    {
      assert ModSteps(n, dim, ms[..i + 1]) == ModSteps(n, dim, ms[..i]) + [StepOf(n, dim, ModalityText(ms[i]))];
      r := r + [StepOf(n, dim, ModalityText(ms[i]))];
      i := i + 1;
    }
    assert ms[..i] == ms;
  }

  /** `[step for step in chain if step.dimension == dim]`. */
  function StepsIn(chain: seq<ReasoningStep>, dim: string): (r: seq<ReasoningStep>)
    ensures |r| <= |chain|
    ensures forall s :: s in r <==> s in chain && s.dimension == dim
  {
    if |chain| == 0 then []
    else (if chain[0].dimension == dim then [chain[0]] else []) + StepsIn(chain[1..], dim)
  }

  /** Filtering a concatenation filters each part. */
  lemma {:induction false} StepsInAppend(a: seq<ReasoningStep>, b: seq<ReasoningStep>, dim: string)
    ensures StepsIn(a + b, dim) == StepsIn(a, dim) + StepsIn(b, dim)
  {
    if |a| > 0 {
      assert (a + b)[0] == a[0];
      assert (a + b)[1..] == a[1..] + b;
      StepsInAppend(a[1..], b, dim);
    } else {
      assert a + b == b;
    }
  }

  /** A run of steps of one dimension is kept whole by its own filter and dropped by any other. */
  lemma {:induction false} StepsInUniform(s: seq<ReasoningStep>, d: string, dim: string)
    requires InDimension(s, d)
    ensures StepsIn(s, dim) == if d == dim then s else []
  {
    if |s| > 0 {
      StepsInUniform(s[1..], d, dim);
    }
  }

  /** Filtering four consecutive runs, each of one dimension, keeps the runs of that dimension. */
  lemma StepsInRuns(a: seq<ReasoningStep>, b: seq<ReasoningStep>, c: seq<ReasoningStep>, d: seq<ReasoningStep>,
                    da: string, db: string, dc: string, dd: string, dim: string)
    requires InDimension(a, da) && InDimension(b, db) && InDimension(c, dc) && InDimension(d, dd)
    ensures StepsIn(a + b + c + d, dim)
         == (if da == dim then a else []) + (if db == dim then b else [])
          + (if dc == dim then c else []) + (if dd == dim then d else [])
  {
    StepsInAppend(a + b + c, d, dim);
    StepsInAppend(a + b, c, dim);
    StepsInAppend(a, b, dim);
    StepsInUniform(a, da, dim);
    StepsInUniform(b, db, dim);
    StepsInUniform(c, dc, dim);
    StepsInUniform(d, dd, dim);
  }

  // ---------------------------------------------------------------------------
  // Counting and first match over a dimension's items

  /** How many items satisfy `p`: a loop doing `score += w` per matching item counts these. */
  function Count<T>(s: seq<T>, p: T -> bool): (c: nat)
    ensures c <= |s|
    ensures c == 0 <==> forall i :: 0 <= i < |s| ==> !p(s[i])
  {
    if |s| == 0 then 0
    else
      var init := s[..|s| - 1];
      assert forall i :: 0 <= i < |init| ==> init[i] == s[i];
      Count(init, p) + (if p(Last(s)) then 1 else 0)
  }

  /** The first item satisfying `p`: what a loop with `break` (or `if not matched:`) picks. */
  function First<T>(s: seq<T>, p: T -> bool): (r: Option<T>)
    ensures r.None? <==> forall i :: 0 <= i < |s| ==> !p(s[i])
    ensures r.Some? ==> exists i :: 0 <= i < |s| && s[i] == r.value && p(s[i]) &&
                          forall k :: 0 <= k < i ==> !p(s[k])
  {
    if |s| == 0 then None
    else
      var init := s[..|s| - 1];
      assert forall i :: 0 <= i < |init| ==> init[i] == s[i];
      var f := First(init, p);
      if f.Some? then f else if p(Last(s)) then Some(Last(s)) else None
  }

  lemma CountSnoc<T>(s: seq<T>, p: T -> bool, i: nat)
    requires i < |s|
    ensures Count(s[..i + 1], p) == Count(s[..i], p) + (if p(s[i]) then 1 else 0)
    ensures First(s[..i + 1], p) == (if First(s[..i], p).Some? then First(s[..i], p)
                                     else if p(s[i]) then Some(s[i]) else None)
  {
    assert s[..i + 1][..i] == s[..i];
  }

  /** Once a prefix holds a match, the first match of the whole sequence is that one. */
  lemma {:induction false} FirstPrefix<T>(s: seq<T>, k: nat, p: T -> bool)
    requires k <= |s| && First(s[..k], p).Some?
    ensures First(s, p) == First(s[..k], p)
    decreases |s| - k
  {
    if k < |s| {
      var init := s[..|s| - 1];
      assert init[..k] == s[..k];
      FirstPrefix(init, k, p);
    } else {
      assert s[..k] == s;
    }
  }

  /** The first match is the item at an index that matches with no match before it. */
  lemma FirstAt<T>(s: seq<T>, p: T -> bool, i: nat)
    requires i < |s| && p(s[i]) && forall k :: 0 <= k < i ==> !p(s[k])
    ensures First(s, p) == Some(s[i])
  {
    var j :| 0 <= j < |s| && s[j] == First(s, p).value && p(s[j]) && forall k :: 0 <= k < j ==> !p(s[k]);
    assert j == i;
  }

  /** Neither of two items satisfies `p`, so `First` finds nothing. */
  lemma FirstOfTwoNone<T>(s: seq<T>, p: T -> bool)
    requires |s| == 2 && !p(s[0]) && !p(s[1])
    ensures First(s, p) == None
  {
    forall i | 0 <= i < |s|
      ensures !p(s[i])
    {
      if i == 0 {
      } else {
        assert i == 1;
      }
    }
  }

  /** `query in text.lower()` for a proposition. */
  function PropTest(q: string): Proposition -> bool {
    (p: Proposition) => Contains(Lower(p.text), q)
  }

  /** `query in cond.condition.lower() or query in cond.consequence.lower()`. */
  function CondTest(q: string): Conditional -> bool {
    (c: Conditional) => Contains(Lower(c.condition), q) || Contains(Lower(c.consequence), q)
  }

  /** `query in mod.action.lower()`. */
  function ModTest(q: string): Modality -> bool {
    (m: Modality) => Contains(Lower(m.action), q)
  }

  /** `w` when `hit`, else 0.0: one flat score term. */
  function Bonus(hit: bool, w: real): real {
    if hit then w else 0.0
  }

  // ---------------------------------------------------------------------------
  // Scanning one dimension for `search`

  /** A recorded match: the matched dimension's name and the matched text. */
  type Match = (string, string)

  /** `if not matched_dimension: matched_dimension, matched_text = ...`: a later match only fills an empty record. */
  function Then(a: Match, b: Match): (r: Match)
    ensures r == a || r == b
    ensures a.0 != "" ==> r == a
    ensures a.0 == "" && b.0 != "" ==> r == b
  {
    if a.0 == "" && b.0 != "" then b else a
  }

  /** The first proposition holding the query, recorded under `dim`, or nothing. */
  function PropMatch(ps: seq<Proposition>, q: string, dim: string): Match {
    var p := First(ps, PropTest(q));
    if p.Some? then (dim, p.value.text) else ("", "")
  }

  /** The first matching conditional, rendered with `str`, or nothing. */
  function CondMatch(cs: seq<Conditional>, q: string): Match {
    var c := First(cs, CondTest(q));
    if c.Some? then ("IF_THEN", ConditionalText(c.value)) else ("", "")
  }

  /** The first matching modality, rendered with `str`, or nothing. */
  function ModMatch(ms: seq<Modality>, q: string): Match {
    var m := First(ms, ModTest(q));
    if m.Some? then ("CAN_MUST", ModalityText(m.value)) else ("", "")
  }

  /**
   * A node's first loop, `for prop in ps: if q in prop.text.lower(): score += w; record;
   * break`, starting from a zero score and no record.
   */
  method ScanFirstProp(ps: seq<Proposition>, q: string, w: real, dim: string)
    returns (score: real, m: Match)
    ensures score == Bonus(First(ps, PropTest(q)).Some?, w)
    ensures m == PropMatch(ps, q, dim)
  {
    score, m := 0.0, ("", "");
    var i := 0;
    while i < |ps|
      invariant 0 <= i <= |ps|
      invariant First(ps[..i], PropTest(q)).None?
      invariant score == 0.0 && m == ("", "")
    {
      CountSnoc(ps, PropTest(q), i);
      if Contains(Lower(ps[i].text), q) {
        score, m := w, (dim, ps[i].text);
        FirstPrefix(ps, i + 1, PropTest(q));
        return;
      }
      i := i + 1;
    }
    assert ps[..i] == ps;
  }

  /** The loop `for cond in cs: if q in condition or consequence: score += 1.5; record if none`. */
  method ScanConds(cs: seq<Conditional>, q: string, score0: real, m0: Match)
    returns (score: real, m: Match)
    ensures score == score0 + 1.5 * Count(cs, CondTest(q)) as real
    ensures m == Then(m0, CondMatch(cs, q))
  {
    score, m := score0, m0;
    var i := 0;
    while i < |cs|
      invariant 0 <= i <= |cs|
      invariant score == score0 + 1.5 * Count(cs[..i], CondTest(q)) as real
      invariant m == Then(m0, CondMatch(cs[..i], q))
    {
      CountSnoc(cs, CondTest(q), i);
      if Contains(Lower(cs[i].condition), q) || Contains(Lower(cs[i].consequence), q) {
        score := score + 1.5;
        if m.0 == "" {
          m := ("IF_THEN", ConditionalText(cs[i]));
        }
      }
      i := i + 1;
    }
    assert cs[..i] == cs;
  }

  /** The loop `for mod in ms: if q in mod.action.lower(): score += 1.5; record if none`. */
  method ScanMods(ms: seq<Modality>, q: string, score0: real, m0: Match)
    returns (score: real, m: Match)
    ensures score == score0 + 1.5 * Count(ms, ModTest(q)) as real
    ensures m == Then(m0, ModMatch(ms, q))
  {
    score, m := score0, m0;
    var i := 0;
    while i < |ms|
      invariant 0 <= i <= |ms|
      invariant score == score0 + 1.5 * Count(ms[..i], ModTest(q)) as real
      invariant m == Then(m0, ModMatch(ms[..i], q))
    {
      CountSnoc(ms, ModTest(q), i);
      if Contains(Lower(ms[i].action), q) {
        score := score + 1.5;
        if m.0 == "" {
          m := ("CAN_MUST", ModalityText(ms[i]));
        }
      }
      i := i + 1;
    }
    assert ms[..i] == ms;
  }

  /** The first proposition holding the query, recorded under `dim` with its text clipped by `clip`, or nothing. */
  function PropMatchAs(ps: seq<Proposition>, q: string, dim: string, clip: string -> string): Match {
    var p := First(ps, PropTest(q));
    if p.Some? then (dim, clip(p.value.text)) else ("", "")
  }

  /**
   * The loop `for prop in ps: if q in prop.text.lower(): score += w; record if none`,
   * the recorded text being `clip(prop.text)` (`prop.text[:200]` for WHY).
   */
  method ScanProps(ps: seq<Proposition>, q: string, w: real, dim: string, clip: string -> string,
                   score0: real, m0: Match)
    returns (score: real, m: Match)
    requires dim != ""
    ensures score == score0 + Weigh(Count(ps, PropTest(q)), w)
    ensures m == Then(m0, PropMatchAs(ps, q, dim, clip))
  {
    score, m := score0, m0;
    var i := 0;
    while i < |ps|
      invariant 0 <= i <= |ps|
      invariant score == score0 + Weigh(Count(ps[..i], PropTest(q)), w)
      invariant m == Then(m0, PropMatchAs(ps[..i], q, dim, clip))
    {
      ScanPropsStep(ps, q, w, dim, clip, m0, i);
      if Contains(Lower(ps[i].text), q) {
        score := score + w;
        if m.0 == "" {
          m := (dim, clip(ps[i].text));
        }
      }
      i := i + 1;
    }
    assert ps[..i] == ps;
  }

  /** One round of that loop: the score and the recorded match after one more proposition. */
  lemma ScanPropsStep(ps: seq<Proposition>, q: string, w: real, dim: string, clip: string -> string,
                      m0: Match, i: nat)
    requires i < |ps| && dim != ""
    ensures Weigh(Count(ps[..i + 1], PropTest(q)), w)
      == Weigh(Count(ps[..i], PropTest(q)), w) + (if Contains(Lower(ps[i].text), q) then w else 0.0)
    ensures var m := Then(m0, PropMatchAs(ps[..i], q, dim, clip));
      Then(m0, PropMatchAs(ps[..i + 1], q, dim, clip))
      == if Contains(Lower(ps[i].text), q) && m.0 == "" then (dim, clip(ps[i].text)) else m
  {
    CountSnoc(ps, PropTest(q), i);
  }

  /** `w` added `n` times, as a loop doing `score += w` per match adds it. */
  function Weigh(n: nat, w: real): (r: real)
    ensures w >= 0.0 ==> r >= 0.0
    ensures w > 0.0 ==> (r > 0.0 <==> n > 0)
  {
    if n == 0 then 0.0 else Weigh(n - 1, w) + w
  }

  /** Adding `w` once per match is multiplying the number of matches by `w`. */
  lemma {:induction false} WeighIsProduct(n: nat, w: real)
    ensures Weigh(n, w) == w * n as real
  {
    if n > 0 {
      WeighIsProduct(n - 1, w);
      assert w * n as real == w * (n - 1) as real + w;
    }
  }

  /** Adding a non-negative `w` at most `m` times adds at most `w * m`. */
  lemma WeighBound(n: nat, w: real, m: nat)
    requires n <= m && w >= 0.0
    ensures Weigh(n, w) <= w * m as real
  {
    WeighIsProduct(n, w);
    assert w * n as real <= w * m as real;
  }

  // ---------------------------------------------------------------------------
  // Keeping the hits of `search`

  /** `for node in ns: ...; if score > 0: results.append(result)`: the hits scoring above zero, in order. */
  function Kept(ns: seq<Node>, hit: Node -> SearchResult): (r: seq<SearchResult>)
    ensures |r| <= |ns|
  {
    if |ns| == 0 then []
    else
      var h := hit(Last(ns));
      Kept(ns[..|ns| - 1], hit) + (if h.relevanceScore > 0.0 then [h] else [])
  }

  lemma KeptSnoc(ns: seq<Node>, hit: Node -> SearchResult, i: nat)
    requires i < |ns|
    ensures Kept(ns[..i + 1], hit)
         == Kept(ns[..i], hit) + (if hit(ns[i]).relevanceScore > 0.0 then [hit(ns[i])] else [])
  {
    assert ns[..i + 1][..i] == ns[..i];
  }

  /** The kept results are exactly the hits of the nodes scoring above zero. */
  lemma {:induction false} KeptMeaning(ns: seq<Node>, hit: Node -> SearchResult)
    ensures forall h :: h in Kept(ns, hit) ==>
      h.relevanceScore > 0.0 && exists i :: 0 <= i < |ns| && h == hit(ns[i])
    ensures forall i :: 0 <= i < |ns| && hit(ns[i]).relevanceScore > 0.0 ==> hit(ns[i]) in Kept(ns, hit)
  {
    if |ns| > 0 {
      var init := ns[..|ns| - 1];
      KeptMeaning(init, hit);
      assert forall i :: 0 <= i < |init| ==> init[i] == ns[i];
    }
  }

  /** `search` over a table: every node scored in insertion order, the hits ranked. */
  function SearchOver(t: Nodes, hit: Node -> SearchResult, topK: int): seq<SearchResult> {
    Ranked(Kept(Values(t), hit), topK)
  }

  /**
   * What `search` returns: hits of the table's own nodes, each scoring above zero, best
   * first, at most `topK`, and every scoring node's hit when `topK` covers the table.
   */
  lemma SearchOverMeaning(t: Nodes, hit: Node -> SearchResult, topK: int)
    ensures SortedDesc(SearchOver(t, hit, topK), Relevance)
    ensures topK >= 0 ==> |SearchOver(t, hit, topK)| <= topK
    ensures forall h :: h in SearchOver(t, hit, topK) ==>
      h.relevanceScore > 0.0 && exists k :: k in t.byId && h == hit(t.byId[k])
    ensures topK >= |t.ids| ==>
      forall k :: k in t.byId && hit(t.byId[k]).relevanceScore > 0.0 ==> hit(t.byId[k]) in SearchOver(t, hit, topK)
  {
    RankedMeaning(Kept(Values(t), hit), topK);
    HitsFromTable(t, hit, topK);
    if topK >= |t.ids| {
      HitsComplete(t, hit, topK);
    }
  }

  lemma HitsFromTable(t: Nodes, hit: Node -> SearchResult, topK: int)
    ensures forall h :: h in SearchOver(t, hit, topK) ==>
      h.relevanceScore > 0.0 && exists k :: k in t.byId && h == hit(t.byId[k])
  {
    KeptFromTable(t, hit);
    RankedSubset(Kept(Values(t), hit), topK);
  }

  /** Every kept hit scores above zero and is the hit of a node under some key. */
  lemma KeptFromTable(t: Nodes, hit: Node -> SearchResult)
    ensures forall h :: h in Kept(Values(t), hit) ==>
      h.relevanceScore > 0.0 && exists k :: k in t.byId && h == hit(t.byId[k])
  {
    var ns := Values(t);
    KeptMeaning(ns, hit);
    forall h | h in Kept(ns, hit)
      ensures exists k :: k in t.byId && h == hit(t.byId[k])
    {
      var i :| 0 <= i < |ns| && h == hit(ns[i]);
      assert h == hit(t.byId[t.ids[i]]);
    }
  }

  /** Ranking only drops hits. */
  lemma RankedSubset(hits: seq<SearchResult>, topK: int)
    ensures forall x :: x in Ranked(hits, topK) ==> x in hits
  {
    RankedMeaning(hits, topK);
  }

  lemma HitsComplete(t: Nodes, hit: Node -> SearchResult, topK: int)
    requires topK >= |t.ids|
    ensures forall k :: k in t.byId && hit(t.byId[k]).relevanceScore > 0.0 ==> hit(t.byId[k]) in SearchOver(t, hit, topK)
  {
    var ns := Values(t);
    KeptMeaning(ns, hit);
    forall k | k in t.byId && hit(t.byId[k]).relevanceScore > 0.0
      ensures hit(t.byId[k]) in Ranked(Kept(ns, hit), topK)
    {
      var i :| 0 <= i < |t.ids| && t.ids[i] == k;
      assert ns[i] == t.byId[k];
      RankedKeepsAll(Kept(ns, hit), topK, hit(t.byId[k]));
    }
  }

  /**
   * `search` with a first pass: the hits `boost` gives (those scoring above zero), then
   * the hits `hit` gives, both in insertion order, ranked together. A node can appear
   * once from each pass.
   */
  function BoostedSearchOver(t: Nodes, boost: Node -> SearchResult, hit: Node -> SearchResult, topK: int)
    : seq<SearchResult>
  {
    Ranked(Kept(Values(t), boost) + Kept(Values(t), hit), topK)
  }

  /**
   * What a boosted `search` returns: hits of either pass for the table's own nodes, each
   * scoring above zero, best first, at most `topK`, and, when `topK` covers both passes,
   * every scoring hit of either pass.
   */
  lemma BoostedSearchOverMeaning(t: Nodes, boost: Node -> SearchResult, hit: Node -> SearchResult, topK: int)
    ensures SortedDesc(BoostedSearchOver(t, boost, hit, topK), Relevance)
    ensures topK >= 0 ==> |BoostedSearchOver(t, boost, hit, topK)| <= topK
    ensures forall h :: h in BoostedSearchOver(t, boost, hit, topK) ==>
      h.relevanceScore > 0.0 && exists k :: k in t.byId && (h == boost(t.byId[k]) || h == hit(t.byId[k]))
    ensures topK >= 2 * |t.ids| ==>
      forall k :: k in t.byId ==>
        (boost(t.byId[k]).relevanceScore > 0.0 ==> boost(t.byId[k]) in BoostedSearchOver(t, boost, hit, topK))
        && (hit(t.byId[k]).relevanceScore > 0.0 ==> hit(t.byId[k]) in BoostedSearchOver(t, boost, hit, topK))
  {
    var hits := Kept(Values(t), boost) + Kept(Values(t), hit);
    RankedMeaning(hits, topK);
    BoostedHitsFromTable(t, boost, hit, topK);
    if topK >= 2 * |t.ids| {
      BoostedHitsComplete(t, boost, hit, topK);
    }
  }

  lemma BoostedHitsFromTable(t: Nodes, boost: Node -> SearchResult, hit: Node -> SearchResult, topK: int)
    ensures forall h :: h in BoostedSearchOver(t, boost, hit, topK) ==>
      h.relevanceScore > 0.0 && exists k :: k in t.byId && (h == boost(t.byId[k]) || h == hit(t.byId[k]))
  {
    var a, b := Kept(Values(t), boost), Kept(Values(t), hit);
    KeptFromTable(t, boost);
    KeptFromTable(t, hit);
    RankedSubset(a + b, topK);
    forall h | h in Ranked(a + b, topK)
      ensures h.relevanceScore > 0.0 && exists k :: k in t.byId && (h == boost(t.byId[k]) || h == hit(t.byId[k]))
    {
      assert h in a || h in b;
    }
  }

  lemma BoostedHitsComplete(t: Nodes, boost: Node -> SearchResult, hit: Node -> SearchResult, topK: int)
    requires topK >= 2 * |t.ids|
    ensures forall k :: k in t.byId ==>
        (boost(t.byId[k]).relevanceScore > 0.0 ==> boost(t.byId[k]) in BoostedSearchOver(t, boost, hit, topK))
        && (hit(t.byId[k]).relevanceScore > 0.0 ==> hit(t.byId[k]) in BoostedSearchOver(t, boost, hit, topK))
  {
    var ns := Values(t);
    var a := Kept(ns, boost);
    var b := Kept(ns, hit);
    KeptMeaning(ns, boost);
    KeptMeaning(ns, hit);
    forall k | k in t.byId
      ensures boost(t.byId[k]).relevanceScore > 0.0 ==> boost(t.byId[k]) in Ranked(a + b, topK)
      ensures hit(t.byId[k]).relevanceScore > 0.0 ==> hit(t.byId[k]) in Ranked(a + b, topK)
    {
      var i :| 0 <= i < |t.ids| && t.ids[i] == k;
      assert ns[i] == t.byId[k];
      if boost(t.byId[k]).relevanceScore > 0.0 {
        RankedKeepsAll(a + b, topK, boost(t.byId[k]));
      }
      if hit(t.byId[k]).relevanceScore > 0.0 {
        RankedKeepsAll(a + b, topK, hit(t.byId[k]));
      }
    }
  }

  // ---------------------------------------------------------------------------
  // Results

  /** `[id]` when the table holds `id`, else nothing: `if id in self.nodes: append(...)`. */
  function Picked(t: Nodes, id: string): (r: seq<string>)
    ensures r == [] || r == [id]
    ensures id in t.byId <==> r == [id]
  {
    if id in t.byId then [id] else []
  }

  /** What `reason` returns when no rule applies: confidence 0, no chain, one warning. */
  function NotCovered(conclusion: string, warning: string): (r: ReasoningResult)
    ensures r.confidence == 0.0 && r.reasoningChain == [] && r.warnings == [warning]
    ensures r.conclusion == conclusion && r.applicableNodes == []
  {
    ReasoningResult(conclusion, 0.0, [], [], [], [warning], map[])
  }

  /** The nodes of a table in insertion order: `nodes.values()`. */
  function Values(t: Nodes): (r: seq<Node>)
    ensures |r| == |t.ids| && forall i :: 0 <= i < |t.ids| ==> r[i] == t.byId[t.ids[i]]
  {
    NodesOf(t, t.ids)
  }

  function Relevance(r: SearchResult): real {
    r.relevanceScore
  }

  /** `results.sort(key=lambda x: x.relevance_score, reverse=True); results[:top_k]`. */
  function Ranked(hits: seq<SearchResult>, topK: int): seq<SearchResult> {
    Take(SortDesc(hits, Relevance), topK)
  }

  /**
   * The ranking keeps only hits, in non-increasing score order, at most `topK` of them,
   * all of them when `topK` covers the list, and none scoring below one it dropped.
   */
  lemma RankedMeaning(hits: seq<SearchResult>, topK: int)
    ensures SortedDesc(Ranked(hits, topK), Relevance)
    ensures topK >= 0 ==> |Ranked(hits, topK)| == if topK < |hits| then topK else |hits|
    ensures forall x :: x in Ranked(hits, topK) ==> x in hits
    ensures topK >= |hits| ==> multiset(Ranked(hits, topK)) == multiset(hits)
    ensures forall i, j :: 0 <= i < |Ranked(hits, topK)| <= j < |hits| ==>
      Ranked(hits, topK)[i].relevanceScore >= SortDesc(hits, Relevance)[j].relevanceScore
  {
    var s := SortDesc(hits, Relevance);
    var r := Ranked(hits, topK);
    SortDescSorted(hits, Relevance);
    SortDescPermutes(hits, Relevance);
    assert r == s[..|r|];
    forall x | x in r
      ensures x in hits
    {
      assert x in multiset(s);
      assert x in multiset(hits);
    }
    if topK >= |hits| {
      assert r == s;
    }
  }

  /** When `topK` covers the list, ranking drops nothing. */
  lemma RankedKeepsAll(hits: seq<SearchResult>, topK: int, x: SearchResult)
    requires topK >= |hits| && x in hits
    ensures x in Ranked(hits, topK)
  {
    SortDescPermutes(hits, Relevance);
    assert x in multiset(hits);
  }
}
