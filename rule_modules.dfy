/**
 * What the Order 5 and Order 14 modules share. Each picks one target rule by keyword,
 * builds a reasoning chain over all six dimensions of it, answers from question-form
 * templates and scores search hits additively.
 *
 * As written, both modules call the result dataclasses with keyword arguments those
 * classes do not declare, and read a `Modality.exceptions` attribute that does not
 * exist. The first half of this module models those calls and the exception each one
 * raises, in the order the code makes them. The second half models the behaviour the
 * code evidently intends, built from the dataclasses' own fields.
 */
module RuleModules {
  import opened Wrappers
  import opened Text
  import opened SixDimensions
  import opened NodeTables
  import opened Ranking
  import opened Seqs
  import opened ModuleKit

  // ---------------------------------------------------------------------------
  // Calls that raise

  /** The keyword arguments and attributes the two modules name, spelled as in Python. */
  datatype Attr =
    | node_id | citation | dimension | text | authority_weight
    | node | relevance_score | reasoning_path | matched_dimension | matched_text
    | conclusion | confidence | reasoning_chain | alternative_paths | applicable_nodes | warnings | metadata
    | action | modality_type | conditions | source_line
    | source_citation | score | source_nodes | exceptions

  /** The Python exceptions the two modules can raise, with the class and name involved. */
  datatype PyError =
    | UnexpectedKeyword(cls: string, arg: Attr)    // TypeError: got an unexpected keyword argument
    | MissingArgument(cls: string, arg: Attr)      // TypeError: missing a required argument
    | NoAttribute(cls: string, attr: Attr)         // AttributeError: object has no attribute

  /** What a call returns, or the exception it raises. */
  datatype Outcome<T> = Raised(error: PyError) | Returned(value: T)

  /**
   * A dataclass as far as calling it and reading it go: its name, its fields in
   * declaration order, and how many of the leading fields have no default.
   */
  datatype Dataclass = Dataclass(name: string, fields: seq<Attr>, required: nat)

  /** The first item of `xs` that is not in `ys`. */
  function FirstNotIn(xs: seq<Attr>, ys: seq<Attr>): (r: Option<Attr>)
    ensures r.None? <==> forall i :: 0 <= i < |xs| ==> xs[i] in ys
    ensures r.Some? ==> r.value in xs && r.value !in ys
  {
    if |xs| == 0 then None
    else if xs[0] in ys then FirstNotIn(xs[1..], ys)
    else Some(xs[0])
  }

  /** The fields of `c` that have no default. */
  function Required(c: Dataclass): seq<Attr> {
    if c.required <= |c.fields| then c.fields[..c.required] else c.fields
  }

  /**
   * Calling the dataclass's generated `__init__` with keyword arguments `kwargs`: the
   * first argument it does not declare raises, then the first field with no default
   * left out raises; otherwise the call succeeds.
   */
  function Call(c: Dataclass, kwargs: seq<Attr>): Option<PyError> {
    match FirstNotIn(kwargs, c.fields)
    case Some(k) => Some(UnexpectedKeyword(c.name, k))
    case None =>
      match FirstNotIn(Required(c), kwargs)
      case Some(f) => Some(MissingArgument(c.name, f))
      case None => None
  }

  /**
   * A call succeeds exactly when every keyword is a declared field and every field
   * without a default is passed; a keyword it rejects is one it was given and does not
   * declare, and a field it misses is one without a default that was not passed.
   */
  lemma CallMeaning(c: Dataclass, kwargs: seq<Attr>)
    ensures var e := Call(c, kwargs);
      (e.None? <==> (forall k :: k in kwargs ==> k in c.fields) && (forall f :: f in Required(c) ==> f in kwargs))
      && (e.Some? ==> e.value.cls == c.name && !e.value.NoAttribute?)
      && (e.Some? && e.value.UnexpectedKeyword? ==> e.value.arg in kwargs && e.value.arg !in c.fields)
      && (e.Some? && e.value.MissingArgument? ==>
            (forall k :: k in kwargs ==> k in c.fields) && e.value.arg in Required(c) && e.value.arg !in kwargs)
  {
  }

  /** Reading attribute `attr` of an instance: it fails exactly when the class has no such field. */
  function GetAttr(c: Dataclass, attr: Attr): (e: Option<PyError>)
    ensures e.None? <==> attr in c.fields
    ensures e.Some? ==> e.value == NoAttribute(c.name, attr)
  {
    if attr in c.fields then None else Some(NoAttribute(c.name, attr))
  }

  /** The three result dataclasses of the module base, and `Modality`, with their fields. */
  const StepClass: Dataclass :=
    Dataclass("ReasoningStep", [node_id, citation, dimension, text, authority_weight], 5)
  const HitClass: Dataclass :=
    Dataclass("SearchResult", [node, relevance_score, reasoning_path, matched_dimension, matched_text], 2)
  const ResultClass: Dataclass :=
    Dataclass("ReasoningResult", [conclusion, confidence, reasoning_chain, alternative_paths,
                                  applicable_nodes, warnings, metadata], 3)
  const ModalityClass: Dataclass :=
    Dataclass("Modality", [action, modality_type, conditions, confidence, source_line, metadata], 2)

  /** The keyword arguments the two modules pass, as written. */
  const StepKwargs: seq<Attr> := [dimension, text, confidence, source_citation]
  const HitKwargs: seq<Attr> := [node_id, node, score, matched_text]
  const ResultKwargs: seq<Attr> := [conclusion, confidence, reasoning_chain, source_nodes]

  /** The keyword arguments the corrected model passes: the classes' own field names. */
  const FixedStepKwargs: seq<Attr> := [node_id, citation, dimension, text, authority_weight]
  const FixedHitKwargs: seq<Attr> := [node, relevance_score, matched_text]
  const FixedResultKwargs: seq<Attr> := [conclusion, confidence, reasoning_chain, applicable_nodes]

  /** The four exceptions the calls as written raise. */
  const StepError: PyError := UnexpectedKeyword("ReasoningStep", confidence)
  const HitError: PyError := UnexpectedKeyword("SearchResult", node_id)
  const ResultError: PyError := UnexpectedKeyword("ReasoningResult", source_nodes)
  const ExceptionsError: PyError := NoAttribute("Modality", exceptions)

  /**
   * Each call as written raises: a step rejects `confidence`, a search result rejects
   * `node_id`, a reasoning result rejects `source_nodes`, and a modality has no
   * `exceptions`.
   */
  lemma CallsRaise()
    ensures Call(StepClass, StepKwargs) == Some(StepError)
    ensures Call(HitClass, HitKwargs) == Some(HitError)
    ensures Call(ResultClass, ResultKwargs) == Some(ResultError)
    ensures GetAttr(ModalityClass, exceptions) == Some(ExceptionsError)
  {
    StepCallRaises();
    HitCallRaises();
    ResultCallRaises();
  }

  lemma StepCallRaises()
    ensures Call(StepClass, StepKwargs) == Some(StepError)
  {
    assert FirstNotIn(StepKwargs, StepClass.fields) == Some(confidence);
  }

  lemma HitCallRaises()
    ensures Call(HitClass, HitKwargs) == Some(HitError)
  {
    assert FirstNotIn(HitKwargs, HitClass.fields) == Some(node_id);
  }

  lemma ResultCallRaises()
    ensures Call(ResultClass, ResultKwargs) == Some(ResultError)
  {
    assert FirstNotIn(ResultKwargs, ResultClass.fields) == Some(source_nodes);
  }

  /** The corrected calls succeed: they pass declared fields only, and every field without a default. */
  lemma FixedCallsSucceed()
    ensures Call(StepClass, FixedStepKwargs) == None
    ensures Call(HitClass, FixedHitKwargs) == None
    ensures Call(ResultClass, FixedResultKwargs) == None
  {
    FixedStepCall();
    FixedHitCall();
    FixedResultCall();
  }

  lemma FixedStepCall()
    ensures Call(StepClass, FixedStepKwargs) == None
  {
    assert FirstNotIn(FixedStepKwargs, StepClass.fields) == None;
    assert Required(StepClass) == FixedStepKwargs;
    assert FirstNotIn(FixedStepKwargs, FixedStepKwargs) == None;
  }

  lemma FixedHitCall()
    ensures Call(HitClass, FixedHitKwargs) == None
  {
    assert FirstNotIn(FixedHitKwargs, HitClass.fields) == None;
    assert Required(HitClass) == [node, relevance_score];
    assert FirstNotIn([node, relevance_score], FixedHitKwargs) == None;
  }

  lemma FixedResultCall()
    ensures Call(ResultClass, FixedResultKwargs) == None
  {
    assert FirstNotIn(FixedResultKwargs, ResultClass.fields) == None;
    assert Required(ResultClass) == [conclusion, confidence, reasoning_chain];
    assert FirstNotIn([conclusion, confidence, reasoning_chain], FixedResultKwargs) == None;
  }

  // ---------------------------------------------------------------------------
  // search

  /** `any(term in text for term in terms)`. */
  predicate AnyTerm(terms: seq<string>, text: string) {
    |terms| > 0 && (Contains(text, terms[0]) || AnyTerm(terms[1..], text))
  }

  /** Some term of the query occurs in the text. */
  lemma {:induction false} AnyTermMeaning(terms: seq<string>, text: string)
    ensures AnyTerm(terms, text) <==> exists i :: 0 <= i < |terms| && Contains(text, terms[i])
  {
    if |terms| > 0 {
      AnyTermMeaning(terms[1..], text);
      assert forall i :: 0 < i < |terms| ==> terms[i] == terms[1..][i - 1];
    }
  }

  /** A WHAT proposition holding one of the query's terms, lowercased. */
  function TermTest(terms: seq<string>): Proposition -> bool {
    (p: Proposition) => AnyTerm(terms, Lower(p.text))
  }

  /** A module keyword present both in the lowered query and in the lowered citation. */
  function KeywordTest(ql: string, citation: string): string -> bool {
    (k: string) => Contains(ql, k) && Contains(citation, k)
  }

  /**
   * The score `search` gives node `n` for the lowered query `ql`: 0.3 when a query term
   * is in the citation, 0.4 per WHAT proposition holding a term, and 0.2 per module
   * keyword present in both the query and the citation.
   */
  function Score(n: Node, ql: string, keywords: seq<string>): real {
    var terms := SplitWhitespace(ql);
    Bonus(AnyTerm(terms, Lower(n.citation)), 0.3)
    + 0.4 * Count(n.what, TermTest(terms)) as real
    + 0.2 * Count(keywords, KeywordTest(ql, Lower(n.citation))) as real
  }

  /** A score is at least zero and at most what all its items together can add. */
  lemma ScoreBounds(n: Node, ql: string, keywords: seq<string>)
    ensures 0.0 <= Score(n, ql, keywords) <= 0.3 + 0.4 * |n.what| as real + 0.2 * |keywords| as real
  {
    var terms := SplitWhitespace(ql);
    var a := Count(n.what, TermTest(terms));
    var b := Count(keywords, KeywordTest(ql, Lower(n.citation)));
    assert Score(n, ql, keywords) == Bonus(AnyTerm(terms, Lower(n.citation)), 0.3) + 0.4 * a as real + 0.2 * b as real;
    assert 0.4 * a as real <= 0.4 * |n.what| as real;
    assert 0.2 * b as real <= 0.2 * |keywords| as real;
  }

  /**
   * A node scores above zero iff a query term is in its citation or in one of its WHAT
   * texts, or a keyword is in both the query and the citation.
   */
  lemma ScorePositive(n: Node, ql: string, keywords: seq<string>)
    ensures var terms := SplitWhitespace(ql);
      Score(n, ql, keywords) > 0.0 <==>
        AnyTerm(terms, Lower(n.citation))
        || (exists i :: 0 <= i < |n.what| && AnyTerm(terms, Lower(n.what[i].text)))
        || (exists i :: 0 <= i < |keywords| && Contains(ql, keywords[i]) && Contains(Lower(n.citation), keywords[i]))
  {
    var terms := SplitWhitespace(ql);
    var citation := Lower(n.citation);
    var a := Count(n.what, TermTest(terms));
    var b := Count(keywords, KeywordTest(ql, citation));
    assert Score(n, ql, keywords) == Bonus(AnyTerm(terms, citation), 0.3) + 0.4 * a as real + 0.2 * b as real;
    assert a > 0 <==> exists i :: 0 <= i < |n.what| && TermTest(terms)(n.what[i]);
    assert b > 0 <==> exists i :: 0 <= i < |keywords| && KeywordTest(ql, citation)(keywords[i]);
  }

  /** An empty or blank query has no terms, so only keywords can score, and no keyword is in it. */
  lemma BlankQueryScoresZero(n: Node, keywords: seq<string>)
    requires forall i :: 0 <= i < |keywords| ==> |keywords[i]| > 0
    ensures Score(n, "", keywords) == 0.0
  {
    assert SplitWhitespace("") == [];
    var b := Count(keywords, KeywordTest("", Lower(n.citation)));
    if b != 0 {
      var i :| 0 <= i < |keywords| && KeywordTest("", Lower(n.citation))(keywords[i]);
      assert Contains("", keywords[i]);
      var j := ContainsIndex("", keywords[i]);
    }
  }

  /** The loops of `search` over one node: the term tests, then a WHAT loop and a keyword loop. */
  method ScoreNode(n: Node, ql: string, keywords: seq<string>) returns (score: real)
    ensures score == Score(n, ql, keywords)
  {
    var terms := SplitWhitespace(ql);
    var citation := Lower(n.citation);
    score := 0.0;
    if AnyTerm(terms, citation) {
      score := score + 0.3;
    }
    score := AddWhatScores(score, n.what, terms);
    score := AddKeywordScores(score, keywords, ql, citation);
  }

  /** The WHAT loop of `search`: 0.4 per proposition holding a query term. */
  method AddWhatScores(score0: real, ps: seq<Proposition>, terms: seq<string>) returns (score: real)
    ensures score == score0 + 0.4 * Count(ps, TermTest(terms)) as real
  {
    score := score0;
    var i := 0;
    while i < |ps|
      invariant 0 <= i <= |ps|
      invariant score == score0 + 0.4 * Count(ps[..i], TermTest(terms)) as real
    {
      CountSnoc(ps, TermTest(terms), i);
      if AnyTerm(terms, Lower(ps[i].text)) {
        score := score + 0.4;
      }
      i := i + 1;
    }
    assert ps[..i] == ps;
  }

  /** The keyword loop of `search`: 0.2 per keyword in both the query and the citation. */
  method AddKeywordScores(score0: real, keywords: seq<string>, ql: string, citation: string) returns (score: real)
    ensures score == score0 + 0.2 * Count(keywords, KeywordTest(ql, citation)) as real
  {
    score := score0;
    var j := 0;
    while j < |keywords|
      invariant 0 <= j <= |keywords|
      invariant score == score0 + 0.2 * Count(keywords[..j], KeywordTest(ql, citation)) as real
    {
      CountSnoc(keywords, KeywordTest(ql, citation), j);
      if Contains(ql, keywords[j]) && Contains(citation, keywords[j]) {
        score := score + 0.2;
      }
      j := j + 1;
    }
    assert keywords[..j] == keywords;
  }

  /**
   * The result `search` evidently means to build for a scoring node, with the class's
   * own fields: the node, its score as the relevance score, its citation as the
   * matched text.
   */
  function HitOf(n: Node, ql: string, keywords: seq<string>): SearchResult {
    SearchResult(n, Score(n, ql, keywords), [], "", n.citation)
  }

  function Hit(ql: string, keywords: seq<string>): Node -> SearchResult {
    n => HitOf(n, ql, keywords)
  }

  /** `search` corrected: every node of the table scored in insertion order, the hits ranked. */
  method SearchNodes(t: Nodes, query: string, keywords: seq<string>, topK: int) returns (r: seq<SearchResult>)
    ensures r == SearchOver(t, Hit(Lower(query), keywords), topK)
  {
    var ql := Lower(query);
    var ns := Values(t);
    var results: seq<SearchResult> := [];
    var i := 0;
    while i < |ns|
      invariant 0 <= i <= |ns|
      invariant results == Kept(ns[..i], Hit(ql, keywords))
    {
      results := SearchStep(ns, ql, keywords, i, results);
      i := i + 1;
    }
    assert ns[..i] == ns;
    r := Ranked(results, topK);
  }

  /** One round of the loop of `search`: scores `ns[i]` and keeps its hit when it scores. */
  method SearchStep(ns: seq<Node>, ql: string, keywords: seq<string>, i: nat, results: seq<SearchResult>)
    returns (results': seq<SearchResult>)
    requires i < |ns| && results == Kept(ns[..i], Hit(ql, keywords))
    ensures results' == Kept(ns[..i + 1], Hit(ql, keywords))
  {
    var score := ScoreNode(ns[i], ql, keywords);
    KeptSnoc(ns, Hit(ql, keywords), i);
    results' := results;
    if score > 0.0 {
      results' := results + [SearchResult(ns[i], score, [], "", ns[i].citation)];
    }
  }

  /**
   * What the corrected `search` returns: hits of the table's own nodes, each scoring above
   * zero and citing its node, best first, at most `topK`, and every scoring node's hit
   * when `topK` covers the table.
   */
  lemma SearchMeaning(t: Nodes, query: string, keywords: seq<string>, topK: int)
    ensures var ql := Lower(query); var r := SearchOver(t, Hit(ql, keywords), topK);
      SortedDesc(r, Relevance)
      && (topK >= 0 ==> |r| <= topK)
      && (forall h :: h in r ==> h.relevanceScore > 0.0 && h == HitOf(h.node, ql, keywords)
                                  && h.matchedText == h.node.citation
                                  && exists k :: k in t.byId && t.byId[k] == h.node)
      && (topK >= |t.ids| ==> forall k :: k in t.byId && Score(t.byId[k], ql, keywords) > 0.0
                                ==> HitOf(t.byId[k], ql, keywords) in r)
  {
    SearchOverMeaning(t, Hit(Lower(query), keywords), topK);
  }

  /** A node `search` would report. */
  function Scoring(ql: string, keywords: seq<string>): Node -> bool {
    n => Score(n, ql, keywords) > 0.0
  }

  /** When no value of the table scores, no node under any key does. */
  lemma NothingScoring(t: Nodes, ql: string, keywords: seq<string>)
    requires Count(Values(t), Scoring(ql, keywords)) == 0
    ensures forall k :: k in t.byId ==> Score(t.byId[k], ql, keywords) <= 0.0
  {
    var ns := Values(t);
    forall k | k in t.byId
      ensures Score(t.byId[k], ql, keywords) <= 0.0
    {
      var j :| 0 <= j < |t.ids| && t.ids[j] == k;
      assert ns[j] == t.byId[k];
      assert !Scoring(ql, keywords)(ns[j]);
    }
  }

  /**
   * `search` as written: the loop raises at the first node scoring above zero, when it
   * builds a `SearchResult` with `node_id` and `score`; only a search where nothing
   * scores gets through, with no results.
   */
  method SearchAsWritten(t: Nodes, query: string, keywords: seq<string>) returns (o: Outcome<seq<SearchResult>>)
    ensures o.Raised? <==> exists k :: k in t.byId && Score(t.byId[k], Lower(query), keywords) > 0.0
    ensures o.Raised? ==> o.error == HitError
    ensures o.Returned? ==> o.value == []
  {
    var ql := Lower(query);
    var ns := Values(t);
    var i := FirstScoring(ns, ql, keywords);
    if i < |ns| {
      HitCallRaises();
      var e := Call(HitClass, HitKwargs);
      assert t.ids[i] in t.byId;
      return Raised(e.value);
    }
    assert ns[..i] == ns;
    NothingScoring(t, ql, keywords);
    o := Returned([]);
  }

  /** The loop of `search` up to the first node that scores above zero, or the end. */
  method FirstScoring(ns: seq<Node>, ql: string, keywords: seq<string>) returns (i: nat)
    ensures i <= |ns| && Count(ns[..i], Scoring(ql, keywords)) == 0
    ensures i < |ns| ==> Score(ns[i], ql, keywords) > 0.0
  {
    i := 0;
    while i < |ns|
      invariant 0 <= i <= |ns|
      invariant Count(ns[..i], Scoring(ql, keywords)) == 0
    {
      var score := ScoreNode(ns[i], ql, keywords);
      if score > 0.0 {
        return;
      }
      CountSnoc(ns, Scoring(ql, keywords), i);
      i := i + 1;
    }
  }

  // ---------------------------------------------------------------------------
  // reason: the chain

  /**
   * The chain `reason` builds from its target: GIVEN, WHICH, IF-THEN, WHAT, CAN/MUST and
   * WHY, one step per item. An IF-THEN step carries `str(conditional)`, a CAN/MUST step
   * "<TYPE> action (when: ...)", i.e. `str(modality)`; every step carries the node's
   * id, citation and authority weight, the fields `ReasoningStep` declares.
   */
  function SixChain(n: Node): seq<ReasoningStep> {
    PropSteps(n, "GIVEN", n.given) + PropSteps(n, "WHICH", n.which) + CondSteps(n, "IF-THEN", n.ifThen)
    + PropSteps(n, "WHAT", n.what) + ModSteps(n, "CAN/MUST", n.canMust) + PropSteps(n, "WHY", n.why)
  }

  /** The six loops of `reason` appending the target's steps. */
  method BuildSixChain(n: Node) returns (chain: seq<ReasoningStep>)
    ensures chain == SixChain(n)
  {
    chain := AppendPropSteps([], n, "GIVEN", n.given);
    chain := AppendPropSteps(chain, n, "WHICH", n.which);
    chain := AppendCondSteps(chain, n, "IF-THEN", n.ifThen);
    chain := AppendPropSteps(chain, n, "WHAT", n.what);
    chain := AppendModSteps(chain, n, "CAN/MUST", n.canMust);
    chain := AppendPropSteps(chain, n, "WHY", n.why);
  }

  /** The six runs of the chain, each of one dimension. */
  lemma SixRuns(n: Node, dim: string)
    ensures StepsIn(SixChain(n), dim)
         == (if dim == "GIVEN" then PropSteps(n, "GIVEN", n.given) else [])
          + (if dim == "WHICH" then PropSteps(n, "WHICH", n.which) else [])
          + (if dim == "IF-THEN" then CondSteps(n, "IF-THEN", n.ifThen) else [])
          + (if dim == "WHAT" then PropSteps(n, "WHAT", n.what) else [])
          + (if dim == "CAN/MUST" then ModSteps(n, "CAN/MUST", n.canMust) else [])
          + (if dim == "WHY" then PropSteps(n, "WHY", n.why) else [])
  {
    var g := PropSteps(n, "GIVEN", n.given);
    var w := PropSteps(n, "WHICH", n.which);
    var c := CondSteps(n, "IF-THEN", n.ifThen);
    var h := PropSteps(n, "WHAT", n.what);
    var m := ModSteps(n, "CAN/MUST", n.canMust);
    var y := PropSteps(n, "WHY", n.why);
    StepsOfAll(n, "GIVEN", n.given, [], []);
    StepsOfAll(n, "WHICH", n.which, [], []);
    StepsOfAll(n, "IF-THEN", [], n.ifThen, []);
    StepsOfAll(n, "WHAT", n.what, [], []);
    StepsOfAll(n, "CAN/MUST", [], [], n.canMust);
    StepsOfAll(n, "WHY", n.why, [], []);
    StepsInAppend(g + w + c + h + m, y, dim);
    StepsInAppend(g + w + c + h, m, dim);
    StepsInRuns(g, w, c, h, "GIVEN", "WHICH", "IF-THEN", "WHAT", dim);
    StepsInUniform(m, "CAN/MUST", dim);
    StepsInUniform(y, "WHY", dim);
  }

  /**
   * The chain holds one step per item of all six dimensions, each carrying the target's
   * id, citation and weight, and filtering it by a dimension gives back that dimension's
   * steps in item order.
   */
  lemma SixChainMeaning(n: Node)
    ensures |SixChain(n)| == |n.given| + |n.which| + |n.ifThen| + |n.what| + |n.canMust| + |n.why|
    ensures Belongs(SixChain(n), n)
    ensures StepsIn(SixChain(n), "GIVEN") == PropSteps(n, "GIVEN", n.given)
    ensures StepsIn(SixChain(n), "WHICH") == PropSteps(n, "WHICH", n.which)
    ensures StepsIn(SixChain(n), "IF-THEN") == CondSteps(n, "IF-THEN", n.ifThen)
    ensures StepsIn(SixChain(n), "WHAT") == PropSteps(n, "WHAT", n.what)
    ensures StepsIn(SixChain(n), "CAN/MUST") == ModSteps(n, "CAN/MUST", n.canMust)
    ensures StepsIn(SixChain(n), "WHY") == PropSteps(n, "WHY", n.why)
  {
    SixChainShape(n);
    SixRunGiven(n);
    SixRunWhich(n);
    SixRunIfThen(n);
    SixRunWhat(n);
    SixRunCanMust(n);
    SixRunWhy(n);
  }

  lemma SixChainShape(n: Node)
    ensures |SixChain(n)| == |n.given| + |n.which| + |n.ifThen| + |n.what| + |n.canMust| + |n.why|
    ensures Belongs(SixChain(n), n)
  {
    var g := PropSteps(n, "GIVEN", n.given);
    var w := PropSteps(n, "WHICH", n.which);
    var c := CondSteps(n, "IF-THEN", n.ifThen);
    var h := PropSteps(n, "WHAT", n.what);
    var m := ModSteps(n, "CAN/MUST", n.canMust);
    var y := PropSteps(n, "WHY", n.why);
    StepsOfAll(n, "GIVEN", n.given, [], []);
    StepsOfAll(n, "WHICH", n.which, [], []);
    StepsOfAll(n, "IF-THEN", [], n.ifThen, []);
    StepsOfAll(n, "WHAT", n.what, [], []);
    StepsOfAll(n, "CAN/MUST", [], [], n.canMust);
    StepsOfAll(n, "WHY", n.why, [], []);
    BelongsAppend(g, w, n);
    BelongsAppend(g + w, c, n);
    BelongsAppend(g + w + c, h, n);
    BelongsAppend(g + w + c + h, m, n);
    BelongsAppend(g + w + c + h + m, y, n);
  }

  lemma SixRunGiven(n: Node)
    ensures StepsIn(SixChain(n), "GIVEN") == PropSteps(n, "GIVEN", n.given)
  {
    SixRuns(n, "GIVEN");
  }

  lemma SixRunWhich(n: Node)
    ensures StepsIn(SixChain(n), "WHICH") == PropSteps(n, "WHICH", n.which)
  {
    SixRuns(n, "WHICH");
  }

  lemma SixRunIfThen(n: Node)
    ensures StepsIn(SixChain(n), "IF-THEN") == CondSteps(n, "IF-THEN", n.ifThen)
  {
    SixRuns(n, "IF-THEN");
  }

  lemma SixRunWhat(n: Node)
    ensures StepsIn(SixChain(n), "WHAT") == PropSteps(n, "WHAT", n.what)
  {
    SixRuns(n, "WHAT");
  }

  lemma SixRunCanMust(n: Node)
    ensures StepsIn(SixChain(n), "CAN/MUST") == ModSteps(n, "CAN/MUST", n.canMust)
  {
    SixRuns(n, "CAN/MUST");
  }

  lemma SixRunWhy(n: Node)
    ensures StepsIn(SixChain(n), "WHY") == PropSteps(n, "WHY", n.why)
  {
    SixRuns(n, "WHY");
  }

  // ---------------------------------------------------------------------------
  // reason: the conclusion templates both modules share

  /** "must" or "have to" in the lowered question. */
  predicate AsksObligation(ql: string) {
    Contains(ql, "must") || Contains(ql, "have to")
  }

  /** "can" or "may" in the lowered question. */
  predicate AsksPermission(ql: string) {
    Contains(ql, "can") || Contains(ql, "may")
  }

  /** `cm.modality_type in [ModalityType.MUST, ModalityType.SHALL]`. */
  function Obligation(): Modality -> bool {
    (m: Modality) => m.modalityType == MUST || m.modalityType == SHALL
  }

  /** `cm.modality_type in [ModalityType.MAY, ModalityType.CAN]`. */
  function Permission(): Modality -> bool {
    (m: Modality) => m.modalityType == MAY || m.modalityType == CAN
  }

  /** `f" (when: {', '.join(conditions)})"` when there are conditions, else nothing. */
  function When(conditions: seq<string>): (r: string)
    ensures r == "" <==> |conditions| == 0
  {
    if |conditions| > 0 then " (when: " + Join(", ", conditions) + ")" else ""
  }

  /** The WHAT fallback: the first WHAT text, else "See " and the citation. */
  function Fallback(n: Node): (r: string)
    ensures |n.what| > 0 ==> r == n.what[0].text
    ensures |n.what| == 0 ==> r == "See " + n.citation
  {
    if |n.what| > 0 then n.what[0].text else "See " + n.citation
  }

  /**
   * The obligation answer: the action with its conditions, capitalised as Python's
   * `capitalize()` does. As written the code also reads the modality's `exceptions`,
   * which a `Modality` does not have; the corrected model appends nothing for it.
   */
  function ObligationAnswer(m: Modality): (r: string)
    ensures |r| == |m.action| + |When(m.conditions)|
    ensures |m.action| > 0 ==> r[0] == UpperChar(m.action[0])
  {
    Capitalize(m.action + When(m.conditions))
  }

  // ---------------------------------------------------------------------------
  // reason as written

  /** What both modules return when no target is found: confidence 0 and nothing else. */
  const UnableText: string := "Unable to determine applicable rule"
  const Unresolved: ReasoningResult := ReasoningResult(UnableText, 0.0, [], [], [], [], map[])

  /** The conclusion's failure as written: an obligation question whose target has an obligation reads its `exceptions`. */
  function ConclusionFailure(ql: string, n: Node): (e: Option<PyError>)
    ensures e.Some? <==>
      AsksObligation(ql) && exists i :: 0 <= i < |n.canMust| && Obligation()(n.canMust[i])
  {
    if AsksObligation(ql) && First(n.canMust, Obligation()).Some? then GetAttr(ModalityClass, exceptions)
    else None
  }

  /**
   * The exception `reason` raises as written once it has picked `target`, trying the
   * calls in the order the code makes them; `None` would mean it returns. An unknown
   * target builds the fallback `ReasoningResult`; otherwise the GIVEN, WHICH, IF-THEN
   * and WHAT loops build a `ReasoningStep` for their first item, the CAN/MUST loop first
   * reads the modality's `exceptions`, the WHY loop builds a step, the conclusion may
   * read `exceptions`, and last the `ReasoningResult` is built.
   */
  function ReasonFailure(t: Nodes, target: string, ql: string): (e: Option<PyError>) {
    FailureWith(t, target, ql, StepKwargs, ResultKwargs)
  }

  /**
   * The same sequence of calls with the keyword arguments of the `ReasoningStep` and
   * `ReasoningResult` calls as parameters, so that the reach of the `exceptions` reads
   * can be stated for the calls as written and for the fixed ones alike.
   */
  function FailureWith(t: Nodes, target: string, ql: string, stepKwargs: seq<Attr>, resultKwargs: seq<Attr>): Option<PyError> {
    if target !in t.byId then Call(ResultClass, resultKwargs)
    else
      var n := t.byId[target];
      var step := Call(StepClass, stepKwargs);
      var exceptionsRead := GetAttr(ModalityClass, exceptions);
      if |n.given| + |n.which| + |n.ifThen| + |n.what| > 0 && step.Some? then step
      else if |n.canMust| > 0 && exceptionsRead.Some? then exceptionsRead
      else if |n.canMust| + |n.why| > 0 && step.Some? then step
      else if ConclusionFailure(ql, n).Some? then ConclusionFailure(ql, n)
      else Call(ResultClass, resultKwargs)
  }

  /**
   * With the `ReasoningStep` and `ReasoningResult` calls fixed, the `exceptions` read in
   * the CAN/MUST loop is still reached for every modality, whatever the question: `reason`
   * raises the AttributeError exactly when the target is stored and holds a modality,
   * before the conclusion is built, and returns otherwise.
   */
  lemma ExceptionsReadReach(t: Nodes, target: string, ql: string)
    ensures var e := FailureWith(t, target, ql, FixedStepKwargs, FixedResultKwargs);
      (e.Some? <==> target in t.byId && |t.byId[target].canMust| > 0)
      && (e.Some? ==> e == Some(ExceptionsError))
  {
    FixedStepCall();
    FixedResultCall();
    ExceptionsReadWith(t, target, ql, FixedStepKwargs, FixedResultKwargs);
  }

  /** The same for any keyword arguments the two calls accept. */
  lemma ExceptionsReadWith(t: Nodes, target: string, ql: string, stepKwargs: seq<Attr>, resultKwargs: seq<Attr>)
    requires Call(StepClass, stepKwargs) == None && Call(ResultClass, resultKwargs) == None
    ensures var e := FailureWith(t, target, ql, stepKwargs, resultKwargs);
      (e.Some? <==> target in t.byId && |t.byId[target].canMust| > 0)
      && (e.Some? ==> e == Some(ExceptionsError))
  {
    assert GetAttr(ModalityClass, exceptions) == Some(ExceptionsError);
    if target in t.byId && |t.byId[target].canMust| == 0 {
      assert ConclusionFailure(ql, t.byId[target]).None?;
    }
  }

  /**
   * As written, every call of `reason` raises. It is the AttributeError on
   * `Modality.exceptions` exactly when the target exists, its GIVEN, WHICH, IF-THEN and
   * WHAT are empty and it has a modality; the TypeError on `source_nodes` exactly when
   * the target is missing or has no items at all; and otherwise the TypeError on the
   * first step's `confidence`.
   */
  lemma ReasonAlwaysRaises(t: Nodes, target: string, ql: string)
    ensures ReasonFailure(t, target, ql).Some?
    ensures var e := ReasonFailure(t, target, ql).value;
      var n := if target in t.byId then t.byId[target] else NewNode("", "", RULE);
      var firstFour := |n.given| + |n.which| + |n.ifThen| + |n.what|;
      (e == ExceptionsError <==> target in t.byId && firstFour == 0 && |n.canMust| > 0)
      && (e == ResultError <==> target !in t.byId || firstFour + |n.canMust| + |n.why| == 0)
      && (e == StepError <==> target in t.byId && (firstFour > 0 || (|n.canMust| == 0 && |n.why| > 0)))
  {
    CallsRaise();
    var e := ReasonFailure(t, target, ql);
    if target in t.byId {
      var n := t.byId[target];
      if |n.given| + |n.which| + |n.ifThen| + |n.what| > 0 {
        assert e == Some(StepError);
      } else if |n.canMust| > 0 {
        assert e == Some(ExceptionsError);
      } else {
        assert ConclusionFailure(ql, n).None?;
        if |n.why| > 0 {
          assert e == Some(StepError);
        } else {
          assert e == Some(ResultError);
        }
      }
    } else {
      assert e == Some(ResultError);
    }
  }
}
