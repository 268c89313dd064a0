/**
 * The BM25 search front end (`LegalBM25Search`): the guard on blank queries, the query
 * body sent to Elasticsearch, its filter clauses, and the parsing of the response into
 * search results. The Elasticsearch call itself is a parameter: a function from index
 * name, query body and size to a response or a raised exception.
 */
module EsSearch {
  import opened Wrappers
  import opened Text
  import opened JsonValue

  /** The index `LegalBM25Search` searches. */
  const IndexName: string := "singapore_legal_v8"

  /** `SearchFilters`: five list filters and four optional range bounds. */
  datatype SearchFilters = SearchFilters(
    nodeTypes: Option<seq<string>>,
    orders: Option<seq<string>>,
    rules: Option<seq<string>>,
    courts: Option<seq<string>>,
    caseTypes: Option<seq<string>>,
    claimAmountMin: Option<real>,
    claimAmountMax: Option<real>,
    trialDaysMin: Option<int>,
    trialDaysMax: Option<int>)

  /** `SearchFilters()`: every filter left at `None`. */
  const NoFilters: SearchFilters := SearchFilters(None, None, None, None, None, None, None, None, None)

  /** `if filters.node_types:` — a list filter applies when it is given and non-empty. */
  predicate Given(o: Option<seq<string>>) {
    o.Some? && |o.value| > 0
  }

  datatype Bound = Gte | Lte

  /** One filter clause: `{"terms": {field: values}}` or `{"range": {field: {op: limit}}}`. */
  datatype Clause = Terms(field: string, values: seq<string>) | Range(field: string, op: Bound, limit: real)

  function BoundName(b: Bound): string {
    match b
    case Gte => "gte"
    case Lte => "lte"
  }

  /** The dictionary a clause stands for. */
  function ClauseJson(c: Clause): Json {
    match c
    case Terms(field, values) => JObj(map["terms" := JObj(map[field := StrArray(values)])])
    case Range(field, op, limit) =>
      JObj(map["range" := JObj(map[field := JObj(map[BoundName(op) := JNum(limit)])])])
  }

  function ClausesJson(cs: seq<Clause>): (r: Json)
    ensures r.JArr? && |r.items| == |cs|
  {
    JArr(seq(|cs|, i requires 0 <= i < |cs| => ClauseJson(cs[i])))
  }

  // ---------------------------------------------------------------------------
  // _build_filter_clauses

  /** The terms clause of one list filter, if it applies. */
  function TermsOf(field: string, o: Option<seq<string>>): (r: seq<Clause>)
    ensures |r| == (if Given(o) then 1 else 0)
  {
    if Given(o) then [Terms(field, o.value)] else []
  }

  /**
   * The clauses of one range: a lower bound on the query side asks the document's upper
   * field to be at least it, an upper bound asks the document's lower field to be at
   * most it, in that order.
   */
  function RangeOf(lowField: string, highField: string, lo: Option<real>, hi: Option<real>): (r: seq<Clause>)
    ensures |r| == (if lo.Some? then 1 else 0) + (if hi.Some? then 1 else 0)
  {
    (if lo.Some? then [Range(highField, Gte, lo.value)] else [])
    + (if hi.Some? then [Range(lowField, Lte, hi.value)] else [])
  }

  function IntBound(o: Option<int>): Option<real> {
    match o
    case None => None
    case Some(n) => Some(n as real)
  }

  /** The five terms clauses in the order node type, order, rule, court, case type. */
  function TermsClauses(f: SearchFilters): seq<Clause> {
    TermsOf("node_type", f.nodeTypes) + TermsOf("order", f.orders) + TermsOf("rule", f.rules)
    + TermsOf("court", f.courts) + TermsOf("case_type", f.caseTypes)
  }

  function RangeClauses(f: SearchFilters): seq<Clause> {
    RangeOf("claim_amount_min", "claim_amount_max", f.claimAmountMin, f.claimAmountMax)
    + RangeOf("trial_days_min", "trial_days_max", IntBound(f.trialDaysMin), IntBound(f.trialDaysMax))
  }

  /** What `_build_filter_clauses` returns: the terms clauses, then the range clauses. */
  function FilterClauses(f: SearchFilters): seq<Clause> {
    TermsClauses(f) + RangeClauses(f)
  }

  /** `_build_filter_clauses`: appends one clause per applicable filter. */
  method BuildFilterClauses(f: SearchFilters) returns (clauses: seq<Clause>)
    ensures clauses == FilterClauses(f)
  {
    clauses := [];
    clauses := AppendTerms(clauses, "node_type", f.nodeTypes);
    clauses := AppendTerms(clauses, "order", f.orders);
    clauses := AppendTerms(clauses, "rule", f.rules);
    clauses := AppendTerms(clauses, "court", f.courts);
    clauses := AppendTerms(clauses, "case_type", f.caseTypes);
    clauses := AppendRange(clauses, "claim_amount_min", "claim_amount_max", f.claimAmountMin, f.claimAmountMax);
    clauses := AppendRange(clauses, "trial_days_min", "trial_days_max", IntBound(f.trialDaysMin), IntBound(f.trialDaysMax));
  }

  /** One list filter: a terms clause on `field` when the list is given and non-empty. */
  method AppendTerms(clauses: seq<Clause>, field: string, o: Option<seq<string>>) returns (r: seq<Clause>)
    ensures r == clauses + TermsOf(field, o)
  {
    r := clauses;
    if o.Some? && |o.value| > 0 {
      r := r + [Terms(field, o.value)];
    }
  }

  /**
   * One range filter (claim amount or trial days): the document's upper field against the
   * lower bound, then its lower field against the upper bound, each when set.
   */
  method AppendRange(clauses: seq<Clause>, lowField: string, highField: string, lo: Option<real>, hi: Option<real>)
    returns (r: seq<Clause>)
    ensures r == clauses + RangeOf(lowField, highField, lo, hi)
  {
    r := clauses;
    if lo.Some? || hi.Some? {
      if lo.Some? {
        r := r + [Range(highField, Gte, lo.value)];
      }
      if hi.Some? {
        r := r + [Range(lowField, Lte, hi.value)];
      }
    }
  }

  /** The number of list filters that apply. */
  function GivenCount(f: SearchFilters): nat {
    (if Given(f.nodeTypes) then 1 else 0) + (if Given(f.orders) then 1 else 0)
    + (if Given(f.rules) then 1 else 0) + (if Given(f.courts) then 1 else 0)
    + (if Given(f.caseTypes) then 1 else 0)
  }

  /** The number of range bounds that are set. */
  function BoundCount(f: SearchFilters): nat {
    (if f.claimAmountMin.Some? then 1 else 0) + (if f.claimAmountMax.Some? then 1 else 0)
    + (if f.trialDaysMin.Some? then 1 else 0) + (if f.trialDaysMax.Some? then 1 else 0)
  }

  /**
   * One clause per applicable list filter and one per set bound; the terms clauses come
   * first, then the range clauses.
   */
  lemma ClauseCount(f: SearchFilters)
    ensures |FilterClauses(f)| == GivenCount(f) + BoundCount(f)
    ensures forall i :: 0 <= i < |FilterClauses(f)| ==> (FilterClauses(f)[i].Terms? <==> i < GivenCount(f))
  {
    var t, r := TermsClauses(f), RangeClauses(f);
    assert |t| == GivenCount(f);
    assert forall c :: c in t ==> c.Terms?;
    assert forall c :: c in r ==> c.Range?;
    forall i | 0 <= i < |t + r|
      ensures (t + r)[i].Terms? <==> i < |t|
    {
      if i < |t| { assert (t + r)[i] in t; } else { assert (t + r)[i] == r[i - |t|] && r[i - |t|] in r; }
    }
  }

  /** Filters that set nothing (or only empty lists) give no clause. */
  lemma NoClauses(f: SearchFilters)
    requires GivenCount(f) == 0 && BoundCount(f) == 0
    ensures FilterClauses(f) == []
  {
    ClauseCount(f);
  }

  /** The five list filters with their fields, in the order they are tested. */
  function ListFilters(f: SearchFilters): seq<(string, Option<seq<string>>)> {
    [("node_type", f.nodeTypes), ("order", f.orders), ("rule", f.rules), ("court", f.courts),
     ("case_type", f.caseTypes)]
  }

  /** The terms clauses of a list of filters, one after the other. */
  function TermsList(fs: seq<(string, Option<seq<string>>)>): seq<Clause>
    decreases |fs|
  {
    if |fs| == 0 then [] else TermsOf(fs[0].0, fs[0].1) + TermsList(fs[1..])
  }

  lemma TermsClausesAsList(f: SearchFilters)
    ensures TermsClauses(f) == TermsList(ListFilters(f))
  {
    var fs := ListFilters(f);
    assert TermsList(fs[5..]) == [];
    assert TermsList(fs[4..]) == TermsOf("case_type", f.caseTypes) by { assert fs[4..][1..] == fs[5..]; }
    assert TermsList(fs[3..]) == TermsOf("court", f.courts) + TermsList(fs[4..]) by { assert fs[3..][1..] == fs[4..]; }
    assert TermsList(fs[2..]) == TermsOf("rule", f.rules) + TermsList(fs[3..]) by { assert fs[2..][1..] == fs[3..]; }
    assert TermsList(fs[1..]) == TermsOf("order", f.orders) + TermsList(fs[2..]) by { assert fs[1..][1..] == fs[2..]; }
  }

  /**
   * Among list filters with distinct fields, a filter's terms clause is present, with
   * given values, exactly when those values are the filter's and are non-empty.
   */
  lemma {:induction false} TermsListMeaning(fs: seq<(string, Option<seq<string>>)>, k: nat, v: seq<string>)
    requires k < |fs| && forall j :: 0 <= j < |fs| && j != k ==> fs[j].0 != fs[k].0
    ensures Terms(fs[k].0, v) in TermsList(fs) <==> fs[k].1 == Some(v) && v != []
    decreases |fs|
  {
    var head := TermsOf(fs[0].0, fs[0].1);
    assert TermsList(fs) == head + TermsList(fs[1..]);
    if k == 0 {
      TermsListFields(fs[1..]);
      forall i | 0 <= i < |fs[1..]|
        ensures fs[1..][i].0 != fs[0].0
      {
        assert fs[1..][i] == fs[i + 1];
      }
    } else {
      TermsListMeaning(fs[1..], k - 1, v);
    }
  }

  /** Each terms clause of a list of filters is on the field of one of them. */
  lemma {:induction false} TermsListFields(fs: seq<(string, Option<seq<string>>)>)
    ensures forall c :: c in TermsList(fs) ==> c.Terms? && exists i :: 0 <= i < |fs| && fs[i].0 == c.field
    decreases |fs|
  {
    if |fs| > 0 {
      TermsListFields(fs[1..]);
      forall c | c in TermsList(fs[1..])
        ensures exists i :: 0 <= i < |fs| && fs[i].0 == c.field
      {
        var i :| 0 <= i < |fs[1..]| && fs[1..][i].0 == c.field;
        assert fs[i + 1].0 == c.field;
      }
    }
  }

  /**
   * A list filter yields a terms clause on its field, carrying its values, exactly when
   * it is given and non-empty.
   */
  lemma TermsClauseIffGiven(f: SearchFilters)
    ensures forall v :: Terms("node_type", v) in FilterClauses(f) <==> f.nodeTypes == Some(v) && v != []
    ensures forall v :: Terms("order", v) in FilterClauses(f) <==> f.orders == Some(v) && v != []
    ensures forall v :: Terms("rule", v) in FilterClauses(f) <==> f.rules == Some(v) && v != []
    ensures forall v :: Terms("court", v) in FilterClauses(f) <==> f.courts == Some(v) && v != []
    ensures forall v :: Terms("case_type", v) in FilterClauses(f) <==> f.caseTypes == Some(v) && v != []
  {
    var fs := ListFilters(f);
    TermsClausesAsList(f);
    assert forall c :: c in RangeClauses(f) ==> c.Range?;
    forall v
      ensures Terms("node_type", v) in TermsList(fs) <==> f.nodeTypes == Some(v) && v != []
      ensures Terms("order", v) in TermsList(fs) <==> f.orders == Some(v) && v != []
      ensures Terms("rule", v) in TermsList(fs) <==> f.rules == Some(v) && v != []
      ensures Terms("court", v) in TermsList(fs) <==> f.courts == Some(v) && v != []
      ensures Terms("case_type", v) in TermsList(fs) <==> f.caseTypes == Some(v) && v != []
    {
      TermsListMeaning(fs, 0, v);
      TermsListMeaning(fs, 1, v);
      TermsListMeaning(fs, 2, v);
      TermsListMeaning(fs, 3, v);
      TermsListMeaning(fs, 4, v);
    }
  }

  /**
   * A claim minimum becomes "claim_amount_max gte minimum", a claim maximum becomes
   * "claim_amount_min lte maximum"; the trial days bounds work the same way (as numbers).
   */
  lemma RangeClausesMeaning(f: SearchFilters)
    ensures forall v :: f.claimAmountMin == Some(v) <==> Range("claim_amount_max", Gte, v) in FilterClauses(f)
    ensures forall v :: f.claimAmountMax == Some(v) <==> Range("claim_amount_min", Lte, v) in FilterClauses(f)
    ensures forall v :: IntBound(f.trialDaysMin) == Some(v) <==> Range("trial_days_max", Gte, v) in FilterClauses(f)
    ensures forall v :: IntBound(f.trialDaysMax) == Some(v) <==> Range("trial_days_min", Lte, v) in FilterClauses(f)
  {
    var a := RangeOf("claim_amount_min", "claim_amount_max", f.claimAmountMin, f.claimAmountMax);
    var b := RangeOf("trial_days_min", "trial_days_max", IntBound(f.trialDaysMin), IntBound(f.trialDaysMax));
    assert FilterClauses(f) == TermsClauses(f) + (a + b);
    assert forall c :: c in TermsClauses(f) ==> c.Terms?;
    RangeOfMeaning("claim_amount_min", "claim_amount_max", f.claimAmountMin, f.claimAmountMax);
    RangeOfMeaning("trial_days_min", "trial_days_max", IntBound(f.trialDaysMin), IntBound(f.trialDaysMax));
  }

  /** Within one range, each bound gives exactly its own clause. */
  lemma RangeOfMeaning(lowField: string, highField: string, lo: Option<real>, hi: Option<real>)
    requires lowField != highField
    ensures forall c :: c in RangeOf(lowField, highField, lo, hi) ==> c.Range? && c.field in {lowField, highField}
    ensures forall v :: lo == Some(v) <==> Range(highField, Gte, v) in RangeOf(lowField, highField, lo, hi)
    ensures forall v :: hi == Some(v) <==> Range(lowField, Lte, v) in RangeOf(lowField, highField, lo, hi)
  {
  }

  /** The filter cases asserted by the search tests. */
  lemma FilterScenarios()
    ensures FilterClauses(NoFilters) == []
    ensures FilterClauses(NoFilters.(nodeTypes := Some(["WHAT", "IF_THEN"])))
      == [Terms("node_type", ["WHAT", "IF_THEN"])]
    ensures FilterClauses(NoFilters.(courts := Some(["High Court"]))) == [Terms("court", ["High Court"])]
    ensures |FilterClauses(NoFilters.(claimAmountMin := Some(10000.0), claimAmountMax := Some(50000.0)))| == 2
    ensures |FilterClauses(NoFilters.(nodeTypes := Some(["WHAT"]), courts := Some(["High Court"]),
                                      orders := Some(["Order 21"])))| == 3
  {
  }

  // ---------------------------------------------------------------------------
  // _build_query

  /** The full-text `must` clause: a BM25 match of any term of the query on "text". */
  function MustClause(query: string): Json {
    JArr([JObj(map["match" := JObj(map["text" := JObj(map["query" := JStr(query), "operator" := JStr("or")])])])])
  }

  /** The highlighting request: up to three 150-character fragments of "text" in `<em>` tags. */
  const HighlightSpec: Json :=
    JObj(map["fields" := JObj(map["text" := JObj(map[
      "pre_tags" := JArr([JStr("<em>")]),
      "post_tags" := JArr([JStr("</em>")]),
      "number_of_fragments" := JNum(3.0),
      "fragment_size" := JNum(150.0)])])])

  /** The `bool` query: the `must` clause, with the filter clauses when there are any. */
  function BoolQuery(query: string, clauses: seq<Clause>): map<string, Json> {
    if |clauses| > 0 then map["must" := MustClause(query), "filter" := ClausesJson(clauses)]
    else map["must" := MustClause(query)]
  }

  /** The clauses a `filters` argument contributes; `None` contributes none. */
  function ClausesOf(filters: Option<SearchFilters>): seq<Clause> {
    if filters.Some? then FilterClauses(filters.value) else []
  }

  /** The query body `_build_query` returns. */
  function QueryBody(query: string, filters: Option<SearchFilters>, minScore: Option<real>, highlight: bool)
    : map<string, Json>
  {
    var body := map["query" := JObj(map["bool" := JObj(BoolQuery(query, ClausesOf(filters)))])];
    var body := if minScore.Some? then body["min_score" := JNum(minScore.value)] else body;
    if highlight then body["highlight" := HighlightSpec] else body
  }

  /** `_build_query`: the base body, then the filter, the minimum score and the highlighting. */
  method BuildQuery(query: string, filters: Option<SearchFilters>, minScore: Option<real>, highlight: bool)
    returns (body: map<string, Json>)
    ensures body == QueryBody(query, filters, minScore, highlight)
  {
    var boolQuery := map["must" := MustClause(query)];
    if filters.Some? {
      var clauses := BuildFilterClauses(filters.value);
      if |clauses| > 0 {
        boolQuery := boolQuery["filter" := ClausesJson(clauses)];
      }
    }
    body := map["query" := JObj(map["bool" := JObj(boolQuery)])];
    if minScore.Some? {
      body := body["min_score" := JNum(minScore.value)];
    }
    if highlight {
      body := body["highlight" := HighlightSpec];
    }
  }

  /**
   * The body always carries the full-text match of the query; "filter" is there exactly
   * when there are filter clauses, "min_score" exactly when one is given, "highlight"
   * exactly when highlighting is on, and nothing else is.
   */
  lemma QueryBodyMeaning(query: string, filters: Option<SearchFilters>, minScore: Option<real>, highlight: bool)
    ensures var body := QueryBody(query, filters, minScore, highlight);
      body.Keys == {"query"} + (if minScore.Some? then {"min_score"} else {})
                   + (if highlight then {"highlight"} else {})
      && body["query"].JObj? && "bool" in body["query"].fields
      && body["query"].fields["bool"].JObj?
      && "must" in body["query"].fields["bool"].fields
      && body["query"].fields["bool"].fields["must"] == MustClause(query)
      && ("filter" in body["query"].fields["bool"].fields <==> ClausesOf(filters) != [])
      && (minScore.Some? ==> body["min_score"] == JNum(minScore.value))
      && (highlight ==> body["highlight"] == HighlightSpec)
  {
  }

  /** The query-body cases asserted by the search tests. */
  lemma QueryScenarios()
    ensures "filter" in BoolQuery("default judgment", ClausesOf(Some(NoFilters.(nodeTypes := Some(["WHAT"])))))
    ensures "min_score" in QueryBody("default judgment", None, Some(5.0), false)
      && QueryBody("default judgment", None, Some(5.0), false)["min_score"] == JNum(5.0)
    ensures "highlight" in QueryBody("default judgment", None, None, true)
    ensures QueryBody("default judgment", None, None, false).Keys == {"query"}
  {
    QueryBodyMeaning("default judgment", None, Some(5.0), false);
    QueryBodyMeaning("default judgment", None, None, true);
    QueryBodyMeaning("default judgment", None, None, false);
  }

  // ---------------------------------------------------------------------------
  // _parse_results

  /** `SearchResult`: each field as the document's `_source` holds it; null stands for `None`. */
  datatype EsResult = EsResult(
    nodeId: Json, text: Json, score: Json,
    nodeType: Json, order: Json, rule: Json, court: Json, caseType: Json,
    claimAmountMin: Json, claimAmountMax: Json, trialDaysMin: Json, trialDaysMax: Json,
    highlights: Json)

  /** Python's `j[k]`: a dictionary's entry; a missing key or a non-dictionary raises. */
  function Item(j: Json, k: string): (r: Result<Json>)
    ensures r.Success? <==> j.JObj? && k in j.fields
    ensures r.Success? ==> r.value == j.fields[k]
  {
    match j
    case JObj(m) => if k in m then Success(m[k]) else Failure("KeyError")
    case _ => Failure("TypeError: not subscriptable by a string")
  }

  /** Python's `for x in j`: a list's items; an empty dict or string yields nothing. */
  function Items(j: Json): (r: Result<seq<Json>>)
    ensures j.JArr? ==> r == Success(j.items)
  {
    match j
    case JArr(items) => Success(items)
    case JObj(m) => if |m| == 0 then Success([]) else Failure("TypeError: string indices must be integers")
    case JStr(s) => if |s| == 0 then Success([]) else Failure("TypeError: string indices must be integers")
    case _ => Failure("TypeError: not iterable")
  }

  /**
   * The highlights of a hit: `hit['highlight']['text']` when the hit has a "highlight"
   * entry holding "text", `None` (null) otherwise. A "highlight" entry that `in` cannot
   * search, or that finds "text" but cannot be indexed by it, raises.
   */
  function HighlightsOf(hit: map<string, Json>): Result<Json> {
    if "highlight" !in hit then Success(JNull)
    else
      match hit["highlight"]
      case JObj(h) => Success(if "text" in h then h["text"] else JNull)
      case JArr(items) => if JStr("text") in items then Failure("TypeError: list indices must be integers") else Success(JNull)
      case JStr(s) => if Contains(s, "text") then Failure("TypeError: string indices must be integers") else Success(JNull)
      case _ => Failure("TypeError: not iterable")
  }

  /** One hit as a `SearchResult`. */
  function ParseHit(hit: Json): (r: Result<EsResult>)
    ensures r.Success? ==> hit.JObj? && "_source" in hit.fields && "_score" in hit.fields
  {
    var source :- Item(hit, "_source");
    var highlights :- HighlightsOf(hit.fields);
    if !source.JObj? then Failure("AttributeError: no attribute 'get'")
    else
      var src := source.fields;
      var score :- Item(hit, "_score");
      Success(EsResult(
        Get(src, "node_id", JStr("")), Get(src, "text", JStr("")), score,
        Get(src, "node_type", JNull), Get(src, "order", JNull), Get(src, "rule", JNull),
        Get(src, "court", JNull), Get(src, "case_type", JNull),
        Get(src, "claim_amount_min", JNull), Get(src, "claim_amount_max", JNull),
        Get(src, "trial_days_min", JNull), Get(src, "trial_days_max", JNull),
        highlights))
  }

  /** The hits `_parse_results` iterates: `response['hits']['hits']`. */
  function HitsOf(response: Json): Result<seq<Json>> {
    var outer :- Item(response, "hits");
    var inner :- Item(outer, "hits");
    Items(inner)
  }

  /** The results of a list of hits, in order; the first hit that cannot be parsed raises. */
  function ParseAll(hits: seq<Json>): (r: Result<seq<EsResult>>)
    ensures r.Success? ==> |r.value| == |hits|
    decreases |hits|
  {
    if |hits| == 0 then Success([])
    else
      var init :- ParseAll(hits[..|hits| - 1]);
      var last :- ParseHit(hits[|hits| - 1]);
      Success(init + [last])
  }

  /** What `_parse_results` returns for a response, or the exception it raises. */
  function Parsed(response: Json): Result<seq<EsResult>> {
    var hits :- HitsOf(response);
    ParseAll(hits)
  }

  /** `_parse_results`: one `SearchResult` appended per hit. */
  method ParseResults(response: Json) returns (r: Result<seq<EsResult>>)
    ensures r == Parsed(response)
  {
    var hits := HitsOf(response);
    if hits.Failure? {
      return Failure(hits.error);
    }
    var results: seq<EsResult> := [];
    var i := 0;
    while i < |hits.value|
      invariant 0 <= i <= |hits.value|
      invariant ParseAll(hits.value[..i]) == Success(results)
    {
      assert hits.value[..i + 1][..i] == hits.value[..i];
      var one := ParseHit(hits.value[i]);
      if one.Failure? {
        ParseAllFails(hits.value, i + 1);
        return Failure(one.error);
      }
      results := results + [one.value];
      i := i + 1;
    }
    assert hits.value[..i] == hits.value;
    r := Success(results);
  }

  /** Once a prefix of the hits cannot be parsed, neither can any longer prefix. */
  lemma {:induction false} ParseAllFails(hits: seq<Json>, k: nat)
    requires k <= |hits| && ParseAll(hits[..k]).Failure?
    ensures ParseAll(hits) == ParseAll(hits[..k])
    decreases |hits| - k
  {
    if k < |hits| {
      assert hits[..k + 1][..k] == hits[..k];
      ParseAllFails(hits, k + 1);
    } else {
      assert hits[..k] == hits;
    }
  }

  /**
   * A parsed response has one result per hit, in hit order, each the parse of its hit;
   * its highlights are set only when the hit carries a "highlight" entry holding "text".
   */
  lemma {:induction false} ParseAllMeaning(hits: seq<Json>)
    requires ParseAll(hits).Success?
    ensures forall i :: 0 <= i < |hits| ==>
      ParseHit(hits[i]).Success? && ParseAll(hits).value[i] == ParseHit(hits[i]).value
    decreases |hits|
  {
    if |hits| > 0 {
      var init := hits[..|hits| - 1];
      ParseAllMeaning(init);
      forall i | 0 <= i < |hits| - 1
        ensures hits[i] == init[i]
      {
      }
    }
  }

  /** A result carries highlights only when its hit has a "highlight" entry with "text". */
  lemma HighlightsOnlyFromText(hit: Json)
    requires ParseHit(hit).Success? && ParseHit(hit).value.highlights != JNull
    ensures "highlight" in hit.fields && hit.fields["highlight"].JObj?
    ensures "text" in hit.fields["highlight"].fields
    ensures ParseHit(hit).value.highlights == hit.fields["highlight"].fields["text"]
  {
  }

  // ---------------------------------------------------------------------------
  // search

  /**
   * The Elasticsearch call: the response for an index, a query body and a size, or the
   * exception the client raises.
   */
  type Backend = (string, map<string, Json>, int) -> Result<Json>

  /**
   * `search`: a blank query gives no results and no request; otherwise the body is built
   * and sent, and a raised exception (from the client or from parsing) gives no results.
   */
  method Search(es: Backend, query: string, filters: Option<SearchFilters>, topK: int,
                minScore: Option<real>, highlight: bool)
    returns (results: seq<EsResult>)
    ensures Strip(query) == "" ==> results == []
    ensures Strip(query) != "" ==>
      var response := es(IndexName, QueryBody(query, filters, minScore, highlight), topK);
      results == if response.Success? && Parsed(response.value).Success? then Parsed(response.value).value else []
  {
    if Strip(query) == "" {
      return [];
    }
    var body := BuildQuery(query, filters, minScore, highlight);
    var response := es(IndexName, body, topK);
    if response.Failure? {
      return [];
    }
    var parsed := ParseResults(response.value);
    results := if parsed.Success? then parsed.value else [];
  }

  /** A parsed response has one result per hit of `response['hits']['hits']`, in hit order. */
  lemma ParsedMeaning(response: Json)
    requires Parsed(response).Success?
    ensures HitsOf(response).Success?
    ensures |Parsed(response).value| == |HitsOf(response).value|
    ensures forall i :: 0 <= i < |HitsOf(response).value| ==>
      ParseHit(HitsOf(response).value[i]).Success?
      && Parsed(response).value[i] == ParseHit(HitsOf(response).value[i]).value
  {
    ParseAllMeaning(HitsOf(response).value);
  }

  // ---------------------------------------------------------------------------
  // multi_match_search

  /** The `multi_match` clause: the query over the given fields, the best matching field scoring. */
  function MultiMatchClause(query: string, fields: seq<string>): Json {
    JArr([JObj(map["multi_match" := JObj(map[
      "query" := JStr(query), "fields" := StrArray(fields), "type" := JStr("best_fields")])])])
  }

  /** The body `multi_match_search` sends: no minimum score, no highlighting. */
  function MultiMatchBody(query: string, fields: seq<string>, filters: Option<SearchFilters>): map<string, Json> {
    var clauses := ClausesOf(filters);
    var must := map["must" := MultiMatchClause(query, fields)];
    var boolQuery := if |clauses| > 0 then must["filter" := ClausesJson(clauses)] else must;
    map["query" := JObj(map["bool" := JObj(boolQuery)])]
  }

  /**
   * `multi_match_search`: builds the `multi_match` body, adds the filter clauses when there
   * are any, sends it and parses the answer; a raised exception gives no results. Unlike
   * `search` there is no blank-query shortcut: every query is sent.
   */
  method MultiMatchSearch(es: Backend, query: string, fields: seq<string>, filters: Option<SearchFilters>, topK: int)
    returns (results: seq<EsResult>)
    ensures var response := es(IndexName, MultiMatchBody(query, fields, filters), topK);
      results == if response.Success? && Parsed(response.value).Success? then Parsed(response.value).value else []
  {
    var boolQuery := map["must" := MultiMatchClause(query, fields)];
    if filters.Some? {
      var clauses := BuildFilterClauses(filters.value);
      if |clauses| > 0 {
        boolQuery := boolQuery["filter" := ClausesJson(clauses)];
      }
    }
    var body := map["query" := JObj(map["bool" := JObj(boolQuery)])];
    var response := es(IndexName, body, topK);
    if response.Failure? {
      return [];
    }
    var parsed := ParseResults(response.value);
    results := if parsed.Success? then parsed.value else [];
  }

  /**
   * The multi-field body holds only the query; its `must` clause searches the given
   * fields, and its filter is exactly the one `search` sends for the same filters.
   */
  lemma MultiMatchBodyMeaning(query: string, fields: seq<string>, filters: Option<SearchFilters>)
    ensures var body := MultiMatchBody(query, fields, filters);
      var bm25 := QueryBody(query, filters, None, false);
      body.Keys == {"query"} == bm25.Keys
      && body["query"].JObj? && "bool" in body["query"].fields && body["query"].fields["bool"].JObj?
      && var b := body["query"].fields["bool"].fields;
      var q := bm25["query"].fields["bool"].fields;
      "must" in b && b["must"] == MultiMatchClause(query, fields)
      && ("filter" in b <==> "filter" in q)
      && ("filter" in b ==> b["filter"] == q["filter"])
  {
    QueryBodyMeaning(query, filters, None, false);
  }
}
