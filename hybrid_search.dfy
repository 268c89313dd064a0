/**
 * Hybrid search: the ranked BM25 hits, the logic tree reasoning of the module that owns
 * the top hit, the 40/60 hybrid score and the two-step explanation text, and the
 * registration of the four modules when the search is built.
 *
 * The BM25 stage itself (Elasticsearch) is an input: a ranked sequence of hits, each with
 * its score and the node its indexed document was made from (`to_dict()` of the node, so
 * the document's `module_id` and `citation` are the node's).
 */
module HybridSearch {
  import opened Wrappers
  import opened Text
  import opened IsoDate
  import opened SixDimensions
  import opened NodeTables
  import opened LogicTree
  import opened Numerals
  import opened CostGuidelines
  import opened Registry
  import RuleModules
  import Order21
  import Order21Costs
  import Order5
  import Order14

  /** One BM25 hit: the document id, its score and the node stored as its `_source`. */
  datatype Bm25Hit = Bm25Hit(nodeId: string, score: real, source: Node)

  /** `HybridSearchResult`. */
  datatype HybridSearchResult = HybridSearchResult(
    query: string, bm25Results: seq<Bm25Hit>, logicTreeAnswer: Option<ReasoningResult>,
    hybridScore: real, explanation: string)

  /** The ids of the four modules the search registers. */
  const ModuleIds: set<string> := {"order_21", "order_21_costs", "order_5", "order_14"}

  // ---------------------------------------------------------------------------
  // reason_with_logic_tree

  /** The four module classes of the system. */
  datatype ModuleClass = Order21Module | Order21CostsModule | Order5Module | Order14Module

  /** The class of the module registered under `id`, if it is one of the four. */
  function ClassOf(id: string): (c: Option<ModuleClass>)
    ensures c.Some? <==> id in ModuleIds
    ensures c == Some(Order5Module) <==> id == "order_5"
    ensures c == Some(Order14Module) <==> id == "order_14"
  {
    if id == "order_21" then Some(Order21Module)
    else if id == "order_21_costs" then Some(Order21CostsModule)
    else if id == "order_5" then Some(Order5Module)
    else if id == "order_14" then Some(Order14Module)
    else None
  }

  /**
   * The `reason(query)` of a module of class `c`, with Order 5 and Order 14 as the code
   * evidently intends them. Those two initialise themselves on demand, so they answer
   * over their loaded table; the Order 21 modules answer over their current table.
   */
  function Respond(c: ModuleClass, m: LogicTreeModule, query: string): ReasoningResult
    reads m
  {
    match c
    case Order21Module => Order21.Answer(m.nodes, query)
    case Order21CostsModule => Order21Costs.Answer(m.nodes, query, AppendixG)
    case Order5Module => Order5.Answer(m.loaded, query)
    case Order14Module => Order14.Answer(m.loaded, query)
  }

  /** The module's `reason(query)`, chosen by the class its metadata id names. */
  function ModuleReason(m: LogicTreeModule, query: string): Option<ReasoningResult>
    reads m
  {
    match ClassOf(m.metadata.moduleId)
    case None => None
    case Some(c) => Some(Respond(c, m, query))
  }

  /**
   * Whether the module's `reason` raises as written: the Order 5 and Order 14 modules
   * raise whenever `ReasonFailure` finds an exception for the target they pick.
   */
  predicate RaisesAsWritten(m: LogicTreeModule, query: string) {
    var ql := Lower(query);
    match ClassOf(m.metadata.moduleId)
    case Some(Order5Module) => RuleModules.ReasonFailure(m.loaded, Order5.Target(ql), ql).Some?
    case Some(Order14Module) => RuleModules.ReasonFailure(m.loaded, Order14.Target(ql), ql).Some?
    case _ => false
  }

  /**
   * As written, exactly the Order 5 and Order 14 modules raise, on every question: the
   * `try` around `reason` absorbs it, and they never contribute a reasoning result.
   */
  lemma AsWrittenRuleModulesRaise(m: LogicTreeModule, query: string)
    ensures RaisesAsWritten(m, query) <==> m.metadata.moduleId in {"order_5", "order_14"}
  {
    var ql := Lower(query);
    var c := ClassOf(m.metadata.moduleId);
    if c == Some(Order5Module) {
      RuleModules.ReasonAlwaysRaises(m.loaded, Order5.Target(ql), ql);
    } else if c == Some(Order14Module) {
      RuleModules.ReasonAlwaysRaises(m.loaded, Order14.Target(ql), ql);
    }
  }

  /**
   * The module `reason_with_logic_tree` consults: the one registered under the top hit's
   * `module_id`, unless there is no hit or that id is empty.
   */
  function TopModule(modules: map<string, LogicTreeModule>, hits: seq<Bm25Hit>): (r: Option<LogicTreeModule>)
    ensures r.Some? <==> |hits| > 0 && hits[0].source.moduleId != "" && hits[0].source.moduleId in modules
    ensures r.Some? ==> r.value == modules[hits[0].source.moduleId]
  {
    if |hits| == 0 then None
    else
      var id := hits[0].source.moduleId;
      if id == "" || id !in modules then None else Some(modules[id])
  }

  /**
   * `reason_with_logic_tree`: `None` when there are no hits, the top hit has no module id,
   * no module is registered under it, or its `reason` raises; otherwise exactly that
   * module's answer to the query.
   */
  function ReasonWithLogicTree(modules: map<string, LogicTreeModule>, query: string, hits: seq<Bm25Hit>)
    : (r: Option<ReasoningResult>)
    reads modules.Values
    ensures |hits| == 0 ==> r.None?
    ensures |hits| > 0 && (hits[0].source.moduleId == "" || hits[0].source.moduleId !in modules) ==> r.None?
    ensures |hits| > 0 && hits[0].source.moduleId != "" && hits[0].source.moduleId in modules
      ==> r == ModuleReason(modules[hits[0].source.moduleId], query)
  {
    match TopModule(modules, hits)
    case None => None
    case Some(m) => ModuleReason(m, query)
  }

  /** `reason_with_logic_tree` with the Order 5 and Order 14 modules as written. */
  function ReasonWithLogicTreeAsWritten(modules: map<string, LogicTreeModule>, query: string, hits: seq<Bm25Hit>)
    : Option<ReasoningResult>
    reads modules.Values
  {
    match TopModule(modules, hits)
    case Some(m) => if RaisesAsWritten(m, query) then None else ModuleReason(m, query)
    case None => None
  }

  /**
   * As written, a top hit owned by the Order 5 or Order 14 module gives no reasoning
   * result, where the corrected modules answer; any other top hit gives what the
   * corrected combiner gives.
   */
  lemma TopRuleModuleGivesNone(modules: map<string, LogicTreeModule>, query: string, hits: seq<Bm25Hit>)
    requires |hits| > 0 && hits[0].source.moduleId != "" && hits[0].source.moduleId in modules
    ensures var c := ClassOf(modules[hits[0].source.moduleId].metadata.moduleId);
      (c == Some(Order5Module) || c == Some(Order14Module))
      <==> ReasonWithLogicTreeAsWritten(modules, query, hits).None? && ReasonWithLogicTree(modules, query, hits).Some?
  {
    var m := modules[hits[0].source.moduleId];
    AsWrittenRuleModulesRaise(m, query);
    TopModuleReasons(modules, query, hits);
    ModuleReasonSome(m, query);
  }

  /** With a registered top module, both combiners consult it, the as-written one unless it raises. */
  lemma TopModuleReasons(modules: map<string, LogicTreeModule>, query: string, hits: seq<Bm25Hit>)
    requires |hits| > 0 && hits[0].source.moduleId != "" && hits[0].source.moduleId in modules
    ensures var m := modules[hits[0].source.moduleId];
      ReasonWithLogicTree(modules, query, hits) == ModuleReason(m, query)
      && ReasonWithLogicTreeAsWritten(modules, query, hits)
         == if RaisesAsWritten(m, query) then None else ModuleReason(m, query)
  {
  }

  /** A module answers exactly when its metadata id names one of the four classes. */
  lemma ModuleReasonSome(m: LogicTreeModule, query: string)
    ensures ModuleReason(m, query).Some? <==> m.metadata.moduleId in ModuleIds
  {
  }

  // ---------------------------------------------------------------------------
  // The hybrid score

  /** 40% of the top BM25 score scaled down by 10, and 60% of the logic confidence. */
  function Weighted(top: real, conf: real): real {
    0.4 * (top / 10.0) + 0.6 * conf
  }

  /** The confidence of the reasoning result, 0 without one. */
  function Confidence(logic: Option<ReasoningResult>): (c: real)
    ensures logic.None? ==> c == 0.0
    ensures logic.Some? ==> c == logic.value.confidence
  {
    if logic.Some? then logic.value.confidence else 0.0
  }

  /**
   * The hybrid score of `hybrid_search`: 0 without hits, else the weighted combination of
   * the top score and the confidence. It lies in [0, 1] when the top score lies in
   * [0, 10] and the confidence in [0, 1].
   */
  function HybridScore(hits: seq<Bm25Hit>, logic: Option<ReasoningResult>): (r: real)
    ensures |hits| == 0 ==> r == 0.0
    ensures |hits| > 0 && logic.None? ==> r == hits[0].score / 25.0
    ensures |hits| > 0 && 0.0 <= hits[0].score <= 10.0 && 0.0 <= Confidence(logic) <= 1.0 ==> 0.0 <= r <= 1.0
  {
    if |hits| == 0 then 0.0 else Weighted(hits[0].score, Confidence(logic))
  }

  /** The score never decreases when the top score or the confidence grows. */
  lemma WeightedMonotone(top1: real, top2: real, conf1: real, conf2: real)
    requires top1 <= top2 && conf1 <= conf2
    ensures Weighted(top1, conf1) <= Weighted(top2, conf2)
  {
  }

  /** The hybrid score, over two hit lists with the same top and two reasoning results. */
  lemma HybridScoreMonotone(hits1: seq<Bm25Hit>, hits2: seq<Bm25Hit>, logic1: Option<ReasoningResult>,
                            logic2: Option<ReasoningResult>)
    requires |hits1| > 0 && |hits2| > 0 && hits1[0].score <= hits2[0].score
    requires Confidence(logic1) <= Confidence(logic2)
    ensures HybridScore(hits1, logic1) <= HybridScore(hits2, logic2)
  {
    WeightedMonotone(hits1[0].score, hits2[0].score, Confidence(logic1), Confidence(logic2));
  }

  // ---------------------------------------------------------------------------
  // _generate_explanation

  const Step1Head: string := "Step 1 - BM25 Search: "
  const NoResultsLine: string := Step1Head + "No results found"
  const Step2Head: string := "\nStep 2 - Logic Tree Reasoning:"
  const NotAvailableLine: string := Step2Head + " Not available"

  function FoundLine(n: nat): string {
    Step1Head + "Found " + Decimal(n) + " relevant nodes"
  }

  function StepsLine(n: nat): string {
    "  Reasoning steps: " + Decimal(n)
  }

  /**
   * The explanation's parts: the BM25 stage (its hit count and top match, the score
   * written by `fixed2`, Python's `:.2f`) and the logic stage (conclusion, confidence
   * written by `percent2`, Python's `:.2%`, and the number of steps).
   */
  function ExplanationParts(hits: seq<Bm25Hit>, logic: Option<ReasoningResult>,
                            fixed2: real -> string, percent2: real -> string): (parts: seq<string>)
    ensures |parts| == (if |hits| > 0 then 2 else 1) + (if logic.Some? then 4 else 1)
  {
    (if |hits| > 0 then
       [FoundLine(|hits|), "  Top match: " + hits[0].source.citation + " (score: " + fixed2(hits[0].score) + ")"]
     else [NoResultsLine])
    + (if logic.Some? then
         [Step2Head, "  Conclusion: " + logic.value.conclusion,
          "  Confidence: " + percent2(logic.value.confidence),
          StepsLine(|logic.value.reasoningChain|)]
       else [NotAvailableLine])
  }

  /** The explanation text: its parts, one per line. */
  function Explanation(hits: seq<Bm25Hit>, logic: Option<ReasoningResult>,
                       fixed2: real -> string, percent2: real -> string): string {
    Join("\n", ExplanationParts(hits, logic, fixed2, percent2))
  }

  /**
   * The explanation opens with "No results found" exactly when there are no hits (and
   * otherwise with the hit count), and closes with "Not available" exactly when there is
   * no reasoning result. A conclusion or citation may itself contain either phrase, so
   * the positions matter.
   */
  lemma ExplanationMeaning(hits: seq<Bm25Hit>, logic: Option<ReasoningResult>,
                           fixed2: real -> string, percent2: real -> string)
    ensures var e := Explanation(hits, logic, fixed2, percent2);
      (IsPrefix(NoResultsLine, e) <==> |hits| == 0)
      && (|hits| > 0 ==> IsPrefix(FoundLine(|hits|), e))
      && (IsSuffix(NotAvailableLine, e) <==> logic.None?)
  {
    var parts := ExplanationParts(hits, logic, fixed2, percent2);
    var e := Join("\n", parts);
    JoinPrefix("\n", parts);
    JoinSuffix("\n", parts);
    var k := |Step1Head|;
    if |hits| > 0 {
      assert parts[0] == FoundLine(|hits|);
      assert FoundLine(|hits|)[k] == 'F';
      assert e[k] == 'F';
      assert NoResultsLine[k] == 'N';
    }
    var last := parts[|parts| - 1];
    if logic.Some? {
      var n := |logic.value.reasoningChain|;
      assert last == StepsLine(n);
      var d := Decimal(n);
      assert last[|last| - 1] == d[|d| - 1];
      assert IsDigit(e[|e| - 1]);
      assert NotAvailableLine[|NotAvailableLine| - 1] == 'e';
    }
  }

  /** `_generate_explanation`: appends the parts of each stage, then joins them by lines. */
  method GenerateExplanation(hits: seq<Bm25Hit>, logic: Option<ReasoningResult>,
                             fixed2: real -> string, percent2: real -> string) returns (text: string)
    ensures text == Explanation(hits, logic, fixed2, percent2)
  {
    var parts: seq<string> := [];
    if |hits| > 0 {
      parts := parts + [FoundLine(|hits|)];
      var top := hits[0];
      parts := parts + ["  Top match: " + top.source.citation + " (score: " + fixed2(top.score) + ")"];
    } else {
      parts := parts + [NoResultsLine];
    }
    match logic {
      case Some(answer) =>
        parts := parts + [Step2Head];
        parts := parts + ["  Conclusion: " + answer.conclusion];
        parts := parts + ["  Confidence: " + percent2(answer.confidence)];
        parts := parts + [StepsLine(|answer.reasoningChain|)];
      case None =>
        parts := parts + [NotAvailableLine];
    }
    assert parts == ExplanationParts(hits, logic, fixed2, percent2);
    text := Join("\n", parts);
  }

  // ---------------------------------------------------------------------------
  // HybridSearch6D

  /** A consistent registry holding exactly the four modules, each initialised with its table. */
  ghost predicate Registered(r: ModuleRegistry)
    reads r, r.modules.Values
  {
    r.Valid() && r.modules.Keys == ModuleIds
    && forall id :: id in r.modules ==>
         r.modules[id].initialized && r.modules[id].Valid() && r.modules[id].nodes == r.modules[id].loaded
  }

  /** The hybrid search with its registry of the four modules. */
  class HybridSearch6D {
    const registry: ModuleRegistry

    /** The registry is consistent and holds the four modules, each initialised. */
    ghost predicate Valid()
      reads this, registry, registry.modules.Values
    {
      Registered(registry)
    }

    /** `__init__`: the search over the registry of the four modules. */
    constructor (now: DateTime)
      ensures fresh(registry) && Valid()
    {
      var r := NewRegistry();
      registry := r;
      new;
      RegisterFour(r, now);
    }

    /**
     * `hybrid_search` over the hits the BM25 stage returned: the reasoning of the top
     * hit's module (only when there are hits), the hybrid score and the explanation.
     */
    method Search(query: string, hits: seq<Bm25Hit>, fixed2: real -> string, percent2: real -> string)
      returns (r: HybridSearchResult)
      ensures r.query == query && r.bm25Results == hits
      ensures r.logicTreeAnswer == ReasonWithLogicTree(registry.modules, query, hits)
      ensures r.hybridScore == HybridScore(hits, r.logicTreeAnswer)
      ensures r.explanation == Explanation(hits, r.logicTreeAnswer, fixed2, percent2)
    {
      var logic: Option<ReasoningResult> := None;
      if |hits| > 0 {
        logic := ReasonWithLogicTree(registry.modules, query, hits);
      }
      r := Combine(query, hits, logic, fixed2, percent2);
    }
  }

  /** The rest of `hybrid_search` once the reasoning is in: the hybrid score and the explanation. */
  method Combine(query: string, hits: seq<Bm25Hit>, logic: Option<ReasoningResult>,
                 fixed2: real -> string, percent2: real -> string)
    returns (r: HybridSearchResult)
    ensures r.query == query && r.bm25Results == hits && r.logicTreeAnswer == logic
    ensures r.hybridScore == HybridScore(hits, logic)
    ensures r.explanation == Explanation(hits, logic, fixed2, percent2)
  {
    var score := 0.0;
    if |hits| > 0 {
      var top := hits[0].score / 10.0;
      var conf := if logic.Some? then logic.value.confidence else 0.0;
      score := 0.4 * top + 0.6 * conf;
    }
    var explanation := GenerateExplanation(hits, logic, fixed2, percent2);
    r := HybridSearchResult(query, hits, logic, score, explanation);
  }

  /**
   * Once built, a top hit owned by one of the four modules is answered by that module,
   * registered under its own id, over its loaded table.
   */
  lemma RegisteredTopAnswers(s: HybridSearch6D, query: string, hits: seq<Bm25Hit>)
    requires s.Valid() && |hits| > 0 && hits[0].source.moduleId in ModuleIds
    ensures var m := s.registry.modules[hits[0].source.moduleId];
      m.metadata.moduleId == hits[0].source.moduleId && m.nodes == m.loaded
      && ReasonWithLogicTree(s.registry.modules, query, hits) == ModuleReason(m, query)
  {
    var id := hits[0].source.moduleId;
    assert id in s.registry.modules;
    assert s.registry.modules[id].metadata == s.registry.metadataIndex[id];
  }

  /** `Order21Module()`, not yet initialised. */
  method NewOrder21(now: DateTime) returns (m: LogicTreeModule)
    ensures fresh(m) && m.metadata.moduleId == "order_21" && m.Valid()
  {
    m := Order21.NewModule(now);
  }

  /** `Order21CostsModule()`, not yet initialised. */
  method NewOrder21Costs(now: DateTime) returns (m: LogicTreeModule)
    ensures fresh(m) && m.metadata.moduleId == "order_21_costs" && m.Valid()
  {
    m := Order21Costs.NewModule(now);
  }

  /** `Order5Module()`, not yet initialised. */
  method NewOrder5() returns (m: LogicTreeModule)
    ensures fresh(m) && m.metadata.moduleId == "order_5" && m.Valid()
  {
    m := Order5.NewModule();
  }

  /** `Order14Module()`, not yet initialised. */
  method NewOrder14() returns (m: LogicTreeModule)
    ensures fresh(m) && m.metadata.moduleId == "order_14" && m.Valid()
  {
    m := Order14.NewModule();
  }

  /** The registrations of `__init__`: the four modules, new, registered in turn. */
  method RegisterFour(r: ModuleRegistry, now: DateTime)
    requires r.Valid() && r.modules == map[]
    modifies r
    ensures Registered(r)
  {
    var m1 := NewOrder21(now);
    var m2 := NewOrder21Costs(now);
    var m3 := NewOrder5();
    var m4 := NewOrder14();
    RegisterAll(r, m1, m2, m3, m4);
    FourRegistered(r, m1, m2, m3, m4);
  }

  /** Four initialised modules under the four ids make a registry `Registered`. */
  lemma FourRegistered(r: ModuleRegistry, m1: LogicTreeModule, m2: LogicTreeModule, m3: LogicTreeModule,
                       m4: LogicTreeModule)
    requires r.Valid()
    requires r.modules == map[][m1.metadata.moduleId := m1][m2.metadata.moduleId := m2]
                                [m3.metadata.moduleId := m3][m4.metadata.moduleId := m4]
    requires m1.metadata.moduleId == "order_21" && m2.metadata.moduleId == "order_21_costs"
    requires m3.metadata.moduleId == "order_5" && m4.metadata.moduleId == "order_14"
    requires m1.initialized && m2.initialized && m3.initialized && m4.initialized
    requires m1.Valid() && m2.Valid() && m3.Valid() && m4.Valid()
    ensures Registered(r)
  {
    FourEntries("order_21", "order_21_costs", "order_5", "order_14", m1, m2, m3, m4);
    forall id | id in r.modules
      ensures r.modules[id].initialized && r.modules[id].Valid() && r.modules[id].nodes == r.modules[id].loaded
    {
      assert r.modules[id] == m1 || r.modules[id] == m2 || r.modules[id] == m3 || r.modules[id] == m4;
    }
  }

  /** A map built by four updates has the four keys, each with one of the four values. */
  lemma FourEntries<K, V>(a: K, b: K, c: K, d: K, x1: V, x2: V, x3: V, x4: V)
    ensures var m := map[][a := x1][b := x2][c := x3][d := x4];
      m.Keys == {a, b, c, d} && forall k :: k in m ==> m[k] == x1 || m[k] == x2 || m[k] == x3 || m[k] == x4
  {
  }

  /** A new, empty registry. */
  method NewRegistry() returns (r: ModuleRegistry)
    ensures fresh(r) && r.Valid() && r.modules == map[]
  {
    r := new ModuleRegistry();
  }

  /** The registrations of `__init__`, in order, into an empty registry. */
  method RegisterAll(r: ModuleRegistry, m1: LogicTreeModule, m2: LogicTreeModule, m3: LogicTreeModule,
                     m4: LogicTreeModule)
    requires r.Valid() && r.modules == map[]
    requires m1.Valid() && m2.Valid() && m3.Valid() && m4.Valid()
    requires m1 != m2 && m1 != m3 && m1 != m4 && m2 != m3 && m2 != m4 && m3 != m4
    modifies r, m1, m2, m3, m4
    ensures r.Valid()
    ensures r.modules == map[][m1.metadata.moduleId := m1][m2.metadata.moduleId := m2]
                               [m3.metadata.moduleId := m3][m4.metadata.moduleId := m4]
    ensures m1.initialized && m2.initialized && m3.initialized && m4.initialized
    ensures m1.Valid() && m2.Valid() && m3.Valid() && m4.Valid()
  {
    Register(r, m1);
    Register(r, m2);
    Register(r, m3);
    Register(r, m4);
  }

  /** One `register_module` call, as far as the registry's modules and consistency go. */
  method Register(r: ModuleRegistry, m: LogicTreeModule)
    requires r.Valid() && m.Valid()
    modifies r, m
    ensures r.Valid() && r.modules == old(r.modules)[m.metadata.moduleId := m]
    ensures m.initialized && m.Valid()
  {
    r.RegisterModule(m);
  }
}
