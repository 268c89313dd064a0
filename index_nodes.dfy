/**
 * The indexer that turns logic tree nodes into search documents (`Node6DIndexer`):
 * `convert_node_to_doc` and the success count of `index_module`. The Elasticsearch
 * `index` call is a parameter that accepts or rejects each document, and every clock
 * read is the injected `now`.
 */
module IndexNodes {
  import opened Wrappers
  import opened Text
  import opened JsonValue
  import opened IsoDate
  import opened SixDimensions
  import opened NodeDict
  import opened NodeTables
  import opened ModuleKit
  import opened LogicTree

  /** The index the documents go to. */
  const IndexName: string := "singapore_legal_6d"

  /** Renders each item, in order. */
  function Rendered<T>(xs: seq<T>, render: T -> string): (r: seq<string>)
    ensures |r| == |xs| && forall i :: 0 <= i < |xs| ==> r[i] == render(xs[i])
  {
    seq(|xs|, i requires 0 <= i < |xs| => render(xs[i]))
  }

  function PropText(p: Proposition): string {
    p.text
  }

  /** An IF-THEN part of the search text: condition and consequence, never the exceptions. */
  function IfThenLine(c: Conditional): string {
    "IF " + c.condition + " THEN " + c.consequence
  }

  /** A CAN/MUST part of the search text: the modality and the action, never the conditions. */
  function ModalityLine(m: Modality): string {
    ModalityValue(m.modalityType) + " " + m.action
  }

  /**
   * The parts of the search text of a node without its own full text: the citation, then
   * WHAT, WHICH, IF-THEN, CAN/MUST, GIVEN and WHY, one part per item.
   */
  function SearchParts(n: Node): seq<string> {
    [n.citation] + Rendered(n.what, PropText) + Rendered(n.which, PropText)
    + Rendered(n.ifThen, IfThenLine) + Rendered(n.canMust, ModalityLine)
    + Rendered(n.given, PropText) + Rendered(n.why, PropText)
  }

  /** The document's "full_text": the node's own text, or its parts joined by spaces. */
  function SearchText(n: Node): string {
    if n.fullText != "" then n.fullText else Join(" ", SearchParts(n))
  }

  /** The document `convert_node_to_doc` builds, with every clock read at `now`. */
  function NodeDoc(n: Node, now: DateTime): map<string, Json> {
    DictFields(n, now)["created_at" := JStr(IsoFormat(now))]["updated_at" := JStr(IsoFormat(now))]
      ["full_text" := JStr(SearchText(n))]
  }

  /** Appends the rendering of each item: one of the per-dimension loops. */
  method AppendRendered<T>(parts: seq<string>, xs: seq<T>, render: T -> string) returns (r: seq<string>)
    ensures r == parts + Rendered(xs, render)
  {
    r := parts;
    var i := 0;
    while i < |xs|
      invariant 0 <= i <= |xs|
      invariant r == parts + Rendered(xs[..i], render)
    {
      r := r + [render(xs[i])];
      i := i + 1;
    }
    assert xs[..i] == xs;
  }

  /** `convert_node_to_doc`: `to_dict()`, the two timestamps, then the search text if missing. */
  method ConvertNodeToDoc(n: Node, now: DateTime) returns (doc: map<string, Json>)
    ensures doc == NodeDoc(n, now)
  {
    doc := DictFields(n, now);
    doc := doc["created_at" := JStr(IsoFormat(now))];
    doc := doc["updated_at" := JStr(IsoFormat(now))];
    DictOfKeys9(DictValues(n, now));
    assert doc["full_text"] == JStr(n.fullText);
    if !Truthy(Get(doc, "full_text", JNull)) {
      var parts := [n.citation];
      parts := AppendRendered(parts, n.what, PropText);
      parts := AppendRendered(parts, n.which, PropText);
      parts := AppendRendered(parts, n.ifThen, IfThenLine);
      parts := AppendRendered(parts, n.canMust, ModalityLine);
      parts := AppendRendered(parts, n.given, PropText);
      parts := AppendRendered(parts, n.why, PropText);
      doc := doc["full_text" := JStr(Join(" ", parts))];
    } else {
      doc := doc["full_text" := JStr(n.fullText)];
    }
  }

  /**
   * The document holds every `to_dict()` key plus "created_at" and "updated_at", and no
   * other; every `to_dict()` entry but "full_text" is carried over unchanged; the two
   * timestamps are `now` in ISO format.
   */
  lemma NodeDocMeaning(n: Node, now: DateTime)
    ensures NodeDoc(n, now).Keys == DictFields(n, now).Keys + {"created_at", "updated_at"}
    ensures "created_at" !in DictFields(n, now) && "updated_at" !in DictFields(n, now)
    ensures forall k :: k in DictFields(n, now) && k != "full_text" ==> NodeDoc(n, now)[k] == DictFields(n, now)[k]
    ensures NodeDoc(n, now)["created_at"] == JStr(IsoFormat(now)) == NodeDoc(n, now)["updated_at"]
  {
    DictOfKeys9(DictValues(n, now));
    NoTimestampKeys(DictValues(n, now));
    Stamped(DictFields(n, now), JStr(IsoFormat(now)), JStr(SearchText(n)));
  }

  /** Stamping a dictionary that has "full_text" and no timestamps, as `NodeDoc` does. */
  lemma Stamped(f: map<string, Json>, stamp: Json, text: Json)
    requires "full_text" in f && "created_at" !in f && "updated_at" !in f
    ensures var d := f["created_at" := stamp]["updated_at" := stamp]["full_text" := text];
      d.Keys == f.Keys + {"created_at", "updated_at"}
      && (forall k :: k in f && k != "full_text" ==> d[k] == f[k])
      && d["created_at"] == stamp == d["updated_at"]
  {
  }

  /** A node's own full text is used unchanged; without one the parts are joined. */
  lemma SearchTextMeaning(n: Node, now: DateTime)
    ensures n.fullText != "" ==> NodeDoc(n, now)["full_text"] == JStr(n.fullText)
    ensures n.fullText == "" ==> NodeDoc(n, now)["full_text"] == JStr(Join(" ", SearchParts(n)))
    ensures |SearchParts(n)| == 1 + |n.what| + |n.which| + |n.ifThen| + |n.canMust| + |n.given| + |n.why|
    ensures SearchParts(n)[0] == n.citation
  {
  }

  /**
   * An IF-THEN part is the conditional's `str()` without its exceptions, so the two agree
   * exactly when there are none; a CAN/MUST part likewise drops the conditions.
   */
  lemma LinesDropQualifiers(c: Conditional, m: Modality)
    ensures IsPrefix(IfThenLine(c), ConditionalText(c))
    ensures IfThenLine(c) == ConditionalText(c) <==> c.exceptions == []
    ensures IsPrefix(ModalityLine(m), ModalityText(m))
    ensures ModalityLine(m) == ModalityText(m) <==> m.conditions == []
  {
  }

  /**
   * Without its own full text a node's document text contains the citation and the text
   * of each of its WHAT, WHICH, GIVEN and WHY propositions.
   */
  lemma SearchTextCovers(n: Node)
    requires n.fullText == ""
    ensures Contains(SearchText(n), n.citation)
    ensures forall i :: 0 <= i < |n.what| ==> Contains(SearchText(n), n.what[i].text)
    ensures forall i :: 0 <= i < |n.why| ==> Contains(SearchText(n), n.why[i].text)
  {
    var parts := SearchParts(n);
    JoinContains(" ", parts, 0);
    forall i | 0 <= i < |n.what|
      ensures Contains(SearchText(n), n.what[i].text)
    {
      assert parts[1 + i] == n.what[i].text;
      JoinContains(" ", parts, 1 + i);
    }
    forall i | 0 <= i < |n.why|
      ensures Contains(SearchText(n), n.why[i].text)
    {
      var k := |parts| - |n.why| + i;
      assert parts[k] == n.why[i].text;
      JoinContains(" ", parts, k);
    }
  }

  /**
   * The Elasticsearch `index` call: whether it stores a document under an id in an index
   * (`False` stands for the exception `index_node` catches).
   */
  type Indexer = (string, string, map<string, Json>) -> bool

  /** `index_node`: converts the node and reports whether the index call went through. */
  method IndexNode(es: Indexer, n: Node, now: DateTime) returns (ok: bool)
    ensures ok == es(IndexName, n.nodeId, NodeDoc(n, now))
  {
    var doc := ConvertNodeToDoc(n, now);
    ok := es(IndexName, n.nodeId, doc);
  }

  /** Whether the index call accepts the document of `n`. */
  function Accepted(es: Indexer, now: DateTime): Node -> bool {
    (n: Node) => es(IndexName, n.nodeId, NodeDoc(n, now))
  }

  /**
   * `index_module`: initialises the module if it is not yet, then indexes its nodes in
   * table order and counts the successes, which are at most the number of nodes.
   */
  method IndexModule(es: Indexer, m: LogicTreeModule, now: DateTime) returns (count: nat)
    requires m.Valid()
    modifies m
    ensures m.Valid() && m.initialized && m.nodes == m.loaded
    ensures count == Count(Values(m.loaded), Accepted(es, now))
    ensures count <= |m.loaded.ids|
  {
    if !m.initialized {
      m.Initialize();
    }
    count := IndexAll(es, Values(m.nodes), now);
  }

  /** The loop of `index_module`: one `index_node` per node, counting those that succeed. */
  method IndexAll(es: Indexer, ns: seq<Node>, now: DateTime) returns (count: nat)
    ensures count == Count(ns, Accepted(es, now))
    ensures count <= |ns|
  {
    count := 0;
    var i := 0;
    while i < |ns|
      invariant 0 <= i <= |ns|
      invariant count == Count(ns[..i], Accepted(es, now))
    {
      count := IndexStep(es, ns, i, now, count);
      i := i + 1;
    }
    assert ns[..i] == ns;
  }

  /** One round of that loop: indexes `ns[i]` and counts it when the call succeeds. */
  method IndexStep(es: Indexer, ns: seq<Node>, i: nat, now: DateTime, count: nat) returns (count': nat)
    requires i < |ns| && count == Count(ns[..i], Accepted(es, now))
    ensures count' == Count(ns[..i + 1], Accepted(es, now))
  {
    CountSnoc(ns, Accepted(es, now), i);
    var ok := IndexNode(es, ns[i], now);
    count' := if ok then count + 1 else count;
  }
}
