/**
 * The pure part of a logic tree module: the result records, the node table a module
 * loads, lookups and roots, the walks the two breadth-first searches follow, the
 * validation rules and the statistics.
 */
module NodeTables {
  import opened Wrappers
  import opened Text
  import opened JsonValue
  import opened IsoDate
  import opened SixDimensions
  import opened Seqs

  datatype ModuleCoverage = ModuleCoverage(
    statute: string, sections: seq<string>, topics: seq<string>, keywords: seq<string>,
    jurisdictions: seq<string>)

  datatype ModuleMetadata = ModuleMetadata(
    moduleId: string, name: string, version: string, coverage: ModuleCoverage,
    authorityWeight: real, effectiveDate: DateTime, dependencies: seq<string>,
    description: string, maintainer: string, validatedBy: Option<string>,
    validatedDate: Option<DateTime>, metadata: map<string, Json>)

  datatype SearchResult = SearchResult(
    node: Node, relevanceScore: real, reasoningPath: seq<string>,
    matchedDimension: string, matchedText: string)

  datatype ReasoningStep = ReasoningStep(
    nodeId: string, citation: string, dimension: string, text: string, authorityWeight: real)

  datatype ReasoningResult = ReasoningResult(
    conclusion: string, confidence: real, reasoningChain: seq<ReasoningStep>,
    alternativePaths: seq<seq<ReasoningStep>>, applicableNodes: seq<Node>,
    warnings: seq<string>, metadata: map<string, Json>)

  /** A step for `node` in dimension `dim`, carrying the node's id, citation and weight. */
  function StepOf(n: Node, dim: string, text: string): ReasoningStep {
    ReasoningStep(n.nodeId, n.citation, dim, text, AuthorityWeight(n))
  }

  /** A Python dict of nodes: the keys in insertion order, and the mapping. */
  datatype NodeTable = NodeTable(ids: seq<string>, byId: map<string, Node>)

  type Nodes = t: NodeTable | Distinct(t.ids) && (forall k :: k in t.byId <==> k in t.ids)
    witness NodeTable([], map[])

  /** Five nodes under five distinct ids, in that order: what a `load_nodes` of five nodes returns. */
  function Table5(n0: Node, n1: Node, n2: Node, n3: Node, n4: Node): (t: Nodes)
    requires n0.nodeId != n1.nodeId && n0.nodeId != n2.nodeId && n0.nodeId != n3.nodeId && n0.nodeId != n4.nodeId
    requires n1.nodeId != n2.nodeId && n1.nodeId != n3.nodeId && n1.nodeId != n4.nodeId
    requires n2.nodeId != n3.nodeId && n2.nodeId != n4.nodeId && n3.nodeId != n4.nodeId
    ensures t.ids == [n0.nodeId, n1.nodeId, n2.nodeId, n3.nodeId, n4.nodeId]
    ensures t.byId[n0.nodeId] == n0 && t.byId[n1.nodeId] == n1 && t.byId[n2.nodeId] == n2
    ensures t.byId[n3.nodeId] == n3 && t.byId[n4.nodeId] == n4
  {
    var ids := [n0.nodeId, n1.nodeId, n2.nodeId, n3.nodeId, n4.nodeId];
    var byId := map[n0.nodeId := n0, n1.nodeId := n1, n2.nodeId := n2, n3.nodeId := n3, n4.nodeId := n4];
    assert forall k :: k in byId <==> k in ids;
    NodeTable(ids, byId)
  }

  /** Four nodes under four distinct ids, in that order. */
  function Table4(n0: Node, n1: Node, n2: Node, n3: Node): (t: Nodes)
    requires n0.nodeId != n1.nodeId && n0.nodeId != n2.nodeId && n0.nodeId != n3.nodeId
    requires n1.nodeId != n2.nodeId && n1.nodeId != n3.nodeId && n2.nodeId != n3.nodeId
    ensures t.ids == [n0.nodeId, n1.nodeId, n2.nodeId, n3.nodeId]
    ensures t.byId[n0.nodeId] == n0 && t.byId[n1.nodeId] == n1 && t.byId[n2.nodeId] == n2
    ensures t.byId[n3.nodeId] == n3
  {
    var ids := [n0.nodeId, n1.nodeId, n2.nodeId, n3.nodeId];
    var byId := map[n0.nodeId := n0, n1.nodeId := n1, n2.nodeId := n2, n3.nodeId := n3];
    assert forall k :: k in byId <==> k in ids;
    NodeTable(ids, byId)
  }

  /** Seven nodes under seven distinct ids, in that order. */
  function Table7(n0: Node, n1: Node, n2: Node, n3: Node, n4: Node, n5: Node, n6: Node): (t: Nodes)
    requires n0.nodeId != n1.nodeId && n0.nodeId != n2.nodeId && n0.nodeId != n3.nodeId
    requires n0.nodeId != n4.nodeId && n0.nodeId != n5.nodeId && n0.nodeId != n6.nodeId
    requires n1.nodeId != n2.nodeId && n1.nodeId != n3.nodeId && n1.nodeId != n4.nodeId
    requires n1.nodeId != n5.nodeId && n1.nodeId != n6.nodeId && n2.nodeId != n3.nodeId
    requires n2.nodeId != n4.nodeId && n2.nodeId != n5.nodeId && n2.nodeId != n6.nodeId
    requires n3.nodeId != n4.nodeId && n3.nodeId != n5.nodeId && n3.nodeId != n6.nodeId
    requires n4.nodeId != n5.nodeId && n4.nodeId != n6.nodeId && n5.nodeId != n6.nodeId
    ensures t.ids == [n0.nodeId, n1.nodeId, n2.nodeId, n3.nodeId, n4.nodeId, n5.nodeId, n6.nodeId]
    ensures t.byId == map[n0.nodeId := n0, n1.nodeId := n1, n2.nodeId := n2, n3.nodeId := n3,
                          n4.nodeId := n4, n5.nodeId := n5, n6.nodeId := n6]
  {
    SevenKeys(n0.nodeId, n1.nodeId, n2.nodeId, n3.nodeId, n4.nodeId, n5.nodeId, n6.nodeId,
      n0, n1, n2, n3, n4, n5, n6);
    var ids := [n0.nodeId, n1.nodeId, n2.nodeId, n3.nodeId, n4.nodeId, n5.nodeId, n6.nodeId];
    var byId := map[n0.nodeId := n0, n1.nodeId := n1, n2.nodeId := n2, n3.nodeId := n3,
                    n4.nodeId := n4, n5.nodeId := n5, n6.nodeId := n6];
    var t := NodeTable(ids, byId);
    assert Distinct(t.ids);
    assert forall k :: k in t.byId <==> k in t.ids;
    t
  }

  /** A seven-key map display under distinct keys has exactly those keys and yields each value. */
  lemma SevenKeys(k0: string, k1: string, k2: string, k3: string, k4: string, k5: string, k6: string,
                     v0: Node, v1: Node, v2: Node, v3: Node, v4: Node, v5: Node, v6: Node)
    requires k0 != k1 && k0 != k2 && k0 != k3 && k0 != k4 && k0 != k5 && k0 != k6
    requires k1 != k2 && k1 != k3 && k1 != k4 && k1 != k5 && k1 != k6
    requires k2 != k3 && k2 != k4 && k2 != k5 && k2 != k6
    requires k3 != k4 && k3 != k5 && k3 != k6 && k4 != k5 && k4 != k6 && k5 != k6
    ensures var ids := [k0, k1, k2, k3, k4, k5, k6];
      var m := map[k0 := v0, k1 := v1, k2 := v2, k3 := v3, k4 := v4, k5 := v5, k6 := v6];
      Distinct(ids) && (forall k :: k in m <==> k in ids)
      && m[k0] == v0 && m[k1] == v1 && m[k2] == v2 && m[k3] == v3
      && m[k4] == v4 && m[k5] == v5 && m[k6] == v6
  {
  }

  /** Two tables over disjoint ids, one after the other: a `load_nodes` of more than five nodes. */
  function Union(a: Nodes, b: Nodes): (t: Nodes)
    requires forall k :: k in a.byId ==> k !in b.byId
    ensures t.ids == a.ids + b.ids
    ensures forall k :: k in a.byId ==> k in t.byId && t.byId[k] == a.byId[k]
    ensures forall k :: k in b.byId ==> k in t.byId && t.byId[k] == b.byId[k]
  {
    var ids := a.ids + b.ids;
    assert Distinct(ids) by {
      forall i, j | 0 <= i < j < |ids|
        ensures ids[i] != ids[j]
      {
        if j < |a.ids| {
        } else if i >= |a.ids| {
          assert ids[i] == b.ids[i - |a.ids|] && ids[j] == b.ids[j - |a.ids|];
        } else {
          assert ids[i] in a.byId && ids[j] == b.ids[j - |a.ids|];
        }
      }
    }
    NodeTable(ids, a.byId + b.byId)
  }

  /** Two tables of five ids named one by one share no id when no two of the names are equal. */
  lemma Disjoint5And5(a: Nodes, b: Nodes, x0: string, x1: string, x2: string, x3: string, x4: string,
                      y0: string, y1: string, y2: string, y3: string, y4: string)
    requires a.ids == [x0, x1, x2, x3, x4] && b.ids == [y0, y1, y2, y3, y4]
    requires x0 != y0 && x0 != y1 && x0 != y2 && x0 != y3 && x0 != y4
    requires x1 != y0 && x1 != y1 && x1 != y2 && x1 != y3 && x1 != y4
    requires x2 != y0 && x2 != y1 && x2 != y2 && x2 != y3 && x2 != y4
    requires x3 != y0 && x3 != y1 && x3 != y2 && x3 != y3 && x3 != y4
    requires x4 != y0 && x4 != y1 && x4 != y2 && x4 != y3 && x4 != y4
    ensures forall k :: k in a.byId ==> k !in b.byId
  {
  }

  /** `get_node`: `nodes.get(id)`. */
  function GetNode(t: Nodes, id: string): (r: Option<Node>)
    ensures r.Some? <==> id in t.byId
    ensures r.Some? ==> r.value == t.byId[id]
  {
    if id in t.byId then Some(t.byId[id]) else None
  }

  /** The ids of `ids` that are keys of the table, in order. */
  function ExistingIds(t: Nodes, ids: seq<string>): (r: seq<string>)
    ensures |r| <= |ids|
    ensures forall x :: x in r <==> x in ids && x in t.byId
  {
    if |ids| == 0 then []
    else if ids[0] in t.byId then [ids[0]] + ExistingIds(t, ids[1..])
    else ExistingIds(t, ids[1..])
  }

  /** `ExistingIds` keeps order: it is the whole list when no id dangles. */
  lemma {:induction false} ExistingIdsAll(t: Nodes, ids: seq<string>)
    requires forall x :: x in ids ==> x in t.byId
    ensures ExistingIds(t, ids) == ids
  {
    if |ids| > 0 {
      ExistingIdsAll(t, ids[1..]);
    }
  }

  function NodesOf(t: Nodes, ids: seq<string>): (r: seq<Node>)
    requires forall x :: x in ids ==> x in t.byId
    ensures |r| == |ids| && forall i :: 0 <= i < |ids| ==> r[i] == t.byId[ids[i]]
  {
    seq(|ids|, i requires 0 <= i < |ids| => t.byId[ids[i]])
  }

  /** `get_children`: the children that exist, in `children_ids` order; [] for an unknown node. */
  function GetChildren(t: Nodes, id: string): (r: seq<Node>)
    ensures id !in t.byId ==> r == []
    ensures id in t.byId ==> r == NodesOf(t, ExistingIds(t, t.byId[id].childrenIds))
    ensures forall n :: n in r ==> exists c :: c in t.byId && t.byId[c] == n
  {
    if id !in t.byId then [] else
      var kids := ExistingIds(t, t.byId[id].childrenIds);
      var r := NodesOf(t, kids);
      assert forall i :: 0 <= i < |r| ==> kids[i] in t.byId && t.byId[kids[i]] == r[i];
      r
  }

  /** `get_parent`. */
  function GetParent(t: Nodes, id: string): (r: Option<Node>)
    ensures r.None? <==>
      id !in t.byId || !HasText(t.byId[id].parentId) || t.byId[id].parentId.value !in t.byId
    ensures r.Some? ==> r.value == t.byId[t.byId[id].parentId.value]
  {
    if id !in t.byId || !HasText(t.byId[id].parentId) then None
    else GetNode(t, t.byId[id].parentId.value)
  }

  /** The ids among `ids` whose node has `parent_id is None`, in order. */
  function RootsAmong(t: Nodes, ids: seq<string>): seq<string>
    requires forall x :: x in ids ==> x in t.byId
  {
    if |ids| == 0 then []
    else
      var init := ids[..|ids| - 1];
      RootsAmong(t, init) + (if t.byId[Last(ids)].parentId.None? then [Last(ids)] else [])
  }

  function Roots(t: Nodes): seq<string> {
    RootsAmong(t, t.ids)
  }

  lemma {:induction false} RootsAmongMeaning(t: Nodes, ids: seq<string>)
    requires forall x :: x in ids ==> x in t.byId
    requires Distinct(ids)
    ensures forall x :: x in RootsAmong(t, ids) <==> x in ids && t.byId[x].parentId.None?
    ensures Distinct(RootsAmong(t, ids))
  {
    if |ids| > 0 {
      var init := ids[..|ids| - 1];
      assert forall x :: x in ids <==> x in init || x == Last(ids);
      RootsAmongMeaning(t, init);
    }
  }

  /** The roots are exactly the nodes without a parent, each listed once. */
  lemma RootsMeaning(t: Nodes)
    ensures forall x :: x in Roots(t) <==> x in t.byId && t.byId[x].parentId.None?
    ensures Distinct(Roots(t))
  {
    RootsAmongMeaning(t, t.ids);
  }

  /** A table of ten ids named one by one, only the first without a parent, has that one root. */
  lemma RootsTen(t: Nodes, i0: string, i1: string, i2: string, i3: string, i4: string,
                 i5: string, i6: string, i7: string, i8: string, i9: string)
    requires t.ids == [i0, i1, i2, i3, i4, i5, i6, i7, i8, i9]
    requires t.byId[i0].parentId.None?
    requires t.byId[i1].parentId.Some? && t.byId[i2].parentId.Some? && t.byId[i3].parentId.Some?
    requires t.byId[i4].parentId.Some? && t.byId[i5].parentId.Some? && t.byId[i6].parentId.Some?
    requires t.byId[i7].parentId.Some? && t.byId[i8].parentId.Some? && t.byId[i9].parentId.Some?
    ensures forall x :: x in Roots(t) <==> x == i0
  {
    RootsMeaning(t);
  }

  // ---------------------------------------------------------------------------
  // Edges followed by the two searches

  predicate Down(direction: string) { direction == "down" || direction == "both" }
  predicate Up(direction: string) { direction == "up" || direction == "both" }

  /** One hop of `traverse_tree`: to a listed child going down, to a parent going up. */
  predicate Step(t: Nodes, direction: string, a: string, b: string) {
    a in t.byId
    && ((Down(direction) && b in t.byId[a].childrenIds)
        || (Up(direction) && HasText(t.byId[a].parentId) && b == t.byId[a].parentId.value))
  }

  predicate Walk(t: Nodes, direction: string, p: seq<string>) {
    |p| >= 1 && forall i :: 0 <= i < |p| - 1 ==> Step(t, direction, p[i], p[i + 1])
  }

  /** One hop of `get_reasoning_path`: a child, the parent, an interpreted or an extended node. */
  predicate Linked(t: Nodes, a: string, b: string) {
    a in t.byId
    && (b in t.byId[a].childrenIds
        || (HasText(t.byId[a].parentId) && b == t.byId[a].parentId.value)
        || b in t.byId[a].interpretsIds
        || b in t.byId[a].extendsIds)
  }

  predicate LinkedPath(t: Nodes, p: seq<string>) {
    |p| >= 1 && forall i :: 0 <= i < |p| - 1 ==> Linked(t, p[i], p[i + 1])
  }

  /** Going down never follows a parent link, and going up never follows a child link. */
  lemma StepDirections(t: Nodes, a: string, b: string)
    ensures Step(t, "down", a, b) <==> a in t.byId && b in t.byId[a].childrenIds
    ensures Step(t, "up", a, b) <==>
      a in t.byId && HasText(t.byId[a].parentId) && b == t.byId[a].parentId.value
    ensures Step(t, "both", a, b) ==> Linked(t, a, b)
  {
  }

  /** Every id a search can put on its queue: the keys and everything any node refers to. */
  ghost function Referenced(t: Nodes): set<string> {
    t.byId.Keys
    + (set a, c | a in t.byId && c in t.byId[a].childrenIds :: c)
    + (set a | a in t.byId && t.byId[a].parentId.Some? :: t.byId[a].parentId.value)
    + (set a, c | a in t.byId && c in t.byId[a].interpretsIds :: c)
    + (set a, c | a in t.byId && c in t.byId[a].extendsIds :: c)
  }

  /** `u` holds every id a link of the table leads to. */
  ghost predicate Closed(t: Nodes, u: set<string>) {
    forall a, b :: Linked(t, a, b) ==> b in u
  }

  lemma LinkedInUniverse(t: Nodes, a: string, b: string)
    requires Linked(t, a, b)
    ensures b in Referenced(t)
  {
    if b in t.byId[a].childrenIds {
      assert b in (set a, c | a in t.byId && c in t.byId[a].childrenIds :: c);
    } else if b in t.byId[a].interpretsIds {
      assert b in (set a, c | a in t.byId && c in t.byId[a].interpretsIds :: c);
    } else if b in t.byId[a].extendsIds {
      assert b in (set a, c | a in t.byId && c in t.byId[a].extendsIds :: c);
    } else {
      assert b in (set a | a in t.byId && t.byId[a].parentId.Some? :: t.byId[a].parentId.value);
    }
  }

  /** A finite set of ids holding `start` and closed under links: the searches stay inside it. */
  lemma UniverseOf(t: Nodes, start: string) returns (u: set<string>)
    ensures start in u && Closed(t, u)
  {
    u := Referenced(t) + {start};
    forall a, b | Linked(t, a, b)
      ensures b in u
    {
      LinkedInUniverse(t, a, b);
    }
  }

  /** `x` is reached by the walk `p`: from `start`, in `direction`, at most `maxDepth` hops. */
  ghost predicate Reached(t: Nodes, direction: string, start: string, maxDepth: int, x: string, p: seq<string>) {
    Walk(t, direction, p) && p[0] == start && Last(p) == x && |p| - 1 <= maxDepth
  }

  /** A queue entry of `traverse_tree` with the walk that put it there. */
  ghost predicate Entry(t: Nodes, direction: string, start: string, universe: set<string>,
                        e: (string, int), p: seq<string>) {
    e.1 >= 0 && Walk(t, direction, p) && p[0] == start && Last(p) == e.0 && |p| - 1 == e.1
    && e.0 in universe
  }

  ghost predicate Frontier(t: Nodes, direction: string, start: string, universe: set<string>,
                           queue: seq<(string, int)>, qpaths: seq<seq<string>>) {
    |qpaths| == |queue|
    && forall k :: 0 <= k < |queue| ==> Entry(t, direction, start, universe, queue[k], qpaths[k])
  }

  lemma FrontierTail(t: Nodes, direction: string, start: string, universe: set<string>,
                     queue: seq<(string, int)>, qpaths: seq<seq<string>>)
    requires Frontier(t, direction, start, universe, queue, qpaths) && |queue| > 0
    ensures Entry(t, direction, start, universe, queue[0], qpaths[0])
    ensures Frontier(t, direction, start, universe, queue[1..], qpaths[1..])
  {
    forall k | 0 <= k < |queue| - 1
      ensures Entry(t, direction, start, universe, queue[1..][k], qpaths[1..][k])
    {
      assert queue[1..][k] == queue[k + 1] && qpaths[1..][k] == qpaths[k + 1];
    }
  }

  lemma FrontierPush(t: Nodes, direction: string, start: string, universe: set<string>,
                     queue: seq<(string, int)>, qpaths: seq<seq<string>>, e: (string, int), p: seq<string>)
    requires Frontier(t, direction, start, universe, queue, qpaths)
    requires Entry(t, direction, start, universe, e, p)
    ensures Frontier(t, direction, start, universe, queue + [e], qpaths + [p])
  {
    forall k | 0 <= k < |queue| + 1
      ensures Entry(t, direction, start, universe, (queue + [e])[k], (qpaths + [p])[k])
    {
      if k < |queue| {
        assert (queue + [e])[k] == queue[k] && (qpaths + [p])[k] == qpaths[k];
      }
    }
  }

  /** Before anything is visited the queue is either untouched or spent on a missing start. */
  ghost predicate Opening(t: Nodes, start: string, maxDepth: int, ids: seq<string>,
                          seen: set<string>, queue: seq<(string, int)>) {
    |ids| == 0 ==>
      (seen == {} && queue == [(start, 0)]) || (queue == [] && !(start in t.byId && maxDepth >= 0))
  }

  ghost predicate Visits(t: Nodes, direction: string, start: string, maxDepth: int,
                         visited: seq<Node>, ids: seq<string>, paths: seq<seq<string>>) {
    |visited| == |ids| == |paths| && Distinct(ids)
    && (forall i :: 0 <= i < |ids| ==> ids[i] in t.byId && visited[i] == t.byId[ids[i]])
    && (forall i :: 0 <= i < |ids| ==> Reached(t, direction, start, maxDepth, ids[i], paths[i]))
  }

  lemma VisitsAppend(t: Nodes, direction: string, start: string, maxDepth: int,
                     visited: seq<Node>, ids: seq<string>, paths: seq<seq<string>>,
                     x: string, p: seq<string>)
    requires Visits(t, direction, start, maxDepth, visited, ids, paths)
    requires x !in ids && x in t.byId && Reached(t, direction, start, maxDepth, x, p)
    ensures Visits(t, direction, start, maxDepth, visited + [t.byId[x]], ids + [x], paths + [p])
  {
    AppendDistinct(ids, x);
  }

  /** One step from a queued entry gives a queued entry one hop deeper. */
  lemma StepEntry(t: Nodes, direction: string, start: string, universe: set<string>,
                  e: (string, int), p: seq<string>, b: string)
    requires Entry(t, direction, start, universe, e, p)
    requires Step(t, direction, e.0, b) && Closed(t, universe)
    ensures Entry(t, direction, start, universe, (b, e.1 + 1), p + [b])
  {
    assert Linked(t, e.0, b);
    var q := p + [b];
    forall i | 0 <= i < |q| - 1
      ensures Step(t, direction, q[i], q[i + 1])
    {
      if i < |p| - 1 {
        assert q[i] == p[i] && q[i + 1] == p[i + 1];
      }
    }
  }

  /** A queue entry of `get_reasoning_path`: an id and the linked path from `start` to it. */
  ghost predicate Pending(t: Nodes, start: string, universe: set<string>, e: (string, seq<string>)) {
    LinkedPath(t, e.1) && e.1[0] == start && Last(e.1) == e.0
    && (forall i :: 0 <= i < |e.1| - 1 ==> e.1[i] in t.byId)
    && e.0 in universe
  }

  ghost predicate PendingAll(t: Nodes, start: string, universe: set<string>, queue: seq<(string, seq<string>)>) {
    forall k :: 0 <= k < |queue| ==> Pending(t, start, universe, queue[k])
  }

  lemma PendingTail(t: Nodes, start: string, universe: set<string>, queue: seq<(string, seq<string>)>)
    requires PendingAll(t, start, universe, queue) && |queue| > 0
    ensures Pending(t, start, universe, queue[0]) && PendingAll(t, start, universe, queue[1..])
  {
    forall k | 0 <= k < |queue| - 1
      ensures Pending(t, start, universe, queue[1..][k])
    {
      assert queue[1..][k] == queue[k + 1];
    }
  }

  lemma PendingPush(t: Nodes, start: string, universe: set<string>, queue: seq<(string, seq<string>)>,
                    e: (string, seq<string>))
    requires PendingAll(t, start, universe, queue) && Pending(t, start, universe, e)
    ensures PendingAll(t, start, universe, queue + [e])
  {
    forall k | 0 <= k < |queue| + 1
      ensures Pending(t, start, universe, (queue + [e])[k])
    {
      if k < |queue| {
        assert (queue + [e])[k] == queue[k];
      }
    }
  }

  /** `path` leads from `start` to `end` over links, through existing nodes. */
  ghost predicate FoundPath(t: Nodes, start: string, end: string, path: seq<string>) {
    LinkedPath(t, path) && path[0] == start && Last(path) == end
    && forall i :: 0 <= i < |path| - 1 ==> path[i] in t.byId
  }

  lemma PendingFound(t: Nodes, start: string, universe: set<string>, end: string, p: seq<string>)
    requires Pending(t, start, universe, (end, p)) && start != end
    ensures |p| >= 2 && FoundPath(t, start, end, p)
  {
  }

  lemma LinkedPending(t: Nodes, start: string, universe: set<string>, e: (string, seq<string>), b: string)
    requires Pending(t, start, universe, e)
    requires Linked(t, e.0, b) && Closed(t, universe)
    ensures Pending(t, start, universe, (b, e.1 + [b]))
  {
    var p := e.1;
    var q := p + [b];
    forall i | 0 <= i < |q| - 1
      ensures Linked(t, q[i], q[i + 1]) && q[i] in t.byId
    {
      if i < |p| - 1 {
        assert q[i] == p[i] && q[i + 1] == p[i + 1];
      }
    }
  }

  // ---------------------------------------------------------------------------
  // validate_node

  function ChildErrors(t: Nodes, children: seq<string>): (r: seq<string>)
    ensures |r| <= |children|
  {
    if |children| == 0 then []
    else
      var c := Last(children);
      ChildErrors(t, children[..|children| - 1])
      + (if c in t.byId then [] else [ChildMessage(c)])
  }

  /** One more child extends the errors by that child's error, if any. */
  lemma ChildErrorsSnoc(t: Nodes, children: seq<string>, i: nat)
    requires i < |children|
    ensures ChildErrors(t, children[..i + 1])
      == ChildErrors(t, children[..i]) + (if children[i] in t.byId then [] else [ChildMessage(children[i])])
  {
    assert children[..i + 1][..i] == children[..i];
  }

  /** The child ids that are not keys of the table, in order. */
  function MissingIds(t: Nodes, ids: seq<string>): (r: seq<string>)
    ensures forall x :: x in r <==> x in ids && x !in t.byId
  {
    if |ids| == 0 then []
    else
      var init := ids[..|ids| - 1];
      assert forall x :: x in ids <==> x in init || x == Last(ids);
      MissingIds(t, init) + (if Last(ids) in t.byId then [] else [Last(ids)])
  }

  /** One error per dangling child, naming it. */
  lemma {:induction false} ChildErrorsAreMissing(t: Nodes, children: seq<string>)
    ensures ChildErrors(t, children)
      == seq(|MissingIds(t, children)|, i requires 0 <= i < |MissingIds(t, children)|
               => ChildMessage(MissingIds(t, children)[i]))
  {
    if |children| > 0 {
      ChildErrorsAreMissing(t, children[..|children| - 1]);
    }
  }

  function ChildMessage(c: string): string { "Child node " + c + " not found" }
  function ParentMessage(p: string): string { "Parent node " + p + " not found" }

  /** The errors `validate_node` reports before it looks at the children, in its order. */
  function FieldErrors(t: Nodes, n: Node): seq<string> {
    (if |n.nodeId| == 0 then ["Missing node_id"] else [])
    + (if |n.citation| == 0 then ["Missing citation"] else [])
    + (if !HasSomeDimension(n) then ["At least one 6D dimension must be populated"] else [])
    + (if HasText(n.parentId) && n.parentId.value !in t.byId then [ParentMessage(n.parentId.value)] else [])
  }

  /** The errors `validate_node` reports, in its order. */
  function ValidationErrors(t: Nodes, n: Node): seq<string> {
    FieldErrors(t, n) + ChildErrors(t, n.childrenIds)
  }

  /** A node validates iff it has an id, a citation, some dimension, and no dangling link. */
  lemma ValidationMeaning(t: Nodes, n: Node)
    ensures ValidationErrors(t, n) == [] <==>
      |n.nodeId| > 0 && |n.citation| > 0 && HasSomeDimension(n)
      && (HasText(n.parentId) ==> n.parentId.value in t.byId)
      && (forall c :: c in n.childrenIds ==> c in t.byId)
    ensures |ChildErrors(t, n.childrenIds)| == |MissingIds(t, n.childrenIds)|
  {
    ChildErrorsAreMissing(t, n.childrenIds);
    var m := MissingIds(t, n.childrenIds);
    if m != [] {
      assert m[0] in m;
    }
  }

  /** The node under `id` carries that id, a citation and a WHAT proposition. */
  ghost predicate Filled(t: Nodes, id: string) {
    id in t.byId && t.byId[id].nodeId == id && |t.byId[id].citation| > 0 && |t.byId[id].what| > 0
  }

  /** Every node is stored under its own non-empty id, has a citation and a dimension, and its links resolve. */
  ghost predicate WellLinked(t: Nodes) {
    forall k :: k in t.byId ==>
      var n := t.byId[k];
      n.nodeId == k && |k| > 0 && |n.citation| > 0 && HasSomeDimension(n)
      && (n.parentId.Some? ==> n.parentId.value in t.byId)
      && (forall c :: c in n.childrenIds ==> c in t.byId)
  }

  /** What `WellLinked` asks of the node under one id. */
  ghost predicate LinkedAt(t: Nodes, k: string) {
    k in t.byId &&
    var n := t.byId[k];
    n.nodeId == k && |k| > 0 && |n.citation| > 0 && HasSomeDimension(n)
    && (n.parentId.Some? ==> n.parentId.value in t.byId)
    && (forall c :: c in n.childrenIds ==> c in t.byId)
  }

  /** A table is well linked once its nodes are, one id at a time. */
  lemma LinkedEach(t: Nodes)
    requires forall k :: k in t.ids ==> LinkedAt(t, k)
    ensures WellLinked(t)
  {
  }

  /** `LinkedEach` for a table of ten ids named one by one. */
  lemma LinkedTen(t: Nodes, i0: string, i1: string, i2: string, i3: string, i4: string,
                  i5: string, i6: string, i7: string, i8: string, i9: string)
    requires t.ids == [i0, i1, i2, i3, i4, i5, i6, i7, i8, i9]
    requires LinkedAt(t, i0) && LinkedAt(t, i1) && LinkedAt(t, i2) && LinkedAt(t, i3) && LinkedAt(t, i4)
    requires LinkedAt(t, i5) && LinkedAt(t, i6) && LinkedAt(t, i7) && LinkedAt(t, i8) && LinkedAt(t, i9)
    ensures WellLinked(t)
  {
    EachOfTen((k: string) => LinkedAt(t, k), i0, i1, i2, i3, i4, i5, i6, i7, i8, i9);
    LinkedEach(t);
  }

  /** `LinkedEach` for a table of seven ids named one by one. */
  lemma LinkedSeven(t: Nodes, i0: string, i1: string, i2: string, i3: string, i4: string,
                    i5: string, i6: string)
    requires t.ids == [i0, i1, i2, i3, i4, i5, i6]
    requires LinkedAt(t, i0) && LinkedAt(t, i1) && LinkedAt(t, i2) && LinkedAt(t, i3)
    requires LinkedAt(t, i4) && LinkedAt(t, i5) && LinkedAt(t, i6)
    ensures WellLinked(t)
  {
    EachOfSeven((k: string) => LinkedAt(t, k), i0, i1, i2, i3, i4, i5, i6);
    LinkedEach(t);
  }

  /** A filled node under a stored parent, with no children, is linked. */
  lemma LeafLinked(t: Nodes, id: string, parent: string)
    requires Filled(t, id) && |id| > 0 && parent in t.byId
    requires t.byId[id].parentId == Some(parent) && t.byId[id].childrenIds == []
    ensures LinkedAt(t, id)
  {
  }

  /** In a well-linked table every node passes `validate_node`. */
  lemma WellLinkedValidates(t: Nodes)
    requires WellLinked(t)
    ensures forall k :: k in t.byId ==> ValidationErrors(t, t.byId[k]) == []
  {
    forall k | k in t.byId
      ensures ValidationErrors(t, t.byId[k]) == []
    {
      ValidationMeaning(t, t.byId[k]);
    }
  }

  // ---------------------------------------------------------------------------
  // get_statistics

  datatype Statistics = Statistics(
    totalNodes: nat, rootNodes: nat, sourceTypes: map<string, nat>,
    dimensions: map<string, nat>, relationships: map<string, nat>)

  function CountOf(m: map<string, nat>, k: string): nat {
    if k in m then m[k] else 0
  }

  /** The per-label counts the loop over `nodes.values()` accumulates. */
  function SourceCounts(t: Nodes, ids: seq<string>): map<string, nat>
    requires forall x :: x in ids ==> x in t.byId
  {
    if |ids| == 0 then map[]
    else
      var m := SourceCounts(t, ids[..|ids| - 1]);
      var lab := SourceLabel(t.byId[Last(ids)].sourceType);
      m[lab := CountOf(m, lab) + 1]
  }


  /** The counts of the six labels, added up. */
  function Tally(m: map<string, nat>): nat {
    CountOf(m, "CONSTITUTION") + CountOf(m, "STATUTE") + CountOf(m, "RULE")
    + CountOf(m, "APPELLATE_CASE") + CountOf(m, "HIGH_COURT_CASE") + CountOf(m, "LOWER_COURT_CASE")
  }

  lemma TallyBump(m: map<string, nat>, st: SourceType)
    ensures Tally(m[SourceLabel(st) := CountOf(m, SourceLabel(st)) + 1]) == Tally(m) + 1
  {
    match st
    case CONSTITUTION =>
    case STATUTE =>
    case RULE =>
    case APPELLATE_CASE =>
    case HIGH_COURT_CASE =>
    case LOWER_COURT_CASE =>
  }

  /** Every node is counted under exactly one source-type label. */
  lemma {:induction false} SourceCountsTotal(t: Nodes, ids: seq<string>)
    requires forall x :: x in ids ==> x in t.byId
    ensures Tally(SourceCounts(t, ids)) == |ids|
  {
    if |ids| > 0 {
      SourceCountsTotal(t, ids[..|ids| - 1]);
      TallyBump(SourceCounts(t, ids[..|ids| - 1]), t.byId[Last(ids)].sourceType);
    }
  }

  /** The sum of `f` over the nodes named by `ids`. */
  function SumOver(t: Nodes, ids: seq<string>, f: Node -> nat): nat
    requires forall x :: x in ids ==> x in t.byId
  {
    if |ids| == 0 then 0 else SumOver(t, ids[..|ids| - 1], f) + f(t.byId[Last(ids)])
  }

  lemma {:induction false} SumOverBound(t: Nodes, ids: seq<string>, f: Node -> nat)
    requires forall x :: x in ids ==> x in t.byId
    requires forall n :: f(n) <= 1
    ensures SumOver(t, ids, f) <= |ids|
  {
    if |ids| > 0 {
      SumOverBound(t, ids[..|ids| - 1], f);
    }
  }

  function Flag(b: bool): nat { if b then 1 else 0 }

  /** The six keys of `dimension_counts`. */
  const DimensionKeys: seq<string> := ["what", "which", "if_then", "can_must", "given", "why"]

  /** Whether the dimension named `key` holds something: Python's truth value of the list. */
  predicate Populated(n: Node, key: string) {
    if key == "what" then |n.what| > 0
    else if key == "which" then |n.which| > 0
    else if key == "if_then" then |n.ifThen| > 0
    else if key == "can_must" then |n.canMust| > 0
    else if key == "given" then |n.given| > 0
    else if key == "why" then |n.why| > 0
    else false
  }

  function DimensionCounts(t: Nodes): map<string, nat> {
    map key | key in DimensionKeys :: SumOver(t, t.ids, (n: Node) => Flag(Populated(n, key)))
  }

  function RelationshipCounts(t: Nodes): map<string, nat> {
    map[
      "parent_child" := SumOver(t, t.ids, (n: Node) => Flag(HasText(n.parentId))),
      "interprets" := SumOver(t, t.ids, (n: Node) => |n.interpretsIds|),
      "extends" := SumOver(t, t.ids, (n: Node) => |n.extendsIds|),
      "overruled" := SumOver(t, t.ids, (n: Node) => |n.overruledByIds|)]
  }

  /** The ids of `ids` whose flag is set. */
  function Flagged(t: Nodes, ids: seq<string>, f: Node -> nat): set<string>
    requires forall x :: x in ids ==> x in t.byId
  {
    set x | x in ids && f(t.byId[x]) == 1
  }

  /** Dropping the last of distinct ids leaves distinct ids without it. */
  lemma DistinctInit(ids: seq<string>)
    requires |ids| > 0 && Distinct(ids)
    ensures Distinct(ids[..|ids| - 1]) && Last(ids) !in ids[..|ids| - 1]
  {
    var init := ids[..|ids| - 1];
    forall i | 0 <= i < |init| ensures init[i] != Last(ids) {
      assert init[i] == ids[i];
    }
  }

  /** A sum of 0/1 flags over distinct ids counts the ids whose flag is set. */
  lemma {:induction false} SumOverCounts(t: Nodes, ids: seq<string>, f: Node -> nat)
    requires forall x :: x in ids ==> x in t.byId
    requires Distinct(ids)
    requires forall n :: f(n) <= 1
    ensures SumOver(t, ids, f) == |Flagged(t, ids, f)|
  {
    if |ids| > 0 {
      var init := ids[..|ids| - 1];
      var last := Last(ids);
      DistinctInit(ids);
      SumOverCounts(t, init, f);
      assert ids == init + [last];
      if f(t.byId[last]) == 1 {
        assert Flagged(t, ids, f) == Flagged(t, init, f) + {last};
      } else {
        assert Flagged(t, ids, f) == Flagged(t, init, f);
      }
    }
  }

  /** The number of nodes with a non-empty WHAT dimension is at most the number of nodes. */
  lemma DimensionCountsBound(t: Nodes)
    ensures SumOver(t, t.ids, (n: Node) => Flag(|n.what| > 0)) <= |t.byId|
    ensures SumOver(t, t.ids, (n: Node) => Flag(HasText(n.parentId))) <= |t.byId|
  {
    SumOverBound(t, t.ids, (n: Node) => Flag(|n.what| > 0));
    SumOverBound(t, t.ids, (n: Node) => Flag(HasText(n.parentId)));
    SameElementsSameLength(t.ids, t.ids);
    DistinctCard(t.ids);
    assert t.byId.Keys == set x | x in t.ids;
  }

  /** The ids of the stored nodes that satisfy `p`. */
  function NodesWhere(t: Nodes, p: Node -> bool): set<string> {
    set x | x in t.byId && p(t.byId[x])
  }

  /** A sum of `p`'s 0/1 flags over all nodes is the number of nodes satisfying `p`. */
  lemma FlagSumCounts(t: Nodes, p: Node -> bool, f: Node -> nat)
    requires forall n :: f(n) == Flag(p(n))
    ensures SumOver(t, t.ids, f) == |NodesWhere(t, p)|
  {
    SumOverCounts(t, t.ids, f);
    assert Flagged(t, t.ids, f) == NodesWhere(t, p);
  }

  /**
   * The dimension counts and the parent_child count are exact: each is the number of
   * stored nodes whose dimension is non-empty, or whose parent id is set.
   */
  lemma DimensionCountsExact(t: Nodes)
    ensures DimensionCounts(t).Keys == set key | key in DimensionKeys
    ensures forall key | key in DimensionKeys ::
      DimensionCounts(t)[key] == |NodesWhere(t, (n: Node) => Populated(n, key))|
  {
    forall key | key in DimensionKeys
      ensures DimensionCounts(t)[key] == |NodesWhere(t, (n: Node) => Populated(n, key))|
    {
      FlagSumCounts(t, (n: Node) => Populated(n, key), (n: Node) => Flag(Populated(n, key)));
    }
  }

  /** "parent_child" counts the stored nodes whose parent id is set. */
  lemma ParentCountExact(t: Nodes)
    ensures RelationshipCounts(t)["parent_child"] == |NodesWhere(t, (n: Node) => HasText(n.parentId))|
  {
    FlagSumCounts(t, (n: Node) => HasText(n.parentId), (n: Node) => Flag(HasText(n.parentId)));
  }

  /** A table has as many nodes as ids. */
  lemma TableSize(t: Nodes)
    ensures |t.byId| == |t.ids|
  {
    DistinctCard(t.ids);
    assert t.byId.Keys == set x | x in t.ids;
  }

}
