/**
 * The base of every legal logic tree module: the node table it loads and the tree
 * operations all modules share (initialisation, the two breadth-first searches, node
 * validation and statistics).
 */
module LogicTree {
  import opened Wrappers
  import opened SixDimensions
  import opened Seqs
  import opened NodeTables

  /**
   * A logic tree module. `loaded` is what the module's `load_nodes()` returns; the
   * node table stays empty until `Initialize` copies it in.
   */
  class LogicTreeModule {
    const metadata: ModuleMetadata
    const loaded: Nodes
    var nodes: Nodes
    var rootNodeIds: seq<string>
    var initialized: bool

    /** After initialisation the table is the loaded one and the roots are its parentless ids. */
    ghost predicate Valid()
      reads this
    {
      if initialized then nodes == loaded && rootNodeIds == Roots(loaded)
      else nodes == NodeTable([], map[]) && rootNodeIds == []
    }

    constructor (metadata: ModuleMetadata, loaded: Nodes)
      ensures this.metadata == metadata && this.loaded == loaded
      ensures nodes == NodeTable([], map[]) && rootNodeIds == [] && !initialized
      ensures Valid()
    {
      this.metadata := metadata;
      this.loaded := loaded;
      nodes := NodeTable([], map[]);
      rootNodeIds := [];
      initialized := false;
    }

    /** `initialize`: loads the table and lists the roots once; later calls change nothing. */
    method Initialize()
      modifies this
      ensures initialized
      ensures old(initialized) ==> nodes == old(nodes) && rootNodeIds == old(rootNodeIds)
      ensures !old(initialized) ==> nodes == loaded && rootNodeIds == Roots(loaded)
      ensures old(Valid()) ==> Valid()
    {
      if initialized {
        return;
      }
      nodes := loaded;
      var roots: seq<string> := [];
      var i := 0;
      while i < |nodes.ids|
        invariant 0 <= i <= |nodes.ids|
        invariant roots == RootsAmong(nodes, nodes.ids[..i])
      {
        var id := nodes.ids[i];
        assert nodes.ids[..i + 1][..i] == nodes.ids[..i];
        if nodes.byId[id].parentId.None? {
          roots := roots + [id];
        }
        i := i + 1;
      }
      assert nodes.ids[..i] == nodes.ids;
      rootNodeIds := roots;
      initialized := true;
    }

    /**
     * `traverse_tree`: breadth first from `start`, each id expanded at most once and
     * never past `maxDepth`. Each returned node has a walk from `start` of at most
     * `maxDepth` hops in `direction`; `ids` and `paths` name each node and its walk.
     */
    method TraverseTree(start: string, direction: string, maxDepth: int)
      returns (visited: seq<Node>, ghost ids: seq<string>, ghost paths: seq<seq<string>>)
      ensures |visited| == |ids| == |paths|
      ensures Distinct(ids)
      ensures forall i :: 0 <= i < |ids| ==> ids[i] in nodes.byId && visited[i] == nodes.byId[ids[i]]
      ensures forall i :: 0 <= i < |ids| ==> Reached(nodes, direction, start, maxDepth, ids[i], paths[i])
      ensures |ids| > 0 ==> ids[0] == start
      ensures (start in nodes.byId && maxDepth >= 0) <==> |visited| > 0
    {
      var t := nodes;
      ghost var universe := UniverseOf(t, start);
      visited, ids, paths := [], [], [];
      var queue: seq<(string, int)> := [(start, 0)];
      ghost var qpaths: seq<seq<string>> := [[start]];
      var seen: set<string> := {};
      while |queue| > 0
        invariant Frontier(t, direction, start, universe, queue, qpaths)
        invariant seen <= universe
        invariant Visits(t, direction, start, maxDepth, visited, ids, paths)
        invariant forall x :: x in ids ==> x in seen
        invariant |ids| > 0 ==> ids[0] == start
        invariant Opening(t, start, maxDepth, ids, seen, queue)
        decreases |universe - seen|, |queue|
      {
        var (current, depth) := queue[0];
        ghost var path := qpaths[0];
        FrontierTail(t, direction, start, universe, queue, qpaths);
        queue, qpaths := queue[1..], qpaths[1..];
        if current in seen || depth > maxDepth {
          continue;
        }
        RemainingShrinks(universe, seen, current);
        seen := seen + {current};
        if current !in t.byId {
          continue;
        }
        var node := t.byId[current];
        VisitsAppend(t, direction, start, maxDepth, visited, ids, paths, current, path);
        visited, ids, paths := visited + [node], ids + [current], paths + [path];
        if Down(direction) {
          var j := 0;
          while j < |node.childrenIds|
            invariant 0 <= j <= |node.childrenIds|
            invariant Frontier(t, direction, start, universe, queue, qpaths)
          {
            var child := node.childrenIds[j];
            StepEntry(t, direction, start, universe, (current, depth), path, child);
            FrontierPush(t, direction, start, universe, queue, qpaths, (child, depth + 1), path + [child]);
            queue, qpaths := queue + [(child, depth + 1)], qpaths + [path + [child]];
            j := j + 1;
          }
        }
        if Up(direction) && HasText(node.parentId) {
          StepEntry(t, direction, start, universe, (current, depth), path, node.parentId.value);
          FrontierPush(t, direction, start, universe, queue, qpaths,
            (node.parentId.value, depth + 1), path + [node.parentId.value]);
          queue, qpaths := queue + [(node.parentId.value, depth + 1)], qpaths + [path + [node.parentId.value]];
        }
      }
    }

    /**
     * `get_reasoning_path`: breadth first over child, parent, interprets and extends
     * links. `path` is the id path the search found; the result is its nodes that exist.
     */
    method GetReasoningPath(start: string, end: string) returns (r: seq<Node>, ghost path: seq<string>)
      ensures start == end ==> r == (if start in nodes.byId then [nodes.byId[start]] else [])
      ensures start != end && r != [] ==>
        |path| >= 2 && FoundPath(nodes, start, end, path) && r == NodesOf(nodes, ExistingIds(nodes, path))
    {
      path := [];
      var t := nodes;
      if start == end {
        r := if start in t.byId then [t.byId[start]] else [];
        return;
      }
      ghost var universe := UniverseOf(t, start);
      var queue: seq<(string, seq<string>)> := [(start, [start])];
      var visited: set<string> := {};
      while |queue| > 0
        invariant PendingAll(t, start, universe, queue)
        invariant visited <= universe
        decreases |universe - visited|, |queue|
      {
        var (current, p) := queue[0];
        PendingTail(t, start, universe, queue);
        queue := queue[1..];
        if current in visited {
          continue;
        }
        RemainingShrinks(universe, visited, current);
        visited := visited + {current};
        if current == end {
          path := p;
          PendingFound(t, start, universe, end, p);
          r := NodesOf(t, ExistingIds(t, p));
          return;
        }
        if current !in t.byId {
          continue;
        }
        var node := t.byId[current];
        var connections := node.childrenIds;
        if HasText(node.parentId) {
          connections := connections + [node.parentId.value];
        }
        connections := connections + node.interpretsIds + node.extendsIds;
        assert forall x :: x in connections ==> Linked(t, current, x);
        var j := 0;
        while j < |connections|
          invariant 0 <= j <= |connections|
          invariant PendingAll(t, start, universe, queue)
        {
          var next := connections[j];
          if next !in visited {
            LinkedPending(t, start, universe, (current, p), next);
            PendingPush(t, start, universe, queue, (next, p + [next]));
            queue := queue + [(next, p + [next])];
          }
          j := j + 1;
        }
      }
      r := [];
    }

    /** `validate_node`: the list of errors, computed as `ValidationErrors` states. */
    method ValidateNode(node: Node) returns (errors: seq<string>)
      ensures errors == ValidationErrors(nodes, node)
    {
      var t := nodes;
      errors := [];
      errors := errors + (if |node.nodeId| == 0 then ["Missing node_id"] else []);
      errors := errors + (if |node.citation| == 0 then ["Missing citation"] else []);
      errors := errors + (if !HasSomeDimension(node) then ["At least one 6D dimension must be populated"] else []);
      errors := errors + (if HasText(node.parentId) && node.parentId.value !in t.byId
                          then [ParentMessage(node.parentId.value)] else []);
      assert errors == FieldErrors(t, node);
      // The dangling-children errors, appended after the field errors.
      var dangling: seq<string> := [];
      var children := node.childrenIds;
      var i := 0;
      while i < |children|
        invariant 0 <= i <= |children|
        invariant dangling == ChildErrors(t, children[..i])
      {
        var child := children[i];
        ChildErrorsSnoc(t, children, i);
        if child !in t.byId {
          dangling := dangling + [ChildMessage(child)];
        }
        i := i + 1;
      }
      assert children[..i] == children;
      errors := errors + dangling;
    }

    /** `get_statistics`. */
    function GetStatistics(): (s: Statistics)
      reads this
      ensures s.totalNodes == |nodes.byId| && s.rootNodes == |rootNodeIds|
      ensures Tally(s.sourceTypes) == s.totalNodes
      ensures forall key | key in DimensionKeys ::
        key in s.dimensions && s.dimensions[key] == |NodesWhere(nodes, (n: Node) => Populated(n, key))|
      ensures "parent_child" in s.relationships
      ensures s.relationships["parent_child"] == |NodesWhere(nodes, (n: Node) => HasText(n.parentId))|
    {
      TableSize(nodes);
      SourceCountsTotal(nodes, nodes.ids);
      DimensionCountsExact(nodes);
      ParentCountExact(nodes);
      Statistics(|nodes.ids|, |rootNodeIds|, SourceCounts(nodes, nodes.ids),
        DimensionCounts(nodes), RelationshipCounts(nodes))
    }
  }
}
