/**
 * The module registry: the registered logic tree modules, their metadata, and two inverted
 * indexes (topic to module ids and lowercased keyword to module ids) that registering and
 * unregistering a module update; the topic ranking of `get_modules_by_topics`; and the
 * router's `analyze_query` and `find_relevant_modules` on top of them.
 */
module Registry {
  import opened Wrappers
  import opened Text
  import opened Seqs
  import opened Ranking
  import opened NodeTables
  import opened LogicTree
  import opened QueryRouting

  /** A `defaultdict(list)` from a topic or keyword to module ids. */
  type Index = map<string, seq<string>>

  /** The list under `k`, or the empty list a `defaultdict(list)` would give. */
  function Lookup<K, T>(idx: map<K, seq<T>>, k: K): seq<T> {
    if k in idx then idx[k] else []
  }

  function Repeat<T>(x: T, n: nat): (r: seq<T>)
    ensures |r| == n && forall i :: 0 <= i < n ==> r[i] == x
  {
    seq(n, _ => x)
  }

  // ---------------------------------------------------------------------------
  // Index updates of register_module and unregister_module

  /** The index after `idx[k].append(id)` for each `k` of `keys` in turn. */
  function AppendEach<K, T>(idx: map<K, seq<T>>, keys: seq<K>, id: T): map<K, seq<T>> {
    if |keys| == 0 then idx
    else
      var m := AppendEach(idx, keys[..|keys| - 1], id);
      m[Last(keys) := Lookup(m, Last(keys)) + [id]]
  }

  /** `s.remove(x)` when `x in s`: drops the first occurrence of `x`; otherwise `s` itself. */
  function RemoveFirst<T(==)>(s: seq<T>, x: T): (r: seq<T>)
    ensures x !in s ==> r == s
    ensures x in s ==> |r| == |s| - 1
  {
    if |s| == 0 then []
    else if s[0] == x then s[1..]
    else [s[0]] + RemoveFirst(s[1..], x)
  }

  /**
   * The index after `if id in idx[k]: idx[k].remove(id)` for each `k` of `keys` in turn.
   * Reading `idx[k]` of a defaultdict inserts an empty list for a missing key.
   */
  function RemoveEach<K, T(==)>(idx: map<K, seq<T>>, keys: seq<K>, id: T): map<K, seq<T>> {
    if |keys| == 0 then idx
    else
      var m := RemoveEach(idx, keys[..|keys| - 1], id);
      m[Last(keys) := RemoveFirst(Lookup(m, Last(keys)), id)]
  }

  /** Removes the first occurrence of `x` from `s`, `n` times over. */
  function RemoveN<T(==)>(s: seq<T>, x: T, n: nat): seq<T> {
    if n == 0 then s else RemoveFirst(RemoveN(s, x, n - 1), x)
  }

  /** The keyword index is keyed by the lowercased keywords. */
  function LowerAll(keywords: seq<string>): (r: seq<string>)
    ensures |r| == |keywords| && forall i :: 0 <= i < |r| ==> r[i] == Lower(keywords[i])
  {
    seq(|keywords|, i requires 0 <= i < |keywords| => Lower(keywords[i]))
  }

  /** Appending to each key adds `id` once per occurrence of the key, at the end of its list. */
  lemma {:induction false} AppendEachLookup<K, T>(idx: map<K, seq<T>>, keys: seq<K>, id: T, k: K)
    ensures Lookup(AppendEach(idx, keys, id), k) == Lookup(idx, k) + Repeat(id, multiset(keys)[k])
  {
    if |keys| > 0 {
      var init := keys[..|keys| - 1];
      MultisetSnoc(keys);
      AppendEachLookup(idx, init, id, k);
    }
  }

  /** The keys of the index after appending: the old keys and the appended ones. */
  lemma {:induction false} AppendEachKeys<K, T>(idx: map<K, seq<T>>, keys: seq<K>, id: T)
    ensures AppendEach(idx, keys, id).Keys == idx.Keys + set k | k in keys
  {
    if |keys| > 0 {
      var init := keys[..|keys| - 1];
      assert keys == init + [Last(keys)];
      AppendEachKeys(idx, init, id);
    }
  }

  /** Removing from each key removes the first occurrence of `id` once per occurrence of the key. */
  lemma {:induction false} RemoveEachLookup<K, T>(idx: map<K, seq<T>>, keys: seq<K>, id: T, k: K)
    ensures Lookup(RemoveEach(idx, keys, id), k) == RemoveN(Lookup(idx, k), id, multiset(keys)[k])
  {
    if |keys| > 0 {
      var init := keys[..|keys| - 1];
      MultisetSnoc(keys);
      RemoveEachLookup(idx, init, id, k);
      if Last(keys) == k {
        assert multiset(keys)[k] == multiset(init)[k] + 1;
      } else {
        assert multiset(keys)[k] == multiset(init)[k];
      }
    }
  }

  /** The defaultdict reads leave an (empty) entry for every key visited. */
  lemma {:induction false} RemoveEachKeys<K, T>(idx: map<K, seq<T>>, keys: seq<K>, id: T)
    ensures RemoveEach(idx, keys, id).Keys == idx.Keys + set k | k in keys
  {
    if |keys| > 0 {
      var init := keys[..|keys| - 1];
      assert keys == init + [Last(keys)];
      RemoveEachKeys(idx, init, id);
    }
  }

  /** `RemoveFirst` drops the leftmost `x` and keeps the rest in order. */
  lemma {:induction false} RemoveFirstAt<T>(s: seq<T>, x: T) returns (i: nat)
    requires x in s
    ensures i < |s| && s[i] == x && x !in s[..i]
    ensures RemoveFirst(s, x) == s[..i] + s[i + 1..]
  {
    if s[0] == x {
      i := 0;
    } else {
      assert x in s[1..] by {
        var k :| 0 <= k < |s| && s[k] == x;
        assert s[1..][k - 1] == x;
      }
      var j := RemoveFirstAt(s[1..], x);
      i := j + 1;
      assert s[..i] == [s[0]] + s[1..][..j];
      assert s[i + 1..] == s[1..][j + 1..];
    }
  }

  /** An `x` only after a prefix free of `x` is removed from the part after the prefix. */
  lemma {:induction false} RemoveFirstSkip<T>(s: seq<T>, t: seq<T>, x: T)
    requires x !in s
    ensures RemoveFirst(s + t, x) == s + RemoveFirst(t, x)
  {
    if |s| > 0 {
      assert (s + t)[0] == s[0] && s[0] != x;
      assert (s + t)[1..] == s[1..] + t;
      assert RemoveFirst(s + t, x) == [s[0]] + RemoveFirst(s[1..] + t, x);
      assert x !in s[1..];
      RemoveFirstSkip(s[1..], t, x);
      assert [s[0]] + (s[1..] + RemoveFirst(t, x)) == s + RemoveFirst(t, x);
    } else {
      assert s + t == t && s + RemoveFirst(t, x) == RemoveFirst(t, x);
    }
  }

  /** Removing `n` copies from `c + n` trailing copies leaves `c`. */
  lemma {:induction false} RemoveNCancel<T>(s: seq<T>, x: T, c: nat, n: nat)
    requires x !in s
    ensures RemoveN(s + Repeat(x, c + n), x, n) == s + Repeat(x, c)
    decreases n
  {
    if n > 0 {
      RemoveNCancel(s, x, c + 1, n - 1);
      assert c + 1 + (n - 1) == c + n;
      RemoveFirstSkip(s, Repeat(x, c + 1), x);
      assert Repeat(x, c + 1) == [x] + Repeat(x, c);
    }
  }

  /**
   * Unregistering a module registered once under id `id` gives every list its old contents
   * back, provided no list held `id` before.
   */
  lemma RegisterUnregisterLookup<K, T>(idx: map<K, seq<T>>, keys: seq<K>, id: T, k: K)
    requires forall t :: t in idx ==> id !in idx[t]
    ensures Lookup(RemoveEach(AppendEach(idx, keys, id), keys, id), k) == Lookup(idx, k)
  {
    var n := multiset(keys)[k];
    AppendEachLookup(idx, keys, id, k);
    RemoveEachLookup(AppendEach(idx, keys, id), keys, id, k);
    RemoveNCancel(Lookup(idx, k), id, 0, n);
    assert Lookup(idx, k) + Repeat(id, 0) == Lookup(idx, k);
  }

  /**
   * Registering a module twice lists its id twice per topic, and unregistering it once
   * leaves one stale copy behind.
   */
  lemma RegisterTwiceLeavesStale<K, T>(idx: map<K, seq<T>>, keys: seq<K>, id: T, k: K)
    requires forall t :: t in idx ==> id !in idx[t]
    ensures Lookup(RemoveEach(AppendEach(AppendEach(idx, keys, id), keys, id), keys, id), k)
      == Lookup(idx, k) + Repeat(id, multiset(keys)[k])
  {
    var n := multiset(keys)[k];
    var once := AppendEach(idx, keys, id);
    AppendEachLookup(idx, keys, id, k);
    AppendEachLookup(once, keys, id, k);
    assert Repeat(id, n) + Repeat(id, n) == Repeat(id, n + n);
    RemoveEachLookup(AppendEach(once, keys, id), keys, id, k);
    RemoveNCancel(Lookup(idx, k), id, n, n);
    assert (Lookup(idx, k) + Repeat(id, n)) + Repeat(id, n) == Lookup(idx, k) + Repeat(id, n + n);
  }

  // ---------------------------------------------------------------------------
  // get_modules_by_topics

  /** The ids met by `for topic in topics: for id in idx.get(topic, [])`, in that order. */
  function Hits<K, T>(idx: map<K, seq<T>>, topics: seq<K>): seq<T> {
    if |topics| == 0 then []
    else Hits(idx, topics[..|topics| - 1]) + Lookup(idx, Last(topics))
  }

  /** The distinct elements of `s` in the order of their first occurrence (dict key order). */
  function Dedup<T(==,!new)>(s: seq<T>): (r: seq<T>)
    ensures Distinct(r)
    ensures forall x :: x in r <==> x in s
  {
    if |s| == 0 then []
    else
      var init := s[..|s| - 1];
      assert s == init + [Last(s)];
      var d := Dedup(init);
      if Last(s) in d then d else AppendDistinct(d, Last(s)); d + [Last(s)]
  }

  /** The number of hits of an id, the sort key of the ranking. */
  function HitCount<T(==)>(hits: seq<T>): T -> real {
    k => multiset(hits)[k] as real
  }

  /** The ranking: ids by non-increasing hit count, ties in the order of their first hit. */
  function Ranked<K, T(==,!new)>(idx: map<K, seq<T>>, topics: seq<K>): seq<T> {
    var hits := Hits(idx, topics);
    SortDesc(Dedup(hits), HitCount(hits))
  }

  /** The state of the counting loop: the ids met so far in order of first hit, and their counts. */
  ghost predicate Tallied<T(!new)>(keys: seq<T>, scores: map<T, nat>, hits: seq<T>) {
    keys == Dedup(hits) &&
    (forall k :: k in scores <==> k in hits) &&
    (forall k :: k in scores ==> scores[k] == multiset(hits)[k])
  }

  /** One more hit: `module_scores[id] += 1` on a `defaultdict(int)`. */
  lemma TalliedStep<T(!new)>(keys: seq<T>, scores: map<T, nat>, hits: seq<T>, id: T)
    requires Tallied(keys, scores, hits)
    ensures id in scores ==> Tallied(keys, scores[id := scores[id] + 1], hits + [id])
    ensures id !in scores ==> Tallied(keys + [id], scores[id := 1], hits + [id])
  {
    DedupSnoc(hits, id);
    var h := hits + [id];
    var s := if id in scores then scores[id := scores[id] + 1] else scores[id := 1];
    assert multiset(h) == multiset(hits) + multiset{id};
    forall k
      ensures k in s <==> k in h
    {
      assert k in h <==> k in hits || k == id;
    }
    forall k | k in s
      ensures s[k] == multiset(h)[k]
    {
      if k == id {
        assert multiset(h)[k] == multiset(hits)[k] + 1;
      } else {
        assert multiset(h)[k] == multiset(hits)[k];
      }
    }
  }

  lemma DedupSnoc<T(!new)>(s: seq<T>, x: T)
    ensures Dedup(s + [x]) == if x in s then Dedup(s) else Dedup(s) + [x]
  {
    assert (s + [x])[..|s|] == s;
  }

  lemma HitsSnoc<K, T>(idx: map<K, seq<T>>, topics: seq<K>, i: nat)
    requires i < |topics|
    ensures Hits(idx, topics[..i + 1]) == Hits(idx, topics[..i]) + Lookup(idx, topics[i])
  {
    assert topics[..i + 1][..i] == topics[..i];
  }

  /** An id is hit iff some given topic lists it. */
  lemma {:induction false} HitsMeaning<K, T>(idx: map<K, seq<T>>, topics: seq<K>, x: T)
    ensures x in Hits(idx, topics) <==> exists i :: 0 <= i < |topics| && x in Lookup(idx, topics[i])
  {
    if |topics| > 0 {
      var init := topics[..|topics| - 1];
      HitsMeaning(idx, init, x);
      if x in Lookup(idx, Last(topics)) {
        assert x in Lookup(idx, topics[|topics| - 1]);
      }
      forall i | 0 <= i < |topics| - 1 && x in Lookup(idx, topics[i])
        ensures x in Hits(idx, init)
      {
        assert init[i] == topics[i];
      }
    }
  }

  /** The ranking lists each id once, exactly the ids some given topic lists. */
  lemma RankedMembers<K, T(!new)>(idx: map<K, seq<T>>, topics: seq<K>)
    ensures Distinct(Ranked(idx, topics))
    ensures forall x :: x in Ranked(idx, topics) <==>
      exists i :: 0 <= i < |topics| && x in Lookup(idx, topics[i])
  {
    var hits := Hits(idx, topics);
    SortDescDistinct(Dedup(hits), HitCount(hits));
    SortDescPermutes(Dedup(hits), HitCount(hits));
    forall x
      ensures x in Ranked(idx, topics) <==> exists i :: 0 <= i < |topics| && x in Lookup(idx, topics[i])
    {
      HitsMeaning(idx, topics, x);
      assert x in Ranked(idx, topics) <==> x in multiset(Ranked(idx, topics));
      assert x in Dedup(hits) <==> x in multiset(Dedup(hits));
    }
  }

  /** Hit counts never increase along the ranking. */
  lemma RankedByCount<K, T(!new)>(idx: map<K, seq<T>>, topics: seq<K>)
    ensures forall i, j :: 0 <= i < j < |Ranked(idx, topics)| ==>
      multiset(Hits(idx, topics))[Ranked(idx, topics)[i]] >= multiset(Hits(idx, topics))[Ranked(idx, topics)[j]]
  {
    var hits := Hits(idx, topics);
    SortDescSorted(Dedup(hits), HitCount(hits));
    var r := Ranked(idx, topics);
    forall i, j | 0 <= i < j < |r|
      ensures multiset(hits)[r[i]] >= multiset(hits)[r[j]]
    {
      assert HitCount(hits)(r[i]) >= HitCount(hits)(r[j]);
    }
  }

  /** Ids with the same hit count keep the order of their first hit: ties are not broken by weight. */
  lemma RankedTies<K, T(!new)>(idx: map<K, seq<T>>, topics: seq<K>, c: nat)
    ensures WithKey(Ranked(idx, topics), HitCount(Hits(idx, topics)), c as real)
      == WithKey(Dedup(Hits(idx, topics)), HitCount(Hits(idx, topics)), c as real)
  {
    var hits := Hits(idx, topics);
    SortDescStable(Dedup(hits), HitCount(hits), c as real);
  }

  // ---------------------------------------------------------------------------
  // find_relevant_modules

  /** `[modules[id] for id in ids if id in modules]`. */
  function Select(modules: map<string, LogicTreeModule>, ids: seq<string>): (r: seq<LogicTreeModule>)
    ensures |r| <= |ids|
    ensures forall i :: 0 <= i < |r| ==> r[i] in modules.Values
  {
    if |ids| == 0 then []
    else (if ids[0] in modules then [modules[ids[0]]] else []) + Select(modules, ids[1..])
  }

  /** When every id is registered, the selection is exactly their modules, in order. */
  lemma {:induction false} SelectRegistered(modules: map<string, LogicTreeModule>, ids: seq<string>)
    requires forall i :: 0 <= i < |ids| ==> ids[i] in modules
    ensures |Select(modules, ids)| == |ids|
    ensures forall i :: 0 <= i < |ids| ==> Select(modules, ids)[i] == modules[ids[i]]
  {
    if |ids| > 0 {
      assert forall i :: 0 <= i < |ids| - 1 ==> ids[1..][i] == ids[i + 1];
      SelectRegistered(modules, ids[1..]);
    }
  }

  /** `QueryIntent`. */
  datatype QueryIntent = QueryIntent(
    rawQuery: string, topics: seq<string>, questionType: string, entities: Entities,
    relevantModules: seq<string>, confidence: real)

  /** Every registered module is stored with its own metadata under its own id. */
  ghost predicate Consistent(modules: map<string, LogicTreeModule>, metadataIndex: map<string, ModuleMetadata>) {
    modules.Keys == metadataIndex.Keys &&
    forall id :: id in modules ==> modules[id].metadata == metadataIndex[id] && metadataIndex[id].moduleId == id
  }

  /**
   * `ModuleRegistry`, with its router. `search` and `searchI` stand for the regular
   * expression engine (`re.search`, and `re.search` with `re.IGNORECASE`).
   */
  class ModuleRegistry {
    /** The router's taxonomy and question patterns, built when the registry is. */
    const taxonomy: Table
    const questionPatterns: Table
    var modules: map<string, LogicTreeModule>
    var metadataIndex: map<string, ModuleMetadata>
    var topicIndex: Index
    var keywordIndex: Index

    /** The registry's consistency, over its current maps. */
    ghost predicate Valid()
      reads this
    {
      Consistent(modules, metadataIndex)
    }

    constructor ()
      ensures taxonomy == Taxonomy() && questionPatterns == QuestionPatterns()
      ensures modules == map[] && metadataIndex == map[] && topicIndex == map[] && keywordIndex == map[]
      ensures Valid()
    {
      taxonomy := Taxonomy();
      questionPatterns := QuestionPatterns();
      modules := map[];
      metadataIndex := map[];
      topicIndex := map[];
      keywordIndex := map[];
    }

    /** The topic loop of `register_module`: `topic_index[topic].append(id)` per topic. */
    method IndexTopics(topics: seq<string>, id: string)
      modifies this
      ensures topicIndex == AppendEach(old(topicIndex), topics, id)
      ensures modules == old(modules) && metadataIndex == old(metadataIndex) && keywordIndex == old(keywordIndex)
    {
      var i := 0;
      while i < |topics|
        invariant 0 <= i <= |topics|
        invariant topicIndex == AppendEach(old(topicIndex), topics[..i], id)
        invariant modules == old(modules) && metadataIndex == old(metadataIndex) && keywordIndex == old(keywordIndex)
      {
        assert topics[..i + 1][..i] == topics[..i];
        topicIndex := topicIndex[topics[i] := Lookup(topicIndex, topics[i]) + [id]];
        i := i + 1;
      }
      assert topics[..i] == topics;
    }

    /** The keyword loop of `register_module`: `keyword_index[keyword.lower()].append(id)`. */
    method IndexKeywords(keywords: seq<string>, id: string)
      modifies this
      ensures keywordIndex == AppendEach(old(keywordIndex), LowerAll(keywords), id)
      ensures modules == old(modules) && metadataIndex == old(metadataIndex) && topicIndex == old(topicIndex)
    {
      ghost var lowered := LowerAll(keywords);
      var i := 0;
      while i < |keywords|
        invariant 0 <= i <= |keywords|
        invariant keywordIndex == AppendEach(old(keywordIndex), lowered[..i], id)
        invariant modules == old(modules) && metadataIndex == old(metadataIndex) && topicIndex == old(topicIndex)
      {
        assert lowered[..i + 1][..i] == lowered[..i];
        var key := Lower(keywords[i]);
        keywordIndex := keywordIndex[key := Lookup(keywordIndex, key) + [id]];
        i := i + 1;
      }
      assert lowered[..i] == lowered;
    }

    /**
     * `register_module`: initialises the module (a valid module then holds its loaded
     * table and its roots), stores it and its metadata under its id
     * (replacing an earlier module with that id) and appends the id to the list of each
     * coverage topic and each lowercased keyword. Stale entries are never removed.
     */
    method RegisterModule(m: LogicTreeModule)
      modifies this, m
      ensures m.initialized && (old(m.Valid()) ==> m.Valid())
      ensures modules == old(modules)[m.metadata.moduleId := m]
      ensures metadataIndex == old(metadataIndex)[m.metadata.moduleId := m.metadata]
      ensures topicIndex == AppendEach(old(topicIndex), m.metadata.coverage.topics, m.metadata.moduleId)
      ensures keywordIndex == AppendEach(old(keywordIndex), LowerAll(m.metadata.coverage.keywords), m.metadata.moduleId)
      ensures old(Valid()) ==> Valid()
    {
      m.Initialize();
      Store(m);
    }

    /** The storing half of `register_module`, once the module is initialised. */
    method Store(m: LogicTreeModule)
      modifies this
      ensures modules == old(modules)[m.metadata.moduleId := m]
      ensures metadataIndex == old(metadataIndex)[m.metadata.moduleId := m.metadata]
      ensures topicIndex == AppendEach(old(topicIndex), m.metadata.coverage.topics, m.metadata.moduleId)
      ensures keywordIndex == AppendEach(old(keywordIndex), LowerAll(m.metadata.coverage.keywords), m.metadata.moduleId)
      ensures old(Valid()) ==> Valid()
    {
      var metadata := m.metadata;
      var id := metadata.moduleId;
      modules := modules[id := m];
      metadataIndex := metadataIndex[id := metadata];
      IndexTopics(metadata.coverage.topics, id);
      IndexKeywords(metadata.coverage.keywords, id);
    }

    /** The topic loop of `unregister_module`: `if id in topic_index[topic]: ...remove(id)`. */
    method UnindexTopics(topics: seq<string>, id: string)
      modifies this
      ensures topicIndex == RemoveEach(old(topicIndex), topics, id)
      ensures modules == old(modules) && metadataIndex == old(metadataIndex) && keywordIndex == old(keywordIndex)
    {
      var i := 0;
      while i < |topics|
        invariant 0 <= i <= |topics|
        invariant topicIndex == RemoveEach(old(topicIndex), topics[..i], id)
        invariant modules == old(modules) && metadataIndex == old(metadataIndex) && keywordIndex == old(keywordIndex)
      {
        assert topics[..i + 1][..i] == topics[..i];
        var list := Lookup(topicIndex, topics[i]);
        if id in list {
          list := RemoveFirst(list, id);
        }
        topicIndex := topicIndex[topics[i] := list];
        i := i + 1;
      }
      assert topics[..i] == topics;
    }

    /** The keyword loop of `unregister_module`, over the lowercased keywords. */
    method UnindexKeywords(keywords: seq<string>, id: string)
      modifies this
      ensures keywordIndex == RemoveEach(old(keywordIndex), LowerAll(keywords), id)
      ensures modules == old(modules) && metadataIndex == old(metadataIndex) && topicIndex == old(topicIndex)
    {
      ghost var lowered := LowerAll(keywords);
      var i := 0;
      while i < |keywords|
        invariant 0 <= i <= |keywords|
        invariant keywordIndex == RemoveEach(old(keywordIndex), lowered[..i], id)
        invariant modules == old(modules) && metadataIndex == old(metadataIndex) && topicIndex == old(topicIndex)
      {
        assert lowered[..i + 1][..i] == lowered[..i];
        var key := Lower(keywords[i]);
        var list := Lookup(keywordIndex, key);
        if id in list {
          list := RemoveFirst(list, id);
        }
        keywordIndex := keywordIndex[key := list];
        i := i + 1;
      }
      assert lowered[..i] == lowered;
    }

    /**
     * `unregister_module`: an unknown id changes nothing; otherwise one occurrence of the id
     * leaves each list of the module's topics and lowercased keywords, and its module and
     * metadata entries are deleted.
     */
    method UnregisterModule(id: string)
      requires Valid()
      modifies this
      ensures id !in old(modules) ==>
        modules == old(modules) && metadataIndex == old(metadataIndex) &&
        topicIndex == old(topicIndex) && keywordIndex == old(keywordIndex)
      ensures id in old(modules) ==>
        topicIndex == RemoveEach(old(topicIndex), old(metadataIndex)[id].coverage.topics, id) &&
        keywordIndex == RemoveEach(old(keywordIndex), LowerAll(old(metadataIndex)[id].coverage.keywords), id)
      ensures modules == old(modules) - {id} && metadataIndex == old(metadataIndex) - {id}
      ensures Valid()
    {
      if id !in modules {
        assert modules - {id} == modules && metadataIndex - {id} == metadataIndex;
        return;
      }
      var metadata := metadataIndex[id];
      UnindexTopics(metadata.coverage.topics, id);
      UnindexKeywords(metadata.coverage.keywords, id);
      modules := modules - {id};
      metadataIndex := metadataIndex - {id};
    }

    /** `get_module`. */
    function GetModule(id: string): (r: Option<LogicTreeModule>)
      reads this
      ensures r.Some? <==> id in modules
      ensures r.Some? ==> r.value == modules[id]
    {
      if id in modules then Some(modules[id]) else None
    }

    /** The inner loop of `get_modules_by_topics`: one more count per id of `list`. */
    static method CountHits<T(==,!new)>(list: seq<T>, keys0: seq<T>, scores0: map<T, nat>, ghost hits0: seq<T>)
      returns (keys: seq<T>, scores: map<T, nat>)
      requires Tallied(keys0, scores0, hits0)
      ensures Tallied(keys, scores, hits0 + list)
    {
      keys, scores := keys0, scores0;
      ghost var hits := hits0;
      var j := 0;
      while j < |list|
        invariant 0 <= j <= |list|
        invariant hits == hits0 + list[..j]
        invariant Tallied(keys, scores, hits)
      {
        var id := list[j];
        keys, scores := CountHit(keys, scores, hits, id);
        PrefixSnoc(hits0, list, j);
        hits := hits + [id];
        j := j + 1;
      }
      assert list[..j] == list;
    }

    /** One hit: `module_scores[id] += 1`, the id joining the keys on its first hit. */
    static method CountHit<T(==,!new)>(keys0: seq<T>, scores0: map<T, nat>, ghost hits: seq<T>, id: T)
      returns (keys: seq<T>, scores: map<T, nat>)
      requires Tallied(keys0, scores0, hits)
      ensures Tallied(keys, scores, hits + [id])
    {
      TalliedStep(keys0, scores0, hits, id);
      if id in scores0 {
        keys, scores := keys0, scores0[id := scores0[id] + 1];
      } else {
        keys, scores := keys0 + [id], scores0[id := 1];
      }
    }

    /** `get_modules_by_topics`: counts the hits per id, then sorts by count, stably. */
    method GetModulesByTopics(topics: seq<string>) returns (r: seq<string>)
      ensures r == Ranked(topicIndex, topics)
    {
      var idx := topicIndex;
      var keys: seq<string> := [];
      var scores: map<string, nat> := map[];
      ghost var hits: seq<string> := [];
      var i := 0;
      while i < |topics|
        invariant 0 <= i <= |topics|
        invariant hits == Hits(idx, topics[..i])
        invariant Tallied(keys, scores, hits)
      {
        var list := if topics[i] in idx then idx[topics[i]] else [];
        HitsSnoc(idx, topics, i);
        keys, scores := CountHits(list, keys, scores, hits);
        hits := hits + list;
        i := i + 1;
      }
      assert topics[..i] == topics;
      var score := k => if k in scores then scores[k] as real else 0.0;
      r := SortDesc(keys, score);
      SortDescCongruent(keys, score, HitCount(hits));
    }

    /** `analyze_query` (and `route_query`, which returns it). */
    method AnalyzeQuery(query: string, search: (string, string) -> bool, searchI: (string, string) -> bool)
      returns (intent: QueryIntent)
      ensures intent.rawQuery == query
      ensures intent.topics == TopicsAmong(taxonomy, Lower(query))
      ensures intent.questionType == FirstMatch(questionPatterns, Lower(query), search).GetOr("WHAT")
      ensures intent.entities == Entities(FirstMatch(CourtPatterns(), query, searchI), AmountOf(query), TimePeriodOf(query))
      ensures intent.relevantModules == Ranked(topicIndex, intent.topics)
      ensures intent.confidence == RoutingConfidence(|intent.topics|, |intent.relevantModules|)
    {
      var topics := ExtractTopics(taxonomy, query);
      var questionType := ClassifyQuestionType(questionPatterns, query, search);
      var entities := ExtractEntities(query, searchI);
      var relevant := GetModulesByTopics(topics);
      intent := QueryIntent(query, topics, questionType, entities, relevant,
        RoutingConfidence(|topics|, |relevant|));
    }

    /**
     * `find_relevant_modules`: the registered modules among the first `maxModules` routed
     * ids, in routing order.
     */
    method FindRelevantModules(query: string, maxModules: int, search: (string, string) -> bool,
                               searchI: (string, string) -> bool)
      returns (r: seq<LogicTreeModule>)
      ensures r == Select(modules, Take(Ranked(topicIndex, TopicsAmong(taxonomy, Lower(query))), maxModules))
      ensures maxModules >= 0 ==> |r| <= maxModules
      ensures forall i :: 0 <= i < |r| ==> r[i] in modules.Values
    {
      var intent := AnalyzeQuery(query, search, searchI);
      r := Select(modules, Take(intent.relevantModules, maxModules));
    }
  }
}
