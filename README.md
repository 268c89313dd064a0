# Singapore legal knowledge graph: a Dafny model of its core

The system answers questions about Singapore civil procedure from a knowledge graph of
*six-dimension* nodes. Each node holds one provision or holding (a rule of the Rules of
Court, a case) and six lists of facts about it: WHAT (what the rule is), WHICH (to what it
applies), IF-THEN (conditionals with exceptions), CAN/MUST (modalities such as MUST, MAY,
SHALL NOT), GIVEN (its preconditions) and WHY (the reasons and authorities behind it).
Nodes are linked into logic trees, one per *module*: Order 21 (costs), Order 21 with the
Appendix G cost guidelines, Order 5 (amicable resolution) and Order 14 (payment into
court). A registry holds the modules and routes a question to the ones whose topics it
mentions. Hybrid search mixes a BM25 full-text score from Elasticsearch with the answer a
module's logic tree reasons out; a conversational front end asks clarifying questions when
there is no reasoning or its confidence is below 0.30, and otherwise turns the reasoning
and citations into a reply. Nodes are
indexed into Elasticsearch as flat documents, and search requests are built as
Elasticsearch boolean queries.

The model is written in Dafny. Pure logic (node values, query routing, query building,
scoring, conclusions) is functions and lemmas. Objects whose fields change in place are
classes: a logic tree module (`LogicTree.LogicTreeModule`), the registry
(`Registry.ModuleRegistry`) and the hybrid search engine (`HybridSearch.HybridSearch6D`).
Loops of the source are methods with loop invariants, each proved against a function
that specifies it.

| Dafny module | file | models |
|---|---|---|
| `SixDimensions` | six_dimensions.dfy | `six_dimensions.py`: modalities, source types and authority weights, the six-dimension node and its `to_dict`/`from_dict` |
| `NodeDict`, `JsonValue`, `IsoDate` | node_dict.dfy, json_value.dfy, iso_date.dfy | the JSON values `to_dict` produces, `datetime.isoformat` for naive datetimes, and `fromisoformat` on the two shapes `isoformat` writes |
| `NodeTables`, `LogicTree` | node_tables.dfy, logic_tree.dfy | `logic_tree_module.py`: the insertion-ordered node table, traversal, reasoning paths, validation and statistics of a logic tree module |
| `ModuleKit` | module_kit.dfy | what the four domain modules share: keyword scoring of nodes, the ranking of search hits, reasoning steps |
| `Registry`, `QueryRouting` | module_registry.dfy, query_router.dfy | `module_registry.py`: registration, the topic and keyword indexes, lookup by topic, query analysis and module selection |
| `Order21`, `Order21Costs`, `CostGuidelines`, `Numerals` | order21.dfy, order21_costs.dfy, cost_guidelines.dfy, numerals.dfy | `order21_module.py` and `order21_costs_module.py`: nodes, search, reasoning, conclusions and the Appendix G cost calculation with its money formatting |
| `RuleModules`, `Order5`, `Order14` | rule_modules.dfy, order5.dfy, order14.dfy | `order5_module.py` and `order14_module.py`, both as written (their dataclass calls raise) and as evidently intended |
| `HybridSearch`, `Ranking` | hybrid_search.dfy, ranking.dfy | `hybrid_search_6d.py`: module registration, logic-tree reasoning, the hybrid score and its stable ranking |
| `Conversational` | conversational.dfy | `conversational_interface.py`: the confidence gate (below 0.30 asks for clarification), the structured data handed to the language model, the step buckets and the clarifying questions |
| `EsSearch` | es_search.dfy | `elasticsearch_search.py`: the boolean query, the filter clauses and the parsing of hits |
| `IndexNodes` | index_nodes.dfy | `index_6d_nodes.py`: the document built from a node and the count of a module's indexed nodes |
| `Wrappers`, `Text`, `Seqs` | wrappers.dfy, text.dfy, seqs.dfy | helpers: `Option`/`Result`, Python string operations (`lower`, `in`, `join`, `split`), sequence lemmas |

Where the code and the system's design description disagree, the model follows the code:

- Registering a module under an id that is already registered is not a no-op: the module
  replaces the old one, but its id is appended to the topic and keyword indexes once
  more (`Registry.RegisterTwiceLeavesStale`).
- Results with equal scores keep their insertion order, because Python's `sorted` is
  stable. They are not ordered by authority weight or node id (`Ranking.SortDesc`).
- Initialising a module never fails with a load error; it loads the module's fixture nodes.
- The reply's citations are deduplicated over the citations of all reasoning steps, not
  only the WHY steps.
- An empty query to the Order 21 modules scores every node, because the empty string is a
  substring of every text.

Some behaviour of the code is kept as written and proved as such, although it looks
unintended:

- The costs complexity filter asks whether "contested" occurs in a guideline's
  complexity, and "uncontested" contains it. So asking for contested matters also picks the
  uncontested rows (`CostGuidelines.ContestedAcceptsUncontested`,
  `CostGuidelines.ContestedStayPicksUncontested`). With whole-word levels the two sets are
  disjoint (`CostGuidelines.IntendedLevelsDisjoint`).
- In Order 14, a question containing "not accepted" also contains "accept", which is
  matched first, so Rule 5 is never the target (`Order14.NotAcceptedNeverRule5`).
- In Order 14, "cannot" contains "can" and "must not" contains "must", so the prohibition
  branch of the conclusion is never reached (`Order14.ProhibitionUnreachable`).

## Model

| member | source | states |
|---|---|---|
| SixDimensions.ModalityValue | backend/knowledge_graph/six_dimensions.py:32-45 | a modality's `.value` names it: `ModalityType[value]`, the lookup `from_dict` does, gives the same type back |
| SixDimensions.SourceLabel | backend/knowledge_graph/six_dimensions.py:48-71 | a source type's `label` names it: `SourceType[label]` gives the same type back |
| SixDimensions.Weight | backend/knowledge_graph/six_dimensions.py:60-65 | the authority weight of every source type lies in [0, 1] |
| SixDimensions.WeightNonIncreasing | backend/knowledge_graph/six_dimensions.py:60-65 | going down the hierarchy (constitution, statute, rule, appellate, high court, lower court) never increases the weight |
| SixDimensions.NewNode | backend/knowledge_graph/six_dimensions.py:152-213 | `LegalLogicNode(node_id, citation, source_type)` keeps the three given fields and takes every default: no dimension, no parent or children, empty full text and module id, version "1.0.0", no dates, so it is valid at every time |
| SixDimensions.AuthorityWeight | backend/knowledge_graph/six_dimensions.py:215-217 | `get_authority_weight()` lies in [0, 1] and is 1.0 exactly for constitutions and statutes |
| SixDimensions.IsCurrentlyValid | backend/knowledge_graph/six_dimensions.py:219-231 | a node with neither date is valid; a node overruled exactly at `now` is not, because the test is `overruled_date <= now` (the full condition is `SixDimensions.ValidityMeaning`) |
| SixDimensions.ToDict | backend/knowledge_graph/six_dimensions.py:246-295 | `to_dict()` is a dictionary holding the node id, citation and source label that `from_dict` requires (the other keys are `DictDimensions`, `DictLinks` and `DictTail`; the inverse is `RoundTrip`) |
| SixDimensions.FromDict | backend/knowledge_graph/six_dimensions.py:296-347 | only a dictionary decodes, and the node it gives carries that dictionary's node id, citation and source label (the inverse is `RoundTrip`) |
| IsoDate.FromIsoFormat | backend/knowledge_graph/six_dimensions.py:317-319 | a string is read only when it has one of the two shapes `isoformat` writes (the inverse is `IsoDate.IsoRoundTrip`) |
| SixDimensions.ConditionalText | backend/knowledge_graph/six_dimensions.py:116-120 | `str(conditional)` starts with "IF c THEN q" and is exactly that iff there are no exceptions |
| SixDimensions.ModalityText | backend/knowledge_graph/six_dimensions.py:144-148 | `str(modality)` starts with "<TYPE> action" and is exactly that iff there are no conditions |
| SixDimensions.BeforeTotal | backend/knowledge_graph/six_dimensions.py:219-231 | the datetime comparison used by the validity check is a strict total order, so `not (d > now)` means `d <= now` |
| SixDimensions.ValidityMeaning | backend/knowledge_graph/six_dimensions.py:219-231 | for the injected `now`: valid iff (no effective date or effective date <= now) and (no overruled date or now < overruled date); with neither date always valid |
| SixDimensions.Relationships | backend/knowledge_graph/six_dimensions.py:233-244 | exactly the eight keys; "parent" is [] iff parent_id is absent or empty, else [parent_id]; every other entry is the node's own list |
| SixDimensions.PropRoundTrip | backend/knowledge_graph/six_dimensions.py:255-256 | a proposition written as in `to_dict` reads back (as `Proposition(**p)`) with its text, confidence and source line; its metadata, not written, comes back empty |
| SixDimensions.CondRoundTrip | backend/knowledge_graph/six_dimensions.py:259-262 | a conditional reads back with condition, consequence, exceptions, confidence and source line |
| SixDimensions.ModRoundTrip | backend/knowledge_graph/six_dimensions.py:303-309 | a modality reads back with action, type (via `ModalityType[m["modality"]]`), conditions, confidence and source line |
| SixDimensions.PropsRoundTrip | backend/knowledge_graph/six_dimensions.py:301-302 | a list of propositions reads back item by item, in order |
| SixDimensions.CondsRoundTrip | backend/knowledge_graph/six_dimensions.py:303 | a list of conditionals reads back item by item, in order |
| SixDimensions.ModsRoundTrip | backend/knowledge_graph/six_dimensions.py:304-310 | a list of modalities reads back item by item, in order |
| SixDimensions.DateRoundTrip | backend/knowledge_graph/six_dimensions.py:283-284 | an absent date is written as null and reads back absent; a present one is written in ISO form and reads back equal |
| IsoDate.IsoFormat | backend/knowledge_graph/six_dimensions.py:283-284 | `isoformat()` has 19 characters, or 26 when the microseconds are not zero |
| IsoDate.IsoRoundTrip | backend/knowledge_graph/six_dimensions.py:317-319 | `fromisoformat(isoformat(d))` is `d` for every datetime |
| SixDimensions.DictHead | backend/knowledge_graph/six_dimensions.py:248-252 | `to_dict` writes node_id, citation, the source type's label and the authority weight |
| SixDimensions.DictDimensions | backend/knowledge_graph/six_dimensions.py:254-270 | `to_dict` writes the six dimensions, each as a list in the shape `from_dict` reads |
| SixDimensions.DictLinks | backend/knowledge_graph/six_dimensions.py:272-280 | `to_dict` writes parent_id and the seven id lists unchanged |
| SixDimensions.DictTail | backend/knowledge_graph/six_dimensions.py:282-294 | `to_dict` writes both dates (null when absent), is_valid at `now`, full_text, module_id, version, validated_by, validated_date and metadata |
| NodeDict.NoTimestampKeys | backend/knowledge_graph/six_dimensions.py:246-295 | `to_dict` writes neither "created_at" nor "updated_at" |
| SixDimensions.FromDictEncoded | backend/knowledge_graph/six_dimensions.py:297-347 | any dictionary that holds the fields `to_dict` writes for a node decodes to that node, less what `to_dict` does not write |
| SixDimensions.RoundTrip | backend/knowledge_graph/six_dimensions.py:246-347 | `from_dict(to_dict(n))` gives back identification, source type, all six dimensions with exceptions and conditions, parent and id lists, dates, full_text, module_id, version, validated_by and metadata; only nested item metadata and the amendment history, which `to_dict` does not write, come back empty |
| SixDimensions.RoundTripExact | backend/knowledge_graph/six_dimensions.py:246-347 | a node with no nested item metadata and no amendment history survives `from_dict(to_dict(n))` unchanged |
| SixDimensions.CreateSimpleNode | backend/knowledge_graph/six_dimensions.py:358-376 | exactly one dimension filled, WHAT, with one proposition holding the given text; id, citation, source type and module as given |
| SixDimensions.CreateConditionalNode | backend/knowledge_graph/six_dimensions.py:379-398 | exactly one dimension filled, IF-THEN, with one conditional of the given condition and consequence and no exceptions |
| SixDimensions.CreateObligationNode | backend/knowledge_graph/six_dimensions.py:401-420 | exactly one dimension filled, CAN/MUST, with one modality of the given type and action and no conditions |
| LogicTree.LogicTreeModule.constructor | backend/knowledge_graph/logic_tree_module.py:166-177 | a new module holds its metadata and an empty, uninitialised node table with no roots |
| LogicTree.LogicTreeModule.Initialize | backend/knowledge_graph/logic_tree_module.py:179-197 | afterwards the module is initialised; a second call changes nothing; a first call installs the loaded table and sets the roots to exactly its parentless ids, in table order |
| NodeTables.RootsMeaning | backend/knowledge_graph/logic_tree_module.py:191-195 | an id is a root iff it is a key of the table whose node has no parent, and each root is listed once |
| NodeTables.GetNode | backend/knowledge_graph/logic_tree_module.py:266-276 | `get_node` finds a node iff the id is a key, and then it is the node under that key |
| NodeTables.ExistingIdsAll | backend/knowledge_graph/logic_tree_module.py:292-296 | the children filter keeps every id, in order, when none dangles |
| NodeTables.GetChildren | backend/knowledge_graph/logic_tree_module.py:278-296 | [] for an unknown node; otherwise the nodes of the existing children ids, in `children_ids` order, each one a stored node |
| NodeTables.GetParent | backend/knowledge_graph/logic_tree_module.py:298-312 | none iff the node is missing, has no (or an empty) parent id, or its parent is not stored; otherwise the stored parent |
| NodeTables.StepDirections | backend/knowledge_graph/logic_tree_module.py:338-355 | a "down" hop follows only a child id, an "up" hop only the parent id, and a "both" hop is one of the two |
| LogicTree.LogicTreeModule.TraverseTree | backend/knowledge_graph/logic_tree_module.py:314-357 | terminates on any links, cycles included; no id is returned twice; every returned node is stored and reached from `start` by a walk in `direction` of at most `max_depth` hops; `start` comes first; the result is empty iff `start` is unknown or `max_depth` is negative |
| LogicTree.LogicTreeModule.GetReasoningPath | backend/knowledge_graph/logic_tree_module.py:359-412 | terminates on any links; for start == end it is [start's node] when start exists, else []; otherwise a non-empty result comes from a path of at least two ids from start to end whose hops are child, parent, interprets or extends links from stored nodes, and it lists that path's stored nodes in order |
| LogicTree.LogicTreeModule.ValidateNode | backend/knowledge_graph/logic_tree_module.py:414-445 | the errors are exactly those `ValidationErrors` lists: missing id, missing citation, no dimension, dangling parent, then one per dangling child |
| NodeTables.ValidationMeaning | backend/knowledge_graph/logic_tree_module.py:414-445 | a node has no errors iff it has an id, a citation and some dimension, its parent (if any) is stored and every child is stored; there is one child error per dangling child |
| NodeTables.ChildErrorsAreMissing | backend/knowledge_graph/logic_tree_module.py:437-443 | the child errors name the dangling children, one each, in `children_ids` order |
| NodeTables.WellLinkedValidates | backend/knowledge_graph/logic_tree_module.py:414-445 | in a table where every node is stored under its own id, filled, and links only to stored nodes, every node validates |
| LogicTree.LogicTreeModule.GetStatistics | backend/knowledge_graph/logic_tree_module.py:447-487 | total_nodes is the table's size, root_nodes the number of roots, the per-source-type counts add up to total_nodes, each of the six dimension counts is the number of nodes with that dimension populated, and parent_child the number of nodes with a parent id |
| NodeTables.SourceCountsTotal | backend/knowledge_graph/logic_tree_module.py:459-463 | every node is counted under exactly one source-type label |
| NodeTables.DimensionCountsBound | backend/knowledge_graph/logic_tree_module.py:466-477 | the nodes counted with a WHAT dimension, and those counted with a parent, are at most all nodes |
| NodeTables.DimensionCountsExact | backend/knowledge_graph/logic_tree_module.py:464-471 | `dimension_counts` has exactly the six keys, and each counts the stored nodes whose list for that dimension is non-empty |
| NodeTables.ParentCountExact | backend/knowledge_graph/logic_tree_module.py:475 | "parent_child" counts the stored nodes whose parent_id is set and non-empty |
| NodeTables.SumOverCounts | backend/knowledge_graph/logic_tree_module.py:465-475 | a `sum(1 for n in ... if ...)` over distinct ids is the number of ids whose test holds |
| NodeTables.TableSize | backend/knowledge_graph/logic_tree_module.py:455 | a table has as many nodes as ids |
| Registry.ModuleRegistry.constructor | backend/knowledge_graph/module_registry.py:376-381 | a new registry has no modules, no metadata and empty topic and keyword indexes, and its router holds the fixed taxonomy and question patterns |
| Registry.RemoveFirst | backend/knowledge_graph/module_registry.py:430-435 | `list.remove(id)` under its `in` guard: the list itself when `id` is absent, else one element shorter |
| Registry.RemoveFirstAt | backend/knowledge_graph/module_registry.py:430-435 | the removal drops the leftmost occurrence and keeps the rest in order |
| Registry.LowerAll | backend/knowledge_graph/module_registry.py:411-412 | the keyword index is keyed by each keyword lowercased, in order |
| Registry.AppendEachLookup | backend/knowledge_graph/module_registry.py:407-412 | after the index loop each list gains the id at its end once per occurrence of its key among the topics (or keywords), so re-registering duplicates it; no other list changes |
| Registry.AppendEachKeys | backend/knowledge_graph/module_registry.py:407-412 | the index keys afterwards are the old keys plus the visited ones |
| Registry.RemoveEachLookup | backend/knowledge_graph/module_registry.py:428-435 | after the removal loop each list has lost one occurrence of the id per occurrence of its key, and no more |
| Registry.RemoveEachKeys | backend/knowledge_graph/module_registry.py:428-435 | the `defaultdict` reads leave an entry, possibly empty, for every visited key |
| Registry.RegisterUnregisterLookup | backend/knowledge_graph/module_registry.py:383-441 | registering a module once and unregistering it gives every index list its old contents back, when no list held the id before |
| Registry.RegisterTwiceLeavesStale | backend/knowledge_graph/module_registry.py:383-441 | registering a module twice and unregistering it once leaves one stale copy of its id in each list of its topics |
| Registry.ModuleRegistry.IndexTopics | backend/knowledge_graph/module_registry.py:407-408 | the topic loop appends the id to each topic's list and changes nothing else |
| Registry.ModuleRegistry.IndexKeywords | backend/knowledge_graph/module_registry.py:411-412 | the keyword loop appends the id to each lowercased keyword's list and changes nothing else |
| Registry.ModuleRegistry.RegisterModule | backend/knowledge_graph/module_registry.py:383-414 | the module is initialised before indexing; it and its metadata are stored under its id (replacing an earlier one); the id is appended once per coverage topic and once per lowercased keyword |
| Registry.ModuleRegistry.Store | backend/knowledge_graph/module_registry.py:400-412 | the storing half of registration: module and metadata stored, both indexes appended to |
| Registry.ModuleRegistry.UnindexTopics | backend/knowledge_graph/module_registry.py:428-430 | the topic loop removes one occurrence of the id from each topic's list and changes nothing else |
| Registry.ModuleRegistry.UnindexKeywords | backend/knowledge_graph/module_registry.py:432-435 | the keyword loop removes one occurrence from each lowercased keyword's list and changes nothing else |
| Registry.ModuleRegistry.UnregisterModule | backend/knowledge_graph/module_registry.py:416-441 | an unknown id changes nothing; otherwise one occurrence of the id leaves each of its topic and keyword lists and its module and metadata entries are deleted |
| Registry.ModuleRegistry.GetModule | backend/knowledge_graph/module_registry.py:443-445 | a module is found iff the id is registered, and it is the registered one |
| Registry.TalliedStep | backend/knowledge_graph/module_registry.py:462-463 | one `module_scores[id] += 1` on a `defaultdict(int)` keeps the counts equal to the number of hits so far, a new id joining the keys last |
| Registry.ModuleRegistry.CountHit | backend/knowledge_graph/module_registry.py:462-463 | one hit counted as the source does |
| Registry.ModuleRegistry.CountHits | backend/knowledge_graph/module_registry.py:462-463 | the inner loop counts every id of a topic's list |
| Registry.Dedup | backend/knowledge_graph/module_registry.py:460-470 | the counted ids: each once, exactly the hit ids, in the order of their first hit (dict order) |
| Registry.HitsMeaning | backend/knowledge_graph/module_registry.py:461-463 | an id is hit iff some given topic's list holds it |
| Registry.ModuleRegistry.GetModulesByTopics | backend/knowledge_graph/module_registry.py:451-474 | the result is the hit ids ranked by count with a stable sort |
| Registry.RankedMembers | backend/knowledge_graph/module_registry.py:451-474 | the ranking lists each id once, and exactly the ids some given topic lists |
| Registry.RankedByCount | backend/knowledge_graph/module_registry.py:466-470 | hit counts never increase along the ranking |
| Registry.RankedTies | backend/knowledge_graph/module_registry.py:466-470 | ids with equal counts keep the order of their first hit; ties are not broken by authority weight |
| Registry.Select | backend/knowledge_graph/module_registry.py:495-499 | the selection holds registered modules only and is no longer than the ids |
| Registry.SelectRegistered | backend/knowledge_graph/module_registry.py:495-499 | when every id is registered the selection is exactly their modules, in order |
| Registry.ModuleRegistry.AnalyzeQuery | backend/knowledge_graph/module_registry.py:94-126 | the intent carries the query, its topics in taxonomy order, the first matching question type (WHAT by default), the extracted entities, the ranked modules of its topics and the routing confidence of their counts |
| Registry.ModuleRegistry.FindRelevantModules | backend/knowledge_graph/module_registry.py:476-501 | the registered modules among the first `max_modules` routed ids, in routing order; so at most `max_modules`, all registered |
| QueryRouting.ExtractTopics | backend/knowledge_graph/module_registry.py:128-142 | the loop yields exactly the taxonomy's topics, in taxonomy order, that have a keyword occurring in the lowered query |
| QueryRouting.TopicsMeaning | backend/knowledge_graph/module_registry.py:137-140 | a topic is extracted iff one of its keywords is a substring of the lowered query |
| QueryRouting.TopicsInOrder | backend/knowledge_graph/module_registry.py:137-140 | the extracted topics are a subsequence of the taxonomy's topics |
| QueryRouting.TopicsDistinct | backend/knowledge_graph/module_registry.py:137-140 | with distinct topic names the extraction repeats no topic |
| QueryRouting.TaxonomyNamesDistinct | backend/knowledge_graph/module_registry.py:241-305 | the taxonomy's topics are distinct dict keys, so extraction never repeats a topic |
| QueryRouting.FirstMatchMeaning | backend/knowledge_graph/module_registry.py:151-155 | first match wins: the chosen entry has a matching pattern and no earlier entry has one; no choice means no entry matches |
| QueryRouting.ClassifyQuestionType | backend/knowledge_graph/module_registry.py:144-157 | the first question type, in the order WHAT, WHICH, IF_THEN, CAN_MUST, GIVEN, WHY, with a pattern matching the lowered query, else WHAT |
| QueryRouting.AmountGroup | backend/knowledge_graph/module_registry.py:184 | group 1 of `\$?([\d,]+)` is the first run of digits and commas, absent iff the query has neither |
| QueryRouting.AmountMeaning | backend/knowledge_graph/module_registry.py:184-191 | no amount iff there is no digit-or-comma run or the first one is all commas (the `float('')` that raises) |
| QueryRouting.AmountExample | backend/knowledge_graph/module_registry.py:184-191 | "$5,000 in costs" gives the amount 5000 |
| QueryRouting.AmountCommaExample | backend/knowledge_graph/module_registry.py:184-191 | a first run of commas alone gives no amount, even when digits follow later |
| QueryRouting.UnitAt | backend/knowledge_graph/module_registry.py:194 | a unit is "day(s)", "week(s)" or "month(s)" matched without case at the start, lowered |
| QueryRouting.TimePeriodWitness | backend/knowledge_graph/module_registry.py:194-199 | a time period is read only from a digit run, then whitespace, then a unit; its value is the run's number and its unit the lowered unit |
| QueryRouting.ExtractEntities | backend/knowledge_graph/module_registry.py:159-201 | "court" is the first of High, District, Magistrate, Court of Appeal whose pattern matches; the amount and time period are those read as above |
| QueryRouting.RoutingConfidence | backend/knowledge_graph/module_registry.py:211-239 | 0.0 without topics; 0.2 with topics but no modules |
| QueryRouting.RoutingConfidenceBounds | backend/knowledge_graph/module_registry.py:234-239 | with topics and modules the confidence lies in [5/12, 1], and is 1 exactly from 3 topics and 2 modules on |
| Ranking.SortDescPermutes | backend/knowledge_graph/modules/order21_module.py:581 | the descending sort only reorders: the result is a permutation of the input |
| Ranking.SortDescSorted | backend/knowledge_graph/modules/order21_module.py:581 | keys never increase along the sorted result |
| Ranking.SortDescStable | backend/knowledge_graph/module_registry.py:466-470 | `sorted(..., reverse=True)` is stable: items sharing a key keep their original relative order |
| Ranking.SortDescElements | backend/knowledge_graph/modules/order21_module.py:581 | the sorted result has the input's length and elements |
| Ranking.SortDescDistinct | backend/knowledge_graph/module_registry.py:466-470 | sorting a list without repetitions gives one without repetitions |
| ModuleKit.RankedMeaning | backend/knowledge_graph/modules/order21_module.py:580-583 | `sort(reverse=True)` then `[:top_k]`: sorted non-increasing, exactly min(top_k, n) items, all from the input, and all of them when top_k covers the list |
| ModuleKit.RankedKeepsAll | backend/knowledge_graph/modules/order21_module.py:580-583 | when top_k covers the list the ranking drops nothing |
| ModuleKit.Count | backend/knowledge_graph/modules/order21_module.py:548-554 | the number of matching items is at most their number, and zero iff none matches |
| ModuleKit.First | backend/knowledge_graph/modules/order21_module.py:541-547 | what a loop with `break` picks: none iff no item matches, else a matching item with none before it |
| ModuleKit.FirstAt | backend/knowledge_graph/modules/order21_module.py:541-547 | the first match is the item at a matching index with no match before it |
| ModuleKit.Then | backend/knowledge_graph/modules/order21_module.py:552-554 | `if not matched_dimension:` a later match only fills an empty record |
| ModuleKit.ScanFirstProp | backend/knowledge_graph/modules/order21_module.py:541-547 | the WHAT loop adds its weight once iff some proposition contains the query and records the first such proposition |
| ModuleKit.ScanConds | backend/knowledge_graph/modules/order21_module.py:549-555 | the IF-THEN loop adds 1.5 per conditional whose condition or consequence contains the query and records the first one when nothing was recorded |
| ModuleKit.ScanMods | backend/knowledge_graph/modules/order21_module.py:557-562 | the CAN/MUST loop adds 1.5 per modality whose action contains the query and records the first one when nothing was recorded |
| ModuleKit.ScanProps | backend/knowledge_graph/modules/order21_costs_module.py:1399-1419 | a proposition loop adds its weight per matching proposition and records the first match when nothing was recorded |
| ModuleKit.Weigh | backend/knowledge_graph/modules/order21_costs_module.py:1399-1419 | adding a non-negative weight per match gives a non-negative score, positive iff something matched |
| ModuleKit.WeighIsProduct | backend/knowledge_graph/modules/order21_costs_module.py:1399-1419 | adding `w` once per match is `w` times the number of matches |
| ModuleKit.Kept | backend/knowledge_graph/modules/order21_module.py:570-576 | only hits scoring above zero are appended, so at most one per node |
| ModuleKit.KeptMeaning | backend/knowledge_graph/modules/order21_module.py:570-576 | the kept results are exactly the hits of the nodes scoring above zero, in node order |
| ModuleKit.SearchOverMeaning | backend/knowledge_graph/modules/order21_module.py:511-583 | `search` returns hits of the table's own nodes, each scoring above zero, best first, at most top_k, and every scoring node's hit when top_k covers the table |
| ModuleKit.BoostedSearchOverMeaning | backend/knowledge_graph/modules/order21_costs_module.py:1368-1439 | with a boosting pass first: hits of either pass for the table's own nodes, each above zero, best first, at most top_k, and every scoring hit of either pass when top_k covers both |
| ModuleKit.AppendPropSteps | backend/knowledge_graph/modules/order21_module.py:642-650 | a chain loop over propositions appends one step per proposition, in order, carrying its text |
| ModuleKit.AppendCondSteps | backend/knowledge_graph/modules/order21_module.py:653-661 | a chain loop over conditionals appends one step per conditional, carrying `str(c)` |
| ModuleKit.AppendModSteps | backend/knowledge_graph/modules/order21_module.py:675-683 | a chain loop over modalities appends one step per modality, carrying `str(m)` |
| ModuleKit.StepsIn | backend/knowledge_graph/modules/order21_module.py:698-735 | the steps of one dimension, in chain order |
| ModuleKit.StepsInRuns | backend/knowledge_graph/modules/order21_module.py:698-735 | filtering a chain of four one-dimension runs by a dimension gives back that dimension's run |
| ModuleKit.Picked | backend/knowledge_graph/modules/order21_module.py:611-627 | `if id in self.nodes: append(...)`: the id exactly when the table holds it, else nothing |
| ModuleKit.NotCovered | backend/knowledge_graph/modules/order21_module.py:629-635 | the "not covered" answer: the given conclusion, confidence 0, no chain, no nodes, one warning |
| ModuleKit.Values | backend/knowledge_graph/modules/order21_module.py:535 | `self.nodes.values()` in insertion order |
| Order21.Metadata | backend/knowledge_graph/modules/order21_module.py:72-112 | `get_metadata` names the module "order_21" with authority weight 0.8 |
| Order21.BuildRoot | backend/knowledge_graph/modules/order21_module.py:130-161 | the root node has its own id, no parent and, before linking, no children; it has a citation and a WHAT item |
| Order21.BuildRule1 | backend/knowledge_graph/modules/order21_module.py:163-262 | Rule 1 sits under the root and opens its CAN/MUST dimension with the MAY modality to apply for default judgment |
| Order21.BuildInterlocutory | backend/knowledge_graph/modules/order21_module.py:264-342 | Rule 2(1) sits under Rule 1 and opens with its interlocutory-judgment WHAT text |
| Order21.BuildFinal | backend/knowledge_graph/modules/order21_module.py:344-423 | Rule 2(2) sits under Rule 1 with a citation and a WHAT item |
| Order21.BuildRule3 | backend/knowledge_graph/modules/order21_module.py:425-500 | Rule 3 sits under Rule 1 and opens with its notice WHAT text |
| Order21.LoadNodes | backend/knowledge_graph/modules/order21_module.py:114-509 | the five nodes under their ids in insertion order, root → Rule 1 → {interlocutory, final, Rule 3}, parent ids matching the children lists |
| Order21.LoadedValidates | backend/knowledge_graph/modules/order21_module.py:502-507 | every loaded node passes `validate_node` |
| Order21.LoadedRoots | backend/knowledge_graph/modules/order21_module.py:130-135 | the only root of the loaded tree is the Order 21 node itself |
| Order21.NewModule | backend/knowledge_graph/modules/order21_module.py:67-70 | a new module carries its metadata and the loaded table, not yet initialised |
| Order21.ScoreMeaning | backend/knowledge_graph/modules/order21_module.py:535-568 | a node scores above zero iff a WHAT item, a conditional, a modality action, its full text or its citation holds the query; the score is at most 3.5 + 1.5 per conditional and modality; a match is recorded iff one of the three scanned dimensions holds the query |
| Order21.ScoreNode | backend/knowledge_graph/modules/order21_module.py:536-568 | the per-node loops compute the score and the recorded match: WHAT 2.0 once, 1.5 per matching conditional and modality, 0.5 for the full text, 1.0 for the citation |
| Order21.Search | backend/knowledge_graph/modules/order21_module.py:511-583 | every node of the table scored in insertion order, the positive ones kept and ranked |
| Order21.SearchMeaning | backend/knowledge_graph/modules/order21_module.py:511-583 | the result holds hits of the table's own nodes, each above zero with its recorded match, best first, at most top_k, and every scoring node when top_k covers the table |
| Order21.Selected | backend/knowledge_graph/modules/order21_module.py:605-627 | at most two picks, each a stored node |
| Order21.SelectNodes | backend/knowledge_graph/modules/order21_module.py:608-627 | the `if`/`elif` tests append exactly the picks `Selected` describes |
| Order21.SelectionMeaning | backend/knowledge_graph/modules/order21_module.py:610-627 | Rule 2(1) iff interlocutory/unliquidated; Rule 2(2) iff final/liquidated/debt and not interlocutory; Rule 3 iff notice; Rule 1 iff a default/didn't respond/no defense question picked none of those (then it is the only pick); never the root |
| Order21.BuildChain | backend/knowledge_graph/modules/order21_module.py:637-683 | the four loops build the chain `Chain` describes |
| Order21.ChainMeaning | backend/knowledge_graph/modules/order21_module.py:637-683 | one step per GIVEN, IF_THEN, WHAT and CAN_MUST item of the primary node, in that order, each with its id, citation and weight |
| Order21.ModalityAnswers | backend/knowledge_graph/modules/order21_module.py:708-711 | a MAY, MUST or MUST_NOT modality always passes the MAY/MUST test |
| Order21.ConclusionMeaning | backend/knowledge_graph/modules/order21_module.py:698-735 | can/may question with a MAY/MUST first modality: "Yes, " + its text lowercased + citation; else an if/when question not answered as a what question: the first conditional + citation; else the first WHAT + citation; else "Please refer to " + citation |
| Order21.Reason | backend/knowledge_graph/modules/order21_module.py:585-696 | selection, then the chain, then the conclusion, as `Answer` states |
| Order21.AnswerMeaning | backend/knowledge_graph/modules/order21_module.py:629-696 | confidence 0 iff nothing is picked, and then "Question not covered by Order 21", no chain, no nodes and one warning; otherwise confidence 0.9, the first pick as the only applicable node, its chain, its conclusion and its citation as primary rule |
| Order21.DefaultJudgmentQuestion | backend/knowledge_graph/test_integration.py:73-77 | a can question about default naming no judgment type or notice is answered from Rule 1 with confidence 0.9 and a conclusion containing "may apply for default judgment" |
| Order21.InterlocutoryQuestion | backend/knowledge_graph/test_integration.py:79-83 | a what question naming interlocutory judgment is answered from Rule 2(1), whose conclusion contains "establishes liability" |
| Order21.NoticeQuestion | backend/knowledge_graph/test_integration.py:85-89 | a notice question naming no judgment type is answered from Rule 3, whose conclusion contains "must be served" |
| RuleModules.FirstNotIn | backend/knowledge_graph/logic_tree_module.py:98-146 | the first keyword a dataclass does not declare: none exactly when all are declared, otherwise one given and undeclared |
| RuleModules.CallMeaning | backend/knowledge_graph/logic_tree_module.py:98-146 | a dataclass call succeeds exactly when every keyword is a declared field and every field without a default is passed; a rejected keyword is one given and undeclared, a missing one is a field without a default not given |
| RuleModules.GetAttr | backend/knowledge_graph/six_dimensions.py:123-149 | reading an attribute fails exactly when the class has no such field, with Python's AttributeError |
| RuleModules.CallsRaise | backend/knowledge_graph/modules/order5_module.py:591-724 | the calls as written raise: `ReasoningStep(confidence=…)`, `SearchResult(node_id=…)`, `ReasoningResult(source_nodes=…)` are TypeErrors and `Modality.exceptions` an AttributeError |
| RuleModules.FixedCallsSucceed | backend/knowledge_graph/logic_tree_module.py:98-146 | the corrected calls pass declared fields only and every field without a default, so they succeed |
| RuleModules.AnyTermMeaning | backend/knowledge_graph/modules/order5_module.py:624 | `any(term in q for term in terms)`: some term occurs in the text |
| RuleModules.ScoreBounds | backend/knowledge_graph/modules/order5_module.py:570-589 | a node's score lies between 0 and 0.3 + 0.4 per WHAT item + 0.2 per keyword |
| RuleModules.ScorePositive | backend/knowledge_graph/modules/order5_module.py:570-589 | a node scores above zero iff a query word is in its lowered citation or in a lowered WHAT text, or a keyword is in both the query and the citation |
| RuleModules.BlankQueryScoresZero | backend/knowledge_graph/modules/order5_module.py:570-589 | a blank query scores zero everywhere: it has no words and holds no keyword |
| RuleModules.ScoreNode | backend/knowledge_graph/modules/order5_module.py:571-589 | the citation test, the WHAT loop and the keyword loop compute the node's score |
| RuleModules.AddWhatScores | backend/knowledge_graph/modules/order5_module.py:578-580 | the WHAT loop adds 0.4 per proposition holding a query word |
| RuleModules.AddKeywordScores | backend/knowledge_graph/modules/order5_module.py:583-589 | the keyword loop adds 0.2 per keyword in both the query and the citation |
| RuleModules.SearchNodes | backend/knowledge_graph/modules/order5_module.py:566-602 | corrected `search`: every node scored in insertion order, the scoring ones kept and ranked, at most top_k |
| RuleModules.SearchStep | backend/knowledge_graph/modules/order5_module.py:570-597 | one round of the node loop keeps the node's hit exactly when it scores |
| RuleModules.SearchMeaning | backend/knowledge_graph/modules/order5_module.py:545-602 | corrected `search` returns hits of the table's own nodes, each above zero and citing its node, best first, at most top_k, and every scoring node when top_k covers the table |
| RuleModules.NothingScoring | backend/knowledge_graph/modules/order5_module.py:570-597 | when no node in insertion order scores, no node under any key does |
| RuleModules.SearchAsWritten | backend/knowledge_graph/modules/order5_module.py:545-602 | `search` as written raises the `SearchResult` TypeError iff some node scores above zero; otherwise it returns no results |
| RuleModules.FirstScoring | backend/knowledge_graph/modules/order5_module.py:570-597 | the node loop stops at the first scoring node, with none before it, or at the end |
| RuleModules.BuildSixChain | backend/knowledge_graph/modules/order5_module.py:649-710 | the six loops build the chain `SixChain` describes |
| RuleModules.SixChainMeaning | backend/knowledge_graph/modules/order5_module.py:649-710 | one step per item of GIVEN, WHICH, IF-THEN, WHAT, CAN/MUST and WHY, in that order, each with the node's id, citation and weight, and each dimension's steps in item order |
| RuleModules.When | backend/knowledge_graph/modules/order5_module.py:736-737 | the " (when: …)" suffix is empty exactly when there are no conditions |
| RuleModules.Fallback | backend/knowledge_graph/modules/order5_module.py:753-757 | the first WHAT text, else "See " + citation |
| RuleModules.ObligationAnswer | backend/knowledge_graph/modules/order5_module.py:733-740 | the obligation's action and conditions, capitalised: same length, first letter upper-cased |
| RuleModules.ConclusionFailure | backend/knowledge_graph/modules/order5_module.py:731-740 | as written the conclusion raises iff the question asks must/have to and the node has a MUST or SHALL modality |
| RuleModules.ReasonAlwaysRaises | backend/knowledge_graph/modules/order5_module.py:604-724 | as written every `reason` call raises: the `exceptions` AttributeError iff the target's first four dimensions are empty and it has a modality; the `source_nodes` TypeError iff the target is missing or empty; else the first step's TypeError |
| RuleModules.ExceptionsReadReach | backend/knowledge_graph/modules/order5_module.py:692-698 | with the step and result calls fixed, `reason` still raises the `exceptions` AttributeError exactly when the target is stored and holds a modality, for any question, and returns otherwise |
| Order5.Metadata | backend/knowledge_graph/modules/order5_module.py:54-85 | `get_metadata` names the module "order_5" with authority weight 0.8, three sections, Singapore, no validation date |
| Order5.BuildRoot | backend/knowledge_graph/modules/order5_module.py:98-161 | the root has no parent, Rules 1–3 as children, a citation, GIVEN and WHAT items |
| Order5.BuildRule1 | backend/knowledge_graph/modules/order5_module.py:163-264 | Rule 1 sits under the root, a leaf, and opens its CAN/MUST with the MUST duty and its one condition |
| Order5.BuildRule2 | backend/knowledge_graph/modules/order5_module.py:266-398 | Rule 2 sits under the root, a leaf with a citation, GIVEN and WHAT items |
| Order5.BuildRule3 | backend/knowledge_graph/modules/order5_module.py:400-541 | Rule 3 sits under the root, a leaf, and opens its CAN/MUST with the Court's MAY power |
| Order5.ShapeLinked | backend/knowledge_graph/modules/order5_module.py:157-160 | the root-and-three-rules table, filled in, is well linked: parent ids and children lists agree |
| Order5.LoadNodes | backend/knowledge_graph/modules/order5_module.py:87-543 | the four nodes under their ids in insertion order, shaped as above |
| Order5.LoadedValidates | backend/knowledge_graph/modules/order5_module.py:87-543 | every loaded node passes `validate_node` |
| Order5.LoadedRoots | backend/knowledge_graph/modules/order5_module.py:98-161 | the only root of the loaded tree is Order 5 itself |
| Order5.NewModule | backend/knowledge_graph/modules/order5_module.py:48-52 | a new module carries its metadata and loaded table, not yet initialised |
| Order5.Search | backend/knowledge_graph/modules/order5_module.py:545-602 | corrected `search`, initialising first: the module's nodes scored and ranked as `SearchOver` states |
| Order5.CitationsOpenWithOrder | backend/knowledge_graph/modules/order5_module.py:574 | a citation starting "Order 5 - Amicable Resolution" lowercased holds "order" |
| Order5.OrderQueryRaises | backend/knowledge_graph/modules/order5_module.py:570-597 | as written, a query with the word "order" makes some node score, so `search` raises |
| Order5.TargetMeaning | backend/knowledge_graph/modules/order5_module.py:620-637 | the rule tests in order: Rule 1 iff a duty term; Rule 2 iff an offer-terms term and no duty term; Rule 3 iff a court-power term and neither; the root otherwise |
| Order5.ConclusionMeaning | backend/knowledge_graph/modules/order5_module.py:726-757 | must/have to with an obligation: its capitalised action and conditions; else can/may with a permission: "Yes, " + its action; else the WHAT fallback, in terms of the first matching modality |
| Order5.Reason | backend/knowledge_graph/modules/order5_module.py:604-724 | corrected `reason`, initialising first: the target, its six-dimension chain and its conclusion, as `Answer` states |
| Order5.AnswerMeaning | backend/knowledge_graph/modules/order5_module.py:604-724 | over the loaded table the target always exists: confidence 0.9, the target as the only applicable node, one step per item of all six dimensions in order, its conclusion |
| Order5.ReasonRaisesAtFirstStep | backend/knowledge_graph/modules/order5_module.py:650-657 | as written, `reason` over the loaded table raises the first GIVEN step's TypeError whatever the question |
| Order5.DutyQuestion | backend/knowledge_graph/modules/order5_module.py:624-625 | a duty question asking what one must do is answered from Rule 1 with its capitalised MUST action and condition |
| Order5.CourtPowerQuestion | backend/knowledge_graph/modules/order5_module.py:632-633 | a question about what the court may order is answered from Rule 3 with "Yes, " + its MAY action |
| Order5.GeneralQuestion | backend/knowledge_graph/modules/order5_module.py:636-637 | a question with no rule term and no must/have to/can/may is answered from the root with its WHAT |
| Order14.Metadata | backend/knowledge_graph/modules/order14_module.py:60-94 | `get_metadata` names the module "order_14" with authority weight 0.8, four sections, fifteen keywords, Singapore, no validation date |
| Order14.BuildRoot | backend/knowledge_graph/modules/order14_module.py:107-173 | the root has no parent, Rules 1, 2, 3, 4, 5 and 7 as children, a citation, GIVEN and WHAT items |
| Order14.BuildRule1 | backend/knowledge_graph/modules/order14_module.py:175-333 | Rule 1 sits under the root, a leaf whose modalities open with a MAY and then the MUST to give notice |
| Order14.BuildRule2 | backend/knowledge_graph/modules/order14_module.py:335-412 | Rule 2 sits under the root, a leaf with a citation, GIVEN and WHAT items |
| Order14.BuildRule3 | backend/knowledge_graph/modules/order14_module.py:414-558 | Rule 3 sits under the root, a leaf whose first modality is the MAY to accept, with its two conditions |
| Order14.BuildRule4 | backend/knowledge_graph/modules/order14_module.py:560-648 | Rule 4 sits under the root, a leaf with a citation, GIVEN and WHAT items |
| Order14.BuildRule5 | backend/knowledge_graph/modules/order14_module.py:650-722 | Rule 5 sits under the root, a leaf with a citation, GIVEN and WHAT items |
| Order14.BuildRule7 | backend/knowledge_graph/modules/order14_module.py:724-821 | Rule 7 sits under the root, a leaf with exactly two modalities, a MUST NOT and a MAY NOT |
| Order14.ShapeLinked | backend/knowledge_graph/modules/order14_module.py:166-169 | the root-and-six-rules table, filled in, is well linked |
| Order14.LoadNodes | backend/knowledge_graph/modules/order14_module.py:96-823 | the seven nodes under their ids in insertion order, shaped as above |
| Order14.LoadedValidates | backend/knowledge_graph/modules/order14_module.py:96-823 | every loaded node passes `validate_node` |
| Order14.LoadedRoots | backend/knowledge_graph/modules/order14_module.py:107-173 | the only root of the loaded tree is Order 14 itself |
| Order14.NewModule | backend/knowledge_graph/modules/order14_module.py:54-58 | a new module carries its metadata and loaded table, not yet initialised |
| Order14.Search | backend/knowledge_graph/modules/order14_module.py:825-882 | corrected `search`, initialising first: the module's nodes scored and ranked as `SearchOver` states |
| Order14.TargetMeaning | backend/knowledge_graph/modules/order14_module.py:900-929 | each rule is the target exactly when the question holds one of its terms and none of an earlier rule's; the root when none; the target is always loaded |
| Order14.NotAcceptedNeverRule5 | backend/knowledge_graph/modules/order14_module.py:912-921 | a question holding "not accepted" goes to Rule 1, 2 or 3, never to Rule 5 |
| Order14.PermissionAnswer | backend/knowledge_graph/modules/order14_module.py:1035-1041 | "Yes, " + the action, followed by " (when: …)" exactly when it has conditions |
| Order14.ProhibitionUnreachable | backend/knowledge_graph/modules/order14_module.py:1024-1047 | every cannot/must not question is already a must or can question, so the prohibition branch never runs |
| Order14.ConclusionMeaning | backend/knowledge_graph/modules/order14_module.py:1018-1064 | must/have to with an obligation: its capitalised action and conditions; else can/may with a permission: the permission answer; else the fallback, in terms of the first matching modality |
| Order14.ConclusionOtherwise | backend/knowledge_graph/modules/order14_module.py:1050-1064 | for other questions: a how question that is not a what question answers "You must " + the first MUST action; every other the fallback; never "No, " |
| Order14.Reason | backend/knowledge_graph/modules/order14_module.py:884-1016 | corrected `reason`, initialising first: the target, its six-dimension chain and its conclusion, as `Answer` states |
| Order14.AnswerMeaning | backend/knowledge_graph/modules/order14_module.py:884-1016 | over the loaded table the target always exists: confidence 0.9, the target as the only applicable node, one step per item of all six dimensions in order, its conclusion |
| Order14.ReasonRaisesAtFirstStep | backend/knowledge_graph/modules/order14_module.py:944-951 | as written, `reason` over the loaded table raises the first GIVEN step's TypeError whatever the question |
| Order14.HowToPayIn | backend/knowledge_graph/modules/order14_module.py:1055-1058 | a how question about paying into court is answered from Rule 1 with "You must " + its MUST notice action |
| Order14.AcceptQuestion | backend/knowledge_graph/modules/order14_module.py:1035-1041 | a can question about accepting is answered from Rule 3 with "Yes, " + its MAY action and both conditions |
| Order14.DisclosureTarget | backend/knowledge_graph/modules/order14_module.py:924-925 | a disclosure question no earlier rule claims goes to Rule 7 |
| Order14.ObligationAnswerAt | backend/knowledge_graph/modules/order14_module.py:1024-1062 | an obligation question aimed at a node with only prohibitions falls through to the node's first WHAT |
| Order14.DisclosureQuestion | backend/knowledge_graph/modules/order14_module.py:1024-1062 | a must question that goes to Rule 7 is answered from Rule 7 with its first WHAT |
| Order14.GeneralQuestion | backend/knowledge_graph/modules/order14_module.py:927-929 | a question with no rule term and no must/have to/can/may/how is answered from the root with its WHAT |
| Order21Costs.Metadata | backend/knowledge_graph/modules/order21_costs_module.py:339-393 | `get_metadata` names "order_21_costs" with authority weight 0.9, no dependencies, 11 case citations and as many cost guidelines as the table holds |
| Order21Costs.MetadataCounts | backend/knowledge_graph/modules/order21_costs_module.py:386-392 | with Appendix G the metadata counts seventeen guidelines |
| Order21Costs.LoadCaseCitations | backend/knowledge_graph/modules/order21_costs_module.py:246-337 | eleven cases, each with a name, a citation, a relevance and a quote |
| Order21Costs.BuildRoot | backend/knowledge_graph/modules/order21_costs_module.py:479-514 | the costs root has no parent, a citation and a WHAT item |
| Order21Costs.BuildDiscretion | backend/knowledge_graph/modules/order21_costs_module.py:516-591 | Rule 2(1) sits under the root with a citation and a WHAT item |
| Order21Costs.BuildFactors | backend/knowledge_graph/modules/order21_costs_module.py:593-714 | Rule 2(2) sits under Rule 2(1) with its citation, its principle and its eight WHICH factors |
| Order21Costs.BuildFollowEvent | backend/knowledge_graph/modules/order21_costs_module.py:716-796 | Rule 3(2) sits under the root with its citation, its principle and two WHICH items |
| Order21Costs.BuildIndemnity | backend/knowledge_graph/modules/order21_costs_module.py:798-895 | Rule 22(3) sits under the root with a citation and a WHAT item |
| Order21Costs.BuildStay | backend/knowledge_graph/modules/order21_costs_module.py:897-989 | the Appendix G stay node sits under the root with its citation, principle and three WHICH items |
| Order21Costs.BuildTrials | backend/knowledge_graph/modules/order21_costs_module.py:991-1079 | the Appendix G trials node sits under the root with a citation and a WHAT item |
| Order21Costs.BuildLitigant | backend/knowledge_graph/modules/order21_costs_module.py:1081-1164 | Rule 7 sits under the root with its citation, its principle and two WHICH items |
| Order21Costs.BuildNonParty | backend/knowledge_graph/modules/order21_costs_module.py:1166-1249 | Rule 5 sits under the root with a citation and a WHAT item |
| Order21Costs.BuildSolicitor | backend/knowledge_graph/modules/order21_costs_module.py:1251-1334 | Rule 6 sits under the root with a citation and a WHAT item |
| Order21Costs.IdsDiffer | backend/knowledge_graph/modules/order21_costs_module.py:479-1251 | the ten node ids differ pairwise |
| Order21Costs.ShapeLinked | backend/knowledge_graph/modules/order21_costs_module.py:1336-1347 | the costs tree, filled in, is well linked: the root's eight children and Rule 2(1)'s one |
| Order21Costs.LoadNodes | backend/knowledge_graph/modules/order21_costs_module.py:459-1349 | the ten nodes, linked and stored in insertion order |
| Order21Costs.LoadedValidates | backend/knowledge_graph/modules/order21_costs_module.py:459-1349 | every loaded node passes `validate_node` |
| Order21Costs.LoadedRoots | backend/knowledge_graph/modules/order21_costs_module.py:1336-1347 | the only root of the loaded tree is the costs root |
| Order21Costs.NewModule | backend/knowledge_graph/modules/order21_costs_module.py:97-106 | a new module carries metadata "order_21_costs" with weight 0.9 and the loaded table, not yet initialised |
| Order21Costs.ScorePositive | backend/knowledge_graph/modules/order21_costs_module.py:1383-1426 | a node scores above zero iff the query is in a WHAT, WHICH, IF-THEN or WHY item, its full text or its citation |
| Order21Costs.ScoreBound | backend/knowledge_graph/modules/order21_costs_module.py:1383-1426 | a score is at most 3.5 + 1.5 per WHICH and IF-THEN item + 1 per WHY item |
| Order21Costs.MatchedMeaning | backend/knowledge_graph/modules/order21_costs_module.py:1384-1419 | the recorded dimension is never "APPENDIX_G", and is empty iff no item matched |
| Order21Costs.ScoreNode | backend/knowledge_graph/modules/order21_costs_module.py:1383-1426 | the item loops compute the score and the first matched dimension and text |
| Order21Costs.NoBoost | backend/knowledge_graph/modules/order21_costs_module.py:1372-1381 | without an amount term the boost pass adds nothing |
| Order21Costs.BoostPass | backend/knowledge_graph/modules/order21_costs_module.py:1372-1381 | for an amount question every node whose id holds "appendixg", at 3.0, in insertion order |
| Order21Costs.ScorePass | backend/knowledge_graph/modules/order21_costs_module.py:1383-1434 | every node scored in insertion order, those above zero kept |
| Order21Costs.Search | backend/knowledge_graph/modules/order21_costs_module.py:1351-1439 | the boost pass then the scoring pass, ranked together, at most top_k |
| Order21Costs.SearchMeaning | backend/knowledge_graph/modules/order21_costs_module.py:1351-1439 | results of either pass for the table's own nodes, each above zero, best first, at most top_k; an APPENDIX_G result is a 3.0 boost of an "appendixg" node asked for with an amount |
| Order21Costs.MoneySearch | backend/knowledge_graph/modules/order21_costs_module.py:1372-1381 | an amount question over the loaded table brings up both Appendix G nodes at 3.0 |
| Order21Costs.Relevant | backend/knowledge_graph/modules/order21_costs_module.py:1460-1522 | every id `reason` picks is in the table |
| Order21Costs.CostQuery | backend/knowledge_graph/modules/order21_costs_module.py:1464-1491 | a calculation runs iff the question asks an amount and names a stay or a trial |
| Order21Costs.ResultMetadata | backend/knowledge_graph/modules/order21_costs_module.py:1582-1589 | module, primary rule citation, 11 case citations, and "cost_calculation" exactly when a calculation ran |
| Order21Costs.StayAppType | backend/knowledge_graph/modules/order21_costs_module.py:1470-1477 | the stay type is "stay", refined to arbitration, forum or appeal, as `StayType` states |
| Order21Costs.SelectNodes | backend/knowledge_graph/modules/order21_costs_module.py:1460-1522 | the `if`/`elif` tests append the picks `Relevant` describes and run the calculation `CostQuery` describes |
| Order21Costs.AppendNodeSteps | backend/knowledge_graph/modules/order21_costs_module.py:1537-1575 | one node's first two WHAT, three WHICH, two IF-THEN and three WHY steps appended |
| Order21Costs.BuildChain | backend/knowledge_graph/modules/order21_costs_module.py:1535-1575 | the chain over the first three relevant nodes |
| Order21Costs.AddGuideline | backend/knowledge_graph/modules/order21_costs_module.py:1615-1621 | one guideline's line, then its note when it has one |
| Order21Costs.GuidelineSection | backend/knowledge_graph/modules/order21_costs_module.py:1615-1621 | every found guideline's line and note, in order |
| Order21Costs.CostSection | backend/knowledge_graph/modules/order21_costs_module.py:1611-1626 | the Appendix G heading, the guideline lines and the estimated total, only when guidelines were found |
| Order21Costs.FactorSection | backend/knowledge_graph/modules/order21_costs_module.py:1633-1637 | the key factors heading and the first three WHICH steps, indented |
| Order21Costs.GenerateConclusion | backend/knowledge_graph/modules/order21_costs_module.py:1599-1639 | the cost part, the principle and the key factors joined with newlines, as `Conclusion` states |
| Order21Costs.Reason | backend/knowledge_graph/modules/order21_costs_module.py:1441-1597 | selection, calculation, chain, conclusion and confidence, as `Answer` states |
| Order21Costs.AmountSelection | backend/knowledge_graph/modules/order21_costs_module.py:1464-1495 | an amount question picks the stay node when it names a stay, else the trial node when it names a trial, then always the eight factors |
| Order21Costs.ProtectionSelection | backend/knowledge_graph/modules/order21_costs_module.py:1498-1506 | without an amount: indemnity when named, else litigant in person when "litigant" and "person" are named |
| Order21Costs.NonPartySelection | backend/knowledge_graph/modules/order21_costs_module.py:1508-1511 | without an amount, indemnity or litigant in person: the non-party node when named |
| Order21Costs.RuleSelection | backend/knowledge_graph/modules/order21_costs_module.py:1513-1522 | otherwise: costs follow the event when named, else discretion and the eight factors when named |
| Order21Costs.SelectionSize | backend/knowledge_graph/modules/order21_costs_module.py:1460-1522 | at most two picks, and a second one is the eight factors |
| Order21Costs.SelectionSkips | backend/knowledge_graph/modules/order21_costs_module.py:1460-1522 | the root and the solicitor node are never picked |
| Order21Costs.RelevantAmong | backend/knowledge_graph/modules/order21_costs_module.py:1460-1522 | every pick is one of the eight nodes below the root other than the solicitor node |
| Order21Costs.StayTypeTokens | backend/knowledge_graph/modules/order21_costs_module.py:1470-1477 | every stay type has "stay" as its first word |
| Order21Costs.NodeChainMeaning | backend/knowledge_graph/modules/order21_costs_module.py:1537-1575 | one node gives at most ten steps, all its own; its WHAT steps are its first two WHAT items and its WHICH steps its first three WHICH items, in order |
| Order21Costs.ChainMeaning | backend/knowledge_graph/modules/order21_costs_module.py:1535-1575 | at most thirty steps, each from one of the first three relevant nodes |
| Order21Costs.ChainHead | backend/knowledge_graph/modules/order21_costs_module.py:1535-1575 | the chain's WHAT and WHICH steps open with those of the first relevant node |
| Order21Costs.PrincipleFromHead | backend/knowledge_graph/modules/order21_costs_module.py:1628-1630 | the legal principle is the first relevant node's first WHAT item under its citation |
| Order21Costs.FactorLinesOf | backend/knowledge_graph/modules/order21_costs_module.py:1636-1637 | the key factor lines of a node's WHICH steps are its WHICH texts, indented |
| Order21Costs.FactorsFromHead | backend/knowledge_graph/modules/order21_costs_module.py:1633-1637 | a first node with three WHICH items gives exactly those three key factors |
| Order21Costs.FactorPartsOf | backend/knowledge_graph/modules/order21_costs_module.py:1633-1637 | when the WHICH steps open with at most three own steps, those are the key factors |
| Order21Costs.FactorsOfOne | backend/knowledge_graph/modules/order21_costs_module.py:1633-1637 | a single node with fewer than three WHICH items gives all of them |
| Order21Costs.GuidelineLinesHave | backend/knowledge_graph/modules/order21_costs_module.py:1615-1621 | every guideline's line is among the guideline lines |
| Order21Costs.ConclusionWithout | backend/knowledge_graph/modules/order21_costs_module.py:1610-1639 | without found guidelines the conclusion is just the principle and the key factors, newline-joined |
| Order21Costs.ConclusionHoldsParts | backend/knowledge_graph/modules/order21_costs_module.py:1628-1639 | the conclusion holds the principle and every key factor line |
| Order21Costs.ConclusionWithCosts | backend/knowledge_graph/modules/order21_costs_module.py:1611-1626 | with guidelines found the conclusion opens with the Appendix G heading and holds every guideline line and the total range |
| Order21Costs.CostPartsHave | backend/knowledge_graph/modules/order21_costs_module.py:1611-1626 | the cost part holds the heading, every guideline line and the total |
| Order21Costs.UncoveredMeaning | backend/knowledge_graph/modules/order21_costs_module.py:1524-1530 | a question is covered iff something is picked; uncovered: confidence 0, "Question not covered by Order 21 Costs module" and its warning |
| Order21Costs.AnswerMeaning | backend/knowledge_graph/modules/order21_costs_module.py:1532-1597 | a covered question: the picks in order, a chain of at most thirty steps from the first three, the conclusion of that chain and calculation, confidence 0.9 iff guidelines were found else 0.85 |
| Order21Costs.HeadConclusion | backend/knowledge_graph/modules/order21_costs_module.py:1628-1639 | without a calculation, a first node with three WHICH items: its principle and those three factors |
| Order21Costs.PairConclusion | backend/knowledge_graph/modules/order21_costs_module.py:1628-1639 | without a calculation, a single node with two WHICH items: its principle and both factors |
| Order21Costs.StayConclusion | backend/knowledge_graph/modules/order21_costs_module.py:1599-1639 | with the simple uncontested arbitration stay found, the conclusion holds the heading, that line, the principle and the first factor |
| Order21Costs.AppendixGStays | backend/knowledge_graph/modules/order21_costs_module.py:1470-1482 | over Appendix G every stay type `reason` can choose finds guidelines |
| Order21Costs.StayPlan | backend/knowledge_graph/modules/order21_costs_module.py:1470-1495 | an amount question naming a stay picks the stay node and the factors, and costs a contested standard stay |
| Order21Costs.StayCostsAnswer | backend/knowledge_graph/modules/order21_costs_module.py:1441-1597 | such a question with the arbitration stay found: confidence 0.9 and a conclusion with the heading, that stay's line and the principle |
| Order21Costs.StayCostsQuestion | backend/knowledge_graph/modules/order21_costs_module.py:1441-1597 | an amount question naming a stay, over a table where the stay is found: answered from the stay node and the factors with confidence 0.9 and the Appendix G heading |
| Order21Costs.AmountOnlyPlan | backend/knowledge_graph/modules/order21_costs_module.py:1464-1495 | an amount question naming neither a stay nor a trial picks only the eight factors and costs nothing |
| Order21Costs.AmountOnlyAnswer | backend/knowledge_graph/modules/order21_costs_module.py:1441-1597 | such a question: confidence 0.85, the factors' principle and first three factors |
| Order21Costs.AmountOnlyQuestion | backend/knowledge_graph/modules/order21_costs_module.py:1441-1597 | "How much are the costs for this application?": answered with the factors' principle and first three factors |
| Order21Costs.SingleNodeAnswer | backend/knowledge_graph/modules/order21_costs_module.py:1532-1597 | a question picking one node with two WHICH items and no calculation is answered from that node alone: confidence 0.85, its principle and both factors |
| Order21Costs.FollowEventQuestion | backend/knowledge_graph/modules/order21_costs_module.py:1513-1515 | a follow-the-event question with no amount, indemnity, litigant in person or non-party: Rule 3(2) alone, confidence 0.85, its principle and both factors |
| Order21Costs.LitigantQuestion | backend/knowledge_graph/modules/order21_costs_module.py:1503-1505 | a litigant-in-person question with no amount or indemnity: Rule 7 alone, confidence 0.85, its principle and both factors |
| CostGuidelines.Flatten | backend/knowledge_graph/modules/order21_costs_module.py:419-420 | the guidelines of every category, category by category, each list in its order |
| CostGuidelines.AppendixGRows | backend/knowledge_graph/modules/order21_costs_module.py:108-244 | Appendix G's guidelines are the stay, trial, summons, originating-application and appeal lists, in that order |
| CostGuidelines.AppendixGOrdered | backend/knowledge_graph/modules/order21_costs_module.py:108-244 | seventeen guidelines, each with its minimum at most its maximum, between $2,000 and $150,000 |
| CostGuidelines.Matching | backend/knowledge_graph/modules/order21_costs_module.py:419-428 | the picked guidelines are at most the list's |
| CostGuidelines.MatchingMeaning | backend/knowledge_graph/modules/order21_costs_module.py:419-428 | a guideline is picked iff it is in the list and matches; nothing is picked iff none matches |
| CostGuidelines.MatchingAppend | backend/knowledge_graph/modules/order21_costs_module.py:419-428 | scanning the lists one at a time picks what scanning them all at once picks |
| CostGuidelines.MinAmount | backend/knowledge_graph/modules/order21_costs_module.py:456 | `min(...)`: at most every minimum and equal to one of them |
| CostGuidelines.MaxAmount | backend/knowledge_graph/modules/order21_costs_module.py:457 | `max(...)`: at least every maximum and equal to one of them |
| CostGuidelines.AnyKeyword | backend/knowledge_graph/modules/order21_costs_module.py:422 | the `any(...)` over the request's words, word by word |
| CostGuidelines.MatchList | backend/knowledge_graph/modules/order21_costs_module.py:420-428 | the inner loop appends exactly the matching guidelines of one list |
| CostGuidelines.CalculateCosts | backend/knowledge_graph/modules/order21_costs_module.py:395-458 | `calculate_costs` computes `Calculation` |
| CostGuidelines.CalculationMeaning | backend/knowledge_graph/modules/order21_costs_module.py:395-458 | "found" is false exactly when no guideline matches, with the message naming the request; otherwise the request is echoed and the guidelines are exactly the matching ones |
| CostGuidelines.CalculationTotals | backend/knowledge_graph/modules/order21_costs_module.py:456-457 | the totals are attained by listed guidelines and every listed range lies within them; with well-formed ranges total_min <= total_max |
| CostGuidelines.ContestedAcceptsUncontested | backend/knowledge_graph/modules/order21_costs_module.py:424-428 | as written, a level that says "uncontested" passes the `"contested" in level` test, so contested and uncontested requests both accept it |
| CostGuidelines.ContestedStayPicksUncontested | backend/knowledge_graph/modules/order21_costs_module.py:1470-1482 | as written, every stay calculation `reason` runs (contested, standard) finds guidelines and lists the simple uncontested arbitration stay |
| CostGuidelines.IntendedLevelsDisjoint | backend/knowledge_graph/modules/order21_costs_module.py:424-428 | with the test as evidently intended, a level not naming the complexity goes to contested or to uncontested requests, never both, and an uncontested one only to uncontested requests |
| CostGuidelines.CostJson | backend/knowledge_graph/modules/order21_costs_module.py:430-458 | the dictionary: "found" as computed, a guidelines list of one entry per guideline when found, and always truthy |
| Numerals.Decimal | backend/knowledge_graph/modules/order21_costs_module.py:1617-1618 | `str(n)`: non-empty decimal digits with no leading zero |
| Numerals.Pad3 | backend/knowledge_graph/modules/order21_costs_module.py:1617-1618 | a group after a comma is three digits |
| Numerals.Grouped | backend/knowledge_graph/modules/order21_costs_module.py:1617-1618 | `f"{n:,}"` starts with a digit |
| Numerals.Money | backend/knowledge_graph/modules/order21_costs_module.py:1617-1618 | `f"{n:,}"` of any integer starts with '-' exactly when it is negative |
| Numerals.ThousandsExamples | backend/knowledge_graph/modules/order21_costs_module.py:1617-1618 | 5000 prints "5,000" and 12000 prints "12,000" |
| Numerals.Digits | backend/knowledge_graph/modules/order21_costs_module.py:1617-1618 | dropping the commas keeps at most the characters and leaves no comma |
| Numerals.DecimalValue | backend/knowledge_graph/modules/order21_costs_module.py:1617-1618 | the digits of `str(n)` denote n |
| Numerals.Pad3Value | backend/knowledge_graph/modules/order21_costs_module.py:1617-1618 | three more digits multiply what precedes them by a thousand and add the group |
| Numerals.GroupedValue | backend/knowledge_graph/modules/order21_costs_module.py:1617-1618 | removing the separators from `f"{n:,}"` gives back n: grouping never changes an amount |
| HybridSearch.ClassOf | backend/retrieval/hybrid_search_6d.py:35-38 | the module class behind an id: one exactly for the four ids, Order 5 exactly for "order_5" and Order 14 exactly for "order_14" |
| HybridSearch.AsWrittenRuleModulesRaise | backend/retrieval/hybrid_search_6d.py:211-217 | as written, exactly the Order 5 and Order 14 modules raise in `reason`, whatever the question, and the `try` turns that into no result |
| HybridSearch.TopModule | backend/retrieval/hybrid_search_6d.py:186-208 | the module consulted: the one registered under the top hit's module id, exactly when there is a hit, its id is non-empty and registered |
| HybridSearch.ReasonWithLogicTree | backend/retrieval/hybrid_search_6d.py:173-217 | `None` without hits, without a module id, without a module under it, or when its `reason` raises; otherwise exactly that module's answer |
| HybridSearch.TopRuleModuleGivesNone | backend/retrieval/hybrid_search_6d.py:173-217 | as written a top hit owned by Order 5 or Order 14 gives no reasoning result, where the corrected modules answer; every other top hit gives the corrected answer |
| HybridSearch.TopModuleReasons | backend/retrieval/hybrid_search_6d.py:205-213 | with a registered top module both combiners consult it, the as-written one unless it raises |
| HybridSearch.ModuleReasonSome | backend/retrieval/hybrid_search_6d.py:211-213 | a module answers exactly when its id names one of the four classes |
| HybridSearch.Confidence | backend/retrieval/hybrid_search_6d.py:254-255 | the reasoning confidence, 0 without a result |
| HybridSearch.HybridScore | backend/retrieval/hybrid_search_6d.py:249-256 | 0 without hits; top score / 25 without reasoning; in [0, 1] when the top score is in [0, 10] and the confidence in [0, 1] |
| HybridSearch.WeightedMonotone | backend/retrieval/hybrid_search_6d.py:253-256 | the weighted score never falls when the top score or the confidence grows |
| HybridSearch.HybridScoreMonotone | backend/retrieval/hybrid_search_6d.py:249-256 | the hybrid score never falls with a larger top score and a larger confidence |
| HybridSearch.ExplanationParts | backend/retrieval/hybrid_search_6d.py:269-306 | two BM25 lines when there are hits, else one; four logic lines when there is a result, else one |
| HybridSearch.ExplanationMeaning | backend/retrieval/hybrid_search_6d.py:269-306 | opens with "No results found" exactly when there are no hits, else with the hit count; closes with "Not available" exactly when there is no result |
| HybridSearch.GenerateExplanation | backend/retrieval/hybrid_search_6d.py:269-306 | the parts of each stage joined by lines, as `Explanation` states |
| HybridSearch.HybridSearch6D.constructor | backend/retrieval/hybrid_search_6d.py:70-96 | a fresh search over a consistent registry of the four modules |
| HybridSearch.HybridSearch6D.Search | backend/retrieval/hybrid_search_6d.py:219-267 | the result echoes the query and hits, the top module's reasoning, the hybrid score and the explanation of both |
| HybridSearch.Combine | backend/retrieval/hybrid_search_6d.py:249-267 | the hybrid score and the explanation of the given hits and reasoning |
| HybridSearch.RegisteredTopAnswers | backend/retrieval/hybrid_search_6d.py:89-92 | once built, a top hit owned by one of the four modules is answered by that module, registered under its own id, over its loaded table |
| HybridSearch.RegisterFour | backend/retrieval/hybrid_search_6d.py:89-92 | the four new modules registered in turn give a registry with the four ids |
| HybridSearch.RegisterAll | backend/retrieval/hybrid_search_6d.py:89-92 | the four registrations, in order, map each module id to its module, all initialised |
| HybridSearch.Register | backend/retrieval/hybrid_search_6d.py:89-92 | one registration maps the module's id to it and initialises it |
| Conversational.Bm25Summary | backend/api/conversational_interface.py:199-213 | the summary of the first five hits, in rank order |
| Conversational.StepEntries | backend/api/conversational_interface.py:220-228 | one entry per reasoning step, in chain order |
| Conversational.CitationSet | backend/api/conversational_interface.py:230-234 | exactly the non-empty citations of the chain's steps |
| Conversational.CollectCitations | backend/api/conversational_interface.py:231-234 | the loop collects exactly that set |
| Conversational.ListOfSet | backend/api/conversational_interface.py:235 | `list(s)`: each element of the set once |
| Conversational.ExtractStructuredData | backend/api/conversational_interface.py:179-237 | the extraction the `Extracted` relation describes: defaults, then the BM25 fields when there are hits and the reasoning fields when there is a result |
| Conversational.ExtractedDefaults | backend/api/conversational_interface.py:185-197 | with no hits and no reasoning every field but the hybrid score keeps its default |
| Conversational.CitationsCount | backend/api/conversational_interface.py:230-235 | one citation per distinct step citation, so no more than the steps |
| Conversational.CitedAtMostOnce | backend/api/conversational_interface.py:230-235 | a chain of n steps carries at most n distinct citations |
| Conversational.ExtractionDetermined | backend/api/conversational_interface.py:179-237 | the extraction is fixed by the search result up to the order of the citations |
| Conversational.Ask | backend/api/conversational_interface.py:85-177 | confidence below 0.30 gives the clarification result with the parsed questions; otherwise the answer with the extracted citations, chain, confidence, module and hybrid score |
| Conversational.GateMeaning | backend/api/conversational_interface.py:127-128 | a result without reasoning always asks for clarification; with reasoning, exactly when its confidence is below 0.30 |
| Conversational.BucketOf | backend/api/conversational_interface.py:256-268 | a WHY step with "Verbatim Quote:" is a quote; a WHY step with "Case Law:" and not a quote is case law; every other step is regular |
| Conversational.PartitionSteps | backend/api/conversational_interface.py:251-268 | the three lists hold the steps of their bucket, in order |
| Conversational.PartitionIsPermutation | backend/api/conversational_interface.py:251-268 | every step lands in exactly one list: together the lists are a permutation of the steps |
| Conversational.InBucketMembers | backend/api/conversational_interface.py:251-268 | a list holds exactly the steps of its bucket |
| Conversational.Shortened | backend/api/conversational_interface.py:272 | `text[:200]` plus "..." exactly when longer than 200 characters |
| Conversational.RegularLines | backend/api/conversational_interface.py:270-274 | one line per regular step, of the first eight, each ending with its shortened text |
| Conversational.RenderQuotes | backend/api/conversational_interface.py:278-289 | the loop renders a quote list as `QuotesText` states |
| Conversational.QuotesShowThree | backend/api/conversational_interface.py:278-289 | only the first three steps render; a non-empty list opens with its header; an empty one renders nothing |
| Conversational.PresentationSections | backend/api/conversational_interface.py:239-289 | the reasoning, case-law and verbatim sections of the prompt, each from its bucket |
| Conversational.ParseClarifyingQuestions | backend/api/conversational_interface.py:410-426 | parsing the reply computes `ClarifyingQuestions` |
| Conversational.KeepListLines | backend/api/conversational_interface.py:411-415 | the stripped lines that start with a digit or '-' |
| Conversational.CleanAll | backend/api/conversational_interface.py:417-424 | the cleaned forms that are not empty, in order |
| Conversational.CleanInto | backend/api/conversational_interface.py:420-424 | the cleaned question is kept exactly when not empty |
| Conversational.CleanQuestionSpan | backend/api/conversational_interface.py:422 | the cleanup keeps one stretch of the question, dropping only numbering characters and whitespace in front and whitespace behind |
| Conversational.CleanQuestionWellFormed | backend/api/conversational_interface.py:422-423 | a non-empty cleaned question neither starts nor ends with whitespace |
| Conversational.QuestionsMeaning | backend/api/conversational_interface.py:356-426 | at most four questions, each well formed, each from a list line of the reply, in order |
| EsSearch.TermsOf | backend/retrieval/elasticsearch_search.py:228-256 | one terms clause exactly when the list filter is given and non-empty |
| EsSearch.RangeOf | backend/retrieval/elasticsearch_search.py:257-283 | one range clause per bound that is set |
| EsSearch.BuildFilterClauses | backend/retrieval/elasticsearch_search.py:218-285 | `_build_filter_clauses` computes `FilterClauses` |
| EsSearch.AppendTerms | backend/retrieval/elasticsearch_search.py:228-256 | one list filter appends its terms clause when given and non-empty |
| EsSearch.AppendRange | backend/retrieval/elasticsearch_search.py:257-283 | one range filter appends the upper field against the lower bound, then the lower field against the upper bound, each when set |
| EsSearch.ClauseCount | backend/retrieval/elasticsearch_search.py:218-285 | one clause per applicable list filter and per set bound; the terms clauses come first |
| EsSearch.NoClauses | backend/retrieval/elasticsearch_search.py:218-285 | filters that set nothing, or only empty lists, give no clause |
| EsSearch.TermsListMeaning | backend/retrieval/elasticsearch_search.py:228-256 | among list filters on distinct fields, a terms clause with given values is there exactly when those are the filter's values and non-empty |
| EsSearch.TermsListFields | backend/retrieval/elasticsearch_search.py:228-256 | every terms clause is on the field of one of the filters |
| EsSearch.TermsClauseIffGiven | backend/retrieval/elasticsearch_search.py:228-256 | the node type, order, rule, court and case type filters yield their terms clause, carrying their values, exactly when given and non-empty |
| EsSearch.RangeClausesMeaning | backend/retrieval/elasticsearch_search.py:257-283 | a claim minimum becomes "claim_amount_max gte", a maximum "claim_amount_min lte"; trial days likewise, and each bound exactly when set |
| EsSearch.RangeOfMeaning | backend/retrieval/elasticsearch_search.py:257-270 | within one range each bound gives exactly its own clause on the opposite field |
| EsSearch.FilterScenarios | backend/retrieval/test_search.py:88-149 | no filters give no clause; node types give one terms clause; a court gives one; a claim range gives two; a combination gives three |
| EsSearch.BuildQuery | backend/retrieval/elasticsearch_search.py:157-216 | `_build_query` computes `QueryBody` |
| EsSearch.QueryBodyMeaning | backend/retrieval/elasticsearch_search.py:157-216 | the body always holds the full-text match; "filter" exactly when there are clauses, "min_score" exactly when given, "highlight" exactly when enabled, nothing else |
| EsSearch.QueryScenarios | backend/retrieval/test_search.py:151-210 | the body has a bool query with a must; a filter with a node type filter; min_score 5.0 when given; highlighting when enabled |
| EsSearch.Item | backend/retrieval/elasticsearch_search.py:294-318 | Python `j[k]` succeeds exactly on a dictionary holding k |
| EsSearch.Items | backend/retrieval/elasticsearch_search.py:294 | iterating a list yields its items |
| EsSearch.ParseHit | backend/retrieval/elasticsearch_search.py:294-318 | a parsed hit had "_source" and "_score" |
| EsSearch.ParseAll | backend/retrieval/elasticsearch_search.py:294-320 | a parsed list has one result per hit |
| EsSearch.ParseResults | backend/retrieval/elasticsearch_search.py:287-320 | `_parse_results` computes `Parsed` |
| EsSearch.ParseAllFails | backend/retrieval/elasticsearch_search.py:294-320 | once a prefix of the hits fails to parse, every longer one fails too |
| EsSearch.ParseAllMeaning | backend/retrieval/elasticsearch_search.py:294-320 | one result per hit, in hit order, each its hit's parse; highlights only from a "highlight" entry with "text" |
| EsSearch.HighlightsOnlyFromText | backend/retrieval/elasticsearch_search.py:298-300 | a result has highlights only when its hit has a "highlight" entry with "text", and then they are that entry |
| EsSearch.Search | backend/retrieval/elasticsearch_search.py:98-155 | a blank query gives no results and no request; otherwise the body is sent and the parsed hits returned, or nothing when the client or parsing raises |
| EsSearch.ParsedMeaning | backend/retrieval/elasticsearch_search.py:287-320 | a parsed response has one result per hit of response['hits']['hits'], in order |
| EsSearch.MultiMatchSearch | backend/retrieval/elasticsearch_search.py:322-381 | `multi_match_search` sends the `multi_match` body for the given fields and filters with `size=top_k`, with no blank-query shortcut, and returns the parsed hits, or [] when the client or the parsing raises |
| EsSearch.MultiMatchBodyMeaning | backend/retrieval/elasticsearch_search.py:348-368 | the multi-field body holds only "query"; its `must` clause searches the given fields with `best_fields`, and its filter is present exactly when `search`'s is, and equal to it |
| IndexNodes.Rendered | backend/retrieval/index_6d_nodes.py:79-99 | one rendered part per item, in order |
| IndexNodes.AppendRendered | backend/retrieval/index_6d_nodes.py:79-99 | one of the per-dimension loops appends each item's rendering |
| IndexNodes.ConvertNodeToDoc | backend/retrieval/index_6d_nodes.py:56-107 | `convert_node_to_doc` computes `NodeDoc` |
| IndexNodes.NodeDocMeaning | backend/retrieval/index_6d_nodes.py:56-107 | the document holds every `to_dict()` key plus the two timestamps and nothing else; every entry but "full_text" is carried over; both timestamps are now in ISO format |
| IndexNodes.SearchTextMeaning | backend/retrieval/index_6d_nodes.py:73-105 | a node's own full text is kept; otherwise the citation then one part per WHAT, WHICH, IF-THEN, CAN/MUST, GIVEN and WHY item, space-joined |
| IndexNodes.LinesDropQualifiers | backend/retrieval/index_6d_nodes.py:86-93 | an IF-THEN part is the conditional's text without its exceptions, equal exactly when there are none; a CAN/MUST part likewise drops the conditions |
| IndexNodes.SearchTextCovers | backend/retrieval/index_6d_nodes.py:73-105 | without its own text a document's text holds the citation and every WHAT and WHY text |
| IndexNodes.IndexNode | backend/retrieval/index_6d_nodes.py:109-134 | `index_node` reports whether the index call accepted the node's document under its id |
| IndexNodes.IndexModule | backend/retrieval/index_6d_nodes.py:136-165 | the module ends initialised, and the count is the number of nodes whose document was accepted, at most the node count |
| IndexNodes.IndexAll | backend/retrieval/index_6d_nodes.py:156-158 | the loop counts exactly the accepted nodes |
| IndexNodes.IndexStep | backend/retrieval/index_6d_nodes.py:156-158 | one round counts the node exactly when its call succeeds |

## Left out

- Elasticsearch itself: the client is a parameter. `LegalBM25Search.search` (`EsSearch.Search`) takes a `Backend` function from the index, the request body and the size to the raw response, and indexing takes an `Indexer` function that accepts or rejects a document. The hybrid engine's `search_bm25` is not modelled: `HybridSearch.HybridSearch6D.Search` takes the ranked BM25 hits as an input sequence. The cluster, its mappings, its BM25 scoring and `indices.refresh` are not modelled.
- `get_stats` of `elasticsearch_search.py`: it reads the index statistics from the cluster and rounds the size in megabytes; only the client call and float rounding would be left to model.
- `delete_module_nodes` and `get_stats` of `index_6d_nodes.py`: the same.
- The language model calls of the conversational interface: the model's replies are string inputs, and the prompt text is not modelled.
- The web API layer, settings, logging, the demo scripts and the test scripts. Two test scenarios are restated as lemmas where they are cited in the table.
- The wall clock: every `datetime.now()` is an injected `now`, and one call reads it once for all its timestamps. Time zones are not modelled; datetimes are naive, with microseconds.
- Floating point: scores, weights, confidences and amounts are `real`, so rounding is not modelled. The two number formats of `_generate_explanation` (backend/retrieval/hybrid_search_6d.py:293 and 301) are the unconstrained parameters `fixed2` (Python's `:.2f`) and `percent2` (`:.2%`) of `HybridSearch.ExplanationParts`, `HybridSearch.Explanation` and `HybridSearch.GenerateExplanation`; no proved property depends on what they write.
- The regular expressions that classify questions and recognise courts: a `matches` predicate is a parameter, and the model fixes what is done with its answers (first pattern wins). The amount and time-period patterns are modelled exactly over ASCII text.
- The legal text of the fixture nodes: each node builder states the structure of its node and the pieces of text the reasoning tests. The remaining wording is carried through as given. Metadata descriptions are not modelled.
- `get_all_modules`, `get_statistics` and `__repr__` of the registry: they only copy or print the registry's maps.
- The `__str__` and `__repr__` of the node classes, except the IF-THEN and CAN/MUST renderings that the search text uses.
- LogicTree.LogicTreeModule.GetReasoningPath: proves only that the returned path is a valid path from the start to the goal. It does not prove the path is a shortest one, nor that an empty result means that no path exists.
- Conversational.ListOfSet: `list(set(...))` has an order Python does not fix. The model states the contents and that there are no duplicates, but leaves the order open.
- Order21.LoadNodes: states the shape of the tree and the pieces of text the reasoning uses, not every string of the fixture.
- Order5.LoadNodes: the same.
- Order14.LoadNodes: the same.
- Order21Costs.LoadNodes: the same.
- Order21.BuildRoot, Order5.BuildRoot, Order14.BuildRoot and Order21Costs.BuildRoot, and the other `Build…` node builders: each states the node's id, links, dimension sizes and the text facts the reasoning uses, not its whole text.
- Order21.Metadata: states the module id and the authority weight (plus, for the other modules, the sizes of the coverage lists), not the whole record.
- Order5.Metadata: the same.
- Order14.Metadata: the same.
- Order21Costs.Metadata: the same.
- Order21Costs.LoadCaseCitations: states that there are eleven cases, each with a non-empty citation and relevance, not their text.
- HybridSearch.Register: states the new modules map and that the registry stays consistent, not the contents of the registry's topic and keyword indexes.
- Text.Lower, Text.IsSpace and Text.IsDigit: only ASCII letters, digits and whitespace are treated as Python treats them. Python's `str.lower()`, `isdigit()`, `strip()`, `split()` and the regular expression classes `\d` and `\s` also act on other Unicode characters (full-width digits, the no-break space U+00A0); the model leaves those characters unchanged and never takes them for digits or spaces. The same holds for `QueryRouting.AmountOf`, `QueryRouting.TimePeriodOf`, `Conversational.IsListLine` and `Conversational.CleanQuestion`, which are built on them.
- AmountGroup: reads `[\d,]+` over ASCII digits only, so a run of other Unicode digits gives no amount where Python finds one.
- TimePeriodWitness: reads `\d+\s+` over ASCII digits and ASCII whitespace only, so "5\u00a0days" or a full-width "５ days" gives no time period where Python finds one.
- IsoDate.FromIsoFormat: reads only the two shapes `isoformat` writes (19 characters, or 26 with microseconds). Python's `fromisoformat` also accepts a bare date, a space separator, minutes without seconds, shorter fractions and offsets; the model gives `None` for those, so `SixDimensions.FromDict` fails on a dictionary carrying such a date. Every date the system itself reads back was written by `to_dict`, for which the round trip is proved.
- SixDimensions.FromDict: stricter than `from_dict` on value types. `from_dict` passes values into the dataclass unchecked, so a number as node id, `null` as `children_ids`, a list as `metadata` or a non-string proposition text still builds a node in Python; the model gives `Failure` for any value whose type differs from the one `LegalLogicNode` declares.

## Findings

| source | as written | input that shows it | evidently intended | confidence | as-written member | corrected member |
|---|---|---|---|---|---|---|
| backend/knowledge_graph/modules/order5_module.py:591-597 and backend/knowledge_graph/modules/order14_module.py:871-877 | `search` builds `SearchResult(node_id=..., score=...)`, but `SearchResult` has no such fields, so a TypeError is raised as soon as any node scores | the query "order" against either module | build the result with the dataclass's own fields (node, relevance score, matched dimensions) and rank the hits | not executed | RuleModules.SearchAsWritten, Order5.OrderQueryRaises | RuleModules.SearchNodes, Order5.Search, Order14.Search |
| backend/knowledge_graph/modules/order5_module.py:649-724 and backend/knowledge_graph/modules/order14_module.py:944-1016 | `reason` builds `ReasoningStep(..., confidence=...)` and `ReasoningResult(..., source_nodes=...)`, which those dataclasses do not accept, so every call raises a TypeError | any question, e.g. "Can the court order mediation?" | build the steps and the result with the dataclasses' fields and return the chain and the conclusion | not executed | RuleModules.ReasonAlwaysRaises, Order5.ReasonRaisesAtFirstStep, Order14.ReasonRaisesAtFirstStep | Order5.Reason, Order5.AnswerMeaning, Order14.Reason, Order14.AnswerMeaning |
| backend/knowledge_graph/modules/order5_module.py:697,738 and backend/knowledge_graph/modules/order14_module.py:989,1030 | the CAN/MUST step and the conclusion read `modality.exceptions`, an attribute `Modality` does not have (it has `conditions`); the CAN/MUST loop makes that read for every modality, whatever the question, so even once the dataclass calls above are fixed any question whose target holds a modality raises an AttributeError at that step, before the conclusion is reached; the conclusion's own read would raise for a must/have-to question whose target has a MUST or SHALL modality | "Is it my duty? Must I offer to settle?" against Order 5: its target is Rule 1, which holds a MUST modality | the CAN/MUST step shows the modality with its conditions, and the obligation answer is the capitalised action followed by " (when: …)" when it has conditions | not executed | RuleModules.ReasonAlwaysRaises, RuleModules.ExceptionsReadReach, RuleModules.ConclusionFailure | RuleModules.ObligationAnswer |
| backend/retrieval/hybrid_search_6d.py:211-217 | `reason_with_logic_tree` catches the errors of the modules above and returns no answer, so a question whose top BM25 hit is an Order 5 or Order 14 node never gets a logic-tree answer | any question whose top hit is a node of Order 5 | the module's reasoning result | not executed | HybridSearch.AsWrittenRuleModulesRaise, HybridSearch.TopRuleModuleGivesNone | HybridSearch.ReasonWithLogicTree |
