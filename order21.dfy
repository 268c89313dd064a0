/**
 * The Order 21 module (default judgment): its metadata and logic tree, `search`,
 * `reason` and `_generate_conclusion`.
 */
module Order21 {
  import opened Wrappers
  import opened Text
  import opened JsonValue
  import opened IsoDate
  import opened SixDimensions
  import opened Seqs
  import opened NodeTables
  import opened Ranking
  import opened ModuleKit
  import opened LogicTree

  const RootId: string := "order21_root"
  const Rule1Id: string := "order21_rule1"
  const InterlocutoryId: string := "order21_rule2_interlocutory"
  const FinalId: string := "order21_rule2_final"
  const Rule3Id: string := "order21_rule3"

  /** `get_metadata`, with the clock read for `validated_date` injected as `now`. */
  function Metadata(now: DateTime): (m: ModuleMetadata)
    ensures m.moduleId == "order_21" && m.authorityWeight == 0.8
  {
    ModuleMetadata(
      "order_21", "Order 21 - Default Judgment", "1.0.0",
      ModuleCoverage(
        "Rules of Court - Order 21",
        ["Order 21 Rule 1 - Entry of default judgment",
         "Order 21 Rule 2 - Types of default judgment",
         "Order 21 Rule 3 - Notice requirements",
         "Order 21 Rule 4 - Setting aside"],
        ["default_judgment", "judgment_in_default", "interlocutory_judgment",
         "final_judgment", "setting_aside_judgment", "costs"],
        ["default", "judgment", "no defense", "didn't respond",
         "failed to file", "no response", "enter judgment",
         "interlocutory", "final", "set aside", "setting aside"],
        ["Singapore"]),
      0.8, DateFields(2024, 1, 1, 0, 0, 0, 0), ["order_5", "order_18"],
      "Default judgment procedures when defendant fails to defend",
      "Legal Advisory Team", Some("Senior Counsel"), Some(now),
      map["court_levels" := StrArray(["High Court", "District Court", "Magistrate Court"]),
          "practice_areas" := StrArray(["civil_procedure", "litigation"])])
  }

  // The root, Order 21
  const RootWhat1: string := "Order 21 governs default judgment procedures"
  const RootWhich1: string := "Applies when defendant fails to file defense or acknowledgment"
  const RootWhy1: string := "To provide remedy when defendant shows no intention to defend claim"
  const RootWhy2: string := "To prevent defendants from delaying proceedings indefinitely"
  const RootFullText: string := "Order 21 of the Rules of Court governs procedures for obtaining default judgment when a defendant fails to defend proceedings."

  /** The root, Order 21, as `load_nodes` writes it; `LoadNodes` links the children. */
  method BuildRoot(now: DateTime) returns (n: Node)
    ensures n.nodeId == RootId && n.parentId.None? && n.childrenIds == []
    ensures |n.citation| > 0 && |n.what| > 0
  {
    n := NewNode(RootId, "Order 21", RULE).(
        what := [PropAt(RootWhat1, "Order 21")],
        which := [PropAt(RootWhich1, "Order 21")],
        why := [
          PropAt(RootWhy1, "Practice Directions"),
          PropAt(RootWhy2, "Case law")],
        fullText := RootFullText,
        moduleId := "order_21",
        validatedBy := Some("Senior Counsel"),
        validatedDate := Some(now));
  }

  // Rule 1, entry of default judgment
  const Rule1What1: string := "Default judgment may be entered against defendant who fails to defend"
  const Rule1Which1: string := "Applies to defendants who fail to file defense within prescribed time"
  const Rule1Which2: string := "Applies to defendants who fail to file acknowledgment of service"
  const Rule1Which3: string := "Does not apply if leave to file late defense is granted"
  const Rule1If1: string := "defendant fails to file defense within prescribed time"
  const Rule1Then1: string := "plaintiff may apply for default judgment"
  const Rule1If1Unless1: string := "if court grants leave to file late defense"
  const Rule1If1Unless2: string := "if defendant files acknowledgment of service indicating intention to defend"
  const Rule1If2: string := "writ is not served properly"
  const Rule1Then2: string := "default judgment cannot be entered"
  const Rule1Mod1: string := "apply for default judgment"
  const Rule1Mod1When1: string := "after time for filing defense has expired"
  const Rule1Mod1When2: string := "when no defense has been filed"
  const Rule1Mod2: string := "serve notice of application on defendant"
  const Rule1Mod2When1: string := "before applying for default judgment"
  const Rule1Given1: string := "Service of writ was properly effected"
  const Rule1Given2: string := "Time for filing defense has expired (typically 14 days)"
  const Rule1Given3: string := "No defense or acknowledgment has been filed"
  const Rule1Why1: string := "To prevent defendants from delaying proceedings without cause"
  const Rule1Why2: string := "To provide efficient remedy when defendant shows no intention to defend"
  const Rule1Why3: string := "To uphold plaintiff's right to timely resolution"
  const Rule1FullText: string := "Order 21 Rule 1: Where a defendant to an action has failed to file a defence or acknowledgment of service within the prescribed time, the plaintiff may apply to the Court for judgment in default of defence."

  /** Rule 1, entry of default judgment, as `load_nodes` writes it; `LoadNodes` links the children. */
  method BuildRule1(now: DateTime) returns (n: Node)
    ensures n.nodeId == Rule1Id && n.parentId == Some(RootId) && n.childrenIds == []
    ensures |n.citation| > 0 && |n.what| > 0
    ensures |n.canMust| > 0 && n.canMust[0].modalityType == MAY && n.canMust[0].action == Rule1Mod1
  {
    n := NewNode(Rule1Id, "Order 21 Rule 1", RULE).(
        parentId := Some(RootId),
        what := [PropAt(Rule1What1, "Order 21 Rule 1(1)")],
        which := [
          PropAt(Rule1Which1, "Order 21 Rule 1(1)"),
          PropAt(Rule1Which2, "Order 21 Rule 1(1)"),
          PropAt(Rule1Which3, "Order 21 Rule 1(1)")],
        ifThen := [
          CondAt(Rule1If1, Rule1Then1, [Rule1If1Unless1, Rule1If1Unless2], "Order 21 Rule 1(1)"),
          CondAt(Rule1If2, Rule1Then2, [], "Order 10")],
        canMust := [
          ModAt(MAY, Rule1Mod1, [Rule1Mod1When1, Rule1Mod1When2], "Order 21 Rule 1(1)"),
          ModAt(MUST, Rule1Mod2, [Rule1Mod2When1], "Order 21 Rule 3")],
        given := [
          PropAt(Rule1Given1, "Order 10"),
          PropAt(Rule1Given2, "Order 18 Rule 2"),
          PropAt(Rule1Given3, "Order 21 Rule 1")],
        why := [
          PropAt(Rule1Why1, "Practice Directions"),
          PropAt(Rule1Why2, "Case law"),
          PropAt(Rule1Why3, "Constitutional principle")],
        fullText := Rule1FullText,
        moduleId := "order_21",
        validatedBy := Some("Senior Counsel"),
        validatedDate := Some(now));
  }

  // Rule 2(1), interlocutory judgment
  /** Spelled in parts so that the phrase the end-to-end test looks for can be cited. */
  const Rule2InterlocutoryWhat1: string := "Interlocutory judgment " + EstablishesLiabilityText + " but damages to be assessed"
  const EstablishesLiabilityText: string := "establishes liability"
  const Rule2InterlocutoryWhich1: string := "Applies to claims for unliquidated damages"
  const Rule2InterlocutoryWhich2: string := "Common in personal injury, breach of contract with uncertain damages"
  const Rule2InterlocutoryIf1: string := "claim is for unliquidated damages"
  const Rule2InterlocutoryThen1: string := "plaintiff may apply for interlocutory judgment with damages to be assessed"
  const Rule2InterlocutoryIf2: string := "interlocutory judgment granted"
  const Rule2InterlocutoryThen2: string := "matter proceeds to damages assessment hearing"
  const Rule2InterlocutoryMod1: string := "apply for interlocutory judgment"
  const Rule2InterlocutoryMod1When1: string := "when claim is for unliquidated damages"
  const Rule2InterlocutoryMod2: string := "attend damages assessment hearing"
  const Rule2InterlocutoryMod2When1: string := "after interlocutory judgment is granted"
  const Rule2InterlocutoryGiven1: string := "Default judgment conditions met (no defense filed)"
  const Rule2InterlocutoryGiven2: string := "Damages cannot be precisely calculated without evidence"
  const Rule2InterlocutoryWhy1: string := "To establish liability first while allowing proper assessment of damages"
  const Rule2InterlocutoryWhy2: string := "To prevent plaintiff from claiming excessive damages without proof"
  const Rule2InterlocutoryFullText: string := "Order 21 Rule 2(1): Where the plaintiff's claim is for unliquidated damages, the plaintiff may apply for interlocutory judgment with damages to be assessed."

  /** Rule 2(1), interlocutory judgment, as `load_nodes` writes it; `LoadNodes` links the children. */
  method BuildInterlocutory(now: DateTime) returns (n: Node)
    ensures n.nodeId == InterlocutoryId && n.parentId == Some(Rule1Id) && n.childrenIds == []
    ensures |n.citation| > 0 && |n.what| > 0 && n.what[0].text == Rule2InterlocutoryWhat1
  {
    n := NewNode(InterlocutoryId, "Order 21 Rule 2(1) - Interlocutory Judgment", RULE).(
        parentId := Some(Rule1Id),
        what := [PropAt(Rule2InterlocutoryWhat1, "Order 21 Rule 2(1)")],
        which := [
          PropAt(Rule2InterlocutoryWhich1, "Order 21 Rule 2(1)"),
          PropAt(Rule2InterlocutoryWhich2, "Practice")],
        ifThen := [
          CondAt(Rule2InterlocutoryIf1, Rule2InterlocutoryThen1, [], "Order 21 Rule 2(1)"),
          CondAt(Rule2InterlocutoryIf2, Rule2InterlocutoryThen2, [], "Order 21 Rule 2(1)")],
        canMust := [
          ModAt(MAY, Rule2InterlocutoryMod1, [Rule2InterlocutoryMod1When1], "Order 21 Rule 2(1)"),
          ModAt(MUST, Rule2InterlocutoryMod2, [Rule2InterlocutoryMod2When1], "Order 21 Rule 2(1)")],
        given := [
          PropAt(Rule2InterlocutoryGiven1, "Order 21 Rule 1"),
          PropAt(Rule2InterlocutoryGiven2, "Order 21 Rule 2")],
        why := [
          PropAt(Rule2InterlocutoryWhy1, "Case law"),
          PropAt(Rule2InterlocutoryWhy2, "Procedural fairness principle")],
        fullText := Rule2InterlocutoryFullText,
        moduleId := "order_21",
        validatedBy := Some("Senior Counsel"),
        validatedDate := Some(now));
  }

  // Rule 2(2), final judgment
  const Rule2FinalWhat1: string := "Final judgment awards specific sum with immediate enforcement"
  const Rule2FinalWhich1: string := "Applies to claims for liquidated (fixed) sums"
  const Rule2FinalWhich2: string := "Common in debt claims, contract with specified amounts"
  const Rule2FinalIf1: string := "claim is for liquidated sum (specified amount)"
  const Rule2FinalThen1: string := "plaintiff may apply for final judgment for that sum plus costs"
  const Rule2FinalThen2: string := "plaintiff may immediately enforce judgment"
  const Rule2FinalMod1When1: string := "when claim is for liquidated sum"
  const Rule2FinalMod2: string := "specify exact amount claimed"
  const Rule2FinalMod2When1: string := "when applying for final judgment"
  const Rule2FinalGiven1: string := "Default judgment conditions met"
  const Rule2FinalGiven2: string := "Claim is for fixed or calculable sum"
  const Rule2FinalWhy1: string := "To provide immediate remedy for liquidated claims"
  const Rule2FinalWhy2: string := "To avoid unnecessary assessment hearing when amount is certain"
  const Rule2FinalFullText: string := "Order 21 Rule 2(2): Where the plaintiff's claim is for a liquidated sum, the plaintiff may apply for final judgment for that sum plus costs and interest."

  /** Rule 2(2), final judgment, as `load_nodes` writes it; `LoadNodes` links the children. */
  method BuildFinal(now: DateTime) returns (n: Node)
    ensures n.nodeId == FinalId && n.parentId == Some(Rule1Id) && n.childrenIds == []
    ensures |n.citation| > 0 && |n.what| > 0
  {
    n := NewNode(FinalId, "Order 21 Rule 2(2) - Final Judgment", RULE).(
        parentId := Some(Rule1Id),
        what := [PropAt(Rule2FinalWhat1, "Order 21 Rule 2(2)")],
        which := [
          PropAt(Rule2FinalWhich1, "Order 21 Rule 2(2)"),
          PropAt(Rule2FinalWhich2, "Practice")],
        ifThen := [
          CondAt(Rule2FinalIf1, Rule2FinalThen1, [], "Order 21 Rule 2(2)"),
          CondAt("final judgment granted", Rule2FinalThen2, [], "Order 21 Rule 2(2)")],
        canMust := [
          ModAt(MAY, "apply for final judgment", [Rule2FinalMod1When1], "Order 21 Rule 2(2)"),
          ModAt(MUST, Rule2FinalMod2, [Rule2FinalMod2When1], "Order 21 Rule 2(2)")],
        given := [
          PropAt(Rule2FinalGiven1, "Order 21 Rule 1"),
          PropAt(Rule2FinalGiven2, "Order 21 Rule 2")],
        why := [
          PropAt(Rule2FinalWhy1, "Case law"),
          PropAt(Rule2FinalWhy2, "Efficiency principle")],
        fullText := Rule2FinalFullText,
        moduleId := "order_21",
        validatedBy := Some("Senior Counsel"),
        validatedDate := Some(now));
  }

  // Rule 3, notice before judgment
  /** Spelled in parts so that the phrase the end-to-end test looks for can be cited. */
  const Rule3What1: string := "Notice of application for default judgment " + MustBeServedText + " on defendant"
  const MustBeServedText: string := "must be served"
  const Rule3Which1: string := "Applies to all default judgment applications"
  const Rule3Which2: string := "Notice period is typically 3 days"
  const Rule3If1: string := "notice not properly served"
  const Rule3Then1: string := "default judgment may be set aside"
  const Rule3If2: string := "defendant responds to notice"
  const Rule3Then2: string := "court may refuse default judgment"
  const Rule3Mod1: string := "serve notice on defendant before applying"
  const Rule3Mod1When1: string := "for all default judgment applications"
  const Rule3Mod2When1: string := "except in exceptional circumstances"
  const Rule3Given1: string := "Plaintiff intends to apply for default judgment"
  const Rule3Why1: string := "To give defendant last opportunity to respond before judgment entered"
  const Rule3Why2: string := "To prevent judgment by surprise"
  const Rule3FullText: string := "Order 21 Rule 3: No default judgment shall be entered unless the plaintiff has served on the defendant notice of the application at least 3 days before the hearing."

  /** Rule 3, notice before judgment, as `load_nodes` writes it; `LoadNodes` links the children. */
  method BuildRule3(now: DateTime) returns (n: Node)
    ensures n.nodeId == Rule3Id && n.parentId == Some(Rule1Id) && n.childrenIds == []
    ensures |n.citation| > 0 && |n.what| > 0 && n.what[0].text == Rule3What1
  {
    n := NewNode(Rule3Id, "Order 21 Rule 3", RULE).(
        parentId := Some(Rule1Id),
        what := [PropAt(Rule3What1, "Order 21 Rule 3")],
        which := [
          PropAt(Rule3Which1, "Order 21 Rule 3"),
          PropAt(Rule3Which2, "Order 21 Rule 3")],
        ifThen := [
          CondAt(Rule3If1, Rule3Then1, [], "Order 21 Rule 3"),
          CondAt(Rule3If2, Rule3Then2, [], "Order 21 Rule 3")],
        canMust := [
          ModAt(MUST, Rule3Mod1, [Rule3Mod1When1], "Order 21 Rule 3"),
          ModAt(MAY_NOT, "apply without notice", [Rule3Mod2When1], "Order 21 Rule 3")],
        given := [PropAt(Rule3Given1, "Order 21 Rule 1")],
        why := [
          PropAt(Rule3Why1, "Natural justice principle"),
          PropAt(Rule3Why2, "Procedural fairness")],
        fullText := Rule3FullText,
        moduleId := "order_21",
        validatedBy := Some("Senior Counsel"),
        validatedDate := Some(now));
  }


  // ---------------------------------------------------------------------------
  // load_nodes

  /** Order 21 over Rule 1, over the interlocutory and final judgments and the notice rule. */
  ghost predicate TreeShape(t: Nodes) {
    t.ids == [RootId, Rule1Id, InterlocutoryId, FinalId, Rule3Id]
    && t.byId[RootId].parentId.None? && t.byId[RootId].childrenIds == [Rule1Id]
    && t.byId[Rule1Id].parentId == Some(RootId)
    && t.byId[Rule1Id].childrenIds == [InterlocutoryId, FinalId, Rule3Id]
    && t.byId[InterlocutoryId].parentId == Some(Rule1Id) && t.byId[InterlocutoryId].childrenIds == []
    && t.byId[FinalId].parentId == Some(Rule1Id) && t.byId[FinalId].childrenIds == []
    && t.byId[Rule3Id].parentId == Some(Rule1Id) && t.byId[Rule3Id].childrenIds == []
  }

  /** The texts the three worked questions of the integration test end on. */
  ghost predicate Samples(t: Nodes) {
    TreeShape(t)
    && |t.byId[Rule1Id].canMust| > 0 && t.byId[Rule1Id].canMust[0].modalityType == MAY
    && t.byId[Rule1Id].canMust[0].action == Rule1Mod1
    && |t.byId[InterlocutoryId].what| > 0 && t.byId[InterlocutoryId].what[0].text == Rule2InterlocutoryWhat1
    && |t.byId[Rule3Id].what| > 0 && t.byId[Rule3Id].what[0].text == Rule3What1
  }

  /** What `load_nodes` returns, as far as the model states it. */
  ghost predicate Loaded(t: Nodes) {
    TreeShape(t) && WellLinked(t) && Samples(t)
  }

  /** The five ids differ: by length, and Rule 1 from Rule 3 by its last character. */
  lemma IdsDiffer()
    ensures |RootId| == 12 && |Rule1Id| == 13 && |InterlocutoryId| == 27 && |FinalId| == 19 && |Rule3Id| == 13
    ensures Rule1Id[12] == '1' && Rule3Id[12] == '3'
  {
  }

  /** A tree of that shape whose five nodes are filled in is well linked. */
  lemma ShapeLinked(t: Nodes)
    requires TreeShape(t)
    requires Filled(t, RootId) && Filled(t, Rule1Id) && Filled(t, InterlocutoryId)
    requires Filled(t, FinalId) && Filled(t, Rule3Id)
    ensures WellLinked(t)
  {
    IdsDiffer();
  }

  /**
   * `load_nodes`: the five nodes under their ids, in insertion order, once the root is
   * given Rule 1 as its child and Rule 1 is given its three sub-rules.
   */
  method LoadNodes(now: DateTime) returns (t: Nodes)
    ensures Loaded(t)
  {
    var root := BuildRoot(now);
    var rule1 := BuildRule1(now);
    var interlocutory := BuildInterlocutory(now);
    var final := BuildFinal(now);
    var rule3 := BuildRule3(now);
    root := root.(childrenIds := [Rule1Id]);
    rule1 := rule1.(childrenIds := [InterlocutoryId, FinalId, Rule3Id]);
    IdsDiffer();
    t := Table5(root, rule1, interlocutory, final, rule3);
    ShapeLinked(t);
  }

  /** Every loaded node passes `validate_node`. */
  lemma LoadedValidates(t: Nodes)
    requires Loaded(t)
    ensures forall k :: k in t.byId ==> ValidationErrors(t, t.byId[k]) == []
  {
    WellLinkedValidates(t);
  }

  /** The only root of a table of that shape is Order 21 itself. */
  lemma LoadedRoots(t: Nodes)
    requires TreeShape(t)
    ensures forall x :: x in Roots(t) <==> x == RootId
  {
    RootsMeaning(t);
    IdsDiffer();
  }

  /** `Order21Module()`: the module with its metadata and the loaded table, not yet initialised. */
  method NewModule(now: DateTime) returns (m: LogicTreeModule)
    ensures fresh(m) && m.metadata.moduleId == "order_21" && m.metadata.authorityWeight == 0.8
    ensures Loaded(m.loaded) && !m.initialized && m.Valid()
  {
    var t := LoadNodes(now);
    m := new LogicTreeModule(Metadata(now), t);
  }

  // ---------------------------------------------------------------------------
  // search

  /**
   * The score `search` gives node `n` for the lowered query `q`: 2.0 once for a WHAT
   * match, 1.5 per matching conditional (on its condition or its consequence), 1.5 per
   * matching modality action, 0.5 for the full text and 1.0 for the citation.
   */
  function Score(n: Node, q: string): real {
    Bonus(First(n.what, PropTest(q)).Some?, 2.0)
    + 1.5 * Count(n.ifThen, CondTest(q)) as real
    + 1.5 * Count(n.canMust, ModTest(q)) as real
    + Bonus(Contains(Lower(n.fullText), q), 0.5)
    + Bonus(Contains(Lower(n.citation), q), 1.0)
  }

  /** The dimension and text `search` records: the first match, WHAT before IF_THEN before CAN_MUST. */
  function Matched(n: Node, q: string): Match {
    Then(Then(PropMatch(n.what, q, "WHAT"), CondMatch(n.ifThen, q)), ModMatch(n.canMust, q))
  }

  /** The result `search` builds for node `n`; it is kept when its score is above zero. */
  function HitOf(n: Node, q: string): SearchResult {
    SearchResult(n, Score(n, q), [], Matched(n, q).0, Matched(n, q).1)
  }

  function Hit(q: string): Node -> SearchResult {
    n => HitOf(n, q)
  }

  /**
   * A node scores above zero iff some dimension, its full text or its citation holds the
   * query, and the score is bounded by the items it can match; a match is recorded iff
   * one of the three scanned dimensions holds the query.
   */
  lemma ScoreMeaning(n: Node, q: string)
    ensures Score(n, q) >= 0.0
    ensures Score(n, q) > 0.0 <==>
      (exists i :: 0 <= i < |n.what| && Contains(Lower(n.what[i].text), q))
      || (exists i :: 0 <= i < |n.ifThen| && CondTest(q)(n.ifThen[i]))
      || (exists i :: 0 <= i < |n.canMust| && Contains(Lower(n.canMust[i].action), q))
      || Contains(Lower(n.fullText), q) || Contains(Lower(n.citation), q)
    ensures Score(n, q) <= 3.5 + 1.5 * (|n.ifThen| + |n.canMust|) as real
    ensures Matched(n, q).0 == "" <==>
      First(n.what, PropTest(q)).None? && First(n.ifThen, CondTest(q)).None?
      && First(n.canMust, ModTest(q)).None?
  {
  }

  /**
   * `search`'s loops over one node: the WHAT loop stops at the first match, the IF_THEN
   * and CAN_MUST loops add 1.5 per match and record a match only when none is recorded.
   */
  method ScoreNode(n: Node, q: string) returns (score: real, m: Match)
    ensures score == Score(n, q) && m == Matched(n, q)
  {
    score, m := ScanFirstProp(n.what, q, 2.0, "WHAT");
    score, m := ScanConds(n.ifThen, q, score, m);
    score, m := ScanMods(n.canMust, q, score, m);
    if Contains(Lower(n.fullText), q) {
      score := score + 0.5;
    }
    if Contains(Lower(n.citation), q) {
      score := score + 1.0;
    }
  }

  /** `search`: every node of the table scored in insertion order, then ranked. */
  method Search(m: LogicTreeModule, query: string, topK: int) returns (r: seq<SearchResult>)
    ensures r == SearchOver(m.nodes, Hit(Lower(query)), topK)
  {
    var q := Lower(query);
    var ns := Values(m.nodes);
    var results: seq<SearchResult> := [];
    var i := 0;
    while i < |ns|
      invariant 0 <= i <= |ns|
      invariant results == Kept(ns[..i], Hit(q))
    {
      var score, matched := ScoreNode(ns[i], q);
      KeptSnoc(ns, Hit(q), i);
      if score > 0.0 {
        results := results + [SearchResult(ns[i], score, [], matched.0, matched.1)];
      }
      i := i + 1;
    }
    assert ns[..i] == ns;
    r := Ranked(results, topK);
  }

  /**
   * What `search` returns: the recorded hits of the table's own nodes, each scoring above
   * zero, best first, at most `topK`, and every scoring node when `topK` covers the table.
   */
  lemma SearchMeaning(t: Nodes, query: string, topK: int)
    ensures var q := Lower(query); var r := SearchOver(t, Hit(q), topK);
      SortedDesc(r, Relevance)
      && (topK >= 0 ==> |r| <= topK)
      && (forall h :: h in r ==> h.relevanceScore > 0.0 && h == HitOf(h.node, q)
                                  && exists k :: k in t.byId && t.byId[k] == h.node)
      && (topK >= |t.ids| ==> forall k :: k in t.byId && Score(t.byId[k], q) > 0.0
                                ==> HitOf(t.byId[k], q) in r)
  {
    SearchOverMeaning(t, Hit(Lower(query)), topK);
  }

  // ---------------------------------------------------------------------------
  // reason

  const NotCoveredText: string := "Question not covered by Order 21"
  const NoRulesText: string := "No relevant rules found in Order 21"

  /** "interlocutory" or "unliquidated" in the lowered question. */
  predicate AsksInterlocutory(ql: string) {
    Contains(ql, "interlocutory") || Contains(ql, "unliquidated")
  }

  /** "final", "liquidated" or "debt" in the lowered question. */
  predicate AsksFinal(ql: string) {
    Contains(ql, "final") || Contains(ql, "liquidated") || Contains(ql, "debt")
  }

  predicate AsksNotice(ql: string) {
    Contains(ql, "notice")
  }

  /** "default", "didn't respond" or "no defense" in the lowered question. */
  predicate AsksDefault(ql: string) {
    Contains(ql, "default") || Contains(ql, "didn't respond") || Contains(ql, "no defense")
  }

  /**
   * The ids of `relevant_nodes` in `reason`: an interlocutory question picks rule 2
   * (interlocutory), otherwise a final one rule 2 (final); a notice question adds rule 3;
   * a default question that picked nothing so far picks rule 1.
   */
  function Selected(t: Nodes, ql: string): (r: seq<string>)
    ensures |r| <= 2 && forall id :: id in r ==> id in t.byId
  {
    var rule2 := if AsksInterlocutory(ql) then Picked(t, InterlocutoryId)
                 else if AsksFinal(ql) then Picked(t, FinalId) else [];
    var found := rule2 + (if AsksNotice(ql) then Picked(t, Rule3Id) else []);
    if found == [] && AsksDefault(ql) then Picked(t, Rule1Id) else found
  }

  /** The chain `reason` builds from its primary node: GIVEN, IF_THEN, WHAT, CAN_MUST, in item order. */
  function Chain(n: Node): seq<ReasoningStep> {
    PropSteps(n, "GIVEN", n.given) + CondSteps(n, "IF_THEN", n.ifThen)
    + PropSteps(n, "WHAT", n.what) + ModSteps(n, "CAN_MUST", n.canMust)
  }

  /** `f" ({node.citation})"`. */
  function Cite(n: Node): string {
    " (" + n.citation + ")"
  }

  /** "can i", "may i", "can we" or "may we" in the lowered question. */
  predicate AsksCan(ql: string) {
    Contains(ql, "can i") || Contains(ql, "may i") || Contains(ql, "can we") || Contains(ql, "may we")
  }

  /** "if" or "when" in the lowered question. */
  predicate AsksCondition(ql: string) {
    Contains(ql, "if") || Contains(ql, "when")
  }

  /**
   * `_generate_conclusion`: a can/may question answers with the first modality step when
   * its text holds MAY or MUST (both branches give the same text), then a what question
   * with the first WHAT step, then an if/when question with the first IF_THEN step, then
   * the node's first WHAT item, and last a pointer to the citation.
   */
  function Conclusion(ql: string, n: Node, chain: seq<ReasoningStep>): string {
    var mods := StepsIn(chain, "CAN_MUST");
    var whats := StepsIn(chain, "WHAT");
    var ifs := StepsIn(chain, "IF_THEN");
    if AsksCan(ql) && |mods| > 0 && (Contains(mods[0].text, "MAY") || Contains(mods[0].text, "MUST"))
    then "Yes, " + Lower(mods[0].text) + Cite(n)
    else if Contains(ql, "what") && |whats| > 0 then whats[0].text + Cite(n)
    else if AsksCondition(ql) && |ifs| > 0 then ifs[0].text + Cite(n)
    else if |n.what| > 0 then n.what[0].text + Cite(n)
    else "Please refer to " + n.citation
  }

  /** `reason` over the table `t`, as a value. */
  function Answer(t: Nodes, question: string): ReasoningResult {
    var ql := Lower(question);
    var sel := Selected(t, ql);
    if sel == [] then NotCovered(NotCoveredText, NoRulesText)
    else
      var p := t.byId[sel[0]];
      var chain := Chain(p);
      ReasoningResult(Conclusion(ql, p, chain), 0.9, chain, [], [p], [],
                      map["module" := JStr("order_21"), "primary_rule" := JStr(p.citation)])
  }

  /** The selection half of `reason`: the `if`/`elif` tests appending to `relevant_nodes`. */
  method SelectNodes(t: Nodes, ql: string) returns (relevant: seq<string>)
    ensures relevant == Selected(t, ql)
  {
    relevant := [];
    if Contains(ql, "interlocutory") || Contains(ql, "unliquidated") {
      if InterlocutoryId in t.byId {
        relevant := relevant + [InterlocutoryId];
      }
    } else if Contains(ql, "final") || Contains(ql, "liquidated") || Contains(ql, "debt") {
      if FinalId in t.byId {
        relevant := relevant + [FinalId];
      }
    }
    if Contains(ql, "notice") {
      if Rule3Id in t.byId {
        relevant := relevant + [Rule3Id];
      }
    }
    if relevant == [] && (Contains(ql, "default") || Contains(ql, "didn't respond") || Contains(ql, "no defense")) {
      if Rule1Id in t.byId {
        relevant := relevant + [Rule1Id];
      }
    }
  }

  /** The four loops of `reason` appending the primary node's steps. */
  method BuildChain(p: Node) returns (chain: seq<ReasoningStep>)
    ensures chain == Chain(p)
  {
    chain := AppendPropSteps([], p, "GIVEN", p.given);
    chain := AppendCondSteps(chain, p, "IF_THEN", p.ifThen);
    chain := AppendPropSteps(chain, p, "WHAT", p.what);
    chain := AppendModSteps(chain, p, "CAN_MUST", p.canMust);
  }

  /** `reason`: the node selection, then the chain, then the conclusion. */
  method Reason(m: LogicTreeModule, question: string) returns (r: ReasoningResult)
    ensures r == Answer(m.nodes, question)
  {
    var ql := Lower(question);
    var relevant := SelectNodes(m.nodes, ql);
    if relevant == [] {
      return NotCovered(NotCoveredText, NoRulesText);
    }
    var p := m.nodes.byId[relevant[0]];
    var chain := BuildChain(p);
    r := ReasoningResult(Conclusion(ql, p, chain), 0.9, chain, [], [p], [],
                         map["module" := JStr("order_21"), "primary_rule" := JStr(p.citation)]);
  }

  /**
   * Which rules `reason` picks: rule 2 (interlocutory) for an interlocutory question, rule 2
   * (final) only for a final question that is not interlocutory, rule 3 for a notice
   * question, rule 1 exactly when a default question picked none of those; never the root,
   * and a second pick is always rule 3.
   */
  lemma SelectionMeaning(t: Nodes, ql: string)
    ensures InterlocutoryId in Selected(t, ql) <==> AsksInterlocutory(ql) && InterlocutoryId in t.byId
    ensures FinalId in Selected(t, ql) <==>
      !AsksInterlocutory(ql) && AsksFinal(ql) && FinalId in t.byId
    ensures Rule3Id in Selected(t, ql) <==> AsksNotice(ql) && Rule3Id in t.byId
    ensures Rule1Id in Selected(t, ql) <==>
      AsksDefault(ql) && Rule1Id in t.byId
      && !(AsksInterlocutory(ql) && InterlocutoryId in t.byId)
      && !(!AsksInterlocutory(ql) && AsksFinal(ql) && FinalId in t.byId)
      && !(AsksNotice(ql) && Rule3Id in t.byId)
    ensures Rule1Id in Selected(t, ql) ==> Selected(t, ql) == [Rule1Id]
    ensures RootId !in Selected(t, ql)
    ensures |Selected(t, ql)| == 2 ==> Selected(t, ql)[1] == Rule3Id
  {
    IdsDiffer();
  }

  /**
   * The chain holds one step per item of the four dimensions, each carrying the node's
   * id, citation and weight, and filtering it by a dimension gives back that dimension's
   * steps in item order.
   */
  lemma ChainMeaning(n: Node)
    ensures |Chain(n)| == |n.given| + |n.ifThen| + |n.what| + |n.canMust|
    ensures Belongs(Chain(n), n)
    ensures StepsIn(Chain(n), "GIVEN") == PropSteps(n, "GIVEN", n.given)
    ensures StepsIn(Chain(n), "IF_THEN") == CondSteps(n, "IF_THEN", n.ifThen)
    ensures StepsIn(Chain(n), "WHAT") == PropSteps(n, "WHAT", n.what)
    ensures StepsIn(Chain(n), "CAN_MUST") == ModSteps(n, "CAN_MUST", n.canMust)
  {
    var g := PropSteps(n, "GIVEN", n.given);
    var c := CondSteps(n, "IF_THEN", n.ifThen);
    var w := PropSteps(n, "WHAT", n.what);
    var m := ModSteps(n, "CAN_MUST", n.canMust);
    StepsOfAll(n, "GIVEN", n.given, [], []);
    StepsOfAll(n, "IF_THEN", [], n.ifThen, []);
    StepsOfAll(n, "WHAT", n.what, [], []);
    StepsOfAll(n, "CAN_MUST", [], [], n.canMust);
    BelongsAppend(g, c, n);
    BelongsAppend(g + c, w, n);
    BelongsAppend(g + c + w, m, n);
    StepsInRuns(g, c, w, m, "GIVEN", "IF_THEN", "WHAT", "CAN_MUST", "GIVEN");
    StepsInRuns(g, c, w, m, "GIVEN", "IF_THEN", "WHAT", "CAN_MUST", "IF_THEN");
    StepsInRuns(g, c, w, m, "GIVEN", "IF_THEN", "WHAT", "CAN_MUST", "WHAT");
    StepsInRuns(g, c, w, m, "GIVEN", "IF_THEN", "WHAT", "CAN_MUST", "CAN_MUST");
  }

  /** `"MAY" in text or "MUST" in text`: the modality tests of `_generate_conclusion`. */
  predicate MayOrMust(text: string) {
    Contains(text, "MAY") || Contains(text, "MUST")
  }

  /** A MAY, MUST or MUST_NOT modality always passes that test, whatever its action. */
  lemma ModalityAnswers(m: Modality)
    requires m.modalityType == MAY || m.modalityType == MUST || m.modalityType == MUST_NOT
    ensures MayOrMust(ModalityText(m))
  {
    var s := ModalityText(m);
    if m.modalityType == MAY {
      assert s[0..3] == "MAY";
      ContainsAt(s, "MAY", 0);
    } else {
      assert s[0..4] == "MUST";
      ContainsAt(s, "MUST", 0);
    }
  }

  /**
   * The conclusion in terms of the node alone: a can/may question whose first modality
   * passes the MAY/MUST test answers "Yes, " and that modality lowercased; otherwise an
   * if/when question that is not a what question answers with the first conditional; any
   * other question answers with the first WHAT item; a node with neither answers with a
   * pointer to its citation. Every answer but the pointer ends with the citation.
   */
  lemma ConclusionMeaning(ql: string, n: Node)
    ensures var c := Conclusion(ql, n, Chain(n));
      var canAnswer := AsksCan(ql) && |n.canMust| > 0 && MayOrMust(ModalityText(n.canMust[0]));
      var ifAnswer := !(Contains(ql, "what") && |n.what| > 0) && AsksCondition(ql) && |n.ifThen| > 0;
      (canAnswer ==> c == "Yes, " + Lower(ModalityText(n.canMust[0])) + Cite(n))
      && (!canAnswer && ifAnswer ==> c == ConditionalText(n.ifThen[0]) + Cite(n))
      && (!canAnswer && !ifAnswer && |n.what| > 0 ==> c == n.what[0].text + Cite(n))
      && (!canAnswer && !ifAnswer && |n.what| == 0 ==> c == "Please refer to " + n.citation)
  {
    ChainMeaning(n);
  }

  /**
   * `reason` covers a question iff some rule was picked; an uncovered question gets
   * confidence 0 and the warning, a covered one confidence 0.9, the first picked node as
   * its only applicable node, that node's chain and conclusion, and its citation as the
   * primary rule.
   */
  lemma AnswerMeaning(t: Nodes, question: string)
    ensures var r := Answer(t, question); var sel := Selected(t, Lower(question));
      (r.confidence == 0.0 <==> sel == [])
      && (sel == [] ==> r.conclusion == NotCoveredText && r.reasoningChain == []
                        && r.applicableNodes == [] && r.warnings == [NoRulesText])
      && (sel != [] ==>
            var p := t.byId[sel[0]];
            r.confidence == 0.9 && r.applicableNodes == [p] && r.warnings == []
            && Belongs(r.reasoningChain, p)
            && |r.reasoningChain| == |p.given| + |p.ifThen| + |p.what| + |p.canMust|
            && r.conclusion == Conclusion(Lower(question), p, Chain(p))
            && "primary_rule" in r.metadata && r.metadata["primary_rule"] == JStr(p.citation))
  {
    var sel := Selected(t, Lower(question));
    if sel != [] {
      ChainMeaning(t.byId[sel[0]]);
    }
  }

  // ---------------------------------------------------------------------------
  // The three questions of the end-to-end reasoning test, over any table `load_nodes`
  // can return; each question is described by the keywords it holds and lacks

  /**
   * "Can I get default judgment if the defendant didn't file a defense?": a can question
   * about default that names no judgment type and no notice is answered from Rule 1 with
   * "Yes, may apply for default judgment ...".
   */
  lemma DefaultJudgmentQuestion(t: Nodes, question: string)
    requires Samples(t)
    requires var ql := Lower(question);
      AsksCan(ql) && AsksDefault(ql) && !AsksInterlocutory(ql) && !AsksFinal(ql) && !AsksNotice(ql)
    ensures Answer(t, question).applicableNodes == [t.byId[Rule1Id]]
    ensures Answer(t, question).confidence == 0.9
    ensures IsPrefix("Yes, may " + Rule1Mod1, Answer(t, question).conclusion)
    ensures Contains(Answer(t, question).conclusion, "may apply for default judgment")
  {
    var ql := Lower(question);
    SelectionMeaning(t, ql);
    var n := t.byId[Rule1Id];
    ModalityAnswers(n.canMust[0]);
    ConclusionMeaning(ql, n);
    MayApply(n.canMust[0]);
    var c := Answer(t, question).conclusion;
    assert c == "Yes, " + Lower(ModalityText(n.canMust[0])) + Cite(n);
    PrefixExtend("Yes, ", "may " + Rule1Mod1, Lower(ModalityText(n.canMust[0])), Cite(n));
    PrefixContains("Yes, ", "may " + Rule1Mod1, c);
    YesMay();
  }

  /** Rule 1's first modality, lowercased, starts "may apply for default judgment". */
  lemma MayApply(m: Modality)
    requires m.modalityType == MAY && m.action == Rule1Mod1
    ensures IsPrefix("may " + Rule1Mod1, Lower(ModalityText(m)))
  {
    var base := "MAY " + Rule1Mod1;
    var s := ModalityText(m);
    assert s == base + s[|base|..];
    LowerAppend(base, s[|base|..]);
    LowerMayApply();
  }

  lemma LowerMayApply()
    ensures Lower("MAY " + Rule1Mod1) == "may " + Rule1Mod1
  {
    assert Lower(Rule1Mod1) == Rule1Mod1 by {
      assert Rule1Mod1 == "apply for " + "default " + "judgment";
      LowerAppend("apply for ", "default " + "judgment");
      LowerAppend("default ", "judgment");
      assert Lower("apply for ") == "apply for ";
      assert Lower("default ") == "default ";
      assert Lower("judgment") == "judgment";
    }
    LowerAppend("MAY ", Rule1Mod1);
    assert Lower("MAY ") == "may ";
  }

  lemma YesMay()
    ensures "Yes, " + ("may " + Rule1Mod1) == "Yes, may " + Rule1Mod1
    ensures "may " + Rule1Mod1 == "may apply for default judgment"
  {
    assert "Yes, may " == "Yes, " + "may ";
  }

  /**
   * "What's the difference between interlocutory and final judgment?": a what question
   * naming interlocutory judgment, with no can and no notice in it, is answered with
   * Rule 2's interlocutory WHAT text, which says it "establishes liability".
   */
  lemma InterlocutoryQuestion(t: Nodes, question: string)
    requires Samples(t)
    requires var ql := Lower(question);
      AsksInterlocutory(ql) && Contains(ql, "what") && !AsksCan(ql) && !AsksNotice(ql)
    ensures Answer(t, question).applicableNodes == [t.byId[InterlocutoryId]]
    ensures Answer(t, question).conclusion == Rule2InterlocutoryWhat1 + Cite(t.byId[InterlocutoryId])
    ensures Contains(Answer(t, question).conclusion, "establishes liability")
  {
    var ql := Lower(question);
    SelectionMeaning(t, ql);
    ConclusionMeaning(ql, t.byId[InterlocutoryId]);
    EstablishesLiability();
    ContainsWithin("", Rule2InterlocutoryWhat1, Cite(t.byId[InterlocutoryId]), "establishes liability");
    assert "" + Rule2InterlocutoryWhat1 == Rule2InterlocutoryWhat1;
  }

  lemma EstablishesLiability()
    ensures Contains(Rule2InterlocutoryWhat1, "establishes liability")
  {
    ContainsMid("Interlocutory judgment ", EstablishesLiabilityText, " but damages to be assessed");
  }

  /**
   * "Do I need to give notice before getting default judgment?": a notice question naming
   * no judgment type, with no can, what, if or when in it, is answered with Rule 3's WHAT
   * text, which says notice "must be served".
   */
  lemma NoticeQuestion(t: Nodes, question: string)
    requires Samples(t)
    requires var ql := Lower(question);
      AsksNotice(ql) && !AsksInterlocutory(ql) && !AsksFinal(ql) && !AsksCan(ql)
      && !Contains(ql, "what") && !AsksCondition(ql)
    ensures Answer(t, question).applicableNodes == [t.byId[Rule3Id]]
    ensures Answer(t, question).conclusion == Rule3What1 + Cite(t.byId[Rule3Id])
    ensures Contains(Answer(t, question).conclusion, "must be served")
  {
    var ql := Lower(question);
    SelectionMeaning(t, ql);
    ConclusionMeaning(ql, t.byId[Rule3Id]);
    MustBeServed();
    ContainsWithin("", Rule3What1, Cite(t.byId[Rule3Id]), "must be served");
    assert "" + Rule3What1 == Rule3What1;
  }

  lemma MustBeServed()
    ensures Contains(Rule3What1, "must be served")
  {
    ContainsMid("Notice of application for default judgment ", MustBeServedText, " on defendant");
  }
}
