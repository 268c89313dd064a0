/**
 * The Order 5 module (amicable resolution): its metadata and logic tree, `search`,
 * `reason` and `_generate_conclusion`. `reason` and `search` are modelled both as the
 * code evidently intends them, over the result dataclasses' own fields, and as written,
 * where every `reason` raises and `search` raises once a node scores.
 */
module Order5 {
  import opened Wrappers
  import opened Text
  import opened IsoDate
  import opened SixDimensions
  import opened NodeTables
  import opened Ranking
  import opened ModuleKit
  import opened LogicTree
  import opened RuleModules

  const RootId: string := "order5_root"
  const Rule1Id: string := "order5_rule1"
  const Rule2Id: string := "order5_rule2"
  const Rule3Id: string := "order5_rule3"

  /** `get_metadata`: the module's routing metadata; it has no validation date. */
  function Metadata(): (m: ModuleMetadata)
    ensures m.moduleId == "order_5" && m.authorityWeight == 0.8 && m.validatedDate.None?
    ensures |m.coverage.sections| == 3 && m.coverage.jurisdictions == ["Singapore"]
  {
    ModuleMetadata(
      "order_5", "Order 5 - Amicable Resolution", "1.0.0",
      ModuleCoverage(
        "Rules of Court - Order 5",
        ["Order 5 Rule 1 - Duty to consider amicable resolution",
         "Order 5 Rule 2 - Terms of amicable resolution",
         "Order 5 Rule 3 - Powers of Court"],
        ["amicable_resolution", "adr", "settlement", "mediation", "offer_to_settle", "without_prejudice"],
        ["amicable resolution", "settle", "settlement", "ADR",
         "alternative dispute resolution", "mediation", "offer",
         "without prejudice", "reasonable grounds", "sealed document"],
        ["Singapore"]),
      0.8, DateFields(2021, 12, 1, 0, 0, 0, 0), [],
      "Duty to consider amicable resolution and ADR procedures",
      "", None, None, map[])
  }

  // The root, Order 5
const RootWhat1: string := "Order 5 governs the duty to consider amicable resolution of disputes"
  const RootWhich1: string := "Applies to all parties to any proceedings (actions or appeals)"
  const RootIf1: string := "party to any proceedings"
  const RootThen1: string := "duty to consider amicable resolution applies"
  const RootMod1: string := "consider amicable resolution before and during proceedings"
  const RootMod1When1: string := "party to any proceedings"
  const RootGiven1: string := "Dispute exists between parties"
  const RootWhy1: string := "To promote early settlement and reduce litigation costs"
  const RootWhy2: string := "To encourage parties to resolve disputes amicably"

  /** The root, Order 5, as `load_nodes` writes it. */
  method BuildRoot() returns (n: Node)
    ensures n.nodeId == RootId && n.parentId.None? && n.childrenIds == [Rule1Id, Rule2Id, Rule3Id]
    ensures |n.citation| > 0 && |n.given| > 0 && |n.what| > 0 && n.what[0].text == RootWhat1
  {
    n := NewNode(RootId, "Order 5 - Amicable Resolution", RULE).(
        childrenIds := [Rule1Id, Rule2Id, Rule3Id],
        what := [Proposition(RootWhat1, 1.0, Some("Order 5"), map[])],
        which := [Proposition(RootWhich1, 1.0, Some("Order 5, r. 1(1)"), map[])],
        ifThen := [Conditional(RootIf1, RootThen1, [], 1.0, Some("Order 5, r. 1(1)"), map[])],
        canMust := [Modality(RootMod1, MUST, [RootMod1When1], 1.0, Some("Order 5, r. 1(1)"), map[])],
        given := [Proposition(RootGiven1, 1.0, None, map[])],
        why := [
          Proposition(RootWhy1, 0.95, None, map[]),
          Proposition(RootWhy2, 0.95, None, map[])],
        moduleId := "order_5");
  }

  // Rule 1, the duty to consider amicable resolution
  const Rule1What1: string := "Party to any proceedings has duty to consider amicable " + "resolution before commencement and during course of action or " + "appeal"
  const Rule1What2: string := "Offer of amicable resolution means offer to settle or resolve " + "dispute other than by litigation"
  const Rule1Which1: string := "Applies to all parties to any proceedings (actions and appeals)"
  const Rule1Which2: string := "Applies whether dispute resolved in whole or in part"
  const Rule1If1: string := "party is commencing action"
  const Rule1Then1: string := "party is to make offer of amicable resolution"
  const Rule1If2: string := "party receives offer of amicable resolution"
  const Rule1Then2: string := "party must not reject offer"
  const Rule1Mod1: string := "consider amicable resolution before commencement and during proceedings"
  const Rule1Mod1When1: string := "party to any proceedings"
  const Rule1Mod2: string := "make offer of amicable resolution before commencing action"
  const Rule1Mod2When1: string := "commencing action"
  const Rule1Mod3: string := "reject offer of amicable resolution"
  const Rule1Mod3When1: string := "received offer"
  const Rule1Given1: string := "Dispute exists between parties"
  const Rule1Given2: string := "Proceedings are being commenced or are ongoing"
  const Rule1Why1: string := "To encourage early settlement before costly litigation"
  const Rule1Why2: string := "To reduce court caseload and promote access to justice"
  const Rule1Why3: string := "To preserve business relationships through amicable resolution"

  /** Rule 1, the duty to consider amicable resolution, as `load_nodes` writes it. */
  method BuildRule1() returns (n: Node)
    ensures n.nodeId == Rule1Id && n.parentId == Some(RootId) && n.childrenIds == []
    ensures |n.citation| > 0 && |n.given| > 0 && |n.what| > 0
    ensures |n.canMust| > 0 && n.canMust[0].modalityType == MUST && n.canMust[0].action == Rule1Mod1
    ensures n.canMust[0].conditions == [Rule1Mod1When1]
  {
    n := NewNode(Rule1Id, "Order 5 Rule 1 - Duty to consider amicable resolution", RULE).(
        parentId := Some(RootId),
        what := [
          Proposition(Rule1What1, 1.0, Some("Order 5, r. 1(1)"), map[]),
          Proposition(Rule1What2, 1.0, Some("Order 5, r. 1(3)"), map[])],
        which := [
          Proposition(Rule1Which1, 1.0, Some("Order 5, r. 1(1)"), map[]),
          Proposition(Rule1Which2, 1.0, Some("Order 5, r. 1(3)"), map[])],
        ifThen := [
          Conditional(Rule1If1, Rule1Then1, [], 1.0, Some("Order 5, r. 1(2)"), map[]),
          Conditional(Rule1If2, Rule1Then2, [], 1.0, Some("Order 5, r. 1(4)"), map[])],
        canMust := [
          Modality(Rule1Mod1, MUST, [Rule1Mod1When1], 1.0, Some("Order 5, r. 1(1)"), map[]),
          Modality(Rule1Mod2, SHOULD, [Rule1Mod2When1], 1.0, Some("Order 5, r. 1(2)"), map[]),
          Modality(Rule1Mod3, MUST_NOT, [Rule1Mod3When1], 1.0, Some("Order 5, r. 1(4)"), map[])],
        given := [
          Proposition(Rule1Given1, 1.0, None, map[]),
          Proposition(Rule1Given2, 1.0, None, map[])],
        why := [
          Proposition(Rule1Why1, 0.95, None, map[]),
          Proposition(Rule1Why2, 0.9, None, map[]),
          Proposition(Rule1Why3, 0.9, None, map[])],
        moduleId := "order_5");
  }

  // Rule 2, the terms of an offer of amicable resolution
  const Rule2What1: string := "Offer of amicable resolution and rejection must be in writing"
  const Rule2What2: string := "Offer must be open for acceptance for reasonable period, at least 14 days"
  const Rule2What3: string := "Terms of unaccepted offer must not be disclosed until after merits determined"
  const Rule2What4: string := "Offer without expiry date expires when court determines merits"
  const Rule2Which1: string := "Applies to all offers of amicable resolution under this Order"
  const Rule2If1: string := "offer of amicable resolution is made"
  const Rule2Then1: string := "offer must be in writing"
  const Rule2If2: string := "offer of amicable resolution is made"
  const Rule2Then2: string := "offer must be open for at least 14 days"
  const Rule2If3: string := "offer made and not accepted"
  const Rule2Then3: string := "terms must not be made known to Court until after merits determined"
  const Rule2If4: string := "offer does not state expiry date"
  const Rule2Then4: string := "offer expires when Court determines merits"
  const Rule2Mod1: string := "make offer in writing"
  const Rule2Mod1When1: string := "making offer of amicable resolution"
  const Rule2Mod2: string := "make rejection in writing"
  const Rule2Mod2When1: string := "rejecting offer of amicable resolution"
  const Rule2Mod3: string := "keep offer open for at least 14 days"
  const Rule2Mod3When1: string := "making offer"
  const Rule2Mod4: string := "disclose terms of unaccepted offer to Court before merits determined"
  const Rule2Mod4When1: string := "offer not accepted"
  const Rule2Mod5: string := "rely on terms of unaccepted offer at trial"
  const Rule2Mod5When1: string := "merits not yet determined"
  const Rule2Given1: string := "Offer of amicable resolution has been made"
  const Rule2Why1: string := "To protect confidentiality of settlement negotiations"
  const Rule2Why2: string := "To prevent prejudice if court learns of settlement offers before deciding merits"
  const Rule2Why3: string := "To encourage frank settlement discussions without fear of disclosure"
  const Rule2Why4: string := "To ensure parties have adequate time to consider offers"

  /** Rule 2, the terms of an offer of amicable resolution, as `load_nodes` writes it. */
  method BuildRule2() returns (n: Node)
    ensures n.nodeId == Rule2Id && n.parentId == Some(RootId) && n.childrenIds == []
    ensures |n.citation| > 0 && |n.given| > 0 && |n.what| > 0
  {
    n := NewNode(Rule2Id, "Order 5 Rule 2 - Terms of amicable resolution", RULE).(
        parentId := Some(RootId),
        what := [
          Proposition(Rule2What1, 1.0, Some("Order 5, r. 2(1)"), map[]),
          Proposition(Rule2What2, 1.0, Some("Order 5, r. 2(2)"), map[]),
          Proposition(Rule2What3, 1.0, Some("Order 5, r. 2(3)"), map[]),
          Proposition(Rule2What4, 1.0, Some("Order 5, r. 2(4)"), map[])],
        which := [Proposition(Rule2Which1, 1.0, Some("Order 5, r. 2"), map[])],
        ifThen := [
          Conditional(Rule2If1, Rule2Then1, [], 1.0, Some("Order 5, r. 2(1)"), map[]),
          Conditional(Rule2If2, Rule2Then2, [], 1.0, Some("Order 5, r. 2(2)"), map[]),
          Conditional(Rule2If3, Rule2Then3, [], 1.0, Some("Order 5, r. 2(3)"), map[]),
          Conditional(Rule2If4, Rule2Then4, [], 1.0, Some("Order 5, r. 2(4)"), map[])],
        canMust := [
          Modality(Rule2Mod1, MUST, [Rule2Mod1When1], 1.0, Some("Order 5, r. 2(1)"), map[]),
          Modality(Rule2Mod2, MUST, [Rule2Mod2When1], 1.0, Some("Order 5, r. 2(1)"), map[]),
          Modality(Rule2Mod3, MUST, [Rule2Mod3When1], 1.0, Some("Order 5, r. 2(2)"), map[]),
          Modality(Rule2Mod4, MUST_NOT, [Rule2Mod4When1], 1.0, Some("Order 5, r. 2(3)"), map[]),
          Modality(Rule2Mod5, MUST_NOT, [Rule2Mod5When1], 1.0, Some("Order 5, r. 2(3)"), map[])],
        given := [Proposition(Rule2Given1, 1.0, None, map[])],
        why := [
          Proposition(Rule2Why1, 0.95, None, map[]),
          Proposition(Rule2Why2, 0.95, None, map[]),
          Proposition(Rule2Why3, 0.9, None, map[]),
          Proposition(Rule2Why4, 0.9, None, map[])],
        moduleId := "order_5");
  }

  // Rule 3, the powers of the Court
  const Rule3What1: string := "Court may order parties to attempt amicable resolution"
  const Rule3What2: string := "Court may order party refusing ADR to submit sealed document with reasons"
  const Rule3What3: string := "Sealed document opened only after merits determined, may be referred to on costs"
  const Rule3What4: string := "Court may suggest solutions for amicable resolution at any time"
  const Rule3Which1: string := "Applies to any proceedings before the Court"
  const Rule3If1: string := "Court decides to exercise power to order ADR"
  const Rule3Then1: string := "Court must have regard to Ideals and all relevant circumstances"
  const Rule3If2: string := "party refuses to attempt amicable resolution"
  const Rule3Then2: string := "Court considers this when deciding whether to order ADR"
  const Rule3If3: string := "party informs Court they do not wish to attempt ADR"
  const Rule3Then3: string := "Court may order sealed document setting out reasons"
  const Rule3If4: string := "sealed document ordered"
  const Rule3Then4: string := "document opened only after merits determined"
  const Rule3If5: string := "sealed document is opened"
  const Rule3Then5: string := "contents may be referred to on issue of costs"
  const Rule3Mod1: string := "order parties to attempt amicable resolution"
  const Rule3Mod1When1: string := "Court's discretion"
  const Rule3Mod2: string := "have regard to Ideals and relevant circumstances"
  const Rule3Mod2When1: string := "deciding whether to order ADR"
  const Rule3Mod3: string := "consider whether parties refused to attempt ADR"
  const Rule3Mod3When1: string := "deciding whether to order ADR"
  const Rule3Mod4: string := "order party to submit sealed document with reasons for refusal"
  const Rule3Mod4When1: string := "party refuses to attempt ADR"
  const Rule3Mod5: string := "suggest solutions for amicable resolution"
  const Rule3Mod5When1: string := "at any time as Court thinks fit"
  const Rule3Given1: string := "Proceedings are before the Court"
  const Rule3Given2: string := "Court has case management powers"
  const Rule3Why1: string := "To enable Court to actively manage cases and promote settlement"
  const Rule3Why2: string := "To create consequences for unreasonable refusal to attempt ADR (costs)"
  const Rule3Why3: string := "To protect confidentiality while preserving Court's ability to " + "consider refusal on costs"
  const Rule3Why4: string := "To give Court flexibility to facilitate settlement at appropriate times"

  /** Rule 3, the powers of the Court, as `load_nodes` writes it. */
  method BuildRule3() returns (n: Node)
    ensures n.nodeId == Rule3Id && n.parentId == Some(RootId) && n.childrenIds == []
    ensures |n.citation| > 0 && |n.given| > 0 && |n.what| > 0
    ensures |n.canMust| > 0 && n.canMust[0].modalityType == MAY && n.canMust[0].action == Rule3Mod1
  {
    n := NewNode(Rule3Id, "Order 5 Rule 3 - Powers of Court", RULE).(
        parentId := Some(RootId),
        what := [
          Proposition(Rule3What1, 1.0, Some("Order 5, r. 3(1)"), map[]),
          Proposition(Rule3What2, 1.0, Some("Order 5, r. 3(3)"), map[]),
          Proposition(Rule3What3, 1.0, Some("Order 5, r. 3(4)"), map[]),
          Proposition(Rule3What4, 1.0, Some("Order 5, r. 3(5)"), map[])],
        which := [Proposition(Rule3Which1, 1.0, Some("Order 5, r. 3"), map[])],
        ifThen := [
          Conditional(Rule3If1, Rule3Then1, [], 1.0, Some("Order 5, r. 3(2)"), map[]),
          Conditional(Rule3If2, Rule3Then2, [], 1.0, Some("Order 5, r. 3(2)"), map[]),
          Conditional(Rule3If3, Rule3Then3, [], 1.0, Some("Order 5, r. 3(3)"), map[]),
          Conditional(Rule3If4, Rule3Then4, [], 1.0, Some("Order 5, r. 3(4)"), map[]),
          Conditional(Rule3If5, Rule3Then5, [], 1.0, Some("Order 5, r. 3(4)"), map[])],
        canMust := [
          Modality(Rule3Mod1, MAY, [Rule3Mod1When1], 1.0, Some("Order 5, r. 3(1)"), map[]),
          Modality(Rule3Mod2, MUST, [Rule3Mod2When1], 1.0, Some("Order 5, r. 3(2)"), map[]),
          Modality(Rule3Mod3, MUST, [Rule3Mod3When1], 1.0, Some("Order 5, r. 3(2)"), map[]),
          Modality(Rule3Mod4, MAY, [Rule3Mod4When1], 1.0, Some("Order 5, r. 3(3)"), map[]),
          Modality(Rule3Mod5, MAY, [Rule3Mod5When1], 1.0, Some("Order 5, r. 3(5)"), map[])],
        given := [
          Proposition(Rule3Given1, 1.0, None, map[]),
          Proposition(Rule3Given2, 1.0, None, map[])],
        why := [
          Proposition(Rule3Why1, 0.95, None, map[]),
          Proposition(Rule3Why2, 0.95, None, map[]),
          Proposition(Rule3Why3, 0.9, None, map[]),
          Proposition(Rule3Why4, 0.9, None, map[])],
        moduleId := "order_5");
  }

  // ---------------------------------------------------------------------------
  // load_nodes

  /** Order 5 over its three rules. */
  ghost predicate TreeShape(t: Nodes) {
    t.ids == [RootId, Rule1Id, Rule2Id, Rule3Id]
    && t.byId[RootId].parentId.None? && t.byId[RootId].childrenIds == [Rule1Id, Rule2Id, Rule3Id]
    && t.byId[Rule1Id].parentId == Some(RootId) && t.byId[Rule1Id].childrenIds == []
    && t.byId[Rule2Id].parentId == Some(RootId) && t.byId[Rule2Id].childrenIds == []
    && t.byId[Rule3Id].parentId == Some(RootId) && t.byId[Rule3Id].childrenIds == []
  }

  /** Every node has a GIVEN item, and the texts the worked questions below end on. */
  ghost predicate Samples(t: Nodes) {
    TreeShape(t)
    && |t.byId[RootId].given| > 0 && |t.byId[Rule1Id].given| > 0
    && |t.byId[Rule2Id].given| > 0 && |t.byId[Rule3Id].given| > 0
    && |t.byId[RootId].what| > 0 && t.byId[RootId].what[0].text == RootWhat1
    && |t.byId[Rule1Id].canMust| > 0 && t.byId[Rule1Id].canMust[0].modalityType == MUST
    && t.byId[Rule1Id].canMust[0].action == Rule1Mod1
    && t.byId[Rule1Id].canMust[0].conditions == [Rule1Mod1When1]
    && |t.byId[Rule3Id].canMust| > 0 && t.byId[Rule3Id].canMust[0].modalityType == MAY
    && t.byId[Rule3Id].canMust[0].action == Rule3Mod1
  }

  /** What `load_nodes` returns, as far as the model states it. */
  ghost predicate Loaded(t: Nodes) {
    TreeShape(t) && WellLinked(t) && Samples(t)
  }

  /** The four ids differ: the root's by length, the rules' by their last character. */
  lemma IdsDiffer()
    ensures |RootId| == 11 && |Rule1Id| == 12 && |Rule2Id| == 12 && |Rule3Id| == 12
    ensures Rule1Id[11] == '1' && Rule2Id[11] == '2' && Rule3Id[11] == '3'
  {
  }

  /** A tree of that shape whose four nodes are filled in is well linked. */
  lemma ShapeLinked(t: Nodes)
    requires TreeShape(t)
    requires Filled(t, RootId) && Filled(t, Rule1Id) && Filled(t, Rule2Id) && Filled(t, Rule3Id)
    ensures WellLinked(t)
  {
    IdsDiffer();
  }

  /** `load_nodes`: the four nodes under their ids, in insertion order. */
  method LoadNodes() returns (t: Nodes)
    ensures Loaded(t)
  {
    var root := BuildRoot();
    var rule1 := BuildRule1();
    var rule2 := BuildRule2();
    var rule3 := BuildRule3();
    IdsDiffer();
    t := Table4(root, rule1, rule2, rule3);
    ShapeLinked(t);
  }

  /** Every loaded node passes `validate_node`. */
  lemma LoadedValidates(t: Nodes)
    requires Loaded(t)
    ensures forall k :: k in t.byId ==> ValidationErrors(t, t.byId[k]) == []
  {
    WellLinkedValidates(t);
  }

  /** The only root of a table of that shape is Order 5 itself. */
  lemma LoadedRoots(t: Nodes)
    requires TreeShape(t)
    ensures forall x :: x in Roots(t) <==> x == RootId
  {
    RootsMeaning(t);
    IdsDiffer();
  }

  /** `Order5Module()`: the module with its metadata and the loaded table, not yet initialised. */
  method NewModule() returns (m: LogicTreeModule)
    ensures fresh(m) && m.metadata == Metadata()
    ensures Loaded(m.loaded) && !m.initialized && m.Valid()
  {
    var t := LoadNodes();
    m := new LogicTreeModule(Metadata(), t);
  }

  // ---------------------------------------------------------------------------
  // search

  /** The keywords `search` tests against both the query and the citation. */
  const Keywords: seq<string> :=
    ["amicable", "resolution", "adr", "settlement", "mediation",
     "offer", "sealed", "document", "reasonable", "grounds"]

  /**
   * `search` corrected, initialising the module first when it is not yet: every node
   * scored in insertion order, the hits ranked, at most `topK`.
   */
  method Search(m: LogicTreeModule, query: string, topK: int) returns (r: seq<SearchResult>)
    requires m.Valid()
    modifies m
    ensures m.initialized && m.Valid() && m.nodes == m.loaded
    ensures r == SearchOver(m.loaded, Hit(Lower(query), Keywords), topK)
  {
    if !m.initialized {
      m.Initialize();
    }
    r := SearchNodes(m.nodes, query, Keywords, topK);
  }

  /** "Order 5 - Amicable Resolution", the start of every citation, lowercased starts "order". */
  lemma CitationsOpenWithOrder(c: string)
    requires IsPrefix("Order", c)
    ensures Contains(Lower(c), "order")
  {
    LowerAppend("Order", c[5..]);
    assert c == "Order" + c[5..];
    assert Lower("Order") == "order";
    ContainsAt(Lower(c), "order", 0);
  }

  /**
   * As written, a query holding the word "order" makes `search` raise: every citation
   * starts "Order", so the root scores above zero when the loop reaches it.
   */
  lemma OrderQueryRaises(t: Nodes, query: string)
    requires TreeShape(t) && IsPrefix("Order", t.byId[RootId].citation)
    requires "order" in SplitWhitespace(Lower(query))
    ensures exists k :: k in t.byId && Score(t.byId[k], Lower(query), Keywords) > 0.0
  {
    var ql := Lower(query);
    var n := t.byId[RootId];
    var terms := SplitWhitespace(ql);
    CitationsOpenWithOrder(n.citation);
    var i :| 0 <= i < |terms| && terms[i] == "order";
    AnyTermMeaning(terms, Lower(n.citation));
    ScorePositive(n, ql, Keywords);
    assert RootId in t.byId;
  }

  // ---------------------------------------------------------------------------
  // reason

  /** The terms of the three rule tests in `reason`. */
  const DutyTerms: seq<string> := ["duty", "must make", "must offer", "reject", "reasonable grounds"]
  const OfferTerms: seq<string> := ["writing", "14 days", "open for", "disclose", "confidential", "without prejudice"]
  const CourtTerms: seq<string> := ["court order", "court may", "sealed document", "suggest", "court power"]

  /** The target `reason` picks for the lowered question: the first rule whose terms it holds, else the root. */
  function Target(ql: string): string {
    if AnyTerm(DutyTerms, ql) then Rule1Id
    else if AnyTerm(OfferTerms, ql) then Rule2Id
    else if AnyTerm(CourtTerms, ql) then Rule3Id
    else RootId
  }

  /**
   * The rule tests are tried in order: Rule 1 exactly for a duty question, Rule 2 for an
   * offer-terms question that is not a duty one, Rule 3 for a court-power question that
   * is neither, and the root for every other question; the target is always loaded.
   */
  lemma TargetMeaning(t: Nodes, ql: string)
    requires TreeShape(t)
    ensures Target(ql) == Rule1Id <==> AnyTerm(DutyTerms, ql)
    ensures Target(ql) == Rule2Id <==> !AnyTerm(DutyTerms, ql) && AnyTerm(OfferTerms, ql)
    ensures Target(ql) == Rule3Id <==>
      !AnyTerm(DutyTerms, ql) && !AnyTerm(OfferTerms, ql) && AnyTerm(CourtTerms, ql)
    ensures Target(ql) == RootId <==>
      !AnyTerm(DutyTerms, ql) && !AnyTerm(OfferTerms, ql) && !AnyTerm(CourtTerms, ql)
    ensures Target(ql) in t.byId
  {
    IdsDiffer();
    var duty, offer, court := AnyTerm(DutyTerms, ql), AnyTerm(OfferTerms, ql), AnyTerm(CourtTerms, ql);
    if duty {
      assert Target(ql) == Rule1Id;
    } else if offer {
      assert Target(ql) == Rule2Id;
    } else if court {
      assert Target(ql) == Rule3Id;
    } else {
      assert Target(ql) == RootId;
    }
  }

  /**
   * `_generate_conclusion`: an obligation question answers with the first MUST or SHALL
   * modality, otherwise a permission question with "Yes, " and the first MAY or CAN
   * action; a branch that finds no such modality, and every other question, answers with
   * the fallback. A what question's own answer, the first WHAT item, is the fallback's.
   */
  function Conclusion(ql: string, n: Node): string {
    if AsksObligation(ql) then
      match First(n.canMust, Obligation())
      case Some(m) => ObligationAnswer(m)
      case None => Fallback(n)
    else if AsksPermission(ql) then
      match First(n.canMust, Permission())
      case Some(m) => "Yes, " + m.action
      case None => Fallback(n)
    else Fallback(n)
  }

  /** The conclusion in terms of the node's items, by the first matching modality's index. */
  lemma ConclusionMeaning(ql: string, n: Node)
    ensures forall i :: 0 <= i < |n.canMust| && Obligation()(n.canMust[i])
                        && (forall k :: 0 <= k < i ==> !Obligation()(n.canMust[k]))
              ==> (AsksObligation(ql) ==> Conclusion(ql, n) == ObligationAnswer(n.canMust[i]))
    ensures forall i :: 0 <= i < |n.canMust| && Permission()(n.canMust[i])
                        && (forall k :: 0 <= k < i ==> !Permission()(n.canMust[k]))
              ==> (!AsksObligation(ql) && AsksPermission(ql) ==> Conclusion(ql, n) == "Yes, " + n.canMust[i].action)
    ensures (AsksObligation(ql) && forall i :: 0 <= i < |n.canMust| ==> !Obligation()(n.canMust[i]))
              ==> Conclusion(ql, n) == Fallback(n)
    ensures (!AsksObligation(ql) && AsksPermission(ql) && forall i :: 0 <= i < |n.canMust| ==> !Permission()(n.canMust[i]))
              ==> Conclusion(ql, n) == Fallback(n)
    ensures !AsksObligation(ql) && !AsksPermission(ql) ==> Conclusion(ql, n) == Fallback(n)
  {
    forall i | 0 <= i < |n.canMust| && Obligation()(n.canMust[i])
               && (forall k :: 0 <= k < i ==> !Obligation()(n.canMust[k]))
      ensures First(n.canMust, Obligation()) == Some(n.canMust[i])
    {
      FirstAt(n.canMust, Obligation(), i);
    }
    forall i | 0 <= i < |n.canMust| && Permission()(n.canMust[i])
               && (forall k :: 0 <= k < i ==> !Permission()(n.canMust[k]))
      ensures First(n.canMust, Permission()) == Some(n.canMust[i])
    {
      FirstAt(n.canMust, Permission(), i);
    }
  }

  /** `reason` over the table `t`, as the code evidently intends it, as a value. */
  function Answer(t: Nodes, question: string): ReasoningResult {
    var ql := Lower(question);
    var target := Target(ql);
    if target !in t.byId then Unresolved
    else
      var n := t.byId[target];
      ReasoningResult(Conclusion(ql, n), 0.9, SixChain(n), [], [n], [], map[])
  }

  /**
   * `reason` corrected, initialising the module first when it is not yet: the target,
   * its six-dimension chain, then the conclusion.
   */
  method Reason(m: LogicTreeModule, question: string) returns (r: ReasoningResult)
    requires m.Valid()
    modifies m
    ensures m.initialized && m.Valid() && m.nodes == m.loaded
    ensures r == Answer(m.loaded, question)
  {
    if !m.initialized {
      m.Initialize();
    }
    var ql := Lower(question);
    var target := Target(ql);
    if target !in m.nodes.byId {
      return Unresolved;
    }
    var n := m.nodes.byId[target];
    var chain := BuildSixChain(n);
    r := ReasoningResult(Conclusion(ql, n), 0.9, chain, [], [n], [], map[]);
  }

  /**
   * A loaded table always resolves the target: `reason` answers with confidence 0.9,
   * the target as its only applicable node, one step per item of all six dimensions in
   * the order GIVEN, WHICH, IF-THEN, WHAT, CAN/MUST, WHY, each carrying the target's id,
   * citation and weight, and the target's conclusion.
   */
  lemma AnswerMeaning(t: Nodes, question: string)
    requires TreeShape(t)
    ensures var ql := Lower(question); var r := Answer(t, question); var n := t.byId[Target(ql)];
      r.confidence == 0.9 && r.applicableNodes == [n] && r.warnings == [] && r.alternativePaths == []
      && r.reasoningChain == SixChain(n)
      && |r.reasoningChain| == |n.given| + |n.which| + |n.ifThen| + |n.what| + |n.canMust| + |n.why|
      && Belongs(r.reasoningChain, n)
      && StepsIn(r.reasoningChain, "GIVEN") == PropSteps(n, "GIVEN", n.given)
      && StepsIn(r.reasoningChain, "CAN/MUST") == ModSteps(n, "CAN/MUST", n.canMust)
      && r.conclusion == Conclusion(ql, n)
  {
    var ql := Lower(question);
    TargetMeaning(t, ql);
    SixChainMeaning(t.byId[Target(ql)]);
  }

  /**
   * As written, `reason` over the loaded table raises the TypeError of the first GIVEN
   * step, whatever the question: every node has a GIVEN item.
   */
  lemma ReasonRaisesAtFirstStep(t: Nodes, question: string)
    requires Samples(t)
    ensures ReasonFailure(t, Target(Lower(question)), Lower(question)) == Some(StepError)
  {
    var ql := Lower(question);
    TargetMeaning(t, ql);
    CallsRaise();
  }

  // ---------------------------------------------------------------------------
  // Worked questions over any table `load_nodes` can return

  /** An action with one condition, and " (when: c)" after it. */
  lemma WhenOne(a: string, c: string)
    ensures a + When([c]) == a + " (when: " + c + ")"
  {
    assert When([c]) == " (when: " + c + ")";
  }

  /**
   * A duty question that asks what a party must do, such as "What must I do about my
   * duty to consider amicable resolution?", is answered from Rule 1 with its MUST
   * modality and condition, capitalised.
   */
  lemma DutyQuestion(t: Nodes, question: string)
    requires Samples(t)
    requires var ql := Lower(question); Contains(ql, "duty") && Contains(ql, "must")
    ensures Answer(t, question).applicableNodes == [t.byId[Rule1Id]]
    ensures Answer(t, question).conclusion == Capitalize(Rule1Mod1 + " (when: " + Rule1Mod1When1 + ")")
  {
    var ql := Lower(question);
    assert AnyTerm(DutyTerms, ql);
    TargetMeaning(t, ql);
    var n := t.byId[Rule1Id];
    assert Contains(ql, "must");
    FirstAt(n.canMust, Obligation(), 0);
    assert Conclusion(ql, n) == ObligationAnswer(n.canMust[0]);
    WhenOne(Rule1Mod1, Rule1Mod1When1);
  }

  /**
   * A question about what the court may order, with no duty or offer-terms word in it,
   * such as "Can the court order mediation?", is answered from Rule 3 with "Yes, " and
   * its first MAY action.
   */
  lemma CourtPowerQuestion(t: Nodes, question: string)
    requires Samples(t)
    requires var ql := Lower(question);
      Contains(ql, "court order") && Contains(ql, "can") && !AsksObligation(ql)
      && !AnyTerm(DutyTerms, ql) && !AnyTerm(OfferTerms, ql)
    ensures Answer(t, question).applicableNodes == [t.byId[Rule3Id]]
    ensures Answer(t, question).conclusion == "Yes, " + Rule3Mod1
  {
    var ql := Lower(question);
    AnyTermMeaning(CourtTerms, ql);
    assert CourtTerms[0] == "court order";
    TargetMeaning(t, ql);
    ConclusionMeaning(ql, t.byId[Rule3Id]);
  }

  /**
   * A general question with none of the rule terms and no must, have to, can or may in
   * it, such as "Do I need to settle first?", is answered from the root with its WHAT.
   */
  lemma GeneralQuestion(t: Nodes, question: string)
    requires Samples(t)
    requires var ql := Lower(question);
      !AnyTerm(DutyTerms, ql) && !AnyTerm(OfferTerms, ql) && !AnyTerm(CourtTerms, ql)
      && !AsksObligation(ql) && !AsksPermission(ql)
    ensures Answer(t, question).applicableNodes == [t.byId[RootId]]
    ensures Answer(t, question).conclusion == RootWhat1
  {
    var ql := Lower(question);
    TargetMeaning(t, ql);
    ConclusionMeaning(ql, t.byId[RootId]);
  }
}
