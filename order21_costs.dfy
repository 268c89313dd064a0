/**
 * The Order 21 costs module: its metadata, its eleven case citations and its logic
 * tree, `search` with the Appendix G boost, `reason` with its Appendix G cost
 * calculation, and `_generate_conclusion`.
 */
module Order21Costs {
  import opened Wrappers
  import opened Text
  import opened JsonValue
  import opened IsoDate
  import opened SixDimensions
  import opened Seqs
  import opened NodeTables
  import opened Ranking
  import opened ModuleKit
  import opened LogicTree
  import opened Numerals
  import opened CostGuidelines

  const RootId: string := "order21_costs_root"
  const DiscretionId: string := "order21_costs_rule2_discretion"
  const FactorsId: string := "order21_costs_rule2_factors"
  const FollowEventId: string := "order21_costs_rule3_follow_event"
  const IndemnityId: string := "order21_costs_rule22_indemnity"
  const StayId: string := "appendixg_stay_applications"
  const TrialsId: string := "appendixg_commercial_trials"
  const LitigantId: string := "order21_costs_rule7_litigant_in_person"
  const NonPartyId: string := "order21_costs_rule5_nonparty"
  const SolicitorId: string := "order21_costs_rule6_solicitor"

  const StayCitation: string := "Appendix G - Stay Applications"
  const FactorsCitation: string := "Order 21 Rule 2(2) - Eight Factors"
  const FollowEventCitation: string := "Order 21 Rule 3(2) - Costs Follow Event"
  const LitigantCitation: string := "Order 21 Rule 7 - Litigants-in-Person"

  /** What `get_metadata` says the module covers. */
  const Coverage: ModuleCoverage := ModuleCoverage(
    "Rules of Court - Order 21 (Costs)",
    ["Order 21 Rule 2 - Court's discretion on costs and eight factors",
     "Order 21 Rule 3 - Costs follow the event",
     "Order 21 Rule 5 - Non-party costs",
     "Order 21 Rule 6 - Personal costs orders against solicitors",
     "Order 21 Rule 7 - Costs for litigants-in-person",
     "Order 21 Rule 22 - Assessment (standard vs indemnity basis)",
     "Appendix G - Cost Guidelines (dollar amounts)"],
    ["legal_costs", "costs_assessment", "costs_orders", "indemnity_costs",
     "standard_basis", "proportionality", "costs_follow_event", "non_party_costs",
     "litigant_in_person", "stay_application_costs", "trial_costs", "appeal_costs",
     "appendix_g"],
    ["costs", "assessment", "indemnity", "standard", "proportionality",
     "stay application", "trial costs", "appeal costs", "appendix g",
     "litigant in person", "non-party costs", "costs follow event",
     "solicitor costs", "personal costs order", "cost guidelines",
     "commercial trial", "originating application", "summons costs"],
    ["Singapore"])

  const Description: string :=
    "Comprehensive costs assessment module with Order 21 rules, "
    + "Appendix G guidelines, and 11 leading case citations"

  /**
   * `get_metadata`, with the clock read for `validated_date` injected as `now`; the
   * guideline count is that of the table `cats` the module costs with.
   */
  function Metadata(now: DateTime, cats: Categories): (m: ModuleMetadata)
    ensures m.moduleId == "order_21_costs" && m.authorityWeight == 0.9 && m.dependencies == []
    ensures "case_citations" in m.metadata && m.metadata["case_citations"] == JNum(11.0)
    ensures "cost_guidelines" in m.metadata && m.metadata["cost_guidelines"] == JNum(|Flatten(cats)| as real)
  {
    ModuleMetadata(
      "order_21_costs", "Order 21 - Legal Costs Assessment", "1.0.0", Coverage,
      0.9, DateFields(2024, 1, 1, 0, 0, 0, 0), [], Description,
      "Legal Advisory Team", Some("Senior Counsel"), Some(now),
      map["court_levels" := StrArray(["High Court", "Court of Appeal", "District Court"]),
          "practice_areas" := StrArray(["civil_procedure", "litigation", "costs"]),
          "case_citations" := JNum(11.0),
          "cost_guidelines" := JNum(|Flatten(cats)| as real)])
  }

  /** With Appendix G, the metadata counts its seventeen rows. */
  lemma MetadataCounts(now: DateTime)
    ensures Metadata(now, AppendixG).metadata["cost_guidelines"] == JNum(17.0)
  {
    AppendixGRows();
  }

  // ---------------------------------------------------------------------------
  // Case citations

  /** A case the module relies on: why it matters, a verbatim passage and the rule it interprets. */
  datatype CaseCitation = CaseCitation(
    caseName: string, citation: string, relevance: string, verbatimQuote: string,
    paragraphCitation: string, ruleApplicable: string)

  /** The WHY item summarising a case: `f"{heading}{case.relevance}"`, sourced to the case's citation. */
  function CaseLawProp(heading: string, c: CaseCitation): Proposition {
    PropAt(heading + c.relevance, c.citation)
  }

  /** The WHY item quoting a case, sourced to its citation and paragraphs. */
  function QuoteProp(c: CaseCitation): Proposition {
    PropAt("Verbatim Quote: " + c.verbatimQuote, c.citation + " " + c.paragraphCitation)
  }

  // The cases of `_load_case_citations`, in its order; the nodes' WHY items index them.
  const Case0: CaseCitation := CaseCitation(
    "Huttons Asia Pte Ltd v Chen Qiming",
    "[2024] SGHC(A) 33",
    "This case establishes that Order 21 r 2(6) expressly empowers "
    + "courts to stay appeals for non-payment of costs, representing a "
    + "significant shift from the ROC 2014 regime which required "
    + "'special or exceptional circumstances'. The court clarified "
    + "that under the new rules, such stay orders can be made more "
    + "readily without needing to establish exceptional circumstances.",
    "O 21 r 2(6) of the ROC 2021 now expressly stipulates that the "
    + "court has the power to stay appeals pending payment of the "
    + "costs below: Powers of Court (O. 21, r. 2) ... (6) The Court "
    + "may stay or dismiss any application, action or appeal or make "
    + "any other order as the Court deems fit if a party refuses or "
    + "neglects to pay any costs ordered within the specified time, "
    + "whether the costs were ordered in the present proceedings or in "
    + "some related proceedings. This is a significant departure from "
    + "the previous regime under the ROC 2014, where no such express "
    + "power existed and the court had to rely on inherent "
    + "jurisdiction requiring 'special or exceptional circumstances' "
    + "to be shown.",
    "[Paragraph 23-24, 29]",
    "Order 21 Rule 2(6) - Stay for non-payment")

  const Case1: CaseCitation := CaseCitation(
    "Founder Group (Hong Kong) Ltd v Singapore JHC Co Pte Ltd",
    "[2023] SGCA 40",
    "This Court of Appeal decision provides authoritative guidance "
    + "on the court's discretion under Order 21 Rule 2(1) and the "
    + "framework for non-party costs orders under Rule 5. The court "
    + "emphasized that Rule 2(1) preserves the court's broad "
    + "discretionary power over costs, and clarified that non-party "
    + "costs orders require clear evidence of improper conduct or "
    + "funding arrangements that justify departing from the usual rule.",
    "Order 21 r 2(1) of the ROC 2021 preserves the court's "
    + "discretion as to costs: 'Subject to these Rules and any other "
    + "written law, the costs of and incidental to all proceedings are "
    + "in the discretion of the Court, and the Court has the full "
    + "power to determine by whom and to what extent the costs are to "
    + "be paid.' This discretion is to be exercised judicially, having "
    + "regard to all relevant circumstances. As for non-party costs "
    + "orders under O 21 r 5, the threshold requirement is that the "
    + "non-party must have played a sufficiently active role in the "
    + "conduct of the proceedings such that it would be just to make a "
    + "costs order against that non-party.",
    "[Paragraph 78-82, 95-97]",
    "Order 21 Rule 2(1) - Discretion; Rule 5 - Non-party costs")

  const Case2: CaseCitation := CaseCitation(
    "Tjiang Giok Moy v Ang Jimmy",
    "[2024] SGHC 146",
    "This case affirms that Order 21 Rule 3(2) codifies the "
    + "fundamental principle that 'costs follow the event', meaning "
    + "the successful party is prima facie entitled to costs. The "
    + "court explained that this presumption can be displaced by "
    + "conduct of the successful party or where justice requires a "
    + "different order, but it remains the starting point for all "
    + "costs determinations.",
    "Order 21 r 3(2) provides: 'Subject to paragraph (1) and this "
    + "Order, if the Court decides to make an order for costs, the "
    + "general rule is that the unsuccessful party must pay the costs "
    + "of the successful party.' This codifies the longstanding common "
    + "law principle that 'costs follow the event'. The successful "
    + "party is prima facie entitled to costs, and it is for the "
    + "unsuccessful party to show cause why costs should not follow "
    + "the event. The burden is on the party seeking to displace this "
    + "presumption.",
    "[Paragraph 45-47]",
    "Order 21 Rule 3(2) - Costs follow the event")

  const Case3: CaseCitation := CaseCitation(
    "Armira Capital Pte Ltd v Ji Zenghe and another",
    "[2025] SGHCR 18",
    "This recent decision provides detailed analysis of Order 21 "
    + "Rule 22(3) on assessment of costs on the indemnity basis. The "
    + "court held that indemnity costs are appropriate where there is "
    + "reprehensible conduct, unreasonable conduct, or where the case "
    + "involves commercial dishonesty. The assessment on indemnity "
    + "basis allows recovery of all costs reasonably incurred, subject "
    + "only to reasonableness rather than proportionality.",
    "Under O 21 r 22(3), where costs are ordered to be assessed on "
    + "the indemnity basis, 'all costs shall be allowed except insofar "
    + "as they are of an unreasonable amount or have been unreasonably "
    + "incurred, and any doubts which the Registrar may have as to "
    + "whether the costs were reasonably incurred or were reasonable "
    + "in amount shall be resolved in favour of the receiving party'. "
    + "This is a more generous basis than the standard basis, as it "
    + "removes the requirement of proportionality and resolves doubts "
    + "in favour of the receiving party.",
    "[Paragraph 61-65]",
    "Order 21 Rule 22(3) - Indemnity basis assessment")

  const Case4: CaseCitation := CaseCitation(
    "Armira Capital Pte Ltd v Ji Zenghe and another (Assessment)",
    "[2025] SGHCR 18",
    "This section of the judgment addresses Order 21 Rule 2(2)(g), "
    + "which makes proportionality a mandatory consideration in all "
    + "costs assessments. The court held that even where indemnity "
    + "costs are awarded, proportionality must still be considered, "
    + "though it carries less weight than on the standard basis. This "
    + "represents a significant change from previous practice where "
    + "proportionality was discretionary.",
    "Order 21 r 2(2)(g) now mandates that the court must have regard "
    + "to 'the proportionality of the costs in relation to the matters "
    + "in issue'. This is a departure from the previous position where "
    + "proportionality was merely one discretionary factor. The word "
    + "'must' in r 2(2) makes it clear that proportionality is now a "
    + "mandatory consideration in every costs assessment, whether on "
    + "the standard or indemnity basis. However, on the indemnity "
    + "basis, proportionality carries less weight than on the standard "
    + "basis.",
    "[Paragraph 71-74]",
    "Order 21 Rule 2(2)(g) - Proportionality factor (mandatory)")

  const Case5: CaseCitation := CaseCitation(
    "QBE Insurance (International) Ltd v Relax Beach Resort Sdn Bhd",
    "[2023] SGCA 45",
    "This Court of Appeal decision sets out the framework for when "
    + "indemnity costs should be awarded under Order 21 Rule 2(2). The "
    + "court held that indemnity costs require 'some conduct or "
    + "circumstances which take the case out of the norm', such as "
    + "dishonesty, abuse of process, or gross unreasonableness. The "
    + "decision clarifies that mere failure to succeed is "
    + "insufficient; there must be exceptional circumstances "
    + "justifying departure from standard basis.",
    "Indemnity costs are awarded in exceptional circumstances, where "
    + "there is some conduct or circumstances which take the case out "
    + "of the norm. This may include: (a) where the action is brought "
    + "in bad faith or amounts to an abuse of process; (b) where "
    + "allegations of fraud or dishonesty are made and proved; (c) "
    + "where there has been manifest unreasonableness in the conduct "
    + "of proceedings; or (d) where the unsuccessful party has "
    + "unreasonably refused a settlement offer. The court retains "
    + "discretion under O 21 r 2(1) to award indemnity costs in "
    + "appropriate cases, but this remains the exception rather than "
    + "the rule.",
    "[Paragraph 112-118]",
    "Order 21 Rule 2(2) - Indemnity costs (exceptional circumstances "
    + "required)")

  const Case6: CaseCitation := CaseCitation(
    "Chan Hui Peng v Public Utilities Board",
    "[2022] SGHC 232",
    "This case provides authoritative guidance on Order 21 Rule 7 "
    + "concerning costs for litigants-in-person. The court held that "
    + "litigants-in-person are entitled to costs to compensate for "
    + "time reasonably spent, valued at a lower rate than solicitor's "
    + "costs (typically two-thirds), and out-of-pocket expenses. The "
    + "decision clarifies that litigants-in-person cannot recover "
    + "costs for work they would have had to do themselves even with "
    + "legal representation.",
    "Order 21 r 7(1) provides: 'Where a litigant in person is "
    + "entitled to costs, the Court may award costs for work done and "
    + "any out-of-pocket expenses incurred by the litigant in person.' "
    + "In assessing such costs, the court should adopt a two-stage "
    + "approach: first, identify the work reasonably done; second, "
    + "value that work at a reasonable rate. The rate should generally "
    + "be lower than what would be charged by a solicitor, typically "
    + "around two-thirds of solicitor's costs, to reflect that a "
    + "litigant-in-person lacks professional qualification and "
    + "experience.",
    "[Paragraph 88-93]",
    "Order 21 Rule 7 - Litigants-in-person costs")

  const Case7: CaseCitation := CaseCitation(
    "Tajudin bin Khamis v Suriaya binte Ahmad",
    "[2025] SGHCR 33",
    "This recent decision addresses Order 21 Rule 6 on personal "
    + "costs orders against solicitors. The court held that such "
    + "orders require proof that the solicitor acted improperly, "
    + "unreasonably, or negligently, causing the opposing party to "
    + "incur unnecessary costs. The threshold is high and requires "
    + "clear evidence that the solicitor's conduct fell below "
    + "professional standards.",
    "Order 21 r 6(1) provides that 'the Court may make a costs order "
    + "against a solicitor if the solicitor has acted improperly, "
    + "unreasonably or negligently and, as a result, costs have been "
    + "incurred.' The test is conjunctive: there must be both (a) "
    + "improper, unreasonable or negligent conduct by the solicitor, "
    + "and (b) causation showing that unnecessary costs resulted from "
    + "that conduct. Examples include: pursuing hopeless applications, "
    + "making scandalous allegations without basis, or failing to "
    + "comply with court orders causing adjournments.",
    "[Paragraph 34-39]",
    "Order 21 Rule 6 - Personal costs orders against solicitors")

  const Case8: CaseCitation := CaseCitation(
    "BNX v BOE and others",
    "[2023] SGHC 123",
    "This case addresses Order 21 Rule 2(2)(a) which requires the "
    + "court to consider 'the parties' conduct before and during the "
    + "proceedings, including any attempts at amicable resolution'. "
    + "The court emphasized that parties who unreasonably refuse "
    + "mediation or reject reasonable settlement offers may face "
    + "adverse costs consequences, including potential orders for "
    + "indemnity costs.",
    "Order 21 r 2(2)(a) requires the court to have regard to 'the "
    + "parties' conduct before and during the proceedings, including "
    + "any attempts at amicable resolution and the outcome thereof'. "
    + "This factor is given significant weight in costs "
    + "determinations. A party who unreasonably refuses to participate "
    + "in mediation or ADR, or who rejects a reasonable settlement "
    + "offer and then fails to achieve a better result at trial, may "
    + "face adverse costs consequences including orders for indemnity "
    + "costs from the date of refusal.",
    "[Paragraph 56-60]",
    "Order 21 Rule 2(2)(a) - Conduct and amicable resolution attempts")

  const Case9: CaseCitation := CaseCitation(
    "Tan Soo Leng David v Wee, Tay & Lim LLP",
    "[2023] SGHC 289",
    "This decision addresses Order 21 Rule 2(2)(b) and (c) "
    + "concerning the complexity of the case and the skill, labor, and "
    + "specialized knowledge required. The court held that these "
    + "factors justify higher costs for legally or factually complex "
    + "cases requiring specialized expertise, but costs must remain "
    + "proportionate under Rule 2(2)(g).",
    "Order 21 r 2(2)(b) and (c) require consideration of 'the "
    + "complexity or difficulty of the case' and 'the skill, labour, "
    + "specialized knowledge and responsibility involved'. These "
    + "factors recognize that complex cases involving difficult legal "
    + "issues, substantial documentation, or specialized areas of law "
    + "justify higher costs. However, this must be balanced against "
    + "the mandatory requirement of proportionality under r 2(2)(g). "
    + "The court must ensure that even in complex cases, costs do not "
    + "become disproportionate to the matters at issue.",
    "[Paragraph 67-72]",
    "Order 21 Rule 2(2)(b)(c) - Complexity and skill factors")

  const Case10: CaseCitation := CaseCitation(
    "UOL Development (Novena) Pte Ltd v Commissioner of Stamp Duties",
    "[2023] SGHC 167",
    "This case addresses Order 21 Rule 2(2)(d) concerning urgency "
    + "and the Rule 2(2)(e) factor of the number of solicitors "
    + "engaged. The court held that genuine urgency justifies higher "
    + "costs for expedited work, but parties cannot manufacture "
    + "urgency to inflate costs. Multiple solicitors are only "
    + "justified where case complexity genuinely requires them.",
    "Order 21 r 2(2)(d) provides that the court must consider 'the "
    + "urgency of the case and the circumstances in which it arose'. "
    + "Genuine urgency, such as injunction applications or "
    + "time-sensitive commercial matters, may justify higher costs to "
    + "compensate solicitors for expedited work and disruption to "
    + "other matters. However, urgency must be objectively justified; "
    + "parties cannot create artificial urgency to inflate costs. "
    + "Under r 2(2)(e), 'the number of solicitors involved' is "
    + "relevant, but multiple solicitors must be justified by case "
    + "complexity, not used merely to increase costs claims.",
    "[Paragraph 78-84]",
    "Order 21 Rule 2(2)(d)(e) - Urgency and number of solicitors")

  // Each case is read by its own method, whose contract keeps the case's text out of
  // the proofs of its callers.

  method LoadCase0() returns (c: CaseCitation)
    ensures |c.caseName| > 0 && |c.citation| > 0 && |c.relevance| > 0 && |c.verbatimQuote| > 0
  {
    c := Case0;
  }

  method LoadCase1() returns (c: CaseCitation)
    ensures |c.caseName| > 0 && |c.citation| > 0 && |c.relevance| > 0 && |c.verbatimQuote| > 0
  {
    c := Case1;
  }

  method LoadCase2() returns (c: CaseCitation)
    ensures |c.caseName| > 0 && |c.citation| > 0 && |c.relevance| > 0 && |c.verbatimQuote| > 0
  {
    c := Case2;
  }

  method LoadCase3() returns (c: CaseCitation)
    ensures |c.caseName| > 0 && |c.citation| > 0 && |c.relevance| > 0 && |c.verbatimQuote| > 0
  {
    c := Case3;
  }

  method LoadCase4() returns (c: CaseCitation)
    ensures |c.caseName| > 0 && |c.citation| > 0 && |c.relevance| > 0 && |c.verbatimQuote| > 0
  {
    c := Case4;
  }

  method LoadCase5() returns (c: CaseCitation)
    ensures |c.caseName| > 0 && |c.citation| > 0 && |c.relevance| > 0 && |c.verbatimQuote| > 0
  {
    c := Case5;
  }

  method LoadCase6() returns (c: CaseCitation)
    ensures |c.caseName| > 0 && |c.citation| > 0 && |c.relevance| > 0 && |c.verbatimQuote| > 0
  {
    c := Case6;
  }

  method LoadCase7() returns (c: CaseCitation)
    ensures |c.caseName| > 0 && |c.citation| > 0 && |c.relevance| > 0 && |c.verbatimQuote| > 0
  {
    c := Case7;
  }

  method LoadCase8() returns (c: CaseCitation)
    ensures |c.caseName| > 0 && |c.citation| > 0 && |c.relevance| > 0 && |c.verbatimQuote| > 0
  {
    c := Case8;
  }

  method LoadCase9() returns (c: CaseCitation)
    ensures |c.caseName| > 0 && |c.citation| > 0 && |c.relevance| > 0 && |c.verbatimQuote| > 0
  {
    c := Case9;
  }

  method LoadCase10() returns (c: CaseCitation)
    ensures |c.caseName| > 0 && |c.citation| > 0 && |c.relevance| > 0 && |c.verbatimQuote| > 0
  {
    c := Case10;
  }

  /** `_load_case_citations`: the eleven cases, each with a name, a citation, a relevance and a quote. */
  method LoadCaseCitations() returns (cs: seq<CaseCitation>)
    ensures |cs| == 11
    ensures forall i :: 0 <= i < |cs| ==> |cs[i].citation| > 0 && |cs[i].relevance| > 0
  {
    var c0 := LoadCase0();
    var c1 := LoadCase1();
    var c2 := LoadCase2();
    var c3 := LoadCase3();
    var c4 := LoadCase4();
    var c5 := LoadCase5();
    var c6 := LoadCase6();
    var c7 := LoadCase7();
    var c8 := LoadCase8();
    var c9 := LoadCase9();
    var c10 := LoadCase10();
    cs := [c0, c1, c2, c3, c4, c5, c6, c7, c8, c9, c10];
  }

  // order21_costs_root
  const RootWhat1: string :=
    "Order 21 governs costs of civil proceedings including court's "
    + "discretion, assessment basis, and cost guidelines"
  const RootWhich1: string := "Applies to all civil proceedings in Singapore courts"
  const RootWhich2: string := "Covers standard and indemnity basis assessment"
  const RootWhy1: string := "To provide clear framework for costs determinations and promote predictability"
  const RootWhy2: string := "To ensure costs are proportionate and reasonable"
  const RootFullText: string :=
    "Order 21 of the Rules of Court governs costs of civil "
    + "proceedings, including the court's discretion on costs, "
    + "principles for assessment, and guidelines for quantum."

  /** The root, Order 21 costs, as `load_nodes` writes it; `LoadNodes` links the children. */
  method BuildRoot(now: DateTime) returns (n: Node)
    ensures n.nodeId == RootId && n.parentId.None? && n.childrenIds == []
    ensures |n.citation| > 0 && |n.what| > 0
  {
    n := NewNode(RootId, "Order 21 - Costs", RULE).(
        what := [PropAt(RootWhat1, "Order 21")],
        which := [
          PropAt(RootWhich1, "Order 21 Rule 1"),
          PropAt(RootWhich2, "Order 21 Rule 22")],
        why := [
          PropAt(RootWhy1, "Practice Directions"),
          PropAt(RootWhy2, "Order 21 Rule 2(2)(g)")],
        fullText := RootFullText,
        moduleId := "order_21_costs",
        validatedBy := Some("Senior Counsel"),
        validatedDate := Some(now));
  }

  // order21_costs_rule2_discretion
  const DiscretionWhat1: string := "Court has full discretion on costs including who pays and to what extent"
  const DiscretionWhich1: string := "Applies to costs of and incidental to all proceedings"
  const DiscretionWhich2: string :=
    "Discretion must be exercised judicially having regard to all "
    + "relevant circumstances"
  const DiscretionIf1: string := "Court decides to make costs order"
  const DiscretionThen1: string := "Court must consider the eight factors in Rule 2(2)"
  const DiscretionMod1: string := "award costs to any party"
  const DiscretionMod1When1: string := "in its discretion based on all circumstances"
  const DiscretionMod2: string := "consider the eight factors in Rule 2(2)"
  const DiscretionMod2When1: string := "when making costs order"
  const DiscretionGiven1: string := "Proceedings have concluded or costs order is appropriate"
  const DiscretionWhy1: string := "To preserve judicial flexibility while ensuring consistent principled approach"
  const DiscretionFullText: string :=
    "Order 21 Rule 2(1): Subject to these Rules and any other "
    + "written law, the costs of and incidental to all proceedings are "
    + "in the discretion of the Court, and the Court has the full "
    + "power to determine by whom and to what extent the costs are to "
    + "be paid."

  /** Rule 2(1), the court's discretion, as `load_nodes` writes it; `LoadNodes` links the children. */
  method BuildDiscretion(now: DateTime, cases: seq<CaseCitation>) returns (n: Node)
    requires |cases| == 11
    ensures n.nodeId == DiscretionId && n.parentId == Some(RootId) && n.childrenIds == []
    ensures |n.citation| > 0 && |n.what| > 0
  {
    n := NewNode(DiscretionId, "Order 21 Rule 2(1) - Court's Discretion", APPELLATE_CASE).(
        parentId := Some(RootId),
        what := [PropAt(DiscretionWhat1, "Order 21 Rule 2(1)")],
        which := [
          PropAt(DiscretionWhich1, "Order 21 Rule 2(1)"),
          PropAt(DiscretionWhich2, "Founder Group [2023] SGCA 40")],
        ifThen := [CondAt(DiscretionIf1, DiscretionThen1, [], "Order 21 Rule 2(2)")],
        canMust := [
          ModAt(MAY, DiscretionMod1, [DiscretionMod1When1], "Order 21 Rule 2(1)"),
          ModAt(MUST, DiscretionMod2, [DiscretionMod2When1], "Order 21 Rule 2(2)")],
        given := [PropAt(DiscretionGiven1, "Order 21 Rule 2")],
        why := [
          PropAt(DiscretionWhy1, "Founder Group [2023] SGCA 40"),
          CaseLawProp("Case Law: ", cases[1]),
          QuoteProp(cases[1])],
        fullText := DiscretionFullText,
        moduleId := "order_21_costs",
        validatedBy := Some("Senior Counsel"),
        validatedDate := Some(now));
  }

  // order21_costs_rule2_factors
  const FactorsWhat1: string := "Court MUST have regard to eight mandatory factors when assessing costs"
  const FactorsWhich1: string := "Factor (a): Conduct and amicable resolution attempts"
  const FactorsWhich2: string := "Factor (b): Complexity or difficulty of the case"
  const FactorsWhich3: string := "Factor (c): Skill, labor, and specialized knowledge required"
  const FactorsWhich4: string := "Factor (d): Urgency and circumstances"
  const FactorsWhich5: string := "Factor (e): Number of solicitors involved"
  const FactorsWhich6: string := "Factor (f): Importance of matter to parties"
  const FactorsWhich7: string := "Factor (g): PROPORTIONALITY - costs in relation to matters at issue (MANDATORY)"
  const FactorsWhich8: string := "Factor (h): Stage at which proceedings concluded"
  const FactorsIf1: string := "Party unreasonably refuses mediation or settlement"
  const FactorsThen1: string := "May face adverse costs consequences including indemnity costs"
  const FactorsIf2: string := "Case is complex requiring specialized knowledge"
  const FactorsThen2: string := "Higher costs justified but must remain proportionate"
  const FactorsIf3: string := "Genuine urgency exists"
  const FactorsThen3: string := "Higher costs justified for expedited work"
  const FactorsMod1: string := "consider all eight factors"
  const FactorsMod1When1: string := "when assessing costs"
  const FactorsMod2: string := "ensure proportionality"
  const FactorsMod2When1: string := "in every costs assessment"
  const FactorsGiven1: string := "Court is assessing quantum of costs"
  const FactorsWhy1: string := "To ensure costs assessments are principled, consistent, and fair"
  const FactorsFullText: string :=
    "Order 21 Rule 2(2): Without limiting the matters that the Court "
    + "may take into account in exercising its discretion under "
    + "paragraph (1), the Court must have regard to: (a) conduct and "
    + "amicable resolution attempts; (b) complexity; (c) skill and "
    + "specialized knowledge; (d) urgency; (e) number of solicitors; "
    + "(f) importance to parties; (g) PROPORTIONALITY; (h) stage "
    + "concluded."

  /** Rule 2(2), the eight factors, as `load_nodes` writes it; `LoadNodes` links the children. */
  method BuildFactors(now: DateTime, cases: seq<CaseCitation>) returns (n: Node)
    requires |cases| == 11
    ensures n.nodeId == FactorsId && n.parentId == Some(DiscretionId) && n.childrenIds == []
    ensures |n.citation| > 0 && |n.what| > 0
    ensures n.citation == FactorsCitation && n.what[0].text == FactorsWhat1
    ensures |n.which| == 8 && n.which[0].text == FactorsWhich1 && n.which[1].text == FactorsWhich2 && n.which[2].text == FactorsWhich3
  {
    n := NewNode(FactorsId, FactorsCitation, RULE).(
        parentId := Some(DiscretionId),
        what := [PropAt(FactorsWhat1, "Order 21 Rule 2(2)")],
        which := [
          PropAt(FactorsWhich1, "Order 21 Rule 2(2)(a)"),
          PropAt(FactorsWhich2, "Order 21 Rule 2(2)(b)"),
          PropAt(FactorsWhich3, "Order 21 Rule 2(2)(c)"),
          PropAt(FactorsWhich4, "Order 21 Rule 2(2)(d)"),
          PropAt(FactorsWhich5, "Order 21 Rule 2(2)(e)"),
          PropAt(FactorsWhich6, "Order 21 Rule 2(2)(f)"),
          PropAt(FactorsWhich7, "Order 21 Rule 2(2)(g)"),
          PropAt(FactorsWhich8, "Order 21 Rule 2(2)(h)")],
        ifThen := [
          CondAt(FactorsIf1, FactorsThen1, [], "BNX v BOE [2023] SGHC 123"),
          CondAt(FactorsIf2, FactorsThen2, [], "Tan Soo Leng David [2023] SGHC 289"),
          CondAt(FactorsIf3, FactorsThen3, [], "UOL Development [2023] SGHC 167")],
        canMust := [
          ModAt(MUST, FactorsMod1, [FactorsMod1When1], "Order 21 Rule 2(2)"),
          ModAt(MUST, FactorsMod2, [FactorsMod2When1], "Order 21 Rule 2(2)(g); Armira Capital [2025] SGHCR 18")],
        given := [PropAt(FactorsGiven1, "Order 21 Rule 2(2)")],
        why := [
          PropAt(FactorsWhy1, "Order 21 Rule 2(2)"),
          CaseLawProp("Proportionality Case Law: ", cases[4]),
          QuoteProp(cases[4]),
          CaseLawProp("Amicable Resolution Case Law: ", cases[8]),
          CaseLawProp("Complexity Case Law: ", cases[9]),
          CaseLawProp("Urgency Case Law: ", cases[10])],
        fullText := FactorsFullText,
        moduleId := "order_21_costs",
        validatedBy := Some("Senior Counsel"),
        validatedDate := Some(now));
  }

  // order21_costs_rule3_follow_event
  const FollowEventWhat1: string := "General rule is unsuccessful party must pay costs of successful party"
  const FollowEventWhich1: string := "Applies as prima facie rule to all cost determinations"
  const FollowEventWhich2: string := "Presumption can be displaced by conduct or where justice requires"
  const FollowEventIf1: string := "Party succeeds in application or action"
  const FollowEventThen1: string := "That party is prima facie entitled to costs"
  const FollowEventIf2: string := "Party seeks to displace presumption"
  const FollowEventThen2: string := "Burden is on that party to show cause why costs should not follow event"
  const FollowEventMod1: string := "order unsuccessful party to pay costs"
  const FollowEventMod1When1: string := "unless cause shown to displace presumption"
  const FollowEventMod2: string := "depart from costs follow event principle"
  const FollowEventMod2When1: string := "where conduct or justice requires"
  const FollowEventGiven1: string := "Proceedings have concluded with identifiable successful party"
  const FollowEventWhy1: string := "To provide certainty and fairness that successful party recovers costs"
  const FollowEventFullText: string :=
    "Order 21 Rule 3(2): Subject to paragraph (1) and this Order, if "
    + "the Court decides to make an order for costs, the general rule "
    + "is that the unsuccessful party must pay the costs of the "
    + "successful party."

  /** Rule 3(2), costs follow the event, as `load_nodes` writes it; `LoadNodes` links the children. */
  method BuildFollowEvent(now: DateTime, cases: seq<CaseCitation>) returns (n: Node)
    requires |cases| == 11
    ensures n.nodeId == FollowEventId && n.parentId == Some(RootId) && n.childrenIds == []
    ensures |n.citation| > 0 && |n.what| > 0
    ensures n.citation == FollowEventCitation && n.what[0].text == FollowEventWhat1
    ensures |n.which| == 2 && n.which[0].text == FollowEventWhich1 && n.which[1].text == FollowEventWhich2
  {
    n := NewNode(FollowEventId, FollowEventCitation, HIGH_COURT_CASE).(
        parentId := Some(RootId),
        what := [PropAt(FollowEventWhat1, "Order 21 Rule 3(2)")],
        which := [
          PropAt(FollowEventWhich1, "Tjiang Giok Moy [2024] SGHC 146"),
          PropAt(FollowEventWhich2, "Tjiang Giok Moy [2024] SGHC 146")],
        ifThen := [
          CondAt(FollowEventIf1, FollowEventThen1, [], "Order 21 Rule 3(2)"),
          CondAt(FollowEventIf2, FollowEventThen2, [], "Tjiang Giok Moy [2024] SGHC 146")],
        canMust := [
          ModAt(MUST, FollowEventMod1, [FollowEventMod1When1], "Order 21 Rule 3(2)"),
          ModAt(MAY, FollowEventMod2, [FollowEventMod2When1], "Order 21 Rule 3(2)")],
        given := [PropAt(FollowEventGiven1, "Order 21 Rule 3")],
        why := [
          PropAt(FollowEventWhy1, "Common law principle"),
          CaseLawProp("Case Law: ", cases[2]),
          QuoteProp(cases[2])],
        fullText := FollowEventFullText,
        moduleId := "order_21_costs",
        validatedBy := Some("Senior Counsel"),
        validatedDate := Some(now));
  }

  // order21_costs_rule22_indemnity
  const IndemnityWhat1: string :=
    "Indemnity basis allows recovery of all costs reasonably "
    + "incurred, with doubts resolved in favor of receiving party"
  const IndemnityWhich1: string :=
    "Applies in exceptional circumstances: reprehensible conduct, "
    + "commercial dishonesty, abuse of process"
  const IndemnityWhich2: string :=
    "More generous than standard basis - removes proportionality "
    + "requirement and resolves doubts favorably"
  const IndemnityIf1: string := "Reprehensible conduct, dishonesty, or manifest unreasonableness proven"
  const IndemnityThen1: string := "Indemnity costs may be awarded"
  const IndemnityIf2: string := "Costs assessed on indemnity basis"
  const IndemnityThen2: string := "All costs allowed except unreasonable amount or unreasonably incurred"
  const IndemnityIf3: string := "Doubt exists whether costs reasonable"
  const IndemnityThen3: string := "Doubt resolved in favor of receiving party"
  const IndemnityMod1: string := "award indemnity costs"
  const IndemnityMod1When1: string := "where exceptional circumstances exist"
  const IndemnityMod2: string := "allow all costs except unreasonable ones"
  const IndemnityMod2When1: string := "on indemnity basis assessment"
  const IndemnityGiven1: string := "Court has decided to award costs on indemnity basis"
  const IndemnityGiven2: string := "Exceptional circumstances taking case out of norm exist"
  const IndemnityWhy1: string := "To compensate parties who face reprehensible or unreasonable conduct more fully"
  const IndemnityFullText: string :=
    "Order 21 Rule 22(3): Where costs are ordered on indemnity "
    + "basis, all costs shall be allowed except insofar as they are of "
    + "an unreasonable amount or have been unreasonably incurred, and "
    + "any doubts shall be resolved in favour of the receiving party."

  /** Rule 22(3), the indemnity basis, as `load_nodes` writes it; `LoadNodes` links the children. */
  method BuildIndemnity(now: DateTime, cases: seq<CaseCitation>) returns (n: Node)
    requires |cases| == 11
    ensures n.nodeId == IndemnityId && n.parentId == Some(RootId) && n.childrenIds == []
    ensures |n.citation| > 0 && |n.what| > 0
  {
    n := NewNode(IndemnityId, "Order 21 Rule 22(3) - Indemnity Basis", APPELLATE_CASE).(
        parentId := Some(RootId),
        what := [PropAt(IndemnityWhat1, "Order 21 Rule 22(3)")],
        which := [
          PropAt(IndemnityWhich1, "QBE Insurance [2023] SGCA 45"),
          PropAt(IndemnityWhich2, "Armira Capital [2025] SGHCR 18")],
        ifThen := [
          CondAt(IndemnityIf1, IndemnityThen1, [], "QBE Insurance [2023] SGCA 45"),
          CondAt(IndemnityIf2, IndemnityThen2, [], "Order 21 Rule 22(3)"),
          CondAt(IndemnityIf3, IndemnityThen3, [], "Order 21 Rule 22(3)")],
        canMust := [
          ModAt(MAY, IndemnityMod1, [IndemnityMod1When1], "QBE Insurance [2023] SGCA 45"),
          ModAt(MUST, IndemnityMod2, [IndemnityMod2When1], "Order 21 Rule 22(3)")],
        given := [
          PropAt(IndemnityGiven1, "Order 21 Rule 22"),
          PropAt(IndemnityGiven2, "QBE Insurance [2023] SGCA 45")],
        why := [
          PropAt(IndemnityWhy1, "Case law"),
          CaseLawProp("Assessment Case Law: ", cases[3]),
          QuoteProp(cases[3]),
          CaseLawProp("Exceptional Circumstances Case Law: ", cases[5]),
          QuoteProp(cases[5])],
        fullText := IndemnityFullText,
        moduleId := "order_21_costs",
        validatedBy := Some("Senior Counsel"),
        validatedDate := Some(now));
  }

  // appendixg_stay_applications
  const StayWhat1: string :=
    "Appendix G provides cost guidelines for stay applications "
    + "ranging from $3,000 to $23,000"
  const StayWhich1: string := "Stay for arbitration: $5,000-$23,000 depending on whether contested"
  const StayWhich2: string := "Stay on forum non conveniens: $6,000-$21,000"
  const StayWhich3: string := "Stay pending appeal: $3,000-$11,000"
  const StayIf1: string := "Stay application is simple and uncontested"
  const StayThen1: string := "Lower end of range applies (e.g., $3,000-$7,000)"
  const StayIf2: string := "Stay application is contested and complex"
  const StayThen2: string := "Upper end of range applies (e.g., $11,000-$23,000)"
  const StayIf3: string := "Party refuses or neglects to pay costs ordered"
  const StayThen3: string := "Court may stay or dismiss appeal under Rule 2(6)"
  const StayMod1: string := "use Appendix G as guideline for costs quantum"
  const StayMod1When1: string := "subject to Rule 2(2) eight factors"
  const StayMod2: string := "stay appeal for non-payment of costs"
  const StayMod2When1: string := "under Rule 2(6)"
  const StayGiven1: string := "Application is for stay of proceedings"
  const StayGiven2: string := "Type of stay identified (arbitration, forum non conveniens, or pending appeal)"
  const StayWhy1: string := "To provide predictable cost guidelines for stay applications"
  const StayFullText: string :=
    "Appendix G Part II Section 2 provides cost guidelines for stay "
    + "applications: Stay for arbitration $5,000-$23,000; Stay on "
    + "forum non conveniens $6,000-$21,000; Stay pending appeal "
    + "$3,000-$11,000. Ranges depend on whether contested and "
    + "complexity."

  /** Appendix G, stay applications, as `load_nodes` writes it; `LoadNodes` links the children. */
  method BuildStay(now: DateTime, cases: seq<CaseCitation>) returns (n: Node)
    requires |cases| == 11
    ensures n.nodeId == StayId && n.parentId == Some(RootId) && n.childrenIds == []
    ensures |n.citation| > 0 && |n.what| > 0
    ensures n.citation == StayCitation && n.what[0].text == StayWhat1
    ensures |n.which| == 3 && n.which[0].text == StayWhich1 && n.which[1].text == StayWhich2 && n.which[2].text == StayWhich3
  {
    n := NewNode(StayId, StayCitation, RULE).(
        parentId := Some(RootId),
        what := [PropAt(StayWhat1, "Appendix G, Part II, Section 2")],
        which := [
          PropAt(StayWhich1, "Appendix G"),
          PropAt(StayWhich2, "Appendix G"),
          PropAt(StayWhich3, "Appendix G")],
        ifThen := [
          CondAt(StayIf1, StayThen1, [], "Appendix G"),
          CondAt(StayIf2, StayThen2, [], "Appendix G"),
          CondAt(StayIf3, StayThen3, [], "Huttons Asia [2024] SGHC(A) 33")],
        canMust := [
          ModAt(MAY, StayMod1, [StayMod1When1], "Appendix G"),
          ModAt(MAY, StayMod2, [StayMod2When1], "Order 21 Rule 2(6)")],
        given := [
          PropAt(StayGiven1, "Appendix G"),
          PropAt(StayGiven2, "Appendix G")],
        why := [
          PropAt(StayWhy1, "Appendix G"),
          CaseLawProp("Stay Powers Case Law: ", cases[0]),
          QuoteProp(cases[0])],
        fullText := StayFullText,
        moduleId := "order_21_costs",
        validatedBy := Some("Senior Counsel"),
        validatedDate := Some(now));
  }

  // appendixg_commercial_trials
  const TrialsWhat1: string := "Appendix G provides cost guidelines for commercial trials based on claim value"
  const TrialsWhich1: string := "For $500,000 claim: Pre-trial preparation $25,000-$90,000"
  const TrialsWhich2: string := "For $500,000 claim: Daily trial tariff $6,000-$16,000 per day"
  const TrialsWhich3: string := "For $500,000 claim: Post-trial submissions $15,000-$35,000"
  const TrialsIf1: string := "Trial involves $500,000 claim with standard complexity"
  const TrialsThen1: string := "Total costs typically $46,000-$141,000 excluding disbursements"
  const TrialsIf2: string := "Trial is highly complex with extensive documentation"
  const TrialsThen2: string := "Upper end of ranges applies with possible upward adjustment"
  const TrialsIf3: string := "Costs must be proportionate to matters at issue"
  const TrialsThen3: string := "Court must assess whether costs reasonable relative to claim value"
  const TrialsMod1: string := "use Appendix G as starting point"
  const TrialsMod1When1: string := "subject to eight factors adjustment"
  const TrialsMod2: string := "ensure costs remain proportionate"
  const TrialsMod2When1: string := "even for complex trials"
  const TrialsGiven1: string := "Matter proceeding to trial"
  const TrialsGiven2: string := "Claim value and complexity identified"
  const TrialsWhy1: string := "To provide predictable cost structure for commercial litigation"
  const TrialsWhy2: string := "To ensure costs remain proportionate even in large claims"
  const TrialsFullText: string :=
    "Appendix G Part III Section 1 provides cost guidelines for "
    + "commercial trials based on claim value. For $500,000 claim: "
    + "Pre-trial $25,000-$90,000; Daily tariff $6,000-$16,000; "
    + "Post-trial $15,000-$35,000. Costs must remain proportionate "
    + "under Rule 2(2)(g)."

  /** Appendix G, commercial trials, as `load_nodes` writes it; `LoadNodes` links the children. */
  method BuildTrials(now: DateTime) returns (n: Node)
    ensures n.nodeId == TrialsId && n.parentId == Some(RootId) && n.childrenIds == []
    ensures |n.citation| > 0 && |n.what| > 0
  {
    n := NewNode(TrialsId, "Appendix G - Commercial Trials", RULE).(
        parentId := Some(RootId),
        what := [PropAt(TrialsWhat1, "Appendix G, Part III, Section 1")],
        which := [
          PropAt(TrialsWhich1, "Appendix G"),
          PropAt(TrialsWhich2, "Appendix G"),
          PropAt(TrialsWhich3, "Appendix G")],
        ifThen := [
          CondAt(TrialsIf1, TrialsThen1, [], "Appendix G (calculated from ranges)"),
          CondAt(TrialsIf2, TrialsThen2, [], "Appendix G; Rule 2(2)(b)(c)"),
          CondAt(TrialsIf3, TrialsThen3, [], "Rule 2(2)(g)")],
        canMust := [
          ModAt(MAY, TrialsMod1, [TrialsMod1When1], "Appendix G"),
          ModAt(MUST, TrialsMod2, [TrialsMod2When1], "Rule 2(2)(g)")],
        given := [
          PropAt(TrialsGiven1, "Appendix G"),
          PropAt(TrialsGiven2, "Appendix G")],
        why := [
          PropAt(TrialsWhy1, "Appendix G"),
          PropAt(TrialsWhy2, "Rule 2(2)(g); Armira Capital [2025] SGHCR 18")],
        fullText := TrialsFullText,
        moduleId := "order_21_costs",
        validatedBy := Some("Senior Counsel"),
        validatedDate := Some(now));
  }

  // order21_costs_rule7_litigant_in_person
  const LitigantWhat1: string := "Litigants-in-person entitled to costs for work done and out-of-pocket expenses"
  const LitigantWhich1: string := "Costs valued at lower rate than solicitor's costs (typically two-thirds)"
  const LitigantWhich2: string :=
    "Cannot recover costs for work they would have done themselves "
    + "even with representation"
  const LitigantIf1: string := "Litigant-in-person is successful"
  const LitigantThen1: string := "May be awarded costs using two-stage approach: identify work done, then value it"
  const LitigantIf2: string := "Work was reasonably done and time reasonably spent"
  const LitigantThen2: string := "Costs awarded at approximately two-thirds of solicitor's rate"
  const LitigantMod1: string := "award costs to litigant-in-person"
  const LitigantMod1When1: string := "for work done and out-of-pocket expenses"
  const LitigantMod2: string := "value costs at lower rate than solicitor"
  const LitigantMod2When1: string := "to reflect lack of professional qualification"
  const LitigantGiven1: string := "Party represents themselves without solicitor"
  const LitigantGiven2: string := "Party is entitled to costs"
  const LitigantWhy1: string :=
    "To compensate litigants-in-person for time and expenses while "
    + "reflecting non-professional status"
  const LitigantFullText: string :=
    "Order 21 Rule 7(1): Where a litigant in person is entitled to "
    + "costs, the Court may award costs for work done and any "
    + "out-of-pocket expenses incurred by the litigant in person. "
    + "Costs typically valued at two-thirds of solicitor's rate."

  /** Rule 7, litigants in person, as `load_nodes` writes it; `LoadNodes` links the children. */
  method BuildLitigant(now: DateTime, cases: seq<CaseCitation>) returns (n: Node)
    requires |cases| == 11
    ensures n.nodeId == LitigantId && n.parentId == Some(RootId) && n.childrenIds == []
    ensures |n.citation| > 0 && |n.what| > 0
    ensures n.citation == LitigantCitation && n.what[0].text == LitigantWhat1
    ensures |n.which| == 2 && n.which[0].text == LitigantWhich1 && n.which[1].text == LitigantWhich2
  {
    n := NewNode(LitigantId, LitigantCitation, HIGH_COURT_CASE).(
        parentId := Some(RootId),
        what := [PropAt(LitigantWhat1, "Order 21 Rule 7(1)")],
        which := [
          PropAt(LitigantWhich1, "Chan Hui Peng [2022] SGHC 232"),
          PropAt(LitigantWhich2, "Chan Hui Peng [2022] SGHC 232")],
        ifThen := [
          CondAt(LitigantIf1, LitigantThen1, [], "Chan Hui Peng [2022] SGHC 232"),
          CondAt(LitigantIf2, LitigantThen2, [], "Chan Hui Peng [2022] SGHC 232")],
        canMust := [
          ModAt(MAY, LitigantMod1, [LitigantMod1When1], "Order 21 Rule 7(1)"),
          ModAt(MUST, LitigantMod2, [LitigantMod2When1], "Chan Hui Peng [2022] SGHC 232")],
        given := [
          PropAt(LitigantGiven1, "Order 21 Rule 7"),
          PropAt(LitigantGiven2, "Order 21 Rule 7")],
        why := [
          PropAt(LitigantWhy1, "Chan Hui Peng [2022] SGHC 232"),
          CaseLawProp("Case Law: ", cases[6]),
          QuoteProp(cases[6])],
        fullText := LitigantFullText,
        moduleId := "order_21_costs",
        validatedBy := Some("Senior Counsel"),
        validatedDate := Some(now));
  }

  // order21_costs_rule5_nonparty
  const NonPartyWhat1: string :=
    "Court may order non-party to pay costs if they played "
    + "sufficiently active role in proceedings"
  const NonPartyWhich1: string :=
    "Applies to funders, directors, or others actively involved in "
    + "conduct of proceedings"
  const NonPartyWhich2: string := "Requires clear evidence that non-party caused opposing party to incur costs"
  const NonPartyIf1: string := "Non-party played sufficiently active role in proceedings"
  const NonPartyThen1: string := "Court may order that non-party pay costs"
  const NonPartyIf2: string := "Non-party merely provides funding without active involvement"
  const NonPartyThen2: string := "Generally insufficient for non-party costs order"
  const NonPartyMod1: string := "order non-party to pay costs"
  const NonPartyMod1When1: string := "if sufficiently active role proven"
  const NonPartyMod2: string := "show non-party played active role"
  const NonPartyMod2When1: string := "before non-party costs ordered"
  const NonPartyGiven1: string := "Party seeking non-party costs order"
  const NonPartyGiven2: string := "Evidence of non-party involvement in proceedings"
  const NonPartyWhy1: string := "To prevent parties from hiding behind non-parties to avoid costs liability"
  const NonPartyFullText: string :=
    "Order 21 Rule 5: The Court may order a non-party to pay costs "
    + "if the non-party has played a sufficiently active role in the "
    + "conduct of the proceedings such that it would be just to make a "
    + "costs order against that non-party."

  /** Rule 5, non-party costs, as `load_nodes` writes it; `LoadNodes` links the children. */
  method BuildNonParty(now: DateTime, cases: seq<CaseCitation>) returns (n: Node)
    requires |cases| == 11
    ensures n.nodeId == NonPartyId && n.parentId == Some(RootId) && n.childrenIds == []
    ensures |n.citation| > 0 && |n.what| > 0
  {
    n := NewNode(NonPartyId, "Order 21 Rule 5 - Non-Party Costs", APPELLATE_CASE).(
        parentId := Some(RootId),
        what := [PropAt(NonPartyWhat1, "Order 21 Rule 5")],
        which := [
          PropAt(NonPartyWhich1, "Founder Group [2023] SGCA 40"),
          PropAt(NonPartyWhich2, "Founder Group [2023] SGCA 40")],
        ifThen := [
          CondAt(NonPartyIf1, NonPartyThen1, [], "Founder Group [2023] SGCA 40"),
          CondAt(NonPartyIf2, NonPartyThen2, [], "Founder Group [2023] SGCA 40")],
        canMust := [
          ModAt(MAY, NonPartyMod1, [NonPartyMod1When1], "Order 21 Rule 5"),
          ModAt(MUST, NonPartyMod2, [NonPartyMod2When1], "Founder Group [2023] SGCA 40")],
        given := [
          PropAt(NonPartyGiven1, "Order 21 Rule 5"),
          PropAt(NonPartyGiven2, "Founder Group [2023] SGCA 40")],
        why := [
          PropAt(NonPartyWhy1, "Founder Group [2023] SGCA 40"),
          CaseLawProp("Case Law (Non-Party Costs): ", cases[1]),
          QuoteProp(cases[1])],
        fullText := NonPartyFullText,
        moduleId := "order_21_costs",
        validatedBy := Some("Senior Counsel"),
        validatedDate := Some(now));
  }

  // order21_costs_rule6_solicitor
  const SolicitorWhat1: string :=
    "Court may order solicitor personally to pay costs if acted "
    + "improperly, unreasonably, or negligently"
  const SolicitorWhich1: string :=
    "Test is conjunctive: improper/unreasonable/negligent conduct "
    + "AND causation of unnecessary costs"
  const SolicitorWhich2: string :=
    "Examples: hopeless applications, scandalous allegations, "
    + "non-compliance with orders"
  const SolicitorIf1: string := "Solicitor acts improperly, unreasonably, or negligently"
  const SolicitorThen1: string := "AND unnecessary costs resulted, THEN personal costs order may be made"
  const SolicitorIf2: string := "Solicitor pursues hopeless application without reasonable grounds"
  const SolicitorThen2: string := "May face personal costs order"
  const SolicitorMod1: string := "order solicitor personally to pay costs"
  const SolicitorMod1When1: string := "if improper conduct causing costs proven"
  const SolicitorMod2: string := "prove both conduct and causation"
  const SolicitorMod2When1: string := "before personal costs order made"
  const SolicitorGiven1: string := "Solicitor's conduct in proceedings is at issue"
  const SolicitorGiven2: string := "Evidence of improper, unreasonable, or negligent conduct exists"
  const SolicitorWhy1: string := "To hold solicitors accountable for conduct that increases costs unnecessarily"
  const SolicitorFullText: string :=
    "Order 21 Rule 6(1): The Court may make a costs order against a "
    + "solicitor if the solicitor has acted improperly, unreasonably "
    + "or negligently and, as a result, costs have been incurred. Test "
    + "is conjunctive requiring both conduct and causation."

  /** Rule 6, personal costs orders against solicitors, as `load_nodes` writes it; `LoadNodes` links the children. */
  method BuildSolicitor(now: DateTime, cases: seq<CaseCitation>) returns (n: Node)
    requires |cases| == 11
    ensures n.nodeId == SolicitorId && n.parentId == Some(RootId) && n.childrenIds == []
    ensures |n.citation| > 0 && |n.what| > 0
  {
    n := NewNode(SolicitorId, "Order 21 Rule 6 - Personal Costs Orders", HIGH_COURT_CASE).(
        parentId := Some(RootId),
        what := [PropAt(SolicitorWhat1, "Order 21 Rule 6(1)")],
        which := [
          PropAt(SolicitorWhich1, "Tajudin [2025] SGHCR 33"),
          PropAt(SolicitorWhich2, "Tajudin [2025] SGHCR 33")],
        ifThen := [
          CondAt(SolicitorIf1, SolicitorThen1, [], "Order 21 Rule 6; Tajudin [2025] SGHCR 33"),
          CondAt(SolicitorIf2, SolicitorThen2, [], "Tajudin [2025] SGHCR 33")],
        canMust := [
          ModAt(MAY, SolicitorMod1, [SolicitorMod1When1], "Order 21 Rule 6(1)"),
          ModAt(MUST, SolicitorMod2, [SolicitorMod2When1], "Tajudin [2025] SGHCR 33")],
        given := [
          PropAt(SolicitorGiven1, "Order 21 Rule 6"),
          PropAt(SolicitorGiven2, "Tajudin [2025] SGHCR 33")],
        why := [
          PropAt(SolicitorWhy1, "Tajudin [2025] SGHCR 33"),
          CaseLawProp("Case Law: ", cases[7]),
          QuoteProp(cases[7])],
        fullText := SolicitorFullText,
        moduleId := "order_21_costs",
        validatedBy := Some("Senior Counsel"),
        validatedDate := Some(now));
  }

  // ---------------------------------------------------------------------------
  // load_nodes

  /** The root's children, in the order `load_nodes` links them. */
  const RootChildren: seq<string> :=
    [DiscretionId, FollowEventId, IndemnityId, StayId, TrialsId, LitigantId, NonPartyId, SolicitorId]

  /** The node under `id` is a leaf hanging from the root. */
  ghost predicate UnderRoot(t: Nodes, id: string) {
    id in t.byId && t.byId[id].parentId == Some(RootId) && t.byId[id].childrenIds == []
  }

  /** The root over seven rules and two Appendix G nodes, and Rule 2(1) over the eight factors. */
  ghost predicate TreeShape(t: Nodes) {
    t.ids == [RootId, DiscretionId, FactorsId, FollowEventId, IndemnityId,
              StayId, TrialsId, LitigantId, NonPartyId, SolicitorId]
    && t.byId[RootId].parentId.None? && t.byId[RootId].childrenIds == RootChildren
    && t.byId[DiscretionId].parentId == Some(RootId) && t.byId[DiscretionId].childrenIds == [FactorsId]
    && t.byId[FactorsId].parentId == Some(DiscretionId) && t.byId[FactorsId].childrenIds == []
    && UnderRoot(t, FollowEventId) && UnderRoot(t, IndemnityId) && UnderRoot(t, StayId)
    && UnderRoot(t, TrialsId) && UnderRoot(t, LitigantId) && UnderRoot(t, NonPartyId)
    && UnderRoot(t, SolicitorId)
  }

  /** A node cited as `citation` whose first WHAT item is `what`. */
  predicate Opens(n: Node, citation: string, what: string) {
    n.citation == citation && |n.what| > 0 && n.what[0].text == what
  }

  /** The stay node's citation, principle and three factors, as the worked stay question reads them. */
  ghost predicate StaySample(t: Nodes) {
    StayId in t.byId && Opens(t.byId[StayId], StayCitation, StayWhat1) && |t.byId[StayId].which| == 3
    && t.byId[StayId].which[0].text == StayWhich1 && t.byId[StayId].which[1].text == StayWhich2
    && t.byId[StayId].which[2].text == StayWhich3
  }

  /** The eight factors' citation, principle and first three factors. */
  ghost predicate FactorsSample(t: Nodes) {
    FactorsId in t.byId && Opens(t.byId[FactorsId], FactorsCitation, FactorsWhat1) && |t.byId[FactorsId].which| == 8
    && t.byId[FactorsId].which[0].text == FactorsWhich1 && t.byId[FactorsId].which[1].text == FactorsWhich2
    && t.byId[FactorsId].which[2].text == FactorsWhich3
  }

  /** Rule 3(2)'s citation, principle and two factors. */
  ghost predicate FollowEventSample(t: Nodes) {
    FollowEventId in t.byId && Opens(t.byId[FollowEventId], FollowEventCitation, FollowEventWhat1)
    && |t.byId[FollowEventId].which| == 2
    && t.byId[FollowEventId].which[0].text == FollowEventWhich1
    && t.byId[FollowEventId].which[1].text == FollowEventWhich2
  }

  /** Rule 7's citation, principle and two factors. */
  ghost predicate LitigantSample(t: Nodes) {
    LitigantId in t.byId && Opens(t.byId[LitigantId], LitigantCitation, LitigantWhat1) && |t.byId[LitigantId].which| == 2
    && t.byId[LitigantId].which[0].text == LitigantWhich1 && t.byId[LitigantId].which[1].text == LitigantWhich2
  }

  /** The texts the worked cost questions end on. */
  ghost predicate Samples(t: Nodes) {
    TreeShape(t) && StaySample(t) && FactorsSample(t) && FollowEventSample(t) && LitigantSample(t)
  }

  /** What `load_nodes` returns, as far as the model states it. */
  ghost predicate Loaded(t: Nodes) {
    TreeShape(t) && WellLinked(t) && Samples(t)
  }

  /**
   * The lengths and characters that tell the ten ids apart: Rule 2(1) from Rule 22 at
   * index 19, the factors from the Appendix G ids at index 0, and the two Appendix G ids
   * at index 10.
   */
  lemma IdsApart()
    ensures |RootId| == 18 && |DiscretionId| == 30 && |FactorsId| == 27 && |FollowEventId| == 32
    ensures |IndemnityId| == 30 && |StayId| == 27 && |TrialsId| == 27 && |LitigantId| == 38
    ensures |NonPartyId| == 28 && |SolicitorId| == 29
    ensures DiscretionId[19] == '_' && IndemnityId[19] == '2'
    ensures FactorsId[0] == 'o' && StayId[0] == 'a' && TrialsId[0] == 'a'
    ensures StayId[10] == 's' && TrialsId[10] == 'c'
  {
  }

  /** The ten ids differ pairwise. */
  lemma IdsDiffer()
    ensures RootId != DiscretionId && RootId != FactorsId && RootId != FollowEventId && RootId != IndemnityId && RootId != StayId && RootId != TrialsId && RootId != LitigantId && RootId != NonPartyId && RootId != SolicitorId
      && DiscretionId != FactorsId && DiscretionId != FollowEventId && DiscretionId != IndemnityId && DiscretionId != StayId && DiscretionId != TrialsId && DiscretionId != LitigantId && DiscretionId != NonPartyId && DiscretionId != SolicitorId
      && FactorsId != FollowEventId && FactorsId != IndemnityId && FactorsId != StayId && FactorsId != TrialsId && FactorsId != LitigantId && FactorsId != NonPartyId && FactorsId != SolicitorId
      && FollowEventId != IndemnityId && FollowEventId != StayId && FollowEventId != TrialsId && FollowEventId != LitigantId && FollowEventId != NonPartyId && FollowEventId != SolicitorId
      && IndemnityId != StayId && IndemnityId != TrialsId && IndemnityId != LitigantId && IndemnityId != NonPartyId && IndemnityId != SolicitorId
      && StayId != TrialsId && StayId != LitigantId && StayId != NonPartyId && StayId != SolicitorId
      && TrialsId != LitigantId && TrialsId != NonPartyId && TrialsId != SolicitorId
      && LitigantId != NonPartyId && LitigantId != SolicitorId
      && NonPartyId != SolicitorId
  {
    IdsApart();
  }

  /** A tree of that shape whose ten nodes are filled in is well linked. */
  lemma ShapeLinked(t: Nodes)
    requires TreeShape(t)
    requires Filled(t, RootId) && Filled(t, DiscretionId) && Filled(t, FactorsId)
    requires Filled(t, FollowEventId) && Filled(t, IndemnityId) && Filled(t, StayId)
    requires Filled(t, TrialsId) && Filled(t, LitigantId) && Filled(t, NonPartyId)
    requires Filled(t, SolicitorId)
    ensures WellLinked(t)
  {
    assert LinkedAt(t, RootId);
    assert LinkedAt(t, DiscretionId);
    LeafLinked(t, FactorsId, DiscretionId);
    LeafLinked(t, FollowEventId, RootId);
    LeafLinked(t, IndemnityId, RootId);
    LeafLinked(t, StayId, RootId);
    LeafLinked(t, TrialsId, RootId);
    LeafLinked(t, LitigantId, RootId);
    LeafLinked(t, NonPartyId, RootId);
    LeafLinked(t, SolicitorId, RootId);
    LinkedTen(t, RootId, DiscretionId, FactorsId, FollowEventId, IndemnityId,
              StayId, TrialsId, LitigantId, NonPartyId, SolicitorId);
  }

  /**
   * The linking half of `load_nodes`: the root is given its eight children and Rule 2(1)
   * the eight factors, and the ten nodes are stored under their ids in insertion order.
   */
  method Assemble(root: Node, discretion: Node, factors: Node, followEvent: Node, indemnity: Node,
                  stay: Node, trials: Node, litigant: Node, nonParty: Node, solicitor: Node)
    returns (t: Nodes)
    requires root.nodeId == RootId && root.parentId.None?
    requires discretion.nodeId == DiscretionId && discretion.parentId == Some(RootId)
    requires factors.nodeId == FactorsId && factors.parentId == Some(DiscretionId)
    requires followEvent.nodeId == FollowEventId && followEvent.parentId == Some(RootId)
    requires indemnity.nodeId == IndemnityId && indemnity.parentId == Some(RootId)
    requires stay.nodeId == StayId && stay.parentId == Some(RootId)
    requires trials.nodeId == TrialsId && trials.parentId == Some(RootId)
    requires litigant.nodeId == LitigantId && litigant.parentId == Some(RootId)
    requires nonParty.nodeId == NonPartyId && nonParty.parentId == Some(RootId)
    requires solicitor.nodeId == SolicitorId && solicitor.parentId == Some(RootId)
    requires factors.childrenIds == [] && followEvent.childrenIds == [] && indemnity.childrenIds == []
    requires stay.childrenIds == [] && trials.childrenIds == [] && litigant.childrenIds == []
    requires nonParty.childrenIds == [] && solicitor.childrenIds == []
    requires |root.citation| > 0 && |root.what| > 0 && |discretion.citation| > 0 && |discretion.what| > 0
    requires |factors.citation| > 0 && |factors.what| > 0 && |followEvent.citation| > 0 && |followEvent.what| > 0
    requires |indemnity.citation| > 0 && |indemnity.what| > 0 && |stay.citation| > 0 && |stay.what| > 0
    requires |trials.citation| > 0 && |trials.what| > 0 && |litigant.citation| > 0 && |litigant.what| > 0
    requires |nonParty.citation| > 0 && |nonParty.what| > 0 && |solicitor.citation| > 0 && |solicitor.what| > 0
    ensures TreeShape(t) && WellLinked(t)
    ensures t.byId[StayId] == stay && t.byId[FactorsId] == factors
    ensures t.byId[FollowEventId] == followEvent && t.byId[LitigantId] == litigant
  {
    var r := root.(childrenIds := RootChildren);
    var d := discretion.(childrenIds := [FactorsId]);
    IdsDiffer();
    var rules := Table5(r, d, factors, followEvent, indemnity);
    var rest := Table5(stay, trials, litigant, nonParty, solicitor);
    Disjoint5And5(rules, rest, RootId, DiscretionId, FactorsId, FollowEventId, IndemnityId,
                  StayId, TrialsId, LitigantId, NonPartyId, SolicitorId);
    t := Union(rules, rest);
    Concat5And5(RootId, DiscretionId, FactorsId, FollowEventId, IndemnityId,
                StayId, TrialsId, LitigantId, NonPartyId, SolicitorId);
    ShapeLinked(t);
  }

  /** `load_nodes`: the ten nodes of the costs tree, linked and stored in insertion order. */
  method LoadNodes(now: DateTime, cases: seq<CaseCitation>) returns (t: Nodes)
    requires |cases| == 11
    ensures Loaded(t)
  {
    var root := BuildRoot(now);
    var discretion := BuildDiscretion(now, cases);
    var factors := BuildFactors(now, cases);
    var followEvent := BuildFollowEvent(now, cases);
    var indemnity := BuildIndemnity(now, cases);
    var stay := BuildStay(now, cases);
    var trials := BuildTrials(now);
    var litigant := BuildLitigant(now, cases);
    var nonParty := BuildNonParty(now, cases);
    var solicitor := BuildSolicitor(now, cases);
    t := Assemble(root, discretion, factors, followEvent, indemnity,
                  stay, trials, litigant, nonParty, solicitor);
  }

  /** Every loaded node passes `validate_node`. */
  lemma LoadedValidates(t: Nodes)
    requires Loaded(t)
    ensures forall k :: k in t.byId ==> ValidationErrors(t, t.byId[k]) == []
  {
    WellLinkedValidates(t);
  }

  /** The only root of a table of that shape is the costs root. */
  lemma LoadedRoots(t: Nodes)
    requires TreeShape(t)
    ensures forall x :: x in Roots(t) <==> x == RootId
  {
    RootsTen(t, RootId, DiscretionId, FactorsId, FollowEventId, IndemnityId,
             StayId, TrialsId, LitigantId, NonPartyId, SolicitorId);
  }

  /**
   * `Order21CostsModule()`: the case citations are read, then the module is made with its
   * metadata and the loaded table, not yet initialised.
   */
  method NewModule(now: DateTime) returns (m: LogicTreeModule)
    ensures fresh(m) && m.metadata.moduleId == "order_21_costs" && m.metadata.authorityWeight == 0.9
    ensures Loaded(m.loaded) && !m.initialized && m.Valid()
  {
    var cases := LoadCaseCitations();
    var t := LoadNodes(now, cases);
    m := new LogicTreeModule(Metadata(now, AppendixG), t);
  }

  // ---------------------------------------------------------------------------
  // search

  /** A question about an amount: "cost for", "costs for", "how much", "$", "dollar" or "amount". */
  predicate AsksMoney(ql: string) {
    Contains(ql, "cost for") || Contains(ql, "costs for") || Contains(ql, "how much")
    || Contains(ql, "$") || Contains(ql, "dollar") || Contains(ql, "amount")
  }

  /** The result of the first pass of `search`: 3.0 for an Appendix G node when the query asks about an amount. */
  function BoostOf(n: Node, q: string): SearchResult {
    SearchResult(n, if AsksMoney(q) && Contains(n.nodeId, "appendixg") then 3.0 else 0.0, [],
                 "APPENDIX_G", n.citation)
  }

  function Boost(q: string): Node -> SearchResult {
    n => BoostOf(n, q)
  }

  function Whole(s: string): string {
    s
  }

  /** `prop.text[:200]`. */
  function Clip200(s: string): string {
    Take(s, 200)
  }

  /**
   * The score of the second pass for node `n` and the lowered query `q`: 2.0 once for a
   * WHAT match, 1.5 per matching WHICH item, 1.5 per matching conditional, 1.0 per
   * matching WHY item, 0.5 for the full text and 1.0 for the citation.
   */
  function Score(n: Node, q: string): real {
    Bonus(First(n.what, PropTest(q)).Some?, 2.0)
    + Weigh(Count(n.which, PropTest(q)), 1.5)
    + 1.5 * Count(n.ifThen, CondTest(q)) as real
    + Weigh(Count(n.why, PropTest(q)), 1.0)
    + Bonus(Contains(Lower(n.fullText), q), 0.5)
    + Bonus(Contains(Lower(n.citation), q), 1.0)
  }

  /** The first match, WHAT before WHICH before IF_THEN before WHY, the WHY text clipped to 200 characters. */
  function Matched(n: Node, q: string): Match {
    Then(Then(Then(PropMatch(n.what, q, "WHAT"), PropMatchAs(n.which, q, "WHICH", Whole)),
              CondMatch(n.ifThen, q)),
         PropMatchAs(n.why, q, "WHY", Clip200))
  }

  function HitOf(n: Node, q: string): SearchResult {
    SearchResult(n, Score(n, q), [], Matched(n, q).0, Matched(n, q).1)
  }

  function Hit(q: string): Node -> SearchResult {
    n => HitOf(n, q)
  }

  /**
   * A node scores above zero in the second pass iff one of its WHAT, WHICH, IF_THEN or
   * WHY items, its full text or its citation holds the query.
   */
  lemma ScorePositive(n: Node, q: string)
    ensures Score(n, q) >= 0.0
    ensures Score(n, q) > 0.0 <==>
      (exists i :: 0 <= i < |n.what| && Contains(Lower(n.what[i].text), q))
      || (exists i :: 0 <= i < |n.which| && Contains(Lower(n.which[i].text), q))
      || (exists i :: 0 <= i < |n.ifThen| && CondTest(q)(n.ifThen[i]))
      || (exists i :: 0 <= i < |n.why| && Contains(Lower(n.why[i].text), q))
      || Contains(Lower(n.fullText), q) || Contains(Lower(n.citation), q)
  {
    WeighIsProduct(Count(n.which, PropTest(q)), 1.5);
    WeighIsProduct(Count(n.why, PropTest(q)), 1.0);
  }

  /** The score is bounded by the items a node can match. */
  lemma ScoreBound(n: Node, q: string)
    ensures Score(n, q) <= 3.5 + 1.5 * (|n.which| + |n.ifThen|) as real + |n.why| as real
  {
    WeighBound(Count(n.which, PropTest(q)), 1.5, |n.which|);
    WeighBound(Count(n.why, PropTest(q)), 1.0, |n.why|);
    var b := Count(n.ifThen, CondTest(q));
    assert 1.5 * b as real <= 1.5 * |n.ifThen| as real;
  }

  /** The recorded dimension is never the boost's, and is empty iff no item matched. */
  lemma MatchedMeaning(n: Node, q: string)
    ensures Matched(n, q).0 != "APPENDIX_G"
    ensures Matched(n, q).0 == "" <==>
      First(n.what, PropTest(q)).None? && First(n.which, PropTest(q)).None?
      && First(n.ifThen, CondTest(q)).None? && First(n.why, PropTest(q)).None?
  {
  }

  /** The second pass's loops over one node. */
  method ScoreNode(n: Node, q: string) returns (score: real, m: Match)
    ensures score == Score(n, q) && m == Matched(n, q)
  {
    score, m := ScanFirstProp(n.what, q, 2.0, "WHAT");
    score, m := ScanProps(n.which, q, 1.5, "WHICH", Whole, score, m);
    score, m := ScanConds(n.ifThen, q, score, m);
    score, m := ScanProps(n.why, q, 1.0, "WHY", Clip200, score, m);
    if Contains(Lower(n.fullText), q) {
      score := score + 0.5;
    }
    if Contains(Lower(n.citation), q) {
      score := score + 1.0;
    }
  }

  /** Without an amount in the query the first pass adds nothing. */
  lemma {:induction false} NoBoost(ns: seq<Node>, q: string)
    requires !AsksMoney(q)
    ensures Kept(ns, Boost(q)) == []
  {
    if |ns| > 0 {
      NoBoost(ns[..|ns| - 1], q);
    }
  }

  /** The first pass of `search`: for an amount question every Appendix G node at 3.0, in insertion order. */
  method BoostPass(ns: seq<Node>, q: string) returns (results: seq<SearchResult>)
    ensures results == Kept(ns, Boost(q))
  {
    results := [];
    if !AsksMoney(q) {
      NoBoost(ns, q);
      return;
    }
    var i := 0;
    while i < |ns|
      invariant 0 <= i <= |ns|
      invariant results == Kept(ns[..i], Boost(q))
    {
      KeptSnoc(ns, Boost(q), i);
      if Contains(ns[i].nodeId, "appendixg") {
        results := results + [SearchResult(ns[i], 3.0, [], "APPENDIX_G", ns[i].citation)];
      }
      i := i + 1;
    }
    assert ns[..i] == ns;
  }

  /** The second pass of `search`: every node scored, in insertion order, those above zero kept. */
  method ScorePass(ns: seq<Node>, q: string) returns (hits: seq<SearchResult>)
    ensures hits == Kept(ns, Hit(q))
  {
    hits := [];
    var i := 0;
    while i < |ns|
      invariant 0 <= i <= |ns|
      invariant hits == Kept(ns[..i], Hit(q))
    {
      var score, matched := ScoreNode(ns[i], q);
      KeptSnoc(ns, Hit(q), i);
      if score > 0.0 {
        hits := hits + [SearchResult(ns[i], score, [], matched.0, matched.1)];
      }
      i := i + 1;
    }
    assert ns[..i] == ns;
  }

  /** `search`: the boost pass, then the scoring pass appended to it, all ranked together. */
  method Search(m: LogicTreeModule, query: string, topK: int) returns (r: seq<SearchResult>)
    ensures r == BoostedSearchOver(m.nodes, Boost(Lower(query)), Hit(Lower(query)), topK)
  {
    var q := Lower(query);
    var ns := Values(m.nodes);
    var boosted := BoostPass(ns, q);
    var hits := ScorePass(ns, q);
    r := Ranked(boosted + hits, topK);
  }

  /**
   * What `search` returns: results of either pass for the table's own nodes, each scoring
   * above zero, best first, at most `topK`; a result recorded under APPENDIX_G is a boost
   * at 3.0 of a node whose id holds "appendixg", for a query asking about an amount; and
   * when `topK` covers both passes nothing that scored is dropped.
   */
  lemma SearchMeaning(t: Nodes, query: string, topK: int)
    ensures var q := Lower(query); var r := BoostedSearchOver(t, Boost(q), Hit(q), topK);
      SortedDesc(r, Relevance)
      && (topK >= 0 ==> |r| <= topK)
      && (forall h :: h in r ==>
            h.relevanceScore > 0.0
            && exists k :: k in t.byId && (h == BoostOf(t.byId[k], q) || h == HitOf(t.byId[k], q)))
      && (forall h :: h in r && h.matchedDimension == "APPENDIX_G" ==>
            AsksMoney(q) && Contains(h.node.nodeId, "appendixg") && h.relevanceScore == 3.0
            && h.matchedText == h.node.citation)
      && (topK >= 2 * |t.ids| ==> forall k :: k in t.byId ==>
            (Score(t.byId[k], q) > 0.0 ==> HitOf(t.byId[k], q) in r)
            && (AsksMoney(q) && Contains(t.byId[k].nodeId, "appendixg") ==> BoostOf(t.byId[k], q) in r))
  {
    var q := Lower(query);
    var r := BoostedSearchOver(t, Boost(q), Hit(q), topK);
    BoostedSearchOverMeaning(t, Boost(q), Hit(q), topK);
    forall h | h in r && h.matchedDimension == "APPENDIX_G"
      ensures AsksMoney(q) && Contains(h.node.nodeId, "appendixg") && h.relevanceScore == 3.0
              && h.matchedText == h.node.citation
    {
      var k :| k in t.byId && (h == BoostOf(t.byId[k], q) || h == HitOf(t.byId[k], q));
      MatchedMeaning(t.byId[k], q);
    }
  }

  /** Both Appendix G ids hold "appendixg". */
  lemma AppendixGIds()
    ensures Contains(StayId, "appendixg") && Contains(TrialsId, "appendixg")
  {
    assert StayId[..9] == "appendixg" && TrialsId[..9] == "appendixg";
  }

  /** An amount question over the loaded table brings up both Appendix G nodes at 3.0. */
  lemma MoneySearch(t: Nodes, query: string, topK: int)
    requires TreeShape(t) && WellLinked(t) && AsksMoney(Lower(query)) && topK >= 20
    ensures var q := Lower(query); var r := BoostedSearchOver(t, Boost(q), Hit(q), topK);
      BoostOf(t.byId[StayId], q) in r && BoostOf(t.byId[TrialsId], q) in r
      && BoostOf(t.byId[StayId], q).relevanceScore == 3.0 && BoostOf(t.byId[TrialsId], q).relevanceScore == 3.0
  {
    SearchMeaning(t, query, topK);
    AppendixGIds();
  }

  // ---------------------------------------------------------------------------
  // reason

  const NotCoveredText: string := "Question not covered by Order 21 Costs module"
  const NoRulesText: string := "No relevant rules found in Order 21 Costs"

  predicate AsksStay(ql: string) {
    Contains(ql, "stay")
  }

  predicate AsksTrial(ql: string) {
    Contains(ql, "trial")
  }

  predicate AsksIndemnity(ql: string) {
    Contains(ql, "indemnity")
  }

  predicate AsksLitigant(ql: string) {
    Contains(ql, "litigant") && Contains(ql, "person")
  }

  predicate AsksNonParty(ql: string) {
    Contains(ql, "non-party") || Contains(ql, "non party")
  }

  predicate AsksFollowEvent(ql: string) {
    Contains(ql, "follow") && Contains(ql, "event")
  }

  predicate AsksDiscretion(ql: string) {
    Contains(ql, "discretion") || Contains(ql, "factors")
  }

  /** The application type a stay question is costed as: arbitration, then forum, then appeal, else plain "stay". */
  function StayType(ql: string): string {
    if Contains(ql, "arbitration") then "stay arbitration"
    else if Contains(ql, "forum") || Contains(ql, "conveniens") then "stay forum"
    else if Contains(ql, "appeal") then "stay appeal"
    else "stay"
  }

  /**
   * The ids `reason` collects in `relevant_nodes`: an amount question names a stay or a
   * trial and always adds the eight factors; otherwise the first of indemnity, litigant in
   * person, non-party, costs follow the event, and discretion or factors that the question
   * names picks its rules. Ids missing from the table are skipped.
   */
  function Relevant(t: Nodes, ql: string): (ids: seq<string>)
    ensures forall id :: id in ids ==> id in t.byId
  {
    if AsksMoney(ql) then
      (if AsksStay(ql) then Picked(t, StayId) else if AsksTrial(ql) then Picked(t, TrialsId) else [])
      + Picked(t, FactorsId)
    else if AsksIndemnity(ql) then Picked(t, IndemnityId)
    else if AsksLitigant(ql) then Picked(t, LitigantId)
    else if AsksNonParty(ql) then Picked(t, NonPartyId)
    else if AsksFollowEvent(ql) then Picked(t, FollowEventId)
    else if AsksDiscretion(ql) then Picked(t, DiscretionId) + Picked(t, FactorsId)
    else []
  }

  /**
   * The cost calculation `reason` runs, if any: an amount question naming a stay is costed
   * as a contested standard stay of its type, one naming a trial as a contested standard
   * trial.
   */
  function CostQuery(ql: string, cats: Categories): (r: Option<CostResult>)
    ensures r.Some? <==> AsksMoney(ql) && (AsksStay(ql) || AsksTrial(ql))
  {
    if AsksMoney(ql) && AsksStay(ql) then Some(Calculation(cats, StayType(ql), "standard", true))
    else if AsksMoney(ql) && AsksTrial(ql) then Some(Calculation(cats, "trial", "standard", true))
    else None
  }

  /** The steps `reason` takes from one node: at most two WHAT, three WHICH, two IF_THEN and three WHY items. */
  function NodeChain(n: Node): seq<ReasoningStep> {
    PropSteps(n, "WHAT", Take(n.what, 2)) + PropSteps(n, "WHICH", Take(n.which, 3))
    + CondSteps(n, "IF_THEN", Take(n.ifThen, 2)) + PropSteps(n, "WHY", Take(n.why, 3))
  }

  /** The chain `reason` builds from its first three relevant nodes, one node after the other. */
  function Chain(ns: seq<Node>): seq<ReasoningStep> {
    FlatMap(Take(ns, 3), NodeChain)
  }

  /** `0.9` when the calculation found guidelines, else `0.85`. */
  function Confidence(calculation: Option<CostResult>): real {
    if calculation.Some? && calculation.value.Found? then 0.9 else 0.85
  }

  /** The result metadata: module, primary rule, the eleven cases, and the calculation when one ran. */
  function ResultMetadata(primary: Node, calculation: Option<CostResult>): (m: map<string, Json>)
    ensures "module" in m && m["module"] == JStr("order_21_costs")
    ensures "primary_rule" in m && m["primary_rule"] == JStr(primary.citation)
    ensures "case_citations_count" in m && m["case_citations_count"] == JNum(11.0)
    ensures "cost_calculation" in m <==> calculation.Some?
    ensures calculation.Some? ==> m["cost_calculation"] == CostJson(calculation.value)
  {
    map["module" := JStr("order_21_costs"), "primary_rule" := JStr(primary.citation),
        "case_citations_count" := JNum(11.0)]
    + (if calculation.Some? then map["cost_calculation" := CostJson(calculation.value)] else map[])
  }

  // The parts `_generate_conclusion` joins with newlines

  const GuidelinesHeading: string := "Based on Appendix G guidelines:\n"

  /** `f"   {description} ({complexity}): ${min:,} - ${max:,}"`. */
  function GuidelineLine(g: CostGuideline): string {
    "   " + g.applicationType + " (" + g.complexityLevel + "): $" + Money(g.minAmount)
    + " - $" + Money(g.maxAmount)
  }

  /** The note under a guideline that has one. */
  function NoteLines(g: CostGuideline): seq<string> {
    if |g.notes| > 0 then ["    Note: " + g.notes] else []
  }

  function GuidelineLines(gs: seq<CostGuideline>): seq<string> {
    if |gs| == 0 then [] else GuidelineLines(gs[..|gs| - 1]) + [GuidelineLine(Last(gs))] + NoteLines(Last(gs))
  }

  function TotalLine(lo: int, hi: int): string {
    "\nEstimated total range: $" + Money(lo) + " - $" + Money(hi)
  }

  /** The Appendix G part: present only for a calculation that found guidelines. */
  function CostParts(calculation: Option<CostResult>): seq<string> {
    if calculation.Some? && calculation.value.Found? && |calculation.value.guidelines| > 0 then
      [GuidelinesHeading] + GuidelineLines(calculation.value.guidelines)
      + [TotalLine(calculation.value.totalMin, calculation.value.totalMax)]
    else []
  }

  function PrincipleLine(text: string, citation: string): string {
    "\nLegal Principle: " + text + " (" + citation + ")"
  }

  /** The first WHAT step, as the legal principle. */
  function PrincipleParts(chain: seq<ReasoningStep>): seq<string> {
    var whats := StepsIn(chain, "WHAT");
    if |whats| > 0 then [PrincipleLine(whats[0].text, whats[0].citation)] else []
  }

  function FactorLines(steps: seq<ReasoningStep>): seq<string> {
    seq(|steps|, i requires 0 <= i < |steps| => "   " + steps[i].text)
  }

  lemma FactorLinesSnoc(steps: seq<ReasoningStep>, j: nat)
    requires j < |steps|
    ensures FactorLines(steps[..j + 1]) == FactorLines(steps[..j]) + ["   " + steps[j].text]
  {
  }

  /** The first three WHICH steps, under a heading. */
  function FactorParts(chain: seq<ReasoningStep>): seq<string> {
    var whichs := StepsIn(chain, "WHICH");
    if |whichs| > 0 then ["\nKey Factors to Consider:"] + FactorLines(Take(whichs, 3)) else []
  }

  function ConclusionParts(chain: seq<ReasoningStep>, calculation: Option<CostResult>): seq<string> {
    CostParts(calculation) + PrincipleParts(chain) + FactorParts(chain)
  }

  /** `_generate_conclusion`: the cost part, the principle and the key factors, joined with newlines. */
  function Conclusion(chain: seq<ReasoningStep>, calculation: Option<CostResult>): string {
    Join("\n", ConclusionParts(chain, calculation))
  }

  /** `reason` over the table `t`, as a value. */
  function Answer(t: Nodes, question: string, cats: Categories): ReasoningResult {
    var ql := Lower(question);
    var ids := Relevant(t, ql);
    if ids == [] then NotCovered(NotCoveredText, NoRulesText)
    else
      var calculation := CostQuery(ql, cats);
      var ns := NodesOf(t, ids);
      var chain := Chain(ns);
      ReasoningResult(Conclusion(chain, calculation), Confidence(calculation), chain, [], ns, [],
                      ResultMetadata(ns[0], calculation))
  }

  /** The application type of a stay question, as `reason` picks it. */
  method StayAppType(ql: string) returns (appType: string)
    ensures appType == StayType(ql)
  {
    appType := "stay";
    if Contains(ql, "arbitration") {
      appType := "stay arbitration";
    } else if Contains(ql, "forum") || Contains(ql, "conveniens") {
      appType := "stay forum";
    } else if Contains(ql, "appeal") {
      appType := "stay appeal";
    }
  }

  /** The `if`/`elif` tests of `reason`, appending to `relevant_nodes` and running `calculate_costs`. */
  method SelectNodes(t: Nodes, ql: string, cats: Categories)
    returns (relevant: seq<string>, calculation: Option<CostResult>)
    ensures relevant == Relevant(t, ql) && calculation == CostQuery(ql, cats)
  {
    relevant, calculation := [], None;
    if AsksMoney(ql) {
      if Contains(ql, "stay") {
        var appType := StayAppType(ql);
        relevant := Picked(t, StayId);
        var c := CalculateCosts(cats, appType, "standard", true);
        calculation := Some(c);
      } else if Contains(ql, "trial") {
        relevant := Picked(t, TrialsId);
        var c := CalculateCosts(cats, "trial", "standard", true);
        calculation := Some(c);
      }
      relevant := relevant + Picked(t, FactorsId);
    } else if Contains(ql, "indemnity") {
      relevant := Picked(t, IndemnityId);
    } else if Contains(ql, "litigant") && Contains(ql, "person") {
      relevant := Picked(t, LitigantId);
    } else if Contains(ql, "non-party") || Contains(ql, "non party") {
      relevant := Picked(t, NonPartyId);
    } else if Contains(ql, "follow") && Contains(ql, "event") {
      relevant := Picked(t, FollowEventId);
    } else if Contains(ql, "discretion") || Contains(ql, "factors") {
      relevant := Picked(t, DiscretionId) + Picked(t, FactorsId);
    }
  }

  /** The four item loops of `reason` for one node. */
  method AppendNodeSteps(chain: seq<ReasoningStep>, n: Node) returns (r: seq<ReasoningStep>)
    ensures r == chain + NodeChain(n)
  {
    r := AppendPropSteps(chain, n, "WHAT", Take(n.what, 2));
    r := AppendPropSteps(r, n, "WHICH", Take(n.which, 3));
    r := AppendCondSteps(r, n, "IF_THEN", Take(n.ifThen, 2));
    r := AppendPropSteps(r, n, "WHY", Take(n.why, 3));
  }

  /** The loop of `reason` over `relevant_nodes[:3]`. */
  method BuildChain(ns: seq<Node>) returns (chain: seq<ReasoningStep>)
    ensures chain == Chain(ns)
  {
    var top := Take(ns, 3);
    chain := [];
    var i := 0;
    while i < |top|
      invariant 0 <= i <= |top|
      invariant chain == FlatMap(top[..i], NodeChain)
    {
      FlatMapSnoc(top, NodeChain, i);
      chain := AppendNodeSteps(chain, top[i]);
      i := i + 1;
    }
    assert top[..i] == top;
  }

  lemma GuidelineLinesSnoc(gs: seq<CostGuideline>, i: nat)
    requires i < |gs|
    ensures GuidelineLines(gs[..i + 1]) == GuidelineLines(gs[..i]) + [GuidelineLine(gs[i])] + NoteLines(gs[i])
  {
    assert gs[..i + 1][..i] == gs[..i];
  }

  /** One guideline's line, and its note when it has one. */
  method AddGuideline(parts: seq<string>, g: CostGuideline) returns (r: seq<string>)
    ensures r == parts + ([GuidelineLine(g)] + NoteLines(g))
  {
    r := parts + [GuidelineLine(g)];
    if |g.notes| > 0 {
      r := r + ["    Note: " + g.notes];
    }
  }

  /** The loop of `_generate_conclusion` over the guidelines found: each one's line and note. */
  method GuidelineSection(gs: seq<CostGuideline>) returns (lines: seq<string>)
    ensures lines == GuidelineLines(gs)
  {
    lines := [];
    var i := 0;
    while i < |gs|
      invariant 0 <= i <= |gs|
      invariant lines == GuidelineLines(gs[..i])
    {
      GuidelineLinesSnoc(gs, i);
      lines := AddGuideline(lines, gs[i]);
      i := i + 1;
    }
    assert gs[..i] == gs;
  }

  /** The Appendix G part of `_generate_conclusion`: the heading, the guidelines and the total. */
  method CostSection(calculation: Option<CostResult>) returns (parts: seq<string>)
    ensures parts == CostParts(calculation)
  {
    parts := [];
    if calculation.Some? && calculation.value.Found? && |calculation.value.guidelines| > 0 {
      var lines := GuidelineSection(calculation.value.guidelines);
      parts := [GuidelinesHeading] + lines + [TotalLine(calculation.value.totalMin, calculation.value.totalMax)];
    }
  }

  /** The key factors part of `_generate_conclusion`, its loop over the first three WHICH steps. */
  method FactorSection(chain: seq<ReasoningStep>) returns (parts: seq<string>)
    ensures parts == FactorParts(chain)
  {
    parts := [];
    var whichs := StepsIn(chain, "WHICH");
    if |whichs| > 0 {
      parts := ["\nKey Factors to Consider:"];
      var top := Take(whichs, 3);
      var j := 0;
      while j < |top|
        invariant 0 <= j <= |top|
        invariant parts == ["\nKey Factors to Consider:"] + FactorLines(top[..j])
      {
        FactorLinesSnoc(top, j);
        parts := parts + ["   " + top[j].text];
        j := j + 1;
      }
      assert top[..j] == top;
    }
  }

  /** `_generate_conclusion`: the cost part, the principle and the key factors, joined with newlines. */
  method GenerateConclusion(chain: seq<ReasoningStep>, calculation: Option<CostResult>) returns (c: string)
    ensures c == Conclusion(chain, calculation)
  {
    var costs := CostSection(calculation);
    var principle: seq<string> := [];
    var whats := StepsIn(chain, "WHAT");
    if |whats| > 0 {
      principle := [PrincipleLine(whats[0].text, whats[0].citation)];
    }
    var factors := FactorSection(chain);
    c := Join("\n", costs + principle + factors);
  }

  /** `reason`: the selection and calculation, the chain, the conclusion and the confidence. */
  method Reason(m: LogicTreeModule, question: string) returns (r: ReasoningResult)
    ensures r == Answer(m.nodes, question, AppendixG)
  {
    var ql := Lower(question);
    var relevant, calculation := SelectNodes(m.nodes, ql, AppendixG);
    if relevant == [] {
      return NotCovered(NotCoveredText, NoRulesText);
    }
    var ns := NodesOf(m.nodes, relevant);
    var chain := BuildChain(ns);
    var conclusion := GenerateConclusion(chain, calculation);
    var confidence := if calculation.Some? && calculation.value.Found? then 0.9 else 0.85;
    r := ReasoningResult(conclusion, confidence, chain, [], ns, [], ResultMetadata(ns[0], calculation));
  }

  // ---------------------------------------------------------------------------
  // What `reason` selects, chains and concludes

  /**
   * Which nodes an amount question picks: the stay node when it names a stay, else the
   * trial node when it names a trial, and in either case the eight factors.
   */
  lemma AmountSelection(t: Nodes, ql: string)
    ensures var ids := Relevant(t, ql); var money := AsksMoney(ql);
      (StayId in ids <==> money && AsksStay(ql) && StayId in t.byId)
      && (TrialsId in ids <==> money && !AsksStay(ql) && AsksTrial(ql) && TrialsId in t.byId)
      && (FactorsId in ids <==>
            (money || (!AsksIndemnity(ql) && !AsksLitigant(ql) && !AsksNonParty(ql)
                       && !AsksFollowEvent(ql) && AsksDiscretion(ql))) && FactorsId in t.byId)
  {
    IdsDiffer();
  }

  /**
   * Which protection node a question without an amount picks: indemnity when it names
   * one, else litigant in person.
   */
  lemma ProtectionSelection(t: Nodes, ql: string)
    ensures var ids := Relevant(t, ql); var money := AsksMoney(ql);
      (IndemnityId in ids <==> !money && AsksIndemnity(ql) && IndemnityId in t.byId)
      && (LitigantId in ids <==> !money && !AsksIndemnity(ql) && AsksLitigant(ql) && LitigantId in t.byId)
  {
    IdsDiffer();
  }

  /** A question without an amount, an indemnity or a litigant in person picks the non-party node when it names one. */
  lemma NonPartySelection(t: Nodes, ql: string)
    ensures var ids := Relevant(t, ql);
      NonPartyId in ids <==>
        !AsksMoney(ql) && !AsksIndemnity(ql) && !AsksLitigant(ql) && AsksNonParty(ql) && NonPartyId in t.byId
  {
    IdsDiffer();
  }

  /**
   * Which general rule any other question picks: costs follow the event, or else
   * discretion (with the eight factors), whichever it names first.
   */
  lemma RuleSelection(t: Nodes, ql: string)
    ensures var ids := Relevant(t, ql);
      var rules := !AsksMoney(ql) && !AsksIndemnity(ql) && !AsksLitigant(ql) && !AsksNonParty(ql);
      (FollowEventId in ids <==> rules && AsksFollowEvent(ql) && FollowEventId in t.byId)
      && (DiscretionId in ids <==>
            rules && !AsksFollowEvent(ql) && AsksDiscretion(ql) && DiscretionId in t.byId)
  {
    IdsDiffer();
  }

  /** At most two nodes, and a second one is the eight factors. */
  lemma SelectionSize(t: Nodes, ql: string)
    ensures var ids := Relevant(t, ql); |ids| <= 2 && (|ids| == 2 ==> ids[1] == FactorsId)
  {
    var ids := Relevant(t, ql);
    if AsksMoney(ql) {
      var head := if AsksStay(ql) then Picked(t, StayId) else if AsksTrial(ql) then Picked(t, TrialsId) else [];
      assert ids == head + Picked(t, FactorsId);
    } else if !AsksIndemnity(ql) && !AsksLitigant(ql) && !AsksNonParty(ql) && !AsksFollowEvent(ql) && AsksDiscretion(ql) {
      assert ids == Picked(t, DiscretionId) + Picked(t, FactorsId);
    }
  }

  /** Never the root or the solicitor node. */
  lemma SelectionSkips(t: Nodes, ql: string)
    ensures var ids := Relevant(t, ql); RootId !in ids && SolicitorId !in ids
  {
    RelevantAmong(t, ql);
    IdsDiffer();
  }

  /** The nodes the selection can pick: the eight below the root other than the solicitor node. */
  lemma RelevantAmong(t: Nodes, ql: string)
    ensures forall id :: id in Relevant(t, ql) ==>
      id in [StayId, TrialsId, FactorsId, IndemnityId, LitigantId, NonPartyId, FollowEventId, DiscretionId]
  {
  }

  /** Every stay type `reason` can cost has "stay" as its first word. */
  lemma StayTypeTokens(ql: string)
    ensures var tokens := SplitWhitespace(Lower(StayType(ql))); |tokens| > 0 && tokens[0] == "stay"
  {
    var w := "stay";
    var ty := StayType(ql);
    var rest := ty[4..];
    assert ty == w + rest;
    assert |rest| == 0 || rest[0] == ' ';
    LowerAppend(w, rest);
    assert Lower(w) == w;
    var lr := Lower(rest);
    assert |lr| == 0 || lr[0] == LowerChar(' ') == ' ';
    SplitFirstWord(w, lr);
  }

  /** A step taken from node `n`: it carries the node's id, citation and authority weight. */
  predicate StepFrom(s: ReasoningStep, n: Node) {
    s.nodeId == n.nodeId && s.citation == n.citation && s.authorityWeight == AuthorityWeight(n)
  }

  /**
   * One node gives at most ten steps, all its own; its WHAT steps are its first two WHAT
   * items and its WHICH steps its first three WHICH items, in order.
   */
  lemma NodeChainMeaning(n: Node)
    ensures |NodeChain(n)| <= 10 && Belongs(NodeChain(n), n)
    ensures StepsIn(NodeChain(n), "WHAT") == PropSteps(n, "WHAT", Take(n.what, 2))
    ensures StepsIn(NodeChain(n), "WHICH") == PropSteps(n, "WHICH", Take(n.which, 3))
  {
    var w := PropSteps(n, "WHAT", Take(n.what, 2));
    var h := PropSteps(n, "WHICH", Take(n.which, 3));
    var c := CondSteps(n, "IF_THEN", Take(n.ifThen, 2));
    var y := PropSteps(n, "WHY", Take(n.why, 3));
    StepsOfAll(n, "WHAT", Take(n.what, 2), [], []);
    StepsOfAll(n, "WHICH", Take(n.which, 3), [], []);
    StepsOfAll(n, "IF_THEN", [], Take(n.ifThen, 2), []);
    StepsOfAll(n, "WHY", Take(n.why, 3), [], []);
    BelongsAppend(w, h, n);
    BelongsAppend(w + h, c, n);
    BelongsAppend(w + h + c, y, n);
    StepsInRuns(w, h, c, y, "WHAT", "WHICH", "IF_THEN", "WHY", "WHAT");
    StepsInRuns(w, h, c, y, "WHAT", "WHICH", "IF_THEN", "WHY", "WHICH");
  }

  /** A chain step from one of the first three of the nodes `ns`. */
  ghost predicate FromFirstThree(step: ReasoningStep, ns: seq<Node>) {
    exists k :: 0 <= k < |ns| && k < 3 && StepFrom(step, ns[k])
  }

  /** The chain holds at most thirty steps, each from one of the first three relevant nodes. */
  lemma ChainMeaning(ns: seq<Node>)
    ensures |Chain(ns)| <= 30
    ensures forall step :: step in Chain(ns) ==> FromFirstThree(step, ns)
  {
    var top := Take(ns, 3);
    forall n | n in top
      ensures |NodeChain(n)| <= 10
    {
      NodeChainMeaning(n);
    }
    FlatMapLength(top, NodeChain, 10);
    forall step | step in Chain(ns)
      ensures FromFirstThree(step, ns)
    {
      var i :| 0 <= i < |Chain(ns)| && Chain(ns)[i] == step;
      var k, j := FlatMapSource(top, NodeChain, i);
      NodeChainMeaning(top[k]);
      assert top[k] == ns[k] && StepFrom(step, ns[k]);
    }
  }

  /** The chain's WHAT and WHICH steps start with those of the first relevant node. */
  lemma ChainHead(ns: seq<Node>)
    requires |ns| > 0
    ensures var rest := FlatMap(Take(ns, 3)[1..], NodeChain);
      StepsIn(Chain(ns), "WHAT") == PropSteps(ns[0], "WHAT", Take(ns[0].what, 2)) + StepsIn(rest, "WHAT")
      && StepsIn(Chain(ns), "WHICH") == PropSteps(ns[0], "WHICH", Take(ns[0].which, 3)) + StepsIn(rest, "WHICH")
  {
    var top := Take(ns, 3);
    FlatMapCons(top, NodeChain);
    NodeChainMeaning(ns[0]);
    StepsInAppend(NodeChain(ns[0]), FlatMap(top[1..], NodeChain), "WHAT");
    StepsInAppend(NodeChain(ns[0]), FlatMap(top[1..], NodeChain), "WHICH");
  }

  /** The legal principle is the first WHAT item of the first relevant node, under its citation. */
  lemma PrincipleFromHead(ns: seq<Node>)
    requires |ns| > 0 && |ns[0].what| > 0
    ensures PrincipleParts(Chain(ns)) == [PrincipleLine(ns[0].what[0].text, ns[0].citation)]
  {
    ChainHead(ns);
  }

  /** The key factor lines of a node's WHICH steps are its WHICH texts, indented. */
  lemma FactorLinesOf(n: Node, ps: seq<Proposition>)
    ensures FactorLines(PropSteps(n, "WHICH", ps)) == seq(|ps|, i requires 0 <= i < |ps| => "   " + ps[i].text)
  {
  }

  /** A first relevant node with three WHICH items gives all three key factors. */
  lemma FactorsFromHead(ns: seq<Node>)
    requires |ns| > 0 && |ns[0].which| >= 3
    ensures FactorParts(Chain(ns)) ==
      ["\nKey Factors to Consider:", "   " + ns[0].which[0].text, "   " + ns[0].which[1].text,
       "   " + ns[0].which[2].text]
  {
    ChainHead(ns);
    var ps := Take(ns[0].which, 3);
    var own := PropSteps(ns[0], "WHICH", ps);
    FactorPartsOf(Chain(ns), own, StepsIn(FlatMap(Take(ns, 3)[1..], NodeChain), "WHICH"));
    FactorLinesOf(ns[0], ps);
    var lines := FactorLines(own);
    assert |lines| == 3 && lines[0] == "   " + ns[0].which[0].text && lines[1] == "   " + ns[0].which[1].text
      && lines[2] == "   " + ns[0].which[2].text;
    HeadingAndThree("\nKey Factors to Consider:", lines);
  }

  lemma HeadingAndThree(h: string, lines: seq<string>)
    requires |lines| == 3
    ensures [h] + lines == [h, lines[0], lines[1], lines[2]]
  {
  }

  /** When a chain's WHICH steps open with `own`, of at most three steps, those are its key factors. */
  lemma FactorPartsOf(chain: seq<ReasoningStep>, own: seq<ReasoningStep>, rest: seq<ReasoningStep>)
    requires StepsIn(chain, "WHICH") == own + rest && 0 < |own| <= 3 && (|own| == 3 || rest == [])
    ensures FactorParts(chain) == ["\nKey Factors to Consider:"] + FactorLines(own)
  {
    TakeAppend(own, rest, |own|);
    if rest == [] {
      assert own + rest == own;
    }
  }

  /** A single relevant node with fewer than three WHICH items gives all of them as key factors. */
  lemma FactorsOfOne(n: Node)
    requires 0 < |n.which| <= 3
    ensures FactorParts(Chain([n])) ==
      ["\nKey Factors to Consider:"] + seq(|n.which|, i requires 0 <= i < |n.which| => "   " + n.which[i].text)
  {
    ChainHead([n]);
    assert Take([n], 3)[1..] == [];
    assert FlatMap([], NodeChain) == [];
    var own := PropSteps(n, "WHICH", n.which);
    assert StepsIn(Chain([n]), "WHICH") == own + [];
    FactorPartsOf(Chain([n]), own, []);
    FactorLinesOf(n, n.which);
  }

  /** Every guideline of a list has its line among the list's lines. */
  lemma {:induction false} GuidelineLinesHave(gs: seq<CostGuideline>, g: CostGuideline)
    requires g in gs
    ensures GuidelineLine(g) in GuidelineLines(gs)
    decreases |gs|
  {
    if g != Last(gs) {
      var init := gs[..|gs| - 1];
      assert gs == init + [Last(gs)];
      assert g in init;
      GuidelineLinesHave(init, g);
    }
  }

  /**
   * `_generate_conclusion` without a calculation that found guidelines: just the principle
   * and the key factors, joined with newlines.
   */
  lemma ConclusionWithout(chain: seq<ReasoningStep>, calculation: Option<CostResult>)
    requires !(calculation.Some? && calculation.value.Found? && |calculation.value.guidelines| > 0)
    ensures Conclusion(chain, calculation) == Join("\n", PrincipleParts(chain) + FactorParts(chain))
  {
    assert ConclusionParts(chain, calculation) == PrincipleParts(chain) + FactorParts(chain);
  }

  /** The conclusion holds the principle and every key factor line. */
  lemma ConclusionHoldsParts(chain: seq<ReasoningStep>, calculation: Option<CostResult>)
    ensures forall x :: x in PrincipleParts(chain) + FactorParts(chain) ==> Contains(Conclusion(chain, calculation), x)
  {
    var parts := ConclusionParts(chain, calculation);
    var tail := PrincipleParts(chain) + FactorParts(chain);
    assert parts == CostParts(calculation) + tail;
    PartsContained(parts);
    assert forall x :: x in tail ==> x in parts;
  }

  /**
   * `_generate_conclusion` with guidelines found: the text opens with the Appendix G
   * heading and holds every guideline's line and the estimated total range.
   */
  lemma ConclusionWithCosts(chain: seq<ReasoningStep>, result: CostResult)
    requires result.Found? && |result.guidelines| > 0
    ensures var c := Conclusion(chain, Some(result));
      IsPrefix(GuidelinesHeading, c) && Contains(c, TotalLine(result.totalMin, result.totalMax))
      && forall g :: g in result.guidelines ==> Contains(c, GuidelineLine(g))
  {
    var costs := CostParts(Some(result));
    var parts := costs + (PrincipleParts(chain) + FactorParts(chain));
    assert ConclusionParts(chain, Some(result)) == parts;
    CostPartsHave(result);
    JoinPrefix("\n", parts);
    JoinContainsFrom("\n", costs, PrincipleParts(chain) + FactorParts(chain));
  }

  /** Every element of a prefix of the parts occurs in their newline join. */
  lemma JoinContainsFrom(sep: string, head: seq<string>, rest: seq<string>)
    ensures forall x :: x in head ==> Contains(Join(sep, head + rest), x)
  {
    forall x | x in head
      ensures Contains(Join(sep, head + rest), x)
    {
      var i :| 0 <= i < |head| && head[i] == x;
      assert (head + rest)[i] == x;
      JoinContains(sep, head + rest, i);
    }
  }

  /** Every part of a newline join occurs in it. */
  lemma PartsContained(parts: seq<string>)
    ensures forall x :: x in parts ==> Contains(Join("\n", parts), x)
  {
    forall x | x in parts
      ensures Contains(Join("\n", parts), x)
    {
      var i :| 0 <= i < |parts| && parts[i] == x;
      JoinContains("\n", parts, i);
    }
  }

  /** The Appendix G part of a found calculation: the heading, every guideline's line and the total. */
  lemma CostPartsHave(result: CostResult)
    requires result.Found? && |result.guidelines| > 0
    ensures var parts := CostParts(Some(result));
      |parts| > 0 && parts[0] == GuidelinesHeading && TotalLine(result.totalMin, result.totalMax) in parts
      && forall g :: g in result.guidelines ==> GuidelineLine(g) in parts
  {
    forall g | g in result.guidelines
      ensures GuidelineLine(g) in CostParts(Some(result))
    {
      GuidelineLinesHave(result.guidelines, g);
    }
  }

  /** `reason` covers a question iff it picked some node; an uncovered one gets confidence 0 and the warning. */
  lemma UncoveredMeaning(t: Nodes, question: string, cats: Categories)
    ensures var r := Answer(t, question, cats); var ids := Relevant(t, Lower(question));
      (r.confidence == 0.0 <==> ids == [])
      && (ids == [] ==> r.conclusion == NotCoveredText && r.reasoningChain == []
                          && r.applicableNodes == [] && r.warnings == [NoRulesText])
  {
  }

  /**
   * A covered question gets the picked nodes in order, a chain of at most thirty steps
   * from the first three of them, the conclusion from that chain and the calculation,
   * confidence 0.9 when the calculation found guidelines and 0.85 otherwise, the first
   * node's citation as primary rule, the eleven cases, and the calculation iff one ran.
   */
  lemma AnswerMeaning(t: Nodes, question: string, cats: Categories)
    requires Relevant(t, Lower(question)) != []
    ensures var r := Answer(t, question, cats);
      var ids := Relevant(t, Lower(question)); var calculation := CostQuery(Lower(question), cats);
      r.applicableNodes == NodesOf(t, ids) && r.warnings == [] && r.reasoningChain == Chain(r.applicableNodes)
      && r.confidence == (if calculation.Some? && calculation.value.Found? then 0.9 else 0.85)
      && |r.reasoningChain| <= 30
      && (forall step :: step in r.reasoningChain ==> FromFirstThree(step, r.applicableNodes))
      && r.conclusion == Conclusion(r.reasoningChain, calculation)
      && "primary_rule" in r.metadata && r.metadata["primary_rule"] == JStr(t.byId[ids[0]].citation)
      && "case_citations_count" in r.metadata && r.metadata["case_citations_count"] == JNum(11.0)
      && ("cost_calculation" in r.metadata <==> calculation.Some?)
  {
    var ids := Relevant(t, Lower(question));
    var calculation := CostQuery(Lower(question), cats);
    var ns := NodesOf(t, ids);
    ChainMeaning(ns);
    var r := Answer(t, question, cats);
    assert r == ReasoningResult(Conclusion(Chain(ns), calculation), Confidence(calculation), Chain(ns), [], ns,
                                [], ResultMetadata(ns[0], calculation));
    assert ns[0] == t.byId[ids[0]];
  }

  // ---------------------------------------------------------------------------
  // Worked cost questions over any table `load_nodes` can return; each question is
  // described by the keywords it holds and lacks

  /**
   * Without a calculation, a first node with three WHICH items gives the conclusion: its
   * first WHAT item as the principle, then its first three WHICH items.
   */
  lemma HeadConclusion(ns: seq<Node>)
    requires |ns| > 0 && |ns[0].what| > 0 && |ns[0].which| >= 3
    ensures Conclusion(Chain(ns), None) ==
      Join("\n", [PrincipleLine(ns[0].what[0].text, ns[0].citation), "\nKey Factors to Consider:",
                  "   " + ns[0].which[0].text, "   " + ns[0].which[1].text, "   " + ns[0].which[2].text])
  {
    PrincipleFromHead(ns);
    FactorsFromHead(ns);
    assert ConclusionParts(Chain(ns), None) == PrincipleParts(Chain(ns)) + FactorParts(Chain(ns));
  }

  /** Without a calculation, a single node with two WHICH items gives its principle and both items. */
  lemma PairConclusion(n: Node)
    requires |n.what| > 0 && |n.which| == 2
    ensures Conclusion(Chain([n]), None) ==
      Join("\n", [PrincipleLine(n.what[0].text, n.citation), "\nKey Factors to Consider:",
                  "   " + n.which[0].text, "   " + n.which[1].text])
  {
    PrincipleFromHead([n]);
    FactorsOfOne(n);
    assert FactorParts(Chain([n])) == ["\nKey Factors to Consider:", "   " + n.which[0].text, "   " + n.which[1].text];
    assert ConclusionParts(Chain([n]), None) == PrincipleParts(Chain([n])) + FactorParts(Chain([n]));
  }

  /**
   * With a calculation that found the simple uncontested arbitration stay, the conclusion
   * opens with the Appendix G heading and holds that stay's line, the first node's
   * principle and its first WHICH item.
   */
  lemma StayConclusion(ns: seq<Node>, calculation: Option<CostResult>)
    requires |ns| > 0 && |ns[0].what| > 0 && |ns[0].which| >= 3
    requires calculation.Some? && calculation.value.Found? && ArbitrationSimple in calculation.value.guidelines
    ensures var c := Conclusion(Chain(ns), calculation);
      IsPrefix(GuidelinesHeading, c) && Contains(c, GuidelineLine(ArbitrationSimple))
      && Contains(c, PrincipleLine(ns[0].what[0].text, ns[0].citation)) && Contains(c, "   " + ns[0].which[0].text)
  {
    PrincipleFromHead(ns);
    FactorsFromHead(ns);
    ConclusionWithCosts(Chain(ns), calculation.value);
    ConclusionHoldsParts(Chain(ns), calculation);
    assert "   " + ns[0].which[0].text in FactorParts(Chain(ns));
  }

  /** The line `_generate_conclusion` writes for the simple uncontested arbitration stay. */
  const ArbitrationSimpleText: string := "   " + Arbitration + " (" + "Simple uncontested" + "): $" + "5,000" + " - $" + "12,000"

  lemma ArbitrationSimpleLine()
    ensures GuidelineLine(ArbitrationSimple) == ArbitrationSimpleText
  {
    ThousandsExamples();
  }

  /**
   * The calculation of an amount question naming a stay found guidelines listing the
   * simple uncontested arbitration stay.
   */
  ghost predicate StayGuidelinesFound(cats: Categories, ql: string) {
    var c := Calculation(cats, StayType(ql), "standard", true);
    c.Found? && ArbitrationSimple in c.guidelines
  }

  /** Over Appendix G every stay type `reason` can choose finds that stay. */
  lemma AppendixGStays(ql: string)
    ensures StayGuidelinesFound(AppendixG, ql)
  {
    StayTypeTokens(ql);
    ContestedStayPicksUncontested(StayType(ql));
  }

  /** An amount question naming a stay picks the stay node and the eight factors and costs the stay. */
  lemma StayPlan(t: Nodes, ql: string, cats: Categories)
    requires StayId in t.byId && FactorsId in t.byId && AsksMoney(ql) && AsksStay(ql)
    ensures Relevant(t, ql) == [StayId, FactorsId]
    ensures CostQuery(ql, cats) == Some(Calculation(cats, StayType(ql), "standard", true))
  {
    assert Picked(t, StayId) + Picked(t, FactorsId) == [StayId, FactorsId];
  }

  /** The nodes of two ids of the table, in order. */
  lemma PairNodes(t: Nodes, a: string, b: string)
    requires a in t.byId && b in t.byId
    ensures NodesOf(t, [a, b]) == [t.byId[a], t.byId[b]]
  {
  }

  /**
   * An amount question naming a stay whose calculation finds the simple uncontested
   * arbitration stay picks the stay node and the eight factors: confidence 0.9 and a
   * conclusion with the Appendix G heading, that stay's line, and the stay node's
   * principle and first factor.
   */
  lemma StayCostsAnswer(t: Nodes, question: string, cats: Categories)
    requires StayId in t.byId && FactorsId in t.byId
    requires |t.byId[StayId].what| > 0 && |t.byId[StayId].which| >= 3
    requires AsksMoney(Lower(question)) && AsksStay(Lower(question)) && StayGuidelinesFound(cats, Lower(question))
    ensures var r := Answer(t, question, cats); var n := t.byId[StayId];
      r.applicableNodes == [n, t.byId[FactorsId]] && r.confidence == 0.9 && "cost_calculation" in r.metadata
      && IsPrefix(GuidelinesHeading, r.conclusion) && Contains(r.conclusion, ArbitrationSimpleText)
      && Contains(r.conclusion, PrincipleLine(n.what[0].text, n.citation))
      && Contains(r.conclusion, "   " + n.which[0].text)
  {
    var ql := Lower(question);
    StayPlan(t, ql, cats);
    AnswerMeaning(t, question, cats);
    PairNodes(t, StayId, FactorsId);
    StayConclusion([t.byId[StayId], t.byId[FactorsId]], CostQuery(ql, cats));
    ArbitrationSimpleLine();
  }

  /**
   * "How much are the costs for a stay application?": over a table where the stay is found
   * (Appendix G is one, by `AppendixGStays`), an amount question naming a stay is answered
   * from the stay node and the eight factors with confidence 0.9; the conclusion opens with the Appendix G heading, lists the simple uncontested arbitration stay (the
   * contested lookup accepts it), and gives the stay principle and its first factor.
   */
  lemma StayCostsQuestion(t: Nodes, question: string, cats: Categories)
    requires StaySample(t) && FactorsSample(t) && StayGuidelinesFound(cats, Lower(question))
    requires AsksMoney(Lower(question)) && AsksStay(Lower(question))
    ensures var r := Answer(t, question, cats);
      r.applicableNodes == [t.byId[StayId], t.byId[FactorsId]] && r.confidence == 0.9
      && "cost_calculation" in r.metadata
      && IsPrefix(GuidelinesHeading, r.conclusion)
      && Contains(r.conclusion, ArbitrationSimpleText)
      && Contains(r.conclusion, PrincipleLine(StayWhat1, StayCitation))
      && Contains(r.conclusion, "   " + StayWhich1)
  {
    StayCostsAnswer(t, question, cats);
  }

  /** An amount question naming neither a stay nor a trial picks only the eight factors and costs nothing. */
  lemma AmountOnlyPlan(t: Nodes, ql: string, cats: Categories)
    requires FactorsId in t.byId && AsksMoney(ql) && !AsksStay(ql) && !AsksTrial(ql)
    ensures Relevant(t, ql) == [FactorsId] && CostQuery(ql, cats) == None
  {
    assert [] + Picked(t, FactorsId) == [FactorsId];
  }

  /**
   * An amount question naming neither a stay nor a trial picks only the eight factors and
   * runs no calculation: confidence 0.85, and the conclusion is the factors' first WHAT
   * item as the principle and their first three WHICH items.
   */
  lemma AmountOnlyAnswer(t: Nodes, question: string, cats: Categories)
    requires FactorsId in t.byId && |t.byId[FactorsId].what| > 0 && |t.byId[FactorsId].which| >= 3
    requires AsksMoney(Lower(question)) && !AsksStay(Lower(question)) && !AsksTrial(Lower(question))
    ensures var r := Answer(t, question, cats); var n := t.byId[FactorsId];
      r.applicableNodes == [n] && r.confidence == 0.85 && "cost_calculation" !in r.metadata
      && r.conclusion == Join("\n", [PrincipleLine(n.what[0].text, n.citation), "\nKey Factors to Consider:",
                                     "   " + n.which[0].text, "   " + n.which[1].text, "   " + n.which[2].text])
  {
    AmountOnlyPlan(t, Lower(question), cats);
    AnswerMeaning(t, question, cats);
    assert NodesOf(t, [FactorsId]) == [t.byId[FactorsId]];
    HeadConclusion([t.byId[FactorsId]]);
  }

  /**
   * "How much are the costs for this application?" naming neither a stay nor a trial is
   * answered with the eight factors' principle and their first three factors.
   */
  lemma AmountOnlyQuestion(t: Nodes, question: string, cats: Categories)
    requires FactorsSample(t)
    requires AsksMoney(Lower(question)) && !AsksStay(Lower(question)) && !AsksTrial(Lower(question))
    ensures var r := Answer(t, question, cats);
      r.applicableNodes == [t.byId[FactorsId]] && r.confidence == 0.85
      && "cost_calculation" !in r.metadata
      && r.conclusion == Join("\n", [PrincipleLine(FactorsWhat1, FactorsCitation), "\nKey Factors to Consider:",
                                     "   " + FactorsWhich1, "   " + FactorsWhich2, "   " + FactorsWhich3])
  {
    AmountOnlyAnswer(t, question, cats);
  }

  /** A question picking the single node `id` without a calculation, answered from that node alone. */
  lemma SingleNodeAnswer(t: Nodes, question: string, cats: Categories, id: string)
    requires id in t.byId && |t.byId[id].what| > 0 && |t.byId[id].which| == 2
    requires Relevant(t, Lower(question)) == [id] && CostQuery(Lower(question), cats) == None
    ensures var r := Answer(t, question, cats); var n := t.byId[id];
      r.applicableNodes == [n] && r.confidence == 0.85 && "cost_calculation" !in r.metadata
      && r.conclusion == Join("\n", [PrincipleLine(n.what[0].text, n.citation), "\nKey Factors to Consider:",
                                     "   " + n.which[0].text, "   " + n.which[1].text])
  {
    var n := t.byId[id];
    assert NodesOf(t, [id]) == [n];
    var r := Answer(t, question, cats);
    assert r == ReasoningResult(Conclusion(Chain([n]), None), 0.85, Chain([n]), [], [n], [], ResultMetadata(n, None));
    PairAnswer(r, n);
  }

  /** A result built over one two-factor node without a calculation concludes with its principle and both factors. */
  lemma PairAnswer(r: ReasoningResult, n: Node)
    requires |n.what| > 0 && |n.which| == 2
    requires r.applicableNodes == [n] && r.reasoningChain == Chain(r.applicableNodes)
    requires r.conclusion == Conclusion(r.reasoningChain, None)
    ensures r.conclusion == Join("\n", [PrincipleLine(n.what[0].text, n.citation), "\nKey Factors to Consider:",
                                        "   " + n.which[0].text, "   " + n.which[1].text])
  {
    PairConclusion(n);
  }

  /**
   * "When do costs follow the event?": a question about costs following the event that
   * asks no amount and names no indemnity, litigant in person or non-party is answered
   * from Rule 3(2) alone with confidence 0.85: its principle and both of its factors.
   */
  lemma FollowEventQuestion(t: Nodes, question: string, cats: Categories)
    requires FollowEventSample(t)
    requires var ql := Lower(question);
      !AsksMoney(ql) && !AsksIndemnity(ql) && !AsksLitigant(ql) && !AsksNonParty(ql) && AsksFollowEvent(ql)
    ensures var r := Answer(t, question, cats);
      r.applicableNodes == [t.byId[FollowEventId]] && r.confidence == 0.85
      && r.conclusion == Join("\n", [PrincipleLine(FollowEventWhat1, FollowEventCitation),
                                     "\nKey Factors to Consider:", "   " + FollowEventWhich1,
                                     "   " + FollowEventWhich2])
  {
    assert Relevant(t, Lower(question)) == [FollowEventId];
    SingleNodeAnswer(t, question, cats, FollowEventId);
  }

  /**
   * "Can a litigant in person recover costs?": a litigant-in-person question that asks no
   * amount and names no indemnity is answered from Rule 7 alone with confidence 0.85: its
   * principle and both of its factors.
   */
  lemma LitigantQuestion(t: Nodes, question: string, cats: Categories)
    requires LitigantSample(t)
    requires var ql := Lower(question); !AsksMoney(ql) && !AsksIndemnity(ql) && AsksLitigant(ql)
    ensures var r := Answer(t, question, cats);
      r.applicableNodes == [t.byId[LitigantId]] && r.confidence == 0.85
      && r.conclusion == Join("\n", [PrincipleLine(LitigantWhat1, LitigantCitation),
                                     "\nKey Factors to Consider:", "   " + LitigantWhich1,
                                     "   " + LitigantWhich2])
  {
    assert Relevant(t, Lower(question)) == [LitigantId];
    SingleNodeAnswer(t, question, cats, LitigantId);
  }
}
