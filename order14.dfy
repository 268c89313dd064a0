/**
 * The Order 14 module (payment into Court): its metadata and logic tree, `search`,
 * `reason` and `_generate_conclusion`. As in Order 5, `reason` and `search` are modelled
 * both as the code evidently intends them and as written, where every `reason` raises
 * and `search` raises once a node scores.
 */
module Order14 {
  import opened Wrappers
  import opened Text
  import opened IsoDate
  import opened SixDimensions
  import opened NodeTables
  import opened Ranking
  import opened ModuleKit
  import opened LogicTree
  import opened RuleModules

  const RootId: string := "order14_root"
  const Rule1Id: string := "order14_rule1"
  const Rule2Id: string := "order14_rule2"
  const Rule3Id: string := "order14_rule3"
  const Rule4Id: string := "order14_rule4"
  const Rule5Id: string := "order14_rule5"
  const Rule7Id: string := "order14_rule7"

  /** `get_metadata`: the module's routing metadata; it has no validation date. */
  function Metadata(): (m: ModuleMetadata)
    ensures m.moduleId == "order_14" && m.authorityWeight == 0.8 && m.validatedDate.None?
    ensures |m.coverage.sections| == 4 && |m.coverage.keywords| == 15
    ensures m.coverage.jurisdictions == ["Singapore"]
  {
    ModuleMetadata(
      "order_14", "Order 14 - Payment into Court", "1.0.0",
      ModuleCoverage(
        "Rules of Court - Order 14",
        ["Order 14 Rule 1 - Payment into Court",
         "Order 14 Rule 2 - Payment with counterclaim",
         "Order 14 Rule 3 - Acceptance",
         "Order 14 Rule 7 - Non-disclosure"],
        ["payment_into_court", "calderbank", "settlement_offer", "acceptance",
         "costs_consequences", "form_27", "form_28"],
        ["payment into court", "pay into court", "Calderbank", "offer",
         "accept", "acceptance", "Form 27", "Form 28", "14 days",
         "counterclaim", "satisfaction", "stayed", "disclosure",
         "non-disclosure", "tender"],
        ["Singapore"]),
      0.8, DateFields(2021, 12, 1, 0, 0, 0, 0), [],
      "Payment into court procedures and settlement mechanisms",
      "", None, None, map[])
  }

  // The root, Order 14

  const RootWhat1: string := "Order 14 governs payment into court as settlement mechanism"
  const RootWhich1: string := "Applies to actions for debt or damages"
  const RootIf1: string := "action is for debt or damages"
  const RootThen1: string := "defendant may pay money into court in satisfaction"
  const RootMod1: string := "pay money into court in satisfaction of claim"
  const RootMod1When1: string := "defendant in action for debt or damages"
  const RootGiven1: string := "Action for debt or damages has been commenced"
  const RootWhy1: string := "To provide settlement mechanism with costs protection for defendants"
  const RootWhy2: string := "To encourage early settlement by creating costs consequences"

  /** The root, Order 14, as `load_nodes` writes it. */
  method BuildRoot() returns (n: Node)
    ensures n.nodeId == RootId && n.parentId.None?
    ensures n.childrenIds == [Rule1Id, Rule2Id, Rule3Id, Rule4Id, Rule5Id, Rule7Id]
    ensures |n.citation| > 0 && |n.given| > 0 && |n.what| > 0 && n.what[0].text == RootWhat1
  {
    n := NewNode(RootId, "Order 14 - Payment into Court", RULE).(
        childrenIds := [Rule1Id, Rule2Id, Rule3Id, Rule4Id, Rule5Id, Rule7Id],
        what := [Proposition(RootWhat1, 1.0, Some("Order 14"), map[])],
        which := [Proposition(RootWhich1, 1.0, Some("Order 14, r. 1(1)"), map[])],
        ifThen := [Conditional(RootIf1, RootThen1, [], 1.0, Some("Order 14, r. 1(1)"), map[])],
        canMust := [Modality(RootMod1, MAY, [RootMod1When1], 1.0, Some("Order 14, r. 1(1)"), map[])],
        given := [Proposition(RootGiven1, 1.0, None, map[])],
        why := [
          Proposition(RootWhy1, 0.95, None, map[]),
          Proposition(RootWhy2, 0.95, None, map[])],
        moduleId := "order_14");
  }

  // Rule 1, payment into Court

  const Rule1What1: string := "Defendant may pay money into Court in satisfaction of cause of action"
  const Rule1What2: string := "Defendant must give notice in Form 27 to claimant and other defendants"
  const Rule1What3: string := "Claimant must send written acknowledgment within 3 days"
  const Rule1What4: string := "Defendant may increase payment without permission"
  const Rule1What5: string := "Notice of payment may not be withdrawn or amended without Court permission"
  const Rule1Which1: string := "Applies to any action for debt or damages"
  const Rule1Which2: string := "Available after defendant has filed notice of intention to " + "contest or not contest"
  const Rule1Which3: string := "May be for all or some of multiple causes of action"
  const Rule1If1: string := "defendant pays money into court"
  const Rule1Then1: string := "defendant must give notice in Form 27"
  const Rule1If2: string := "claimant receives notice of payment"
  const Rule1Then2: string := "claimant must send written acknowledgment within 3 days"
  const Rule1If3: string := "defendant wants to increase payment"
  const Rule1Then3: string := "may do so without permission"
  const Rule1If4: string := "defendant wants to withdraw or amend notice"
  const Rule1Then4: string := "must obtain Court permission"
  const Rule1If5: string := "multiple causes of action and single payment made"
  const Rule1Then5: string := "Court may order defendant to specify sum per cause if claimant embarrassed"
  const Rule1Mod1: string := "pay money into Court in satisfaction of cause of action"
  const Rule1Mod1When1: string := "defendant filed notice of intention"
  const Rule1Mod1When2: string := "action for debt or damages"
  const Rule1Mod2: string := "give notice in Form 27 to claimant and other defendants"
  const Rule1Mod2When1: string := "making payment or increasing payment"
  const Rule1Mod3: string := "send written acknowledgment of receipt"
  const Rule1Mod3When1: string := "claimant received notice"
  const Rule1Mod3When2: string := "within 3 days"
  const Rule1Mod4: string := "increase payment without permission"
  const Rule1Mod4When1: string := "defendant wants to increase"
  const Rule1Mod5: string := "withdraw or amend notice without Court permission"
  const Rule1Given1: string := "Action for debt or damages commenced"
  const Rule1Given2: string := "Defendant has filed notice of intention to contest or not contest"
  const Rule1Why1: string := "To allow defendant to make formal settlement offer with costs protection"
  const Rule1Why2: string := "To encourage claimant to accept reasonable offers (costs consequences)"
  const Rule1Why3: string := "To provide certainty through formal procedures (Form 27)"
  const Rule1Why4: string := "To prevent defendant from gaming system by withdrawing offers"

  /** Rule 1, payment into Court, as `load_nodes` writes it. */
  method BuildRule1() returns (n: Node)
    ensures n.nodeId == Rule1Id && n.parentId == Some(RootId) && n.childrenIds == []
    ensures |n.citation| > 0 && |n.given| > 0 && |n.what| > 0
    ensures |n.canMust| > 1 && n.canMust[0].modalityType == MAY && n.canMust[1].modalityType == MUST
    ensures n.canMust[1].action == Rule1Mod2
  {
    n := NewNode(Rule1Id, "Order 14 Rule 1 - Payment into Court", RULE).(
        parentId := Some(RootId),
        what := [
          Proposition(Rule1What1, 1.0, Some("Order 14, r. 1(1)"), map[]),
          Proposition(Rule1What2, 1.0, Some("Order 14, r. 1(2)"), map[]),
          Proposition(Rule1What3, 1.0, Some("Order 14, r. 1(2)"), map[]),
          Proposition(Rule1What4, 1.0, Some("Order 14, r. 1(3)"), map[]),
          Proposition(Rule1What5, 1.0, Some("Order 14, r. 1(3)"), map[])],
        which := [
          Proposition(Rule1Which1, 1.0, Some("Order 14, r. 1(1)"), map[]),
          Proposition(Rule1Which2, 1.0, Some("Order 14, r. 1(1)"), map[]),
          Proposition(Rule1Which3, 1.0, Some("Order 14, r. 1(1)"), map[])],
        ifThen := [
          Conditional(Rule1If1, Rule1Then1, [], 1.0, Some("Order 14, r. 1(2)"), map[]),
          Conditional(Rule1If2, Rule1Then2, [], 1.0, Some("Order 14, r. 1(2)"), map[]),
          Conditional(Rule1If3, Rule1Then3, [], 1.0, Some("Order 14, r. 1(3)"), map[]),
          Conditional(Rule1If4, Rule1Then4, [], 1.0, Some("Order 14, r. 1(3)"), map[]),
          Conditional(Rule1If5, Rule1Then5, [], 1.0, Some("Order 14, r. 1(5)"), map[])],
        canMust := [
          Modality(Rule1Mod1, MAY, [Rule1Mod1When1, Rule1Mod1When2], 1.0, Some("Order 14, r. 1(1)"), map[]),
          Modality(Rule1Mod2, MUST, [Rule1Mod2When1], 1.0, Some("Order 14, r. 1(2)"), map[]),
          Modality(Rule1Mod3, MUST, [Rule1Mod3When1, Rule1Mod3When2], 1.0, Some("Order 14, r. 1(2)"), map[]),
          Modality(Rule1Mod4, MAY, [Rule1Mod4When1], 1.0, Some("Order 14, r. 1(3)"), map[]),
          Modality(Rule1Mod5, MAY_NOT, [], 1.0, Some("Order 14, r. 1(3)"), map[])],
        given := [
          Proposition(Rule1Given1, 1.0, None, map[]),
          Proposition(Rule1Given2, 1.0, Some("Order 14, r. 1(1)"), map[])],
        why := [
          Proposition(Rule1Why1, 0.95, None, map[]),
          Proposition(Rule1Why2, 0.95, None, map[]),
          Proposition(Rule1Why3, 0.9, None, map[]),
          Proposition(Rule1Why4, 0.9, None, map[])],
        moduleId := "order_14");
  }

  // Rule 2, payment by a defendant who has counterclaimed

  const Rule2What1: string := "Notice of payment must state if payment takes into account " + "defendant's counterclaim"
  const Rule2Which1: string := "Applies where defendant makes counterclaim for debt or damages " + "and pays into court"
  const Rule2If1: string := "defendant has counterclaim and pays into court"
  const Rule2Then1: string := "notice must state if payment accounts for counterclaim"
  const Rule2If2: string := "payment intends to satisfy counterclaim"
  const Rule2Then2: string := "notice must state which causes of action from counterclaim are satisfied"
  const Rule2Mod1: string := "state in notice whether payment takes into account and satisfies counterclaim"
  const Rule2Mod1When1: string := "defendant has counterclaim"
  const Rule2Mod1When2: string := "making payment into court"
  const Rule2Given1: string := "Defendant has made counterclaim for debt or damages"
  const Rule2Given2: string := "Defendant is making payment into court under Rule 1"
  const Rule2Why1: string := "To clarify whether payment is gross or net of counterclaim"
  const Rule2Why2: string := "To prevent confusion about what payment represents"
  const Rule2Why3: string := "To enable claimant to make informed decision on acceptance"

  /** Rule 2, payment by a defendant who has counterclaimed, as `load_nodes` writes it. */
  method BuildRule2() returns (n: Node)
    ensures n.nodeId == Rule2Id && n.parentId == Some(RootId) && n.childrenIds == []
    ensures |n.citation| > 0 && |n.given| > 0 && |n.what| > 0
  {
    n := NewNode(Rule2Id, "Order 14 Rule 2 - Payment by defendant who has counterclaimed", RULE).(
        parentId := Some(RootId),
        what := [Proposition(Rule2What1, 1.0, Some("Order 14, r. 2"), map[])],
        which := [Proposition(Rule2Which1, 1.0, Some("Order 14, r. 2"), map[])],
        ifThen := [
          Conditional(Rule2If1, Rule2Then1, [], 1.0, Some("Order 14, r. 2"), map[]),
          Conditional(Rule2If2, Rule2Then2, [], 1.0, Some("Order 14, r. 2"), map[])],
        canMust := [Modality(Rule2Mod1, MUST, [Rule2Mod1When1, Rule2Mod1When2], 1.0, Some("Order 14, r. 2"), map[])],
        given := [
          Proposition(Rule2Given1, 1.0, None, map[]),
          Proposition(Rule2Given2, 1.0, None, map[])],
        why := [
          Proposition(Rule2Why1, 0.95, None, map[]),
          Proposition(Rule2Why2, 0.9, None, map[]),
          Proposition(Rule2Why3, 0.9, None, map[])],
        moduleId := "order_14");
  }

  // Rule 3, acceptance of money paid into Court

  const Rule3What1: string := "Claimant may accept money paid into court by giving notice in Form 28"
  const Rule3What2: string := "Acceptance must be within 14 days and before trial begins"
  const Rule3What3: string := "After trial begins, acceptance must be within 2 days and before " + "judgment delivered"
  const Rule3What4: string := "On acceptance, all further proceedings are stayed"
  const Rule3What5: string := "Claimant entitled to payment of accepted sum"
  const Rule3Which1: string := "Applies where money paid into Court under Rule 1"
  const Rule3Which2: string := "May accept all or specified causes of action"
  const Rule3If1: string := "money paid for all causes of action"
  const Rule3Then1: string := "claimant may accept in satisfaction of all causes"
  const Rule3If2: string := "money paid for some causes only"
  const Rule3Then2: string := "claimant may accept specified sum for those causes"
  const Rule3If3: string := "claimant accepts money"
  const Rule3Then3: string := "all further proceedings stayed"
  const Rule3If4: string := "acceptance before trial begins"
  const Rule3Then4: string := "must be within 14 days of notice receipt"
  const Rule3If5: string := "acceptance after trial begins"
  const Rule3Then5: string := "must be within 2 days and before judgment"
  const Rule3If6: string := "payment made with counterclaim statement"
  const Rule3Then6: string := "on acceptance, counterclaim proceedings also stayed"
  const Rule3Mod1: string := "accept money paid into Court"
  const Rule3Mod1When1: string := "within 14 days of notice"
  const Rule3Mod1When2: string := "before trial begins"
  const Rule3Mod2: string := "accept money after trial begins"
  const Rule3Mod2When1: string := "within 2 days of notice"
  const Rule3Mod2When2: string := "before judgment delivered"
  const Rule3Mod3: string := "give notice in Form 28 to every defendant"
  const Rule3Mod3When1: string := "accepting payment"
  const Rule3Given1: string := "Money has been paid into Court under Rule 1"
  const Rule3Given2: string := "Claimant has received notice of payment"
  const Rule3Why1: string := "To enable quick settlement without further litigation"
  const Rule3Why2: string := "To create clear time limits for acceptance (certainty)"
  const Rule3Why3: string := "To automatically stay proceedings on acceptance (efficiency)"
  const Rule3Why4: string := "To allow acceptance even after trial starts (flexibility)"

  /** Rule 3, acceptance of money paid into Court, as `load_nodes` writes it. */
  method BuildRule3() returns (n: Node)
    ensures n.nodeId == Rule3Id && n.parentId == Some(RootId) && n.childrenIds == []
    ensures |n.citation| > 0 && |n.given| > 0 && |n.what| > 0
    ensures |n.canMust| > 0 && n.canMust[0].modalityType == MAY && n.canMust[0].action == Rule3Mod1
    ensures n.canMust[0].conditions == [Rule3Mod1When1, Rule3Mod1When2]
  {
    n := NewNode(Rule3Id, "Order 14 Rule 3 - Acceptance of money paid into Court", RULE).(
        parentId := Some(RootId),
        what := [
          Proposition(Rule3What1, 1.0, Some("Order 14, r. 3(1)"), map[]),
          Proposition(Rule3What2, 1.0, Some("Order 14, r. 3(1)"), map[]),
          Proposition(Rule3What3, 1.0, Some("Order 14, r. 3(2)"), map[]),
          Proposition(Rule3What4, 1.0, Some("Order 14, r. 3(4)"), map[]),
          Proposition(Rule3What5, 1.0, Some("Order 14, r. 3(6)"), map[])],
        which := [
          Proposition(Rule3Which1, 1.0, Some("Order 14, r. 3(1)"), map[]),
          Proposition(Rule3Which2, 1.0, Some("Order 14, r. 3(1)"), map[])],
        ifThen := [
          Conditional(Rule3If1, Rule3Then1, [], 1.0, Some("Order 14, r. 3(1)(a)"), map[]),
          Conditional(Rule3If2, Rule3Then2, [], 1.0, Some("Order 14, r. 3(1)(b)"), map[]),
          Conditional(Rule3If3, Rule3Then3, [], 1.0, Some("Order 14, r. 3(4)"), map[]),
          Conditional(Rule3If4, Rule3Then4, [], 1.0, Some("Order 14, r. 3(1)"), map[]),
          Conditional(Rule3If5, Rule3Then5, [], 1.0, Some("Order 14, r. 3(2)"), map[]),
          Conditional(Rule3If6, Rule3Then6, [], 1.0, Some("Order 14, r. 3(5)"), map[])],
        canMust := [
          Modality(Rule3Mod1, MAY, [Rule3Mod1When1, Rule3Mod1When2], 1.0, Some("Order 14, r. 3(1)"), map[]),
          Modality(Rule3Mod2, MAY, [Rule3Mod2When1, Rule3Mod2When2], 1.0, Some("Order 14, r. 3(2)"), map[]),
          Modality(Rule3Mod3, MUST, [Rule3Mod3When1], 1.0, Some("Order 14, r. 3(1)"), map[])],
        given := [
          Proposition(Rule3Given1, 1.0, None, map[]),
          Proposition(Rule3Given2, 1.0, None, map[])],
        why := [
          Proposition(Rule3Why1, 0.95, None, map[]),
          Proposition(Rule3Why2, 0.95, None, map[]),
          Proposition(Rule3Why3, 0.9, None, map[]),
          Proposition(Rule3Why4, 0.85, None, map[])],
        moduleId := "order_14");
  }

  // Rule 4, orders for payment out

  const Rule4What1: string := "Court order required for payment out in certain cases"
  const Rule4What2: string := "Order must deal with whole costs of action"
  const Rule4Which1: string := "Applies where payment made by some but not all joint defendants"
  const Rule4Which2: string := "Applies where payment made with defence of tender before action"
  const Rule4Which3: string := "Applies where multiple persons entitled to money (Civil Law Act cases)"
  const Rule4If1: string := "payment by some joint defendants only"
  const Rule4Then1: string := "payment out requires Court order dealing with costs"
  const Rule4If2: string := "acceptance after trial begun"
  const Rule4Then2: string := "payment out requires Court order on costs"
  const Rule4Mod1: string := "pay out money without Court order"
  const Rule4Mod1When1: string := "special cases under r. 4(1)"
  const Rule4Given1: string := "Claimant has accepted money paid into Court"
  const Rule4Why1: string := "To ensure costs are properly dealt with in complex cases"
  const Rule4Why2: string := "To protect interests of non-paying joint defendants"
  const Rule4Why3: string := "To ensure proper distribution where multiple persons entitled"

  /** Rule 4, orders for payment out, as `load_nodes` writes it. */
  method BuildRule4() returns (n: Node)
    ensures n.nodeId == Rule4Id && n.parentId == Some(RootId) && n.childrenIds == []
    ensures |n.citation| > 0 && |n.given| > 0 && |n.what| > 0
  {
    n := NewNode(Rule4Id, "Order 14 Rule 4 - Order for payment out required in certain cases", RULE).(
        parentId := Some(RootId),
        what := [
          Proposition(Rule4What1, 1.0, Some("Order 14, r. 4(1)"), map[]),
          Proposition(Rule4What2, 1.0, Some("Order 14, r. 4(1)"), map[])],
        which := [
          Proposition(Rule4Which1, 1.0, Some("Order 14, r. 4(1)(a)"), map[]),
          Proposition(Rule4Which2, 1.0, Some("Order 14, r. 4(1)(b)"), map[]),
          Proposition(Rule4Which3, 1.0, Some("Order 14, r. 4(1)(c)"), map[])],
        ifThen := [
          Conditional(Rule4If1, Rule4Then1, [], 1.0, Some("Order 14, r. 4(1)(a), (2)"), map[]),
          Conditional(Rule4If2, Rule4Then2, [], 1.0, Some("Order 14, r. 4(3)"), map[])],
        canMust := [Modality(Rule4Mod1, MUST_NOT, [Rule4Mod1When1], 1.0, Some("Order 14, r. 4(1)"), map[])],
        given := [Proposition(Rule4Given1, 1.0, None, map[])],
        why := [
          Proposition(Rule4Why1, 0.95, None, map[]),
          Proposition(Rule4Why2, 0.9, None, map[]),
          Proposition(Rule4Why3, 0.9, None, map[])],
        moduleId := "order_14");
  }

  // Rule 5, money remaining in Court

  const Rule5What1: string := "Money not accepted must not be paid out except by Court order"
  const Rule5What2: string := "Order may be made before, at, or after trial"
  const Rule5Which1: string := "Applies where money paid into Court is not accepted under Rule 3"
  const Rule5If1: string := "money not accepted and order made before trial"
  const Rule5Then1: string := "money must not be paid except in satisfaction of causes for which paid in"
  const Rule5Mod1: string := "pay out money not accepted without Court order"
  const Rule5Mod1When1: string := "money not accepted under Rule 3"
  const Rule5Given1: string := "Money paid into Court under Rule 1"
  const Rule5Given2: string := "Money not accepted under Rule 3"
  const Rule5Why1: string := "To protect defendant's money until proper resolution"
  const Rule5Why2: string := "To ensure money only paid out in accordance with judgment or order"

  /** Rule 5, money remaining in Court, as `load_nodes` writes it. */
  method BuildRule5() returns (n: Node)
    ensures n.nodeId == Rule5Id && n.parentId == Some(RootId) && n.childrenIds == []
    ensures |n.citation| > 0 && |n.given| > 0 && |n.what| > 0
  {
    n := NewNode(Rule5Id, "Order 14 Rule 5 - Money remaining in Court", RULE).(
        parentId := Some(RootId),
        what := [
          Proposition(Rule5What1, 1.0, Some("Order 14, r. 5"), map[]),
          Proposition(Rule5What2, 1.0, Some("Order 14, r. 5"), map[])],
        which := [Proposition(Rule5Which1, 1.0, Some("Order 14, r. 5"), map[])],
        ifThen := [Conditional(Rule5If1, Rule5Then1, [], 1.0, Some("Order 14, r. 5"), map[])],
        canMust := [Modality(Rule5Mod1, MUST_NOT, [Rule5Mod1When1], 1.0, Some("Order 14, r. 5"), map[])],
        given := [
          Proposition(Rule5Given1, 1.0, None, map[]),
          Proposition(Rule5Given2, 1.0, None, map[])],
        why := [
          Proposition(Rule5Why1, 0.95, None, map[]),
          Proposition(Rule5Why2, 0.95, None, map[])],
        moduleId := "order_14");
  }

  // Rule 7, non-disclosure of payment into Court

  const Rule7What1: string := "Fact that money paid into Court must not be communicated to Court at trial"
  const Rule7What2: string := "Non-disclosure applies until all questions of liability and damages decided"
  const Rule7Which1: string := "Applies to all actions except tender before action defences"
  const Rule7Which2: string := "Applies except where proceedings stayed after trial begun under Rule 3(4)"
  const Rule7If1: string := "money paid into Court under Rules 1-6"
  const Rule7Then1: string := "fact must not be pleaded or communicated to Court at trial"
  const Rule7If2: string := "liability and damages questions decided"
  const Rule7Then2: string := "payment into court may then be disclosed"
  const Rule7Mod1: string := "plead fact of payment into Court"
  const Rule7Mod1When1: string := "before liability and damages decided"
  const Rule7Mod2: string := "communicate fact of payment to Court at trial"
  const Rule7Mod2When1: string := "before liability and damages decided"
  const Rule7Given1: string := "Money has been paid into Court"
  const Rule7Given2: string := "Trial or hearing is ongoing"
  const Rule7Why1: string := "To prevent prejudice to defendant if Court knows about payment offer"
  const Rule7Why2: string := "To ensure Court decides liability and quantum on merits alone"
  const Rule7Why3: string := "To preserve Court's ability to consider payment when assessing costs"
  const Rule7Why4: string := "To encourage defendants to make reasonable offers without fear of prejudice"

  /** Rule 7, non-disclosure of payment into Court, as `load_nodes` writes it. */
  method BuildRule7() returns (n: Node)
    ensures n.nodeId == Rule7Id && n.parentId == Some(RootId) && n.childrenIds == []
    ensures |n.citation| > 0 && |n.given| > 0 && |n.what| > 0 && n.what[0].text == Rule7What1
    ensures |n.canMust| == 2 && n.canMust[0].modalityType == MUST_NOT && n.canMust[1].modalityType == MAY_NOT
  {
    n := NewNode(Rule7Id, "Order 14 Rule 7 - Non-disclosure of payment into Court", RULE).(
        parentId := Some(RootId),
        what := [
          Proposition(Rule7What1, 1.0, Some("Order 14, r. 7"), map[]),
          Proposition(Rule7What2, 1.0, Some("Order 14, r. 7"), map[])],
        which := [
          Proposition(Rule7Which1, 1.0, Some("Order 14, r. 7"), map[]),
          Proposition(Rule7Which2, 1.0, Some("Order 14, r. 7"), map[])],
        ifThen := [
          Conditional(Rule7If1, Rule7Then1, [], 1.0, Some("Order 14, r. 7"), map[]),
          Conditional(Rule7If2, Rule7Then2, [], 1.0, Some("Order 14, r. 7"), map[])],
        canMust := [
          Modality(Rule7Mod1, MUST_NOT, [Rule7Mod1When1], 1.0, Some("Order 14, r. 7"), map[]),
          Modality(Rule7Mod2, MAY_NOT, [Rule7Mod2When1], 1.0, Some("Order 14, r. 7"), map[])],
        given := [
          Proposition(Rule7Given1, 1.0, None, map[]),
          Proposition(Rule7Given2, 1.0, None, map[])],
        why := [
          Proposition(Rule7Why1, 0.95, None, map[]),
          Proposition(Rule7Why2, 0.95, None, map[]),
          Proposition(Rule7Why3, 0.9, None, map[]),
          Proposition(Rule7Why4, 0.9, None, map[])],
        moduleId := "order_14");
  }
  // ---------------------------------------------------------------------------
  // load_nodes

  /** The seven ids are all stored. */
  predicate Present(t: Nodes) {
    RootId in t.byId && Rule1Id in t.byId && Rule2Id in t.byId && Rule3Id in t.byId
    && Rule4Id in t.byId && Rule5Id in t.byId && Rule7Id in t.byId
  }

  /** Order 14 over its six rules, in insertion order; there is no Rule 6. */
  ghost predicate TreeShape(t: Nodes) {
    t.ids == [RootId, Rule1Id, Rule2Id, Rule3Id, Rule4Id, Rule5Id, Rule7Id]
    && Present(t)
    && t.byId[RootId].parentId.None?
    && t.byId[RootId].childrenIds == [Rule1Id, Rule2Id, Rule3Id, Rule4Id, Rule5Id, Rule7Id]
    && t.byId[Rule1Id].parentId == Some(RootId) && t.byId[Rule1Id].childrenIds == []
    && t.byId[Rule2Id].parentId == Some(RootId) && t.byId[Rule2Id].childrenIds == []
    && t.byId[Rule3Id].parentId == Some(RootId) && t.byId[Rule3Id].childrenIds == []
    && t.byId[Rule4Id].parentId == Some(RootId) && t.byId[Rule4Id].childrenIds == []
    && t.byId[Rule5Id].parentId == Some(RootId) && t.byId[Rule5Id].childrenIds == []
    && t.byId[Rule7Id].parentId == Some(RootId) && t.byId[Rule7Id].childrenIds == []
  }

  /** Every node has a GIVEN item, and the items the worked questions below end on. */
  ghost predicate Samples(t: Nodes) {
    Present(t)
    && |t.byId[RootId].given| > 0 && |t.byId[Rule1Id].given| > 0 && |t.byId[Rule2Id].given| > 0
    && |t.byId[Rule3Id].given| > 0 && |t.byId[Rule4Id].given| > 0 && |t.byId[Rule5Id].given| > 0
    && |t.byId[Rule7Id].given| > 0
    && |t.byId[RootId].what| > 0 && t.byId[RootId].what[0].text == RootWhat1
    && |t.byId[Rule1Id].canMust| > 1 && t.byId[Rule1Id].canMust[0].modalityType == MAY
    && t.byId[Rule1Id].canMust[1].modalityType == MUST && t.byId[Rule1Id].canMust[1].action == Rule1Mod2
    && |t.byId[Rule3Id].canMust| > 0 && t.byId[Rule3Id].canMust[0].modalityType == MAY
    && t.byId[Rule3Id].canMust[0].action == Rule3Mod1
    && t.byId[Rule3Id].canMust[0].conditions == [Rule3Mod1When1, Rule3Mod1When2]
    && Rule7Sample(t)
  }

  /** Rule 7 opens with its WHAT item and has a MUST NOT and a MAY NOT modality. */
  ghost predicate Rule7Sample(t: Nodes) {
    OpensWithProhibitions(t, Rule7Id, Rule7What1)
  }

  /** Node `id` opens with the WHAT item `what1` and has a MUST NOT and a MAY NOT modality. */
  ghost predicate OpensWithProhibitions(t: Nodes, id: string, what1: string) {
    id in t.byId
    && |t.byId[id].what| > 0 && t.byId[id].what[0].text == what1
    && |t.byId[id].canMust| == 2 && t.byId[id].canMust[0].modalityType == MUST_NOT
    && t.byId[id].canMust[1].modalityType == MAY_NOT
  }

  /** What `load_nodes` returns, as far as the model states it. */
  ghost predicate Loaded(t: Nodes) {
    TreeShape(t) && WellLinked(t) && Samples(t)
  }

  /** The seven ids differ: the root's by length, the rules' by their last character. */
  lemma IdsDiffer()
    ensures |RootId| == 12 && |Rule1Id| == 13 && |Rule2Id| == 13 && |Rule3Id| == 13
    ensures |Rule4Id| == 13 && |Rule5Id| == 13 && |Rule7Id| == 13
    ensures Rule1Id[12] == '1' && Rule2Id[12] == '2' && Rule3Id[12] == '3'
    ensures Rule4Id[12] == '4' && Rule5Id[12] == '5' && Rule7Id[12] == '7'
  {
  }

  /** A tree of that shape whose seven nodes are filled in is well linked. */
  lemma ShapeLinked(t: Nodes)
    requires TreeShape(t)
    requires Filled(t, RootId) && Filled(t, Rule1Id) && Filled(t, Rule2Id) && Filled(t, Rule3Id)
    requires Filled(t, Rule4Id) && Filled(t, Rule5Id) && Filled(t, Rule7Id)
    ensures WellLinked(t)
  {
    IdsDiffer();
    assert LinkedAt(t, RootId);
    LeafLinked(t, Rule1Id, RootId);
    LeafLinked(t, Rule2Id, RootId);
    LeafLinked(t, Rule3Id, RootId);
    LeafLinked(t, Rule4Id, RootId);
    LeafLinked(t, Rule5Id, RootId);
    LeafLinked(t, Rule7Id, RootId);
    LinkedSeven(t, RootId, Rule1Id, Rule2Id, Rule3Id, Rule4Id, Rule5Id, Rule7Id);
  }

  /** `load_nodes`: the seven nodes under their ids, in insertion order. */
  method LoadNodes() returns (t: Nodes)
    ensures Loaded(t)
  {
    var root := BuildRoot();
    var rule1 := BuildRule1();
    var rule2 := BuildRule2();
    var rule3 := BuildRule3();
    var rule4 := BuildRule4();
    var rule5 := BuildRule5();
    var rule7 := BuildRule7();
    IdsDiffer();
    t := Table7(root, rule1, rule2, rule3, rule4, rule5, rule7);
    SevenKeys(RootId, Rule1Id, Rule2Id, Rule3Id, Rule4Id, Rule5Id, Rule7Id,
      root, rule1, rule2, rule3, rule4, rule5, rule7);
    ShapeLinked(t);
  }

  /** Every loaded node passes `validate_node`. */
  lemma LoadedValidates(t: Nodes)
    requires Loaded(t)
    ensures forall k :: k in t.byId ==> ValidationErrors(t, t.byId[k]) == []
  {
    WellLinkedValidates(t);
  }

  /** The only root of a table of that shape is Order 14 itself. */
  lemma LoadedRoots(t: Nodes)
    requires TreeShape(t)
    ensures forall x :: x in Roots(t) <==> x == RootId
  {
    RootsMeaning(t);
    IdsDiffer();
  }

  /** `Order14Module()`: the module with its metadata and the loaded table, not yet initialised. */
  method NewModule() returns (m: LogicTreeModule)
    ensures fresh(m) && m.metadata == Metadata()
    ensures Loaded(m.loaded) && !m.initialized && m.Valid()
  {
    var t := LoadNodes();
    m := new LogicTreeModule(Metadata(), t);
  }

  // ---------------------------------------------------------------------------
  // search

  /** The keywords `search` tests against both the query and the citation. */
  const Keywords: seq<string> :=
    ["payment", "into court", "accept", "calderbank", "form 27",
     "form 28", "14 days", "disclosure", "stayed", "counterclaim"]

  /**
   * `search` corrected, initialising the module first when it is not yet: every node
   * scored in insertion order, the hits ranked, at most `topK`.
   */
  method Search(m: LogicTreeModule, query: string, topK: int) returns (r: seq<SearchResult>)
    requires m.Valid()
    modifies m
    ensures m.initialized && m.Valid() && m.nodes == m.loaded
    ensures r == SearchOver(m.loaded, Hit(Lower(query), Keywords), topK)
  {
    if !m.initialized {
      m.Initialize();
    }
    r := SearchNodes(m.nodes, query, Keywords, topK);
  }

  // ---------------------------------------------------------------------------
  // reason

  /** The terms of the six rule tests in `reason`, in the order they are tried. */
  const PayInTerms: seq<string> := ["pay into court", "form 27", "notice of payment", "increase payment"]
  const CounterclaimTerms: seq<string> := ["counterclaim", "set off", "net"]
  const AcceptTerms: seq<string> := ["accept", "acceptance", "form 28", "14 days", "stayed"]
  const PayOutTerms: seq<string> := ["payment out", "pay out", "joint defendants"]
  const RemainingTerms: seq<string> := ["not accepted", "remaining", "money remaining"]
  const DisclosureTerms: seq<string> := ["disclose", "disclosure", "tell court", "inform court", "prejudice"]

  /** The target `reason` picks for the lowered question: the first rule whose terms it holds, else the root. */
  function Target(ql: string): (r: string)
    ensures r == RootId || r == Rule1Id || r == Rule2Id || r == Rule3Id
            || r == Rule4Id || r == Rule5Id || r == Rule7Id
  {
    if AnyTerm(PayInTerms, ql) then Rule1Id
    else if AnyTerm(CounterclaimTerms, ql) then Rule2Id
    else if AnyTerm(AcceptTerms, ql) then Rule3Id
    else if AnyTerm(PayOutTerms, ql) then Rule4Id
    else if AnyTerm(RemainingTerms, ql) then Rule5Id
    else if AnyTerm(DisclosureTerms, ql) then Rule7Id
    else RootId
  }

  /**
   * The rule tests are tried in order: each rule is the target exactly when the question
   * holds one of its terms and none of an earlier rule's, and the root when it holds
   * none; the target is always loaded.
   */
  lemma TargetMeaning(t: Nodes, ql: string)
    requires Present(t)
    ensures var a, b, c, d, e, f := AnyTerm(PayInTerms, ql), AnyTerm(CounterclaimTerms, ql),
      AnyTerm(AcceptTerms, ql), AnyTerm(PayOutTerms, ql), AnyTerm(RemainingTerms, ql),
      AnyTerm(DisclosureTerms, ql);
      (Target(ql) == Rule1Id <==> a)
      && (Target(ql) == Rule2Id <==> !a && b)
      && (Target(ql) == Rule3Id <==> !a && !b && c)
      && (Target(ql) == Rule4Id <==> !a && !b && !c && d)
      && (Target(ql) == Rule5Id <==> !a && !b && !c && !d && e)
      && (Target(ql) == Rule7Id <==> !a && !b && !c && !d && !e && f)
      && (Target(ql) == RootId <==> !a && !b && !c && !d && !e && !f)
    ensures Target(ql) in t.byId
  {
    IdsDiffer();
    if AnyTerm(PayInTerms, ql) {
      assert Target(ql) == Rule1Id;
    } else if AnyTerm(CounterclaimTerms, ql) {
      assert Target(ql) == Rule2Id;
    } else if AnyTerm(AcceptTerms, ql) {
      assert Target(ql) == Rule3Id;
    } else if AnyTerm(PayOutTerms, ql) {
      assert Target(ql) == Rule4Id;
    } else if AnyTerm(RemainingTerms, ql) {
      assert Target(ql) == Rule5Id;
    } else if AnyTerm(DisclosureTerms, ql) {
      assert Target(ql) == Rule7Id;
    } else {
      assert Target(ql) == RootId;
    }
  }

  /**
   * Rule 5's first term is shadowed: "not accepted" holds "accept", so a question about
   * money not accepted goes to Rule 3, or to Rule 1 or 2 before it, and never to Rule 5.
   */
  lemma NotAcceptedNeverRule5(ql: string)
    requires Contains(ql, "not accepted")
    ensures Target(ql) in {Rule1Id, Rule2Id, Rule3Id}
  {
    assert Contains("not accepted", "accept");
    ContainsTrans(ql, "not accepted", "accept");
    AnyTermMeaning(AcceptTerms, ql);
    assert AcceptTerms[0] == "accept";
  }

  /** "cannot" or "must not" in the lowered question. */
  predicate AsksProhibition(ql: string) {
    Contains(ql, "cannot") || Contains(ql, "must not")
  }

  /** `cm.modality_type in [ModalityType.MUST_NOT, ModalityType.MAY_NOT]`. */
  function Prohibition(): Modality -> bool {
    (m: Modality) => m.modalityType == MUST_NOT || m.modalityType == MAY_NOT
  }

  /** `cm.modality_type == ModalityType.MUST`: the how branch leaves SHALL out. */
  function Procedure(): Modality -> bool {
    (m: Modality) => m.modalityType == MUST
  }

  /** The permission answer: "Yes, ", the action, and its conditions when it has any. */
  function PermissionAnswer(m: Modality): (r: string)
    ensures IsPrefix("Yes, " + m.action, r)
    ensures r == "Yes, " + m.action <==> |m.conditions| == 0
  {
    var r := "Yes, " + m.action + When(m.conditions);
    assert r[..|"Yes, " + m.action|] == "Yes, " + m.action;
    r
  }

  /**
   * The prohibition test comes too late to fire: "cannot" holds "can" and "must not"
   * holds "must", so every prohibition question is already an obligation or a
   * permission question.
   */
  lemma ProhibitionUnreachable(ql: string)
    ensures AsksProhibition(ql) ==> AsksObligation(ql) || AsksPermission(ql)
  {
    if Contains(ql, "cannot") {
      assert Contains("cannot", "can") by {
        ContainsAt("cannot", "can", 0);
      }
      ContainsTrans(ql, "cannot", "can");
    }
    if Contains(ql, "must not") {
      assert Contains("must not", "must") by {
        ContainsAt("must not", "must", 0);
      }
      ContainsTrans(ql, "must not", "must");
    }
  }

  /**
   * `_generate_conclusion`: an obligation question answers with the first MUST or SHALL
   * modality, otherwise a permission question with the first MAY or CAN one, a
   * prohibition question with "No, " and the first MUST NOT or MAY NOT action, and a how
   * question with "You must " and the first MUST action; a branch that finds no such
   * modality, a what question and every other question answer with the fallback.
   */
  function Conclusion(ql: string, n: Node): string {
    if AsksObligation(ql) then
      match First(n.canMust, Obligation())
      case Some(m) => ObligationAnswer(m)
      case None => Fallback(n)
    else if AsksPermission(ql) then
      match First(n.canMust, Permission())
      case Some(m) => PermissionAnswer(m)
      case None => Fallback(n)
    else if AsksProhibition(ql) then
      match First(n.canMust, Prohibition())
      case Some(m) => "No, " + m.action
      case None => Fallback(n)
    else if Contains(ql, "what") then Fallback(n)
    else if Contains(ql, "how") then
      match First(n.canMust, Procedure())
      case Some(m) => "You must " + m.action
      case None => Fallback(n)
    else Fallback(n)
  }

  /** The obligation and permission answers, by the first matching modality's index. */
  lemma ConclusionMeaning(ql: string, n: Node)
    ensures forall i :: 0 <= i < |n.canMust| && Obligation()(n.canMust[i])
                        && (forall k :: 0 <= k < i ==> !Obligation()(n.canMust[k]))
              ==> (AsksObligation(ql) ==> Conclusion(ql, n) == ObligationAnswer(n.canMust[i]))
    ensures forall i :: 0 <= i < |n.canMust| && Permission()(n.canMust[i])
                        && (forall k :: 0 <= k < i ==> !Permission()(n.canMust[k]))
              ==> (!AsksObligation(ql) && AsksPermission(ql) ==> Conclusion(ql, n) == PermissionAnswer(n.canMust[i]))
    ensures (AsksObligation(ql) && forall i :: 0 <= i < |n.canMust| ==> !Obligation()(n.canMust[i]))
              ==> Conclusion(ql, n) == Fallback(n)
    ensures (!AsksObligation(ql) && AsksPermission(ql) && forall i :: 0 <= i < |n.canMust| ==> !Permission()(n.canMust[i]))
              ==> Conclusion(ql, n) == Fallback(n)
  {
    forall i | 0 <= i < |n.canMust| && Obligation()(n.canMust[i])
               && (forall k :: 0 <= k < i ==> !Obligation()(n.canMust[k]))
      ensures First(n.canMust, Obligation()) == Some(n.canMust[i])
    {
      FirstAt(n.canMust, Obligation(), i);
    }
    forall i | 0 <= i < |n.canMust| && Permission()(n.canMust[i])
               && (forall k :: 0 <= k < i ==> !Permission()(n.canMust[k]))
      ensures First(n.canMust, Permission()) == Some(n.canMust[i])
    {
      FirstAt(n.canMust, Permission(), i);
    }
  }

  /**
   * A question that is neither an obligation nor a permission question never gets a
   * "No, " answer: a how question that is not a what question answers with the first
   * MUST action, and every other one with the fallback.
   */
  lemma ConclusionOtherwise(ql: string, n: Node)
    requires !AsksObligation(ql) && !AsksPermission(ql)
    ensures forall i :: 0 <= i < |n.canMust| && Procedure()(n.canMust[i])
                        && (forall k :: 0 <= k < i ==> !Procedure()(n.canMust[k]))
              ==> (!Contains(ql, "what") && Contains(ql, "how") ==> Conclusion(ql, n) == "You must " + n.canMust[i].action)
    ensures (!Contains(ql, "what") && Contains(ql, "how") && forall i :: 0 <= i < |n.canMust| ==> !Procedure()(n.canMust[i]))
              ==> Conclusion(ql, n) == Fallback(n)
    ensures Contains(ql, "what") || !Contains(ql, "how") ==> Conclusion(ql, n) == Fallback(n)
  {
    ProhibitionUnreachable(ql);
    forall i | 0 <= i < |n.canMust| && Procedure()(n.canMust[i])
               && (forall k :: 0 <= k < i ==> !Procedure()(n.canMust[k]))
      ensures First(n.canMust, Procedure()) == Some(n.canMust[i])
    {
      FirstAt(n.canMust, Procedure(), i);
    }
  }

  /** `reason` over the table `t`, as the code evidently intends it, as a value. */
  function Answer(t: Nodes, question: string): ReasoningResult {
    var ql := Lower(question);
    var target := Target(ql);
    if target !in t.byId then Unresolved
    else
      var n := t.byId[target];
      ReasoningResult(Conclusion(ql, n), 0.9, SixChain(n), [], [n], [], map[])
  }

  /**
   * `reason` corrected, initialising the module first when it is not yet: the target,
   * its six-dimension chain, then the conclusion.
   */
  method Reason(m: LogicTreeModule, question: string) returns (r: ReasoningResult)
    requires m.Valid()
    modifies m
    ensures m.initialized && m.Valid() && m.nodes == m.loaded
    ensures r == Answer(m.loaded, question)
  {
    if !m.initialized {
      m.Initialize();
    }
    var ql := Lower(question);
    var target := Target(ql);
    if target !in m.nodes.byId {
      return Unresolved;
    }
    var n := m.nodes.byId[target];
    var chain := BuildSixChain(n);
    r := ReasoningResult(Conclusion(ql, n), 0.9, chain, [], [n], [], map[]);
  }

  /**
   * A loaded table always resolves the target: `reason` answers with confidence 0.9,
   * the target as its only applicable node, one step per item of all six dimensions in
   * the order GIVEN, WHICH, IF-THEN, WHAT, CAN/MUST, WHY, each carrying the target's id,
   * citation and weight, and the target's conclusion.
   */
  lemma AnswerMeaning(t: Nodes, question: string)
    requires Present(t)
    ensures var ql := Lower(question); var r := Answer(t, question); var n := t.byId[Target(ql)];
      r.confidence == 0.9 && r.applicableNodes == [n] && r.warnings == [] && r.alternativePaths == []
      && r.reasoningChain == SixChain(n)
      && |r.reasoningChain| == |n.given| + |n.which| + |n.ifThen| + |n.what| + |n.canMust| + |n.why|
      && Belongs(r.reasoningChain, n)
      && StepsIn(r.reasoningChain, "GIVEN") == PropSteps(n, "GIVEN", n.given)
      && StepsIn(r.reasoningChain, "CAN/MUST") == ModSteps(n, "CAN/MUST", n.canMust)
      && r.conclusion == Conclusion(ql, n)
  {
    var ql := Lower(question);
    TargetMeaning(t, ql);
    SixChainMeaning(t.byId[Target(ql)]);
  }

  /**
   * As written, `reason` over the loaded table raises the TypeError of the first GIVEN
   * step, whatever the question: every node has a GIVEN item.
   */
  lemma ReasonRaisesAtFirstStep(t: Nodes, question: string)
    requires Samples(t)
    ensures ReasonFailure(t, Target(Lower(question)), Lower(question)) == Some(StepError)
  {
    var ql := Lower(question);
    TargetMeaning(t, ql);
    CallsRaise();
  }

  // ---------------------------------------------------------------------------
  // Worked questions over any table `load_nodes` can return

  /** A permission with two conditions, joined by ", " inside the " (when: ...)". */
  lemma YesWhenTwo(a: string, b: string, c: string)
    ensures "Yes, " + a + When([b, c]) == "Yes, " + a + " (when: " + b + ", " + c + ")"
  {
    assert [b, c][1..] == [c];
    assert Join(", ", [b, c]) == b + ", " + c;
  }

  /**
   * A how question about paying into court, such as "How do I pay into court?", is
   * answered from Rule 1 with its first MUST action, the Form 27 notice, since its first
   * modality is a MAY.
   */
  lemma HowToPayIn(t: Nodes, question: string)
    requires Samples(t)
    requires var ql := Lower(question);
      Contains(ql, "pay into court") && Contains(ql, "how") && !Contains(ql, "what")
      && !AsksObligation(ql) && !AsksPermission(ql)
    ensures Answer(t, question).applicableNodes == [t.byId[Rule1Id]]
    ensures Answer(t, question).conclusion == "You must " + Rule1Mod2
  {
    var ql := Lower(question);
    AnyTermMeaning(PayInTerms, ql);
    assert PayInTerms[0] == "pay into court";
    assert Target(ql) == Rule1Id;
    ConclusionOtherwise(ql, t.byId[Rule1Id]);
  }

  /**
   * A question whether a claimant can accept, with no payment-in or counterclaim term
   * and no must or have to in it, such as "Can I accept the money?", is answered from
   * Rule 3 with "Yes, ", its first MAY action and both of its conditions.
   */
  lemma AcceptQuestion(t: Nodes, question: string)
    requires Samples(t)
    requires var ql := Lower(question);
      Contains(ql, "accept") && Contains(ql, "can") && !AsksObligation(ql)
      && !AnyTerm(PayInTerms, ql) && !AnyTerm(CounterclaimTerms, ql)
    ensures Answer(t, question).applicableNodes == [t.byId[Rule3Id]]
    ensures Answer(t, question).conclusion
      == "Yes, " + Rule3Mod1 + " (when: " + Rule3Mod1When1 + ", " + Rule3Mod1When2 + ")"
  {
    var ql := Lower(question);
    AnyTermMeaning(AcceptTerms, ql);
    assert AcceptTerms[0] == "accept";
    assert Target(ql) == Rule3Id;
    var n := t.byId[Rule3Id];
    FirstAt(n.canMust, Permission(), 0);
    assert Conclusion(ql, n) == PermissionAnswer(n.canMust[0]);
    YesWhenTwo(Rule3Mod1, Rule3Mod1When1, Rule3Mod1When2);
  }

  /** A question about disclosure that no earlier rule claims goes to Rule 7. */
  lemma DisclosureTarget(ql: string)
    requires Contains(ql, "disclose")
    requires !AnyTerm(PayInTerms, ql) && !AnyTerm(CounterclaimTerms, ql) && !AnyTerm(AcceptTerms, ql)
    requires !AnyTerm(PayOutTerms, ql) && !AnyTerm(RemainingTerms, ql)
    ensures Target(ql) == Rule7Id
  {
    AnyTermMeaning(DisclosureTerms, ql);
    assert DisclosureTerms[0] == "disclose";
  }

  /** An obligation question to a node with two modalities, neither an obligation, answers with its first WHAT. */
  lemma NoObligationAnswersWhat(ql: string, n: Node)
    requires AsksObligation(ql) && |n.what| > 0
    requires |n.canMust| == 2 && !Obligation()(n.canMust[0]) && !Obligation()(n.canMust[1])
    ensures Conclusion(ql, n) == n.what[0].text
  {
    FirstOfTwoNone(n.canMust, Obligation());
  }

  /**
   * An obligation question that goes to Rule 7 (by `DisclosureTarget`, any question about
   * disclosure that no earlier rule claims, such as "Must I disclose the payment?") is
   * answered with Rule 7's first WHAT: Rule 7 has only MUST NOT and MAY NOT modalities,
   * which are not obligations.
   */
  lemma DisclosureQuestion(t: Nodes, question: string)
    requires Rule7Sample(t)
    requires var ql := Lower(question);
      Target(ql) == Rule7Id && AsksObligation(ql)
    ensures var r := Answer(t, question); r.applicableNodes == [t.byId[Rule7Id]] && r.conclusion == Rule7What1
  {
    ObligationAnswerAt(t, question, Rule7Id, Rule7What1);
  }

  /** An obligation question aimed at a node with only prohibitions gets its first WHAT. */
  lemma ObligationAnswerAt(t: Nodes, question: string, id: string, what1: string)
    requires OpensWithProhibitions(t, id, what1)
    requires Target(Lower(question)) == id && AsksObligation(Lower(question))
    ensures Answer(t, question).applicableNodes == [t.byId[id]]
    ensures Answer(t, question).conclusion == what1
  {
    AnswerAt(t, question, id);
    ProhibitionsAnswerWhat(Lower(question), t, id, what1);
  }

  /** The conclusion an obligation question draws from a node with only prohibitions. */
  lemma ProhibitionsAnswerWhat(ql: string, t: Nodes, id: string, what1: string)
    requires OpensWithProhibitions(t, id, what1) && AsksObligation(ql)
    ensures Conclusion(ql, t.byId[id]) == what1
  {
    NoObligationAnswersWhat(ql, t.byId[id]);
  }

  /** The answer to a question whose target is in the table: that node and its conclusion. */
  lemma AnswerAt(t: Nodes, question: string, id: string)
    requires Target(Lower(question)) == id && id in t.byId
    ensures Answer(t, question).applicableNodes == [t.byId[id]]
    ensures Answer(t, question).conclusion == Conclusion(Lower(question), t.byId[id])
  {
  }

  /**
   * A general question with none of the rule terms and no must, have to, can, may or how
   * in it, such as "Do I need to settle first?", is answered from the root with its WHAT.
   */
  lemma GeneralQuestion(t: Nodes, question: string)
    requires Samples(t)
    requires var ql := Lower(question);
      !AnyTerm(PayInTerms, ql) && !AnyTerm(CounterclaimTerms, ql) && !AnyTerm(AcceptTerms, ql)
      && !AnyTerm(PayOutTerms, ql) && !AnyTerm(RemainingTerms, ql) && !AnyTerm(DisclosureTerms, ql)
      && !AsksObligation(ql) && !AsksPermission(ql) && !Contains(ql, "how")
    ensures Answer(t, question).applicableNodes == [t.byId[RootId]]
    ensures Answer(t, question).conclusion == RootWhat1
  {
    var ql := Lower(question);
    TargetMeaning(t, ql);
    ConclusionOtherwise(ql, t.byId[RootId]);
  }
}
