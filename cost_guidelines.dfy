/**
 * The Appendix G cost guidelines of the Order 21 costs module and `calculate_costs`,
 * the range lookup over them.
 */
module CostGuidelines {
  import opened Wrappers
  import opened Text
  import opened JsonValue
  import opened Seqs

  /** One guideline: an application type at a complexity level, with its dollar range. */
  datatype CostGuideline = CostGuideline(
    applicationType: string, complexityLevel: string, minAmount: int, maxAmount: int,
    citation: string, notes: string)

  /** `cost_guidelines`: the guideline lists under their category names, in insertion order. */
  type Categories = seq<(string, seq<CostGuideline>)>

  const PartI1: string := "Appendix G, Part I, Section 1"
  const PartII1: string := "Appendix G, Part II, Section 1"
  const PartII2: string := "Appendix G, Part II, Section 2"
  const PartIII1: string := "Appendix G, Part III, Section 1"
  const PartIV1: string := "Appendix G, Part IV, Section 1"

  const Arbitration: string := "Stay for arbitration"
  const Forum: string := "Stay on forum non conveniens"
  const PendingAppeal: string := "Stay pending appeal"
  const CommercialTrial: string := "Commercial trial (claim $500k)"
  const Originating: string := "Originating application"

  /** The first guideline: it is the one whose level says "uncontested". */
  const ArbitrationSimple: CostGuideline := CostGuideline(Arbitration, "Simple uncontested", 5000, 12000, PartII2, "")
  const ArbitrationContested: CostGuideline := CostGuideline(Arbitration, "Contested", 12000, 23000, PartII2, "")

  const StayApplications: seq<CostGuideline> := [
    ArbitrationSimple,
    ArbitrationContested,
    CostGuideline(Forum, "Simple", 6000, 14000, PartII2, ""),
    CostGuideline(Forum, "Contested", 14000, 21000, PartII2, ""),
    CostGuideline(PendingAppeal, "Simple", 3000, 7000, PartII2, ""),
    CostGuideline(PendingAppeal, "Contested", 7000, 11000, PartII2, "")]

  const CommercialTrials: seq<CostGuideline> := [
    CostGuideline(CommercialTrial, "Pre-trial preparation", 25000, 90000, PartIII1,
                  "Includes pleadings, discovery, interlocutory applications"),
    CostGuideline(CommercialTrial, "Daily trial tariff", 6000, 16000, PartIII1, "Per day of trial"),
    CostGuideline(CommercialTrial, "Post-trial submissions", 15000, 35000, PartIII1, "")]

  const Summonses: seq<CostGuideline> := [
    CostGuideline("Uncontested summons", "Simple", 2000, 5000, PartI1, ""),
    CostGuideline("Contested summons (half-day)", "Standard", 5000, 12000, PartI1, ""),
    CostGuideline("Contested summons (full-day)", "Complex", 12000, 22000, PartI1, "")]

  const OriginatingApplications: seq<CostGuideline> := [
    CostGuideline(Originating, "Simple uncontested", 5000, 15000, PartII1, ""),
    CostGuideline(Originating, "Contested standard", 15000, 30000, PartII1, ""),
    CostGuideline(Originating, "Complex multi-day", 30000, 40000, PartII1, "")]

  const Appeals: seq<CostGuideline> := [
    CostGuideline("Appeal to High Court", "Standard", 15000, 40000, PartIV1, ""),
    CostGuideline("Appeal to Court of Appeal", "Standard", 40000, 150000, PartIV1,
                  "Varies significantly with complexity")]

  /** `_load_cost_guidelines`: the five categories of Appendix G. */
  const AppendixG: Categories := [
    ("stay_applications", StayApplications),
    ("commercial_trials", CommercialTrials),
    ("summonses", Summonses),
    ("originating_applications", OriginatingApplications),
    ("appeals", Appeals)]

  /** Every guideline of every category, category by category, each list in its order. */
  function Flatten(cats: Categories): (r: seq<CostGuideline>)
    ensures |cats| > 0 ==> r == Flatten(cats[..|cats| - 1]) + Last(cats).1
  {
    if |cats| == 0 then [] else Flatten(cats[..|cats| - 1]) + Last(cats).1
  }

  lemma FlattenSnoc(cats: Categories, c: nat)
    requires c < |cats|
    ensures Flatten(cats[..c + 1]) == Flatten(cats[..c]) + cats[c].1
  {
    assert cats[..c + 1][..c] == cats[..c];
  }

  /** The seventeen guidelines of Appendix G, in order. */
  lemma AppendixGRows()
    ensures Flatten(AppendixG) == StayApplications + CommercialTrials + Summonses + OriginatingApplications + Appeals
  {
    var a := AppendixG;
    assert a[..0] == [];
    FlattenSnoc(a, 0);
    FlattenSnoc(a, 1);
    FlattenSnoc(a, 2);
    FlattenSnoc(a, 3);
    FlattenSnoc(a, 4);
    assert a[..5] == a;
  }

  /** Every guideline's range is well formed: its minimum is at most its maximum. */
  predicate Ordered(gs: seq<CostGuideline>) {
    forall i :: 0 <= i < |gs| ==> gs[i].minAmount <= gs[i].maxAmount
  }

  /**
   * Appendix G holds seventeen guidelines, and each has its minimum at most its maximum,
   * between $2,000 and $150,000.
   */
  lemma AppendixGOrdered()
    ensures |Flatten(AppendixG)| == 17
    ensures Ordered(Flatten(AppendixG))
    ensures forall i :: 0 <= i < |Flatten(AppendixG)| ==>
      2000 <= Flatten(AppendixG)[i].minAmount && Flatten(AppendixG)[i].maxAmount <= 150000
  {
    AppendixGRows();
  }

  // ---------------------------------------------------------------------------
  // calculate_costs

  /** `any(keyword in type for keyword in tokens)`, the type already lowered. */
  predicate AnyIn(tokens: seq<string>, lowType: string) {
    exists k :: 0 <= k < |tokens| && Contains(lowType, tokens[k])
  }

  /**
   * The complexity test of `calculate_costs` on a lowered level: the complexity is in
   * the level, or the matter is uncontested and the level says "uncontested", or it is
   * contested and the level says "contested".
   */
  predicate LevelMatches(lowLevel: string, lowComplexity: string, contested: bool) {
    Contains(lowLevel, lowComplexity)
    || (!contested && Contains(lowLevel, "uncontested"))
    || (contested && Contains(lowLevel, "contested"))
  }

  predicate Matches(g: CostGuideline, tokens: seq<string>, lowComplexity: string, contested: bool) {
    AnyIn(tokens, Lower(g.applicationType)) && LevelMatches(Lower(g.complexityLevel), lowComplexity, contested)
  }

  /** The guidelines of `gs` that match, in their order. */
  function Matching(gs: seq<CostGuideline>, tokens: seq<string>, lowComplexity: string, contested: bool)
    : (r: seq<CostGuideline>)
    ensures |r| <= |gs|
  {
    if |gs| == 0 then []
    else
      Matching(gs[..|gs| - 1], tokens, lowComplexity, contested)
      + (if Matches(Last(gs), tokens, lowComplexity, contested) then [Last(gs)] else [])
  }

  lemma MatchingSnoc(gs: seq<CostGuideline>, g: CostGuideline, tokens: seq<string>, cx: string, contested: bool)
    ensures Matching(gs + [g], tokens, cx, contested)
            == Matching(gs, tokens, cx, contested) + (if Matches(g, tokens, cx, contested) then [g] else [])
  {
    assert (gs + [g])[..|gs|] == gs;
  }

  /**
   * A guideline is picked iff it is one of the list's and it matches; nothing is picked
   * iff none matches.
   */
  lemma {:induction false} MatchingMeaning(gs: seq<CostGuideline>, tokens: seq<string>, cx: string, contested: bool)
    ensures forall g :: g in Matching(gs, tokens, cx, contested) <==> g in gs && Matches(g, tokens, cx, contested)
    ensures Matching(gs, tokens, cx, contested) == [] <==>
      forall i :: 0 <= i < |gs| ==> !Matches(gs[i], tokens, cx, contested)
  {
    if |gs| > 0 {
      var init := gs[..|gs| - 1];
      MatchingMeaning(init, tokens, cx, contested);
      assert gs == init + [Last(gs)];
      forall i | 0 <= i < |init|
        ensures init[i] == gs[i]
      {
      }
    }
  }

  /** Matching the guidelines one list at a time is matching them all at once. */
  lemma {:induction false} MatchingAppend(a: seq<CostGuideline>, b: seq<CostGuideline>, tokens: seq<string>,
                                          cx: string, contested: bool)
    ensures Matching(a + b, tokens, cx, contested) == Matching(a, tokens, cx, contested) + Matching(b, tokens, cx, contested)
    decreases |b|
  {
    if |b| == 0 {
      assert a + b == a;
    } else {
      var b' := b[..|b| - 1];
      assert a + b == (a + b') + [Last(b)];
      assert b == b' + [Last(b)];
      MatchingSnoc(a + b', Last(b), tokens, cx, contested);
      MatchingSnoc(b', Last(b), tokens, cx, contested);
      MatchingAppend(a, b', tokens, cx, contested);
    }
  }

  /** `min(g.min_amount for g in gs)`. */
  function MinAmount(gs: seq<CostGuideline>): (r: int)
    requires |gs| > 0
    ensures forall i :: 0 <= i < |gs| ==> r <= gs[i].minAmount
    ensures exists i :: 0 <= i < |gs| && r == gs[i].minAmount
  {
    if |gs| == 1 then gs[0].minAmount
    else
      var rest := MinAmount(gs[1..]);
      assert forall i :: 1 <= i < |gs| ==> gs[i] == gs[1..][i - 1];
      if gs[0].minAmount <= rest then gs[0].minAmount else rest
  }

  /** `max(g.max_amount for g in gs)`. */
  function MaxAmount(gs: seq<CostGuideline>): (r: int)
    requires |gs| > 0
    ensures forall i :: 0 <= i < |gs| ==> gs[i].maxAmount <= r
    ensures exists i :: 0 <= i < |gs| && r == gs[i].maxAmount
  {
    if |gs| == 1 then gs[0].maxAmount
    else
      var rest := MaxAmount(gs[1..]);
      assert forall i :: 1 <= i < |gs| ==> gs[i] == gs[1..][i - 1];
      if gs[0].maxAmount >= rest then gs[0].maxAmount else rest
  }

  /** What `calculate_costs` returns: `found: False` with a message, or the matching guidelines and their totals. */
  datatype CostResult =
    | NotFound(message: string)
    | Found(applicationType: string, complexity: string, guidelines: seq<CostGuideline>,
            totalMin: int, totalMax: int)

  /** `calculate_costs(application_type, complexity, contested=...)` over the categories `cats`, as a value. */
  function Calculation(cats: Categories, applicationType: string, complexity: string, contested: bool)
    : CostResult
  {
    var picked := Matching(Flatten(cats), SplitWhitespace(Lower(applicationType)), Lower(complexity), contested);
    if picked == [] then NotFound("No cost guidelines found for " + applicationType + " (" + complexity + ")")
    else Found(applicationType, complexity, picked, MinAmount(picked), MaxAmount(picked))
  }

  /** `any(keyword in lowType for keyword in tokens)`, keyword by keyword. */
  method AnyKeyword(tokens: seq<string>, lowType: string) returns (b: bool)
    ensures b == AnyIn(tokens, lowType)
  {
    var k := 0;
    while k < |tokens|
      invariant 0 <= k <= |tokens|
      invariant forall j :: 0 <= j < k ==> !Contains(lowType, tokens[j])
    {
      if Contains(lowType, tokens[k]) {
        return true;
      }
      k := k + 1;
    }
    return false;
  }

  /** The inner loop of `calculate_costs` over one category's list, appending the matches. */
  method MatchList(results: seq<CostGuideline>, gs: seq<CostGuideline>, tokens: seq<string>,
                   cx: string, contested: bool)
    returns (r: seq<CostGuideline>)
    ensures r == results + Matching(gs, tokens, cx, contested)
  {
    r := results;
    var j := 0;
    while j < |gs|
      invariant 0 <= j <= |gs|
      invariant r == results + Matching(gs[..j], tokens, cx, contested)
    {
      var g := gs[j];
      assert gs[..j + 1] == gs[..j] + [g];
      MatchingSnoc(gs[..j], g, tokens, cx, contested);
      var typeHit := AnyKeyword(tokens, Lower(g.applicationType));
      if typeHit {
        var level := Lower(g.complexityLevel);
        if Contains(level, cx) {
          r := r + [g];
        } else if !contested && Contains(level, "uncontested") {
          r := r + [g];
        } else if contested && Contains(level, "contested") {
          r := r + [g];
        }
      }
      j := j + 1;
    }
    assert gs[..j] == gs;
  }

  /** `calculate_costs`: every category's list scanned in order, then the result or the message. */
  method CalculateCosts(cats: Categories, applicationType: string, complexity: string, contested: bool)
    returns (r: CostResult)
    ensures r == Calculation(cats, applicationType, complexity, contested)
  {
    var results: seq<CostGuideline> := [];
    var tokens := SplitWhitespace(Lower(applicationType));
    var cx := Lower(complexity);
    var c := 0;
    while c < |cats|
      invariant 0 <= c <= |cats|
      invariant results == Matching(Flatten(cats[..c]), tokens, cx, contested)
    {
      FlattenSnoc(cats, c);
      MatchingAppend(Flatten(cats[..c]), cats[c].1, tokens, cx, contested);
      results := MatchList(results, cats[c].1, tokens, cx, contested);
      c := c + 1;
    }
    assert cats[..c] == cats;
    if results == [] {
      return NotFound("No cost guidelines found for " + applicationType + " (" + complexity + ")");
    }
    r := Found(applicationType, complexity, results, MinAmount(results), MaxAmount(results));
  }

  /**
   * `found` is false exactly when no guideline matches, with the message naming the
   * request; otherwise the request is echoed and the guidelines are exactly the matching
   * ones.
   */
  lemma CalculationMeaning(cats: Categories, applicationType: string, complexity: string, contested: bool)
    ensures var r := Calculation(cats, applicationType, complexity, contested);
      var tokens := SplitWhitespace(Lower(applicationType));
      var all := Flatten(cats);
      (r.NotFound? <==> forall i :: 0 <= i < |all| ==> !Matches(all[i], tokens, Lower(complexity), contested))
      && (r.NotFound? ==> r.message == "No cost guidelines found for " + applicationType + " (" + complexity + ")")
      && (r.Found? ==>
            r.applicationType == applicationType && r.complexity == complexity
            && forall g :: g in r.guidelines <==> g in all && Matches(g, tokens, Lower(complexity), contested))
  {
    MatchingMeaning(Flatten(cats), SplitWhitespace(Lower(applicationType)), Lower(complexity), contested);
  }

  /**
   * The totals of a found calculation are attained by some listed guideline and every
   * listed range lies within them, so for well-formed ranges `total_min <= total_max`.
   */
  lemma CalculationTotals(cats: Categories, applicationType: string, complexity: string, contested: bool)
    requires Calculation(cats, applicationType, complexity, contested).Found?
    ensures var r := Calculation(cats, applicationType, complexity, contested);
      (forall i :: 0 <= i < |r.guidelines| ==>
         r.totalMin <= r.guidelines[i].minAmount && r.guidelines[i].maxAmount <= r.totalMax)
      && (exists i :: 0 <= i < |r.guidelines| && r.totalMin == r.guidelines[i].minAmount)
      && (exists i :: 0 <= i < |r.guidelines| && r.totalMax == r.guidelines[i].maxAmount)
      && (Ordered(Flatten(cats)) ==> r.totalMin <= r.totalMax)
  {
    var all := Flatten(cats);
    var picked := Matching(all, SplitWhitespace(Lower(applicationType)), Lower(complexity), contested);
    MatchingMeaning(all, SplitWhitespace(Lower(applicationType)), Lower(complexity), contested);
    if Ordered(all) {
      assert picked[0] in all;
      assert MinAmount(picked) <= picked[0].minAmount <= picked[0].maxAmount <= MaxAmount(picked);
    }
  }

  // ---------------------------------------------------------------------------
  // "contested" is a substring of "uncontested"

  lemma UncontestedHoldsContested()
    ensures Contains("uncontested", "contested")
  {
    assert "uncontested"[2..11] == "contested";
    ContainsAt("uncontested", "contested", 2);
  }

  /**
   * As written, a contested request accepts every level that says "uncontested": the
   * test `"contested" in level` also holds there.
   */
  lemma ContestedAcceptsUncontested(lowLevel: string, lowComplexity: string)
    requires Contains(lowLevel, "uncontested")
    ensures LevelMatches(lowLevel, lowComplexity, true)
    ensures LevelMatches(lowLevel, lowComplexity, false)
  {
    UncontestedHoldsContested();
    ContainsTrans(lowLevel, "uncontested", "contested");
  }

  /**
   * A stay calculation `reason` runs (`calculate_costs(app_type, "standard",
   * contested=True)` with an application type whose first word is "stay") finds
   * guidelines, and lists the simple uncontested arbitration stay among them.
   */
  lemma ContestedStayPicksUncontested(applicationType: string)
    requires var tokens := SplitWhitespace(Lower(applicationType)); |tokens| > 0 && tokens[0] == "stay"
    ensures Calculation(AppendixG, applicationType, "standard", true).Found?
    ensures ArbitrationSimple in Calculation(AppendixG, applicationType, "standard", true).guidelines
  {
    var tokens := SplitWhitespace(Lower(applicationType));
    ArbitrationSimpleMatches(tokens);
    AppendixGRows();
    assert Flatten(AppendixG)[0] == ArbitrationSimple;
    MatchingMeaning(Flatten(AppendixG), tokens, Lower("standard"), true);
  }

  lemma ArbitrationSimpleMatches(tokens: seq<string>)
    requires |tokens| > 0 && tokens[0] == "stay"
    ensures Matches(ArbitrationSimple, tokens, Lower("standard"), true)
  {
    assert Lower(Arbitration)[..4] == "stay";
    assert Contains(Lower(Arbitration), tokens[0]);
    var level := Lower(ArbitrationSimple.complexityLevel);
    assert level[7..] == "uncontested";
    ContainsAt(level, "uncontested", 7);
    ContestedAcceptsUncontested(level, Lower("standard"));
  }

  /**
   * The complexity test as evidently intended: a contested matter accepts a level that
   * says "contested" but not "uncontested".
   */
  predicate IntendedLevelMatches(lowLevel: string, lowComplexity: string, contested: bool) {
    Contains(lowLevel, lowComplexity)
    || (!contested && Contains(lowLevel, "uncontested"))
    || (contested && Contains(lowLevel, "contested") && !Contains(lowLevel, "uncontested"))
  }

  /**
   * Under the intended test a level that does not name the requested complexity is
   * accepted for contested or for uncontested matters, never both; uncontested levels
   * go only to uncontested matters.
   */
  lemma IntendedLevelsDisjoint(lowLevel: string, lowComplexity: string)
    requires !Contains(lowLevel, lowComplexity)
    ensures !(IntendedLevelMatches(lowLevel, lowComplexity, true) && IntendedLevelMatches(lowLevel, lowComplexity, false))
    ensures Contains(lowLevel, "uncontested") ==>
      !IntendedLevelMatches(lowLevel, lowComplexity, true) && IntendedLevelMatches(lowLevel, lowComplexity, false)
  {
  }

  // ---------------------------------------------------------------------------
  // The dictionary `calculate_costs` returns

  function GuidelineJson(g: CostGuideline): Json {
    JObj(map["description" := JStr(g.applicationType), "complexity" := JStr(g.complexityLevel),
             "min_amount" := JNum(g.minAmount as real), "max_amount" := JNum(g.maxAmount as real),
             "citation" := JStr(g.citation), "notes" := JStr(g.notes)])
  }

  /** The result as the dictionary `calculate_costs` returns. */
  function CostJson(r: CostResult): (j: Json)
    ensures j.JObj? && "found" in j.fields && j.fields["found"] == JBool(r.Found?)
    ensures r.Found? ==> "guidelines" in j.fields && j.fields["guidelines"].JArr?
                         && |j.fields["guidelines"].items| == |r.guidelines|
    ensures Truthy(j)
  {
    match r
    case NotFound(message) => JObj(map["found" := JBool(false), "message" := JStr(message)])
    case Found(at, cx, gs, lo, hi) =>
      JObj(map["found" := JBool(true), "application_type" := JStr(at), "complexity" := JStr(cx),
               "guidelines" := JArr(seq(|gs|, i requires 0 <= i < |gs| => GuidelineJson(gs[i]))),
               "total_min" := JNum(lo as real), "total_max" := JNum(hi as real)])
  }
}
