/**
 * The query router of the module registry: the legal taxonomy and topic extraction,
 * question classification into the six dimensions, entity extraction, and the routing
 * confidence. Regular-expression search is a parameter (`search` for a case-sensitive
 * `re.search(pattern, text)`, `searchI` for one with `re.IGNORECASE`); the two patterns
 * whose meaning the model spells out (amounts and time periods) are written out over
 * ASCII text.
 */
module QueryRouting {
  import opened Wrappers
  import opened Text
  import opened IsoDate
  import opened Seqs

  /** A dict from a name to a list of strings, in insertion order. */
  type Table = seq<(string, seq<string>)>

  function Names(tab: Table): (r: seq<string>)
    ensures |r| == |tab|
  {
    if |tab| == 0 then [] else [tab[0].0] + Names(tab[1..])
  }

  lemma {:induction false} NamesPointwise(tab: Table, n: seq<string>)
    requires |tab| == |n| && forall i :: 0 <= i < |tab| ==> tab[i].0 == n[i]
    ensures Names(tab) == n
  {
    if |tab| > 0 {
      NamesPointwise(tab[1..], n[1..]);
    }
  }

  /** The legal topics, in the taxonomy's order. */
  function TopicNames(): seq<string> {
    [ "default_judgment", "summary_judgment", "costs", "service", "overseas_service",
      "setting_aside", "appeals", "directors_duties", "insolvency", "shareholders",
      "breach_of_contract", "damages", "high_court_jurisdiction", "district_court_jurisdiction" ]
  }

  function TopicKeywords(): seq<seq<string>> {
    [ ["default", "judgment", "no defense", "didn't respond", "failed to file", "no response"],
      ["summary", "no triable issue", "no real prospect", "summary disposal"],
      ["costs", "fees", "charges", "expenses", "legal fees", "party and party costs", "indemnity costs"],
      ["service", "serve", "serving documents", "delivery"],
      ["overseas", "abroad", "foreign", "out of jurisdiction", "outside singapore"],
      ["set aside", "setting aside", "aside", "overturn", "reverse"],
      ["appeal", "appellate", "review", "challenge decision"],
      ["director", "fiduciary duty", "directors duty", "breach of duty", "conflict of interest"],
      ["insolvent", "insolvency", "winding up", "liquidation", "bankruptcy", "judicial management"],
      ["shareholder", "minority shareholder", "oppression", "unfair prejudice"],
      ["breach", "contract", "breach of contract", "violation", "non-performance"],
      ["damages", "compensation", "loss", "remedy"],
      ["high court jurisdiction", "hc", "sghc"],
      ["district court jurisdiction", "dc", "sgdc"] ]
  }

  /** Keywords of each legal topic; topic extraction follows this order. */
  function Taxonomy(): Table {
    var names := TopicNames();
    var keywords := TopicKeywords();
    seq(|names|, i requires 0 <= i < |names| => (names[i], keywords[i]))
  }

  /** Question patterns per dimension; classification takes the first type that matches. */
  function QuestionPatterns(): Table {
    [ ("WHAT", ["\\bwhat\\s+(is|are|does)\\b", "\\bdefine\\b", "\\bexplain\\b", "\\btell\\s+me\\s+about\\b"]),
      ("WHICH", ["\\bwhich\\b", "\\bwho\\b", "\\bwhen\\b", "\\bwhere\\b"]),
      ("IF_THEN", ["\\bif\\b.*\\bthen\\b", "\\bwhen\\b.*\\bhappens\\b", "\\bwhat\\s+happens\\s+if\\b", "\\bconsequence\\b"]),
      ("CAN_MUST", ["\\bcan\\s+i\\b", "\\bmay\\s+i\\b", "\\bmust\\s+i\\b", "\\bshall\\s+i\\b",
                    "\\bam\\s+i\\s+(required|allowed|permitted|obliged)\\b", "\\bdo\\s+i\\s+have\\s+to\\b"]),
      ("GIVEN", ["\\bgiven\\s+that\\b", "\\bassuming\\b", "\\bsuppose\\b", "\\bif\\s+(the|a|an)\\b"]),
      ("WHY", ["\\bwhy\\b", "\\breason\\b", "\\brationale\\b", "\\bpurpose\\b", "\\bwhy\\s+does\\b"]) ]
  }

  /** The court patterns, tried in this order with `re.IGNORECASE`; one pattern per court. */
  function CourtPatterns(): Table {
    [ ("High Court", ["high\\s+court|hc|sghc"]),
      ("District Court", ["district\\s+court|dc|sgdc"]),
      ("Magistrate Court", ["magistrate|mc|sgmc"]),
      ("Court of Appeal", ["court\\s+of\\s+appeal|ca|sgca"]) ]
  }

  // ---------------------------------------------------------------------------
  // _extract_topics

  predicate AnyKeyword(keywords: seq<string>, q: string) {
    exists k :: 0 <= k < |keywords| && Contains(q, keywords[k])
  }

  /** The topics, in table order, one of whose keywords occurs in `q`. */
  function TopicsAmong(tab: Table, q: string): seq<string> {
    if |tab| == 0 then []
    else (if AnyKeyword(tab[0].1, q) then [tab[0].0] else []) + TopicsAmong(tab[1..], q)
  }

  /** `_extract_topics` over the router's taxonomy `tab` (which is `Taxonomy()`). */
  method ExtractTopics(tab: Table, query: string) returns (topics: seq<string>)
    ensures topics == TopicsAmong(tab, Lower(query))
  {
    var q := Lower(query);
    topics := [];
    var i := 0;
    while i < |tab|
      invariant 0 <= i <= |tab|
      invariant topics + TopicsAmong(tab[i..], q) == TopicsAmong(tab, q)
    {
      var (topic, keywords) := tab[i];
      assert tab[i..][1..] == tab[i + 1..];
      var any := false;
      var j := 0;
      while j < |keywords| && !any
        invariant 0 <= j <= |keywords|
        invariant any <==> exists k :: 0 <= k < j && Contains(q, keywords[k])
      {
        any := Contains(q, keywords[j]);
        j := j + 1;
      }
      if any {
        topics := topics + [topic];
      }
      i := i + 1;
    }
  }

  predicate IsSubseq<T(==)>(a: seq<T>, b: seq<T>)
    decreases |b|
  {
    |a| == 0 || (|b| > 0 && ((a[0] == b[0] && IsSubseq(a[1..], b[1..])) || IsSubseq(a, b[1..])))
  }

  /** A topic is extracted iff one of its keywords occurs. */
  lemma {:induction false} TopicsMeaning(tab: Table, q: string)
    ensures forall x :: x in TopicsAmong(tab, q) <==>
      exists i :: 0 <= i < |tab| && tab[i].0 == x && AnyKeyword(tab[i].1, q)
  {
    if |tab| > 0 {
      TopicsMeaning(tab[1..], q);
      var rest := TopicsAmong(tab[1..], q);
      forall x
        ensures x in TopicsAmong(tab, q) <==>
          exists i :: 0 <= i < |tab| && tab[i].0 == x && AnyKeyword(tab[i].1, q)
      {
        if x in rest {
          var i :| 0 <= i < |tab| - 1 && tab[1..][i].0 == x && AnyKeyword(tab[1..][i].1, q);
          assert tab[i + 1] == tab[1..][i];
        }
        if exists i :: 0 <= i < |tab| && tab[i].0 == x && AnyKeyword(tab[i].1, q) {
          var i :| 0 <= i < |tab| && tab[i].0 == x && AnyKeyword(tab[i].1, q);
          if i > 0 {
            assert tab[1..][i - 1] == tab[i];
          }
        }
      }
    }
  }

  lemma {:induction false} SubseqOfTail<T>(a: seq<T>, b: seq<T>)
    requires |b| > 0 && IsSubseq(a, b[1..])
    ensures IsSubseq(a, b)
  {
  }

  /** The extracted topics keep table order. */
  lemma {:induction false} TopicsInOrder(tab: Table, q: string)
    ensures IsSubseq(TopicsAmong(tab, q), Names(tab))
  {
    if |tab| > 0 {
      TopicsInOrder(tab[1..], q);
      var rest := TopicsAmong(tab[1..], q);
      var n := Names(tab);
      assert n[1..] == Names(tab[1..]);
      if AnyKeyword(tab[0].1, q) {
        var a := [tab[0].0] + rest;
        assert TopicsAmong(tab, q) == a;
        assert a[0] == n[0] && a[1..] == rest;
      } else {
        assert TopicsAmong(tab, q) == rest;
        SubseqOfTail(rest, n);
      }
    }
  }

  /** Distinct topic names give a repetition-free extraction. */
  lemma {:induction false} TopicsDistinct(tab: Table, q: string)
    requires Distinct(Names(tab))
    ensures Distinct(TopicsAmong(tab, q))
  {
    if |tab| > 0 {
      assert Names(tab)[1..] == Names(tab[1..]);
      assert Distinct(Names(tab[1..]));
      TopicsDistinct(tab[1..], q);
      if AnyKeyword(tab[0].1, q) {
        TopicsMeaning(tab[1..], q);
        NamesInTable(tab[1..], tab[0].0);
        HeadNotInTail(Names(tab));
        AppendFrontDistinct(tab[0].0, TopicsAmong(tab[1..], q));
      }
    }
  }

  lemma {:induction false} NamesInTable(tab: Table, x: string)
    ensures x in Names(tab) <==> exists i :: 0 <= i < |tab| && tab[i].0 == x
  {
    if |tab| > 0 {
      NamesInTable(tab[1..], x);
      if x in Names(tab[1..]) {
        var i :| 0 <= i < |tab| - 1 && tab[1..][i].0 == x;
        assert tab[i + 1].0 == x;
      }
      if exists i :: 0 <= i < |tab| && tab[i].0 == x {
        var i :| 0 <= i < |tab| && tab[i].0 == x;
        if i > 0 {
          assert tab[1..][i - 1].0 == x;
        }
      }
    }
  }

  // ---------------------------------------------------------------------------
  // _classify_question_type, and the court entity

  predicate AnyMatch(patterns: seq<string>, text: string, search: (string, string) -> bool) {
    exists p :: p in patterns && search(p, text)
  }

  /** The name of the first entry of `tab` one of whose patterns matches `text`. */
  function FirstMatch(tab: Table, text: string, search: (string, string) -> bool): Option<string> {
    if |tab| == 0 then None
    else if AnyMatch(tab[0].1, text, search) then Some(tab[0].0)
    else FirstMatch(tab[1..], text, search)
  }

  /** First match wins: the chosen entry matches and no earlier entry does; none means no entry matches. */
  lemma {:induction false} FirstMatchMeaning(tab: Table, text: string, search: (string, string) -> bool)
    ensures FirstMatch(tab, text, search).None? <==>
      forall i :: 0 <= i < |tab| ==> !AnyMatch(tab[i].1, text, search)
    ensures FirstMatch(tab, text, search).Some? ==>
      exists i :: 0 <= i < |tab| && tab[i].0 == FirstMatch(tab, text, search).value
        && AnyMatch(tab[i].1, text, search)
        && forall j :: 0 <= j < i ==> !AnyMatch(tab[j].1, text, search)
  {
    if |tab| > 0 && !AnyMatch(tab[0].1, text, search) {
      FirstMatchMeaning(tab[1..], text, search);
      forall i | 0 < i < |tab|
        ensures tab[i] == tab[1..][i - 1]
      {
      }
      if FirstMatch(tab, text, search).Some? {
        var i :| 0 <= i < |tab| - 1 && tab[1..][i].0 == FirstMatch(tab, text, search).value
          && AnyMatch(tab[1..][i].1, text, search)
          && forall j :: 0 <= j < i ==> !AnyMatch(tab[1..][j].1, text, search);
        assert forall j :: 0 < j < i + 1 ==> tab[j] == tab[1..][j - 1];
        assert tab[i + 1] == tab[1..][i];
      }
    }
  }

  /**
   * `_classify_question_type` over the router's patterns `tab` (which is `QuestionPatterns()`):
   * the first type with a matching pattern on the lowered query, else WHAT.
   */
  method ClassifyQuestionType(tab: Table, query: string, search: (string, string) -> bool) returns (qType: string)
    ensures qType == FirstMatch(tab, Lower(query), search).GetOr("WHAT")
  {
    var q := Lower(query);
    var i := 0;
    while i < |tab|
      invariant 0 <= i <= |tab|
      invariant FirstMatch(tab[i..], q, search) == FirstMatch(tab, q, search)
    {
      var (t, patterns) := tab[i];
      assert tab[i..][1..] == tab[i + 1..];
      var j := 0;
      while j < |patterns|
        invariant 0 <= j <= |patterns|
        invariant forall k :: 0 <= k < j ==> !search(patterns[k], q)
      {
        if search(patterns[j], q) {
          return t;
        }
        j := j + 1;
      }
      i := i + 1;
    }
    return "WHAT";
  }

  // ---------------------------------------------------------------------------
  // _extract_entities

  predicate AmountChar(c: char) { IsDigit(c) || c == ',' }

  /** The first index at or after `p` holding a digit or a comma, or `|s|`. */
  function AmountStart(s: string, p: nat): (i: nat)
    requires p <= |s|
    ensures p <= i <= |s| && (forall m :: p <= m < i ==> !AmountChar(s[m])) && (i < |s| ==> AmountChar(s[i]))
    decreases |s| - p
  {
    if p == |s| || AmountChar(s[p]) then p else AmountStart(s, p + 1)
  }

  /** The end of the run of digits and commas that starts at `p`. */
  function AmountEnd(s: string, p: nat): (e: nat)
    requires p <= |s|
    ensures p <= e <= |s| && (forall m :: p <= m < e ==> AmountChar(s[m])) && (e < |s| ==> !AmountChar(s[e]))
    decreases |s| - p
  {
    if p < |s| && AmountChar(s[p]) then AmountEnd(s, p + 1) else p
  }

  /**
   * Group 1 of the leftmost match of `\$?([\d,]+)`: the first run of digits and commas
   * (an optional `$` before it does not move where the group starts).
   */
  function AmountGroup(s: string): (r: Option<string>)
    ensures r.None? <==> forall i :: 0 <= i < |s| ==> !AmountChar(s[i])
    ensures r.Some? ==> |r.value| > 0 && forall i :: 0 <= i < |r.value| ==> AmountChar(r.value[i])
  {
    var i := AmountStart(s, 0);
    if i == |s| then None
    else
      var e := AmountEnd(s, i);
      assert forall m :: 0 <= m < e - i ==> s[i..e][m] == s[i + m];
      Some(s[i..e])
  }

  function DropCommas(s: string): (r: string)
    ensures forall i :: 0 <= i < |r| ==> r[i] in s && r[i] != ','
  {
    if |s| == 0 then "" else (if s[0] == ',' then "" else [s[0]]) + DropCommas(s[1..])
  }

  lemma {:induction false} DropCommasDigits(s: string)
    requires forall i :: 0 <= i < |s| ==> AmountChar(s[i])
    ensures AllDigits(DropCommas(s))
  {
    var r := DropCommas(s);
    forall i | 0 <= i < |r|
      ensures IsDigit(r[i])
    {
      assert r[i] in s;
    }
  }

  /** The "amount" entity: `float` of the first digit-and-comma run with the commas removed. */
  function AmountOf(query: string): Option<real> {
    match AmountGroup(query)
    case None => None
    case Some(g) =>
      var d := DropCommas(g);
      DropCommasDigits(g);
      if |d| == 0 then None else Some(Value(d) as real)
  }

  /** An amount is read iff the text has a digit or a comma and the first such run holds a digit. */
  lemma AmountMeaning(query: string)
    ensures AmountOf(query).None? <==>
      AmountGroup(query).None?
      || forall k :: 0 <= k < |AmountGroup(query).value| ==> AmountGroup(query).value[k] == ','
  {
    if AmountGroup(query).Some? {
      DropCommasAllCommas(AmountGroup(query).value);
    }
  }

  lemma AmountGroupExample()
    ensures AmountGroup("$5,000 in costs") == Some("5,000")
  {
    var s := "$5,000 in costs";
    assert AmountStart(s, 0) == 1;
    assert s[6] == ' ' && AmountEnd(s, 6) == 6;
    assert s[5] == '0' && AmountChar(s[5]);
    assert AmountEnd(s, 5) == 6;
    assert s[4] == '0' && AmountChar(s[4]);
    assert AmountEnd(s, 4) == 6;
    assert s[3] == '0' && AmountChar(s[3]);
    assert AmountEnd(s, 3) == 6;
    assert s[2] == ',' && AmountChar(s[2]);
    assert AmountEnd(s, 2) == 6;
    assert s[1] == '5' && AmountChar(s[1]);
    assert AmountEnd(s, 1) == 6;
    assert s[1..6] == "5,000";
  }

  lemma ThousandsExample()
    ensures DropCommas("5,000") == "5000" && Value("5000") == 5000
  {
    assert "5,000"[1..] == ",000" && ",000"[1..] == "000";
    assert "5000"[..3] == "500" && "500"[..2] == "50" && "50"[..1] == "5" && "5"[..0] == "";
  }

  /** "$5,000 in costs" reads as 5000. */
  lemma AmountExample()
    ensures AmountOf("$5,000 in costs") == Some(5000.0)
  {
    AmountGroupExample();
    ThousandsExample();
  }

  /** A first run of commas alone gives no amount, even when digits follow later. */
  lemma AmountCommaExample()
    ensures AmountOf("a, b 5") == None
  {
    var s := "a, b 5";
    assert AmountStart(s, 0) == 1;
    assert AmountEnd(s, 1) == 2;
    assert s[1..2] == ",";
  }

  lemma {:induction false} DropCommasAllCommas(s: string)
    ensures |DropCommas(s)| == 0 <==> forall k :: 0 <= k < |s| ==> s[k] == ','
  {
    if |s| > 0 {
      DropCommasAllCommas(s[1..]);
      assert forall k :: 0 < k < |s| ==> s[k] == s[1..][k - 1];
    }
  }

  /** `s` starts with `w` when compared without case (`w` is lower case). */
  predicate LowerPrefix(w: string, s: string) {
    |w| <= |s| && forall i :: 0 <= i < |w| ==> LowerChar(s[i]) == w[i]
  }

  /** `days?|weeks?|months?` at the start of `s`, without case, taking the `s` when present; lowered. */
  function UnitAt(s: string): (r: Option<string>)
    ensures r.Some? ==> LowerPrefix(r.value, s)
    ensures r.Some? ==> r.value in ["day", "days", "week", "weeks", "month", "months"]
  {
    if LowerPrefix("day", s) then Some(if LowerPrefix("days", s) then "days" else "day")
    else if LowerPrefix("week", s) then Some(if LowerPrefix("weeks", s) then "weeks" else "week")
    else if LowerPrefix("month", s) then Some(if LowerPrefix("months", s) then "months" else "month")
    else None
  }

  /** The end of the run of digits that starts at `p`. */
  function DigitEnd(s: string, p: nat): (e: nat)
    requires p <= |s|
    ensures p <= e <= |s| && (forall m :: p <= m < e ==> IsDigit(s[m])) && (e < |s| ==> !IsDigit(s[e]))
    decreases |s| - p
  {
    if p < |s| && IsDigit(s[p]) then DigitEnd(s, p + 1) else p
  }

  /** The end of the run of whitespace that starts at `p`. */
  function SpaceEnd(s: string, p: nat): (e: nat)
    requires p <= |s|
    ensures p <= e <= |s| && (forall m :: p <= m < e ==> IsSpace(s[m])) && (e < |s| ==> !IsSpace(s[e]))
    decreases |s| - p
  {
    if p < |s| && IsSpace(s[p]) then SpaceEnd(s, p + 1) else p
  }

  lemma DigitsSlice(s: string, i: nat, j: nat)
    requires i <= j <= |s| && forall m :: i <= m < j ==> IsDigit(s[m])
    ensures AllDigits(s[i..j])
  {
    assert forall m :: 0 <= m < j - i ==> s[i..j][m] == s[i + m];
  }

  /**
   * The leftmost match of `(\d+)\s+(days?|weeks?|months?)` at or after `p`. Greedy `\d+`
   * makes a match start at the first digit of a run; a run that is not followed by whitespace
   * and a unit is skipped whole.
   */
  function PeriodFrom(s: string, p: nat): (r: Option<(nat, string)>)
    requires p <= |s|
    decreases |s| - p
  {
    if p == |s| then None
    else if IsDigit(s[p]) then
      var e := DigitEnd(s, p);
      var f := SpaceEnd(s, e);
      DigitsSlice(s, p, e);
      if f > e && UnitAt(s[f..]).Some? then Some((Value(s[p..e]), UnitAt(s[f..]).value))
      else PeriodFrom(s, e)
    else PeriodFrom(s, p + 1)
  }

  /** The "time_period" entity of `_extract_entities` (`re.IGNORECASE`, unit lowered). */
  function TimePeriodOf(s: string): (r: Option<(nat, string)>) {
    PeriodFrom(s, 0)
  }

  /** A digit run, whitespace and a unit at `i..j..k` of `s`. */
  predicate PeriodAt(s: string, i: nat, j: nat, k: nat, n: nat, u: string) {
    i < j < k <= |s| && AllDigits(s[i..j]) && Value(s[i..j]) == n
    && (forall m :: j <= m < k ==> IsSpace(s[m]))
    && LowerPrefix(u, s[k..]) && u in ["day", "days", "week", "weeks", "month", "months"]
  }

  lemma {:induction false} PeriodFromWitness(s: string, p: nat, n: nat, u: string) returns (i: nat, j: nat, k: nat)
    requires p <= |s| && PeriodFrom(s, p) == Some((n, u))
    ensures p <= i && PeriodAt(s, i, j, k, n, u)
    decreases |s| - p
  {
    if IsDigit(s[p]) {
      var e := DigitEnd(s, p);
      var f := SpaceEnd(s, e);
      if f > e && UnitAt(s[f..]).Some? {
        DigitsSlice(s, p, e);
        i, j, k := p, e, f;
      } else {
        i, j, k := PeriodFromWitness(s, e, n, u);
      }
    } else {
      i, j, k := PeriodFromWitness(s, p + 1, n, u);
    }
  }

  /** A time period read from `s` is a digit run with its value, whitespace, then a lowered unit. */
  lemma TimePeriodWitness(s: string, n: nat, u: string) returns (i: nat, j: nat, k: nat)
    requires TimePeriodOf(s) == Some((n, u))
    ensures PeriodAt(s, i, j, k, n, u)
  {
    i, j, k := PeriodFromWitness(s, 0, n, u);
  }

  datatype Entities = Entities(court: Option<string>, amount: Option<real>, timePeriod: Option<(nat, string)>)

  /** `_extract_entities`: the first matching court, the amount and the time period. */
  method ExtractEntities(query: string, searchI: (string, string) -> bool) returns (e: Entities)
    ensures e.court == FirstMatch(CourtPatterns(), query, searchI)
    ensures e.amount == AmountOf(query) && e.timePeriod == TimePeriodOf(query)
  {
    var courts := CourtPatterns();
    var court: Option<string> := None;
    var i := 0;
    while i < |courts|
      invariant 0 <= i <= |courts|
      invariant FirstMatch(courts[i..], query, searchI) == FirstMatch(courts, query, searchI)
    {
      assert courts[i..][1..] == courts[i + 1..];
      var (name, patterns) := courts[i];
      if searchI(patterns[0], query) {
        court := Some(name);
        assert AnyMatch(patterns, query, searchI);
        break;
      }
      assert patterns == [patterns[0]];
      i := i + 1;
    }
    e := Entities(court, AmountOf(query), TimePeriodOf(query));
  }

  // ---------------------------------------------------------------------------
  // _calculate_routing_confidence

  function MinReal(a: real, b: real): real { if a <= b then a else b }

  function RoutingConfidence(topics: nat, modules: nat): (c: real)
    ensures topics == 0 ==> c == 0.0
    ensures topics > 0 && modules == 0 ==> c == 0.2
  {
    if topics == 0 then 0.0
    else if modules == 0 then 0.2
    else (MinReal(topics as real / 3.0, 1.0) + MinReal(modules as real / 2.0, 1.0)) / 2.0
  }

  /** With topics and modules the confidence lies in [5/12, 1], and is 1 exactly from 3 topics and 2 modules. */
  lemma RoutingConfidenceBounds(topics: nat, modules: nat)
    requires topics > 0 && modules > 0
    ensures 5.0 / 12.0 <= RoutingConfidence(topics, modules) <= 1.0
    ensures RoutingConfidence(topics, modules) == 1.0 <==> topics >= 3 && modules >= 2
  {
  }

  /** A number telling the topic names apart: the length and the second letter. */
  function Signature(w: string): int {
    if |w| < 2 then 0 else |w| * 1000 + w[1] as int
  }

  lemma TopicSignatures()
    ensures seq(|TopicNames()|, i requires 0 <= i < |TopicNames()| => Signature(TopicNames()[i]))
      == [16101, 16117, 5111, 7101, 16118, 13101, 7112, 16105, 10110, 12104, 18114, 7097, 23105, 27105]
  {
  }

  lemma TopicNamesDistinct()
    ensures Distinct(TopicNames())
  {
    var n := TopicNames();
    TopicSignatures();
    var sig := seq(|n|, i requires 0 <= i < |n| => Signature(n[i]));
    forall i, j | 0 <= i < j < |n|
      ensures n[i] != n[j]
    {
      assert sig[i] != sig[j];
    }
  }

  /** The taxonomy's topics are distinct dict keys, so extraction never repeats a topic. */
  lemma TaxonomyNamesDistinct()
    ensures Distinct(Names(Taxonomy()))
  {
    NamesPointwise(Taxonomy(), TopicNames());
    TopicNamesDistinct();
  }
}
