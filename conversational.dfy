/**
 * The conversational layer over hybrid search: the structured data it extracts from a
 * search result (with citations de-duplicated), the clarification gate at 30% confidence,
 * the split of reasoning steps into verbatim quotes, case law and regular reasoning for
 * the presentation prompt, and the parsing of the clarifying questions out of the
 * language model's reply.
 *
 * The two language-model calls are inputs: the raw reply to the clarification prompt and
 * the raw reply to the presentation prompt. The conversation history reaches only those
 * calls, so nothing below depends on it.
 */
module Conversational {
  import opened Wrappers
  import opened Text
  import opened Seqs
  import opened Numerals
  import opened NodeTables
  import opened HybridSearch

  /** `clarification_threshold`. */
  const ClarificationThreshold: real := 0.30

  // ---------------------------------------------------------------------------
  // _extract_structured_data

  /** One entry of `reasoning_steps`: dimension, text and the step's citation as `source`. */
  datatype StepEntry = StepEntry(dimension: string, text: string, source: string)

  /** One entry of `bm25_results`. */
  datatype Bm25Entry = Bm25Entry(citation: string, score: real, moduleId: string)

  /** The dictionary `_extract_structured_data` returns. */
  datatype StructuredData = StructuredData(
    conclusion: string, confidence: real, reasoningSteps: seq<StepEntry>,
    citations: seq<string>, moduleId: string, sourceCitation: string, hybridScore: real,
    bm25Results: seq<Bm25Entry>)

  function EntryOf(s: ReasoningStep): StepEntry {
    StepEntry(s.dimension, s.text, s.citation)
  }

  function Bm25EntryOf(h: Bm25Hit): Bm25Entry {
    Bm25Entry(h.source.citation, h.score, h.source.moduleId)
  }

  /** The summary of the first five hits, in rank order. */
  function Bm25Summary(hits: seq<Bm25Hit>): (r: seq<Bm25Entry>)
    ensures |r| <= 5 && |r| == if |hits| < 5 then |hits| else 5
    ensures forall i :: 0 <= i < |r| ==> r[i] == Bm25EntryOf(hits[i])
  {
    var top := Take(hits, 5);
    seq(|top|, i requires 0 <= i < |top| => Bm25EntryOf(top[i]))
  }

  /** One entry per reasoning step, in chain order. */
  function StepEntries(chain: seq<ReasoningStep>): (r: seq<StepEntry>)
    ensures |r| == |chain|
    ensures forall i :: 0 <= i < |r| ==> r[i] == EntryOf(chain[i])
  {
    seq(|chain|, i requires 0 <= i < |chain| => EntryOf(chain[i]))
  }

  /** `citations_set` after the loop over the chain: the non-empty step citations. */
  function CitationSet(chain: seq<ReasoningStep>): (r: set<string>)
    ensures forall c :: c in r <==> c != "" && exists i :: 0 <= i < |chain| && chain[i].citation == c
    decreases |chain|
  {
    if |chain| == 0 then {}
    else
      var init := chain[..|chain| - 1];
      var last := Last(chain);
      assert forall i :: 0 <= i < |init| ==> init[i] == chain[i];
      var r := CitationSet(init) + (if last.citation != "" then {last.citation} else {});
      assert forall c :: c != "" && (exists i :: 0 <= i < |chain| && chain[i].citation == c) ==> c in r by {
        forall c | c != "" && exists i :: 0 <= i < |chain| && chain[i].citation == c
          ensures c in r
        {
          var i :| 0 <= i < |chain| && chain[i].citation == c;
          if i < |init| {
            assert init[i].citation == c;
          }
        }
      }
      r
  }

  /**
   * What the extraction returns for a search result: the defaults where there are no hits
   * or no reasoning, the top hit's citation and module and the five-hit summary, and the
   * reasoning's conclusion, confidence, steps and de-duplicated citations. Python's
   * `list(set)` has no fixed order, so only the elements of `citations` are pinned down.
   */
  ghost predicate Extracted(b: HybridSearchResult, d: StructuredData) {
    d.hybridScore == b.hybridScore
    && (if |b.bm25Results| == 0 then
          d.sourceCitation == "" && d.moduleId == "" && d.bm25Results == []
        else
          d.sourceCitation == b.bm25Results[0].source.citation
          && d.moduleId == b.bm25Results[0].source.moduleId
          && d.bm25Results == Bm25Summary(b.bm25Results))
    && (match b.logicTreeAnswer
        case None =>
          d.conclusion == "" && d.confidence == 0.0 && d.reasoningSteps == [] && d.citations == []
        case Some(logic) =>
          d.conclusion == logic.conclusion && d.confidence == logic.confidence
          && d.reasoningSteps == StepEntries(logic.reasoningChain)
          && Distinct(d.citations)
          && forall c :: c in d.citations <==> c in CitationSet(logic.reasoningChain))
  }

  /** The loop that adds each non-empty step citation to `citations_set`. */
  method CollectCitations(chain: seq<ReasoningStep>) returns (seen: set<string>)
    ensures seen == CitationSet(chain)
  {
    seen := {};
    var i := 0;
    while i < |chain|
      invariant 0 <= i <= |chain|
      invariant seen == CitationSet(chain[..i])
    {
      assert chain[..i + 1][..i] == chain[..i];
      if chain[i].citation != "" {
        seen := seen + {chain[i].citation};
      }
      i := i + 1;
    }
    assert chain[..|chain|] == chain;
  }

  /** `list(s)`: the elements of the set, each once, in an order the model leaves open. */
  method ListOfSet(s: set<string>) returns (xs: seq<string>)
    ensures Distinct(xs) && |xs| == |s|
    ensures forall x :: x in xs <==> x in s
  {
    xs := [];
    var rest := s;
    while rest != {}
      invariant rest <= s && Distinct(xs) && |xs| + |rest| == |s|
      invariant forall x :: x in xs <==> x in s && x !in rest
      decreases |rest|
    {
      var x :| x in rest;
      xs := xs + [x];
      rest := rest - {x};
    }
  }

  /** `_extract_structured_data`. */
  method ExtractStructuredData(b: HybridSearchResult) returns (d: StructuredData)
    ensures Extracted(b, d)
  {
    d := StructuredData("", 0.0, [], [], "", "", b.hybridScore, []);
    if |b.bm25Results| > 0 {
      var top := b.bm25Results[0];
      d := d.(sourceCitation := top.source.citation, moduleId := top.source.moduleId,
              bm25Results := Bm25Summary(b.bm25Results));
    }
    if b.logicTreeAnswer.Some? {
      var logic := b.logicTreeAnswer.value;
      d := d.(conclusion := logic.conclusion, confidence := logic.confidence,
              reasoningSteps := StepEntries(logic.reasoningChain));
      var seen := CollectCitations(logic.reasoningChain);
      var cs := ListOfSet(seen);
      d := d.(citations := cs);
    }
  }

  /** With no hits and no reasoning, every field but the hybrid score is at its default. */
  lemma ExtractedDefaults(b: HybridSearchResult, d: StructuredData)
    requires Extracted(b, d) && |b.bm25Results| == 0 && b.logicTreeAnswer.None?
    ensures d == StructuredData("", 0.0, [], [], "", "", b.hybridScore, [])
  {
  }

  /** There are no more citations than reasoning steps, and exactly one per distinct citation. */
  lemma CitationsCount(b: HybridSearchResult, d: StructuredData)
    requires Extracted(b, d) && b.logicTreeAnswer.Some?
    ensures |d.citations| == |CitationSet(b.logicTreeAnswer.value.reasoningChain)|
    ensures |d.citations| <= |b.logicTreeAnswer.value.reasoningChain|
  {
    var chain := b.logicTreeAnswer.value.reasoningChain;
    DistinctCard(d.citations);
    assert (set x | x in d.citations) == CitationSet(chain);
    CitedAtMostOnce(chain);
  }

  /** A chain of `n` steps carries at most `n` distinct citations. */
  lemma {:induction false} CitedAtMostOnce(chain: seq<ReasoningStep>)
    ensures |CitationSet(chain)| <= |chain|
    decreases |chain|
  {
    if |chain| > 0 {
      var init := chain[..|chain| - 1];
      CitedAtMostOnce(init);
      var last := Last(chain);
      assert CitationSet(chain) <= CitationSet(init) + {last.citation} by {
        forall c | c in CitationSet(chain)
          ensures c in CitationSet(init) + {last.citation}
        {
          var i :| 0 <= i < |chain| && chain[i].citation == c;
          if i < |init| {
            assert init[i].citation == c;
          }
        }
      }
      assert |CitationSet(init) + {last.citation}| <= |CitationSet(init)| + 1;
    }
  }

  /**
   * The extraction is determined by the search result up to the order of `citations`:
   * two extractions agree on every other field and hold the same citations.
   */
  lemma ExtractionDetermined(b: HybridSearchResult, d1: StructuredData, d2: StructuredData)
    requires Extracted(b, d1) && Extracted(b, d2)
    ensures d1.(citations := []) == d2.(citations := [])
    ensures |d1.citations| == |d2.citations|
    ensures forall c :: c in d1.citations <==> c in d2.citations
  {
    if b.logicTreeAnswer.Some? {
      SameElementsSameLength(d1.citations, d2.citations);
    }
  }

  // ---------------------------------------------------------------------------
  // The confidence gate in ask

  /** `structured_data['confidence'] < self.clarification_threshold`. */
  predicate NeedsClarification(d: StructuredData) {
    d.confidence < ClarificationThreshold
  }

  /** The two results of `ask`. */
  datatype AskResponse =
    | Clarification(
        clarifyingQuestions: seq<string>, originalQuestion: string, confidence: real,
        sourceModule: string, timestamp: string, context: StructuredData)
    | Direct(
        answer: string, citations: seq<string>, reasoningChain: seq<StepEntry>,
        confidence: real, sourceModule: string, hybridScore: real, timestamp: string,
        bm25Results: seq<Bm25Entry>, backendConclusion: string)

  /** The `needs_clarification` key: true in the clarification result, absent otherwise. */
  function NeedsClarificationFlag(r: AskResponse): Option<bool> {
    if r.Clarification? then Some(true) else None
  }

  /**
   * `ask`, given the search result for the question (`hybrid_search(question, top_k=5)`),
   * the clock reading and the two language-model replies. Low confidence gives the
   * clarification result with the questions parsed from the first reply; otherwise the
   * second reply is packaged with the extracted data, copied unchanged.
   */
  method Ask(question: string, backend: HybridSearchResult, clarifierReply: string,
             presenterReply: string, timestamp: string)
    returns (r: AskResponse, data: StructuredData)
    ensures Extracted(backend, data)
    ensures NeedsClarificationFlag(r) == Some(true) <==> NeedsClarification(data)
    ensures r.Clarification? ==>
      r.clarifyingQuestions == ClarifyingQuestions(clarifierReply)
      && r.originalQuestion == question && r.confidence == data.confidence
      && r.sourceModule == data.moduleId && r.timestamp == timestamp && r.context == data
    ensures r.Direct? ==>
      r.answer == presenterReply && r.citations == data.citations
      && r.reasoningChain == data.reasoningSteps && r.confidence == data.confidence
      && r.sourceModule == data.moduleId && r.hybridScore == data.hybridScore
      && r.timestamp == timestamp && r.bm25Results == data.bm25Results
      && r.backendConclusion == data.conclusion
  {
    data := ExtractStructuredData(backend);
    if data.confidence < ClarificationThreshold {
      var questions := ParseClarifyingQuestions(clarifierReply);
      r := Clarification(questions, question, data.confidence, data.moduleId, timestamp, data);
    } else {
      r := Direct(presenterReply, data.citations, data.reasoningSteps, data.confidence,
                  data.moduleId, data.hybridScore, timestamp, data.bm25Results, data.conclusion);
    }
  }

  /**
   * The gate depends on the search result alone: a result without reasoning always asks
   * for clarification, and a reasoning result asks exactly when its confidence is below 0.30.
   */
  lemma GateMeaning(b: HybridSearchResult, d: StructuredData)
    requires Extracted(b, d)
    ensures b.logicTreeAnswer.None? ==> NeedsClarification(d)
    ensures b.logicTreeAnswer.Some? ==>
      (NeedsClarification(d) <==> b.logicTreeAnswer.value.confidence < 0.30)
  {
  }

  // ---------------------------------------------------------------------------
  // The step partition in _build_presentation_prompt

  datatype Bucket = VerbatimQuote | CaseLaw | Regular

  /** The branches of the loop over `reasoning_steps`, in the order they are tested. */
  function BucketOf(s: StepEntry): (b: Bucket)
    ensures b == VerbatimQuote <==> s.dimension == "WHY" && Contains(s.text, "Verbatim Quote:")
    ensures b == CaseLaw <==>
      s.dimension == "WHY" && Contains(s.text, "Case Law:") && !Contains(s.text, "Verbatim Quote:")
    ensures b == Regular <==>
      s.dimension != "WHY" || (!Contains(s.text, "Case Law:") && !Contains(s.text, "Verbatim Quote:"))
  {
    // The outer test is implied by the inner ones: "Verbatim Quote:" holds "Verbatim".
    ContainsShorter(s.text, "Verbatim Quote:", "Verbatim");
    ContainsShorter(s.text, "Case Law:", "Case Law");
    if s.dimension == "WHY" then
      if Contains(s.text, "Case Law") || Contains(s.text, "Verbatim") then
        if Contains(s.text, "Verbatim Quote:") then VerbatimQuote
        else if Contains(s.text, "Case Law:") then CaseLaw
        else Regular
      else Regular
    else Regular
  }

  /** A text holding `t` holds every prefix of `t`. */
  lemma ContainsShorter(s: string, t: string, sub: string)
    requires IsPrefix(sub, t)
    ensures Contains(s, t) ==> Contains(s, sub)
  {
    if Contains(s, t) {
      assert Contains(t, sub);
      ContainsTrans(s, t, sub);
    }
  }

  /** The steps of bucket `b`, in their original order. */
  function InBucket(steps: seq<StepEntry>, b: Bucket): seq<StepEntry>
    decreases |steps|
  {
    if |steps| == 0 then []
    else InBucket(steps[..|steps| - 1], b) + (if BucketOf(Last(steps)) == b then [Last(steps)] else [])
  }

  /** The three appending lists of the loop. */
  method PartitionSteps(steps: seq<StepEntry>)
    returns (caseLaw: seq<StepEntry>, verbatim: seq<StepEntry>, regular: seq<StepEntry>)
    ensures caseLaw == InBucket(steps, CaseLaw)
    ensures verbatim == InBucket(steps, VerbatimQuote)
    ensures regular == InBucket(steps, Regular)
  {
    caseLaw, verbatim, regular := [], [], [];
    var i := 0;
    while i < |steps|
      invariant 0 <= i <= |steps|
      invariant caseLaw == InBucket(steps[..i], CaseLaw)
      invariant verbatim == InBucket(steps[..i], VerbatimQuote)
      invariant regular == InBucket(steps[..i], Regular)
    {
      assert steps[..i + 1][..i] == steps[..i] && Last(steps[..i + 1]) == steps[i];
      var step := steps[i];
      var b := BucketOf(step);
      if b == VerbatimQuote {
        verbatim := verbatim + [step];
      } else if b == CaseLaw {
        caseLaw := caseLaw + [step];
      } else {
        regular := regular + [step];
      }
      i := i + 1;
    }
    assert steps[..|steps|] == steps;
  }

  /** Every step lands in exactly one list: together the three lists are a permutation. */
  lemma PartitionIsPermutation(steps: seq<StepEntry>)
    ensures multiset(InBucket(steps, VerbatimQuote)) + multiset(InBucket(steps, CaseLaw))
      + multiset(InBucket(steps, Regular)) == multiset(steps)
    ensures |InBucket(steps, VerbatimQuote)| + |InBucket(steps, CaseLaw)|
      + |InBucket(steps, Regular)| == |steps|
  {
    PartitionMultiset(steps);
    assert |multiset(steps)| == |steps|;
  }

  /** The multiset half of that lemma, by induction on the steps. */
  lemma {:induction false} PartitionMultiset(steps: seq<StepEntry>)
    ensures multiset(InBucket(steps, VerbatimQuote)) + multiset(InBucket(steps, CaseLaw))
      + multiset(InBucket(steps, Regular)) == multiset(steps)
    decreases |steps|
  {
    if |steps| > 0 {
      var init, x := steps[..|steps| - 1], Last(steps);
      PartitionMultiset(init);
      MultisetSnoc(steps);
      var k := BucketOf(x);
      Snoc(InBucket(init, VerbatimQuote), x, k == VerbatimQuote);
      Snoc(InBucket(init, CaseLaw), x, k == CaseLaw);
      Snoc(InBucket(init, Regular), x, k == Regular);
    }
  }

  /** Appending `x` when `keep` holds adds `x` to the multiset exactly then. */
  lemma Snoc(s: seq<StepEntry>, x: StepEntry, keep: bool)
    ensures multiset(s + (if keep then [x] else [])) == multiset(s) + (if keep then multiset{x} else multiset{})
  {
    if !keep {
      assert s + [] == s;
    }
  }

  /** A list holds exactly the steps of its bucket. */
  lemma {:induction false} InBucketMembers(steps: seq<StepEntry>, b: Bucket, s: StepEntry)
    ensures s in InBucket(steps, b) <==> s in steps && BucketOf(s) == b
    decreases |steps|
  {
    if |steps| > 0 {
      var init := steps[..|steps| - 1];
      InBucketMembers(init, b, s);
      assert steps == init + [Last(steps)];
    }
  }

  // ---------------------------------------------------------------------------
  // Rendering the three lists

  /** `text[:200]` followed by "..." when the text is longer than 200 characters. */
  function Shortened(t: string): (r: string)
    ensures |t| <= 200 ==> r == t
    ensures |t| > 200 ==> |r| == 203 && IsPrefix(r[..200], t) && IsSuffix("...", r)
  {
    Take(t, 200) + (if |t| > 200 then "..." else "")
  }

  /** The line of regular step number `i + 1`. */
  function RegularLine(i: nat, s: StepEntry): string {
    "  " + Decimal(i + 1) + ". [" + s.dimension + "] " + Shortened(s.text)
  }

  /** The lines of the first eight regular steps. */
  function RegularLines(regular: seq<StepEntry>): (lines: seq<string>)
    ensures |lines| == if |regular| < 8 then |regular| else 8
    ensures forall i :: 0 <= i < |lines| ==> IsSuffix(Shortened(regular[i].text), lines[i])
  {
    var shown := Take(regular, 8);
    seq(|shown|, i requires 0 <= i < |shown| => RegularLine(i, shown[i]))
  }

  /** `reasoning_text`. */
  function ReasoningText(regular: seq<StepEntry>): string {
    Join("\n", RegularLines(regular))
  }

  const CaseLawHeader := "CASE LAW REFERENCES (with reasoning summaries):\n"
  const VerbatimHeader := "\nVERBATIM QUOTES FROM JUDGMENTS (for verification):\n"

  /** The block of quoted step number `i`. */
  function QuoteItem(i: nat, s: StepEntry): string {
    "\n" + Decimal(i) + ". " + s.text + "\n   Source: " + s.source + "\n"
  }

  /** The blocks of `steps`, numbered from `from`. */
  function QuoteItems(steps: seq<StepEntry>, from: nat): string
    decreases |steps|
  {
    if |steps| == 0 then "" else QuoteItems(steps[..|steps| - 1], from) + QuoteItem(from + |steps| - 1, Last(steps))
  }

  /** `case_law_text` / `verbatim_text`: empty without steps, else the header and three blocks. */
  function QuotesText(header: string, steps: seq<StepEntry>): string {
    if |steps| == 0 then "" else header + QuoteItems(Take(steps, 3), 1)
  }

  /** The loop that renders one of the quote lists. */
  method RenderQuotes(header: string, steps: seq<StepEntry>) returns (text: string)
    ensures text == QuotesText(header, steps)
  {
    text := "";
    if |steps| > 0 {
      text := header;
      var shown := Take(steps, 3);
      var i := 0;
      while i < |shown|
        invariant 0 <= i <= |shown|
        invariant text == header + QuoteItems(shown[..i], 1)
      {
        assert shown[..i + 1][..i] == shown[..i] && Last(shown[..i + 1]) == shown[i];
        text := text + QuoteItem(i + 1, shown[i]);
        i := i + 1;
      }
      assert shown[..|shown|] == shown;
    }
  }

  /** Only the first three steps of a list are rendered; a non-empty list opens with the header. */
  lemma QuotesShowThree(header: string, steps: seq<StepEntry>)
    ensures QuotesText(header, steps) == QuotesText(header, Take(steps, 3))
    ensures |steps| > 0 ==> IsPrefix(header, QuotesText(header, steps))
    ensures |steps| == 0 <==> QuotesText(header, steps) == ""
  {
    if |steps| > 0 {
      assert Take(Take(steps, 3), 3) == Take(steps, 3);
      assert |header| > 0 ==> |QuotesText(header, steps)| > 0;
      QuoteItemsNonEmpty(Take(steps, 3), 1);
    }
  }

  /** At least one block renders to a non-empty text. */
  lemma QuoteItemsNonEmpty(steps: seq<StepEntry>, from: nat)
    requires |steps| > 0
    ensures |QuoteItems(steps, from)| > 0
  {
  }

  /** The three rendered sections of the presentation prompt. */
  method PresentationSections(data: StructuredData)
    returns (reasoningText: string, caseLawText: string, verbatimText: string)
    ensures reasoningText == ReasoningText(InBucket(data.reasoningSteps, Regular))
    ensures caseLawText == QuotesText(CaseLawHeader, InBucket(data.reasoningSteps, CaseLaw))
    ensures verbatimText == QuotesText(VerbatimHeader, InBucket(data.reasoningSteps, VerbatimQuote))
  {
    var caseLaw, verbatim, regular := PartitionSteps(data.reasoningSteps);
    reasoningText := ReasoningText(regular);
    caseLawText := RenderQuotes(CaseLawHeader, caseLaw);
    verbatimText := RenderQuotes(VerbatimHeader, verbatim);
  }

  // ---------------------------------------------------------------------------
  // _generate_clarifying_questions, after the model's reply

  /** A stripped line kept as a question: it starts with a digit or with '-'. */
  predicate IsListLine(q: string) {
    |q| > 0 && (IsDigit(q[0]) || q[0] == '-')
  }

  const NumberingChars := "0123456789.-) "

  /** `q.lstrip('0123456789.-) ').strip()`. */
  function CleanQuestion(q: string): string {
    Strip(LStripChars(q, NumberingChars))
  }

  /** The list comprehension over the reply's lines. */
  function Candidates(lines: seq<string>): seq<string>
    decreases |lines|
  {
    if |lines| == 0 then []
    else
      var q := Strip(Last(lines));
      Candidates(lines[..|lines| - 1]) + (if IsListLine(q) then [q] else [])
  }

  /** The cleanup loop: cleaned questions that are not empty. */
  function Cleaned(qs: seq<string>): seq<string> {
    NonEmptyImages(qs, CleanQuestion)
  }

  /** The questions `_generate_clarifying_questions` returns for the reply `text`. */
  function ClarifyingQuestions(text: string): seq<string> {
    Take(Cleaned(Candidates(SplitLines(text))), 4)
  }

  /** `_generate_clarifying_questions` once the reply is in. */
  method ParseClarifyingQuestions(text: string) returns (questions: seq<string>)
    ensures questions == ClarifyingQuestions(text)
  {
    var qs := KeepListLines(SplitLines(text));
    var cleaned := CleanAll(qs);
    questions := Take(cleaned, 4);
  }

  /** The list comprehension: the stripped lines that start with a digit or '-'. */
  method KeepListLines(lines: seq<string>) returns (qs: seq<string>)
    ensures qs == Candidates(lines)
  {
    qs := [];
    var i := 0;
    while i < |lines|
      invariant 0 <= i <= |lines|
      invariant qs == Candidates(lines[..i])
    {
      CandidatesSnoc(lines, i);
      var q := Strip(lines[i]);
      if IsListLine(q) {
        qs := qs + [q];
      }
      i := i + 1;
    }
    assert lines[..|lines|] == lines;
  }

  /** One more line adds its stripped form when it is a list line. */
  lemma CandidatesSnoc(lines: seq<string>, i: nat)
    requires i < |lines|
    ensures Candidates(lines[..i + 1])
      == Candidates(lines[..i]) + (if IsListLine(Strip(lines[i])) then [Strip(lines[i])] else [])
  {
    assert lines[..i + 1][..i] == lines[..i] && Last(lines[..i + 1]) == lines[i];
  }

  /** One more question adds its cleaned form when that is not empty. */
  lemma CleanedSnoc(qs: seq<string>, j: nat)
    requires j < |qs|
    ensures Cleaned(qs[..j + 1])
      == Cleaned(qs[..j]) + (if CleanQuestion(qs[j]) != "" then [CleanQuestion(qs[j])] else [])
  {
    NonEmptyImagesSnoc(qs, CleanQuestion, j);
  }

  /** The cleanup loop. */
  method CleanAll(qs: seq<string>) returns (cleaned: seq<string>)
    ensures cleaned == Cleaned(qs)
  {
    cleaned := [];
    var j := 0;
    while j < |qs|
      invariant 0 <= j <= |qs|
      invariant cleaned == Cleaned(qs[..j])
    {
      CleanedSnoc(qs, j);
      cleaned := CleanInto(cleaned, qs[j]);
      j := j + 1;
    }
    assert qs[..|qs|] == qs;
  }

  /** The body of the cleanup loop: the cleaned question is kept when it is not empty. */
  method CleanInto(cleaned: seq<string>, q: string) returns (r: seq<string>)
    ensures r == cleaned + (if CleanQuestion(q) != "" then [CleanQuestion(q)] else [])
  {
    var c := CleanQuestion(q);
    r := if c != "" then cleaned + [c] else cleaned;
  }

  /** A cleaned question is non-empty and has no whitespace at either end. */
  predicate WellFormedQuestion(q: string) {
    |q| > 0 && !IsSpace(q[0]) && !IsSpace(q[|q| - 1])
  }

  /**
   * The cleanup keeps one stretch `q[i..i + |c|]` of a question: what it drops in front is
   * numbering characters and whitespace, what it drops behind is whitespace.
   */
  lemma CleanQuestionSpan(q: string) returns (i: nat)
    ensures StretchAt(q, CleanQuestion(q), i)
    ensures forall k :: 0 <= k < i ==> q[k] in NumberingChars || IsSpace(q[k])
    ensures forall k :: i + |CleanQuestion(q)| <= k < |q| ==> IsSpace(q[k])
  {
    i := LStripCharsStripSpan(q, NumberingChars);
  }

  lemma CleanQuestionWellFormed(q: string)
    requires CleanQuestion(q) != ""
    ensures WellFormedQuestion(CleanQuestion(q))
  {
    var c := Strip(LStripChars(q, NumberingChars));
    assert c == CleanQuestion(q) && |c| > 0;
    assert !IsSpace(c[0]) && !IsSpace(c[|c| - 1]);
  }

  /**
   * Each of at most four questions is well formed and comes, in order, from one line of
   * the reply that starts with a digit or '-' once stripped.
   */
  lemma {:induction false} QuestionsMeaning(text: string)
    ensures |ClarifyingQuestions(text)| <= 4
    ensures forall q :: q in ClarifyingQuestions(text) ==> WellFormedQuestion(q)
    ensures forall q :: q in ClarifyingQuestions(text) ==>
      exists l :: l in SplitLines(text) && IsListLine(Strip(l)) && q == CleanQuestion(Strip(l))
  {
    var lines := SplitLines(text);
    var qs := Candidates(lines);
    CandidatesFrom(lines);
    CleanedFrom(qs);
    var r := ClarifyingQuestions(text);
    forall q | q in r
      ensures WellFormedQuestion(q)
      ensures exists l :: l in lines && IsListLine(Strip(l)) && q == CleanQuestion(Strip(l))
    {
      assert q in Cleaned(qs);
      var p :| p in qs && q == CleanQuestion(p);
      CleanQuestionWellFormed(p);
      var l :| l in lines && IsListLine(Strip(l)) && p == Strip(l);
    }
  }

  lemma {:induction false} CandidatesFrom(lines: seq<string>)
    ensures forall q :: q in Candidates(lines) ==> exists l :: l in lines && IsListLine(Strip(l)) && q == Strip(l)
    decreases |lines|
  {
    if |lines| > 0 {
      var init := lines[..|lines| - 1];
      CandidatesFrom(init);
      assert forall l :: l in init ==> l in lines;
    }
  }

  lemma CleanedFrom(qs: seq<string>)
    ensures forall c :: c in Cleaned(qs) ==> c != "" && exists p :: p in qs && c == CleanQuestion(p)
  {
    NonEmptyImagesFrom(qs, CleanQuestion);
  }
}
