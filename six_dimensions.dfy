/**
 * The six-dimension legal logic node: propositions (WHAT, WHICH, GIVEN, WHY),
 * conditionals (IF-THEN) and modalities (CAN/MUST), the authority hierarchy of
 * legal sources, temporal validity, and the dictionary serializer pair.
 */
module SixDimensions {
  import opened Wrappers
  import opened Text
  import opened JsonValue
  import opened IsoDate
  import opened NodeDict

  datatype ModalityType = MUST | SHALL | MAY | CAN | SHOULD | SHALL_NOT | MUST_NOT | MAY_NOT

  /** The enum's `.value`, which is also its member name. */
  function ModalityValue(t: ModalityType): (v: string)
    ensures ModalityByName(v) == Some(t)
  {
    match t
    case MUST => "MUST"
    case SHALL => "SHALL"
    case MAY => "MAY"
    case CAN => "CAN"
    case SHOULD => "SHOULD"
    case SHALL_NOT => "SHALL_NOT"
    case MUST_NOT => "MUST_NOT"
    case MAY_NOT => "MAY_NOT"
  }

  /** `ModalityType[name]`; `None` where Python raises KeyError. */
  function ModalityByName(name: string): Option<ModalityType> {
    if name == "MUST" then Some(MUST)
    else if name == "SHALL" then Some(SHALL)
    else if name == "MAY" then Some(MAY)
    else if name == "CAN" then Some(CAN)
    else if name == "SHOULD" then Some(SHOULD)
    else if name == "SHALL_NOT" then Some(SHALL_NOT)
    else if name == "MUST_NOT" then Some(MUST_NOT)
    else if name == "MAY_NOT" then Some(MAY_NOT)
    else None
  }

  datatype SourceType =
    CONSTITUTION | STATUTE | RULE | APPELLATE_CASE | HIGH_COURT_CASE | LOWER_COURT_CASE

  /** The enum's `label`, which is also its member name. */
  function SourceLabel(t: SourceType): (l: string)
    ensures SourceByName(l) == Some(t)
  {
    match t
    case CONSTITUTION => "CONSTITUTION"
    case STATUTE => "STATUTE"
    case RULE => "RULE"
    case APPELLATE_CASE => "APPELLATE_CASE"
    case HIGH_COURT_CASE => "HIGH_COURT_CASE"
    case LOWER_COURT_CASE => "LOWER_COURT_CASE"
  }

  /** `SourceType[name]`; `None` where Python raises KeyError. */
  function SourceByName(name: string): Option<SourceType> {
    if name == "CONSTITUTION" then Some(CONSTITUTION)
    else if name == "STATUTE" then Some(STATUTE)
    else if name == "RULE" then Some(RULE)
    else if name == "APPELLATE_CASE" then Some(APPELLATE_CASE)
    else if name == "HIGH_COURT_CASE" then Some(HIGH_COURT_CASE)
    else if name == "LOWER_COURT_CASE" then Some(LOWER_COURT_CASE)
    else None
  }

  /** Position in the authority hierarchy, highest authority first. */
  function Rank(t: SourceType): nat {
    match t
    case CONSTITUTION => 0
    case STATUTE => 1
    case RULE => 2
    case APPELLATE_CASE => 3
    case HIGH_COURT_CASE => 4
    case LOWER_COURT_CASE => 5
  }

  /** The authority weight attached to each source type. */
  function Weight(t: SourceType): (w: real)
    ensures 0.0 <= w <= 1.0
  {
    match t
    case CONSTITUTION => 1.0
    case STATUTE => 1.0
    case RULE => 0.8
    case APPELLATE_CASE => 0.7
    case HIGH_COURT_CASE => 0.6
    case LOWER_COURT_CASE => 0.4
  }

  /** Going down the hierarchy never increases the weight. */
  lemma WeightNonIncreasing(a: SourceType, b: SourceType)
    requires Rank(a) <= Rank(b)
    ensures Weight(b) <= Weight(a)
  {
  }

  datatype Proposition = Proposition(
    text: string, confidence: real, sourceLine: Option<string>, metadata: map<string, Json>)

  /** `Proposition(text=...)` with the dataclass defaults. */
  function Prop(text: string): Proposition {
    Proposition(text, 1.0, None, map[])
  }

  datatype Conditional = Conditional(
    condition: string, consequence: string, exceptions: seq<string>,
    confidence: real, sourceLine: Option<string>, metadata: map<string, Json>)

  function Cond(condition: string, consequence: string, exceptions: seq<string>): Conditional {
    Conditional(condition, consequence, exceptions, 1.0, None, map[])
  }

  datatype Modality = Modality(
    action: string, modalityType: ModalityType, conditions: seq<string>,
    confidence: real, sourceLine: Option<string>, metadata: map<string, Json>)

  function Mod(t: ModalityType, action: string, conditions: seq<string>): Modality {
    Modality(action, t, conditions, 1.0, None, map[])
  }

  /** `Proposition(text=..., source_line=...)`, as the module fixtures write them. */
  function PropAt(text: string, line: string): Proposition {
    Proposition(text, 1.0, Some(line), map[])
  }

  /** `Conditional(condition=..., consequence=..., exceptions=..., source_line=...)`. */
  function CondAt(condition: string, consequence: string, exceptions: seq<string>, line: string): Conditional {
    Conditional(condition, consequence, exceptions, 1.0, Some(line), map[])
  }

  /** `Modality(action=..., modality_type=..., conditions=..., source_line=...)`. */
  function ModAt(t: ModalityType, action: string, conditions: seq<string>, line: string): Modality {
    Modality(action, t, conditions, 1.0, Some(line), map[])
  }

  /** `str(conditional)`: "IF c THEN q", then " (EXCEPT: e1, e2)" only when there are exceptions. */
  function ConditionalText(c: Conditional): (r: string)
    ensures IsPrefix("IF " + c.condition + " THEN " + c.consequence, r)
    ensures r == "IF " + c.condition + " THEN " + c.consequence <==> |c.exceptions| == 0
  {
    var base := "IF " + c.condition + " THEN " + c.consequence;
    var r := if |c.exceptions| > 0 then base + " (EXCEPT: " + Join(", ", c.exceptions) + ")" else base;
    assert r[..|base|] == base;
    r
  }

  /** `str(modality)`: "<TYPE> action", then " (when: c1, c2)" only when there are conditions. */
  function ModalityText(m: Modality): (r: string)
    ensures IsPrefix(ModalityValue(m.modalityType) + " " + m.action, r)
    ensures r == ModalityValue(m.modalityType) + " " + m.action <==> |m.conditions| == 0
  {
    var base := ModalityValue(m.modalityType) + " " + m.action;
    var r := if |m.conditions| > 0 then base + " (when: " + Join(", ", m.conditions) + ")" else base;
    assert r[..|base|] == base;
    r
  }

  datatype Node = Node(
    nodeId: string,
    citation: string,
    sourceType: SourceType,
    what: seq<Proposition>,
    which: seq<Proposition>,
    ifThen: seq<Conditional>,
    canMust: seq<Modality>,
    given: seq<Proposition>,
    why: seq<Proposition>,
    parentId: Option<string>,
    childrenIds: seq<string>,
    interpretsIds: seq<string>,
    extendsIds: seq<string>,
    overruledByIds: seq<string>,
    distinguishesIds: seq<string>,
    conflictsWithIds: seq<string>,
    harmonizesWithIds: seq<string>,
    effectiveDate: Option<DateTime>,
    overruledDate: Option<DateTime>,
    amendmentHistory: seq<map<string, Json>>,
    fullText: string,
    moduleId: string,
    version: string,
    validatedBy: Option<string>,
    validatedDate: Option<DateTime>,
    metadata: map<string, Json>)

  /**
   * `LegalLogicNode(node_id, citation, source_type)` with every other field at its default:
   * no dimension, no link, no date, version "1.0.0", so valid at every time.
   */
  function NewNode(nodeId: string, citation: string, sourceType: SourceType): (r: Node)
    ensures r.nodeId == nodeId && r.citation == citation && r.sourceType == sourceType
    ensures !HasSomeDimension(r) && r.parentId.None? && r.childrenIds == []
    ensures r.version == "1.0.0" && r.fullText == "" && r.moduleId == ""
    ensures forall now :: IsCurrentlyValid(r, now)
  {
    Node(nodeId, citation, sourceType, [], [], [], [], [], [],
      None, [], [], [], [], [], [], [],
      None, None, [], "", "", "1.0.0", None, None, map[])
  }

  /** The sizes of WHAT, WHICH, IF-THEN, CAN/MUST, GIVEN and WHY, in that order. */
  function DimensionSizes(n: Node): seq<nat> {
    [|n.what|, |n.which|, |n.ifThen|, |n.canMust|, |n.given|, |n.why|]
  }

  predicate HasSomeDimension(n: Node) {
    |n.what| > 0 || |n.which| > 0 || |n.ifThen| > 0 || |n.canMust| > 0 || |n.given| > 0 || |n.why| > 0
  }

  /** `get_authority_weight()`: the weight of the node's source type, 1.0 only for constitution and statute. */
  function AuthorityWeight(n: Node): (w: real)
    ensures 0.0 <= w <= 1.0
    ensures w == 1.0 <==> n.sourceType == CONSTITUTION || n.sourceType == STATUTE
  {
    Weight(n.sourceType)
  }

  /** Python truthiness of an optional string: `None` and "" are both false. */
  predicate HasText(o: Option<string>) {
    o.Some? && |o.value| > 0
  }

  /** `is_currently_valid` with the clock read injected as `now`. */
  function IsCurrentlyValid(n: Node, now: DateTime): (valid: bool)
    ensures n.effectiveDate.None? && n.overruledDate.None? ==> valid
    ensures n.overruledDate == Some(now) ==> !valid
  {
    BeforeIrreflexive(now);
    !(n.effectiveDate.Some? && Before(now, n.effectiveDate.value))
    && !(n.overruledDate.Some? && !Before(now, n.overruledDate.value))
  }

  /** `Before` is a strict total order, so "not now < d" is Python's `d <= now`. */
  lemma {:induction false} LexTrichotomy(a: seq<int>, b: seq<int>)
    requires |a| == |b|
    ensures LexLess(a, b) || a == b || LexLess(b, a)
    ensures !(LexLess(a, b) && LexLess(b, a))
    ensures !LexLess(a, a)
    decreases |a|
  {
    if |a| > 0 {
      LexTrichotomy(a[1..], b[1..]);
      if a[0] == b[0] && a[1..] == b[1..] {
        assert a == [a[0]] + a[1..] && b == [b[0]] + b[1..];
      }
    }
  }

  lemma BeforeTotal(a: DateTime, b: DateTime)
    ensures Before(a, b) || a == b || Before(b, a)
    ensures !(Before(a, b) && Before(b, a)) && !Before(a, a)
  {
    LexTrichotomy(Key(a), Key(b));
    LexTrichotomy(Key(a), Key(a));
    if Key(a) == Key(b) {
      assert a.year == Key(a)[0] == Key(b)[0] == b.year;
      assert a.microsecond == Key(a)[6] == Key(b)[6] == b.microsecond;
    }
  }

  /** Validity means: already in force (effective date at or before now) and not yet overruled. */
  lemma ValidityMeaning(n: Node, now: DateTime)
    ensures IsCurrentlyValid(n, now) <==>
      (n.effectiveDate.None? || n.effectiveDate.value == now || Before(n.effectiveDate.value, now))
      && (n.overruledDate.None? || Before(now, n.overruledDate.value))
    ensures n.effectiveDate.None? && n.overruledDate.None? ==> IsCurrentlyValid(n, now)
  {
    if n.effectiveDate.Some? { BeforeTotal(n.effectiveDate.value, now); }
  }

  /** `get_all_relationships()`. */
  function Relationships(n: Node): (r: map<string, seq<string>>)
    ensures r.Keys == {"parent", "children", "interprets", "extends", "overruled_by",
                       "distinguishes", "conflicts_with", "harmonizes_with"}
    ensures r["parent"] == [] <==> !HasText(n.parentId)
    ensures HasText(n.parentId) ==> r["parent"] == [n.parentId.value]
    ensures r["children"] == n.childrenIds && r["interprets"] == n.interpretsIds
    ensures r["extends"] == n.extendsIds && r["overruled_by"] == n.overruledByIds
    ensures r["distinguishes"] == n.distinguishesIds && r["conflicts_with"] == n.conflictsWithIds
    ensures r["harmonizes_with"] == n.harmonizesWithIds
  {
    map[
      "parent" := if HasText(n.parentId) then [n.parentId.value] else [],
      "children" := n.childrenIds,
      "interprets" := n.interpretsIds,
      "extends" := n.extendsIds,
      "overruled_by" := n.overruledByIds,
      "distinguishes" := n.distinguishesIds,
      "conflicts_with" := n.conflictsWithIds,
      "harmonizes_with" := n.harmonizesWithIds]
  }

  // ---------------------------------------------------------------------------
  // to_dict

  function PropToJson(p: Proposition): Json {
    JObj(map["text" := JStr(p.text), "confidence" := JNum(p.confidence),
             "source_line" := OptStr(p.sourceLine)])
  }

  function PropsToJson(ps: seq<Proposition>): (r: Json)
    ensures r.JArr? && |r.items| == |ps|
  {
    JArr(seq(|ps|, i requires 0 <= i < |ps| => PropToJson(ps[i])))
  }

  function CondToJson(c: Conditional): Json {
    JObj(map["condition" := JStr(c.condition), "consequence" := JStr(c.consequence),
             "exceptions" := StrArray(c.exceptions), "confidence" := JNum(c.confidence),
             "source_line" := OptStr(c.sourceLine)])
  }

  function CondsToJson(cs: seq<Conditional>): (r: Json)
    ensures r.JArr? && |r.items| == |cs|
  {
    JArr(seq(|cs|, i requires 0 <= i < |cs| => CondToJson(cs[i])))
  }

  function ModToJson(m: Modality): Json {
    JObj(map["action" := JStr(m.action), "modality" := JStr(ModalityValue(m.modalityType)),
             "conditions" := StrArray(m.conditions), "confidence" := JNum(m.confidence),
             "source_line" := OptStr(m.sourceLine)])
  }

  function ModsToJson(ms: seq<Modality>): (r: Json)
    ensures r.JArr? && |r.items| == |ms|
  {
    JArr(seq(|ms|, i requires 0 <= i < |ms| => ModToJson(ms[i])))
  }

  /** A present date is written with `isoformat()`, an absent one as null. */
  function DateToJson(d: Option<DateTime>): Json {
    match d
    case None => JNull
    case Some(t) => JStr(IsoFormat(t))
  }

  /**
   * `to_dict()`, with the clock read behind "is_valid" injected as `now`: a dictionary
   * holding at least the id, citation and source label `from_dict` requires.
   */
  function ToDict(n: Node, now: DateTime): (r: Json)
    ensures r.JObj? && EncodesHead(r.fields, n)
  {
    DictHead(n, now);
    JObj(DictFields(n, now))
  }

  function DictFields(n: Node, now: DateTime): map<string, Json> {
    DictOf(DictValues(n, now))
  }

  function DictValues(n: Node, now: DateTime): (v: seq<Json>)
    ensures |v| == 27
  {
    [
      JStr(n.nodeId),
      JStr(n.citation),
      JStr(SourceLabel(n.sourceType)),
      JNum(AuthorityWeight(n)),
      PropsToJson(n.what),
      PropsToJson(n.which),
      CondsToJson(n.ifThen),
      ModsToJson(n.canMust),
      PropsToJson(n.given),
      PropsToJson(n.why),
      OptStr(n.parentId),
      StrArray(n.childrenIds),
      StrArray(n.interpretsIds),
      StrArray(n.extendsIds),
      StrArray(n.overruledByIds),
      StrArray(n.distinguishesIds),
      StrArray(n.conflictsWithIds),
      StrArray(n.harmonizesWithIds),
      DateToJson(n.effectiveDate),
      DateToJson(n.overruledDate),
      JBool(IsCurrentlyValid(n, now)),
      JStr(n.fullText),
      JStr(n.moduleId),
      JStr(n.version),
      OptStr(n.validatedBy),
      DateToJson(n.validatedDate),
      JObj(n.metadata)]
  }

  // ---------------------------------------------------------------------------
  // from_dict

  function NumOf(j: Json): Result<real> {
    if j.JNum? then Success(j.n) else Failure("expected a number")
  }

  function StrOf(j: Json): Result<string> {
    if j.JStr? then Success(j.s) else Failure("expected a string")
  }

  function ObjOf(j: Json): Result<map<string, Json>> {
    if j.JObj? then Success(j.fields) else Failure("expected a dictionary")
  }

  /** `d[k]`: a missing key raises KeyError. */
  function Required(f: map<string, Json>, k: string): Result<Json> {
    if k in f then Success(f[k]) else Failure("KeyError: " + k)
  }

  /** `Proposition(**p)`: an unexpected keyword or a missing `text` raises TypeError. */
  function PropFromJson(j: Json): Result<Proposition> {
    var f :- ObjOf(j);
    if !(f.Keys <= {"text", "confidence", "source_line", "metadata"}) then
      Failure("TypeError: unexpected keyword argument")
    else
      var tj :- Required(f, "text");
      var text :- StrOf(tj);
      var confidence :- NumOf(Get(f, "confidence", JNum(1.0)));
      var sourceLine :- OptStrOf(Get(f, "source_line", JNull));
      var metadata :- ObjOf(Get(f, "metadata", JObj(map[])));
      Success(Proposition(text, confidence, sourceLine, metadata))
  }

  function PropItems(items: seq<Json>): (r: Result<seq<Proposition>>)
    ensures r.Success? ==> |r.value| == |items|
  {
    if |items| == 0 then Success([])
    else
      var p :- PropFromJson(items[0]);
      var rest :- PropItems(items[1..]);
      Success([p] + rest)
  }

  function PropsFromJson(j: Json): Result<seq<Proposition>> {
    if j.JArr? then PropItems(j.items) else Failure("expected a list")
  }

  /** `Conditional(**c)`. */
  function CondFromJson(j: Json): Result<Conditional> {
    var f :- ObjOf(j);
    if !(f.Keys <= {"condition", "consequence", "exceptions", "confidence", "source_line", "metadata"}) then
      Failure("TypeError: unexpected keyword argument")
    else
      var cj :- Required(f, "condition");
      var condition :- StrOf(cj);
      var qj :- Required(f, "consequence");
      var consequence :- StrOf(qj);
      var exceptions :- StrList(Get(f, "exceptions", JArr([])));
      var confidence :- NumOf(Get(f, "confidence", JNum(1.0)));
      var sourceLine :- OptStrOf(Get(f, "source_line", JNull));
      var metadata :- ObjOf(Get(f, "metadata", JObj(map[])));
      Success(Conditional(condition, consequence, exceptions, confidence, sourceLine, metadata))
  }

  function CondItems(items: seq<Json>): (r: Result<seq<Conditional>>)
    ensures r.Success? ==> |r.value| == |items|
  {
    if |items| == 0 then Success([])
    else
      var c :- CondFromJson(items[0]);
      var rest :- CondItems(items[1..]);
      Success([c] + rest)
  }

  function CondsFromJson(j: Json): Result<seq<Conditional>> {
    if j.JArr? then CondItems(j.items) else Failure("expected a list")
  }

  /** The explicit `Modality(...)` call of from_dict: unknown keys are ignored. */
  function ModFromJson(j: Json): Result<Modality> {
    var f :- ObjOf(j);
    var aj :- Required(f, "action");
    var action :- StrOf(aj);
    var mj :- Required(f, "modality");
    var name :- StrOf(mj);
    var t :- if ModalityByName(name).Some? then Success(ModalityByName(name).value)
             else Failure("KeyError: " + name);
    var conditions :- StrList(Get(f, "conditions", JArr([])));
    var confidence :- NumOf(Get(f, "confidence", JNum(1.0)));
    var sourceLine :- OptStrOf(Get(f, "source_line", JNull));
    Success(Modality(action, t, conditions, confidence, sourceLine, map[]))
  }

  function ModItems(items: seq<Json>): (r: Result<seq<Modality>>)
    ensures r.Success? ==> |r.value| == |items|
  {
    if |items| == 0 then Success([])
    else
      var m :- ModFromJson(items[0]);
      var rest :- ModItems(items[1..]);
      Success([m] + rest)
  }

  function ModsFromJson(j: Json): Result<seq<Modality>> {
    if j.JArr? then ModItems(j.items) else Failure("expected a list")
  }

  /** `datetime.fromisoformat(v) if v else None`. */
  function DateFromJson(j: Json): Result<Option<DateTime>> {
    if !Truthy(j) then Success(None)
    else if !j.JStr? then Failure("TypeError: fromisoformat argument must be str")
    else
      match FromIsoFormat(j.s)
      case None => Failure("ValueError: Invalid isoformat string")
      case Some(d) => Success(Some(d))
  }

  /** A source type read from a name is labelled by that name. */
  lemma SourceNameLabel(j: Json, t: SourceType)
    requires SourceTypeOf(j) == Success(t)
    ensures j == JStr(SourceLabel(t))
  {
  }

  function SourceTypeOf(j: Json): Result<SourceType> {
    var name :- StrOf(j);
    match SourceByName(name)
    case None => Failure("KeyError: " + name)
    case Some(t) => Success(t)
  }

  /**
   * `LegalLogicNode.from_dict(data)`; `Failure` where Python raises, and on values whose type
   * differs from the one `LegalLogicNode` declares. Only a dictionary
   * decodes, and the node it gives carries the dictionary's id, citation and source label.
   */
  function FromDict(j: Json): (r: Result<Node>)
    ensures !j.JObj? ==> r.Failure?
    ensures r.Success? ==> j.JObj? && EncodesHead(j.fields, r.value)
  {
    var f :- ObjOf(j);
    var stj :- Required(f, "source_type");
    var sourceType :- SourceTypeOf(stj);
    SourceNameLabel(stj, sourceType);
    var what :- PropsFromJson(Get(f, "what", JArr([])));
    var which :- PropsFromJson(Get(f, "which", JArr([])));
    var ifThen :- CondsFromJson(Get(f, "if_then", JArr([])));
    var canMust :- ModsFromJson(Get(f, "can_must", JArr([])));
    var given :- PropsFromJson(Get(f, "given", JArr([])));
    var why :- PropsFromJson(Get(f, "why", JArr([])));
    var effective :- DateFromJson(Get(f, "effective_date", JNull));
    var overruled :- DateFromJson(Get(f, "overruled_date", JNull));
    var validated :- DateFromJson(Get(f, "validated_date", JNull));
    var idj :- Required(f, "node_id");
    var nodeId :- StrOf(idj);
    var cj :- Required(f, "citation");
    var citation :- StrOf(cj);
    var parentId :- OptStrOf(Get(f, "parent_id", JNull));
    var children :- StrList(Get(f, "children_ids", JArr([])));
    var interprets :- StrList(Get(f, "interprets_ids", JArr([])));
    var extendsIds :- StrList(Get(f, "extends_ids", JArr([])));
    var overruledBy :- StrList(Get(f, "overruled_by_ids", JArr([])));
    var distinguishes :- StrList(Get(f, "distinguishes_ids", JArr([])));
    var conflicts :- StrList(Get(f, "conflicts_with_ids", JArr([])));
    var harmonizes :- StrList(Get(f, "harmonizes_with_ids", JArr([])));
    var fullText :- StrOf(Get(f, "full_text", JStr("")));
    var moduleId :- StrOf(Get(f, "module_id", JStr("")));
    var version :- StrOf(Get(f, "version", JStr("1.0.0")));
    var validatedBy :- OptStrOf(Get(f, "validated_by", JNull));
    var metadata :- ObjOf(Get(f, "metadata", JObj(map[])));
    Success(Node(nodeId, citation, sourceType, what, which, ifThen, canMust, given, why,
      parentId, children, interprets, extendsIds, overruledBy, distinguishes, conflicts, harmonizes,
      effective, overruled, [], fullText, moduleId, version, validatedBy, validated, metadata))
  }

  // ---------------------------------------------------------------------------
  // The round trip

  function StripProps(ps: seq<Proposition>): (r: seq<Proposition>)
    ensures |r| == |ps|
  {
    seq(|ps|, i requires 0 <= i < |ps| => ps[i].(metadata := map[]))
  }

  function StripConds(cs: seq<Conditional>): (r: seq<Conditional>)
    ensures |r| == |cs|
  {
    seq(|cs|, i requires 0 <= i < |cs| => cs[i].(metadata := map[]))
  }

  function StripMods(ms: seq<Modality>): (r: seq<Modality>)
    ensures |r| == |ms|
  {
    seq(|ms|, i requires 0 <= i < |ms| => ms[i].(metadata := map[]))
  }

  /** What survives serialization: everything except nested metadata and the amendment history. */
  function Serialized(n: Node): Node {
    n.(what := StripProps(n.what), which := StripProps(n.which),
       ifThen := StripConds(n.ifThen), canMust := StripMods(n.canMust),
       given := StripProps(n.given), why := StripProps(n.why),
       amendmentHistory := [])
  }

  lemma PropRoundTrip(p: Proposition)
    ensures PropFromJson(PropToJson(p)) == Success(p.(metadata := map[]))
  {
    OptStrRoundTrip(p.sourceLine);
  }

  lemma CondRoundTrip(c: Conditional)
    ensures CondFromJson(CondToJson(c)) == Success(c.(metadata := map[]))
  {
    OptStrRoundTrip(c.sourceLine);
    StrListRoundTrip(c.exceptions);
  }

  lemma ModRoundTrip(m: Modality)
    ensures ModFromJson(ModToJson(m)) == Success(m.(metadata := map[]))
  {
    OptStrRoundTrip(m.sourceLine);
    StrListRoundTrip(m.conditions);
  }

  lemma {:induction false} PropsRoundTrip(ps: seq<Proposition>)
    ensures PropsFromJson(PropsToJson(ps)) == Success(StripProps(ps))
    decreases |ps|
  {
    if |ps| > 0 {
      PropsRoundTrip(ps[1..]);
      var j := PropsToJson(ps);
      assert j.items[1..] == PropsToJson(ps[1..]).items;
      PropRoundTrip(ps[0]);
      assert StripProps(ps) == [ps[0].(metadata := map[])] + StripProps(ps[1..]);
    }
  }

  lemma {:induction false} CondsRoundTrip(cs: seq<Conditional>)
    ensures CondsFromJson(CondsToJson(cs)) == Success(StripConds(cs))
    decreases |cs|
  {
    if |cs| > 0 {
      CondsRoundTrip(cs[1..]);
      var j := CondsToJson(cs);
      assert j.items[1..] == CondsToJson(cs[1..]).items;
      CondRoundTrip(cs[0]);
      assert StripConds(cs) == [cs[0].(metadata := map[])] + StripConds(cs[1..]);
    }
  }

  lemma {:induction false} ModsRoundTrip(ms: seq<Modality>)
    ensures ModsFromJson(ModsToJson(ms)) == Success(StripMods(ms))
    decreases |ms|
  {
    if |ms| > 0 {
      ModsRoundTrip(ms[1..]);
      var j := ModsToJson(ms);
      assert j.items[1..] == ModsToJson(ms[1..]).items;
      ModRoundTrip(ms[0]);
      assert StripMods(ms) == [ms[0].(metadata := map[])] + StripMods(ms[1..]);
    }
  }

  lemma DateRoundTrip(d: Option<DateTime>)
    ensures DateFromJson(DateToJson(d)) == Success(d)
  {
    if d.Some? {
      IsoRoundTrip(d.value);
    }
  }

  /** `f` holds the identification fields of `n` as `to_dict` writes them. */
  predicate EncodesHead(f: map<string, Json>, n: Node) {
    "node_id" in f && f["node_id"] == JStr(n.nodeId)
    && "citation" in f && f["citation"] == JStr(n.citation)
    && "source_type" in f && f["source_type"] == JStr(SourceLabel(n.sourceType))
  }

  /** `f` holds the six dimensions of `n`. */
  predicate EncodesDimensions(f: map<string, Json>, n: Node) {
    "what" in f && f["what"] == PropsToJson(n.what)
    && "which" in f && f["which"] == PropsToJson(n.which)
    && "if_then" in f && f["if_then"] == CondsToJson(n.ifThen)
    && "can_must" in f && f["can_must"] == ModsToJson(n.canMust)
    && "given" in f && f["given"] == PropsToJson(n.given)
    && "why" in f && f["why"] == PropsToJson(n.why)
  }

  /** `f` holds the parent and the relationship lists of `n`. */
  predicate EncodesLinks(f: map<string, Json>, n: Node) {
    "parent_id" in f && f["parent_id"] == OptStr(n.parentId)
    && "children_ids" in f && f["children_ids"] == StrArray(n.childrenIds)
    && "interprets_ids" in f && f["interprets_ids"] == StrArray(n.interpretsIds)
    && "extends_ids" in f && f["extends_ids"] == StrArray(n.extendsIds)
    && "overruled_by_ids" in f && f["overruled_by_ids"] == StrArray(n.overruledByIds)
    && "distinguishes_ids" in f && f["distinguishes_ids"] == StrArray(n.distinguishesIds)
    && "conflicts_with_ids" in f && f["conflicts_with_ids"] == StrArray(n.conflictsWithIds)
    && "harmonizes_with_ids" in f && f["harmonizes_with_ids"] == StrArray(n.harmonizesWithIds)
  }

  /** `f` holds the dates and the bookkeeping fields of `n`. */
  predicate EncodesTail(f: map<string, Json>, n: Node) {
    "effective_date" in f && f["effective_date"] == DateToJson(n.effectiveDate)
    && "overruled_date" in f && f["overruled_date"] == DateToJson(n.overruledDate)
    && "full_text" in f && f["full_text"] == JStr(n.fullText)
    && "module_id" in f && f["module_id"] == JStr(n.moduleId)
    && "version" in f && f["version"] == JStr(n.version)
    && "validated_by" in f && f["validated_by"] == OptStr(n.validatedBy)
    && "validated_date" in f && f["validated_date"] == DateToJson(n.validatedDate)
    && "metadata" in f && f["metadata"] == JObj(n.metadata)
  }

  lemma DictHead(n: Node, now: DateTime)
    ensures EncodesHead(DictFields(n, now), n)
  {
    DictOfKeys1(DictValues(n, now));
    DictOfKeys2(DictValues(n, now));
  }

  lemma DictDimensions(n: Node, now: DateTime)
    ensures EncodesDimensions(DictFields(n, now), n)
  {
    DictOfKeys3(DictValues(n, now));
    DictOfKeys4(DictValues(n, now));
    DictOfKeys5(DictValues(n, now));
  }

  lemma DictLinks(n: Node, now: DateTime)
    ensures EncodesLinks(DictFields(n, now), n)
  {
    DictOfKeys6(DictValues(n, now));
    DictOfKeys7(DictValues(n, now));
    DictOfKeys8(DictValues(n, now));
  }

  lemma DictTail(n: Node, now: DateTime)
    ensures EncodesTail(DictFields(n, now), n)
  {
    DictOfKeys8(DictValues(n, now));
    DictOfKeys9(DictValues(n, now));
  }

  /** Any dictionary holding the fields `to_dict` writes for `n` decodes to `Serialized(n)`. */
  lemma {:induction false} FromDictEncoded(f: map<string, Json>, n: Node)
    requires EncodesHead(f, n) && EncodesDimensions(f, n) && EncodesLinks(f, n) && EncodesTail(f, n)
    ensures FromDict(JObj(f)) == Success(Serialized(n))
  {
    PropsRoundTrip(n.what);
    PropsRoundTrip(n.which);
    CondsRoundTrip(n.ifThen);
    ModsRoundTrip(n.canMust);
    PropsRoundTrip(n.given);
    PropsRoundTrip(n.why);
    DateRoundTrip(n.effectiveDate);
    DateRoundTrip(n.overruledDate);
    DateRoundTrip(n.validatedDate);
    OptStrRoundTrip(n.parentId);
    OptStrRoundTrip(n.validatedBy);
    StrListRoundTrip(n.childrenIds);
    StrListRoundTrip(n.interpretsIds);
    StrListRoundTrip(n.extendsIds);
    StrListRoundTrip(n.overruledByIds);
    StrListRoundTrip(n.distinguishesIds);
    StrListRoundTrip(n.conflictsWithIds);
    StrListRoundTrip(n.harmonizesWithIds);
  }

  /**
   * `from_dict(to_dict(n))` gives back the node: identification, all six dimensions
   * (with exceptions and conditions), the tree and cross-reference lists, the dates,
   * full_text, module_id, version, validated_by and metadata. Only the nested
   * metadata of propositions, conditionals and modalities and the amendment history,
   * which `to_dict` does not write, come back empty.
   */
  lemma RoundTrip(n: Node, now: DateTime)
    ensures FromDict(ToDict(n, now)) == Success(Serialized(n))
  {
    DictHead(n, now);
    DictDimensions(n, now);
    DictLinks(n, now);
    DictTail(n, now);
    FromDictEncoded(DictFields(n, now), n);
  }

  /** No proposition, conditional or modality of `n` carries metadata. */
  predicate NoNestedMetadata(n: Node) {
    (forall i :: 0 <= i < |n.what| ==> n.what[i].metadata == map[])
    && (forall i :: 0 <= i < |n.which| ==> n.which[i].metadata == map[])
    && (forall i :: 0 <= i < |n.ifThen| ==> n.ifThen[i].metadata == map[])
    && (forall i :: 0 <= i < |n.canMust| ==> n.canMust[i].metadata == map[])
    && (forall i :: 0 <= i < |n.given| ==> n.given[i].metadata == map[])
    && (forall i :: 0 <= i < |n.why| ==> n.why[i].metadata == map[])
  }

  /** Nodes without nested metadata or amendment history survive the round trip unchanged. */
  lemma RoundTripExact(n: Node, now: DateTime)
    requires NoNestedMetadata(n) && n.amendmentHistory == []
    ensures FromDict(ToDict(n, now)) == Success(n)
  {
    RoundTrip(n, now);
    assert StripProps(n.what) == n.what;
    assert StripProps(n.which) == n.which;
    assert StripConds(n.ifThen) == n.ifThen;
    assert StripMods(n.canMust) == n.canMust;
    assert StripProps(n.given) == n.given;
    assert StripProps(n.why) == n.why;
  }

  // ---------------------------------------------------------------------------
  // The create_* helpers

  /** `create_simple_node`: one WHAT proposition and nothing else. */
  function CreateSimpleNode(nodeId: string, citation: string, st: SourceType, whatText: string, moduleId: string): (r: Node)
    ensures DimensionSizes(r) == [1, 0, 0, 0, 0, 0] && r.what[0].text == whatText
    ensures r.nodeId == nodeId && r.citation == citation && r.sourceType == st && r.moduleId == moduleId
  {
    NewNode(nodeId, citation, st).(what := [Prop(whatText)], moduleId := moduleId)
  }

  /** `create_conditional_node`: one conditional, without exceptions, and nothing else. */
  function CreateConditionalNode(nodeId: string, citation: string, st: SourceType,
                                 condition: string, consequence: string, moduleId: string): (r: Node)
    ensures DimensionSizes(r) == [0, 0, 1, 0, 0, 0]
    ensures r.ifThen[0].condition == condition && r.ifThen[0].consequence == consequence
    ensures r.ifThen[0].exceptions == []
    ensures r.nodeId == nodeId && r.citation == citation && r.sourceType == st && r.moduleId == moduleId
  {
    NewNode(nodeId, citation, st).(ifThen := [Cond(condition, consequence, [])], moduleId := moduleId)
  }

  /** `create_obligation_node`: one modality, without conditions, and nothing else. */
  function CreateObligationNode(nodeId: string, citation: string, st: SourceType,
                                action: string, t: ModalityType, moduleId: string): (r: Node)
    ensures DimensionSizes(r) == [0, 0, 0, 1, 0, 0]
    ensures r.canMust[0].action == action && r.canMust[0].modalityType == t
    ensures r.canMust[0].conditions == []
    ensures r.nodeId == nodeId && r.citation == citation && r.sourceType == st && r.moduleId == moduleId
  {
    NewNode(nodeId, citation, st).(canMust := [Mod(t, action, [])], moduleId := moduleId)
  }
}
