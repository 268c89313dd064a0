/** JSON-like values: what Python's `to_dict` produces and `from_dict` consumes. */
module JsonValue {
  import opened Wrappers

  datatype Json =
    | JNull
    | JBool(b: bool)
    | JNum(n: real)
    | JStr(s: string)
    | JArr(items: seq<Json>)
    | JObj(fields: map<string, Json>)

  /** Python's `d.get(k, default)`. */
  function Get(fields: map<string, Json>, k: string, default: Json): (r: Json)
    ensures k in fields ==> r == fields[k]
    ensures k !in fields ==> r == default
  {
    if k in fields then fields[k] else default
  }

  /** Python truthiness of a JSON value (`if value:`). */
  predicate Truthy(j: Json) {
    match j
    case JNull => false
    case JBool(b) => b
    case JNum(n) => n != 0.0
    case JStr(s) => |s| > 0
    case JArr(a) => |a| > 0
    case JObj(m) => |m| > 0
  }

  function StrArray(ss: seq<string>): (r: Json)
    ensures r.JArr? && |r.items| == |ss|
    ensures forall i :: 0 <= i < |ss| ==> r.items[i] == JStr(ss[i])
  {
    JArr(seq(|ss|, i requires 0 <= i < |ss| => JStr(ss[i])))
  }

  /** An optional string: `None` becomes null. */
  function OptStr(o: Option<string>): Json {
    match o
    case None => JNull
    case Some(s) => JStr(s)
  }

  /** Reads a list of strings back; anything else is a type error. */
  function StrList(j: Json): (r: Result<seq<string>>)
    ensures r.Success? ==> j.JArr? && |r.value| == |j.items|
  {
    if !j.JArr? then Failure("expected a list of strings")
    else StrItems(j.items)
  }

  function StrItems(items: seq<Json>): (r: Result<seq<string>>)
    ensures r.Success? ==> |r.value| == |items|
  {
    if |items| == 0 then Success([])
    else if !items[0].JStr? then Failure("expected a string")
    else
      var rest :- StrItems(items[1..]);
      Success([items[0].s] + rest)
  }

  lemma {:induction false} StrListRoundTrip(ss: seq<string>)
    ensures StrList(StrArray(ss)) == Success(ss)
    decreases |ss|
  {
    if |ss| > 0 {
      StrListRoundTrip(ss[1..]);
      assert StrArray(ss).items[1..] == StrArray(ss[1..]).items;
      assert [ss[0]] + ss[1..] == ss;
    }
  }

  /** Reads an optional string back; null and a missing key mean `None`. */
  function OptStrOf(j: Json): Result<Option<string>> {
    match j
    case JNull => Success(None)
    case JStr(s) => Success(Some(s))
    case _ => Failure("expected a string or null")
  }

  lemma OptStrRoundTrip(o: Option<string>)
    ensures OptStrOf(OptStr(o)) == Success(o)
  {
  }
}
