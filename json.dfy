/**
 * The parsed JSON values the core works on: what `json.loads` yields for an
 * OpenAPI document, a request body or a response payload. Objects keep the
 * order of their members, as Python dicts do.
 */
module Json {
  import opened Wrappers
  import opened Text

  datatype Json =
    | JNull
    | JBool(b: bool)
    | JNum(n: int)
    | JStr(s: string)
    | JArr(items: seq<Json>)
    | JObj(fields: seq<(string, Json)>)

  /** The value of the first member named `key`. */
  function Lookup(fields: seq<(string, Json)>, key: string): Option<Json> {
    if fields == [] then None
    else if fields[0].0 == key then Some(fields[0].1)
    else Lookup(fields[1..], key)
  }

  /** `j[key]` for a mapping that holds `key`; None when it is no mapping or lacks the key. */
  function Get(j: Json, key: string): Option<Json> {
    if j.JObj? then Lookup(j.fields, key) else None
  }

  /** `isinstance(j, Mapping) and key in j`. */
  predicate HasKey(j: Json, key: string) {
    Get(j, key).Some?
  }

  /** A lookup finds a member of the object, and finds one whenever the key occurs. */
  lemma {:induction false} LookupSpec(fields: seq<(string, Json)>, key: string)
    ensures Lookup(fields, key).Some? <==> key in Keys(fields)
    ensures Lookup(fields, key).Some? ==> (key, Lookup(fields, key).value) in fields
  {
    if fields != [] && fields[0].0 != key {
      LookupSpec(fields[1..], key);
      assert Keys(fields) == [fields[0].0] + Keys(fields[1..]);
    }
  }

  /** `j.get(key, default)` on a mapping. */
  function GetOr(j: Json, key: string, default: Json): Json {
    match Get(j, key)
    case Some(v) => v
    case None => default
  }

  /** Python truthiness: None, False, 0, "", [] and {} are false. */
  predicate Truthy(j: Json) {
    match j
    case JNull => false
    case JBool(b) => b
    case JNum(n) => n != 0
    case JStr(s) => s != ""
    case JArr(items) => items != []
    case JObj(fields) => fields != []
  }

  /** The keys of an object, in order. */
  function Keys(fields: seq<(string, Json)>): (ks: seq<string>)
    ensures |ks| == |fields|
    ensures forall k :: 0 <= k < |fields| ==> ks[k] == fields[k].0
  {
    seq(|fields|, k requires 0 <= k < |fields| => fields[k].0)
  }

  /** A list of strings as a JSON array. */
  function StrList(xs: seq<string>): (j: Json)
    ensures j.JArr? && |j.items| == |xs|
    ensures forall k :: 0 <= k < |xs| ==> j.items[k] == JStr(xs[k])
  {
    JArr(seq(|xs|, k requires 0 <= k < |xs| => JStr(xs[k])))
  }

  /** `str` of null, a boolean or a number (Python's `None`, `True`, `False`, digits). */
  function ScalarStr(j: Json): string {
    match j
    case JNull => "None"
    case JBool(b) => if b then "True" else "False"
    case JNum(n) => IntToString(n)
    case JStr(s) => s
    case _ => ""
  }

  /**
   * Python's `repr` of a string, without escapes: in double quotes when it
   * holds a single quote and no double quote, in single quotes otherwise.
   */
  function QuoteRepr(s: string): string {
    var q := if '\'' in s && '"' !in s then "\"" else "'";
    q + s + q
  }

  /** The `repr` of a string is the string between two equal quotes, double exactly when Python picks them. */
  lemma QuoteReprShape(s: string)
    ensures var r := QuoteRepr(s);
      && |r| == |s| + 2 && r[1..|r| - 1] == s
      && r[0] == r[|r| - 1] && (r[0] == '\'' || r[0] == '"')
      && (r[0] == '"' <==> '\'' in s && '"' !in s)
  {
    var r := QuoteRepr(s);
    assert r[1..|r| - 1] == s;
  }

  /** Python's `repr` of a value, with strings quoted but not escaped. */
  function Repr(j: Json): string
    decreases j, 1
  {
    match j
    case JStr(s) => QuoteRepr(s)
    case JArr(items) => "[" + ReprItems(items) + "]"
    case JObj(fields) => "{" + ReprFields(fields) + "}"
    case _ => ScalarStr(j)
  }

  /** The `repr`s of list items, separated by `, `. */
  function ReprItems(items: seq<Json>): string
    decreases items, 0
  {
    if items == [] then ""
    else if |items| == 1 then Repr(items[0])
    else Repr(items[0]) + ", " + ReprItems(items[1..])
  }

  /** The `'key': repr` members of a dict, separated by `, `. */
  function ReprFields(fields: seq<(string, Json)>): string
    decreases fields, 0
  {
    if fields == [] then ""
    else if |fields| == 1 then ReprMember(fields[0])
    else ReprMember(fields[0]) + ", " + ReprFields(fields[1..])
  }

  function ReprMember(member: (string, Json)): string
    decreases member, 0
  {
    QuoteRepr(member.0) + ": " + Repr(member.1)
  }

  /** Python's `str(j)`: a string is itself, a list or dict is its `repr`. */
  function Str(j: Json): string {
    match j
    case JArr(_) => Repr(j)
    case JObj(_) => Repr(j)
    case _ => ScalarStr(j)
  }
}
