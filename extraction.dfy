/**
 * What the registry builder reads from one operation of an OpenAPI document:
 * the names of its required path and query parameters, and hints about its
 * request body schema (the declared `type`s and the required fields of an
 * object body).
 */
module SpecExtraction {
  import opened Wrappers
  import opened Text
  import opened Json
  import opened SpecResolver

  /** The ways reading the document can raise, in the order the builder meets them. */
  datatype BuildError =
    | SpecNotMapping          // the document itself has no `.get`
    | PathsNotMapping         // a truthy `paths` without `.items()`
    | TagsNotIndexable        // `tags[0]` on a truthy number, boolean or mapping
    | ParametersNotIterable   // `[*parameters]` on a truthy number or boolean
    | ContentNotMapping       // a truthy `content` without `.keys()` / `.values()`

  /**
   * The members `[*(x or [])]` unpacks: a list's items, a string's characters,
   * a mapping's keys; None when `x` is truthy but cannot be iterated.
   */
  function Unpacked(x: Json): (r: Option<seq<Json>>)
    ensures !Truthy(x) ==> r == Some([])
    ensures x.JArr? ==> r == Some(x.items)
    ensures r.None? <==> Truthy(x) && (x.JNum? || x.JBool?)
  {
    if !Truthy(x) then Some([])
    else
      match x
      case JArr(items) => Some(items)
      case JStr(s) => Some(Characters(s))
      case JObj(fields) => Some(KeyStrings(fields))
      case _ => None
  }

  /** Iterating a string: its one-character strings. */
  function Characters(s: string): (r: seq<Json>)
    ensures |r| == |s| && forall k :: 0 <= k < |s| ==> r[k] == JStr([s[k]])
  {
    seq(|s|, k requires 0 <= k < |s| => JStr([s[k]]))
  }

  /** Iterating a mapping: its keys. */
  function KeyStrings(fields: seq<(string, Json)>): (r: seq<Json>)
    ensures |r| == |fields| && forall k :: 0 <= k < |fields| ==> r[k] == JStr(fields[k].0)
  {
    seq(|fields|, k requires 0 <= k < |fields| => JStr(fields[k].0))
  }

  /** The path-item parameters followed by the operation parameters. */
  function CombinedParameters(pathItem: Json, operation: Json): Option<seq<Json>> {
    match (Unpacked(GetOr(pathItem, "parameters", JNull)), Unpacked(GetOr(operation, "parameters", JNull)))
    case (Some(a), Some(b)) => Some(a + b)
    case _ => None
  }

  /** A parameter as the collector sees it: through the resolver when there is one. */
  function Effective(resolver: Option<Json>, p: Json): Json {
    if resolver.Some? then Resolved(resolver.value, p) else p
  }

  /** `str(parameter.get("name", "")).strip()` */
  function ParamName(p: Json): string {
    Strip(Str(GetOr(p, "name", JStr(""))))
  }

  /** `str(parameter.get("in", "")).strip()` */
  function ParamLocation(p: Json): string {
    Strip(Str(GetOr(p, "in", JStr(""))))
  }

  /** A mapping whose `required` is truthy, whose trimmed name is non-empty and whose trimmed `in` is `location`. */
  predicate RequiredAt(p: Json, location: string) {
    p.JObj? && Truthy(GetOr(p, "required", JNull)) && ParamName(p) != "" && ParamLocation(p) == location
  }

  /** The name a parameter contributes at `location`: its own when it is required there, none otherwise. */
  function Named(p: Json, location: string): set<string> {
    if RequiredAt(p, location) then {ParamName(p)} else {}
  }

  /** The union of what `f` gives for each parameter, built up front to back. */
  function UnionOf(params: seq<Json>, f: Json -> set<string>): set<string>
    decreases |params|
  {
    if params == [] then {} else UnionOf(params[..|params| - 1], f) + f(params[|params| - 1])
  }

  /** A member of the union is what `f` gives for some parameter, and every such value is in it. */
  lemma {:induction false} UnionMembers(params: seq<Json>, f: Json -> set<string>, x: string)
    ensures x in UnionOf(params, f) <==> exists k :: 0 <= k < |params| && x in f(params[k])
    decreases |params|
  {
    if params != [] {
      var n := |params| - 1;
      var front := params[..n];
      UnionMembers(front, f, x);
      if x in UnionOf(front, f) {
        var k :| 0 <= k < n && x in f(front[k]);
        assert front[k] == params[k];
      }
      if exists k :: 0 <= k < |params| && x in f(params[k]) {
        var k :| 0 <= k < |params| && x in f(params[k]);
        if k < n {
          assert front[k] == params[k];
        }
      }
    }
  }

  /** The names of the parameters in `params` that are required at `location`. */
  function RequiredNames(resolver: Option<Json>, params: seq<Json>, location: string): set<string> {
    UnionOf(params, p => Named(Effective(resolver, p), location))
  }

  /**
   * A name is collected exactly when some parameter, seen through the
   * resolver, is required at `location` under that name.
   */
  lemma RequiredNamesMembers(resolver: Option<Json>, params: seq<Json>, location: string, x: string)
    ensures x in RequiredNames(resolver, params, location)
        <==> exists k :: 0 <= k < |params| && x in Named(Effective(resolver, params[k]), location)
  {
    UnionMembers(params, p => Named(Effective(resolver, p), location), x);
  }

  datatype RequiredParams = RequiredParams(path: set<string>, query: set<string>)

  /** What `_collect_parameters_with_resolver` returns, or the error its unpacking raises. */
  function CollectedParameters(resolver: Option<Json>, pathItem: Json, operation: Json): Result<RequiredParams, BuildError> {
    match CombinedParameters(pathItem, operation)
    case None => Failure(ParametersNotIterable)
    case Some(ps) => Success(RequiredParams(RequiredNames(resolver, ps, "path"), RequiredNames(resolver, ps, "query")))
  }

  /** One more parameter adds the name it contributes. */
  lemma RequiredNamesSnoc(resolver: Option<Json>, ps: seq<Json>, p: Json, location: string)
    ensures RequiredNames(resolver, ps + [p], location)
      == RequiredNames(resolver, ps, location)
         + (if RequiredAt(Effective(resolver, p), location) then {ParamName(Effective(resolver, p))} else {})
  {
    assert (ps + [p])[..|ps|] == ps;
    assert UnionOf(ps + [p], q => Named(Effective(resolver, q), location))
        == UnionOf(ps, q => Named(Effective(resolver, q), location)) + Named(Effective(resolver, p), location);
  }

  /** A parameter at neither `path` nor `query` changes neither collected set. */
  lemma OtherLocationIgnored(resolver: Option<Json>, ps: seq<Json>, p: Json)
    requires ParamLocation(Effective(resolver, p)) != "path" && ParamLocation(Effective(resolver, p)) != "query"
    ensures RequiredNames(resolver, ps + [p], "path") == RequiredNames(resolver, ps, "path")
    ensures RequiredNames(resolver, ps + [p], "query") == RequiredNames(resolver, ps, "query")
  {
    RequiredNamesSnoc(resolver, ps, p, "path");
    RequiredNamesSnoc(resolver, ps, p, "query");
  }

  /** How the collected sets grow by the parameter at index `i`, seen as `parameter`. */
  lemma ParameterStep(resolver: Option<Json>, ps: seq<Json>, i: nat, parameter: Json)
    requires i < |ps| && parameter == Effective(resolver, ps[i])
    ensures RequiredNames(resolver, ps[..i + 1], "path") == Adding(RequiredNames(resolver, ps[..i], "path"), parameter, "path")
    ensures RequiredNames(resolver, ps[..i + 1], "query") == Adding(RequiredNames(resolver, ps[..i], "query"), parameter, "query")
  {
    assert ps[..i + 1] == ps[..i] + [ps[i]];
    RequiredNamesSnoc(resolver, ps[..i], ps[i], "path");
    RequiredNamesSnoc(resolver, ps[..i], ps[i], "query");
  }

  /** `names` with the name `p` contributes at `location`, when it contributes one. */
  function Adding(names: set<string>, p: Json, location: string): set<string> {
    if RequiredAt(p, location) then names + {ParamName(p)} else names
  }

  /** `_collect_parameters_with_resolver` */
  method CollectParameters(resolver: Option<Json>, pathItem: Json, operation: Json)
    returns (r: Result<RequiredParams, BuildError>)
    ensures r == CollectedParameters(resolver, pathItem, operation)
  {
    var maybeCombined := CombinedParameters(pathItem, operation);
    if maybeCombined.None? {
      return Failure(ParametersNotIterable);
    }
    var combined := maybeCombined.value;
    var requiredPath: set<string> := {};
    var requiredQuery: set<string> := {};
    for i := 0 to |combined|
      invariant requiredPath == RequiredNames(resolver, combined[..i], "path")
      invariant requiredQuery == RequiredNames(resolver, combined[..i], "query")
    {
      var parameter := combined[i];
      if resolver.Some? {
        parameter := ResolveRef(resolver.value, parameter);
      }
      ParameterStep(resolver, combined, i, parameter);
      if !parameter.JObj? {
        continue;
      }
      if !Truthy(GetOr(parameter, "required", JNull)) {
        continue;
      }
      var name := ParamName(parameter);
      var location := ParamLocation(parameter);
      if name == "" {
        continue;
      }
      if location == "path" {
        requiredPath := requiredPath + {name};
      } else if location == "query" {
        requiredQuery := requiredQuery + {name};
      }
    }
    assert combined[..|combined|] == combined;
    return Success(RequiredParams(requiredPath, requiredQuery));
  }

  /** `schema.get("type")` when it is a string, for a mapping `schema`. */
  function TypeOf(schema: Json): Option<string> {
    match Get(schema, "type")
    case Some(JStr(t)) => Some(t)
    case _ => None
  }

  function AsSet(t: Option<string>): set<string> {
    if t.Some? then {t.value} else {}
  }

  /** The string `type`s of the options of a `oneOf`/`anyOf` list, each option resolved first. */
  function OptionTypes(doc: Json, options: seq<Json>): set<string> {
    set k | 0 <= k < |options| && TypeOf(ResolveSchema(doc, options[k], 0)).Some?
      :: TypeOf(ResolveSchema(doc, options[k], 0)).value
  }

  /** The options under `key` when they form a list. */
  function OptionsAt(schema: Json, key: string): seq<Json> {
    match Get(schema, key)
    case Some(JArr(options)) => options
    case _ => []
  }

  /** The string entries of a list. */
  function StringEntries(xs: seq<Json>): set<string> {
    set k | 0 <= k < |xs| && xs[k].JStr? :: xs[k].s
  }

  /** The required fields an object schema lists; none unless `type` is `"object"` and `required` a list. */
  function RequiredFields(schema: Json): set<string> {
    if Get(schema, "type") == Some(JStr("object")) then
      match Get(schema, "required")
      case Some(JArr(xs)) => StringEntries(xs)
      case _ => {}
    else {}
  }

  /** The schema of a media entry, after following references, when both are mappings. */
  function MediaSchema(doc: Json, payload: Json): Option<Json> {
    if !payload.JObj? then None
    else
      var schema := ResolveSchema(doc, GetOr(payload, "schema", JNull), 0);
      if schema.JObj? then Some(schema) else None
  }

  /** The types one media entry contributes: its schema's own and those of its options. */
  function EntryTypes(doc: Json, payload: Json): set<string> {
    match MediaSchema(doc, payload)
    case None => {}
    case Some(schema) =>
      AsSet(TypeOf(schema)) + OptionTypes(doc, OptionsAt(schema, "oneOf")) + OptionTypes(doc, OptionsAt(schema, "anyOf"))
  }

  /** The required fields one media entry contributes. */
  function EntryFields(doc: Json, payload: Json): set<string> {
    match MediaSchema(doc, payload)
    case None => {}
    case Some(schema) => RequiredFields(schema)
  }

  /** Every type the media entries contribute, gathered entry by entry. */
  function BodyTypes(doc: Json, payloads: seq<Json>): set<string> {
    UnionOf(payloads, p => EntryTypes(doc, p))
  }

  /** Every required field the media entries contribute, gathered entry by entry. */
  function BodyFields(doc: Json, payloads: seq<Json>): set<string> {
    UnionOf(payloads, p => EntryFields(doc, p))
  }

  /** A type is a body type exactly when some media entry contributes it. */
  lemma BodyTypesMembership(doc: Json, payloads: seq<Json>, t: string)
    ensures t in BodyTypes(doc, payloads) <==> exists k :: 0 <= k < |payloads| && t in EntryTypes(doc, payloads[k])
  {
    UnionMembers(payloads, p => EntryTypes(doc, p), t);
  }

  /** A field is a required body field exactly when some media entry contributes it. */
  lemma BodyFieldsMembership(doc: Json, payloads: seq<Json>, f: string)
    ensures f in BodyFields(doc, payloads) <==> exists k :: 0 <= k < |payloads| && f in EntryFields(doc, payloads[k])
  {
    UnionMembers(payloads, p => EntryFields(doc, p), f);
  }

  predicate ListsRequired(schema: Json, f: string) {
    && TypeOf(schema) == Some("object")
    && Get(schema, "required").Some?
    && Get(schema, "required").value.JArr?
    && JStr(f) in Get(schema, "required").value.items
  }

  /**
   * Required fields come only from object schemas with a `required` list: a
   * field of the hints is a string entry of such a list in some media schema.
   */
  lemma FieldsOnlyFromObjects(doc: Json, payloads: seq<Json>, f: string)
    requires f in BodyFields(doc, payloads)
    ensures exists k :: 0 <= k < |payloads| && MediaSchema(doc, payloads[k]).Some? && ListsRequired(MediaSchema(doc, payloads[k]).value, f)
  {
    BodyFieldsMembership(doc, payloads, f);
    var k :| 0 <= k < |payloads| && f in EntryFields(doc, payloads[k]);
    var schema := MediaSchema(doc, payloads[k]).value;
    var xs := Get(schema, "required").value.items;
    var j :| 0 <= j < |xs| && xs[j].JStr? && xs[j].s == f;
    assert xs[j] == JStr(f);
  }

  /** The type of an option of a `oneOf`/`anyOf` list, after following references. */
  function OptionType(doc: Json, option: Json): Option<string> {
    TypeOf(ResolveSchema(doc, option, 0))
  }

  /**
   * Every string `type` a media schema declares, itself or in one of its
   * (resolved) `oneOf`/`anyOf` options, is among the body types.
   */
  lemma EveryDeclaredType(doc: Json, payloads: seq<Json>, k: nat, schema: Json)
    requires k < |payloads| && MediaSchema(doc, payloads[k]) == Some(schema)
    ensures TypeOf(schema).Some? ==> TypeOf(schema).value in BodyTypes(doc, payloads)
    ensures forall o :: o in OptionsAt(schema, "oneOf") && OptionType(doc, o).Some? ==> OptionType(doc, o).value in BodyTypes(doc, payloads)
    ensures forall o :: o in OptionsAt(schema, "anyOf") && OptionType(doc, o).Some? ==> OptionType(doc, o).value in BodyTypes(doc, payloads)
  {
    forall t | t in EntryTypes(doc, payloads[k]) ensures t in BodyTypes(doc, payloads) {
      BodyTypesMembership(doc, payloads, t);
    }
    forall key, o | key in {"oneOf", "anyOf"} && o in OptionsAt(schema, key) && OptionType(doc, o).Some?
      ensures OptionType(doc, o).value in EntryTypes(doc, payloads[k])
    {
      var options := OptionsAt(schema, key);
      var j :| 0 <= j < |options| && options[j] == o;
      assert OptionType(doc, o).value in OptionTypes(doc, options);
    }
  }

  /** `request_body.get("content") or {}`, None when it is truthy but no mapping. */
  function ContentOf(requestBody: Json): Option<seq<(string, Json)>> {
    var content := GetOr(requestBody, "content", JNull);
    if !Truthy(content) then Some([])
    else if content.JObj? then Some(content.fields)
    else None
  }

  /** The values of a mapping, in order. */
  function Values(fields: seq<(string, Json)>): (vs: seq<Json>)
    ensures |vs| == |fields| && forall k :: 0 <= k < |fields| ==> vs[k] == fields[k].1
  {
    seq(|fields|, k requires 0 <= k < |fields| => fields[k].1)
  }

  datatype BodyHints = BodyHints(schemaTypes: set<string>, requiredFields: set<string>)

  /** What `_extract_body_schema_hints` returns, or the error `content.values()` raises. */
  function ExtractedHints(doc: Json, requestBody: Json): Result<BodyHints, BuildError> {
    match ContentOf(requestBody)
    case None => Failure(ContentNotMapping)
    case Some(content) => Success(BodyHints(BodyTypes(doc, Values(content)), BodyFields(doc, Values(content))))
  }

  lemma OptionTypesSnoc(doc: Json, options: seq<Json>, i: nat)
    requires i < |options|
    ensures OptionTypes(doc, options[..i + 1])
      == OptionTypes(doc, options[..i]) + AsSet(TypeOf(ResolveSchema(doc, options[i], 0)))
  {
    var p, q := options[..i], options[..i + 1];
    assert forall k :: 0 <= k < i ==> q[k] == p[k];
    assert q[i] == options[i];
  }

  lemma StringEntriesSnoc(xs: seq<Json>, i: nat)
    requires i < |xs|
    ensures StringEntries(xs[..i + 1]) == StringEntries(xs[..i]) + (if xs[i].JStr? then {xs[i].s} else {})
  {
    var p, q := xs[..i], xs[..i + 1];
    assert forall k :: 0 <= k < i ==> q[k] == p[k];
    assert q[i] == xs[i];
  }

  /** The types of the (resolved) options of a `oneOf`/`anyOf` list. */
  method CollectOptionTypes(doc: Json, options: seq<Json>) returns (types: set<string>)
    ensures types == OptionTypes(doc, options)
  {
    types := {};
    for j := 0 to |options|
      invariant types == OptionTypes(doc, options[..j])
    {
      OptionTypesSnoc(doc, options, j);
      var optSchema := ResolveSchema(doc, options[j], 0);
      if optSchema.JObj? {
        var optionType := Get(optSchema, "type");
        if optionType.Some? && optionType.value.JStr? {
          types := types + {optionType.value.s};
        }
      }
    }
    assert options[..|options|] == options;
  }

  /** The string entries of a `required` list. */
  method CollectStrings(xs: seq<Json>) returns (fields: set<string>)
    ensures fields == StringEntries(xs)
  {
    fields := {};
    for j := 0 to |xs|
      invariant fields == StringEntries(xs[..j])
    {
      StringEntriesSnoc(xs, j);
      if xs[j].JStr? {
        fields := fields + {xs[j].s};
      }
    }
    assert xs[..|xs|] == xs;
  }

  /** The types a resolved media schema declares: its own `type`, then those of its `oneOf` and `anyOf` options. */
  method SchemaTypes(doc: Json, schema: Json) returns (types: set<string>)
    ensures types == AsSet(TypeOf(schema)) + OptionTypes(doc, OptionsAt(schema, "oneOf")) + OptionTypes(doc, OptionsAt(schema, "anyOf"))
  {
    types := {};
    var schemaType := Get(schema, "type");
    if schemaType.Some? && schemaType.value.JStr? {
      types := types + {schemaType.value.s};
    }
    var oneOf := Get(schema, "oneOf");
    if oneOf.Some? && oneOf.value.JArr? {
      var optionTypes := CollectOptionTypes(doc, oneOf.value.items);
      types := types + optionTypes;
    }
    var anyOf := Get(schema, "anyOf");
    if anyOf.Some? && anyOf.value.JArr? {
      var optionTypes := CollectOptionTypes(doc, anyOf.value.items);
      types := types + optionTypes;
    }
  }

  /** The required fields a resolved media schema lists, when it is an object schema. */
  method SchemaFields(schema: Json) returns (fields: set<string>)
    ensures fields == RequiredFields(schema)
  {
    fields := {};
    var required := Get(schema, "required");
    if Get(schema, "type") == Some(JStr("object")) && required.Some? && required.value.JArr? {
      fields := CollectStrings(required.value.items);
    }
  }

  /** The hints of one media entry. */
  method EntryHints(doc: Json, payload: Json) returns (types: set<string>, fields: set<string>)
    ensures types == EntryTypes(doc, payload) && fields == EntryFields(doc, payload)
  {
    types, fields := {}, {};
    if !payload.JObj? {
      return;
    }
    var schema := ResolveSchema(doc, GetOr(payload, "schema", JNull), 0);
    if !schema.JObj? {
      return;
    }
    assert MediaSchema(doc, payload) == Some(schema);
    types := SchemaTypes(doc, schema);
    fields := SchemaFields(schema);
  }

  /** `_extract_body_schema_hints` */
  method ExtractBodySchemaHints(doc: Json, requestBody: Json) returns (r: Result<BodyHints, BuildError>)
    ensures r == ExtractedHints(doc, requestBody)
  {
    var content := ContentOf(requestBody);
    if content.None? {
      return Failure(ContentNotMapping);
    }
    var payloads := Values(content.value);
    var types: set<string> := {};
    var fields: set<string> := {};
    for i := 0 to |payloads|
      invariant types == BodyTypes(doc, payloads[..i]) && fields == BodyFields(doc, payloads[..i])
    {
      assert payloads[..i + 1][..i] == payloads[..i];
      var entryTypes, entryFields := EntryHints(doc, payloads[i]);
      types := types + entryTypes;
      fields := fields + entryFields;
    }
    assert payloads[..|payloads|] == payloads;
    return Success(BodyHints(types, fields));
  }
}
