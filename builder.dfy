/**
 * `build_registry_from_spec`: walks every path and every method of an
 * OpenAPI document and files one operation per (path, HTTP method) pair.
 */
module RegistryBuilder {
  import opened Wrappers
  import opened Text
  import opened Json
  import opened Naming
  import opened SpecResolver
  import opened SpecExtraction
  import opened OperationRegistry

  /** Python's `x or default`. */
  function OrElse(x: Json, default: Json): Json {
    if Truthy(x) then x else default
  }

  /**
   * `(operation.get("tags") or ["untagged"])[0]`: the first item of a list,
   * the first character of a string, None where indexing raises (a truthy
   * number, boolean or mapping).
   */
  function FirstTag(tags: Json): Option<Json> {
    if !Truthy(tags) then Some(JStr("untagged"))
    else
      match tags
      case JArr(items) => Some(items[0])
      case JStr(s) => Some(JStr([s[0]]))
      case _ => None
  }

  /** `str(operation.get("operationId") or "").strip()`, or the derived name when that is empty. */
  function ActionName(methodL: string, path: string, operation: Json): string {
    var declared := Strip(Str(OrElse(GetOr(operation, "operationId", JNull), JStr(""))));
    if declared != "" then declared else FallbackActionId(methodL, path)
  }

  /** The request body: `requestBody or {}`, through the resolver, `{}` when that is no mapping. */
  function RequestBodyOf(doc: Json, operation: Json): Json {
    var body := Resolved(doc, OrElse(GetOr(operation, "requestBody", JNull), JObj([])));
    if body.JObj? then body else JObj([])
  }

  /** `str(operation.get(key) or "")` */
  function TextField(operation: Json, key: string): string {
    Str(OrElse(GetOr(operation, key, JNull), JStr("")))
  }

  /**
   * The operation filed for `httpMethod` under `path`: nothing for a key that
   * is no HTTP method or a value that is no mapping, otherwise its metadata,
   * or the error reading it raises (checked in the order the source reads).
   */
  function OperationEntry(doc: Json, path: string, pathItem: Json, httpMethod: string, operation: Json)
    : Result<Option<OperationMeta>, BuildError>
  {
    var methodL := Lower(httpMethod);
    if methodL !in HttpMethods || !operation.JObj? then Success(None)
    else
      match FirstTag(GetOr(operation, "tags", JNull))
      case None => Failure(TagsNotIndexable)
      case Some(tagValue) =>
        var tag := Str(tagValue);
        var action := ActionName(methodL, path, operation);
        match CollectedParameters(Some(doc), pathItem, operation)
        case Failure(e) => Failure(e)
        case Success(required) =>
          var body := RequestBodyOf(doc, operation);
          match ContentOf(body)
          case None => Failure(ContentNotMapping)
          case Some(content) => Success(Some(EntryMeta(doc, path, operation, methodL, tag, action, required, body, content)))
  }

  /** The metadata of one operation, from what the builder has read of it. */
  function EntryMeta(doc: Json, path: string, operation: Json, methodL: string, tag: string, action: string,
                     required: RequiredParams, body: Json, content: seq<(string, Json)>): OperationMeta
  {
    OperationMeta(
      NormalizeDomain(tag), tag, action, action, Upper(methodL), path,
      TextField(operation, "summary"), TextField(operation, "description"),
      required.path, required.query, Truthy(GetOr(body, "required", JNull)),
      Sort(Keys(content)), BodyTypes(doc, Values(content)), BodyFields(doc, Values(content)))
  }

  /** The result of every method of a path item, in order. */
  function MethodResults(doc: Json, path: string, pathItem: Json, ms: seq<(string, Json)>)
    : (rs: seq<Result<Option<OperationMeta>, BuildError>>)
    ensures |rs| == |ms|
    ensures forall k :: 0 <= k < |ms| ==> rs[k] == OperationEntry(doc, path, pathItem, ms[k].0, ms[k].1)
  {
    seq(|ms|, k requires 0 <= k < |ms| => OperationEntry(doc, path, pathItem, ms[k].0, ms[k].1))
  }

  /** The operations the results yield, in order, or the first error among them. */
  function Collect(rs: seq<Result<Option<OperationMeta>, BuildError>>): Result<seq<OperationMeta>, BuildError>
    decreases |rs|
  {
    if rs == [] then Success([])
    else
      match Collect(rs[..|rs| - 1])
      case Failure(e) => Failure(e)
      case Success(before) =>
        match rs[|rs| - 1]
        case Failure(e) => Failure(e)
        case Success(None) => Success(before)
        case Success(Some(m)) => Success(before + [m])
  }

  /** The operations of one path: none when its item is no mapping. */
  function PathEntries(doc: Json, path: string, pathItem: Json): Result<seq<OperationMeta>, BuildError> {
    if pathItem.JObj? then Collect(MethodResults(doc, path, pathItem, pathItem.fields)) else Success([])
  }

  /** The result of every path, in order. */
  function PathResults(doc: Json, ps: seq<(string, Json)>): (rs: seq<Result<seq<OperationMeta>, BuildError>>)
    ensures |rs| == |ps|
    ensures forall k :: 0 <= k < |ps| ==> rs[k] == PathEntries(doc, ps[k].0, ps[k].1)
  {
    seq(|ps|, k requires 0 <= k < |ps| => PathEntries(doc, ps[k].0, ps[k].1))
  }

  /** The operations of all results, concatenated in order, or the first error among them. */
  function Concat(rs: seq<Result<seq<OperationMeta>, BuildError>>): Result<seq<OperationMeta>, BuildError>
    decreases |rs|
  {
    if rs == [] then Success([])
    else
      match Concat(rs[..|rs| - 1])
      case Failure(e) => Failure(e)
      case Success(before) =>
        match rs[|rs| - 1]
        case Failure(e) => Failure(e)
        case Success(these) => Success(before + these)
  }

  /** Every operation of the document in document order, or the first error. */
  function Entries(doc: Json): Result<seq<OperationMeta>, BuildError> {
    if !doc.JObj? then Failure(SpecNotMapping)
    else
      var paths := OrElse(GetOr(doc, "paths", JNull), JObj([]));
      if !paths.JObj? then Failure(PathsNotMapping)
      else Concat(PathResults(doc, paths.fields))
  }

  /** The registry `build_registry_from_spec` returns, or what it raises. */
  function BuildRegistry(doc: Json): Result<Registry, BuildError> {
    match Entries(doc)
    case Failure(e) => Failure(e)
    case Success(ms) => Success(RegisterAll(ms))
  }

  /**
   * The request body of an operation and its `content`: `requestBody or {}`
   * through the resolver, `{}` when that is no mapping, and then the
   * `content` entries of that body.
   */
  method ReadRequestBody(doc: Json, operation: Json) returns (body: Json, content: Option<seq<(string, Json)>>)
    ensures body == RequestBodyOf(doc, operation) && content == ContentOf(body)
  {
    body := OrElse(GetOr(operation, "requestBody", JNull), JObj([]));
    body := ResolveRef(doc, body);
    if !body.JObj? {
      body := JObj([]);
    }
    content := ContentOf(body);
  }

  /** The metadata of one operation, with the body hints gathered by their loops. */
  method AssembleMeta(doc: Json, path: string, operation: Json, methodL: string, tag: string, action: string,
                      required: RequiredParams, body: Json, content: seq<(string, Json)>)
    returns (meta: OperationMeta)
    requires ContentOf(body) == Some(content)
    ensures meta == EntryMeta(doc, path, operation, methodL, tag, action, required, body, content)
  {
    var hints := ExtractBodySchemaHints(doc, body);
    meta := OperationMeta(
      NormalizeDomain(tag), tag, action, action, Upper(methodL), path,
      TextField(operation, "summary"), TextField(operation, "description"),
      required.path, required.query, Truthy(GetOr(body, "required", JNull)),
      Sort(Keys(content)), hints.value.schemaTypes, hints.value.requiredFields);
  }

  /** One operation, read as the loop body of the builder reads it. */
  method BuildOperation(doc: Json, path: string, pathItem: Json, httpMethod: string, operation: Json)
    returns (r: Result<Option<OperationMeta>, BuildError>)
    ensures r == OperationEntry(doc, path, pathItem, httpMethod, operation)
  {
    var methodL := Lower(httpMethod);
    if methodL !in HttpMethods || !operation.JObj? {
      return Success(None);
    }
    var tagValue := FirstTag(GetOr(operation, "tags", JNull));
    if tagValue.None? {
      return Failure(TagsNotIndexable);
    }
    var tag := Str(tagValue.value);
    var action := ActionName(methodL, path, operation);
    var required := CollectParameters(Some(doc), pathItem, operation);
    if required.Failure? {
      return Failure(required.error);
    }
    var body, content := ReadRequestBody(doc, operation);
    if content.None? {
      return Failure(ContentNotMapping);
    }
    var meta := AssembleMeta(doc, path, operation, methodL, tag, action, required.value, body, content.value);
    return Success(Some(meta));
  }

  /** Once the results up to `j` hold an error, the whole collection is that error. */
  lemma {:induction false} CollectFailurePersists(rs: seq<Result<Option<OperationMeta>, BuildError>>, j: nat)
    requires j <= |rs| && Collect(rs[..j]).Failure?
    ensures Collect(rs) == Collect(rs[..j])
    decreases |rs|
  {
    if j < |rs| {
      var n := |rs| - 1;
      assert rs[..n][..j] == rs[..j];
      CollectFailurePersists(rs[..n], j);
    } else {
      assert rs[..j] == rs;
    }
  }

  /** Once the results up to `i` hold an error, the whole concatenation is that error. */
  lemma {:induction false} ConcatFailurePersists(rs: seq<Result<seq<OperationMeta>, BuildError>>, i: nat)
    requires i <= |rs| && Concat(rs[..i]).Failure?
    ensures Concat(rs) == Concat(rs[..i])
    decreases |rs|
  {
    if i < |rs| {
      var n := |rs| - 1;
      assert rs[..n][..i] == rs[..i];
      ConcatFailurePersists(rs[..n], i);
    } else {
      assert rs[..i] == rs;
    }
  }

  /** The operation a result yields, as a sequence of length at most one. */
  function Yielded(o: Option<OperationMeta>): seq<OperationMeta> {
    if o.Some? then [o.value] else []
  }

  /** A failing result after a successful prefix is what the whole collection gives. */
  lemma CollectStops(rs: seq<Result<Option<OperationMeta>, BuildError>>, j: nat)
    requires j < |rs| && Collect(rs[..j]).Success? && rs[j].Failure?
    ensures Collect(rs) == Failure(rs[j].error)
  {
    assert rs[..j + 1][..j] == rs[..j];
    CollectFailurePersists(rs, j + 1);
  }

  /** Collecting and filing one more successful result keep the two in step. */
  lemma CollectStep(rs: seq<Result<Option<OperationMeta>, BuildError>>, j: nat, done: seq<OperationMeta>,
                    these: seq<OperationMeta>, current: Registry, next: Registry)
    requires j < |rs| && Collect(rs[..j]) == Success(these) && rs[j].Success?
    requires current == RegisterAll(done + these)
    requires rs[j].value.Some? ==> next == Register(current, rs[j].value.value)
    requires rs[j].value.None? ==> next == current
    ensures Collect(rs[..j + 1]) == Success(these + Yielded(rs[j].value))
    ensures next == RegisterAll(done + (these + Yielded(rs[j].value)))
  {
    assert rs[..j + 1][..j] == rs[..j];
    if rs[j].value.Some? {
      RegisterSnoc(done + these, rs[j].value.value);
      assert done + these + [rs[j].value.value] == done + (these + [rs[j].value.value]);
    } else {
      assert these + [] == these;
    }
  }

  /** A failing path after a successful prefix is what the whole concatenation gives. */
  lemma ConcatStops(rs: seq<Result<seq<OperationMeta>, BuildError>>, i: nat)
    requires i < |rs| && Concat(rs[..i]).Success? && rs[i].Failure?
    ensures Concat(rs) == Failure(rs[i].error)
  {
    assert rs[..i + 1][..i] == rs[..i];
    ConcatFailurePersists(rs, i + 1);
  }

  /** Concatenating one more successful path appends its operations. */
  lemma ConcatStep(rs: seq<Result<seq<OperationMeta>, BuildError>>, i: nat)
    requires i < |rs| && Concat(rs[..i]).Success? && rs[i].Success?
    ensures Concat(rs[..i + 1]) == Success(Concat(rs[..i]).value + rs[i].value)
  {
    assert rs[..i + 1][..i] == rs[..i];
  }

  /** Filing one more operation extends the filed sequence by it. */
  lemma RegisterSnoc(ms: seq<OperationMeta>, m: OperationMeta)
    ensures RegisterAll(ms + [m]) == Register(RegisterAll(ms), m)
  {
    assert (ms + [m])[..|ms|] == ms;
  }

  /** What filing the methods of one path item onto the operations `done` gives. */
  function AfterPathItem(doc: Json, path: string, pathItem: Json, done: seq<OperationMeta>): Result<Registry, BuildError>
    requires pathItem.JObj?
  {
    match PathEntries(doc, path, pathItem)
    case Failure(e) => Failure(e)
    case Success(these) => Success(RegisterAll(done + these))
  }

  /** Files `meta` into the two maps of the registry under construction. */
  method FileOperation(domains: map<string, map<string, OperationMeta>>, domainLabels: map<string, string>,
                       meta: OperationMeta)
    returns (domains': map<string, map<string, OperationMeta>>, domainLabels': map<string, string>)
    ensures Registry(domains', domainLabels') == Register(Registry(domains, domainLabels), meta)
  {
    var bucket := if meta.domain in domains then domains[meta.domain] else map[];
    domains' := domains[meta.domain := bucket[meta.action := meta]];
    domainLabels' := domainLabels;
    if meta.domain !in domainLabels {
      domainLabels' := domainLabels[meta.domain := meta.tag];
    }
  }

  /** One pass of the inner loop: the operation under `httpMethod`, read and filed. */
  method FileMethod(spec: Json, path: string, pathItem: Json, httpMethod: string, operation: Json, reg: Registry)
    returns (entry: Result<Option<OperationMeta>, BuildError>, reg': Registry)
    ensures entry == OperationEntry(spec, path, pathItem, httpMethod, operation)
    ensures entry.Success? && entry.value.Some? ==> reg' == Register(reg, entry.value.value)
    ensures entry.Success? && entry.value.None? ==> reg' == reg
  {
    entry := BuildOperation(spec, path, pathItem, httpMethod, operation);
    reg' := reg;
    if entry.Success? && entry.value.Some? {
      var domains, domainLabels := FileOperation(reg.domains, reg.domainLabels, entry.value.value);
      reg' := Registry(domains, domainLabels);
    }
  }

  /** The inner loop of the builder: every method of one path item, filed in order. */
  method FilePathItem(spec: Json, path: string, pathItem: Json, reg: Registry, ghost done: seq<OperationMeta>)
    returns (r: Result<Registry, BuildError>)
    requires pathItem.JObj? && reg == RegisterAll(done)
    ensures r == AfterPathItem(spec, path, pathItem, done)
  {
    var current := reg;
    var ms := pathItem.fields;
    ghost var rs := MethodResults(spec, path, pathItem, ms);
    ghost var these: seq<OperationMeta> := [];
    assert done + these == done;
    for j := 0 to |ms|
      invariant Collect(rs[..j]) == Success(these)
      invariant current == RegisterAll(done + these)
    {
      var entry, next := FileMethod(spec, path, pathItem, ms[j].0, ms[j].1, current);
      assert entry == rs[j];
      if entry.Failure? {
        CollectStops(rs, j);
        return Failure(entry.error);
      }
      CollectStep(rs, j, done, these, current, next);
      these := these + Yielded(entry.value);
      current := next;
    }
    assert rs[..|ms|] == rs;
    return Success(current);
  }

  /**
   * `build_registry_from_spec`: for every path, then every method in it,
   * read the operation and file it: `setdefault` the domain's bucket, store
   * the operation under its action, `setdefault` the domain's label.
   */
  method BuildRegistryFromSpec(spec: Json) returns (r: Result<Registry, BuildError>)
    ensures r == BuildRegistry(spec)
  {
    if !spec.JObj? {
      return Failure(SpecNotMapping);
    }
    var paths := OrElse(GetOr(spec, "paths", JNull), JObj([]));
    if !paths.JObj? {
      return Failure(PathsNotMapping);
    }
    var reg := EmptyRegistry;
    var ps := paths.fields;
    ghost var rs := PathResults(spec, ps);
    ghost var done: seq<OperationMeta> := [];
    for i := 0 to |ps|
      invariant Concat(rs[..i]) == Success(done)
      invariant reg == RegisterAll(done)
    {
      var path, pathItem := ps[i].0, ps[i].1;
      if !pathItem.JObj? {
        ConcatStep(rs, i);
        assert done + [] == done;
        continue;
      }
      var next := FilePathItem(spec, path, pathItem, reg, done);
      if next.Failure? {
        ConcatStops(rs, i);
        return Failure(next.error);
      }
      ConcatStep(rs, i);
      reg := next.value;
      done := done + rs[i].value;
    }
    assert rs[..|ps|] == rs;
    return Success(reg);
  }

  /** An entry is skipped exactly for a key that is no HTTP method or a value that is no mapping. */
  lemma EntrySkipped(doc: Json, path: string, pathItem: Json, httpMethod: string, operation: Json)
    ensures OperationEntry(doc, path, pathItem, httpMethod, operation) == Success(None)
        <==> Lower(httpMethod) !in HttpMethods || !operation.JObj?
  {
  }

  /** The action is never empty: the trimmed operationId when there is one, else the derived name. */
  lemma ActionNonEmpty(methodL: string, path: string, operation: Json)
    ensures ActionName(methodL, path, operation) != ""
    ensures var declared := Strip(Str(OrElse(GetOr(operation, "operationId", JNull), JStr(""))));
      declared != "" ==> ActionName(methodL, path, operation) == declared
  {
    var declared := Strip(Str(OrElse(GetOr(operation, "operationId", JNull), JStr(""))));
    if declared == "" {
      var r := FallbackActionId(methodL, path);
      assert |r| > 0;
    }
  }

  /** The properties every operation the builder produces has, beyond its well-formedness. */
  predicate Normalized(m: OperationMeta) {
    WellFormedMeta(m) && m.domain == NormalizeDomain(m.tag)
  }

  /** The metadata assembled for an HTTP-method key with a non-empty action is normalized. */
  lemma MetaNormalized(doc: Json, path: string, operation: Json, methodL: string, tag: string, action: string,
                       required: RequiredParams, body: Json, content: seq<(string, Json)>)
    requires methodL in HttpMethods && action != ""
    ensures Normalized(EntryMeta(doc, path, operation, methodL, tag, action, required, body, content))
    ensures multiset(EntryMeta(doc, path, operation, methodL, tag, action, required, body, content).requestMediaTypes)
         == multiset(Keys(content))
  {
    var m := EntryMeta(doc, path, operation, methodL, tag, action, required, body, content);
    assert m.httpMethod == Upper(methodL);
  }

  /**
   * An operation read from the document is normalized; its tag is the first
   * tag, its path the key it was found under, its method the upper-case form
   * of the HTTP-method key, and its media types the sorted content keys.
   */
  lemma EntryWellFormed(doc: Json, path: string, pathItem: Json, httpMethod: string, operation: Json, m: OperationMeta)
    requires OperationEntry(doc, path, pathItem, httpMethod, operation) == Success(Some(m))
    ensures Normalized(m)
    ensures m.tag == Str(FirstTag(GetOr(operation, "tags", JNull)).value)
    ensures m.path == path && m.httpMethod == Upper(Lower(httpMethod)) && Lower(httpMethod) in HttpMethods
    ensures ContentOf(RequestBodyOf(doc, operation)).Some?
    ensures multiset(m.requestMediaTypes) == multiset(Keys(ContentOf(RequestBodyOf(doc, operation)).value))
  {
    var methodL := Lower(httpMethod);
    var tag := Str(FirstTag(GetOr(operation, "tags", JNull)).value);
    var action := ActionName(methodL, path, operation);
    var required := CollectedParameters(Some(doc), pathItem, operation).value;
    var body := RequestBodyOf(doc, operation);
    var content := ContentOf(body).value;
    assert m == EntryMeta(doc, path, operation, methodL, tag, action, required, body, content);
    ActionNonEmpty(methodL, path, operation);
    MetaNormalized(doc, path, operation, methodL, tag, action, required, body, content);
  }

  /** Every collected operation is yielded by one of the results. */
  lemma {:induction false} CollectOrigin(rs: seq<Result<Option<OperationMeta>, BuildError>>, x: OperationMeta)
    requires Collect(rs).Success? && x in Collect(rs).value
    ensures exists k :: 0 <= k < |rs| && rs[k] == Success(Some(x))
    decreases |rs|
  {
    var n := |rs| - 1;
    if x !in Collect(rs[..n]).value {
      assert rs[n] == Success(Some(x));
    } else {
      CollectOrigin(rs[..n], x);
      var k :| 0 <= k < n && rs[..n][k] == Success(Some(x));
      assert rs[k] == Success(Some(x));
    }
  }

  /** Every concatenated operation comes from one of the results. */
  lemma {:induction false} ConcatOrigin(rs: seq<Result<seq<OperationMeta>, BuildError>>, x: OperationMeta)
    requires Concat(rs).Success? && x in Concat(rs).value
    ensures exists k :: 0 <= k < |rs| && rs[k].Success? && x in rs[k].value
    decreases |rs|
  {
    var n := |rs| - 1;
    if x !in Concat(rs[..n]).value {
      assert x in rs[n].value;
    } else {
      ConcatOrigin(rs[..n], x);
      var k :| 0 <= k < n && rs[..n][k].Success? && x in rs[..n][k].value;
      assert rs[k] == rs[..n][k];
    }
  }

  /** The operations of one path item are normalized. */
  lemma PathEntriesNormalized(doc: Json, path: string, pathItem: Json, x: OperationMeta)
    requires PathEntries(doc, path, pathItem).Success? && x in PathEntries(doc, path, pathItem).value
    ensures Normalized(x)
  {
    var ms := pathItem.fields;
    var rs := MethodResults(doc, path, pathItem, ms);
    CollectOrigin(rs, x);
    var k :| 0 <= k < |rs| && rs[k] == Success(Some(x));
    EntryWellFormed(doc, path, pathItem, ms[k].0, ms[k].1, x);
  }

  /** Every operation of a successfully read document is normalized. */
  lemma EntriesNormalized(doc: Json)
    requires Entries(doc).Success?
    ensures forall k :: 0 <= k < |Entries(doc).value| ==> Normalized(Entries(doc).value[k])
  {
    var ps := OrElse(GetOr(doc, "paths", JNull), JObj([])).fields;
    var rs := PathResults(doc, ps);
    forall k | 0 <= k < |Entries(doc).value| ensures Normalized(Entries(doc).value[k]) {
      var x := Entries(doc).value[k];
      ConcatOrigin(rs, x);
      var i :| 0 <= i < |rs| && rs[i].Success? && x in rs[i].value;
      PathEntriesNormalized(doc, ps[i].0, ps[i].1, x);
    }
  }

  /** An operation a result yields is among the collected operations. */
  lemma {:induction false} CollectIncludes(rs: seq<Result<Option<OperationMeta>, BuildError>>, j: nat, m: OperationMeta)
    requires j < |rs| && Collect(rs).Success? && rs[j] == Success(Some(m))
    ensures m in Collect(rs).value
    decreases |rs|
  {
    var n := |rs| - 1;
    if j < n {
      assert rs[..n][j] == rs[j];
      CollectIncludes(rs[..n], j, m);
    }
  }

  /** An operation of one result is among the concatenated operations. */
  lemma {:induction false} ConcatIncludes(rs: seq<Result<seq<OperationMeta>, BuildError>>, i: nat, m: OperationMeta)
    requires i < |rs| && Concat(rs).Success? && rs[i].Success? && m in rs[i].value
    ensures m in Concat(rs).value
    decreases |rs|
  {
    var n := |rs| - 1;
    if i < n {
      assert rs[..n][i] == rs[i];
      ConcatIncludes(rs[..n], i, m);
    }
  }

  /** After a successful concatenation every result was a success. */
  lemma {:induction false} ConcatAllSucceed(rs: seq<Result<seq<OperationMeta>, BuildError>>, i: nat)
    requires i < |rs| && Concat(rs).Success?
    ensures rs[i].Success?
    decreases |rs|
  {
    var n := |rs| - 1;
    if i < n {
      assert rs[..n][i] == rs[i];
      ConcatAllSucceed(rs[..n], i);
    }
  }

  /**
   * A successful build files every operation of the document: the filed
   * pair of its domain and action is present (holding it, or a later
   * operation with the same pair).
   */
  lemma OperationRegistered(spec: Json, i: nat, j: nat, m: OperationMeta)
    requires BuildRegistry(spec).Success?
    requires var paths := OrElse(GetOr(spec, "paths", JNull), JObj([]));
      && paths.JObj? && i < |paths.fields| && paths.fields[i].1.JObj? && j < |paths.fields[i].1.fields|
      && OperationEntry(spec, paths.fields[i].0, paths.fields[i].1,
                        paths.fields[i].1.fields[j].0, paths.fields[i].1.fields[j].1) == Success(Some(m))
    ensures m.domain in BuildRegistry(spec).value.domains
    ensures m.action in BuildRegistry(spec).value.domains[m.domain]
  {
    var ps := OrElse(GetOr(spec, "paths", JNull), JObj([])).fields;
    var path, item := ps[i].0, ps[i].1;
    var prs := PathResults(spec, ps);
    ConcatAllSucceed(prs, i);
    var mrs := MethodResults(spec, path, item, item.fields);
    CollectIncludes(mrs, j, m);
    ConcatIncludes(prs, i, m);
    var ms := Entries(spec).value;
    var k :| 0 <= k < |ms| && ms[k] == m;
    RegisteredActions(ms, m.domain, m.action);
  }

  /**
   * A successful build yields a valid registry whose every label is the raw
   * tag of an operation of that domain, so that it normalizes to the domain
   * itself.
   */
  lemma BuiltRegistryValid(spec: Json)
    requires BuildRegistry(spec).Success?
    ensures ValidRegistry(BuildRegistry(spec).value)
    ensures forall d :: d in BuildRegistry(spec).value.domainLabels ==>
      NormalizeDomain(BuildRegistry(spec).value.domainLabels[d]) == d
  {
    var ms := Entries(spec).value;
    EntriesNormalized(spec);
    RegisterAllValid(ms);
    forall d | d in RegisterAll(ms).domainLabels ensures NormalizeDomain(RegisterAll(ms).domainLabels[d]) == d {
      FirstSeenLabel(ms, d);
    }
  }
}
