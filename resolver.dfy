/**
 * `_SpecResolver`: following a document-local `$ref` ("#/a/b/c") from the root
 * of the OpenAPI document, and following chains of them a bounded number of
 * times. Nothing here fails: a reference that cannot be followed is returned
 * as it is.
 */
module SpecResolver {
  import opened Wrappers
  import opened Text
  import opened Json

  /**
   * Follows `parts` key by key from `node`; None as soon as a step meets a
   * value that is no mapping or lacks the key (a list is not a mapping, so
   * an index segment never matches).
   */
  function Walk(node: Json, parts: seq<string>): Option<Json>
    decreases |parts|
  {
    if parts == [] then Some(node)
    else
      match Get(node, parts[0])
      case Some(child) => Walk(child, parts[1..])
      case None => None
  }

  /** The segments of a string `$ref` that starts with `#/`: the rest, split at every `/`. */
  function LocalPointer(node: Json): Option<seq<string>> {
    match Get(node, "$ref")
    case Some(JStr(ref)) => if StartsWith(ref, "#/") then Some(Split(ref[2..], '/')) else None
    case _ => None
  }

  /** What `resolve_ref(node)` returns: the target of a followable local reference, otherwise `node`. */
  function Resolved(doc: Json, node: Json): Json {
    match LocalPointer(node)
    case None => node
    case Some(parts) =>
      match Walk(doc, parts)
      case Some(target) => target
      case None => node
  }

  /** `resolve_ref`: walks the pointer segment by segment from the document root. */
  method ResolveRef(doc: Json, maybeRef: Json) returns (r: Json)
    ensures r == Resolved(doc, maybeRef)
  {
    if !maybeRef.JObj? {
      return maybeRef;
    }
    var ref := Get(maybeRef, "$ref");
    if !(ref.Some? && ref.value.JStr?) {
      return maybeRef;
    }
    var s := ref.value.s;
    if !StartsWith(s, "#/") {
      return maybeRef;
    }
    var parts := Split(s[2..], '/');
    var node := doc;
    for i := 0 to |parts|
      invariant Walk(doc, parts) == Walk(node, parts[i..])
    {
      assert parts[i..][0] == parts[i] && parts[i..][1..] == parts[i + 1..];
      var child := Get(node, parts[i]);
      if child.None? {
        return maybeRef;
      }
      node := child.value;
    }
    assert parts[|parts|..] == [];
    return node;
  }

  /**
   * A pointer written from a path of keys (none holding `/`) resolves to the
   * node at the end of that path.
   */
  lemma PointerRoundTrip(doc: Json, parts: seq<string>, target: Json)
    requires |parts| >= 1
    requires forall k :: 0 <= k < |parts| ==> '/' !in parts[k]
    requires Walk(doc, parts) == Some(target)
    ensures Resolved(doc, JObj([("$ref", JStr("#/" + JoinWith(parts, '/')))])) == target
  {
    var ref := "#/" + JoinWith(parts, '/');
    assert StartsWith(ref, "#/");
    assert ref[2..] == JoinWith(parts, '/');
    SplitJoin(parts, '/');
  }

  /**
   * `resolve_schema(schema, depth)`: applies `resolve_ref` until a hop changes
   * nothing or the depth passes 8. Python's identity test `resolved is schema`
   * is value equality here.
   */
  function ResolveSchema(doc: Json, schema: Json, depth: nat): Json
    decreases if depth > 8 then 0 else 9 - depth
  {
    if depth > 8 then schema
    else
      var resolved := Resolved(doc, schema);
      if resolved == schema then schema else ResolveSchema(doc, resolved, depth + 1)
  }

  /** `k` successive `resolve_ref` hops. */
  function Hops(doc: Json, schema: Json, k: nat): Json
    decreases k
  {
    if k == 0 then schema else Hops(doc, Resolved(doc, schema), k - 1)
  }

  predicate IsFixpoint(doc: Json, node: Json) {
    Resolved(doc, node) == node
  }

  /**
   * `k` hops are where resolution from `depth` stops: none of the first `k`
   * nodes is left unchanged by a hop, and unless the bound `9 - depth` was
   * reached the `k`-th node is.
   */
  predicate StopsAfter(doc: Json, schema: Json, depth: nat, k: nat) {
    && k <= 9 - depth
    && (forall j :: 0 <= j < k ==> !IsFixpoint(doc, Hops(doc, schema, j)))
    && (k < 9 - depth ==> IsFixpoint(doc, Hops(doc, schema, k)))
  }

  /**
   * Schema resolution from `depth` makes at most `9 - depth` hops; it stops
   * at the first node a hop leaves unchanged, and anywhere else only because
   * the bound was reached.
   */
  lemma {:induction false} ResolveSchemaBounded(doc: Json, schema: Json, depth: nat)
    requires depth <= 9
    ensures exists k :: StopsAfter(doc, schema, depth, k) && ResolveSchema(doc, schema, depth) == Hops(doc, schema, k)
    decreases 9 - depth
  {
    if depth > 8 {
      assert StopsAfter(doc, schema, depth, 0) && ResolveSchema(doc, schema, depth) == Hops(doc, schema, 0);
    } else if Resolved(doc, schema) == schema {
      assert StopsAfter(doc, schema, depth, 0) && ResolveSchema(doc, schema, depth) == Hops(doc, schema, 0);
    } else {
      var next := Resolved(doc, schema);
      ResolveSchemaBounded(doc, next, depth + 1);
      var k: nat :| StopsAfter(doc, next, depth + 1, k) && ResolveSchema(doc, next, depth + 1) == Hops(doc, next, k);
      assert Hops(doc, schema, k + 1) == Hops(doc, next, k);
      forall j | 0 <= j < k + 1 ensures !IsFixpoint(doc, Hops(doc, schema, j)) {
        if j > 0 { assert Hops(doc, schema, j) == Hops(doc, next, j - 1); }
      }
      assert StopsAfter(doc, schema, depth, k + 1);
    }
  }
}
