/**
 * The two envelope types of the dispatch contract: the normalized caller
 * request, and the one response shape every dispatch path returns.
 */
module Models {
  import opened Wrappers
  import opened Json

  /**
   * One caller request. An absent body (Python `None`) is `JNull`; a missing
   * parameter or header mapping is the empty map, which is what the
   * dispatcher's `x or {}` turns `None` into.
   */
  datatype InvocationEnvelope = InvocationEnvelope(
    action: string,
    pathParams: map<string, Json>,
    query: map<string, Json>,
    body: Json,
    headersOverride: map<string, string>)

  /**
   * The uniform response. Status 0 stands for a transport failure that never
   * produced an HTTP status; `data` and `error` are `JNull` when absent.
   */
  datatype ResponseEnvelope = ResponseEnvelope(
    status: int,
    domain: string,
    action: string,
    httpMethod: string,
    path: string,
    data: Json,
    error: Json)

  /** Callers tell a failure from a success only by whether `error` is populated. */
  predicate IsError(e: ResponseEnvelope) {
    e.error != JNull
  }

  /** `success_envelope`: the payload goes to `data`, `error` stays empty. */
  function SuccessEnvelope(status: int, domain: string, action: string, httpMethod: string,
                           path: string, data: Json): (r: ResponseEnvelope)
    ensures r.data == data && r.error == JNull && !IsError(r)
    ensures r.status == status && r.domain == domain && r.action == action
    ensures r.httpMethod == httpMethod && r.path == path
  {
    ResponseEnvelope(status, domain, action, httpMethod, path, data, JNull)
  }

  /** `error_envelope`: the error goes to `error`, `data` stays empty. */
  function ErrorEnvelope(status: int, domain: string, action: string, httpMethod: string,
                         path: string, error: Json): (r: ResponseEnvelope)
    ensures r.data == JNull && r.error == error
    ensures error != JNull ==> IsError(r)
    ensures r.status == status && r.domain == domain && r.action == action
    ensures r.httpMethod == httpMethod && r.path == path
  {
    ResponseEnvelope(status, domain, action, httpMethod, path, JNull, error)
  }

  const EnvelopeKeys: seq<string> := ["status", "domain", "action", "method", "path", "data", "error"]

  /** `ResponseEnvelope.to_dict` (`dataclasses.asdict`): the seven fields in declaration order. */
  function ToDict(e: ResponseEnvelope): (j: Json)
    ensures j.JObj? && Keys(j.fields) == EnvelopeKeys
  {
    JObj([("status", JNum(e.status)), ("domain", JStr(e.domain)), ("action", JStr(e.action)),
          ("method", JStr(e.httpMethod)), ("path", JStr(e.path)), ("data", e.data), ("error", e.error)])
  }

  /** Reads a flat response dictionary back; None when a field is missing or ill-typed. */
  function FromDict(j: Json): Option<ResponseEnvelope> {
    match (Get(j, "status"), Get(j, "domain"), Get(j, "action"), Get(j, "method"), Get(j, "path"),
           Get(j, "data"), Get(j, "error"))
    case (Some(JNum(status)), Some(JStr(domain)), Some(JStr(action)), Some(JStr(httpMethod)),
          Some(JStr(path)), Some(data), Some(error)) =>
      Some(ResponseEnvelope(status, domain, action, httpMethod, path, data, error))
    case _ => None
  }

  /** The flat dictionary loses nothing: every field can be read back from it. */
  lemma DictRoundTrip(e: ResponseEnvelope)
    ensures FromDict(ToDict(e)) == Some(e)
  {
    var fs := ToDict(e).fields;
    assert Get(ToDict(e), "status") == Some(JNum(e.status));
    assert Get(ToDict(e), "domain") == Some(JStr(e.domain)) by { LookupAt(fs, 1); }
    assert Get(ToDict(e), "action") == Some(JStr(e.action)) by { LookupAt(fs, 2); }
    assert Get(ToDict(e), "method") == Some(JStr(e.httpMethod)) by { LookupAt(fs, 3); }
    assert Get(ToDict(e), "path") == Some(JStr(e.path)) by { LookupAt(fs, 4); }
    assert Get(ToDict(e), "data") == Some(e.data) by { LookupAt(fs, 5); }
    assert Get(ToDict(e), "error") == Some(e.error) by { LookupAt(fs, 6); }
  }

  /** With distinct keys before it, the member at `i` is what a lookup of its key finds. */
  lemma {:induction false} LookupAt(fs: seq<(string, Json)>, i: nat)
    requires i < |fs|
    requires forall k :: 0 <= k < i ==> fs[k].0 != fs[i].0
    ensures Lookup(fs, fs[i].0) == Some(fs[i].1)
  {
    if i > 0 {
      LookupAt(fs[1..], i - 1);
    }
  }
}
