/**
 * `dispatch_domain_action`: the ordered validation chain between a caller's
 * request and the API client. Each guard either answers with an error
 * envelope or lets the request through to the next one; a request that
 * passes them all is handed to the client, which is what `Delegate` stands
 * for.
 */
module Dispatcher {
  import opened Wrappers
  import opened Text
  import opened Json
  import opened Models
  import opened OperationRegistry

  /** The keyword arguments of a dispatch; an omitted mapping is None. */
  datatype DispatchRequest = DispatchRequest(
    domain: string,
    action: string,
    pathParams: Option<map<string, Json>>,
    query: Option<map<string, Json>>,
    body: Json,
    headersOverride: Option<map<string, string>>)

  datatype DispatchResult =
    | Respond(envelope: ResponseEnvelope)
    | Delegate(domain: string, operation: OperationMeta, invocation: InvocationEnvelope)

  /** Python's `m or {}` for an optional mapping. */
  function OrEmpty<K, V>(m: Option<map<K, V>>): map<K, V> {
    if m.Some? then m.value else map[]
  }

  /** The invocation envelope built from the request. */
  function InvocationOf(req: DispatchRequest): InvocationEnvelope {
    InvocationEnvelope(req.action, OrEmpty(req.pathParams), OrEmpty(req.query), req.body, OrEmpty(req.headersOverride))
  }

  /** The required path parameters the caller did not give, sorted. */
  function MissingPath(op: OperationMeta, inv: InvocationEnvelope): (r: seq<string>)
    ensures ListsSorted(r, op.requiredPathParams - inv.pathParams.Keys)
  {
    SortedOfSet(op.requiredPathParams - inv.pathParams.Keys)
  }

  /** The required query parameters the caller did not give, sorted. */
  function MissingQuery(op: OperationMeta, inv: InvocationEnvelope): (r: seq<string>)
    ensures ListsSorted(r, op.requiredQueryParams - inv.query.Keys)
  {
    SortedOfSet(op.requiredQueryParams - inv.query.Keys)
  }

  /** The parameter guard fails: a required parameter is absent, or a required body is None. */
  predicate ParamsInvalid(op: OperationMeta, inv: InvocationEnvelope) {
    MissingPath(op, inv) != [] || MissingQuery(op, inv) != [] || (op.bodyRequired && inv.body == JNull)
  }

  /** The value of a header, with a missing header as "". */
  function HeaderOr(headers: map<string, string>, name: string): string {
    if name in headers then headers[name] else ""
  }

  /** `headers.get("Content-Type") or headers.get("content-type")`, with a missing header as "". */
  function ProvidedContentType(headers: map<string, string>): (r: string)
    ensures "Content-Type" in headers && headers["Content-Type"] != "" ==> r == headers["Content-Type"]
    ensures r != "" && r != HeaderOr(headers, "Content-Type") ==> "content-type" in headers && r == headers["content-type"]
    ensures r == "" <==> HeaderOr(headers, "Content-Type") == "" && HeaderOr(headers, "content-type") == ""
  {
    var upper := if "Content-Type" in headers then headers["Content-Type"] else "";
    if upper != "" then upper
    else if "content-type" in headers then headers["content-type"] else ""
  }

  /** The content-type guard fails: the operation lists media types and a non-empty other one was given. */
  predicate ContentTypeRejected(op: OperationMeta, inv: InvocationEnvelope) {
    && op.requestMediaTypes != []
    && ProvidedContentType(inv.headersOverride) != ""
    && ProvidedContentType(inv.headersOverride) !in op.requestMediaTypes
  }

  /** The body is checked against the schema hints only when it is present and there are types. */
  predicate BodyChecked(op: OperationMeta, inv: InvocationEnvelope) {
    inv.body != JNull && op.bodySchemaTypes != {}
  }

  /** The object guard fails: an object is expected but the body is no mapping. */
  predicate NotAnObject(op: OperationMeta, inv: InvocationEnvelope) {
    BodyChecked(op, inv) && "object" in op.bodySchemaTypes && !inv.body.JObj?
  }

  /** The keys of a mapping body. */
  function BodyKeys(body: Json): set<string> {
    if body.JObj? then set k | 0 <= k < |body.fields| :: body.fields[k].0 else {}
  }

  /** The required fields a mapping body lacks, sorted. */
  function MissingBodyFields(op: OperationMeta, inv: InvocationEnvelope): (r: seq<string>)
    ensures ListsSorted(r, op.bodyRequiredFields - BodyKeys(inv.body))
  {
    SortedOfSet(op.bodyRequiredFields - BodyKeys(inv.body))
  }

  /** The required-fields guard fails: a checked mapping body lacks a required field. */
  predicate FieldsMissing(op: OperationMeta, inv: InvocationEnvelope) {
    && BodyChecked(op, inv) && inv.body.JObj? && op.bodyRequiredFields != {}
    && MissingBodyFields(op, inv) != []
  }

  /** Every guard passes. */
  predicate Accepted(op: OperationMeta, inv: InvocationEnvelope) {
    !ParamsInvalid(op, inv) && !ContentTypeRejected(op, inv) && !NotAnObject(op, inv) && !FieldsMissing(op, inv)
  }

  function UnknownActionError(domain: string, action: string): Json {
    JObj([
      ("message", JStr("Unknown action '" + action + "' for domain '" + domain + "'.")),
      ("suggestion", JStr("Call list_actions(domain) for valid actions."))])
  }

  function ValidationError(op: OperationMeta, inv: InvocationEnvelope): Json {
    JObj([
      ("message", JStr("Validation failed for invocation envelope.")),
      ("missing_path_params", StrList(MissingPath(op, inv))),
      ("missing_query_params", StrList(MissingQuery(op, inv))),
      ("body_required", JBool(op.bodyRequired))])
  }

  function ContentTypeError(op: OperationMeta, inv: InvocationEnvelope): Json {
    JObj([
      ("message", JStr("Unsupported Content-Type for this action.")),
      ("allowed", StrList(op.requestMediaTypes)),
      ("provided", JStr(ProvidedContentType(inv.headersOverride)))])
  }

  function ExpectedObjectError(op: OperationMeta): Json {
    JObj([
      ("message", JStr("Malformed body payload: expected object.")),
      ("expected_types", StrList(SortedOfSet(op.bodySchemaTypes)))])
  }

  function MissingFieldsError(op: OperationMeta, inv: InvocationEnvelope): Json {
    JObj([
      ("message", JStr("Malformed body payload: missing required fields.")),
      ("missing_body_fields", StrList(MissingBodyFields(op, inv)))])
  }

  /** The error envelope a guard answers with, echoing the operation's method and path. */
  function Reject(req: DispatchRequest, op: OperationMeta, status: int, error: Json): (r: DispatchResult)
    requires error.JObj?
    ensures r.Respond? && IsError(r.envelope) && r.envelope.data == JNull && r.envelope.error == error
    ensures r.envelope.status == status && r.envelope.domain == req.domain && r.envelope.action == req.action
    ensures r.envelope.httpMethod == op.httpMethod && r.envelope.path == op.path
  {
    Respond(ErrorEnvelope(status, req.domain, req.action, op.httpMethod, op.path, error))
  }

  /**
   * The guards after the lookup, in order, for a known operation: the first
   * that fails answers with 400 or 415; when none fails the request goes on.
   */
  function Validate(req: DispatchRequest, op: OperationMeta): (r: DispatchResult)
    ensures r.Delegate? <==> Accepted(op, InvocationOf(req))
    ensures r.Delegate? ==> r == Delegate(req.domain, op, InvocationOf(req))
    ensures r.Respond? ==>
      && IsError(r.envelope) && r.envelope.data == JNull && r.envelope.status in {400, 415}
      && r.envelope.domain == req.domain && r.envelope.action == req.action
      && r.envelope.httpMethod == op.httpMethod && r.envelope.path == op.path
  {
    var inv := InvocationOf(req);
    if ParamsInvalid(op, inv) then Reject(req, op, 400, ValidationError(op, inv))
    else if ContentTypeRejected(op, inv) then Reject(req, op, 415, ContentTypeError(op, inv))
    else if NotAnObject(op, inv) then Reject(req, op, 400, ExpectedObjectError(op))
    else if FieldsMissing(op, inv) then Reject(req, op, 400, MissingFieldsError(op, inv))
    else Delegate(req.domain, op, inv)
  }

  /** The 404 answer for an unknown (domain, action): no method, no path, and a suggestion. */
  function UnknownAction(req: DispatchRequest): (r: ResponseEnvelope)
    ensures r.status == 404 && r.httpMethod == "N/A" && r.path == "N/A" && IsError(r) && r.data == JNull
    ensures r.domain == req.domain && r.action == req.action
    ensures HasKey(r.error, "suggestion")
  {
    var error := UnknownActionError(req.domain, req.action);
    assert error.fields[0].0 != error.fields[1].0 by { assert error.fields[0].0[0] != error.fields[1].0[0]; }
    LookupAt(error.fields, 1);
    ErrorEnvelope(404, req.domain, req.action, "N/A", "N/A", error)
  }

  /**
   * `dispatch_domain_action`: an unknown (domain, action) is a 404 that
   * names no method or path; a known one goes through the guards, and
   * reaches the client exactly when it passes them all.
   */
  function Dispatch(reg: Registry, req: DispatchRequest): (r: DispatchResult)
    ensures GetOperation(reg, req.domain, req.action).None? ==> r == Respond(UnknownAction(req))
    ensures r.Delegate? <==>
      GetOperation(reg, req.domain, req.action).Some? && Accepted(GetOperation(reg, req.domain, req.action).value, InvocationOf(req))
    ensures r.Delegate? ==>
      && r.domain == req.domain && r.invocation == InvocationOf(req)
      && r.operation == reg.domains[req.domain][req.action]
    ensures r.Respond? ==>
      && IsError(r.envelope) && r.envelope.data == JNull
      && r.envelope.status in {400, 404, 415}
      && r.envelope.domain == req.domain && r.envelope.action == req.action
  {
    match GetOperation(reg, req.domain, req.action)
    case None => Respond(UnknownAction(req))
    case Some(op) => Validate(req, op)
  }

  /**
   * The guards take effect in their order: each one that fails answers with
   * its own status and error, provided every earlier one passed.
   */
  lemma FirstFailureWins(reg: Registry, req: DispatchRequest, op: OperationMeta)
    requires GetOperation(reg, req.domain, req.action) == Some(op)
    ensures var inv := InvocationOf(req);
      ParamsInvalid(op, inv) ==>
        Dispatch(reg, req).envelope.status == 400 && Dispatch(reg, req).envelope.error == ValidationError(op, inv)
    ensures var inv := InvocationOf(req);
      !ParamsInvalid(op, inv) && ContentTypeRejected(op, inv) ==>
        Dispatch(reg, req).envelope.status == 415 && Dispatch(reg, req).envelope.error == ContentTypeError(op, inv)
    ensures var inv := InvocationOf(req);
      !ParamsInvalid(op, inv) && !ContentTypeRejected(op, inv) && NotAnObject(op, inv) ==>
        Dispatch(reg, req).envelope.status == 400 && Dispatch(reg, req).envelope.error == ExpectedObjectError(op)
    ensures var inv := InvocationOf(req);
      !ParamsInvalid(op, inv) && !ContentTypeRejected(op, inv) && !NotAnObject(op, inv) && FieldsMissing(op, inv) ==>
        Dispatch(reg, req).envelope.status == 400 && Dispatch(reg, req).envelope.error == MissingFieldsError(op, inv)
  {
  }

  /** A 415 arises only from a rejected content type, after the parameters passed. */
  lemma UnsupportedMediaTypeOnlyWhen(reg: Registry, req: DispatchRequest)
    requires Dispatch(reg, req).Respond? && Dispatch(reg, req).envelope.status == 415
    ensures GetOperation(reg, req.domain, req.action).Some?
    ensures var op := GetOperation(reg, req.domain, req.action).value;
      !ParamsInvalid(op, InvocationOf(req)) && ContentTypeRejected(op, InvocationOf(req))
  {
  }

  /** A 404 arises exactly for an unknown (domain, action). */
  lemma NotFoundExactly(reg: Registry, req: DispatchRequest)
    ensures (Dispatch(reg, req).Respond? && Dispatch(reg, req).envelope.status == 404)
        <==> GetOperation(reg, req.domain, req.action).None?
  {
  }
}
