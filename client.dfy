/**
 * `MirthApiClient`: the session and retry state machine in front of the
 * upstream API. The HTTP transport is a scripted oracle: the n-th request
 * the client ever sends (a login or a target request) receives
 * `script(n)`. Decoding a non-empty response body is an uninterpreted
 * function supplied with the oracle.
 */
module Client {
  import opened Wrappers
  import opened Text
  import opened Json
  import opened Models
  import opened OperationRegistry

  // ---------------------------------------------------------------------------
  // Path templates: `str.format(**path_params)` for simple `{name}` fields
  // ---------------------------------------------------------------------------

  /** What formatting a template gives: the path, the first missing field, or a template error. */
  datatype Formatting = Formatted(path: string) | MissingParam(name: string) | MalformedTemplate

  predicate IsDigit(c: char) { '0' <= c <= '9' }

  /**
   * A field name that `str.format` looks up as a keyword argument: non-empty,
   * not an integer (those are positional), and free of attribute, index,
   * conversion and format-spec syntax.
   */
  predicate PlainName(n: string) {
    n != "" && (exists k :: 0 <= k < |n| && !IsDigit(n[k]))
    && forall k :: 0 <= k < |n| ==> n[k] !in ".[!:{}"
  }

  /** Puts `s` in front of a successful formatting; failures pass through. */
  function Prefix(s: string, f: Formatting): (r: Formatting)
    ensures f.Formatted? ==> r == Formatted(s + f.path)
    ensures !f.Formatted? ==> r == f
  {
    if f.Formatted? then Formatted(s + f.path) else f
  }

  /**
   * The template is read left to right: `{{` and `}}` are literal braces,
   * `{name}` is replaced by `str` of the parameter, a lone brace or a field
   * that is not plain is a template error, and the first field whose name
   * is not among the parameters stops the formatting.
   */
  function FormatPath(t: string, params: map<string, Json>): Formatting
    decreases |t|
  {
    if t == "" then Formatted("")
    else if t[0] == '{' && |t| > 1 && t[1] == '{' then Prefix("{", FormatPath(t[2..], params))
    else if t[0] == '}' then
      if |t| > 1 && t[1] == '}' then Prefix("}", FormatPath(t[2..], params)) else MalformedTemplate
    else if t[0] == '{' then
      var close := IndexOf(t, '}');
      if close == |t| then MalformedTemplate
      else if !PlainName(t[1..close]) then MalformedTemplate
      else if t[1..close] !in params then MissingParam(t[1..close])
      else Prefix(Str(params[t[1..close]]), FormatPath(t[close + 1..], params))
    else Prefix([t[0]], FormatPath(t[1..], params))
  }

  /** A path without braces formats to itself, whatever the parameters. */
  lemma {:induction false} FormatPlainPath(t: string, params: map<string, Json>)
    requires '{' !in t && '}' !in t
    ensures FormatPath(t, params) == Formatted(t)
    decreases |t|
  {
    if t != "" {
      assert t[0] != '{' && t[0] != '}';
      var rest := t[1..];
      assert '{' !in rest && '}' !in rest by {
        assert forall k :: 0 <= k < |rest| ==> rest[k] == t[k + 1];
      }
      FormatPlainPath(rest, params);
      assert [t[0]] + rest == t;
    }
  }

  /** A parsed template: literal characters and named fields. */
  datatype Piece = Literal(c: char) | Field(name: string)

  /** The reference meaning of a parsed template under the given parameters. */
  function Render(ps: seq<Piece>, params: map<string, Json>): Formatting {
    if ps == [] then Formatted("")
    else match ps[0]
      case Literal(c) => Prefix([c], Render(ps[1..], params))
      case Field(n) => if n in params then Prefix(Str(params[n]), Render(ps[1..], params)) else MissingParam(n)
  }

  /** The template text of one piece, with literal braces doubled. */
  function Unparse(p: Piece): string {
    match p
    case Literal(c) => if c == '{' then "{{" else if c == '}' then "}}" else [c]
    case Field(n) => "{" + n + "}"
  }

  function Template(ps: seq<Piece>): string {
    if ps == [] then "" else Unparse(ps[0]) + Template(ps[1..])
  }

  predicate PlainFields(ps: seq<Piece>) {
    forall k :: 0 <= k < |ps| && ps[k].Field? ==> PlainName(ps[k].name)
  }

  /** A literal piece formats to its character, then the rest. */
  lemma LiteralStep(c: char, rest: string, params: map<string, Json>)
    ensures FormatPath(Unparse(Literal(c)) + rest, params) == Prefix([c], FormatPath(rest, params))
  {
    var t := Unparse(Literal(c)) + rest;
    if c == '{' || c == '}' {
      assert t[2..] == rest;
    } else {
      assert t[1..] == rest;
    }
  }

  /** The closing brace of a plain field is the first one after its opening brace. */
  lemma FieldClose(n: string, rest: string)
    requires PlainName(n)
    ensures IndexOf("{" + n + "}" + rest, '}') == |n| + 1
  {
    var t := "{" + n + "}" + rest;
    assert forall k :: 0 <= k < |n| ==> t[k + 1] == n[k] && n[k] != '}';
    assert t[|n| + 1] == '}';
  }

  /** How `FormatPath` reads a plain field at the front: its name, and the text after its closing brace. */
  lemma FieldParts(n: string, rest: string)
    requires PlainName(n)
    ensures var t := "{" + n + "}" + rest;
            t[0] == '{' && t[1] != '{' && IndexOf(t, '}') == |n| + 1
            && t[1..|n| + 1] == n && t[|n| + 2..] == rest
  {
    FieldClose(n, rest);
    var t := "{" + n + "}" + rest;
    assert t[1..|n| + 1] == n;
    assert t[|n| + 2..] == rest;
  }

  /** `FormatPath` on a template that opens with a plain field closed at `close`. */
  lemma FieldFront(t: string, close: nat, params: map<string, Json>)
    requires 1 < close < |t| && t[0] == '{' && t[1] != '{' && IndexOf(t, '}') == close
    requires PlainName(t[1..close])
    ensures t[1..close] in params ==>
              FormatPath(t, params) == Prefix(Str(params[t[1..close]]), FormatPath(t[close + 1..], params))
    ensures t[1..close] !in params ==> FormatPath(t, params) == MissingParam(t[1..close])
  {
  }

  /** A plain field formats to its parameter, then the rest. */
  lemma FieldPresent(n: string, rest: string, params: map<string, Json>)
    requires PlainName(n) && n in params
    ensures FormatPath(Unparse(Field(n)) + rest, params) == Prefix(Str(params[n]), FormatPath(rest, params))
  {
    var t := Unparse(Field(n)) + rest;
    FieldParts(n, rest);
    assert t == "{" + n + "}" + rest;
    FieldFront(t, |n| + 1, params);
  }

  /** A plain field missing from the parameters stops the formatting there. */
  lemma FieldMissing(n: string, rest: string, params: map<string, Json>)
    requires PlainName(n) && n !in params
    ensures FormatPath(Unparse(Field(n)) + rest, params) == MissingParam(n)
  {
    var t := Unparse(Field(n)) + rest;
    FieldParts(n, rest);
    assert t == "{" + n + "}" + rest;
    FieldFront(t, |n| + 1, params);
  }

  /** Formatting the text of a parsed template gives its reference meaning. */
  lemma {:induction false} FormatTemplate(ps: seq<Piece>, params: map<string, Json>)
    requires PlainFields(ps)
    ensures FormatPath(Template(ps), params) == Render(ps, params)
  {
    if ps != [] {
      FormatTemplate(ps[1..], params);
      if ps[0].Literal? {
        LiteralStep(ps[0].c, Template(ps[1..]), params);
      } else if ps[0].name in params {
        FieldPresent(ps[0].name, Template(ps[1..]), params);
      } else {
        FieldMissing(ps[0].name, Template(ps[1..]), params);
      }
    }
  }

  // ---------------------------------------------------------------------------
  // The transport oracle and the requests the client sends
  // ---------------------------------------------------------------------------

  /** What one HTTP exchange gives: a response, or the exception httpx raises. */
  datatype Outcome =
    | Answered(status: int, content: string)
    | TimedOut(message: string)
    | TransportFailed(message: string)

  datatype Request =
    | LoginRequest(username: string, password: string)
    | TargetRequest(httpMethod: string, path: string, query: map<string, Json>, body: Json,
                    headers: map<string, string>)

  /** The configured credentials, the scripted transport and the body decoder. */
  datatype Upstream = Upstream(
    username: string,
    password: string,
    script: nat -> Outcome,
    decode: string -> Json)

  /** An exception that leaves `execute_operation` instead of an envelope. */
  datatype Escape = TransportEscape(outcome: Outcome) | TemplateEscape

  datatype ExecResult = Returned(envelope: ResponseEnvelope) | Raised(exception: Escape)

  /** How `_login` ends: authenticated, refused with a message, or a transport exception. */
  datatype LoginResult = LoggedIn | LoginRefused(message: string) | LoginFailed(outcome: Outcome)

  /** `_login` on the outcome of its POST: a status of 400 or more is a refusal. */
  function LoginOf(o: Outcome): (r: LoginResult)
    ensures r.LoggedIn? <==> o.Answered? && o.status < 400
    ensures r.LoginRefused? <==> o.Answered? && o.status >= 400
    ensures r.LoginFailed? ==> r.outcome == o
  {
    match o
    case Answered(status, _) =>
      if status >= 400 then LoginRefused("Login failed with status " + IntToString(status)) else LoggedIn
    case _ => LoginFailed(o)
  }

  /** `_decode_response_content`: an empty body is None, any other is decoded. */
  function Payload(decode: string -> Json, content: string): Json {
    if content == "" then JNull else decode(content)
  }

  predicate IsQuote(c: char) { c == '\'' || c == '"' }

  /**
   * The validation message `_request` raises for a missing field name: `str`
   * of a `KeyError` is the `repr` of what it carries.
   */
  function MissingMessage(name: string): string {
    QuoteRepr("Missing path param: " + Trim(QuoteRepr(name), IsQuote))
  }

  /** For a name with no quote at either end, the message quotes the name once, unquoted inside. */
  lemma MissingMessagePlain(name: string)
    requires name != "" ==> !IsQuote(name[0]) && !IsQuote(name[|name| - 1])
    ensures MissingMessage(name) == QuoteRepr("Missing path param: " + name)
  {
    var q := QuoteRepr(name);
    QuoteReprShape(name);
    var p := q[..1];
    assert q == p + name + q[|q| - 1..];
    TrimAround(p, name, q[|q| - 1..], IsQuote);
  }

  function ErrorInfo(message: string, kind: string): Json {
    JObj([("message", JStr(message)), ("type", JStr(kind))])
  }

  const UpstreamErrorMessage := "Upstream API error"

  function Fail(domain: string, op: OperationMeta, status: int, error: Json): ExecResult {
    Returned(ErrorEnvelope(status, domain, op.action, op.httpMethod, op.path, error))
  }

  /** The final status mapping: 2xx is a success with the payload, anything else an upstream error. */
  function Mapped(domain: string, op: OperationMeta, status: int, payload: Json): (r: ExecResult)
    ensures r.Returned? && r.envelope.status == status
    ensures !IsError(r.envelope) <==> 200 <= status < 300
    ensures 200 <= status < 300 ==> r.envelope.data == payload
    ensures !(200 <= status < 300) ==>
              r.envelope.error == JObj([("message", JStr(UpstreamErrorMessage)), ("payload", payload)])
  {
    if 200 <= status < 300 then Returned(SuccessEnvelope(status, domain, op.action, op.httpMethod, op.path, payload))
    else Fail(domain, op, status, JObj([("message", JStr(UpstreamErrorMessage)), ("payload", payload)]))
  }

  function TargetOf(op: OperationMeta, inv: InvocationEnvelope, path: string): Request {
    TargetRequest(op.httpMethod, path, inv.query, inv.body, inv.headersOverride)
  }

  // ---------------------------------------------------------------------------
  // `execute_operation` as a function of the session state
  // ---------------------------------------------------------------------------

  /** What one call gives: the result, the new `authenticated` flag and the requests sent. */
  datatype Run = Run(result: ExecResult, authenticated: bool, requests: seq<Request>)

  function Then(sent: seq<Request>, run: Run): Run {
    Run(run.result, run.authenticated, sent + run.requests)
  }

  /** How one pass of the loop ends: the call is over, or it goes round again after these requests. */
  datatype Step = Finished(run: Run) | Again(requests: seq<Request>)

  /**
   * One pass of the `while True` loop, with request number `n` next and the
   * session authenticated: format the path, send the target request, and on
   * the first 401 or 403 log in again and ask for another pass.
   */
  function Round(u: Upstream, n: nat, retried: bool, domain: string, op: OperationMeta,
                 inv: InvocationEnvelope): (s: Step)
    ensures s.Again? ==> !retried && |s.requests| == 2
  {
    match FormatPath(op.path, inv.pathParams)
    case MalformedTemplate => Finished(Run(Raised(TemplateEscape), true, []))
    case MissingParam(name) =>
      Finished(Run(Fail(domain, op, 400, ErrorInfo(MissingMessage(name), "validation_error")), true, []))
    case Formatted(path) =>
      var target := TargetOf(op, inv, path);
      match u.script(n)
      case TimedOut(m) => Finished(Run(Fail(domain, op, 0, ErrorInfo(m, "timeout")), true, [target]))
      case TransportFailed(m) => Finished(Run(Fail(domain, op, 0, ErrorInfo(m, "transport_error")), true, [target]))
      case Answered(status, content) =>
        if (status == 401 || status == 403) && !retried then
          var login := LoginRequest(u.username, u.password);
          match LoginOf(u.script(n + 1))
          case LoginFailed(o) => Finished(Run(Raised(TransportEscape(o)), false, [target, login]))
          case LoginRefused(msg) =>
            Finished(Run(Fail(domain, op, status, ErrorInfo(msg, "auth_error")), false, [target, login]))
          case LoggedIn => Again([target, login])
        else Finished(Run(Mapped(domain, op, status, Payload(u.decode, content)), true, [target]))
  }

  /**
   * The loop from request number `n` on: a first pass, and when that asks to
   * go round again, a last pass with the retry spent, which always finishes.
   */
  function Attempt(u: Upstream, n: nat, domain: string, op: OperationMeta, inv: InvocationEnvelope): Run {
    match Round(u, n, false, domain, op, inv)
    case Finished(run) => run
    case Again(rs) => Then(rs, Round(u, n + 2, true, domain, op, inv).run)
  }

  /** A first pass that ends the call is the whole loop. */
  lemma FirstPassEnds(u: Upstream, n: nat, domain: string, op: OperationMeta, inv: InvocationEnvelope)
    requires Round(u, n, false, domain, op, inv).Finished?
    ensures Attempt(u, n, domain, op, inv) == Round(u, n, false, domain, op, inv).run
  {
  }

  /** After a first pass that goes round again, the retried pass ends the loop. */
  lemma SecondPassEnds(u: Upstream, n: nat, rs: seq<Request>, domain: string, op: OperationMeta,
                       inv: InvocationEnvelope)
    requires Round(u, n, false, domain, op, inv) == Again(rs)
    ensures Attempt(u, n, domain, op, inv) == Then(rs, Round(u, n + |rs|, true, domain, op, inv).run)
  {
  }

  /** `execute_operation`, entered with the flag `auth` and request number `n` next. */
  function Execute(u: Upstream, auth: bool, n: nat, domain: string, op: OperationMeta,
                   inv: InvocationEnvelope): Run
  {
    if auth then Attempt(u, n, domain, op, inv)
    else
      var login := LoginRequest(u.username, u.password);
      match LoginOf(u.script(n))
      case LoginFailed(o) => Run(Raised(TransportEscape(o)), false, [login])
      case LoginRefused(msg) => Run(Fail(domain, op, 401, ErrorInfo(msg, "auth_error")), false, [login])
      case LoggedIn => Then([login], Attempt(u, n + 1, domain, op, inv))
  }

  // ---------------------------------------------------------------------------
  // What one call promises
  // ---------------------------------------------------------------------------

  function Logins(rs: seq<Request>): nat {
    if rs == [] then 0 else (if rs[0].LoginRequest? then 1 else 0) + Logins(rs[1..])
  }

  function Targets(rs: seq<Request>): nat {
    if rs == [] then 0 else (if rs[0].TargetRequest? then 1 else 0) + Targets(rs[1..])
  }

  lemma {:induction false} CountsAppend(a: seq<Request>, b: seq<Request>)
    ensures Logins(a + b) == Logins(a) + Logins(b) && Targets(a + b) == Targets(a) + Targets(b)
  {
    if a != [] {
      assert (a + b)[1..] == a[1..] + b;
      CountsAppend(a[1..], b);
    } else {
      assert a + b == b;
    }
  }

  function Count(b: bool): nat { if b then 1 else 0 }

  lemma CountsShort(x: Request, y: Request)
    ensures Targets([]) == 0 && Logins([]) == 0
    ensures Targets([x]) == Count(x.TargetRequest?) && Logins([x]) == Count(x.LoginRequest?)
    ensures Targets([x, y]) == Count(x.TargetRequest?) + Count(y.TargetRequest?)
    ensures Logins([x, y]) == Count(x.LoginRequest?) + Count(y.LoginRequest?)
  {
    assert [x][1..] == [];
    assert [y][1..] == [];
    assert [x, y][1..] == [y];
  }

  /** Every envelope names the call's domain and the operation's action, method and path template. */
  predicate Echoes(r: ExecResult, domain: string, op: OperationMeta) {
    r.Returned? ==>
      r.envelope.domain == domain && r.envelope.action == op.action
      && r.envelope.httpMethod == op.httpMethod && r.envelope.path == op.path
  }

  /** An envelope is a success exactly when its status is 2xx. */
  predicate SuccessIff2xx(r: ExecResult) {
    r.Returned? ==> (!IsError(r.envelope) <==> 200 <= r.envelope.status < 300)
  }

  predicate IsAuthError(e: Json) {
    e.JObj? && |e.fields| == 2 && e.fields[1] == ("type", JStr("auth_error"))
  }

  /** The call ended on a login that did not succeed. */
  predicate LoginLost(r: ExecResult) {
    (r.Raised? && r.exception.TransportEscape?) || (r.Returned? && IsAuthError(r.envelope.error))
  }

  /** Every target request carries the formatted path, the query, the body and the header overrides. */
  predicate TargetsFormatted(rs: seq<Request>, op: OperationMeta, inv: InvocationEnvelope) {
    forall k :: 0 <= k < |rs| && rs[k].TargetRequest? ==>
      FormatPath(op.path, inv.pathParams).Formatted?
      && rs[k] == TargetOf(op, inv, FormatPath(op.path, inv.pathParams).path)
  }

  predicate Promised(run: Run, domain: string, op: OperationMeta, inv: InvocationEnvelope) {
    Echoes(run.result, domain, op) && SuccessIff2xx(run.result)
    && (run.authenticated <==> !LoginLost(run.result)) && TargetsFormatted(run.requests, op, inv)
  }

  lemma TargetsFormattedAppend(a: seq<Request>, b: seq<Request>, op: OperationMeta, inv: InvocationEnvelope)
    requires TargetsFormatted(a, op, inv) && TargetsFormatted(b, op, inv)
    ensures TargetsFormatted(a + b, op, inv)
  {
    forall k | 0 <= k < |a + b| && (a + b)[k].TargetRequest?
      ensures FormatPath(op.path, inv.pathParams).Formatted?
              && (a + b)[k] == TargetOf(op, inv, FormatPath(op.path, inv.pathParams).path)
    {
      if k >= |a| {
        assert (a + b)[k] == b[k - |a|];
      }
    }
  }

  /** A pass that ends the call echoes it, and succeeds exactly on 2xx. */
  lemma RoundEchoes(u: Upstream, n: nat, retried: bool, domain: string, op: OperationMeta,
                    inv: InvocationEnvelope)
    ensures var s := Round(u, n, retried, domain, op, inv);
            s.Finished? ==> Echoes(s.run.result, domain, op) && SuccessIff2xx(s.run.result)
  {
  }

  /** A pass that ends the call keeps the session unless a login failed, and sends the formatted request. */
  lemma RoundSession(u: Upstream, n: nat, retried: bool, domain: string, op: OperationMeta,
                     inv: InvocationEnvelope)
    ensures var s := Round(u, n, retried, domain, op, inv);
            s.Finished? ==>
              (s.run.authenticated <==> !LoginLost(s.run.result)) && TargetsFormatted(s.run.requests, op, inv)
  {
  }

  /** A pass that ends the call keeps every promise. */
  lemma RoundPromised(u: Upstream, n: nat, retried: bool, domain: string, op: OperationMeta,
                      inv: InvocationEnvelope)
    ensures var s := Round(u, n, retried, domain, op, inv);
            s.Finished? ==> Promised(s.run, domain, op, inv)
  {
    RoundEchoes(u, n, retried, domain, op, inv);
    RoundSession(u, n, retried, domain, op, inv);
  }

  /** A pass sends at most one target request, and one login only when it asks to go round again or the login fails. */
  lemma RoundCounts(u: Upstream, n: nat, retried: bool, domain: string, op: OperationMeta,
                    inv: InvocationEnvelope)
    ensures var s := Round(u, n, retried, domain, op, inv);
            s.Finished? ==> Targets(s.run.requests) <= 1 && Logins(s.run.requests) <= (if retried then 0 else 1)
    ensures var s := Round(u, n, retried, domain, op, inv);
            s.Again? ==> Targets(s.requests) == 1 && Logins(s.requests) == 1
  {
    var login := LoginRequest(u.username, u.password);
    if FormatPath(op.path, inv.pathParams).Formatted? {
      var path := FormatPath(op.path, inv.pathParams).path;
      CountsShort(TargetOf(op, inv, path), login);
    } else {
      CountsShort(login, login);
    }
  }

  /** Going round again follows the target request and the login. */
  lemma RoundAgain(u: Upstream, n: nat, retried: bool, domain: string, op: OperationMeta,
                   inv: InvocationEnvelope)
    ensures var s := Round(u, n, retried, domain, op, inv);
            s.Again? ==>
              s.requests == [TargetOf(op, inv, FormatPath(op.path, inv.pathParams).path),
                             LoginRequest(u.username, u.password)]
              && FormatPath(op.path, inv.pathParams).Formatted?
  {
  }

  /** The loop keeps every promise, with at most two target requests and one re-login. */
  lemma AttemptPromises(u: Upstream, n: nat, domain: string, op: OperationMeta, inv: InvocationEnvelope)
    ensures var run := Attempt(u, n, domain, op, inv);
            Promised(run, domain, op, inv) && Targets(run.requests) <= 2 && Logins(run.requests) <= 1
  {
    RoundPromised(u, n, false, domain, op, inv);
    RoundCounts(u, n, false, domain, op, inv);
    var s := Round(u, n, false, domain, op, inv);
    if s.Again? {
      var last := Round(u, n + 2, true, domain, op, inv).run;
      RoundPromised(u, n + 2, true, domain, op, inv);
      RoundCounts(u, n + 2, true, domain, op, inv);
      RoundAgain(u, n, false, domain, op, inv);
      assert TargetsFormatted(s.requests, op, inv);
      CountsAppend(s.requests, last.requests);
      TargetsFormattedAppend(s.requests, last.requests, op, inv);
    }
  }

  /**
   * Every call keeps the promises of `Promised`: envelopes echo the call,
   * succeed exactly on 2xx, the session is kept unless a login failed, and
   * target requests carry the formatted path. It sends at most two logins
   * and at most two target requests, and at most one login when it starts
   * authenticated.
   */
  lemma ExecutePromises(u: Upstream, auth: bool, n: nat, domain: string, op: OperationMeta,
                        inv: InvocationEnvelope)
    ensures var run := Execute(u, auth, n, domain, op, inv);
            Promised(run, domain, op, inv)
            && Targets(run.requests) <= 2 && Logins(run.requests) <= 2
            && (auth ==> Logins(run.requests) <= 1)
  {
    AttemptPromises(u, if auth then n else n + 1, domain, op, inv);
    if !auth && LoginOf(u.script(n)).LoggedIn? {
      var login := LoginRequest(u.username, u.password);
      CountsAppend([login], Attempt(u, n + 1, domain, op, inv).requests);
      TargetsFormattedAppend([login], Attempt(u, n + 1, domain, op, inv).requests, op, inv);
    }
  }

  /** The call gets to its target request: it was authenticated, or the entry login succeeded. */
  predicate Reaches(u: Upstream, auth: bool, n: nat) {
    auth || LoginOf(u.script(n)).LoggedIn?
  }

  /** The requests sent before the first target request: the entry login, if any. */
  function Prelude(u: Upstream, auth: bool): seq<Request> {
    if auth then [] else [LoginRequest(u.username, u.password)]
  }

  /** The number of the first target request. */
  function FirstTarget(auth: bool, n: nat): nat {
    if auth then n else n + 1
  }

  /** The call as seen from the first target request on. */
  lemma ReachedAttempt(u: Upstream, auth: bool, n: nat, domain: string, op: OperationMeta,
                       inv: InvocationEnvelope)
    requires Reaches(u, auth, n)
    ensures var run := Execute(u, auth, n, domain, op, inv);
            var rest := Attempt(u, FirstTarget(auth, n), domain, op, inv);
            run.result == rest.result && run.authenticated == rest.authenticated
            && run.requests == Prelude(u, auth) + rest.requests
  {
  }

  /** A refused entry login: 401 with the login's message, and no target request. */
  lemma EntryLoginRefused(u: Upstream, n: nat, domain: string, op: OperationMeta, inv: InvocationEnvelope)
    requires u.script(n).Answered? && u.script(n).status >= 400
    ensures var run := Execute(u, false, n, domain, op, inv);
            run.result == Fail(domain, op, 401, ErrorInfo("Login failed with status " + IntToString(u.script(n).status), "auth_error"))
            && run.requests == [LoginRequest(u.username, u.password)] && !run.authenticated
  {
  }

  /** A transport exception during the entry login leaves the call, with no target request. */
  lemma EntryLoginUnreachable(u: Upstream, n: nat, domain: string, op: OperationMeta, inv: InvocationEnvelope)
    requires !u.script(n).Answered?
    ensures var run := Execute(u, false, n, domain, op, inv);
            run.result == Raised(TransportEscape(u.script(n)))
            && run.requests == [LoginRequest(u.username, u.password)] && !run.authenticated
  {
  }

  /** A field missing from the path parameters: 400 `validation_error`, and no target request. */
  lemma MissingPathParam(u: Upstream, auth: bool, n: nat, domain: string, op: OperationMeta,
                         inv: InvocationEnvelope)
    requires Reaches(u, auth, n) && FormatPath(op.path, inv.pathParams).MissingParam?
    ensures var run := Execute(u, auth, n, domain, op, inv);
            var name := FormatPath(op.path, inv.pathParams).name;
            run.result == Fail(domain, op, 400, ErrorInfo(MissingMessage(name), "validation_error"))
            && run.requests == Prelude(u, auth) && run.authenticated
  {
    ReachedAttempt(u, auth, n, domain, op, inv);
  }

  /** A timeout or transport failure of the target request: status 0, and no retry. */
  lemma TransportFailureNotRetried(u: Upstream, auth: bool, n: nat, domain: string, op: OperationMeta,
                                   inv: InvocationEnvelope)
    requires Reaches(u, auth, n) && FormatPath(op.path, inv.pathParams).Formatted?
    requires !u.script(FirstTarget(auth, n)).Answered?
    ensures var run := Execute(u, auth, n, domain, op, inv);
            var o := u.script(FirstTarget(auth, n));
            run.result == Fail(domain, op, 0, ErrorInfo(o.message, if o.TimedOut? then "timeout" else "transport_error"))
            && run.requests == Prelude(u, auth) + [TargetOf(op, inv, FormatPath(op.path, inv.pathParams).path)]
            && run.authenticated
  {
    ReachedAttempt(u, auth, n, domain, op, inv);
  }

  /** A first answer other than 401 or 403 is mapped by its status, with no retry. */
  lemma AnswerMapped(u: Upstream, auth: bool, n: nat, domain: string, op: OperationMeta,
                     inv: InvocationEnvelope)
    requires Reaches(u, auth, n) && FormatPath(op.path, inv.pathParams).Formatted?
    requires var o := u.script(FirstTarget(auth, n)); o.Answered? && o.status != 401 && o.status != 403
    ensures var run := Execute(u, auth, n, domain, op, inv);
            var o := u.script(FirstTarget(auth, n));
            run.result == Mapped(domain, op, o.status, Payload(u.decode, o.content))
            && run.requests == Prelude(u, auth) + [TargetOf(op, inv, FormatPath(op.path, inv.pathParams).path)]
            && run.authenticated
  {
    ReachedAttempt(u, auth, n, domain, op, inv);
  }

  /** A refused re-login after a 401 or 403 reports that original status as an `auth_error`. */
  lemma ReloginRefused(u: Upstream, auth: bool, n: nat, domain: string, op: OperationMeta,
                       inv: InvocationEnvelope)
    requires Reaches(u, auth, n) && FormatPath(op.path, inv.pathParams).Formatted?
    requires var o := u.script(FirstTarget(auth, n)); o.Answered? && (o.status == 401 || o.status == 403)
    requires LoginOf(u.script(FirstTarget(auth, n) + 1)).LoginRefused?
    ensures var run := Execute(u, auth, n, domain, op, inv);
            var k := FirstTarget(auth, n);
            run.result == Fail(domain, op, u.script(k).status, ErrorInfo(LoginOf(u.script(k + 1)).message, "auth_error"))
            && run.requests == Prelude(u, auth) + [TargetOf(op, inv, FormatPath(op.path, inv.pathParams).path),
                                                   LoginRequest(u.username, u.password)]
            && !run.authenticated
  {
    ReachedAttempt(u, auth, n, domain, op, inv);
  }

  /**
   * After a 401 or 403 and a successful re-login the request is sent once
   * more, and whatever answers it, another 401 or 403 included, is mapped
   * by its status.
   */
  lemma RetriedOnce(u: Upstream, auth: bool, n: nat, domain: string, op: OperationMeta,
                    inv: InvocationEnvelope)
    requires Reaches(u, auth, n) && FormatPath(op.path, inv.pathParams).Formatted?
    requires var o := u.script(FirstTarget(auth, n)); o.Answered? && (o.status == 401 || o.status == 403)
    requires LoginOf(u.script(FirstTarget(auth, n) + 1)).LoggedIn?
    requires u.script(FirstTarget(auth, n) + 2).Answered?
    ensures var run := Execute(u, auth, n, domain, op, inv);
            var o := u.script(FirstTarget(auth, n) + 2);
            var target := TargetOf(op, inv, FormatPath(op.path, inv.pathParams).path);
            run.result == Mapped(domain, op, o.status, Payload(u.decode, o.content))
            && run.requests == Prelude(u, auth) + [target, LoginRequest(u.username, u.password), target]
            && run.authenticated
  {
    ReachedAttempt(u, auth, n, domain, op, inv);
    var k := FirstTarget(auth, n);
    var path := FormatPath(op.path, inv.pathParams).path;
    var target := TargetOf(op, inv, path);
    var login := LoginRequest(u.username, u.password);
    var rest := Attempt(u, k, domain, op, inv);
    assert Round(u, k, false, domain, op, inv) == Again([target, login]);
    assert Round(u, k + 2, true, domain, op, inv).Finished?;
    assert rest.requests == [target, login, target];
  }

  /**
   * The session has expired: the call logs in, is answered 401, logs in
   * again and gets 200 on the second try.
   */
  lemma ExpiredSessionRecovers(u: Upstream, n: nat, domain: string, op: OperationMeta, inv: InvocationEnvelope)
    requires FormatPath(op.path, inv.pathParams).Formatted?
    requires u.script(n).Answered? && u.script(n).status == 200
    requires u.script(n + 1).Answered? && u.script(n + 1).status == 401
    requires u.script(n + 2).Answered? && u.script(n + 2).status == 200
    requires u.script(n + 3).Answered? && u.script(n + 3).status == 200
    ensures var run := Execute(u, false, n, domain, op, inv);
            run.result.Returned? && run.result.envelope.status == 200 && !IsError(run.result.envelope)
            && run.result.envelope.domain == domain && run.result.envelope.action == op.action
            && Logins(run.requests) == 2 && Targets(run.requests) == 2 && run.authenticated
  {
    RetriedOnce(u, false, n, domain, op, inv);
    var target := TargetOf(op, inv, FormatPath(op.path, inv.pathParams).path);
    var login := LoginRequest(u.username, u.password);
    CountsShort(login, target);
    CountsAppend([login, target], [login, target]);
    assert [login] + [target, login, target] == [login, target] + [login, target];
  }

  // ---------------------------------------------------------------------------
  // The client object
  // ---------------------------------------------------------------------------

  class ApiClient {
    const upstream: Upstream
    var authenticated: bool
    /** Every request sent so far, in order; its length numbers the next one. */
    var sent: seq<Request>

    constructor(upstream: Upstream)
      ensures this.upstream == upstream && !authenticated && sent == []
    {
      this.upstream := upstream;
      authenticated := false;
      sent := [];
    }

    /** One exchange with the transport. */
    method Send(request: Request) returns (o: Outcome)
      modifies this
      ensures sent == old(sent) + [request] && o == upstream.script(|old(sent)|)
      ensures authenticated == old(authenticated)
    {
      o := upstream.script(|sent|);
      sent := sent + [request];
    }

    /** `_login`: the flag follows the outcome, except that a transport exception leaves it alone. */
    method Login() returns (r: LoginResult)
      modifies this
      ensures sent == old(sent) + [LoginRequest(upstream.username, upstream.password)]
      ensures r == LoginOf(upstream.script(|old(sent)|))
      ensures authenticated == if r.LoginFailed? then old(authenticated) else r.LoggedIn?
    {
      var o := Send(LoginRequest(upstream.username, upstream.password));
      match o {
        case Answered(status, _) =>
          if status >= 400 {
            authenticated := false;
            return LoginRefused("Login failed with status " + IntToString(status));
          }
          authenticated := true;
          return LoggedIn;
        case _ =>
          return LoginFailed(o);
      }
    }

    /** `_request`: format the path, then send the target request; nothing is sent when formatting fails. */
    method Request(op: OperationMeta, inv: InvocationEnvelope) returns (f: Formatting, o: Outcome)
      modifies this
      ensures f == FormatPath(op.path, inv.pathParams)
      ensures f.Formatted? ==> sent == old(sent) + [TargetOf(op, inv, f.path)] && o == upstream.script(|old(sent)|)
      ensures !f.Formatted? ==> sent == old(sent)
      ensures authenticated == old(authenticated)
    {
      f := FormatPath(op.path, inv.pathParams);
      o := TransportFailed("");
      if f.Formatted? {
        o := Send(TargetOf(op, inv, f.path));
      }
    }

    /** One pass of the loop body, as `Round` says. */
    method Pass(domain: string, op: OperationMeta, inv: InvocationEnvelope, retried: bool) returns (s: Step)
      requires authenticated
      modifies this
      ensures s == Round(upstream, |old(sent)|, retried, domain, op, inv)
      ensures s.Finished? ==> sent == old(sent) + s.run.requests && authenticated == s.run.authenticated
      ensures s.Again? ==> sent == old(sent) + s.requests && authenticated
    {
      var f, o := Request(op, inv);
      match f {
        case MalformedTemplate =>
          return Finished(Run(Raised(TemplateEscape), true, []));
        case MissingParam(name) =>
          return Finished(Run(Fail(domain, op, 400, ErrorInfo(MissingMessage(name), "validation_error")), true, []));
        case Formatted(path) =>
      }
      var target := TargetOf(op, inv, f.path);
      match o {
        case TimedOut(m) =>
          return Finished(Run(Fail(domain, op, 0, ErrorInfo(m, "timeout")), true, [target]));
        case TransportFailed(m) =>
          return Finished(Run(Fail(domain, op, 0, ErrorInfo(m, "transport_error")), true, [target]));
        case Answered(status, content) =>
          if (status == 401 || status == 403) && !retried {
            authenticated := false;
            var login := Login();
            var request := LoginRequest(upstream.username, upstream.password);
            match login {
              case LoginFailed(e) =>
                return Finished(Run(Raised(TransportEscape(e)), false, [target, request]));
              case LoginRefused(msg) =>
                return Finished(Run(Fail(domain, op, status, ErrorInfo(msg, "auth_error")), false, [target, request]));
              case LoggedIn =>
                return Again([target, request]);
            }
          }
          return Finished(Run(Mapped(domain, op, status, Payload(upstream.decode, content)), true, [target]));
      }
    }

    /** The `while True` loop of `execute_operation`, entered authenticated with no retry spent. */
    method Retrying(domain: string, op: OperationMeta, inv: InvocationEnvelope) returns (r: ExecResult)
      requires authenticated
      modifies this
      ensures var run := Attempt(upstream, |old(sent)|, domain, op, inv);
              r == run.result && authenticated == run.authenticated && sent == old(sent) + run.requests
    {
      ghost var n := |sent|;
      ghost var done: seq<Request> := [];
      var retried := false;
      while true
        invariant authenticated && sent == old(sent) + done
        invariant !retried ==> done == []
        invariant retried ==> Round(upstream, n, false, domain, op, inv) == Again(done)
        decreases if retried then 0 else 1
      {
        var s := Pass(domain, op, inv, retried);
        if s.Finished? {
          if retried {
            SecondPassEnds(upstream, n, done, domain, op, inv);
          } else {
            FirstPassEnds(upstream, n, domain, op, inv);
          }
          assert sent == old(sent) + (done + s.run.requests);
          return s.run.result;
        }
        assert sent == old(sent) + (done + s.requests);
        done := done + s.requests;
        retried := true;
      }
    }

    /** `execute_operation`: the call behaves as `Execute` says, from the state it starts in. */
    method ExecuteOperation(domain: string, op: OperationMeta, inv: InvocationEnvelope) returns (r: ExecResult)
      modifies this
      ensures var run := Execute(upstream, old(authenticated), |old(sent)|, domain, op, inv);
              r == run.result && authenticated == run.authenticated && sent == old(sent) + run.requests
    {
      if !authenticated {
        var login := Login();
        match login {
          case LoginFailed(o) => return Raised(TransportEscape(o));
          case LoginRefused(msg) => return Fail(domain, op, 401, ErrorInfo(msg, "auth_error"));
          case LoggedIn =>
        }
      }
      r := Retrying(domain, op, inv);
    }
  }
}
