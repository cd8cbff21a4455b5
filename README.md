# Mirth Connect MCP core, modelled in Dafny

The Python server exposes the REST API of a Mirth/NextGen Connect instance
as one tool per API domain. This project models its core in Dafny and proves
properties of the model. The core has four parts:

- **The operation registry** (`openapi_registry.py`).
  - It reads an OpenAPI document and files every (path, HTTP method)
    operation under a *domain* (the normalized first tag) and an *action*
    (the operationId, or a name derived from the method and the path).
  - For each operation it records the required path and query parameters
    and the body hints: the accepted media types, the declared schema
    types and the required body fields.
  - The registry answers `list_domains`, `list_actions` and
    `get_operation`.
- **The dispatcher** (`domain_tools.py`, `dispatch_domain_action`).
  - An ordered chain of guards answers with a 404, 400 or 415 error
    envelope.
  - A request that passes every guard is handed to the API client, once.
- **The API client** (`client.py`).
  - It is a session with an `authenticated` flag.
  - `execute_operation` logs in when needed, formats the path template,
    sends the request, retries once after a 401 or 403 with a fresh login,
    and maps the outcome to an envelope.
- **The envelopes** (`models.py`): the invocation envelope and the one
  response shape.

Module layout (one file each):

- `wrappers.dfy`: `Option`/`Result`.
- `text.dfy`: strip, lower/upper, split/join, `sorted`, `str` of an integer.
- `json.dfy`: the parsed-JSON value, dictionary lookup, truthiness, `str`/`repr`.
- `models.dfy`: the envelopes.
- `naming.dfy`: `normalize_domain` and `fallback_action_id`.
- `resolver.dfy`: `_SpecResolver`.
- `extraction.dfy`: parameter and body-hint extraction.
- `registry.dfy`: the registry, filing and the queries.
- `builder.dfy`: `build_registry_from_spec`.
- `dispatcher.dfy`: the guard chain as a total function.
- `client.dfy`: path formatting, the session state machine as functions, and the `ApiClient` class.
- `tools.dfy`: `dispatch_domain_action` end to end.

Each part takes the form of the code it models:

- **Imperative code becomes methods with loops.**
  - The loops of `build_registry_from_spec`, `_collect_parameters_with_resolver`,
    `_extract_body_schema_hints` and `resolve_ref` are methods with loop
    invariants.
  - Each method is proved equal to a reference function. Lemmas then
    state the properties of that function.
- **The client is a class.**
  - `ApiClient` has the `authenticated` flag and the log `sent` of every
    request sent, in order.
  - `Login`, `Request` and the `while True` loop of `execute_operation`
    (`Retrying`) are methods whose `ensures` tie the new state to the
    functions `LoginOf`, `Round`, `Attempt` and `Execute`.
- **The transport is a scripted oracle.**
  - The k-th request the client ever sends (a login or a target request)
    receives `script(k)`.
  - The outcome is an answer (status, content), a timeout or another
    transport failure.
  - Decoding a non-empty body is an uninterpreted function `decode`.
- **The dispatcher is a total function.**
  - Its result is either `Respond(envelope)` or `Delegate(...)`, the
    one call to the client.
  - `DomainTools.DispatchDomainAction` performs that call on an
    `ApiClient`.

In three places a call does not end the way one might expect, and the
model does what the code does:

- **A transport failure during a login is not caught.**
  - An `httpx` timeout or transport error raised inside `_login`
    (client.py:76 and client.py:123) leaves `execute_operation` as an
    exception, so a call does not always end in an envelope.
  - The model returns `Raised(TransportEscape(outcome))` for it.
- **A path template that `str.format` rejects raises too.**
  - Examples are a lone brace, a positional field, or a field with
    attribute, index or conversion syntax.
  - The model returns `Raised(TemplateEscape)`.
- **The Content-Type header lookup is not case-insensitive.**
  - It reads `Content-Type` and then exactly `content-type`
    (domain_tools.py:67-69).
  - Any other spelling is not seen.

## Model

| member | source | states |
|---|---|---|
| Text.SortedOfSet | src/mirth_connect_mcp/openapi_registry.py:51-56 | `sorted` of a set: each element exactly once, in strictly increasing order, as many entries as the set has elements |
| Text.Sort | src/mirth_connect_mcp/openapi_registry.py:214 | `sorted` of a list: an ordered permutation of it |
| Text.Split | src/mirth_connect_mcp/openapi_registry.py:98 | `str.split` on one character: at least one piece, no piece holds the separator, and joining the pieces gives the string back |
| Text.SplitJoin | src/mirth_connect_mcp/openapi_registry.py:98 | splitting a join of separator-free pieces gives the pieces back |
| Json.LookupSpec | src/mirth_connect_mcp/openapi_registry.py:92 | a dictionary lookup succeeds exactly when the key occurs, and what it finds is a member with that key |
| Models.SuccessEnvelope | src/mirth_connect_mcp/models.py:30-47 | `error` is empty and `data` is the argument, so the envelope is no error; status, domain, action, method and path are copied unchanged |
| Models.ErrorEnvelope | src/mirth_connect_mcp/models.py:50-67 | `data` is empty and `error` is the argument; a non-empty error makes it an error envelope; the five echo fields are copied unchanged |
| Models.ToDict | src/mirth_connect_mcp/models.py:26-27 | the dictionary has exactly the keys status, domain, action, method, path, data, error, in declaration order |
| Models.DictRoundTrip | src/mirth_connect_mcp/models.py:16-27 | reading the dictionary back yields the envelope: the flat form loses nothing |
| Naming.Collapse | src/mirth_connect_mcp/openapi_registry.py:14 | the substitution leaves only underscores and alphanumerics, starts with `_` exactly when the input starts outside `[a-zA-Z0-9]`, and is empty exactly for the empty input |
| Naming.CollapseAlnums | src/mirth_connect_mcp/openapi_registry.py:14 | the substitution keeps every alphanumeric character, in order |
| Naming.CollapseNoDouble | src/mirth_connect_mcp/openapi_registry.py:14 | the substitution never produces two underscores in a row |
| Naming.CollapseNoUpper | src/mirth_connect_mcp/openapi_registry.py:14 | the substitution brings in no upper-case letter |
| Naming.NormalizeDomain | src/mirth_connect_mcp/openapi_registry.py:13-15 | the domain is non-empty, made of `[a-z0-9_]`, has no underscore at either end and none doubled; it is `untagged` when the tag has no alphanumerics, and otherwise its alphanumerics are the tag's, lower-cased, in order |
| Naming.NormalizeDomainIdempotent | src/mirth_connect_mcp/openapi_registry.py:13-15 | normalizing a normalized domain changes nothing |
| Naming.TokenIsFixed | src/mirth_connect_mcp/openapi_registry.py:13-15 | every string of that shape is its own normal form |
| Naming.UnbraceAlnums | src/mirth_connect_mcp/openapi_registry.py:20 | unwrapping `{name}` placeholders removes only braces: the alphanumerics stay, in order |
| Naming.CleanPathAlnums | src/mirth_connect_mcp/openapi_registry.py:19-21 | the cleaned path keeps exactly the path's alphanumerics, lower-cased, in order |
| Naming.CleanPathShape | src/mirth_connect_mcp/openapi_registry.py:19-23 | the cleaned path is empty exactly when the path has no alphanumerics, and otherwise has the shape of a domain name |
| Naming.PathSlug | src/mirth_connect_mcp/openapi_registry.py:19-23 | the slug has that shape, is `root` for a path without alphanumerics, and otherwise keeps exactly the path's alphanumerics, lower-cased |
| Naming.FallbackActionId | src/mirth_connect_mcp/openapi_registry.py:18-24 | the name is exactly the lower-cased method, `_`, and the path slug; that slug is non-empty, is `root` when the path has no alphanumerics and otherwise keeps its alphanumerics lower-cased, in order |
| Naming.WordsAreWords | src/mirth_connect_mcp/openapi_registry.py:14 | every word of a string is a non-empty run of `[a-zA-Z0-9]` |
| Naming.NoWords | src/mirth_connect_mcp/openapi_registry.py:14-15 | a string has no words exactly when it has no character of `[a-zA-Z0-9]` |
| Naming.CollapseWords | src/mirth_connect_mcp/openapi_registry.py:14 | the substitution is the string's words joined by single underscores, with one more underscore in front exactly when the string starts outside `[a-zA-Z0-9]` and one more at the end exactly when it ends outside; a non-empty string without words becomes `_`, the empty string stays empty |
| Naming.TidyWords | src/mirth_connect_mcp/openapi_registry.py:14 | substituting and then stripping underscores gives the words joined by single underscores, which is empty exactly when there are no words |
| Naming.WordsLower | src/mirth_connect_mcp/openapi_registry.py:14 | lower-casing a string lower-cases each of its words and moves no word boundary |
| Naming.WordsTrim | src/mirth_connect_mcp/openapi_registry.py:14 | stripping characters outside `[a-zA-Z0-9]` from the ends changes no word |
| Naming.NormalizeDomainWords | src/mirth_connect_mcp/openapi_registry.py:13-15 | the domain is the tag's words joined by single underscores and lower-cased, or `untagged` when the tag has no words |
| Naming.PathSlugWords | src/mirth_connect_mcp/openapi_registry.py:19-23 | the slug is the words of the path, with its slashes stripped and placeholders unwrapped, joined by single underscores and lower-cased, or `root` when there are none |
| Naming.FallbackActionIdWords | src/mirth_connect_mcp/openapi_registry.py:18-24 | the derived action is the lower-cased method, `_`, and then the path's words joined by single underscores and lower-cased, or `root` when it has none |
| SpecResolver.Resolved | src/mirth_connect_mcp/openapi_registry.py:89-103 | definition of what `resolve_ref` returns: the node a local `#/` pointer leads to, or the input itself when there is no such pointer or the walk fails; `ResolveRef` is proved equal to it |
| SpecResolver.ResolveSchema | src/mirth_connect_mcp/openapi_registry.py:105-111 | definition of `resolve_schema`: hop with `resolve_ref` until a hop changes nothing or the depth passes 8; `ResolveSchemaBounded` states its bounds |
| SpecResolver.ResolveRef | src/mirth_connect_mcp/openapi_registry.py:89-103 | the loop walks the pointer segments from the root; the result is the node reached, or the input itself for a non-mapping, a `$ref` that is no string or not `#/`-local, or a segment that is missing or meets a non-mapping |
| SpecResolver.PointerRoundTrip | src/mirth_connect_mcp/openapi_registry.py:95-103 | a `#/a/b/c` pointer written from a path of keys resolves to the node at the end of that path |
| SpecResolver.ResolveSchemaBounded | src/mirth_connect_mcp/openapi_registry.py:105-111 | resolution from depth d makes at most 9 - d hops; it stops at the first node a hop leaves unchanged, and anywhere else only at the bound |
| SpecExtraction.Unpacked | src/mirth_connect_mcp/openapi_registry.py:121 | `[*(x or [])]` is empty for a falsy value and the items for a list; it raises exactly for a truthy number or boolean |
| SpecExtraction.RequiredNamesMembers | src/mirth_connect_mcp/openapi_registry.py:122-136 | a name is collected at a location exactly when some parameter, seen through the resolver, is a mapping with a truthy `required`, that non-empty trimmed name and that trimmed `in` |
| SpecExtraction.RequiredNamesSnoc | src/mirth_connect_mcp/openapi_registry.py:122-136 | each further parameter adds its own name, or nothing |
| SpecExtraction.OtherLocationIgnored | src/mirth_connect_mcp/openapi_registry.py:133-136 | a parameter located neither in `path` nor in `query` changes neither set |
| SpecExtraction.CollectParameters | src/mirth_connect_mcp/openapi_registry.py:114-137 | the loop over the path-item parameters and then the operation's gives the two name sets of the reference definition, or the error unpacking a non-iterable list raises |
| SpecExtraction.CollectOptionTypes | src/mirth_connect_mcp/openapi_registry.py:159-173 | the loop over `oneOf`/`anyOf` options gives the string `type` of every resolved option that has one |
| SpecExtraction.CollectStrings | src/mirth_connect_mcp/openapi_registry.py:175-178 | the loop over a `required` list gives exactly its string entries |
| SpecExtraction.SchemaTypes | src/mirth_connect_mcp/openapi_registry.py:155-173 | a resolved schema contributes its own string `type` and the string types of its resolved `oneOf` and `anyOf` options, and nothing else |
| SpecExtraction.SchemaFields | src/mirth_connect_mcp/openapi_registry.py:175-178 | a resolved schema contributes the string entries of its `required` list when its `type` is `object` and that list is a list, and nothing otherwise |
| SpecExtraction.EntryHints | src/mirth_connect_mcp/openapi_registry.py:147-178 | one media entry contributes its resolved schema's `type` and option types, and its required fields only for an object schema with a `required` list |
| SpecExtraction.ExtractBodySchemaHints | src/mirth_connect_mcp/openapi_registry.py:140-179 | the loop over the media entries gives the union of their contributions, or the error a truthy `content` that is no mapping raises |
| SpecExtraction.BodyTypesMembership | src/mirth_connect_mcp/openapi_registry.py:146-173 | a type is a body type exactly when some media entry contributes it |
| SpecExtraction.BodyFieldsMembership | src/mirth_connect_mcp/openapi_registry.py:146-178 | a field is a required body field exactly when some media entry contributes it |
| SpecExtraction.EveryDeclaredType | src/mirth_connect_mcp/openapi_registry.py:155-173 | every string `type` of a media schema and of each resolved `oneOf`/`anyOf` option is a body type |
| SpecExtraction.FieldsOnlyFromObjects | src/mirth_connect_mcp/openapi_registry.py:175-178 | every required body field is a string entry of the `required` list of some media schema whose `type` is `object` |
| RegistryBuilder.ReadRequestBody | src/mirth_connect_mcp/openapi_registry.py:208-213 | the request body is `requestBody or {}` through the resolver, `{}` when that is no mapping, and its `content` as the builder reads it |
| RegistryBuilder.OperationEntry | src/mirth_connect_mcp/openapi_registry.py:191-234 | definition of one method entry: nothing for a key that is no HTTP method or a value that is no mapping, else the metadata or the error its reading raises; `EntrySkipped`, `EntryWellFormed` and `BuildOperation` state its properties |
| RegistryBuilder.AssembleMeta | src/mirth_connect_mcp/openapi_registry.py:214-234 | the metadata holds the normalized domain, the tag, the action as action and operation id, the upper-case method, the path, the texts, the parameters, the sorted media types and the body hints |
| RegistryBuilder.BuildOperation | src/mirth_connect_mcp/openapi_registry.py:191-234 | one method entry is skipped, read, or fails with the error its reading raises, in the order the source reads it |
| RegistryBuilder.EntrySkipped | src/mirth_connect_mcp/openapi_registry.py:192-194 | an entry is skipped exactly when its key is no HTTP method or its value is no mapping |
| RegistryBuilder.ActionNonEmpty | src/mirth_connect_mcp/openapi_registry.py:200-202 | the action is never empty: the trimmed operationId when there is one, else the derived name |
| RegistryBuilder.MetaNormalized | src/mirth_connect_mcp/openapi_registry.py:219-234 | assembled metadata is well formed (domain of the normalized shape, non-empty action equal to the operation id, method the upper case of an HTTP method, media types sorted) and its media types are a permutation of the content keys |
| RegistryBuilder.EntryWellFormed | src/mirth_connect_mcp/openapi_registry.py:191-234 | an operation read from the document is well formed, its domain is the normalized first tag, its tag that tag, its path its key and its method the upper-case HTTP-method key |
| RegistryBuilder.EntriesNormalized | src/mirth_connect_mcp/openapi_registry.py:188-234 | every operation of a successfully read document is well formed with its domain the normalized tag |
| RegistryBuilder.FileOperation | src/mirth_connect_mcp/openapi_registry.py:236-238 | filing updates the two maps as `Register` does: bucket `setdefault`, item assignment, label `setdefault` |
| RegistryBuilder.FileMethod | src/mirth_connect_mcp/openapi_registry.py:191-238 | one pass of the inner loop reads the entry and files it when there is one |
| RegistryBuilder.FilePathItem | src/mirth_connect_mcp/openapi_registry.py:191-238 | the inner loop files the operations of one path item in order, or stops at the first error |
| RegistryBuilder.BuildRegistryFromSpec | src/mirth_connect_mcp/openapi_registry.py:182-240 | the nested loops give the registry of all operations filed in document order, or the first error the document raises |
| RegistryBuilder.BuildRegistry | src/mirth_connect_mcp/openapi_registry.py:182-240 | definition of `build_registry_from_spec`: the operations of the document filed in document order, or the first error; `BuildRegistryFromSpec` is proved equal to it and `BuiltRegistryValid` states its shape |
| RegistryBuilder.OperationRegistered | src/mirth_connect_mcp/openapi_registry.py:236-237 | every operation read from the document has its (domain, action) pair in the built registry |
| RegistryBuilder.BuiltRegistryValid | src/mirth_connect_mcp/openapi_registry.py:236-240 | a built registry has labels for exactly its domains, no empty domain, every operation filed under its own domain and action and well formed, and every label normalizes to its domain |
| OperationRegistry.Register | src/mirth_connect_mcp/openapi_registry.py:236-238 | definition of filing one operation: bucket `setdefault`, item assignment, label `setdefault` |
| OperationRegistry.RegisterEffect | src/mirth_connect_mcp/openapi_registry.py:236-238 | filing adds the domain, puts the operation under its domain and action, leaves the other actions of that domain and every other domain unchanged, and adds the raw tag as label only for a new domain |
| OperationRegistry.RegisterAll | src/mirth_connect_mcp/openapi_registry.py:236-238 | definition of filing a list of operations in order from the empty registry; the lemmas below state what it holds |
| OperationRegistry.RegisterAllValid | src/mirth_connect_mcp/openapi_registry.py:236-238 | filing well-formed operations in any order keeps the registry valid |
| OperationRegistry.RegisteredDomains | src/mirth_connect_mcp/openapi_registry.py:236-238 | a domain is present, and then labelled, exactly when some filed operation has it |
| OperationRegistry.RegisteredActions | src/mirth_connect_mcp/openapi_registry.py:236-237 | a (domain, action) pair is present exactly when some filed operation has both |
| OperationRegistry.LastWriteWins | src/mirth_connect_mcp/openapi_registry.py:237 | the operation under a pair is the last one filed with that pair |
| OperationRegistry.FirstSeenLabel | src/mirth_connect_mcp/openapi_registry.py:238 | a domain's label is the raw tag of the first operation filed for it |
| OperationRegistry.ToPublicDict | src/mirth_connect_mcp/openapi_registry.py:44-57 | the public form copies action, operation id, method, path, summary, body flag and media types, and lists each set sorted, with each element once |
| OperationRegistry.ListDomains | src/mirth_connect_mcp/openapi_registry.py:65-69 | definition of `list_domains`: the sorted domains, each with its label; `ListDomainsSound` and `ListDomainsComplete` state it |
| OperationRegistry.ListDomainsSound | src/mirth_connect_mcp/openapi_registry.py:65-69 | one row per domain, each a domain of the registry with its label, in strictly increasing order |
| OperationRegistry.ListDomainsComplete | src/mirth_connect_mcp/openapi_registry.py:65-69 | every domain of the registry has a row |
| OperationRegistry.ListActions | src/mirth_connect_mcp/openapi_registry.py:71-75 | nothing for an unknown domain; otherwise the public form of every action, in strictly increasing order of action |
| OperationRegistry.ListActionsEmpty | src/mirth_connect_mcp/openapi_registry.py:72-74 | in a valid registry the list is empty exactly for an unknown domain |
| OperationRegistry.GetOperation | src/mirth_connect_mcp/openapi_registry.py:77-78 | the operation filed under the pair, and None exactly when there is none |
| Dispatcher.UnknownAction | src/mirth_connect_mcp/tools/domain_tools.py:22-34 | the 404 envelope has method and path `N/A`, echoes domain and action, and its error holds a `suggestion` |
| Dispatcher.MissingPath | src/mirth_connect_mcp/tools/domain_tools.py:44-46 | the required path parameters not given, sorted, each once |
| Dispatcher.MissingQuery | src/mirth_connect_mcp/tools/domain_tools.py:47-49 | the required query parameters not given, sorted, each once |
| Dispatcher.MissingBodyFields | src/mirth_connect_mcp/tools/domain_tools.py:99-101 | the required body fields that are not keys of the body, sorted, each once |
| Dispatcher.ProvidedContentType | src/mirth_connect_mcp/tools/domain_tools.py:66-69 | a non-empty `Content-Type` header wins; otherwise a non-empty result is the `content-type` header; the result is empty exactly when both spellings are absent or empty |
| Dispatcher.Reject | src/mirth_connect_mcp/tools/domain_tools.py:52-63 | a guard's answer is an error envelope with the given status and error, no data, and the operation's method and path |
| Dispatcher.Validate | src/mirth_connect_mcp/tools/domain_tools.py:44-113 | the request is delegated, unchanged, exactly when every guard passes; otherwise the answer is a 400 or 415 error envelope echoing the call and the operation |
| Dispatcher.Dispatch | src/mirth_connect_mcp/tools/domain_tools.py:22-122 | an unknown pair gives the 404; the client is reached exactly for a known operation that passes every guard, with the filed operation and the normalized invocation; every answer is a 400, 404 or 415 error envelope |
| Dispatcher.FirstFailureWins | src/mirth_connect_mcp/tools/domain_tools.py:51-113 | each guard that fails, after every earlier one passed, answers with its own status and error body |
| Dispatcher.UnsupportedMediaTypeOnlyWhen | src/mirth_connect_mcp/tools/domain_tools.py:66-82 | a 415 arises only for a known operation whose parameters passed and whose provided content type is non-empty and not among its declared media types |
| Dispatcher.NotFoundExactly | src/mirth_connect_mcp/tools/domain_tools.py:22-34 | a 404 arises exactly for an unknown (domain, action) |
| DomainTools.DispatchDomainAction | src/mirth_connect_mcp/tools/domain_tools.py:22-122 | a request the guards answer leaves the client untouched; a delegated one makes exactly one `execute_operation` call, whose result is returned unchanged |
| Client.FormatTemplate | src/mirth_connect_mcp/client.py:42-46 | formatting the text of a parsed template with simple fields gives its reference meaning: literals copied, fields replaced by `str` of the parameter, and the first missing field reported |
| Client.FormatPath | src/mirth_connect_mcp/client.py:42 | definition of `str.format(**path_params)` read left to right: doubled braces literal, a plain field replaced by `str` of its parameter, a lone brace or other field a template error, the first missing name reported; `FormatTemplate` states its meaning |
| Client.FormatPlainPath | src/mirth_connect_mcp/client.py:42 | a template without braces formats to itself |
| Client.FieldPresent | src/mirth_connect_mcp/client.py:42-46 | a simple field present in the parameters is replaced by `str` of its value, and formatting goes on with the rest |
| Client.FieldMissing | src/mirth_connect_mcp/client.py:43-44 | a simple field absent from the parameters stops the formatting with that name |
| Client.MissingMessage | src/mirth_connect_mcp/client.py:42-46 | definition of the `KeyError` message: the repr of `Missing path param: ` and the missing name, itself the repr of the name with the quotes stripped |
| Client.MissingMessagePlain | src/mirth_connect_mcp/client.py:42-46 | for a name with no quote at either end the message is the repr of `Missing path param: <name>` |
| Json.QuoteReprShape | src/mirth_connect_mcp/client.py:44-46 | `repr` of a string adds the same quote at both ends and nothing else; it is the double quote exactly when the string holds a single quote and no double quote |
| Client.Payload | src/mirth_connect_mcp/client.py:60-66 | definition of `_decode_response_content`: an empty body is None, any other body goes to the decoder |
| Client.LoginOf | src/mirth_connect_mcp/client.py:36-39 | a login answered below 400 authenticates, one answered at 400 or above is refused, anything else is a transport exception |
| Client.Mapped | src/mirth_connect_mcp/client.py:135-153 | the envelope carries the status; it is a success with the payload exactly for 2xx, and otherwise an error with message `Upstream API error` and the payload |
| Client.Round | src/mirth_connect_mcp/client.py:88-133 | a pass of the loop goes round again only when no retry was spent, after exactly two requests |
| Client.RoundAgain | src/mirth_connect_mcp/client.py:119-133 | a pass goes round again only for a path that formats, after the target request and then a login, both in that order |
| Client.RoundCounts | src/mirth_connect_mcp/client.py:88-133 | a pass sends at most one target request, and a login only on its first 401 or 403 |
| Client.Attempt | src/mirth_connect_mcp/client.py:87-153 | definition of the `while True` loop: a first pass, and when it asks to go round, a last pass with the retry spent; `AttemptPromises` states its promises |
| Client.AttemptPromises | src/mirth_connect_mcp/client.py:87-153 | the loop echoes domain, action, method and path, succeeds exactly on 2xx, keeps the session unless a login failed, sends only the formatted request, and sends at most two target requests and one login |
| Client.Execute | src/mirth_connect_mcp/client.py:68-153 | definition of `execute_operation`: the loop when authenticated, else a login first whose failure or refusal ends the call; `ExecutePromises` states its promises |
| Client.ExecutePromises | src/mirth_connect_mcp/client.py:68-153 | a whole call keeps those promises with at most two target requests and two logins, and at most one login when it starts authenticated |
| Client.EntryLoginRefused | src/mirth_connect_mcp/client.py:74-85 | unauthenticated and refused at login: 401 with the login's message as an `auth_error`, no target request, still unauthenticated |
| Client.EntryLoginUnreachable | src/mirth_connect_mcp/client.py:74-77 | unauthenticated and the login POST fails in transport: the exception leaves the call and no target request is sent |
| Client.MissingPathParam | src/mirth_connect_mcp/client.py:91-99 | a field missing from the path parameters gives 400 `validation_error` with the quoted `Missing path param` message, before any target request |
| Client.TransportFailureNotRetried | src/mirth_connect_mcp/client.py:100-117 | a timeout gives status 0 `timeout`, another transport failure status 0 `transport_error`, after one target request and no retry |
| Client.AnswerMapped | src/mirth_connect_mcp/client.py:135-153 | a first answer other than 401 or 403 is mapped by its status after one target request |
| Client.ReloginRefused | src/mirth_connect_mcp/client.py:119-132 | a refused re-login after a 401 or 403 returns that original status as an `auth_error` and leaves the session unauthenticated |
| Client.RetriedOnce | src/mirth_connect_mcp/client.py:119-133 | after a 401 or 403 and a successful re-login the request is sent once more, and its answer, another 401 or 403 included, is mapped by its status |
| Client.ExpiredSessionRecovers | src/mirth_connect_mcp/client.py:119-133 | login, 401, login, 200 gives status 200 with exactly two logins and two target requests |
| Client.ApiClient.constructor | src/mirth_connect_mcp/client.py:13-23 | a new client is unauthenticated and has sent nothing |
| Client.ApiClient.Send | src/mirth_connect_mcp/client.py:50-56 | one request is appended to the log and answered by the transport's next scripted outcome; the session flag is unchanged |
| Client.ApiClient.Login | src/mirth_connect_mcp/client.py:28-39 | one login request is sent; a refusal clears the flag, a success sets it, and a transport exception leaves it alone |
| Client.ApiClient.Request | src/mirth_connect_mcp/client.py:41-57 | the path is formatted first; only when that succeeds is one target request sent, with the method, formatted path, query, body and header overrides |
| Client.ApiClient.Pass | src/mirth_connect_mcp/client.py:89-133 | one pass of the loop body behaves as `Round`: the step it ends in, the flag, and the requests it appends to the log |
| Client.ApiClient.Retrying | src/mirth_connect_mcp/client.py:87-153 | the `while True` loop behaves as `Attempt`: result, flag and the requests sent |
| Client.ApiClient.ExecuteOperation | src/mirth_connect_mcp/client.py:68-153 | the call behaves as `Execute` from the state it starts in: result, new flag, and the requests appended to the log |

## Left out

- `load_registry` (file reading and `json.loads`) is not part of this model: the document is taken as an already parsed JSON value.
- JSON numbers are integers; floating-point values are not modelled.
- Duplicate keys in a JSON object cannot occur in Python; a lookup here takes the first member with the key.
- Python's `.lower()` and `.upper()` are modelled on ASCII letters only: other letters are left unchanged, and case mappings that change the length of a string are not modelled. `.strip()` removes Python's full set of whitespace characters. The regular expressions are written out as run-collapsing functions over `[a-zA-Z0-9]`.
- `repr` of a string picks single or double quotes as Python does but does not escape; `str` of a nested value uses that `repr`. Unicode digits, float formatting and `repr` of other objects are not modelled.
- Full `str.format` semantics are not modelled. A field must be non-empty, contain a non-digit and be free of `.[!:{}` to be a simple keyword field. Any other field, a lone brace, or an unclosed field is a template error that escapes as one exception (`TemplateEscape`); Python would raise `ValueError` or `IndexError`, or perform an attribute or index lookup.
- Client.FieldMissing, Client.MissingPathParam: a field with attribute or index syntax whose base name is missing would raise `KeyError` in Python; the model treats it as a template error.
- httpx itself is not part of this model: the `AsyncClient`, base URL joining, the `X-Requested-With` header, form and JSON encoding, query encoding and real timeouts. A scripted transport oracle stands in for it, and a request is recorded as its method, formatted path, query, body and header overrides.
- `_decode_response_content` beyond the empty check: decoding a non-empty body (JSON, or text as a fallback) is the uninterpreted `decode`.
- The text of a transport exception (`str(exc)`) is the message the oracle supplies with the outcome.
- async/await and the race on `authenticated` between concurrent calls are not modelled: the model is single-threaded.
- The `ctx.info` logging call in `dispatch_domain_action` has no effect on the result and is not modelled.
- `register_domain_tools`, `server.py`, `config.py` and `MirthApiClient.close` (tool registration, transport selection, configuration reading, closing the session) are not part of this model.
- `_collect_parameters`, the resolver-less wrapper, is the modelled collector called with no resolver (`resolver == None`).
- Python dicts returned by `to_public_dict`, `list_domains` and the envelope constructors are datatypes (`PublicOperation`, `DomainSummary`, `ResponseEnvelope`). `Models.DictRoundTrip` shows the envelope's flat dictionary loses nothing.
- The `resolved is schema` identity test of `resolve_schema` is value equality. A hop that returns its input returns the same object, and a hop returning an equal but distinct object only adds further hops that change nothing; the result is the same value.
