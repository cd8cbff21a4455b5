/**
 * The operation registry: every operation of the document, filed under its
 * domain and then its action, with one display label per domain, and the
 * read-only queries the tools answer from it.
 */
module OperationRegistry {
  import opened Wrappers
  import opened Text
  import opened Json
  import opened Naming

  /** The eight HTTP methods an OpenAPI path item may hold. */
  const HttpMethods: set<string> := {"get", "post", "put", "patch", "delete", "head", "options", "trace"}

  /** Everything the dispatcher and the client need to know about one operation. */
  datatype OperationMeta = OperationMeta(
    domain: string,
    tag: string,
    action: string,
    operationId: string,
    httpMethod: string,
    path: string,
    summary: string,
    description: string,
    requiredPathParams: set<string>,
    requiredQueryParams: set<string>,
    bodyRequired: bool,
    requestMediaTypes: seq<string>,
    bodySchemaTypes: set<string>,
    bodyRequiredFields: set<string>)

  /** The shape every operation the builder produces has. */
  predicate WellFormedMeta(m: OperationMeta) {
    && IsToken(m.domain)
    && m.action != ""
    && m.operationId == m.action
    && (exists hm :: hm in HttpMethods && m.httpMethod == Upper(hm))
    && Sorted(m.requestMediaTypes)
  }

  /** domain -> action -> operation, and domain -> the label shown for it. */
  datatype Registry = Registry(
    domains: map<string, map<string, OperationMeta>>,
    domainLabels: map<string, string>)

  const EmptyRegistry := Registry(map[], map[])

  /** `m` is filed under its own domain and action, and is well formed. */
  predicate Stored(m: OperationMeta, d: string, a: string) {
    m.domain == d && m.action == a && WellFormedMeta(m)
  }

  /** Labels exist for exactly the domains, and no domain is empty. */
  predicate DomainsLabelled(reg: Registry) {
    && reg.domains.Keys == reg.domainLabels.Keys
    && forall d :: d in reg.domains ==> reg.domains[d] != map[]
  }

  /** Every operation is filed where its own domain and action say, and is well formed. */
  predicate FiledInPlace(reg: Registry) {
    forall d, a :: d in reg.domains && a in reg.domains[d] ==> Stored(reg.domains[d][a], d, a)
  }

  /** The invariant of a built registry. */
  predicate ValidRegistry(reg: Registry) {
    DomainsLabelled(reg) && FiledInPlace(reg)
  }

  /**
   * Files `m`: `domains.setdefault(domain, {})[action] = meta` replaces any
   * earlier operation with the same domain and action, and
   * `domain_labels.setdefault(domain, tag)` keeps the first label.
   */
  function Register(reg: Registry, m: OperationMeta): Registry {
    var bucket := if m.domain in reg.domains then reg.domains[m.domain] else map[];
    Registry(
      reg.domains[m.domain := bucket[m.action := m]],
      if m.domain in reg.domainLabels then reg.domainLabels else reg.domainLabels[m.domain := m.tag])
  }

  /**
   * Filing puts `m` under its domain and action, adds its domain, labels a
   * new domain with `m`'s tag, and changes nothing else.
   */
  lemma RegisterEffect(reg: Registry, m: OperationMeta)
    ensures var next := Register(reg, m);
      && next.domains.Keys == reg.domains.Keys + {m.domain}
      && m.action in next.domains[m.domain] && next.domains[m.domain][m.action] == m
      && (m.domain in reg.domains ==>
            next.domains[m.domain].Keys == reg.domains[m.domain].Keys + {m.action}
            && forall a :: a in reg.domains[m.domain] && a != m.action ==>
                 next.domains[m.domain][a] == reg.domains[m.domain][a])
      && (m.domain !in reg.domains ==> next.domains[m.domain].Keys == {m.action})
      && (forall d :: d in reg.domains && d != m.domain ==> next.domains[d] == reg.domains[d])
      && (m.domain in reg.domainLabels ==> next.domainLabels == reg.domainLabels)
      && (m.domain !in reg.domainLabels ==> next.domainLabels == reg.domainLabels[m.domain := m.tag])
  {
  }

  /** Files the operations in order, starting from the empty registry. */
  function RegisterAll(ms: seq<OperationMeta>): Registry
    decreases |ms|
  {
    if ms == [] then EmptyRegistry else Register(RegisterAll(ms[..|ms| - 1]), ms[|ms| - 1])
  }

  lemma RegisterLabelled(reg: Registry, m: OperationMeta)
    requires DomainsLabelled(reg)
    ensures DomainsLabelled(Register(reg, m))
  {
    var next := Register(reg, m);
    assert next.domains.Keys == reg.domains.Keys + {m.domain};
    assert next.domainLabels.Keys == reg.domainLabels.Keys + {m.domain};
    assert m.action in next.domains[m.domain];
  }

  lemma RegisterFiled(reg: Registry, m: OperationMeta)
    requires FiledInPlace(reg) && WellFormedMeta(m)
    ensures FiledInPlace(Register(reg, m))
  {
    var next := Register(reg, m);
    forall d, a | d in next.domains && a in next.domains[d] ensures Stored(next.domains[d][a], d, a) {
      if d == m.domain && a == m.action {
        assert next.domains[d][a] == m;
      } else {
        assert next.domains[d][a] == reg.domains[d][a];
      }
    }
  }

  /** Filing well-formed operations yields a valid registry. */
  lemma {:induction false} RegisterAllValid(ms: seq<OperationMeta>)
    requires forall k :: 0 <= k < |ms| ==> WellFormedMeta(ms[k])
    ensures ValidRegistry(RegisterAll(ms))
    decreases |ms|
  {
    if ms != [] {
      RegisterAllValid(ms[..|ms| - 1]);
      RegisterLabelled(RegisterAll(ms[..|ms| - 1]), ms[|ms| - 1]);
      RegisterFiled(RegisterAll(ms[..|ms| - 1]), ms[|ms| - 1]);
    }
  }

  /** A domain is in the registry, with a label, exactly when some operation has it. */
  lemma {:induction false} RegisteredDomains(ms: seq<OperationMeta>, d: string)
    ensures d in RegisterAll(ms).domains <==> exists k :: 0 <= k < |ms| && ms[k].domain == d
    ensures d in RegisterAll(ms).domainLabels <==> d in RegisterAll(ms).domains
    decreases |ms|
  {
    if ms != [] {
      var n := |ms| - 1;
      RegisteredDomains(ms[..n], d);
      assert forall k :: 0 <= k < n ==> ms[..n][k] == ms[k];
    }
  }

  /** A (domain, action) pair is filed exactly when some operation has both. */
  lemma {:induction false} RegisteredActions(ms: seq<OperationMeta>, d: string, a: string)
    ensures (d in RegisterAll(ms).domains && a in RegisterAll(ms).domains[d])
        <==> exists k :: 0 <= k < |ms| && ms[k].domain == d && ms[k].action == a
    decreases |ms|
  {
    if ms != [] {
      var n := |ms| - 1;
      RegisteredActions(ms[..n], d, a);
      assert forall k :: 0 <= k < n ==> ms[..n][k] == ms[k];
    }
  }

  /** `ms[k]` has domain `d` and action `a`, and no later operation has both. */
  predicate LastWriteAt(ms: seq<OperationMeta>, k: int, d: string, a: string) {
    && 0 <= k < |ms| && ms[k].domain == d && ms[k].action == a
    && forall j :: k < j < |ms| ==> !(ms[j].domain == d && ms[j].action == a)
  }

  /** The operation filed under (domain, action) is the last one with that pair. */
  lemma {:induction false} LastWriteWins(ms: seq<OperationMeta>, d: string, a: string)
    requires d in RegisterAll(ms).domains && a in RegisterAll(ms).domains[d]
    ensures exists k :: LastWriteAt(ms, k, d, a) && RegisterAll(ms).domains[d][a] == ms[k]
    decreases |ms|
  {
    var n := |ms| - 1;
    var last := ms[n];
    if last.domain == d && last.action == a {
      assert LastWriteAt(ms, n, d, a);
    } else {
      var init := ms[..n];
      LastWriteWins(init, d, a);
      var k :| LastWriteAt(init, k, d, a) && RegisterAll(init).domains[d][a] == init[k];
      assert LastWriteAt(ms, k, d, a);
    }
  }

  /** `ms[k]` is the first operation with domain `d`. */
  predicate FirstSeenAt(ms: seq<OperationMeta>, k: int, d: string) {
    && 0 <= k < |ms| && ms[k].domain == d
    && forall j :: 0 <= j < k ==> ms[j].domain != d
  }

  /** A domain's label is the raw tag of the first operation seen for it. */
  lemma {:induction false} FirstSeenLabel(ms: seq<OperationMeta>, d: string)
    requires d in RegisterAll(ms).domainLabels
    ensures exists k :: FirstSeenAt(ms, k, d) && RegisterAll(ms).domainLabels[d] == ms[k].tag
    decreases |ms|
  {
    var n := |ms| - 1;
    var init := ms[..n];
    assert forall k :: 0 <= k < n ==> init[k] == ms[k];
    RegisteredDomains(init, d);
    if d in RegisterAll(init).domainLabels {
      FirstSeenLabel(init, d);
      var k :| FirstSeenAt(init, k, d) && RegisterAll(init).domainLabels[d] == init[k].tag;
      assert FirstSeenAt(ms, k, d);
    } else {
      assert FirstSeenAt(ms, n, d);
    }
  }

  /** `xs` lists the strings of `s`, each once, in increasing order: what `sorted(s)` gives. */
  ghost predicate ListsSorted(xs: seq<string>, s: set<string>) {
    StrictlySorted(xs) && forall x :: x in xs <==> x in s
  }

  /**
   * The dict `to_public_dict` returns, one field per key: `action`,
   * `operation_id`, `method`, `path`, `summary`, `required_path_params`,
   * `required_query_params`, `body_required`, `request_media_types`,
   * `body_schema_types`, `body_required_fields`.
   */
  datatype PublicOperation = PublicOperation(
    action: string,
    operationId: string,
    httpMethod: string,
    path: string,
    summary: string,
    requiredPathParams: seq<string>,
    requiredQueryParams: seq<string>,
    bodyRequired: bool,
    requestMediaTypes: seq<string>,
    bodySchemaTypes: seq<string>,
    bodyRequiredFields: seq<string>)

  /**
   * `to_public_dict`: the public fields (domain, tag and description are not
   * among them), every set listed sorted, the media types as stored.
   */
  function ToPublicDict(m: OperationMeta): (p: PublicOperation)
    ensures p.action == m.action && p.operationId == m.operationId && p.httpMethod == m.httpMethod
    ensures p.path == m.path && p.summary == m.summary && p.bodyRequired == m.bodyRequired
    ensures p.requestMediaTypes == m.requestMediaTypes
    ensures ListsSorted(p.requiredPathParams, m.requiredPathParams)
    ensures ListsSorted(p.requiredQueryParams, m.requiredQueryParams)
    ensures ListsSorted(p.bodySchemaTypes, m.bodySchemaTypes)
    ensures ListsSorted(p.bodyRequiredFields, m.bodyRequiredFields)
  {
    PublicOperation(
      m.action, m.operationId, m.httpMethod, m.path, m.summary,
      SortedOfSet(m.requiredPathParams), SortedOfSet(m.requiredQueryParams), m.bodyRequired,
      m.requestMediaTypes, SortedOfSet(m.bodySchemaTypes), SortedOfSet(m.bodyRequiredFields))
  }

  /** One row of `list_domains`: the `{"domain": ..., "label": ...}` dict. */
  datatype DomainSummary = DomainSummary(domain: string, displayLabel: string)

  /** `list_domains`: the domains in increasing order, each with its label. */
  function ListDomains(reg: Registry): seq<DomainSummary>
    requires reg.domains.Keys <= reg.domainLabels.Keys
  {
    Summaries(SortedOfSet(reg.domains.Keys), reg.domainLabels)
  }

  /** Every row of `list_domains` is a domain with its label, and the rows are strictly increasing. */
  lemma ListDomainsSound(reg: Registry)
    requires reg.domains.Keys <= reg.domainLabels.Keys
    ensures var r := ListDomains(reg);
      && |r| == |reg.domains.Keys|
      && (forall k :: 0 <= k < |r| ==> r[k].domain in reg.domains && r[k].displayLabel == reg.domainLabels[r[k].domain])
      && (forall i, j :: 0 <= i < j < |r| ==> Lt(r[i].domain, r[j].domain))
  {
    var ds := SortedOfSet(reg.domains.Keys);
    var r := ListDomains(reg);
    assert forall k :: 0 <= k < |r| ==> r[k].domain == ds[k];
  }

  /** Every domain of the registry has a row in `list_domains`. */
  lemma ListDomainsComplete(reg: Registry, d: string)
    requires reg.domains.Keys <= reg.domainLabels.Keys && d in reg.domains
    ensures exists k :: 0 <= k < |ListDomains(reg)| && ListDomains(reg)[k].domain == d
  {
    var ds := SortedOfSet(reg.domains.Keys);
    var k :| 0 <= k < |ds| && ds[k] == d;
    assert ListDomains(reg)[k].domain == d;
  }

  /** Each domain of `ds` with its label. */
  function Summaries(ds: seq<string>, labels: map<string, string>): (r: seq<DomainSummary>)
    requires forall d :: d in ds ==> d in labels
    ensures |r| == |ds|
    ensures forall k :: 0 <= k < |ds| ==> r[k] == DomainSummary(ds[k], labels[ds[k]])
  {
    seq(|ds|, k requires 0 <= k < |ds| => DomainSummary(ds[k], labels[ds[k]]))
  }

  /** `r` holds the public form of every action of `actions`, in increasing order of action. */
  ghost predicate InActionOrder(r: seq<PublicOperation>, actions: map<string, OperationMeta>) {
    exists ks: seq<string> ::
      && StrictlySorted(ks) && (forall a :: a in ks <==> a in actions) && |ks| == |r|
      && forall k :: 0 <= k < |r| ==> r[k] == ToPublicDict(actions[ks[k]])
  }

  /** `list_actions`: nothing for an unknown or empty domain, otherwise every action in order. */
  function ListActions(reg: Registry, domain: string): (r: seq<PublicOperation>)
    ensures domain !in reg.domains ==> r == []
    ensures domain in reg.domains ==> InActionOrder(r, reg.domains[domain])
  {
    if domain !in reg.domains || reg.domains[domain] == map[] then []
    else
      var actions := reg.domains[domain];
      var ks := SortedOfSet(actions.Keys);
      var r := seq(|ks|, k requires 0 <= k < |ks| => ToPublicDict(actions[ks[k]]));
      assert InActionOrder(r, actions);
      r
  }

  /** In a valid registry `list_actions` is empty exactly for an unknown domain. */
  lemma ListActionsEmpty(reg: Registry, domain: string)
    requires ValidRegistry(reg)
    ensures ListActions(reg, domain) == [] <==> domain !in reg.domains
  {
    if domain in reg.domains {
      var actions := reg.domains[domain];
      assert actions != map[];
      var a :| a in actions;
      var ks := SortedOfSet(actions.Keys);
      assert a in ks;
      assert |ListActions(reg, domain)| == |ks|;
    }
  }

  /** `get_operation`: the operation filed under (domain, action), None when there is none. */
  function GetOperation(reg: Registry, domain: string, action: string): (r: Option<OperationMeta>)
    ensures r.Some? <==> domain in reg.domains && action in reg.domains[domain]
    ensures r.Some? ==> r.value == reg.domains[domain][action]
  {
    var actions := if domain in reg.domains then reg.domains[domain] else map[];
    if action in actions then Some(actions[action]) else None
  }
}
