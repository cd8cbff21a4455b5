/**
 * `dispatch_domain_action` end to end: the validation chain decides, and a
 * request that passes it is handed to the API client exactly once.
 */
module DomainTools {
  import opened Models
  import opened OperationRegistry
  import opened Dispatcher
  import opened Client

  /**
   * A request the chain answers leaves the client untouched; a delegated
   * one makes exactly the one `execute_operation` call whose result is
   * returned unchanged. Either way the envelope names the requested domain.
   */
  method DispatchDomainAction(reg: Registry, client: ApiClient, req: DispatchRequest) returns (r: ExecResult)
    modifies client
    ensures Dispatch(reg, req).Respond? ==>
              r == Returned(Dispatch(reg, req).envelope)
              && client.sent == old(client.sent) && client.authenticated == old(client.authenticated)
    ensures Dispatch(reg, req).Delegate? ==>
              var d := Dispatch(reg, req);
              var run := Execute(client.upstream, old(client.authenticated), |old(client.sent)|,
                                 d.domain, d.operation, d.invocation);
              r == run.result && client.authenticated == run.authenticated
              && client.sent == old(client.sent) + run.requests
    ensures r.Returned? ==> r.envelope.domain == req.domain
  {
    var d := Dispatch(reg, req);
    match d {
      case Respond(envelope) =>
        return Returned(envelope);
      case Delegate(domain, operation, invocation) =>
        ExecutePromises(client.upstream, client.authenticated, |client.sent|, domain, operation, invocation);
        r := client.ExecuteOperation(domain, operation, invocation);
    }
  }
}
