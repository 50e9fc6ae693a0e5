/**
 * The admin API seen from the engine: the requests it is sent and an
 * oracle that answers each request, standing for the HTTP client and the
 * remote gateway.
 */
module Gateway {
  import opened Resources

  /** Paths are relative to the admin URL, e.g. `services/billing/routes`. */
  datatype Request =
    | Post(path: string, body: Item)
    | Delete(path: string)

  /** A transport failure, or a status with the identifier found in the body. */
  datatype Reply =
    | TransportError
    | Response(status: int, id: string)

  /** The remote side: a status and an optional created identifier per request. */
  type Server = Request -> Reply

  /** A creation succeeds only with the `201 Created` status. */
  predicate Created(reply: Reply)
  {
    reply.Response? && reply.status == 201
  }

  predicate IsPluginPost(request: Request)
  {
    request.Post? && request.body.PluginItem?
  }

  /**
   * The HTTP client bound to one admin API: every request it is given is
   * sent, in order, and answered by the server.
   */
  class Connection {
    const server: Server
    /** Every request sent so far, oldest first. */
    var sent: seq<Request>

    constructor (server: Server)
      ensures this.server == server && sent == []
    {
      this.server := server;
      sent := [];
    }

    method Send(request: Request) returns (reply: Reply)
      modifies this
      ensures sent == old(sent) + [request]
      ensures reply == server(request)
    {
      sent := sent + [request];
      reply := server(request);
    }
  }
}
