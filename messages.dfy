/** The wire-level values the client exchanges with the XRT: requests as the
    `xrtmodels` constructors build them, and the parts of a reply the client
    reads. The request identity that the constructors generate is supplied
    by the caller of the model. */
module Messages {
  import opened Errors
  import opened Options

  type Bytes = seq<bv8>

  /** The client name every request carries (`clientName`). */
  const ClientName: string := "central-go-client"

  /** What a request asks the XRT to do, with the arguments the client passes. */
  datatype Operation =
    | ComponentUpdate(component: string, config: map<string, Any>)
    | DiscoveryTrigger(options: map<string, Any>)
    | ComponentDiscover(category: string)

  datatype Request = Request(requestId: string, client: string, operation: Operation)

  /** The part of every reply the reply handler parses: its request identity. */
  datatype BaseResponse = BaseResponse(requestId: string)

  /** A reply decoded as `xrtmodels.CommonResponse`; `resultError` is the value of
      `Result.Error()`, present when the XRT reports a failure. */
  datatype CommonResponse = CommonResponse(requestId: string, resultError: Option<EdgeX>)

  /** One node's answer to a fan-in request (`xrtmodels.MultiComponentsResponse`). */
  datatype NodeReply = NodeReply(payload: Bytes)

  function NewComponentUpdateRequest(requestId: string, name: string, client: string,
                                     config: map<string, Any>): (r: Request)
    ensures r.requestId == requestId && r.client == client
    ensures r.operation == ComponentUpdate(name, config)
  {
    Request(requestId, client, ComponentUpdate(name, config))
  }

  function NewDiscoveryRequest(requestId: string, client: string, options: map<string, Any>): (r: Request)
    ensures r.requestId == requestId && r.client == client && r.operation == DiscoveryTrigger(options)
  {
    Request(requestId, client, DiscoveryTrigger(options))
  }

  function NewComponentDiscoverRequest(requestId: string, client: string, category: string): (r: Request)
    ensures r.requestId == requestId && r.client == client && r.operation == ComponentDiscover(category)
  {
    Request(requestId, client, ComponentDiscover(category))
  }
}
