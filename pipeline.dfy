/** The request pipeline of pkg/xrt/xrt.go as a specification: what a send does
    to its collaborators and what it returns, step by step — marshal, register
    the identity, publish, fetch, decode the typed reply, decode the common
    result, return the embedded error — with an early return at every step.

    The collaborators (the JSON codec, the message bus, the request table and
    the fetch helpers) are oracles bundled in `Env`; the calls the client makes
    on them are recorded as `Call`s. */
module Pipeline {
  import opened Errors
  import opened Options
  import opened Messages
  import opened Policy

  /** The collaborators of a send, each as the answer it gives.
      - `marshal`: `json.Marshal` of a request;
      - `publish`: `messageBus.PublishBinaryData(data, topic)`, nil or an error;
      - `fetch`: `FetchXRTResponse(ctx, id, requestMap, timeout)`;
      - `decodeResponse`: `json.Unmarshal` into the caller's response, nil or an error;
      - `decodeCommon`: `json.Unmarshal` into `xrtmodels.CommonResponse`;
      - `collect`: `FetchXRTResWithSubTimeout(ctx, id, requestMap, timeout, response)`,
        the replies of every node that answered in time, or an error. */
  datatype Env = Env(
    marshal: Request -> Result<Bytes>,
    publish: (Bytes, string) -> Option<EdgeX>,
    fetch: (string, Duration) -> Result<Bytes>,
    decodeResponse: Bytes -> Option<EdgeX>,
    decodeCommon: Bytes -> Result<CommonResponse>,
    collect: (string, Duration) -> Result<seq<NodeReply>>)

  /** A call the client makes on a collaborator that changes or waits on shared state. */
  datatype Call =
    | Register(id: string)                 // requestMap.Add(id)
    | Publish(topic: string, data: Bytes)  // messageBus.PublishBinaryData(data, topic)
    | Fetch(id: string, budget: Duration)  // FetchXRTResponse, one reply
    | Collect(id: string, budget: Duration) // FetchXRTResWithSubTimeout, every reply until the budget ends

  /** The result of a send together with the calls it made, in order. */
  datatype Run<R> = Run(result: R, calls: seq<Call>)

  const PublishFailed: string := "failed to send the XRT request"
  const DecodeFailed: string := "failed to JSON decoding command response: %v"

  predicate IsPrefix(a: seq<Call>, b: seq<Call>) {
    |a| <= |b| && a == b[..|a|]
  }

  /** The calls a send is allowed to make, in the only order it makes them:
      register, then publish, then wait. */
  function Protocol(id: string, topic: string, data: Bytes, wait: Call): seq<Call> {
    [Register(id), Publish(topic, data), wait]
  }

  /** The call at index `k` of a trace is in protocol order: a publish directly
      follows a registration, and a wait directly follows the publish of the
      request whose identity was registered just before it. */
  ghost predicate InOrderAt(trace: seq<Call>, k: nat)
    requires k < |trace|
  {
    (trace[k].Publish? ==> k > 0 && trace[k - 1].Register?)
    && ((trace[k].Fetch? || trace[k].Collect?) ==>
          k > 1 && trace[k - 1].Publish? && trace[k - 2] == Register(trace[k].id))
  }

  /** Every call of the trace is in protocol order: no request is published before
      its identity is registered, and no reply is awaited before it is published. */
  ghost predicate WellOrdered(trace: seq<Call>) {
    forall k: nat :: k < |trace| ==> InOrderAt(trace, k)
  }

  /** Appending the calls of one send, a prefix of the protocol, keeps a trace well ordered. */
  lemma AppendProtocolPrefix(trace: seq<Call>, calls: seq<Call>, id: string, topic: string, data: Bytes, wait: Call)
    requires WellOrdered(trace)
    requires IsPrefix(calls, Protocol(id, topic, data, wait))
    requires (wait.Fetch? || wait.Collect?) && wait.id == id
    ensures WellOrdered(trace + calls)
  {
    var all := trace + calls;
    var p := Protocol(id, topic, data, wait);
    forall k: nat | k < |all|
      ensures InOrderAt(all, k)
    {
      if k < |trace| {
        assert InOrderAt(trace, k);
        assert all[k] == trace[k];
        if k > 0 { assert all[k - 1] == trace[k - 1]; }
        if k > 1 { assert all[k - 2] == trace[k - 2]; }
      } else {
        var i := k - |trace|;
        assert all[k] == p[i];
        if i == 1 {
          assert all[k - 1] == p[0];
        } else if i == 2 {
          assert all[k - 1] == p[1];
          assert all[k - 2] == p[0];
        }
      }
    }
  }

  /** The two decodes of a fetched reply and the error embedded in it. */
  function DecodeReply(env: Env, bytes: Bytes): (o: Outcome)
    ensures o.Pass? <==> env.decodeResponse(bytes).None? && env.decodeCommon(bytes).Ok?
                         && env.decodeCommon(bytes).value.resultError.None?
    ensures env.decodeResponse(bytes).Some? ==> o.Fail? && Kind(o.error) == KindServerError
    ensures env.decodeResponse(bytes).None? && env.decodeCommon(bytes).Err? ==>
              o.Fail? && Kind(o.error) == KindServerError
    ensures env.decodeResponse(bytes).None? && env.decodeCommon(bytes).Ok?
            && env.decodeCommon(bytes).value.resultError.Some? ==>
              o == Fail(NewCommonEdgeXWrapper(env.decodeCommon(bytes).value.resultError.value))
  {
    match env.decodeResponse(bytes)
    case Some(e) => Fail(NewCommonEdgeX(KindServerError, DecodeFailed, Some(e)))
    case None =>
      match env.decodeCommon(bytes)
      case Err(e) => Fail(NewCommonEdgeX(KindServerError, DecodeFailed, Some(e)))
      case Ok(common) =>
        if common.resultError.Some? then Fail(NewCommonEdgeXWrapper(common.resultError.value)) else Pass
  }

  /** `sendXrtRequestWithTimeout`: one request, one awaited reply. */
  function SendRun(env: Env, topic: string, id: string, request: Request, budget: Duration): (r: Run<Outcome>)
    // a marshal failure returns before anything is registered
    ensures r.calls == [] <==> env.marshal(request).Err?
    ensures env.marshal(request).Err? ==> r.result == Fail(NewCommonEdgeXWrapper(env.marshal(request).error))
    // otherwise the identity is registered, then the marshalled request published
    ensures env.marshal(request).Ok? ==>
              var data := env.marshal(request).value;
              IsPrefix(r.calls, Protocol(id, topic, data, Fetch(id, budget))) && |r.calls| >= 2
              // a publish failure returns without fetching, keeping the transport's kind
              && (|r.calls| == 3 <==> env.publish(data, topic).None?)
              && (env.publish(data, topic).Some? ==>
                    r.result.Fail? && Kind(r.result.error) == Kind(env.publish(data, topic).value)
                    && r.result.error.message == PublishFailed)
              // a fetch failure is passed on with its kind; a fetched reply is decoded
              && (env.publish(data, topic).None? ==>
                    r.result == match env.fetch(id, budget)
                                case Err(e) => Fail(NewCommonEdgeXWrapper(e))
                                case Ok(bytes) => DecodeReply(env, bytes))
    // success only after the whole protocol
    ensures r.result.Pass? ==> |r.calls| == 3 && r.calls[2] == Fetch(id, budget)
  {
    match env.marshal(request)
    case Err(e) => Run(Fail(NewCommonEdgeXWrapper(e)), [])
    case Ok(data) =>
      match env.publish(data, topic)
      case Some(e) => Run(Fail(NewCommonEdgeX(Kind(e), PublishFailed, Some(e))), [Register(id), Publish(topic, data)])
      case None =>
        var calls := Protocol(id, topic, data, Fetch(id, budget));
        match env.fetch(id, budget)
        case Err(e) => Run(Fail(NewCommonEdgeXWrapper(e)), calls)
        case Ok(bytes) => Run(DecodeReply(env, bytes), calls)
  }

  /** `sendXrtRequestWithSubTimeout`: one request, the replies of every node that
      answers before the subscribe timeout ends. */
  function FanInRun(env: Env, topic: string, id: string, request: Request,
                    subscribeTimeout: Duration): (r: Run<Result<seq<NodeReply>>>)
    ensures r.calls == [] <==> env.marshal(request).Err?
    ensures env.marshal(request).Err? ==> r.result == Err(NewCommonEdgeXWrapper(env.marshal(request).error))
    ensures env.marshal(request).Ok? ==>
              var data := env.marshal(request).value;
              IsPrefix(r.calls, Protocol(id, topic, data, Collect(id, subscribeTimeout))) && |r.calls| >= 2
              && (|r.calls| == 3 <==> env.publish(data, topic).None?)
              && (env.publish(data, topic).Some? ==>
                    r.result.Err? && Kind(r.result.error) == Kind(env.publish(data, topic).value)
                    && r.result.error.message == PublishFailed)
              && (env.publish(data, topic).None? ==>
                    r.result == match env.collect(id, subscribeTimeout)
                                case Err(e) => Err(NewCommonEdgeXWrapper(e))
                                case Ok(replies) => Ok(replies))
    ensures r.result.Ok? ==> |r.calls| == 3 && r.calls[2] == Collect(id, subscribeTimeout)
  {
    match env.marshal(request)
    case Err(e) => Run(Err(NewCommonEdgeXWrapper(e)), [])
    case Ok(data) =>
      match env.publish(data, topic)
      case Some(e) => Run(Err(NewCommonEdgeX(Kind(e), PublishFailed, Some(e))), [Register(id), Publish(topic, data)])
      case None =>
        var calls := Protocol(id, topic, data, Collect(id, subscribeTimeout));
        match env.collect(id, subscribeTimeout)
        case Err(e) => Run(Err(NewCommonEdgeXWrapper(e)), calls)
        case Ok(replies) => Run(Ok(replies), calls)
  }

  /** A send of the given shape: the configuration guard, then the pipeline on the
      shape's topic and budget. */
  function ShapedRun(shape: Shape, requestTopic: string, responseTimeout: Duration,
                     clientOptions: Option<ClientOptions>, env: Env, id: string, request: Request): (r: Run<Outcome>)
    // a missing option group fails before anything is marshalled, registered or published
    ensures SelectTarget(shape, requestTopic, responseTimeout, clientOptions).Err? ==>
              r.calls == [] && r.result.Fail? && Kind(r.result.error) == KindContractInvalid
    ensures SelectTarget(shape, requestTopic, responseTimeout, clientOptions).Ok? ==>
              var t := SelectTarget(shape, requestTopic, responseTimeout, clientOptions).value;
              r == SendRun(env, t.topic, id, request, t.budget)
    // command requests go to the command topic, the others to the request topic
    ensures forall k :: 0 <= k < |r.calls| && r.calls[k].Publish? ==>
              r.calls[k].topic == if shape == Command then clientOptions.value.command.value.commandTopic
                                  else requestTopic
    // discovery requests wait base + duration + timeout, the others the base timeout
    ensures forall k :: 0 <= k < |r.calls| && r.calls[k].Fetch? ==>
              r.calls[k].budget == if shape == Discovery
                                   then DiscoveryBudget(responseTimeout, clientOptions.value.discovery.value)
                                   else responseTimeout
    ensures forall k :: 0 <= k < |r.calls| ==> !r.calls[k].Collect?
  {
    match SelectTarget(shape, requestTopic, responseTimeout, clientOptions)
    case Err(e) => Run(Fail(e), [])
    case Ok(t) => SendRun(env, t.topic, id, request, t.budget)
  }

  /** Every single send keeps the client's trace well ordered. */
  lemma SendRunKeepsOrder(trace: seq<Call>, env: Env, topic: string, id: string, request: Request, budget: Duration)
    requires WellOrdered(trace)
    ensures WellOrdered(trace + SendRun(env, topic, id, request, budget).calls)
  {
    var calls := SendRun(env, topic, id, request, budget).calls;
    if env.marshal(request).Ok? {
      AppendProtocolPrefix(trace, calls, id, topic, env.marshal(request).value, Fetch(id, budget));
    } else {
      assert trace + calls == trace;
    }
  }

  /** Every fan-in send keeps the client's trace well ordered. */
  lemma FanInRunKeepsOrder(trace: seq<Call>, env: Env, topic: string, id: string, request: Request,
                           subscribeTimeout: Duration)
    requires WellOrdered(trace)
    ensures WellOrdered(trace + FanInRun(env, topic, id, request, subscribeTimeout).calls)
  {
    var calls := FanInRun(env, topic, id, request, subscribeTimeout).calls;
    if env.marshal(request).Ok? {
      AppendProtocolPrefix(trace, calls, id, topic, env.marshal(request).value, Collect(id, subscribeTimeout));
    } else {
      assert trace + calls == trace;
    }
  }
}
