/** The XRT client of pkg/xrt/xrt.go: its configuration, the one setting that
    changes at run time (the response timeout), and its send primitives.

    The calls the client makes on its collaborators are kept in the ghost
    field `trace`; a send appends to it the calls its specification in
    `Pipeline` names, in the same order. */
module Xrt {
  import opened Errors
  import opened Options
  import opened Messages
  import opened Policy
  import opened Pipeline

  class Client {
    const requestTopic: string
    const replyTopic: string
    var responseTimeout: Duration
    const clientOptions: Option<ClientOptions>
    ghost var trace: seq<Call>

    /** Every call the client has made follows the register, publish, wait order. */
    ghost predicate Valid()
      reads this
    {
      WellOrdered(trace)
    }

    /** The fields `NewXrtClient` sets; starting the listeners is not modelled here. */
    constructor (requestTopic: string, replyTopic: string, responseTimeout: Duration,
                 clientOptions: Option<ClientOptions>)
      ensures this.requestTopic == requestTopic && this.replyTopic == replyTopic
      ensures this.responseTimeout == responseTimeout && this.clientOptions == clientOptions
      ensures trace == [] && Valid()
    {
      this.requestTopic := requestTopic;
      this.replyTopic := replyTopic;
      this.responseTimeout := responseTimeout;
      this.clientOptions := clientOptions;
      trace := [];
    }

    method SetResponseTimeout(responseTimeout: Duration)
      requires Valid()
      modifies this`responseTimeout
      ensures this.responseTimeout == responseTimeout
      ensures Valid()
    {
      this.responseTimeout := responseTimeout;
    }

    /** `sendXrtRequest`: to the request topic, waiting the response timeout. */
    method SendXrtRequest(env: Env, requestId: string, request: Request) returns (err: Outcome)
      requires Valid()
      modifies this`trace
      ensures var run := ShapedRun(Plain, requestTopic, responseTimeout, clientOptions, env, requestId, request);
              err == run.result && trace == old(trace) + run.calls
      ensures Valid()
    {
      err := SendXrtRequestWithTimeout(env, requestTopic, requestId, request, responseTimeout);
    }

    /** `sendXrtDiscoveryRequest`: to the request topic, waiting the discovery budget. */
    method SendXrtDiscoveryRequest(env: Env, requestId: string, request: Request) returns (err: Outcome)
      requires Valid()
      modifies this`trace
      ensures var run := ShapedRun(Discovery, requestTopic, responseTimeout, clientOptions, env, requestId, request);
              err == run.result && trace == old(trace) + run.calls
      ensures Valid()
    {
      if clientOptions.None? || clientOptions.value.discovery.None? {
        return Fail(NewCommonEdgeX(KindContractInvalid, DiscoveryOptionsMissing, None));
      }
      var discovery := clientOptions.value.discovery.value;
      var timeout := responseTimeout + discovery.discoveryDuration + discovery.discoveryTimeout;
      err := SendXrtRequestWithTimeout(env, requestTopic, requestId, request, timeout);
    }

    /** `sendXrtCommandRequest`: to the command topic, waiting the response timeout. */
    method SendXrtCommandRequest(env: Env, requestId: string, request: Request) returns (err: Outcome)
      requires Valid()
      modifies this`trace
      ensures var run := ShapedRun(Command, requestTopic, responseTimeout, clientOptions, env, requestId, request);
              err == run.result && trace == old(trace) + run.calls
      ensures Valid()
    {
      if clientOptions.None? || clientOptions.value.command.None? {
        return Fail(NewCommonEdgeX(KindContractInvalid, CommandOptionsMissing, None));
      }
      err := SendXrtRequestWithTimeout(env, clientOptions.value.command.value.commandTopic, requestId, request,
                                       responseTimeout);
    }

    /** `sendXrtRequestWithTimeout`: marshal, register, publish, fetch, decode twice,
        returning at the first step that fails. */
    method SendXrtRequestWithTimeout(env: Env, topic: string, requestId: string, request: Request,
                                     timeout: Duration) returns (err: Outcome)
      requires Valid()
      modifies this`trace
      ensures var run := SendRun(env, topic, requestId, request, timeout);
              err == run.result && trace == old(trace) + run.calls
      ensures Valid()
    {
      SendRunKeepsOrder(trace, env, topic, requestId, request, timeout);
      var jsonData := env.marshal(request);
      if jsonData.Err? {
        return Fail(NewCommonEdgeXWrapper(jsonData.error));
      }
      // the reply channel exists before the request is published
      trace := trace + [Register(requestId)];
      var published := env.publish(jsonData.value, topic);
      trace := trace + [Publish(topic, jsonData.value)];
      if published.Some? {
        return Fail(NewCommonEdgeX(Kind(published.value), PublishFailed, published));
      }
      var fetched := env.fetch(requestId, timeout);
      trace := trace + [Fetch(requestId, timeout)];
      if fetched.Err? {
        return Fail(NewCommonEdgeXWrapper(fetched.error));
      }
      var decoded := env.decodeResponse(fetched.value);
      if decoded.Some? {
        return Fail(NewCommonEdgeX(KindServerError, DecodeFailed, decoded));
      }
      var commonResponse := env.decodeCommon(fetched.value);
      if commonResponse.Err? {
        return Fail(NewCommonEdgeX(KindServerError, DecodeFailed, Some(commonResponse.error)));
      }
      if commonResponse.value.resultError.Some? {
        return Fail(NewCommonEdgeXWrapper(commonResponse.value.resultError.value));
      }
      return Pass;
    }

    /** `sendXrtRequestWithSubTimeout`: marshal, register, publish, then collect the
        replies of every node until the subscribe timeout ends. */
    method SendXrtRequestWithSubTimeout(env: Env, topic: string, requestId: string, request: Request,
                                        subscribeTimeout: Duration) returns (response: Result<seq<NodeReply>>)
      requires Valid()
      modifies this`trace
      ensures var run := FanInRun(env, topic, requestId, request, subscribeTimeout);
              response == run.result && trace == old(trace) + run.calls
      ensures Valid()
    {
      FanInRunKeepsOrder(trace, env, topic, requestId, request, subscribeTimeout);
      var jsonData := env.marshal(request);
      if jsonData.Err? {
        return Err(NewCommonEdgeXWrapper(jsonData.error));
      }
      trace := trace + [Register(requestId)];
      var published := env.publish(jsonData.value, topic);
      trace := trace + [Publish(topic, jsonData.value)];
      if published.Some? {
        return Err(NewCommonEdgeX(Kind(published.value), PublishFailed, published));
      }
      var collected := env.collect(requestId, subscribeTimeout);
      trace := trace + [Collect(requestId, subscribeTimeout)];
      if collected.Err? {
        return Err(NewCommonEdgeXWrapper(collected.error));
      }
      return Ok(collected.value);
    }
  }
}
