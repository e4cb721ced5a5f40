/** `TriggerDiscovery` of pkg/xrt/xrtdiscovery.go: the guard on the discovery
    options, the options map sent with the request, and the discovery send. */
module Discovery {
  import opened Errors
  import opened Options
  import opened Messages
  import opened Policy
  import opened Pipeline
  import opened Xrt

  const DiscoveryDurationOption: string := "DiscoveryDuration"
  const TriggerFailed: string := "failed to trigger discovery"

  /** The options sent with a discovery trigger: the discovery duration in whole
      milliseconds under "DiscoveryDuration", then every extended option on top. */
  function DiscoveryRequestOptions(d: DiscoveryOptions): (options: map<string, Any>)
    ensures options.Keys == {DiscoveryDurationOption} + d.extendedDiscoveryOptions.Keys
    ensures forall k :: k in d.extendedDiscoveryOptions ==> options[k] == d.extendedDiscoveryOptions[k]
    ensures DiscoveryDurationOption !in d.extendedDiscoveryOptions ==>
              options[DiscoveryDurationOption] == IntValue(Milliseconds(d.discoveryDuration))
  {
    map[DiscoveryDurationOption := IntValue(Milliseconds(d.discoveryDuration))] + d.extendedDiscoveryOptions
  }

  /** Options built with `NewDiscoveryOptions` (no extended options) send only the duration. */
  lemma DefaultOptionsSendOnlyDuration(topic: string, handler: Option<Handler>, duration: Duration, timeout: Duration)
    ensures DiscoveryRequestOptions(NewDiscoveryOptions(topic, handler, duration, timeout))
            == map[DiscoveryDurationOption := IntValue(Milliseconds(duration))]
  {
  }

  /** The options map of `TriggerDiscovery`, built as `TriggerDiscovery` builds it: the
      default entry, then a loop copying every extended option over it. */
  method MergeDiscoveryOptions(d: DiscoveryOptions) returns (options: map<string, Any>)
    ensures options == DiscoveryRequestOptions(d)
  {
    var extended := d.extendedDiscoveryOptions;
    options := map[DiscoveryDurationOption := IntValue(Milliseconds(d.discoveryDuration))];
    var pending := extended.Keys;
    while pending != {}
      invariant pending <= extended.Keys
      invariant options.Keys == {DiscoveryDurationOption} + (extended.Keys - pending)
      invariant forall k :: k in extended.Keys - pending ==> options[k] == extended[k]
      invariant DiscoveryDurationOption !in extended.Keys - pending ==>
                  options[DiscoveryDurationOption] == IntValue(Milliseconds(d.discoveryDuration))
      decreases pending
    {
      var k :| k in pending;
      options := options[k := extended[k]];
      pending := pending - {k};
    }
  }

  /** The request a trigger sends. */
  function TriggerRequest(requestId: string, d: DiscoveryOptions): (r: Request)
    ensures r.requestId == requestId && r.client == ClientName
    ensures r.operation.DiscoveryTrigger? && r.operation.options == DiscoveryRequestOptions(d)
  {
    NewDiscoveryRequest(requestId, ClientName, DiscoveryRequestOptions(d))
  }

  /** What `TriggerDiscovery` does and returns. */
  function TriggerDiscoveryRun(requestTopic: string, responseTimeout: Duration, clientOptions: Option<ClientOptions>,
                               env: Env, requestId: string): (r: Run<Outcome>)
    // without discovery options: a contract error, and no request is sent
    ensures !HasDiscoveryOptions(clientOptions) ==>
              r.calls == [] && r.result.Fail? && Kind(r.result.error) == KindContractInvalid
    ensures HasDiscoveryOptions(clientOptions) ==>
              var d := clientOptions.value.discovery.value;
              var sent := ShapedRun(Discovery, requestTopic, responseTimeout, clientOptions, env, requestId,
                                    TriggerRequest(requestId, d));
              r.calls == sent.calls
              // a failure of the send is returned with its kind
              && (r.result.Pass? <==> sent.result.Pass?)
              && (r.result.Fail? ==> Kind(r.result.error) == Kind(sent.result.error)
                                     && r.result.error.message == TriggerFailed)
              // what is published is the marshalled trigger request, on the request topic
              && (forall k :: 0 <= k < |r.calls| && r.calls[k].Publish? ==>
                    r.calls[k].topic == requestTopic
                    && env.marshal(TriggerRequest(requestId, d)) == Ok(r.calls[k].data))
              // and its reply is awaited for base + duration + timeout
              && (forall k :: 0 <= k < |r.calls| && r.calls[k].Fetch? ==>
                    r.calls[k].budget == responseTimeout + d.discoveryDuration + d.discoveryTimeout)
  {
    if clientOptions.None? || clientOptions.value.discovery.None? then
      Run(Fail(NewCommonEdgeX(KindContractInvalid, DiscoveryOptionsMissing, None)), [])
    else
      var request := TriggerRequest(requestId, clientOptions.value.discovery.value);
      var sent := ShapedRun(Discovery, requestTopic, responseTimeout, clientOptions, env, request.requestId, request);
      Run(Annotate(sent.result, TriggerFailed), sent.calls)
  }

  /** `TriggerDiscovery`. */
  method TriggerDiscovery(c: Client, env: Env, requestId: string) returns (err: Outcome)
    requires c.Valid()
    modifies c`trace
    ensures var run := TriggerDiscoveryRun(c.requestTopic, c.responseTimeout, c.clientOptions, env, requestId);
            err == run.result && c.trace == old(c.trace) + run.calls
    ensures c.Valid()
  {
    if c.clientOptions.None? || c.clientOptions.value.discovery.None? {
      return Fail(NewCommonEdgeX(KindContractInvalid, DiscoveryOptionsMissing, None));
    }
    var options := MergeDiscoveryOptions(c.clientOptions.value.discovery.value);
    var request := NewDiscoveryRequest(requestId, ClientName, options);
    err := c.SendXrtDiscoveryRequest(env, request.requestId, request);
    if err.Fail? {
      return Fail(NewCommonEdgeX(Kind(err.error), TriggerFailed, Some(err.error)));
    }
    return Pass;
  }
}
