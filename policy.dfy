/** Which topic a request goes to and how long the client waits for its reply,
    for the three send shapes of pkg/xrt/xrt.go: a plain request, a discovery
    request and a command request. */
module Policy {
  import opened Errors
  import opened Options

  datatype Shape = Plain | Discovery | Command

  /** Where a request is published and the budget its reply is awaited with. */
  datatype Target = Target(topic: string, budget: Duration)

  const DiscoveryOptionsMissing: string := "please provide DiscoveryOptions for the discovery request"
  const CommandOptionsMissing: string := "please provide CommandOptions for the command request"

  /** The discovery wait budget: the base response timeout, the time the XRT spends
      discovering and the settle timeout, added together. */
  function DiscoveryBudget(responseTimeout: Duration, d: DiscoveryOptions): (budget: Duration)
    ensures budget - responseTimeout == d.discoveryDuration + d.discoveryTimeout
    ensures d.discoveryDuration >= 0 && d.discoveryTimeout >= 0 ==>
              budget >= responseTimeout && budget >= responseTimeout + d.discoveryDuration
  {
    responseTimeout + d.discoveryDuration + d.discoveryTimeout
  }

  /** The guards and target choices of `sendXrtRequest`, `sendXrtDiscoveryRequest`
      and `sendXrtCommandRequest`. */
  function SelectTarget(shape: Shape, requestTopic: string, responseTimeout: Duration,
                        clientOptions: Option<ClientOptions>): (r: Result<Target>)
    ensures r.Err? <==> (shape == Discovery && !HasDiscoveryOptions(clientOptions))
                        || (shape == Command && !HasCommandOptions(clientOptions))
    ensures r.Err? ==> Kind(r.error) == KindContractInvalid && r.error.cause == None
    ensures r.Ok? && shape == Command ==> r.value.topic == clientOptions.value.command.value.commandTopic
    ensures r.Ok? && shape != Command ==> r.value.topic == requestTopic
    ensures r.Ok? && shape != Discovery ==> r.value.budget == responseTimeout
    ensures r.Ok? && shape == Discovery ==>
              r.value.budget == responseTimeout + clientOptions.value.discovery.value.discoveryDuration
                                + clientOptions.value.discovery.value.discoveryTimeout
  {
    match shape
    case Plain => Ok(Target(requestTopic, responseTimeout))
    case Discovery =>
      if clientOptions.None? || clientOptions.value.discovery.None? then
        Err(NewCommonEdgeX(KindContractInvalid, DiscoveryOptionsMissing, None))
      else
        Ok(Target(requestTopic, DiscoveryBudget(responseTimeout, clientOptions.value.discovery.value)))
    case Command =>
      if clientOptions.None? || clientOptions.value.command.None? then
        Err(NewCommonEdgeX(KindContractInvalid, CommandOptionsMissing, None))
      else
        Ok(Target(clientOptions.value.command.value.commandTopic, responseTimeout))
  }

  /** A discovery with zero duration and zero timeout waits exactly as long as a plain request. */
  lemma ZeroDiscoveryIsPlain(requestTopic: string, responseTimeout: Duration, clientOptions: Option<ClientOptions>)
    requires HasDiscoveryOptions(clientOptions)
    requires clientOptions.value.discovery.value.discoveryDuration == 0
    requires clientOptions.value.discovery.value.discoveryTimeout == 0
    ensures SelectTarget(Discovery, requestTopic, responseTimeout, clientOptions)
            == SelectTarget(Plain, requestTopic, responseTimeout, clientOptions)
  {
  }
}
