/** The client configuration of pkg/xrt/xrt.go: the three optional option
    groups and their constructors. A Go pointer that may be nil is an
    `Option`; a Go `MessageHandler` that may be nil is an `Option<Handler>`. */
module Options {
  import opened Errors

  /** A `time.Duration`: a count of nanoseconds (no 64-bit overflow). */
  type Duration = int

  const Millisecond: Duration := 1_000_000

  /** A caller-supplied message handler, known only by its identity. */
  type Handler = nat

  /** A value of Go type `any` as found in option and config maps. */
  datatype Any = IntValue(i: int) | StringValue(s: string) | OtherValue(id: nat)

  datatype CommandOptions = CommandOptions(
    commandTopic: string,
    discoveryTopic: string,
    discoveryMessageHandler: Option<Handler>)

  datatype DiscoveryOptions = DiscoveryOptions(
    discoveryTopic: string,
    discoveryMessageHandler: Option<Handler>,
    discoveryDuration: Duration,
    discoveryTimeout: Duration,
    extendedDiscoveryOptions: map<string, Any>)

  datatype StatusOptions = StatusOptions(
    statusTopic: string,
    statusMessageHandler: Option<Handler>)

  datatype ClientOptions = ClientOptions(
    command: Option<CommandOptions>,
    discovery: Option<DiscoveryOptions>,
    status: Option<StatusOptions>)

  /** The client was given command options (`clientOptions != nil && CommandOptions != nil`). */
  predicate HasCommandOptions(opts: Option<ClientOptions>) {
    opts.Some? && opts.value.command.Some?
  }

  /** The client was given discovery options (`clientOptions != nil && DiscoveryOptions != nil`). */
  predicate HasDiscoveryOptions(opts: Option<ClientOptions>) {
    opts.Some? && opts.value.discovery.Some?
  }

  function NewClientOptions(commandOptions: Option<CommandOptions>, discoveryOptions: Option<DiscoveryOptions>,
                            statusOptions: Option<StatusOptions>): (r: ClientOptions)
    ensures r.command == commandOptions && r.discovery == discoveryOptions && r.status == statusOptions
  {
    ClientOptions(commandOptions, discoveryOptions, statusOptions)
  }

  function NewCommandOptions(commandTopic: string, discoveryTopic: string,
                             discoveryMessageHandler: Option<Handler>): (r: CommandOptions)
    ensures r.commandTopic == commandTopic && r.discoveryTopic == discoveryTopic
    ensures r.discoveryMessageHandler == discoveryMessageHandler
  {
    CommandOptions(commandTopic, discoveryTopic, discoveryMessageHandler)
  }

  function NewDiscoveryOptionsExtended(discoveryTopic: string, discoveryMessageHandler: Option<Handler>,
                                       discoveryDuration: Duration, discoveryTimeout: Duration,
                                       extendedDiscoveryOptions: map<string, Any>): (r: DiscoveryOptions)
    ensures r.discoveryTopic == discoveryTopic && r.discoveryMessageHandler == discoveryMessageHandler
    ensures r.discoveryDuration == discoveryDuration && r.discoveryTimeout == discoveryTimeout
    ensures r.extendedDiscoveryOptions == extendedDiscoveryOptions
  {
    DiscoveryOptions(discoveryTopic, discoveryMessageHandler, discoveryDuration, discoveryTimeout,
                     extendedDiscoveryOptions)
  }

  /** The short constructor is the extended one with no extended options. */
  function NewDiscoveryOptions(discoveryTopic: string, discoveryMessageHandler: Option<Handler>,
                               discoveryDuration: Duration, discoveryTimeout: Duration): (r: DiscoveryOptions)
    ensures r.extendedDiscoveryOptions == map[]
    ensures r.discoveryTopic == discoveryTopic && r.discoveryMessageHandler == discoveryMessageHandler
    ensures r.discoveryDuration == discoveryDuration && r.discoveryTimeout == discoveryTimeout
  {
    NewDiscoveryOptionsExtended(discoveryTopic, discoveryMessageHandler, discoveryDuration, discoveryTimeout, map[])
  }

  function NewStatusOptions(statusTopic: string, statusMessageHandler: Option<Handler>): (r: StatusOptions)
    ensures r.statusTopic == statusTopic && r.statusMessageHandler == statusMessageHandler
  {
    StatusOptions(statusTopic, statusMessageHandler)
  }

  /** `Duration.Milliseconds()`: integer division by one million, truncated toward
      zero as Go's `/` on int64 does (Dafny's own `/` rounds down instead). */
  function Milliseconds(d: Duration): (ms: int)
    ensures d >= 0 ==> 0 <= ms && ms * Millisecond <= d < (ms + 1) * Millisecond
    ensures d < 0 ==> ms <= 0 && (ms - 1) * Millisecond < d <= ms * Millisecond
  {
    if d >= 0 then d / Millisecond else -((-d) / Millisecond)
  }
}
