# XRT client: a Dafny model

This project models the request/response client that the central services use to manage an
XRT instance over a message bus (`pkg/xrt`).

The model covers six parts:

- **Configuration.** The three optional option groups (command, discovery, status) and
  their constructors. A nil Go pointer or nil handler becomes an `Option`.
- **Subscriptions.** Which topics the client listens on, and where each topic's messages
  are routed (`createSubscriptions`).
- **Send shapes.** A plain request, a discovery request and a command request. For each,
  the model gives the guard on the option groups, the topic and the wait budget.
- **The send pipeline.** The model covers `sendXrtRequestWithTimeout` and its fan-in
  variant `sendXrtRequestWithSubTimeout`:
  - the steps run in order: marshal, register the request identity, publish, wait, decode
    the typed reply, decode the common result, return the error it carries;
  - each step has its own early return.
- **Reply routing.** The reply handler hands a reply to the waiting call only when that
  call's identity is registered.
- **The public operations.** `TriggerDiscovery` builds its options map with a loop, then
  sends on the discovery path. `UpdateLuaScript`, `UpdateComponent` and
  `DiscoverComponents` each build one request and choose a send shape.

## How the model is built

- **Collaborators are oracles.** The JSON codec, the message bus, the request table and
  its fetch helpers are given as answers, bundled in `Pipeline.Env`.
- **The client's calls are recorded.** `Xrt.Client` keeps a ghost `trace` of the calls it
  makes that change or wait on shared state: `Register`, `Publish`, `Fetch` and `Collect`.
- **Specification functions.** Each imperative operation of the client is proved equal to
  a specification function: `SendRun`, `FanInRun`, `ShapedRun`, `TriggerDiscoveryRun`,
  `CommandOperationRun` and `DiscoverComponentsRun`. Each gives both the result and the
  calls appended to the trace. What the Go code promises is stated and proved on those
  functions.
- **Class invariant.** `Client.Valid()` says the whole trace follows the order
  register → publish → wait. Every send keeps it.
- **Durations** are integer nanoseconds.
- **Errors.** An EdgeX error carries a kind, a message and the error it wraps.
  `Errors.Kind` reads the kind as the EdgeX errors library does: the first kind other than
  `KindUnknown` along the chain of wrapped errors.

Modules:

| file | module | models |
|---|---|---|
| errors.dfy | `Errors` | EdgeX errors, `Kind`, the wrappers |
| options.dfy | `Options` | option groups, their constructors, `Duration.Milliseconds` |
| messages.dfy | `Messages` | requests and the parts of replies the client reads |
| subscriptions.dfy | `Subscriptions` | `createSubscriptions`, `subscription` |
| policy.dfy | `Policy` | guards, topics and budgets of the three send shapes |
| pipeline.dfy | `Pipeline` | the send pipeline as specification functions; the trace order |
| client.dfy | `Xrt` | `Client`: its fields, `SetResponseTimeout`, the send methods |
| routing.dfy | `ReplyRouting` | `commandReplyHandler` |
| discovery.dfy | `Discovery` | `TriggerDiscovery` |
| components.dfy | `Components` | `UpdateLuaScript`, `UpdateComponent`, `DiscoverComponents` |

## Model

| member | source | states |
|---|---|---|
| Errors.NewCommonEdgeXWrapper | pkg/xrt/xrt.go:156-158 | The wrapper reports the same kind as the error it wraps, wraps exactly that error, and is a new error distinct from it. |
| Errors.Annotate | pkg/xrt/xrtdiscovery.go:31-33 | The `if err != nil { NewCommonEdgeX(Kind(err), msg, err) }` pattern of every public operation. Success stays success. A failure keeps its kind, takes the operation's message and wraps the original error. |
| Options.NewClientOptions | pkg/xrt/xrt.go:91-97 | Each group is stored as given. |
| Options.NewCommandOptions | pkg/xrt/xrt.go:99-105 | The command topic, discovery topic and handler are stored as given. |
| Options.NewDiscoveryOptionsExtended | pkg/xrt/xrt.go:111-119 | Every field, including the extended map, is stored as given. |
| Options.NewDiscoveryOptions | pkg/xrt/xrt.go:107-109 | The same fields as the extended constructor, with an empty extended map. |
| Options.NewStatusOptions | pkg/xrt/xrt.go:121-126 | The status topic and handler are stored as given. |
| Options.Milliseconds | pkg/xrt/xrtdiscovery.go:20-21 | The whole milliseconds of a duration, truncated toward zero. For d ≥ 0, ms·10⁶ ≤ d < (ms+1)·10⁶. For d < 0, the bound is mirrored and ms ≤ 0. |
| Subscriptions.NewSubscription | pkg/xrt/xrt.go:309-317 | A subscription to the given topic whose messages go to the given handler. |
| Subscriptions.Wanted | pkg/xrt/xrt.go:292-305 | A group asks for a subscription iff its topic is non-empty and its handler is non-nil. The subscription then routes that topic to that handler. |
| Subscriptions.Slots | pkg/xrt/xrt.go:282-307 | There are four candidates, in order: reply, command discovery, discovery, status. The reply candidate exists iff the reply topic is non-empty, and routes the reply topic to the request table. Each later candidate exists iff its group is given, its topic is non-empty and its handler is non-nil; it then routes that group's topic to that group's handler. Nil client options leave only the reply candidate. |
| Subscriptions.Present | pkg/xrt/xrt.go:283-306 | Collecting the candidates that exist never lengthens the list. When every candidate exists, none is lost. |
| Subscriptions.PresentAppend | pkg/xrt/xrt.go:283-306 | Collecting distributes over concatenation, which is what successive `append`s rely on. |
| Subscriptions.PresentAt | pkg/xrt/xrt.go:283-306 | An existing candidate appears in the list exactly once, at its rank (the number of existing candidates before it). |
| Subscriptions.RankMonotone | pkg/xrt/xrt.go:283-306 | Ranks never decrease along the candidates, so the list keeps their order. |
| Subscriptions.SlotsConcatenated | pkg/xrt/xrt.go:283-306 | The list is the four candidates' contributions concatenated in the order the Go code appends them. |
| Subscriptions.CreateSubscriptions | pkg/xrt/xrt.go:282-317 | The list built by successive appends, with the early return on nil options, equals the reply, command, discovery and status contributions in that order. |
| Subscriptions.ReplySubscriptionFirst | pkg/xrt/xrt.go:284-286 | A reply subscription exists iff the reply topic is non-empty, and it is then the first element. No other element routes to the request table. |
| Subscriptions.NoOptionsOnlyReply | pkg/xrt/xrt.go:288-290 | With nil client options, the list is the reply subscription alone, or empty when the reply topic is empty. |
| Subscriptions.RankSkip | pkg/xrt/xrt.go:291-306 | A group that asks for nothing adds nothing. |
| Subscriptions.SubscriptionsOrdered | pkg/xrt/xrt.go:282-307 | The list has at most four elements. Every group, the status group included, contributes exactly one element when it asks, in its place (the rank advances by one), and none when it does not (the rank stays). The order is reply, command discovery, discovery, status. |
| Policy.DiscoveryBudget | pkg/xrt/xrt.go:142 | The discovery budget exceeds the base timeout by exactly duration + timeout. It is at least the base timeout when both are non-negative. |
| Policy.SelectTarget | pkg/xrt/xrt.go:133-152 | A discovery send fails iff it has no discovery options, and a command send iff it has no command options. The plain shape never fails. The failure is `KindContractInvalid` with nothing wrapped. A command send goes to the command topic, the other shapes to the request topic. A discovery send waits base + duration + timeout; the other shapes wait the base timeout. |
| Pipeline.AppendProtocolPrefix | pkg/xrt/xrt.go:160-168 | Appending any prefix of register → publish → wait for one identity keeps a trace in protocol order. |
| Pipeline.DecodeReply | pkg/xrt/xrt.go:173-187 | Success iff both decodes succeed and the common result carries no error. A failure of either decode is `KindServerError`. A carried error is returned wrapped. |
| Pipeline.SendRun | pkg/xrt/xrt.go:154-188 | A marshal failure is returned wrapped, before anything is registered. Otherwise the calls are a prefix of register(id), publish(topic, data), fetch(id, budget), so the identity is registered before publishing. A publish failure returns without fetching, keeps the bus error's kind and carries "failed to send the XRT request". After publishing, a fetch failure is returned wrapped and fetched bytes are decoded. Success only after all three calls. |
| Pipeline.FanInRun | pkg/xrt/xrt.go:190-212 | The same order and early returns as the single send, with a collect for the subscribe timeout in place of the fetch. A collect failure is returned wrapped; otherwise every node's reply is returned. |
| Pipeline.ShapedRun | pkg/xrt/xrt.go:133-152 | A missing option group fails with `KindContractInvalid` and no calls: nothing is marshalled, registered or published. Otherwise it is the single send on the chosen topic and budget. Publishes go to the command topic for command sends and to the request topic otherwise. The fetch budget is the discovery budget for discovery sends and the base timeout otherwise. There is never a collect. |
| Pipeline.SendRunKeepsOrder | pkg/xrt/xrt.go:154-168 | Every single send, on every path, keeps the trace in protocol order. |
| Pipeline.FanInRunKeepsOrder | pkg/xrt/xrt.go:190-206 | Every fan-in send, on every path, keeps the trace in protocol order. |
| Xrt.Client.constructor | pkg/xrt/xrt.go:71-80 | The client's fields are set as given; the trace is empty and in order. |
| Xrt.Client.SetResponseTimeout | pkg/xrt/xrt.go:128-130 | Only the response timeout changes, to the new value; the trace stays in order. |
| Xrt.Client.SendXrtRequest | pkg/xrt/xrt.go:133-136 | The plain send: request topic, base timeout. It keeps the trace in order. |
| Xrt.Client.SendXrtDiscoveryRequest | pkg/xrt/xrt.go:138-144 | The discovery send: the guard, then request topic with the discovery budget. It keeps the trace in order. |
| Xrt.Client.SendXrtCommandRequest | pkg/xrt/xrt.go:147-152 | The command send: the guard, then command topic with the base timeout. It keeps the trace in order. |
| Xrt.Client.SendXrtRequestWithTimeout | pkg/xrt/xrt.go:154-188 | The step-by-step pipeline returns what `SendRun` returns and appends exactly its calls to the trace, keeping it in order. |
| Xrt.Client.SendXrtRequestWithSubTimeout | pkg/xrt/xrt.go:190-212 | The fan-in pipeline returns what `FanInRun` returns and appends exactly its calls, keeping the trace in order. |
| ReplyRouting.RouteReply | pkg/xrt/xrt.go:259-280 | A reply is delivered iff its payload converts to bytes, parses as an XRT reply, and its identity is registered. It is then delivered to that identity, with the bytes unchanged. A conversion failure, a parse failure and an unregistered identity each give a distinct non-delivery. The table is only read. |
| ReplyRouting.DeliveryIgnoresOtherCalls | pkg/xrt/xrt.go:271-278 | Registering more identities leaves a delivered reply's destination unchanged. |
| ReplyRouting.StrayOnlyForUnknownIdentity | pkg/xrt/xrt.go:271-275 | A stray reply is stray only because its own identity is unknown: once that identity is registered it is delivered there. |
| Discovery.DiscoveryRequestOptions | pkg/xrt/xrtdiscovery.go:20-25 | The keys are exactly {"DiscoveryDuration"} ∪ the extended keys. Every extended entry appears unchanged, so an extended "DiscoveryDuration" overrides the default. Without one, "DiscoveryDuration" is the duration in whole milliseconds. |
| Discovery.DefaultOptionsSendOnlyDuration | pkg/xrt/xrt.go:107-109 | Options from the short constructor send only the duration entry. |
| Discovery.MergeDiscoveryOptions | pkg/xrt/xrtdiscovery.go:20-25 | The default entry, then the loop copying each extended entry over it, yields exactly `DiscoveryRequestOptions`. |
| Discovery.TriggerRequest | pkg/xrt/xrtdiscovery.go:27 | The trigger request carries the client name and the merged options. |
| Discovery.TriggerDiscoveryRun | pkg/xrt/xrtdiscovery.go:16-35 | Without discovery options the result is `KindContractInvalid` and nothing is sent. Otherwise the calls are those of the discovery send of the trigger request. Success iff that send succeeds. A failure keeps its kind under "failed to trigger discovery". The marshalled trigger request is published on the request topic. Its reply is awaited for base + duration + timeout. |
| Discovery.TriggerDiscovery | pkg/xrt/xrtdiscovery.go:16-35 | The guard, the map built by the loop and the discovery send return what `TriggerDiscoveryRun` returns and append exactly its calls, keeping the trace in order. |
| Components.LuaScriptRequest | pkg/xrt/xrtcomponent.go:19-22 | An update of component "lua" whose config has exactly the key "Script", mapped to the script, carrying the client name. |
| Components.ComponentUpdateRequest | pkg/xrt/xrtcomponent.go:45 | The caller's component name and config are passed through unchanged. |
| Components.CommandOperationRun | pkg/xrt/xrtcomponent.go:25-29 | Without command options the result is `KindContractInvalid` and nothing is published. Otherwise the calls are those of the command send. Success iff that send succeeds. A failure keeps its kind under the operation's own message. Publishes go to the command topic with the marshalled request. The wait is the base response timeout. |
| Components.UpdateLuaScript | pkg/xrt/xrtcomponent.go:18-30 | Returns what `CommandOperationRun` returns for `LuaScriptRequest`, and appends exactly its calls, keeping the trace in order. |
| Components.UpdateComponent | pkg/xrt/xrtcomponent.go:44-53 | Returns what `CommandOperationRun` returns for `ComponentUpdateRequest`, and appends exactly its calls, keeping the trace in order. |
| Components.DiscoverComponentsRun | pkg/xrt/xrtcomponent.go:32-42 | A fan-in send of the component-discover request on the request topic. It never fetches; it collects for the caller's subscribe timeout, not the response timeout. On success the node replies are returned unchanged. On failure no list is returned, and the error keeps its kind under "failed to discover the xrt components". |
| Components.DiscoverComponents | pkg/xrt/xrtcomponent.go:32-42 | Returns what `DiscoverComponentsRun` returns and appends exactly its calls, keeping the trace in order. |

## Left out

- The listener tasks of `initSubscriptions` (pkg/xrt/xrt.go:214-257) are left out: they are concurrent. This covers the goroutines, the select on context cancellation, unsubscribing, and the error-drain loop. Only the subscription list they start from is modelled.
- `NewXrtClient` is modelled only as the fields it sets. Its call of `initSubscriptions` is left out, and so is returning the client together with the subscription error.
- `Close` is left out: disconnecting from the bus is transport I/O. So are publishing and subscribing themselves; publish is an oracle answer that may be an error.
- JSON marshalling, JSON decoding and `CommonResponse.Result.Error()` are left out as foreign library code. The codec and the carried error are oracle answers.
- The `xrtmodels` request constructors are modelled as records of the fields the client passes (`Messages.NewComponentUpdateRequest`, `Messages.NewDiscoveryRequest`, `Messages.NewComponentDiscoverRequest`). Their identity generation and their wire format are left out.
- `Subscriptions.NewSubscription`: the fresh message channel that `subscription` creates for the topic is not modelled; a subscription is its topic and its route.
- The request identity that the `xrtmodels` constructors generate is left out; it is a parameter of the model.
- `Xrt.Client.SendXrtRequestWithTimeout`: the typed reply that decoding fills in is not returned. Only whether decoding succeeds is modelled.
- `RequestMap`, `FetchXRTResponse` and `FetchXRTResWithSubTimeout` are not part of this model. No claim is made about removing entries, about timeouts inside the fetch, or about registering the same identity twice. A registration is a `Register` call in the trace, and routing sees the table only as the set of identities `Get` finds.
- `ReplyRouting.RouteReply`: the write into the waiting call's channel is an outcome (`Delivered`), not a channel operation. Its blocking behaviour is left out. So is the type assertion on the payload, which is taken to succeed once conversion has succeeded.
- Logging is left out (the logger and every `Debugf`/`Warnf`/`Errorf`), and so is the context parameter.
- 64-bit overflow of `time.Duration` is left out: durations are unbounded integers, so the discovery budget sum never wraps.
- `Errors.Kind` follows the EdgeX errors library's rule. A plain Go error that is not an EdgeX error is an EdgeX value of kind `KindUnknown` that wraps nothing.
- pkg/xrt/xrtdevice.go, pkg/xrt/xrtdeviceprofile.go and pkg/xrt/xrtschedule.go are left out. Each is a thin wrapper around one foreign constructor and one plain or discovery send, which the model covers.
- pkg/interfaces/interface.go is left out: it declares interfaces only.
