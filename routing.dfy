/** The reply handler of the reply topic (`commandReplyHandler` in
    pkg/xrt/xrt.go): it finds the waiting call a reply belongs to by the
    request identity inside it. The request table is seen only through the
    identities its `Get` finds; routing never changes it. */
module ReplyRouting {
  import opened Errors
  import opened Messages

  /** What the handler does with one message. */
  datatype Routing =
    | Delivered(id: string, payload: Bytes)  // written to the waiting call's channel
    | NotBytes                               // the payload could not be turned into bytes; logged
    | Malformed                              // the bytes are not an XRT reply; logged
    | Stray(id: string)                      // no call waits for this identity; logged and dropped

  /** Route one message. `convert` is `ConvertMsgPayloadToByteArray`, `parse` is
      `GetMsgPayload[BaseResponse]`, and `registered` holds the identities for which
      `requestMap.Get` succeeds. */
  function RouteReply<M>(convert: M -> Option<Bytes>, parse: Bytes -> Option<BaseResponse>,
                         registered: set<string>, message: M): (d: Routing)
    ensures d.NotBytes? <==> convert(message).None?
    ensures d.Malformed? <==> convert(message).Some? && parse(convert(message).value).None?
    ensures d.Delivered? <==> convert(message).Some? && parse(convert(message).value).Some?
                              && parse(convert(message).value).value.requestId in registered
    ensures d.Delivered? ==> d.id in registered && d.payload == convert(message).value
                             && d.id == parse(d.payload).value.requestId
    ensures d.Stray? ==> d.id !in registered && d.id == parse(convert(message).value).value.requestId
  {
    match convert(message)
    case None => NotBytes
    case Some(payload) =>
      match parse(payload)
      case None => Malformed
      case Some(response) =>
        if response.requestId in registered then Delivered(response.requestId, payload)
        else Stray(response.requestId)
  }

  /** A reply is delivered to its own call, whatever else is waiting: registering
      more identities changes neither whether nor where a routable reply goes. */
  lemma DeliveryIgnoresOtherCalls<M>(convert: M -> Option<Bytes>, parse: Bytes -> Option<BaseResponse>,
                                     registered: set<string>, more: set<string>, message: M)
    requires RouteReply(convert, parse, registered, message).Delivered?
    ensures RouteReply(convert, parse, registered + more, message) == RouteReply(convert, parse, registered, message)
  {
  }

  /** A stray reply stays stray while its identity is not registered, and is delivered
      once it is: the outcome depends only on whether its own identity is known. */
  lemma StrayOnlyForUnknownIdentity<M>(convert: M -> Option<Bytes>, parse: Bytes -> Option<BaseResponse>,
                                       registered: set<string>, message: M)
    requires RouteReply(convert, parse, registered, message).Stray?
    ensures var id := RouteReply(convert, parse, registered, message).id;
            RouteReply(convert, parse, registered + {id}, message).Delivered?
            && RouteReply(convert, parse, registered + {id}, message).id == id
  {
  }
}
