/** Which topics the client listens on, and where each topic's messages go
    (`createSubscriptions` and `subscription` in pkg/xrt/xrt.go). The
    listener tasks themselves are not modelled, only the list they are
    started from. */
module Subscriptions {
  import opened Errors
  import opened Options

  /** Where a topic's messages are routed: the reply handler over the request
      table, or a handler the caller supplied. */
  datatype Route = ReplyRoute | HandlerRoute(handler: Handler)

  datatype Subscription = Subscription(topic: string, route: Route)

  /** `subscription(topic, handler)`: a subscription to `topic` whose messages go
      to `route`; the fresh message channel is not modelled. */
  function NewSubscription(topic: string, route: Route): (r: Subscription)
    ensures r.topic == topic && r.route == route
  {
    Subscription(topic, route)
  }

  /** A group with a non-empty topic and a non-nil handler asks for a subscription. */
  function Wanted(topic: string, handler: Option<Handler>): (s: Option<Subscription>)
    ensures s.Some? <==> topic != "" && handler.Some?
    ensures s.Some? ==> s.value == Subscription(topic, HandlerRoute(handler.value))
  {
    if topic != "" && handler.Some? then Some(Subscription(topic, HandlerRoute(handler.value))) else None
  }

  function ReplySlot(replyTopic: string): Option<Subscription> {
    if replyTopic != "" then Some(Subscription(replyTopic, ReplyRoute)) else None
  }

  function CommandSlot(clientOptions: Option<ClientOptions>): Option<Subscription> {
    if clientOptions.Some? && clientOptions.value.command.Some?
    then Wanted(clientOptions.value.command.value.discoveryTopic, clientOptions.value.command.value.discoveryMessageHandler)
    else None
  }

  function DiscoverySlot(clientOptions: Option<ClientOptions>): Option<Subscription> {
    if clientOptions.Some? && clientOptions.value.discovery.Some?
    then Wanted(clientOptions.value.discovery.value.discoveryTopic, clientOptions.value.discovery.value.discoveryMessageHandler)
    else None
  }

  function StatusSlot(clientOptions: Option<ClientOptions>): Option<Subscription> {
    if clientOptions.Some? && clientOptions.value.status.Some?
    then Wanted(clientOptions.value.status.value.statusTopic, clientOptions.value.status.value.statusMessageHandler)
    else None
  }

  /** The four candidate subscriptions, in order: reply, command discovery,
      discovery, status. Each is present exactly when its group is given, its
      topic is non-empty and its handler is non-nil. */
  function Slots(replyTopic: string, clientOptions: Option<ClientOptions>): (s: seq<Option<Subscription>>)
    ensures |s| == 4
    ensures s[0].Some? <==> replyTopic != ""
    ensures s[0].Some? ==> s[0].value == Subscription(replyTopic, ReplyRoute)
    ensures forall k :: 1 <= k < 4 && s[k].Some? ==> s[k].value.route.HandlerRoute?
    ensures clientOptions.None? ==> s[1] == s[2] == s[3] == None
    ensures s[1].Some? <==> (HasCommandOptions(clientOptions)
                             && clientOptions.value.command.value.discoveryTopic != ""
                             && clientOptions.value.command.value.discoveryMessageHandler.Some?)
    ensures s[2].Some? <==> (HasDiscoveryOptions(clientOptions)
                             && clientOptions.value.discovery.value.discoveryTopic != ""
                             && clientOptions.value.discovery.value.discoveryMessageHandler.Some?)
    ensures s[3].Some? <==> (clientOptions.Some? && clientOptions.value.status.Some?
                             && clientOptions.value.status.value.statusTopic != ""
                             && clientOptions.value.status.value.statusMessageHandler.Some?)
    // each group's subscription routes the group's own topic to the group's own handler
    ensures s[1].Some? ==>
              s[1].value == Subscription(clientOptions.value.command.value.discoveryTopic,
                                         HandlerRoute(clientOptions.value.command.value.discoveryMessageHandler.value))
    ensures s[2].Some? ==>
              s[2].value == Subscription(clientOptions.value.discovery.value.discoveryTopic,
                                         HandlerRoute(clientOptions.value.discovery.value.discoveryMessageHandler.value))
    ensures s[3].Some? ==>
              s[3].value == Subscription(clientOptions.value.status.value.statusTopic,
                                         HandlerRoute(clientOptions.value.status.value.statusMessageHandler.value))
  {
    [ReplySlot(replyTopic), CommandSlot(clientOptions), DiscoverySlot(clientOptions), StatusSlot(clientOptions)]
  }

  /** What one slot adds to the list. */
  function Contribution(o: Option<Subscription>): seq<Subscription> {
    if o.Some? then [o.value] else []
  }

  /** The present elements of a sequence of options, in their order. */
  function Present(s: seq<Option<Subscription>>): (r: seq<Subscription>)
    ensures |r| <= |s|
    ensures (forall k :: 0 <= k < |s| ==> s[k].Some?) ==> |r| == |s|
  {
    if s == [] then []
    else Contribution(s[0]) + Present(s[1..])
  }

  /** The position an element of `s` takes in `Present(s)`: the number of present elements before it. */
  function Rank(s: seq<Option<Subscription>>, k: nat): nat
    requires k <= |s|
  {
    |Present(s[..k])|
  }

  lemma {:induction false} PresentAppend(a: seq<Option<Subscription>>, b: seq<Option<Subscription>>)
    ensures Present(a + b) == Present(a) + Present(b)
  {
    if a == [] {
      assert a + b == b;
    } else {
      assert (a + b)[1..] == a[1..] + b;
      PresentAppend(a[1..], b);
    }
  }

  /** `Present` keeps every present element, at its rank: so it keeps exactly one
      copy of each and keeps their order. */
  lemma PresentAt(s: seq<Option<Subscription>>, k: nat)
    requires k < |s| && s[k].Some?
    ensures Rank(s, k) < |Present(s)| && Present(s)[Rank(s, k)] == s[k].value
    ensures Rank(s, k + 1) == Rank(s, k) + 1
  {
    assert s[..k + 1] == s[..k] + [s[k]];
    PresentAppend(s[..k], [s[k]]);
    assert s == s[..k + 1] + s[k + 1..];
    PresentAppend(s[..k + 1], s[k + 1..]);
  }

  /** Ranks never decrease along the sequence. */
  lemma {:induction false} RankMonotone(s: seq<Option<Subscription>>, i: nat, j: nat)
    requires i <= j <= |s|
    ensures Rank(s, i) <= Rank(s, j)
  {
    assert s[..j] == s[..i] + s[i..j];
    PresentAppend(s[..i], s[i..j]);
  }

  /** The subscription list the client starts its listeners from. */
  function ClientSubscriptions(replyTopic: string, clientOptions: Option<ClientOptions>): seq<Subscription> {
    Present(Slots(replyTopic, clientOptions))
  }

  /** The subscription list as the four slots' contributions, one after the other. */
  lemma SlotsConcatenated(replyTopic: string, clientOptions: Option<ClientOptions>)
    ensures ClientSubscriptions(replyTopic, clientOptions)
            == Contribution(ReplySlot(replyTopic)) + Contribution(CommandSlot(clientOptions))
               + Contribution(DiscoverySlot(clientOptions)) + Contribution(StatusSlot(clientOptions))
  {
    var s := Slots(replyTopic, clientOptions);
    assert s[1..] == [s[1], s[2], s[3]];
    assert s[1..][1..] == [s[2], s[3]];
    assert s[1..][1..][1..] == [s[3]];
    assert s[1..][1..][1..][1..] == [];
    assert Present(s[1..][1..][1..]) == Contribution(s[3]);
    assert Present(s[1..][1..]) == Contribution(s[2]) + Contribution(s[3]);
    assert Present(s[1..]) == Contribution(s[1]) + (Contribution(s[2]) + Contribution(s[3]));
  }

  /** `createSubscriptions`: built by successive appends, in the order the Go code appends. */
  method CreateSubscriptions(replyTopic: string, clientOptions: Option<ClientOptions>)
    returns (subscriptions: seq<Subscription>)
    ensures subscriptions == ClientSubscriptions(replyTopic, clientOptions)
  {
    SlotsConcatenated(replyTopic, clientOptions);
    subscriptions := [];
    if replyTopic != "" {
      subscriptions := subscriptions + [NewSubscription(replyTopic, ReplyRoute)];
    }
    if clientOptions.None? {
      return;
    }
    var opts := clientOptions.value;
    if opts.command.Some? {
      if opts.command.value.discoveryTopic != "" && opts.command.value.discoveryMessageHandler.Some? {
        subscriptions := subscriptions + [NewSubscription(opts.command.value.discoveryTopic,
                                                          HandlerRoute(opts.command.value.discoveryMessageHandler.value))];
      }
    }
    if opts.discovery.Some? {
      if opts.discovery.value.discoveryTopic != "" && opts.discovery.value.discoveryMessageHandler.Some? {
        subscriptions := subscriptions + [NewSubscription(opts.discovery.value.discoveryTopic,
                                                          HandlerRoute(opts.discovery.value.discoveryMessageHandler.value))];
      }
    }
    if opts.status.Some? {
      if opts.status.value.statusTopic != "" && opts.status.value.statusMessageHandler.Some? {
        subscriptions := subscriptions + [NewSubscription(opts.status.value.statusTopic,
                                                          HandlerRoute(opts.status.value.statusMessageHandler.value))];
      }
    }
  }

  /** The reply subscription exists if and only if the reply topic is non-empty,
      and then it comes first; no other subscription routes to the request table. */
  lemma ReplySubscriptionFirst(replyTopic: string, clientOptions: Option<ClientOptions>)
    ensures var subs := ClientSubscriptions(replyTopic, clientOptions);
            (replyTopic != "" <==> |subs| > 0 && subs[0] == Subscription(replyTopic, ReplyRoute))
            && forall i :: 0 <= i < |subs| && subs[i].route.ReplyRoute? ==> i == 0 && replyTopic != ""
  {
    SlotsConcatenated(replyTopic, clientOptions);
    var subs := ClientSubscriptions(replyTopic, clientOptions);
    var head := Contribution(ReplySlot(replyTopic));
    var tail := Contribution(CommandSlot(clientOptions)) + Contribution(DiscoverySlot(clientOptions))
                + Contribution(StatusSlot(clientOptions));
    assert subs == head + tail;
    assert forall i :: 0 <= i < |tail| ==> tail[i].route.HandlerRoute?;
    forall i | 0 <= i < |subs|
      ensures subs[i].route.ReplyRoute? ==> i == 0 && replyTopic != ""
    {
      if i >= |head| {
        assert subs[i] == tail[i - |head|];
      }
    }
  }

  /** Without client options the client listens on the reply topic alone, or on
      nothing when that topic is empty. */
  lemma NoOptionsOnlyReply(replyTopic: string)
    ensures ClientSubscriptions(replyTopic, None)
            == if replyTopic != "" then [Subscription(replyTopic, ReplyRoute)] else []
  {
    SlotsConcatenated(replyTopic, None);
  }

  /** A position holding no element adds nothing to the ranks. */
  lemma RankSkip(s: seq<Option<Subscription>>, k: nat)
    requires k < |s| && s[k].None?
    ensures Rank(s, k + 1) == Rank(s, k)
  {
    assert s[..k + 1] == s[..k] + [s[k]];
    PresentAppend(s[..k], [s[k]]);
  }

  /** At most four subscriptions. Each option group contributes exactly one
      when it asks for one (it sits at its rank, and the rank advances by one)
      and none otherwise (the rank stays); ranks follow the order
      reply, command discovery, discovery, status. */
  lemma SubscriptionsOrdered(replyTopic: string, clientOptions: Option<ClientOptions>, i: nat, j: nat)
    requires i < 4 && j < 4
    ensures var s, subs := Slots(replyTopic, clientOptions), ClientSubscriptions(replyTopic, clientOptions);
            |subs| <= 4 && Rank(s, 0) == 0 && Rank(s, 4) == |subs|
            && (s[i].Some? ==> Rank(s, i) < |subs| && subs[Rank(s, i)] == s[i].value
                               && Rank(s, i + 1) == Rank(s, i) + 1)
            && (s[i].None? ==> Rank(s, i + 1) == Rank(s, i))
            && (i < j && s[i].Some? && s[j].Some? ==> Rank(s, i) < Rank(s, j))
  {
    var s := Slots(replyTopic, clientOptions);
    assert s[..0] == [] && s[..4] == s;
    if s[i].Some? {
      PresentAt(s, i);
      if i < j {
        RankMonotone(s, i + 1, j);
      }
    } else {
      RankSkip(s, i);
    }
  }
}
