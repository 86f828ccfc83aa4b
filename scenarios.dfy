/** The cases of the PrivateChannel test suite, replayed on fresh channel objects
    named "private-test" whose client options are `{foo: "bar"}`. Each method
    returns what the test observes and states the expected observation. */
module ChannelScenarios {
  import opened Protocol
  import PrivateChannels

  const ChannelName: string := "private-test"
  const FooBar: Payload := Obj(map["foo" := Str("bar")])

  method AfterConstruction() returns (subscribed: bool, pending: bool, cancelled: bool)
    ensures !subscribed && !pending && !cancelled
  {
    var c := new PrivateChannels.PrivateChannel(ChannelName, FooBar);
    subscribed, pending, cancelled := c.subscribed, c.subscriptionPending, c.subscriptionCancelled;
  }

  /** The factory is asked once, with the channel and `{foo: "bar"}`; the
      callback has not run before the authorizer replies, and then receives
      `(false, {foo: "bar"})`. */
  method AuthorizeCallsBack(cb: CallbackId) returns (beforeReply: seq<Effect>, afterReply: seq<Effect>)
    ensures beforeReply == [CreateAuthorizer(ChannelName, FooBar), AuthorizerRequest("1.23")]
    ensures afterReply == beforeReply + [AuthReplied(cb, Bool(false), FooBar)]
  {
    var c := new PrivateChannels.PrivateChannel(ChannelName, FooBar);
    c.Authorize("1.23", cb);
    beforeReply := c.log;
    c.AuthorizerReplies(Bool(false), FooBar);
    afterReply := c.log;
  }

  /** "whatever" raises BadEventName; "client-test" is sent on this channel and
      the connection's answer comes back. */
  method TriggerOnSubscribed(sent: bool)
    returns (bad: Result<bool, ChannelError>, good: Result<bool, ChannelError>, sends: seq<Effect>)
    ensures bad == Err(BadEventName("whatever"))
    ensures good == Ok(sent)
    ensures sends == [SendEvent("client-test", Obj(map["k" := Str("v")]), ChannelName)]
  {
    var c := new PrivateChannels.PrivateChannel(ChannelName, FooBar);
    c.subscribed := true;
    assert "whatever"[0] != ClientPrefix[0];
    bad := c.Trigger("whatever", Obj(map[]), sent);
    assert "client-test"[..|ClientPrefix|] == ClientPrefix;
    good := c.Trigger("client-test", Obj(map["k" := Str("v")]), sent);
    sends := c.log;
  }

  method DisconnectAfterSubscription() returns (subscribed: bool)
    ensures !subscribed
  {
    var c := new PrivateChannels.PrivateChannel(ChannelName, FooBar);
    c.HandleEvent(Frame(InternalSubscriptionSucceeded, Undefined));
    c.Disconnect();
    subscribed := c.subscribed;
  }

  /** A callback bound both to "pusher_internal:test" and globally never runs. */
  method InternalEventNotEmitted(cb: CallbackId) returns (runs: seq<Effect>)
    ensures runs == []
  {
    var c := new PrivateChannels.PrivateChannel(ChannelName, FooBar);
    c.Bind("pusher_internal:test", cb);
    c.BindGlobal(cb);
    var frame := Frame("pusher_internal:test", Undefined);
    assert frame.event != InternalSubscriptionSucceeded by {
      assert |frame.event| != |InternalSubscriptionSucceeded|;
    }
    assert HasPrefix(frame.event, InternalPrefix) by {
      assert frame.event[..|InternalPrefix|] == InternalPrefix;
    }
    c.HandleEvent(frame);
    runs := c.log;
  }

  method SubscriptionSucceeded(cb: CallbackId) returns (runs: seq<Effect>, subscribed: bool, pending: bool)
    ensures runs == [Emitted(cb, PublicSubscriptionSucceeded, [Str("123")])]
    ensures subscribed && !pending
  {
    var c := new PrivateChannels.PrivateChannel(ChannelName, FooBar);
    c.Bind(PublicSubscriptionSucceeded, cb);
    c.HandleEvent(Frame(InternalSubscriptionSucceeded, Str("123")));
    runs, subscribed, pending := c.log, c.subscribed, c.subscriptionPending;
  }

  /** After cancelSubscription nothing is emitted, the flags still move, and the
      connection, not asked before, is asked to unsubscribe "private-test". */
  method SubscriptionSucceededButCancelled(cb: CallbackId)
    returns (before: seq<Effect>, after: seq<Effect>, subscribed: bool, pending: bool)
    ensures before == [] && after == [Unsubscribe(ChannelName)]
    ensures subscribed && !pending
  {
    var c := new PrivateChannels.PrivateChannel(ChannelName, FooBar);
    c.Bind(PublicSubscriptionSucceeded, cb);
    before := c.log;
    c.CancelSubscription();
    c.HandleEvent(Frame(InternalSubscriptionSucceeded, Str("123")));
    after, subscribed, pending := c.log, c.subscribed, c.subscriptionPending;
  }

  method OtherEventEmitted(cb: CallbackId) returns (runs: seq<Effect>)
    ensures runs == [Emitted(cb, "something", [Num(9), EmptyObject])]
  {
    var c := new PrivateChannels.PrivateChannel(ChannelName, FooBar);
    c.Bind("something", cb);
    assert !HasPrefix("something", InternalPrefix) by { assert "something"[0] == 's'; }
    c.HandleEvent(Frame("something", Num(9)));
    runs := c.log;
  }
}
