/** The private channel object: lifecycle flags and bindings updated in place,
    collaborator calls and callback runs appended to an effect log. Every method
    is proved to move the object exactly as the matching function of
    ChannelModel moves its state. */
module PrivateChannels {
  import opened Protocol
  import Dispatcher
  import ChannelModel

  class PrivateChannel {
    const name: string
    /** The owning client's configuration, handed to the authorizer factory. */
    const options: Payload

    var subscribed: bool
    var subscriptionPending: bool
    var subscriptionCancelled: bool

    var bindings: map<string, seq<CallbackId>>
    var globalBindings: seq<CallbackId>
    /** The callback of the authorization under way, if any. */
    var authCallback: Option<CallbackId>
    /** Everything the channel has done to its collaborators and callbacks. */
    var log: seq<Effect>

    /** The object's state as a ChannelModel value. */
    function Model(): ChannelModel.State
      reads this
    {
      ChannelModel.State(
        ChannelModel.Flags(subscribed, subscriptionPending, subscriptionCancelled),
        bindings, globalBindings, authCallback, log)
    }

    constructor (name: string, options: Payload)
      ensures this.name == name && this.options == options
      ensures !subscribed && !subscriptionPending && !subscriptionCancelled
      ensures Model() == ChannelModel.Initial()
    {
      this.name := name;
      this.options := options;
      subscribed, subscriptionPending, subscriptionCancelled := false, false, false;
      bindings, globalBindings := map[], [];
      authCallback := None;
      log := [];
    }

    method Bind(event: string, cb: CallbackId)
      modifies this
      ensures Dispatcher.Callbacks(bindings, event) == Dispatcher.Callbacks(old(bindings), event) + [cb]
      ensures Model() == ChannelModel.Bind(old(Model()), event, cb)
    {
      bindings := Dispatcher.Bind(bindings, event, cb);
    }

    method BindGlobal(cb: CallbackId)
      modifies this
      ensures globalBindings == old(globalBindings) + [cb]
      ensures Model() == ChannelModel.BindGlobal(old(Model()), cb)
    {
      globalBindings := globalBindings + [cb];
    }

    /** Ask the authorizer factory for an authorizer and start it; `cb` runs
        only when the authorizer replies. */
    method Authorize(socketId: string, cb: CallbackId)
      modifies this
      ensures log == old(log) + [CreateAuthorizer(name, options), AuthorizerRequest(socketId)]
      ensures Model() == ChannelModel.Authorize(old(Model()), name, options, socketId, cb)
    {
      log := log + [CreateAuthorizer(name, options), AuthorizerRequest(socketId)];
      authCallback := Some(cb);
    }

    /** The authorizer's reply `(err, authData)`, forwarded unchanged. */
    method AuthorizerReplies(err: Payload, authData: Payload)
      requires authCallback.Some?
      modifies this
      ensures log == old(log) + [AuthReplied(old(authCallback).value, err, authData)]
      ensures Model() == ChannelModel.AuthorizerReplies(old(Model()), err, authData)
    {
      log := log + [AuthReplied(authCallback.value, err, authData)];
      authCallback := None;
    }

    /** Send a client event; `sent` is the connection's answer to `send_event`. */
    method Trigger(event: string, data: Payload, sent: bool) returns (r: Result<bool, ChannelError>)
      modifies this
      ensures r.Err? <==> !HasPrefix(event, ClientPrefix)
      ensures (Model(), r) == ChannelModel.Trigger(old(Model()), name, event, data, sent)
    {
      if !HasPrefix(event, ClientPrefix) {
        return Err(BadEventName(event));
      }
      log := log + [SendEvent(event, data, name)];
      r := Ok(sent);
    }

    method Disconnect()
      modifies this
      ensures !subscribed
      ensures Model() == ChannelModel.Disconnect(old(Model()))
    {
      subscribed := false;
    }

    method CancelSubscription()
      modifies this
      ensures subscriptionCancelled
      ensures Model() == ChannelModel.CancelSubscription(old(Model()))
    {
      subscriptionCancelled := true;
    }

    /** Run the callbacks bound to `event`, then the global callbacks. */
    method Emit(event: string, data: Payload, meta: Option<Payload>)
      modifies this`log
      ensures log == old(log) + Dispatcher.Emission(bindings, globalBindings, event, data, meta)
    {
      var named := Dispatcher.Callbacks(bindings, event);
      var args := Dispatcher.NamedArgs(data, meta);
      var i := 0;
      while i < |named|
        invariant 0 <= i <= |named|
        invariant log == old(log) + Dispatcher.Calls(named[..i], event, args)
      {
        assert named[..i + 1][..i] == named[..i];
        log := log + [Emitted(named[i], event, args)];
        i := i + 1;
      }
      assert named[..i] == named;
      ghost var afterNamed := log;
      var globalArgs := Dispatcher.GlobalArgs(event, data, meta);
      var j := 0;
      while j < |globalBindings|
        invariant 0 <= j <= |globalBindings|
        invariant log == afterNamed + Dispatcher.Calls(globalBindings[..j], event, globalArgs)
      {
        assert globalBindings[..j + 1][..j] == globalBindings[..j];
        log := log + [Emitted(globalBindings[j], event, globalArgs)];
        j := j + 1;
      }
      assert globalBindings[..j] == globalBindings;
    }

    /** Route one inbound frame. */
    method HandleEvent(frame: Frame)
      modifies this
      ensures frame.event == InternalSubscriptionSucceeded ==> subscribed && !subscriptionPending
      ensures Model() == ChannelModel.HandleEvent(old(Model()), name, frame)
    {
      if frame.event == InternalSubscriptionSucceeded {
        subscriptionPending := false;
        subscribed := true;
        if subscriptionCancelled {
          log := log + [Unsubscribe(name)];
        } else {
          Emit(PublicSubscriptionSucceeded, frame.data, None);
        }
      } else if !HasPrefix(frame.event, InternalPrefix) {
        Emit(frame.event, frame.data, Some(EmptyObject));
      }
    }
  }
}
