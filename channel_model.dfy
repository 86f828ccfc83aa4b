/** The private channel as a value: its three lifecycle flags, its bindings,
    the callback waiting for an authorizer reply, and the log of everything it
    has done to the outside world. Each operation of the channel is a function
    from the old state to the new one; the class in PrivateChannels is proved
    against these functions. */
module ChannelModel {
  import opened Protocol
  import Dispatcher

  datatype Flags = Flags(subscribed: bool, subscriptionPending: bool, subscriptionCancelled: bool)

  datatype State = State(
    flags: Flags,
    bindings: map<string, seq<CallbackId>>,
    globals: seq<CallbackId>,
    authCallback: Option<CallbackId>,
    log: seq<Effect>)

  /** A freshly constructed channel. */
  function Initial(): State {
    State(Flags(false, false, false), map[], [], None, [])
  }

  function Bind(s: State, event: string, cb: CallbackId): State {
    s.(bindings := Dispatcher.Bind(s.bindings, event, cb))
  }

  function BindGlobal(s: State, cb: CallbackId): State {
    s.(globals := s.globals + [cb])
  }

  /** `authorize(socketId, cb)`: ask the factory for an authorizer for this
      channel with the client's options, ask it to authorize `socketId`, and
      keep `cb` for its reply. */
  function Authorize(s: State, name: string, options: Payload, socketId: string, cb: CallbackId): State {
    s.(authCallback := Some(cb),
       log := s.log + [CreateAuthorizer(name, options), AuthorizerRequest(socketId)])
  }

  /** The authorizer replies once: its reply goes to the kept callback as is. */
  function AuthorizerReplies(s: State, err: Payload, authData: Payload): State
    requires s.authCallback.Some?
  {
    s.(authCallback := None, log := s.log + [AuthReplied(s.authCallback.value, err, authData)])
  }

  /** `trigger(event, data)`, where `sent` is what the connection's
      `send_event` answers. */
  function Trigger(s: State, name: string, event: string, data: Payload, sent: bool)
    : (State, Result<bool, ChannelError>)
  {
    if !HasPrefix(event, ClientPrefix) then (s, Err(BadEventName(event)))
    else (s.(log := s.log + [SendEvent(event, data, name)]), Ok(sent))
  }

  function Disconnect(s: State): State {
    s.(flags := s.flags.(subscribed := false))
  }

  function CancelSubscription(s: State): State {
    s.(flags := s.flags.(subscriptionCancelled := true))
  }

  /** `emit` on the channel's own dispatcher. */
  function Emit(s: State, event: string, data: Payload, meta: Option<Payload>): State {
    s.(log := s.log + Dispatcher.Emission(s.bindings, s.globals, event, data, meta))
  }

  /** `handleEvent(frame)`: the acknowledgement marks the channel subscribed and
      then either announces it or, when cancelled, asks the connection to drop
      the subscription; other internal frames are swallowed; everything else is
      emitted with empty metadata. */
  function HandleEvent(s: State, name: string, frame: Frame): State {
    if frame.event == InternalSubscriptionSucceeded then
      var acked := s.(flags := s.flags.(subscribed := true, subscriptionPending := false));
      if s.flags.subscriptionCancelled then acked.(log := acked.log + [Unsubscribe(name)])
      else Emit(acked, PublicSubscriptionSucceeded, frame.data, None)
    else if HasPrefix(frame.event, InternalPrefix) then s
    else Emit(s, frame.event, frame.data, Some(EmptyObject))
  }

  // ---------------------------------------------------------------------------
  // What the test pins down, one operation at a time

  /** `authorize` consults the factory once, with this channel and the client
      options, and runs no callback; the authorizer's later reply reaches the
      callback unchanged. No lifecycle flag moves on the way. */
  lemma AuthorizeForwardsReply(s: State, name: string, options: Payload, socketId: string,
                               cb: CallbackId, err: Payload, authData: Payload)
    ensures var a := Authorize(s, name, options, socketId, cb);
            a.log == s.log + [CreateAuthorizer(name, options), AuthorizerRequest(socketId)] &&
            a.flags == s.flags &&
            AuthorizerReplies(a, err, authData).log == a.log + [AuthReplied(cb, err, authData)] &&
            AuthorizerReplies(a, err, authData).flags == s.flags
  {
  }

  /** `trigger` raises BadEventName exactly for names outside `client-`, and then
      sends nothing; otherwise it sends the event on this channel and returns
      what the connection answered. */
  lemma TriggerContract(s: State, name: string, event: string, data: Payload, sent: bool)
    ensures var (t, r) := Trigger(s, name, event, data, sent);
            (r.Err? <==> !HasPrefix(event, ClientPrefix)) &&
            (r.Err? ==> r.error == BadEventName(event) && t == s) &&
            (r.Ok? ==> r.value == sent && t == s.(log := s.log + [SendEvent(event, data, name)]))
  {
  }

  /** The test's own names: "whatever" is refused, "client-test" is sent. */
  lemma TriggerExamples(s: State, name: string, data: Payload, sent: bool)
    ensures Trigger(s, name, "whatever", data, sent).1 == Err(BadEventName("whatever"))
    ensures Trigger(s, name, "client-test", data, sent).1 == Ok(sent)
  {
    assert "whatever"[0] != ClientPrefix[0];
    assert "client-test"[..|ClientPrefix|] == ClientPrefix;
  }

  /** `disconnect` clears `subscribed` and nothing else. */
  lemma DisconnectClearsSubscribed(s: State)
    ensures Disconnect(s).flags ==
            Flags(false, s.flags.subscriptionPending, s.flags.subscriptionCancelled)
    ensures Disconnect(s).log == s.log && Disconnect(s).bindings == s.bindings
  {
  }

  /** Cancelling twice is the same as cancelling once. */
  lemma CancelIdempotent(s: State)
    ensures CancelSubscription(CancelSubscription(s)) == CancelSubscription(s)
    ensures CancelSubscription(s).flags.subscriptionCancelled
  {
  }

  /** Internal frames other than the acknowledgement change nothing and reach
      no callback, named or global. */
  lemma InternalFramesSwallowed(s: State, name: string, frame: Frame)
    requires HasPrefix(frame.event, InternalPrefix)
    requires frame.event != InternalSubscriptionSucceeded
    ensures HandleEvent(s, name, frame) == s
  {
  }

  /** The acknowledgement on a live channel: subscribed, no longer pending, and
      every binding of `pusher:subscription_succeeded` runs, in order, with the
      frame's data as its only argument; nothing is unsubscribed. */
  lemma SubscriptionSucceededAnnounced(s: State, name: string, data: Payload)
    requires !s.flags.subscriptionCancelled
    ensures var t := HandleEvent(s, name, Frame(InternalSubscriptionSucceeded, data));
            var cbs := Dispatcher.Callbacks(s.bindings, PublicSubscriptionSucceeded);
            t.flags == Flags(true, false, false) &&
            |t.log| == |s.log| + |cbs| + |s.globals| &&
            t.log[..|s.log|] == s.log &&
            (forall i :: 0 <= i < |cbs| ==>
               t.log[|s.log| + i] == Emitted(cbs[i], PublicSubscriptionSucceeded, [data])) &&
            (forall e :: e in t.log[|s.log|..] ==> !e.Unsubscribe?)
  {
    Dispatcher.EmissionReachesBindings(s.bindings, s.globals, PublicSubscriptionSucceeded, data, None);
    Dispatcher.EmissionCarriesEvent(s.bindings, s.globals, PublicSubscriptionSucceeded, data, None);
    var t := HandleEvent(s, name, Frame(InternalSubscriptionSucceeded, data));
    assert t.log[|s.log|..] == Dispatcher.Emission(s.bindings, s.globals, PublicSubscriptionSucceeded, data, None);
  }

  /** The acknowledgement after a cancellation: still subscribed and no longer
      pending, but no callback runs and the connection is told to unsubscribe
      this channel, once. */
  lemma CancelledSubscriptionReleased(s: State, name: string, data: Payload)
    requires s.flags.subscriptionCancelled
    ensures var t := HandleEvent(s, name, Frame(InternalSubscriptionSucceeded, data));
            t.flags == Flags(true, false, true) &&
            t.log == s.log + [Unsubscribe(name)] &&
            t.bindings == s.bindings
  {
  }

  /** An ordinary event reaches each of its bindings, in order, as
      `(data, {})`: the metadata is an empty object, never absent. */
  lemma OrdinaryEventDelivered(s: State, name: string, event: string, data: Payload)
    requires !HasPrefix(event, InternalPrefix)
    ensures var t := HandleEvent(s, name, Frame(event, data));
            var cbs := Dispatcher.Callbacks(s.bindings, event);
            t.flags == s.flags &&
            |t.log| == |s.log| + |cbs| + |s.globals| &&
            t.log[..|s.log|] == s.log &&
            forall i :: 0 <= i < |cbs| ==> t.log[|s.log| + i] == Emitted(cbs[i], event, [data, EmptyObject])
  {
    assert event != InternalSubscriptionSucceeded by { InternalSucceededIsInternal(); }
    Dispatcher.EmissionReachesBindings(s.bindings, s.globals, event, data, Some(EmptyObject));
  }

  // ---------------------------------------------------------------------------
  // Any sequence of calls

  /** One call into the channel, or one reply from a collaborator. */
  datatype Op =
    | BindCall(event: string, cb: CallbackId)
    | BindGlobalCall(cb: CallbackId)
    | AuthorizeCall(socketId: string, cb: CallbackId)
    | AuthorizerReply(err: Payload, authData: Payload)
    | TriggerCall(event: string, data: Payload, sent: bool)
    | DisconnectCall
    | CancelCall
    | Inbound(frame: Frame)

  /** The effect of one call. An authorizer reply with no authorization under
      way has no callback to reach and changes nothing. */
  function Apply(s: State, name: string, options: Payload, op: Op): State {
    match op
    case BindCall(event, cb) => Bind(s, event, cb)
    case BindGlobalCall(cb) => BindGlobal(s, cb)
    case AuthorizeCall(socketId, cb) => Authorize(s, name, options, socketId, cb)
    case AuthorizerReply(err, authData) =>
      if s.authCallback.Some? then AuthorizerReplies(s, err, authData) else s
    case TriggerCall(event, data, sent) => Trigger(s, name, event, data, sent).0
    case DisconnectCall => Disconnect(s)
    case CancelCall => CancelSubscription(s)
    case Inbound(frame) => HandleEvent(s, name, frame)
  }

  function Run(s: State, name: string, options: Payload, ops: seq<Op>): State
    decreases |ops|
  {
    if ops == [] then s else Run(Apply(s, name, options, ops[0]), name, options, ops[1..])
  }

  /** What the channel may ever do to the outside world: run callbacks only for
      non-internal events, send only `client-` events and only on itself, and
      address the connection and the authorizer factory only about itself. */
  predicate Permitted(name: string, e: Effect) {
    match e
    case Emitted(_, event, _) => !HasPrefix(event, InternalPrefix)
    case SendEvent(event, _, channel) => HasPrefix(event, ClientPrefix) && channel == name
    case Unsubscribe(channel) => channel == name
    case CreateAuthorizer(channel, _) => channel == name
    case AuthReplied(_, _, _) => true
    case AuthorizerRequest(_) => true
  }

  predicate WellBehaved(name: string, log: seq<Effect>) {
    forall i :: 0 <= i < |log| ==> Permitted(name, log[i])
  }

  predicate Unsubscribed(log: seq<Effect>) {
    exists i :: 0 <= i < |log| && log[i].Unsubscribe?
  }

  lemma ApplyExtendsLog(s: State, name: string, options: Payload, op: Op)
    ensures s.log <= Apply(s, name, options, op).log
  {
  }

  lemma ApplyWellBehaved(s: State, name: string, options: Payload, op: Op)
    requires WellBehaved(name, s.log)
    ensures WellBehaved(name, Apply(s, name, options, op).log)
  {
    var t := Apply(s, name, options, op);
    match op
    case Inbound(frame) =>
      if frame.event == InternalSubscriptionSucceeded {
        if !s.flags.subscriptionCancelled {
          Dispatcher.EmissionCarriesEvent(s.bindings, s.globals, PublicSubscriptionSucceeded, frame.data, None);
          PublicSucceededIsNotInternal();
          forall i | |s.log| <= i < |t.log| ensures Permitted(name, t.log[i]) {
            assert t.log[i] in Dispatcher.Emission(s.bindings, s.globals, PublicSubscriptionSucceeded, frame.data, None);
          }
        }
      } else if !HasPrefix(frame.event, InternalPrefix) {
        Dispatcher.EmissionCarriesEvent(s.bindings, s.globals, frame.event, frame.data, Some(EmptyObject));
        forall i | |s.log| <= i < |t.log| ensures Permitted(name, t.log[i]) {
          assert t.log[i] in Dispatcher.Emission(s.bindings, s.globals, frame.event, frame.data, Some(EmptyObject));
        }
      }
    case _ =>
  }

  lemma UnsubscribedAppend(a: seq<Effect>, b: seq<Effect>)
    ensures Unsubscribed(a + b) <==> Unsubscribed(a) || Unsubscribed(b)
  {
    if Unsubscribed(a) {
      var i :| 0 <= i < |a| && a[i].Unsubscribe?;
      assert (a + b)[i] == a[i];
    }
    if Unsubscribed(b) {
      var i :| 0 <= i < |b| && b[i].Unsubscribe?;
      assert (a + b)[|a| + i] == b[i];
    }
    if Unsubscribed(a + b) {
      var i :| 0 <= i < |a + b| && (a + b)[i].Unsubscribe?;
      if i < |a| { assert a[i] == (a + b)[i]; } else { assert b[i - |a|] == (a + b)[i]; }
    }
  }

  /** Emitting an event only runs callbacks: it never addresses the connection. */
  lemma EmitNeverUnsubscribes(s: State, event: string, data: Payload, meta: Option<Payload>)
    ensures Unsubscribed(Emit(s, event, data, meta).log) <==> Unsubscribed(s.log)
  {
    var e := Dispatcher.Emission(s.bindings, s.globals, event, data, meta);
    Dispatcher.EmissionCarriesEvent(s.bindings, s.globals, event, data, meta);
    forall i | 0 <= i < |e| ensures !e[i].Unsubscribe? {
      assert e[i] in e;
    }
    UnsubscribedAppend(s.log, e);
  }

  /** A step addresses `unsubscribe` to the connection exactly when it is the
      acknowledgement arriving at a cancelled channel. */
  lemma ApplyUnsubscribes(s: State, name: string, options: Payload, op: Op)
    ensures Unsubscribed(Apply(s, name, options, op).log) <==>
            Unsubscribed(s.log) ||
            (op.Inbound? && op.frame.event == InternalSubscriptionSucceeded && s.flags.subscriptionCancelled)
  {
    match op
    case Inbound(frame) =>
      if frame.event == InternalSubscriptionSucceeded {
        var acked := s.(flags := s.flags.(subscribed := true, subscriptionPending := false));
        if s.flags.subscriptionCancelled {
          UnsubscribedAppend(s.log, [Unsubscribe(name)]);
          assert [Unsubscribe(name)][0].Unsubscribe?;
        } else {
          EmitNeverUnsubscribes(acked, PublicSubscriptionSucceeded, frame.data, None);
        }
      } else if !HasPrefix(frame.event, InternalPrefix) {
        EmitNeverUnsubscribes(s, frame.event, frame.data, Some(EmptyObject));
      }
    case AuthorizeCall(socketId, cb) =>
      UnsubscribedAppend(s.log, [CreateAuthorizer(name, options), AuthorizerRequest(socketId)]);
    case AuthorizerReply(err, authData) =>
      if s.authCallback.Some? {
        UnsubscribedAppend(s.log, [AuthReplied(s.authCallback.value, err, authData)]);
      }
    case TriggerCall(event, data, sent) =>
      if HasPrefix(event, ClientPrefix) {
        UnsubscribedAppend(s.log, [SendEvent(event, data, name)]);
      }
    case _ =>
  }

  /** The channel never forgets anything it has done. */
  lemma {:induction false} RunExtendsLog(s: State, name: string, options: Payload, ops: seq<Op>)
    ensures s.log <= Run(s, name, options, ops).log
    decreases |ops|
  {
    if ops != [] {
      var t := Apply(s, name, options, ops[0]);
      ApplyExtendsLog(s, name, options, ops[0]);
      RunExtendsLog(t, name, options, ops[1..]);
    }
  }

  /** Once cancelled, a channel stays cancelled whatever happens next. */
  lemma {:induction false} CancelledIsSticky(s: State, name: string, options: Payload, ops: seq<Op>)
    requires s.flags.subscriptionCancelled
    ensures Run(s, name, options, ops).flags.subscriptionCancelled
    decreases |ops|
  {
    if ops != [] {
      CancelledIsSticky(Apply(s, name, options, ops[0]), name, options, ops[1..]);
    }
  }

  /** Whatever the calls and frames, no internal event ever reaches a callback,
      only `client-` events are ever sent, and every request to the connection
      or the factory is about this channel. */
  lemma {:induction false} RunWellBehaved(s: State, name: string, options: Payload, ops: seq<Op>)
    requires WellBehaved(name, s.log)
    ensures WellBehaved(name, Run(s, name, options, ops).log)
    decreases |ops|
  {
    if ops != [] {
      ApplyWellBehaved(s, name, options, ops[0]);
      RunWellBehaved(Apply(s, name, options, ops[0]), name, options, ops[1..]);
    }
  }

  /** The channel tears down a server-side subscription only if its caller
      cancelled it: no phantom unsubscribe. */
  lemma {:induction false} UnsubscribeNeedsCancel(s: State, name: string, options: Payload, ops: seq<Op>)
    requires !Unsubscribed(s.log)
    requires Unsubscribed(Run(s, name, options, ops).log)
    ensures Run(s, name, options, ops).flags.subscriptionCancelled
    decreases |ops|
  {
    if ops != [] {
      var t := Apply(s, name, options, ops[0]);
      ApplyUnsubscribes(s, name, options, ops[0]);
      if Unsubscribed(t.log) {
        CancelledIsSticky(t, name, options, ops[1..]);
      } else {
        UnsubscribeNeedsCancel(t, name, options, ops[1..]);
      }
    }
  }

  /** A fresh channel keeps every promise above from its first call on. */
  lemma FreshChannelWellBehaved(name: string, options: Payload, ops: seq<Op>)
    ensures var t := Run(Initial(), name, options, ops);
            WellBehaved(name, t.log) && (Unsubscribed(t.log) ==> t.flags.subscriptionCancelled)
  {
    RunWellBehaved(Initial(), name, options, ops);
    if Unsubscribed(Run(Initial(), name, options, ops).log) {
      UnsubscribeNeedsCancel(Initial(), name, options, ops);
    }
  }

  // ---------------------------------------------------------------------------
  // The test's scenarios, replayed on a fresh channel

  /** A fresh channel is neither subscribed, pending nor cancelled. */
  lemma FreshChannelIdle()
    ensures Initial().flags == Flags(false, false, false)
    ensures Initial().log == []
  {
  }

  /** cancelSubscription, then the acknowledgement: the connection had not been
      asked to unsubscribe before, and is asked exactly once, for this channel;
      the callback bound to the public success event never runs. */
  lemma CancelledScenario(name: string, options: Payload, cb: CallbackId, data: Payload)
    ensures var t := Run(Initial(), name, options,
                         [BindCall(PublicSubscriptionSucceeded, cb), CancelCall,
                          Inbound(Frame(InternalSubscriptionSucceeded, data))]);
            t.log == [Unsubscribe(name)] && t.flags == Flags(true, false, true)
  {
    var ops := [BindCall(PublicSubscriptionSucceeded, cb), CancelCall,
                Inbound(Frame(InternalSubscriptionSucceeded, data))];
    var s1 := Apply(Initial(), name, options, ops[0]);
    var s2 := Apply(s1, name, options, ops[1]);
    var s3 := Apply(s2, name, options, ops[2]);
    assert Run(s3, name, options, ops[3..]) == s3;
    assert Run(s2, name, options, ops[2..]) == s3;
    assert Run(s1, name, options, ops[1..]) == s3;
  }

  /** `{event: "something", data: 9}` reaches the binding for "something" as
      `(9, {})`. */
  lemma OrdinaryEventScenario(name: string, options: Payload, cb: CallbackId)
    ensures Run(Initial(), name, options,
                [BindCall("something", cb), Inbound(Frame("something", Num(9)))]).log
            == [Emitted(cb, "something", [Num(9), EmptyObject])]
  {
    assert !HasPrefix("something", InternalPrefix) by { assert "something"[0] == 's'; }
    var ops := [BindCall("something", cb), Inbound(Frame("something", Num(9)))];
    var s1 := Apply(Initial(), name, options, ops[0]);
    var s2 := Apply(s1, name, options, ops[1]);
    assert Dispatcher.Callbacks(s1.bindings, "something") == [cb];
    assert Run(s2, name, options, ops[2..]) == s2;
    assert Run(s1, name, options, ops[1..]) == s2;
  }
}
