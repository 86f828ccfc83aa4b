# pusher-js private channel: subscription lifecycle and event routing

This project models the `PrivateChannel` of the pusher-js client, the channel
variant whose subscription needs an authorization step. Its behaviour is pinned
down by the test suite `spec/javascripts/unit/core/channels/private_channel_spec.js`.
The implementation the suite exercises (`core/channels/private_channel`) is not
part of this model, so the model follows the suite's assertions and the
channel's documented design.

What is modelled:

- The three lifecycle flags `subscribed`, `subscriptionPending` and
  `subscriptionCancelled`, all false on a fresh channel.
- The binding registry. It keeps callbacks per event name, in registration
  order, plus a list of global callbacks. `emit` runs the bound callbacks and
  then the global ones.
- `handleEvent`. The internal acknowledgement `pusher_internal:subscription_succeeded`
  sets `subscribed` and clears `subscriptionPending`. On a live channel it is
  then re-emitted as `pusher:subscription_succeeded` with the frame's data as
  the only argument. On a cancelled channel nothing is emitted and the
  connection is asked to `unsubscribe` the channel. Every other
  `pusher_internal:` frame is swallowed. Any other event is emitted as
  `(data, {})`.
- `trigger`. A name without the `client-` prefix raises `BadEventName`.
  Otherwise the channel calls `send_event(name, data, channelName)` and returns
  that call's boolean.
- `authorize`. The channel asks the authorizer factory for an authorizer, passing
  the channel and the client options, and starts it. The authorizer's later
  reply `(err, authData)` goes to the caller's callback unchanged.
- `cancelSubscription` sets the cancelled flag. `disconnect` clears `subscribed`.

Observable behaviour is recorded in an effect log instead of spies. The log
holds callback runs with their exact argument lists, `send_event` and
`unsubscribe` calls on the connection, calls to the authorizer factory, and
calls to the authorizer. The connection's answer to `send_event` is a parameter
of `trigger`.

Files:

- `protocol.dfy`: payloads, frames, the reserved name prefixes, effects.
- `dispatcher.dfy`: the binding registry and what one emission does.
- `channel_model.dfy`: the channel as a pure state machine. It has one function
  per operation, lemmas for each tested behaviour, and lemmas over arbitrary
  sequences of calls and frames.
- `private_channel.dfy`: the `PrivateChannel` class. Its fields are updated in
  place. Each method is proved to move the object exactly as the matching
  `ChannelModel` function moves its state.
- `scenarios.dfy`: each test case replayed on a fresh object, with the
  expected observation as the method's postcondition.

## Model

| member | source | states |
|---|---|---|
| `Protocol.PublicSucceededIsNotInternal` | spec/javascripts/unit/core/channels/private_channel_spec.js:127-138 | the public success name lies outside the `pusher_internal:` namespace, so re-emitting the acknowledgement never exposes an internal name |
| `Protocol.ClientAndInternalDisjoint` | spec/javascripts/unit/core/channels/private_channel_spec.js:83-91 | a `client-` event name is never a `pusher_internal:` name |
| `Dispatcher.Bind` | spec/javascripts/unit/core/channels/private_channel_spec.js:117 | binding appends the callback to that event's list, duplicates kept, and leaves every other event's list unchanged |
| `Dispatcher.Calls` | spec/javascripts/unit/core/channels/private_channel_spec.js:206-217 | running a callback list gives one run per registration, in registration order, each with the same arguments |
| `Dispatcher.CallsRunEachRegistration` | spec/javascripts/unit/core/channels/private_channel_spec.js:206-217 | a callback runs exactly as many times as it is registered: no deduplication and no loss |
| `Dispatcher.EmissionCarriesEvent` | spec/javascripts/unit/core/channels/private_channel_spec.js:114-125 | every effect of an emission is a callback run for the emitted event and nothing else |
| `Dispatcher.EmissionReachesBindings` | spec/javascripts/unit/core/channels/private_channel_spec.js:206-217 | an emission runs the event's bindings in order with `(data[, meta])`, then the global bindings with the event name in front |
| `ChannelModel.FreshChannelIdle` | spec/javascripts/unit/core/channels/private_channel_spec.js:17-29 | a new channel is not subscribed, not pending and not cancelled, and has done nothing yet |
| `ChannelModel.AuthorizeForwardsReply` | spec/javascripts/unit/core/channels/private_channel_spec.js:39-56 | `authorize` asks the factory once, with this channel and the client options, and starts the authorizer without running the callback; the reply then reaches the callback verbatim; no flag changes |
| `ChannelModel.TriggerContract` | spec/javascripts/unit/core/channels/private_channel_spec.js:83-101 | `trigger` raises `BadEventName` if and only if the name lacks `client-`, and then sends nothing; otherwise it sends `(event, data, channelName)` and returns the connection's answer |
| `ChannelModel.TriggerExamples` | spec/javascripts/unit/core/channels/private_channel_spec.js:83-101 | "whatever" is refused and "client-test" returns the connection's answer |
| `ChannelModel.DisconnectClearsSubscribed` | spec/javascripts/unit/core/channels/private_channel_spec.js:104-111 | `disconnect` clears `subscribed` and leaves the other flags, the bindings and the log alone |
| `ChannelModel.CancelIdempotent` | spec/javascripts/unit/core/channels/private_channel_spec.js:159-171 | cancelling sets the cancelled flag, and cancelling twice equals cancelling once |
| `ChannelModel.InternalFramesSwallowed` | spec/javascripts/unit/core/channels/private_channel_spec.js:115-125 | a `pusher_internal:` frame other than the acknowledgement changes nothing and reaches no callback, named or global |
| `ChannelModel.SubscriptionSucceededAnnounced` | spec/javascripts/unit/core/channels/private_channel_spec.js:127-156 | on a live channel the acknowledgement sets `subscribed`, clears `subscriptionPending`, runs every `pusher:subscription_succeeded` binding in order with the frame data as sole argument, and unsubscribes nothing |
| `ChannelModel.CancelledSubscriptionReleased` | spec/javascripts/unit/core/channels/private_channel_spec.js:159-203 | on a cancelled channel the acknowledgement still sets `subscribed` and clears `subscriptionPending`, runs no callback, and appends exactly one `unsubscribe(channelName)` |
| `ChannelModel.OrdinaryEventDelivered` | spec/javascripts/unit/core/channels/private_channel_spec.js:206-217 | a non-internal event leaves the flags alone and runs each of its bindings in order with `(data, {})`: metadata is an empty object, never absent |
| `ChannelModel.ApplyUnsubscribes` | spec/javascripts/unit/core/channels/private_channel_spec.js:193-203 | a single call or frame makes the log contain an `unsubscribe` exactly when it is the acknowledgement arriving at a cancelled channel (or one was there already) |
| `ChannelModel.RunExtendsLog` | spec/javascripts/unit/core/channels/private_channel_spec.js:114-219 | over any sequence of calls and frames the log only grows |
| `ChannelModel.CancelledIsSticky` | spec/javascripts/unit/core/channels/private_channel_spec.js:159-203 | once cancelled, a channel stays cancelled through any sequence of calls and frames |
| `ChannelModel.RunWellBehaved` | spec/javascripts/unit/core/channels/private_channel_spec.js:78-125 | through any sequence of calls and frames, no internal event reaches a callback, only `client-` events are sent, and every send, unsubscribe and factory call names this channel |
| `ChannelModel.UnsubscribeNeedsCancel` | spec/javascripts/unit/core/channels/private_channel_spec.js:193-203 | the channel asks the connection to unsubscribe only if it has been cancelled: no phantom teardown |
| `ChannelModel.FreshChannelWellBehaved` | spec/javascripts/unit/core/channels/private_channel_spec.js:12-15 | a fresh channel keeps both promises above for any sequence of calls and frames |
| `ChannelModel.CancelledScenario` | spec/javascripts/unit/core/channels/private_channel_spec.js:159-203 | bind, cancel, then acknowledge on a fresh channel: the only effect is one `unsubscribe(channelName)`; subscribed, not pending, cancelled |
| `ChannelModel.OrdinaryEventScenario` | spec/javascripts/unit/core/channels/private_channel_spec.js:206-217 | `{event: "something", data: 9}` runs the "something" binding once with `(9, {})` |
| `PrivateChannels.PrivateChannel.constructor` | spec/javascripts/unit/core/channels/private_channel_spec.js:12-29 | a new object has all three flags false, no bindings and an empty log |
| `PrivateChannels.PrivateChannel.Bind` | spec/javascripts/unit/core/channels/private_channel_spec.js:117 | the event's callback list grows by the callback; the object moves as `ChannelModel.Bind` |
| `PrivateChannels.PrivateChannel.BindGlobal` | spec/javascripts/unit/core/channels/private_channel_spec.js:118 | the global list grows by the callback; the object moves as `ChannelModel.BindGlobal` |
| `PrivateChannels.PrivateChannel.Authorize` | spec/javascripts/unit/core/channels/private_channel_spec.js:39-46 | the log gains the factory call with `(channel, options)` and the authorizer request; the object moves as `ChannelModel.Authorize` |
| `PrivateChannels.PrivateChannel.AuthorizerReplies` | spec/javascripts/unit/core/channels/private_channel_spec.js:48-56 | the kept callback runs with the reply unchanged; the object moves as `ChannelModel.AuthorizerReplies` |
| `PrivateChannels.PrivateChannel.Trigger` | spec/javascripts/unit/core/channels/private_channel_spec.js:78-101 | returns `BadEventName` if and only if the name lacks `client-`; result and new state as `ChannelModel.Trigger` |
| `PrivateChannels.PrivateChannel.Disconnect` | spec/javascripts/unit/core/channels/private_channel_spec.js:104-111 | `subscribed` is false afterwards; the object moves as `ChannelModel.Disconnect` |
| `PrivateChannels.PrivateChannel.CancelSubscription` | spec/javascripts/unit/core/channels/private_channel_spec.js:159-171 | the cancelled flag is set; the object moves as `ChannelModel.CancelSubscription` |
| `PrivateChannels.PrivateChannel.Emit` | spec/javascripts/unit/core/channels/private_channel_spec.js:206-217 | the log gains exactly `Dispatcher.Emission` of the current bindings: bound callbacks in order, then global ones |
| `PrivateChannels.PrivateChannel.HandleEvent` | spec/javascripts/unit/core/channels/private_channel_spec.js:114-219 | after the acknowledgement the object is subscribed and not pending; the object moves as `ChannelModel.HandleEvent` |
| `ChannelScenarios.AfterConstruction` | spec/javascripts/unit/core/channels/private_channel_spec.js:17-29 | all three flags of a new channel are false |
| `ChannelScenarios.AuthorizeCallsBack` | spec/javascripts/unit/core/channels/private_channel_spec.js:39-56 | the factory is asked once with the channel and `{foo: "bar"}`; the callback has not run before the reply and then gets `(false, {foo: "bar"})` |
| `ChannelScenarios.TriggerOnSubscribed` | spec/javascripts/unit/core/channels/private_channel_spec.js:78-101 | "whatever" raises `BadEventName`; "client-test" sends `("client-test", {k: "v"}, "private-test")` and returns the connection's answer, true or false |
| `ChannelScenarios.DisconnectAfterSubscription` | spec/javascripts/unit/core/channels/private_channel_spec.js:104-111 | after an acknowledgement and a disconnect, `subscribed` is false |
| `ChannelScenarios.InternalEventNotEmitted` | spec/javascripts/unit/core/channels/private_channel_spec.js:115-125 | a callback bound to "pusher_internal:test" and globally never runs for that frame |
| `ChannelScenarios.SubscriptionSucceeded` | spec/javascripts/unit/core/channels/private_channel_spec.js:127-156 | the binding gets `("123")`; subscribed, not pending |
| `ChannelScenarios.SubscriptionSucceededButCancelled` | spec/javascripts/unit/core/channels/private_channel_spec.js:159-203 | no callback runs; subscribed, not pending; `unsubscribe("private-test")` was not called before and is called once after |
| `ChannelScenarios.OtherEventEmitted` | spec/javascripts/unit/core/channels/private_channel_spec.js:206-217 | the "something" binding gets `(9, {})` |

## Left out

- The custom authorizer override (test lines 58-75). Choosing between a configured factory and the default one happens in `core/utils/factory`, which is not part of this model. The model records only that the factory was called with the channel and the options.
- The concrete authorizer and its HTTP request. An authorization is modelled as a request followed by one reply that is forwarded verbatim.
- PrivateChannels.PrivateChannel.Authorize: asks the factory on every call and keeps only the latest callback. The test checks a single call, so what repeated `authorize` calls do is not specified.
- The connection transport and the internals of `send_event`. Its boolean answer is a parameter of `Trigger`.
- PrivateChannels.PrivateChannel.Trigger: does not consult `subscribed`. The test sets `subscribed` to true before every trigger case (line 80) and asserts nothing about an unsubscribed channel.
- Global bindings: they run after the named bindings and receive `(event, data[, meta])`. This order and argument list come from the dispatcher's documented design, not from the test, which only checks that global bindings miss internal frames.
- `unbind`, `unbind_all` and removal during emission: the test does not exercise them.
- Setting `subscriptionPending` to true: the owning client does that when it sends the subscribe request, outside this class. The lemmas hold for any starting flags, and the test itself assigns flags directly (line 80).
- Frames that carry their own metadata or a `channel` field, and the wire encoding of frames.
- Asynchrony, timers and presence channels.
