/** The vocabulary shared by the channel layer: payloads, inbound frames, the
    reserved event-name namespaces, and the observable effects a channel has on
    its collaborators and on application callbacks. */
module Protocol {

  datatype Option<T> = None | Some(value: T)

  datatype Result<T, E> = Ok(value: T) | Err(error: E)

  /** A JSON-like value: event data, metadata, client options and authorizer
      replies. `Undefined` stands for a field the frame does not carry. */
  datatype Payload =
    | Undefined
    | Bool(b: bool)
    | Num(n: int)
    | Str(s: string)
    | Obj(fields: map<string, Payload>)

  /** The metadata `{}` handed to bindings of ordinary events. */
  const EmptyObject: Payload := Obj(map[])

  /** An inbound frame `{event, data}` as delivered by the transport layer. */
  datatype Frame = Frame(event: string, data: Payload)

  /** Application callbacks are identified by a handle; the same handle may be
      registered more than once. */
  type CallbackId = nat

  /** The one error the channel raises synchronously. */
  datatype ChannelError = BadEventName(event: string)

  /** What the outside world can observe of a channel: a callback run, a call
      into the connection, or a call into the authorizer factory or authorizer. */
  datatype Effect =
      /** a binding registered for `event` (or a global binding) ran with `args` */
    | Emitted(cb: CallbackId, event: string, args: seq<Payload>)
      /** the callback given to `authorize` ran with the authorizer's reply */
    | AuthReplied(cb: CallbackId, err: Payload, authData: Payload)
      /** `send_event(event, data, channel)` on the connection */
    | SendEvent(event: string, data: Payload, channel: string)
      /** `unsubscribe(channel)` on the connection */
    | Unsubscribe(channel: string)
      /** the authorizer factory was asked for an authorizer for `channel` */
    | CreateAuthorizer(channel: string, options: Payload)
      /** the authorizer was asked to authorize `socketId` */
    | AuthorizerRequest(socketId: string)

  /** Prefix of the server's control frames, never shown to application code. */
  const InternalPrefix: string := "pusher_internal:"
  /** Prefix every client-triggered event name must carry. */
  const ClientPrefix: string := "client-"
  /** The server's acknowledgement of a subscription. */
  const InternalSubscriptionSucceeded: string := "pusher_internal:subscription_succeeded"
  /** The public event the acknowledgement is turned into. */
  const PublicSubscriptionSucceeded: string := "pusher:subscription_succeeded"

  /** `s.indexOf(p) === 0` in the source's terms. */
  predicate HasPrefix(s: string, p: string) {
    |p| <= |s| && s[..|p|] == p
  }

  lemma InternalSucceededIsInternal()
    ensures HasPrefix(InternalSubscriptionSucceeded, InternalPrefix)
  {
  }

  /** The public success event lives outside the internal namespace, so turning
      the acknowledgement into it never leaks an internal name. */
  lemma PublicSucceededIsNotInternal()
    ensures !HasPrefix(PublicSubscriptionSucceeded, InternalPrefix)
  {
    assert PublicSubscriptionSucceeded[6] == ':' && InternalPrefix[6] == '_';
  }

  /** No client event name is an internal one: the two namespaces are disjoint. */
  lemma ClientAndInternalDisjoint(event: string)
    requires HasPrefix(event, ClientPrefix)
    ensures !HasPrefix(event, InternalPrefix)
  {
    assert event[0] == ClientPrefix[0] == 'c';
    assert InternalPrefix[0] == 'p';
  }
}
