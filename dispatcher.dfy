/** The channel's event dispatcher: a registry of callbacks per event name plus
    a list of global callbacks, and what one emission of an event does. */
module Dispatcher {
  import opened Protocol

  /** The callbacks bound to `event`, in registration order. */
  function Callbacks(bindings: map<string, seq<CallbackId>>, event: string): seq<CallbackId> {
    if event in bindings then bindings[event] else []
  }

  /** `bind(event, cb)`: append `cb` to the callbacks of `event` and leave every
      other event's callbacks alone. Duplicates are kept. */
  function Bind(bindings: map<string, seq<CallbackId>>, event: string, cb: CallbackId)
    : (r: map<string, seq<CallbackId>>)
    ensures Callbacks(r, event) == Callbacks(bindings, event) + [cb]
    ensures forall other :: other != event ==> Callbacks(r, other) == Callbacks(bindings, other)
  {
    bindings[event := Callbacks(bindings, event) + [cb]]
  }

  /** The arguments an event-name binding receives: the data, then the metadata
      when there is any. */
  function NamedArgs(data: Payload, meta: Option<Payload>): seq<Payload> {
    match meta
    case None => [data]
    case Some(m) => [data, m]
  }

  /** The arguments a global binding receives: the event name in front. */
  function GlobalArgs(event: string, data: Payload, meta: Option<Payload>): seq<Payload> {
    [Str(event)] + NamedArgs(data, meta)
  }

  /** Running each of `cbs`, in order, with `args` on behalf of `event`: one call
      per registration, so a callback bound twice runs twice. */
  function Calls(cbs: seq<CallbackId>, event: string, args: seq<Payload>): (r: seq<Effect>)
    ensures |r| == |cbs|
    ensures forall i :: 0 <= i < |cbs| ==> r[i] == Emitted(cbs[i], event, args)
  {
    if cbs == [] then []
    else Calls(cbs[..|cbs| - 1], event, args) + [Emitted(cbs[|cbs| - 1], event, args)]
  }

  /** `emit(event, data, meta)`: the callbacks bound to `event`, then the global
      callbacks. */
  function Emission(bindings: map<string, seq<CallbackId>>, globals: seq<CallbackId>,
                    event: string, data: Payload, meta: Option<Payload>): seq<Effect>
  {
    Calls(Callbacks(bindings, event), event, NamedArgs(data, meta))
      + Calls(globals, event, GlobalArgs(event, data, meta))
  }

  /** How many times callback `c` ran, counting from the front of `effects`. */
  function Runs(effects: seq<Effect>, c: CallbackId): nat {
    if effects == [] then 0
    else Runs(effects[..|effects| - 1], c)
         + (if effects[|effects| - 1].Emitted? && effects[|effects| - 1].cb == c then 1 else 0)
  }

  /** Calling a list of callbacks runs each handle exactly as often as it is
      registered: no deduplication, no loss. */
  lemma {:induction false} CallsRunEachRegistration(cbs: seq<CallbackId>, event: string,
                                                    args: seq<Payload>, c: CallbackId)
    ensures Runs(Calls(cbs, event, args), c) == multiset(cbs)[c]
  {
    if cbs != [] {
      var n := |cbs| - 1;
      CallsRunEachRegistration(cbs[..n], event, args, c);
      assert cbs == cbs[..n] + [cbs[n]];
      var r := Calls(cbs, event, args);
      assert r[..n] == Calls(cbs[..n], event, args);
    }
  }

  /** Every effect of an emission is a callback run on behalf of that event. */
  lemma EmissionCarriesEvent(bindings: map<string, seq<CallbackId>>, globals: seq<CallbackId>,
                             event: string, data: Payload, meta: Option<Payload>)
    ensures forall e :: e in Emission(bindings, globals, event, data, meta) ==>
              e.Emitted? && e.event == event
  {
    var named := Calls(Callbacks(bindings, event), event, NamedArgs(data, meta));
    var global := Calls(globals, event, GlobalArgs(event, data, meta));
    forall e: Effect | e in named + global
      ensures e.Emitted? && e.event == event
    {
      if e in named {
        var i :| 0 <= i < |named| && named[i] == e;
      } else {
        var i :| 0 <= i < |global| && global[i] == e;
      }
    }
  }

  /** Each callback bound to `event` runs, in registration order, with
      `(data[, meta])`, before any global callback. */
  lemma EmissionReachesBindings(bindings: map<string, seq<CallbackId>>, globals: seq<CallbackId>,
                                event: string, data: Payload, meta: Option<Payload>)
    ensures |Emission(bindings, globals, event, data, meta)| == |Callbacks(bindings, event)| + |globals|
    ensures forall i :: 0 <= i < |Callbacks(bindings, event)| ==>
              Emission(bindings, globals, event, data, meta)[i]
                == Emitted(Callbacks(bindings, event)[i], event, NamedArgs(data, meta))
    ensures forall j :: 0 <= j < |globals| ==>
              Emission(bindings, globals, event, data, meta)[|Callbacks(bindings, event)| + j]
                == Emitted(globals[j], event, GlobalArgs(event, data, meta))
  {
  }
}
