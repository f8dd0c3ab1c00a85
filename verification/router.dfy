/** The dispatcher: a route table from exact route keys to handlers, and the
    delegation of a whole event to the handler registered under its route. */
module Router {
  import opened Wrappers
  import opened Values

  /** The `Handler` capability: one operation from an `interface{}` value to a reply.
      A partial arrow, since a handler may panic on a value it does not accept. */
  type Handler = Value --> Reply

  /** `Router`; `handlers` is None for Go's nil map, which the zero Router holds. */
  datatype Router = Router(handlers: Option<map<string, Handler>>)

  /** Reading the table: a nil map and a missing key both give the nil handler. */
  function Lookup(r: Router, key: string): (h: Option<Handler>)
    ensures h.Some? <==> r.handlers.Some? && key in r.handlers.value
    ensures h.Some? ==> h.value == r.handlers.value[key]
  {
    match r.handlers
    case None => None
    case Some(m) => if key in m then Some(m[key]) else None
  }

  /** The handler `Route` would call for `evt`; only the route key is consulted. */
  function Selected(r: Router, evt: Event): (h: Handler)
    requires Lookup(r, evt.route).Some?
    ensures Lookup(r, evt.route) == Some(h)
  {
    Lookup(r, evt.route).value
  }

  /** `Route`: calls the handler of `evt.route` on the whole event and returns its reply
      untransformed. There is no "not found" reply: calling the nil handler of an unknown
      key panics, so the key must be registered, and the handler must accept the event. */
  function Route(r: Router, evt: Event): (reply: Reply)
    requires Lookup(r, evt.route).Some?
    requires Selected(r, evt).requires(EventValue(evt))
    ensures reply == Lookup(r, evt.route).value(EventValue(evt))
  {
    Selected(r, evt)(EventValue(evt))
  }

  /** `SetHandler`: registers `handler` under `route`, overwriting any earlier entry.
      Assigning into a nil Go map panics, so the table must exist already. */
  function SetHandler(r: Router, route: string, handler: Handler): (r': Router)
    requires r.handlers.Some?
    ensures Lookup(r', route) == Some(handler)
    ensures forall k :: k != route ==> Lookup(r', k) == Lookup(r, k)
    ensures r'.handlers.Some? && r'.handlers.value.Keys == r.handlers.value.Keys + {route}
  {
    Router(Some(r.handlers.value[route := handler]))
  }

  /** Events that differ only in body, path or query string select the same handler. */
  lemma SelectionIgnoresPayload(r: Router, e1: Event, e2: Event)
    requires Lookup(r, e1.route).Some? && e1.route == e2.route
    ensures Selected(r, e1) == Selected(r, e2)
  {
  }

  /** After registering `h` under an event's route, routing that event is calling `h` on it. */
  lemma RouteAfterSetHandler(r: Router, h: Handler, evt: Event)
    requires r.handlers.Some? && h.requires(EventValue(evt))
    ensures Route(SetHandler(r, evt.route, h), evt) == h(EventValue(evt))
  {
  }

  /** Registering under another key leaves the routing of `evt` as it was. */
  lemma SetHandlerKeepsOtherRoutes(r: Router, route: string, h: Handler, evt: Event)
    requires r.handlers.Some? && route != evt.route
    requires Lookup(r, evt.route).Some? && Selected(r, evt).requires(EventValue(evt))
    ensures Route(SetHandler(r, route, h), evt) == Route(r, evt)
  {
  }

  /** A second registration under the same key replaces the first entirely. */
  lemma SetHandlerOverwrites(r: Router, route: string, h1: Handler, h2: Handler)
    requires r.handlers.Some?
    ensures SetHandler(SetHandler(r, route, h1), route, h2) == SetHandler(r, route, h2)
  {
    var m: map<string, Handler> := r.handlers.value;
    var m1: map<string, Handler> := m[route := h1];
    assert m1[route := h2] == m[route := h2];
  }
}
