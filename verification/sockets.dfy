/** The shared socket and the handler registrations made by the dashboard
    (src/components/Dashboard.jsx: the module-level `socket` with
    `getSocket`, and the effect that calls `s.on` on mount and `s.off` on
    cleanup). The transport behind the socket is not modelled: a socket is an
    opaque handle that only keeps its registered handlers. */
module Sockets {

  /** The events the dashboard listens to. */
  datatype Topic = Connect | Disconnect | TelemetryInit | TelemetryUpdate

  /** The handler closures one mount of the component creates. JavaScript
      compares functions by identity, so closures made by different mounts are
      different handlers; `mount` tells them apart. */
  datatype Handler =
    | ConnectHandler(mount: nat)
    | DisconnectHandler(mount: nat)
    | TelemetryHandler(mount: nat)

  datatype Subscription = Subscription(topic: Topic, handler: Handler)

  /** The four registrations one mount makes; the telemetry handler is shared
      by the `telemetry:init` and `telemetry:update` topics. */
  function MountSubscriptions(mount: nat): (subs: multiset<Subscription>)
    ensures |subs| == 4
    ensures forall s :: s in subs ==> s.handler.mount == mount && subs[s] == 1
    ensures Subscription(Connect, ConnectHandler(mount)) in subs
    ensures Subscription(Disconnect, DisconnectHandler(mount)) in subs
    ensures Subscription(TelemetryInit, TelemetryHandler(mount)) in subs
    ensures Subscription(TelemetryUpdate, TelemetryHandler(mount)) in subs
  {
    multiset{
      Subscription(Connect, ConnectHandler(mount)),
      Subscription(Disconnect, DisconnectHandler(mount)),
      Subscription(TelemetryInit, TelemetryHandler(mount)),
      Subscription(TelemetryUpdate, TelemetryHandler(mount))}
  }

  /** No handler of the given mount is registered. */
  predicate NoneFrom(handlers: multiset<Subscription>, mount: nat)
  {
    forall s :: s in handlers ==> s.handler.mount != mount
  }

  /** A mount, its cleanup and a second mount leave exactly the second mount's
      handlers added to what was registered before, each registered once, and
      none of the first mount's handlers; so each message reaches each live
      handler once. */
  lemma RemountDeliversOnce(before: multiset<Subscription>, first: nat, second: nat)
    requires first != second
    requires NoneFrom(before, first) && NoneFrom(before, second)
    ensures var after := before + MountSubscriptions(first) - MountSubscriptions(first) + MountSubscriptions(second);
      && after == before + MountSubscriptions(second)
      && (forall s :: s in MountSubscriptions(second) ==> after[s] == 1)
      && (forall s: Subscription :: s.handler.mount == first ==> s !in after)
  {
  }

  /** A socket handle with its event-listener registry. A handler registered
      n times for a topic runs n times per message on that topic. */
  class Socket {
    var handlers: multiset<Subscription>

    constructor ()
      ensures handlers == multiset{}
    {
      handlers := multiset{};
    }

    /** `s.on(topic, handler)`. */
    method On(topic: Topic, handler: Handler)
      modifies this
      ensures handlers == old(handlers) + multiset{Subscription(topic, handler)}
    {
      handlers := handlers + multiset{Subscription(topic, handler)};
    }

    /** `s.off(topic, handler)`: removes one registration of that handler, if any. */
    method Off(topic: Topic, handler: Handler)
      modifies this
      ensures handlers == old(handlers) - multiset{Subscription(topic, handler)}
    {
      handlers := handlers - multiset{Subscription(topic, handler)};
    }
  }

  /** The module-level `let socket` and `getSocket`: the socket is created on
      first use and shared afterwards. `creations` counts the `io(...)` calls. */
  class SocketRegistry {
    var socket: Socket?
    ghost var creations: nat

    ghost predicate Valid()
      reads this
    {
      creations <= 1 && (socket == null <==> creations == 0)
    }

    constructor ()
      ensures Valid() && socket == null && creations == 0
    {
      socket := null;
      creations := 0;
    }

    /** The first call creates the socket; every later call returns that same
        socket and creates nothing. */
    method GetSocket() returns (s: Socket)
      requires Valid()
      modifies this
      ensures Valid() && socket == s
      ensures old(socket) != null ==> s == old(socket) && creations == old(creations)
      ensures old(socket) == null ==> fresh(s) && s.handlers == multiset{} && creations == 1
    {
      if socket == null {
        socket := new Socket();
        creations := creations + 1;
      }
      s := socket;
    }
  }

  /** The subscribe effect: get the shared socket and register the four
      handlers of this mount on it. */
  method Mount(registry: SocketRegistry, mount: nat) returns (s: Socket)
    requires registry.Valid()
    modifies registry, registry.socket
    ensures registry.Valid() && registry.socket == s
    ensures old(registry.socket) != null ==> s == old(registry.socket) && registry.creations == old(registry.creations)
    ensures old(registry.socket) == null ==> fresh(s) && registry.creations == 1
    ensures s.handlers == old(if registry.socket == null then multiset{} else registry.socket.handlers) + MountSubscriptions(mount)
  {
    s := registry.GetSocket();
    s.On(Connect, ConnectHandler(mount));
    s.On(Disconnect, DisconnectHandler(mount));
    s.On(TelemetryInit, TelemetryHandler(mount));
    s.On(TelemetryUpdate, TelemetryHandler(mount));
  }

  /** The effect's cleanup: unregister exactly the four handlers of this mount. */
  method Unmount(s: Socket, mount: nat)
    modifies s
    ensures s.handlers == old(s.handlers) - MountSubscriptions(mount)
  {
    ghost var before := s.handlers;
    ghost var c, d := multiset{Subscription(Connect, ConnectHandler(mount))}, multiset{Subscription(Disconnect, DisconnectHandler(mount))};
    ghost var i, u := multiset{Subscription(TelemetryInit, TelemetryHandler(mount))}, multiset{Subscription(TelemetryUpdate, TelemetryHandler(mount))};
    s.Off(Connect, ConnectHandler(mount));
    assert s.handlers == before - c;
    s.Off(Disconnect, DisconnectHandler(mount));
    assert s.handlers == before - c - d;
    RemoveInTurn(before, c, d);
    assert s.handlers == before - (c + d);
    s.Off(TelemetryInit, TelemetryHandler(mount));
    RemoveInTurn(before, c + d, i);
    assert s.handlers == before - (c + d + i);
    s.Off(TelemetryUpdate, TelemetryHandler(mount));
    RemoveInTurn(before, c + d + i, u);
    assert s.handlers == before - (c + d + i + u);
    assert MountSubscriptions(mount) == c + d + i + u;
  }

  /** Removing registrations one group after another removes them all. */
  lemma RemoveInTurn(h: multiset<Subscription>, a: multiset<Subscription>, b: multiset<Subscription>)
    ensures h - a - b == h - (a + b)
  {
  }
}
