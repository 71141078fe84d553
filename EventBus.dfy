/**
 * The real-time event bus of the dashboard (`WebSocketService`): a registry of
 * listeners per event kind, synchronous dispatch in registration order, a
 * best-effort `send`, and a bounded linear-backoff reconnect counter.
 *
 * Callbacks are compared by reference in the source, so here they are opaque ids.
 * The browser `WebSocket` is abstracted to its presence and ready state; the events
 * the browser delivers to it (`onopen`, `onclose`) are methods of the service.
 */
module EventBus {
  import opened Wrappers

  /** A callback reference, compared by identity (`===`). */
  type CallbackId = nat

  /** What the mock stream attaches to a `location_update` message. */
  datatype LocationUpdate = LocationUpdate(driverId: string, lat: real, lng: real, speed: real, heading: real, timestamp: int)

  /** The `data` of a message, one variant per shape the service produces. */
  datatype Payload =
    | Location(update: LocationUpdate)
    | DeliveryStatus(deliveryId: string, status: string, lat: real, lng: real, timestamp: int)
    | Other(text: string)

  datatype Message = Message(kind: string, data: Payload, timestamp: int)

  /** The `readyState` of the browser socket. */
  datatype ReadyState = Connecting | Open | Closing | Closed

  /** One call `listener(message.data)` made during dispatch. */
  datatype Invocation = Invocation(callback: CallbackId, data: Payload)

  const MaxReconnectAttempts: nat := 5
  const ReconnectDelay: nat := 1000

  /** `Map<string, Function[]>`: the listener lists by event kind. */
  type Registry = map<string, seq<CallbackId>>

  /** `listeners.get(kind) || []`: an absent kind reads as an empty list. */
  function Listeners(reg: Registry, kind: string): seq<CallbackId> {
    if kind in reg then reg[kind] else []
  }

  /** Two registries that give every kind the same list (absent and empty are alike). */
  ghost predicate SameRegistrations(a: Registry, b: Registry) {
    forall kind :: Listeners(a, kind) == Listeners(b, kind)
  }

  /** `listeners.indexOf(x)`: the first index holding `x`, or -1. */
  function IndexOf(s: seq<CallbackId>, x: CallbackId): (r: int)
    ensures -1 <= r < |s|
    ensures r == -1 <==> x !in s
    ensures 0 <= r ==> s[r] == x && x !in s[..r]
  {
    if s == [] then -1
    else if s[0] == x then 0
    else
      var j := IndexOf(s[1..], x);
      assert s[1..][..j + 1] == s[1..j + 2] by { assert j >= 0 ==> s[1..][..j] == s[1..j + 1]; }
      if j == -1 then -1 else j + 1
  }

  /** Reference definition: drop the first `x` from `s`, keep the rest in order. */
  function RemoveFirst(s: seq<CallbackId>, x: CallbackId): (r: seq<CallbackId>)
    ensures x !in s ==> r == s
    ensures |r| == if x in s then |s| - 1 else |s|
  {
    if s == [] then []
    else if s[0] == x then s[1..]
    else [s[0]] + RemoveFirst(s[1..], x)
  }

  /** `subscribe(kind, cb)`: create the kind's list if missing, then push `cb`. */
  function Subscribed(reg: Registry, kind: string, cb: CallbackId): (r: Registry)
    ensures Listeners(r, kind) == Listeners(reg, kind) + [cb]
    ensures forall k :: k != kind ==> Listeners(r, k) == Listeners(reg, k)
    ensures r.Keys == reg.Keys + {kind}
  {
    var withKind := if kind !in reg then reg[kind := []] else reg;
    withKind[kind := withKind[kind] + [cb]]
  }

  /** `unsubscribe(kind, cb)`: `indexOf` then `splice(index, 1)` when found. */
  function Unsubscribed(reg: Registry, kind: string, cb: CallbackId): (r: Registry)
    ensures Listeners(r, kind) == RemoveFirst(Listeners(reg, kind), cb)
    ensures forall k :: k != kind ==> Listeners(r, k) == Listeners(reg, k)
    ensures cb !in Listeners(reg, kind) ==> r == reg
  {
    var list := Listeners(reg, kind);
    var index := IndexOf(list, cb);
    SpliceIsRemoveFirst(list, cb);
    if index > -1 then reg[kind := list[..index] + list[index + 1..]] else reg
  }

  /** `handleMessage(m)`: every listener of `m.kind`, in order, called with `m.data`. */
  function Dispatch(reg: Registry, m: Message): (r: seq<Invocation>)
    ensures |r| == |Listeners(reg, m.kind)|
  {
    var list := Listeners(reg, m.kind);
    seq(|list|, i requires 0 <= i < |list| => Invocation(list[i], m.data))
  }

  /** The callbacks of a dispatch, in call order. */
  function Callbacks(invs: seq<Invocation>): (r: seq<CallbackId>)
    ensures |r| == |invs|
    ensures forall i :: 0 <= i < |invs| ==> r[i] == invs[i].callback
  {
    if invs == [] then [] else [invs[0].callback] + Callbacks(invs[1..])
  }

  /** The `splice` at the index `indexOf` found removes exactly the first occurrence. */
  lemma {:induction false} SpliceIsRemoveFirst(s: seq<CallbackId>, x: CallbackId)
    ensures IndexOf(s, x) == -1 ==> RemoveFirst(s, x) == s
    ensures IndexOf(s, x) >= 0 ==> RemoveFirst(s, x) == s[..IndexOf(s, x)] + s[IndexOf(s, x) + 1..]
  {
    if s != [] && s[0] != x {
      SpliceIsRemoveFirst(s[1..], x);
      var t := s[1..];
      var j := IndexOf(t, x);
      if j >= 0 {
        ConsSlices(s, j);
        calc {
          RemoveFirst(s, x);
          [s[0]] + RemoveFirst(t, x);
          [s[0]] + (t[..j] + t[j + 1..]);
          s[..j + 1] + s[j + 2..];
        }
      } else {
        assert s == [s[0]] + t;
      }
    }
  }

  /** Cutting `s` around index `j + 1` is cutting its tail around `j`, with the head in front. */
  lemma ConsSlices(s: seq<CallbackId>, j: nat)
    requires j + 1 < |s|
    ensures s[..j + 1] == [s[0]] + s[1..][..j]
    ensures s[j + 2..] == s[1..][j + 1..]
    ensures [s[0]] + (s[1..][..j] + s[1..][j + 1..]) == s[..j + 1] + s[j + 2..]
  {
    assert s[..j + 1] == [s[0]] + s[1..][..j];
    assert s[j + 2..] == s[1..][j + 1..];
  }

  /** Removing the first `x` takes one `x` out of the multiset and nothing else. */
  lemma {:induction false} RemoveFirstMultiset(s: seq<CallbackId>, x: CallbackId)
    ensures multiset(RemoveFirst(s, x)) == multiset(s) - multiset{x}
  {
    if s != [] {
      assert s == [s[0]] + s[1..];
      if s[0] != x {
        RemoveFirstMultiset(s[1..], x);
      }
    }
  }

  /** Unsubscribing what was just subscribed, when it was not there before, restores the list. */
  lemma {:induction false} RemoveFirstAfterAppend(s: seq<CallbackId>, x: CallbackId)
    requires x !in s
    ensures RemoveFirst(s + [x], x) == s
  {
    if s != [] {
      assert (s + [x])[1..] == s[1..] + [x];
      RemoveFirstAfterAppend(s[1..], x);
    }
  }

  /** The dispatch calls exactly the registered callbacks in registration order. */
  lemma DispatchCallsListeners(reg: Registry, m: Message)
    ensures Callbacks(Dispatch(reg, m)) == Listeners(reg, m.kind)
    ensures forall inv :: inv in Dispatch(reg, m) ==> inv.data == m.data
  {
  }

  /** A callback registered n times for a kind runs n times per message of that kind. */
  lemma DispatchMultiplicity(reg: Registry, m: Message, cb: CallbackId)
    ensures multiset(Callbacks(Dispatch(reg, m)))[cb] == multiset(Listeners(reg, m.kind))[cb]
  {
    DispatchCallsListeners(reg, m);
  }

  /** Registries that agree on every kind's list dispatch every message identically. */
  lemma SameRegistrationsSameDispatch(a: Registry, b: Registry, m: Message)
    requires SameRegistrations(a, b)
    ensures Dispatch(a, m) == Dispatch(b, m)
  {
    assert Listeners(a, m.kind) == Listeners(b, m.kind);
  }

  /** An absent kind and an empty list dispatch alike: nothing is called. */
  lemma AbsentKindLikeEmpty(reg: Registry, m: Message)
    requires m.kind !in reg
    ensures Dispatch(reg, m) == Dispatch(reg[m.kind := []], m) == []
  {
  }

  /**
   * `subscribe(kind, cb)` then `unsubscribe(kind, cb)`, with `cb` not yet registered
   * for `kind`, leaves every kind's list as it was.
   */
  lemma SubscribeUnsubscribeRestores(reg: Registry, kind: string, cb: CallbackId)
    requires cb !in Listeners(reg, kind)
    ensures SameRegistrations(Unsubscribed(Subscribed(reg, kind, cb), kind, cb), reg)
  {
    RemoveFirstAfterAppend(Listeners(reg, kind), cb);
  }

  /**
   * After unsubscribing a callback that was registered once for a kind, no message
   * of that kind reaches it.
   */
  lemma UnsubscribedReceivesNothing(reg: Registry, kind: string, cb: CallbackId, m: Message)
    requires multiset(Listeners(reg, kind))[cb] == 1
    requires m.kind == kind
    ensures cb !in Callbacks(Dispatch(Unsubscribed(reg, kind, cb), m))
  {
    var after := Unsubscribed(reg, kind, cb);
    RemoveFirstMultiset(Listeners(reg, kind), cb);
    DispatchCallsListeners(after, m);
    assert multiset(Listeners(after, kind))[cb] == 0;
  }

  /** `reconnect()`: the new attempt count and the delay of the reconnect it schedules, if any. */
  function NextReconnect(attempts: nat): (r: (nat, Option<nat>))
    ensures attempts <= MaxReconnectAttempts ==> r.0 <= MaxReconnectAttempts
    ensures r.1.Some? <==> attempts < MaxReconnectAttempts
    ensures r.1.None? ==> r.0 == attempts
    ensures r.1.Some? ==> r.0 == attempts + 1 && r.1.value == ReconnectDelay * r.0
  {
    if attempts < MaxReconnectAttempts then (attempts + 1, Some(ReconnectDelay * (attempts + 1)))
    else (attempts, None)
  }

  /** The delays scheduled by `closes` consecutive failures with no successful open in between. */
  function ScheduledDelays(attempts: nat, closes: nat): seq<nat>
    decreases closes
  {
    if closes == 0 then []
    else
      var (next, delay) := NextReconnect(attempts);
      (if delay.Some? then [delay.value] else []) + ScheduledDelays(next, closes - 1)
  }

  function Min(a: int, b: int): int {
    if a <= b then a else b
  }

  /**
   * The backoff is linear and bounded: from `attempts` failures, further failures
   * schedule at most `MaxReconnectAttempts - attempts` reconnects, the i-th waiting
   * `ReconnectDelay * (attempts + i + 1)` ms.
   */
  lemma {:induction false} BoundedLinearBackoff(attempts: nat, closes: nat)
    requires attempts <= MaxReconnectAttempts
    ensures |ScheduledDelays(attempts, closes)| == Min(closes, MaxReconnectAttempts - attempts)
    ensures forall i :: 0 <= i < |ScheduledDelays(attempts, closes)| ==>
              ScheduledDelays(attempts, closes)[i] == ReconnectDelay * (attempts + i + 1)
    decreases closes
  {
    if closes > 0 {
      var (next, delay) := NextReconnect(attempts);
      BoundedLinearBackoff(next, closes - 1);
      if delay.None? {
        assert ScheduledDelays(attempts, closes) == ScheduledDelays(next, closes - 1);
      }
    }
  }

  /** From a fresh counter the delays are exactly 1000, 2000, 3000, 4000, 5000 ms. */
  lemma BackoffFromReset(closes: nat)
    requires closes >= MaxReconnectAttempts
    ensures ScheduledDelays(0, closes) == [1000, 2000, 3000, 4000, 5000]
  {
    BoundedLinearBackoff(0, closes);
  }

  class WebSocketService {
    /** `ws`: the current socket, if any, by its ready state. */
    var ws: Option<ReadyState>
    var reconnectAttempts: nat
    var listeners: Registry
    /** The frames handed to the socket's `send`, oldest first. */
    var sent: seq<Message>

    ghost predicate Valid()
      reads this
    {
      reconnectAttempts <= MaxReconnectAttempts
    }

    constructor ()
      ensures Valid()
      ensures ws == None && reconnectAttempts == 0 && listeners == map[] && sent == []
    {
      ws := None;
      reconnectAttempts := 0;
      listeners := map[];
      sent := [];
    }

    /**
     * `connect()`: a new socket, whatever the previous one was. When the socket
     * constructor throws, the old `ws` stays and a reconnect is attempted.
     */
    method Connect(constructorThrows: bool) returns (delay: Option<nat>)
      requires Valid()
      modifies this
      ensures Valid()
      ensures listeners == old(listeners) && sent == old(sent)
      ensures !constructorThrows ==>
                ws == Some(Connecting) && reconnectAttempts == old(reconnectAttempts) && delay == None
      ensures constructorThrows ==>
                ws == old(ws) && (reconnectAttempts, delay) == NextReconnect(old(reconnectAttempts))
    {
      if constructorThrows {
        delay := Reconnect();
      } else {
        ws := Some(Connecting);
        delay := None;
      }
    }

    /** The socket opened: `onopen` resets the counter (the mock stream it starts is not modelled). */
    method OnOpen()
      requires Valid()
      modifies this
      ensures Valid()
      ensures reconnectAttempts == 0
      ensures ws == if old(ws).Some? then Some(Open) else None
      ensures listeners == old(listeners) && sent == old(sent)
    {
      if ws.Some? {
        ws := Some(Open);
      }
      reconnectAttempts := 0;
    }

    /** The socket closed: `onclose` asks for a reconnect. */
    method OnClose() returns (delay: Option<nat>)
      requires Valid()
      modifies this
      ensures Valid()
      ensures (reconnectAttempts, delay) == NextReconnect(old(reconnectAttempts))
      ensures ws == if old(ws).Some? then Some(Closed) else None
      ensures listeners == old(listeners) && sent == old(sent)
    {
      if ws.Some? {
        ws := Some(Closed);
      }
      delay := Reconnect();
    }

    /** `reconnect()`: count one more attempt and schedule it, unless the bound is reached. */
    method Reconnect() returns (delay: Option<nat>)
      requires Valid()
      modifies this`reconnectAttempts
      ensures Valid()
      ensures (reconnectAttempts, delay) == NextReconnect(old(reconnectAttempts))
    {
      if reconnectAttempts < MaxReconnectAttempts {
        reconnectAttempts := reconnectAttempts + 1;
        delay := Some(ReconnectDelay * reconnectAttempts);
      } else {
        delay := None;
      }
    }

    /** `handleMessage(m)`: call each listener of `m.kind` in turn with `m.data`. */
    method HandleMessage(m: Message) returns (invoked: seq<Invocation>)
      ensures invoked == Dispatch(listeners, m)
      ensures |invoked| == |Listeners(listeners, m.kind)|
      ensures forall i :: 0 <= i < |invoked| ==>
                invoked[i] == Invocation(Listeners(listeners, m.kind)[i], m.data)
    {
      var list := if m.kind in listeners then listeners[m.kind] else [];
      invoked := [];
      var i := 0;
      while i < |list|
        invariant 0 <= i <= |list|
        invariant |invoked| == i
        invariant forall j :: 0 <= j < i ==> invoked[j] == Invocation(list[j], m.data)
      {
        invoked := invoked + [Invocation(list[i], m.data)];
        i := i + 1;
      }
    }

    method Subscribe(kind: string, cb: CallbackId)
      modifies this`listeners
      ensures listeners == Subscribed(old(listeners), kind, cb)
    {
      if kind !in listeners {
        listeners := listeners[kind := []];
      }
      listeners := listeners[kind := listeners[kind] + [cb]];
    }

    method Unsubscribe(kind: string, cb: CallbackId)
      modifies this`listeners
      ensures listeners == Unsubscribed(old(listeners), kind, cb)
    {
      var list := if kind in listeners then listeners[kind] else [];
      var index := IndexOf(list, cb);
      if index > -1 {
        listeners := listeners[kind := list[..index] + list[index + 1..]];
      }
    }

    /** `send(m)`: handed to the socket only when one exists and is open; dropped otherwise. */
    method Send(m: Message)
      modifies this`sent
      ensures sent == if ws == Some(Open) then old(sent) + [m] else old(sent)
    {
      if ws.Some? && ws.value == Open {
        sent := sent + [m];
      }
    }

    /** `disconnect()`: close and forget the socket; listeners and the counter stay. */
    method Disconnect()
      modifies this`ws
      ensures ws == None
    {
      if ws.Some? {
        ws := None;
      }
    }
  }
}
