/**
 * The live connection (src/services/socket/service.ts): at most one socket,
 * created on demand, and a set of new-message listeners that every incoming
 * message is handed to. Sockets are numbered by creation; listeners are opaque
 * identifiers kept in insertion order, which is the iteration order of a
 * JavaScript Set. What the transport does with an emit is outside the model:
 * emits are logged, and whether one throws is a parameter.
 */
module SocketService {
  import opened Wrappers
  import opened MessageTypes

  type ListenerId = nat

  /** No listener appears twice. */
  predicate Distinct(s: seq<ListenerId>) {
    forall i, j :: 0 <= i < j < |s| ==> s[i] != s[j]
  }

  /** `s` without `x`, the others in their order (Set.prototype.delete). */
  function Without(s: seq<ListenerId>, x: ListenerId): (r: seq<ListenerId>)
    ensures forall y :: y in r <==> y in s && y != x
    ensures |r| <= |s|
    ensures Distinct(s) ==> Distinct(r)
    ensures x !in s ==> r == s
  {
    if s == [] then []
    else if s[0] == x then Without(s[1..], x)
    else
      var rest := Without(s[1..], x);
      assert Distinct(s) ==> s[0] !in s[1..] && Distinct(s[1..]) && s[0] !in rest;
      [s[0]] + rest
  }

  /** The listeners among `s` that throw, in order. */
  function Throwing(s: seq<ListenerId>, throwing: set<ListenerId>): (r: seq<ListenerId>)
    ensures forall y :: y in r <==> y in s && y in throwing
    ensures |r| <= |s|
  {
    if s == [] then []
    else Throwing(s[..|s| - 1], throwing) + (if s[|s| - 1] in throwing then [s[|s| - 1]] else [])
  }

  /** An emitted "send-message" event with its payload. */
  datatype Emit = SendMessageEvent(username: string, content: string)

  class SocketService {
    /** The current socket's number, or None (`socket === null`). */
    var socket: Option<nat>
    /** Sockets created so far; the next one gets this number. */
    var created: nat
    var listeners: seq<ListenerId>
    var emitted: seq<Emit>
    /** The sockets closed by disconnect, in order. */
    var closed: seq<nat>

    predicate Valid()
      reads this
    {
      Distinct(listeners) && (socket.Some? ==> socket.value < created)
    }

    constructor ()
      ensures Valid()
      ensures socket == None && created == 0 && listeners == [] && emitted == [] && closed == []
    {
      socket := None;
      created := 0;
      listeners := [];
      emitted := [];
      closed := [];
    }

    /** Create a socket only if there is none; either way return the current one. */
    method Connect() returns (s: nat)
      requires Valid()
      modifies this`socket, this`created
      ensures Valid()
      ensures old(socket).Some? ==> s == old(socket).value && socket == old(socket) && created == old(created)
      ensures old(socket).None? ==> s == old(created) && socket == Some(s) && created == old(created) + 1
    {
      if socket.None? {
        socket := Some(created);
        created := created + 1;
      }
      s := socket.value;
    }

    /** Connect if needed, then emit "send-message"; an emit that throws is rethrown (returned as false) and not logged. */
    method SendMessage(username: string, content: string, emitThrows: bool) returns (ok: bool)
      requires Valid()
      modifies this`socket, this`created, this`emitted
      ensures Valid()
      // a missing socket is created with the next number; a present one stays
      ensures old(socket).None? ==> socket == Some(old(created)) && created == old(created) + 1
      ensures old(socket).Some? ==> socket == old(socket) && created == old(created)
      ensures listeners == old(listeners)
      ensures ok == !emitThrows
      ensures emitted == old(emitted) + (if emitThrows then [] else [SendMessageEvent(username, content)])
    {
      if socket.None? {
        var _ := Connect();
      }
      if emitThrows {
        return false;
      }
      emitted := emitted + [SendMessageEvent(username, content)];
      return true;
    }

    /** Connect if needed and add the callback once; the returned handle unsubscribes it. */
    method OnNewMessage(callback: ListenerId) returns (unsubscribe: ListenerId)
      requires Valid()
      modifies this`socket, this`created, this`listeners
      ensures Valid()
      // a missing socket is created with the next number; a present one stays
      ensures old(socket).None? ==> socket == Some(old(created)) && created == old(created) + 1
      ensures old(socket).Some? ==> socket == old(socket) && created == old(created)
      ensures listeners == (if callback in old(listeners) then old(listeners) else old(listeners) + [callback])
      ensures unsubscribe == callback
    {
      if socket.None? {
        var _ := Connect();
      }
      if callback !in listeners {
        listeners := listeners + [callback];
      }
      unsubscribe := callback;
    }

    /** The unsubscribe handle: remove exactly that callback. */
    method Unsubscribe(callback: ListenerId)
      requires Valid()
      modifies this`listeners
      ensures Valid()
      ensures listeners == Without(old(listeners), callback)
    {
      listeners := Without(listeners, callback);
    }

    /** Forget every listener; the socket stays. */
    method OffAllMessageListeners()
      requires Valid()
      modifies this`listeners
      ensures Valid() && listeners == []
    {
      listeners := [];
    }

    /** Close and drop the socket and forget the listeners; without a socket nothing happens. */
    method Disconnect()
      requires Valid()
      modifies this`socket, this`listeners, this`closed
      ensures Valid()
      ensures old(socket).Some? ==> socket.None? && listeners == [] && closed == old(closed) + [old(socket).value]
      ensures old(socket).None? ==> socket.None? && listeners == old(listeners) && closed == old(closed)
    {
      if socket.Some? {
        closed := closed + [socket.value];
        socket := None;
        listeners := [];
      }
    }

    method GetSocket() returns (s: Option<nat>)
      ensures s == socket
    {
      s := socket;
    }

    /**
     * A "new-message" event: every listener is called, in order, and one that throws
     * is logged and does not stop the rest. Returns the calls made and the calls that threw.
     */
    method DispatchNewMessage(message: ChatMessage, throwing: set<ListenerId>)
      returns (invoked: seq<ListenerId>, failed: seq<ListenerId>)
      requires Valid() && socket.Some?
      ensures invoked == listeners
      ensures failed == Throwing(listeners, throwing)
    {
      invoked, failed := [], [];
      var i := 0;
      while i < |listeners|
        invariant 0 <= i <= |listeners|
        invariant invoked == listeners[..i]
        invariant failed == Throwing(listeners[..i], throwing)
      {
        var listener := listeners[i];
        invoked := invoked + [listener];
        if listener in throwing {
          failed := failed + [listener];
        }
        assert listeners[..i + 1][..i] == listeners[..i];
        i := i + 1;
      }
      assert listeners[..i] == listeners;
    }
  }

  /** Subscribing twice and unsubscribing once leaves the callback unsubscribed. */
  lemma SetSemantics(s: seq<ListenerId>, x: ListenerId)
    requires Distinct(s)
    ensures var once := if x in s then s else s + [x];
            (if x in once then once else once + [x]) == once && x !in Without(once, x)
  {
  }
}
