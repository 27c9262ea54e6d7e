/**
 * The push-channel client (src/app/core/services/websocket.service.ts) as a
 * state machine over its socket slot.
 *
 * Sockets are numbered in creation order. Browser events are methods: a frame
 * arriving on a socket (`OnMessage`, with JSON.parse's outcome as an
 * `Option`), an error (`OnError`), a close event (`OnClose`), and a 3000 ms
 * reconnect timer firing (`ReconnectFires`). `pendingReconnects` counts the
 * reconnect timers that are scheduled and not cancelled.
 *
 * `destroy$` is a Subject that `disconnect()` both signals and completes.
 * `takeUntil(destroy$)` reacts only to the signal, so a timer scheduled before
 * the first `disconnect()` is cancelled by it, while one scheduled afterwards
 * is never cancelled; `destroyed` records that the signal has been given.
 */
module Sockets {
  import opened Wrappers
  import opened Models

  function SlotSet(slot: Option<nat>): set<nat> {
    if slot.Some? then {slot.value} else {}
  }

  /** WebSocketService. */
  class WebSocketService {
    /** The `socket` field: the id of the socket in the slot, or null. */
    var socket: Option<nat>
    /** How many sockets have been created; ids are 0 .. socketsCreated - 1. */
    var socketsCreated: nat
    /** Sockets created whose close event has not fired yet. */
    var live: set<nat>
    /** Sockets on which `close()` has been called and whose close event is still to come. */
    var closing: set<nat>
    /** Every value pushed into `messages$`, in order. */
    var messages: seq<TimerState>
    /** Whether `destroy$` has been signalled (and completed). */
    var destroyed: bool
    var pendingReconnects: nat

    ghost predicate Valid()
      reads this
    {
      && (socket.Some? ==> socket.value in live && socket.value !in closing)
      && closing <= live
      && (forall i :: i in live ==> i < socketsCreated)
      // Before teardown the only physical connection is the one in the slot.
      && (!destroyed ==> live == SlotSet(socket) && closing == {})
    }

    /** Shut down: no socket, nothing pending, and no way for a timer to bring one back. */
    ghost predicate TornDown()
      reads this
    {
      destroyed && pendingReconnects == 0 && socket.None?
    }

    constructor ()
      ensures Valid()
      ensures socket.None? && socketsCreated == 0 && live == {} && closing == {}
      ensures messages == [] && !destroyed && pendingReconnects == 0
    {
      socket := None;
      socketsCreated := 0;
      live := {};
      closing := {};
      messages := [];
      destroyed := false;
      pendingReconnects := 0;
    }

    /**
     * connect(): with a socket in the slot, nothing happens and the existing
     * message stream is returned; otherwise exactly one socket is created and
     * stored. The slot is the only guard: a torn-down service connects again.
     */
    method Connect() returns (created: bool)
      requires Valid()
      modifies this
      ensures Valid()
      ensures created <==> old(socket).None?
      ensures !created ==> socket == old(socket) && socketsCreated == old(socketsCreated) && live == old(live)
      ensures created ==> socket == Some(old(socketsCreated)) && socketsCreated == old(socketsCreated) + 1 && live == old(live) + {old(socketsCreated)}
      ensures closing == old(closing) && messages == old(messages)
      ensures destroyed == old(destroyed) && pendingReconnects == old(pendingReconnects)
    {
      if socket.Some? {
        return false;
      }
      socket := Some(socketsCreated);
      live := live + {socketsCreated};
      socketsCreated := socketsCreated + 1;
      created := true;
    }

    /**
     * onmessage on socket `sid`: a frame that parses is pushed into messages$
     * exactly once and returned; one that does not is dropped. The slot is untouched.
     */
    method OnMessage(sid: nat, frame: Option<TimerState>) returns (emitted: Option<TimerState>)
      requires Valid()
      requires sid in live && sid !in closing
      modifies this`messages
      ensures emitted == frame
      ensures messages == old(messages) + (if frame.Some? then [frame.value] else [])
    {
      emitted := frame;
      if frame.Some? {
        messages := messages + [frame.value];
      }
    }

    /** onerror: only logged; nothing in the service changes. */
    method OnError(sid: nat)
      requires Valid()
      requires sid in live
      ensures socket == old(socket) && pendingReconnects == old(pendingReconnects)
    {
    }

    /**
     * onclose of socket `sid`: the slot is emptied and one reconnect is
     * scheduled, whether or not the service has been torn down.
     */
    method OnClose(sid: nat)
      requires Valid()
      requires sid in live
      modifies this
      ensures Valid()
      ensures socket.None? && live == old(live) - {sid} && closing == old(closing) - {sid}
      ensures pendingReconnects == old(pendingReconnects) + 1
      ensures socketsCreated == old(socketsCreated) && messages == old(messages) && destroyed == old(destroyed)
    {
      socket := None;
      live := live - {sid};
      closing := closing - {sid};
      pendingReconnects := pendingReconnects + 1;
    }

    /**
     * onclose with the teardown check the handler lacks: no reconnect is
     * scheduled once destroy$ has been signalled, so a torn-down service stays down.
     */
    method OnCloseGuarded(sid: nat)
      requires Valid()
      requires sid in live
      modifies this
      ensures Valid()
      ensures socket.None? && live == old(live) - {sid} && closing == old(closing) - {sid}
      ensures pendingReconnects == old(pendingReconnects) + (if destroyed then 0 else 1)
      ensures socketsCreated == old(socketsCreated) && messages == old(messages) && destroyed == old(destroyed)
      ensures old(TornDown()) ==> TornDown()
    {
      socket := None;
      live := live - {sid};
      closing := closing - {sid};
      if !destroyed {
        pendingReconnects := pendingReconnects + 1;
      }
    }

    /** A scheduled reconnect timer fires and calls connect(). */
    method ReconnectFires() returns (created: bool)
      requires Valid()
      requires pendingReconnects > 0
      modifies this
      ensures Valid()
      ensures pendingReconnects == old(pendingReconnects) - 1
      ensures created <==> old(socket).None?
      ensures created ==> socket == Some(old(socketsCreated)) && live == old(live) + {old(socketsCreated)}
      ensures !created ==> socket == old(socket) && live == old(live)
      ensures destroyed == old(destroyed) && messages == old(messages)
      ensures closing == old(closing) && socketsCreated == old(socketsCreated) + (if created then 1 else 0)
    {
      pendingReconnects := pendingReconnects - 1;
      created := Connect();
    }

    /**
     * disconnect(): signal destroy$ (cancelling the reconnect timers pending
     * now, the first time only), close the socket in the slot and empty it.
     */
    method Disconnect()
      requires Valid()
      modifies this
      ensures Valid()
      ensures destroyed && socket.None?
      ensures pendingReconnects == if old(destroyed) then old(pendingReconnects) else 0
      ensures closing == old(closing) + SlotSet(old(socket))
      ensures live == old(live) && socketsCreated == old(socketsCreated) && messages == old(messages)
      ensures !old(destroyed) ==> TornDown()
      ensures old(TornDown()) ==> TornDown()
    {
      if !destroyed {
        pendingReconnects := 0;
        destroyed := true;
      }
      if socket.Some? {
        closing := closing + {socket.value};
        socket := None;
      }
    }
  }

  /**
   * Teardown followed by the close event of the socket it closed: the handler
   * schedules a reconnect that nothing cancels, and when it fires a new socket
   * is socketsCreated on a service that has been disconnected.
   */
  method ReconnectAfterTeardown() returns (reopened: bool)
    ensures reopened
  {
    var ws := new WebSocketService();
    var _ := ws.Connect();
    ws.Disconnect();
    ws.OnClose(0);
    var _ := ws.ReconnectFires();
    reopened := ws.destroyed && ws.socket.Some?;
  }

  /** The same events with the guarded close handler: the service stays down. */
  method GuardedTeardownStaysDown() returns (reopened: bool)
    ensures !reopened
  {
    var ws := new WebSocketService();
    var _ := ws.Connect();
    ws.Disconnect();
    ws.OnCloseGuarded(0);
    reopened := ws.pendingReconnects > 0 || ws.socket.Some?;
  }
}
