/**
 * The server's WebSocket bookkeeping (backend/main.py): the table of live
 * connections by client id, guarded sends into it, and the per-connection
 * handler that echoes every inbound text frame until the client goes away.
 */
module Connections {
  import Endpoints

  /**
   * The server end of one WebSocket connection, an opaque handle. `outbox`
   * records the text frames sent on it, in order; the transport itself is not
   * part of this model.
   */
  class WebSocket {
    ghost var outbox: seq<string>

    constructor ()
      ensures outbox == []
    {
      outbox := [];
    }

    /** `send_text`: the frame is appended to what this socket has sent. */
    method SendText(message: string)
      modifies this
      ensures outbox == old(outbox) + [message]
    {
      outbox := outbox + [message];
    }
  }

  class ConnectionManager {
    var activeConnections: map<string, WebSocket>

    constructor ()
      ensures activeConnections == map[]
    {
      activeConnections := map[];
    }

    /**
     * `connect`: register `ws` as the connection of `clientId`, replacing any
     * earlier one under that id; the handshake itself is not modelled.
     */
    method Connect(ws: WebSocket, clientId: string)
      modifies this
      ensures activeConnections == old(activeConnections)[clientId := ws]
      // The next two follow from the first; they spell out the frame: other ids keep their sockets.
      ensures forall c :: c != clientId ==> (c in activeConnections <==> c in old(activeConnections))
      ensures forall c :: c != clientId && c in activeConnections ==> activeConnections[c] == old(activeConnections)[c]
    {
      activeConnections := activeConnections[clientId := ws];
    }

    /** `disconnect`: forget `clientId` if it is registered; otherwise do nothing. */
    method Disconnect(clientId: string)
      modifies this
      ensures activeConnections == old(activeConnections) - {clientId}
      ensures clientId !in activeConnections
      ensures clientId !in old(activeConnections) ==> activeConnections == old(activeConnections)
    {
      if clientId in activeConnections {
        activeConnections := activeConnections - {clientId};
      }
    }

    /**
     * `send_personal_message`: send `message` on the connection registered for
     * `clientId`, and on no other; an unknown id sends nothing.
     */
    method SendPersonalMessage(message: string, clientId: string)
      modifies if clientId in activeConnections then {activeConnections[clientId]} else {}
      ensures unchanged(this)
      ensures clientId in activeConnections ==>
        activeConnections[clientId].outbox == old(activeConnections[clientId].outbox) + [message]
    {
      if clientId in activeConnections {
        activeConnections[clientId].SendText(message);
      }
    }
  }

  /**
   * `websocket_endpoint` for one connection: register it, answer each text
   * frame of `inbound` (everything the client sends before disconnecting)
   * with its echo, then unregister the client id.
   */
  method WebSocketEndpoint(manager: ConnectionManager, ws: WebSocket, clientId: string, inbound: seq<string>)
    modifies manager, ws
    ensures ws.outbox == old(ws.outbox) + Endpoints.Echoes(inbound)
    ensures manager.activeConnections == old(manager.activeConnections) - {clientId}
    ensures clientId !in manager.activeConnections
  {
    manager.Connect(ws, clientId);
    var i := 0;
    while i < |inbound|
      invariant 0 <= i <= |inbound|
      invariant manager.activeConnections == old(manager.activeConnections)[clientId := ws]
      invariant ws.outbox == old(ws.outbox) + Endpoints.Echoes(inbound[..i])
    {
      assert inbound[..i + 1][..i] == inbound[..i];
      manager.SendPersonalMessage(Endpoints.Echo(inbound[i]), clientId);
      i := i + 1;
    }
    assert inbound[..i] == inbound;
    manager.Disconnect(clientId);
  }

  /**
   * Two handlers for the same client id, as when a client reconnects before
   * the server has seen its old connection close. The older handler echoes a
   * frame `d`, then its client disconnects; the newer handler then echoes a
   * frame `e`. Sends go by client id, so the older handler's echo lands on
   * the newer socket, and the older handler's disconnect unregisters the
   * newer connection, whose own echo is then dropped without an error.
   */
  method ReconnectUnderSameId(clientId: string, d: string, e: string)
    returns (manager: ConnectionManager, older: WebSocket, newer: WebSocket)
    ensures older != newer
    ensures older.outbox == []
    ensures newer.outbox == [Endpoints.Echo(d)]
    ensures clientId !in manager.activeConnections
  {
    manager := new ConnectionManager();
    older := new WebSocket();
    newer := new WebSocket();
    manager.Connect(older, clientId);
    manager.Connect(newer, clientId);
    manager.SendPersonalMessage(Endpoints.Echo(d), clientId);
    manager.Disconnect(clientId);
    manager.SendPersonalMessage(Endpoints.Echo(e), clientId);
  }
}
