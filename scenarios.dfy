/**
 * Whole sessions of a fresh `FirebotWebSocket` with no listeners, composed from the
 * handler contracts: each method drives one socket history and returns what the
 * client wrote to its sockets and what it emitted.
 */
module Scenarios {
  import opened Wrappers
  import JsonValues
  import opened Messages
  import opened Events
  import opened Transport
  import opened Websocket

  /** The acknowledgment the server sends for the handshake. */
  const Ack := Envelope("response", Some(NumberId(0)), "success", None)

  /**
   * Connect, open, acknowledge: the client dials its URL, invokes `subscribe-events`
   * with id 0, and on the acknowledgment emits "message" then "connected", pings at
   * once and arms both the ping interval and the pong timeout.
   */
  method HandshakeSession(host: string, port: int, secure: bool, raw: string)
    returns (calls: seq<LoggedCall>, events: seq<Emission<Payload>>, pinging: bool, awaitingPong: bool)
    ensures calls == [LoggedCall(0, Dial(WebSocketUrl(host, port, secure))),
                      LoggedCall(0, SendText(Handshake)),
                      LoggedCall(0, Ping)]
    ensures events == [Emission("message", RawText(raw), []), Emission("connected", NoData, [])]
    ensures pinging && awaitingPong
  {
    var client := new FirebotWebSocket(host, port, secure);
    client.Connect();
    var open := client.HandleOpen(0);
    assert client.emitter.emitted == [] && client.emitter.listeners == map[];
    var handled := client.HandleMessage(0, raw, Some(Ack));
    ghost var delivered := [("message", RawText(raw)), ("connected", NoData)];
    assert [("message", RawText(raw))] + Announcements(Classify(Ack)) == delivered;
    assert delivered[1..][1..] == [];
    assert client.Deliver(delivered[1..]) == [Emission("connected", NoData, [])];
    calls := client.transport.log;
    events := client.emitter.emitted;
    pinging := client.pingInterval.Some?;
    awaitingPong := client.pongTimeout.Some?;
  }

  /**
   * A second `connect()` after the first socket opened closes it with 4001 but leaves
   * it its handlers: when that socket's close event arrives after the new
   * socket has completed its own handshake, the client emits "disconnected" and stops
   * the keepalive while it owns an open, acknowledged socket.
   */
  method SupersededSocketClose(host: string, port: int, secure: bool)
    returns (owned: Option<SocketId>, ownedOpen: bool, lastEvent: Emission<Payload>, pinging: bool)
    ensures owned == Some(1) && ownedOpen
    ensures lastEvent == Emission("disconnected", CloseInfo(SupersededCode, None), [])
    ensures !pinging
  {
    var client := new FirebotWebSocket(host, port, secure);
    client.Connect();
    var r0 := client.HandleOpen(0);
    client.Connect();
    var r1 := client.HandleOpen(1);
    r1 := client.HandleMessage(1, "", Some(Ack));
    client.HandleClose(0, SupersededCode, None);
    owned := client.ws;
    ownedOpen := client.IsOpen();
    lastEvent := client.emitter.emitted[|client.emitter.emitted| - 1];
    pinging := client.pingInterval.Some?;
  }

  /**
   * `disconnect()` detaches the socket's handlers, so its later close event emits
   * nothing, and a second `disconnect()` touches no socket: the only trace is the
   * handshake and one close without a code.
   */
  method DisconnectThenClose(host: string, port: int, secure: bool, code: int)
    returns (calls: seq<LoggedCall>, events: seq<Emission<Payload>>)
    ensures calls == [LoggedCall(0, Dial(WebSocketUrl(host, port, secure))),
                      LoggedCall(0, SendText(Handshake)),
                      LoggedCall(0, Close(None, None))]
    ensures events == []
  {
    var client := new FirebotWebSocket(host, port, secure);
    client.Connect();
    var r := client.HandleOpen(0);
    client.Disconnect();
    client.Disconnect();
    client.HandleClose(0, code, None);
    calls := client.transport.log;
    events := client.emitter.emitted;
  }

  /** `send` before any `connect()` throws "WebSocket is not connected" and writes nothing. */
  method SendBeforeConnect(host: string, port: int, secure: bool, name: string)
    returns (r: Outcome, calls: seq<LoggedCall>)
    ensures r == Fail(NotConnectedMessage) && calls == []
  {
    var client := new FirebotWebSocket(host, port, secure);
    r := client.Send(name, None, None, "");
    calls := client.transport.log;
  }

  /**
   * `send` requires only an open socket, not a completed handshake: right after the
   * `open` event, before anything is emitted or the keepalive runs, a call without id
   * and data writes an invocation with the fresh id and an empty object.
   */
  method SendBeforeAck(host: string, port: int, secure: bool, name: string, freshId: string)
    returns (r: Outcome, last: LoggedCall, events: seq<Emission<Payload>>, pinging: bool)
    ensures r == Pass && events == [] && !pinging
    ensures last == LoggedCall(0, SendText(Envelope("invoke", Some(StringId(freshId)), name, Some(JsonValues.EmptyObject))))
  {
    var client := new FirebotWebSocket(host, port, secure);
    client.Connect();
    var open := client.HandleOpen(0);
    r := client.Send(name, None, None, freshId);
    last := client.transport.log[|client.transport.log| - 1];
    events := client.emitter.emitted;
    pinging := client.pingInterval.Some?;
  }
}
