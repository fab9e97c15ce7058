/**
 * The realtime protocol client `FirebotWebSocket`: it owns at most one socket,
 * performs the `subscribe-events` handshake, classifies inbound frames and
 * re-emits them, and runs a ping/pong keepalive. Every callback runs to
 * completion on one event loop, so each is a method here; the socket library,
 * the timer runtime and the listener registry are the objects `transport`,
 * `timers` and `emitter`.
 */
module Websocket {
  import opened Wrappers
  import opened JsonValues
  import opened Messages
  import opened Events
  import opened Transport
  import opened Timers
  import Endpoints

  const PingIntervalMs: nat := 15_000
  const PongTimeoutMs: nat := 15_000
  /** Close code used when `connect` replaces a socket. */
  const SupersededCode: int := 4001
  /** Close code and reason used when no pong arrived in time. */
  const PongTimeoutCode: int := 4002
  const PongTimeoutReason := "Pong timeout"
  const NotConnectedMessage := "WebSocket is not connected"
  const PongTimeoutMessage := "WebSocket pong timeout"
  /** Stands for the `SyntaxError` that `JSON.parse` throws on a malformed frame. */
  const MalformedFrameMessage := "malformed JSON frame"

  /** The payloads of the client's events (`WebsocketEvents`). */
  datatype Payload =
    | RawText(text: string)                                             // "message"
    | EventData(data: Option<Json>)                                     // a server-pushed event
    | ResponseData(id: Option<MessageId>, name: string, data: Option<Json>)  // "response"
    | NoData                                                            // "connected"
    | CloseInfo(code: int, reason: Option<string>)                      // "disconnected"
    | ErrorValue(message: string)                                       // "error"

  /** `${secure ? "wss" : "ws"}://${host}:${port}`. */
  function WebSocketUrl(host: string, port: int, secure: bool): string {
    Endpoints.Endpoint(if secure then "wss" else "ws", host, port)
  }

  /** The events the message handler emits for a classified frame after "message". */
  function Announcements(d: Dispatch): (a: seq<(string, Payload)>)
    ensures |a| <= 1
  {
    match d
    case Forward(event, data) => [(event, EventData(data))]
    case Connect => [("connected", NoData)]
    case Respond(id, name, data) => [("response", ResponseData(id, name, data))]
    case Drop => []
  }

  /** The timers a handle field keeps armed: none, or that one with its delay. */
  function Armed(t: Option<TimerId>, ms: nat): map<TimerId, nat> {
    if t.Some? then map[t.value := ms] else map[]
  }

  function Handles(t: Option<TimerId>): set<TimerId> {
    if t.Some? then {t.value} else {}
  }

  /** Every frame in the socket call log is an invocation: the client writes no other kind. */
  predicate OnlyInvocations(log: seq<LoggedCall>) {
    forall i | 0 <= i < |log| && log[i].call.SendText? :: log[i].call.frame.kind == "invoke"
  }

  class FirebotWebSocket {
    const url: string
    const emitter: EventEmitter<Payload>
    const transport: Transport
    const timers: Timers
    /** `_ws`: the owned socket, if any. */
    var ws: Option<SocketId>
    /** `_pingInterval` and `_pongTimeout`: the keepalive's timer handles. */
    var pingInterval: Option<TimerId>
    var pongTimeout: Option<TimerId>

    /**
     * Socket ownership: the owned socket exists and still has the client's handlers;
     * every other socket is closing or closed, so at most one socket is live.
     */
    ghost predicate SocketsValid()
      reads this, transport
    {
      (ws.Some? ==> ws.value < |transport.states| && ws.value in transport.attached)
      && (forall s | 0 <= s < |transport.states| && Some(s) != ws ::
            transport.states[s] == Closing || transport.states[s] == ReadyState.Closed)
      && (forall s | s in transport.attached :: s < |transport.states|)
    }

    /**
     * The client's invariant: sockets as above, and every armed timer is the one the
     * client holds (none leaks; at most one interval and one pong timeout, with the
     * configured delays); a pong timeout is pending only while a socket is owned;
     * every frame written so far is an invocation.
     */
    ghost predicate Valid()
      reads this, transport, timers
    {
      SocketsValid()
      && timers.intervals == Armed(pingInterval, PingIntervalMs)
      && timers.timeouts == Armed(pongTimeout, PongTimeoutMs)
      && (pongTimeout.Some? ==> ws.Some?)
      && OnlyInvocations(transport.log)
    }

    /** `this._ws && this._ws.readyState === WebSocket.OPEN`. */
    predicate IsOpen()
      reads this, transport
    {
      ws.Some? && ws.value < |transport.states| && transport.states[ws.value] == Open
    }

    /** The log entries emitting `es` in order appends, given the current listeners. */
    function Deliver(es: seq<(string, Payload)>): seq<Emission<Payload>>
      reads emitter
    {
      if es == [] then []
      else [Emission(es[0].0, es[0].1, emitter.ListenersOf(es[0].0))] + Deliver(es[1..])
    }

    constructor(host: string, port: int, secure: bool)
      ensures url == WebSocketUrl(host, port, secure)
      ensures ws == None && pingInterval == None && pongTimeout == None
      ensures fresh(emitter) && fresh(transport) && fresh(timers)
      ensures emitter.listeners == map[] && emitter.emitted == []
      ensures transport.states == [] && transport.log == []
      ensures Valid()
    {
      url := WebSocketUrl(host, port, secure);
      emitter := new EventEmitter<Payload>();
      transport := new Transport();
      timers := new Timers();
      ws, pingInterval, pongTimeout := None, None, None;
    }

    /** `on(event, listener)`. */
    method On(event: string, l: ListenerId)
      modifies emitter
      ensures emitter.ListenersOf(event) == old(emitter.ListenersOf(event)) + [l]
      ensures forall e :: e != event ==> emitter.ListenersOf(e) == old(emitter.ListenersOf(e))
      ensures emitter.emitted == old(emitter.emitted)
    {
      emitter.On(event, l);
    }

    /** `off(event, listener)`. */
    method Off(event: string, l: ListenerId)
      modifies emitter
      ensures emitter.ListenersOf(event) == RemoveLast(old(emitter.ListenersOf(event)), l)
      ensures forall e :: e != event ==> emitter.ListenersOf(e) == old(emitter.ListenersOf(e))
      ensures emitter.emitted == old(emitter.emitted)
    {
      emitter.Off(event, l);
    }

    /**
     * `connect()`: closes the owned socket with 4001, then dials a new one and takes
     * ownership. The keepalive is left as it was, and the old socket keeps its handlers.
     */
    method Connect()
      requires Valid()
      modifies this`ws, transport
      ensures Valid()
      ensures ws == Some(|old(transport.states)|)
      ensures transport.states ==
        (if old(ws).Some?
         then old(transport.states)[old(ws).value := AfterClose(old(transport.states)[old(ws).value])]
         else old(transport.states)) + [Connecting]
      ensures transport.log ==
        old(transport.log)
        + (if old(ws).Some? then [LoggedCall(old(ws).value, Close(Some(SupersededCode), None))] else [])
        + [LoggedCall(ws.value, Dial(url))]
      ensures transport.attached == old(transport.attached) + {ws.value}
      ensures pingInterval == old(pingInterval) && pongTimeout == old(pongTimeout)
    {
      if ws.Some? {
        transport.CloseSocket(ws.value, Some(SupersededCode), None);
      }
      var s := transport.Create(url);
      ws := Some(s);
    }

    /**
     * `disconnect()`: closes the owned socket (no code), detaches its handlers so its
     * close event never reaches the client, drops it, and stops the keepalive.
     */
    method Disconnect()
      requires Valid()
      modifies this`ws, this`pingInterval, this`pongTimeout, transport, timers
      ensures Valid()
      ensures ws == None && pingInterval == None && pongTimeout == None
      ensures timers.intervals == map[] && timers.timeouts == map[]
      ensures old(ws).Some? ==>
        && transport.states == old(transport.states)[old(ws).value := AfterClose(old(transport.states)[old(ws).value])]
        && transport.log == old(transport.log) + [LoggedCall(old(ws).value, Close(None, None))]
        && transport.attached == old(transport.attached) - {old(ws).value}
      ensures old(ws).None? ==> unchanged(transport)
    {
      if ws.Some? {
        transport.CloseSocket(ws.value, None, None);
        transport.Detach(ws.value);
        ws := None;
      }
      StopKeepAlive();
    }

    /**
     * `send(name, data?, id?)`: throws unless the owned socket is open; otherwise writes
     * one invoke frame. `freshId` is what `crypto.randomUUID()` returns when no id is given.
     */
    method Send(name: string, data: Option<Json>, id: Option<MessageId>, freshId: string) returns (r: Outcome)
      requires Valid()
      modifies transport
      ensures Valid()
      ensures r.Fail? <==> !old(IsOpen())
      ensures r.Fail? ==> r.error == NotConnectedMessage && unchanged(transport)
      ensures r.Pass? ==>
        transport.log == old(transport.log)
          + [LoggedCall(ws.value, SendText(Invoke(name, id.GetOr(StringId(freshId)), data.GetOr(EmptyObject))))]
      ensures transport.states == old(transport.states) && transport.attached == old(transport.attached)
    {
      if !IsOpen() {
        return Fail(NotConnectedMessage);
      }
      var frame := Invoke(name, id.GetOr(StringId(freshId)), data.GetOr(EmptyObject));
      transport.SendFrame(ws.value, frame);
      r := Pass;
    }

    /** `stopKeepAlive()`: clears whichever timers are armed; harmless when none is. */
    method StopKeepAlive()
      modifies this`pingInterval, this`pongTimeout, timers
      ensures pingInterval == None && pongTimeout == None
      ensures timers.intervals == old(timers.intervals) - Handles(old(pingInterval))
      ensures timers.timeouts == old(timers.timeouts) - Handles(old(pongTimeout))
    {
      if pingInterval.Some? {
        timers.ClearInterval(pingInterval.value);
        pingInterval := None;
      }
      if pongTimeout.Some? {
        timers.ClearTimeout(pongTimeout.value);
        pongTimeout := None;
      }
    }

    /**
     * `sendPing()`: nothing unless the owned socket is open; otherwise replaces the
     * pending pong timeout by a fresh one and pings.
     */
    method SendPing()
      requires Valid()
      modifies this`pongTimeout, timers, transport
      ensures Valid()
      ensures !old(IsOpen()) ==> pongTimeout == old(pongTimeout) && unchanged(timers) && unchanged(transport)
      ensures old(IsOpen()) ==>
        && pongTimeout.Some?
        && timers.timeouts == (old(timers.timeouts) - Handles(old(pongTimeout)))[pongTimeout.value := PongTimeoutMs]
        && transport.log == old(transport.log) + [LoggedCall(ws.value, Ping)]
      ensures timers.intervals == old(timers.intervals)
      ensures transport.states == old(transport.states) && transport.attached == old(transport.attached)
    {
      if !IsOpen() {
        return;
      }
      if pongTimeout.Some? {
        timers.ClearTimeout(pongTimeout.value);
      }
      var t := timers.SetTimeout(PongTimeoutMs);
      pongTimeout := Some(t);
      transport.SendPing(ws.value);
    }

    /** `startKeepAlive()`: stops, pings at once, and arms the ping interval. */
    method StartKeepAlive()
      requires Valid()
      modifies this`pingInterval, this`pongTimeout, timers, transport
      ensures Valid()
      ensures pingInterval.Some?
      ensures pongTimeout.Some? <==> old(IsOpen())
      ensures transport.log == old(transport.log) + (if old(IsOpen()) then [LoggedCall(ws.value, Ping)] else [])
      ensures transport.states == old(transport.states) && transport.attached == old(transport.attached)
    {
      StopKeepAlive();
      SendPing();
      var t := timers.SetInterval(PingIntervalMs);
      pingInterval := Some(t);
    }

    /**
     * The `open` event of socket `s` (which the library first marks OPEN): the handler
     * sends the handshake invocation with the reserved id 0.
     */
    method HandleOpen(s: SocketId) returns (r: Outcome)
      requires Valid() && s < |transport.states| && transport.states[s] == Connecting
      modifies transport
      ensures Valid() && r == Pass
      ensures ws == Some(s)
      ensures transport.states == old(transport.states)[s := Open]
      ensures transport.attached == old(transport.attached)
      ensures transport.log == old(transport.log) + [LoggedCall(s, SendText(Handshake))]
    {
      transport.MarkOpen(s);
      r := Pass;
      if s in transport.attached {
        r := Send(HandshakeName, Some(EmptyObject), Some(HandshakeId), "");
      }
    }

    /**
     * A `message` event of socket `s` carrying `raw`, which `JSON.parse` decodes to
     * `parsed` (None when it throws). While `s` has the client's handlers: emits
     * "message" with the raw text, then the frame's announcement; a handshake
     * acknowledgment also starts the keepalive; a malformed frame throws.
     */
    method HandleMessage(s: SocketId, raw: string, parsed: Option<Envelope>) returns (r: Outcome)
      requires Valid() && s < |transport.states|
      requires transport.states[s] == Open || transport.states[s] == Closing
      modifies this`pingInterval, this`pongTimeout, emitter, timers, transport
      ensures Valid()
      ensures emitter.listeners == old(emitter.listeners)
      ensures r.Fail? <==> s in old(transport.attached) && parsed.None?
      ensures r.Fail? ==> r.error == MalformedFrameMessage
      ensures s !in old(transport.attached) ==> emitter.emitted == old(emitter.emitted)
      ensures s in old(transport.attached) ==>
        emitter.emitted == old(emitter.emitted)
          + Deliver([("message", RawText(raw))] + (if parsed.Some? then Announcements(Classify(parsed.value)) else []))
      ensures !(s in old(transport.attached) && parsed.Some? && IsHandshakeAck(parsed.value)) ==>
        && pingInterval == old(pingInterval) && pongTimeout == old(pongTimeout)
        && unchanged(timers) && unchanged(transport)
      ensures s in old(transport.attached) && parsed.Some? && IsHandshakeAck(parsed.value) ==>
        && pingInterval.Some?
        && (pongTimeout.Some? <==> old(IsOpen()))
        && transport.log == old(transport.log) + (if old(IsOpen()) then [LoggedCall(ws.value, Ping)] else [])
        && transport.states == old(transport.states) && transport.attached == old(transport.attached)
    {
      if s !in transport.attached {
        return Pass;
      }
      emitter.Emit("message", RawText(raw));
      if parsed.None? {
        assert [("message", RawText(raw))] + [] == [("message", RawText(raw))];
        assert [("message", RawText(raw))][1..] == [];
        return Fail(MalformedFrameMessage);
      }
      var d := Classify(parsed.value);
      match d {
        case Forward(event, data) =>
          emitter.Emit(event, EventData(data));
        case Connect =>
          emitter.Emit("connected", NoData);
          StartKeepAlive();
        case Respond(id, name, data) =>
          emitter.Emit("response", ResponseData(id, name, data));
        case Drop =>
      }
      ghost var announced := Announcements(d);
      ghost var all := [("message", RawText(raw))] + announced;
      assert all[1..] == announced;
      assert Deliver(all) == [Emission("message", RawText(raw), emitter.ListenersOf("message"))] + Deliver(announced);
      if announced != [] {
        assert announced[1..] == [];
        assert Deliver(announced) == [Emission(announced[0].0, announced[0].1, emitter.ListenersOf(announced[0].0))];
      }
      assert emitter.emitted == old(emitter.emitted) + Deliver(all);
      r := Pass;
    }

    /** A `pong` event of socket `s`: the pending pong timeout, if any, is cleared. */
    method HandlePong(s: SocketId)
      requires Valid() && s < |transport.states|
      requires transport.states[s] == Open || transport.states[s] == Closing
      modifies this`pongTimeout, timers
      ensures Valid()
      ensures s in transport.attached ==> pongTimeout == None && timers.timeouts == map[]
      ensures s !in transport.attached ==> pongTimeout == old(pongTimeout) && unchanged(timers)
      ensures timers.intervals == old(timers.intervals)
    {
      if s !in transport.attached {
        return;
      }
      if pongTimeout.Some? {
        timers.ClearTimeout(pongTimeout.value);
        pongTimeout := None;
      }
    }

    /**
     * The `close` event of socket `s` (which the library first marks CLOSED): the
     * handler stops the keepalive and emits "disconnected" with the code and reason,
     * whichever socket `s` is; the owned socket is not dropped.
     */
    method HandleClose(s: SocketId, code: int, reason: Option<string>)
      requires Valid() && s < |transport.states| && transport.states[s] != ReadyState.Closed
      modifies this`pingInterval, this`pongTimeout, emitter, timers, transport
      ensures Valid()
      ensures ws == old(ws)
      ensures transport.states == old(transport.states)[s := ReadyState.Closed]
      ensures transport.log == old(transport.log) && transport.attached == old(transport.attached)
      ensures emitter.listeners == old(emitter.listeners)
      ensures s in transport.attached ==>
        && pingInterval == None && pongTimeout == None
        && timers.intervals == map[] && timers.timeouts == map[]
        && emitter.emitted == old(emitter.emitted) + Deliver([("disconnected", CloseInfo(code, reason))])
      ensures s !in transport.attached ==>
        && pingInterval == old(pingInterval) && pongTimeout == old(pongTimeout)
        && unchanged(timers) && emitter.emitted == old(emitter.emitted)
    {
      transport.MarkClosed(s);
      if s !in transport.attached {
        return;
      }
      StopKeepAlive();
      emitter.Emit("disconnected", CloseInfo(code, reason));
    }

    /** An `error` event of socket `s`: re-emitted as "error"; nothing is closed. */
    method HandleError(s: SocketId, message: string)
      requires s < |transport.states|
      modifies emitter
      ensures emitter.listeners == old(emitter.listeners)
      ensures s in transport.attached ==>
        emitter.emitted == old(emitter.emitted) + Deliver([("error", ErrorValue(message))])
      ensures s !in transport.attached ==> emitter.emitted == old(emitter.emitted)
    {
      if s in transport.attached {
        emitter.Emit("error", ErrorValue(message));
      }
    }

    /** The ping interval fires: `sendPing()`. */
    method PingIntervalFired()
      requires Valid() && pingInterval.Some?
      modifies this`pongTimeout, timers, transport
      ensures Valid()
      ensures pingInterval == old(pingInterval)
      ensures !old(IsOpen()) ==> pongTimeout == old(pongTimeout) && unchanged(timers) && unchanged(transport)
      ensures old(IsOpen()) ==>
        && pongTimeout.Some?
        && transport.log == old(transport.log) + [LoggedCall(ws.value, Ping)]
        && transport.states == old(transport.states) && transport.attached == old(transport.attached)
    {
      SendPing();
    }

    /**
     * The pending pong timeout fires (`handlePongTimeout()`): emits the timeout error,
     * closes the owned socket with 4002 "Pong timeout", and stops the keepalive.
     */
    method PongTimeoutFired()
      requires Valid() && pongTimeout.Some?
      modifies this`pingInterval, this`pongTimeout, emitter, timers, transport
      ensures Valid()
      ensures pingInterval == None && pongTimeout == None
      ensures timers.intervals == map[] && timers.timeouts == map[]
      ensures emitter.listeners == old(emitter.listeners)
      ensures emitter.emitted == old(emitter.emitted) + Deliver([("error", ErrorValue(PongTimeoutMessage))])
      ensures ws == old(ws) && ws.Some?
      ensures transport.states == old(transport.states)[ws.value := AfterClose(old(transport.states)[ws.value])]
      ensures transport.log == old(transport.log) + [LoggedCall(ws.value, Close(Some(PongTimeoutCode), Some(PongTimeoutReason)))]
      ensures transport.attached == old(transport.attached)
    {
      timers.FireTimeout(pongTimeout.value);
      emitter.Emit("error", ErrorValue(PongTimeoutMessage));
      if ws.Some? {
        transport.CloseSocket(ws.value, Some(PongTimeoutCode), Some(PongTimeoutReason));
      }
      StopKeepAlive();
    }
  }
}
