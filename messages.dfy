/**
 * The JSON envelope of the realtime protocol (`WebsocketMessage` and its three
 * variants) and the way an inbound envelope is classified by the client's
 * message handler.
 */
module Messages {
  import opened Wrappers
  import opened JsonValues

  /** An envelope `id`: a JSON number or a string. */
  datatype MessageId = NumberId(n: int) | StringId(s: string)

  /**
   * `{ type, id?, name, data? }`. `kind` is the `type` member as decoded; a frame whose
   * `type` is missing or not a string behaves like any kind other than `event` and
   * `response`, so it is represented by such a kind.
   */
  datatype Envelope = Envelope(kind: string, id: Option<MessageId>, name: string, data: Option<Json>)

  /** The command the handshake invokes. */
  const HandshakeName := "subscribe-events"
  /** The id reserved for the handshake invocation and its acknowledgment. */
  const HandshakeId := NumberId(0)

  /** An outbound invocation: the only kind of frame the client writes. */
  function Invoke(name: string, id: MessageId, data: Json): (e: Envelope)
    ensures e.kind == "invoke" && e.name == name && e.id == Some(id) && e.data == Some(data)
  {
    Envelope("invoke", Some(id), name, Some(data))
  }

  /** `{type: "invoke", name: "subscribe-events", id: 0, data: {}}`. */
  const Handshake: Envelope := Invoke(HandshakeName, HandshakeId, EmptyObject)

  /** The acknowledgment of the handshake: a response with the number 0 as id and `success` as name. */
  predicate IsHandshakeAck(e: Envelope) {
    e.kind == "response" && e.id == Some(NumberId(0)) && e.name == "success"
  }

  /** What the message handler does with a decoded frame, after emitting the raw text. */
  datatype Dispatch =
    | Forward(event: string, data: Option<Json>)                   // emit under the frame's own name
    | Connect                                                      // emit "connected" and start the keepalive
    | Respond(id: Option<MessageId>, name: string, data: Option<Json>)  // emit "response"
    | Drop                                                         // emit nothing further

  /** Classification of an inbound frame (event first, then response, anything else dropped). */
  function Classify(e: Envelope): (d: Dispatch)
    ensures d.Connect? <==> IsHandshakeAck(e)
    ensures d.Forward? <==> e.kind == "event"
    ensures d.Respond? <==> e.kind == "response" && !IsHandshakeAck(e)
    ensures d.Drop? <==> e.kind != "event" && e.kind != "response"
    ensures d.Forward? ==> d.event == e.name && d.data == e.data
    ensures d.Respond? ==> d.id == e.id && d.name == e.name && d.data == e.data
  {
    if e.kind == "event" then Forward(e.name, e.data)
    else if e.kind == "response" then
      if e.id == Some(NumberId(0)) && e.name == "success" then Connect
      else Respond(e.id, e.name, e.data)
    else Drop
  }

  /**
   * Only the reserved acknowledgment connects: a failed handshake (`id` 0, `error`), a success
   * with any other id (the string "0" included) and every other frame are classified otherwise.
   */
  lemma OnlyHandshakeAckConnects(e: Envelope)
    requires e.kind == "response"
    requires e.id != Some(NumberId(0)) || e.name != "success"
    ensures Classify(e) == Respond(e.id, e.name, e.data)
  {
  }

  /** An invocation echoed back by the server is ignored; in particular the handshake is never its own acknowledgment. */
  lemma InvokeIsDropped(name: string, id: MessageId, data: Json)
    ensures Classify(Invoke(name, id, data)) == Drop
    ensures !IsHandshakeAck(Handshake)
  {
  }
}
