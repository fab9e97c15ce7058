/**
 * A stand-in for the `ws` library as the client sees it: every socket ever
 * created, identified by its creation number, with its `readyState`, whether the
 * client's handlers are still registered on it, and the log of calls the client
 * made on sockets. States change only through the client's calls and through the
 * `MarkOpen`/`MarkClosed` transitions that precede the library's `open` and `close` events.
 */
module Transport {
  import opened Wrappers
  import opened Messages

  type SocketId = nat

  datatype ReadyState = Connecting | Open | Closing | Closed

  /** A call the client makes on a socket. */
  datatype SocketCall =
    | Dial(url: string)                             // new WebSocket(url)
    | SendText(frame: Envelope)                     // send(JSON.stringify(frame))
    | Ping                                          // ping()
    | Close(code: Option<int>, reason: Option<string>)  // close(code?, reason?)

  datatype LoggedCall = LoggedCall(socket: SocketId, call: SocketCall)

  /** The state `close()` leaves a socket in: a connecting or open socket starts closing, otherwise nothing changes. */
  function AfterClose(st: ReadyState): (r: ReadyState)
    ensures r == Closing || r == Closed
    ensures st == Closing || st == Closed ==> r == st
  {
    match st
    case Connecting => Closing
    case Open => Closing
    case _ => st
  }

  class Transport {
    var states: seq<ReadyState>
    var attached: set<SocketId>
    var log: seq<LoggedCall>

    constructor()
      ensures states == [] && attached == {} && log == []
    {
      states, attached, log := [], {}, [];
    }

    /** Creates a socket dialling `url` and registers the client's handlers on it. */
    method Create(url: string) returns (s: SocketId)
      modifies this
      ensures s == |old(states)| && states == old(states) + [Connecting]
      ensures attached == old(attached) + {s}
      ensures log == old(log) + [LoggedCall(s, Dial(url))]
    {
      s := |states|;
      states := states + [Connecting];
      attached := attached + {s};
      log := log + [LoggedCall(s, Dial(url))];
    }

    method CloseSocket(s: SocketId, code: Option<int>, reason: Option<string>)
      requires s < |states|
      modifies this
      ensures states == old(states)[s := AfterClose(old(states)[s])]
      ensures attached == old(attached)
      ensures log == old(log) + [LoggedCall(s, Close(code, reason))]
    {
      states := states[s := AfterClose(states[s])];
      log := log + [LoggedCall(s, Close(code, reason))];
    }

    method SendFrame(s: SocketId, frame: Envelope)
      requires s < |states| && states[s] == Open
      modifies this
      ensures states == old(states) && attached == old(attached)
      ensures log == old(log) + [LoggedCall(s, SendText(frame))]
    {
      log := log + [LoggedCall(s, SendText(frame))];
    }

    method SendPing(s: SocketId)
      requires s < |states| && states[s] == Open
      modifies this
      ensures states == old(states) && attached == old(attached)
      ensures log == old(log) + [LoggedCall(s, Ping)]
    {
      log := log + [LoggedCall(s, Ping)];
    }

    /** `removeAllListeners()`: no later event of `s` reaches the client. */
    method Detach(s: SocketId)
      modifies this
      ensures attached == old(attached) - {s}
      ensures states == old(states) && log == old(log)
    {
      attached := attached - {s};
    }

    /** The handshake of `s` completed; the library emits `open` next. */
    method MarkOpen(s: SocketId)
      requires s < |states| && states[s] == Connecting
      modifies this
      ensures states == old(states)[s := Open]
      ensures attached == old(attached) && log == old(log)
    {
      states := states[s := Open];
    }

    /** `s` is gone; the library emits `close` next. */
    method MarkClosed(s: SocketId)
      requires s < |states| && states[s] != ReadyState.Closed
      modifies this
      ensures states == old(states)[s := ReadyState.Closed]
      ensures attached == old(attached) && log == old(log)
    {
      states := states[s := ReadyState.Closed];
    }
  }
}
