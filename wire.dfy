/**
 * Frames exchanged with the RcWebApi sockets, as decoded values, and the
 * errors the two engines raise. JSON text encoding and decoding is not
 * modelled: every inbound frame arrives here already decoded.
 */
module Wire {

  datatype Option<+T> = None | Some(value: T)

  /** A Python call that either returns a value or raises. */
  datatype Result<+T> = Ok(value: T) | Err(error: Error)

  /** A decoded JSON value (numbers are integers here). */
  datatype Json =
    | JNull
    | JBool(b: bool)
    | JInt(i: int)
    | JStr(s: string)
    | JArray(items: seq<Json>)
    | JObject(fields: map<string, Json>)

  /**
   * A decoded frame from the command socket. Each field is the value of the
   * key of the same name, or None when the frame lacks that key. The
   * connection handshake frame uses the same shape (only `status` is read).
   */
  datatype Reply = Reply(
    response: Option<int>,
    status: Option<int>,
    result: Option<Json>,
    error: Option<string>)

  /** A decoded frame pushed on the subscribe socket. */
  datatype Push = Push(topic: Option<string>, payload: map<string, Json>)

  /** Outgoing frames, one per call of the socket's `send`. */
  datatype Request =
    | CommandRequest(request: nat, cmd: string, args: Option<map<string, Json>>)
      // `cycleTimeS` stands for `"args": {"cycle_time_s": ...}` when present
    | SubscribeRequest(request: nat, subscribe: string, cycleTimeS: Option<real>)
    | UnsubscribeRequest(request: nat, unsubscribe: string)

  /** The exceptions the core raises, with their message text where it is fixed. */
  datatype Error =
    | TimeoutError(msg: string)
    | HttpError(msg: string)
    | KebaError(msg: string)
    | SocketError(msg: string)
    | KeyError(key: string)
    | ValueError(msg: string)
    | TypeError
    | AssertionError
    | UnboundLocalError(name: string)

  const TimeoutMessage := "Ticket.Wait - Timeout reached"
  const HandshakeMessage := "Connection to Keba Socket could not be esablished."
  const NotInList := "list.remove(x): x not in list"
}
