/**
 * The envelope exchanged over the pub/sub bus: a body string and an HTTP-style
 * header map that carries the trace context between processes.
 */
module Messages {
  import opened Wrappers

  /** `http.Header`: each key may hold several values, kept in order. */
  type HeaderMap = map<string, seq<string>>

  /**
   * A message has exactly two fields. The header is `None` when it is Go's
   * nil map (as in a freshly declared `Message{}`) and `Some` otherwise.
   */
  datatype Message = Message(body: string, header: Option<HeaderMap>)

  /** The carrier a reader sees: reading a nil header behaves like reading an empty one. */
  function Carrier(m: Message): HeaderMap
  {
    match m.header
    case None => map[]
    case Some(h) => h
  }
}
