/**
 * The collaborators the broker uses as black boxes: Go error values, the
 * redis client handle, the JSON codec and the W3C Trace Context propagator.
 * None of them is modelled internally; each is a parameter, and what the
 * broker relies on is stated as a law that callers of the end-to-end lemmas
 * must supply.
 */
module Foreign {
  import opened Wrappers
  import opened Messages

  /** A Go `error`, known only by its text (what `err.Error()` returns). */
  datatype Error = Error(text: string)

  /** Raw bytes as they travel over the redis pub/sub channel. */
  type Bytes = seq<bv8>

  /** An opaque handle on a redis connection. */
  datatype Client = Client(handle: nat)

  /**
   * `json.Marshal` and `json.Unmarshal` for a Message: encoding may fail
   * with an error, decoding yields nothing for a malformed payload.
   */
  datatype Codec = Codec(encode: Message -> Result<Bytes, Error>, decode: Bytes -> Option<Message>)

  /**
   * The law assumed of the JSON codec: every message encodes, and decoding
   * the bytes gives back the same body, the same presence of the header and
   * every header key with all of its values in order.
   */
  ghost predicate RoundTrips(codec: Codec)
  {
    forall m: Message :: codec.encode(m).Success? && codec.decode(codec.encode(m).value) == Some(m)
  }

  /**
   * The Trace Context propagator: `inject` writes the span context `C` into a
   * header carrier (the `traceparent` header of section 3.2 of W3C Trace
   * Context), `extract` reads it back starting from a background context.
   * Injection sees only the carrier, never the message body.
   */
  datatype Propagator<!C> = Propagator(inject: (C, HeaderMap) -> HeaderMap, extract: HeaderMap -> C)

  /** The law assumed of the propagator: what was injected into an empty carrier is extracted again. */
  ghost predicate Faithful<C(!new)>(prop: Propagator<C>)
  {
    forall c: C :: prop.extract(prop.inject(c, map[])) == c
  }

  /** A round trip through a lawful codec keeps the body and every value of every header key. */
  lemma RoundTripKeepsHeaderValues(codec: Codec, m: Message, key: string)
    requires RoundTrips(codec)
    ensures codec.encode(m).Success?
    ensures var d := codec.decode(codec.encode(m).value);
      && d.Some?
      && d.value.body == m.body
      && d.value.header.Some? == m.header.Some?
      && (m.header.Some? && key in m.header.value ==>
            key in d.value.header.value && d.value.header.value[key] == m.header.value[key])
  {
  }
}
