/**
 * End-to-end properties across the two processes: what the server's
 * Publish hands to redis, once it arrives at the worker's subscription,
 * is delivered with the same body, and the worker's `work` span continues
 * the publishing span. These rest on the two stated laws of the foreign
 * collaborators: the codec round-trips and the propagator is faithful.
 */
module Pipeline {
  import opened Wrappers
  import opened Messages
  import opened Foreign
  import opened Brokers
  import opened Worker
  import Server

  /** The payload a publish hands to the client when encoding and transport both succeed. */
  function PublishedPayload<C>(b: Broker, codec: Codec, prop: Propagator<C>, span: C, body: string): (p: Bytes)
    requires RoundTrips(codec)
    ensures Publish(b, codec, prop, span, body, None) == PublishResult(None, [PublishCall(b.client, BrokerKey, p)])
    ensures codec.decode(p) == Some(Outgoing(prop, span, body))
  {
    codec.encode(Outgoing(prop, span, body)).value
  }

  /** The payloads of a series of publishes, one per body, each under its own span. */
  function Payloads<C>(b: Broker, codec: Codec, prop: Propagator<C>, spans: seq<C>, bodies: seq<string>): (ps: seq<Bytes>)
    requires RoundTrips(codec) && |spans| == |bodies|
    ensures |ps| == |bodies|
    ensures forall i :: 0 <= i < |bodies| ==> ps[i] == PublishedPayload(b, codec, prop, spans[i], bodies[i])
  {
    seq(|bodies|, i requires 0 <= i < |bodies| => PublishedPayload(b, codec, prop, spans[i], bodies[i]))
  }

  /** When every arrival decodes, a never-cancelled loop delivers them all, in arrival order. */
  lemma {:induction false} DecodedBackground(codec: Codec, ps: seq<Bytes>)
    requires forall i :: 0 <= i < |ps| ==> codec.decode(ps[i]).Some?
    ensures var ms := Decoded(codec, BackgroundEvents(ps));
      |ms| == |ps| && forall i :: 0 <= i < |ps| ==> ms[i] == codec.decode(ps[i]).value
  {
    if ps != [] {
      var ps' := ps[..|ps| - 1];
      var es := BackgroundEvents(ps);
      assert es[..|es| - 1] == BackgroundEvents(ps');
      DecodedBackground(codec, ps');
    }
  }

  /**
   * Publishing a series of bodies under distinct spans and delivering the
   * payloads to the worker loses nothing: the i-th delivered message has the
   * i-th body, and `work` continues the i-th span.
   */
  lemma PublishedReachWorker<C(!new)>(b: Broker, codec: Codec, prop: Propagator<C>, spans: seq<C>, bodies: seq<string>)
    requires RoundTrips(codec) && Faithful(prop) && |spans| == |bodies|
    ensures var ms := Decoded(codec, BackgroundEvents(Payloads(b, codec, prop, spans, bodies)));
      && |ms| == |bodies|
      && forall i :: 0 <= i < |bodies| ==> ms[i].body == bodies[i] && Work(prop, ms[i]) == spans[i]
  {
    var ps := Payloads(b, codec, prop, spans, bodies);
    DecodedBackground(codec, ps);
    forall i | 0 <= i < |bodies|
      ensures Work(prop, Outgoing(prop, spans[i], bodies[i])) == spans[i]
    {
      assert Carrier(Outgoing(prop, spans[i], bodies[i])) == prop.inject(spans[i], map[]);
    }
  }

  /**
   * The request scenario: the server's broker publishes the greeting under
   * the span Publish starts (a child of the request's span); the worker
   * receives one message whose body is the greeting and whose `work` span
   * continues that publish span.
   */
  lemma GreetingScenario<C(!new)>(b: Broker, codec: Codec, prop: Propagator<C>, span: C)
    requires RoundTrips(codec) && Faithful(prop)
    ensures var ms := Decoded(codec, BackgroundEvents([PublishedPayload(b, codec, prop, span, Server.Greeting)]));
      |ms| == 1 && ms[0].body == Server.Greeting && Work(prop, ms[0]) == span
  {
  }
}
