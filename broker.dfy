/**
 * The broker of `pkg/broker.go`: Publish injects the trace context into a
 * fresh envelope, encodes it and publishes it on the single topic; Subscribe
 * confirms a raw subscription and runs a delivery loop that decodes raw
 * payloads and forwards them to an output channel until cancellation.
 *
 * The delivery goroutine and its two `select`s are modelled sequentially over
 * a trace of events: what arrives on the raw channel, and how each attempted
 * send ends.
 */
module Brokers {
  import opened Wrappers
  import opened Messages
  import opened Foreign

  /** The one topic every message is published and subscribed on. */
  const BrokerKey: string := "work"

  /** A broker wraps one client, shared with whoever created it (`NewBroker`). */
  datatype Broker = Broker(client: Client)

  // ---------------------------------------------------------------------
  // Publish

  /**
   * Injection of the span context into a message's header. It needs a
   * present header to write into, and it leaves the body alone.
   */
  function WithContext<C>(prop: Propagator<C>, span: C, m: Message): (r: Message)
    requires m.header.Some?
    ensures r.body == m.body
    ensures r.header == Some(prop.inject(span, m.header.value))
  {
    m.(header := Some(prop.inject(span, m.header.value)))
  }

  /**
   * The message Publish encodes for `body`: the body as given, and a header
   * holding exactly what injecting the span into an empty carrier writes.
   */
  function Outgoing<C>(prop: Propagator<C>, span: C, body: string): (m: Message)
    ensures m.body == body
    ensures m.header == Some(prop.inject(span, map[]))
  {
    // the envelope starts with the body and a present, empty header
    WithContext(prop, span, Message(body, Some(map[])))
  }

  /** One call to a client's publish primitive. */
  datatype PublishCall = PublishCall(client: Client, topic: string, payload: Bytes)

  /** What Publish returns, together with the calls it made on the client. */
  datatype PublishResult = PublishResult(err: Option<Error>, calls: seq<PublishCall>)

  /**
   * `b.Publish(ctx, body)`. `span` is the context of the span Publish
   * starts from `ctx`; `transport` is the outcome the client reports for the
   * publish call, if one is made.
   */
  function Publish<C>(b: Broker, codec: Codec, prop: Propagator<C>, span: C, body: string, transport: Option<Error>): (r: PublishResult)
    // the broker's client is called at most once, always on the topic
    // "work", with the encoding of the body under the injected headers
    ensures |r.calls| <= 1
    ensures forall call :: call in r.calls ==>
      call.client == b.client && call.topic == BrokerKey && codec.encode(Outgoing(prop, span, body)) == Success(call.payload)
    // an encoding error is returned at once and nothing is published
    ensures codec.encode(Outgoing(prop, span, body)).Failure? ==>
      r.calls == [] && r.err == Some(codec.encode(Outgoing(prop, span, body)).error)
    // once encoded, the message is handed to the client and its error is returned as it is
    ensures codec.encode(Outgoing(prop, span, body)).Success? ==> |r.calls| == 1 && r.err == transport
    // success means both steps succeeded
    ensures r.err.None? <==> codec.encode(Outgoing(prop, span, body)).Success? && transport.None?
  {
    var m := Outgoing(prop, span, body);
    match codec.encode(m)
    case Failure(e) => PublishResult(Some(e), [])
    case Success(bytes) =>
      var call := PublishCall(b.client, BrokerKey, bytes);
      match transport
      case Some(e) => PublishResult(Some(e), [call])
      case None => PublishResult(None, [call])
  }

  // ---------------------------------------------------------------------
  // Subscribe and the delivery loop

  /** How a blocked send on the output channel ends: the consumer takes it, or the context is cancelled first. */
  datatype SendOutcome = Received | CancelledDuringSend

  /**
   * What the delivery loop's outer `select` sees: a raw payload arriving,
   * together with how the send of its decoded message would end, or the
   * context being cancelled.
   */
  datatype Event = Arrive(raw: Bytes, send: SendOutcome) | Cancel

  /** What the subscriber does that others can observe, in order. */
  datatype Effect =
    | SubscribedTo(client: Client, topic: string)   // the raw subscription is opened
    | Delivered(m: Message)         // a message is taken from the output channel
    | RawClosed                     // the raw subscription is closed
    | OutputClosed                  // the output channel is closed

  /** The message an event contributes when the loop decodes it, if any. */
  function DecodedAt(codec: Codec, e: Event): seq<Message>
  {
    if e.Arrive? && codec.decode(e.raw).Some? then [codec.decode(e.raw).value] else []
  }

  /** The successfully decoded payloads of a trace, in arrival order. */
  function Decoded(codec: Codec, events: seq<Event>): seq<Message>
  {
    if events == [] then []
    else Decoded(codec, events[..|events| - 1]) + DecodedAt(codec, events[|events| - 1])
  }

  /** An event ends the loop: cancellation while waiting, or while sending a decoded message. */
  predicate Stops(codec: Codec, e: Event)
  {
    e.Cancel? || (e.send == CancelledDuringSend && codec.decode(e.raw).Some?)
  }

  /** The position of the first event that ends the loop, or the length of the trace if none does. */
  function StopIndex(codec: Codec, events: seq<Event>): (k: nat)
    ensures k <= |events|
    ensures forall i :: 0 <= i < k ==> !Stops(codec, events[i])
    ensures k < |events| ==> Stops(codec, events[k])
  {
    if events == [] then 0
    else if Stops(codec, events[0]) then 0
    else 1 + StopIndex(codec, events[1..])
  }

  /** One delivery per message, in order. */
  function Sends(ms: seq<Message>): (log: seq<Effect>)
    ensures |log| == |ms|
    ensures forall i :: 0 <= i < |ms| ==> log[i] == Delivered(ms[i])
  {
    seq(|ms|, i requires 0 <= i < |ms| => Delivered(ms[i]))
  }

  /**
   * What the delivery loop does over a trace: it delivers every message
   * decoded before the stopping event, and if the loop stops it then closes
   * the raw subscription and after it the output channel (the deferred calls
   * run last-in first-out).
   */
  function DeliveryLog(codec: Codec, events: seq<Event>): seq<Effect>
  {
    var k := StopIndex(codec, events);
    Sends(Decoded(codec, events[..k])) + (if k < |events| then [RawClosed, OutputClosed] else [])
  }

  /** The messages a log delivers, in order. */
  function Outputs(log: seq<Effect>): seq<Message>
  {
    if log == [] then []
    else Outputs(log[..|log| - 1]) + (if log[|log| - 1].Delivered? then [log[|log| - 1].m] else [])
  }

  /** The delivery goroutine of Subscribe, run over a trace of events. */
  method DeliveryLoop(codec: Codec, events: seq<Event>) returns (log: seq<Effect>)
    ensures log == DeliveryLog(codec, events)
  {
    log := [];
    var i := 0;
    while i < |events|
      invariant i <= StopIndex(codec, events)
      invariant log == Sends(Decoded(codec, events[..i]))
    {
      assert events[..i + 1][..i] == events[..i];
      match events[i]
      case Cancel =>
        break;
      case Arrive(raw, send) =>
        match codec.decode(raw)
        case None =>
          // a malformed payload is dropped and the loop goes on
          i := i + 1;
        case Some(m) =>
          if send == CancelledDuringSend {
            break;
          }
          log := log + [Delivered(m)];
          i := i + 1;
    }
    // deferred: p.Close(), then close(mCh)
    if i < |events| {
      log := log + [RawClosed, OutputClosed];
    } else {
      assert events[..i] == events[..StopIndex(codec, events)];
    }
  }

  /**
   * `b.Subscribe(ctx)`: open the raw subscription on "work" through the
   * broker's client, wait for
   * its confirmation (`confirm` is the error it reports, if any), and on
   * success run the delivery loop over `events`.
   */
  method Subscribe(b: Broker, codec: Codec, confirm: Option<Error>, events: seq<Event>) returns (err: Option<Error>, log: seq<Effect>)
    ensures err == confirm
    ensures confirm.Some? ==> log == [SubscribedTo(b.client, BrokerKey), RawClosed]
    ensures confirm.None? ==> log == [SubscribedTo(b.client, BrokerKey)] + DeliveryLog(codec, events)
  {
    log := [SubscribedTo(b.client, BrokerKey)];
    if confirm.Some? {
      log := log + [RawClosed];
      return confirm, log;
    }
    var loopLog := DeliveryLoop(codec, events);
    log := log + loopLog;
    err := None;
  }

  // ---------------------------------------------------------------------
  // Properties of the delivery loop

  /** Decoding a concatenated trace decodes each part in turn. */
  lemma {:induction false} DecodedAppend(codec: Codec, a: seq<Event>, b: seq<Event>)
    ensures Decoded(codec, a + b) == Decoded(codec, a) + Decoded(codec, b)
  {
    if b == [] {
      assert a + b == a;
    } else {
      var b' := b[..|b| - 1];
      assert (a + b)[..|a + b| - 1] == a + b';
      DecodedAppend(codec, a, b');
    }
  }

  /** The messages of a concatenated log are those of each part in turn. */
  lemma {:induction false} OutputsAppend(x: seq<Effect>, y: seq<Effect>)
    ensures Outputs(x + y) == Outputs(x) + Outputs(y)
  {
    if y == [] {
      assert x + y == x;
    } else {
      var y' := y[..|y| - 1];
      assert (x + y)[..|x + y| - 1] == x + y';
      OutputsAppend(x, y');
    }
  }

  /** Sends delivers exactly the messages it is given. */
  lemma {:induction false} OutputsSends(ms: seq<Message>)
    ensures Outputs(Sends(ms)) == ms
  {
    if ms != [] {
      var ms' := ms[..|ms| - 1];
      assert Sends(ms)[..|ms| - 1] == Sends(ms');
      OutputsSends(ms');
    }
  }

  /** Where the loop stops in a concatenated trace: in the first part, or else in the second. */
  lemma {:induction false} StopIndexAppend(codec: Codec, a: seq<Event>, b: seq<Event>)
    ensures StopIndex(codec, a + b) ==
      if StopIndex(codec, a) < |a| then StopIndex(codec, a) else |a| + StopIndex(codec, b)
  {
    if a == [] {
      assert a + b == b;
    } else {
      assert (a + b)[1..] == a[1..] + b;
      if !Stops(codec, a[0]) {
        StopIndexAppend(codec, a[1..], b);
      }
    }
  }

  /** Closing delivers nothing. */
  lemma OutputsOfCloses()
    ensures Outputs([RawClosed, OutputClosed]) == []
  {
  }

  /** The decoded payloads before a point are a prefix of all decoded payloads. */
  lemma DecodedPrefix(codec: Codec, events: seq<Event>, k: nat)
    requires k <= |events|
    ensures Decoded(codec, events[..k]) <= Decoded(codec, events)
  {
    assert events == events[..k] + events[k..];
    DecodedAppend(codec, events[..k], events[k..]);
  }

  /**
   * The output is, in order, the decoded payloads that arrived before the
   * loop stopped: a prefix of all decoded payloads, so no arrival is
   * delivered twice and none is skipped ahead of another.
   */
  lemma OutputIsDecodedPrefix(codec: Codec, events: seq<Event>)
    ensures var k := StopIndex(codec, events);
      Outputs(DeliveryLog(codec, events)) == Decoded(codec, events[..k])
    ensures Outputs(DeliveryLog(codec, events)) <= Decoded(codec, events)
  {
    var k := StopIndex(codec, events);
    var ms := Decoded(codec, events[..k]);
    var tail: seq<Effect> := if k < |events| then [RawClosed, OutputClosed] else [];
    OutputsAppend(Sends(ms), tail);
    OutputsSends(ms);
    OutputsOfCloses();
    assert Outputs(tail) == [];
    DecodedPrefix(codec, events, k);
  }

  /** A decodable arrival at position k is the decoded payload right after those before it. */
  lemma DecodedNext(codec: Codec, events: seq<Event>, k: nat)
    requires k < |events| && events[k].Arrive? && codec.decode(events[k].raw).Some?
    ensures var before := Decoded(codec, events[..k]);
      |before| < |Decoded(codec, events)| && Decoded(codec, events)[|before|] == codec.decode(events[k].raw).value
  {
    assert events[..k + 1][..k] == events[..k];
    DecodedPrefix(codec, events, k + 1);
  }

  /**
   * Cancellation, seen while waiting or while sending, ends the loop: the
   * log then ends by closing the raw subscription and after it the output
   * channel, and a message caught mid-send is the next decoded one and is
   * not delivered.
   */
  lemma CancellationEndsLoop(codec: Codec, events: seq<Event>, i: nat)
    requires i < |events| && Stops(codec, events[i])
    ensures StopIndex(codec, events) <= i
    ensures var log := DeliveryLog(codec, events);
      log == Sends(Outputs(log)) + [RawClosed, OutputClosed]
    ensures var k := StopIndex(codec, events);
      events[k].Arrive? ==>
        var out := Outputs(DeliveryLog(codec, events));
        |out| < |Decoded(codec, events)| && Decoded(codec, events)[|out|] == codec.decode(events[k].raw).value
  {
    var k := StopIndex(codec, events);
    OutputIsDecodedPrefix(codec, events);
    if events[k].Arrive? {
      DecodedNext(codec, events, k);
    }
  }

  /**
   * The raw subscription and the output channel are each closed exactly
   * once if the loop stops and never otherwise, the raw subscription first,
   * and nothing is delivered after a close.
   */
  lemma ClosesOnceInOrder(codec: Codec, events: seq<Event>)
    ensures var log := DeliveryLog(codec, events);
      var n := if StopIndex(codec, events) < |events| then 1 else 0;
      multiset(log)[RawClosed] == n && multiset(log)[OutputClosed] == n
    ensures var log := DeliveryLog(codec, events);
      forall i, j :: 0 <= i < |log| && 0 <= j < |log| && log[i] == RawClosed && log[j] == OutputClosed ==> i < j
    ensures var log := DeliveryLog(codec, events);
      forall i, j :: 0 <= i < |log| && 0 <= j < |log| && log[j].Delivered? && !log[i].Delivered? ==> j < i
  {
  }

  /** A payload that fails to decode contributes no message. */
  lemma DecodedSkipsMalformed(codec: Codec, a: seq<Event>, bad: Event, c: seq<Event>)
    requires bad.Arrive? && codec.decode(bad.raw).None?
    ensures Decoded(codec, a + [bad] + c) == Decoded(codec, a + c)
  {
    DecodedAppend(codec, a + [bad], c);
    DecodedAppend(codec, a, c);
    assert (a + [bad])[..|a|] == a;
  }

  /** A payload that fails to decode does not stop the loop: it only shifts the stopping point by one. */
  lemma StopIndexSkipsMalformed(codec: Codec, a: seq<Event>, bad: Event, b: seq<Event>)
    requires bad.Arrive? && codec.decode(bad.raw).None?
    ensures var k := StopIndex(codec, a + b);
      StopIndex(codec, a + [bad] + b) == if k < |a| then k else k + 1
  {
    assert a + [bad] + b == a + ([bad] + b);
    StopIndexAppend(codec, a, [bad] + b);
    StopIndexAppend(codec, a, b);
    StopIndexAppend(codec, [bad], b);
    assert StopIndex(codec, [bad]) == 1 by {
      assert [bad][1..] == [];
    }
  }

  /**
   * A payload that fails to decode changes nothing: wherever it arrives, the
   * loop delivers and closes exactly as if it had never arrived.
   */
  lemma MalformedIsDropped(codec: Codec, a: seq<Event>, raw: Bytes, send: SendOutcome, b: seq<Event>)
    requires codec.decode(raw).None?
    ensures DeliveryLog(codec, a + [Arrive(raw, send)] + b) == DeliveryLog(codec, a + b)
  {
    var bad := Arrive(raw, send);
    var with := a + [bad] + b;
    var without := a + b;
    StopIndexSkipsMalformed(codec, a, bad, b);
    var k := StopIndex(codec, without);
    if k < |a| {
      assert with[..k] == without[..k];
    } else {
      assert with[..k + 1] == a + [bad] + without[|a|..k];
      assert without[..k] == a + without[|a|..k];
      DecodedSkipsMalformed(codec, a, bad, without[|a|..k]);
    }
  }

  /** No cancellation in the trace: neither while waiting nor while sending. */
  predicate NeverCancelled(events: seq<Event>)
  {
    forall i :: 0 <= i < |events| ==> events[i].Arrive? && events[i].send == Received
  }

  /** Without cancellation every decoded payload is delivered and nothing is ever closed. */
  lemma UncancelledDeliversAll(codec: Codec, events: seq<Event>)
    requires NeverCancelled(events)
    ensures DeliveryLog(codec, events) == Sends(Decoded(codec, events))
    ensures Outputs(DeliveryLog(codec, events)) == Decoded(codec, events)
    ensures RawClosed !in DeliveryLog(codec, events) && OutputClosed !in DeliveryLog(codec, events)
  {
    assert events[..|events|] == events;
    OutputsSends(Decoded(codec, events));
  }
}
