/**
 * The worker process of `cmd/worker/worker.go`: it connects to redis with the
 * polling loop, subscribes once with a context that is never cancelled, and
 * hands every message it receives to one `work` call, which only reads the
 * message's header to find the span to continue.
 */
module Worker {
  import opened Wrappers
  import opened Messages
  import opened Foreign
  import opened Brokers
  import opened Bootstrap

  /** The broker the worker subscribed through and what that subscription did. */
  datatype Subscription = Subscription(broker: Broker, log: seq<Effect>)

  /**
   * The delivery loop's trace under `context.Background()`: the context is
   * never done, so every arrival is an `Arrive` whose send is received.
   */
  function BackgroundEvents(arrivals: seq<Bytes>): (events: seq<Event>)
    ensures |events| == |arrivals| && NeverCancelled(events)
    ensures forall i :: 0 <= i < |arrivals| ==> events[i].raw == arrivals[i]
  {
    seq(|arrivals|, i requires 0 <= i < |arrivals| => Arrive(arrivals[i], Received))
  }

  /**
   * `mustSubscribe(url)`: connect as the server does, then call Subscribe
   * once on a broker over that same client, panicking if it fails. With a
   * background context the output channel is never closed, and everything
   * that decodes is delivered, in order.
   */
  method MustSubscribe(codec: Codec, parsed: Result<Client, Error>, polls: seq<PollEvent>, confirm: Option<Error>, arrivals: seq<Bytes>)
    returns (o: Startup<Subscription>)
    ensures match ConnectOutcome(parsed, polls)
      case Started(c, n) =>
        if confirm.Some? then o == Panicked(PanicErr(confirm.value), n)
        else o == Started(Subscription(Broker(c), [SubscribedTo(c, BrokerKey)] + Sends(Decoded(codec, BackgroundEvents(arrivals)))), n)
      case Panicked(p, n) => o == Panicked(p, n)
      case StillConnecting(n) => o == StillConnecting(n)
    ensures o.Started? ==> RawClosed !in o.value.log && OutputClosed !in o.value.log
  {
    if parsed.Failure? {
      return Panicked(PanicErr(parsed.error), 0);
    }
    var c := parsed.value;
    var r := PollUntilReady(polls);
    match r
    case TimedOut(n) =>
      return Panicked(PanicMsg(TimeoutMessage), n);
    case Polling(n) =>
      return StillConnecting(n);
    case Ready(n) =>
      var b := Broker(c);  // NewBroker(c)
      var events := BackgroundEvents(arrivals);
      var err, log := Subscribe(b, codec, confirm, events);
      if err.Some? {
        return Panicked(PanicErr(err.value), n);
      }
      UncancelledDeliversAll(codec, events);
      o := Started(Subscription(b, log), n);
  }

  /**
   * `work(m)`: the context its span continues, extracted from the header
   * alone; a nil header reads as an empty carrier.
   */
  function Work<C>(prop: Propagator<C>, m: Message): (parent: C)
    ensures m.header.None? ==> parent == prop.extract(map[])
    ensures m.header.Some? ==> parent == prop.extract(m.header.value)
  {
    prop.extract(Carrier(m))
  }

  /** `work` never reads the body: messages with the same header lead to the same span parent. */
  lemma WorkReadsOnlyHeader<C>(prop: Propagator<C>, m1: Message, m2: Message)
    requires m1.header == m2.header
    ensures Work(prop, m1) == Work(prop, m2)
  {
  }

  /**
   * `for m := range msgs { go work(m) }` over the messages received so far:
   * one `work` call per message, in receive order. Each call is represented
   * by the context its span continues.
   */
  method Dispatch<C>(prop: Propagator<C>, received: seq<Message>) returns (calls: seq<C>)
    ensures |calls| == |received|
    ensures forall i :: 0 <= i < |received| ==> calls[i] == Work(prop, received[i])
  {
    calls := [];
    for i := 0 to |received|
      invariant |calls| == i
      invariant forall j :: 0 <= j < i ==> calls[j] == Work(prop, received[j])
    {
      calls := calls + [Work(prop, received[i])];
    }
  }

  /**
   * The worker's `main` after tracer set-up: subscribe, then dispatch what
   * the channel yields. When it runs, every decodable arrival gets exactly
   * one `work` call, in arrival order.
   */
  method RunWorker<C>(codec: Codec, prop: Propagator<C>, parsed: Result<Client, Error>, polls: seq<PollEvent>,
                      confirm: Option<Error>, arrivals: seq<Bytes>)
    returns (o: Startup<seq<C>>)
    ensures o.Started? <==> ConnectOutcome(parsed, polls).Started? && confirm.None?
    ensures o.Started? ==>
      var ms := Decoded(codec, BackgroundEvents(arrivals));
      |o.value| == |ms| && forall i :: 0 <= i < |ms| ==> o.value[i] == Work(prop, ms[i])
  {
    var s := MustSubscribe(codec, parsed, polls, confirm, arrivals);
    match s
    case Panicked(p, n) =>
      o := Panicked(p, n);
    case StillConnecting(n) =>
      o := StillConnecting(n);
    case Started(sub, n) =>
      var ms := Decoded(codec, BackgroundEvents(arrivals));
      OutputsAppend([SubscribedTo(sub.broker.client, BrokerKey)], Sends(ms));
      OutputsSends(ms);
      assert Outputs([SubscribedTo(sub.broker.client, BrokerKey)]) == Outputs([]) + [] by {
        assert [SubscribedTo(sub.broker.client, BrokerKey)][..0] == [];
      }
      var calls := Dispatch(prop, Outputs(sub.log));
      o := Started(calls, n);
  }
}
