/**
 * The serving process of `cmd/server/server.go`: it connects to redis with
 * the polling loop, then answers each request by publishing a greeting on
 * the bus and writing the greeting, or the publish error, as the response.
 */
module Server {
  import opened Wrappers
  import opened Foreign
  import opened Brokers
  import opened Bootstrap

  datatype HttpServer = HttpServer(broker: Broker)

  /** The body every request publishes and, on success, answers with. */
  const Greeting: string := "hello, world"

  const StatusOK: int := 200
  const StatusInternalServerError: int := 500

  /**
   * The part of `http.ResponseWriter` the handler uses: the status (0 until
   * one is written; the first one written sticks, and writing a body first
   * implies 200) and the body written so far.
   */
  class ResponseRecorder {
    var status: int
    var body: string

    constructor ()
      ensures status == 0 && body == ""
    {
      status := 0;
      body := "";
    }

    /** net/http refuses status codes outside 100..999. */
    method WriteHeader(code: int)
      requires 100 <= code <= 999
      modifies this
      ensures status == if old(status) == 0 then code else old(status)
      ensures body == old(body)
    {
      if status == 0 {
        status := code;
      }
    }

    method Write(s: string)
      modifies this
      ensures status == if old(status) == 0 then StatusOK else old(status)
      ensures body == old(body) + s
    {
      if status == 0 {
        status := StatusOK;
      }
      body := body + s;
    }
  }

  /** `http.Error`: write the status, then the error text followed by a newline. */
  method HttpError(w: ResponseRecorder, text: string, code: int)
    requires 100 <= code <= 999
    modifies w
    ensures w.status == if old(w.status) == 0 then code else old(w.status)
    ensures w.body == old(w.body) + text + "\n"
  {
    w.WriteHeader(code);
    w.Write(text + "\n");
  }

  /**
   * `server.ServeHTTP` on a fresh response: publish the greeting through the
   * server's broker (`span` is the context of the span Publish starts, a
   * child of the request's span; `transport` is the client's publish
   * outcome); on an error answer 500 with its text and do not write the
   * greeting, otherwise answer with exactly the greeting. `sent` is what
   * reached the publish primitive of the client the server's broker wraps.
   */
  method ServeHTTP<C>(s: HttpServer, w: ResponseRecorder, codec: Codec, prop: Propagator<C>, span: C, transport: Option<Error>)
    returns (sent: seq<PublishCall>)
    requires w.status == 0 && w.body == ""
    modifies w
    ensures var r := Publish(s.broker, codec, prop, span, Greeting, transport);
      && sent == r.calls
      && (forall call :: call in sent ==> call.client == s.broker.client && call.topic == BrokerKey)
      && (r.err.Some? ==> w.status == StatusInternalServerError && w.body == r.err.value.text + "\n")
      && (r.err.None? ==> w.status == StatusOK && w.body == Greeting)
  {
    var body := Greeting;
    var r := Publish(s.broker, codec, prop, span, body, transport);
    sent := r.calls;
    if r.err.Some? {
      HttpError(w, r.err.value.text, StatusInternalServerError);
      return;
    }
    w.Write(body);
  }

  /**
   * `mustNewServer(url)`: `parsed` is what parsing the URL into a client
   * gives; then poll until ready, and wrap that same client in the broker.
   */
  method MustNewServer(parsed: Result<Client, Error>, events: seq<PollEvent>) returns (o: Startup<HttpServer>)
    ensures var c := ConnectOutcome(parsed, events);
      match c
      case Started(client, n) => o == Started(HttpServer(Broker(client)), n)
      case Panicked(p, n) => o == Panicked(p, n)
      case StillConnecting(n) => o == StillConnecting(n)
  {
    if parsed.Failure? {
      return Panicked(PanicErr(parsed.error), 0);
    }
    var c := parsed.value;
    var r := PollUntilReady(events);
    match r
    case Ready(n) =>
      var b := Broker(c);  // NewBroker(c)
      o := Started(HttpServer(b), n);
    case TimedOut(n) =>
      o := Panicked(PanicMsg(TimeoutMessage), n);
    case Polling(n) =>
      o := StillConnecting(n);
  }
}
