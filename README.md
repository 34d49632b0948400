# otel-demo message broker, modelled in Dafny

This project models the sequential core of the otel-demo system. The demo has
an HTTP server and a background worker. They are joined by a redis pub/sub
channel, and the W3C Trace Context `traceparent` header carries the trace
across that channel. The model covers:

- **The message envelope** (`Messages`): a body string and an HTTP-style
  header map from keys to ordered lists of values. The header is optional so
  that Go's nil header (a freshly declared `Message{}`) differs from an empty
  one.
- **The broker** (`Brokers`):
  - `Publish` starts from an envelope with a present, empty header. It injects
    the span context, encodes the envelope and publishes it on topic `"work"`.
    It stops at the first error.
  - `Subscribe` opens the raw subscription and waits for confirmation. If
    confirmation fails, it closes the subscription and returns the error.
    Otherwise it runs the delivery loop. That loop decodes each raw payload,
    drops malformed ones and forwards the rest in order. It stops on
    cancellation, whether it is waiting for input or blocked on a send. On
    exit it closes the raw subscription and then the output channel.
- **The connection polling loop** (`Bootstrap`), shared by the server and the
  worker. Each tick pings once. The first successful ping ends the loop. The
  deadline, if it comes before any success, panics with
  `"timeout connecting to redis"`. A URL that does not parse panics before
  any ping.
- **The server** (`Server`): `mustNewServer`, and `ServeHTTP`, which publishes
  `"hello, world"`. On a publish error it answers 500 with the error text.
  Otherwise it answers with the greeting.
- **The worker** (`Worker`): `mustSubscribe` subscribes with a context that
  is never cancelled. The `main` loop then makes one `work` call per received
  message, in order. `work` reads only the header.
- **End-to-end lemmas** (`Pipeline`): a published body reaches the worker
  unchanged, and the worker's span continues the publishing span.

The model has no goroutines and no `select`. It is sequential and runs over
event traces:

- The delivery loop sees `Arrive(raw, send)` or `Cancel`. `send` says how a
  send would end: `Received` or `CancelledDuringSend`.
- The polling loop sees `Tick(pingOk)` or `Deadline`.
- Each client call's outcome is a parameter: URL parsing, publish and
  subscription confirmation.

The JSON codec and the trace-context propagator are function-valued
parameters (`Foreign.Codec`, `Foreign.Propagator`). The end-to-end lemmas
assume two stated laws about them:

- `RoundTrips`: every message encodes, and decoding gives back the same body
  and every header value.
- `Faithful`: extracting what was injected into an empty carrier gives back
  the injected span context.

Notes on the code that the model follows:

- The deferred calls at `pkg/broker.go:78-79` run last-in first-out, so the
  raw subscription is closed before the output channel. `DeliveryLog` uses
  that order.
- The polling loop panics with `"timeout connecting to redis"` rather than
  returning an error. The model uses `Panicked(PanicMsg(TimeoutMessage), n)`.
- Injection cannot fail: it only writes into the carrier.
- On a publish error, `http.Error` writes the error text and then a newline.
  The model's `ServeHTTP` does the same.
- The span context Publish injects is that of the "broker publish" span it
  starts (`pkg/broker.go:19-25`), a child of the request's "handle request"
  span. So `work` continues the publish span.

## Model

| member | source | states |
|---|---|---|
| Foreign.RoundTripKeepsHeaderValues | pkg/message.go:5-14 | Documents the assumed codec law for the two fields: a round trip keeps the body, whether the header is present, and every value of every key (multi-valued keys included), in order. |
| Brokers.WithContext | pkg/broker.go:36-37 | Injection needs a present header. It leaves the body unchanged and writes only the header. |
| Brokers.Outgoing | pkg/broker.go:28-37 | The published envelope has exactly the given body. Its header is present and holds what injection wrote into an empty carrier. |
| Brokers.Publish | pkg/broker.go:18-51 | At most one call, always on the broker's own client and topic "work", carrying the encoding of the injected envelope. An encode error is returned with nothing published. A transport error is returned as it is. Success holds exactly when both steps succeed. |
| Brokers.StopIndex | pkg/broker.go:81-99 | The loop stops at the first cancellation, seen while waiting or during the send of a decoded message. Nothing before that point stops it. |
| Brokers.DeliveryLoop | pkg/broker.go:74-101 | The goroutine's loop delivers the messages decoded before the stopping event. If it stops, it then closes the raw subscription and then the output channel. |
| Brokers.Subscribe | pkg/broker.go:53-104 | It subscribes on "work" through the broker's own client. A failed confirmation closes the raw subscription and returns that error, with no delivery. Otherwise it returns no error and runs the delivery loop. |
| Brokers.OutputIsDecodedPrefix | pkg/broker.go:81-96 | The output is the decoded payloads that arrived before the stop, in order. So it is a prefix of all decoded payloads: none is duplicated or reordered. |
| Brokers.CancellationEndsLoop | pkg/broker.go:92-98 | Any cancellation ends the loop, and the log ends by closing the raw subscription and then the output channel. A message caught mid-send is the next decoded one and is not delivered. |
| Brokers.ClosesOnceInOrder | pkg/broker.go:78-79 | If the loop stops, each close happens exactly once; otherwise neither happens. The raw subscription is closed first, and nothing is delivered after a close. |
| Brokers.MalformedIsDropped | pkg/broker.go:84-90 | A payload that does not decode changes nothing, wherever it arrives: the deliveries and closes are the same as without it. |
| Brokers.UncancelledDeliversAll | pkg/broker.go:81-100 | Without cancellation, every decoded payload is delivered in order and nothing is closed. |
| Bootstrap.FirstDecisive | cmd/server/server.go:100-110 | Polling ends at the first successful tick or the deadline. Every event before that point is a failed tick. |
| Bootstrap.Expected | cmd/server/server.go:98-110 | Ready after n pings means the n-th tick succeeded and all earlier ones failed. Timed out means the deadline came before any success. Still polling means every tick so far failed. |
| Bootstrap.PollUntilReady | cmd/server/server.go:100-110 | The labelled loop pings once per tick. It breaks on the first success, panics at the deadline, and ends as Expected says. |
| Bootstrap.FailedPingContinues | cmd/server/server.go:103-106 | A failed ping never ends polling. It only adds one ping to the outcome of the remaining events. |
| Bootstrap.DecidedIsFinal | cmd/server/server.go:104-108 | Once polling is ready or timed out, later events change nothing. |
| Bootstrap.ConnectOutcome | cmd/server/server.go:92-110 | A URL that does not parse panics with its error after zero pings. Otherwise readiness yields the parsed client, the deadline panics with "timeout connecting to redis", and an undecided trace is still connecting. |
| Server.ServeHTTP | cmd/server/server.go:45-81 | It publishes "hello, world" through the server's broker, so every call goes to the client that broker wraps. On error it answers 500 with the error text and a newline and does not write the greeting. Otherwise it answers 200 with exactly the greeting. |
| Server.MustNewServer | cmd/server/server.go:92-114 | When ready, the returned server's broker wraps the same parsed client. It panics on a bad URL or at the deadline. |
| Worker.BackgroundEvents | cmd/worker/worker.go:85 | Under context.Background() the delivery loop never sees a cancellation. |
| Worker.MustSubscribe | cmd/worker/worker.go:64-91 | It polls as the server does, then calls Subscribe exactly once on a broker over the same client, and panics if Subscribe fails. The channel is never closed, and every decoded arrival is delivered. |
| Worker.Work | cmd/worker/worker.go:35-53 | The context the work span continues is what the propagator extracts from the message's header, with a nil header read as an empty carrier. |
| Worker.Dispatch | cmd/worker/worker.go:30-32 | Each received message gets exactly one work call, in receive order. |
| Worker.WorkReadsOnlyHeader | cmd/worker/worker.go:35-53 | work depends only on the header: messages with the same header continue the same span. |
| Worker.RunWorker | cmd/worker/worker.go:17-33 | The worker runs exactly when it connected and Subscribe succeeded. It then makes one work call per decodable arrival, in arrival order. |
| Pipeline.PublishedPayload | pkg/broker.go:39-50 | Under the codec law, a publish with a successful transport makes exactly one call, on the broker's client and topic "work". That payload decodes to the injected envelope. |
| Pipeline.DecodedBackground | pkg/broker.go:83-93 | If every arrival decodes, a loop that is never cancelled delivers them all, in order. |
| Pipeline.PublishedReachWorker | pkg/message.go:7-13 | The i-th published body reaches the worker as the i-th message, with the same body, and its work span continues the i-th publishing span. |
| Pipeline.GreetingScenario | cmd/server/server.go:68-73 | The server's greeting reaches the worker as one message with body "hello, world", and its work continues the span Publish started, a child of the request's span. |

## Left out

- Span calls (`tr.Start`, `RecordError`, `AddEvent`, `SetAttributes`, `span.End`) and the baggage read in `ServeHTTP` are telemetry side effects. They do not affect results. The span Publish starts is a parameter `span`.
- The tracer provider set-up, `mustGetEnvStr`, `http.ListenAndServe`, the simulated-work sleeps and both client programs are process and I/O plumbing.
- Redis client construction (`pkg/client.go`) is reduced to a parameter: the parsed client or the parse error. Ping, publish and confirmation are outcome parameters. The error `p.Close()` returns is ignored by the code and is not modelled.
- JSON encoding, `http.Header` key canonicalisation and the `traceparent` wire format are foreign. They enter only through `Codec` and `Propagator` and the `RoundTrips` and `Faithful` laws. Go's replacement of invalid UTF-8 during JSON encoding, and the difference between nil and empty value lists, are not represented: strings are sequences of Unicode characters.
- Goroutine scheduling, `select` fairness and unbuffered-channel blocking are represented only by the order of events in a trace. When the raw channel and cancellation are both ready, the trace says which one the `select` took.
- The 3-second ticker period and the 60-second deadline are not modelled as durations. The model therefore does not state the bound of at most twenty pings before the deadline.
- The fire-and-forget `go work(m)` is represented by the span context each work call continues. The sleep inside work and the concurrency of the calls are not modelled.
- Subscribe's guarantee that no message published after it returns is missed depends on redis confirming the subscription. That is the transport's behaviour and is not modelled.
