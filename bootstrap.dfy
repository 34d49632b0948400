/**
 * The connection polling loop that `mustNewServer` (cmd/server/server.go)
 * and `mustSubscribe` (cmd/worker/worker.go) both run before using redis:
 * a ticker every 3 seconds and a 60-second deadline race in a `select`; each
 * tick pings once, the first successful ping ends the loop, and the deadline
 * before any success is fatal.
 *
 * Time is abstracted into the order in which the two channels fire.
 */
module Bootstrap {
  import opened Wrappers
  import opened Foreign

  /** What the loop's `select` receives: a tick (with the outcome of its ping) or the deadline. */
  datatype PollEvent = Tick(pingOk: bool) | Deadline

  /** Where polling stands after a trace, with the number of pings made. */
  datatype Readiness = Ready(pings: nat) | TimedOut(pings: nat) | Polling(pings: nat)

  /** What a process panics with. */
  datatype Panic = PanicErr(err: Error) | PanicMsg(msg: string)

  const TimeoutMessage: string := "timeout connecting to redis"

  /** The outcome of a start-up routine that may panic or still be waiting for redis. */
  datatype Startup<T> = Started(value: T, pings: nat) | Panicked(reason: Panic, pings: nat) | StillConnecting(pings: nat)

  /** An event that ends polling: a successful ping or the deadline. */
  predicate Decisive(e: PollEvent)
  {
    e == Tick(true) || e == Deadline
  }

  /** The position of the first event that ends polling, or the length of the trace. */
  function FirstDecisive(events: seq<PollEvent>): (k: nat)
    ensures k <= |events|
    ensures forall i :: 0 <= i < k ==> events[i] == Tick(false)
    ensures k < |events| ==> Decisive(events[k])
  {
    if events == [] then 0
    else if Decisive(events[0]) then 0
    else 1 + FirstDecisive(events[1..])
  }

  /**
   * The readiness a trace leads to: every event before the first decisive
   * one is a failed tick, so it cost one ping; a successful tick adds its own
   * ping and ends in Ready, the deadline ends in TimedOut.
   */
  function Expected(events: seq<PollEvent>): (r: Readiness)
    ensures r.Ready? ==> 1 <= r.pings <= |events| && events[r.pings - 1] == Tick(true)
    ensures r.TimedOut? ==> r.pings < |events| && events[r.pings] == Deadline
    ensures r.Polling? ==> r.pings == |events|
    ensures forall i :: 0 <= i < |events| && i < (if r.Ready? then r.pings - 1 else r.pings) ==> events[i] == Tick(false)
  {
    var k := FirstDecisive(events);
    if k == |events| then Polling(k)
    else if events[k] == Deadline then TimedOut(k)
    else Ready(k + 1)
  }

  /** The labelled `for`/`select` loop: ping on each tick, break on success, give up at the deadline. */
  method PollUntilReady(events: seq<PollEvent>) returns (r: Readiness)
    ensures r == Expected(events)
  {
    var i := 0;
    var pings := 0;
    while i < |events|
      invariant i <= FirstDecisive(events)
      invariant pings == i
    {
      if events[i] == Deadline {
        return TimedOut(pings);
      }
      // one ping per tick
      pings := pings + 1;
      if events[i].pingOk {
        return Ready(pings);
      }
      i := i + 1;
    }
    return Polling(pings);
  }

  /** A failed ping never ends polling: it only adds one ping to whatever follows. */
  lemma FailedPingContinues(rest: seq<PollEvent>)
    ensures var r := Expected(rest);
      Expected([Tick(false)] + rest) ==
        match r
        case Ready(n) => Ready(n + 1)
        case TimedOut(n) => TimedOut(n + 1)
        case Polling(n) => Polling(n + 1)
  {
  }

  /** Once polling has ended, later events change nothing. */
  lemma {:induction false} DecidedIsFinal(events: seq<PollEvent>, later: seq<PollEvent>)
    requires !Expected(events).Polling?
    ensures Expected(events + later) == Expected(events)
  {
    if !Decisive(events[0]) {
      assert (events + later)[1..] == events[1..] + later;
      DecidedIsFinal(events[1..], later);
    }
  }

  /**
   * What a start-up routine that parses the redis URL and then polls ends in:
   * a URL that does not parse panics with its error before any ping; then
   * readiness yields the client, the deadline panics with the timeout
   * message, and an undecided trace is still connecting.
   */
  function ConnectOutcome(parsed: Result<Client, Error>, events: seq<PollEvent>): (o: Startup<Client>)
    ensures parsed.Failure? ==> o == Panicked(PanicErr(parsed.error), 0)
    ensures o.Started? <==> parsed.Success? && Expected(events).Ready?
    ensures o.Started? ==> o.value == parsed.value
    ensures (o.Panicked? && o.reason == PanicMsg(TimeoutMessage)) <==> parsed.Success? && Expected(events).TimedOut?
    ensures parsed.Success? ==> o.pings == Expected(events).pings
    ensures parsed.Success? && Expected(events).Polling? ==> o == StillConnecting(Expected(events).pings)
  {
    match parsed
    case Failure(e) => Panicked(PanicErr(e), 0)
    case Success(c) =>
      match Expected(events)
      case Ready(n) => Started(c, n)
      case TimedOut(n) => Panicked(PanicMsg(TimeoutMessage), n)
      case Polling(n) => StillConnecting(n)
  }
}
