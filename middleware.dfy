/** The request pipeline of main.go: the `accesslog` and `recovery` middlewares and the
    order in which `route` stacks them around the route multiplexer.

    A handler run is abstracted as the calls the handler makes on the writer it is given and
    how it ends: by returning, or by panicking with some value. Serving a request through a
    stack of middlewares yields the calls that reach the original writer, the log entries
    emitted, and whether a panic escapes the stack. Each middleware's recorder only observes
    the calls forwarded through it, so its counters are ObserveAll of those calls. */
module Middleware {
  import opened Wrappers
  import opened GoErrors
  import opened Bytes
  import opened Recorder

  /** A value passed to `panic`: one that implements `error`, or any other value, given by
      the text `fmt.Sprint` renders for it. */
  datatype PanicValue = ErrorValue(err: GoError) | OtherValue(text: string)

  /** How a handler's ServeHTTP ends. */
  datatype Ending = Returned | Panicked(value: PanicValue)

  /** What a route handler does with one request: its calls on the writer, then its ending. */
  datatype HandlerRun = HandlerRun(calls: seq<Event>, ending: Ending)

  /** A log entry: the access line (`"accessed"`, with the recorded status and byte count)
      or the error line (`"panic!"`, with the panic value). */
  datatype LogEntry = Accessed(status: int, bytes: int) | PanicLogged(value: PanicValue)

  /** A stack of handlers: the route multiplexer wrapped by middlewares. */
  datatype Handler = Mux | AccessLog(next: Handler) | Recovery(next: Handler)

  /** The effect of serving one request: the calls that reached the original writer, the log
      entries in the order emitted, and how ServeHTTP ended for the server. */
  datatype Served = Served(wire: seq<Event>, logs: seq<LogEntry>, ending: Ending)

  /** What recovery's deferred function does. */
  datatype RecoveryAction = Ignore | LogOnly(value: PanicValue) | LogAndRespond(value: PanicValue)

  /** `fmt.Sprint(v)`. */
  function PanicText(v: PanicValue): string {
    match v
    case ErrorValue(e) => Message(e)
    case OtherValue(t) => t
  }

  /** The panic is an `error` for which `errors.Is(err, http.ErrAbortHandler)` holds. */
  predicate Aborts(v: PanicValue) {
    v.ErrorValue? && IsError(v.err, ErrAbortHandler)
  }

  /** `http.Error(w, text, 500)`: status 500, then the text and a newline as the body. */
  function ErrorResponse(text: string): seq<Event> {
    [WroteHeader(500), Wrote(Utf8(text + "\n"))]
  }

  /** recovery's decision, from what `recover()` returned and the status its own recorder saw. */
  function RecoveryDecision(ending: Ending, recordedStatus: int): RecoveryAction {
    match ending
    case Returned => Ignore
    case Panicked(v) =>
      if Aborts(v) then Ignore
      else if recordedStatus > 0 then LogOnly(v)
      else LogAndRespond(v)
  }

  /** Serves one request through the stack `h`. */
  function Serve(h: Handler, run: HandlerRun): Served
    decreases h
  {
    match h
    case Mux => Served(run.calls, [], run.ending)
    case AccessLog(next) =>
      var inner := Serve(next, run);
      var seen := ObserveAll(Fresh, inner.wire);
      if inner.ending.Returned? then
        Served(inner.wire, inner.logs + [Accessed(seen.status, seen.numBytes)], Returned)
      else
        inner
    case Recovery(next) =>
      var inner := Serve(next, run);
      var seen := ObserveAll(Fresh, inner.wire);
      match RecoveryDecision(inner.ending, seen.status)
      case Ignore => Served(inner.wire, inner.logs, Returned)
      case LogOnly(v) => Served(inner.wire, inner.logs + [PanicLogged(v)], Returned)
      case LogAndRespond(v) =>
        // http.Error writes to the original writer, not to the recorder
        Served(inner.wire + ErrorResponse(PanicText(v)), inner.logs + [PanicLogged(v)], Returned)
  }

  /** `route`: the multiplexer, wrapped by accesslog, wrapped by recovery. */
  function Route(): (h: Handler)
    ensures h.Recovery? && h.next.AccessLog? && h.next.next == Mux
  {
    Recovery(AccessLog(Mux))
  }

  /** Whatever the stack, the handler's calls reach the original writer unchanged and in
      order, before anything a middleware adds. */
  lemma {:induction false} ServeForwardsHandlerCalls(h: Handler, run: HandlerRun)
    ensures |run.calls| <= |Serve(h, run).wire|
    ensures Serve(h, run).wire[..|run.calls|] == run.calls
    decreases h
  {
    match h
    case Mux =>
    case AccessLog(next) => ServeForwardsHandlerCalls(next, run);
    case Recovery(next) =>
      ServeForwardsHandlerCalls(next, run);
      var inner := Serve(next, run).wire;
      assert forall extra :: (inner + extra)[..|run.calls|] == inner[..|run.calls|];
  }

  /** `route` served step by step: what accesslog hands to recovery, then what recovery does. */
  lemma RouteUnfolds(run: HandlerRun)
    ensures var seen := ObserveAll(Fresh, run.calls);
      Serve(Route(), run) ==
        if run.ending.Returned? then Served(run.calls, [Accessed(seen.status, seen.numBytes)], Returned)
        else match RecoveryDecision(run.ending, seen.status)
          case Ignore => Served(run.calls, [], Returned)
          case LogOnly(v) => Served(run.calls, [PanicLogged(v)], Returned)
          case LogAndRespond(v) => Served(run.calls + ErrorResponse(PanicText(v)), [PanicLogged(v)], Returned)
  {
    var seen := ObserveAll(Fresh, run.calls);
    var inner := Serve(AccessLog(Mux), run);
    assert Serve(Mux, run) == Served(run.calls, [], run.ending);
    assert inner == if run.ending.Returned? then Served(run.calls, [Accessed(seen.status, seen.numBytes)], Returned)
                    else Served(run.calls, [], run.ending);
  }

  /** Through `route`, no panic escapes to the server. */
  lemma RouteNeverPanics(run: HandlerRun)
    ensures Serve(Route(), run).ending == Returned
  {
    RouteUnfolds(run);
  }

  /** Through `route`, accesslog emits exactly one access entry, carrying the last status the
      handler set (0 if none) and the bytes it wrote, when the handler returns normally, and
      none when it panics. */
  lemma RouteAccessLog(run: HandlerRun)
    ensures run.ending.Returned? ==>
      Serve(Route(), run).logs == [Accessed(LastCode(run.calls, 0), TotalBytes(run.calls))]
    ensures run.ending.Panicked? ==>
      forall i :: 0 <= i < |Serve(Route(), run).logs| ==> !Serve(Route(), run).logs[i].Accessed?
  {
    RouteUnfolds(run);
    ObserveAllIsLastCodeAndTotal(Fresh, run.calls);
  }

  /** Through `route`, recovery stays silent (no log, no write) when the handler returns or
      panics with an error that is ErrAbortHandler or wraps it. */
  lemma RouteRecoveryQuiet(run: HandlerRun)
    requires run.ending.Panicked? ==> Aborts(run.ending.value)
    ensures Serve(Route(), run).wire == run.calls
    ensures forall i :: 0 <= i < |Serve(Route(), run).logs| ==> !Serve(Route(), run).logs[i].PanicLogged?
  {
    RouteUnfolds(run);
  }

  /** Through `route`, any other panic yields exactly one error entry and no access entry;
      the original writer then receives a 500 carrying the panic's text if and only if the
      handler had set no positive status (the recovery recorder saw the handler's
      WriteHeader calls through the accesslog recorder's forwarding). */
  lemma RouteRecoveryResponds(run: HandlerRun)
    requires run.ending.Panicked? && !Aborts(run.ending.value)
    ensures Serve(Route(), run).logs == [PanicLogged(run.ending.value)]
    ensures LastCode(run.calls, 0) > 0 ==> Serve(Route(), run).wire == run.calls
    ensures LastCode(run.calls, 0) <= 0 ==>
      Serve(Route(), run).wire == run.calls + ErrorResponse(PanicText(run.ending.value))
  {
    RouteUnfolds(run);
    ObserveAllIsLastCodeAndTotal(Fresh, run.calls);
  }

  /** A handler that sets a status, possibly writes a body, and then panics gets no second
      WriteHeader from recovery: the wire is exactly the handler's own calls. */
  lemma NoSecondStatusAfterCommit(pre: seq<Event>, code: int, post: seq<Event>, v: PanicValue)
    requires code > 0
    requires forall i :: 0 <= i < |post| ==> post[i].Wrote?
    ensures Serve(Route(), HandlerRun(pre + [WroteHeader(code)] + post, Panicked(v))).wire
            == pre + [WroteHeader(code)] + post
  {
    var calls := pre + [WroteHeader(code)] + post;
    var run := HandlerRun(calls, Panicked(v));
    assert calls[|pre|] == WroteHeader(code);
    assert forall j :: |pre| < j < |calls| ==> calls[j] == post[j - |pre| - 1];
    assert LastCode(calls, 0) == code;
    if Aborts(v) {
      RouteRecoveryQuiet(run);
    } else {
      RouteRecoveryResponds(run);
    }
  }

  /** A handler that only writes body bytes and then panics leaves the recorded status at 0,
      so recovery still sends WriteHeader(500) and the error text after that body. */
  lemma WriteOnlyPanicStillResponds(calls: seq<Event>, v: PanicValue)
    requires forall i :: 0 <= i < |calls| ==> calls[i].Wrote?
    requires !Aborts(v)
    ensures Serve(Route(), HandlerRun(calls, Panicked(v))).wire == calls + ErrorResponse(PanicText(v))
  {
    WritesOnlyKeepStatusZero(calls);
    RouteRecoveryResponds(HandlerRun(calls, Panicked(v)));
  }

  /** The order matters: with accesslog outside recovery, every request, panicking or not,
      would get exactly one access entry, and it would be the last entry. */
  lemma AccessLogOutsideRecoveryAlwaysLogs(run: HandlerRun)
    ensures var s := Serve(AccessLog(Recovery(Mux)), run);
      && |s.logs| >= 1 && s.logs[|s.logs| - 1].Accessed?
      && forall i :: 0 <= i < |s.logs| - 1 ==> !s.logs[i].Accessed?
  {
  }
}
