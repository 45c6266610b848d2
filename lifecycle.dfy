/** The process lifecycle of main.go: the configuration checks `run` makes before serving,
    the outcome of the race between a fatal listener error and an interrupt signal, and the
    exit status `main` derives from `run`'s error.

    The listener, the signal context, the goroutine and `select` are not modelled: which
    event reaches `run` first is an input, and so is the error, if any, that
    `server.Shutdown` returns. */
module Lifecycle {
  import opened Wrappers
  import opened GoErrors
  import opened Strconv

  /** What the checks gather: the listening port and the upstream credentials. */
  datatype Config = Config(port: int, token: string, host: string, org: string)

  /** The error for a variable that is not set. */
  function MissingEnv(name: string): GoError {
    TextError("failed to find env " + name)
  }

  /** The upstream variables, in the order `run` looks them up. */
  const UpstreamVars: seq<string> := ["PANGOLIN_TOKEN", "PANGOLIN_HOST", "PANGOLIN_ORG"]

  /** The first of `names` that `env` does not define. */
  function FirstMissing(names: seq<string>, env: map<string, string>): (r: Option<string>)
    ensures r.None? <==> forall n :: n in names ==> n in env
    ensures r.Some? ==> exists k :: 0 <= k < |names| && names[k] == r.value && names[k] !in env &&
                                    forall i :: 0 <= i < k ==> names[i] in env
  {
    if names == [] then None
    else if names[0] !in env then Some(names[0])
    else
      var rest := FirstMissing(names[1..], env);
      assert forall i :: 1 <= i < |names| ==> names[i] == names[1..][i - 1];
      rest
  }

  /** The checks of `run` before it starts serving: PORT from the injected lookup, then its
      parse, then the upstream variables from the process environment. */
  function CheckConfig(lookupEnv: map<string, string>, processEnv: map<string, string>): (r: Result<Config, GoError>)
    ensures "PORT" !in lookupEnv ==> r == Failure(MissingEnv("PORT"))
    ensures "PORT" in lookupEnv && Atoi(lookupEnv["PORT"]).Failure? ==>
              r == Failure(Atoi(lookupEnv["PORT"]).error)
    ensures "PORT" in lookupEnv && Atoi(lookupEnv["PORT"]).Success? ==>
              match FirstMissing(UpstreamVars, processEnv)
              case Some(name) => r == Failure(MissingEnv(name))
              case None => r == Success(Config(Atoi(lookupEnv["PORT"]).value, processEnv["PANGOLIN_TOKEN"],
                                               processEnv["PANGOLIN_HOST"], processEnv["PANGOLIN_ORG"]))
  {
    if "PORT" !in lookupEnv then Failure(MissingEnv("PORT"))
    else
      match Atoi(lookupEnv["PORT"])
      case Failure(e) => Failure(e)
      case Success(port) =>
        if "PANGOLIN_TOKEN" !in processEnv then Failure(MissingEnv("PANGOLIN_TOKEN"))
        else if "PANGOLIN_HOST" !in processEnv then Failure(MissingEnv("PANGOLIN_HOST"))
        else if "PANGOLIN_ORG" !in processEnv then Failure(MissingEnv("PANGOLIN_ORG"))
        else Success(Config(port, processEnv["PANGOLIN_TOKEN"], processEnv["PANGOLIN_HOST"], processEnv["PANGOLIN_ORG"]))
  }

  /** Only PORT is read from the injected lookup and only the upstream variables from the
      process environment: two pairs of sources that agree on those give the same outcome. */
  lemma CheckConfigReadsOnlyItsSources(l1: map<string, string>, l2: map<string, string>,
                                       e1: map<string, string>, e2: map<string, string>)
    requires ("PORT" in l1 <==> "PORT" in l2) && ("PORT" in l1 ==> l1["PORT"] == l2["PORT"])
    requires forall n :: n in UpstreamVars ==> (n in e1 <==> n in e2) && (n in e1 ==> e1[n] == e2[n])
    ensures CheckConfig(l1, e1) == CheckConfig(l2, e2)
  {
    assert UpstreamVars[0] in UpstreamVars && UpstreamVars[1] in UpstreamVars && UpstreamVars[2] in UpstreamVars;
  }

  /** Which event reaches `run` first: the serving goroutine's ListenAndServe returned with an
      error, or the interrupt/terminate signal cancelled the context. */
  datatype FirstEvent = ServeReturned(err: GoError) | Interrupted

  /** `run`'s returned error, and whether it called the signal context's `cancel`. */
  datatype RunResult = RunResult(err: Option<GoError>, cancelled: bool)

  /** The signal branch: shut down, and cancel only once shutdown succeeded. */
  function Drain(shutdownErr: Option<GoError>): RunResult {
    match shutdownErr
    case Some(e) => RunResult(Some(Wrap("server shutdown: ", e)), false)
    case None => RunResult(None, true)
  }

  /** What `run` returns once serving has started. The goroutine sends a listener error on
      errChan only when it is not ErrServerClosed (compared by identity, not errors.Is);
      otherwise nothing is sent and `select` can only be ended by the signal. */
  function AfterServe(first: FirstEvent, shutdownErr: Option<GoError>): RunResult {
    match first
    case ServeReturned(e) =>
      if e != SentinelError(ErrServerClosed) then RunResult(Some(e), false) else Drain(shutdownErr)
    case Interrupted => Drain(shutdownErr)
  }

  /** `run(ctx, w, lookupEnv, version)`. */
  function Run(lookupEnv: map<string, string>, processEnv: map<string, string>,
               first: FirstEvent, shutdownErr: Option<GoError>): RunResult
  {
    match CheckConfig(lookupEnv, processEnv)
    case Failure(e) => RunResult(Some(e), false)
    case Success(_) => AfterServe(first, shutdownErr)
  }

  /** `main`: `run` with the process environment as its lookup; on an error, its message and
      a newline on standard error and exit status 1. */
  function Main(env: map<string, string>, first: FirstEvent, shutdownErr: Option<GoError>): (r: (int, string))
  {
    match Run(env, env, first, shutdownErr).err
    case Some(e) => (1, Message(e) + "\n")
    case None => (0, "")
  }

  /** The listener's ErrServerClosed is never what `run` reports: it leaves `run` waiting for
      the signal, and the outcome is that of the signal branch. */
  lemma ServerClosedNeverReported(first: FirstEvent, shutdownErr: Option<GoError>)
    ensures AfterServe(first, shutdownErr).err != Some(SentinelError(ErrServerClosed))
    ensures AfterServe(ServeReturned(SentinelError(ErrServerClosed)), shutdownErr) == AfterServe(Interrupted, shutdownErr)
  {
  }

  /** Any other listener error is returned as it is, and `cancel` is not called. */
  lemma ListenerErrorReturned(e: GoError, shutdownErr: Option<GoError>)
    requires e != SentinelError(ErrServerClosed)
    ensures AfterServe(ServeReturned(e), shutdownErr) == RunResult(Some(e), false)
  {
  }

  /** On the signal, a failing Shutdown is reported wrapped after "server shutdown: " (still
      matching what it wrapped under errors.Is) and `cancel` is not called; a successful one
      calls `cancel` and yields no error. */
  lemma SignalBranch(shutdownErr: Option<GoError>)
    ensures shutdownErr.Some? ==>
      var r := AfterServe(Interrupted, shutdownErr);
      && !r.cancelled && r.err.Some?
      && Message(r.err.value) == "server shutdown: " + Message(shutdownErr.value)
      && forall k :: IsError(r.err.value, k) <==> IsError(shutdownErr.value, k)
    ensures shutdownErr.None? ==> AfterServe(Interrupted, shutdownErr) == RunResult(None, true)
  {
  }

  /** `run` calls `cancel` exactly when it returns no error; that happens exactly when the
      configuration is complete, the signal comes first (or the listener only ever reports
      ErrServerClosed) and Shutdown succeeds. */
  lemma CancelledExactlyOnCleanExit(lookupEnv: map<string, string>, processEnv: map<string, string>,
                                    first: FirstEvent, shutdownErr: Option<GoError>)
    ensures Run(lookupEnv, processEnv, first, shutdownErr).cancelled <==>
            Run(lookupEnv, processEnv, first, shutdownErr).err.None?
    ensures Run(lookupEnv, processEnv, first, shutdownErr).err.None? <==>
            && CheckConfig(lookupEnv, processEnv).Success?
            && (first.Interrupted? || first.err == SentinelError(ErrServerClosed))
            && shutdownErr.None?
  {
  }

  /** The exit status is 0 exactly when `run` returns no error, and otherwise the error's
      message is what reaches standard error. */
  lemma MainExitStatus(env: map<string, string>, first: FirstEvent, shutdownErr: Option<GoError>)
    ensures Main(env, first, shutdownErr).0 == 0 <==> Run(env, env, first, shutdownErr).err.None?
    ensures Main(env, first, shutdownErr).0 != 0 ==>
      Main(env, first, shutdownErr) == (1, Message(Run(env, env, first, shutdownErr).err.value) + "\n")
  {
  }
}
