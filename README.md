# selfservice-portal: a Dafny model of its request pipeline, lifecycle and upstream client

selfservice-portal is a small Go HTTP service. It lets users register their address against access rules held by an upstream access-control API (Pangolin). This project models the three parts of it that carry logic, and proves properties of the model:

- **The response recorder** (`responseRecorder`, main.go). This is a decorator around an `http.ResponseWriter`. It forwards every call and records the last status code and the number of body bytes. It is a class, `Recorder.ResponseRecorder`, over `Recorder.Sink`. The Sink stands for the underlying writer: it records every call it receives in an append-only trace. Both methods are proved against `Observe`, which gives the effect of one call on the recorder's counters. The lemmas about `ObserveAll` then say what any sequence of calls leaves behind, and `Recorder.ReplayThroughRecorder` drives the class through such a sequence and proves it ends at that fold.
- **The middleware pipeline** (`accesslog`, `recovery`, `route`, main.go). A handler run is abstracted as the calls it makes on its writer plus how it ends (returns, or panics with a value). `Middleware.Serve` interprets any stack of middlewares. It yields the calls that reach the original writer, the log entries emitted and whether a panic escapes. `Middleware.Route` is the stack the service uses: recovery outside accesslog outside the multiplexer.
- **The lifecycle** (`run`, `main`, main.go). This covers the ordered configuration check and the outcome of the race between a listener error and the interrupt signal. "Which event came first" is an input, and so is the error `Shutdown` returns.
- **The upstream client** (pangolin/pangolin.go). This covers URL construction, the two headers added to every request, and how `GetResources` and `CreateRule` classify a transport error or a response. It also covers the key set of the JSON encodings of `PangolinRule` (every field `omitempty`) and `PangolinResource` (no `omitempty`). JSON is modelled as decoded values with ordered object members.

Supporting modules model the Go library behaviour the core depends on:
- `GoErrors`: error values, `errors.Is` against a sentinel, and `%w` wrapping.
- `Strconv`: `Itoa`, and `Atoi` on 64-bit `int`.
- `Bytes`: the UTF-8 bytes of a Go string.

Four behaviours of the code are worth stating plainly, because a reader might expect otherwise:
- **Recorded status.** `WriteHeader` overwrites the recorded status on every call, so the recorder keeps the last code it was given. On the wire, HTTP only honours the first status line.
- **Access log on panic.** `accesslog` logs after `next.ServeHTTP` returns and has no `defer`. A panicking handler therefore gets no access entry: the panic unwinds past accesslog to recovery, which sits outside it. `Middleware.AccessLogOutsideRecoveryAlwaysLogs` shows that the opposite order would give every request exactly one access entry.
- **Envelope error flag.** `GetResources` never inspects the envelope's `error` flag. Only `CreateRule` does.
- **Rejection message.** `CreateRule`'s rejection message is `"error: "` followed by the envelope's message.

One behaviour of the code is stated as a lemma rather than claimed as a defect: `Middleware.WriteOnlyPanicStillResponds`. Suppose a handler writes body bytes without calling `WriteHeader` and then panics. Its recorded status is 0, so recovery still sends `WriteHeader(500)` and the panic text after the body already written.

## Model

| member | source | states |
|---|---|---|
| `Recorder.ResponseRecorder.constructor` | main.go:173-177 | a recorder built around a writer starts with status 0 and byte count 0 and forwards to that writer |
| `Recorder.ResponseRecorder.Write` | main.go:185-188 | adds exactly `len(b)` to the byte count whatever the underlying writer answers, leaves the status untouched, appends `b` unchanged to the underlying trace once, and returns the underlying `(n, err)` unchanged |
| `Recorder.ResponseRecorder.WriteHeader` | main.go:191-194 | sets the recorded status to the code on every call (the last call wins), leaves the byte count, and forwards the call to the underlying writer exactly once |
| `Recorder.ResponseRecorder.Header` | main.go:180-182 | returns the underlying writer's header map |
| `Recorder.Observe` | main.go:186-192 | the effect of one forwarded call on the recorder's fields: WriteHeader replaces the status, Write adds the length of its argument |
| `Recorder.ObserveAll` | main.go:184-194 | the recorder's fields after it has forwarded a sequence of calls, one `Observe` step per call in order |
| `Recorder.ReplayThroughRecorder` | main.go:184-194 | any sequence of `WriteHeader`/`Write` calls made through a fresh recorder reaches the writer unchanged and in order, and leaves the recorder at the fold `ObserveAll` of those calls: the last status set (0 if none) and the total number of body bytes |
| `Recorder.RecordTwoHeadersAndABody` | main.go:191-194 | a caller that sets 200, then 404, then writes a body sees 404 recorded, the body's length counted, and the three calls on the writer in order |
| `Recorder.LastCode` | main.go:191-194 | the code of the WriteHeader call after which no other WriteHeader follows, or the given default when there is none |
| `Recorder.ObserveAllIsLastCodeAndTotal` | main.go:184-194 | after any sequence of forwarded calls the status is the last WriteHeader code (the earlier status if none) and the byte count has grown by exactly the bytes written |
| `Recorder.WritesOnlyKeepStatusZero` | main.go:185-188 | a fresh recorder that sees only Write calls keeps status 0 and counts all written bytes |
| `Middleware.ErrorResponse` | main.go:165 | `http.Error(w, text, 500)` as calls on the writer: WriteHeader(500), then the UTF-8 bytes of the text and a newline |
| `Middleware.RecoveryDecision` | main.go:137-165 | recovery's deferred function: nothing on a normal return or an ErrAbortHandler panic, a log only when the recorded status is positive, otherwise a log and the error response |
| `Middleware.Serve` | main.go:114-169 | any stack of accesslog and recovery stages around the multiplexer, each stage with its own recorder over the calls forwarded through it |
| `Middleware.Route` | main.go:101-110 | the stack is recovery outermost, accesslog inside it, the multiplexer innermost |
| `Middleware.ServeForwardsHandlerCalls` | main.go:114-169 | for any stack of middlewares, the handler's calls reach the original writer unchanged and in order, before anything a middleware adds |
| `Middleware.RouteNeverPanics` | main.go:137-167 | no panic escapes the `route` stack to the server |
| `Middleware.RouteAccessLog` | main.go:114-130 | exactly one access entry, with the last status set (0 if none) and the bytes written, when the handler returns normally; no access entry when it panics |
| `Middleware.RouteRecoveryQuiet` | main.go:137-146 | a normal return, or a panic with an error that is or wraps ErrAbortHandler, produces no error log and no extra write |
| `Middleware.RouteRecoveryResponds` | main.go:148-165 | any other panic produces exactly one error entry; the original writer gets status 500 with the panic text and a newline as body if and only if no positive status was recorded |
| `Middleware.NoSecondStatusAfterCommit` | main.go:159-162 | a handler that sets a positive status, writes any body after it, and then panics gets no second WriteHeader and no error body from recovery |
| `Middleware.WriteOnlyPanicStillResponds` | main.go:159-165 | a handler that only writes body bytes and then panics still gets WriteHeader(500) and the panic text appended after its body |
| `Middleware.AccessLogOutsideRecoveryAlwaysLogs` | main.go:107-108 | with the stages in the opposite order, every request, panicking or not, would end with exactly one access entry |
| `Lifecycle.CheckConfig` | main.go:34-57 | missing PORT in the injected lookup fails first, then PORT's parse error, then the first of PANGOLIN_TOKEN, PANGOLIN_HOST, PANGOLIN_ORG missing from the process environment; otherwise the parsed port and the three values |
| `Lifecycle.CheckConfigReadsOnlyItsSources` | main.go:34-57 | only PORT is read from the injected lookup and only the three upstream variables from the process environment |
| `Lifecycle.Drain` | main.go:80-94 | the signal branch: a Shutdown error wrapped after "server shutdown: " without `cancel`, or `cancel` and nil |
| `Lifecycle.AfterServe` | main.go:69-94 | the serving goroutine and the `select`: a listener error other than ErrServerClosed is returned, anything else leads to the signal branch |
| `Lifecycle.Run` | main.go:31-95 | `run`: the configuration checks, then the outcome of serving |
| `Lifecycle.Main` | main.go:24-29 | `main`: exit status 1 and the error's message and a newline on standard error when `run` fails, 0 otherwise |
| `Lifecycle.ServerClosedNeverReported` | main.go:72-80 | a listener's ErrServerClosed is never returned; it leaves `run` to the signal branch |
| `Lifecycle.ListenerErrorReturned` | main.go:72-79 | any other listener error is returned as it is and `cancel` is not called |
| `Lifecycle.SignalBranch` | main.go:80-94 | a failing Shutdown is returned wrapped after "server shutdown: " (still matching the cause under errors.Is) without calling `cancel`; a successful one calls `cancel` and returns nil |
| `Lifecycle.CancelledExactlyOnCleanExit` | main.go:31-95 | `cancel` is called exactly when `run` returns nil, which happens exactly when the configuration is complete, the signal ends serving and Shutdown succeeds |
| `Lifecycle.MainExitStatus` | main.go:24-29 | the exit status is 0 exactly when `run` returns nil; otherwise it is 1 and the error's message and a newline go to standard error |
| `GoErrors.Wrap` | main.go:89 | a `%w` wrapper's message is the prefix and the cause's message, and it matches the same sentinels as its cause |
| `Strconv.Atoi` | main.go:39-42 | a successful parse lies in the 64-bit range; a failure is a syntax or a range error; it is a syntax error exactly when the text is not an optional sign followed by one or more digits, and a range error only for such a numeral |
| `Strconv.Itoa` | pangolin/pangolin.go:101 | a non-empty decimal rendering, with a leading '-' exactly for negative numbers |
| `Strconv.AtoiOfItoa` | pangolin/pangolin.go:101 | Atoi reads back exactly the number Itoa rendered, for every 64-bit int |
| `Strconv.AtoiOfNumeral` | main.go:39-42 | an optional sign followed by digits reads as the sign applied to the digits' value, and fails with a range error exactly when that value is outside the 64-bit range |
| `Strconv.AtoiSyntaxError` | main.go:39-42 | any text that is not an optional sign followed by one or more digits fails with the syntax error naming that text |
| `Strconv.AtoiAcceptsPlusAndLeadingZeros` | main.go:39-42 | a '+' sign and any number of leading zeros do not change the value read, so "+80" and "0080" both give 80 |
| `Strconv.AtoiAcceptsLeadingZerosAfterMinus` | main.go:39-42 | leading zeros after a '-' do not change the value read, so "-007" gives -7 |
| `Strconv.AtoiRangeError` | main.go:39-42 | a run of digits whose value exceeds the largest 64-bit int fails with a range error and not a syntax error |
| `Pangolin.InitPangolin` | pangolin/pangolin.go:52-54 | stores token, host and org unchanged |
| `Pangolin.String` | pangolin/pangolin.go:140-142 | a non-nil pointer whose target is the argument |
| `Pangolin.Bool` | pangolin/pangolin.go:144-146 | a non-nil pointer whose target is the argument |
| `Pangolin.Int` | pangolin/pangolin.go:148-150 | a non-nil pointer whose target is the argument |
| `Pangolin.BaseURL` | pangolin/pangolin.go:56-58 | the host followed by "/v1" |
| `Pangolin.ResourcesURL` | pangolin/pangolin.go:67 | the base URL, "/org/", the organisation and "/resources" |
| `Pangolin.RuleURL` | pangolin/pangolin.go:101 | the base URL, "/resource/", the decimal resource identifier and "/rule" |
| `Pangolin.ResourcesURLRoundTrip` | pangolin/pangolin.go:56-67 | the resources URL extends `host + "/v1"` and yields back the organisation it was built from |
| `Pangolin.RuleURLRoundTrip` | pangolin/pangolin.go:100-101 | the rule URL extends `host + "/v1"` and yields back the decimal resource identifier it was built from |
| `Pangolin.AddHeader` | pangolin/pangolin.go:61-62 | `Header.Add`: the value is appended to the key's existing values, and every other key keeps its values |
| `Pangolin.Authorize` | pangolin/pangolin.go:60-64 | adds one "Bearer " + token value under Authorization and one "application/json" value under Content-Type, keeping every other header, the method, URL and body |
| `Pangolin.AuthorizedFreshRequest` | pangolin/pangolin.go:60-64 | a newly built request, once authorized, carries exactly those two headers and no others |
| `Pangolin.GetResources` | pangolin/pangolin.go:66-98 | sends a GET to the resources URL with exactly the two headers and no body; succeeds exactly on status 200 with a decoded envelope |
| `Pangolin.GetResourcesFailsBeforeBody` | pangolin/pangolin.go:73-80 | a transport error is returned unchanged; any status other than 200 yields "error status code: " and the status text, whatever the body |
| `Pangolin.GetResourcesOn200` | pangolin/pangolin.go:82-97 | on status 200 an unreadable or malformed body is an error; otherwise the envelope's data is returned and its error flag, message, success flag and status are never consulted |
| `Pangolin.CreateRule` | pangolin/pangolin.go:100-138 | sends a PUT to the rule URL with exactly the two headers and the rule's encoding as body; succeeds exactly when the body decodes to an envelope whose error flag is false (the failures are detailed by the three lemmas below) |
| `Pangolin.CreateRuleIgnoresStatus` | pangolin/pangolin.go:113-131 | the HTTP status code and status text never affect the result |
| `Pangolin.CreateRuleFailsBeforeEnvelope` | pangolin/pangolin.go:113-131 | a transport error, a body read error and a JSON parse error each come back unchanged |
| `Pangolin.CreateRuleOnEnvelope` | pangolin/pangolin.go:133-137 | an envelope with the error flag set fails with "error: " and its message; otherwise its data is returned, whatever the status |
| `Pangolin.OmitNilKeysAndValues` | pangolin/pangolin.go:26-34 | an omitempty encoding carries exactly the keys of the set fields, in field order, each with its field's value when the keys are distinct |
| `Pangolin.MarshalRule` | pangolin/pangolin.go:26-34 | `json.Marshal` of a rule: an object with one member per non-nil field, keyed by its `json` tag, in declaration order |
| `Pangolin.UnmarshalRule` | pangolin/pangolin.go:127-128 | `json.Unmarshal` into a rule: a top-level null gives the rule with every pointer nil; in an object every member under a field's key is decoded, so a value of the wrong kind or a number outside 64 bits for an `int` field is an error even when a later member repeats the key; otherwise a missing key or null leaves the pointer nil and the last member under a key gives the field its value |
| `Pangolin.UnmarshalRuleEdges` | pangolin/pangolin.go:127-128 | a JSON `null` decodes to the rule with every pointer nil and no error; an `int` field given a number outside 64 bits is an error; an `int` field whose key appears first with a string and then with a number is an error, not the number |
| `Pangolin.MarshalRuleKeys` | pangolin/pangolin.go:26-34 | a rule's encoding carries `ruleId`, `resourceId`, `enabled`, `priority`, `action`, `match`, `value`, in that order, each exactly when its pointer is non-nil, also for a pointer to false, 0 or "" |
| `Pangolin.MarshalRuleRoundTrip` | pangolin/pangolin.go:26-34 | decoding a rule's encoding gives the same rule, for int fields in the 64-bit range: nil pointers stay nil and set pointers keep their values |
| `Pangolin.MarshalResourceKeys` | pangolin/pangolin.go:19-24 | a resource's encoding always carries all four keys |
| `Pangolin.MarshalResource` | pangolin/pangolin.go:19-24 | `json.Marshal` of a resource: all four keys in declaration order, a nil pointer written as null |
| `Pangolin.RegisterRuleOmitsIdentifiers` | handlers.go:37-43 | the rule the register handler builds is sent with keys `enabled`, `priority`, `action`, `match`, `value` and without `ruleId` or `resourceId` |

## Left out

- Network and stream I/O are inputs, not code. This covers `http.Client.Do`, `io.ReadAll`, body closing and `ListenAndServe`. An upstream round trip is a transport error or a response (status code, status text, body). The body is unreadable, malformed or a decoded envelope. The 2-second client timeout and the 10-second `ReadHeaderTimeout` are not modelled.
- The serving goroutine, `errChan`, `signal.NotifyContext`, the `select` race and the draining inside `server.Shutdown` are concurrency and timers. Only the resulting outcome mapping is modelled, with the first event and Shutdown's error as inputs.
- `slog` formatting, latency from `time.Now`/`time.Since`, and `runtime.Stack` with its 1024-byte buffer are not modelled. So are the request fields in the log lines (method, path, query, address). A log entry records only what the core decides: the access entry's status and byte count, or the panic value.
- `http.Error`'s header changes (deleting Content-Length, setting Content-Type and X-Content-Type-Options) are not modelled. Header maps are passed through and not otherwise tracked on the response side.
- The `encode` and `decode` helpers (main.go:197-212) are not part of this model. Neither is handlers.go (template rendering and thin handlers), except for the rule its register handler builds.
- `Recorder.ResponseRecorder.Write` does not model 64-bit wrap-around of `numBytes`: the count is an unbounded integer.
- `Recorder.Sink` stands in for the underlying writer. Its answers to Write are fixed when it is built, and once they are used up it accepts every byte. What a real connection answers is outside the model.
- `Strconv.Atoi` and `Strconv.AtoiSyntaxError` report invalid syntax for a digit run too long for 64 bits that is followed by a non-digit. Go reports a range error in that case. `Strconv.Quote` does not escape special characters in the input it echoes.
- `Bytes.Utf8` maps a string of Unicode code points to bytes. A Go string can hold bytes that are not valid UTF-8 (a panic text built from raw bytes, say); the model cannot represent such a string.
- `GoErrors.IsError` follows single `Unwrap` chains only. It does not model custom `Is` methods or errors joined with `errors.Join`.
- A panic with a nil value is not modelled. Whether `recover()` sees it depends on the Go version.
- `Pangolin.UnmarshalRule` matches keys exactly. encoding/json also accepts keys that differ only in case. JSON numbers are integers only: a fraction or an exponent is not modelled. The rule's `int` fields are unbounded integers in the datatype; `Pangolin.MarshalRuleRoundTrip` requires them to lie in the 64-bit range that Go's `int` guarantees.
- `Pangolin.ResourcesURL` does not escape the organisation, and neither does the code. A '/', '?', '#' or '%' in it changes the path the upstream receives once `http.NewRequest` parses the URL. `Pangolin.ResourcesURLRoundTrip` is about the string, not the parsed URL.
- `http.NewRequest` can fail to parse a host that is not a valid URL. Neither client call models that error path. `json.Marshal` of a `PangolinRule` cannot fail and has no error path either.
- The String, Bool and Int helpers return a fresh pointer each time. Pointer identity and aliasing are not modelled: a pointer is the value it points to.
