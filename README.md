# inspectr-proxy: a Dafny model of the capture-and-fan-out core

inspectr-proxy is an HTTP intercepting proxy. It reads each inbound request.
It then forwards the request to a backend, or, when no backend is configured,
answers `200 OK` itself. It captures the request/response pair as an
`InspectrData` record and hands that record to up to three sinks: a console
line, a remote HTTP POST, and the live server-sent-events (SSE) subscribers
of its app server.

This project models the deterministic part of that pipeline:

- `events.dfy` (module `Events`): the record types and the CloudEvents 1.0 envelope built by `wrapInCloudEvent`.
- `status_band.dfy` (module `StatusBand`): `getBgColor`, the console colour per status class of section 15 of RFC 9110.
  It is proved equal to a reference definition by the first digit of the code.
- `sse.dfy` (module `Sse`): the SSE framing, the handshake, the `/api/sse` dispatch by method and the reply of the POST handler.
  It also holds a client-side interpretation of the event-stream format (section 9.2 of the WHATWG HTML Living Standard).
  A round-trip theorem proves that a client reads back exactly the messages written.
- `registry.dfy` (module `Registry`): the `sseClients` registry as the class `SubscriberRegistry`, with register, deregister and the non-blocking fan-out `broadcastSSERaw`.
  Each is proved against functions on an abstract state.
  A lemma proves that the fan-out's result does not depend on the order in which Go ranges over the map.
- `capture.dfy` (module `Capture`): `proxyHandler` after its I/O, as the pure function `HandleProxy`.
  It gives the client reply, the captured record and the set of sinks that fire.
  The tee copy and the header-copy loop are methods proved against functions.
- `wrappers.dfy`: `Option`.

Each subscriber's channel is unbuffered (`make(chan string)`), so a
non-blocking send succeeds only while the subscriber's goroutine is parked in
its `select`. The model keeps a set `ready` of such subscribers. A new
registration is not ready until it reaches its `select` (`Await`). A
successful send hands the message over and clears `ready` for that subscriber
while it writes the frame. For each id the registry records the messages
handed over so far. The bytes written on that connection are then
`Sse.Stream(log)`: the connect comment followed by one frame per message.

Every registry operation runs under `sseClientsMu`, so it is modelled as one
sequential step.

Inputs that come from I/O, the clock, randomness or library code are
parameters:

- whether the body could be read, and how forwarding went;
- the monotonic clock readings and their RFC 3339 renderings;
- the envelope and subscriber ids from `uuid.New`;
- the result of `net.SplitHostPort`;
- `http.StatusText` of the backend's code;
- the JSON encoder.

Notes on what the code does:

- The channel is unbuffered (`make(chan string)`), so a send is dropped whenever the subscriber is not parked in its `select`, even with nothing queued.
- No record is emitted for an unparsable backend address, for a request that cannot be built, or for a failed round trip.
- Codes below 200 get no console colour (`""`).
- The tee captures each chunk as it is read, before `io.Copy` writes it to the client. When a client write fails, the captured payload is longer than what the client received by exactly that chunk.

## Model

| member | source | states |
|---|---|---|
| `Events.WrapInCloudEvent` | inspectr.go:69-80 | The envelope always carries specversion "1.0", type "com.inspectr.http", source "/inspectr-proxy" and datacontenttype "application/json". Its data is the input record unchanged, and it carries the given id and time. With a non-empty id, all four attributes that CloudEvents 1.0 requires are non-empty. |
| `Events.EnvelopeDeterminedByInputs` | inspectr.go:70-80 | Two envelopes are equal iff they wrap the same record with the same id and time. So a fresh id gives a fresh envelope, and the record is recoverable from its envelope. |
| `StatusBand.GetBgColor` | inspectr.go:109-122 | The colour chosen by the source's comparisons equals the colour of the reference RFC 9110 class of the code (first digit 2, 3 or 4; 5 and above; below 200 none). |
| `StatusBand.BgColorRanges` | inspectr.go:109-122 | Green iff 200..299, blue iff 300..399, yellow iff 400..499, red iff at least 500, and "" iff below 200. The bands are disjoint and cover every int. |
| `StatusBand.ColourDistinguishesBands` | inspectr.go:111-120 | Distinct bands get distinct colours. |
| `Sse.StreamRoundTrip` | inspectr.go:156-172 | A client interpreting ": connected\n\n" followed by one "data: " + msg + "\n\n" frame per message reads back exactly those messages, in order, when no message contains CR or LF. |
| `Sse.Frame` | inspectr.go:172 | A frame is "data: ", then the message unchanged, then "\n\n"; it is 8 characters longer than the message. |
| `Sse.StreamGrowsByFrame` | inspectr.go:156-173 | A connection starts with exactly the connect comment, and each message handed over appends exactly its frame. |
| `Sse.RouteOf` | inspectr.go:383-391 | GET (exactly) opens a stream, and POST (exactly) injects a broadcast. Every other method is rejected with 405 "Method Not Allowed". Each holds in both directions. |
| `Sse.OpenHandshake` | inspectr.go:145-157 | A writer that cannot flush gets 500 "Streaming unsupported". Otherwise the stream opens with exactly the headers Content-Type text/event-stream, Cache-Control no-cache and Connection keep-alive, and with the connect comment ": connected\n\n", which is the empty stream. |
| `Sse.PostReply` | inspectr.go:185-199 | Invalid JSON gives 400 and a failed re-encoding gives 500; in both cases nothing is broadcast. Otherwise the reply is 200 "Broadcast sent" and exactly the re-encoded text is fanned out. |
| `Registry.Registered` | inspectr.go:159-164 | Registering a fresh id adds exactly that id, with an empty log. Every other entry is untouched, and the new subscriber is not yet waiting. |
| `Registry.Awaiting` | inspectr.go:168-171 | Reaching the select marks the subscriber as ready to receive and changes nothing else. |
| `Registry.Deregistered` | inspectr.go:174-177 | Deregistering removes exactly that id and leaves the others untouched, logs and readiness alike. On a consistent state it is a no-op when the id is absent. |
| `Registry.Broadcast` | inspectr.go:202-212 | The registered ids are unchanged. Every ready subscriber gets exactly msg appended to its log. Every other subscriber is left unchanged, with no error. |
| `Registry.TrySend` | inspectr.go:206-210 | A send to a waiting subscriber appends msg to its log and clears its readiness. A send to anyone else changes nothing. Other entries are untouched and the ids stay the same. |
| `Registry.FanOut` | inspectr.go:205-211 | Sending to the entries one after the other keeps the registered ids, only ever appends to logs, and keeps the state consistent. |
| `Registry.AnyOrderBroadcasts` | inspectr.go:205-211 | Sending to the entries one by one, in any order that lists each id once, ends in the state Broadcast gives. |
| `Registry.RegisterThenDeregister` | inspectr.go:160-177 | After register(id), optionally waiting, then deregister(id), a broadcast delivers nothing to id and gives every other subscriber the same outcome as without that connection. |
| `Registry.SubscriberRegistry.Register` | inspectr.go:162-164 | The registry's new state is Registered of the old one. |
| `Registry.SubscriberRegistry.Await` | inspectr.go:169-171 | The registry's new state is Awaiting of the old one. |
| `Registry.SubscriberRegistry.Deregister` | inspectr.go:175-177 | The registry's new state is Deregistered of the old one. |
| `Registry.SubscriberRegistry.Connect` | inspectr.go:145-164 | The handshake comes first. The id is registered only when the writer can flush, and the connection then carries exactly the connect comment. |
| `Registry.SubscriberRegistry.BroadcastRaw` | inspectr.go:202-212 | The range loop with non-blocking sends leaves the registry in exactly the state Broadcast gives, and keeps it consistent. |
| `Registry.SubscriberRegistry.BroadcastRecord` | inspectr.go:215-223 | The record is wrapped in an envelope. Its encoding is fanned out when encoding succeeds, and nothing changes when it fails. |
| `Registry.SubscriberRegistry.HandlePost` | inspectr.go:185-199 | The reply is PostReply's. The registry is broadcast to exactly when the body re-encoded, and otherwise unchanged. |
| `Capture.ConfigFromFlags` | inspectr.go:370-371 | The remote sink is enabled iff a broadcast URL was given. Printing and app mode come straight from their flags. |
| `Capture.FlagsSelectSinks` | inspectr.go:370-371 | With main's wiring, the POST sink fires iff the broadcast URL is non-empty. The console fires iff print is on, and the SSE sink iff app mode is on. |
| `Capture.Teed` | inspectr.go:286-289 | The bytes the client received are a prefix of the bytes captured. Both equal the whole body when no client write fails. When the write of chunk k fails, the client received exactly the first k chunks and the capture is those followed by chunk k. |
| `Capture.CopyThroughTee` | inspectr.go:286-289 | The read-capture-write loop yields exactly Teed's pair. A failed client write leaves the chunk just read captured but not received. |
| `Capture.AddedHeaders` | inspectr.go:276-280 | The client's keys are exactly the backend keys with at least one value, each with all its values in order. A key with no values never reaches the client. |
| `Capture.CopyHeaders` | inspectr.go:276-280 | The nested loop of Header.Add calls produces exactly AddedHeaders of the backend's headers. |
| `Capture.Milliseconds` | inspectr.go:304 | The latency is the whole milliseconds of the elapsed nanoseconds, truncated toward zero. It is non-negative for non-negative durations, and never positive for negative ones. |
| `Capture.MillisecondsMonotonic` | inspectr.go:304 | A longer elapsed time never gives a smaller latency. |
| `Capture.Latency` | inspectr.go:304 | On a clock that did not go back, the latency is the non-negative whole number of milliseconds elapsed, rounded down. |
| `Capture.ClientIP` | inspectr.go:307-310 | The host part when the remote address splits into host and port, otherwise the raw remote address. |
| `Capture.ServerOf` | inspectr.go:316-321 | The backend address when one is configured, otherwise the request's host. |
| `Capture.BuildRecord` | inspectr.go:313-338 | The record copies method, URL and path, and its request part is the body read with the request's headers, query and start time. Its response part is the given one. The server and client IP follow the fallbacks above, and the latency is non-negative on a monotonic clock. |
| `Capture.ConsoleColour` | inspectr.go:126 | The console colour of a record is the colour of its response status's band. |
| `Capture.SinksFor` | inspectr.go:341-353 | The console line iff enablePrint. The POST sink iff enableBroadcast and the broadcast URL is non-empty. The SSE sink iff appModeEnabled. |
| `Capture.HandleProxy` | inspectr.go:229-355 | A record is produced iff the client gets a full reply, and only then do the sinks fire. An unreadable body gives 500 and no record. Capture-only mode always replies 200 "OK" as text/plain. The record's request payload is the body read. The client's body is a prefix of the captured payload, and the client status equals the recorded one. |
| `Capture.CaptureOnlyFixedResponse` | inspectr.go:292-301 | With no backend, whatever the method, path, body or clock, the client gets 200 "OK" with Content-Type text/plain. The record's response is status 200, payload "OK", status message "OK", those headers, and the server is the request's host. |
| `Capture.BackendFailuresCaptureNothing` | inspectr.go:249-272 | An unparsable backend address gives 500, a request that cannot be built gives 500, and a failed round trip gives 502. In each case no record is produced and no sink fires. |
| `Capture.ForwardedStatusAndHeaders` | inspectr.go:275-290 | The client gets the backend's status and its non-empty headers. The record keeps the backend's status code, status text and full header map, and the server is the backend address. |
| `Capture.Forwarded` | inspectr.go:275-291 | Once the backend answered, the client gets the backend status and the copied headers, and its body is the client half of the tee. The record carries the request body read, the captured half of the tee, the backend headers, status and status text. The sinks are those the flags select. |
| `Capture.ForwardedBodyCaptured` | inspectr.go:285-289 | Without a failed client write, the client's body equals the captured payload, which is the whole backend body. If the client write of chunk k fails, the client's body is the first k chunks and the payload is the client's body followed by chunk k. |
| `Capture.RecordOfRequest` | inspectr.go:304-338 | The record copies method, URL, path, headers and query. Its request payload is the body read. The server is the backend address or else the request's host. The client IP is the split host or else the raw remote address. The latency is non-negative when the clock did not go back. |
| `Capture.CaptureOnlyPrintsGreen` | inspectr.go:125-126 | In capture-only mode with printing on, the console fires and shows the status in green. |

## Left out

- The remote POST sink (`broadcast`) and forwarding to the backend (`url.Parse`, `ResolveReference`, `http.NewRequest`, `http.DefaultClient.Do`): these are network I/O. Their outcomes are inputs (`Capture.Forwarding`), and the remote sink appears only as the fact that it fires.
- Goroutines, `sseClientsMu` and the scheduling of the stream handler's wait loop: each registry operation is one atomic step. `Await` and the ready set stand for the goroutine being parked in `select`; when it gets there is not modelled.
- Cancellation: the request context being done is not modelled as an event. It appears only as the call to `Deregister`.
- `uuid.New`, `time.Now`, `time.Since` and RFC 3339 formatting: they are nondeterministic, so ids, clock readings and timestamps are parameters.
- `json.Marshal`, `json.Decoder`, `net.SplitHostPort`, `http.StatusText`, `r.URL.String`, `r.URL.Query`: library internals, taken as given values (an encoder function, `Sse.Reencoding`, `Option` results, strings and multimaps).
- Header key canonicalisation in `Header.Add` is not modelled. The keys come from a parsed response and are already canonical.
- `http.Error`: only its status and text are modelled (`ErrorReply`). Its trailing newline and its headers are not.
- Log output on the covered paths is not modelled: the "channel full, skipping message" line for a dropped send (inspectr.go:209) and the marshal-error line in `broadcastSSE` (inspectr.go:219). Dropped sends and failed encodings leave the state unchanged with no error, as modelled.
- `printLog`'s formatting and output: only the colour choice (`ConsoleColour`, via `GetBgColor`) is modelled.
- `main`'s flag defaults, the embedded static file server and `ListenAndServe`: start-up code.
- Capture.Milliseconds: uses unbounded integers, not Go's 64-bit `Duration`. Its overflow after about 292 years of elapsed time is not modelled.
- `WriteHeader`'s panic on a status code outside 100..999 is not modelled. A parsed backend response always has a three-digit code.
- Sse.StreamRoundTrip: the client side covers line splitting at LF, CR and CR LF, comments, and the `data` field. The `event`, `id` and `retry` fields are parsed as fields and ignored, because this server never writes them. The byte-order mark and the reconnection logic are not modelled.
- Capture.CopyThroughTee: a client write is all or nothing per chunk. A short write that delivers part of a chunk is not modelled.
