/**
 * The proxy handler after its I/O: the client reply it writes, the captured
 * InspectrData record, and the sinks that record is handed to. The results of
 * reading the body, of the backend round trip and of the clock and library
 * calls are given as inputs.
 */
module Capture {

  import opened Wrappers
  import opened Events
  import StatusBand

  /** The handler's configuration, fixed at start-up. */
  datatype Config = Config(
    backendAddr: string,
    broadcastURL: string,
    enablePrint: bool,
    enableBroadcast: bool,
    appModeEnabled: bool)

  /** main's wiring of the command-line flags into the proxy handler. */
  function ConfigFromFlags(backend: string, broadcast: string, printLogs: bool, appMode: bool): (c: Config)
    ensures c.backendAddr == backend && c.broadcastURL == broadcast
    ensures c.enableBroadcast <==> broadcast != ""
    ensures c.enablePrint == printLogs && c.appModeEnabled == appMode
  {
    Config(backend, broadcast, printLogs, broadcast != "", appMode)
  }

  /**
   * The parts of an inbound request the record copies: url is the request
   * URL as text, path its path and query its decoded query parameters;
   * remoteAddr is the connection's remote address.
   */
  datatype IncomingRequest = IncomingRequest(
    httpMethod: string,
    url: string,
    path: string,
    query: Multimap,
    host: string,
    remoteAddr: string,
    headers: Multimap)

  /**
   * How forwarding to the backend went. When the backend answered: its status
   * code and that code's standard text, its headers, the body as the chunks
   * read from it before end of stream or a read error, and the index of the
   * chunk whose write to the client failed, if one did.
   */
  datatype Forwarding =
    | InvalidBackendAddress
    | RequestNotCreated
    | ForwardFailed
    | Answered(statusCode: int, statusText: string, headers: Multimap, chunks: seq<string>, clientFailsAt: Option<nat>)

  /**
   * The clock and address facts of one request: monotonic readings in
   * nanoseconds at the start and after the reply, their RFC 3339 renderings,
   * and the host part of the remote address when it splits into host and port.
   */
  datatype Env = Env(
    startNanos: int,
    endNanos: int,
    startStamp: string,
    respStamp: string,
    remoteHost: Option<string>)

  /** What the client is sent: a full reply, or an error written with its status and text. */
  datatype ClientReply =
    | Reply(status: int, headers: Multimap, body: string)
    | ErrorReply(status: int, message: string)

  datatype Sink = Console | RemotePost | LiveStream

  datatype Outcome = Outcome(client: ClientReply, record: Option<InspectrData>, sinks: set<Sink>)

  // ---------------------------------------------------------------------
  // Copying the backend's body to the client through the tee.
  // ---------------------------------------------------------------------

  function Concat(chunks: seq<string>): string
  {
    if chunks == [] then "" else chunks[0] + Concat(chunks[1..])
  }

  lemma {:induction false} ConcatSnoc(chunks: seq<string>, i: nat)
    requires i < |chunks|
    ensures Concat(chunks[..i + 1]) == Concat(chunks[..i]) + chunks[i]
    decreases i
  {
    if i == 0 {
      assert chunks[..1] == [chunks[0]];
      assert chunks[..1][1..] == [];
    } else {
      var tail := chunks[1..];
      assert chunks[..i + 1][1..] == tail[..i];
      assert chunks[..i][1..] == tail[..i - 1];
      ConcatSnoc(tail, i - 1);
    }
  }

  /**
   * What io.Copy from the tee leaves behind: the bytes the client received
   * and the bytes captured. The tee captures each chunk as it is read, before
   * the chunk is written to the client, so a failed client write leaves that
   * chunk captured but not received and ends the copy.
   */
  function Teed(chunks: seq<string>, failsAt: Option<nat>): (r: (string, string))
    ensures r.0 <= r.1
    ensures failsAt.None? ==> r.0 == r.1 == Concat(chunks)
    ensures failsAt.Some? && failsAt.value >= |chunks| ==> r.0 == r.1 == Concat(chunks)
    ensures failsAt.Some? && failsAt.value < |chunks| ==>
              r.0 == Concat(chunks[..failsAt.value]) && r.1 == r.0 + chunks[failsAt.value]
  {
    if failsAt.Some? && failsAt.value < |chunks| then
      ConcatSnoc(chunks, failsAt.value);
      (Concat(chunks[..failsAt.value]), Concat(chunks[..failsAt.value + 1]))
    else (Concat(chunks), Concat(chunks))
  }

  /** The copy loop: read a chunk through the tee into the buffer, then write it to the client. */
  method CopyThroughTee(chunks: seq<string>, failsAt: Option<nat>) returns (sent: string, captured: string)
    ensures (sent, captured) == Teed(chunks, failsAt)
  {
    sent, captured := "", "";
    var i := 0;
    while i < |chunks|
      invariant 0 <= i <= |chunks|
      invariant failsAt.Some? ==> i <= failsAt.value
      invariant sent == captured == Concat(chunks[..i])
    {
      ConcatSnoc(chunks, i);
      captured := captured + chunks[i];
      if failsAt == Some(i) {
        return;
      }
      sent := sent + chunks[i];
      i := i + 1;
    }
    assert chunks[..i] == chunks;
  }

  // ---------------------------------------------------------------------
  // Copying the backend's headers onto the client reply.
  // ---------------------------------------------------------------------

  /**
   * The headers the client ends up with when every value of src is added one
   * by one to an empty header: a key whose list of values is empty is never
   * added.
   */
  function AddedHeaders(src: Multimap): (m: Multimap)
    ensures m.Keys == set k | k in src && src[k] != []
    ensures forall k :: k in m ==> m[k] == src[k]
  {
    map k | k in src && src[k] != [] :: src[k]
  }

  /**
   * The nested loop over the backend's header map and each key's values,
   * adding every value. The keys come from a parsed response and are already
   * in canonical form, so Add's canonicalisation leaves them unchanged.
   */
  method CopyHeaders(src: Multimap) returns (dst: Multimap)
    ensures dst == AddedHeaders(src)
  {
    dst := map[];
    var keys := src.Keys;
    while keys != {}
      invariant keys <= src.Keys
      invariant dst == map k | k in src.Keys - keys && src[k] != [] :: src[k]
      decreases keys
    {
      var key :| key in keys;
      var values := src[key];
      ghost var before := dst;
      var j := 0;
      while j < |values|
        invariant 0 <= j <= |values|
        invariant key !in before
        invariant dst == if j == 0 then before else before[key := values[..j]]
      {
        var existing := if key in dst then dst[key] else [];
        assert existing == values[..j];
        dst := dst[key := existing + [values[j]]];
        assert values[..j] + [values[j]] == values[..j + 1];
        j := j + 1;
      }
      assert values[..j] == values;
      keys := keys - {key};
    }
  }

  // ---------------------------------------------------------------------
  // Latency, client address and the record.
  // ---------------------------------------------------------------------

  /** Duration.Milliseconds: whole milliseconds of a nanosecond duration, truncated toward zero. */
  function Milliseconds(nanos: int): (ms: int)
    ensures nanos >= 0 ==> 0 <= ms && ms * 1000000 <= nanos < (ms + 1) * 1000000
    ensures nanos < 0 ==> ms <= 0 && (ms - 1) * 1000000 < nanos <= ms * 1000000
  {
    if nanos >= 0 then nanos / 1000000 else -((-nanos) / 1000000)
  }

  /** A longer elapsed time never shows as a smaller latency. */
  lemma MillisecondsMonotonic(a: int, b: int)
    requires a <= b
    ensures Milliseconds(a) <= Milliseconds(b)
  {
  }

  /** The record's latency: the milliseconds elapsed between the two clock readings. */
  function Latency(env: Env): (ms: int)
    ensures env.startNanos <= env.endNanos ==>
              0 <= ms && ms * 1000000 <= env.endNanos - env.startNanos < (ms + 1) * 1000000
  {
    Milliseconds(env.endNanos - env.startNanos)
  }

  /** The client address: the host part when the remote address splits, otherwise the address itself. */
  function ClientIP(remoteAddr: string, remoteHost: Option<string>): (ip: string)
    ensures remoteHost.Some? ==> ip == remoteHost.value
    ensures remoteHost.None? ==> ip == remoteAddr
  {
    if remoteHost.Some? then remoteHost.value else remoteAddr
  }

  /** The record's server: the backend address when one is configured, otherwise the request's host. */
  function ServerOf(backendAddr: string, host: string): (server: string)
    ensures backendAddr != "" ==> server == backendAddr
    ensures backendAddr == "" ==> server == host
  {
    if backendAddr != "" then backendAddr else host
  }

  /** The InspectrData literal: the request as received, the response as given, and the derived metadata. */
  function BuildRecord(cfg: Config, req: IncomingRequest, body: string, resp: ResponseDetails, env: Env): (d: InspectrData)
    ensures d.httpMethod == req.httpMethod && d.url == req.url && d.path == req.path
    ensures d.request == RequestDetails(body, req.headers, req.query, env.startStamp)
    ensures d.response == resp
    ensures d.server == (if cfg.backendAddr != "" then cfg.backendAddr else req.host)
    ensures d.clientIP == (if env.remoteHost.Some? then env.remoteHost.value else req.remoteAddr)
    ensures env.startNanos <= env.endNanos ==> d.latency >= 0
  {
    InspectrData(
      req.httpMethod, req.url, ServerOf(cfg.backendAddr, req.host), req.path,
      ClientIP(req.remoteAddr, env.remoteHost), Latency(env),
      RequestDetails(body, req.headers, req.query, env.startStamp),
      resp)
  }

  /** The sinks a completed record goes to. */
  function SinksFor(cfg: Config): (s: set<Sink>)
    ensures Console in s <==> cfg.enablePrint
    ensures RemotePost in s <==> cfg.enableBroadcast && cfg.broadcastURL != ""
    ensures LiveStream in s <==> cfg.appModeEnabled
  {
    (if cfg.enablePrint then {Console} else {})
    + (if cfg.enableBroadcast && cfg.broadcastURL != "" then {RemotePost} else {})
    + (if cfg.appModeEnabled then {LiveStream} else {})
  }

  /** The headers of the fixed reply in capture-only mode. */
  const TextPlain: Multimap := map["Content-Type" := ["text/plain"]]

  /**
   * proxyHandler. body is the request body, or None when it could not be
   * read; fwd matters only when a backend is configured.
   */
  function HandleProxy(cfg: Config, req: IncomingRequest, body: Option<string>, fwd: Forwarding, env: Env): (o: Outcome)
    ensures o.record.None? <==> o.client.ErrorReply?
    ensures o.record.None? ==> o.sinks == {}
    ensures o.record.Some? ==> o.sinks == SinksFor(cfg)
    ensures body.None? ==> o.client == ErrorReply(500, "Failed to read request body")
    ensures body.Some? && cfg.backendAddr == "" ==> o.client == Reply(200, TextPlain, "OK")
    ensures body.Some? && cfg.backendAddr != "" && fwd.Answered? ==> o.client.Reply? && o.client.status == fwd.statusCode
    ensures o.record.Some? ==> body.Some? && o.record.value.request.payload == body.value
    ensures o.record.Some? ==> o.client.Reply? && o.client.body <= o.record.value.response.payload
    ensures o.record.Some? ==> o.record.value.response.statusCode == o.client.status
  {
    if body.None? then Outcome(ErrorReply(500, "Failed to read request body"), None, {})
    else if cfg.backendAddr == "" then
      var resp := ResponseDetails("OK", TextPlain, 200, "OK", env.respStamp);
      Outcome(Reply(200, TextPlain, "OK"), Some(BuildRecord(cfg, req, body.value, resp, env)), SinksFor(cfg))
    else
      match fwd
      case InvalidBackendAddress => Outcome(ErrorReply(500, "Invalid backend address"), None, {})
      case RequestNotCreated => Outcome(ErrorReply(500, "Failed to create backend request"), None, {})
      case ForwardFailed => Outcome(ErrorReply(502, "Failed to forward request"), None, {})
      case Answered(code, text, headers, chunks, failsAt) =>
        Forwarded(cfg, req, body.value, code, text, headers, chunks, failsAt, env)
  }

  /**
   * The forwarding branch once the backend answered: headers and status to
   * the client, the body through the tee, and the record from what was
   * captured.
   */
  function Forwarded(cfg: Config, req: IncomingRequest, body: string,
                     code: int, text: string, headers: Multimap,
                     chunks: seq<string>, failsAt: Option<nat>, env: Env): (o: Outcome)
    ensures o.client.Reply? && o.client.status == code && o.client.headers == AddedHeaders(headers)
    ensures o.record.Some? && o.record.value.request.payload == body
    ensures o.record.value.response == ResponseDetails(Teed(chunks, failsAt).1, headers, code, text, env.respStamp)
    ensures o.client.body == Teed(chunks, failsAt).0
    ensures o.sinks == SinksFor(cfg)
  {
    var teed := Teed(chunks, failsAt);
    var resp := ResponseDetails(teed.1, headers, code, text, env.respStamp);
    Outcome(Reply(code, AddedHeaders(headers), teed.0), Some(BuildRecord(cfg, req, body, resp, env)), SinksFor(cfg))
  }

  /**
   * Capture-only mode: whatever the method, path, body or clock, the client
   * gets 200 "OK" as text/plain and the record's response says exactly that.
   */
  lemma CaptureOnlyFixedResponse(cfg: Config, req: IncomingRequest, body: string, fwd: Forwarding, env: Env)
    requires cfg.backendAddr == ""
    ensures var o := HandleProxy(cfg, req, Some(body), fwd, env);
            && o.client == Reply(200, TextPlain, "OK")
            && o.record.Some?
            && o.record.value.response == ResponseDetails("OK", TextPlain, 200, "OK", env.respStamp)
            && o.record.value.server == req.host
  {
  }

  /** The backend's error path: each failure is reported to the client and nothing is captured. */
  lemma BackendFailuresCaptureNothing(cfg: Config, req: IncomingRequest, body: string, fwd: Forwarding, env: Env)
    requires cfg.backendAddr != "" && !fwd.Answered?
    ensures var o := HandleProxy(cfg, req, Some(body), fwd, env);
            && o.record.None? && o.sinks == {}
            && o.client == match fwd
                           case InvalidBackendAddress => ErrorReply(500, "Invalid backend address")
                           case RequestNotCreated => ErrorReply(500, "Failed to create backend request")
                           case ForwardFailed => ErrorReply(502, "Failed to forward request")
  {
  }

  /**
   * Forwarding mode: the client gets the backend's status and non-empty
   * headers, and the record keeps the backend's status, its text and all of
   * its headers.
   */
  lemma ForwardedStatusAndHeaders(cfg: Config, req: IncomingRequest, body: string,
                                  code: int, text: string, headers: Multimap,
                                  chunks: seq<string>, failsAt: Option<nat>, env: Env)
    requires cfg.backendAddr != ""
    ensures var o := HandleProxy(cfg, req, Some(body), Answered(code, text, headers, chunks, failsAt), env);
            && o.client.Reply? && o.record.Some?
            && o.client.status == code && o.client.headers == AddedHeaders(headers)
            && o.record.value.response.statusCode == code
            && o.record.value.response.statusMessage == text
            && o.record.value.response.headers == headers
            && o.record.value.server == cfg.backendAddr
  {
  }

  /**
   * Forwarding mode: the record captured exactly the body the client
   * received, plus the one chunk whose client write failed, if one did.
   */
  lemma ForwardedBodyCaptured(cfg: Config, req: IncomingRequest, body: string,
                              code: int, text: string, headers: Multimap,
                              chunks: seq<string>, failsAt: Option<nat>, env: Env)
    requires cfg.backendAddr != ""
    ensures var o := HandleProxy(cfg, req, Some(body), Answered(code, text, headers, chunks, failsAt), env);
            && o.client.Reply? && o.record.Some?
            && (failsAt.None? ==> o.client.body == o.record.value.response.payload == Concat(chunks))
            && (failsAt.Some? && failsAt.value < |chunks| ==>
                  && o.client.body == Concat(chunks[..failsAt.value])
                  && o.record.value.response.payload == o.client.body + chunks[failsAt.value])
  {
    var o := HandleProxy(cfg, req, Some(body), Answered(code, text, headers, chunks, failsAt), env);
    assert o == Forwarded(cfg, req, body, code, text, headers, chunks, failsAt, env);
  }

  /**
   * The record's request side and metadata: method, URL, path, headers and
   * query copied from the request, the body as read, the client address
   * falling back to the raw remote address, and a latency that is never
   * negative on a monotonic clock.
   */
  lemma RecordOfRequest(cfg: Config, req: IncomingRequest, body: string, fwd: Forwarding, env: Env)
    ensures var o := HandleProxy(cfg, req, Some(body), fwd, env);
            o.record.Some? ==>
              var d := o.record.value;
              && d.httpMethod == req.httpMethod && d.url == req.url && d.path == req.path
              && d.request == RequestDetails(body, req.headers, req.query, env.startStamp)
              && d.server == (if cfg.backendAddr != "" then cfg.backendAddr else req.host)
              && (env.remoteHost.Some? ==> d.clientIP == env.remoteHost.value)
              && (env.remoteHost.None? ==> d.clientIP == req.remoteAddr)
              && (env.startNanos <= env.endNanos ==> d.latency >= 0)
  {
  }

  /** With main's flags, the remote sink fires exactly when a broadcast URL was given. */
  lemma FlagsSelectSinks(backend: string, broadcast: string, printLogs: bool, appMode: bool)
    ensures var s := SinksFor(ConfigFromFlags(backend, broadcast, printLogs, appMode));
            && (RemotePost in s <==> broadcast != "")
            && (Console in s <==> printLogs)
            && (LiveStream in s <==> appMode)
  {
  }

  /** The colour printLog puts on a record's status. */
  function ConsoleColour(d: InspectrData): (c: string)
    ensures c == StatusBand.Colour(StatusBand.BandOf(d.response.statusCode))
  {
    StatusBand.GetBgColor(d.response.statusCode)
  }

  /** In capture-only mode the console always shows a success (green) status. */
  lemma CaptureOnlyPrintsGreen(cfg: Config, req: IncomingRequest, body: string, fwd: Forwarding, env: Env)
    requires cfg.backendAddr == "" && cfg.enablePrint
    ensures var o := HandleProxy(cfg, req, Some(body), fwd, env);
            Console in o.sinks && ConsoleColour(o.record.value) == StatusBand.Green
  {
  }
}
