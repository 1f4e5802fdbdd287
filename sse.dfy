/**
 * The server-sent-events side of the app server: the frames the stream
 * handler writes, the client's interpretation of those bytes (the
 * event-stream format of section 9.2 of the WHATWG HTML Living Standard,
 * restricted to what this server emits), the dispatch of /api/sse by method,
 * the stream handshake and the reply of the broadcast-injection endpoint.
 */
module Sse {

  import opened Wrappers
  import opened Events

  /** The comment frame written as soon as a stream opens. */
  const Connected: string := ": connected\n\n"

  /** The frame carrying one message. */
  function Frame(msg: string): (f: string)
    ensures |f| == |msg| + 8
    ensures f[..6] == "data: " && f[6..|f| - 2] == msg && f[|f| - 2..] == "\n\n"
  {
    "data: " + msg + "\n\n"
  }

  function Frames(msgs: seq<string>): string
  {
    if msgs == [] then "" else Frame(msgs[0]) + Frames(msgs[1..])
  }

  /** Everything a subscriber's connection carries after it was handed msgs, in order. */
  function Stream(msgs: seq<string>): string
  {
    Connected + Frames(msgs)
  }

  lemma {:induction false} FramesAppend(msgs: seq<string>, m: string)
    ensures Frames(msgs + [m]) == Frames(msgs) + Frame(m)
    decreases |msgs|
  {
    if msgs == [] {
      assert [m][1..] == [];
    } else {
      assert (msgs + [m])[1..] == msgs[1..] + [m];
      FramesAppend(msgs[1..], m);
    }
  }

  /**
   * The connection starts with the connect comment, and each message handed
   * to the subscriber adds exactly its frame at the end.
   */
  lemma StreamGrowsByFrame(msgs: seq<string>, m: string)
    ensures Stream([]) == Connected
    ensures Stream(msgs + [m]) == Stream(msgs) + Frame(m)
  {
    FramesAppend(msgs, m);
  }

  /** No line terminator of the event-stream format (LF or CR) occurs in s. */
  predicate NoLineBreak(s: string)
  {
    forall i :: 0 <= i < |s| ==> s[i] != '\n' && s[i] != '\r'
  }

  // ---------------------------------------------------------------------
  // The client's side: interpreting an event stream.
  // ---------------------------------------------------------------------

  /**
   * The complete lines of s, the line being read starting with cur. A line
   * ends at LF, at CR, or at CR LF; text after the last terminator is not a
   * complete line and is dropped, as the format discards an unfinished
   * event at the end of the stream.
   */
  function Lines(s: string, cur: string): seq<string>
    decreases |s|
  {
    if s == [] then []
    else if s[0] == '\n' then [cur] + Lines(s[1..], "")
    else if s[0] == '\r' then
      if |s| > 1 && s[1] == '\n' then [cur] + Lines(s[2..], "") else [cur] + Lines(s[1..], "")
    else Lines(s[1..], cur + [s[0]])
  }

  /** The position of the first colon in line, or |line| when there is none. */
  function FirstColon(line: string): (i: nat)
    ensures i <= |line|
    ensures i < |line| ==> line[i] == ':'
    ensures forall j :: 0 <= j < i ==> line[j] != ':'
  {
    if line == [] then 0
    else if line[0] == ':' then 0
    else 1 + FirstColon(line[1..])
  }

  datatype Field = Field(name: string, value: string)

  /**
   * A field line: the name is what precedes the first colon and the value
   * what follows it, less one leading space; a line without a colon is a
   * field name with an empty value.
   */
  function ParseField(line: string): (f: Field)
    ensures |f.name| <= |line|
  {
    var i := FirstColon(line);
    if i == |line| then Field(line, "")
    else
      var v := line[i + 1..];
      Field(line[..i], if |v| > 0 && v[0] == ' ' then v[1..] else v)
  }

  /** The data buffer without its final LF, as it is handed to the listener. */
  function DropFinalLf(buffer: string): string
  {
    if |buffer| > 0 && buffer[|buffer| - 1] == '\n' then buffer[..|buffer| - 1] else buffer
  }

  /**
   * The data of the events dispatched while reading lines, with buffer the
   * data buffer so far. A blank line dispatches a non-empty buffer; a line
   * starting with a colon is a comment; a "data" field appends its value
   * and an LF; other fields do not touch the data buffer.
   */
  function Dispatched(lines: seq<string>, buffer: string): seq<string>
    decreases |lines|
  {
    if lines == [] then []
    else
      var line := lines[0];
      if line == "" then
        (if buffer == "" then [] else [DropFinalLf(buffer)]) + Dispatched(lines[1..], "")
      else if line[0] == ':' then Dispatched(lines[1..], buffer)
      else
        var f := ParseField(line);
        Dispatched(lines[1..], if f.name == "data" then buffer + f.value + "\n" else buffer)
  }

  /** The message data a client reads from the bytes of a stream. */
  function Received(stream: string): seq<string>
  {
    Dispatched(Lines(stream, ""), "")
  }

  /** The lines of one frame per message, each message line followed by a blank line. */
  function FrameLines(msgs: seq<string>): seq<string>
  {
    if msgs == [] then [] else ["data: " + msgs[0], ""] + FrameLines(msgs[1..])
  }

  lemma {:induction false} LinesOfLine(text: string, rest: string, cur: string)
    requires NoLineBreak(text)
    ensures Lines(text + "\n" + rest, cur) == [cur + text] + Lines(rest, "")
    decreases |text|
  {
    var s := text + "\n" + rest;
    if text == [] {
      assert s == "\n" + rest;
      assert s[1..] == rest;
      assert cur + text == cur;
    } else {
      assert s[0] == text[0];
      assert s[1..] == text[1..] + "\n" + rest;
      LinesOfLine(text[1..], rest, cur + [text[0]]);
      assert cur + [text[0]] + text[1..] == cur + text;
    }
  }

  lemma {:induction false} LinesOfFrames(msgs: seq<string>)
    requires forall k :: 0 <= k < |msgs| ==> NoLineBreak(msgs[k])
    ensures Lines(Frames(msgs), "") == FrameLines(msgs)
    decreases |msgs|
  {
    if msgs != [] {
      var m := msgs[0];
      var tail := Frames(msgs[1..]);
      assert NoLineBreak("data: " + m) by {
        assert forall i :: 0 <= i < |"data: " + m| && i >= 6 ==> ("data: " + m)[i] == m[i - 6];
      }
      assert Frames(msgs) == ("data: " + m) + "\n" + ("\n" + tail);
      LinesOfLine("data: " + m, "\n" + tail, "");
      assert "" + "\n" + tail == "\n" + tail;
      LinesOfLine("", tail, "");
      LinesOfFrames(msgs[1..]);
      assert "" + ("data: " + m) == "data: " + m;
    }
  }

  /** A message line of a frame parses as the data field carrying exactly the message. */
  lemma DataLine(m: string)
    ensures ParseField("data: " + m) == Field("data", m)
  {
    var line := "data: " + m;
    var i := FirstColon(line);
    assert line[4] == ':';
    assert forall j :: 0 <= j < 4 ==> line[j] != ':';
    assert i == 4;
    assert line[..4] == "data";
    assert line[5..] == " " + m;
  }

  lemma {:induction false} DispatchedFrameLines(msgs: seq<string>)
    ensures Dispatched(FrameLines(msgs), "") == msgs
    decreases |msgs|
  {
    if msgs != [] {
      var m := msgs[0];
      var lines := FrameLines(msgs);
      assert lines[0] == "data: " + m && lines[1..] == [""] + FrameLines(msgs[1..]);
      DataLine(m);
      assert ("" + m + "\n") != "";
      assert DropFinalLf("" + m + "\n") == m;
      assert ([""] + FrameLines(msgs[1..]))[1..] == FrameLines(msgs[1..]);
      DispatchedFrameLines(msgs[1..]);
    }
  }

  /**
   * Round trip of the stream handler: a client reading the bytes written on a
   * connection receives exactly the messages handed to it, in order, provided
   * no message contains a line break (json.Marshal's compact output has none).
   */
  lemma StreamRoundTrip(msgs: seq<string>)
    requires forall k :: 0 <= k < |msgs| ==> NoLineBreak(msgs[k])
    ensures Received(Stream(msgs)) == msgs
  {
    var frames := Frames(msgs);
    assert Stream(msgs) == ": connected" + "\n" + ("\n" + frames);
    assert NoLineBreak(": connected");
    LinesOfLine(": connected", "\n" + frames, "");
    assert "" + "\n" + frames == "\n" + frames;
    LinesOfLine("", frames, "");
    assert "" + "" == "";
    LinesOfFrames(msgs);
    assert "" + ": connected" == ": connected";
    var lines := [": connected"] + ([""] + FrameLines(msgs));
    assert Lines(Stream(msgs), "") == lines;
    assert lines[1..] == [""] + FrameLines(msgs);
    assert ([""] + FrameLines(msgs))[1..] == FrameLines(msgs);
    DispatchedFrameLines(msgs);
    assert lines[0] == ": connected" && lines[0][0] == ':';
    assert Dispatched(lines, "") == Dispatched(lines[1..], "");
    assert Dispatched(lines[1..], "") == [] + Dispatched(FrameLines(msgs), "");
  }

  // ---------------------------------------------------------------------
  // The /api/sse endpoint.
  // ---------------------------------------------------------------------

  /** An HTTP reply written by a handler, reduced to its status and its body or error text. */
  datatype Reply = Reply(status: int, body: string)

  datatype Route = OpenStream | InjectBroadcast | Rejected(reply: Reply)

  /** The /api/sse handler's dispatch on the request method (compared exactly, case included). */
  function RouteOf(httpMethod: string): (r: Route)
    ensures r == OpenStream <==> httpMethod == "GET"
    ensures r == InjectBroadcast <==> httpMethod == "POST"
    ensures r.Rejected? <==> httpMethod != "GET" && httpMethod != "POST"
    ensures r.Rejected? ==> r.reply == Reply(405, "Method Not Allowed")
  {
    if httpMethod == "GET" then OpenStream
    else if httpMethod == "POST" then InjectBroadcast
    else Rejected(Reply(405, "Method Not Allowed"))
  }

  /** The response headers of an open stream. */
  const StreamHeaders: Multimap :=
    map["Content-Type" := ["text/event-stream"], "Cache-Control" := ["no-cache"], "Connection" := ["keep-alive"]]

  datatype Handshake = StreamingUnsupported(reply: Reply) | Opened(headers: Multimap, prelude: string)

  /**
   * The start of the stream handler: a writer that cannot flush is refused with
   * 500 before anything else happens; otherwise the stream headers are set and
   * the connect comment is written.
   */
  function OpenHandshake(canFlush: bool): (h: Handshake)
    ensures h.Opened? <==> canFlush
    ensures h.StreamingUnsupported? ==> h.reply == Reply(500, "Streaming unsupported")
    ensures h.Opened? ==> h.prelude == Stream([]) && h.prelude == ": connected\n\n"
    ensures h.Opened? ==> h.headers == map["Content-Type" := ["text/event-stream"], "Cache-Control" := ["no-cache"], "Connection" := ["keep-alive"]]
  {
    if canFlush then Opened(StreamHeaders, Connected)
    else StreamingUnsupported(Reply(500, "Streaming unsupported"))
  }

  /**
   * The outcome of decoding a POST body as JSON and encoding it again: the
   * body is not JSON, the re-encoding failed, or the compact re-encoded text.
   */
  datatype Reencoding = InvalidJson | MarshalFailed | Reencoded(text: string)

  /** The reply of the broadcast-injection handler, and the message it fans out, if any. */
  function PostReply(body: Reencoding): (r: (Reply, Option<string>))
    ensures r.1.Some? <==> body.Reencoded?
    ensures body.Reencoded? ==> r.1.value == body.text && r.0 == Reply(200, "Broadcast sent")
    ensures body.InvalidJson? ==> r.0 == Reply(400, "Invalid JSON")
    ensures body.MarshalFailed? ==> r.0 == Reply(500, "Error processing message")
  {
    match body
    case InvalidJson => (Reply(400, "Invalid JSON"), None)
    case MarshalFailed => (Reply(500, "Error processing message"), None)
    case Reencoded(text) => (Reply(200, "Broadcast sent"), Some(text))
  }
}
