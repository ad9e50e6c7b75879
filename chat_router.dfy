/**
 * The chat HTTP endpoints: `/v1/chat/completions` returns a completion as it is or wraps
 * a stream of chunks as a server-sent event stream (section 9.2 of the WHATWG HTML Living
 * Standard), and `/v1/chunks/retrieve` hands the request to the chat service.
 *
 * Each chunk becomes one `data:` event; one final `data: [DONE]` event closes the
 * stream. The partner of the framing is an event-stream decoder written after the
 * standard's parsing rules (section 9.2.6), and the round-trip lemma says that decoding
 * the body gives back the chunks' JSON texts and the terminator, in order.
 */
module ChatRouter {
  import opened Wrappers
  import opened Json
  import opened Schemas
  import ChatService
  import Config

  // ===== Chunk serialisation =====

  /** One entry of a chunk's `choices` list: `index`, `delta` (`{"content": …}` or `{}`)
      and `finish_reason` (null until the last chunk). */
  function ChoiceValue(c: StreamChoice): Value {
    Dict([Member("index", Int(c.index)),
          Member("delta", if c.delta.content.Some? then Dict([Member("content", Str(c.delta.content.value))]) else Dict([])),
          Member("finish_reason", if c.finishReason.Some? then Str(c.finishReason.value) else Null)])
  }

  /** The chunk as a JSON object, fields in declaration order. */
  function ChunkValue(c: ChatStreamChunk): Value {
    Dict([Member("id", Str(c.id)), Member("object", Str(c.objectTag)), Member("created", Int(c.created)),
          Member("model", Str(c.model)),
          Member("choices", List(seq(|c.choices|, i requires 0 <= i < |c.choices| => ChoiceValue(c.choices[i]))))])
  }

  /** `chunk.model_dump_json()`: an object on one line, so never the `[DONE]` marker. */
  function ChunkJson(c: ChatStreamChunk): (j: string)
    ensures OneLine(j) && |j| > 0 && j[0] == '{'
    ensures j != "[DONE]"
  {
    CompactDumps(ChunkValue(c))
  }

  // ===== Framing =====

  /** One event: a `data:` line and the blank line that dispatches it. */
  function DataFrame(payload: string): string {
    "data: " + payload + "\n\n"
  }

  const DoneMarker := "[DONE]"

  /** The payloads of a stream: each chunk's JSON text, then the terminator. */
  function Payloads(chunks: seq<ChatStreamChunk>): (ps: seq<string>)
    ensures |ps| == |chunks| + 1 && ps[|chunks|] == DoneMarker
    ensures forall i :: 0 <= i < |chunks| ==> ps[i] == ChunkJson(chunks[i])
  {
    seq(|chunks|, i requires 0 <= i < |chunks| => ChunkJson(chunks[i])) + [DoneMarker]
  }

  function Flatten(pieces: seq<string>): string {
    if pieces == [] then "" else pieces[0] + Flatten(pieces[1..])
  }

  /** `stream_generator`: one frame per chunk, in order, then the `[DONE]` frame; the
      body they make decodes to the chunks' JSON texts followed by the terminator. */
  method StreamGenerator(chunks: seq<ChatStreamChunk>) returns (frames: seq<string>)
    ensures |frames| == |chunks| + 1
    ensures forall i :: 0 <= i < |chunks| ==> frames[i] == "data: " + ChunkJson(chunks[i]) + "\n\n"
    ensures frames[|chunks|] == "data: [DONE]\n\n"
    ensures ParseEvents(Flatten(frames)) == Payloads(chunks)
  {
    frames := [];
    for k := 0 to |chunks|
      invariant |frames| == k
      invariant forall i :: 0 <= i < k ==> frames[i] == DataFrame(ChunkJson(chunks[i]))
    {
      frames := frames + [DataFrame(ChunkJson(chunks[k]))];
    }
    frames := frames + [DataFrame(DoneMarker)];
    var ps := Payloads(chunks);
    assert forall i :: 0 <= i < |ps| ==> frames[i] == DataFrame(ps[i]);
    DecodeFrames(ps, frames);
  }

  // ===== Event-stream decoding (section 9.2.6) =====

  /** The complete lines of a stream. A line ends at LF, at CR, or at CR LF; a last line
      without an end is not part of the stream. `current` is the line being read. */
  function Lines(s: string, current: string): seq<string>
    decreases |s|
  {
    if s == [] then []
    else if s[0] == '\n' then [current] + Lines(s[1..], "")
    else if s[0] == '\r' then
      if |s| > 1 && s[1] == '\n' then [current] + Lines(s[2..], "") else [current] + Lines(s[1..], "")
    else Lines(s[1..], current + [s[0]])
  }

  function ColonIndex(line: string): (r: Option<nat>)
    ensures r.Some? ==> r.value < |line| && line[r.value] == ':' && forall j :: 0 <= j < r.value ==> line[j] != ':'
    ensures r.None? ==> forall j :: 0 <= j < |line| ==> line[j] != ':'
  {
    if line == [] then None
    else if line[0] == ':' then Some(0)
    else
      var rest := ColonIndex(line[1..]);
      if rest.Some? then Some(rest.value + 1) else None
  }

  /** A field line's name and value: split at the first colon, with one space after the
      colon dropped; a line without a colon is a name with an empty value. */
  function Field(line: string): (string, string) {
    match ColonIndex(line)
    case None => (line, "")
    case Some(i) =>
      var value := line[i + 1..];
      (line[..i], if value != [] && value[0] == ' ' then value[1..] else value)
  }

  /** The data of the dispatched events. A `data` field appends its value and a line
      feed to the buffer; a blank line dispatches the buffer (less its last line feed)
      when it is not empty and clears it; comment lines and other fields change nothing. */
  function Events(lines: seq<string>, buffer: string): seq<string> {
    if lines == [] then []
    else
      var line := lines[0];
      if line == "" then
        if buffer == "" then Events(lines[1..], "") else [buffer[..|buffer| - 1]] + Events(lines[1..], "")
      else if line[0] == ':' then Events(lines[1..], buffer)
      else if Field(line).0 == "data" then Events(lines[1..], buffer + Field(line).1 + "\n")
      else Events(lines[1..], buffer)
  }

  /** The data of every event a stream body dispatches, in order. */
  function ParseEvents(body: string): seq<string> {
    Events(Lines(body, ""), "")
  }

  lemma {:induction false} LinesOfLine(t: string, rest: string, current: string)
    requires OneLine(t)
    ensures Lines(t + "\n" + rest, current) == [current + t] + Lines(rest, "")
    decreases |t|
  {
    if t == [] {
      assert t + "\n" + rest == "\n" + rest;
      assert ("\n" + rest)[1..] == rest;
      assert current + t == current;
    } else {
      var s := t + "\n" + rest;
      assert s[0] == t[0] && s[1..] == t[1..] + "\n" + rest;
      LinesOfLine(t[1..], rest, current + [t[0]]);
      assert current + [t[0]] + t[1..] == current + t;
    }
  }

  /** A frame's lines: the `data:` line and the blank line. */
  lemma FrameLines(payload: string, rest: string)
    requires OneLine(payload)
    ensures Lines(DataFrame(payload) + rest, "") == ["data: " + payload, ""] + Lines(rest, "")
  {
    var line := "data: " + payload;
    assert OneLine(line) by {
      assert forall i :: 6 <= i < |line| ==> line[i] == payload[i - 6];
    }
    assert DataFrame(payload) + rest == line + "\n" + ("\n" + rest);
    LinesOfLine(line, "\n" + rest, "");
    LinesOfLine("", rest, "");
    assert "" + "\n" + rest == "\n" + rest;
    assert "" + line == line && "" + "" == "";
    assert Lines("\n" + rest, "") == [""] + Lines(rest, "");
  }

  /** A `data:` line followed by a blank line dispatches exactly the payload. */
  lemma FrameEvents(payload: string, later: seq<string>)
    ensures Events(["data: " + payload, ""] + later, "") == [payload] + Events(later, "")
  {
    var line := "data: " + payload;
    assert line[..4] == "data" && line[4] == ':' && line[5] == ' ';
    assert ColonIndex(line) == Some(4) by {
      assert line[1..][1..][1..][1..][0] == ':';
      assert line[1..][1..][1..][1..] == line[4..];
    }
    assert line[5..][1..] == payload;
    assert Field(line) == ("data", payload);
    var lines := [line, ""] + later;
    assert lines[0] == line && line != "" && line[0] != ':';
    assert lines[1..] == [""] + later && ([""] + later)[1..] == later;
    assert "" + payload + "\n" == payload + "\n";
    assert Events(lines, "") == Events(lines[1..], payload + "\n");
    assert (payload + "\n")[..|payload|] == payload;
    assert Events([""] + later, payload + "\n") == [payload] + Events(later, "");
  }

  /** Decoding the concatenated frames of some one-line payloads gives those payloads. */
  lemma {:induction false} DecodeFrames(payloads: seq<string>, frames: seq<string>)
    requires |frames| == |payloads|
    requires forall i :: 0 <= i < |payloads| ==> OneLine(payloads[i]) && frames[i] == DataFrame(payloads[i])
    ensures ParseEvents(Flatten(frames)) == payloads
  {
    if payloads != [] {
      DecodeFrames(payloads[1..], frames[1..]);
      var rest := Flatten(frames[1..]);
      assert Flatten(frames) == DataFrame(payloads[0]) + rest;
      FrameLines(payloads[0], rest);
      FrameEvents(payloads[0], Lines(rest, ""));
    }
  }

  // ===== Endpoints =====

  /** What `/v1/chat/completions` answers: the completion as JSON, or a streaming response
      with its media type and the frames of its body. */
  datatype HttpReply =
    | JsonReply(response: ChatCompletionResponse)
    | StreamingReply(mediaType: string, frames: seq<string>)

  /** `chat_completions`: a completion is returned unchanged; a stream is wrapped as
      "text/event-stream" with one frame per chunk and the terminator. */
  method ChatCompletions(result: ChatService.ChatResult) returns (reply: HttpReply)
    ensures result.Completion? <==> reply.JsonReply?
    ensures result.Completion? ==> reply.response == result.response
    ensures result.Stream? ==>
              && reply.mediaType == "text/event-stream"
              && |reply.frames| == |result.chunks| + 1
              && ParseEvents(Flatten(reply.frames)) == Payloads(result.chunks)
  {
    match result {
      case Completion(response) =>
        reply := JsonReply(response);
      case Stream(chunks) =>
        var frames := StreamGenerator(chunks);
        reply := StreamingReply("text/event-stream", frames);
    }
  }

  /** `retrieve_chunks`: the chat service's answer, unchanged. */
  method RetrieveChunks(request: ChunkRetrievalRequest, settings: Config.Settings, retrieve: ChatService.Retriever)
    returns (response: ChunkRetrievalResponse)
    ensures response.query == request.query
    ensures var nodes := retrieve(request.query, ChatService.TopK(request, settings));
            && |response.chunks| == |nodes|
            && forall i :: 0 <= i < |nodes| ==> response.chunks[i] == ChatService.ChunkOf(nodes[i])
  {
    response := ChatService.RetrieveChunks(request, settings, retrieve);
  }
}
