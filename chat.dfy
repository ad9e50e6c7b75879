/**
 * The chat service: turning a chat request into the message list handed to the LLM
 * (with the retrieved context as a leading system message), shaping the LLM's answer
 * into a completion response or a sequence of stream chunks, and shaping retrieved
 * nodes into citations and chunk-retrieval results.
 *
 * The retriever, the LLM and its streaming variant are foreign: each is a function
 * parameter, so the contracts can say exactly what they were asked. The completion id's
 * uuid and the clock are parameters too.
 */
module ChatService {
  import opened Wrappers
  import opened Schemas
  import opened Nodes
  import Config

  /** The LLM library's message: a role and a text. */
  datatype LlmMessage = LlmMessage(role: Role, content: string)

  /** An optional override forwarded to the LLM as a keyword argument. */
  datatype LlmArg = RealArg(r: real) | IntArg(i: int)

  /** `retriever.aretrieve(query)` for a retriever built with `similarity_top_k`. */
  type Retriever = (string, int) -> seq<Node>

  /** `llm.achat(messages, **kwargs)`: the content of the reply message. */
  type Llm = (seq<LlmMessage>, map<string, LlmArg>) -> string

  /** `llm.astream_chat(messages, **kwargs)`: the deltas of the streamed reply, in order. */
  type StreamingLlm = (seq<LlmMessage>, map<string, LlmArg>) -> seq<string>

  // ===== Message assembly =====

  /** The request's messages in the library's format: one for one, in order. */
  function ConvertMessages(ms: seq<ChatMessage>): (r: seq<LlmMessage>)
    ensures |r| == |ms|
    ensures forall i :: 0 <= i < |ms| ==> r[i].role == ms[i].role && r[i].content == ms[i].content
  {
    seq(|ms|, i requires 0 <= i < |ms| => LlmMessage(ms[i].role, ms[i].content))
  }

  /** The content of the last "user" message, when there is one. */
  function LastUserQuery(ms: seq<ChatMessage>): (r: Option<string>)
    ensures r.None? <==> forall i :: 0 <= i < |ms| ==> ms[i].role != User
    ensures r.Some? ==> exists i :: (0 <= i < |ms| && ms[i].role == User && ms[i].content == r.value &&
                                     forall j :: i < j < |ms| ==> ms[j].role != User)
  {
    if ms == [] then None
    else
      var last := ms[|ms| - 1];
      if last.role == User then Some(last.content)
      else
        var r := LastUserQuery(ms[..|ms| - 1]);
        assert forall i :: 0 <= i < |ms| - 1 ==> ms[..|ms| - 1][i] == ms[i];
        r
  }

  const ContextPreamble := "Use the following context to answer the user's question:\n\n"

  /** One node in the context: `[Source: {metadata.get('file_name', 'unknown')}]` on its own line, then
      the node's text. */
  function SourcePart(n: Node): (part: string)
    ensures |part| > 9 && part[..9] == "[Source: "
  {
    "[Source: " + n.metadata.fileName.GetOr("unknown") + "]\n" + n.text
  }

  /** `sep.join(parts)`. */
  function Join(parts: seq<string>, sep: string): string {
    if parts == [] then ""
    else if |parts| == 1 then parts[0]
    else Join(parts[..|parts| - 1], sep) + sep + parts[|parts| - 1]
  }

  /** The context string for retrieved nodes: their source parts, in order, separated by
      blank lines. */
  function Context(nodes: seq<Node>): string {
    Join(SourceParts(nodes), "\n\n")
  }

  function SourceParts(nodes: seq<Node>): (parts: seq<string>)
    ensures |parts| == |nodes| && forall i :: 0 <= i < |nodes| ==> parts[i] == SourcePart(nodes[i])
  {
    seq(|nodes|, i requires 0 <= i < |nodes| => SourcePart(nodes[i]))
  }

  /** The context is empty exactly when nothing was retrieved. */
  lemma ContextEmptyIff(nodes: seq<Node>)
    ensures Context(nodes) == "" <==> nodes == []
  {
    if nodes != [] {
      var parts := SourceParts(nodes);
      JoinNonEmpty(parts, "\n\n");
    }
  }

  lemma JoinNonEmpty(parts: seq<string>, sep: string)
    requires parts != [] && |parts[|parts| - 1]| > 0
    ensures |Join(parts, sep)| > 0
  {
  }

  /** The context of the first k nodes begins the context of all of them: the sources
      appear in retrieval order. */
  lemma {:induction false} ContextPrefix(nodes: seq<Node>, k: nat)
    requires 0 < k <= |nodes|
    ensures Context(nodes[..k]) <= Context(nodes)
  {
    if k < |nodes| {
      ContextPrefix(nodes[..|nodes| - 1], k);
      var parts := SourceParts(nodes);
      assert SourceParts(nodes[..|nodes| - 1]) == parts[..|parts| - 1];
      assert nodes[..|nodes| - 1][..k] == nodes[..k];
    } else {
      assert nodes[..k] == nodes;
    }
  }

  /** `_retrieve_context`, given what the retriever returned: the context string built by
      the append loop, and the nodes (none when nothing came back). */
  method RetrieveContext(nodes: seq<Node>) returns (context: string, retrieved: seq<Node>)
    ensures context == Context(nodes) && retrieved == nodes
    ensures context == "" <==> nodes == []
  {
    if nodes == [] {
      return "", [];
    }
    var parts: seq<string> := [];
    for k := 0 to |nodes|
      invariant parts == SourceParts(nodes[..k])
    {
      assert SourceParts(nodes[..k + 1]) == parts + [SourcePart(nodes[k])];
      parts := parts + [SourcePart(nodes[k])];
    }
    assert nodes[..|nodes|] == nodes;
    context := Join(parts, "\n\n");
    ContextEmptyIff(nodes);
    retrieved := nodes;
  }

  /** The nodes `chat_completion` retrieves: for the last user message, when context is
      enabled and there is a user message; none otherwise. */
  function RetrievedFor(request: ChatCompletionRequest, topK: int, retrieve: Retriever): seq<Node> {
    if request.useContext && LastUserQuery(request.messages).Some? then
      retrieve(LastUserQuery(request.messages).value, topK)
    else []
  }

  /** The messages handed to the LLM: the converted request messages, preceded by the
      context system message when the retrieved context is not empty. */
  function Prompt(request: ChatCompletionRequest, topK: int, retrieve: Retriever): seq<LlmMessage> {
    var base := ConvertMessages(request.messages);
    var context := Context(RetrievedFor(request, topK, retrieve));
    if context != "" then [LlmMessage(System, ContextPreamble + context)] + base else base
  }

  /** The context message is added exactly when something was retrieved, always at the
      front; the converted messages follow unchanged. */
  lemma PromptShape(request: ChatCompletionRequest, topK: int, retrieve: Retriever)
    ensures var p := Prompt(request, topK, retrieve);
            var nodes := RetrievedFor(request, topK, retrieve);
            && (|p| == |request.messages| + 1 <==> nodes != [])
            && (nodes == [] ==> p == ConvertMessages(request.messages))
            && (nodes != [] ==> p[0] == LlmMessage(System, ContextPreamble + Context(nodes)) &&
                                p[1..] == ConvertMessages(request.messages))
  {
    ContextEmptyIff(RetrievedFor(request, topK, retrieve));
  }

  /** Without context enabled, or without a user message, the retriever is not consulted:
      the prompt is the converted messages whatever the retriever would return. */
  lemma NoQueryNoRetrieval(request: ChatCompletionRequest, topK: int, r1: Retriever, r2: Retriever)
    requires !request.useContext || forall i :: 0 <= i < |request.messages| ==> request.messages[i].role != User
    ensures RetrievedFor(request, topK, r1) == []
    ensures Prompt(request, topK, r1) == Prompt(request, topK, r2) == ConvertMessages(request.messages)
  {
    ContextEmptyIff([]);
  }

  /** The message-assembly part of `chat_completion`: retrieval, then `messages.insert(0, …)`. */
  method AssembleMessages(request: ChatCompletionRequest, settings: Config.Settings, retrieve: Retriever)
    returns (messages: seq<LlmMessage>, retrieved: seq<Node>)
    ensures messages == Prompt(request, settings.rag.similarityTopK, retrieve)
    ensures retrieved == RetrievedFor(request, settings.rag.similarityTopK, retrieve)
  {
    messages := ConvertMessages(request.messages);
    retrieved := [];
    if request.useContext {
      var query := LastUserQuery(request.messages);
      if query.Some? {
        var context;
        context, retrieved := RetrieveContext(retrieve(query.value, settings.rag.similarityTopK));
        if context != "" {
          messages := [LlmMessage(System, ContextPreamble + context)] + messages;
        }
      }
    }
  }

  // ===== Overrides =====

  /** The keyword arguments for the LLM: `temperature` and `max_tokens`, each present
      exactly when the request gives it. */
  function Overrides(request: ChatCompletionRequest): (kwargs: map<string, LlmArg>)
    ensures kwargs.Keys <= {"temperature", "max_tokens"}
    ensures "temperature" in kwargs <==> request.temperature.Some?
    ensures "max_tokens" in kwargs <==> request.maxTokens.Some?
    ensures "temperature" in kwargs ==> kwargs["temperature"] == RealArg(request.temperature.value)
    ensures "max_tokens" in kwargs ==> kwargs["max_tokens"] == IntArg(request.maxTokens.value)
  {
    var t := if request.temperature.Some? then map["temperature" := RealArg(request.temperature.value)] else map[];
    if request.maxTokens.Some? then t["max_tokens" := IntArg(request.maxTokens.value)] else t
  }

  // ===== Citations and chunks =====

  /** The citation for one node: the file name ("unknown" when missing), the page label,
      the chunk index (0 when missing), the score (0.0 when missing) and the text. */
  function Citation(n: Node): (c: SourceCitation)
    ensures c.text == n.text && c.pageLabel == n.metadata.pageLabel
    ensures c.fileName == if n.metadata.fileName.Some? then n.metadata.fileName.value else "unknown"
    ensures c.chunkIndex == if n.metadata.chunkIndex.Some? then n.metadata.chunkIndex.value else 0
    ensures c.score == if n.score.Some? then n.score.value else 0.0
  {
    SourceCitation(n.metadata.fileName.GetOr("unknown"), n.metadata.pageLabel,
                   n.metadata.chunkIndex.GetOr(0), n.score.GetOr(0.0), n.text)
  }

  /** The retrieval result for one node, with "unknown" and 0 for missing keys. */
  function ChunkOf(n: Node): (c: RetrievedChunk)
    ensures c.text == n.text
    ensures c.metadata.documentId == if n.metadata.documentId.Some? then n.metadata.documentId.value else "unknown"
  {
    RetrievedChunk(n.text, ChunkMetadata(n.metadata.documentId.GetOr("unknown"), n.metadata.fileName.GetOr("unknown"),
                                         n.metadata.chunkIndex.GetOr(0), n.score.GetOr(0.0)))
  }

  /** A node's citation and its retrieval chunk agree on every field they share. */
  lemma CitationAgreesWithChunk(n: Node)
    ensures Citation(n).fileName == ChunkOf(n).metadata.fileName
    ensures Citation(n).chunkIndex == ChunkOf(n).metadata.chunkIndex
    ensures Citation(n).score == ChunkOf(n).metadata.score
    ensures Citation(n).text == ChunkOf(n).text
  {
  }

  // ===== Completions =====

  /** `_generate_completion`: one assistant choice holding the LLM's answer, zero usage,
      and citations only when they were asked for and something was retrieved. */
  method GenerateCompletion(request: ChatCompletionRequest, settings: Config.Settings, messages: seq<LlmMessage>,
                            retrieved: seq<Node>, llm: Llm, uuid: string, now: int)
    returns (response: ChatCompletionResponse)
    ensures response.id == "chat-" + uuid && response.created == now && response.model == settings.llm.model
    ensures response.objectTag == "chat.completion"
    ensures response.choices == [ChatChoice(0, ChatMessage(Assistant, llm(messages, Overrides(request))), Some("stop"))]
    ensures response.usage == Some(ChatUsage(0, 0, 0))
    ensures response.sources.Some? <==> request.includeSources && retrieved != []
    ensures response.sources.Some? ==>
              |response.sources.value| == |retrieved| &&
              forall i :: 0 <= i < |retrieved| ==> response.sources.value[i] == Citation(retrieved[i])
  {
    var content := llm(messages, Overrides(request));
    var choice := ChatChoice(0, ChatMessage(Assistant, content), Some("stop"));
    var sources: Option<seq<SourceCitation>> := None;
    if request.includeSources && retrieved != [] {
      var citations: seq<SourceCitation> := [];
      for k := 0 to |retrieved|
        invariant |citations| == k
        invariant forall i :: 0 <= i < k ==> citations[i] == Citation(retrieved[i])
      {
        citations := citations + [Citation(retrieved[k])];
      }
      sources := Some(citations);
    }
    response := ChatCompletionResponse("chat-" + uuid, now, settings.llm.model, [choice],
                                       Some(ChatUsage(0, 0, 0)), sources);
  }

  /** The text a stream delivers: the contents of its deltas, in order. */
  function StreamedText(chunks: seq<ChatStreamChunk>): string {
    if chunks == [] then ""
    else
      var c := chunks[|chunks| - 1];
      var piece := if |c.choices| > 0 && c.choices[0].delta.content.Some? then c.choices[0].delta.content.value else "";
      StreamedText(chunks[..|chunks| - 1]) + piece
  }

  function Concat(pieces: seq<string>): string {
    if pieces == [] then "" else Concat(pieces[..|pieces| - 1]) + pieces[|pieces| - 1]
  }

  /** `_stream_completion`: one chunk per delta, then one closing chunk with an empty
      delta and finish reason "stop"; every chunk carries the same id, time and model. */
  method StreamCompletion(request: ChatCompletionRequest, settings: Config.Settings, messages: seq<LlmMessage>,
                          llm: StreamingLlm, uuid: string, now: int)
    returns (chunks: seq<ChatStreamChunk>)
    ensures var deltas := llm(messages, Overrides(request));
            && |chunks| == |deltas| + 1
            && (forall i :: 0 <= i < |deltas| ==> chunks[i].choices == [StreamChoice(0, StreamDelta(Some(deltas[i])), None)])
            && chunks[|deltas|].choices == [StreamChoice(0, StreamDelta(None), Some("stop"))]
            && StreamedText(chunks) == Concat(deltas)
    ensures forall i :: 0 <= i < |chunks| ==>
              chunks[i].id == "chat-" + uuid && chunks[i].created == now && chunks[i].model == settings.llm.model &&
              chunks[i].objectTag == "chat.completion.chunk"
    ensures forall i :: 0 <= i < |chunks| ==> (chunks[i].choices[0].finishReason.Some? <==> i == |chunks| - 1)
  {
    var deltas := llm(messages, Overrides(request));
    var id := "chat-" + uuid;
    chunks := [];
    for k := 0 to |deltas|
      invariant |chunks| == k
      invariant forall i :: 0 <= i < k ==> chunks[i] == ChatStreamChunk(id, now, settings.llm.model,
                                                                        [StreamChoice(0, StreamDelta(Some(deltas[i])), None)])
      invariant StreamedText(chunks) == Concat(deltas[..k])
    {
      var chunk := ChatStreamChunk(id, now, settings.llm.model, [StreamChoice(0, StreamDelta(Some(deltas[k])), None)]);
      assert (chunks + [chunk])[..k] == chunks;
      assert deltas[..k + 1][..k] == deltas[..k];
      chunks := chunks + [chunk];
    }
    var last := ChatStreamChunk(id, now, settings.llm.model, [StreamChoice(0, StreamDelta(None), Some("stop"))]);
    assert (chunks + [last])[..|deltas|] == chunks;
    assert deltas[..|deltas|] == deltas;
    chunks := chunks + [last];
  }

  /** What `chat_completion` returns: a response, or (when streaming) the chunk sequence. */
  datatype ChatResult = Completion(response: ChatCompletionResponse) | Stream(chunks: seq<ChatStreamChunk>)

  /** `chat_completion`: the prompt is assembled once, then either completed or streamed. */
  method ChatCompletion(request: ChatCompletionRequest, settings: Config.Settings, retrieve: Retriever,
                        llm: Llm, streamingLlm: StreamingLlm, uuid: string, now: int)
    returns (r: ChatResult)
    ensures r.Stream? <==> request.stream
    ensures var prompt := Prompt(request, settings.rag.similarityTopK, retrieve);
            var retrieved := RetrievedFor(request, settings.rag.similarityTopK, retrieve);
            r.Completion? ==>
              && r.response.choices == [ChatChoice(0, ChatMessage(Assistant, llm(prompt, Overrides(request))), Some("stop"))]
              && (r.response.sources.Some? <==> request.includeSources && retrieved != [])
              && (r.response.sources.Some? ==>
                    |r.response.sources.value| == |retrieved| &&
                    forall i :: 0 <= i < |retrieved| ==> r.response.sources.value[i] == Citation(retrieved[i]))
    ensures r.Completion? ==>
              && r.response.id == "chat-" + uuid && r.response.created == now && r.response.model == settings.llm.model
              && r.response.objectTag == "chat.completion" && r.response.usage == Some(ChatUsage(0, 0, 0))
    ensures var deltas := streamingLlm(Prompt(request, settings.rag.similarityTopK, retrieve), Overrides(request));
            r.Stream? ==>
              && |r.chunks| == |deltas| + 1
              && (forall i :: 0 <= i < |deltas| ==> r.chunks[i].choices == [StreamChoice(0, StreamDelta(Some(deltas[i])), None)])
              && r.chunks[|deltas|].choices == [StreamChoice(0, StreamDelta(None), Some("stop"))]
              && StreamedText(r.chunks) == Concat(deltas)
    ensures r.Stream? ==>
              forall i :: 0 <= i < |r.chunks| ==>
                r.chunks[i].id == "chat-" + uuid && r.chunks[i].created == now && r.chunks[i].model == settings.llm.model &&
                r.chunks[i].objectTag == "chat.completion.chunk"
    ensures r.Stream? ==> forall i :: 0 <= i < |r.chunks| ==> (r.chunks[i].choices[0].finishReason.Some? <==> i == |r.chunks| - 1)
  {
    var messages, retrieved := AssembleMessages(request, settings, retrieve);
    if request.stream {
      var chunks := StreamCompletion(request, settings, messages, streamingLlm, uuid, now);
      r := Stream(chunks);
    } else {
      var response := GenerateCompletion(request, settings, messages, retrieved, llm, uuid, now);
      r := Completion(response);
    }
  }

  // ===== Chunk retrieval =====

  /** `request.top_k or settings.rag.similarity_top_k`: the request's value unless it is
      absent or 0. */
  function TopK(request: ChunkRetrievalRequest, settings: Config.Settings): (k: int)
    ensures request.topK.Some? && request.topK.value != 0 ==> k == request.topK.value
    ensures request.topK.None? || request.topK.value == 0 ==> k == settings.rag.similarityTopK
  {
    if request.topK.Some? && request.topK.value != 0 then request.topK.value else settings.rag.similarityTopK
  }

  /** For a valid request and valid settings the retriever is asked for a positive number
      of nodes. */
  lemma TopKPositive(request: ChunkRetrievalRequest, settings: Config.Settings)
    requires request.Valid() && settings.Valid()
    ensures TopK(request, settings) > 0
  {
  }

  /** `retrieve_chunks`: one chunk per retrieved node, in order, and the query echoed. */
  method RetrieveChunks(request: ChunkRetrievalRequest, settings: Config.Settings, retrieve: Retriever)
    returns (response: ChunkRetrievalResponse)
    ensures var nodes := retrieve(request.query, TopK(request, settings));
            && |response.chunks| == |nodes|
            && forall i :: 0 <= i < |nodes| ==> response.chunks[i] == ChunkOf(nodes[i])
    ensures response.query == request.query
  {
    var nodes := retrieve(request.query, TopK(request, settings));
    var chunks: seq<RetrievedChunk> := [];
    for k := 0 to |nodes|
      invariant |chunks| == k
      invariant forall i :: 0 <= i < k ==> chunks[i] == ChunkOf(nodes[i])
    {
      chunks := chunks + [ChunkOf(nodes[k])];
    }
    response := ChunkRetrievalResponse(chunks, request.query);
  }
}
