/**
 * The request and response models of the HTTP API. Each pydantic model is a datatype;
 * a field with a default is a constructor parameter with the same default, a `Literal`
 * field is an enumeration, and the `Field(ge=…, le=…, gt=…)` constraints are the
 * models' `Valid()` predicates together with the validators that report every
 * violated field.
 */
module Schemas {
  import opened Wrappers

  // ===== Chat models =====

  /** `Literal["system", "user", "assistant"]`. */
  datatype Role = System | User | Assistant {
    /** The literal the role is written as; parsing it gives the role back. */
    function Name(): (s: string)
      ensures ParseRole(s) == Some(this)
    {
      match this
      case System => "system"
      case User => "user"
      case Assistant => "assistant"
    }
  }

  /** Validation of the `role` literal: exactly the three names are accepted. */
  function ParseRole(s: string): (r: Option<Role>)
    ensures r.Some? <==> (s == "system" || s == "user" || s == "assistant")
    ensures r.Some? ==> (match r.value
                         case System => s == "system"
                         case User => s == "user"
                         case Assistant => s == "assistant")
  {
    if s == "system" then Some(System)
    else if s == "user" then Some(User)
    else if s == "assistant" then Some(Assistant)
    else None
  }

  datatype ChatMessage = ChatMessage(role: Role, content: string)

  datatype ChatCompletionRequest = ChatCompletionRequest(
    messages: seq<ChatMessage>,
    useContext: bool := true,
    includeSources: bool := false,
    temperature: Option<real> := None,
    maxTokens: Option<int> := None,
    stream: bool := false)
  {
    /** A given temperature lies in [0.0, 2.0] and a given max_tokens is positive. */
    predicate Valid() {
      && (temperature.Some? ==> 0.0 <= temperature.value <= 2.0)
      && (maxTokens.Some? ==> maxTokens.value > 0)
    }
  }

  /** Every constraint of a chat request that fails, in field order. */
  function ChatCompletionRequestErrors(r: ChatCompletionRequest): (errs: seq<FieldError>)
    ensures errs == [] <==> r.Valid()
    ensures forall e :: e in errs ==> e.field in {"temperature", "max_tokens"}
    ensures (exists e :: e in errs && e.field == "temperature") <==>
            (r.temperature.Some? && !(0.0 <= r.temperature.value <= 2.0))
    ensures (exists e :: e in errs && e.field == "max_tokens") <==>
            (r.maxTokens.Some? && r.maxTokens.value <= 0)
  {
    var t := match r.temperature
      case Some(v) =>
        if v < 0.0 then [FieldError("temperature", "greater_than_equal 0.0")]
        else if v > 2.0 then [FieldError("temperature", "less_than_equal 2.0")]
        else []
      case None => [];
    var m := match r.maxTokens
      case Some(n) => if n <= 0 then [FieldError("max_tokens", "greater_than 0")] else []
      case None => [];
    t + m
  }

  datatype ChatChoice = ChatChoice(index: int, message: ChatMessage, finishReason: Option<string> := None)

  datatype ChatUsage = ChatUsage(promptTokens: int, completionTokens: int, totalTokens: int)

  datatype SourceCitation = SourceCitation(
    fileName: string,
    pageLabel: Option<string>,
    chunkIndex: int,
    score: real,
    text: string)

  const ChatCompletionObject := "chat.completion"
  const ChatCompletionChunkObject := "chat.completion.chunk"
  const EmbeddingObject := "embedding"
  const ListObject := "list"

  datatype ChatCompletionResponse = ChatCompletionResponse(
    id: string,
    created: int,
    model: string,
    choices: seq<ChatChoice>,
    usage: Option<ChatUsage> := None,
    sources: Option<seq<SourceCitation>> := None,
    objectTag: string := ChatCompletionObject)

  /** The `delta` dict of a streamed choice: `{"content": text}` or `{}`. */
  datatype StreamDelta = StreamDelta(content: Option<string>)

  /** One entry of a stream chunk's `choices` list. */
  datatype StreamChoice = StreamChoice(index: int, delta: StreamDelta, finishReason: Option<string>)

  datatype ChatStreamChunk = ChatStreamChunk(
    id: string,
    created: int,
    model: string,
    choices: seq<StreamChoice>,
    objectTag: string := ChatCompletionChunkObject)

  // ===== Ingestion models =====

  datatype IngestRequest = IngestRequest(fileName: string)

  datatype IngestResponse = IngestResponse(
    documentId: string,
    fileName: string,
    numChunks: int,
    status: string := "success")

  datatype DocumentInfo = DocumentInfo(
    documentId: string,
    fileName: string,
    numChunks: int,
    ingestedAt: string)

  datatype ListDocumentsResponse = ListDocumentsResponse(documents: seq<DocumentInfo>, total: int)

  datatype DeleteDocumentResponse = DeleteDocumentResponse(documentId: string, status: string := "deleted")

  // ===== Embedding models =====

  /** `str | list[str]`. */
  datatype EmbeddingInput = Text(text: string) | Texts(texts: seq<string>)

  datatype EmbeddingRequest = EmbeddingRequest(input: EmbeddingInput)

  datatype EmbeddingData = EmbeddingData(
    embedding: seq<real>,
    index: int,
    objectTag: string := EmbeddingObject)

  /** The `usage` dict of an embedding response. */
  datatype EmbeddingUsage = EmbeddingUsage(promptTokens: int, totalTokens: int)

  datatype EmbeddingResponse = EmbeddingResponse(
    data: seq<EmbeddingData>,
    model: string,
    usage: EmbeddingUsage,
    objectTag: string := ListObject)

  // ===== Chunk retrieval models =====

  datatype ChunkRetrievalRequest = ChunkRetrievalRequest(query: string, topK: Option<int> := None) {
    /** A given top_k is positive. */
    predicate Valid() {
      topK.Some? ==> topK.value > 0
    }
  }

  /** Every constraint of a chunk retrieval request that fails. */
  function ChunkRetrievalRequestErrors(r: ChunkRetrievalRequest): (errs: seq<FieldError>)
    ensures errs == [] <==> r.Valid()
    ensures forall e :: e in errs ==> e.field == "top_k"
  {
    match r.topK
    case Some(k) => if k <= 0 then [FieldError("top_k", "greater_than 0")] else []
    case None => []
  }

  datatype ChunkMetadata = ChunkMetadata(documentId: string, fileName: string, chunkIndex: int, score: real)

  datatype RetrievedChunk = RetrievedChunk(text: string, metadata: ChunkMetadata)

  datatype ChunkRetrievalResponse = ChunkRetrievalResponse(chunks: seq<RetrievedChunk>, query: string)

  // ===== Health check models =====

  datatype HealthResponse = HealthResponse(
    components: map<string, string>,
    status: string := "healthy",
    version: string := "0.1.0")

  /** The defaults a client gets when it sends only the required fields. */
  lemma {:induction false} Defaults(messages: seq<ChatMessage>, query: string, components: map<string, string>)
    ensures var r := ChatCompletionRequest(messages);
      r.useContext && !r.includeSources && !r.stream && r.temperature == None && r.maxTokens == None && r.Valid()
    ensures ChunkRetrievalRequest(query).topK == None && ChunkRetrievalRequest(query).Valid()
    ensures IngestResponse("", "", 0).status == "success"
    ensures DeleteDocumentResponse("").status == "deleted"
    ensures HealthResponse(components).status == "healthy" && HealthResponse(components).version == "0.1.0"
    ensures ChatCompletionResponse("", 0, "", []).objectTag == "chat.completion"
    ensures ChatStreamChunk("", 0, "", []).objectTag == "chat.completion.chunk"
    ensures EmbeddingData([], 0).objectTag == "embedding"
    ensures EmbeddingResponse([], "", EmbeddingUsage(0, 0)).objectTag == "list"
  {
  }
}
