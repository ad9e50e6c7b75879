# Xantus RAG chat backend: a Dafny model

Xantus is a retrieval-augmented chat backend. This model covers the bookkeeping and data shaping that surround its foreign calls:

- **Ingestion** (`Ingest`):
  - a document's id is the first 16 hex digits of the SHA-256 digest of its bytes;
  - an upload is stored as `{id}_{file_name}`, and a start-up scan parses that name back;
  - the in-memory metadata table is kept in insertion order and supports insert/overwrite, list and delete (an unknown id is an error);
  - loaded documents are stamped and their chunks numbered in place.
- **MCP client** (`Mcp`), the Model Context Protocol client:
  - it fixes the JSON-RPC 2.0 requests sent to each tool server and how their responses are read (sections 4 and 5 of the JSON-RPC 2.0 specification);
  - a server's advertised tools are converted to the LLM's tool format, with defaults filled in;
  - the registry starts the configured servers, routes a tool call to the first registered server that advertises the tool, and shuts everything down.
- **Chat service** (`ChatService`):
  - the query is the last user message;
  - the context is built as `[Source: …]` parts;
  - a leading system message is added only when the context is not empty;
  - the optional `temperature`/`max_tokens` overrides are forwarded;
  - the service shapes the completion response with its optional citations, the stream of chunks closed by one "stop" chunk, and the chunk-retrieval response.
- **Chat router** (`ChatRouter`):
  - the streaming/non-streaming branch;
  - the server-sent-event framing (section 9.2 of the WHATWG HTML Living Standard): one `data:` frame per chunk and a `[DONE]` terminator;
  - an event-stream decoder written after the parsing rules of section 9.2.6, which decodes the framed body back to the chunks' JSON texts.
- **Embeddings router** (`EmbeddingsRouter`):
  - the input is normalised to a list;
  - embeddings are numbered by position;
  - tokens are counted as Python's `str.split()` does.
- **Configuration and schemas** (`Config`, `Schemas`, `Json`):
  - the pydantic models are datatypes with their defaults, literal tags and range constraints;
  - cleaning a loaded YAML document with `remove_none_values` is recursive, and the model proves it idempotent;
  - the `from_yaml` argument preparation;
  - the lazily built global settings.

Foreign computations are parameters:

- the retriever `(query, top_k) -> nodes`;
- the LLM and the streaming LLM (the messages and overrides they are asked with are part of the contracts);
- the embedding model;
- the SHA-256 digest bytes;
- the document splitter;
- the vector-store outcomes;
- the subprocess transport, modelled as whether the process spawned plus the reply each read gave;
- the uuid and the clock.

State the source mutates in place is kept as classes:

- `Ingest.IngestService` holds the metadata table (an insertion-ordered key list plus a map) and the set of stored files.
- `Mcp.McpServer` and `Mcp.McpService` hold the process, the tool list, the lines sent and the server registry.
- `Config.SettingsCell` is the `_settings` global.
- Node lists are `array`s where the source updates nodes in a loop.

## Model

| member | source | states |
|---|---|---|
| Ingest.HexDigest | xantus/services/ingest_service.py:131 | `.hexdigest()` gives two lower-case hex digits per byte. |
| Ingest.HexDigestPrefix | xantus/services/ingest_service.py:131 | Truncating the hex text to 2n characters is the hex text of the first n bytes. |
| Ingest.DocumentId | xantus/services/ingest_service.py:131 | The document id has 16 characters, all lower-case hex, so it never holds "_". It is the hex text of the digest's first 8 bytes. |
| Ingest.SplitOnce | xantus/services/ingest_service.py:80 | `split("_", 1)` gives the whole string when there is no separator. Otherwise it gives the part before the first separator (which holds none) and everything after it, and parts, separator and rest rebuild the string. |
| Ingest.StoredNameSplits | xantus/services/ingest_service.py:134 | Round trip: splitting `{id}_{file_name}` once on "_" gives exactly (id, file_name), even when file_name holds "_". |
| Ingest.StoredNamesDistinct | xantus/services/ingest_service.py:251 | Stored names of different ids never collide, so deleting one upload's file never removes another's. |
| Ingest.ParseEntry | xantus/services/ingest_service.py:78-82 | The scan skips exactly the non-files, the names starting with "." and the names without "_". A kept entry's id and file name rebuild its name. |
| Ingest.ParseStoredUpload | xantus/services/ingest_service.py:78-82 | A stored upload's file is read back by the scan as its own id and file name. |
| Ingest.ScanTableKeys | xantus/services/ingest_service.py:77-105 | The rebuilt table holds an id exactly when some directory entry parses to it. |
| Ingest.ScanTableLastWins | xantus/services/ingest_service.py:100-105 | An id's rebuilt row comes from the last entry that parses to it: the chunk count and modification time of that entry. |
| Ingest.Without | xantus/services/ingest_service.py:248 | Popping a key removes that key and no other from the insertion order, and keeps the order free of repeats. |
| Ingest.DistinctCardinality | xantus/services/ingest_service.py:196-201 | A repetition-free key order has as many entries as its set. |
| Ingest.NumberChunks | xantus/services/ingest_service.py:155-156 | Node i gets `chunk_index` = i, and nothing else changes. |
| Ingest.TagDocuments | xantus/services/ingest_service.py:144-149 | Every loaded document gets document_id and file_name, and its own ingested_at reading (one clock reading per document). Nothing else changes. |
| Ingest.InsertKeepsValid | xantus/services/ingest_service.py:100-105 | Setting the row of an id whose upload is stored keeps the table invariant. The id joins the key order only when it is new. |
| Ingest.IngestService.constructor | xantus/services/ingest_service.py:63-110 | The table starts empty and is filled by the disk scan in listing order. The table invariant holds: distinct keys, each row under its own id, and each row's upload present. |
| Ingest.IngestService.ListDocuments | xantus/services/ingest_service.py:189-201 | Every row is returned in insertion order, and `total` is the number returned, which is the table size. |
| Ingest.IngestService.IngestFile | xantus/services/ingest_service.py:112-187 | The row for the content id is inserted or overwritten, and every other row is unchanged. The stored file is `{id}_{file_name}`. Document i is stamped with the i-th clock reading, and chunks are numbered 0..n-1. The stored `num_chunks` and the response's both equal n, with status "success". |
| Ingest.IngestService.DeleteDocument | xantus/services/ingest_service.py:203-260 | An unknown id fails with "Document {id} not found" and changes nothing. A known id loses exactly its row and its stored file, whatever the vector store did, and the answer is "deleted". The `file_name` filter sent to a Chroma store is the deleted row's file name. Every document still listed under that file name is another, untouched row. |
| Ingest.IngestTwice | xantus/services/ingest_service.py:173-178 | Ingesting the same bytes twice leaves one row for them, carrying the later file name, and leaves every other row as it was. |
| Mcp.RequestObject | xantus/services/mcp_service.py:48-63 | The request is a JSON-RPC 2.0 request object with the given id, method and params. |
| Mcp.Rpc.Request | xantus/services/mcp_service.py:48-63 | The `initialize`, `tools/list` and `tools/call` requests are valid request objects with their method names. Only `tools/list` has no params. `tools/call` carries the tool name and arguments. |
| Mcp.Frame | xantus/services/mcp_service.py:81 | A request is written as its `json.dumps` text on one line, ended by the single "\n". |
| Mcp.ToolCallOutcome | xantus/services/mcp_service.py:130-133 | A "result" member is checked first and returned. Otherwise an "error" member fails the call. With neither member the call returns None. Every case is stated in both directions. |
| Mcp.ProtocolResponseOutcome | xantus/services/mcp_service.py:130-133 | On a response that holds exactly one of result and error, the call succeeds exactly when there is a result, and returns it. |
| Mcp.ToolsIn | xantus/services/mcp_service.py:101-102 | Tools are found exactly when "result" holds a "tools" list, and they are that list. |
| Mcp.ConvertTool | xantus/services/mcp_service.py:146-157 | Conversion succeeds exactly when the descriptor has a name, which it copies. The description defaults to "" and the input schema to the empty object schema. |
| Mcp.ClaudeTools | xantus/services/mcp_service.py:139-157 | The conversion succeeds exactly when every tool has a name, and then holds one converted entry per tool, in order. |
| Mcp.ClaudeToolsStopAt | xantus/services/mcp_service.py:146-157 | The conversion stops at the first tool without a name and fails with that tool's error. |
| Mcp.ClaudeToolsAll | xantus/services/mcp_service.py:146-157 | When every tool converts, the result is exactly the converted list. |
| Mcp.AllClaudeToolsLength | xantus/services/mcp_service.py:205-210 | The combined list has as many entries as all servers' tools together. |
| Mcp.Advertises | xantus/services/mcp_service.py:225 | `any(t["name"] == name …)` is true only when some tool has that name. It is false exactly when every tool has a different name. A nameless tool reached first raises. |
| Mcp.RouteTool | xantus/services/mcp_service.py:224-228 | A routed call goes to one of the registered servers (an index below their number). |
| Mcp.RouteToolFirst | xantus/services/mcp_service.py:224-226 | A routed call goes to a server whose tools include the name, and no earlier server in registration order has it. |
| Mcp.RouteToolNotFound | xantus/services/mcp_service.py:224-228 | The call fails with "not found" exactly when no server's tools include the name. |
| Mcp.FirstErrorPersists | xantus/services/mcp_service.py:205-210 | Once a server's tools fail to convert, the whole combined conversion fails with that error. |
| Mcp.AllClaudeToolsStep | xantus/services/mcp_service.py:208-209 | Each further server either extends the concatenation with its converted list or ends it with its error. |
| Mcp.RouteAt | xantus/services/mcp_service.py:224-228 | The first server whose scan does not answer "no" decides the route: that server when it has the tool, or the error its scan raised. |
| Mcp.InitializeOutcome | xantus/services/mcp_service.py:193-198 | `initialize` fails exactly when some configured entry lacks `name` or `command`. |
| Mcp.FirstIncomplete | xantus/services/mcp_service.py:192-195 | Every entry before the index has a name and a command, and the entry at the index, if there is one, lacks one of them. |
| Mcp.FirstIncompleteIs | xantus/services/mcp_service.py:192-195 | Any index with only complete entries before it and an incomplete entry (or the end) at it is the first incomplete index. |
| Mcp.InitializeOutcomeAt | xantus/services/mcp_service.py:192-202 | `initialize` succeeds when no entry is incomplete. Otherwise it fails at the first incomplete entry: with "name" when that is missing, else with "command". |
| Mcp.LatestStarts | xantus/services/mcp_service.py:192-200 | Every name in the map is mapped to an earlier entry under that name whose server started. |
| Mcp.LatestStartsHas | xantus/services/mcp_service.py:199-200 | A name is in the map of the first k entries exactly when one of them carries it and its server started. |
| Mcp.LatestStartsIsLast | xantus/services/mcp_service.py:199-200 | The mapped entry is the last of the first k that started under the name: a later registration overwrites an earlier one. |
| Mcp.StartedServers | xantus/services/mcp_service.py:192-200 | The names `initialize` registers, each mapped to a configured entry: the last entry before the first incomplete one that started under it. |
| Mcp.RegisteredNamesMembers | xantus/services/mcp_service.py:192-200 | A name is in the order after `initialize` exactly when it was in it before, or an entry before the first incomplete one started under it. |
| Mcp.RegisteredNamesAreStarted | xantus/services/mcp_service.py:192-200 | The order after `initialize` holds exactly the old names and the names of `StartedServers`. |
| Mcp.RegistryStep | xantus/services/mcp_service.py:199-200 | Storing entry k's server under its name when it started, and changing nothing otherwise, carries the registry invariant from k entries to k + 1. |
| Mcp.RegistryStarted | xantus/services/mcp_service.py:199-200 | Under the registry invariant, each name registered in the first k entries holds the server made for its last starting entry, and that server is in its started state. |
| Mcp.McpServer.constructor | xantus/services/mcp_service.py:16-30 | The arguments default to `[]`. The server starts with no process, no tools and nothing sent. |
| Mcp.McpServer.Exchange | xantus/services/mcp_service.py:75-90 | Without a process or stdin the call fails with "not running". An empty reply line gives "no response", a non-JSON line a decode error, and an object is returned. |
| Mcp.McpServer.SendRequest | xantus/services/mcp_service.py:75-90 | The call returns what `Exchange` gives. The request line is written only when the process is running. |
| Mcp.McpServer.ListTools | xantus/services/mcp_service.py:92-106 | `tools` is replaced only when the reply holds `result.tools`. Any other reply or failure leaves it unchanged. |
| Mcp.McpServer.Start | xantus/services/mcp_service.py:32-73 | It returns true exactly when the process spawned, `initialize` got a JSON reply and the listed `result.tools` is not None, a bool or a number (for those, `len(self.tools)` in the success log raises). `initialize` is sent once the process spawned, and `tools/list` once `initialize` got a JSON reply; the tools are then listed. |
| Mcp.McpServer.CallTool | xantus/services/mcp_service.py:108-137 | Transport failures propagate. A reply is read with `ToolCallOutcome`, and one `tools/call` line is sent. |
| Mcp.McpServer.GetToolsForClaude | xantus/services/mcp_service.py:139-157 | The append loop computes `ClaudeTools(tools)`: one entry per tool, in order. |
| Mcp.McpServer.Stop | xantus/services/mcp_service.py:159-168 | `process` becomes None. |
| Mcp.McpService.constructor | xantus/services/mcp_service.py:174-176 | The registry starts empty and uninitialised. |
| Mcp.McpService.ToolLists | xantus/services/mcp_service.py:207-210 | The registered servers' tool lists, in registration order. |
| Mcp.McpService.StartServer | xantus/services/mcp_service.py:193-202 | A fresh server is made with the entry's name, command and arguments (default `[]`). It is registered under its name exactly when `start()` returned true, and then it is running, holds the listed tools and was sent `initialize` and `tools/list`. Re-registering a name keeps its place, and other entries are unchanged. |
| Mcp.McpService.InitDone | xantus/services/mcp_service.py:192-202 | At the first incomplete entry, the order, the registry keys, the untouched old servers and the started servers' states are what `initialize` promises. |
| Mcp.McpService.StartEntry | xantus/services/mcp_service.py:192-200 | One iteration of the loop keeps the loop invariant, and the server it makes is a fresh object added to the ones made so far. |
| Mcp.McpService.StartEntries | xantus/services/mcp_service.py:192-200 | The loop stops at the first incomplete entry. The order is then `RegisteredNames`, the old servers not registered again are kept, and each name of `StartedServers` holds a fresh server in the state `StartedAs` gives. |
| Mcp.McpService.Initialize | xantus/services/mcp_service.py:178-203 | Servers are started in configuration order and the started ones registered. The result is a missing-key error at the first incomplete entry. The order is `RegisteredNames`. The registry holds the old servers not registered again and, under each name of `StartedServers`, a fresh server made from the last entry that started under it. That server runs the entry's command and arguments, holds its listed tools and was sent `initialize` and `tools/list`. The service is marked initialised exactly when the loop completes. |
| Mcp.McpService.GetAllToolsForClaude | xantus/services/mcp_service.py:205-210 | The servers' converted lists are concatenated in registration order, and the length is the sum of their tool counts. |
| Mcp.FindServer | xantus/services/mcp_service.py:224-226 | The loop finds `RouteTool`'s server: the first advertising server, "not found" or the first scan error. |
| Mcp.McpService.CallTool | xantus/services/mcp_service.py:212-228 | The call goes to the first registered server advertising the tool and returns that server's reading of the reply. With no such server it fails with "not found". No server's tools or process change. Only the routed server, when running, was sent one more line, the `tools/call` request; every other server's lines are unchanged. |
| Mcp.McpService.Shutdown | xantus/services/mcp_service.py:230-235 | Every server is stopped (its process is None) and keeps its tools and the lines it was sent. The registry is empty and `_initialized` is false. |
| ChatService.ConvertMessages | xantus/services/chat_service.py:85-91 | Messages are converted one for one, in order, with the same role and content. |
| ChatService.LastUserQuery | xantus/services/chat_service.py:97-102 | The query is the content of the last "user" message. The result is None exactly when there is no user message. |
| ChatService.SourcePart | xantus/services/chat_service.py:144-146 | Every context part starts with "[Source: ". |
| ChatService.SourceParts | xantus/services/chat_service.py:144-146 | There is one part per node, in order. |
| ChatService.ContextEmptyIff | xantus/services/chat_service.py:139-151 | The context is empty exactly when no node was retrieved. |
| ChatService.ContextPrefix | xantus/services/chat_service.py:144-148 | The context of the first k nodes begins the whole context, so sources appear in retrieval order. |
| ChatService.RetrieveContext | xantus/services/chat_service.py:119-151 | The result is ("", []) for no nodes. Otherwise it is the `"\n\n"` join of `[Source: {metadata.get('file_name', 'unknown')}]\n{text}` over the nodes, with the nodes returned. |
| ChatService.PromptShape | xantus/services/chat_service.py:85-111 | The context system message is inserted at index 0 exactly when something was retrieved. The converted messages follow unchanged. |
| ChatService.NoQueryNoRetrieval | xantus/services/chat_service.py:97-102 | Without `use_context`, or without a user message, nothing is retrieved and the prompt is the converted list, whatever the retriever would return. |
| ChatService.AssembleMessages | xantus/services/chat_service.py:85-111 | The imperative assembly computes `Prompt` and `RetrievedFor`. |
| ChatService.Overrides | xantus/services/chat_service.py:164-168 | `temperature` and `max_tokens` are forwarded exactly when given, with their values, and no other key is. |
| ChatService.Citation | xantus/services/chat_service.py:188-197 | A citation holds its node's text and page label, the file name (default "unknown"), the chunk index (default 0) and the score (default 0.0). |
| ChatService.ChunkOf | xantus/services/chat_service.py:285-296 | A retrieved chunk holds the node's text and the document id (default "unknown"). |
| ChatService.CitationAgreesWithChunk | xantus/services/chat_service.py:188-197 | A node's citation and its retrieval chunk agree on file name, chunk index, score and text. |
| ChatService.GenerateCompletion | xantus/services/chat_service.py:153-212 | The response has one choice: index 0, role "assistant", the LLM's answer to the prompt and overrides, and finish reason "stop". Usage is zero and the id is "chat-" + uuid. There are sources exactly when `include_sources` is set and nodes were retrieved, one citation per node, in order. |
| ChatService.StreamCompletion | xantus/services/chat_service.py:214-259 | There is one chunk per delta and then exactly one final chunk with an empty delta and "stop". Only the last chunk has a finish reason. All chunks share id, created and model. The streamed text is the concatenated deltas. |
| ChatService.ChatCompletion | xantus/services/chat_service.py:69-117 | The result is a stream exactly when `stream` is set. The completion has the one "stop" choice answering the assembled prompt, the id "chat-" + uuid, the given time, the configured model, zero usage and, when asked for and something was retrieved, citation i for retrieved node i. The stream has one chunk per delta of the streaming LLM's answer to that prompt, then one empty "stop" chunk. Only that last chunk has a finish reason, and every chunk has the same id, time and model. |
| ChatService.TopK | xantus/services/chat_service.py:276 | `request.top_k or similarity_top_k`: the request's value unless it is absent or 0. |
| ChatService.TopKPositive | xantus/services/chat_service.py:276 | With a valid request and valid settings, the retriever is asked for a positive number of nodes. |
| ChatService.RetrieveChunks | xantus/services/chat_service.py:261-303 | Chunks map the retrieved nodes one for one, in order, and the query is echoed. |
| ChatRouter.ChunkJson | xantus/api/chat_router.py:48 | A chunk's `model_dump_json()` is one line starting with '{', so it never equals the terminator. |
| ChatRouter.Payloads | xantus/api/chat_router.py:47-49 | The payloads are the chunks' JSON texts, in order, followed by `[DONE]`. |
| ChatRouter.StreamGenerator | xantus/api/chat_router.py:45-49 | There are chunks + 1 frames: `"data: " + json + "\n\n"` per chunk, in order, then `"data: [DONE]\n\n"`. Decoding the body gives back the payloads. |
| ChatRouter.ColonIndex | xantus/api/chat_router.py:48 | The position of a field line's first colon, if any. |
| ChatRouter.LinesOfLine | xantus/api/chat_router.py:48 | A line without line breaks, followed by LF, is read as one line. |
| ChatRouter.FrameLines | xantus/api/chat_router.py:48 | A frame reads as its `data:` line and a blank line. |
| ChatRouter.FrameEvents | xantus/api/chat_router.py:48 | A `data:` line followed by a blank line dispatches exactly its payload. |
| ChatRouter.DecodeFrames | xantus/api/chat_router.py:45-49 | Round trip: the concatenated frames of one-line payloads decode to those payloads. |
| ChatRouter.ChatCompletions | xantus/api/chat_router.py:28-57 | A non-streaming result is returned unchanged. A stream becomes "text/event-stream" with chunks + 1 frames that decode to the chunks' JSON texts and `[DONE]`. |
| ChatRouter.RetrieveChunks | xantus/api/chat_router.py:60-72 | The chat service's retrieval is passed through: the query is echoed, and chunk i is `ChunkOf` the i-th node the retriever returns for the query and `TopK`. |
| EmbeddingsRouter.InputTexts | xantus/api/embeddings_router.py:47-50 | A single string becomes a one-element list, and a list is kept as given. |
| EmbeddingsRouter.SplitIsRuns | xantus/api/embeddings_router.py:68 | `str.split()` gives one non-empty, space-free word per maximal run of non-space characters. |
| EmbeddingsRouter.NoTokensIffBlank | xantus/api/embeddings_router.py:68 | A text has no token start exactly when it is all whitespace. |
| EmbeddingsRouter.TokenCountCharacterised | xantus/api/embeddings_router.py:68 | `len(text.split())` is the number of non-space runs. It is zero exactly when the text is blank. |
| EmbeddingsRouter.TotalTokensAppend | xantus/api/embeddings_router.py:68 | The token sum over two batches is the sum of their sums. |
| EmbeddingsRouter.CreateEmbeddings | xantus/api/embeddings_router.py:32-72 | There is one entry per text, in order: entry i is the text's embedding with index i and tag "embedding". prompt_tokens is the sum of token counts and equals total_tokens. The model comes from the settings and the tag is "list". An empty list gives no data and zero usage. |
| Config.DefaultSettings | xantus/config/settings.py:156-164 | The all-default settings satisfy every constraint, with top_k 5, chunk size 1024, overlap 200, port 8000, max tokens 2048 and batch size 10. |
| Config.Check | xantus/config/settings.py:21-31 | A constraint reports its error exactly when it fails. |
| Config.LLMErrors | xantus/config/settings.py:21-31 | An error is reported exactly when the temperature is outside [0.0, 2.0], and exactly when max_tokens ≤ 0. There are none exactly when the section is valid. |
| Config.RAGErrors | xantus/config/settings.py:84-98 | An error is reported exactly when similarity_top_k ≤ 0, when chunk_size ≤ 0 and when chunk_overlap < 0. There are none exactly when the section is valid. |
| Config.SettingsErrors | xantus/config/settings.py:10-164 | A batch size ≤ 0 and a port outside 1..65535 are reported, together with the LLM and RAG errors. There are none exactly when the settings are valid. |
| Config.RemoveNoneValues | xantus/config/settings.py:178-181 | A value that is not a dict is returned unchanged, and a dict stays a dict no larger than before. |
| Config.CleanMembers | xantus/config/settings.py:181 | The comprehension never adds members. |
| Config.CleanMembersKeys | xantus/config/settings.py:181 | Every key of the cleaned dict is a key of the original. |
| Config.CleanMembersUnique | xantus/config/settings.py:181 | Cleaning keeps keys distinct. |
| Config.CleanMembersLookup | xantus/config/settings.py:181 | The result's keys are exactly the keys whose value is not None, each mapped to its recursively cleaned value. |
| Config.RemoveNoneValuesLeavesNoNone | xantus/config/settings.py:178-181 | After cleaning, no dict reachable through dict values holds None. |
| Config.CleanMembersLeaveNoNone | xantus/config/settings.py:181 | No cleaned member is None, and each member's value is clean. |
| Config.RemoveNoneValuesFixes | xantus/config/settings.py:178-181 | A value without a reachable None is returned unchanged. |
| Config.CleanMembersFix | xantus/config/settings.py:181 | A dict without a reachable None is kept as it is. |
| Config.RemoveNoneValuesIdempotent | xantus/config/settings.py:181 | Cleaning a cleaned value changes nothing. |
| Config.FromYamlArguments | xantus/config/settings.py:166-187 | A missing file fails with "not found", and only a missing file does. An empty or false document counts as `{}`. A non-mapping fails. The arguments hold no None. |
| Config.FromYamlArgumentsLookup | xantus/config/settings.py:175-183 | For a YAML mapping, the arguments hold distinct keys, exactly the document's keys whose value is not None, with cleaned values. |
| Config.SettingsCell.constructor | xantus/config/settings.py:196-197 | The global starts as None. |
| Config.SettingsCell.GetSettings | xantus/config/settings.py:200-212 | The global is built only while it is None: from `config.yaml` when that file exists, otherwise from the defaults. Once set, it is returned as it is. A failed load leaves it None. The settings returned and stored satisfy every constraint. |
| Config.SettingsCell.SetSettings | xantus/config/settings.py:215-218 | The global becomes the given settings, which satisfy every constraint. |
| Config.SetThenGet | xantus/config/settings.py:200-218 | After `set_settings(s)`, `get_settings()` returns `s`, whatever the file system holds. |
| Config.GetTwice | xantus/config/settings.py:200-212 | Once built, the global is never rebuilt: a second call returns what the first returned. |
| Schemas.ParseRole | xantus/models/schemas.py:12-14 | A role is accepted exactly when it is "system", "user" or "assistant", and each name gives its own role. |
| Schemas.Role.Name | xantus/models/schemas.py:12-14 | A role's literal parses back to the same role. |
| Schemas.ChatCompletionRequestErrors | xantus/models/schemas.py:34-44 | A temperature error is reported exactly when a present temperature is outside [0.0, 2.0]. A max_tokens error is reported exactly when a present max_tokens is ≤ 0. There are none exactly when the request is valid. |
| Schemas.ChunkRetrievalRequestErrors | xantus/models/schemas.py:199-203 | An error, only ever on top_k, is reported exactly when a present top_k is ≤ 0. |
| Schemas.Defaults | xantus/models/schemas.py:20-236 | The request defaults are use_context true, include_sources and stream false, and no overrides. The status defaults are "success", "deleted" and "healthy"/"0.1.0". The object tags are "chat.completion", "chat.completion.chunk", "embedding" and "list". |
| Json.Get | xantus/services/mcp_service.py:130-133 | `d.get(k)` is None exactly when no member has key k. |
| Json.GetFound | xantus/services/mcp_service.py:130-133 | A found value is the value of a member stored under key k. |
| Json.GetUnique | xantus/services/mcp_service.py:130-133 | With distinct keys, looking up a member's key finds that member's value. |
| Json.Dumps | xantus/services/mcp_service.py:81 | `json.dumps` (ensure_ascii) gives printable ASCII with no line break. |
| Json.CompactDumps | xantus/api/chat_router.py:48 | Compact JSON is one line, and an object's text starts with '{'. |

## Left out

- I/O is not modelled:
  - file reads and writes, the directory glob and `stat`;
  - subprocess spawning, pipe writes and flushes, and `readline`;
  - `terminate`/`kill`/`wait`;
  - YAML parsing.
  
  Each appears only as its outcome, given as a parameter. An MCP reply is "end of stream", "not JSON" or a decoded JSON object. A reply that decodes to JSON but not to an object is not modelled.
- The LLM, the retriever, the embedding model, the SHA-256 computation, `SimpleDirectoryReader`, `SentenceSplitter` and ChromaDB are foreign. Each is a parameter. The chunk count that the start-up scan asks ChromaDB for is a field of each directory entry.
- The vector-store deletion in `delete_document` is only its outcome (`VectorStoreDeletion`), because every outcome leads to the same table and file updates.
- `uuid4`, `time.time`, `datetime.utcnow` and file modification times are parameters.
- async/await is modelled as sequential code, and logging is left out.
- Floats: scores, temperatures and embeddings are `real`, with range checks only. In JSON values a float is carried as its `repr` text. Pydantic's float formatting in a streamed chunk is not modelled; chunks hold no floats.
- Mcp.McpServer.ListTools: when `result.tools` is present but not a list, Python would assign it anyway. The model (`ToolsIn`) leaves `tools` unchanged. For None, a bool or a number, `start()` then fails, and the model's `Start` returns false as well.
- Json.Get: a JSON object read from a server may repeat a key. `json.loads` keeps the last value, while `Get` finds the first; replies are not required to have distinct keys, so `ToolCallOutcome`, `ToolsIn` and `Advertises` also cover objects with repeated keys and read the first value there.
- Mcp.ToolsIn: does not model a string `result` that contains the substring "tools", where Python's `in` is a substring test.
- Mcp.McpError.Text: the "Tool error: {error}" text is left out, because it prints a Python repr of the error. Only the fixed messages are modelled.
- Mcp.McpService.StartServer: re-registering a name drops the old server object without stopping its process. The model drops the reference in the same way, and does not track the orphaned process.
- The MCP `resources` list is never filled by the source; it is kept and stays empty.
- Config.SettingsCell.GetSettings: the pydantic construction from keyword arguments is not modelled. The model does not cover type coercion, environment-variable overrides or the nested-section parsing of `Settings(**data)`, so `loaded` is the outcome of `from_yaml`. Without a config file the model returns `DefaultSettings()`, whereas `Settings()` also reads `XANTUS_`-prefixed environment variables. Object identity ("the same instance") is modelled as value equality.
- Config.FromYamlArguments: YAML syntax errors are not modelled; `document` is the parsed value.
- ChatRouter.ParseEvents: the decoder keeps only the `data` field. It ignores `event`, `id` and `retry`, does not strip a leading byte-order mark, and does not parse the decoded payloads back into chunk values.
- ChatService.StreamCompletion: each delta is a string. A `None` delta from the streaming LLM is not modelled.
- The retriever's `similarity_top_k` is an argument of the retriever function rather than a constructor setting.
- Ingest.IngestFile: the document loader's output is the `documents` array, and `split` is the sentence splitter. `utcnow()` is read once per document inside the tagging loop, as `taggedAt`, and once more for the table row, as `recordedAt`.
- Ingest.IngestService.DeleteDocument: the vector store's chunks are not modelled. The `file_name` filter, which the method returns, also removes the chunks of any other document uploaded under the same file name; that document's row and file stay.
- ChatService.Citation, ChatService.ChunkOf: a node's metadata fields are options of a fixed type. A key present with None or with a value of another type is not represented. For such a key `.get("chunk_index", 0)` gives that value and pydantic then rejects it.
- The router-level HTTP wiring is left out: FastAPI dependency injection, status codes and exception-to-HTTP mapping.
