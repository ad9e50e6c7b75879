/**
 * Application configuration: the pydantic config classes with their defaults and
 * range constraints, the `remove_none_values` cleaner that `Settings.from_yaml`
 * applies to the loaded YAML document, and the lazily built global settings.
 */
module Config {
  import opened Wrappers
  import opened Json

  datatype LlmProvider = Ollama | OpenAI | Anthropic
  datatype EmbeddingProvider = EmbeddingOllama | EmbeddingOpenAI | HuggingFace
  datatype VectorStoreProvider = Chroma | Qdrant

  datatype LLMConfig = LLMConfig(
    provider: LlmProvider := Ollama,
    model: string := "llama3.2",
    temperature: real := 0.7,
    maxTokens: int := 2048,
    apiKey: Option<string> := None,
    apiBase: Option<string> := None)
  {
    predicate Valid() {
      0.0 <= temperature <= 2.0 && maxTokens > 0
    }
  }

  datatype EmbeddingConfig = EmbeddingConfig(
    provider: EmbeddingProvider := HuggingFace,
    model: string := "BAAI/bge-small-en-v1.5",
    embedBatchSize: int := 10,
    apiKey: Option<string> := None)
  {
    predicate Valid() {
      embedBatchSize > 0
    }
  }

  datatype VectorStoreConfig = VectorStoreConfig(
    provider: VectorStoreProvider := Chroma,
    persistPath: string := "./data/vector_store",
    collectionName: string := "xantus_documents")

  datatype RAGConfig = RAGConfig(
    similarityTopK: int := 5,
    chunkSize: int := 1024,
    chunkOverlap: int := 200,
    enableReranking: bool := false)
  {
    predicate Valid() {
      similarityTopK > 0 && chunkSize > 0 && chunkOverlap >= 0
    }
  }

  datatype ServerConfig = ServerConfig(
    host: string := "127.0.0.1",
    port: int := 8000,
    corsEnabled: bool := true,
    corsOrigins: seq<string> := ["*"])
  {
    predicate Valid() {
      0 < port <= 65535
    }
  }

  datatype MCPServerConfig = MCPServerConfig(name: string, command: string, args: seq<string> := [])

  datatype MCPConfig = MCPConfig(enabled: bool := false, servers: seq<MCPServerConfig> := [])

  datatype Settings = Settings(
    llm: LLMConfig := LLMConfig(),
    embedding: EmbeddingConfig := EmbeddingConfig(),
    vectorStore: VectorStoreConfig := VectorStoreConfig(),
    rag: RAGConfig := RAGConfig(),
    server: ServerConfig := ServerConfig(),
    mcp: MCPConfig := MCPConfig())
  {
    /** Every `Field` constraint of every section holds. */
    predicate Valid() {
      llm.Valid() && embedding.Valid() && rag.Valid() && server.Valid()
    }
  }

  /** The settings built when nothing is configured: every field at its default. */
  function DefaultSettings(): (s: Settings)
    ensures s.Valid()
    ensures s.rag.similarityTopK == 5 && s.rag.chunkSize == 1024 && s.rag.chunkOverlap == 200
    ensures s.server.port == 8000 && s.llm.maxTokens == 2048 && s.embedding.embedBatchSize == 10
  {
    Settings()
  }

  /** The error for one constraint, present exactly when the constraint fails. */
  function Check(holds: bool, field: string, constraint: string): (errs: seq<FieldError>)
    ensures errs == [] <==> holds
    ensures errs != [] ==> errs == [FieldError(field, constraint)]
  {
    if holds then [] else [FieldError(field, constraint)]
  }

  function LLMErrors(c: LLMConfig): (errs: seq<FieldError>)
    ensures errs == [] <==> c.Valid()
    ensures FieldError("llm.temperature", "0.0 <= x <= 2.0") in errs <==> !(0.0 <= c.temperature <= 2.0)
    ensures FieldError("llm.max_tokens", "x > 0") in errs <==> c.maxTokens <= 0
    ensures forall e | e in errs :: e.field == "llm.temperature" || e.field == "llm.max_tokens"
  {
    Check(0.0 <= c.temperature <= 2.0, "llm.temperature", "0.0 <= x <= 2.0") +
    Check(c.maxTokens > 0, "llm.max_tokens", "x > 0")
  }

  function RAGErrors(c: RAGConfig): (errs: seq<FieldError>)
    ensures errs == [] <==> c.Valid()
    ensures FieldError("rag.similarity_top_k", "x > 0") in errs <==> c.similarityTopK <= 0
    ensures FieldError("rag.chunk_size", "x > 0") in errs <==> c.chunkSize <= 0
    ensures FieldError("rag.chunk_overlap", "x >= 0") in errs <==> c.chunkOverlap < 0
    ensures forall e | e in errs :: e.field == "rag.similarity_top_k" || e.field == "rag.chunk_size" ||
                                    e.field == "rag.chunk_overlap"
  {
    Check(c.similarityTopK > 0, "rag.similarity_top_k", "x > 0") +
    Check(c.chunkSize > 0, "rag.chunk_size", "x > 0") +
    Check(c.chunkOverlap >= 0, "rag.chunk_overlap", "x >= 0")
  }

  /** Every constraint that fails, as `section.field`; none fails exactly when the
      settings are valid. */
  function SettingsErrors(s: Settings): (errs: seq<FieldError>)
    ensures errs == [] <==> s.Valid()
    ensures FieldError("embedding.embed_batch_size", "x > 0") in errs <==> s.embedding.embedBatchSize <= 0
    ensures FieldError("server.port", "0 < x <= 65535") in errs <==> !(0 < s.server.port <= 65535)
    ensures forall e :: e in LLMErrors(s.llm) || e in RAGErrors(s.rag) ==> e in errs
  {
    var llm := LLMErrors(s.llm);
    var batch := Check(s.embedding.embedBatchSize > 0, "embedding.embed_batch_size", "x > 0");
    var rag := RAGErrors(s.rag);
    var port := Check(0 < s.server.port <= 65535, "server.port", "0 < x <= 65535");
    var batchError, portError := FieldError("embedding.embed_batch_size", "x > 0"), FieldError("server.port", "0 < x <= 65535");
    assert batchError !in llm && batchError !in rag && batchError !in port;
    assert portError !in llm && portError !in batch && portError !in rag;
    llm + batch + rag + port
  }

  // ===== remove_none_values =====

  /** `remove_none_values(d)`: a value that is not a dict is returned as it is; a dict
      loses every member whose value is None and keeps the others, in order, with their
      values cleaned in turn. Lists are not descended into. */
  function RemoveNoneValues(v: Value): (r: Value)
    ensures !v.Dict? ==> r == v
    ensures v.Dict? ==> r.Dict? && |r.members| <= |v.members|
  {
    match v
    case Dict(ms) => Dict(CleanMembers(ms))
    case _ => v
  }

  /** The dict comprehension `{k: remove_none_values(v) for k, v in d.items() if v is not None}`. */
  function CleanMembers(ms: seq<Member>): (r: seq<Member>)
    ensures |r| <= |ms|
  {
    if ms == [] then []
    else if ms[0].value.Null? then CleanMembers(ms[1..])
    else [Member(ms[0].key, RemoveNoneValues(ms[0].value))] + CleanMembers(ms[1..])
  }

  /** No dict reachable from `v` through dict values holds a None value. */
  predicate NoNone(v: Value) {
    match v
    case Dict(ms) => forall i | 0 <= i < |ms| :: !ms[i].value.Null? && NoNone(ms[i].value)
    case _ => true
  }

  /** A key of the cleaned dict is a key of the original. */
  lemma {:induction false} CleanMembersKeys(ms: seq<Member>, k: string)
    ensures Get(CleanMembers(ms), k).Some? ==> Get(ms, k).Some?
  {
    if ms != [] {
      CleanMembersKeys(ms[1..], k);
    }
  }

  /** Cleaning keeps the keys of a dict distinct. */
  lemma {:induction false} CleanMembersUnique(ms: seq<Member>)
    requires UniqueKeys(ms)
    ensures UniqueKeys(CleanMembers(ms))
  {
    if ms != [] {
      var rest := CleanMembers(ms[1..]);
      assert UniqueKeys(ms[1..]);
      CleanMembersUnique(ms[1..]);
      if !ms[0].value.Null? {
        forall j | 0 <= j < |rest| ensures rest[j].key != ms[0].key {
          CleanMembersKeys(ms[1..], rest[j].key);
          assert Get(rest, rest[j].key).Some?;
        }
      }
    }
  }

  /** The cleaned dict maps exactly the keys whose value is not None, each to its
      recursively cleaned value. */
  lemma {:induction false} CleanMembersLookup(ms: seq<Member>, k: string)
    requires UniqueKeys(ms)
    ensures Get(CleanMembers(ms), k) ==
      match Get(ms, k)
      case None => None
      case Some(x) => if x.Null? then None else Some(RemoveNoneValues(x))
  {
    if ms != [] {
      assert UniqueKeys(ms[1..]);
      CleanMembersLookup(ms[1..], k);
      if ms[0].key == k {
        // k occurs at most once, so the rest of the dict does not hold it
        assert Get(ms[1..], k).None? by {
          forall i | 0 <= i < |ms[1..]| ensures ms[1..][i].key != k {
            assert ms[1..][i] == ms[i + 1];
          }
        }
      }
    }
  }

  /** After cleaning, no dict reachable through dict values holds a None value. */
  lemma {:induction false} RemoveNoneValuesLeavesNoNone(v: Value)
    ensures NoNone(RemoveNoneValues(v))
  {
    if v.Dict? {
      CleanMembersLeaveNoNone(v.members);
    }
  }

  lemma {:induction false} CleanMembersLeaveNoNone(ms: seq<Member>)
    ensures forall i | 0 <= i < |CleanMembers(ms)| ::
      !CleanMembers(ms)[i].value.Null? && NoNone(CleanMembers(ms)[i].value)
  {
    if ms != [] {
      CleanMembersLeaveNoNone(ms[1..]);
      if !ms[0].value.Null? {
        RemoveNoneValuesLeavesNoNone(ms[0].value);
        assert !RemoveNoneValues(ms[0].value).Null?;
      }
    }
  }

  /** A value with no reachable None is left unchanged. */
  lemma {:induction false} RemoveNoneValuesFixes(v: Value)
    requires NoNone(v)
    ensures RemoveNoneValues(v) == v
  {
    if v.Dict? {
      CleanMembersFix(v.members);
    }
  }

  lemma {:induction false} CleanMembersFix(ms: seq<Member>)
    requires forall i | 0 <= i < |ms| :: !ms[i].value.Null? && NoNone(ms[i].value)
    ensures CleanMembers(ms) == ms
  {
    if ms != [] {
      CleanMembersFix(ms[1..]);
      RemoveNoneValuesFixes(ms[0].value);
    }
  }

  /** Cleaning is idempotent. */
  lemma RemoveNoneValuesIdempotent(v: Value)
    ensures RemoveNoneValues(RemoveNoneValues(v)) == RemoveNoneValues(v)
  {
    RemoveNoneValuesLeavesNoNone(v);
    RemoveNoneValuesFixes(RemoveNoneValues(v));
  }

  // ===== from_yaml =====

  datatype LoadError =
    | FileNotFound(path: string)
    | NotAMapping
    | Invalid(errors: seq<FieldError>)
  {
    function Message(): string {
      match this
      case FileNotFound(p) => "Config file not found: " + p
      case NotAMapping => "Settings() argument after ** must be a mapping"
      case Invalid(_) => "validation error for Settings"
    }
  }

  /** Python truthiness of a loaded document: None, False, 0, 0.0, "", [] and {} are false. */
  predicate Truthy(v: Value) {
    match v
    case Null => false
    case Bool(b) => b
    case Int(i) => i != 0
    case Float(t) => t != "0.0" && t != "-0.0"
    case Str(s) => s != ""
    case List(items) => items != []
    case Dict(ms) => ms != []
  }

  /** The keyword arguments `Settings.from_yaml` passes to `Settings(**config_data)`:
      a missing file fails, a document that is empty (or otherwise false) counts as `{}`,
      the document is cleaned by `remove_none_values`, and it must be a mapping.
      `fileExists` and `document` stand for the file-system check and the parsed YAML. */
  function FromYamlArguments(path: string, fileExists: bool, document: Value): (r: Result<seq<Member>, LoadError>)
    ensures !fileExists <==> r == Err(FileNotFound(path))
    ensures fileExists && !Truthy(document) ==> r == Ok([])
    ensures fileExists && Truthy(document) && !document.Dict? ==> r == Err(NotAMapping)
    ensures r.Ok? ==> NoNone(Dict(r.value))
  {
    if !fileExists then Err(FileNotFound(path))
    else
      var data := if Truthy(document) then document else Dict([]);
      var cleaned := RemoveNoneValues(data);
      RemoveNoneValuesLeavesNoNone(data);
      if cleaned.Dict? then Ok(cleaned.members) else Err(NotAMapping)
  }

  /** For a YAML mapping, the arguments keep distinct keys and hold exactly the document's
      keys whose value is not None, each with its cleaned value. */
  lemma FromYamlArgumentsLookup(path: string, document: Value, k: string)
    requires document.Dict? && UniqueKeys(document.members)
    ensures FromYamlArguments(path, true, document).Ok?
    ensures UniqueKeys(FromYamlArguments(path, true, document).value)
    ensures Get(FromYamlArguments(path, true, document).value, k) ==
      match Get(document.members, k)
      case None => None
      case Some(x) => if x.Null? then None else Some(RemoveNoneValues(x))
  {
    CleanMembersUnique(document.members);
    CleanMembersLookup(document.members, k);
  }

  // ===== get_settings / set_settings =====

  /** The module-level `_settings` global. */
  class SettingsCell {
    var current: Option<Settings>

    /** A `Settings` object exists only once pydantic has validated it, so the global,
        when set, satisfies the field constraints. */
    ghost predicate Valid()
      reads this
    {
      current.Some? ==> current.value.Valid()
    }

    constructor ()
      ensures Valid() && current == None
    {
      current := None;
    }

    /** `get_settings()`: while the global is None it is built, from `config.yaml` when
        that file exists (with `loaded` as the outcome of `Settings.from_yaml`) and from
        the defaults otherwise; once set it is returned as it is. A failed load raises and
        leaves the global None. */
    method GetSettings(configExists: bool, loaded: Result<Settings, LoadError>) returns (r: Result<Settings, LoadError>)
      requires Valid() && (loaded.Ok? ==> loaded.value.Valid())
      modifies this
      ensures Valid() && (r.Ok? ==> r.value.Valid())
      ensures old(current).Some? ==> r == Ok(old(current).value) && current == old(current)
      ensures old(current).None? && !configExists ==>
        r == Ok(DefaultSettings()) && current == Some(DefaultSettings())
      ensures old(current).None? && configExists ==>
        r == loaded && current == (if loaded.Ok? then Some(loaded.value) else None)
    {
      if current.None? {
        if configExists {
          if loaded.Err? {
            return loaded;
          }
          current := Some(loaded.value);
        } else {
          current := Some(DefaultSettings());
        }
      }
      r := Ok(current.value);
    }

    /** `set_settings(s)`. */
    method SetSettings(s: Settings)
      requires s.Valid()
      modifies this
      ensures Valid() && current == Some(s)
    {
      current := Some(s);
    }
  }

  /** After `set_settings(s)` every later `get_settings()` returns `s`, whatever the file system holds. */
  method SetThenGet(cell: SettingsCell, s: Settings, configExists: bool, loaded: Result<Settings, LoadError>)
    returns (first: Result<Settings, LoadError>, second: Result<Settings, LoadError>)
    requires cell.Valid() && s.Valid() && (loaded.Ok? ==> loaded.value.Valid())
    modifies cell
    ensures first == Ok(s) && second == Ok(s) && cell.current == Some(s)
  {
    cell.SetSettings(s);
    first := cell.GetSettings(configExists, loaded);
    second := cell.GetSettings(configExists, loaded);
  }

  /** Once built, the global is never rebuilt: a second call returns what the first returned. */
  method GetTwice(cell: SettingsCell, configExists: bool, loaded: Result<Settings, LoadError>,
                  laterExists: bool, laterLoaded: Result<Settings, LoadError>)
    returns (first: Result<Settings, LoadError>, second: Result<Settings, LoadError>)
    requires cell.Valid() && (loaded.Ok? ==> loaded.value.Valid()) && (laterLoaded.Ok? ==> laterLoaded.value.Valid())
    modifies cell
    ensures first.Ok? ==> second == first
  {
    first := cell.GetSettings(configExists, loaded);
    second := cell.GetSettings(laterExists, laterLoaded);
  }
}
