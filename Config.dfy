/**
 * Service configuration (common/config.py): the URL path prefix, where the server
 * configuration comes from, the defaults and model-name synchronisation applied to
 * it, and the choice of embedding and completion providers by name.
 */
module Config {
  import opened Wrappers
  import opened Text
  import opened Json

  // ---------------------------------------------------------------- PATH_PREFIX

  /** The prefix with a "/" put in front when it is non-empty and lacks one. */
  function Rooted(prefix: string): string {
    if prefix != "" && prefix[0] != '/' then "/" + prefix else prefix
  }

  /** PATH_PREFIX: a leading "/" is added to a non-empty value and one trailing "/" is dropped. */
  method NormalisePathPrefix(value: string) returns (prefix: string)
    ensures value == "" ==> prefix == ""
    ensures prefix == "" || prefix[0] == '/'
    ensures Rooted(value) == prefix || Rooted(value) == prefix + "/"
    ensures Rooted(value) == prefix + "/" <==> EndsWith(value, "/")
  {
    prefix := value;
    if !StartsWith(prefix, "/") && |prefix| != 0 {
      prefix := "/" + prefix;
    }
    if EndsWith(prefix, "/") {
      prefix := prefix[..|prefix| - 1];
    }
  }

  // ---------------------------------------------------------------- SERVER_CONFIG

  /** Python's `s[-n:]`: the last `n` characters, or all of a shorter string. */
  function Tail(s: string, n: nat): string {
    if |s| >= n then s[|s| - n..] else s
  }

  /** `s[-5:] != ".json"` is exactly "does not end in .json". */
  lemma TailIsSuffix(s: string)
    ensures Tail(s, 5) == ".json" <==> EndsWith(s, ".json")
  {
  }

  const ParseFailure := "SERVER_CONFIG environment variable must be a .json file or a JSON string, failed with error: "

  /**
   * SERVER_CONFIG names a file when it ends in ".json" and otherwise holds the JSON text
   * itself. `parse` is `json.loads` and `readFile` is reading and parsing a file.
   */
  function LoadServerConfig(serverConfig: string, parse: string -> Result<Json>, readFile: string -> Result<Json>): (r: Result<Json>)
    ensures EndsWith(serverConfig, ".json") ==> r == readFile(serverConfig)
    ensures !EndsWith(serverConfig, ".json") && parse(serverConfig).Ok? ==> r == parse(serverConfig)
    ensures !EndsWith(serverConfig, ".json") && parse(serverConfig).Err? ==>
      r.Err? && StartsWith(r.error, ParseFailure)
  {
    TailIsSuffix(serverConfig);
    if Tail(serverConfig, 5) != ".json" then
      match parse(serverConfig)
      case Ok(j) => Ok(j)
      case Err(e) =>
        assert (ParseFailure + e)[..|ParseFailure|] == ParseFailure;
        Err(ParseFailure + e)
    else readFile(serverConfig)
  }

  // ---------------------------------------------------------------- providers

  datatype EmbeddingProvider = OpenAIEmbedding | AzureAda002 | VertexAIPaLM | GenAIEmbedding | BedrockEmbedding
  {
    /** The lower-case name that selects this provider. */
    function Name(): string {
      match this
      case OpenAIEmbedding => "openai"
      case AzureAda002 => "azure"
      case VertexAIPaLM => "vertexai"
      case GenAIEmbedding => "genai"
      case BedrockEmbedding => "bedrock"
    }
  }

  datatype LlmProvider = OpenAI | AzureOpenAI | SageMaker | VertexAI | GenAI | Bedrock | Groq | Ollama | HuggingFace | WatsonX
  {
    /** The lower-case name that selects this provider. */
    function Name(): string {
      match this
      case OpenAI => "openai"
      case AzureOpenAI => "azure"
      case SageMaker => "sagemaker"
      case VertexAI => "vertexai"
      case GenAI => "genai"
      case Bedrock => "bedrock"
      case Groq => "groq"
      case Ollama => "ollama"
      case HuggingFace => "huggingface"
      case WatsonX => "watsonx"
    }
  }

  function EmbeddingFor(name: string): (r: Option<EmbeddingProvider>)
    ensures r.Some? ==> r.value.Name() == Lower(name)
    ensures r.None? ==> forall p: EmbeddingProvider :: p.Name() != Lower(name)
  {
    var n := Lower(name);
    if n == "openai" then Some(OpenAIEmbedding)
    else if n == "azure" then Some(AzureAda002)
    else if n == "vertexai" then Some(VertexAIPaLM)
    else if n == "genai" then Some(GenAIEmbedding)
    else if n == "bedrock" then Some(BedrockEmbedding)
    else None
  }

  function LlmFor(name: string): (r: Option<LlmProvider>)
    ensures r.Some? ==> r.value.Name() == Lower(name)
    ensures r.None? ==> forall p: LlmProvider :: p.Name() != Lower(name)
  {
    var n := Lower(name);
    if n == "openai" then Some(OpenAI)
    else if n == "azure" then Some(AzureOpenAI)
    else if n == "sagemaker" then Some(SageMaker)
    else if n == "vertexai" then Some(VertexAI)
    else if n == "genai" then Some(GenAI)
    else if n == "bedrock" then Some(Bedrock)
    else if n == "groq" then Some(Groq)
    else if n == "ollama" then Some(Ollama)
    else if n == "huggingface" then Some(HuggingFace)
    else if n == "watsonx" then Some(WatsonX)
    else None
  }

  /** Each provider is selected by its own name, whatever its case. */
  lemma LlmForName(p: LlmProvider, name: string)
    requires Lower(name) == p.Name()
    ensures LlmFor(name) == Some(p)
  {
  }

  /** `d[k1][k2]` where the inner value must be a string. */
  function StringAt(d: map<string, Json>, k1: string, k2: string): Option<string> {
    if k1 in d && d[k1].JObj? && k2 in d[k1].fields && d[k1].fields[k2].JStr? then Some(d[k1].fields[k2].s) else None
  }

  /** `get_llm_service`: the provider named by `completion_service.llm_service`, any case. */
  function GetLlmService(llmConfig: map<string, Json>): (r: Result<LlmProvider>)
    ensures r.Ok? <==> (StringAt(llmConfig, "completion_service", "llm_service").Some?
      && exists p: LlmProvider :: p.Name() == Lower(StringAt(llmConfig, "completion_service", "llm_service").value))
    ensures r.Ok? ==> r.value.Name() == Lower(StringAt(llmConfig, "completion_service", "llm_service").value)
  {
    match StringAt(llmConfig, "completion_service", "llm_service")
    case None => Err("KeyError: completion_service.llm_service")
    case Some(name) =>
      match LlmFor(name)
      case Some(p) => Ok(p)
      case None => Err("LLM Completion Service Not Supported")
  }

  // ---------------------------------------------------------------- server configuration

  /** The configuration after start-up: the three sections and the chosen embedding service. */
  datatype Settings = Settings(
    dbConfig: Json,
    llmConfig: map<string, Json>,
    graphragConfig: map<string, Json>,
    embedding: EmbeddingProvider)

  /** The model name of the embedding section, if that section is a dict holding one. */
  function EmbeddingModel(llm: map<string, Json>): Option<Json> {
    if "embedding_service" in llm && llm["embedding_service"].JObj? && "model_name" in llm["embedding_service"].fields
    then Some(llm["embedding_service"].fields["model_name"])
    else None
  }

  /** graphrag_config with "chunker" and "extractor" set only where they are absent. */
  function GraphragDefaults(g: map<string, Json>): (r: map<string, Json>)
    ensures r.Keys == g.Keys + {"chunker", "extractor"}
    ensures forall k :: k in g ==> r[k] == g[k]
    ensures "chunker" !in g ==> r["chunker"] == JStr("semantic")
    ensures "extractor" !in g ==> r["extractor"] == JStr("llm")
  {
    SetDefault(SetDefault(g, "chunker", JStr("semantic")), "extractor", JStr("llm"))
  }

  /**
   * The model name copied between the top level of llm_config and its embedding
   * section, whichever lacks it; raises when neither has one, or when the top level
   * has one and the embedding section is not a dict.
   */
  function CopyModelName(llm: map<string, Json>): (r: Result<map<string, Json>>)
    ensures r.Err? <==> (EmbeddingModel(llm).None? &&
      ("model_name" !in llm || "embedding_service" !in llm || !llm["embedding_service"].JObj?))
    ensures r.Ok? ==> "model_name" in r.value && EmbeddingModel(r.value).Some?
    ensures r.Ok? && "model_name" !in llm ==> r.value["model_name"] == EmbeddingModel(llm).value
    ensures r.Ok? && "model_name" in llm ==> r.value["model_name"] == llm["model_name"]
    ensures r.Ok? && EmbeddingModel(llm).Some? ==> EmbeddingModel(r.value) == EmbeddingModel(llm)
    ensures r.Ok? && EmbeddingModel(llm).None? ==> EmbeddingModel(r.value) == Some(llm["model_name"])
    ensures r.Ok? ==>
      StringAt(r.value, "embedding_service", "embedding_model_service") == StringAt(llm, "embedding_service", "embedding_model_service")
  {
    if "model_name" in llm && EmbeddingModel(llm).Some? then Ok(llm)
    else if "model_name" !in llm then
      if EmbeddingModel(llm).None? then Err("KeyError: model_name")
      else Ok(llm["model_name" := EmbeddingModel(llm).value])
    else if "embedding_service" !in llm || !llm["embedding_service"].JObj? then Err("KeyError: embedding_service")
    else
      var service := llm["embedding_service"].fields;
      Ok(llm["embedding_service" := JObj(service["model_name" := llm["model_name"]])])
  }

  /**
   * The checks and defaults applied to the loaded server configuration: db_config and
   * llm_config must be present; graphrag_config gains "chunker" and "extractor" only
   * when absent; model_name is copied between the top level and embedding_service
   * when one of them lacks it; the embedding service is chosen by name.
   */
  method Configure(server: Json) returns (r: Result<Settings>)
    ensures r.Ok? ==> server.JObj?
    ensures server.JObj? && (Get(server.fields, "db_config") == JNull || Get(server.fields, "llm_config") == JNull) ==> r.Err?
    ensures server.JObj? && Get(server.fields, "graphrag_config") == JNull ==> r.Err?
    ensures r.Ok? ==> var g := server.fields["graphrag_config"];
      && g.JObj?
      && r.value.graphragConfig == GraphragDefaults(g.fields)
    ensures r.Ok? ==> var llm := server.fields["llm_config"];
      && llm.JObj?
      && r.value.dbConfig == server.fields["db_config"]
      && CopyModelName(llm.fields) == Ok(r.value.llmConfig)
      && StringAt(r.value.llmConfig, "embedding_service", "embedding_model_service").Some?
      && r.value.embedding.Name() == Lower(StringAt(r.value.llmConfig, "embedding_service", "embedding_model_service").value)
    ensures (server.JObj? && Get(server.fields, "db_config") != JNull
             && Get(server.fields, "llm_config").JObj? && Get(server.fields, "graphrag_config").JObj?
             && CopyModelName(Get(server.fields, "llm_config").fields).Ok?
             && var llm := CopyModelName(Get(server.fields, "llm_config").fields).value;
                && StringAt(llm, "embedding_service", "embedding_model_service").Some?
                && EmbeddingFor(StringAt(llm, "embedding_service", "embedding_model_service").value).Some?) ==> r.Ok?
  {
    if !server.JObj? {
      return Err("AttributeError: server_config has no get");
    }
    var dbConfig := Get(server.fields, "db_config");
    var llmConfig := Get(server.fields, "llm_config");
    var graphragConfig := Get(server.fields, "graphrag_config");
    if dbConfig == JNull {
      return Err("graphrag_config is not found in SERVER_CONFIG");
    }
    if llmConfig == JNull {
      return Err("graphrag_config is not found in SERVER_CONFIG");
    }
    if graphragConfig == JNull {
      // the fallback literal refers to an undefined name and raises
      return Err("NameError: true");
    }
    if !graphragConfig.JObj? || !llmConfig.JObj? {
      return Err("TypeError: configuration section is not a dict");
    }
    var graphrag := GraphragDefaults(graphragConfig.fields);

    var copied := CopyModelName(llmConfig.fields);
    if copied.Err? {
      return Err(copied.error);
    }
    var llm := copied.value;

    var serviceName := StringAt(llm, "embedding_service", "embedding_model_service");
    if serviceName.None? {
      return Err("KeyError: embedding_model_service");
    }
    var embedding := EmbeddingFor(serviceName.value);
    if embedding.None? {
      return Err("Embedding service not implemented");
    }
    r := Ok(Settings(dbConfig, llm, graphrag, embedding.value));
  }
}
