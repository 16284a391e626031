/**
 * Helpers of the eventual-consistency service (ecc/app/ecc_util.py): the chunker
 * chosen from the configuration, with its defaults, and the completion provider.
 */
module EccUtil {
  import opened Wrappers
  import opened Text
  import opened Json
  import Config

  /** A chunker with the settings it is built with. */
  datatype Chunker =
    | Semantic(splitMethod: Json, threshold: Json)
    | Regex(pattern: Json)
    | Character(chunkSize: Json, overlapSize: Json)
    | Markdown(chunkSize: Json, chunkOverlap: Json)
  {
    /** The chunker type name that selects this variant. */
    function Kind(): string {
      match this
      case Semantic(_, _) => "semantic"
      case Regex(_) => "regex"
      case Character(_, _) => "character"
      case Markdown(_, _) => "markdown"
    }
  }

  /** The chunker type in effect: the argument, or the configured "chunker" when the argument is empty. */
  function EffectiveType(chunkerType: string, graphragConfig: map<string, Json>): Json {
    if chunkerType == "" then Get(graphragConfig, "chunker") else JStr(chunkerType)
  }

  predicate KnownKind(t: Json) {
    t.JStr? && t.s in {"semantic", "regex", "character", "markdown"}
  }

  /**
   * `get_chunker`. Settings come from the "chunker_config" dict, each with its default;
   * any other chunker type raises. A "chunker_config" that is not a dict raises when read.
   */
  function GetChunker(chunkerType: string, graphragConfig: map<string, Json>): (r: Result<Chunker>)
    ensures var t := EffectiveType(chunkerType, graphragConfig);
      r.Ok? <==> KnownKind(t) && GetOr(graphragConfig, "chunker_config", JObj(map[])).JObj?
    ensures r.Ok? ==> JStr(r.value.Kind()) == EffectiveType(chunkerType, graphragConfig)
    ensures r.Ok? ==> var c := GetOr(graphragConfig, "chunker_config", JObj(map[])).fields;
      match r.value
      case Semantic(m, th) => m == GetOr(c, "method", JStr("percentile")) && th == GetOr(c, "threshold", JReal(0.95))
      case Regex(p) => p == GetOr(c, "pattern", JStr("\\r?\\n"))
      case Character(size, overlap) => size == GetOr(c, "chunk_size", JInt(1024)) && overlap == GetOr(c, "overlap_size", JInt(0))
      case Markdown(size, overlap) => size == GetOr(c, "chunk_size", JInt(1024)) && overlap == GetOr(c, "overlap_size", JInt(0))
  {
    var t := EffectiveType(chunkerType, graphragConfig);
    var config := GetOr(graphragConfig, "chunker_config", JObj(map[]));
    if !KnownKind(t) then Err("Invalid chunker type")
    else if !config.JObj? then Err("AttributeError: chunker_config has no get")
    else
      var c := config.fields;
      if t.s == "semantic" then Ok(Semantic(GetOr(c, "method", JStr("percentile")), GetOr(c, "threshold", JReal(0.95))))
      else if t.s == "regex" then Ok(Regex(GetOr(c, "pattern", JStr("\\r?\\n"))))
      else if t.s == "character" then Ok(Character(GetOr(c, "chunk_size", JInt(1024)), GetOr(c, "overlap_size", JInt(0))))
      else Ok(Markdown(GetOr(c, "chunk_size", JInt(1024)), GetOr(c, "overlap_size", JInt(0))))
  }

  /** An empty chunker type falls back to the configured one. */
  lemma EmptyTypeFallsBack(graphragConfig: map<string, Json>, t: string)
    requires t != "" && Get(graphragConfig, "chunker") == JStr(t)
    ensures GetChunker("", graphragConfig) == GetChunker(t, graphragConfig)
  {
  }

  /** The providers the service knows: all of the shared list except GenAI and WatsonX. */
  predicate EccSupports(p: Config.LlmProvider) {
    !p.GenAI? && !p.WatsonX?
  }

  /**
   * `get_llm_service`: one of eight providers by lower-cased name. Any other name leaves
   * the provider unbound, which raises.
   */
  function GetLlmService(llmConfig: map<string, Json>): (r: Result<Config.LlmProvider>)
    ensures r.Ok? ==> EccSupports(r.value)
    ensures r.Ok? ==> Config.GetLlmService(llmConfig) == r
    ensures Config.GetLlmService(llmConfig).Ok? && EccSupports(Config.GetLlmService(llmConfig).value) ==> r.Ok?
  {
    match Config.StringAt(llmConfig, "completion_service", "llm_service")
    case None => Err("KeyError: completion_service.llm_service")
    case Some(name) =>
      match Config.LlmFor(name)
      case Some(p) => if EccSupports(p) then Ok(p) else Err("UnboundLocalError: llm_provider")
      case None => Err("UnboundLocalError: llm_provider")
  }

  /** "genai" is served by the shared configuration but not by this service. */
  lemma GenAIOnlyInConfig(llmConfig: map<string, Json>)
    requires Config.StringAt(llmConfig, "completion_service", "llm_service") == Some("genai")
    ensures Config.GetLlmService(llmConfig) == Ok(Config.GenAI)
    ensures GetLlmService(llmConfig).Err?
  {
    assert Lower("genai") == "genai";
  }
}
