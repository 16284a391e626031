/**
 * The SupportAI endpoints (graphrag/app/routers/supportai.py): the checks and the
 * output parsing of `ingest`, the defaults `search` and `answer_question` fill into
 * the request's method parameters and the retriever they dispatch to, and the
 * `forceupdate` relay to the consistency service. The database, the retrievers and
 * the HTTP client are parameters or left out.
 */
module SupportaiRouter {
  import opened Wrappers
  import opened Text
  import opened Json
  import Schemas
  import EccMain

  // ---------------------------------------------------------------- ingest

  /** The loading request; each field may be missing. */
  datatype LoadingInfo = LoadingInfo(filePath: Option<string>, loadJobId: Option<string>, dataSourceId: Option<string>)

  /** What `ingest` answers. */
  datatype IngestReply = IngestReply(jobName: string, jobId: string, logLocation: string)

  /** The line the database prints before the details of a background loading job. */
  const Marker := "Running the following loading job in background with '-noprint' option:"
  const JobIdKey := "Jobid: "
  const LogKey := "Log directory: "

  /** The statement that runs the loading job in the background. */
  function LoadCommand(graphname: string, loadJobId: string, dataSourceId: string, filePath: string): string {
    "USE GRAPH " + graphname + "\nRUN LOADING JOB -noprint " + loadJobId + " USING DocumentContent=\"$"
      + dataSourceId + ":" + filePath + "\""
  }

  /**
   * `res.split(Marker)[1].split(key)[1].split("\n")[0]`: the rest of the line after
   * `key` in the text following the marker. A missing marker or key raises.
   */
  function JobField(res: string, key: string): (r: Result<string>)
    requires |key| > 0
    ensures r.Ok? <==> Contains(res, Marker) && Contains(SecondField(res, Marker).value, key)
    ensures r.Ok? ==> !Contains(r.value, "\n") && StartsWith(SecondField(SecondField(res, Marker).value, key).value, r.value)
    ensures r.Ok? ==> var v := SecondField(SecondField(res, Marker).value, key).value;
      v == r.value || StartsWith(v[|r.value|..], "\n")
  {
    match SecondField(res, Marker)
    case None => Err("IndexError: list index out of range")
    case Some(segment) =>
      match SecondField(segment, key)
      case None => Err("IndexError: list index out of range")
      case Some(v) => Ok(Before(v, "\n"))
  }

  /**
   * `ingest`: the three fields are checked in order before the database is asked
   * anything; a failure whose text holds the background-job marker is read as the
   * output, any other failure propagates. `gsql` is the database call.
   */
  function Ingest(graphname: string, info: LoadingInfo, gsql: string -> Result<string>): (r: Result<IngestReply>)
    ensures info.filePath.None? ==> r == Err("File path not provided")
    ensures info.filePath.Some? && info.loadJobId.None? ==> r == Err("Load job id not provided")
    ensures info.filePath.Some? && info.loadJobId.Some? && info.dataSourceId.None? ==> r == Err("Data source id not provided")
    ensures r.Ok? ==>
      && info.filePath.Some? && info.loadJobId.Some? && info.dataSourceId.Some?
      && var out := gsql(LoadCommand(graphname, info.loadJobId.value, info.dataSourceId.value, info.filePath.value));
      var text := if out.Ok? then out.value else out.error;
      && (out.Err? ==> Contains(out.error, Marker))
      && JobField(text, JobIdKey).Ok? && JobField(text, LogKey).Ok?
      && r.value == IngestReply(info.loadJobId.value, JobField(text, JobIdKey).value, JobField(text, LogKey).value)
    ensures info.filePath.Some? && info.loadJobId.Some? && info.dataSourceId.Some? ==>
      var out := gsql(LoadCommand(graphname, info.loadJobId.value, info.dataSourceId.value, info.filePath.value));
      out.Err? && !Contains(out.error, Marker) ==> r == Err(out.error)
    ensures info.filePath.Some? && info.loadJobId.Some? && info.dataSourceId.Some? ==>
      var out := gsql(LoadCommand(graphname, info.loadJobId.value, info.dataSourceId.value, info.filePath.value));
      var text := if out.Ok? then out.value else out.error;
      (out.Ok? || Contains(out.error, Marker)) && JobField(text, JobIdKey).Ok? && JobField(text, LogKey).Ok? ==> r.Ok?
  {
    if info.filePath.None? then Err("File path not provided")
    else if info.loadJobId.None? then Err("Load job id not provided")
    else if info.dataSourceId.None? then Err("Data source id not provided")
    else
      var out := gsql(LoadCommand(graphname, info.loadJobId.value, info.dataSourceId.value, info.filePath.value));
      if out.Err? && !Contains(out.error, Marker) then Err(out.error)
      else
        var text := if out.Ok? then out.value else out.error;
        match (JobField(text, JobIdKey), JobField(text, LogKey))
        case (Ok(id), Ok(log)) => Ok(IngestReply(info.loadJobId.value, id, log))
        case (Err(e), _) => Err(e)
        case (_, Err(e)) => Err(e)
  }

  /** `p + b` starts with `p`, so the text after the first `p` is `b`. */
  lemma AfterLeading(p: string, b: string)
    requires |p| > 0
    ensures After(p + b, p) == Some(b)
  {
    assert (p + b)[0..][..|p|] == p;
  }

  /** A text without `sep` is its own first field. */
  lemma BeforeAbsent(s: string, sep: string)
    requires |sep| > 0 && !Contains(s, sep)
    ensures Before(s, sep) == s
  {
  }

  /**
   * Reading a field back: when the output is some text, the marker, then a body in
   * which some text precedes `key`, the value and a line break, the field is that
   * value. The marker and the key must first occur where shown, the marker only once,
   * and neither the value nor the key holds a line break, nor the value the key.
   */
  lemma JobFieldReadsBack(res: string, key: string, head: string, body: string, pre: string, value: string, tail: string)
    requires |key| > 0 && '\n' !in key && '\n' !in value && !Contains(value, key)
    requires res == head + Marker + body && Find(head + Marker, Marker) == Some(|head|) && !Contains(body, Marker)
    requires body == pre + key + (value + "\n" + tail) && Find(pre + key, key) == Some(|pre|)
    ensures JobField(res, key) == Ok(value)
  {
    OnlySecondField(head, Marker, body);
    LineAfterKey(body, pre, key, value, tail);
    JobFieldFrom(res, key, body, SecondField(body, key).value);
  }

  /** The field is the first line of the text between the first two keys of the text after the marker. */
  lemma JobFieldFrom(res: string, key: string, body: string, v: string)
    requires |key| > 0 && SecondField(res, Marker) == Some(body) && SecondField(body, key) == Some(v)
    ensures JobField(res, key) == Ok(Before(v, "\n"))
  {
  }

  /** The text after the only `sep`, when `sep` first occurs right after `head`. */
  lemma OnlySecondField(head: string, sep: string, body: string)
    requires |sep| > 0 && Find(head + sep, sep) == Some(|head|) && !Contains(body, sep)
    ensures SecondField(head + sep + body, sep) == Some(body)
  {
    AfterFirst(head, sep, body);
    BeforeAbsent(body, sep);
  }

  /** The line after the first `key`, when `key` first occurs right after `pre`. */
  lemma LineAfterKey(body: string, pre: string, key: string, value: string, tail: string)
    requires |key| > 0 && '\n' !in key && '\n' !in value && !Contains(value, key)
    requires body == pre + key + (value + "\n" + tail) && Find(pre + key, key) == Some(|pre|)
    ensures SecondField(body, key).Some? && Before(SecondField(body, key).value, "\n") == value
  {
    AfterFirst(pre, key, value + "\n" + tail);
    FirstLineOfRest(value, tail, key);
  }

  /** The first line of the text before `key` in `value + "\n" + tail` is `value`. */
  lemma FirstLineOfRest(value: string, tail: string, key: string)
    requires |key| > 0 && '\n' !in key && '\n' !in value && !Contains(value, key)
    ensures Before(Before(value + "\n" + tail, key), "\n") == value
  {
    var v := Before(value + "\n" + tail, key);
    KeyAfterLine(value, tail, key);
    PrefixPastLine(value, tail, v);
    BeforeLineBreak(value, v[|value| + 1..]);
  }

  /** A prefix of `value + "\n" + tail` longer than `value` holds `value` and the line break. */
  lemma PrefixPastLine(value: string, tail: string, v: string)
    requires StartsWith(value + "\n" + tail, v) && |v| > |value|
    ensures v == value + "\n" + v[|value| + 1..]
  {
    assert v[..|value|] == value;
  }

  /** The first `key` in `value + "\n" + tail` lies past the line break, as neither `value` nor `key` can hold it. */
  lemma KeyAfterLine(value: string, tail: string, key: string)
    requires |key| > 0 && '\n' !in key && '\n' !in value && !Contains(value, key)
    ensures |Before(value + "\n" + tail, key)| > |value|
  {
    var rest := "\n" + tail;
    assert value + "\n" + tail == value + rest;
    NoKeyInLine(value, rest, key);
    match Find(value + rest, key)
    case None =>
    case Some(i) => assert i > |value|;
  }

  /** No `key` starts within the first line of `value + rest` when `rest` opens a new line. */
  lemma NoKeyInLine(value: string, rest: string, key: string)
    requires |key| > 0 && '\n' !in key && !Contains(value, key) && |rest| > 0 && rest[0] == '\n'
    ensures forall j :: 0 <= j <= |value| ==> !StartsWith((value + rest)[j..], key)
  {
    forall j | 0 <= j <= |value| ensures !StartsWith((value + rest)[j..], key) {
      if j + |key| <= |value| {
        MatchWithinPrefix(value, rest, j, key);
      } else if |key| <= |value + rest| - j {
        assert (value + rest)[j..][..|key|][|value| - j] == '\n';
      }
    }
  }

  // ---------------------------------------------------------------- search and answer_question

  /**
   * The `service_status` the configuration module leaves: an "ok" entry for the embedding
   * store when INIT_EMBED_STORE is unset or "true", and nothing otherwise. Building the
   * store itself is not part of this function.
   */
  function ServiceStatus(initEmbedStore: Option<string>): (r: map<string, Json>)
    ensures "embedding_store" in r <==> initEmbedStore.GetOr("true") == "true"
    ensures "embedding_store" in r ==> Index(r["embedding_store"], "error") == Some(JNull)
  {
    if initEmbedStore.GetOr("true") == "true" then
      map["embedding_store" := JObj(map["status" := JStr("ok"), "error" := JNull])]
    else map[]
  }

  /**
   * `check_embedding_store_status`: reads the store's entry and its error; a truthy
   * error reaches `HTTPException`, a name the module does not import, so it raises
   * instead of returning a response.
   */
  function StoreStatus(serviceStatus: map<string, Json>): (r: Result<()>)
    ensures r.Ok? <==> ("embedding_store" in serviceStatus
                        && Index(serviceStatus["embedding_store"], "error").Some?
                        && !Truthy(Index(serviceStatus["embedding_store"], "error").value))
    ensures "embedding_store" !in serviceStatus ==> r == Err("KeyError: embedding_store")
  {
    if "embedding_store" !in serviceStatus then Err("KeyError: embedding_store")
    else match Index(serviceStatus["embedding_store"], "error")
      case None => Err("KeyError: error")
      case Some(e) => if Truthy(e) then Err("NameError: name 'HTTPException' is not defined") else Ok(())
  }

  /** The endpoints pass the status check exactly when the embedding store was set up at start-up. */
  lemma StoreStatusAfterStartUp(initEmbedStore: Option<string>)
    ensures StoreStatus(ServiceStatus(initEmbedStore)).Ok? <==> initEmbedStore.GetOr("true") == "true"
  {
  }

  /** The request: the question, the retrieval method and its parameters, which the handlers fill in. */
  class Query {
    var question: string
    var retrieval: string
    var methodParams: map<string, Json>

    constructor(question: string, retrieval: string, methodParams: map<string, Json>)
      ensures this.question == question && this.retrieval == retrieval && this.methodParams == methodParams
    {
      this.question := question;
      this.retrieval := retrieval;
      this.methodParams := methodParams;
    }

    /** `if key not in method_params: method_params[key] = value`. */
    method FillDefault(key: string, value: Json)
      modifies this
      ensures methodParams == SetDefault(old(methodParams), key, value)
      ensures question == old(question) && retrieval == old(retrieval)
    {
      if key !in methodParams {
        methodParams := methodParams[key := value];
      }
    }

    /**
     * `search`: checks the embedding store's status, fills the defaults for the method
     * in the order the handler does and dispatches to the retriever, whose arguments
     * are read from the parameters. A failed check raises before anything is filled.
     */
    method Search(serviceStatus: map<string, Json>) returns (r: Result<Call>)
      modifies this
      ensures question == old(question) && retrieval == old(retrieval)
      ensures StoreStatus(serviceStatus).Err? ==>
        r == Err(StoreStatus(serviceStatus).error) && methodParams == old(methodParams)
      ensures StoreStatus(serviceStatus).Ok? ==>
        methodParams == SearchParams(old(methodParams), retrieval)
        && r == Dispatch(retrieval, methodParams, false, "Method " + retrieval + " not implemented")
    {
      var status := StoreStatus(serviceStatus);
      if status.Err? {
        return Err(status.error);
      }
      FillDefault("expand", JBool(false));
      FillDefault("verbose", JBool(false));
      var kind := Lower(retrieval);
      if kind == "hybrid" {
        FillDefault("method", JStr("similarity"));
        FillDefault("chunk_only", JBool(false));
        FillDefault("doc_only", JBool(false));
        FillDefault("similarity_threshold", JReal(0.90));
      } else if kind == "community" {
        FillDefault("with_chunk", JBool(true));
        FillDefault("with_doc", JBool(false));
        FillDefault("similarity_threshold", JReal(0.90));
      }
      r := Dispatch(retrieval, methodParams, false, "Method " + retrieval + " not implemented");
    }

    /** `answer_question`: as `search`, with a "combine" default and "Similarity" capitalised for hybrid. */
    method AnswerQuestion(serviceStatus: map<string, Json>) returns (r: Result<Call>)
      modifies this
      ensures question == old(question) && retrieval == old(retrieval)
      ensures StoreStatus(serviceStatus).Err? ==>
        r == Err(StoreStatus(serviceStatus).error) && methodParams == old(methodParams)
      ensures StoreStatus(serviceStatus).Ok? ==>
        methodParams == AnswerParams(old(methodParams), retrieval)
        && r == Dispatch(retrieval, methodParams, true, "Method not implemented")
    {
      var status := StoreStatus(serviceStatus);
      if status.Err? {
        return Err(status.error);
      }
      FillDefault("combine", JBool(false));
      FillDefault("expand", JBool(false));
      FillDefault("verbose", JBool(false));
      var kind := Lower(retrieval);
      if kind == "hybrid" {
        FillDefault("method", JStr("Similarity"));
        FillDefault("chunk_only", JBool(false));
        FillDefault("doc_only", JBool(false));
        FillDefault("similarity_threshold", JReal(0.90));
      } else if kind == "community" {
        FillDefault("with_chunk", JBool(true));
        FillDefault("with_doc", JBool(false));
        FillDefault("similarity_threshold", JReal(0.90));
      }
      r := Dispatch(retrieval, methodParams, true, "Method not implemented");
    }
  }

  /** The defaults of the method-specific branches: hybrid and community retrieval. */
  function MethodDefaults(params: map<string, Json>, kind: string, hybridMethod: string): (r: map<string, Json>)
    ensures r.Keys == params.Keys + (if kind == "hybrid" then {"method", "chunk_only", "doc_only", "similarity_threshold"}
                                    else if kind == "community" then {"with_chunk", "with_doc", "similarity_threshold"} else {})
    ensures forall k :: k in params ==> r[k] == params[k]
    ensures kind == "hybrid" && "method" !in params ==> r["method"] == JStr(hybridMethod)
    ensures kind == "hybrid" && "chunk_only" !in params ==> r["chunk_only"] == JBool(false)
    ensures kind == "hybrid" && "doc_only" !in params ==> r["doc_only"] == JBool(false)
    ensures kind == "community" && "with_chunk" !in params ==> r["with_chunk"] == JBool(true)
    ensures kind == "community" && "with_doc" !in params ==> r["with_doc"] == JBool(false)
    ensures kind in {"hybrid", "community"} && "similarity_threshold" !in params ==> r["similarity_threshold"] == JReal(0.90)
  {
    if kind == "hybrid" then HybridDefaults(params, hybridMethod)
    else if kind == "community" then CommunityDefaults(params)
    else params
  }

  function HybridDefaults(params: map<string, Json>, hybridMethod: string): (r: map<string, Json>)
    ensures r.Keys == params.Keys + {"method", "chunk_only", "doc_only", "similarity_threshold"}
    ensures forall k :: k in params ==> r[k] == params[k]
    ensures "method" !in params ==> r["method"] == JStr(hybridMethod)
    ensures "chunk_only" !in params ==> r["chunk_only"] == JBool(false)
    ensures "doc_only" !in params ==> r["doc_only"] == JBool(false)
    ensures "similarity_threshold" !in params ==> r["similarity_threshold"] == JReal(0.90)
  {
    var m1 := SetDefault(params, "method", JStr(hybridMethod));
    var m2 := SetDefault(m1, "chunk_only", JBool(false));
    var m3 := SetDefault(m2, "doc_only", JBool(false));
    SetDefault(m3, "similarity_threshold", JReal(0.90))
  }

  function CommunityDefaults(params: map<string, Json>): (r: map<string, Json>)
    ensures r.Keys == params.Keys + {"with_chunk", "with_doc", "similarity_threshold"}
    ensures forall k :: k in params ==> r[k] == params[k]
    ensures "with_chunk" !in params ==> r["with_chunk"] == JBool(true)
    ensures "with_doc" !in params ==> r["with_doc"] == JBool(false)
    ensures "similarity_threshold" !in params ==> r["similarity_threshold"] == JReal(0.90)
  {
    var m1 := SetDefault(params, "with_chunk", JBool(true));
    var m2 := SetDefault(m1, "with_doc", JBool(false));
    SetDefault(m2, "similarity_threshold", JReal(0.90))
  }

  /** The parameters after `search` filled its defaults. */
  function SearchParams(params: map<string, Json>, retrieval: string): (r: map<string, Json>)
    ensures params.Keys + {"expand", "verbose"} <= r.Keys
    ensures forall k :: k in params ==> r[k] == params[k]
    ensures "expand" !in params ==> r["expand"] == JBool(false)
    ensures "verbose" !in params ==> r["verbose"] == JBool(false)
  {
    MethodDefaults(SetDefault(SetDefault(params, "expand", JBool(false)), "verbose", JBool(false)), Lower(retrieval), "similarity")
  }

  /** The parameters after `answer_question` filled its defaults. */
  function AnswerParams(params: map<string, Json>, retrieval: string): (r: map<string, Json>)
    ensures params.Keys + {"combine", "expand", "verbose"} <= r.Keys
    ensures forall k :: k in params ==> r[k] == params[k]
    ensures "combine" !in params ==> r["combine"] == JBool(false)
    ensures "expand" !in params ==> r["expand"] == JBool(false)
    ensures "verbose" !in params ==> r["verbose"] == JBool(false)
  {
    MethodDefaults(SetDefault(SetDefault(SetDefault(params, "combine", JBool(false)), "expand", JBool(false)), "verbose", JBool(false)),
      Lower(retrieval), "Similarity")
  }

  /** The two endpoints fill the same defaults, except "combine" and the capital in the hybrid method. */
  lemma SearchAndAnswerDefaults(params: map<string, Json>, retrieval: string)
    requires "combine" in params
    requires Lower(retrieval) == "hybrid" ==> "method" in params
    ensures SearchParams(params, retrieval) == AnswerParams(params, retrieval)
  {
  }

  /** Filling the defaults a second time changes nothing. */
  lemma SearchParamsIdempotent(params: map<string, Json>, retrieval: string)
    ensures SearchParams(SearchParams(params, retrieval), retrieval) == SearchParams(params, retrieval)
  {
  }

  /** The retrievers the endpoints dispatch to. */
  datatype Retriever = HybridRetriever | SimilarityRetriever | SiblingRetriever | EntityRelationshipRetriever | CommunityRetriever

  /** A retriever call: the retriever and the parameter values it is passed after the question. */
  datatype Call = Call(retriever: Retriever, args: seq<Json>)

  /** The retriever chosen by the lower-cased method name. */
  function RetrieverFor(kind: string): Option<Retriever> {
    if kind == "hybrid" then Some(HybridRetriever)
    else if kind == "similarity" then Some(SimilarityRetriever)
    else if kind == "contextual" then Some(SiblingRetriever)
    else if kind == "entityrelationship" then Some(EntityRelationshipRetriever)
    else if kind == "community" then Some(CommunityRetriever)
    else None
  }

  /** The parameters a retriever is passed, in order; `answer` adds "combine" before "verbose". */
  function ArgKeys(r: Retriever, answer: bool): seq<string> {
    var tail := if answer then ["combine", "verbose"] else ["verbose"];
    match r
    case HybridRetriever =>
      ["indices", "top_k", "similarity_threshold", "num_hops", "num_seen_min", "expand", "method", "chunk_only", "doc_only"] + tail
    case SimilarityRetriever => ["index", "top_k", "withHyDE", "expand"] + tail
    case SiblingRetriever => ["index", "top_k", "lookback", "lookahead", "withHyDE", "expand"] + tail
    case EntityRelationshipRetriever => ["top_k"]
    case CommunityRetriever => ["community_level", "top_k", "similarity_threshold", "expand", "with_chunk", "with_doc"] + tail
  }

  /** `method_params[k]` for each key in order; a missing key raises. */
  function Lookup(params: map<string, Json>, keys: seq<string>): (r: Result<seq<Json>>)
    ensures r.Ok? <==> forall i :: 0 <= i < |keys| ==> keys[i] in params
    ensures r.Ok? ==> |r.value| == |keys| && forall i :: 0 <= i < |keys| ==> r.value[i] == params[keys[i]]
    decreases |keys|
  {
    if keys == [] then Ok([])
    else if keys[0] !in params then Err("KeyError: " + keys[0])
    else
      match Lookup(params, keys[1..])
      case Err(e) => Err(e)
      case Ok(rest) => Ok([params[keys[0]]] + rest)
  }

  /**
   * The dispatch on the lower-cased method name: similarity and contextual retrieval
   * need an "index"; an unknown method raises `unknown`.
   */
  function Dispatch(retrieval: string, params: map<string, Json>, answer: bool, unknown: string): (r: Result<Call>)
    ensures RetrieverFor(Lower(retrieval)).None? ==> r == Err(unknown)
    ensures r.Ok? ==> Some(r.value.retriever) == RetrieverFor(Lower(retrieval))
    ensures r.Ok? <==>
      && RetrieverFor(Lower(retrieval)).Some?
      && (Lower(retrieval) in {"similarity", "contextual"} ==> "index" in params)
      && Lookup(params, ArgKeys(RetrieverFor(Lower(retrieval)).value, answer)).Ok?
  {
    var kind := Lower(retrieval);
    match RetrieverFor(kind)
    case None => Err(unknown)
    case Some(retriever) =>
      if (kind == "similarity" || kind == "contextual") && "index" !in params then Err("Index name not provided")
      else
        match Lookup(params, ArgKeys(retriever, answer))
        case Err(e) => Err(e)
        case Ok(args) => Ok(Call(retriever, args))
  }

  /** Method names are compared case-insensitively. */
  lemma DispatchIgnoresCase(retrieval: string, params: map<string, Json>, answer: bool, unknown: string)
    ensures Dispatch(Lower(retrieval), params, answer, unknown) == Dispatch(retrieval, params, answer, unknown)
  {
    LowerIdempotent(retrieval);
  }

  // ---------------------------------------------------------------- forceupdate

  /** The answer of `forceupdate`: a 404 with a message, or the consistency service URL requested with the caller's credentials. */
  datatype UpdateReply = NotFound(message: string) | Submitted(url: string, authorization: string)

  /** The consistency service URL; the "ecc" setting defaults to the local service, and a non-string one raises. */
  function EccUrl(graphname: string, eccMethod: string, graphragConfig: map<string, Json>): Result<string> {
    match GetOr(graphragConfig, "ecc", JStr("http://localhost:8001"))
    case JStr(base) => Ok(base + "/" + graphname + "/" + eccMethod + "/consistency_status")
    case _ => Err("TypeError: can only concatenate str to the ecc setting")
  }

  /**
   * `supportai_update`: only the SupportAI and GraphRAG methods are relayed, to the
   * consistency service URL, with the request's "authorization" header, which must be
   * present (`authorization` is that header, if the request has one).
   */
  function ForceUpdate(graphname: string, eccMethod: string, graphragConfig: map<string, Json>,
                       authorization: Option<string>): (r: Result<UpdateReply>)
    ensures eccMethod != Schemas.Supportai && eccMethod != Schemas.Graphrag ==> r.Ok? && r.value.NotFound?
    ensures r.Ok? && r.value.Submitted? ==>
      var base := GetOr(graphragConfig, "ecc", JStr("http://localhost:8001"));
      && base.JStr? && r.value.url == base.s + "/" + graphname + "/" + eccMethod + "/consistency_status"
      && authorization == Some(r.value.authorization)
    ensures r.Err? <==> (eccMethod == Schemas.Supportai || eccMethod == Schemas.Graphrag)
                        && (!GetOr(graphragConfig, "ecc", JStr("http://localhost:8001")).JStr? || authorization.None?)
    ensures r.Err? && GetOr(graphragConfig, "ecc", JStr("http://localhost:8001")).JStr? ==> r.error == "KeyError: authorization"
  {
    if eccMethod != Schemas.Supportai && eccMethod != Schemas.Graphrag then
      Ok(NotFound(eccMethod + " is not a valid method. " + Schemas.Supportai + " or " + Schemas.Graphrag))
    else
      match EccUrl(graphname, eccMethod, graphragConfig)
      case Err(e) => Err(e)
      case Ok(url) =>
        match authorization
        case None => Err("KeyError: authorization")
        case Some(auth) => Ok(Submitted(url, auth))
  }

  /** The router relays exactly the methods the consistency service schedules a job for. */
  lemma ForceUpdateAgreesWithService(graphname: string, eccMethod: string, graphragConfig: map<string, Json>,
                                     authorization: Option<string>, now: string)
    requires ForceUpdate(graphname, eccMethod, graphragConfig, authorization).Ok?
    ensures ForceUpdate(graphname, eccMethod, graphragConfig, authorization).value.Submitted?
      <==> EccMain.ConsistencyStatus(graphname, eccMethod, now).job.Some?
    ensures ForceUpdate(graphname, eccMethod, graphragConfig, authorization).value.NotFound?
      <==> EccMain.ConsistencyStatus(graphname, eccMethod, now).code == 404
  {
  }
}
