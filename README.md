# TigerGraph GraphRAG core, modelled in Dafny

This project models the decision logic of TigerGraph GraphRAG in Dafny and proves properties about it. GraphRAG is a retrieval-augmented question-answering service over a TigerGraph database. It has three parts that are modelled here:

- **The eventual-consistency checker service (ECC).** This covers:
  - the registry of per-graph checkers and the version gate in front of it;
  - which checkers start with the service;
  - the `consistency_status` dispatch;
  - the chunker and LLM selection;
  - the community summariser;
  - the graph-loading helpers: authorisation headers, id normalisation, the attribute encoding of upserts, and the load queue.
- **Shared code.** This covers:
  - the server configuration: path prefix, `SERVER_CONFIG` loading, defaults, and provider selection;
  - the TigerGraph embedding store: version gate, embedding batches, existence checks, and the similarity cut;
  - the LLM entity/relationship extractor: response unwrapping, type normalisation, filtering, and prompt layout.
- **The GraphRAG API.** This covers:
  - the agent graph: routing, retry counting, the Cypher generation loop, citations, and the step graph and its edges;
  - the SupportAI router: ingest, search/answer defaults and dispatch, and force update;
  - SupportAI initialisation and ingest creation;
  - the question-to-schema mapping tool;
  - the schema text and query wrapping of the GSQL and Cypher generators;
  - the similarity retriever.

Calls the code cannot see are parameters of the model:

- the database (`gsql`, installed queries, schema look-ups);
- the language model and the embedding service;
- `json.loads`;
- file reads;
- uuids;
- the clock.

Python dicts whose order matters are sequences of pairs. Parsed JSON is the `Json` datatype in `Json.dfy`. Python's `str` helpers live in `Text.dfy`: `strip` with a character set, `split`, `find`, `replace`, `lower` and `repr` of strings.

Modules, one per source file, plus helpers:

- `Wrappers`: `Option` and `Result`.
- `Text`: Python string operations.
- `Json`: JSON values and truthiness.
- `Base64`: RFC 4648 section 4, with UTF-8.
- `Schemas`: the two SupportAI method names.
- `GraphragUtil`, `CommunitySummarizer`, `EccUtil`, `EccMain`: the ECC service.
- `Config`, `EmbeddingStore`, `EntityExtractor`: shared code.
- `AgentGraph`, `SupportaiRouter`, `Supportai`, `SchemaMapper`, `SchemaRep`, `SimilarityRetriever`: the API.

## Model

| member | source | states |
|---|---|---|
| GraphragUtil.MakeHeaders | ecc/app/graphrag/util.py:122-129 | exactly one header, "Authorization"; without an API token it is "Basic " + base64 of UTF-8 "user:password", which decodes back to that text; with a non-empty token it is "Bearer " + the token |
| Base64.RoundTrip | ecc/app/graphrag/util.py:124 | base64 decoding inverts `b64encode` on every byte string |
| Base64.Utf8RoundTrip | ecc/app/graphrag/util.py:124 | UTF-8 decoding inverts `str.encode()` on every string |
| GraphragUtil.StreamIds | ecc/app/graphrag/util.py:132-153 | the reply holds "ids" exactly when the query succeeded and the first row has "@@ids", and then carries that value; "error" is false exactly then; a failed query's message is carried |
| GraphragUtil.AttrRoundTrip | ecc/app/graphrag/util.py:156-168 | the encoding of one attribute (tuple as value/op, dict as keylist/valuelist, else value) decodes back to the attribute |
| GraphragUtil.MapAttrs | ecc/app/graphrag/util.py:156-168 | the loop succeeds exactly when every attribute is encodable, and builds the map in which each key holds the encoding of its last occurrence |
| GraphragUtil.AttrMapUnique | ecc/app/graphrag/util.py:156-168 | the last-occurrence description fixes the attribute map uniquely |
| GraphragUtil.CallPrefix | ecc/app/graphrag/util.py:174-176 | a prefix is found exactly when the id has a "(", and it holds no line break and only characters of the id |
| GraphragUtil.ProcessIdClean | ecc/app/graphrag/util.py:171-181 | a processed id never holds a space, "/", "%", "(", ")" or an upper-case letter |
| GraphragUtil.ProcessIdSingleLine | ecc/app/graphrag/util.py:171-181 | on a one-line id with a call, the id is cut before the last "(", an empty quoted id becomes "", and parentheses are removed |
| GraphragUtil.ProcessIdDropsCallExample | ecc/app/graphrag/util.py:174-176 | "foo(bar)" becomes "foo" |
| GraphragUtil.ProcessIdNormalisesExample | ecc/app/graphrag/util.py:172 | "A/B 50%" becomes "ab_50percent" |
| GraphragUtil.ProcessIdNotIdempotent | ecc/app/graphrag/util.py:171-181 | processing is not idempotent: "'')" becomes "''" and then "" |
| GraphragUtil.LoadQueue.UpsertVertex | ecc/app/graphrag/util.py:184-193 | appends one "vertices" item, with the id's spaces turned into "_" and the attribute map, exactly when the attributes are encodable; otherwise the queue is unchanged |
| GraphragUtil.LoadQueue.UpsertEdge | ecc/app/graphrag/util.py:221-249 | appends one "edges" item with both ids' spaces turned into "_"; absent attributes give an empty map; otherwise as for vertices |
| GraphragUtil.CommunityChildren | ecc/app/graphrag/util.py:252-281 | a failed query gives no descriptions; otherwise the descriptions of the children in order |
| GraphragUtil.LaterIterationDescriptions | ecc/app/graphrag/util.py:278-279 | after the first iteration, each child gives its description list as one element |
| GraphragUtil.EntityIterationDescriptions | ecc/app/graphrag/util.py:271-277 | in the entity iteration, every child gives at least one text; the texts are non-empty when the vertex ids are |
| GraphragUtil.NonEmpty | ecc/app/graphrag/util.py:273 | keeps exactly the non-empty descriptions |
| CommunitySummarizer.CleanName | ecc/app/graphrag/community_summarizer.py:36 | the cleaned name holds no "_" and no digit, and is no longer than the name |
| CommunitySummarizer.CleanNameKeeps | ecc/app/graphrag/community_summarizer.py:51 | a name without tag characters is unchanged |
| CommunitySummarizer.CleanNameIdempotent | ecc/app/graphrag/community_summarizer.py:51 | cleaning twice equals cleaning once |
| CommunitySummarizer.CleanNameConcat | ecc/app/graphrag/community_summarizer.py:51 | cleaning distributes over concatenation |
| CommunitySummarizer.Summarize | ecc/app/graphrag/community_summarizer.py:46-61 | the model sees the cleaned name; a failure gives error true, an empty summary and the message; success gives error false and the summary |
| EccUtil.GetChunker | ecc/app/ecc_util.py:14-39 | succeeds exactly for the four known chunker kinds, with an empty type falling back to the configured "chunker"; each kind carries its configured settings or the documented defaults |
| EccUtil.EmptyTypeFallsBack | ecc/app/ecc_util.py:15-16 | an empty chunker type behaves as the configured one |
| EccUtil.GetLlmService | ecc/app/ecc_util.py:44-62 | agrees with the shared selection on every provider the service supports; never yields GenAI or WatsonX |
| EccUtil.GenAIOnlyInConfig | ecc/app/ecc_util.py:44-62 | "genai" is accepted by the shared selection but rejected by the service's |
| EccMain.StartUp | ecc/app/main.py:76-101 | a checker is built exactly when the version has three parts, passes the string gate and the store's integer gate, the extractor is "llm", the LLM service is known, and the module-level settings exist |
| EccMain.Registry.Initialize | ecc/app/main.py:70-114 | a registered graph returns its checker unchanged; otherwise the checker is registered once built (even if `initialize()` then fails); existing entries are never changed |
| EccMain.VersionGatesDisagree | ecc/app/main.py:77-78 | on version "4.10.0" the string gate refuses and the integer gate accepts, so no checker ever starts |
| EccMain.StartupGraphs | ecc/app/main.py:38-44 | no graphs unless the checker is enabled; then what iterating the configured "graph_names" visits (a list's items), or none when absent; a value that cannot be iterated raises |
| EccMain.Lifespan | ecc/app/main.py:38-54 | the start-up loop starts exactly the graphs of StartupGraphs, in order |
| EccMain.ConsistencyStatus | ecc/app/main.py:156-169 | "supportai" schedules the SupportAI run, "graphrag" the GraphRAG run, both with 200; anything else is 404 with no job |
| Config.NormalisePathPrefix | common/config.py:42-45 | the prefix is empty or starts with "/", drops exactly one trailing "/", and is empty for an empty value |
| Config.TailIsSuffix | common/config.py:50 | `s[-5:] != ".json"` is exactly "does not end in .json" |
| Config.LoadServerConfig | common/config.py:50-60 | a ".json" name is read as a file; otherwise the text is parsed, and a parse failure raises with the documented message |
| Config.Configure | common/config.py:62-95 | missing db or LLM settings raise; succeeds exactly when the settings are dicts, the model name can be copied and the embedding provider is known; the "chunker" and "extractor" defaults are filled in; the embedding provider matches its lower-cased name |
| Config.GraphragDefaults | common/config.py:73-76 | "chunker" becomes "semantic" and "extractor" becomes "llm" only where absent; every given setting is kept |
| Config.CopyModelName | common/config.py:78-82 | raises exactly when no level has a model name or the embedding section is missing; afterwards both levels hold a name, an existing one is kept, and the embedding service name is unchanged |
| Config.EmbeddingFor | common/config.py:84-95 | a provider is found exactly when one has the lower-cased name |
| Config.LlmFor | common/config.py:97-119 | an LLM provider is found exactly when one has the lower-cased name |
| Config.LlmForName | common/config.py:97-119 | every provider's name, in any letter case, selects that provider |
| Config.GetLlmService | common/config.py:97-119 | succeeds exactly when completion_service.llm_service names a provider, and yields that provider |
| EmbeddingStore.CheckVersion | common/embeddings/tigergraph_embedding_store.py:48-60 | accepts exactly the versions whose integer major and minor are both at least 4 and 2 |
| EmbeddingStore.MapAttrs | common/embeddings/tigergraph_embedding_store.py:120-125 | each key maps to {"value": v} of its last occurrence |
| EmbeddingStore.AddEmbeddings | common/embeddings/tigergraph_embedding_store.py:138-176 | sends a batch exactly when every text embeds and has metadata; the batch is built from the entries in order, with the last one winning per vertex; a non-empty list or string reply counts as registered |
| EmbeddingStore.BatchOfLastWins | common/embeddings/tigergraph_embedding_store.py:148-156 | the last entry for a vertex decides its attributes in the batch |
| EmbeddingStore.BatchOfKeys | common/embeddings/tigergraph_embedding_store.py:148-156 | the batch's vertex types are exactly the entries' types, and every id in it comes from an entry |
| EmbeddingStore.Put | common/embeddings/tigergraph_embedding_store.py:157-172 | adding one entry adds its type and id and changes nothing else |
| EmbeddingStore.ScanRows | common/embeddings/tigergraph_embedding_store.py:244-248 | found only if some row has the id; found when a row has it and every earlier row has an id; not found when all rows have other ids |
| EmbeddingStore.HasEmbeddings | common/embeddings/tigergraph_embedding_store.py:233-254 | true exactly when every vertex's query succeeds and finds it |
| EmbeddingStore.SortDesc | common/embeddings/tigergraph_embedding_store.py:321 | the hits sorted by descending score, as a permutation of the input |
| EmbeddingStore.CutSimilar | common/embeddings/tigergraph_embedding_store.py:322-329 | the scan-and-break loop computes the cut |
| EmbeddingStore.CutBounds | common/embeddings/tigergraph_embedding_store.py:322-329 | the cut is a prefix of at least min(top_k, len) hits, and every hit past top_k scores at least the threshold |
| EmbeddingStore.CutExceedsTopK | common/embeddings/tigergraph_embedding_store.py:322-329 | three hits above the threshold with top_k 1 give two hits: more than top_k, and the last dropped |
| EmbeddingStore.RetrieveSimilarWithScore | common/embeddings/tigergraph_embedding_store.py:296-333 | asks for 2*top_k candidates; the result is the cut of the sorted hits, sorted by descending score; query failures raise |
| EmbeddingStore.AnswerHits | common/embeddings/tigergraph_embedding_store.py:312-319 | a dict without "results" gives no hits; with it, hits exactly when the value can be iterated and every row has an id, a type and a numeric score; a list or string gives no hits unless it holds "results", which raises; any other value raises |
| EmbeddingStore.AnswerHitsEdgeCases | common/embeddings/tigergraph_embedding_store.py:312-319 | an empty dict or string of results gives no hits; a string answer holding "results" raises |
| EmbeddingStore.Hits | common/embeddings/tigergraph_embedding_store.py:312-319 | the hits exist exactly when no answer raises |
| EmbeddingStore.RowIds | common/embeddings/tigergraph_embedding_store.py:362-365 | one id per row, in order, or failure when a row lacks "v_id" |
| EmbeddingStore.ClosestIdsConcat | common/embeddings/tigergraph_embedding_store.py:362-365 | collecting over concatenated replies concatenates the collections |
| EmbeddingStore.AnswerIds | common/embeddings/tigergraph_embedding_store.py:361-365 | a dict without "results" gives no ids; with it, ids exactly when the value can be iterated and every row has a "v_id"; a list or string gives no ids unless it holds "results", which raises; any other value raises |
| EmbeddingStore.AnswerIdsEdgeCases | common/embeddings/tigergraph_embedding_store.py:361-365 | an empty dict or string of results gives no ids; a string or list answer holding "results", a number and null raise |
| EmbeddingStore.ClosestIdsUnhashable | common/embeddings/tigergraph_embedding_store.py:361-366 | a row whose v_id is a list is collected, and is then unhashable |
| EmbeddingStore.KClosest | common/embeddings/tigergraph_embedding_store.py:347-368 | raises exactly when reading an answer or a row raises or a collected id is a dict or a list; otherwise the set of the collected ids |
| EntityExtractor.RelType | common/extractors/LLMEntityRelationshipExtractor.py:64 | a relation type has no space and no lower-case letter |
| EntityExtractor.RelTypeIdempotent | common/extractors/LLMEntityRelationshipExtractor.py:64 | normalising twice equals normalising once |
| EntityExtractor.NodeType | common/extractors/LLMEntityRelationshipExtractor.py:108 | a node type has no space, no lower-case first letter, and no upper-case letter after it |
| EntityExtractor.NodeTypeIdempotent | common/extractors/LLMEntityRelationshipExtractor.py:108 | normalising twice equals normalising once |
| EntityExtractor.Unwrap | common/extractors/LLMEntityRelationshipExtractor.py:49-55 | without a json fence, the content stripped of "content=" characters; with one, a whitespace-trimmed piece of the content |
| EntityExtractor.UnwrapFenced | common/extractors/LLMEntityRelationshipExtractor.py:52-55 | a reply "```json", line break, text, line break, "```" unwraps to the text when it holds no fence and is trimmed |
| EntityExtractor.FormatRel | common/extractors/LLMEntityRelationshipExtractor.py:57-102 | a formatted relation has string or dict-with-id endpoints taken from source and target, the normalised type and the definition; an unusable endpoint fails; with all four keys, a string type and usable endpoints it always formats |
| EntityExtractor.FormatNode | common/extractors/LLMEntityRelationshipExtractor.py:103-111 | a node with id, definition and a string node_type always formats, with its type normalised |
| EntityExtractor.FormatRels | common/extractors/LLMEntityRelationshipExtractor.py:57-102 | the loop succeeds exactly when every relation formats, giving them in order |
| EntityExtractor.FormatNodes | common/extractors/LLMEntityRelationshipExtractor.py:103-111 | the loop succeeds exactly when every node formats, giving them in order |
| EntityExtractor.KeepNodes | common/extractors/LLMEntityRelationshipExtractor.py:114-120 | keeps exactly the nodes of allowed types |
| EntityExtractor.KeepRels | common/extractors/LLMEntityRelationshipExtractor.py:121-126 | keeps exactly the relations of allowed types |
| EntityExtractor.KeepNodesAll | common/extractors/LLMEntityRelationshipExtractor.py:114-120 | when all types are allowed, nothing is dropped |
| EntityExtractor.BuildNodes | common/extractors/LLMEntityRelationshipExtractor.py:128-132 | one graph node per formatted node, in order |
| EntityExtractor.BuildRelationships | common/extractors/LLMEntityRelationshipExtractor.py:133-138 | one relationship per formatted relation, in order |
| EntityExtractor.NodesOut | common/extractors/LLMEntityRelationshipExtractor.py:113-132 | in strict mode with a non-empty allow-list, exactly the nodes of KeepNodes, in order; otherwise every formatted node, in order |
| EntityExtractor.RelationshipsOut | common/extractors/LLMEntityRelationshipExtractor.py:113-138 | in strict mode with a non-empty allow-list, exactly the relations of KeepRels, in order; otherwise every formatted relation, in order |
| EntityExtractor.Extraction | common/extractors/LLMEntityRelationshipExtractor.py:40-143 | a model or parse failure gives an empty document for the input; otherwise the built nodes and relationships |
| EntityExtractor.NoPartialResult | common/extractors/LLMEntityRelationshipExtractor.py:142-143 | one malformed relation empties the whole document |
| EntityExtractor.Lists | common/extractors/LLMEntityRelationshipExtractor.py:57-104 | parsing yields the "rels" and "nodes" entries exactly when both exist and can be iterated |
| EntityExtractor.StringRelsFail | common/extractors/LLMEntityRelationshipExtractor.py:58-60 | a string given as "rels" formats only when it is empty |
| EntityExtractor.ExtractKg | common/extractors/LLMEntityRelationshipExtractor.py:145-246 | the sync extraction computes Extraction of the model's reply |
| Text.ReprBodyPlain | common/extractors/LLMEntityRelationshipExtractor.py:315-317 | inside the quotes, a string without the quote, a backslash or a control character is written as it is |
| Text.StrReprPlain | common/extractors/LLMEntityRelationshipExtractor.py:315-317 | such a string without a single quote prints as itself in single quotes |
| Text.StrReprQuotes | common/extractors/LLMEntityRelationshipExtractor.py:315-317 | a string with a single quote and no double quote prints in double quotes |
| Text.StrReprEscapesQuote | common/extractors/LLMEntityRelationshipExtractor.py:315-317 | a string with both quotes prints in single quotes, the single quote escaped |
| Text.StrReprEscapesBackslash | common/extractors/LLMEntityRelationshipExtractor.py:315-317 | a backslash prints doubled |
| EntityExtractor.PromptMessages | common/extractors/LLMEntityRelationshipExtractor.py:292-317 | system prompt first, then the input tip and the format tip as human messages; the types tip and the allowed-types lines only when allow-lists are non-empty |
| AgentGraph.GraphState.Entry | graphrag/app/agent/agent_graph.py:78-83 | the retry count starts at 0 and then increments; nothing else changes |
| AgentGraph.RouteQuestion | graphrag/app/agent/agent_graph.py:85-106 | apologise after more than two retries; otherwise route to functions without SupportAI, else by the router's data source (none for an unknown source) |
| AgentGraph.CypherAttempts | graphrag/app/agent/agent_graph.py:166-180 | at most three attempts; the history records each failure in order; the last attempt parsed exactly when fewer than three failed |
| AgentGraph.FailedAtExtend | graphrag/app/agent/agent_graph.py:180 | appending to the history keeps earlier failures recorded |
| AgentGraph.GraphState.GenerateCypher | graphrag/app/agent/agent_graph.py:161-201 | a truthy answer with a first result becomes the context with the query and that result; a truthy answer without one raises and changes nothing; otherwise the context records the error, and the last response is appended to the history (a None history starts empty) unless the history key is absent, which raises KeyError; lookup source becomes "cypher" on every path that does not raise |
| AgentGraph.FirstResult | graphrag/app/agent/agent_graph.py:183 | a first result exists exactly when the answer is a dict whose "results" is a non-empty list or string, and it is the first element a loop over it visits |
| AgentGraph.FirstResultOfText | graphrag/app/agent/agent_graph.py:183 | `{"results": "xyz"}` answers "x" |
| AgentGraph.SupportaiSearch | graphrag/app/agent/agent_graph.py:319-332 | exactly the four retriever names are accepted; anything else raises |
| AgentGraph.StripChunkTags | graphrag/app/agent/agent_graph.py:375 | removing `_chunk_<digits>` never lengthens a citation |
| AgentGraph.TagRemoved | graphrag/app/agent/agent_graph.py:375 | "_chunk_" followed by a maximal run of one or more digits is removed whole, and cleaning resumes after the run |
| AgentGraph.TagRemovedAfter | graphrag/app/agent/agent_graph.py:375 | behind a head without "_", such a tag is removed and the head kept: `p + "_chunk_" + digits + t` cleans to `p` followed by the cleaned `t` |
| AgentGraph.StripChunkTagsKeeps | graphrag/app/agent/agent_graph.py:375 | a citation without "_" is unchanged |
| AgentGraph.StripChunkTagsNotIdempotent | graphrag/app/agent/agent_graph.py:375 | one pass can expose a new tag: "_chun_chunk_1k_5" becomes "_chunk_5", then "" |
| AgentGraph.Citations | graphrag/app/agent/agent_graph.py:375-376 | the set of stripped citations, no larger than the list |
| AgentGraph.GenerationCheck | graphrag/app/agent/agent_graph.py:474-487 | "error" exactly when the context is an exception or has a non-None "error" |
| AgentGraph.FalseErrorIsError | graphrag/app/agent/agent_graph.py:480-482 | `{"error": False}` counts as an error |
| AgentGraph.CheckAnswer | graphrag/app/agent/agent_graph.py:454-472 | with both checks disabled, every answer is "grounded" |
| AgentGraph.Steps | graphrag/app/agent/agent_graph.py:493-501 | the SupportAI node exists exactly when SupportAI is enabled, and the Cypher node exactly when the Cypher tool is |
| AgentGraph.EdgesClosed | graphrag/app/agent/agent_graph.py:503-597 | every node has outgoing edges, and every edge leads to a node of the graph or the end |
| AgentGraph.GenerationErrorRoutes | graphrag/app/agent/agent_graph.py:503-571 | a function error goes to Cypher generation when enabled, else to the rewrite; a Cypher error apologises; rewrite returns to entry; apologise ends |
| AgentGraph.AnswerEndsRun | graphrag/app/agent/agent_graph.py:515-571 | answer checking always ends the run |
| AgentGraph.RouteLabelsCovered | graphrag/app/agent/agent_graph.py:573-591 | every label the router or the error check returns has an edge |
| SupportaiRouter.JobField | graphrag/app/routers/supportai.py:132-144 | a field is found exactly when the marker and the key occur; it holds no line break, starts the text after the key and runs to the end of that text or to a line break |
| SupportaiRouter.JobFieldReadsBack | graphrag/app/routers/supportai.py:132-144 | a reply with the first marker, then text before the first occurrence of the key, then the key, a one-line value and a line break, yields the value, whatever precedes and follows |
| SupportaiRouter.Ingest | graphrag/app/routers/supportai.py:100-144 | missing path, job id or source id raise in that order; a failure without the marker is re-raised; a success or a failure carrying the marker succeeds exactly when both fields are read, and the job name, id and log come from them |
| SupportaiRouter.Query.FillDefault | graphrag/app/routers/supportai.py:157-160 | fills a parameter only when absent |
| SupportaiRouter.MethodDefaults | graphrag/app/routers/supportai.py:161-172 | hybrid fills method, chunk_only, doc_only and threshold 0.90; community fills with_chunk true, with_doc false and threshold 0.90; given values are kept |
| SupportaiRouter.HybridDefaults | graphrag/app/routers/supportai.py:165-172 | method, chunk_only, doc_only and similarity_threshold 0.90 are filled where absent; given values are kept |
| SupportaiRouter.CommunityDefaults | graphrag/app/routers/supportai.py:225-230 | with_chunk true, with_doc false and similarity_threshold 0.90 are filled where absent; given values are kept |
| SupportaiRouter.SearchParams | graphrag/app/routers/supportai.py:157-172 | expand and verbose default to false; given values are kept |
| SupportaiRouter.AnswerParams | graphrag/app/routers/supportai.py:258-275 | combine, expand and verbose default to false; given values are kept |
| SupportaiRouter.SearchAndAnswerDefaults | graphrag/app/routers/supportai.py:157-275 | when combine and the hybrid method are given, search and answer fill the same parameters |
| SupportaiRouter.SearchParamsIdempotent | graphrag/app/routers/supportai.py:157-172 | filling defaults twice equals filling once |
| SupportaiRouter.Lookup | graphrag/app/routers/supportai.py:166-172 | succeeds exactly when every argument key is present, giving their values in order |
| SupportaiRouter.Dispatch | graphrag/app/routers/supportai.py:161-243 | known method names, in any case, select their retriever when every argument is present; unknown names raise the given message |
| SupportaiRouter.DispatchIgnoresCase | graphrag/app/routers/supportai.py:161-243 | dispatch depends only on the lower-cased method name |
| SupportaiRouter.ServiceStatus | common/config.py:121-137 | the store's status entry exists exactly when INIT_EMBED_STORE is unset or "true", and then its error is None |
| SupportaiRouter.StoreStatus | graphrag/app/routers/supportai.py:60-64 | passes exactly when the store's entry exists and holds a falsy error; a missing entry raises KeyError; a truthy error raises, since `HTTPException` is not imported |
| SupportaiRouter.StoreStatusAfterStartUp | graphrag/app/routers/supportai.py:60-64 | the status check passes exactly when the embedding store was set up at start-up |
| SupportaiRouter.Query.Search | graphrag/app/routers/supportai.py:149-243 | a failed status check raises and leaves the parameters unchanged; otherwise fills the search defaults in place and dispatches with "Method ... not implemented" |
| SupportaiRouter.Query.AnswerQuestion | graphrag/app/routers/supportai.py:248-355 | a failed status check raises and leaves the parameters unchanged; otherwise fills the answer defaults in place and dispatches with "Method not implemented" |
| SupportaiRouter.ForceUpdate | graphrag/app/routers/supportai.py:375-398 | an unknown method is 404; a known method submits to the ECC's consistency_status URL with the caller's authorization; a non-string ECC address or a missing authorization header raises |
| SupportaiRouter.ForceUpdateAgreesWithService | graphrag/app/routers/supportai.py:384-398 | the router submits exactly when the ECC would schedule a job, and is 404 exactly when the ECC would be |
| Supportai.SchemaSteps | graphrag/app/supportai/supportai.py:24-59 | the schema job runs unless the listing shows it; the vector step raises exactly when needed and the major is below 4 or the minor below 2, with the refusal message that lists the version parts |
| Supportai.VersionRefusalTooOld | graphrag/app/supportai/supportai.py:42-59 | a major below 4, or a minor below 2, is refused with the message listing the version parts |
| Supportai.VersionRefusalUnparsable | graphrag/app/supportai/supportai.py:42-59 | a non-integer major raises the int() error instead |
| Supportai.CreateQueries | graphrag/app/supportai/supportai.py:73-95 | one BEGIN/END statement per query file, in order |
| Supportai.QueryStatements | graphrag/app/supportai/supportai.py:85-95 | one statement per file |
| Supportai.InitStatementCount | graphrag/app/supportai/supportai.py:20-105 | the number of statements sent follows from the three markers |
| Supportai.InitSupportai | graphrag/app/supportai/supportai.py:20-105 | the schema, index and install results, and the statements sent in order; a failed vector gate raises after the schema job |
| Supportai.DefaultTemplate | graphrag/app/supportai/supportai.py:113-124 | with no loader settings, only the uuid and doc_type placeholders change |
| Supportai.TemplateWithoutPlaceholders | graphrag/app/supportai/supportai.py:113-124 | a template without the quoted placeholders only gets its uuid |
| Supportai.Connector | graphrag/app/supportai/supportai.py:153-219 | s3, azure and gcs raise the message of the first missing credential and otherwise give the connector map with exactly those credentials; azure prefers an account key; local needs none; other sources raise |
| Supportai.ConnectorIgnoresCase | graphrag/app/supportai/supportai.py:153-219 | the data source name is case-insensitive |
| Supportai.CreatedName | graphrag/app/supportai/supportai.py:223 | a name is read exactly when the reply has a ":"; it neither starts nor ends with "]" |
| Supportai.CreatedNameReadsBack | graphrag/app/supportai/supportai.py:223 | a reply "...: [name]." yields name |
| Supportai.Reply | graphrag/app/supportai/supportai.py:153-233 | the reply has data_source, load_job_id, data_source_id, and data_path when given |
| Supportai.IngestResult | graphrag/app/supportai/supportai.py:221-233 | succeeds exactly when the created names are read; a local source is "DocumentContent" |
| Supportai.CreateIngest | graphrag/app/supportai/supportai.py:108-235 | only JSON ingest succeeds; connector errors propagate; the reply carries the created names |
| SchemaMapper.MapQuestionToSchema.Refresh | graphrag/app/tools/map_question_to_schema.py:98-116 | on an unknown or changed version, the types are refreshed and the infos are appended to (not replaced); otherwise nothing changes |
| SchemaMapper.UnknownVersionGrows | graphrag/app/tools/map_question_to_schema.py:98-114 | with no schema version, two runs list every vertex twice |
| SchemaMapper.SameVersionReuses | graphrag/app/tools/map_question_to_schema.py:98-116 | with a known version, the second run reuses the first's infos |
| SchemaMapper.RemapEdgeAttrs | graphrag/app/tools/map_question_to_schema.py:190-193 | succeeds exactly when every attribute is mapped, giving the mapped names |
| SchemaMapper.RemapsAgree | graphrag/app/tools/map_question_to_schema.py:170-193 | when all attributes are mapped, both remaps agree |
| SchemaMapper.RemapVertexAttrsLocal | graphrag/app/tools/map_question_to_schema.py:170-173 | the vertex remapping reads the map only at the attribute names |
| SchemaMapper.VertexTargets | graphrag/app/tools/map_question_to_schema.py:157-173 | keeps every vertex and its order |
| SchemaMapper.MapVertexAttributes | graphrag/app/tools/map_question_to_schema.py:157-175 | the loop computes the remapped targets and the accumulated usage |
| SchemaMapper.EdgeTargets | graphrag/app/tools/map_question_to_schema.py:177-193 | succeeds exactly when every edge's attributes are mapped |
| SchemaMapper.EdgeTarget | graphrag/app/tools/map_question_to_schema.py:190-193 | an empty map keeps the edge's attributes; a non-empty map succeeds exactly when it maps every attribute |
| SchemaMapper.MapEdgeAttributes | graphrag/app/tools/map_question_to_schema.py:177-195 | the loop computes the remapped targets and the accumulated usage, or raises |
| SchemaMapper.MappingUsageSplit | graphrag/app/tools/map_question_to_schema.py:166-169 | usage accumulated over two lists is that over the first, then the second |
| SchemaMapper.InputTokensAddUp | graphrag/app/tools/map_question_to_schema.py:166 | input tokens are the start plus the sum over every mapping call |
| SchemaMapper.Run | graphrag/app/tools/map_question_to_schema.py:74-214 | the cached schema is refreshed (infos appended) exactly when stale, else unchanged; succeeds exactly when every edge maps; the vertex and edge targets are the remapped ones and usage flows through both |
| SchemaRep.AttrText | graphrag/app/tools/generate_gsql.py:65-68 | "No attributes" exactly when there are none; otherwise the "name of type T" lines joined by "\n\t\t" |
| SchemaRep.EdgeBlocksNamed | graphrag/app/tools/generate_gsql.py:81-88 | every block of an edge type, wildcard or not, is headed by its name |
| SchemaRep.VertexBlocksNamed | graphrag/app/tools/generate_gsql.py:62-69 | one block per vertex type, in order, each headed by its type name |
| SchemaRep.AllEdgeBlocksCount | graphrag/app/tools/generate_gsql.py:71-88 | the number of edge blocks is the sum of the per-edge counts |
| SchemaRep.VertexBlockNamesType | graphrag/app/tools/generate_gsql.py:69 | the first line of a vertex block is its type name |
| SchemaRep.EdgeBlockNamesType | graphrag/app/tools/generate_gsql.py:85 | the first line of an edge block is its type name |
| SchemaRep.SchemaText | graphrag/app/tools/generate_gsql.py:90-96 | the text starts with the schema header and ends with a line break |
| SchemaRep.BuildBlocks | graphrag/app/tools/generate_gsql.py:60-88 | the loops build the vertex and edge blocks of the schema |
| SchemaRep.AppendEdgeBlocks | graphrag/app/tools/generate_gsql.py:81-88 | the pair loop appends the edge's blocks |
| SchemaRep.GsqlSecondCallReuses | graphrag/app/tools/generate_gsql.py:49-98 | on a new tool, the first look-up renders the schema; a second look-up of the same version, unknown included, returns that text without rendering again |
| SchemaRep.CypherSecondCall | graphrag/app/tools/generate_cypher.py:52-98 | on a new tool, the first look-up renders the schema, except a fetched version of -1, which matches the initial version and returns the empty initial text; a second look-up reuses a known version and renders again for an unknown one |
| SchemaRep.Wrap | graphrag/app/tools/generate_gsql.py:135-137 | header + body + "\n}", from which the body reads back |
| SchemaRep.StrippedBody | graphrag/app/tools/generate_gsql.py:127 | as written: neither end of the result is a fence character |
| SchemaRep.SecondStripNoop | graphrag/app/tools/generate_gsql.py:127 | the second strip does nothing |
| SchemaRep.GsqlStripEatsVariable | graphrag/app/tools/generate_gsql.py:127 | "PRINT vs" loses its final "s" |
| SchemaRep.CypherStripEatsVariable | graphrag/app/tools/generate_cypher.py:125 | "RETURN p" loses its final "p" |
| SchemaRep.FencedBody | graphrag/app/tools/generate_cypher.py:125 | never longer than the reply |
| SchemaRep.FencedBodyUnwraps | graphrag/app/tools/generate_cypher.py:125 | removes the opening and closing fence around any body |
| SchemaRep.FencedBodyKeepsPlain | graphrag/app/tools/generate_gsql.py:127 | a reply without a fence at either end is unchanged |
| SchemaRep.GenerateGsql.GenerateSchemaRep | graphrag/app/tools/generate_gsql.py:55-98 | reuses the text when it is non-empty and the version matches; otherwise renders the schema and records the version |
| SchemaRep.GenerateGsql.GenerateQuery | graphrag/app/tools/generate_gsql.py:100-137 | rebuilds the cached schema text exactly when the cache is stale; the query is the GSQL header, the model's reply with the characters of "```gsql" stripped from both ends (as written), and "\n}" |
| SchemaRep.GenerateCypher.GenerateSchemaRep | graphrag/app/tools/generate_cypher.py:55-98 | reuses when the version is known and matches; otherwise renders and records the version, or -1 |
| SchemaRep.GenerateCypher.GenerateQuery | graphrag/app/tools/generate_cypher.py:100-135 | rebuilds the cached schema text exactly when the cache is stale; the query is the OpenCypher header, the model's reply with the characters of "```cypher" stripped from both ends (as written), and "\n}" |
| SimilarityRetriever.Questions | graphrag/app/supportai/retrievers/SimilarityRetriever.py:17-20 | without expansion, just the question |
| SimilarityRetriever.SetVerbose | graphrag/app/supportai/retrievers/SimilarityRetriever.py:33-36 | sets one key of the verbose dict and changes nothing else; a non-dict raises |
| SimilarityRetriever.SearchRecordsQuestions | graphrag/app/supportai/retrievers/SimilarityRetriever.py:16-37 | the reply is unchanged except a verbose second entry gains the question list; it raises exactly when that value is not a dict |
| SimilarityRetriever.UnexpandedSearchRecordsQuestion | graphrag/app/supportai/retrievers/SimilarityRetriever.py:17-20 | without expansion, the recorded list is the question alone |
| SimilarityRetriever.Context | graphrag/app/supportai/retrievers/SimilarityRetriever.py:41-43 | the retrieved texts in order, or one combined element |
| SimilarityRetriever.CombinedContextSplits | graphrag/app/supportai/retrievers/SimilarityRetriever.py:42-43 | the combined context splits back into the texts |
| SimilarityRetriever.CombinedEmptyContext | graphrag/app/supportai/retrievers/SimilarityRetriever.py:41-43 | with nothing retrieved, combined is [""] and plain is [] |
| SimilarityRetriever.AsObject | graphrag/app/supportai/retrievers/SimilarityRetriever.py:47-49 | a dict whose keys are the chunk ids |
| SimilarityRetriever.RetrieveAnswerAttachesVerbose | graphrag/app/supportai/retrievers/SimilarityRetriever.py:39-51 | the model's response; the verbose record is attached exactly when verbose is set and present, and then holds both the questions and final_retrieval |

## Left out

- Every call into the database, the language model, the embedding service, `json.loads`, file reads, `uuid4` and `time.ctime` is a parameter.
- A call whose failure the code catches, whether it then handles the failure or raises again, returns a `Result`, and the model follows the source's error path. These are the ingest job, the extractor's model call, the summariser, the configuration loader, the embedding store's queries and upserts, and the JSON parse of the Cypher loop. Every other call is a total function that never raises. Where the source lets such a call's exception propagate, the model does not cover the raising case. This applies to:
  - the `gsql` and file-read calls of SupportAI initialisation and ingest creation;
  - the query generator and the `gsql` call that run before the `try` in the Cypher loop;
  - the database look-ups and mapping calls of the question-to-schema tool;
  - the model call of the query generators;
  - the retriever's query and model calls, and the LLM lookup of the retriever constructors.
- Concurrency is not modelled: asyncio semaphores, the load queue's consumer, threads, background tasks and HTTP requests. The load queue is a sequence that the upserts append to.
- Logging, metrics, usage reporting and token/cost bookkeeping are not modelled, except the token sums in the question-to-schema mapping.
- Python's `lower`, `upper`, `capitalize` and `isdigit` are modelled for ASCII only, and so is `\d` in the regular expressions `_chunk_\d+` of the citation cleanup and `[_\d]*` of the community-name cleanup. Python's `\d` also matches every other Unicode decimal digit. `int()` accepts surrounding whitespace, an optional sign and ASCII decimal digits; Python's `int()` also reads other Unicode decimal digits and digit-group underscores, which are not modelled.
- Text.StrRepr: a non-ASCII character is written as it is; Python escapes the non-printable ones with `\x`, `\u` or `\U`. This concerns the allowed-types lines of the extractor prompt and the version refusals.
- EmbeddingStore.SortDesc: modelled as a stable insertion sort by descending score, standing in for `list.sort(reverse=True)`.
- Supportai.CreateIngest: the CSV branch of `create_ingest` calls `.get` on the config object, so it always raises; it is modelled as an error.
- Config.Configure: the `graphrag_config is None` branch names an undefined `true`, so it always raises; it is modelled as an error.
- EccMain.StartUp: models the construction of the consistency checker as an error when the module-level settings it is passed are not defined (`namesBound`). The checker class itself is not part of this model.
- SchemaMapper.Run: leaves out `validate_schema`; the validator is not part of this model. The question-to-schema model call and the attribute-mapping model calls are parameters.
- The SupportAI method values are "supportai" and "graphrag". The enum that defines them is not part of this model.
- The schema version fetched from the database is an input. The prompt templates of the generators are left out.
- `_check_query_install` of the retrievers is left out. An empty query reply, which would raise an index error, is not modelled.
- SimilarityRetriever.SearchRecordsQuestions: works on values. It does not capture that `res[1]["verbose"]` is updated in place and aliased by the reply. `"verbose" in x` is modelled only when `x` is a dict.
- EmbeddingStore.KClosest: the set compares ids as `Json` values, so `1`, `1.0` and `True` are three members where Python's `set` keeps one.
- GraphragUtil.CommunityChildren: every child row is taken to hold `attributes.description` as a list of strings and a `v_id`. The source reads these outside its `try` and raises a KeyError when one is missing; the model does not cover that case.
- Dict iteration order is modelled as the order of a sequence of pairs.
- Json.Iterated: a non-empty dict is iterated by its keys in insertion order, which the `Json` map cannot hold; it is modelled as a value that cannot be iterated. For EccMain.StartupGraphs this makes a non-empty dict of "graph_names" an error where the source starts one checker per key. For the extractor's "rels" and "nodes" nothing changes: each key is a string, and indexing a string with "source" or "id" raises, so parsing fails either way.
- The retrievers other than the similarity retriever, and the concept creators, are outside this model. Dispatch stops at choosing the retriever and its arguments.
- The consistency checker's processing loop, batch cursor, queue draining and workers are not part of this model: their modules are not among the modelled files. Only the producer side of the load queue is modelled.
- `retrieve_similar` and the `check_embedding_rebuilt` handler of the embedding store are left out: as written they name undefined identifiers and always raise.
- Similarity scores are `real` values. Only comparisons are used; no floating-point rounding is modelled.
- The provider SDK wrappers, the LangChain chunkers, the connection plumbing and the chat-history configuration loader are not part of this model.

## Findings

| source | as written | input that shows it | evidently intended | confidence | as-written member | corrected member |
|---|---|---|---|---|---|---|
| graphrag/app/tools/generate_cypher.py:125 | the reply is passed to `strip` with the fence text (three backticks and "cypher"), which removes any of those characters from both ends, not the fence | the reply "RETURN p" becomes "RETURN " | remove an opening fence of three backticks and "cypher" and a closing fence of three backticks | not executed | SchemaRep.StrippedBody, SchemaRep.CypherStripEatsVariable | SchemaRep.FencedBody, SchemaRep.FencedBodyUnwraps |
| graphrag/app/tools/generate_gsql.py:127 | the reply is passed to `strip` with the fence text (three backticks and "gsql"), which removes any of those characters from both ends, not the fence | the reply "PRINT vs" becomes "PRINT v" | remove an opening fence of three backticks and "gsql" and a closing fence of three backticks | not executed | SchemaRep.StrippedBody, SchemaRep.GsqlStripEatsVariable | SchemaRep.FencedBody, SchemaRep.FencedBodyUnwraps |
