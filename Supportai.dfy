/**
 * Setting a graph up for SupportAI and creating its ingest jobs
 * (graphrag/app/supportai/supportai.py): which schema steps run, the vector
 * version gate, the JSON loading-job template, the validation of the data-source
 * credentials and the parsing of the created job and source names. The database
 * (`gsql`), the files read (`read`), `json.dumps` and the random identifiers are
 * parameters.
 */
module Supportai {
  import opened Wrappers
  import opened Text
  import opened Json
  import EmbeddingStore

  // ---------------------------------------------------------------- init_supportai

  /** Markers in the schema listing that say a step has already been done. */
  const SchemaMarker := "- VERTEX ResolvedEntity"
  const EmbeddingMarker := "- embedding(Dimension="
  const IndexMarker := "- doc_chunk_epoch_processed_index"

  /** The query files installed, in order. */
  const QueryFiles := [
    "common/gsql/supportai/Scan_For_Updates.gsql",
    "common/gsql/supportai/Update_Vertices_Processing_Status.gsql",
    "common/gsql/supportai/Selected_Set_Display.gsql",
    "common/gsql/supportai/retrievers/GraphRAG_Hybrid_Search_Display.gsql",
    "common/gsql/supportai/retrievers/GraphRAG_Community_Search_Display.gsql",
    "common/gsql/supportai/retrievers/Chunk_Sibling_Search.gsql",
    "common/gsql/supportai/retrievers/Content_Similarity_Search.gsql",
    "common/gsql/supportai/retrievers/GraphRAG_Hybrid_Search.gsql",
    "common/gsql/supportai/retrievers/GraphRAG_Community_Search.gsql"]

  const SchemaFile := "common/gsql/supportai/SupportAI_Schema.gsql"
  const VectorFile := "common/gsql/supportai/SupportAI_Schema_Native_Vector.gsql"
  const IndexFile := "common/gsql/supportai/SupportAI_IndexCreation.gsql"
  const JsonLoadFile := "common/gsql/supportai/SupportAI_InitialLoadJSON.gsql"
  const DataSourceFile := "common/gsql/supportai/SupportAI_DataSourceCreation.gsql"

  function ListCommand(graphname: string): string {
    "USE GRAPH " + graphname + "\n ls"
  }

  /** A schema-change job: the graph, the job's file and the job to run. */
  function SchemaJob(graphname: string, body: string, job: string): string {
    "USE GRAPH " + graphname + "\n" + body + "\nRUN SCHEMA_CHANGE JOB " + job
  }

  const GdsCommand := "USE GLOBAL\nimport package gds\ninstall function gds.**"

  function QueryCommand(graphname: string, body: string): string {
    "USE GRAPH " + graphname + "\nBEGIN\n" + body + "\nEND\n"
  }

  function InstallCommand(graphname: string): string {
    "USE GRAPH " + graphname + "\nINSTALL QUERY ALL\n"
  }

  /** Whether the vector schema step runs: only for the TigerGraph store and when the listing lacks embeddings. */
  predicate VectorStep(listing: string, storeType: string) {
    storeType == "tigergraph" && !Contains(listing, EmbeddingMarker)
  }

  /** The statement the schema step sends: none when the listing shows the schema. */
  function SchemaStepSent(graphname: string, listing: string, read: string -> string): seq<string> {
    if Contains(listing, SchemaMarker) then [] else [SchemaJob(graphname, read(SchemaFile), "add_supportai_schema")]
  }

  /** The schema step's status: the job's output, or the skip note. */
  function SchemaStepResult(graphname: string, listing: string, read: string -> string, gsql: string -> string): string {
    if Contains(listing, SchemaMarker) then "Schema already exists, skipped"
    else gsql(SchemaJob(graphname, read(SchemaFile), "add_supportai_schema"))
  }

  /** The statements sent up to and including the vector step. */
  function SchemaStatements(graphname: string, listing: string, storeType: string, read: string -> string): seq<string> {
    [ListCommand(graphname)] + SchemaStepSent(graphname, listing, read) + VectorStepSent(graphname, listing, storeType, read)
  }

  /** The statements the vector step sends: the vector job and the package install, when it runs. */
  function VectorStepSent(graphname: string, listing: string, storeType: string, read: string -> string): seq<string> {
    if VectorStep(listing, storeType) then [SchemaJob(graphname, read(VectorFile), "add_supportai_vector"), GdsCommand]
    else []
  }

  /** The query-creation statements for `files`, in order. */
  function QueryStatements(connGraph: string, read: string -> string, files: seq<string>): (r: seq<string>)
    ensures |r| == |files|
  {
    seq(|files|, i requires 0 <= i < |files| => QueryCommand(connGraph, read(files[i])))
  }

  /** The statement the index step sends: none when the listing shows the index. */
  function IndexStepSent(graphname: string, listing: string, read: string -> string): seq<string> {
    if Contains(listing, IndexMarker) then [] else [SchemaJob(graphname, read(IndexFile), "add_supportai_indexes")]
  }

  /** The index step's status: the job's output, or the skip note. */
  function IndexStepResult(graphname: string, listing: string, read: string -> string, gsql: string -> string): string {
    if Contains(listing, IndexMarker) then "Index already exists, skipped"
    else gsql(SchemaJob(graphname, read(IndexFile), "add_supportai_indexes"))
  }

  /** Every statement `init_supportai` sends, in order, when it does not raise. */
  function InitStatements(graphname: string, connGraph: string, listing: string, storeType: string, read: string -> string): seq<string> {
    SchemaStatements(graphname, listing, storeType, read)
      + IndexStepSent(graphname, listing, read)
      + QueryStatements(connGraph, read, QueryFiles)
      + [InstallCommand(connGraph)]
  }

  /** Each step whose marker is present is skipped: the number of statements counts the steps that run. */
  lemma InitStatementCount(graphname: string, connGraph: string, listing: string, storeType: string, read: string -> string)
    ensures |InitStatements(graphname, connGraph, listing, storeType, read)| ==
      1 + (if Contains(listing, SchemaMarker) then 0 else 1) + (if VectorStep(listing, storeType) then 2 else 0)
        + (if Contains(listing, IndexMarker) then 0 else 1) + |QueryFiles| + 1
  {
  }

  /** The schema status: the schema step's output or its skip note, then the vector step's. */
  function SchemaResult(graphname: string, listing: string, storeType: string, read: string -> string, gsql: string -> string): string {
    var first := SchemaStepResult(graphname, listing, read, gsql);
    if storeType != "tigergraph" then first
    else if Contains(listing, EmbeddingMarker) then first + " Embeddding schema already exists, skipped"
    else first + " " + gsql(SchemaJob(graphname, read(VectorFile), "add_supportai_vector"))
  }

  /**
   * Why the vector step raises: a version part that is missing or not an integer raises
   * while it is read; a version too old raises with the parts of the version, as the
   * list of strings prints.
   */
  function VersionRefusal(version: string): string {
    var c := EmbeddingStore.CheckVersion(version);
    if c.Err? && c.error != EmbeddingStore.Unsupported(version) then c.error
    else "Vector feature is not supported by the current TigerGraph version: " + ListRepr(SplitChar(version, '.'))
  }

  /**
   * A major part below 4, or a major of at least 4 with a minor part below 2, is refused
   * with the version's parts.
   */
  lemma VersionRefusalTooOld(version: string)
    requires var ver := SplitChar(version, '.');
      ParseInt(ver[0]).Some? && (ParseInt(ver[0]).value < 4 || (|ver| >= 2 && ParseInt(ver[1]).Some? && ParseInt(ver[1]).value < 2))
    ensures VersionRefusal(version) == "Vector feature is not supported by the current TigerGraph version: " + ListRepr(SplitChar(version, '.'))
  {
    assert EmbeddingStore.CheckVersion(version) == Err(EmbeddingStore.Unsupported(version));
  }

  /** A major part that is not an integer raises while it is read, before any refusal. */
  lemma VersionRefusalUnparsable(version: string)
    requires ParseInt(SplitChar(version, '.')[0]).None?
    ensures VersionRefusal(version) == "ValueError: invalid literal for int()"
  {
    assert EmbeddingStore.CheckVersion(version) == Err("ValueError: invalid literal for int()");
  }

  /**
   * The schema and vector steps of `init_supportai`: a step whose marker is in the
   * listing is skipped. The vector step needs major 4 and minor 2 or later, compared
   * as integers, and raises otherwise, after the schema step has run.
   */
  method SchemaSteps(graphname: string, listing: string, version: string, storeType: string,
                     read: string -> string, gsql: string -> string)
    returns (r: Result<string>, sent: seq<string>)
    ensures r.Err? <==> VectorStep(listing, storeType) && EmbeddingStore.CheckVersion(version).Err?
    ensures r.Err? ==> sent == SchemaStepSent(graphname, listing, read) && r.error == VersionRefusal(version)
    ensures r.Ok? ==> sent == SchemaStepSent(graphname, listing, read) + VectorStepSent(graphname, listing, storeType, read)
    ensures r.Ok? ==> r.value == SchemaResult(graphname, listing, storeType, read, gsql)
  {
    var schemaRes;
    schemaRes, sent := SchemaStep(graphname, listing, read, gsql);
    if storeType == "tigergraph" {
      if Contains(listing, EmbeddingMarker) {
        schemaRes := schemaRes + " Embeddding schema already exists, skipped";
      } else if EmbeddingStore.CheckVersion(version).Ok? {
        var job := SchemaJob(graphname, read(VectorFile), "add_supportai_vector");
        schemaRes := schemaRes + " " + gsql(job);
        sent := sent + [job, GdsCommand];
      } else {
        return Err(VersionRefusal(version)), sent;
      }
    }
    r := Ok(schemaRes);
  }

  /** The schema step: the job runs unless the listing shows the schema. */
  method SchemaStep(graphname: string, listing: string, read: string -> string, gsql: string -> string)
    returns (res: string, sent: seq<string>)
    ensures res == SchemaStepResult(graphname, listing, read, gsql)
    ensures sent == SchemaStepSent(graphname, listing, read)
  {
    sent := [];
    if Contains(listing, SchemaMarker) {
      res := "Schema already exists, skipped";
    } else {
      var job := SchemaJob(graphname, read(SchemaFile), "add_supportai_schema");
      res := gsql(job);
      sent := [job];
    }
  }

  /** The index step: the job runs unless the listing shows the index. */
  method IndexStep(graphname: string, listing: string, read: string -> string, gsql: string -> string)
    returns (res: string, sent: seq<string>)
    ensures res == IndexStepResult(graphname, listing, read, gsql)
    ensures sent == IndexStepSent(graphname, listing, read)
  {
    sent := [];
    if Contains(listing, IndexMarker) {
      res := "Index already exists, skipped";
    } else {
      var job := SchemaJob(graphname, read(IndexFile), "add_supportai_indexes");
      res := gsql(job);
      sent := [job];
    }
  }

  /** The query-creation loop: one statement per query file, in order. */
  method CreateQueries(connGraph: string, read: string -> string) returns (sent: seq<string>)
    ensures sent == QueryStatements(connGraph, read, QueryFiles)
  {
    sent := [];
    var i := 0;
    while i < |QueryFiles|
      invariant 0 <= i <= |QueryFiles|
      invariant sent == QueryStatements(connGraph, read, QueryFiles[..i])
    {
      assert QueryStatements(connGraph, read, QueryFiles[..i + 1])
        == QueryStatements(connGraph, read, QueryFiles[..i]) + [QueryCommand(connGraph, read(QueryFiles[i]))];
      sent := sent + [QueryCommand(connGraph, read(QueryFiles[i]))];
      i := i + 1;
    }
    assert QueryFiles[..i] == QueryFiles;
  }

  /**
   * `init_supportai`. `version` is the database version, `connGraph` the graph the
   * connection is bound to. `sent` lists the statements sent to the database, in order.
   */
  method InitSupportai(graphname: string, connGraph: string, version: string, storeType: string,
                       read: string -> string, gsql: string -> string)
    returns (r: Result<(string, string, string)>, sent: seq<string>)
    ensures var listing := gsql(ListCommand(graphname));
      r.Err? <==> VectorStep(listing, storeType) && EmbeddingStore.CheckVersion(version).Err?
    ensures var listing := gsql(ListCommand(graphname));
      r.Err? ==> sent == [ListCommand(graphname)] + SchemaStepSent(graphname, listing, read)
    ensures var listing := gsql(ListCommand(graphname));
      r.Ok? ==>
        && sent == InitStatements(graphname, connGraph, listing, storeType, read)
        && r.value.0 == SchemaResult(graphname, listing, storeType, read, gsql)
        && r.value.1 == IndexStepResult(graphname, listing, read, gsql)
        && r.value.2 == gsql(InstallCommand(connGraph))
  {
    var listing := gsql(ListCommand(graphname));
    var schemaRes, schemaSent := SchemaSteps(graphname, listing, version, storeType, read, gsql);
    sent := [ListCommand(graphname)] + schemaSent;
    if schemaRes.Err? {
      return Err(schemaRes.error), sent;
    }
    assert sent == SchemaStatements(graphname, listing, storeType, read);
    var indexRes, indexSent := IndexStep(graphname, listing, read, gsql);
    sent := sent + indexSent;
    var queries := CreateQueries(connGraph, read);
    sent := sent + queries + [InstallCommand(connGraph)];
    r := Ok((schemaRes.value, indexRes, gsql(InstallCommand(connGraph))));
  }

  // ---------------------------------------------------------------- create_ingest

  /** The ingest request. Loader settings are taken as strings. */
  datatype IngestConfig = IngestConfig(fileFormat: string, loaderConfig: map<string, string>,
                                       dataSource: string, dataSourceConfig: map<string, Json>)

  /** A quoted placeholder of the JSON loading job. */
  function Quoted(s: string): string {
    "\"" + s + "\""
  }

  /**
   * The JSON loading job: the identifier is substituted, then the quoted "doc_id",
   * "content" and "doc_type" placeholders in turn, by the loader's fields or their
   * defaults.
   */
  function JsonTemplate(template: string, loaderConfig: map<string, string>, uuid: string): string {
    var docId := if "doc_id_field" in loaderConfig then loaderConfig["doc_id_field"] else "doc_id";
    var docText := if "content_field" in loaderConfig then loaderConfig["content_field"] else "content";
    var docType := if "doc_type" in loaderConfig then loaderConfig["doc_type"] else "";
    var t := ReplaceAll(template, "@uuid@", uuid);
    var t1 := ReplaceAll(t, Quoted("doc_id"), Quoted(docId));
    var t2 := ReplaceAll(t1, Quoted("content"), Quoted(docText));
    ReplaceAll(t2, Quoted("doc_type"), Quoted(docType))
  }

  /**
   * With no loader settings the id and content columns keep their names; only the
   * identifier is filled in and the document type becomes empty.
   */
  lemma DefaultTemplate(template: string, uuid: string)
    ensures JsonTemplate(template, map[], uuid) == ReplaceAll(ReplaceAll(template, "@uuid@", uuid), Quoted("doc_type"), Quoted(""))
  {
    var t := ReplaceAll(template, "@uuid@", uuid);
    ReplaceAllSelf(t, Quoted("doc_id"));
    ReplaceAllSelf(t, Quoted("content"));
  }

  /** A template without placeholders only gets its identifier. */
  lemma TemplateWithoutPlaceholders(template: string, loaderConfig: map<string, string>, uuid: string)
    requires var t := ReplaceAll(template, "@uuid@", uuid);
      !Contains(t, Quoted("doc_id")) && !Contains(t, Quoted("content")) && !Contains(t, Quoted("doc_type"))
    ensures JsonTemplate(template, loaderConfig, uuid) == ReplaceAll(template, "@uuid@", uuid)
  {
    var t := ReplaceAll(template, "@uuid@", uuid);
    ReplaceAllAbsent(t, Quoted("doc_id"), Quoted(if "doc_id_field" in loaderConfig then loaderConfig["doc_id_field"] else "doc_id"));
    ReplaceAllAbsent(t, Quoted("content"), Quoted(if "content_field" in loaderConfig then loaderConfig["content_field"] else "content"));
    ReplaceAllAbsent(t, Quoted("doc_type"), Quoted(if "doc_type" in loaderConfig then loaderConfig["doc_type"] else ""));
  }

  /** `config.get(k) is None`: the setting is absent or null. */
  predicate Missing(config: map<string, Json>, k: string) {
    Get(config, k) == JNull
  }

  /**
   * The connector for a data source, chosen by its lower-cased name; "local" needs
   * none. Each source checks its credentials in order and raises on the first missing
   * one; an unknown source raises.
   */
  function Connector(dataSource: string, config: map<string, Json>): (r: Result<Option<map<string, Json>>>)
    ensures Lower(dataSource) == "local" <==> r == Ok(None)
    ensures Lower(dataSource) !in {"s3", "azure", "gcs", "local"} ==> r == Err("Data source not implemented")
    ensures Lower(dataSource) == "s3" ==>
      (r.Ok? <==> !Missing(config, "aws_access_key") && !Missing(config, "aws_secret_key"))
    ensures Lower(dataSource) == "s3" && r.Ok? ==>
      r.value == Some(map["type" := JStr("s3"), "access.key" := config["aws_access_key"], "secret.key" := config["aws_secret_key"]])
    ensures Lower(dataSource) == "s3" && r.Err? ==> r == Err("AWS credentials not provided")
    ensures Lower(dataSource) == "azure" && !Missing(config, "account_key") ==>
      r == Ok(Some(map["type" := JStr("abs"), "account.key" := config["account_key"]]))
    ensures Lower(dataSource) == "azure" && Missing(config, "account_key") ==>
      && (Missing(config, "client_id") ==> r == Err("Azure credentials not provided"))
      && (!Missing(config, "client_id") && Missing(config, "client_secret") ==> r == Err("Client secret not provided"))
      && (!Missing(config, "client_id") && !Missing(config, "client_secret") && Missing(config, "tenant_id") ==> r == Err("Tenant id not provided"))
      && (r.Ok? <==> !Missing(config, "client_id") && !Missing(config, "client_secret") && !Missing(config, "tenant_id"))
    ensures Lower(dataSource) == "azure" && Missing(config, "account_key") && r.Ok? ==>
      r.value == Some(map["type" := JStr("abs"), "client.id" := config["client_id"],
                          "client.secret" := config["client_secret"], "tenant.id" := config["tenant_id"]])
    ensures Lower(dataSource) == "gcs" ==>
      && (Missing(config, "project_id") ==> r == Err("Project id not provided"))
      && (!Missing(config, "project_id") && Missing(config, "private_key_id") ==> r == Err("Private key id not provided"))
      && (!Missing(config, "project_id") && !Missing(config, "private_key_id") && Missing(config, "private_key") ==>
            r == Err("Private key not provided"))
      && ((!Missing(config, "project_id") && !Missing(config, "private_key_id") && !Missing(config, "private_key")
           && Missing(config, "client_email")) ==> r == Err("Client email not provided"))
      && (r.Ok? <==> forall k :: k in GcsFields ==> !Missing(config, k))
    ensures Lower(dataSource) == "gcs" && r.Ok? ==>
      r.value == Some(map["type" := JStr("gcs"), "project_id" := config["project_id"], "private_key_id" := config["private_key_id"],
                          "private_key" := config["private_key"], "client_email" := config["client_email"]])
  {
    var kind := Lower(dataSource);
    if kind == "s3" then
      if Missing(config, "aws_access_key") || Missing(config, "aws_secret_key") then Err("AWS credentials not provided")
      else Ok(Some(map["type" := JStr("s3"), "access.key" := config["aws_access_key"], "secret.key" := config["aws_secret_key"]]))
    else if kind == "azure" then
      if !Missing(config, "account_key") then Ok(Some(map["type" := JStr("abs"), "account.key" := config["account_key"]]))
      else if !Missing(config, "client_id") then
        if Missing(config, "client_secret") then Err("Client secret not provided")
        else if Missing(config, "tenant_id") then Err("Tenant id not provided")
        else Ok(Some(map["type" := JStr("abs"), "client.id" := config["client_id"],
                         "client.secret" := config["client_secret"], "tenant.id" := config["tenant_id"]]))
      else Err("Azure credentials not provided")
    else if kind == "gcs" then
      if Missing(config, "project_id") then Err("Project id not provided")
      else if Missing(config, "private_key_id") then Err("Private key id not provided")
      else if Missing(config, "private_key") then Err("Private key not provided")
      else if Missing(config, "client_email") then Err("Client email not provided")
      else Ok(Some(map["type" := JStr("gcs"), "project_id" := config["project_id"], "private_key_id" := config["private_key_id"],
                       "private_key" := config["private_key"], "client_email" := config["client_email"]]))
    else if kind == "local" then Ok(None)
    else Err("Data source not implemented")
  }

  const GcsFields := {"project_id", "private_key_id", "private_key", "client_email"}

  /** Credentials are checked case-insensitively by source name. */
  lemma ConnectorIgnoresCase(dataSource: string, config: map<string, Json>)
    ensures Connector(Lower(dataSource), config) == Connector(dataSource, config)
  {
    LowerIdempotent(dataSource);
  }


  /** `out.split(":")[1].strip(" [").strip(" ").strip(".").strip("]")`: the name the database reports. */
  function CreatedName(out: string): (r: Result<string>)
    ensures r.Ok? <==> ':' in out
    ensures r.Ok? && |r.value| > 0 ==> r.value[0] != ']' && r.value[|r.value| - 1] != ']'
  {
    var parts := SplitChar(out, ':');
    if |parts| < 2 then Err("IndexError: list index out of range")
    else Ok(Strip(Strip(Strip(Strip(parts[1], {' ', '['}), {' '}), {'.'}), {']'}))
  }

  /** The second ":"-field of `a + ":" + b` is `b` when neither part holds ":". */
  lemma SecondColonField(a: string, b: string)
    requires ':' !in a && ':' !in b
    ensures |SplitChar(a + ":" + b, ':')| >= 2 && SplitChar(a + ":" + b, ':')[1] == b
  {
    var s := a + ":" + b;
    assert s[|a|] == ':';
    assert IndexOf(s, ':') == |a| by {
      assert ':' !in s[..|a|] by {
        assert s[..|a|] == a;
      }
    }
    assert s[|a| + 1..] == b;
  }

  lemma StripOpening(name: string)
    requires |name| > 0 && name[0] !in {' ', '['}
    ensures Strip(" [" + name + "].", {' ', '['}) == name + "]."
  {
    var x := name + "].";
    assert " [" + name + "]." == " [" + x;
    LStripLeading(" [", x, {' ', '['});
    assert x[|x| - 1] == '.' && x + "" == x;
    RStripTrailing(x, "", {' ', '['});
  }

  lemma StripDot(name: string)
    requires |name| > 0 && name[0] != '.'
    ensures Strip(name + "].", {'.'}) == name + "]"
  {
    var x := name + "].";
    assert LStrip(x, {'.'}) == x;
    assert x == (name + "]") + ".";
    RStripTrailing(name + "]", ".", {'.'});
  }

  lemma StripClosing(name: string)
    requires |name| > 0 && name[0] != ']' && name[|name| - 1] != ']'
    ensures Strip(name + "]", {']'}) == name
  {
    var y := name + "]";
    assert LStrip(y, {']'}) == y;
    RStripTrailing(name, "]", {']'});
  }

  /**
   * Reading a created job's name back from the database's usual message
   * "<text>: [<name>]." gives the name, for a name that does not start with one of
   * the stripped characters or end in "]".
   */
  lemma CreatedNameReadsBack(out: string, head: string, name: string)
    requires ':' !in head && ':' !in name && |name| > 0
    requires name[0] !in {' ', '[', '.', ']'} && name[|name| - 1] != ']'
    requires out == head + ":" + (" [" + name + "].")
    ensures CreatedName(out) == Ok(name)
  {
    var tail := " [" + name + "].";
    assert ':' !in tail by {
      assert tail == " [" + (name + "].");
    }
    SecondColonField(head, tail);
    StripOpening(name);
    var x := name + "].";
    assert x[|x| - 1] == '.';
    StripNoop(x, {' '});
    StripDot(name);
    StripClosing(name);
  }

  /** The reply record of `create_ingest`. */
  function Reply(kind: string, loadJobId: string, dataPath: Option<Json>, sourceId: string): (r: map<string, Json>)
    ensures r.Keys == {"data_source", "load_job_id", "data_source_id"} + (if dataPath.Some? then {"data_path"} else {})
    ensures r["data_source"] == JStr(kind) && r["load_job_id"] == JStr(loadJobId) && r["data_source_id"] == JStr(sourceId)
    ensures dataPath.Some? ==> r["data_path"] == dataPath.value
  {
    var res := map["data_source" := JStr(kind), "load_job_id" := JStr(loadJobId)];
    var res' := if dataPath.Some? then res["data_path" := dataPath.value] else res;
    res'["data_source_id" := JStr(sourceId)]
  }

  /**
   * The reply of `create_ingest` from the database's answers: the lower-cased source,
   * the loading job's name, the "data_path" setting when the source configuration is
   * not empty, and the source's name ("DocumentContent" for local files).
   */
  function IngestResult(kind: string, config: map<string, Json>, loadOut: string, sourceOut: Option<string>): (r: Result<map<string, Json>>)
    ensures r.Ok? <==> CreatedName(loadOut).Ok? && (sourceOut.Some? ==> CreatedName(sourceOut.value).Ok?)
    ensures r.Ok? ==> r.value == Reply(kind, CreatedName(loadOut).value,
      if config != map[] then Some(GetOr(config, "data_path", JStr(""))) else None,
      if sourceOut.None? then "DocumentContent" else CreatedName(sourceOut.value).value)
  {
    var dataPath := if config != map[] then Some(GetOr(config, "data_path", JStr(""))) else None;
    var loadName := CreatedName(loadOut);
    if loadName.Err? then Err(loadName.error)
    else if sourceOut.None? then Ok(Reply(kind, loadName.value, dataPath, "DocumentContent"))
    else
      var sourceName := CreatedName(sourceOut.value);
      if sourceName.Err? then Err(sourceName.error)
      else Ok(Reply(kind, loadName.value, dataPath, sourceName.value))
  }

  /** The statement creating the data source, with its name and, for remote sources, its connector. */
  function SourceStatement(graphname: string, read: string -> string, dumps: map<string, Json> -> string,
                           connector: map<string, Json>, uuid2: string): string {
    var stream := ReplaceAll(read(DataSourceFile), "@source_name@", "SupportAI_" + graphname + "_" + uuid2);
    "USE GRAPH " + graphname + "\n" + ReplaceAll(stream, "@source_config@", dumps(connector))
  }

  /**
   * `create_ingest` for a JSON ingest. The credentials are validated before the
   * loading job is created; the data source is created only for remote sources.
   * `uuid1` and `uuid2` are the two random identifiers drawn, `dumps` is `json.dumps`.
   */
  function CreateIngest(graphname: string, cfg: IngestConfig, read: string -> string, gsql: string -> string,
                        dumps: map<string, Json> -> string, uuid1: string, uuid2: string): (r: Result<map<string, Json>>)
    ensures Lower(cfg.fileFormat) != "csv" && Connector(cfg.dataSource, cfg.dataSourceConfig).Err? ==>
      r == Err(Connector(cfg.dataSource, cfg.dataSourceConfig).error)
    ensures r.Ok? ==> Lower(cfg.fileFormat) == "json" && Connector(cfg.dataSource, cfg.dataSourceConfig).Ok?
    ensures Lower(cfg.fileFormat) == "json" && Connector(cfg.dataSource, cfg.dataSourceConfig).Ok? ==>
      var connector := Connector(cfg.dataSource, cfg.dataSourceConfig).value;
      r == IngestResult(Lower(cfg.dataSource), cfg.dataSourceConfig,
        gsql("USE GRAPH " + graphname + "\n" + JsonTemplate(read(JsonLoadFile), cfg.loaderConfig, uuid1)),
        if connector.None? then None else Some(gsql(SourceStatement(graphname, read, dumps, connector.value, uuid2))))
  {
    var format := Lower(cfg.fileFormat);
    if format == "csv" then Err("AttributeError: the ingest config has no get")
    else
      match Connector(cfg.dataSource, cfg.dataSourceConfig)
      case Err(e) => Err(e)
      case Ok(connector) =>
        if format != "json" then Err("NameError: ingest_template")
        else
          var loadOut := gsql("USE GRAPH " + graphname + "\n" + JsonTemplate(read(JsonLoadFile), cfg.loaderConfig, uuid1));
          IngestResult(Lower(cfg.dataSource), cfg.dataSourceConfig, loadOut,
            if connector.None? then None else Some(gsql(SourceStatement(graphname, read, dumps, connector.value, uuid2))))
  }
}
