/**
 * The entry points of the eventual-consistency service (ecc/app/main.py): the
 * registry of consistency checkers, one per graph, the version gate in front of
 * the vector store, which checkers start with the service, and the dispatch of
 * the `consistency_status` endpoint.
 */
module EccMain {
  import opened Wrappers
  import opened Text
  import opened Json
  import Config
  import EmbeddingStore
  import Schemas

  /** A constructed checker: its graph, its completion provider and its vector store setting. */
  datatype Checker = Checker(graphname: string, llm: Config.LlmProvider)

  /** The start-up gate on major and minor: `maj >= "4" and minor >= "2"`, compared as strings. */
  predicate StringGate(major: string, minor: string) {
    LexGe(major, "4") && LexGe(minor, "2")
  }

  /**
   * The guarded start-up of one checker, up to and including its construction.
   * `version` is the graph's version string; `extractor` is the configured
   * "extractor" setting; `namesBound` says whether the module-level settings the
   * constructor is passed are defined (they are not, as written, so every
   * construction raises).
   */
  function StartUp(graphname: string, version: string, extractor: Json, llmConfig: map<string, Json>, namesBound: bool): (r: Result<Checker>)
    ensures r.Ok? <==>
      var parts := SplitChar(version, '.');
      && |parts| == 3
      && StringGate(parts[0], parts[1])
      && EmbeddingStore.CheckVersion(version).Ok?
      && extractor == JStr("llm")
      && Config.GetLlmService(llmConfig).Ok?
      && namesBound
    ensures r.Ok? ==> r.value == Checker(graphname, Config.GetLlmService(llmConfig).value)
    ensures extractor != JStr("llm") && |SplitChar(version, '.')| == 3 ==> r.Err?
  {
    var parts := SplitChar(version, '.');
    if |parts| != 3 then Err("ValueError: wrong number of values to unpack")
    // when the gate fails, index_stores is never bound and the constructor call raises
    else if StringGate(parts[0], parts[1]) && EmbeddingStore.CheckVersion(version).Err? then Err(EmbeddingStore.CheckVersion(version).error)
    else if extractor != JStr("llm") then Err("Invalid extractor type")
    else if Config.GetLlmService(llmConfig).Err? then Err(Config.GetLlmService(llmConfig).error)
    else if !namesBound then Err("NameError: process_interval_seconds")
    else if !StringGate(parts[0], parts[1]) then Err("NameError: index_stores")
    else Ok(Checker(graphname, Config.GetLlmService(llmConfig).value))
  }

  /** The service's registry of consistency checkers, keyed by graph name. */
  class Registry {
    var checkers: map<string, Checker>

    constructor()
      ensures checkers == map[]
    {
      checkers := map[];
    }

    /**
     * `initialize_eventual_consistency_checker`. A registered graph gets its existing
     * checker back and nothing else happens. Otherwise the checker is registered once
     * constructed and before `initialize()` runs, so it stays registered when
     * `initialize()` fails; any failure yields `None`.
     */
    method Initialize(graphname: string, version: string, extractor: Json, llmConfig: map<string, Json>,
                      namesBound: bool, initialize: Result<()>)
      returns (r: Option<Checker>)
      modifies this
      ensures graphname in old(checkers) ==> r == Some(old(checkers)[graphname]) && checkers == old(checkers)
      ensures graphname !in old(checkers) ==>
        var started := StartUp(graphname, version, extractor, llmConfig, namesBound);
        && checkers == (if started.Ok? then old(checkers)[graphname := started.value] else old(checkers))
        && r == (if started.Ok? && initialize.Ok? then Some(started.value) else None)
      ensures forall g :: g in old(checkers) ==> g in checkers && checkers[g] == old(checkers)[g]
      ensures r.Some? ==> graphname in checkers && checkers[graphname] == r.value
    {
      if graphname in checkers {
        return Some(checkers[graphname]);
      }
      var started := StartUp(graphname, version, extractor, llmConfig, namesBound);
      if started.Err? {
        return None;
      }
      checkers := checkers[graphname := started.value];
      if initialize.Err? {
        return None;
      }
      r := Some(started.value);
    }
  }

  /**
   * The string gate and the store's integer gate disagree on a version such as
   * "4.10.0": the first refuses it, the second accepts it, so no checker starts.
   */
  lemma VersionGatesDisagree(version: string)
    requires SplitChar(version, '.') == ["4", "10", "0"]
    ensures !StringGate("4", "10")
    ensures EmbeddingStore.CheckVersion(version) == Ok((4, 10))
    ensures forall g, llmConfig, bound :: StartUp(g, version, JStr("llm"), llmConfig, bound).Err?
  {
    TenBeforeTwo();
    StoreAcceptsFourTen(version);
    forall g, llmConfig, bound ensures StartUp(g, version, JStr("llm"), llmConfig, bound).Err? {
      GateRefusesFourTen(g, version, llmConfig, bound);
    }
  }

  lemma StoreAcceptsFourTen(version: string)
    requires SplitChar(version, '.') == ["4", "10", "0"]
    ensures EmbeddingStore.CheckVersion(version) == Ok((4, 10))
  {
    var ver := SplitChar(version, '.');
    assert ver[0] == "4" && ver[1] == "10";
    ParseInt4(ver[0]);
    ParseInt10(ver[1]);
  }

  lemma GateRefusesFourTen(g: string, version: string, llmConfig: map<string, Json>, bound: bool)
    requires SplitChar(version, '.') == ["4", "10", "0"]
    ensures StartUp(g, version, JStr("llm"), llmConfig, bound).Err?
  {
    TenBeforeTwo();
    var parts := SplitChar(version, '.');
    assert parts[0] == "4" && parts[1] == "10";
  }

  lemma TenBeforeTwo()
    ensures !StringGate("4", "10")
  {
    assert "10"[0] == '1' && "2"[0] == '2';
  }

  lemma ParseInt4(s: string)
    requires s == "4"
    ensures ParseInt(s) == Some(4)
  {
    assert AllDigits(s);
    assert s[..0] == [];
    assert DigitsValue(s) == 4;
  }

  lemma ParseInt10(s: string)
    requires s == "10"
    ensures ParseInt(s) == Some(10)
  {
    assert AllDigits(s);
    var one := s[..1];
    assert one == "1";
    assert one[..0] == [];
    assert DigitsValue(one) == 1;
    assert DigitsValue(s) == 10;
  }

  /**
   * The graphs whose checkers start with the service: the "graph_names" list when
   * "enable_consistency_checker" is truthy, none otherwise. A "graph_names" value that
   * cannot be iterated raises; a string starts one graph per character.
   */
  function StartupGraphs(graphragConfig: map<string, Json>): (r: Result<seq<Json>>)
    ensures !Truthy(GetOr(graphragConfig, "enable_consistency_checker", JBool(false))) ==> r == Ok([])
    ensures Truthy(GetOr(graphragConfig, "enable_consistency_checker", JBool(false))) && "graph_names" !in graphragConfig ==> r == Ok([])
    ensures Truthy(GetOr(graphragConfig, "enable_consistency_checker", JBool(false))) && "graph_names" in graphragConfig && graphragConfig["graph_names"].JList? ==>
      r == Ok(graphragConfig["graph_names"].items)
    ensures Truthy(GetOr(graphragConfig, "enable_consistency_checker", JBool(false))) && "graph_names" in graphragConfig ==>
      (r.Ok? <==> Iterated(graphragConfig["graph_names"]).Some?)
  {
    if !Truthy(GetOr(graphragConfig, "enable_consistency_checker", JBool(false))) then Ok([])
    else match Iterated(GetOr(graphragConfig, "graph_names", JList([])))
      case Some(graphs) => Ok(graphs)
      case None => Err("TypeError: graph_names cannot be iterated")
  }

  /**
   * `lifespan`: one checker thread is started per start-up graph, in order. The
   * result lists the graphs a thread was started for.
   */
  method Lifespan(graphragConfig: map<string, Json>) returns (started: Result<seq<Json>>)
    ensures started == StartupGraphs(graphragConfig)
  {
    var graphs := StartupGraphs(graphragConfig);
    if graphs.Err? {
      return graphs;
    }
    var launched: seq<Json> := [];
    var i := 0;
    while i < |graphs.value|
      invariant 0 <= i <= |graphs.value|
      invariant launched == graphs.value[..i]
    {
      launched := launched + [graphs.value[i]];
      i := i + 1;
    }
    assert graphs.value[..i] == graphs.value;
    started := Ok(launched);
  }

  /** The background job `consistency_status` schedules. */
  datatype Job = SupportaiRun(graphname: string) | GraphragRun(graphname: string)

  /** The endpoint's answer: an HTTP status, the job scheduled if any, and the body. */
  datatype StatusReply = StatusReply(code: int, job: Option<Job>, body: string)

  /**
   * `consistency_status`: "supportai" schedules the SupportAI run, "graphrag" the
   * GraphRAG run, each on the requested graph; any other method is a 404 that
   * schedules nothing. `now` is the current time as `time.ctime()` prints it.
   */
  function ConsistencyStatus(graphname: string, eccMethod: string, now: string): (r: StatusReply)
    ensures r.job.Some? <==> eccMethod == Schemas.Supportai || eccMethod == Schemas.Graphrag
    ensures r.job.None? <==> r.code == 404
    ensures r.job.Some? ==> r.code == 200 && r.job.value.graphname == graphname
    ensures r.job == Some(SupportaiRun(graphname)) <==> eccMethod == Schemas.Supportai
    ensures r.job == Some(GraphragRun(graphname)) <==> eccMethod == Schemas.Graphrag
  {
    if eccMethod == Schemas.Supportai then
      StatusReply(200, Some(SupportaiRun(graphname)), "SupportAI initialization on " + graphname + " " + now)
    else if eccMethod == Schemas.Graphrag then
      StatusReply(200, Some(GraphragRun(graphname)), "GraphRAG initialization on " + graphname + " " + now)
    else
      StatusReply(404, None, "Method unsupported, must be " + Schemas.Supportai + ", " + Schemas.Graphrag)
  }
}
