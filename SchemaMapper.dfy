/**
 * The question-to-schema tool (graphrag/app/tools/map_question_to_schema.py): its
 * cached copy of the graph schema, refreshed by schema version, the remapping of the
 * attribute names the model proposed onto the graph's own, and the token usage
 * added up over the model calls. The database and the model are parameters.
 */
module SchemaMapper {
  import opened Wrappers
  import opened Json

  /** What the database reports about the schema. */
  datatype Db = Db(vertexTypes: seq<string>, edgeTypes: seq<string>, vertexAttrs: string -> seq<string>,
                   edgeSource: string -> string, edgeTarget: string -> string)

  /** One "vertices_info" entry. */
  datatype VertexInfo = VertexInfo(vertex: string, attributes: seq<string>)

  /** One "edges_info" entry. */
  datatype EdgeInfo = EdgeInfo(edge: string, source: string, target: string)

  /** The entries a refresh appends, one per vertex type and one per edge type. */
  function VertexInfos(db: Db, vs: seq<string>): seq<VertexInfo> {
    seq(|vs|, i requires 0 <= i < |vs| => VertexInfo(vs[i], db.vertexAttrs(vs[i])))
  }

  function EdgeInfos(db: Db, es: seq<string>): seq<EdgeInfo> {
    seq(|es|, i requires 0 <= i < |es| => EdgeInfo(es[i], db.edgeSource(es[i]), db.edgeTarget(es[i])))
  }

  /** The schema is fetched again when the version is unknown or differs from the stored one. */
  predicate Stale(stored: int, fetched: Option<int>) {
    fetched.None? || stored != fetched.value
  }

  /** The token counts and cost of model calls. */
  datatype Usage = Usage(inputTokens: int, outputTokens: int, totalTokens: int, cost: real)
  {
    function Plus(u: Usage): Usage {
      Usage(inputTokens + u.inputTokens, outputTokens + u.outputTokens, totalTokens + u.totalTokens, cost + u.cost)
    }
  }

  /** The tool with its schema cache. */
  class MapQuestionToSchema {
    var schemaVer: int
    var vertices: seq<string>
    var edges: seq<string>
    var verticesInfo: seq<VertexInfo>
    var edgesInfo: seq<EdgeInfo>

    constructor()
      ensures schemaVer == -1 && vertices == [] && edges == [] && verticesInfo == [] && edgesInfo == []
    {
      schemaVer := -1;
      vertices := [];
      edges := [];
      verticesInfo := [];
      edgesInfo := [];
    }

    /**
     * The cache step of `_run`. On a refresh the stored version becomes the fetched
     * one (-1 when unknown), the type lists are replaced and one info entry per type
     * is appended to the earlier ones, which are kept. Otherwise nothing changes.
     */
    method Refresh(fetched: Option<int>, db: Db)
      modifies this
      ensures Stale(old(schemaVer), fetched) ==>
        && schemaVer == (if fetched.Some? then fetched.value else -1)
        && vertices == db.vertexTypes && edges == db.edgeTypes
        && verticesInfo == old(verticesInfo) + VertexInfos(db, db.vertexTypes)
        && edgesInfo == old(edgesInfo) + EdgeInfos(db, db.edgeTypes)
      ensures !Stale(old(schemaVer), fetched) ==>
        && schemaVer == old(schemaVer) && vertices == old(vertices) && edges == old(edges)
        && verticesInfo == old(verticesInfo) && edgesInfo == old(edgesInfo)
    {
      if Stale(schemaVer, fetched) {
        schemaVer := if fetched.Some? then fetched.value else -1;
        vertices := db.vertexTypes;
        edges := db.edgeTypes;
        var vs := db.vertexTypes;
        ghost var infos := verticesInfo;
        for i := 0 to |vs|
          invariant verticesInfo == infos + VertexInfos(db, vs[..i])
          invariant vertices == vs && edges == db.edgeTypes
          invariant schemaVer == (if fetched.Some? then fetched.value else -1) && edgesInfo == old(edgesInfo)
        {
          assert VertexInfos(db, vs[..i + 1]) == VertexInfos(db, vs[..i]) + [VertexInfo(vs[i], db.vertexAttrs(vs[i]))];
          verticesInfo := verticesInfo + [VertexInfo(vs[i], db.vertexAttrs(vs[i]))];
        }
        assert vs[..|vs|] == vs;
        var es := db.edgeTypes;
        ghost var einfos := edgesInfo;
        for i := 0 to |es|
          invariant edgesInfo == einfos + EdgeInfos(db, es[..i])
          invariant vertices == vs && edges == es
          invariant schemaVer == (if fetched.Some? then fetched.value else -1) && verticesInfo == old(verticesInfo) + VertexInfos(db, vs)
        {
          assert EdgeInfos(db, es[..i + 1]) == EdgeInfos(db, es[..i]) + [EdgeInfo(es[i], db.edgeSource(es[i]), db.edgeTarget(es[i]))];
          edgesInfo := edgesInfo + [EdgeInfo(es[i], db.edgeSource(es[i]), db.edgeTarget(es[i]))];
        }
        assert es[..|es|] == es;
      }
    }
  }

  /** An unknown version always refreshes, so the info lists grow on every call while it stays unknown. */
  method UnknownVersionGrows(db: Db) returns (t: MapQuestionToSchema)
    ensures fresh(t) && t.schemaVer == -1
    ensures t.verticesInfo == VertexInfos(db, db.vertexTypes) + VertexInfos(db, db.vertexTypes)
  {
    t := new MapQuestionToSchema();
    t.Refresh(None, db);
    t.Refresh(None, db);
  }

  /** A known, unchanged version reuses the cache. */
  method SameVersionReuses(db: Db, v: int) returns (t: MapQuestionToSchema)
    requires v != -1
    ensures fresh(t) && t.schemaVer == v && t.verticesInfo == VertexInfos(db, db.vertexTypes)
  {
    t := new MapQuestionToSchema();
    t.Refresh(Some(v), db);
    t.Refresh(Some(v), db);
  }

  // ---------------------------------------------------------------- attribute remapping

  /** `[parsed_map.get(x) for x in attrs]`: a name missing from the map becomes None. */
  function RemapVertexAttrs(attrs: seq<Json>, attrMap: map<Json, Json>): seq<Json> {
    seq(|attrs|, i requires 0 <= i < |attrs| => if attrs[i] in attrMap then attrMap[attrs[i]] else JNull)
  }

  /**
   * The remapping reads the map only at the attribute names: two maps that agree on
   * which names they hold and on what they map them to remap alike, whatever else
   * they hold.
   */
  lemma RemapVertexAttrsLocal(attrs: seq<Json>, m1: map<Json, Json>, m2: map<Json, Json>)
    requires forall i :: 0 <= i < |attrs| ==> (attrs[i] in m1 <==> attrs[i] in m2)
    requires forall i :: 0 <= i < |attrs| && attrs[i] in m1 ==> m1[attrs[i]] == m2[attrs[i]]
    ensures RemapVertexAttrs(attrs, m1) == RemapVertexAttrs(attrs, m2)
  {
  }

  /** `[parsed_map[x] for x in attrs]`: a name missing from the map raises. */
  function RemapEdgeAttrs(attrs: seq<Json>, attrMap: map<Json, Json>): (r: Result<seq<Json>>)
    ensures r.Ok? <==> forall i :: 0 <= i < |attrs| ==> attrs[i] in attrMap
    ensures r.Ok? ==> |r.value| == |attrs| && forall i :: 0 <= i < |attrs| ==> r.value[i] == attrMap[attrs[i]]
    decreases |attrs|
  {
    if attrs == [] then Ok([])
    else if attrs[0] !in attrMap then Err("KeyError")
    else
      match RemapEdgeAttrs(attrs[1..], attrMap)
      case Err(e) => Err(e)
      case Ok(rest) => Ok([attrMap[attrs[0]]] + rest)
  }

  /** Where every name is mapped, the two remappings agree. */
  lemma RemapsAgree(attrs: seq<Json>, attrMap: map<Json, Json>)
    requires forall i :: 0 <= i < |attrs| ==> attrs[i] in attrMap
    ensures RemapEdgeAttrs(attrs, attrMap) == Ok(RemapVertexAttrs(attrs, attrMap))
  {
    assert RemapEdgeAttrs(attrs, attrMap).value == RemapVertexAttrs(attrs, attrMap);
  }

  /** A model call mapping attribute names: its map and the usage it reports. */
  datatype Mapping = Mapping(attrMap: map<Json, Json>, usage: Usage)

  /** The usage of the mapping calls for `targets`, in order. */
  function MappingUsage(targets: seq<(string, seq<Json>)>, chain: (string, seq<Json>) -> Mapping, start: Usage): Usage
    decreases |targets|
  {
    if targets == [] then start
    else MappingUsage(targets[..|targets| - 1], chain, start).Plus(chain(targets[|targets| - 1].0, targets[|targets| - 1].1).usage)
  }

  /** One vertex type's attributes after remapping: an empty map leaves them as they were. */
  function VertexTarget(target: (string, seq<Json>), chain: (string, seq<Json>) -> Mapping): (r: (string, seq<Json>))
    ensures r.0 == target.0
    ensures |chain(target.0, target.1).attrMap| == 0 ==> r == target
  {
    var m := chain(target.0, target.1).attrMap;
    (target.0, if |m| > 0 then RemapVertexAttrs(target.1, m) else target.1)
  }

  /** The vertex attributes after remapping, type by type. */
  function VertexTargets(targets: seq<(string, seq<Json>)>, chain: (string, seq<Json>) -> Mapping): (r: seq<(string, seq<Json>)>)
    ensures |r| == |targets| && forall i :: 0 <= i < |targets| ==> r[i].0 == targets[i].0
  {
    seq(|targets|, i requires 0 <= i < |targets| => VertexTarget(targets[i], chain))
  }

  /** The usage of the calls for one more target adds that call's usage. */
  lemma MappingUsageSnoc(targets: seq<(string, seq<Json>)>, chain: (string, seq<Json>) -> Mapping, start: Usage, i: nat)
    requires i < |targets|
    ensures MappingUsage(targets[..i + 1], chain, start)
         == MappingUsage(targets[..i], chain, start).Plus(chain(targets[i].0, targets[i].1).usage)
  {
    assert targets[..i + 1][..i] == targets[..i];
  }

  /**
   * The vertex loop of `_run`: one model call per target vertex type, in order; the
   * usage of each call is added to the running totals.
   */
  method MapVertexAttributes(targets: seq<(string, seq<Json>)>, chain: (string, seq<Json>) -> Mapping, usage: Usage)
    returns (out: seq<(string, seq<Json>)>, total: Usage)
    ensures out == VertexTargets(targets, chain)
    ensures total == MappingUsage(targets, chain, usage)
  {
    out := targets;
    total := usage;
    for i := 0 to |targets|
      invariant |out| == |targets|
      invariant forall k :: 0 <= k < i ==> out[k] == VertexTarget(targets[k], chain)
      invariant forall k :: i <= k < |targets| ==> out[k] == targets[k]
      invariant total == MappingUsage(targets[..i], chain, usage)
    {
      var mapping := chain(targets[i].0, targets[i].1);
      MappingUsageSnoc(targets, chain, usage, i);
      total := total.Plus(mapping.usage);
      if |mapping.attrMap| > 0 {
        out := out[i := (targets[i].0, RemapVertexAttrs(targets[i].1, mapping.attrMap))];
      }
    }
    assert targets[..|targets|] == targets;
  }

  /** One edge type's attributes after remapping; with a non-empty map, a name it lacks raises. */
  function EdgeTarget(target: (string, seq<Json>), chain: (string, seq<Json>) -> Mapping): (r: Result<(string, seq<Json>)>)
    ensures |chain(target.0, target.1).attrMap| == 0 ==> r == Ok(target)
    ensures r.Ok? <==> forall i :: 0 <= i < |target.1| && |chain(target.0, target.1).attrMap| > 0 ==>
      target.1[i] in chain(target.0, target.1).attrMap
    ensures r.Ok? ==> r.value.0 == target.0 && |r.value.1| == |target.1|
  {
    var m := chain(target.0, target.1).attrMap;
    if |m| == 0 then Ok(target)
    else
      match RemapEdgeAttrs(target.1, m)
      case Err(e) => Err(e)
      case Ok(v) => Ok((target.0, v))
  }

  /** The edge attributes after remapping, or the error of the first name a non-empty map lacks. */
  function EdgeTargets(targets: seq<(string, seq<Json>)>, chain: (string, seq<Json>) -> Mapping): (r: Result<seq<(string, seq<Json>)>>)
    ensures r.Ok? <==> forall i :: 0 <= i < |targets| ==> EdgeTarget(targets[i], chain).Ok?
    ensures r.Ok? ==> |r.value| == |targets| && forall i :: 0 <= i < |targets| ==> r.value[i] == EdgeTarget(targets[i], chain).value
    decreases |targets|
  {
    if targets == [] then Ok([])
    else
      var init := targets[..|targets| - 1];
      var last := targets[|targets| - 1];
      assert forall i :: 0 <= i < |init| ==> init[i] == targets[i];
      match EdgeTargets(init, chain)
      case Err(e) => Err(e)
      case Ok(done) =>
        match EdgeTarget(last, chain)
        case Err(e) => Err(e)
        case Ok(t) => Ok(done + [t])
  }

  /** The prefix of one more target: its remapping extends the shorter one's, or fails with it. */
  lemma EdgeTargetsSnoc(targets: seq<(string, seq<Json>)>, chain: (string, seq<Json>) -> Mapping, i: nat)
    requires i < |targets| && EdgeTargets(targets[..i], chain).Ok?
    ensures EdgeTarget(targets[i], chain).Err? ==> EdgeTargets(targets[..i + 1], chain).Err?
    ensures EdgeTarget(targets[i], chain).Ok? ==>
      EdgeTargets(targets[..i + 1], chain) == Ok(EdgeTargets(targets[..i], chain).value + [EdgeTarget(targets[i], chain).value])
  {
    assert targets[..i + 1][..i] == targets[..i] && targets[..i + 1][i] == targets[i];
  }

  /**
   * The edge loop of `_run`: as the vertex loop, but a name the map lacks raises, and
   * entries after it are never reached.
   */
  method MapEdgeAttributes(targets: seq<(string, seq<Json>)>, chain: (string, seq<Json>) -> Mapping, usage: Usage)
    returns (r: Result<seq<(string, seq<Json>)>>, total: Usage)
    ensures r.Ok? <==> EdgeTargets(targets, chain).Ok?
    ensures r.Ok? ==> r == EdgeTargets(targets, chain) && total == MappingUsage(targets, chain, usage)
  {
    var out := [];
    total := usage;
    for i := 0 to |targets|
      invariant EdgeTargets(targets[..i], chain) == Ok(out)
      invariant total == MappingUsage(targets[..i], chain, usage)
    {
      var mapping := chain(targets[i].0, targets[i].1);
      MappingUsageSnoc(targets, chain, usage, i);
      EdgeTargetsSnoc(targets, chain, i);
      total := total.Plus(mapping.usage);
      if |mapping.attrMap| > 0 {
        var mapped := RemapEdgeAttrs(targets[i].1, mapping.attrMap);
        if mapped.Err? {
          assert EdgeTarget(targets[i], chain).Err?;
          return Err(mapped.error), total;
        }
        out := out + [(targets[i].0, mapped.value)];
      } else {
        out := out + [targets[i]];
      }
    }
    assert targets[..|targets|] == targets;
    r := Ok(out);
  }

  /** Totals add up: the first call's usage plus each mapping call's, whatever the order of addition. */
  lemma {:induction false} MappingUsageSplit(a: seq<(string, seq<Json>)>, b: seq<(string, seq<Json>)>,
                                             chain: (string, seq<Json>) -> Mapping, start: Usage)
    ensures MappingUsage(a + b, chain, start) == MappingUsage(b, chain, MappingUsage(a, chain, start))
    decreases |b|
  {
    if b == [] {
      assert a + b == a;
    } else {
      assert (a + b)[..|a + b| - 1] == a + b[..|b| - 1];
      MappingUsageSplit(a, b[..|b| - 1], chain, start);
    }
  }

  /** The input tokens counted are the first call's plus those of every mapping call. */
  lemma {:induction false} InputTokensAddUp(targets: seq<(string, seq<Json>)>, chain: (string, seq<Json>) -> Mapping, start: Usage)
    ensures MappingUsage(targets, chain, start).inputTokens ==
      start.inputTokens + SumInput(seq(|targets|, i requires 0 <= i < |targets| => chain(targets[i].0, targets[i].1).usage))
    decreases |targets|
  {
    if targets != [] {
      var all := seq(|targets|, i requires 0 <= i < |targets| => chain(targets[i].0, targets[i].1).usage);
      var init := targets[..|targets| - 1];
      InputTokensAddUp(init, chain, start);
      assert all[..|all| - 1] == seq(|init|, i requires 0 <= i < |init| => chain(init[i].0, init[i].1).usage);
    }
  }

  /** The input tokens of a list of usages. */
  function SumInput(us: seq<Usage>): int
    decreases |us|
  {
    if us == [] then 0 else SumInput(us[..|us| - 1]) + us[|us| - 1].inputTokens
  }

  /**
   * `_run`, after the first model call returned `parsed` and `first`: the cache step,
   * then the vertex and edge remappings (each skipped when it has no targets).
   * Returns the remapped targets and the accumulated usage.
   */
  method Run(tool: MapQuestionToSchema, fetched: Option<int>, db: Db,
             vertexTargets: seq<(string, seq<Json>)>, edgeTargets: seq<(string, seq<Json>)>, first: Usage,
             vchain: (string, seq<Json>) -> Mapping, echain: (string, seq<Json>) -> Mapping)
    returns (r: Result<(seq<(string, seq<Json>)>, seq<(string, seq<Json>)>)>, usage: Usage)
    modifies tool
    ensures Stale(old(tool.schemaVer), fetched) ==>
      && tool.schemaVer == (if fetched.Some? then fetched.value else -1)
      && tool.vertices == db.vertexTypes && tool.edges == db.edgeTypes
      && tool.verticesInfo == old(tool.verticesInfo) + VertexInfos(db, db.vertexTypes)
      && tool.edgesInfo == old(tool.edgesInfo) + EdgeInfos(db, db.edgeTypes)
    ensures !Stale(old(tool.schemaVer), fetched) ==>
      && tool.schemaVer == old(tool.schemaVer) && tool.vertices == old(tool.vertices) && tool.edges == old(tool.edges)
      && tool.verticesInfo == old(tool.verticesInfo) && tool.edgesInfo == old(tool.edgesInfo)
    ensures r.Ok? <==> EdgeTargets(edgeTargets, echain).Ok?
    ensures r.Ok? ==> r.value.0 == VertexTargets(vertexTargets, vchain)
    ensures r.Ok? ==> r.value.1 == EdgeTargets(edgeTargets, echain).value
    ensures r.Ok? ==> usage == MappingUsage(edgeTargets, echain, MappingUsage(vertexTargets, vchain, first))
  {
    tool.Refresh(fetched, db);
    var vs, u := MapVertexAttributes(vertexTargets, vchain, first);
    var es, total := MapEdgeAttributes(edgeTargets, echain, u);
    usage := total;
    if es.Err? {
      return Err(es.error), usage;
    }
    r := Ok((vs, es.value));
  }
}
