/**
 * The schema text that the GSQL and Cypher generation tools hand to the model
 * (graphrag/app/tools/generate_gsql.py and graphrag/app/tools/generate_cypher.py):
 * one block per vertex type and per edge type, cached by schema version, and the
 * wrapping of the model's answer into an interpreted query. The database's
 * description of the schema and the model's answer are parameters.
 */
module SchemaRep {
  import opened Wrappers
  import opened Text

  /** An attribute as `getVertexType`/`getEdgeType` report it. */
  datatype Attr = Attr(name: string, typeName: string)

  datatype VertexType = VertexType(name: string, primaryId: string, attributes: seq<Attr>)

  /** One "EdgePairs" entry of an edge type declared with a wildcard endpoint. */
  datatype EdgePair = EdgePair(at: string, to: string)

  datatype EdgeType = EdgeType(name: string, fromVertex: string, toVertex: string, directed: bool,
                               attributes: seq<Attr>, edgePairs: seq<EdgePair>)
  {
    /** An endpoint written "*" stands for several vertex types, listed in the edge pairs. */
    predicate Wildcard() {
      fromVertex == "*" || toVertex == "*"
    }
  }

  /** What the database reports: the vertex types and edge types, in its order. */
  datatype Schema = Schema(vertices: seq<VertexType>, edges: seq<EdgeType>)

  function AttrLine(a: Attr): string {
    a.name + " of type " + a.typeName
  }

  /** The attribute lines joined by a line break and two tabs, or "No attributes" when that is empty. */
  function AttrText(attrs: seq<Attr>): (r: string)
    ensures attrs == [] ==> r == "No attributes"
    ensures attrs != [] ==> r == Join(seq(|attrs|, i requires 0 <= i < |attrs| => AttrLine(attrs[i])), "\n\t\t")
  {
    var joined := Join(seq(|attrs|, i requires 0 <= i < |attrs| => AttrLine(attrs[i])), "\n\t\t");
    JoinNonEmpty(seq(|attrs|, i requires 0 <= i < |attrs| => AttrLine(attrs[i])), "\n\t\t");
    if joined == "" then "No attributes" else joined
  }

  /** A join of at least one non-empty piece is not empty, so the fallback only fires for no attributes. */
  lemma {:induction false} JoinNonEmpty(parts: seq<string>, sep: string)
    requires forall k :: 0 <= k < |parts| ==> |parts[k]| > 0
    ensures Join(parts, sep) == "" <==> parts == []
  {
    if |parts| > 1 {
      assert |parts[0]| > 0;
      assert Join(parts, sep) == parts[0] + sep + Join(parts[1..], sep);
    } else if |parts| == 1 {
      assert |parts[0]| > 0;
    }
  }

  function Direction(directed: bool): string {
    if directed then "Directed" else "Undirected"
  }

  function VertexBlock(v: VertexType): string {
    v.name + "\n\tPrimary Id Attribute: " + v.primaryId + "\n\tAttributes: \n\t\t" + AttrText(v.attributes)
  }

  function EdgeBlock(name: string, at: string, to: string, direction: string, attrs: string): string {
    name + "\n\t" + "From Vertex: " + at + "\n\tTo Vertex: " + to + "\n\tEdge direction: " + direction
      + "\n\tAttributes: \n\t\t" + attrs
  }

  /** The blocks of one edge type: one per edge pair when an endpoint is "*", otherwise exactly one. */
  function EdgeBlocks(e: EdgeType): (r: seq<string>)
    ensures |r| == if e.Wildcard() then |e.edgePairs| else 1
    ensures e.Wildcard() ==> forall k :: 0 <= k < |r| ==>
      r[k] == EdgeBlock(e.name, e.edgePairs[k].at, e.edgePairs[k].to, Direction(e.directed), AttrText(e.attributes))
    ensures !e.Wildcard() ==>
      r == [EdgeBlock(e.name, e.fromVertex, e.toVertex, Direction(e.directed), AttrText(e.attributes))]
  {
    var direction := Direction(e.directed);
    var attrs := AttrText(e.attributes);
    if e.Wildcard() then
      seq(|e.edgePairs|, k requires 0 <= k < |e.edgePairs| =>
        EdgeBlock(e.name, e.edgePairs[k].at, e.edgePairs[k].to, direction, attrs))
    else
      [EdgeBlock(e.name, e.fromVertex, e.toVertex, direction, attrs)]
  }

  function VertexBlocks(vs: seq<VertexType>): (r: seq<string>)
    ensures |r| == |vs| && forall i :: 0 <= i < |vs| ==> r[i] == VertexBlock(vs[i])
  {
    seq(|vs|, i requires 0 <= i < |vs| => VertexBlock(vs[i]))
  }

  /** The edge blocks of every edge type, in order. */
  function AllEdgeBlocks(es: seq<EdgeType>): seq<string>
    decreases |es|
  {
    if es == [] then [] else AllEdgeBlocks(es[..|es| - 1]) + EdgeBlocks(es[|es| - 1])
  }

  /** The number of blocks an edge type contributes. */
  function BlockCount(e: EdgeType): nat {
    if e.Wildcard() then |e.edgePairs| else 1
  }

  function TotalBlocks(es: seq<EdgeType>): nat
    decreases |es|
  {
    if es == [] then 0 else TotalBlocks(es[..|es| - 1]) + BlockCount(es[|es| - 1])
  }

  /** The edge section holds one block per edge pair of a wildcard edge type and one per other edge type. */
  lemma {:induction false} AllEdgeBlocksCount(es: seq<EdgeType>)
    ensures |AllEdgeBlocks(es)| == TotalBlocks(es)
    decreases |es|
  {
    if es != [] {
      AllEdgeBlocksCount(es[..|es| - 1]);
    }
  }

  /** The first line of every block is the type's name, so a reader can tell the blocks apart. */
  lemma VertexBlockNamesType(v: VertexType)
    requires '\n' !in v.name
    ensures Before(VertexBlock(v), "\n") == v.name
  {
    var tail := "\tPrimary Id Attribute: " + v.primaryId + "\n\tAttributes: \n\t\t" + AttrText(v.attributes);
    assert VertexBlock(v) == v.name + "\n" + tail;
    BeforeLineBreak(v.name, tail);
  }

  lemma EdgeBlockNamesType(name: string, at: string, to: string, direction: string, attrs: string)
    requires '\n' !in name
    ensures Before(EdgeBlock(name, at, to, direction, attrs), "\n") == name
  {
    var tail := "\t" + "From Vertex: " + at + "\n\tTo Vertex: " + to + "\n\tEdge direction: " + direction
      + "\n\tAttributes: \n\t\t" + attrs;
    assert EdgeBlock(name, at, to, direction, attrs) == name + "\n" + tail;
    BeforeLineBreak(name, tail);
  }

  /** Every block of an edge type starts with a line holding just the edge type's name. */
  lemma EdgeBlocksNamed(e: EdgeType)
    requires '\n' !in e.name
    ensures forall k :: 0 <= k < |EdgeBlocks(e)| ==> Before(EdgeBlocks(e)[k], "\n") == e.name
  {
    var blocks := EdgeBlocks(e);
    forall k | 0 <= k < |blocks| ensures Before(blocks[k], "\n") == e.name {
      if e.Wildcard() {
        EdgeBlockNamesType(e.name, e.edgePairs[k].at, e.edgePairs[k].to, Direction(e.directed), AttrText(e.attributes));
      } else {
        EdgeBlockNamesType(e.name, e.fromVertex, e.toVertex, Direction(e.directed), AttrText(e.attributes));
      }
    }
  }

  /** The vertex section has one block per vertex type, in order, each headed by the type's name. */
  lemma VertexBlocksNamed(vs: seq<VertexType>)
    requires forall i :: 0 <= i < |vs| ==> '\n' !in vs[i].name
    ensures |VertexBlocks(vs)| == |vs|
    ensures forall i :: 0 <= i < |vs| ==> Before(VertexBlocks(vs)[i], "\n") == vs[i].name
  {
    forall i | 0 <= i < |vs| ensures Before(VertexBlocks(vs)[i], "\n") == vs[i].name {
      VertexBlockNamesType(vs[i]);
    }
  }

  const Header := "The schema of the graph is as follows:\nVertex Types:\n"

  /** The schema text: the header, the vertex blocks one per line, a blank line, then the edge blocks. */
  function SchemaText(vertexBlocks: seq<string>, edgeBlocks: seq<string>): (r: string)
    ensures StartsWith(r, Header) && EndsWith(r, "\n")
    ensures |r| > 0
  {
    var r := Header + Join(vertexBlocks, "\n") + "\n\nEdge Types:\n" + Join(edgeBlocks, "\n") + "\n";
    assert r[..|Header|] == Header;
    r
  }

  function Render(schema: Schema): string {
    SchemaText(VertexBlocks(schema.vertices), AllEdgeBlocks(schema.edges))
  }

  /** Both tools build the block lists the same way: a loop over the vertex types, then one over the edge types. */
  method BuildBlocks(schema: Schema) returns (vertexSchema: seq<string>, edgeSchema: seq<string>)
    ensures vertexSchema == VertexBlocks(schema.vertices)
    ensures edgeSchema == AllEdgeBlocks(schema.edges)
    ensures |edgeSchema| == TotalBlocks(schema.edges)
  {
    var verts := schema.vertices;
    vertexSchema := [];
    for i := 0 to |verts|
      invariant vertexSchema == VertexBlocks(verts[..i])
    {
      vertexSchema := vertexSchema + [VertexBlock(verts[i])];
    }
    assert verts[..|verts|] == verts;
    var edges := schema.edges;
    edgeSchema := [];
    for i := 0 to |edges|
      invariant edgeSchema == AllEdgeBlocks(edges[..i])
    {
      edgeSchema := AppendEdgeBlocks(edgeSchema, edges[i]);
      assert edges[..i + 1][..i] == edges[..i];
    }
    assert edges[..|edges|] == edges;
    AllEdgeBlocksCount(edges);
  }

  /** One pass of the edge loop: the blocks of one edge type appended, pair by pair for a wildcard. */
  method AppendEdgeBlocks(acc: seq<string>, e: EdgeType) returns (r: seq<string>)
    ensures r == acc + EdgeBlocks(e)
  {
    var direction := Direction(e.directed);
    var attrs := AttrText(e.attributes);
    r := acc;
    if e.Wildcard() {
      var pairs := e.edgePairs;
      ghost var blocks := EdgeBlocks(e);
      for k := 0 to |pairs|
        invariant r == acc + blocks[..k]
      {
        r := r + [EdgeBlock(e.name, pairs[k].at, pairs[k].to, direction, attrs)];
        assert blocks[..k + 1] == blocks[..k] + [blocks[k]];
      }
      assert blocks[..|pairs|] == blocks;
    } else {
      r := r + [EdgeBlock(e.name, e.fromVertex, e.toVertex, direction, attrs)];
    }
  }

  /** The GSQL tool keeps its text when it is non-empty and the stored version equals the fetched one, unknown versions included. */
  predicate GsqlReuses(schemaRep: string, stored: Option<int>, fetched: Option<int>) {
    schemaRep != "" && stored == fetched
  }

  /** The Cypher tool keeps its text only for a known fetched version equal to the stored one. */
  predicate CypherReuses(stored: int, fetched: Option<int>) {
    fetched.Some? && stored == fetched.value
  }

  /** The header of an interpreted GSQL query for the graph. */
  function GsqlHeader(graphname: string): string {
    "USE GRAPH " + graphname + " " + "\n" + "INTERPRET QUERY () FOR GRAPH " + graphname + " {" + "\n"
  }

  function CypherHeader(graphname: string): string {
    "USE GRAPH " + graphname + " " + "\n" + "INTERPRET OPENCYPHER QUERY () {" + "\n"
  }

  /** The body between a header and the closing line, which the query text gives back. */
  function Wrap(header: string, body: string): (q: string)
    ensures StartsWith(q, header) && EndsWith(q, "\n}")
    ensures |q| == |header| + |body| + 2 && q[|header|..|q| - 2] == body
  {
    var q := header + body + "\n}";
    assert q[..|header|] == header;
    assert q[|header|..|q| - 2] == body;
    q
  }

  const GsqlFence := {'`', 'g', 's', 'q', 'l'}
  const CypherFence := {'`', 'c', 'y', 'p', 'h', 'e', 'r'}

  /**
   * The tools' cleanup of the model's answer as written: `strip` with the characters of
   * a code fence, which removes any of those characters, not the fence as a word.
   */
  function StrippedBody(out: string, fence: set<char>): (r: string)
    requires '`' in fence
    ensures |r| > 0 ==> r[0] !in fence && r[|r| - 1] !in fence
  {
    StripSubsetNoop(out, fence, {'`'});
    Strip(Strip(out, fence), {'`'})
  }

  /** The second `strip("```")` never removes anything: its characters were all stripped already. */
  lemma SecondStripNoop(out: string, fence: set<char>)
    requires '`' in fence
    ensures StrippedBody(out, fence) == Strip(out, fence)
  {
    StripSubsetNoop(out, fence, {'`'});
  }

  /** An unfenced Cypher answer ending in a variable loses that variable. */
  lemma CypherStripEatsVariable(out: string)
    requires out == "RETURN p"
    ensures StrippedBody(out, CypherFence) == "RETURN "
  {
    assert out[..|out| - 1] == "RETURN ";
    assert LStrip(out, CypherFence) == out;
    assert RStrip(out, CypherFence) == "RETURN ";
  }

  /** An unfenced GSQL answer ending in a variable loses its trailing letters from the set. */
  lemma GsqlStripEatsVariable(out: string)
    requires out == "PRINT vs"
    ensures StrippedBody(out, GsqlFence) == "PRINT v"
  {
    assert out[..|out| - 1] == "PRINT v";
    assert LStrip(out, GsqlFence) == out;
    assert RStrip(out, GsqlFence) == "PRINT v";
  }

  /** The evident intent: drop a leading "```" + language and a trailing "```", and nothing else. */
  function FencedBody(out: string, lang: string): (r: string)
    ensures |r| <= |out|
  {
    var open := "```" + lang;
    var a := if StartsWith(out, open) then out[|open|..] else out;
    if EndsWith(a, "```") then a[..|a| - 3] else a
  }

  /** A fenced answer gives back exactly what is inside the fence. */
  lemma FencedBodyUnwraps(body: string, lang: string)
    ensures FencedBody("```" + lang + body + "```", lang) == body
  {
    var out := "```" + lang + body + "```";
    assert out[..|"```" + lang|] == "```" + lang;
    var a := out[|"```" + lang|..];
    assert a == body + "```";
    assert a[|a| - 3..] == "```";
    assert a[..|a| - 3] == body;
  }

  /** An answer without a fence is kept whole, unlike `StrippedBody`. */
  lemma FencedBodyKeepsPlain(out: string, lang: string)
    requires !StartsWith(out, "```") && !EndsWith(out, "```")
    ensures FencedBody(out, lang) == out
  {
  }

  /** The GSQL generation tool with its schema cache (`schema_rep`, `schema_ver`). */
  class GenerateGsql {
    var schemaRep: string
    var schemaVer: Option<int>

    constructor()
      ensures schemaRep == "" && schemaVer == Some(0)
    {
      schemaRep := "";
      schemaVer := Some(0);
    }

    /** Returns the cached text or rebuilds it from the schema the database reports. */
    method GenerateSchemaRep(fetched: Option<int>, schema: Schema) returns (rep: string)
      modifies this
      ensures GsqlReuses(old(schemaRep), old(schemaVer), fetched) ==>
        rep == old(schemaRep) && schemaRep == old(schemaRep) && schemaVer == old(schemaVer)
      ensures !GsqlReuses(old(schemaRep), old(schemaVer), fetched) ==>
        rep == Render(schema) && schemaRep == rep && schemaVer == fetched
      ensures GsqlReuses(schemaRep, schemaVer, fetched)
    {
      if schemaRep != "" && schemaVer == fetched {
        return schemaRep;
      }
      var vertexSchema, edgeSchema := BuildBlocks(schema);
      schemaRep := SchemaText(vertexSchema, edgeSchema);
      schemaVer := fetched;
      rep := schemaRep;
    }

    /** The query for a question: the model sees the schema text and its answer, stripped of the fence characters, is wrapped for the graph. */
    method GenerateQuery(graphname: string, fetched: Option<int>, schema: Schema, complete: string -> string)
      returns (query: string)
      modifies this
      ensures !GsqlReuses(old(schemaRep), old(schemaVer), fetched) ==> schemaRep == Render(schema) && schemaVer == fetched
      ensures GsqlReuses(old(schemaRep), old(schemaVer), fetched) ==> schemaRep == old(schemaRep) && schemaVer == old(schemaVer)
      ensures query == Wrap(GsqlHeader(graphname), StrippedBody(complete(schemaRep), GsqlFence))
    {
      var rep := GenerateSchemaRep(fetched, schema);
      var out := complete(rep);
      query := Wrap(GsqlHeader(graphname), StrippedBody(out, GsqlFence));
    }
  }

  /** The Cypher generation tool; its version starts at -1 and an unknown version is stored as -1. */
  class GenerateCypher {
    var schemaRep: string
    var schemaVer: int

    constructor()
      ensures schemaRep == "" && schemaVer == -1
    {
      schemaRep := "";
      schemaVer := -1;
    }

    method GenerateSchemaRep(fetched: Option<int>, schema: Schema) returns (rep: string)
      modifies this
      ensures CypherReuses(old(schemaVer), fetched) ==>
        rep == old(schemaRep) && schemaRep == old(schemaRep) && schemaVer == old(schemaVer)
      ensures !CypherReuses(old(schemaVer), fetched) ==>
        rep == Render(schema) && schemaRep == rep && schemaVer == fetched.GetOr(-1)
    {
      if fetched.Some? && schemaVer == fetched.value {
        return schemaRep;
      }
      var vertexSchema, edgeSchema := BuildBlocks(schema);
      schemaRep := SchemaText(vertexSchema, edgeSchema);
      schemaVer := if fetched.Some? then fetched.value else -1;
      rep := schemaRep;
    }

    method GenerateQuery(graphname: string, fetched: Option<int>, schema: Schema, complete: string -> string)
      returns (query: string)
      modifies this
      ensures !CypherReuses(old(schemaVer), fetched) ==> schemaRep == Render(schema) && schemaVer == fetched.GetOr(-1)
      ensures CypherReuses(old(schemaVer), fetched) ==> schemaRep == old(schemaRep) && schemaVer == old(schemaVer)
      ensures query == Wrap(CypherHeader(graphname), StrippedBody(complete(schemaRep), CypherFence))
    {
      var rep := GenerateSchemaRep(fetched, schema);
      var out := complete(rep);
      query := Wrap(CypherHeader(graphname), StrippedBody(out, CypherFence));
    }
  }

  /**
   * Two schema look-ups by a new GSQL tool that fetch the same version, an unknown one
   * included: the first renders the schema, the second returns that text without
   * rendering again, even if the database now reports another schema.
   */
  method GsqlSecondCallReuses(fetched: Option<int>, schema: Schema, later: Schema) returns (first: string, second: string)
    ensures first == Render(schema) && second == first
  {
    var tool := new GenerateGsql();
    first := tool.GenerateSchemaRep(fetched, schema);
    second := tool.GenerateSchemaRep(fetched, later);
  }

  /**
   * The same two look-ups by a new Cypher tool: a known version is reused, an unknown
   * one renders again on the second call. A fetched version of -1 matches the tool's
   * initial version, so its first call returns the empty initial text.
   */
  method CypherSecondCall(fetched: Option<int>, schema: Schema, later: Schema) returns (first: string, second: string)
    ensures fetched != Some(-1) ==> first == Render(schema)
    ensures fetched == Some(-1) ==> first == ""
    ensures fetched.Some? ==> second == first
    ensures fetched.None? ==> second == Render(later)
  {
    var tool := new GenerateCypher();
    first := tool.GenerateSchemaRep(fetched, schema);
    second := tool.GenerateSchemaRep(fetched, later);
  }
}
