/**
 * The model-driven entity and relationship extractor
 * (common/extractors/LLMEntityRelationshipExtractor.py): the prompt it assembles,
 * how it unwraps the model's answer, and how the parsed answer becomes one graph
 * document of typed nodes and relationships. The model and `json.loads` are
 * parameters.
 */
module EntityExtractor {
  import opened Wrappers
  import opened Text
  import opened Json

  // ---------------------------------------------------------------- type names

  /** A relation type: spaces become "_", then upper case. */
  function RelType(t: string): (r: string)
    ensures ' ' !in r
    ensures forall x :: x in r ==> !IsLower(x)
  {
    ReplaceCharRemoves(t, ' ', "_");
    Upper(ReplaceAll(t, " ", "_"))
  }

  /** A node type: spaces become "_", then `capitalize` (first character upper, the rest lower). */
  function NodeType(t: string): (r: string)
    ensures ' ' !in r
    ensures |r| > 0 ==> !IsLower(r[0])
    ensures forall i :: 0 < i < |r| ==> !IsUpper(r[i])
  {
    ReplaceCharRemoves(t, ' ', "_");
    var u := ReplaceAll(t, " ", "_");
    assert forall i :: 0 <= i < |u| ==> u[i] != ' ';
    Capitalize(u)
  }

  /** Normalising a relation type twice gives what normalising it once does. */
  lemma RelTypeIdempotent(t: string)
    ensures RelType(RelType(t)) == RelType(t)
  {
    var r := RelType(t);
    ReplaceCharAbsent(r, ' ', "_");
    assert ReplaceAll(r, " ", "_") == r;
  }

  /** Normalising a node type twice gives what normalising it once does. */
  lemma NodeTypeIdempotent(t: string)
    ensures NodeType(NodeType(t)) == NodeType(t)
  {
    var r := NodeType(t);
    ReplaceCharAbsent(r, ' ', "_");
    assert ReplaceAll(r, " ", "_") == r;
  }

  // ---------------------------------------------------------------- unwrapping the answer

  /** The characters `strip("content=")` removes. */
  const ContentChars: set<char> := {'c', 'o', 'n', 't', 'e', '='}
  /** The characters `strip("json")` removes. */
  const JsonChars: set<char> := {'j', 's', 'o', 'n'}

  /**
   * The text handed to the JSON parser. Without a "```json" fence the characters of
   * "content=" are stripped from both ends; with one, the text between the first two
   * "```" is stripped of backticks, then of the letters of "json", then of whitespace.
   */
  function Unwrap(content: string): (r: string)
    ensures !Contains(content, "```json") ==> r == Strip(content, ContentChars)
    ensures Contains(content, "```json") ==> |r| > 0 ==> r[0] !in Whitespace && r[|r| - 1] !in Whitespace
    ensures Piece(content, r)
  {
    if !Contains(content, "```json") then
      var r := Strip(content, ContentChars);
      StripIsPiece(content, ContentChars);
      r
    else
      FenceFound(content);
      var inner := SecondField(content, "```").value;
      InnerIsPiece(content);
      var r := Strip(Strip(Strip(inner, {'`'}), JsonChars), Whitespace);
      StripIsPiece(inner, {'`'});
      StripIsPiece(Strip(inner, {'`'}), JsonChars);
      StripIsPiece(Strip(Strip(inner, {'`'}), JsonChars), Whitespace);
      PieceTrans(content, inner, Strip(inner, {'`'}));
      PieceTrans(content, Strip(inner, {'`'}), Strip(Strip(inner, {'`'}), JsonChars));
      PieceTrans(content, Strip(Strip(inner, {'`'}), JsonChars), r);
      r
  }

  /**
   * A JSON text wrapped in a "```json" fence on lines of its own unwraps to itself,
   * when it holds no "```" and neither starts nor ends with whitespace.
   */
  lemma UnwrapFenced(x: string)
    requires !Contains(x, "```")
    requires |x| > 0 ==> x[0] !in Whitespace && x[|x| - 1] !in Whitespace
    ensures Unwrap("```json\n" + x + "\n```") == x
  {
    var inner := "json\n" + x + "\n";
    var content := "```json\n" + x + "\n```";
    FencedParts(x);
    ContainsPrefix("```json", "\n" + x + "\n```");
    AfterLeadingFence(inner + "```");
    FenceFreeOpening();
    BeforeLateSep("json\n", x, '\n', "```");
    UnwrapOfFence(content, inner + "```");
    UnwrapInner(x);
  }

  /** With a "```json" fence, the unwrapped text is the stripped text between the first two "```". */
  lemma UnwrapOfFence(content: string, rest: string)
    requires Contains(content, "```json") && After(content, "```") == Some(rest)
    ensures Unwrap(content) == Strip(Strip(Strip(Before(rest, "```"), {'`'}), JsonChars), Whitespace)
  {
  }

  /** No character of the opening line's tail starts a fence. */
  lemma FenceFreeOpening()
    ensures forall j :: 0 <= j < |"json\n"| ==> "json\n"[j] !in "```"
    ensures '\n' !in "```"
  {
  }

  /** The two ways the fenced text is read: after the "```json" opening, and after the first "```". */
  lemma FencedParts(x: string)
    ensures "```json\n" + x + "\n```" == "```json" + ("\n" + x + "\n```")
    ensures "```json\n" + x + "\n```" == "```" + (("json\n" + x + "\n") + "```")
    ensures "json\n" + x + "\n" + "```" == "json\n" + x + ['\n'] + "```"
  {
  }

  /** The text after the opening backticks of a fenced answer. */
  lemma AfterLeadingFence(rest: string)
    ensures After("```" + rest, "```") == Some(rest)
  {
    var s := "```" + rest;
    assert s[0..][..3] == "```";
    FindAt(s, "```", 0);
  }

  /** Stripping backticks, the letters of "json" and whitespace from the fenced text leaves `x`. */
  lemma UnwrapInner(x: string)
    requires |x| > 0 ==> x[0] !in Whitespace && x[|x| - 1] !in Whitespace
    ensures Strip(Strip(Strip("json\n" + x + "\n", {'`'}), JsonChars), Whitespace) == x
  {
    StripNoop("json\n" + x + "\n", {'`'});
    JsonLettersStripped(x);
    LineBreaksStripped(x);
  }

  lemma JsonLettersStripped(x: string)
    ensures Strip("json\n" + x + "\n", JsonChars) == "\n" + x + "\n"
  {
    var lined := "\n" + x + "\n";
    assert "json\n" + x + "\n" == "json" + lined;
    LStripLeading("json", lined, JsonChars);
  }

  lemma LineBreaksStripped(x: string)
    requires |x| > 0 ==> x[0] !in Whitespace && x[|x| - 1] !in Whitespace
    ensures Strip("\n" + x + "\n", Whitespace) == x
  {
    if x == [] {
      assert "\n" + x + "\n" == "\n\n";
    } else {
      assert "\n" + x + "\n" == "\n" + (x + "\n");
      LStripLeading("\n", x + "\n", Whitespace);
      RStripTrailing(x, "\n", Whitespace);
    }
  }

  /** `b` occurs in `a` at index `k`. */
  predicate OccursAt(a: string, b: string, k: int) {
    0 <= k && k + |b| <= |a| && a[k..k + |b|] == b
  }

  /** `b` occurs in `a` as a contiguous piece. */
  ghost predicate Piece(a: string, b: string) {
    exists k :: OccursAt(a, b, k)
  }

  lemma PieceTrans(a: string, b: string, c: string)
    requires Piece(a, b) && Piece(b, c)
    ensures Piece(a, c)
  {
    var k :| OccursAt(a, b, k);
    var m :| OccursAt(b, c, m);
    forall i | 0 <= i < |c| ensures a[k + m + i] == c[i] {
      assert c[i] == b[m..m + |c|][i] == b[m + i];
      assert b[m + i] == a[k..k + |b|][m + i];
    }
    assert a[k + m..k + m + |c|] == c;
    assert OccursAt(a, c, k + m);
  }

  lemma StripIsPiece(s: string, cs: set<char>)
    ensures Piece(s, Strip(s, cs))
  {
    var k := |s| - |LStrip(s, cs)|;
    assert OccursAt(s, Strip(s, cs), k);
  }

  /** A text holding "```json" holds "```". */
  lemma FenceFound(content: string)
    requires Contains(content, "```json")
    ensures Contains(content, "```")
  {
    var i := Find(content, "```json").value;
    assert StartsWith(content[i..], "```");
  }

  lemma InnerIsPiece(content: string)
    requires Contains(content, "```")
    ensures Piece(content, SecondField(content, "```").value)
  {
    var rest := After(content, "```").value;
    var inner := Before(rest, "```");
    assert inner == SecondField(content, "```").value;
    var k := |content| - |rest|;
    assert rest == content[k..];
    assert inner == rest[..|inner|];
    assert content[k..k + |inner|] == rest[..|inner|];
    assert OccursAt(content, inner, k);
  }

  // ---------------------------------------------------------------- formatting the parsed answer

  /** A relation as formatted from the answer. */
  datatype FRel = FRel(source: Json, target: Json, relType: string, definition: Json)

  /** A node as formatted from the answer. */
  datatype FNode = FNode(id: Json, nodeType: string, definition: Json)

  /** A relation endpoint: a string is used as it is, a dict contributes its "id"; anything else raises. */
  function Endpoint(e: Json): (r: Option<Json>)
    ensures e.JStr? ==> r == Some(e)
    ensures e.JObj? ==> r == Index(e, "id")
    ensures !e.JStr? && !e.JObj? ==> r.None?
  {
    match e
    case JStr(_) => Some(e)
    case JObj(f) => if "id" in f then Some(f["id"]) else None
    case _ => None
  }

  /** One relation of the answer; a missing key, a non-string type or an endpoint of another shape raises. */
  function FormatRel(rel: Json): (r: Option<FRel>)
    ensures r.Some? ==> (
      && rel.JObj? && "source" in rel.fields && "target" in rel.fields && "relation_type" in rel.fields
      && Endpoint(rel.fields["source"]) == Some(r.value.source)
      && Endpoint(rel.fields["target"]) == Some(r.value.target)
      && rel.fields["relation_type"].JStr?
      && r.value.relType == RelType(rel.fields["relation_type"].s)
      && Index(rel, "definition") == Some(r.value.definition))
    ensures rel.JObj? && "source" in rel.fields && Endpoint(rel.fields["source"]).None? ==> r.None?
    ensures rel.JObj? && "target" in rel.fields && Endpoint(rel.fields["target"]).None? ==> r.None?
    ensures (&& rel.JObj? && "source" in rel.fields && "target" in rel.fields && "relation_type" in rel.fields
             && "definition" in rel.fields && rel.fields["relation_type"].JStr?
             && Endpoint(rel.fields["source"]).Some? && Endpoint(rel.fields["target"]).Some?) ==> r.Some?
  {
    if !rel.JObj? then None
    else
      var f := rel.fields;
      if "source" !in f || "target" !in f || "relation_type" !in f || "definition" !in f then None
      else if !f["relation_type"].JStr? then None
      else
        match (Endpoint(f["source"]), Endpoint(f["target"]))
        case (Some(s), Some(t)) => Some(FRel(s, t, RelType(f["relation_type"].s), f["definition"]))
        case _ => None
  }

  /** One node of the answer; a missing key or a non-string type raises. */
  function FormatNode(node: Json): (r: Option<FNode>)
    ensures r.Some? ==> (
      && Index(node, "id") == Some(r.value.id)
      && Index(node, "definition") == Some(r.value.definition)
      && "node_type" in node.fields && node.fields["node_type"].JStr?
      && r.value.nodeType == NodeType(node.fields["node_type"].s))
    ensures node.JObj? && "id" in node.fields && "definition" in node.fields && "node_type" in node.fields && node.fields["node_type"].JStr? ==> r.Some?
  {
    if !node.JObj? then None
    else
      var f := node.fields;
      if "id" !in f || "node_type" !in f || "definition" !in f || !f["node_type"].JStr? then None
      else Some(FNode(f["id"], NodeType(f["node_type"].s), f["definition"]))
  }

  predicate AllRels(rels: seq<Json>) {
    forall i :: 0 <= i < |rels| ==> FormatRel(rels[i]).Some?
  }

  predicate AllNodes(nodes: seq<Json>) {
    forall i :: 0 <= i < |nodes| ==> FormatNode(nodes[i]).Some?
  }

  /** Every relation formatted, in order. */
  function FormattedRels(rels: seq<Json>): (r: seq<FRel>)
    requires AllRels(rels)
    ensures |r| == |rels| && forall i :: 0 <= i < |rels| ==> Some(r[i]) == FormatRel(rels[i])
  {
    seq(|rels|, i requires 0 <= i < |rels| => FormatRel(rels[i]).value)
  }

  /** Every node formatted, in order. */
  function FormattedNodes(nodes: seq<Json>): (r: seq<FNode>)
    requires AllNodes(nodes)
    ensures |r| == |nodes| && forall i :: 0 <= i < |nodes| ==> Some(r[i]) == FormatNode(nodes[i])
  {
    seq(|nodes|, i requires 0 <= i < |nodes| => FormatNode(nodes[i]).value)
  }

  /** The loop over `json_out["rels"]`: one formatted relation per input, in order, or a failure. */
  method FormatRels(rels: seq<Json>) returns (r: Option<seq<FRel>>)
    ensures r.Some? <==> AllRels(rels)
    ensures r.Some? ==> r.value == FormattedRels(rels)
  {
    var formatted: seq<FRel> := [];
    var i := 0;
    while i < |rels|
      invariant 0 <= i <= |rels|
      invariant |formatted| == i
      invariant forall j :: 0 <= j < i ==> Some(formatted[j]) == FormatRel(rels[j])
    {
      var f := FormatRel(rels[i]);
      if f.None? {
        return None;
      }
      formatted := formatted + [f.value];
      i := i + 1;
    }
    r := Some(formatted);
  }

  /** The loop over `json_out["nodes"]`: one formatted node per input, in order, or a failure. */
  method FormatNodes(nodes: seq<Json>) returns (r: Option<seq<FNode>>)
    ensures r.Some? <==> AllNodes(nodes)
    ensures r.Some? ==> r.value == FormattedNodes(nodes)
  {
    var formatted: seq<FNode> := [];
    var i := 0;
    while i < |nodes|
      invariant 0 <= i <= |nodes|
      invariant |formatted| == i
      invariant forall j :: 0 <= j < i ==> Some(formatted[j]) == FormatNode(nodes[j])
    {
      var f := FormatNode(nodes[i]);
      if f.None? {
        return None;
      }
      formatted := formatted + [f.value];
      i := i + 1;
    }
    r := Some(formatted);
  }

  // ---------------------------------------------------------------- strict mode

  /** Whether a filter applies: strict mode with a non-empty allowed list. */
  predicate Filters(strict: bool, allowed: Option<seq<string>>) {
    strict && allowed.Some? && |allowed.value| > 0
  }

  /** The nodes whose type is allowed, in their order. */
  function KeepNodes(ns: seq<FNode>, allowed: seq<string>): (r: seq<FNode>)
    ensures |r| <= |ns|
    ensures forall n :: n in r <==> n in ns && n.nodeType in allowed
    decreases |ns|
  {
    if ns == [] then []
    else if ns[0].nodeType in allowed then [ns[0]] + KeepNodes(ns[1..], allowed)
    else KeepNodes(ns[1..], allowed)
  }

  /** The relations whose type is allowed, in their order. */
  function KeepRels(rs: seq<FRel>, allowed: seq<string>): (r: seq<FRel>)
    ensures |r| <= |rs|
    ensures forall x :: x in r <==> x in rs && x.relType in allowed
    decreases |rs|
  {
    if rs == [] then []
    else if rs[0].relType in allowed then [rs[0]] + KeepRels(rs[1..], allowed)
    else KeepRels(rs[1..], allowed)
  }

  /** When every type is allowed, the filter keeps everything in place. */
  lemma {:induction false} KeepNodesAll(ns: seq<FNode>, allowed: seq<string>)
    requires forall i :: 0 <= i < |ns| ==> ns[i].nodeType in allowed
    ensures KeepNodes(ns, allowed) == ns
    decreases |ns|
  {
    if ns != [] {
      KeepNodesAll(ns[1..], allowed);
    }
  }

  // ---------------------------------------------------------------- the graph document

  /** A graph node with its "description" property. */
  datatype Node = Node(id: Json, nodeType: Json, description: Json)

  datatype Relationship = Relationship(source: Node, target: Node, relType: string)

  datatype GraphDocument = GraphDocument(nodes: seq<Node>, relationships: seq<Relationship>, source: string)

  /** The document of a failed extraction: nothing found, the input kept as the source. */
  function EmptyDoc(doc: string): GraphDocument {
    GraphDocument([], [], doc)
  }

  /** A formatted node as a graph node. */
  function NodeOf(n: FNode): Node {
    Node(n.id, JStr(n.nodeType), n.definition)
  }

  /** A formatted relation as a relationship; each endpoint node has its id as its type. */
  function RelationshipOf(r: FRel): Relationship {
    Relationship(Node(r.source, r.source, r.definition), Node(r.target, r.target, r.definition), r.relType)
  }

  /** The loop building the graph nodes: one per formatted node, in order. */
  method BuildNodes(formatted: seq<FNode>) returns (nodes: seq<Node>)
    ensures |nodes| == |formatted|
    ensures forall i :: 0 <= i < |formatted| ==> nodes[i] == NodeOf(formatted[i])
  {
    nodes := [];
    var i := 0;
    while i < |formatted|
      invariant 0 <= i <= |formatted|
      invariant |nodes| == i
      invariant forall j :: 0 <= j < i ==> nodes[j] == NodeOf(formatted[j])
    {
      nodes := nodes + [NodeOf(formatted[i])];
      i := i + 1;
    }
  }

  /** The loop building the relationships: one per formatted relation, in order. */
  method BuildRelationships(formatted: seq<FRel>) returns (rels: seq<Relationship>)
    ensures |rels| == |formatted|
    ensures forall i :: 0 <= i < |formatted| ==> rels[i] == RelationshipOf(formatted[i])
  {
    rels := [];
    var i := 0;
    while i < |formatted|
      invariant 0 <= i <= |formatted|
      invariant |rels| == i
      invariant forall j :: 0 <= j < i ==> rels[j] == RelationshipOf(formatted[j])
    {
      rels := rels + [RelationshipOf(formatted[i])];
      i := i + 1;
    }
  }

  /** The "rels" and "nodes" a parsed answer's loops visit, when it is a dict holding both. */
  function Lists(answer: Json): (r: Option<(seq<Json>, seq<Json>)>)
    ensures r.Some? <==> (answer.JObj? && "rels" in answer.fields && "nodes" in answer.fields
                          && Iterated(answer.fields["rels"]).Some? && Iterated(answer.fields["nodes"]).Some?)
    ensures r.Some? ==> r.value == (Iterated(answer.fields["rels"]).value, Iterated(answer.fields["nodes"]).value)
  {
    if answer.JObj? && "rels" in answer.fields && "nodes" in answer.fields then
      match (Iterated(answer.fields["rels"]), Iterated(answer.fields["nodes"]))
      case (Some(rels), Some(nodes)) => Some((rels, nodes))
      case _ => None
    else None
  }

  /** A string where the relations belong yields nothing when empty and a failure otherwise. */
  lemma StringRelsFail(s: string)
    ensures AllRels(Iterated(JStr(s)).value) <==> s == ""
  {
    if s != "" {
      assert FormatRel(Iterated(JStr(s)).value[0]).None?;
    }
  }

  /** The extractor's settings. */
  datatype Settings = Settings(allowedVertexTypes: Option<seq<string>>, allowedEdgeTypes: Option<seq<string>>, strictMode: bool)

  /** The graph nodes of the formatted nodes a setting keeps. */
  function NodesOut(formatted: seq<FNode>, settings: Settings): (r: seq<Node>)
    ensures Filters(settings.strictMode, settings.allowedVertexTypes) ==>
      forall n :: n in r ==> exists f :: f in formatted && f.nodeType in settings.allowedVertexTypes.value && n == NodeOf(f)
    ensures Filters(settings.strictMode, settings.allowedVertexTypes) ==>
      var kept := KeepNodes(formatted, settings.allowedVertexTypes.value);
      |r| == |kept| && forall i :: 0 <= i < |r| ==> r[i] == NodeOf(kept[i])
    ensures !Filters(settings.strictMode, settings.allowedVertexTypes) ==>
      |r| == |formatted| && forall i :: 0 <= i < |r| ==> r[i] == NodeOf(formatted[i])
  {
    var kept := if Filters(settings.strictMode, settings.allowedVertexTypes) then KeepNodes(formatted, settings.allowedVertexTypes.value) else formatted;
    var r := seq(|kept|, i requires 0 <= i < |kept| => NodeOf(kept[i]));
    assert forall n :: n in r ==> exists i :: 0 <= i < |kept| && n == NodeOf(kept[i]);
    r
  }

  /** The relationships of the formatted relations a setting keeps. */
  function RelationshipsOut(formatted: seq<FRel>, settings: Settings): (r: seq<Relationship>)
    ensures Filters(settings.strictMode, settings.allowedEdgeTypes) ==>
      forall x :: x in r ==> x.relType in settings.allowedEdgeTypes.value
    ensures Filters(settings.strictMode, settings.allowedEdgeTypes) ==>
      var kept := KeepRels(formatted, settings.allowedEdgeTypes.value);
      |r| == |kept| && forall i :: 0 <= i < |r| ==> r[i] == RelationshipOf(kept[i])
    ensures !Filters(settings.strictMode, settings.allowedEdgeTypes) ==>
      |r| == |formatted| && forall i :: 0 <= i < |r| ==> r[i] == RelationshipOf(formatted[i])
  {
    var kept := if Filters(settings.strictMode, settings.allowedEdgeTypes) then KeepRels(formatted, settings.allowedEdgeTypes.value) else formatted;
    var r := seq(|kept|, i requires 0 <= i < |kept| => RelationshipOf(kept[i]));
    assert forall x :: x in r ==> exists i :: 0 <= i < |kept| && x == RelationshipOf(kept[i]);
    r
  }

  /**
   * What the extraction yields for the model's outcome `out`: the document built from
   * the answer, or the empty document after any failure.
   */
  function Extraction(doc: string, out: Result<string>, parse: string -> Result<Json>, settings: Settings): (r: GraphDocument)
    ensures r.source == doc
    ensures out.Err? ==> r == EmptyDoc(doc)
    ensures out.Ok? && parse(Unwrap(out.value)).Err? ==> r == EmptyDoc(doc)
    ensures out.Ok? && parse(Unwrap(out.value)).Ok? ==>
      var lists := Lists(parse(Unwrap(out.value)).value);
      lists.None? || !AllRels(lists.value.0) || !AllNodes(lists.value.1) ==> r == EmptyDoc(doc)
  {
    if out.Err? then EmptyDoc(doc)
    else match parse(Unwrap(out.value))
      case Err(_) => EmptyDoc(doc)
      case Ok(answer) =>
        match Lists(answer)
        case None => EmptyDoc(doc)
        case Some((rels, nodes)) =>
          if !AllRels(rels) || !AllNodes(nodes) then EmptyDoc(doc)
          else
            GraphDocument(NodesOut(FormattedNodes(nodes), settings), RelationshipsOut(FormattedRels(rels), settings), doc)
  }

  /** A relation whose endpoint is neither a string nor a dict empties the whole document. */
  lemma NoPartialResult(doc: string, out: Result<string>, parse: string -> Result<Json>, settings: Settings, i: int)
    requires out.Ok? && parse(Unwrap(out.value)).Ok?
    requires Lists(parse(Unwrap(out.value)).value).Some?
    requires var rels := Lists(parse(Unwrap(out.value)).value).value.0;
      0 <= i < |rels| && rels[i].JObj? && "source" in rels[i].fields && !rels[i].fields["source"].JStr? && !rels[i].fields["source"].JObj?
    ensures Extraction(doc, out, parse, settings) == EmptyDoc(doc)
  {
    var rels := Lists(parse(Unwrap(out.value)).value).value.0;
    assert FormatRel(rels[i]).None?;
  }

  /**
   * `_extract_kg_from_doc` (and its asynchronous twin, which does the same). `chain` is
   * the model call on the document, yielding the answer's text; `parse` is `json.loads`.
   */
  method ExtractKg(doc: string, chain: string -> Result<string>, parse: string -> Result<Json>, settings: Settings)
    returns (r: GraphDocument)
    ensures r == Extraction(doc, chain(doc), parse, settings)
  {
    var out := chain(doc);
    if out.Err? {
      return EmptyDoc(doc);
    }
    var answer := parse(Unwrap(out.value));
    if answer.Err? {
      return EmptyDoc(doc);
    }
    var lists := Lists(answer.value);
    if lists.None? {
      return EmptyDoc(doc);
    }
    var formattedRels := FormatRels(lists.value.0);
    if formattedRels.None? {
      return EmptyDoc(doc);
    }
    var formattedNodes := FormatNodes(lists.value.1);
    if formattedNodes.None? {
      return EmptyDoc(doc);
    }
    var fn := formattedNodes.value;
    var fr := formattedRels.value;
    ghost var allNodes, allRels := fn, fr;
    if Filters(settings.strictMode, settings.allowedVertexTypes) {
      fn := KeepNodes(fn, settings.allowedVertexTypes.value);
    }
    if Filters(settings.strictMode, settings.allowedEdgeTypes) {
      fr := KeepRels(fr, settings.allowedEdgeTypes.value);
    }
    var nodes := BuildNodes(fn);
    var rels := BuildRelationships(fr);
    assert nodes == NodesOut(allNodes, settings);
    assert rels == RelationshipsOut(allRels, settings);
    r := GraphDocument(nodes, rels, doc);
    assert r == Extraction(doc, out, parse, settings);
  }

  // ---------------------------------------------------------------- prompt

  /** One chat message: its role and its template text. */
  datatype Message = Message(role: string, text: string)

  const InputTip := "Tip: Make sure to answer in the correct format and do not include any explanations. Use the given format to extract information from the following input: {input}"
  const FormatTip := "Mandatory: Make sure to answer in the correct format, specified here: {format_instructions}"
  const TypesTip := "Tip: Make sure to use the following types if they are applicable. If the input does not contain any of the types, you may create your own."

  /** Python's truthiness of an optional list. */
  predicate NonEmpty(l: Option<seq<string>>) {
    l.Some? && |l.value| > 0
  }

  /**
   * The messages of `document_er_extraction`: the system prompt and two fixed human
   * messages; then, when either allowed list is non-empty, a tip followed by one
   * message per non-empty list.
   */
  function PromptMessages(systemPrompt: string, settings: Settings): (r: seq<Message>)
    ensures |r| == 3 + (if NonEmpty(settings.allowedVertexTypes) || NonEmpty(settings.allowedEdgeTypes) then 1 else 0)
                     + (if NonEmpty(settings.allowedVertexTypes) then 1 else 0)
                     + (if NonEmpty(settings.allowedEdgeTypes) then 1 else 0)
    ensures r[0] == Message("system", systemPrompt)
    ensures r[1] == Message("human", InputTip) && r[2] == Message("human", FormatTip)
    ensures forall i :: 1 <= i < |r| ==> r[i].role == "human"
    ensures |r| > 3 ==> r[3].text == TypesTip
    ensures NonEmpty(settings.allowedEdgeTypes) ==> r[|r| - 1].text == "Allowed Edge Types: " + ListRepr(settings.allowedEdgeTypes.value)
    ensures NonEmpty(settings.allowedVertexTypes) ==> r[4].text == "Allowed Node Types: " + ListRepr(settings.allowedVertexTypes.value)
  {
    var base := [Message("system", systemPrompt), Message("human", InputTip), Message("human", FormatTip)];
    var tip := if NonEmpty(settings.allowedVertexTypes) || NonEmpty(settings.allowedEdgeTypes) then [Message("human", TypesTip)] else [];
    var vertex := if NonEmpty(settings.allowedVertexTypes) then [Message("human", "Allowed Node Types: " + ListRepr(settings.allowedVertexTypes.value))] else [];
    var edge := if NonEmpty(settings.allowedEdgeTypes) then [Message("human", "Allowed Edge Types: " + ListRepr(settings.allowedEdgeTypes.value))] else [];
    base + tip + vertex + edge
  }
}
