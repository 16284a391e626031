/**
 * The question-answering agent (graphrag/app/agent/agent_graph.py): the state it
 * carries between steps, the routing predicates, the Cypher retry loop, the
 * clean-up of citations and the table of transitions between steps. The model
 * calls, the retrievers and the database are parameters.
 */
module AgentGraph {
  import opened Wrappers
  import opened Text
  import opened Json

  // ---------------------------------------------------------------- state

  /** The "context" slot of the state: unset, an exception object, or a record. */
  datatype Context = NoContext | Raised(message: string) | Record(fields: map<string, Json>)

  /** One entry of "error_history". */
  datatype ErrorEntry = ErrorEntry(errorMessage: string, errorStep: string)

  /**
   * The "error_history" slot of the state: the key is absent (the class-level default of
   * the state type creates no key), it holds None, or it holds the entries.
   */
  datatype ErrorHistory = Missing | NullHistory | History(entries: seq<ErrorEntry>)

  // ---------------------------------------------------------------- routing predicates

  /**
   * `route_question`: "apologize" once the question has been retried more than twice;
   * otherwise the router's data source decides when SupportAI is enabled. A data
   * source other than "vectorstore" or "functions" yields no label (`None`).
   */
  function RouteQuestion(retryCount: int, supportaiEnabled: bool, datasource: string): (r: Option<string>)
    ensures r == Some("apologize") <==> retryCount > 2
    ensures retryCount <= 2 && !supportaiEnabled ==> r == Some("inquiryai_lookup")
    ensures retryCount <= 2 && supportaiEnabled ==>
      r == (if datasource == "vectorstore" then Some("supportai_lookup")
            else if datasource == "functions" then Some("inquiryai_lookup")
            else None)
  {
    if retryCount > 2 then Some("apologize")
    else if supportaiEnabled then
      if datasource == "vectorstore" then Some("supportai_lookup")
      else if datasource == "functions" then Some("inquiryai_lookup")
      else None
    else Some("inquiryai_lookup")
  }

  /**
   * `check_state_for_generation_error`: "error" iff there is a context and it is an
   * exception or a record whose "error" is set to anything but None (so a false
   * "error" counts too).
   */
  function GenerationCheck(context: Context): (r: string)
    ensures r == "error" || r == "success"
    ensures r == "error" <==> context.Raised? || (context.Record? && "error" in context.fields && context.fields["error"] != JNull)
  {
    match context
    case NoContext => "success"
    case Raised(_) => "error"
    case Record(f) => if Get(f, "error") != JNull then "error" else "success"
  }

  /** A record holding `"error": false` still routes as an error. */
  lemma FalseErrorIsError()
    ensures GenerationCheck(Record(map["error" := JBool(false)])) == "error"
  {
  }

  /** The hallucination check, switched off: always "grounded". */
  function CheckHallucinations(): string {
    "grounded"
  }

  /** The usefulness check, switched off: always "useful". */
  function CheckUsefulness(): string {
    "useful"
  }

  /**
   * `check_answer_for_usefulness_and_hallucinations`: the combination of the two
   * checks. `None` is the implicit result for a source with no label.
   */
  function CheckAnswer(lookupSource: string): (r: Option<string>)
    ensures r == Some("grounded")
  {
    if CheckHallucinations() == "hallucination" then Some("hallucination")
    else if CheckUsefulness() == "useful" then Some("grounded")
    else if lookupSource == "supportai" then Some("supportai_not_useful")
    else if lookupSource == "inquiryai" then Some("inquiryai_not_useful")
    else if lookupSource == "cypher" then Some("cypher_not_useful")
    else None
  }

  // ---------------------------------------------------------------- SupportAI search

  /** The four SupportAI searches. */
  datatype Search = Hybrid | Similarity | Sibling | CommunitySearch
  {
    /** The retriever name that selects this search. */
    function Name(): string {
      match this
      case Hybrid => "hybridsearch"
      case Similarity => "similaritysearch"
      case Sibling => "siblingsearch"
      case CommunitySearch => "graphrag"
    }

    /** The installed query whose output format the context records. */
    function QueryName(): string {
      match this
      case Hybrid => "GraphRAG_Hybrid_Search"
      case Similarity => "Content_Similarity_Search"
      case Sibling => "Chunk_Sibling_Search"
      case CommunitySearch => "GraphRAG_Community_Search"
    }
  }

  /** `supportai_search`: the search named by the lower-cased retriever setting; any other name raises. */
  function SupportaiSearch(retriever: string): (r: Result<Search>)
    ensures r.Ok? ==> r.value.Name() == Lower(retriever)
    ensures r.Err? ==> forall s: Search :: s.Name() != Lower(retriever)
  {
    var name := Lower(retriever);
    if name == "hybridsearch" then Ok(Hybrid)
    else if name == "similaritysearch" then Ok(Similarity)
    else if name == "siblingsearch" then Ok(Sibling)
    else if name == "graphrag" then Ok(CommunitySearch)
    else Err("Invalid supportai retriever: " + name)
  }

  // ---------------------------------------------------------------- Cypher generation

  /** `"\n".join(response.split("\n")[1:])`: the response after its first line. */
  function AfterFirstLine(response: string): (r: string)
    ensures r == if '\n' in response then response[IndexOf(response, '\n') + 1..] else ""
  {
    SplitDropFirst(response, '\n');
    Join(SplitChar(response, '\n')[1..], "\n")
  }

  /** One attempt: the query generated, the database's response, its tail and the tail parsed. */
  datatype Attempt = Attempt(cypher: string, response: string, jsonStr: string, parsed: Result<Json>)

  /** The attempt made with the history so far. `gen` is the Cypher generator, `gsql` the database. */
  function MakeAttempt(question: string, history: seq<string>, gen: (string, seq<string>) -> string,
                       gsql: string -> string, parse: string -> Result<Json>): Attempt
  {
    var cypher := gen(question, history);
    var response := gsql(cypher);
    var jsonStr := AfterFirstLine(response);
    Attempt(cypher, response, jsonStr, parse(jsonStr))
  }

  /** The history line of failed attempt `i` (0, 1 or 2). */
  function HistoryLine(i: nat, a: Attempt): string
    requires i < 10
  {
    [('0' as int + i) as char] + ": " + a.cypher + "\n\tError: " + a.jsonStr + "\n"
  }

  /** Line `j` of `history` records a failed attempt made with the lines before it. */
  predicate FailedAt(question: string, history: seq<string>, j: nat, gen: (string, seq<string>) -> string,
                     gsql: string -> string, parse: string -> Result<Json>)
    requires j < |history|
  {
    var a := MakeAttempt(question, history[..j], gen, gsql, parse);
    a.parsed.Err? && j < 10 && history[j] == HistoryLine(j, a)
  }

  /** Appending a line keeps the records of the lines before it. */
  lemma FailedAtExtend(question: string, history: seq<string>, line: string, j: nat, gen: (string, seq<string>) -> string,
                       gsql: string -> string, parse: string -> Result<Json>)
    requires j < |history| && FailedAt(question, history, j, gen, gsql, parse)
    ensures FailedAt(question, history + [line], j, gen, gsql, parse)
  {
    assert (history + [line])[..j] == history[..j];
  }

  /**
   * The retry loop of `generate_cypher`: at most three attempts, stopping at the first
   * whose response tail parses; each failed attempt adds one history line, and each
   * attempt sees the lines of the attempts before it.
   */
  method CypherAttempts(question: string, gen: (string, seq<string>) -> string,
                        gsql: string -> string, parse: string -> Result<Json>)
    returns (history: seq<string>, last: Attempt)
    ensures |history| <= 3
    ensures last.parsed.Ok? <==> |history| < 3
    ensures |history| < 3 ==> last == MakeAttempt(question, history, gen, gsql, parse)
    ensures |history| == 3 ==> last == MakeAttempt(question, history[..2], gen, gsql, parse)
    ensures forall j :: 0 <= j < |history| ==> FailedAt(question, history, j, gen, gsql, parse)
  {
    history := [];
    var i := 0;
    last := MakeAttempt(question, history, gen, gsql, parse);
    while i < 3
      invariant 0 <= i <= 3 && |history| == i
      invariant forall j :: 0 <= j < i ==> FailedAt(question, history, j, gen, gsql, parse)
      invariant i > 0 ==> last == MakeAttempt(question, history[..i - 1], gen, gsql, parse) && last.parsed.Err?
    {
      var a := MakeAttempt(question, history, gen, gsql, parse);
      last := a;
      if a.parsed.Ok? {
        return;
      }
      var line := HistoryLine(i, a);
      forall j | 0 <= j < i
        ensures FailedAt(question, history + [line], j, gen, gsql, parse)
      {
        FailedAtExtend(question, history, line, j, gen, gsql, parse);
      }
      assert (history + [line])[..i] == history;
      history := history + [line];
      i := i + 1;
    }
  }

  /** The agent's state, updated in place by the steps. */
  class GraphState {
    var question: string
    var context: Context
    /** `None` when absent or None. */
    var retryCount: Option<int>
    var errorHistory: ErrorHistory
    var lookupSource: Option<string>

    constructor(question: string)
      ensures this.question == question && context == NoContext && retryCount == None
      ensures errorHistory == Missing && lookupSource == None
    {
      this.question := question;
      context := NoContext;
      retryCount := None;
      errorHistory := Missing;
      lookupSource := None;
    }

    /** `entry`: the retry counter starts at 0 and then goes up by one on each pass. */
    method Entry()
      modifies this
      ensures old(retryCount).None? ==> retryCount == Some(0)
      ensures old(retryCount).Some? ==> retryCount == Some(old(retryCount).value + 1)
      ensures question == old(question) && context == old(context)
      ensures errorHistory == old(errorHistory) && lookupSource == old(lookupSource)
    {
      if retryCount.None? {
        retryCount := Some(0);
      } else {
        retryCount := Some(retryCount.value + 1);
      }
    }

    /**
     * `generate_cypher`. A truthy parsed answer becomes the context with its first
     * result; otherwise the context records the error and the last response is
     * appended to the error history, which starts empty when it holds None. Reading the
     * first result of a truthy answer that has none raises (`Err`), and so does reading
     * an absent error history, after the error context is set.
     */
    method GenerateCypher(gen: (string, seq<string>) -> string, gsql: string -> string, parse: string -> Result<Json>)
      returns (r: Result<()>, attempts: seq<string>)
      modifies this
      ensures question == old(question) && retryCount == old(retryCount)
      ensures |attempts| <= 3
      ensures var last := MakeAttempt(question, attempts[..if |attempts| == 3 then 2 else |attempts|], gen, gsql, parse);
        var answer := if last.parsed.Ok? then last.parsed.value else JNull;
        && (Truthy(answer) && FirstResult(answer).None? ==>
              r.Err? && context == old(context) && errorHistory == old(errorHistory) && lookupSource == old(lookupSource))
        && (Truthy(answer) && FirstResult(answer).Some? ==>
              r.Ok? && context == Record(map["answer" := FirstResult(answer).value, "cypher" := JStr(last.cypher),
                "reasoning" := JStr(Reasoning + last.cypher)])
              && errorHistory == old(errorHistory) && lookupSource == Some("cypher"))
        && (!Truthy(answer) ==>
              context == Record(map["error" := JBool(true), "cypher" := JStr(last.cypher), "answer" := JStr(last.jsonStr)]))
        && (!Truthy(answer) && old(errorHistory).Missing? ==>
              r.Err? && errorHistory == Missing && lookupSource == old(lookupSource))
        && (!Truthy(answer) && !old(errorHistory).Missing? ==>
              r.Ok?
              && errorHistory == History((if old(errorHistory).History? then old(errorHistory).entries else [])
                                         + [ErrorEntry(last.response, "generate_cypher")])
              && lookupSource == Some("cypher"))
    {
      var history, last := CypherAttempts(question, gen, gsql, parse);
      attempts := history;
      assert last == MakeAttempt(question, attempts[..if |attempts| == 3 then 2 else |attempts|], gen, gsql, parse) by {
        if |attempts| < 3 {
          assert attempts[..|attempts|] == attempts;
        }
      }
      var answer := if last.parsed.Ok? then last.parsed.value else JNull;
      if Truthy(answer) {
        var first := FirstResult(answer);
        if first.None? {
          return Err("KeyError: results"), attempts;
        }
        context := Record(map["answer" := first.value, "cypher" := JStr(last.cypher),
          "reasoning" := JStr(Reasoning + last.cypher)]);
      } else {
        context := Record(map["error" := JBool(true), "cypher" := JStr(last.cypher), "answer" := JStr(last.jsonStr)]);
        if errorHistory.Missing? {
          return Err("KeyError: error_history"), attempts;
        }
        var entries := if errorHistory.NullHistory? then [] else errorHistory.entries;
        errorHistory := History(entries + [ErrorEntry(last.response, "generate_cypher")]);
      }
      lookupSource := Some("cypher");
      r := Ok(());
    }
  }

  const Reasoning := "The following OpenCypher query was executed to answer the question. "

  /**
   * `response_json["results"][0]`: the first item of a list, or the first character of a
   * string. Indexing anything else at 0 raises (a dict's keys are strings), as does an
   * answer that is not a dict holding "results"; for a list and a string, the first
   * element is also the first one a `for` loop visits.
   */
  function FirstResult(answer: Json): (r: Option<Json>)
    ensures r.Some? <==> answer.JObj? && "results" in answer.fields
                         && (answer.fields["results"].JList? || answer.fields["results"].JStr?)
                         && Iterated(answer.fields["results"]).Some? && |Iterated(answer.fields["results"]).value| > 0
    ensures r.Some? ==> r.value == Iterated(answer.fields["results"]).value[0]
  {
    if answer.JObj? && "results" in answer.fields then
      match answer.fields["results"]
      case JList(items) => if |items| > 0 then Some(items[0]) else None
      case JStr(s) => if |s| > 0 then Some(JStr([s[0]])) else None
      case _ => None
    else None
  }

  /** A string of results is indexed by character: `{"results": "xyz"}` answers "x". */
  lemma FirstResultOfText()
    ensures FirstResult(JObj(map["results" := JStr("xyz")])) == Some(JStr("x"))
  {
  }

  // ---------------------------------------------------------------- citations

  /** `_chunk_` followed by at least one digit starts at the head of `s`. */
  predicate ChunkTagAt(s: string) {
    |s| > 7 && s[..7] == "_chunk_" && IsDigit(s[7])
  }

  /** The number of digits at the head of `s`. */
  function DigitRun(s: string): (n: nat)
    ensures n <= |s| && forall i :: 0 <= i < n ==> IsDigit(s[i])
    ensures n < |s| ==> !IsDigit(s[n])
    decreases |s|
  {
    if s != [] && IsDigit(s[0]) then 1 + DigitRun(s[1..]) else 0
  }

  /** `re.sub(r"_chunk_\d+", "", x)`: a left-to-right scan removing each "_chunk_" with its digits. */
  function StripChunkTags(x: string): (r: string)
    ensures |r| <= |x|
    decreases |x|
  {
    if x == [] then []
    else if ChunkTagAt(x) then StripChunkTags(x[7 + DigitRun(x[7..])..])
    else [x[0]] + StripChunkTags(x[1..])
  }

  /** A citation without "_" is left as it is. */
  lemma {:induction false} StripChunkTagsKeeps(x: string)
    requires '_' !in x
    ensures StripChunkTags(x) == x
    decreases |x|
  {
    if x != [] {
      assert x[0] in x;
      assert |x| > 7 ==> x[..7][0] == x[0];
      assert !ChunkTagAt(x);
      assert '_' !in x[1..] by {
        forall c | c in x[1..] ensures c in x {
        }
      }
      StripChunkTagsKeeps(x[1..]);
      assert x == [x[0]] + x[1..];
    }
  }

  /** A string that does not start a tag keeps its first character. */
  lemma NotTag(s: string)
    requires |s| > 0 && !ChunkTagAt(s)
    ensures StripChunkTags(s) == [s[0]] + StripChunkTags(s[1..])
  {
  }

  /** A run of digits followed by a non-digit, or by nothing, is counted whole. */
  lemma {:induction false} DigitRunOf(d: string, t: string)
    requires forall i :: 0 <= i < |d| ==> IsDigit(d[i])
    requires t == [] || !IsDigit(t[0])
    ensures DigitRun(d + t) == |d|
    decreases |d|
  {
    if d == [] {
      assert d + t == t;
    } else {
      assert (d + t)[0] == d[0];
      assert (d + t)[1..] == d[1..] + t;
      DigitRunOf(d[1..], t);
    }
  }

  /** A string starting with a tag loses it, with the whole run of digits after it. */
  lemma TagAtHead(s: string, d: string, t: string)
    requires |s| > 7 && s[..7] == "_chunk_" && s[7..] == d + t
    requires |d| > 0 && forall i :: 0 <= i < |d| ==> IsDigit(d[i])
    requires t == [] || !IsDigit(t[0])
    ensures StripChunkTags(s) == StripChunkTags(t)
  {
    assert s[7] == s[7..][0] == d[0];
    assert ChunkTagAt(s);
    DigitRunOf(d, t);
    var n := DigitRun(s[7..]);
    assert n == |d|;
    assert s[7 + n..] == s[7..][n..] == t;
  }

  /** A tag with its whole run of digits is removed, and the scan resumes after it. */
  lemma TagRemoved(d: string, t: string)
    requires |d| > 0 && forall i :: 0 <= i < |d| ==> IsDigit(d[i])
    requires t == [] || !IsDigit(t[0])
    ensures StripChunkTags("_chunk_" + d + t) == StripChunkTags(t)
  {
    var tag := "_chunk_";
    var s := tag + d + t;
    assert |s| > 7 && s[..7] == tag && s[7..] == d + t by {
      assert s == tag + (d + t);
    }
    TagAtHead(s, d, t);
  }

  /** Behind a head without "_", a tag is removed and the head is kept. */
  lemma TagRemovedAfter(p: string, d: string, t: string)
    requires '_' !in p
    requires |d| > 0 && forall i :: 0 <= i < |d| ==> IsDigit(d[i])
    requires t == [] || !IsDigit(t[0])
    ensures StripChunkTags(p + "_chunk_" + d + t) == p + StripChunkTags(t)
  {
    assert p + "_chunk_" + d + t == p + ("_chunk_" + d + t);
    KeepsHead(p, "_chunk_" + d + t);
    TagRemoved(d, t);
  }

  /** The tail "_chunk_1k_5" of the example loses its tag. */
  lemma TailOfExample(t: string)
    requires t == "_chunk_1k_5"
    ensures StripChunkTags(t) == "k_5"
  {
    var u := "k_5";
    assert t == "_chunk_" + "1" + u;
    TagRemoved("1", u);
    NotTag(u);
    NotTag(u[1..]);
    assert u[1..][1..] == "5";
    NotTag(u[1..][1..]);
    assert u[1..][1..][1..] == [];
  }

  /** A head without "_" is kept as it is in front of the cleaned rest. */
  lemma {:induction false} KeepsHead(p: string, t: string)
    requires '_' !in p
    ensures StripChunkTags(p + t) == p + StripChunkTags(t)
    decreases |p|
  {
    if p != [] {
      var s := p + t;
      assert s[0] == p[0] && p[0] in p;
      assert |s| > 7 ==> s[..7][0] == s[0];
      NotTag(s);
      assert s[1..] == p[1..] + t;
      assert '_' !in p[1..] by {
        forall c | c in p[1..] ensures c in p {
        }
      }
      KeepsHead(p[1..], t);
      assert p + StripChunkTags(t) == [p[0]] + (p[1..] + StripChunkTags(t));
    } else {
      assert p + t == t && p + StripChunkTags(t) == StripChunkTags(t);
    }
  }

  /** The example "_chun_chunk_1k_5" shrinks to a new tag. */
  lemma FirstPassOfExample(x: string, head: string, tail: string)
    requires head == "chun" && tail == "_chunk_1k_5" && x == "_" + head + tail
    ensures StripChunkTags(x) == "_chunk_5"
  {
    assert |x| > 7 && x[..7][5] == '_';
    NotTag(x);
    assert x[1..] == head + tail;
    KeepsHead(head, tail);
    TailOfExample(tail);
  }

  /** Removal can join pieces into a new tag, so cleaning twice removes more. */
  lemma StripChunkTagsNotIdempotent(x: string)
    requires x == "_chun_chunk_1k_5"
    ensures StripChunkTags(x) == "_chunk_5"
    ensures StripChunkTags(StripChunkTags(x)) == ""
  {
    assert x == "_" + "chun" + "_chunk_1k_5";
    FirstPassOfExample(x, "chun", "_chunk_1k_5");
    var y := StripChunkTags(x);
    assert y == "_chunk_" + "5" + "";
    TagRemoved("5", "");
  }

  /** `list(set(citations))`: the cleaned citations, each once. */
  function Citations(cs: seq<string>): (r: set<string>)
    ensures |r| <= |cs|
    ensures r == set x | x in cs :: StripChunkTags(x)
    decreases |cs|
  {
    if cs == [] then {}
    else
      var rest := Citations(cs[1..]);
      var r := {StripChunkTags(cs[0])} + rest;
      assert r == set x | x in cs :: StripChunkTags(x) by {
        forall c | c in r ensures c in set x | x in cs :: StripChunkTags(x) {
          assert cs[0] in cs;
          if c != StripChunkTags(cs[0]) {
            assert c in rest;
            var x :| x in cs[1..] && StripChunkTags(x) == c;
            assert x in cs;
          }
        }
        forall x | x in cs ensures StripChunkTags(x) in r {
          if x != cs[0] {
            assert x in cs[1..];
          }
        }
      }
      r
  }

  // ---------------------------------------------------------------- transitions

  /** The steps of the agent, and the end of a run. */
  datatype Step = EntryStep | GenerateAnswer | MapQuestionToSchema | GenerateFunction | SupportaiStep
                | RewriteQuestion | Apologize | GenerateCypherStep | End

  /** The way out of a step: one fixed successor, or one chosen by the label a predicate returns. */
  datatype Edge = Fixed(to: Step) | Conditional(targets: map<string, Step>)

  /** The steps `create_graph` adds. */
  function Steps(cypherTool: bool, supportaiEnabled: bool): (r: set<Step>)
    ensures (SupportaiStep in r) == supportaiEnabled && (GenerateCypherStep in r) == cypherTool
    ensures End !in r
  {
    {EntryStep, GenerateAnswer, MapQuestionToSchema, GenerateFunction, RewriteQuestion, Apologize}
      + (if supportaiEnabled then {SupportaiStep} else {})
      + (if cypherTool then {GenerateCypherStep} else {})
  }

  /** The edges `create_graph` adds, for whether a Cypher tool exists and whether SupportAI is enabled. */
  function Edges(cypherTool: bool, supportaiEnabled: bool): map<Step, Edge> {
    var answerTargets :=
      if cypherTool then
        if supportaiEnabled then
          map["hallucination" := RewriteQuestion, "grounded" := End, "inquiryai_not_useful" := GenerateCypherStep,
              "cypher_not_useful" := SupportaiStep, "supportai_not_useful" := MapQuestionToSchema]
        else
          map["hallucination" := RewriteQuestion, "grounded" := End, "inquiryai_not_useful" := GenerateCypherStep,
              "cypher_not_useful" := Apologize]
      else if supportaiEnabled then
        map["hallucination" := RewriteQuestion, "grounded" := End, "not_useful" := RewriteQuestion,
            "inquiryai_not_useful" := SupportaiStep, "supportai_not_useful" := MapQuestionToSchema]
      else
        map["hallucination" := RewriteQuestion, "grounded" := End, "not_useful" := RewriteQuestion,
            "inquiryai_not_useful" := Apologize, "supportai_not_useful" := MapQuestionToSchema];
    var entryTargets :=
      if supportaiEnabled then
        map["supportai_lookup" := SupportaiStep, "inquiryai_lookup" := MapQuestionToSchema, "apologize" := Apologize]
      else
        map["inquiryai_lookup" := MapQuestionToSchema, "apologize" := Apologize];
    var common := map[
      EntryStep := Conditional(entryTargets),
      GenerateAnswer := Conditional(answerTargets),
      GenerateFunction := Conditional(map["error" := if cypherTool then GenerateCypherStep else RewriteQuestion,
                                          "success" := GenerateAnswer]),
      MapQuestionToSchema := Fixed(GenerateFunction),
      RewriteQuestion := Fixed(EntryStep),
      Apologize := Fixed(End)];
    var withCypher := if cypherTool then common[GenerateCypherStep := Conditional(map["error" := Apologize, "success" := GenerateAnswer])] else common;
    if supportaiEnabled then withCypher[SupportaiStep := Fixed(GenerateAnswer)] else withCypher
  }

  /** The step after `at` when its predicate returned `lbl`. */
  function Next(at: Step, lbl: string, cypherTool: bool, supportaiEnabled: bool): Option<Step> {
    var edges := Edges(cypherTool, supportaiEnabled);
    if at !in edges then None
    else match edges[at]
      case Fixed(to) => Some(to)
      case Conditional(targets) => if lbl in targets then Some(targets[lbl]) else None
  }

  /** Every step has its way out, and every edge leads to a step of the graph or to the end. */
  lemma EdgesClosed(cypherTool: bool, supportaiEnabled: bool)
    ensures Edges(cypherTool, supportaiEnabled).Keys == Steps(cypherTool, supportaiEnabled)
    ensures forall s, l :: s in Steps(cypherTool, supportaiEnabled) && Next(s, l, cypherTool, supportaiEnabled).Some? ==>
      Next(s, l, cypherTool, supportaiEnabled).value in Steps(cypherTool, supportaiEnabled) + {End}
  {
    var edges := Edges(cypherTool, supportaiEnabled);
    var within := Steps(cypherTool, supportaiEnabled) + {End};
    EdgesKeys(cypherTool, supportaiEnabled);
    forall s | s in edges ensures LeadsInto(edges[s], within) {
      EdgeLeadsInto(s, cypherTool, supportaiEnabled);
    }
  }

  lemma EdgesKeys(cypherTool: bool, supportaiEnabled: bool)
    ensures Edges(cypherTool, supportaiEnabled).Keys == Steps(cypherTool, supportaiEnabled)
  {
  }

  /** Every successor an edge can choose is in `within`. */
  predicate LeadsInto(e: Edge, within: set<Step>) {
    match e
    case Fixed(to) => to in within
    case Conditional(targets) => forall l :: l in targets ==> targets[l] in within
  }

  lemma EdgeLeadsInto(s: Step, cypherTool: bool, supportaiEnabled: bool)
    requires s in Edges(cypherTool, supportaiEnabled)
    ensures LeadsInto(Edges(cypherTool, supportaiEnabled)[s], Steps(cypherTool, supportaiEnabled) + {End})
  {
  }

  /** A generation error goes to the Cypher step when there is a Cypher tool and to the rewrite otherwise; a Cypher error apologises. */
  lemma GenerationErrorRoutes(cypherTool: bool, supportaiEnabled: bool)
    ensures Next(GenerateFunction, "error", cypherTool, supportaiEnabled) == Some(if cypherTool then GenerateCypherStep else RewriteQuestion)
    ensures cypherTool ==> Next(GenerateCypherStep, "error", cypherTool, supportaiEnabled) == Some(Apologize)
    ensures forall l :: Next(RewriteQuestion, l, cypherTool, supportaiEnabled) == Some(EntryStep)
    ensures forall l :: Next(Apologize, l, cypherTool, supportaiEnabled) == Some(End)
  {
  }

  /** Since the answer checks always say "grounded", a generated answer always ends the run. */
  lemma AnswerEndsRun(lookupSource: string, cypherTool: bool, supportaiEnabled: bool)
    ensures CheckAnswer(lookupSource).Some?
    ensures Next(GenerateAnswer, CheckAnswer(lookupSource).value, cypherTool, supportaiEnabled) == Some(End)
  {
  }

  /** Every label the router returns has an edge out of the entry step. */
  lemma RouteLabelsCovered(retryCount: int, supportaiEnabled: bool, datasource: string, cypherTool: bool)
    ensures var lbl := RouteQuestion(retryCount, supportaiEnabled, datasource);
      lbl.Some? ==> Next(EntryStep, lbl.value, cypherTool, supportaiEnabled).Some?
    ensures forall c :: Next(GenerateFunction, GenerationCheck(c), cypherTool, supportaiEnabled).Some?
  {
  }
}
