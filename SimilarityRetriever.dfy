/**
 * The similarity retriever of SupportAI
 * (graphrag/app/supportai/retrievers/SimilarityRetriever.py): the question list it
 * searches with, the installed-query call on one index, the verbose record of the
 * expanded questions, and the context it hands to the model. Question expansion,
 * the start set, the query and the model's response are parameters.
 */
module SimilarityRetriever {
  import opened Wrappers
  import opened Text
  import opened Json

  /**
   * The installed query's reply: the first entry's "final_retrieval", an ordered
   * dict from chunk id to text, kept as a sequence of pairs; then the other entries.
   */
  datatype Reply = Reply(finalRetrieval: seq<(string, string)>, rest: seq<Json>)

  /** The services the retriever calls. */
  datatype Services = Services(
    expandQuestion: (string, int, bool) -> seq<string>,
    startSet: (seq<string>, seq<string>, int, bool, bool) -> Json,
    show: Json -> string,
    runQuery: map<string, Json> -> Reply,
    respond: (string, seq<string>, bool) -> map<string, Json>)

  /** The questions searched with: the expansion, or just the question. */
  function Questions(question: string, topK: int, expand: bool, verbose: bool, svc: Services): (qs: seq<string>)
    ensures !expand ==> qs == [question]
  {
    if expand then svc.expandQuestion(question, topK, verbose) else [question]
  }

  /** The parameters of "Content_Similarity_Search": the start set, the one index, the verbose flag. */
  function QueryParams(startSet: string, index: string, verbose: bool): map<string, Json> {
    map["json_list_vts" := JStr(startSet), "v_type" := JStr(index), "verbose" := JBool(verbose)]
  }

  /** `"verbose" in entry`, for an entry that is a dict. */
  predicate HasVerbose(entry: Json) {
    entry.JObj? && "verbose" in entry.fields
  }

  /** The questions as a JSON list of strings. */
  function QuestionList(qs: seq<string>): Json {
    JList(seq(|qs|, i requires 0 <= i < |qs| => JStr(qs[i])))
  }

  /** `entry["verbose"][key] = value`; a "verbose" value that is not a dict raises. */
  function SetVerbose(entry: Json, key: string, value: Json): (r: Result<Json>)
    requires HasVerbose(entry)
    ensures r.Ok? <==> entry.fields["verbose"].JObj?
    ensures r.Ok? ==> r.value.JObj? && r.value.fields.Keys == entry.fields.Keys
    ensures r.Ok? ==> HasVerbose(r.value) && r.value.fields["verbose"].JObj?
    ensures r.Ok? ==> r.value.fields["verbose"].fields == entry.fields["verbose"].fields[key := value]
    ensures r.Ok? ==> forall k :: k in entry.fields && k != "verbose" ==> r.value.fields[k] == entry.fields[k]
  {
    var v := entry.fields["verbose"];
    if v.JObj? then Ok(JObj(entry.fields["verbose" := JObj(v.fields[key := value])]))
    else Err("TypeError: the verbose entry is not a dict")
  }

  /** `search`: one query on the given index, with the question list recorded when the reply is verbose. */
  function Search(question: string, index: string, topK: int, withHyDE: bool, expand: bool, verbose: bool,
                  svc: Services): (r: Result<Reply>)
  {
    var qs := Questions(question, topK, expand, verbose, svc);
    var startSet := svc.startSet(qs, [index], topK, withHyDE, verbose);
    var res := svc.runQuery(QueryParams(svc.show(startSet), index, verbose));
    if |res.rest| > 0 && HasVerbose(res.rest[0]) then
      match SetVerbose(res.rest[0], "expanded_questions", QuestionList(qs))
      case Err(e) => Err(e)
      case Ok(entry) => Ok(res.(rest := [entry] + res.rest[1..]))
    else Ok(res)
  }

  /** The query reply `Search` starts from: the start set and the query see only `[index]` and `index`. */
  function QueryReply(question: string, index: string, topK: int, withHyDE: bool, expand: bool, verbose: bool,
                      svc: Services): Reply
  {
    var qs := Questions(question, topK, expand, verbose, svc);
    svc.runQuery(QueryParams(svc.show(svc.startSet(qs, [index], topK, withHyDE, verbose)), index, verbose))
  }

  /**
   * What `search` returns: the query's reply, untouched unless its second entry is
   * verbose, in which case only that entry gains "expanded_questions" (the question
   * list); it raises only when that verbose value is not a dict.
   */
  lemma SearchRecordsQuestions(question: string, index: string, topK: int, withHyDE: bool, expand: bool,
                               verbose: bool, svc: Services)
    ensures var res := QueryReply(question, index, topK, withHyDE, expand, verbose, svc);
            var r := Search(question, index, topK, withHyDE, expand, verbose, svc);
            && (r.Err? <==> |res.rest| > 0 && HasVerbose(res.rest[0]) && !res.rest[0].fields["verbose"].JObj?)
            && (r.Ok? ==> r.value.finalRetrieval == res.finalRetrieval && |r.value.rest| == |res.rest|)
            && (r.Ok? && |res.rest| > 0 ==> r.value.rest[1..] == res.rest[1..])
            && (r.Ok? && !(|res.rest| > 0 && HasVerbose(res.rest[0])) ==> r.value == res)
            && (r.Ok? && |res.rest| > 0 && HasVerbose(res.rest[0]) ==>
                  r.value.rest[0].fields["verbose"].fields["expanded_questions"]
                    == QuestionList(Questions(question, topK, expand, verbose, svc)))
  {
  }

  /** Without expansion, the recorded question list is the question alone. */
  lemma UnexpandedSearchRecordsQuestion(question: string, index: string, topK: int, withHyDE: bool,
                                        verbose: bool, svc: Services)
    ensures var res := QueryReply(question, index, topK, withHyDE, false, verbose, svc);
            var r := Search(question, index, topK, withHyDE, false, verbose, svc);
            r.Ok? && |res.rest| > 0 && HasVerbose(res.rest[0]) ==>
              r.value.rest[0].fields["verbose"].fields["expanded_questions"] == JList([JStr(question)])
  {
    SearchRecordsQuestions(question, index, topK, withHyDE, false, verbose, svc);
  }

  /** The texts of final_retrieval in its order, or their "\n" join as the one element. */
  function Context(finalRetrieval: seq<(string, string)>, combine: bool): (c: seq<string>)
    ensures !combine ==> |c| == |finalRetrieval| && forall i :: 0 <= i < |c| ==> c[i] == finalRetrieval[i].1
    ensures combine ==> |c| == 1
  {
    var texts := seq(|finalRetrieval|, i requires 0 <= i < |finalRetrieval| => finalRetrieval[i].1);
    if combine then [Join(texts, "\n")] else texts
  }

  /** The combined context splits back into the texts, when there are some and none holds a line break. */
  lemma CombinedContextSplits(finalRetrieval: seq<(string, string)>)
    requires |finalRetrieval| > 0
    requires forall i :: 0 <= i < |finalRetrieval| ==> '\n' !in finalRetrieval[i].1
    ensures SplitChar(Context(finalRetrieval, true)[0], '\n') == Context(finalRetrieval, false)
  {
    var texts := Context(finalRetrieval, false);
    JoinSplit(texts, '\n');
  }

  /** With nothing retrieved, the combined context is still one element: the empty text. */
  lemma CombinedEmptyContext(finalRetrieval: seq<(string, string)>)
    requires finalRetrieval == []
    ensures Context(finalRetrieval, true) == [""] && Context(finalRetrieval, false) == []
  {
  }

  /** final_retrieval as the dict that is copied into the verbose record. */
  function AsObject(pairs: seq<(string, string)>): (j: Json)
    ensures j.JObj? && j.fields.Keys == set i | 0 <= i < |pairs| :: pairs[i].0
    decreases |pairs|
  {
    if pairs == [] then JObj(map[])
    else
      var prefix := AsObject(pairs[..|pairs| - 1]);
      var last := pairs[|pairs| - 1];
      assert forall i :: 0 <= i < |pairs| - 1 ==> pairs[..|pairs| - 1][i] == pairs[i];
      assert (set i | 0 <= i < |pairs| :: pairs[i].0) == (set i | 0 <= i < |pairs| - 1 :: pairs[i].0) + {last.0};
      JObj(prefix.fields[last.0 := JStr(last.1)])
  }

  /** `retrieve_answer`: the model answers from the context; verbose replies are attached with final_retrieval. */
  function RetrieveAnswer(question: string, index: string, topK: int, withHyDE: bool, expand: bool,
                          combine: bool, verbose: bool, svc: Services): (r: Result<map<string, Json>>)
  {
    match Search(question, index, topK, withHyDE, expand, verbose, svc)
    case Err(e) => Err(e)
    case Ok(retrieved) =>
      var resp := svc.respond(question, Context(retrieved.finalRetrieval, combine), verbose);
      if verbose && |retrieved.rest| > 0 && HasVerbose(retrieved.rest[0]) then
        match SetVerbose(retrieved.rest[0], "final_retrieval", AsObject(retrieved.finalRetrieval))
        case Err(e) => Err(e)
        case Ok(entry) => Ok(resp["verbose" := entry.fields["verbose"]])
      else Ok(resp)
  }

  /**
   * The answer is the model's response to the question and the context; the verbose
   * record is attached exactly when verbose is set and the reply's second entry has
   * one, and it then holds both the question list and final_retrieval.
   */
  lemma RetrieveAnswerAttachesVerbose(question: string, index: string, topK: int, withHyDE: bool, expand: bool,
                                      combine: bool, verbose: bool, svc: Services)
    ensures var s := Search(question, index, topK, withHyDE, expand, verbose, svc);
            var r := RetrieveAnswer(question, index, topK, withHyDE, expand, combine, verbose, svc);
            && (s.Err? ==> r == Err(s.error))
            && (s.Ok? ==>
                  var resp := svc.respond(question, Context(s.value.finalRetrieval, combine), verbose);
                  var attach := verbose && |s.value.rest| > 0 && HasVerbose(s.value.rest[0]);
                  && r.Ok?
                  && (!attach ==> r.value == resp)
                  && (attach ==>
                        && r.value.Keys == resp.Keys + {"verbose"}
                        && (forall k :: k in resp && k != "verbose" ==> r.value[k] == resp[k])
                        && r.value["verbose"].JObj?
                        && r.value["verbose"].fields["final_retrieval"] == AsObject(s.value.finalRetrieval)
                        && r.value["verbose"].fields["expanded_questions"]
                             == QuestionList(Questions(question, topK, expand, verbose, svc))))
  {
    var s := Search(question, index, topK, withHyDE, expand, verbose, svc);
    SearchRecordsQuestions(question, index, topK, withHyDE, expand, verbose, svc);
    if s.Ok? && verbose && |s.value.rest| > 0 && HasVerbose(s.value.rest[0]) {
      var res := QueryReply(question, index, topK, withHyDE, expand, verbose, svc);
      assert |res.rest| > 0 && HasVerbose(res.rest[0]);
    }
  }
}
