/**
 * The community summariser of the eventual-consistency service
 * (ecc/app/graphrag/community_summarizer.py): the community name is cleaned of
 * iteration tags before it is put to the model, and any failure of the model
 * call becomes an error record.
 */
module CommunitySummarizer {
  import opened Wrappers
  import opened Text

  /** A character the pattern `[_\d]*` removes. */
  predicate IsTagChar(c: char) {
    c == '_' || IsDigit(c)
  }

  /** `id_pat.sub("", name)`: every "_" and every digit is removed; all else keeps its order. */
  function CleanName(name: string): (r: string)
    ensures forall x :: x in r ==> !IsTagChar(x)
    ensures |r| <= |name|
  {
    if name == [] then []
    else if IsTagChar(name[0]) then CleanName(name[1..])
    else [name[0]] + CleanName(name[1..])
  }

  /** Cleaning works piece by piece, so the kept characters stay in their order. */
  lemma {:induction false} CleanNameConcat(a: string, b: string)
    ensures CleanName(a + b) == CleanName(a) + CleanName(b)
    decreases |a|
  {
    if a == [] {
      assert a + b == b;
    } else {
      assert (a + b)[0] == a[0];
      assert (a + b)[1..] == a[1..] + b;
      CleanNameConcat(a[1..], b);
    }
  }

  /** A name without tag characters is left as it is. */
  lemma {:induction false} CleanNameKeeps(name: string)
    requires forall x :: x in name ==> !IsTagChar(x)
    ensures CleanName(name) == name
    decreases |name|
  {
    if name != [] {
      assert name[0] in name;
      assert forall x :: x in name[1..] ==> x in name;
      CleanNameKeeps(name[1..]);
      assert name == [name[0]] + name[1..];
    }
  }

  /** Cleaning is idempotent. */
  lemma CleanNameIdempotent(name: string)
    ensures CleanName(CleanName(name)) == CleanName(name)
  {
    CleanNameKeeps(CleanName(name));
  }

  /** What the summarisation prompt is filled with. */
  datatype PromptInput = PromptInput(entityName: string, descriptionList: seq<string>)

  /** The record `summarize` returns; `message` is present exactly on error. */
  datatype Summary = Summary(error: bool, summary: string, message: Option<string>)

  /**
   * `CommunitySummarizer.summarize`. `invoke` stands for the structured model chain:
   * it yields the parsed summary, or the text of the exception it raised.
   */
  function Summarize(name: string, text: seq<string>, invoke: PromptInput -> Result<string>): (r: Summary)
    ensures var call := invoke(PromptInput(CleanName(name), text));
      && (r.error <==> call.Err?)
      && (call.Err? ==> r == Summary(true, "", Some(call.error)))
      && (call.Ok? ==> r == Summary(false, call.value, None))
  {
    var input := PromptInput(CleanName(name), text);
    match invoke(input)
    case Err(e) => Summary(true, "", Some(e))
    case Ok(s) => Summary(false, s, None)
  }
}
