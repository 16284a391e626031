/**
 * The producer side of the eventual-consistency service's graph loader
 * (ecc/app/graphrag/util.py): authorisation headers, id normalisation, attribute
 * encoding for upsert payloads, the load queue, and the shaping of query results.
 */
module GraphragUtil {
  import opened Wrappers
  import opened Text
  import opened Json
  import opened Base64

  // ---------------------------------------------------------------- make_headers

  /** The credentials carried by a `Basic` authorisation value, decoded back to text. */
  function BasicCredentials(header: string): Option<string> {
    if StartsWith(header, "Basic ") then
      match Base64.Decode(header[6..])
      case None => None
      case Some(bytes) => DecodeUtf8(bytes)
    else None
  }

  /**
   * `make_headers`: without an API token (absent or empty) the `Basic` scheme of
   * RFC 7617, section 2 over "user:pass"; otherwise a `Bearer` token.
   */
  function MakeHeaders(username: string, password: string, apiToken: Option<string>): (r: map<string, string>)
    ensures r.Keys == {"Authorization"}
    ensures apiToken.None? || apiToken.value == "" ==>
      BasicCredentials(r["Authorization"]) == Some(username + ":" + password)
    ensures apiToken.Some? && apiToken.value != "" ==>
      StartsWith(r["Authorization"], "Bearer ") && r["Authorization"][7..] == apiToken.value
  {
    if apiToken.None? || apiToken.value == "" then
      var bytes := Utf8(username + ":" + password);
      var header := "Basic " + Base64.Encode(bytes);
      Base64.RoundTrip(bytes);
      Utf8RoundTrip(username + ":" + password);
      assert header[6..] == Base64.Encode(bytes);
      map["Authorization" := header]
    else
      map["Authorization" := "Bearer " + apiToken.value]
  }

  // ---------------------------------------------------------------- stream_ids

  /**
   * `stream_ids`: the ids listed under "@@ids" in the first result row, or the error
   * text of the failed query or lookup. `lookupError` is the text of the exception
   * the lookup raises when the result has another shape.
   */
  function StreamIds(resp: Result<Json>, lookupError: string): (r: map<string, Json>)
    ensures "error" in r && r["error"] == JBool(r.Keys == {"error", "message"})
    ensures r.Keys == {"error", "ids"} <==>
      resp.Ok? && resp.value.JList? && |resp.value.items| > 0 && Index(resp.value.items[0], "@@ids").Some?
    ensures r.Keys == {"error", "ids"} ==> r["ids"] == resp.value.items[0].fields["@@ids"]
    ensures resp.Err? ==> "message" in r && r["message"] == JStr(resp.error)
  {
    match resp
    case Err(e) => map["error" := JBool(true), "message" := JStr(e)]
    case Ok(res) =>
      if res.JList? && |res.items| > 0 && Index(res.items[0], "@@ids").Some? then
        map["error" := JBool(false), "ids" := res.items[0].fields["@@ids"]]
      else
        map["error" := JBool(true), "message" := JStr(lookupError)]
  }

  // ---------------------------------------------------------------- map_attrs

  /** An attribute value handed to `map_attrs`: a tuple `(value, op, ...)`, a dict (in insertion order), or any other value. */
  datatype AttrIn =
    | ATuple(items: seq<Json>)
    | ADict(entries: seq<(string, Json)>)
    | AValue(v: Json)

  /** The keys of a dict's entries, in order. */
  function KeyList(entries: seq<(string, Json)>): seq<Json> {
    seq(|entries|, i requires 0 <= i < |entries| => JStr(entries[i].0))
  }

  /** The values of a dict's entries, in order. */
  function ValueList(entries: seq<(string, Json)>): seq<Json> {
    seq(|entries|, i requires 0 <= i < |entries| => entries[i].1)
  }

  /** The payload of one attribute; a tuple shorter than two raises (`None`). */
  function EncodeAttr(a: AttrIn): Option<Json> {
    match a
    case ATuple(items) =>
      if |items| >= 2 then Some(JObj(map["value" := items[0], "op" := items[1]])) else None
    case ADict(entries) =>
      Some(JObj(map["value" := JObj(map["keylist" := JList(KeyList(entries)), "valuelist" := JList(ValueList(entries))])]))
    case AValue(v) =>
      Some(JObj(map["value" := v]))
  }

  /** `zip(keylist, valuelist)` for a key list of strings; `None` for any other shape. */
  function Zip(keys: seq<Json>, values: seq<Json>): (r: Option<seq<(string, Json)>>)
    decreases |keys|
  {
    if keys == [] || values == [] then Some([])
    else if !keys[0].JStr? then None
    else
      match Zip(keys[1..], values[1..])
      case None => None
      case Some(rest) => Some([(keys[0].s, values[0])] + rest)
  }

  /** Reads an attribute payload back into the value it was built from. */
  function DecodeAttr(j: Json): Option<AttrIn> {
    if !j.JObj? || "value" !in j.fields then None
    else
      var v := j.fields["value"];
      if "op" in j.fields then Some(ATuple([v, j.fields["op"]]))
      else if v.JObj? && v.fields.Keys == {"keylist", "valuelist"}
        && v.fields["keylist"].JList? && v.fields["valuelist"].JList?
      then
        match Zip(v.fields["keylist"].items, v.fields["valuelist"].items)
        case None => None
        case Some(entries) => Some(ADict(entries))
      else Some(AValue(v))
  }

  /** Values `map_attrs` can be given: tuples are pairs, and a dict is always an `ADict`. */
  predicate WellFormedAttr(a: AttrIn) {
    match a
    case ATuple(items) => |items| == 2
    case ADict(_) => true
    case AValue(v) => !v.JObj?
  }

  lemma {:induction false} ZipLists(entries: seq<(string, Json)>)
    ensures Zip(KeyList(entries), ValueList(entries)) == Some(entries)
    decreases |entries|
  {
    if entries != [] {
      assert KeyList(entries)[1..] == KeyList(entries[1..]);
      assert ValueList(entries)[1..] == ValueList(entries[1..]);
      ZipLists(entries[1..]);
      assert entries == [entries[0]] + entries[1..];
    }
  }

  /** Zipping `keylist` with `valuelist` gives back the dict, and the other shapes decode to themselves. */
  lemma AttrRoundTrip(a: AttrIn)
    requires WellFormedAttr(a)
    ensures EncodeAttr(a).Some? && DecodeAttr(EncodeAttr(a).value) == Some(a)
  {
    match a
    case ATuple(items) =>
      assert items == [items[0], items[1]];
    case ADict(entries) =>
      ZipLists(entries);
    case AValue(v) =>
  }

  predicate AllEncodable(attributes: seq<(string, AttrIn)>) {
    forall i :: 0 <= i < |attributes| ==> EncodeAttr(attributes[i].1).Some?
  }

  /** No entry after `i` and before `n` repeats the key of entry `i`. */
  predicate IsLastBefore(attributes: seq<(string, AttrIn)>, i: int, n: int)
    requires 0 <= i < n <= |attributes|
  {
    forall j :: i < j < n ==> attributes[j].0 != attributes[i].0
  }

  /** No later entry repeats the key of entry `i`. */
  predicate IsLastOf(attributes: seq<(string, AttrIn)>, i: int)
    requires 0 <= i < |attributes|
  {
    IsLastBefore(attributes, i, |attributes|)
  }

  /** `m` is what the first `n` entries build: their keys, each mapped to the payload of its last value. */
  predicate Built(attributes: seq<(string, AttrIn)>, n: int, m: map<string, Json>)
    requires 0 <= n <= |attributes|
  {
    && m.Keys == (set i | 0 <= i < n :: attributes[i].0)
    && forall i :: 0 <= i < n && IsLastBefore(attributes, i, n) ==>
        EncodeAttr(attributes[i].1).Some? && m[attributes[i].0] == EncodeAttr(attributes[i].1).value
  }

  /** `m` is what `map_attrs` builds from the whole input. */
  predicate IsAttrMap(attributes: seq<(string, AttrIn)>, m: map<string, Json>) {
    Built(attributes, |attributes|, m)
  }

  lemma BuiltStep(attributes: seq<(string, AttrIn)>, n: int, m: map<string, Json>)
    requires 0 <= n < |attributes| && Built(attributes, n, m)
    requires EncodeAttr(attributes[n].1).Some?
    ensures Built(attributes, n + 1, m[attributes[n].0 := EncodeAttr(attributes[n].1).value])
  {
    var m' := m[attributes[n].0 := EncodeAttr(attributes[n].1).value];
    KeysStep(attributes, n);
    forall i | 0 <= i < n + 1 && IsLastBefore(attributes, i, n + 1)
      ensures EncodeAttr(attributes[i].1).Some? && m'[attributes[i].0] == EncodeAttr(attributes[i].1).value
    {
      if i < n {
        assert attributes[i].0 != attributes[n].0;
        assert IsLastBefore(attributes, i, n);
      }
    }
  }

  lemma KeysStep(attributes: seq<(string, AttrIn)>, n: int)
    requires 0 <= n < |attributes|
    ensures (set i | 0 <= i < n + 1 :: attributes[i].0) == (set i | 0 <= i < n :: attributes[i].0) + {attributes[n].0}
  {
    var before := set i | 0 <= i < n :: attributes[i].0;
    var after := set i | 0 <= i < n + 1 :: attributes[i].0;
    forall k | k in after ensures k in before + {attributes[n].0} {
      var i :| 0 <= i < n + 1 && attributes[i].0 == k;
      if i < n { assert k in before; }
    }
  }

  /** Every key of the input has a last occurrence. */
  lemma {:induction false} LastOccurrence(attributes: seq<(string, AttrIn)>, i: int) returns (j: int)
    requires 0 <= i < |attributes|
    ensures i <= j < |attributes| && attributes[j].0 == attributes[i].0 && IsLastOf(attributes, j)
    decreases |attributes| - i
  {
    if IsLastOf(attributes, i) {
      j := i;
    } else {
      var k :| i < k < |attributes| && attributes[k].0 == attributes[i].0;
      j := LastOccurrence(attributes, k);
    }
  }

  /** The attribute map is determined by its input. */
  lemma AttrMapUnique(attributes: seq<(string, AttrIn)>, m1: map<string, Json>, m2: map<string, Json>)
    requires IsAttrMap(attributes, m1) && IsAttrMap(attributes, m2)
    ensures m1 == m2
  {
    forall k | k in m1
      ensures m1[k] == m2[k]
    {
      var i :| 0 <= i < |attributes| && attributes[i].0 == k;
      var j := LastOccurrence(attributes, i);
    }
  }

  /** `map_attrs` */
  method MapAttrs(attributes: seq<(string, AttrIn)>) returns (r: Option<map<string, Json>>)
    ensures r.Some? <==> AllEncodable(attributes)
    ensures r.Some? ==> IsAttrMap(attributes, r.value)
  {
    var attrs: map<string, Json> := map[];
    var i := 0;
    while i < |attributes|
      invariant 0 <= i <= |attributes|
      invariant forall j :: 0 <= j < i ==> EncodeAttr(attributes[j].1).Some?
      invariant Built(attributes, i, attrs)
    {
      var payload := EncodeAttr(attributes[i].1);
      if payload.None? {
        return None;
      }
      BuiltStep(attributes, i, attrs);
      attrs := attrs[attributes[i].0 := payload.value];
      i := i + 1;
    }
    r := Some(attrs);
  }

  // ---------------------------------------------------------------- process_id

  /**
   * The first match group of `(.*)\(` found by `findall`: the first line holding a
   * "(" up to the last "(" of that line (`.` does not cross a newline).
   */
  function CallPrefix(s: string): (r: Option<string>)
    ensures r.Some? <==> '(' in s
    ensures r.Some? ==> '\n' !in r.value && forall x :: x in r.value ==> x in s
    decreases |s|
  {
    if '\n' in s && '(' in s[..IndexOf(s, '\n')] then
      var line := s[..IndexOf(s, '\n')];
      var p := line[..LastIndexOf(line, '(')];
      assert forall x :: x in p ==> x in line;
      Some(p)
    else if '\n' in s then
      var k := IndexOf(s, '\n');
      assert s == s[..k] + [s[k]] + s[k + 1..];
      var r := CallPrefix(s[k + 1..]);
      r
    else if '(' in s then
      Some(s[..LastIndexOf(s, '(')])
    else None
  }

  /** Spaces to "_", "/" deleted, "%" to "percent", then lower case. */
  function Normalise(v: string): string {
    Lower(ReplaceAll(ReplaceAll(ReplaceAll(v, " ", "_"), "/", ""), "%", "percent"))
  }

  /** `process_id` */
  function ProcessId(v: string): string {
    var n := Normalise(v);
    var w := match CallPrefix(n) case Some(p) => p case None => n;
    if w == "''" || w == "\"\"" then ""
    else ReplaceAll(ReplaceAll(w, "(", ""), ")", "")
  }

  predicate Forbidden(x: char) {
    x == ' ' || x == '/' || x == '%' || x == '(' || x == ')' || IsUpper(x)
  }

  lemma NormaliseChars(v: string, x: char)
    requires x in Normalise(v)
    ensures x != ' ' && x != '/' && x != '%' && !IsUpper(x)
  {
    var s1 := ReplaceAll(v, " ", "_");
    var s2 := ReplaceAll(s1, "/", "");
    var s3 := ReplaceAll(s2, "%", "percent");
    ReplaceCharRemoves(v, ' ', "_");
    ReplaceCharRemoves(s1, '/', "");
    ReplaceCharRemoves(s2, '%', "percent");
    LowerChars(s3, x);
    if x == ' ' || x == '/' {
      ReplaceCharChars(s2, '%', "percent", x);
      if x == ' ' {
        ReplaceCharChars(s1, '/', "", x);
      }
    }
  }

  /** The id never holds a space, "/", "%", "(", ")" or an upper-case letter. */
  lemma ProcessIdClean(v: string)
    ensures forall x :: x in ProcessId(v) ==> !Forbidden(x)
  {
    var n := Normalise(v);
    var w := match CallPrefix(n) case Some(p) => p case None => n;
    if !(w == "''" || w == "\"\"") {
      var w1 := ReplaceAll(w, "(", "");
      ReplaceCharRemoves(w, '(', "");
      ReplaceCharRemoves(w1, ')', "");
      forall x | x in ProcessId(v)
        ensures !Forbidden(x)
      {
        ReplaceCharChars(w1, ')', "", x);
        ReplaceCharChars(w, '(', "", x);
        NormaliseChars(v, x);
      }
    }
  }

  /** On a one-line id, the text from the last "(" onward is dropped. */
  lemma ProcessIdSingleLine(v: string)
    requires '\n' !in Normalise(v) && '(' in Normalise(v)
    ensures var n := Normalise(v); var w := n[..LastIndexOf(n, '(')];
      ProcessId(v) == if w == "''" || w == "\"\"" then "" else ReplaceAll(ReplaceAll(w, "(", ""), ")", "")
  {
  }

  lemma NormaliseCallExample(v: string)
    requires v == "foo(bar)"
    ensures Normalise(v) == v
  {
    NormaliseFixes(v);
  }

  /** A text with no space, "/", "%" or upper-case letter is already normalised. */
  lemma NormaliseFixes(v: string)
    requires ' ' !in v && '/' !in v && '%' !in v
    requires forall i :: 0 <= i < |v| ==> !IsUpper(v[i])
    ensures Normalise(v) == v
  {
    ReplaceCharAbsent(v, ' ', "_");
    ReplaceCharAbsent(v, '/', "");
    ReplaceCharAbsent(v, '%', "percent");
    LowerNoUpper(v);
  }

  lemma CallPrefixExample(v: string)
    requires v == "foo(bar)"
    ensures CallPrefix(v) == Some("foo")
  {
    assert '\n' !in v;
    assert LastIndexOf(v, '(') == 3;
    assert v[..3] == "foo";
  }

  /** "foo(bar)" becomes "foo". */
  lemma ProcessIdDropsCallExample(v: string)
    requires v == "foo(bar)"
    ensures ProcessId(v) == "foo"
  {
    NormaliseCallExample(v);
    CallPrefixExample(v);
    ReplaceCharAbsent("foo", '(', "");
    ReplaceCharAbsent("foo", ')', "");
  }

  lemma ReplaceSpaceExample(v: string)
    requires v == "A/B 50%"
    ensures ReplaceAll(v, " ", "_") == "A/B_50%"
  {
    assert v == "A/B" + [' '] + "50%";
    ReplaceCharOnce("A/B", "50%", ' ', "_");
  }

  lemma ReplaceSlashExample(v: string)
    requires v == "A/B_50%"
    ensures ReplaceAll(v, "/", "") == "AB_50%"
  {
    assert v == "A" + ['/'] + "B_50%";
    ReplaceCharOnce("A", "B_50%", '/', "");
  }

  lemma ReplacePercentExample(v: string)
    requires v == "AB_50%"
    ensures ReplaceAll(v, "%", "percent") == "AB_50percent"
  {
    assert v == "AB_50" + ['%'] + "";
    ReplaceCharOnce("AB_50", "", '%', "percent");
  }

  lemma NormaliseExample(v: string)
    requires v == "A/B 50%"
    ensures Normalise(v) == "ab_50percent"
  {
    ReplaceSpaceExample(v);
    ReplaceSlashExample("A/B_50%");
    ReplacePercentExample("AB_50%");
    LowerExample("AB_50percent");
  }

  lemma LowerExample(v: string)
    requires v == "AB_50percent"
    ensures Lower(v) == "ab_50percent"
  {
  }

  /** Spaces become "_", "/" is deleted, "%" becomes "percent" and letters are lower-cased. */
  lemma ProcessIdNormalisesExample(v: string)
    requires v == "A/B 50%"
    ensures ProcessId(v) == "ab_50percent"
  {
    NormaliseExample(v);
    assert '(' !in "ab_50percent";
    ReplaceCharAbsent("ab_50percent", '(', "");
    ReplaceCharAbsent("ab_50percent", ')', "");
  }

  /** `process_id` is not idempotent: "'')" becomes "''", which becomes "". */
  lemma ProcessIdNotIdempotent(v: string)
    requires v == "'')"
    ensures ProcessId(v) == "''"
    ensures ProcessId(ProcessId(v)) == ""
  {
    NormaliseFixes(v);
    assert '(' !in v;
    ReplaceCharAbsent(v, '(', "");
    assert v == "''" + [')'] + "";
    ReplaceCharOnce("''", "", ')', "");
    NormaliseFixes("''");
  }

  // ---------------------------------------------------------------- upsert_vertex / upsert_edge

  /** One item of the load queue: `("vertices", (type, id, attrs))` or `("edges", (...6...))`. */
  datatype QueueItem =
    | Vertex(vType: string, vId: string, attrs: map<string, Json>)
    | Edge(srcType: string, srcId: string, eType: string, tgtType: string, tgtId: string, attrs: map<string, Json>)

  /** The shared `load_q`; producers only ever append to it. */
  class LoadQueue {
    var items: seq<QueueItem>

    constructor ()
      ensures items == []
    {
      items := [];
    }

    /** `upsert_vertex`: enqueues one vertex item; a failing `map_attrs` raises and enqueues nothing. */
    method UpsertVertex(vertexType: string, vertexId: string, attributes: seq<(string, AttrIn)>) returns (ok: bool)
      modifies this
      ensures ok <==> AllEncodable(attributes)
      ensures !ok ==> items == old(items)
      ensures ok ==> |items| == |old(items)| + 1 && items[..|old(items)|] == old(items)
      ensures ok ==> var item := items[|old(items)|];
        && item.Vertex? && item.vType == vertexType
        && item.vId == ReplaceAll(vertexId, " ", "_") && ' ' !in item.vId
        && IsAttrMap(attributes, item.attrs)
    {
      var id := ReplaceAll(vertexId, " ", "_");
      ReplaceCharRemoves(vertexId, ' ', "_");
      var attrs := MapAttrs(attributes);
      if attrs.None? {
        return false;
      }
      items := items + [Vertex(vertexType, id, attrs.value)];
      ok := true;
    }

    /** `upsert_edge`: `None` attributes become `{}`; both endpoint ids get spaces replaced. */
    method UpsertEdge(srcType: string, srcId: string, edgeType: string, tgtType: string, tgtId: string,
                      attributes: Option<seq<(string, AttrIn)>>) returns (ok: bool)
      modifies this
      ensures ok <==> attributes.None? || AllEncodable(attributes.value)
      ensures !ok ==> items == old(items)
      ensures ok ==> |items| == |old(items)| + 1 && items[..|old(items)|] == old(items)
      ensures ok ==> var item := items[|old(items)|];
        && item.Edge? && item.srcType == srcType && item.eType == edgeType && item.tgtType == tgtType
        && item.srcId == ReplaceAll(srcId, " ", "_") && item.tgtId == ReplaceAll(tgtId, " ", "_")
        && ' ' !in item.srcId && ' ' !in item.tgtId
        && (attributes.None? ==> item.attrs == map[])
        && (attributes.Some? ==> IsAttrMap(attributes.value, item.attrs))
    {
      var attrs: map<string, Json> := map[];
      if attributes.Some? {
        var mapped := MapAttrs(attributes.value);
        if mapped.None? {
          return false;
        }
        attrs := mapped.value;
      }
      ReplaceCharRemoves(srcId, ' ', "_");
      ReplaceCharRemoves(tgtId, ' ', "_");
      items := items + [Edge(srcType, ReplaceAll(srcId, " ", "_"), edgeType, tgtType, ReplaceAll(tgtId, " ", "_"), attrs)];
      ok := true;
    }
  }

  // ---------------------------------------------------------------- get_commuinty_children

  /** One child row of the `get_community_children` query. */
  datatype Child = Child(vId: string, description: seq<string>)

  /** A collected description: a single text (entity iteration) or a child's whole list (later iterations). */
  datatype Descr = Text(s: string) | Texts(items: seq<string>)

  /** `filter(lambda x: len(x) > 0, desc)` */
  function NonEmpty(desc: seq<string>): (r: seq<string>)
    ensures forall x :: x in r <==> x in desc && x != ""
    ensures |r| <= |desc|
  {
    if desc == [] then []
    else if desc[0] == "" then NonEmpty(desc[1..])
    else [desc[0]] + NonEmpty(desc[1..])
  }

  /** What one child contributes. */
  function ChildDescrs(i: int, d: Child): seq<Descr> {
    if i == 1 then
      var kept := NonEmpty(d.description);
      if kept == [] then [Text(d.vId)] else seq(|kept|, k requires 0 <= k < |kept| => Text(kept[k]))
    else [Texts(d.description)]
  }

  /** The descriptions of all children, in child order. */
  function Descriptions(i: int, children: seq<Child>): seq<Descr>
    decreases |children|
  {
    if children == [] then []
    else Descriptions(i, children[..|children| - 1]) + ChildDescrs(i, children[|children| - 1])
  }

  lemma DescriptionsSnoc(i: int, children: seq<Child>, k: nat)
    requires k < |children|
    ensures Descriptions(i, children[..k + 1]) == Descriptions(i, children[..k]) + ChildDescrs(i, children[k])
  {
    assert children[..k + 1][..k] == children[..k];
  }

  /** At later iterations each child contributes exactly its whole description list. */
  lemma {:induction false} LaterIterationDescriptions(i: int, children: seq<Child>)
    requires i != 1
    ensures |Descriptions(i, children)| == |children|
    ensures forall k :: 0 <= k < |children| ==> Descriptions(i, children)[k] == Texts(children[k].description)
    decreases |children|
  {
    if children != [] {
      LaterIterationDescriptions(i, children[..|children| - 1]);
    }
  }

  /**
   * At the entity iteration every entry is a single text, each child contributes at
   * least one, and no entry is empty unless some child has an empty id.
   */
  lemma {:induction false} EntityIterationDescriptions(children: seq<Child>)
    ensures |Descriptions(1, children)| >= |children|
    ensures forall k :: 0 <= k < |Descriptions(1, children)| ==> Descriptions(1, children)[k].Text?
    ensures (forall j :: 0 <= j < |children| ==> children[j].vId != "") ==>
      forall k :: 0 <= k < |Descriptions(1, children)| ==> Descriptions(1, children)[k].s != ""
    decreases |children|
  {
    if children != [] {
      var init := children[..|children| - 1];
      EntityIterationDescriptions(init);
      var last := ChildDescrs(1, children[|children| - 1]);
      var kept := NonEmpty(children[|children| - 1].description);
      assert forall k :: 0 <= k < |kept| ==> kept[k] in kept;
      assert (forall j :: 0 <= j < |children| ==> children[j].vId != "") ==>
        (forall j :: 0 <= j < |init| ==> init[j].vId != "");
    }
  }

  /** The inner loop of `get_commuinty_children`: each text of `desc` appended in order. */
  method AppendTexts(descrs: seq<Descr>, desc: seq<string>) returns (r: seq<Descr>)
    ensures r == descrs + seq(|desc|, m requires 0 <= m < |desc| => Text(desc[m]))
  {
    r := descrs;
    for j := 0 to |desc|
      invariant r == descrs + seq(j, m requires 0 <= m < j => Text(desc[m]))
    {
      r := r + [Text(desc[j])];
    }
  }

  /**
   * `get_commuinty_children`: `children` is `None` when the query raised or its result
   * held no "children"; both give `[]`.
   */
  method CommunityChildren(i: int, children: Option<seq<Child>>) returns (descrs: seq<Descr>)
    ensures children.None? ==> descrs == []
    ensures children.Some? ==> descrs == Descriptions(i, children.value)
  {
    descrs := [];
    var res := if children.Some? then children.value else [];
    var k := 0;
    while k < |res|
      invariant 0 <= k <= |res|
      invariant descrs == Descriptions(i, res[..k])
    {
      var d := res[k];
      if i == 1 {
        var desc := NonEmpty(d.description);
        if |desc| == 0 {
          desc := [d.vId];
        }
        descrs := AppendTexts(descrs, desc);
      } else {
        descrs := descrs + [Texts(d.description)];
      }
      DescriptionsSnoc(i, res, k);
      k := k + 1;
    }
    assert res[..k] == res;
  }
}
