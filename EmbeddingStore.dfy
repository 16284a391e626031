/**
 * The TigerGraph embedding store (common/embeddings/tigergraph_embedding_store.py):
 * the version gate of its constructor, the shaping of upsert batches, the
 * has-embedding check, and the sort-and-cut applied to similarity hits.
 * Graph queries and the embedding service are parameters.
 */
module EmbeddingStore {
  import opened Wrappers
  import opened Text
  import opened Json

  // ---------------------------------------------------------------- __init__

  /** The store's refusal of a version too old for vectors, listing the version's parts. */
  function Unsupported(version: string): string {
    "Current TigerGraph version " + ListRepr(SplitChar(version, '.')) + " does not support vector feature!"
  }

  /**
   * The constructor's gate: `int(major) >= 4 and int(minor) >= 2` on the dot-separated
   * version. A part that is not an integer, or a missing minor part, raises like a
   * failed gate. On success, the parsed major and minor.
   */

  function CheckVersion(version: string): (r: Result<(int, int)>)
    ensures r.Ok? <==>
      var ver := SplitChar(version, '.');
      && ParseInt(ver[0]).Some? && ParseInt(ver[0]).value >= 4
      && |ver| >= 2 && ParseInt(ver[1]).Some? && ParseInt(ver[1]).value >= 2
    ensures r.Ok? ==> r.value.0 >= 4 && r.value.1 >= 2
    ensures r.Ok? ==> var ver := SplitChar(version, '.'); Some(r.value.0) == ParseInt(ver[0]) && Some(r.value.1) == ParseInt(ver[1])
  {
    var ver := SplitChar(version, '.');
    match ParseInt(ver[0])
    case None => Err("ValueError: invalid literal for int()")
    case Some(major) =>
      if major < 4 then Err(Unsupported(version))
      else if |ver| < 2 then Err("IndexError: list index out of range")
      else
        match ParseInt(ver[1])
        case None => Err("ValueError: invalid literal for int()")
        case Some(minor) =>
          if minor < 2 then Err(Unsupported(version))
          else Ok((major, minor))
  }

  // ---------------------------------------------------------------- map_attrs

  /** No later pair repeats the key of pair `i` before index `n`. */
  predicate LastBefore<V>(pairs: seq<(string, V)>, i: int, n: int)
    requires 0 <= i < n <= |pairs|
  {
    forall j :: i < j < n ==> pairs[j].0 != pairs[i].0
  }

  /** `m` maps the keys of the first `n` pairs each to `{"value": v}` for its last value `v`. */
  predicate ValueMap(pairs: seq<(string, Json)>, n: int, m: map<string, Json>)
    requires 0 <= n <= |pairs|
  {
    && m.Keys == (set i | 0 <= i < n :: pairs[i].0)
    && forall i :: 0 <= i < n && LastBefore(pairs, i, n) ==> m[pairs[i].0] == JObj(map["value" := pairs[i].1])
  }

  lemma ValueMapStep(pairs: seq<(string, Json)>, n: int, m: map<string, Json>)
    requires 0 <= n < |pairs| && ValueMap(pairs, n, m)
    ensures ValueMap(pairs, n + 1, m[pairs[n].0 := JObj(map["value" := pairs[n].1])])
  {
    var m' := m[pairs[n].0 := JObj(map["value" := pairs[n].1])];
    var before := set i | 0 <= i < n :: pairs[i].0;
    var after := set i | 0 <= i < n + 1 :: pairs[i].0;
    assert after == before + {pairs[n].0} by {
      forall k | k in after ensures k in before + {pairs[n].0} {
        var i :| 0 <= i < n + 1 && pairs[i].0 == k;
        if i < n { assert k in before; }
      }
    }
    forall i | 0 <= i < n + 1 && LastBefore(pairs, i, n + 1)
      ensures m'[pairs[i].0] == JObj(map["value" := pairs[i].1])
    {
      if i < n {
        assert pairs[i].0 != pairs[n].0;
        assert LastBefore(pairs, i, n);
      }
    }
  }

  /** `map_attrs`: each `(k, v)` becomes `attrs[k] = {"value": v}`; for a repeated key the last value wins. */
  method MapAttrs(pairs: seq<(string, Json)>) returns (attrs: map<string, Json>)
    ensures ValueMap(pairs, |pairs|, attrs)
  {
    attrs := map[];
    var i := 0;
    while i < |pairs|
      invariant 0 <= i <= |pairs|
      invariant ValueMap(pairs, i, attrs)
    {
      ValueMapStep(pairs, i, attrs);
      attrs := attrs[pairs[i].0 := JObj(map["value" := pairs[i].1])];
      i := i + 1;
    }
  }

  // ---------------------------------------------------------------- add_embeddings

  /** The upsert batch: `{"vertices": {v_type: {v_id: {"embedding": {"value": e}}}}}`, without the outer key. */
  type Batch = map<string, map<string, map<string, Json>>>

  /** The attribute record of one embedding. */
  function EmbeddingAttrs(e: Json): map<string, Json> {
    map["embedding" := JObj(map["value" := e])]
  }

  /** `batch["vertices"][v_type][v_id] = attr` */
  function Put(batch: Batch, vType: string, vId: string, e: Json): (r: Batch)
    ensures r.Keys == batch.Keys + {vType}
    ensures r[vType].Keys == (if vType in batch then batch[vType].Keys else {}) + {vId}
    ensures r[vType][vId] == EmbeddingAttrs(e)
    ensures forall t, i :: t in batch && i in batch[t] && (t, i) != (vType, vId) ==> t in r && i in r[t] && r[t][i] == batch[t][i]
    ensures forall t :: t in r && t != vType ==> t in batch && r[t] == batch[t]
  {
    var inner := if vType in batch then batch[vType] else map[];
    batch[vType := inner[vId := EmbeddingAttrs(e)]]
  }

  /** One input's contribution: vertex type, vertex id and embedding. */
  type Entry = (string, string, Json)

  /** The batch built from a list of entries, later entries overwriting earlier ones. */
  function BatchOf(entries: seq<Entry>): Batch
    decreases |entries|
  {
    if entries == [] then map[]
    else
      var e := entries[|entries| - 1];
      Put(BatchOf(entries[..|entries| - 1]), e.0, e.1, e.2)
  }

  /** Every entry has a place in the batch, and it holds the embedding of the last entry with that type and id. */
  lemma {:induction false} BatchOfLastWins(entries: seq<Entry>, i: int)
    requires 0 <= i < |entries|
    requires forall j :: i < j < |entries| ==> (entries[j].0, entries[j].1) != (entries[i].0, entries[i].1)
    ensures entries[i].0 in BatchOf(entries) && entries[i].1 in BatchOf(entries)[entries[i].0]
    ensures BatchOf(entries)[entries[i].0][entries[i].1] == EmbeddingAttrs(entries[i].2)
    decreases |entries|
  {
    if i < |entries| - 1 {
      var init := entries[..|entries| - 1];
      BatchOfLastWins(init, i);
    }
  }

  /** The batch holds nothing but the entries' types and ids. */
  lemma BatchOfKeys(entries: seq<Entry>)
    ensures BatchOf(entries).Keys == set j | 0 <= j < |entries| :: entries[j].0
    ensures forall t, id :: t in BatchOf(entries) && id in BatchOf(entries)[t] ==>
      exists j :: 0 <= j < |entries| && entries[j].0 == t && entries[j].1 == id
  {
    BatchOfTypes(entries);
    BatchOfIds(entries);
  }

  lemma {:induction false} BatchOfTypes(entries: seq<Entry>)
    ensures BatchOf(entries).Keys == set j | 0 <= j < |entries| :: entries[j].0
    decreases |entries|
  {
    if entries != [] {
      var init := entries[..|entries| - 1];
      BatchOfTypes(init);
      var last := entries[|entries| - 1];
      var all := set j | 0 <= j < |entries| :: entries[j].0;
      var front := set j | 0 <= j < |init| :: init[j].0;
      forall t | t in all
        ensures t in front + {last.0}
      {
        var j :| 0 <= j < |entries| && entries[j].0 == t;
        if j < |init| { assert init[j].0 == t; }
      }
      assert all == front + {last.0};
    }
  }

  lemma {:induction false} BatchOfIds(entries: seq<Entry>)
    ensures forall t, id :: t in BatchOf(entries) && id in BatchOf(entries)[t] ==>
      exists j :: 0 <= j < |entries| && entries[j].0 == t && entries[j].1 == id
    decreases |entries|
  {
    if entries != [] {
      var init := entries[..|entries| - 1];
      BatchOfIds(init);
      var last := entries[|entries| - 1];
      forall t, id | t in BatchOf(entries) && id in BatchOf(entries)[t]
        ensures exists j :: 0 <= j < |entries| && entries[j].0 == t && entries[j].1 == id
      {
        if (t, id) != (last.0, last.1) {
          assert BatchOf(entries) == Put(BatchOf(init), last.0, last.1, last.2);
          assert t in BatchOf(init) && id in BatchOf(init)[t];
          var j :| 0 <= j < |init| && init[j].0 == t && init[j].1 == id;
          assert entries[j] == init[j];
        }
      }
    }
  }

  /** Input `i` can be batched: its metadata holds a `(v_id, v_type)` pair and its embedding succeeds. */
  predicate EntryOk(texts: seq<string>, metadatas: seq<Option<(string, string)>>, embed: string -> Result<Json>, i: int)
    requires 0 <= i < |texts|
  {
    i < |metadatas| && metadatas[i].Some? && embed(texts[i]).Ok?
  }

  /** The entries of the first `n` inputs, all of which can be batched. */
  function Entries(texts: seq<string>, metadatas: seq<Option<(string, string)>>, embed: string -> Result<Json>, n: int): (r: seq<Entry>)
    requires 0 <= n <= |texts|
    requires forall i :: 0 <= i < n ==> EntryOk(texts, metadatas, embed, i)
    ensures |r| == n
    ensures forall i :: 0 <= i < n && EntryOk(texts, metadatas, embed, i) ==> r[i] == (metadatas[i].value.1, metadatas[i].value.0, embed(texts[i]).value)
  {
    seq(n, i requires 0 <= i < n && EntryOk(texts, metadatas, embed, i) =>
      (metadatas[i].value.1, metadatas[i].value.0, embed(texts[i]).value))
  }

  lemma EntriesStep(texts: seq<string>, metadatas: seq<Option<(string, string)>>, embed: string -> Result<Json>, n: int)
    requires 0 <= n < |texts|
    requires forall i :: 0 <= i <= n ==> EntryOk(texts, metadatas, embed, i)
    requires EntryOk(texts, metadatas, embed, n)
    ensures Entries(texts, metadatas, embed, n + 1) ==
      Entries(texts, metadatas, embed, n) + [(metadatas[n].value.1, metadatas[n].value.0, embed(texts[n]).value)]
  {
  }

  lemma BatchOfSnoc(entries: seq<Entry>, e: Entry)
    ensures BatchOf(entries + [e]) == Put(BatchOf(entries), e.0, e.1, e.2)
  {
    assert (entries + [e])[..|entries|] == entries;
  }

  /**
   * An upsert answer read as a success: it must be truthy and its first element must
   * exist, so a non-empty list or string. A non-empty dict is truthy but has no key 0,
   * so reading its first element raises, and a truthy number cannot be indexed.
   */
  predicate Registered(added: Json) {
    Truthy(added) && (added.JList? || added.JStr?)
  }

  /**
   * `add_embeddings`. `metadatas[i]` is the "vertex_id" pair of input `i` when it has one
   * (a missing `metadatas` list behaves as an empty one). `embed` is the embedding
   * service and `upsert` the graph upsert. The batch is sent only when every input
   * could be batched; the result is the upsert's answer when it reads as
   * registered, and `None` after any failure.
   */
  method AddEmbeddings(texts: seq<string>, metadatas: seq<Option<(string, string)>>,
                       embed: string -> Result<Json>, upsert: Batch -> Result<Json>)
    returns (sent: Option<Batch>, added: Option<Json>)
    ensures sent.Some? <==> forall i :: 0 <= i < |texts| ==> EntryOk(texts, metadatas, embed, i)
    ensures sent.Some? ==> sent.value == BatchOf(Entries(texts, metadatas, embed, |texts|))
    ensures sent.None? ==> added.None?
    ensures sent.Some? ==>
      added == (var res := upsert(sent.value);
                if res.Ok? && Registered(res.value) then Some(res.value) else None)
  {
    var batch: Batch := map[];
    var i := 0;
    while i < |texts|
      invariant 0 <= i <= |texts|
      invariant forall j :: 0 <= j < i ==> EntryOk(texts, metadatas, embed, j)
      invariant batch == BatchOf(Entries(texts, metadatas, embed, i))
    {
      if i >= |metadatas| || metadatas[i].None? {
        assert !EntryOk(texts, metadatas, embed, i);
        return None, None;
      }
      var (vId, vType) := metadatas[i].value;
      var embedding := embed(texts[i]);
      if embedding.Err? {
        assert !EntryOk(texts, metadatas, embed, i);
        return None, None;
      }
      EntriesStep(texts, metadatas, embed, i);
      BatchOfSnoc(Entries(texts, metadatas, embed, i), (vType, vId, embedding.value));
      batch := Put(batch, vType, vId, embedding.value);
      i := i + 1;
    }
    sent := Some(batch);
    var res := upsert(batch);
    if res.Ok? && Registered(res.value) {
      added := Some(res.value);
    } else {
      added := None;
    }
  }

  // ---------------------------------------------------------------- has_embeddings

  /**
   * Scanning the "results" rows for one with the given v_id, stopping at the first
   * match; a row without "v_id" before that raises (`None`).
   */
  function ScanRows(rows: seq<Json>, vId: string): (r: Option<bool>)
    ensures r == Some(true) ==> exists k :: 0 <= k < |rows| && Index(rows[k], "v_id") == Some(JStr(vId))
    ensures (forall k :: 0 <= k < |rows| ==> Index(rows[k], "v_id").Some? && Index(rows[k], "v_id") != Some(JStr(vId))) ==> r == Some(false)
    ensures forall k :: 0 <= k < |rows| && Index(rows[k], "v_id") == Some(JStr(vId)) && RowsHaveIds(rows[..k]) ==> r == Some(true)
    decreases |rows|
  {
    if rows == [] then Some(false)
    else match Index(rows[0], "v_id")
      case None => None
      case Some(id) =>
        if id == JStr(vId) then Some(true)
        else
          assert forall k :: 1 <= k < |rows| ==> rows[k] == rows[1..][k - 1];
          assert forall k :: 1 <= k <= |rows| ==> rows[..k][1..] == rows[1..][..k - 1];
          ScanRows(rows[1..], vId)
  }

  /** Every row has a "v_id", so reading it does not raise. */
  predicate RowsHaveIds(rows: seq<Json>) {
    forall j :: 0 <= j < |rows| ==> Index(rows[j], "v_id").Some?
  }

  /** Whether one `check_embedding_exists` answer lists the vertex; `None` when reading it raises. */
  function Found(res: Result<Json>, vId: string): Option<bool> {
    if res.Err? || !res.value.JList? || |res.value.items| == 0 || !res.value.items[0].JObj? then None
    else
      var first := res.value.items[0].fields;
      if "results" !in first then Some(false)
      else if !first["results"].JList? then None
      else ScanRows(first["results"].items, vId)
  }

  /**
   * `has_embeddings`: true iff the answer for every `(v_id, v_type)` lists a row with
   * that v_id. Every id is queried, even after a miss; any exception gives false.
   * `query(v_id, v_type)` is the `check_embedding_exists` query.
   */
  method HasEmbeddings(vIds: seq<(string, string)>, query: (string, string) -> Result<Json>) returns (ret: bool)
    ensures ret <==> forall i :: 0 <= i < |vIds| ==> Found(query(vIds[i].0, vIds[i].1), vIds[i].0) == Some(true)
  {
    ret := true;
    var i := 0;
    while i < |vIds|
      invariant 0 <= i <= |vIds|
      invariant forall j :: 0 <= j < i ==> Found(query(vIds[j].0, vIds[j].1), vIds[j].0).Some?
      invariant ret <==> forall j :: 0 <= j < i ==> Found(query(vIds[j].0, vIds[j].1), vIds[j].0) == Some(true)
    {
      var (vId, vType) := vIds[i];
      var found := Found(query(vId, vType), vId);
      if found.None? {
        return false;
      }
      ret := ret && found.value;
      i := i + 1;
    }
  }

  // ---------------------------------------------------------------- retrieve_similar_with_score

  /** One similarity hit: the vertex and its score. */
  datatype Hit = Hit(vId: Json, vType: Json, score: real)

  /** A numeric score as a real; any other value cannot be ordered (`None`). */
  function Score(j: Json): Option<real> {
    match j
    case JInt(i) => Some(i as real)
    case JReal(r) => Some(r)
    case _ => None
  }

  /** The hits of one "results" list; a row lacking v_id, v_type or a numeric score raises. */
  function RowHits(rows: seq<Json>): (r: Option<seq<Hit>>)
    ensures r.Some? ==> |r.value| == |rows|
    decreases |rows|
  {
    if rows == [] then Some([])
    else
      var v := rows[0];
      if !v.JObj? || "v_id" !in v.fields || "v_type" !in v.fields || "score" !in v.fields || Score(v.fields["score"]).None? then None
      else
        match RowHits(rows[1..])
        case None => None
        case Some(rest) => Some([Hit(v.fields["v_id"], v.fields["v_type"], Score(v.fields["score"]).value)] + rest)
  }

  /**
   * The hits of one query answer. `"results" in r` tests a dict's keys, a list's items
   * and a string's substrings, and raises on anything else; a list or string that holds
   * "results" then raises at `r["results"]`. The rows are what iterating the value visits.
   */
  function AnswerHits(r: Json): (h: Option<seq<Hit>>)
    ensures r.JObj? && "results" !in r.fields ==> h == Some([])
    ensures r.JObj? && "results" in r.fields ==>
      (h.Some? <==> Iterated(r.fields["results"]).Some? && RowHits(Iterated(r.fields["results"]).value).Some?)
    ensures r.JList? ==> (h.Some? <==> JStr("results") !in r.items) && (h.Some? ==> h.value == [])
    ensures r.JStr? ==> (h.Some? <==> !Contains(r.s, "results")) && (h.Some? ==> h.value == [])
    ensures !r.JObj? && !r.JList? && !r.JStr? ==> h.None?
  {
    match r
    case JObj(f) =>
      if "results" !in f then Some([])
      else (match Iterated(f["results"])
            case Some(rows) => RowHits(rows)
            case None => None)
    case JList(items) => if JStr("results") in items then None else Some([])
    case JStr(s) => if Contains(s, "results") then None else Some([])
    case _ => None
  }

  /** An empty dict or string of results yields no hits; a string answer naming "results" raises. */
  lemma AnswerHitsEdgeCases()
    ensures AnswerHits(JObj(map["results" := JObj(map[])])) == Some([])
    ensures AnswerHits(JObj(map["results" := JStr("")])) == Some([])
    ensures AnswerHits(JStr("no results")).None?
  {
    assert "no results"[3..][..7] == "results";
  }

  /** The hits of all query answers, in answer order; one answer that raises fails them all. */
  function Hits(verts: seq<Json>): (h: Option<seq<Hit>>)
    ensures h.Some? <==> forall i :: 0 <= i < |verts| ==> AnswerHits(verts[i]).Some?
    decreases |verts|
  {
    if verts == [] then Some([])
    else
      match (AnswerHits(verts[0]), Hits(verts[1..]))
      case (Some(a), Some(b)) => Some(a + b)
      case _ => None
  }

  predicate SortedDesc(s: seq<Hit>) {
    forall i, j :: 0 <= i < j < |s| ==> s[i].score >= s[j].score
  }

  /** A permutation of `s` and `h` scores no more than a bound that `s` and `h` respect. */
  lemma ScoresBounded(rest: seq<Hit>, s: seq<Hit>, h: Hit, top: real)
    requires multiset(rest) == multiset(s) + multiset{h}
    requires h.score <= top && forall k :: 0 <= k < |s| ==> s[k].score <= top
    ensures forall k :: 0 <= k < |rest| ==> rest[k].score <= top
  {
    forall k | 0 <= k < |rest| ensures rest[k].score <= top {
      assert rest[k] in multiset(rest);
      if rest[k] != h {
        assert rest[k] in multiset(s);
        var m :| 0 <= m < |s| && s[m] == rest[k];
      }
    }
  }

  /** Places `h` after every hit scoring at least as much (so equal scores keep their order). */
  function Insert(h: Hit, s: seq<Hit>): (r: seq<Hit>)
    requires SortedDesc(s)
    ensures SortedDesc(r)
    ensures multiset(r) == multiset(s) + multiset{h}
    decreases |s|
  {
    if s == [] then [h]
    else if s[0].score >= h.score then
      var rest := Insert(h, s[1..]);
      assert s == [s[0]] + s[1..];
      ScoresBounded(rest, s[1..], h, s[0].score);
      [s[0]] + rest
    else [h] + s
  }

  /** `similar.sort(key=score, reverse=True)`: a stable sort by descending score. */
  function SortDesc(s: seq<Hit>): (r: seq<Hit>)
    ensures SortedDesc(r)
    ensures multiset(r) == multiset(s)
    decreases |s|
  {
    if s == [] then []
    else
      assert s == s[..|s| - 1] + [s[|s| - 1]];
      Insert(s[|s| - 1], SortDesc(s[..|s| - 1]))
  }

  /** The index of the first hit scoring below `threshold`. */
  function FirstBelow(s: seq<Hit>, threshold: real): (r: Option<nat>)
    ensures r.Some? ==> r.value < |s| && s[r.value].score < threshold
    ensures r.Some? ==> forall k :: 0 <= k < r.value ==> s[k].score >= threshold
    ensures r.None? ==> forall k :: 0 <= k < |s| ==> s[k].score >= threshold
    decreases |s|
  {
    if s == [] then None
    else if s[0].score < threshold then Some(0)
    else match FirstBelow(s[1..], threshold)
      case None => None
      case Some(k) => Some(k + 1)
  }

  /** The first hit below threshold is the only candidate. */
  lemma FirstBelowAt(s: seq<Hit>, threshold: real, k: int)
    requires 0 <= k < |s| && s[k].score < threshold
    requires forall j :: 0 <= j < k ==> s[j].score >= threshold
    ensures FirstBelow(s, threshold) == Some(k)
  {
  }

  /** The value of the loop variable after the scan: the first index below threshold, else len-1, else 0. */
  function CutIndex(s: seq<Hit>, threshold: real): nat {
    match FirstBelow(s, threshold)
    case Some(k) => k
    case None => if |s| == 0 then 0 else |s| - 1
  }

  /** Python's `s[:n]`, where a negative `n` counts from the end. */
  function Prefix(s: seq<Hit>, n: int): (r: seq<Hit>)
    ensures |r| <= |s| && r == s[..|r|]
  {
    if n >= 0 then s[..if n < |s| then n else |s|]
    else s[..if |s| + n > 0 then |s| + n else 0]
  }

  /** The cut: the first `top_k` hits when the scan index is at most `top_k`, else the first `i`. */
  function Cut(s: seq<Hit>, topK: int, threshold: real): seq<Hit> {
    var i := CutIndex(s, threshold);
    if i <= topK then Prefix(s, topK) else Prefix(s, i)
  }

  /** The scan of the source: a `for i in range(len(similar))` loop that breaks at the first hit below threshold. */
  method CutSimilar(similar: seq<Hit>, topK: int, threshold: real) returns (result: seq<Hit>)
    ensures result == Cut(similar, topK, threshold)
  {
    var i := 0;
    var k := 0;
    while k < |similar|
      invariant 0 <= k <= |similar|
      invariant forall j :: 0 <= j < k ==> similar[j].score >= threshold
      invariant i == if k == 0 then 0 else k - 1
    {
      i := k;
      if similar[k].score < threshold {
        break;
      }
      k := k + 1;
    }
    if k < |similar| {
      FirstBelowAt(similar, threshold, k);
    }
    if i <= topK {
      result := Prefix(similar, topK);
    } else {
      result := Prefix(similar, i);
    }
  }

  /** The cut keeps a prefix holding at least `min(top_k, len)` hits, and every hit past `top_k` scores at least the threshold. */
  lemma CutBounds(s: seq<Hit>, topK: int, threshold: real)
    ensures var r := Cut(s, topK, threshold);
      && |r| <= |s| && r == s[..|r|]
      && (topK >= 0 ==> |r| >= if topK < |s| then topK else |s|)
      && forall k :: 0 <= k < |r| && k >= topK ==> r[k].score >= threshold
  {
    var i := CutIndex(s, threshold);
    var r := Cut(s, topK, threshold);
    if i > topK {
      forall k | 0 <= k < |r| && k >= topK
        ensures r[k].score >= threshold
      {
        assert r[k] == s[k];
      }
    }
  }

  /** The cut can return more than `top_k` hits, and drops the last hit when none is below the threshold. */
  lemma CutExceedsTopK()
    ensures var s := [Hit(JStr("a"), JStr("T"), 0.99), Hit(JStr("b"), JStr("T"), 0.98), Hit(JStr("c"), JStr("T"), 0.97)];
      Cut(s, 1, 0.9) == s[..2]
  {
    var s := [Hit(JStr("a"), JStr("T"), 0.99), Hit(JStr("b"), JStr("T"), 0.98), Hit(JStr("c"), JStr("T"), 0.97)];
    assert FirstBelow(s, 0.9) == None;
  }

  /** The `get_topk_similar` query: vertex types, query vector, number of candidates, filter. */
  datatype SimilarQuery = SimilarQuery(vertexTypes: seq<string>, queryVector: Json, topK: int, expr: Json)

  /**
   * `retrieve_similar_with_score`: asks for `2 * top_k` candidates, sorts them by
   * descending score and cuts. A failing query or malformed answer raises.
   */
  method RetrieveSimilarWithScore(queryEmbedding: Json, topK: int, threshold: real, filterExpr: Json,
                                  vertexTypes: seq<string>, run: SimilarQuery -> Result<seq<Json>>)
    returns (r: Result<seq<Hit>>)
    ensures var q := run(SimilarQuery(vertexTypes, queryEmbedding, 2 * topK, filterExpr));
      r.Ok? <==> q.Ok? && Hits(q.value).Some?
    ensures r.Ok? ==> var q := run(SimilarQuery(vertexTypes, queryEmbedding, 2 * topK, filterExpr));
      r.value == Cut(SortDesc(Hits(q.value).value), topK, threshold)
    ensures r.Ok? ==> SortedDesc(r.value)
  {
    var verts := run(SimilarQuery(vertexTypes, queryEmbedding, topK * 2, filterExpr));
    if verts.Err? {
      return Err(verts.error);
    }
    var hits := Hits(verts.value);
    if hits.None? {
      return Err("KeyError");
    }
    var similar := SortDesc(hits.value);
    var result := CutSimilar(similar, topK, threshold);
    CutBounds(similar, topK, threshold);
    r := Ok(result);
  }

  // ---------------------------------------------------------------- aget_k_closest

  /** Both parts present, concatenated; otherwise the failure. */
  function Cat(a: Option<seq<Json>>, b: Option<seq<Json>>): Option<seq<Json>> {
    if a.Some? && b.Some? then Some(a.value + b.value) else None
  }

  /**
   * The v_ids of one answer's rows. As for the hits, `"results" in r` tests a dict's keys,
   * a list's items and a string's substrings and raises on anything else, a list or
   * string holding "results" raises at `r["results"]`, and the rows are what iterating
   * the value visits.
   */
  function AnswerIds(r: Json): (ids: Option<seq<Json>>)
    ensures r.JObj? && "results" !in r.fields ==> ids == Some([])
    ensures r.JObj? && "results" in r.fields ==>
      (ids.Some? <==> Iterated(r.fields["results"]).Some? && RowIds(Iterated(r.fields["results"]).value).Some?)
    ensures r.JList? ==> (ids.Some? <==> JStr("results") !in r.items) && (ids.Some? ==> ids.value == [])
    ensures r.JStr? ==> (ids.Some? <==> !Contains(r.s, "results")) && (ids.Some? ==> ids.value == [])
    ensures !r.JObj? && !r.JList? && !r.JStr? ==> ids.None?
  {
    match r
    case JObj(f) =>
      if "results" !in f then Some([])
      else (match Iterated(f["results"])
            case Some(rows) => RowIds(rows)
            case None => None)
    case JList(items) => if JStr("results") in items then None else Some([])
    case JStr(s) => if Contains(s, "results") then None else Some([])
    case _ => None
  }

  /** The inputs on which reading the ids is easy to get wrong. */
  lemma AnswerIdsEdgeCases()
    ensures AnswerIds(JObj(map["results" := JObj(map[])])) == Some([])
    ensures AnswerIds(JObj(map["results" := JStr("")])) == Some([])
    ensures AnswerIds(JStr("no results")).None?
    ensures AnswerIds(JList([JStr("results")])).None?
    ensures AnswerIds(JInt(5)).None? && AnswerIds(JNull).None?
  {
    assert "no results"[3..][..7] == "results";
  }

  /** A value `set()` accepts: dicts and lists are unhashable. */
  predicate Hashable(j: Json) {
    !j.JObj? && !j.JList?
  }

  /** The v_ids of all rows of all answers that hold "results"; a row without "v_id" raises. */
  function ClosestIds(verts: seq<Json>): Option<seq<Json>>
    decreases |verts|
  {
    if verts == [] then Some([])
    else Cat(AnswerIds(verts[0]), ClosestIds(verts[1..]))
  }

  function RowIds(rows: seq<Json>): (r: Option<seq<Json>>)
    ensures r.Some? ==> |r.value| == |rows| && forall k :: 0 <= k < |rows| ==> Index(rows[k], "v_id") == Some(r.value[k])
    ensures r.None? ==> exists k :: 0 <= k < |rows| && Index(rows[k], "v_id").None?
    decreases |rows|
  {
    if rows == [] then Some([])
    else
      var rest := RowIds(rows[1..]);
      assert forall k :: 1 <= k < |rows| ==> rows[k] == rows[1..][k - 1];
      if Index(rows[0], "v_id").None? then None
      else if rest.None? then None
      else Some([Index(rows[0], "v_id").value] + rest.value)
  }

  lemma CatAssoc(h: Option<seq<Json>>, x: Option<seq<Json>>, y: Option<seq<Json>>)
    ensures Cat(h, Cat(x, y)) == Cat(Cat(h, x), y)
  {
    if h.Some? && x.Some? && y.Some? {
      assert h.value + (x.value + y.value) == (h.value + x.value) + y.value;
    }
  }

  lemma {:induction false} ClosestIdsConcat(a: seq<Json>, b: seq<Json>)
    ensures ClosestIds(a + b) == Cat(ClosestIds(a), ClosestIds(b))
    decreases |a|
  {
    if a == [] {
      assert a + b == b;
      if ClosestIds(b).Some? {
        assert [] + ClosestIds(b).value == ClosestIds(b).value;
      }
    } else {
      assert (a + b)[0] == a[0];
      assert (a + b)[1..] == a[1..] + b;
      var h, x, y := AnswerIds(a[0]), ClosestIds(a[1..]), ClosestIds(b);
      assert ClosestIds(a + b) == Cat(h, ClosestIds(a[1..] + b));
      assert ClosestIds(a) == Cat(h, x);
      ClosestIdsConcat(a[1..], b);
      CatAssoc(h, x, y);
    }
  }

  /** A row whose v_id is a list is collected, and then `set` refuses it. */
  lemma ClosestIdsUnhashable()
    ensures var ids := ClosestIds([JObj(map["results" := JList([JObj(map["v_id" := JList([])])])])]);
      ids.Some? && exists x :: x in ids.value && !Hashable(x)
  {
    var row := JObj(map["v_id" := JList([])]);
    assert Index(row, "v_id") == Some(JList([]));
    assert [row][1..] == [];
    assert RowIds([]) == Some([]);
    assert [JList([])] + [] == [JList([])];
    assert RowIds([row]) == Some([JList([])]);
    var answer := JObj(map["results" := JList([row])]);
    assert AnswerIds(answer) == Some([JList([])]);
    assert [answer][1..] == [];
    assert ClosestIds([]) == Some([]);
    assert ClosestIds([answer]) == Some([JList([])]);
    assert JList([]) in [JList([])];
  }

  /**
   * `aget_k_closest`: the set of v_ids the `get_topk_closest` answers list; `None` when
   * reading an answer or a row raises, or when `set` meets an unhashable id.
   */
  method KClosest(verts: seq<Json>) returns (r: Option<set<Json>>)
    ensures r.None? <==> ClosestIds(verts).None? || exists x :: x in ClosestIds(verts).value && !Hashable(x)
    ensures r.Some? ==> r.value == set x | x in ClosestIds(verts).value
  {
    var result: seq<Json> := [];
    var i := 0;
    while i < |verts|
      invariant 0 <= i <= |verts|
      invariant ClosestIds(verts[..i]) == Some(result)
    {
      assert verts[..i + 1] == verts[..i] + [verts[i]];
      ClosestIdsConcat(verts[..i], [verts[i]]);
      assert ClosestIds([verts[i]]) == AnswerIds(verts[i]) by {
        assert [verts[i]][1..] == [];
        if AnswerIds(verts[i]).Some? {
          assert AnswerIds(verts[i]).value + [] == AnswerIds(verts[i]).value;
        }
      }
      assert verts == verts[..i + 1] + verts[i + 1..];
      ClosestIdsConcat(verts[..i + 1], verts[i + 1..]);
      var ids := AnswerIds(verts[i]);
      if ids.None? {
        return None;
      }
      result := result + ids.value;
      i := i + 1;
    }
    assert verts[..i] == verts;
    if exists k :: 0 <= k < |result| && !Hashable(result[k]) {
      return None;
    }
    r := Some(set x | x in result);
  }
}
