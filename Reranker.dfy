/** The re-ranker of src/reranker.py: the re-ranking service path (request, choice of the response
    shape, entry parsing, reordering and the fallback to reciprocal rank fusion), the `rerank`
    entry point and the merge of several queries' result lists. */
module Reranker {
  import opened Common
  import opened PyValue
  import opened Candidates
  import Config
  import opened Fusion

  /** What a `Reranker` keeps from its construction; nothing changes it afterwards. */
  datatype Settings = Settings(rerankUrl: string, useRerankerApi: bool, topK: int)

  /** `Reranker(rerank_url, use_reranker_api)`: a missing or empty URL means the configured one. */
  function NewReranker(rerankUrl: Option<string>, configuredUrl: string, useRerankerApi: bool): (r: Settings)
    ensures r.topK == Config.RERANK_TOP_K && r.useRerankerApi == useRerankerApi
    ensures rerankUrl.Some? && rerankUrl.value != "" ==> r.rerankUrl == rerankUrl.value
    ensures rerankUrl.None? || rerankUrl.value == "" ==> r.rerankUrl == configuredUrl
  {
    Settings(StrOr(rerankUrl, configuredUrl), useRerankerApi, Config.RERANK_TOP_K)
  }

  // ---------------------------------------------------------------------------------------------
  // The request

  /** `[result["text"] for result in results]`: None when some result has no text (KeyError). */
  function RequestTexts(results: seq<Candidate>): (r: Option<seq<string>>)
    ensures r.Some? <==> forall i :: 0 <= i < |results| ==> results[i].text.Some?
    ensures r.Some? ==> |r.value| == |results| && forall i :: 0 <= i < |results| ==> r.value[i] == results[i].text.value
  {
    if results == [] then Some([])
    else match RequestTexts(results[..|results| - 1])
      case None => None
      case Some(init) =>
        match results[|results| - 1].text
        case None => None
        case Some(t) => Some(init + [t])
  }

  /** The JSON body posted to the re-ranking service. */
  function RerankPayload(query: string, documents: seq<string>, topK: int): (r: Json)
    ensures r.JObj? && r.fields.Keys == {"query", "documents", "model", "top_k"}
    ensures r.fields["documents"].JArr? && |r.fields["documents"].items| == |documents|
    ensures forall i :: 0 <= i < |documents| ==> r.fields["documents"].items[i] == JStr(documents[i])
    ensures r.fields["model"] == JStr(Config.RERANK_MODEL) && r.fields["top_k"] == JInt(topK)
  {
    JObj(map[
      "query" := JStr(query),
      "documents" := JArr(seq(|documents|, i requires 0 <= i < |documents| => JStr(documents[i]))),
      "model" := JStr(Config.RERANK_MODEL),
      "top_k" := JInt(topK)])
  }

  // ---------------------------------------------------------------------------------------------
  // Choosing the response shape

  /** Which list of entries the reply is read from, and whether `relevance_score` is preferred to
      `score` in it; or that reading the reply raises; or that no shape applies. */
  datatype Selection = Raises | NoEntries | Entries(items: seq<Json>, relevanceFirst: bool)

  /** The debug line for a dict reply with a truthy "results" reads `result['results'][0]`, which
      raises for a dict (KeyError, JSON keys are strings), a number or a boolean (TypeError). */
  predicate DebugProbeRaises(reply: Json) {
    reply.JObj? && "results" in reply.fields && Truthy(reply.fields["results"])
    && !reply.fields["results"].JArr? && !reply.fields["results"].JStr?
  }

  /** The shape is chosen by the first key that is present with a list under it, in the order
      ranked_documents, results, data, top-level list, result; `key in reply` on a list tests
      membership and on a string tests for a substring, and the subscript that follows raises. */
  function SelectEntries(reply: Json): Selection {
    if DebugProbeRaises(reply) then Raises
    else match reply
      case JObj(m) =>
        if "ranked_documents" in m && m["ranked_documents"].JArr? then Entries(m["ranked_documents"].items, false)
        else if "results" in m && m["results"].JArr? then Entries(m["results"].items, true)
        else if "data" in m && m["data"].JArr? then Entries(m["data"].items, false)
        else if "result" in m then
          (match m["result"]
           case JArr(items) => Entries(items, false)
           case JObj(nested) =>
             if "results" !in nested then NoEntries
             else
               (match nested["results"]
                case JArr(items) => Entries(items, true)
                case JStr(_) => NoEntries   // iterating a string yields no dicts
                case JObj(_) => NoEntries   // iterating a dict yields its string keys
                case _ => Raises)           // None, a number or a boolean is not iterable
           case _ => NoEntries)
        else NoEntries
      case JArr(items) =>
        if JStr("ranked_documents") in items || JStr("results") in items || JStr("data") in items then Raises
        else Entries(items, false)
      case JStr(s) =>
        if Contains(s, "ranked_documents") || Contains(s, "results") || Contains(s, "data") || Contains(s, "result")
        then Raises
        else NoEntries
      case _ => Raises
  }

  /** A dict reply is read from the first of its keys, in the code's order, that holds a list:
      ranked_documents, results, data, then result (a list, or a dict whose results is a list).
      Only results and result.results prefer relevance_score to score. */
  lemma ReplyShapePrecedence(m: map<string, Json>)
    requires !DebugProbeRaises(JObj(m))
    ensures var rankedList := "ranked_documents" in m && m["ranked_documents"].JArr?;
      var resultsList := "results" in m && m["results"].JArr?;
      var dataList := "data" in m && m["data"].JArr?;
      (rankedList ==> SelectEntries(JObj(m)) == Entries(m["ranked_documents"].items, false))
      && (!rankedList && resultsList ==> SelectEntries(JObj(m)) == Entries(m["results"].items, true))
      && (!rankedList && !resultsList && dataList ==> SelectEntries(JObj(m)) == Entries(m["data"].items, false))
      && (!rankedList && !resultsList && !dataList && "result" in m && m["result"].JArr? ==>
            SelectEntries(JObj(m)) == Entries(m["result"].items, false))
      && (!rankedList && !resultsList && !dataList && "result" in m && m["result"].JObj?
          && "results" in m["result"].fields && m["result"].fields["results"].JArr? ==>
            SelectEntries(JObj(m)) == Entries(m["result"].fields["results"].items, true))
      && (!rankedList && !resultsList && !dataList && "result" !in m ==> SelectEntries(JObj(m)) == NoEntries)
  {
  }

  /** A top-level list is read whole, unless one of the key strings tested before the list branch
      is an element of it, in which case the subscript that follows raises. */
  lemma ListReplyShape(items: seq<Json>)
    ensures var named := JStr("ranked_documents") in items || JStr("results") in items || JStr("data") in items;
      (named ==> SelectEntries(JArr(items)) == Raises)
      && (!named ==> SelectEntries(JArr(items)) == Entries(items, false))
  {
  }

  /** The score of an entry is its preferred key, then the other key, then 0.0. */
  lemma EntryScorePrefers(item: map<string, Json>)
    ensures "relevance_score" in item ==> EntryScore(item, true) == item["relevance_score"]
    ensures "relevance_score" !in item && "score" in item ==> EntryScore(item, true) == item["score"]
    ensures "score" in item ==> EntryScore(item, false) == item["score"]
    ensures "score" !in item && "relevance_score" in item ==> EntryScore(item, false) == item["relevance_score"]
    ensures "score" !in item && "relevance_score" !in item ==>
      EntryScore(item, true) == JNum(0.0) && EntryScore(item, false) == JNum(0.0)
  {
  }

  // ---------------------------------------------------------------------------------------------
  // Parsing the entries

  /** The entry's index: "index", else "rank", else the number of entries parsed before it. */
  function EntryIndex(item: map<string, Json>, count: nat): Json {
    Get(item, "index", Get(item, "rank", JInt(count)))
  }

  /** The entry's score, preferring "relevance_score" only in the shapes that do, 0.0 by default. */
  function EntryScore(item: map<string, Json>, relevanceFirst: bool): Json {
    if relevanceFirst then Get(item, "relevance_score", Get(item, "score", JNum(0.0)))
    else Get(item, "score", Get(item, "relevance_score", JNum(0.0)))
  }

  /** The dict items of a list, in order; the others are skipped. */
  function Dicts(items: seq<Json>): seq<map<string, Json>> {
    if items == [] then []
    else Dicts(items[..|items| - 1]) + (if items[|items| - 1].JObj? then [items[|items| - 1].fields] else [])
  }

  /** `reranked_indices` and `reranked_scores` (a dict, so keyed by the hashed index). */
  datatype Parsed = Parsed(indices: seq<Json>, scores: map<Key, Json>)

  /** The parsing loop over the chosen items; None when an index is a list or a dict, which cannot
      be a dict key (TypeError). */
  function ParseItems(items: seq<Json>, relevanceFirst: bool): Option<Parsed> {
    if items == [] then Some(Parsed([], map[]))
    else
      match ParseItems(items[..|items| - 1], relevanceFirst)
      case None => None
      case Some(p) =>
        match items[|items| - 1]
        case JObj(item) =>
          var idx := EntryIndex(item, |p.indices|);
          (match HashKey(idx)
           case None => None
           case Some(key) => Some(Parsed(p.indices + [idx], p.scores[key := EntryScore(item, relevanceFirst)])))
        case _ => Some(p)
  }

  /** Parsing succeeds exactly when every dict item's index is hashable, and then yields one index
      per dict item, in order, each from "index", "rank" or the running count. */
  lemma {:induction false} ParsedIndices(items: seq<Json>, rf: bool)
    ensures ParseItems(items, rf).Some? <==>
      forall j :: 0 <= j < |Dicts(items)| ==> HashKey(EntryIndex(Dicts(items)[j], j)).Some?
    ensures ParseItems(items, rf).Some? ==>
      |ParseItems(items, rf).value.indices| == |Dicts(items)|
      && forall j :: 0 <= j < |Dicts(items)| ==> ParseItems(items, rf).value.indices[j] == EntryIndex(Dicts(items)[j], j)
    decreases |items|
  {
    if items != [] {
      var init := items[..|items| - 1];
      ParsedIndices(init, rf);
      var last := items[|items| - 1];
      if last.JObj? {
        var ds := Dicts(init);
        assert Dicts(items) == ds + [last.fields];
        assert forall j :: 0 <= j < |ds| ==> Dicts(items)[j] == ds[j];
        if ParseItems(init, rf).None? {
          var j :| 0 <= j < |ds| && HashKey(EntryIndex(ds[j], j)).None?;
          assert Dicts(items)[j] == ds[j];
        } else {
          var q := ParseItems(init, rf).value;
          assert Dicts(items)[|ds|] == last.fields;
          assert EntryIndex(last.fields, |q.indices|) == EntryIndex(Dicts(items)[|ds|], |ds|);
          if ParseItems(items, rf).Some? {
            var p := ParseItems(items, rf).value;
            assert p.indices == q.indices + [EntryIndex(last.fields, |q.indices|)];
          }
        }
      } else {
        assert Dicts(items) == Dicts(init);
      }
    }
  }

  /** Index j is the last parsed index with its key. */
  ghost predicate LastWithKey(indices: seq<Json>, j: nat) {
    j < |indices| && forall j2 :: j < j2 < |indices| ==> HashKey(indices[j2]) != HashKey(indices[j])
  }

  /** The score table of a parse over the dict items ds: a key for every parsed index and no other,
      each holding the score of the last entry whose index hashes alike (True, 1 and 1.0 are one key). */
  ghost predicate ScoresOfLast(p: Parsed, ds: seq<map<string, Json>>, rf: bool) {
    |p.indices| == |ds|
    && (forall j :: 0 <= j < |p.indices| ==> HashKey(p.indices[j]).Some?)
    && (forall k :: k in p.scores <==> exists j :: 0 <= j < |p.indices| && HashKey(p.indices[j]) == Some(k))
    && (forall j :: 0 <= j < |p.indices| && LastWithKey(p.indices, j) ==>
          HashKey(p.indices[j]).value in p.scores
          && p.scores[HashKey(p.indices[j]).value] == EntryScore(ds[j], rf))
  }

  /** Filing one more index keeps the table's keys exactly the keys of the indices. */
  lemma ScoreKeysStep(indices: seq<Json>, scores: map<Key, Json>, idx: Json, v: Json)
    requires forall k :: k in scores <==> exists j :: 0 <= j < |indices| && HashKey(indices[j]) == Some(k)
    requires HashKey(idx).Some?
    ensures var indices', scores' := indices + [idx], scores[HashKey(idx).value := v];
      forall k :: k in scores' <==> exists j :: 0 <= j < |indices'| && HashKey(indices'[j]) == Some(k)
  {
    var indices', scores' := indices + [idx], scores[HashKey(idx).value := v];
    var n := |indices|;
    forall k ensures k in scores' <==> exists j :: 0 <= j < |indices'| && HashKey(indices'[j]) == Some(k) {
      if k in scores' {
        if k != HashKey(idx).value {
          var j :| 0 <= j < n && HashKey(indices[j]) == Some(k);
          assert indices'[j] == indices[j];
        } else {
          assert indices'[n] == idx;
        }
      }
      if exists j :: 0 <= j < |indices'| && HashKey(indices'[j]) == Some(k) {
        var j :| 0 <= j < |indices'| && HashKey(indices'[j]) == Some(k);
        if j < n {
          assert indices'[j] == indices[j];
        }
      }
    }
  }

  /** Filing one more entry keeps, for each index that is the last with its key, that entry's score. */
  lemma LastScoresStep(indices: seq<Json>, scores: map<Key, Json>, ds: seq<map<string, Json>>, rf: bool,
                       d: map<string, Json>, idx: Json)
    requires |indices| == |ds| && HashKey(idx).Some?
    requires forall j :: 0 <= j < |indices| ==> HashKey(indices[j]).Some?
    requires forall j :: 0 <= j < |indices| && LastWithKey(indices, j) ==>
      HashKey(indices[j]).value in scores && scores[HashKey(indices[j]).value] == EntryScore(ds[j], rf)
    ensures var indices', scores' := indices + [idx], scores[HashKey(idx).value := EntryScore(d, rf)];
      forall j :: 0 <= j < |indices'| && LastWithKey(indices', j) ==>
        HashKey(indices'[j]).value in scores' && scores'[HashKey(indices'[j]).value] == EntryScore((ds + [d])[j], rf)
  {
    var indices', scores' := indices + [idx], scores[HashKey(idx).value := EntryScore(d, rf)];
    var n := |indices|;
    forall j | 0 <= j < |indices'| && LastWithKey(indices', j)
      ensures HashKey(indices'[j]).value in scores'
      ensures scores'[HashKey(indices'[j]).value] == EntryScore((ds + [d])[j], rf)
    {
      if j < n {
        assert indices'[n] == idx && indices'[j] == indices[j];
        assert HashKey(indices'[n]) != HashKey(indices'[j]);
        assert LastWithKey(indices, j) by {
          forall j2 | j < j2 < n ensures HashKey(indices[j2]) != HashKey(indices[j]) {
            assert indices'[j2] == indices[j2];
          }
        }
        assert (ds + [d])[j] == ds[j];
      }
    }
  }

  /** One more parsed entry keeps the score table in shape. */
  lemma ScoresOfLastStep(q: Parsed, ds: seq<map<string, Json>>, rf: bool, d: map<string, Json>, idx: Json)
    requires ScoresOfLast(q, ds, rf) && HashKey(idx).Some?
    ensures ScoresOfLast(Parsed(q.indices + [idx], q.scores[HashKey(idx).value := EntryScore(d, rf)]), ds + [d], rf)
  {
    var p := Parsed(q.indices + [idx], q.scores[HashKey(idx).value := EntryScore(d, rf)]);
    assert forall j :: 0 <= j < |q.indices| ==> p.indices[j] == q.indices[j];
    ScoreKeysStep(q.indices, q.scores, idx, EntryScore(d, rf));
    LastScoresStep(q.indices, q.scores, ds, rf, d, idx);
  }

  /** The parse's score table is in shape: every parsed index has its key, with its last score. */
  lemma {:induction false} ParsedScores(items: seq<Json>, rf: bool)
    requires ParseItems(items, rf).Some?
    ensures ScoresOfLast(ParseItems(items, rf).value, Dicts(items), rf)
    decreases |items|
  {
    if items != [] {
      var init := items[..|items| - 1];
      var last := items[|items| - 1];
      ParsedScores(init, rf);
      ParsedIndices(init, rf);
      var q := ParseItems(init, rf).value;
      if last.JObj? {
        var idx := EntryIndex(last.fields, |q.indices|);
        ScoresOfLastStep(q, Dicts(init), rf, last.fields, idx);
      } else {
        assert Dicts(items) == Dicts(init);
      }
    }
  }

  /** A parse that fails on a prefix of the items fails on all of them: the loop raises there. */
  lemma {:induction false} ParseFailureSticks(items: seq<Json>, rf: bool, n: nat)
    requires n <= |items| && ParseItems(items[..n], rf).None?
    ensures ParseItems(items, rf).None?
    decreases |items| - n
  {
    if n < |items| {
      assert items[..n + 1][..n] == items[..n];
      ParseFailureSticks(items, rf, n + 1);
    } else {
      assert items[..n] == items;
    }
  }

  /** The parsing loops of `_rerank_with_api`: they grow the index list and the score dict. */
  method ParseEntries(items: seq<Json>, relevanceFirst: bool) returns (r: Option<Parsed>)
    ensures r == ParseItems(items, relevanceFirst)
  {
    var indices: seq<Json> := [];
    var scores: map<Key, Json> := map[];
    var i := 0;
    while i < |items|
      invariant 0 <= i <= |items|
      invariant ParseItems(items[..i], relevanceFirst) == Some(Parsed(indices, scores))
    {
      assert items[..i + 1][..i] == items[..i];
      match items[i] {
        case JObj(item) =>
          var idx := EntryIndex(item, |indices|);
          var key := HashKey(idx);
          if key.None? {
            ParseFailureSticks(items, relevanceFirst, i + 1);
            return None;
          }
          indices := indices + [idx];
          scores := scores[key.value := EntryScore(item, relevanceFirst)];
        case _ =>
      }
      i := i + 1;
    }
    assert items[..i] == items;
    r := Some(Parsed(indices, scores));
  }

  // ---------------------------------------------------------------------------------------------
  // Reordering

  /** What `if idx < len(results): results[idx]` does with one parsed index over n results. */
  datatype Pick = Raise | Skip | At(pos: nat)

  /** Only `idx < n` is tested: a negative integer counts from the end and one below -n raises
      IndexError; True and False index 1 and 0; a float below n raises TypeError when used as an
      index; a string or None raises TypeError at the comparison. */
  function PickIndex(idx: Json, n: nat): (r: Pick)
    ensures r.At? ==> r.pos < n
    ensures idx.JInt? && 0 <= idx.i < n ==> r == At(idx.i)
    ensures idx.JInt? && -(n as int) <= idx.i < 0 ==> r == At(n + idx.i)
    ensures idx.JBool? && (if idx.b then 1 else 0) < n ==> r == At(if idx.b then 1 else 0)
    ensures r.Raise? <==> (idx.JInt? && idx.i < -(n as int)) || (idx.JNum? && idx.r < n as real)
                          || !(idx.JInt? || idx.JNum? || idx.JBool?)
    ensures r.Skip? <==> (idx.JInt? && idx.i >= n) || (idx.JNum? && idx.r >= n as real)
                         || (idx.JBool? && (if idx.b then 1 else 0) >= n)
  {
    match idx
    case JInt(i) =>
      if i >= n then Skip
      else if i >= 0 then At(i)
      else if i >= -(n as int) then At(n + i)
      else Raise
    case JBool(b) =>
      var i := if b then 1 else 0;
      if i < n then At(i) else Skip
    case JNum(x) => if x < n as real then Raise else Skip
    case _ => Raise
  }

  /** `reranked_scores.get(idx, 0.0)`. */
  function ScoreOf(scores: map<Key, Json>, idx: Json): Json {
    match HashKey(idx)
    case Some(key) => if key in scores then scores[key] else JNum(0.0)
    case None => JNum(0.0)
  }

  /** The reorder loop over a window of parsed indices: a copy of the picked result carrying its
      score per in-range index; None when an index raises. */
  function ReorderFrom(results: seq<Candidate>, idxs: seq<Json>, scores: map<Key, Json>): Option<seq<Candidate>> {
    if idxs == [] then Some([])
    else
      match ReorderFrom(results, idxs[..|idxs| - 1], scores)
      case None => None
      case Some(out) =>
        var idx := idxs[|idxs| - 1];
        match PickIndex(idx, |results|)
        case Raise => None
        case Skip => Some(out)
        case At(p) => Some(out + [results[p].(rerankScore := Some(ScoreOf(scores, idx)))])
  }

  /** The reorder raises exactly when one index of the window does. */
  lemma {:induction false} ReorderFails(results: seq<Candidate>, idxs: seq<Json>, scores: map<Key, Json>)
    ensures ReorderFrom(results, idxs, scores).None? <==>
      exists t :: 0 <= t < |idxs| && PickIndex(idxs[t], |results|).Raise?
    decreases |idxs|
  {
    if idxs != [] {
      var init := idxs[..|idxs| - 1];
      ReorderFails(results, init, scores);
      if exists t :: 0 <= t < |init| && PickIndex(init[t], |results|).Raise? {
        var t :| 0 <= t < |init| && PickIndex(init[t], |results|).Raise?;
        assert idxs[t] == init[t];
      }
      if exists t :: 0 <= t < |idxs| && PickIndex(idxs[t], |results|).Raise? {
        var t :| 0 <= t < |idxs| && PickIndex(idxs[t], |results|).Raise?;
        if t < |init| {
          assert init[t] == idxs[t];
        }
      }
    }
  }

  /** The reordered list holds, in window order, one copy per index that picks a result, carrying
      that index's score and otherwise equal to the picked input; every other index is skipped. */
  lemma {:induction false} ReorderedCopies(results: seq<Candidate>, idxs: seq<Json>, scores: map<Key, Json>)
    returns (w: seq<nat>)
    requires ReorderFrom(results, idxs, scores).Some?
    ensures |w| == |ReorderFrom(results, idxs, scores).value| <= |idxs|
    ensures forall j :: 0 <= j < |w| ==> w[j] < |idxs| && PickIndex(idxs[w[j]], |results|).At?
    ensures forall j :: 0 <= j < |w| ==>
      ReorderFrom(results, idxs, scores).value[j] ==
      results[PickIndex(idxs[w[j]], |results|).pos].(rerankScore := Some(ScoreOf(scores, idxs[w[j]])))
    ensures forall j1, j2 :: 0 <= j1 < j2 < |w| ==> w[j1] < w[j2]
    ensures forall t :: 0 <= t < |idxs| && t !in w ==> PickIndex(idxs[t], |results|).Skip?
    decreases |idxs|
  {
    if idxs == [] {
      w := [];
    } else {
      var n := |idxs| - 1;
      var init := idxs[..n];
      assert ReorderFrom(results, init, scores).Some?;
      var w0 := ReorderedCopies(results, init, scores);
      var out0 := ReorderFrom(results, init, scores).value;
      var out := ReorderFrom(results, idxs, scores).value;
      var pick := PickIndex(idxs[n], |results|);
      if pick.At? {
        w := w0 + [n];
        assert out == out0 + [results[pick.pos].(rerankScore := Some(ScoreOf(scores, idxs[n])))];
      } else {
        assert pick.Skip? && out == out0;
        w := w0;
      }
      forall j | 0 <= j < |w|
        ensures w[j] < |idxs| && PickIndex(idxs[w[j]], |results|).At?
        ensures out[j] == results[PickIndex(idxs[w[j]], |results|).pos].(rerankScore := Some(ScoreOf(scores, idxs[w[j]])))
      {
        if j < |w0| {
          assert w[j] == w0[j] && idxs[w0[j]] == init[w0[j]] && out[j] == out0[j];
        }
      }
      forall t | 0 <= t < |idxs| && t !in w ensures PickIndex(idxs[t], |results|).Skip? {
        if t < n {
          assert idxs[t] == init[t] && t !in w0;
        }
      }
    }
  }

  /** With every index an integer within bounds, each index yields exactly one copy, in order. */
  lemma {:induction false} InRangeIndicesAllEmitted(results: seq<Candidate>, idxs: seq<Json>, scores: map<Key, Json>)
    requires forall t :: 0 <= t < |idxs| ==> idxs[t].JInt? && 0 <= idxs[t].i < |results|
    ensures ReorderFrom(results, idxs, scores).Some?
    ensures |ReorderFrom(results, idxs, scores).value| == |idxs|
    ensures forall t :: 0 <= t < |idxs| ==>
      ReorderFrom(results, idxs, scores).value[t] ==
      results[idxs[t].i].(rerankScore := Some(ScoreOf(scores, idxs[t])))
    decreases |idxs|
  {
    if idxs != [] {
      var init := idxs[..|idxs| - 1];
      assert forall t :: 0 <= t < |init| ==> init[t] == idxs[t];
      InRangeIndicesAllEmitted(results, init, scores);
    }
  }

  /** The reorder loop: `for idx in reranked_indices[:top_k]`, skipping out-of-range indices. */
  method ReorderEntries(results: array<Candidate>, indices: seq<Json>, scores: map<Key, Json>, topK: int)
    returns (r: Option<seq<Candidate>>)
    ensures r == ReorderFrom(results[..], Take(indices, topK), scores)
  {
    var window := Take(indices, topK);
    var out: seq<Candidate> := [];
    var i := 0;
    while i < |window|
      invariant 0 <= i <= |window|
      invariant ReorderFrom(results[..], window[..i], scores) == Some(out)
    {
      assert window[..i + 1][..i] == window[..i];
      var idx := window[i];
      match PickIndex(idx, results.Length) {
        case Raise =>
          ReorderFails(results[..], window, scores);
          return None;
        case Skip =>
        case At(p) =>
          out := out + [results[p].(rerankScore := Some(ScoreOf(scores, idx)))];
      }
      i := i + 1;
    }
    assert window[..i] == window;
    r := Some(out);
  }

  // ---------------------------------------------------------------------------------------------
  // The service path as a whole

  /** What the service's reply makes of the results: Some(list) when the API path returns the list,
      None when it falls back to RRF (an unreachable service, an HTTP error status, a body that is
      not JSON, an exception while reading the reply, no parsed entry, an index that raises). */
  function InterpretReply(results: seq<Candidate>, topK: int, response: HttpResponse): Option<seq<Candidate>> {
    match response
    case Unreachable => None
    case Response(status, body) =>
      if IsHttpError(status) || body.None? then None
      else
        match SelectEntries(body.value)
        case Raises => None
        case NoEntries => None
        case Entries(items, rf) =>
          match ParseItems(items, rf)
          case None => None
          case Some(p) =>
            if p.indices == [] then None
            else ReorderFrom(results, Take(p.indices, topK), p.scores)
  }

  /** `_rerank_with_api` before its fallback; `api` stands for the POST to the given URL. */
  function ApiOutcome(settings: Settings, query: string, results: seq<Candidate>, topK: int,
                      api: (string, Json) -> HttpResponse): Option<seq<Candidate>> {
    match RequestTexts(results)
    case None => None
    case Some(documents) => InterpretReply(results, topK, api(settings.rerankUrl, RerankPayload(query, documents, topK)))
  }

  /** A list the service path returns is at most top_k long and holds copies of inputs, each
      differing from its input at most in `rerank_score`, which it carries. */
  lemma ApiOutputIsCopies(settings: Settings, query: string, results: seq<Candidate>, topK: int,
                          api: (string, Json) -> HttpResponse) returns (picks: seq<nat>)
    requires ApiOutcome(settings, query, results, topK, api).Some?
    ensures |picks| == |ApiOutcome(settings, query, results, topK, api).value|
    ensures topK >= 0 ==> |picks| <= topK
    ensures forall j :: 0 <= j < |picks| ==>
      (picks[j] < |results|
       && ApiOutcome(settings, query, results, topK, api).value[j].rerankScore.Some?
       && ApiOutcome(settings, query, results, topK, api).value[j] ==
          results[picks[j]].(rerankScore := ApiOutcome(settings, query, results, topK, api).value[j].rerankScore))
  {
    var documents := RequestTexts(results).value;
    var response := api(settings.rerankUrl, RerankPayload(query, documents, topK));
    var selection := SelectEntries(response.body.value);
    var p := ParseItems(selection.items, selection.relevanceFirst).value;
    var window := Take(p.indices, topK);
    var w := ReorderedCopies(results, window, p.scores);
    picks := seq(|w|, j requires 0 <= j < |w| => PickIndex(window[w[j]], |results|).pos);
  }

  /** The shape is decided by the first present key, not by the first that parses: a list under
      "ranked_documents" with no dict in it sends the call to RRF even when "results" holds
      well-formed entries. */
  lemma FirstPresentShapeDecides(results: seq<Candidate>, topK: int, m: map<string, Json>, ranked: seq<Json>)
    requires "ranked_documents" in m && m["ranked_documents"] == JArr(ranked)
    requires forall j :: 0 <= j < |ranked| ==> !ranked[j].JObj?
    requires !DebugProbeRaises(JObj(m))
    ensures InterpretReply(results, topK, Response(200, Some(JObj(m)))).None?
  {
    assert Dicts(ranked) == [] by {
      DictsOfNoDicts(ranked);
    }
    ParsedIndices(ranked, false);
  }

  lemma {:induction false} DictsOfNoDicts(items: seq<Json>)
    requires forall j :: 0 <= j < |items| ==> !items[j].JObj?
    ensures Dicts(items) == []
    decreases |items|
  {
    if items != [] {
      DictsOfNoDicts(items[..|items| - 1]);
    }
  }

  /** When no two parsed indices share a key, each index looks up its own entry's score. */
  lemma DistinctKeysScores(items: seq<Json>, rf: bool)
    requires ParseItems(items, rf).Some?
    requires forall j1, j2 :: 0 <= j1 < j2 < |ParseItems(items, rf).value.indices| ==>
      HashKey(ParseItems(items, rf).value.indices[j1]) != HashKey(ParseItems(items, rf).value.indices[j2])
    ensures |ParseItems(items, rf).value.indices| == |Dicts(items)|
    ensures forall j :: 0 <= j < |ParseItems(items, rf).value.indices| ==>
      ScoreOf(ParseItems(items, rf).value.scores, ParseItems(items, rf).value.indices[j]) == EntryScore(Dicts(items)[j], rf)
  {
    ParsedScores(items, rf);
    var p := ParseItems(items, rf).value;
    forall j | 0 <= j < |p.indices| ensures ScoreOf(p.scores, p.indices[j]) == EntryScore(Dicts(items)[j], rf) {
      assert LastWithKey(p.indices, j);
    }
  }

  /** Entries that are all dicts with distinct integer "index" values parse to those indices, in
      order, each looking up its own entry's score. */
  lemma WellFormedEntriesParse(items: seq<Json>, rf: bool)
    requires forall j :: 0 <= j < |items| ==>
      items[j].JObj? && "index" in items[j].fields && items[j].fields["index"].JInt?
    requires forall j1, j2 :: 0 <= j1 < j2 < |items| ==> items[j1].fields["index"] != items[j2].fields["index"]
    ensures ParseItems(items, rf).Some?
    ensures |ParseItems(items, rf).value.indices| == |items|
    ensures forall j :: 0 <= j < |items| ==>
      ParseItems(items, rf).value.indices[j] == items[j].fields["index"]
      && ScoreOf(ParseItems(items, rf).value.scores, items[j].fields["index"]) == EntryScore(items[j].fields, rf)
  {
    DictsOfDicts(items);
    ParsedIndices(items, rf);
    var p := ParseItems(items, rf).value;
    assert forall j :: 0 <= j < |p.indices| ==> p.indices[j] == items[j].fields["index"];
    forall j1, j2 | 0 <= j1 < j2 < |p.indices| ensures HashKey(p.indices[j1]) != HashKey(p.indices[j2]) {
      assert p.indices[j1].i != p.indices[j2].i;
    }
    DistinctKeysScores(items, rf);
    forall j | 0 <= j < |items|
      ensures ScoreOf(p.scores, items[j].fields["index"]) == EntryScore(items[j].fields, rf)
    {
      assert p.indices[j] == items[j].fields["index"];
      assert Dicts(items)[j] == items[j].fields;
    }
  }

  /** A "results" reply whose entries are dicts with distinct in-range integer "index" values yields
      the results it names, in the service's order, cut to top_k, each a copy carrying its entry's
      score ("relevance_score" first). */
  lemma ResultsShapeReorders(results: seq<Candidate>, topK: int, items: seq<Json>)
    requires items != [] && topK >= 0
    requires forall j :: 0 <= j < |items| ==>
      items[j].JObj? && "index" in items[j].fields && items[j].fields["index"].JInt?
      && 0 <= items[j].fields["index"].i < |results|
    requires forall j1, j2 :: 0 <= j1 < j2 < |items| ==> items[j1].fields["index"] != items[j2].fields["index"]
    ensures InterpretReply(results, topK, Response(200, Some(JObj(map["results" := JArr(items)])))).Some?
    ensures |InterpretReply(results, topK, Response(200, Some(JObj(map["results" := JArr(items)])))).value| == Min(topK, |items|)
    ensures forall j :: 0 <= j < Min(topK, |items|) ==>
      InterpretReply(results, topK, Response(200, Some(JObj(map["results" := JArr(items)])))).value[j] ==
      results[items[j].fields["index"].i].(rerankScore := Some(EntryScore(items[j].fields, true)))
  {
    var reply := JObj(map["results" := JArr(items)]);
    assert !DebugProbeRaises(reply);
    assert "ranked_documents" !in reply.fields;
    assert SelectEntries(reply) == Entries(items, true);
    WellFormedEntriesParse(items, true);
    var p := ParseItems(items, true).value;
    var window := Take(p.indices, topK);
    assert InterpretReply(results, topK, Response(200, Some(reply))) == ReorderFrom(results, window, p.scores);
    assert forall t :: 0 <= t < |window| ==> window[t] == p.indices[t];
    InRangeIndicesAllEmitted(results, window, p.scores);
  }

  lemma {:induction false} DictsOfDicts(items: seq<Json>)
    requires forall j :: 0 <= j < |items| ==> items[j].JObj?
    ensures |Dicts(items)| == |items|
    ensures forall j :: 0 <= j < |items| ==> Dicts(items)[j] == items[j].fields
    decreases |items|
  {
    if items != [] {
      DictsOfDicts(items[..|items| - 1]);
    }
  }

  /** `_rerank_with_api`: the service's list when it yields one, leaving the inputs as they were;
      otherwise RRF over the inputs, with its effect on them. */
  method RerankWithApi(settings: Settings, query: string, results: array<Candidate>, topK: int,
                       api: (string, Json) -> HttpResponse) returns (out: seq<Candidate>)
    modifies results
    ensures ApiOutcome(settings, query, old(results[..]), topK, api).Some? ==>
      out == ApiOutcome(settings, query, old(results[..]), topK, api).value && results[..] == old(results[..])
    ensures ApiOutcome(settings, query, old(results[..]), topK, api).None? ==>
      out == RrfOutput(old(results[..]), topK) && results[..] == Scored(old(results[..]))
  {
    var documents := RequestTexts(results[..]);
    if documents.None? {
      out := RerankWithRrf(results, topK);
      return;
    }
    var response := api(settings.rerankUrl, RerankPayload(query, documents.value, topK));
    if response.Unreachable? || IsHttpError(response.status) || response.body.None? {
      out := RerankWithRrf(results, topK);
      return;
    }
    var selection := SelectEntries(response.body.value);
    if !selection.Entries? {
      out := RerankWithRrf(results, topK);
      return;
    }
    var parsed := ParseEntries(selection.items, selection.relevanceFirst);
    if parsed.None? || parsed.value.indices == [] {
      out := RerankWithRrf(results, topK);
      return;
    }
    var reordered := ReorderEntries(results, parsed.value.indices, parsed.value.scores, topK);
    if reordered.None? {
      out := RerankWithRrf(results, topK);
      return;
    }
    out := reordered.value;
  }

  // ---------------------------------------------------------------------------------------------
  // Entry points

  /** `rerank`: a top_k of None or 0 means the configured one; no results give [] with no call. */
  method Rerank(settings: Settings, query: string, results: array<Candidate>, topK: Option<int>,
                api: (string, Json) -> HttpResponse) returns (out: seq<Candidate>)
    modifies results
    ensures results.Length == 0 ==> out == []
    ensures results.Length > 0 && !settings.useRerankerApi ==>
      out == RrfOutput(old(results[..]), IntOr(topK, settings.topK)) && results[..] == Scored(old(results[..]))
    ensures results.Length > 0 && settings.useRerankerApi ==>
      var outcome := ApiOutcome(settings, query, old(results[..]), IntOr(topK, settings.topK), api);
      if outcome.Some? then out == outcome.value && results[..] == old(results[..])
      else out == RrfOutput(old(results[..]), IntOr(topK, settings.topK)) && results[..] == Scored(old(results[..]))
  {
    var k := IntOr(topK, settings.topK);
    if results.Length == 0 {
      return [];
    }
    if settings.useRerankerApi {
      out := RerankWithApi(settings, query, results, k, api);
    } else {
      out := RerankWithRrf(results, k);
    }
  }

  /** `rerank` never returns more than top_k results when top_k is positive, whichever path. */
  lemma RerankLengthBound(settings: Settings, query: string, rs: seq<Candidate>, topK: int,
                          api: (string, Json) -> HttpResponse)
    requires topK > 0
    ensures |RrfOutput(rs, topK)| <= topK
    ensures ApiOutcome(settings, query, rs, topK, api).Some? ==> |ApiOutcome(settings, query, rs, topK, api).value| <= topK
  {
    var order := RrfRanking(rs, topK);
    if ApiOutcome(settings, query, rs, topK, api).Some? {
      var picks := ApiOutputIsCopies(settings, query, rs, topK, api);
    }
  }

  /** `rerank_multiple_queries`: [] when either list is empty (tested before the lengths),
      ValueError when the counts differ, otherwise RRF over the concatenated lists, ranked by
      position in the concatenation. The concatenation is a fresh list of the same records. */
  method RerankMultipleQueries(settings: Settings, queries: seq<string>, queryResults: seq<seq<Candidate>>,
                               topK: Option<int>) returns (r: Result<seq<Candidate>, string>)
    ensures queries == [] || queryResults == [] ==> r == Ok([])
    ensures queries != [] && queryResults != [] && |queries| != |queryResults| ==>
      r == Err("Number of queries must match number of result lists")
    ensures queries != [] && queryResults != [] && |queries| == |queryResults| ==>
      r == Ok(RrfOutput(Flatten(queryResults), IntOr(topK, settings.topK)))
  {
    var k := IntOr(topK, settings.topK);
    if queries == [] || queryResults == [] {
      return Ok([]);
    }
    if |queries| != |queryResults| {
      return Err("Number of queries must match number of result lists");
    }
    var all: seq<Candidate> := [];
    var i := 0;
    while i < |queryResults|
      invariant 0 <= i <= |queryResults|
      invariant all == Flatten(queryResults[..i])
    {
      assert queryResults[..i + 1][..i] == queryResults[..i];
      all := all + queryResults[i];
      i := i + 1;
    }
    assert queryResults[..i] == queryResults;
    var combined := new Candidate[|all|](j requires 0 <= j < |all| => all[j]);
    assert combined[..] == all;
    var out := RerankWithRrf(combined, k);
    r := Ok(out);
  }

  /** The rank of the j-th result of the i-th list is its position in the concatenation: the
      lengths of the earlier lists plus j + 1, not j + 1 alone. */
  lemma {:induction false} ConcatenatedRank(queryResults: seq<seq<Candidate>>, i: nat, j: nat)
    requires i < |queryResults| && j < |queryResults[i]|
    ensures |Flatten(queryResults[..i])| + j < |Flatten(queryResults)|
    ensures Flatten(queryResults)[|Flatten(queryResults[..i])| + j] == queryResults[i][j]
  {
    assert queryResults == queryResults[..i] + queryResults[i..];
    FlattenAppend(queryResults[..i], queryResults[i..]);
    assert queryResults[i..] == [queryResults[i]] + queryResults[i + 1..];
    FlattenAppend([queryResults[i]], queryResults[i + 1..]);
    FlattenSingle(queryResults[i]);
  }

  /** Worked example of ConcatenatedRank and ScoreOfId, which state the general rule: an id first
      in both of two lists, the first of length two, is scored 1/61 + 1/63, not 2/61. */
  lemma MultiQueryRanksAreGlobal(a: Candidate, b: Candidate)
    requires a.id == Some("a") && b.id == Some("b")
    ensures Scored(Flatten([[a, b], [a]]))[0].rerankScore == Some(JNum(Contribution(1) + Contribution(3)))
  {
    var qr := [[a, b], [a]];
    assert qr[..1] == [[a, b]];
    FlattenAppend([[a, b]], [[a]]);
    FlattenSingle([a, b]);
    FlattenSingle([a]);
    assert qr == [[a, b]] + [[a]];
    var rs := Flatten(qr);
    assert rs == [a, b, a];
    ScoreOfId(rs, 0);
    assert rs[..2] == [a, b];
    assert [a, b][..1] == [a];
    assert [a][..0] == [];
    assert RankSum([a], "a") == Contribution(1);
    assert RankSum([a, b], "a") == Contribution(1);
    assert RankSum(rs, "a") == RankSum([a, b], "a") + Contribution(3);
  }

  /** Worked example of DistinctIdsKeepOrder, which states the general rule: three distinct ids
      with the service off and top_k 2 give d1 and d2 in input order, scored 1/61 and 1/62. */
  lemma ThreeDistinctIds(d1: Candidate, d2: Candidate, d3: Candidate)
    requires d1.id == Some("d1") && d2.id == Some("d2") && d3.id == Some("d3")
    ensures RrfOutput([d1, d2, d3], 2) ==
      [d1.(rerankScore := Some(JNum(1.0 / 61.0))), d2.(rerankScore := Some(JNum(1.0 / 62.0)))]
  {
    var rs := [d1, d2, d3];
    assert DistinctIds(rs);
    DistinctIdsKeepOrder(rs, 2);
  }
}
