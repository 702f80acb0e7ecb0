/** The hybrid retriever of src/retriever.py: the search bodies sent to the search index for the
    hybrid, keyword-only and vector-only searches, and the projection of the index's hits into
    candidate records. The index itself is the parameter `client`. */
module Retriever {
  import opened Common
  import opened PyValue
  import opened Candidates
  import Config

  /** What a `HybridRetriever` keeps from its construction. */
  datatype Settings = Settings(indexName: string, bm25Weight: real, vectorWeight: real)

  /** `HybridRetriever()`: the index name and both weights are read from the configuration once. */
  function NewRetriever(indexName: string): (r: Settings)
    ensures r.indexName == indexName
    ensures r.bm25Weight == Config.BM25_WEIGHT && r.vectorWeight == Config.VECTOR_WEIGHT
  {
    Settings(indexName, Config.BM25_WEIGHT, Config.VECTOR_WEIGHT)
  }

  /** `j[k]` on a value that may be missing: the value under key k when j is a dict holding it. */
  function Field(j: Option<Json>, k: string): (r: Option<Json>)
    ensures r.Some? <==> j.Some? && j.value.JObj? && k in j.value.fields
  {
    if j.Some? && j.value.JObj? && k in j.value.fields then Some(j.value.fields[k]) else None
  }

  /** The scoring script of the hybrid search: cosine similarity shifted by one, with 0.0 for a
      similarity that is NaN or infinite. Its layout whitespace is not reproduced. */
  const HybridScript: string :=
    "double similarity = cosineSimilarity(params.query_vector, 'embedding');\n"
    + "if (Double.isNaN(similarity) || Double.isInfinite(similarity)) {\n"
    + "return 0.0;\n"
    + "}\n"
    + "return similarity + 1.0;\n"

  /** The scoring script of the vector-only search: no guard. */
  const VectorScript: string := "cosineSimilarity(params.query_vector, 'embedding') + 1.0"

  const SourceFields: Json := JArr([JStr("text"), JStr("chunk_id"), JStr("metadata")])

  /** The query vector as a JSON list of floats. */
  function Vector(embedding: seq<real>): (r: Json)
    ensures r.JArr? && |r.items| == |embedding|
    ensures forall i :: 0 <= i < |embedding| ==> r.items[i] == JNum(embedding[i])
  {
    JArr(seq(|embedding|, i requires 0 <= i < |embedding| => JNum(embedding[i])))
  }

  function ScriptScore(source: string, embedding: seq<real>): map<string, Json> {
    map[
      "query" := JObj(map["match_all" := JObj(map[])]),
      "script" := JObj(map["source" := JStr(source), "params" := JObj(map["query_vector" := Vector(embedding)])])]
  }

  /** The body of `search` before the filter. */
  function HybridBody(settings: Settings, query: string, embedding: seq<real>, topK: Option<int>): Json {
    var matchClause := JObj(map["match" := JObj(map["text" := JObj(map[
      "query" := JStr(query), "boost" := JNum(settings.bm25Weight)])])]);
    var scriptClause := JObj(map["script_score" :=
      JObj(ScriptScore(HybridScript, embedding)["boost" := JNum(settings.vectorWeight)])]);
    JObj(map[
      "size" := JInt(IntOr(topK, Config.RETRIEVAL_TOP_K)),
      "query" := JObj(map["bool" := JObj(map["should" := JArr([matchClause, scriptClause])])]),
      "_source" := SourceFields,
      "min_score" := JNum(0.1)])
  }

  /** `search_body["query"]["bool"]["filter"] = filters`. */
  function WithFilter(body: Json, filters: Json): (r: Json)
    requires Field(Field(Some(body), "query"), "bool").Some? && Field(Field(Some(body), "query"), "bool").value.JObj?
  {
    var q := body.fields["query"];
    var b := q.fields["bool"];
    JObj(body.fields["query" := JObj(q.fields["bool" := JObj(b.fields["filter" := filters])])])
  }

  /** Setting the filter puts it at query.bool.filter and changes no other key at any level. */
  lemma FilterChangesNothingElse(body: Json, filters: Json)
    requires Field(Field(Some(body), "query"), "bool").Some? && Field(Field(Some(body), "query"), "bool").value.JObj?
    ensures Field(Field(Field(Some(WithFilter(body, filters)), "query"), "bool"), "filter") == Some(filters)
    ensures WithFilter(body, filters).fields.Keys == body.fields.Keys
    ensures forall k :: k != "query" ==> Field(Some(WithFilter(body, filters)), k) == Field(Some(body), k)
    ensures forall k :: k != "bool" ==>
      Field(Field(Some(WithFilter(body, filters)), "query"), k) == Field(Field(Some(body), "query"), k)
    ensures forall k :: k != "filter" ==>
      Field(Field(Field(Some(WithFilter(body, filters)), "query"), "bool"), k)
      == Field(Field(Field(Some(body), "query"), "bool"), k)
  {
  }

  /** The body `search` sends: the filter is added exactly when `filters` is truthy. */
  function HybridRequest(settings: Settings, query: string, embedding: seq<real>, topK: Option<int>, filters: Json): Json {
    var body := HybridBody(settings, query, embedding, topK);
    if Truthy(filters) then WithFilter(body, filters) else body
  }

  /** The hybrid body: size is top_k or the configured width, min_score 0.1, the three source
      fields, and a filter exactly when `filters` is truthy. */
  lemma HybridRequestTop(settings: Settings, query: string, embedding: seq<real>, topK: Option<int>, filters: Json)
    ensures var b := Some(HybridRequest(settings, query, embedding, topK, filters));
      Field(b, "size") == Some(JInt(IntOr(topK, Config.RETRIEVAL_TOP_K)))
      && Field(b, "min_score") == Some(JNum(0.1))
      && Field(b, "_source") == Some(SourceFields)
      && (Field(Field(Field(b, "query"), "bool"), "filter").Some? <==> Truthy(filters))
      && (Truthy(filters) ==> Field(Field(Field(b, "query"), "bool"), "filter") == Some(filters))
  {
    if Truthy(filters) {
      FilterChangesNothingElse(HybridBody(settings, query, embedding, topK), filters);
    }
  }

  /** The hybrid body has exactly two should clauses: the text match boosted by the keyword weight
      and the guarded script score boosted by the vector weight, carrying the query vector. */
  lemma HybridRequestClauses(settings: Settings, query: string, embedding: seq<real>, topK: Option<int>, filters: Json)
    ensures var should := Field(Field(Field(Some(HybridRequest(settings, query, embedding, topK, filters)), "query"), "bool"), "should");
      should.Some? && should.value.JArr? && |should.value.items| == 2
      && Field(Field(Field(Some(should.value.items[0]), "match"), "text"), "query") == Some(JStr(query))
      && Field(Field(Field(Some(should.value.items[0]), "match"), "text"), "boost") == Some(JNum(settings.bm25Weight))
      && Field(Field(Some(should.value.items[1]), "script_score"), "boost") == Some(JNum(settings.vectorWeight))
      && Field(Field(Field(Some(should.value.items[1]), "script_score"), "script"), "source") == Some(JStr(HybridScript))
      && Field(Field(Field(Field(Some(should.value.items[1]), "script_score"), "script"), "params"), "query_vector")
         == Some(Vector(embedding))
  {
    if Truthy(filters) {
      FilterChangesNothingElse(HybridBody(settings, query, embedding, topK), filters);
    }
  }

  /** The body of `search_bm25_only`: a plain text match and no min_score. */
  function Bm25Request(query: string, topK: Option<int>): Json {
    JObj(map[
      "size" := JInt(IntOr(topK, Config.RETRIEVAL_TOP_K)),
      "query" := JObj(map["match" := JObj(map["text" := JStr(query)])]),
      "_source" := SourceFields])
  }

  /** The body of `search_vector_only`: the unguarded script and min_score 0.1. */
  function VectorRequest(embedding: seq<real>, topK: Option<int>): Json {
    JObj(map[
      "size" := JInt(IntOr(topK, Config.RETRIEVAL_TOP_K)),
      "query" := JObj(map["script_score" := JObj(ScriptScore(VectorScript, embedding))]),
      "_source" := SourceFields,
      "min_score" := JNum(0.1)])
  }

  /** The keyword-only body has the same size and no min_score; the vector-only body has the same
      size, min_score 0.1 and the script without the NaN/infinity guard. */
  lemma SingleSearchShapes(query: string, embedding: seq<real>, topK: Option<int>)
    ensures Field(Some(Bm25Request(query, topK)), "size") == Some(JInt(IntOr(topK, Config.RETRIEVAL_TOP_K)))
    ensures Field(Some(Bm25Request(query, topK)), "min_score").None?
    ensures Field(Field(Field(Some(Bm25Request(query, topK)), "query"), "match"), "text") == Some(JStr(query))
    ensures Field(Some(VectorRequest(embedding, topK)), "size") == Some(JInt(IntOr(topK, Config.RETRIEVAL_TOP_K)))
    ensures Field(Some(VectorRequest(embedding, topK)), "min_score") == Some(JNum(0.1))
    ensures Field(Field(Field(Field(Some(VectorRequest(embedding, topK)), "query"), "script_score"), "script"), "source") == Some(JStr(VectorScript))
    ensures VectorScript != HybridScript
  {
    assert |VectorScript| != |HybridScript|;
  }

  // ---------------------------------------------------------------------------------------------
  // Hits

  /** One hit as a result record: text, chunk_id and metadata (default {}) from `_source`, score
      from `_score`, id from `_id`; None when a field is missing or `hit`/`_source` is no dict
      (KeyError or TypeError), or a field has a kind the record does not hold. */
  /** A hit from which every field of a record can be read: `hit` and `_source` are dicts, `_source`
      has a string "text", a "chunk_id" and a dict (or no) "metadata", and the hit has a "_score"
      and a string "_id". */
  predicate WellFormedHit(hit: Json) {
    hit.JObj? && "_source" in hit.fields && hit.fields["_source"].JObj?
    && var src := hit.fields["_source"].fields;
    "text" in src && src["text"].JStr? && "chunk_id" in src && Get(src, "metadata", JObj(map[])).JObj?
    && "_score" in hit.fields && "_id" in hit.fields && hit.fields["_id"].JStr?
  }

  function HitRecord(hit: Json): (r: Option<Candidate>)
    ensures r.Some? <==> WellFormedHit(hit)
    ensures r.Some? ==> hit.JObj? && "_source" in hit.fields && hit.fields["_source"].JObj?
    ensures r.Some? ==>
      var src := hit.fields["_source"].fields;
      "text" in src && r.value.text.Some? && src["text"] == JStr(r.value.text.value)
      && "chunk_id" in src && r.value.chunkId == Some(src["chunk_id"])
      && r.value.metadata.Some? && Get(src, "metadata", JObj(map[])) == JObj(r.value.metadata.value)
      && "_score" in hit.fields && r.value.score == Some(hit.fields["_score"])
      && "_id" in hit.fields && r.value.id.Some? && hit.fields["_id"] == JStr(r.value.id.value)
      && r.value.rerankScore.None?
  {
    if !(hit.JObj? && "_source" in hit.fields && hit.fields["_source"].JObj?) then None
    else
      var src := hit.fields["_source"].fields;
      var metadata := Get(src, "metadata", JObj(map[]));
      if "text" in src && src["text"].JStr? && "chunk_id" in src && metadata.JObj?
         && "_score" in hit.fields && "_id" in hit.fields && hit.fields["_id"].JStr?
      then Some(Candidate(Some(hit.fields["_id"].s), Some(src["text"].s), Some(src["chunk_id"]),
                          Some(metadata.fields), Some(hit.fields["_score"]), None))
      else None
  }

  /** The records of all hits, in hit order; None as soon as one hit fails. */
  function HitRecords(hits: seq<Json>): (r: Option<seq<Candidate>>)
    ensures r.Some? <==> forall i :: 0 <= i < |hits| ==> HitRecord(hits[i]).Some?
    ensures r.Some? ==> |r.value| == |hits| && forall i :: 0 <= i < |hits| ==> r.value[i] == HitRecord(hits[i]).value
  {
    if hits == [] then Some([])
    else
      match HitRecords(hits[..|hits| - 1])
      case None => None
      case Some(init) =>
        match HitRecord(hits[|hits| - 1])
        case None => None
        case Some(c) => Some(init + [c])
  }

  /** `response["hits"]["hits"]` and the loop over it: None when the lookup or the loop raises.
      Iterating a dict or a string yields strings, on which `hit["_source"]` raises, so only an
      empty one yields no records without raising. */
  function SearchResults(response: Json): Option<seq<Candidate>> {
    match Field(Field(Some(response), "hits"), "hits")
    case None => None
    case Some(hits) =>
      match hits
      case JArr(items) => HitRecords(items)
      case JObj(m) => if m == map[] then Some([]) else None
      case JStr(s) => if s == "" then Some([]) else None
      case _ => None
  }

  /** The loop that appends one record per hit. */
  method CollectHits(hits: seq<Json>) returns (r: Option<seq<Candidate>>)
    ensures r == HitRecords(hits)
  {
    var results: seq<Candidate> := [];
    var i := 0;
    while i < |hits|
      invariant 0 <= i <= |hits|
      invariant HitRecords(hits[..i]) == Some(results)
    {
      assert hits[..i + 1][..i] == hits[..i];
      var record := HitRecord(hits[i]);
      if record.None? {
        assert hits[..i + 1][i] == hits[i];
        return None;
      }
      results := results + [record.value];
      i := i + 1;
    }
    assert hits[..i] == hits;
    r := Some(results);
  }

  /** Runs one search and projects its hits; a client failure or any malformed hit gives []. */
  method RunSearch(settings: Settings, body: Json, client: (string, Json) -> Option<Json>) returns (results: seq<Candidate>)
    ensures client(settings.indexName, body).None? ==> results == []
    ensures client(settings.indexName, body).Some? ==>
      results == SearchResults(client(settings.indexName, body).value).GetOr([])
  {
    var response := client(settings.indexName, body);
    if response.None? {
      return [];
    }
    var hits := Field(Field(Some(response.value), "hits"), "hits");
    if hits.None? {
      return [];
    }
    match hits.value {
      case JArr(items) =>
        var collected := CollectHits(items);
        results := collected.GetOr([]);
      case JObj(m) =>
        results := [];
      case JStr(s) =>
        results := [];
      case _ =>
        results := [];
    }
  }

  /** `search`: builds the hybrid body, adds the filter when it is truthy, runs it. */
  method Search(settings: Settings, query: string, embedding: seq<real>, topK: Option<int>, filters: Json,
                client: (string, Json) -> Option<Json>) returns (results: seq<Candidate>)
    ensures var response := client(settings.indexName, HybridRequest(settings, query, embedding, topK, filters));
      results == (if response.None? then [] else SearchResults(response.value).GetOr([]))
  {
    var body := HybridBody(settings, query, embedding, topK);
    if Truthy(filters) {
      body := WithFilter(body, filters);
    }
    results := RunSearch(settings, body, client);
  }

  /** `search_bm25_only`. */
  method SearchBm25Only(settings: Settings, query: string, topK: Option<int>,
                        client: (string, Json) -> Option<Json>) returns (results: seq<Candidate>)
    ensures var response := client(settings.indexName, Bm25Request(query, topK));
      results == (if response.None? then [] else SearchResults(response.value).GetOr([]))
  {
    results := RunSearch(settings, Bm25Request(query, topK), client);
  }

  /** `search_vector_only`. */
  method SearchVectorOnly(settings: Settings, embedding: seq<real>, topK: Option<int>,
                          client: (string, Json) -> Option<Json>) returns (results: seq<Candidate>)
    ensures var response := client(settings.indexName, VectorRequest(embedding, topK));
      results == (if response.None? then [] else SearchResults(response.value).GetOr([]))
  {
    results := RunSearch(settings, VectorRequest(embedding, topK), client);
  }

  /** A successful search yields one record per hit, in hit order, and a single malformed hit
      empties the whole result. */
  lemma SearchIsAllOrNothing(response: Json, hits: seq<Json>)
    requires Field(Field(Some(response), "hits"), "hits") == Some(JArr(hits))
    ensures SearchResults(response).Some? <==> forall i :: 0 <= i < |hits| ==> WellFormedHit(hits[i])
    ensures SearchResults(response).GetOr([]) == [] || |SearchResults(response).value| == |hits|
    ensures (exists i :: 0 <= i < |hits| && HitRecord(hits[i]).None?) ==> SearchResults(response).GetOr([]) == []
    ensures (forall i :: 0 <= i < |hits| ==> HitRecord(hits[i]).Some?) ==>
      SearchResults(response).Some?
      && forall i :: 0 <= i < |hits| ==> SearchResults(response).value[i] == HitRecord(hits[i]).value
  {
  }
}
