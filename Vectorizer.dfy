/** The older embedding client of vectorizer.py: one request per batch with the "input" body of
    Embedding.InputPayload, three reply shapes, zero vectors on any failure. The embedding service
    is the parameter `post`. */
module Vectorizer {
  import opened Common
  import opened PyValue
  import opened Batching
  import Embedding
  import Config

  /** What a `Vectorizer` keeps from its construction. */
  datatype Settings = Settings(embeddingUrl: string, dimension: nat)

  /** `Vectorizer(embedding_url)`: a missing or empty URL means the configured one; the dimension
      is the configured one. */
  function NewVectorizer(embeddingUrl: Option<string>, configuredUrl: string): (r: Settings)
    ensures embeddingUrl.Some? && embeddingUrl.value != "" ==> r.embeddingUrl == embeddingUrl.value
    ensures embeddingUrl.None? || embeddingUrl.value == "" ==> r.embeddingUrl == configuredUrl
    ensures r.dimension == Config.EMBEDDING_DIMENSION
  {
    Settings(StrOr(embeddingUrl, configuredUrl), Config.EMBEDDING_DIMENSION)
  }

  /** `[item["embedding"] for item in data]`: iterating a list's items, a string's characters or a
      dict's keys, where only a dict item holding "embedding" can be subscripted; so only a list of
      such dicts, or an empty string or dict, gives a list. */
  function DataEmbeddings(data: Json): (r: Option<seq<Json>>)
    ensures data.JArr? ==>
      (r.Some? <==> forall i :: 0 <= i < |data.items| ==> data.items[i].JObj? && "embedding" in data.items[i].fields)
    ensures r.Some? && data.JArr? ==>
      (|r.value| == |data.items| && forall i :: 0 <= i < |data.items| ==> r.value[i] == data.items[i].fields["embedding"])
    ensures r.Some? && !data.JArr? ==> r.value == []
  {
    match data
    case JArr(items) =>
      if forall i :: 0 <= i < |items| ==> items[i].JObj? && "embedding" in items[i].fields
      then Some(seq(|items|, i requires 0 <= i < |items| => items[i].fields["embedding"]))
      else None
    case JStr(s) => if s == "" then Some([]) else None
    case JObj(m) => if m == map[] then Some([]) else None
    case _ => None
  }

  /** The embeddings read from a reply, or None when reading raises. "data" is looked for first
      (in a dict, list or string alike; only a dict can then be subscripted), then "embeddings"
      (returned as it is), then a list reply is taken whole; anything else raises ValueError, and
      `in` on a number, boolean or None raises TypeError. */
  function ParseReply(result: Json): Option<Json> {
    match HasKey(result, "data")
    case None => None
    case Some(hasData) =>
      if hasData then
        if result.JObj? then
          (match DataEmbeddings(result.fields["data"])
           case None => None
           case Some(embeddings) => Some(JArr(embeddings)))
        else None
      else if HasKey(result, "embeddings") == Some(true) then
        if result.JObj? then Some(result.fields["embeddings"]) else None
      else if result.JArr? then Some(result)
      else None
  }

  /** The reply shapes in order: a dict's "data" wins over its "embeddings"; a list reply is used as
      it is unless it holds the string "data" or "embeddings"; a dict with neither key raises. */
  lemma ParseReplyShapes(m: map<string, Json>, items: seq<Json>)
    ensures "data" in m && "embeddings" in m ==>
      ParseReply(JObj(m)) == ParseReply(JObj(map["data" := m["data"]]))
    ensures "data" !in m && "embeddings" in m ==> ParseReply(JObj(m)) == Some(m["embeddings"])
    ensures "data" !in m && "embeddings" !in m ==> ParseReply(JObj(m)).None?
    ensures JStr("data") !in items && JStr("embeddings") !in items ==> ParseReply(JArr(items)) == Some(JArr(items))
    ensures JStr("data") in items ==> ParseReply(JArr(items)).None?
  {
  }

  /** `_call_embedding_api`: the parsed list, or one zero vector of the vectorizer's dimension per
      text after any failure (transport, an error status, a body that is not JSON, a reply that
      cannot be read). */
  function EmbeddingCall(settings: Settings, texts: seq<string>, post: (string, Json) -> HttpResponse): (r: Json)
    ensures var response := post(settings.embeddingUrl, Embedding.InputPayload(texts));
      response.Unreachable? || IsHttpError(response.status) || response.body.None?
      || ParseReply(response.body.value).None?
      ==> r == JArr(ZeroVectors(|texts|, settings.dimension))
    ensures var response := post(settings.embeddingUrl, Embedding.InputPayload(texts));
      response.Response? && !IsHttpError(response.status) && response.body.Some?
      && ParseReply(response.body.value).Some?
      ==> r == ParseReply(response.body.value).value
  {
    var response := post(settings.embeddingUrl, Embedding.InputPayload(texts));
    var zeros := JArr(ZeroVectors(|texts|, settings.dimension));
    if response.Unreachable? || IsHttpError(response.status) || response.body.None? then zeros
    else ParseReply(response.body.value).GetOr(zeros)
  }

  /** What one batch appends to the overall list, or None when extending by it raises. */
  function BatchItems(settings: Settings, post: (string, Json) -> HttpResponse): seq<string> -> Option<seq<Json>> {
    batch => Listed(EmbeddingCall(settings, batch, post))
  }

  /** `embed_batch`: None when it raises (a batch size of 0 makes `range` raise, a batch result that
      a list cannot be extended by); a negative batch size gives no batches. */
  function EmbedBatchOf(settings: Settings, texts: seq<string>, batchSize: int,
                        post: (string, Json) -> HttpResponse): Option<seq<Json>> {
    if batchSize == 0 then None
    else if batchSize < 0 then Some([])
    else Collect(texts, batchSize, BatchItems(settings, post))
  }

  /** The result is the concatenation, in order, of what the consecutive batches return, and a
      batch whose request fails contributes exactly its number of zero vectors. */
  lemma EmbedBatchConcatenates(settings: Settings, texts: seq<string>, batchSize: int,
                               post: (string, Json) -> HttpResponse)
    requires batchSize > 0
    requires EmbedBatchOf(settings, texts, batchSize, post).Some?
    ensures forall i :: 0 <= i < |Batches(texts, batchSize)| ==>
      BatchItems(settings, post)(Batches(texts, batchSize)[i]).Some?
    ensures EmbedBatchOf(settings, texts, batchSize, post).value ==
      Flatten(Outputs(Batches(texts, batchSize), BatchItems(settings, post)))
    ensures Flatten(Batches(texts, batchSize)) == texts
  {
    CollectIsConcatenation(texts, batchSize, BatchItems(settings, post));
    BatchesFlatten(texts, batchSize);
  }

  /** A failed batch contributes one zero vector per text of the batch. */
  lemma FailedBatchGivesZeros(settings: Settings, batch: seq<string>, post: (string, Json) -> HttpResponse)
    requires post(settings.embeddingUrl, Embedding.InputPayload(batch)).Unreachable?
    ensures BatchItems(settings, post)(batch) == Some(ZeroVectors(|batch|, settings.dimension))
  {
  }

  /** The batch loop of `embed_batch`. */
  method EmbedBatch(settings: Settings, texts: seq<string>, batchSize: int, post: (string, Json) -> HttpResponse)
    returns (r: Option<seq<Json>>)
    ensures r == EmbedBatchOf(settings, texts, batchSize, post)
  {
    if batchSize == 0 {
      return None;
    }
    if batchSize < 0 {
      return Some([]);
    }
    r := CollectBatches(texts, batchSize, BatchItems(settings, post));
  }

  /** What `embed` returns: Python's None, or a vector. */
  datatype Embedded = Raises | NoVector | Vector(vector: Json)

  /** `embed`: the first vector `embed_batch([text])` (batch size 10) returns, None when it returns
      none. */
  method Embed(settings: Settings, text: string, post: (string, Json) -> HttpResponse) returns (r: Embedded)
    ensures r.Raises? <==> EmbedBatchOf(settings, [text], 10, post).None?
    ensures r.NoVector? <==> EmbedBatchOf(settings, [text], 10, post) == Some([])
    ensures r.Vector? ==> Some(r.vector) == First(JArr(EmbedBatchOf(settings, [text], 10, post).value))
  {
    var embeddings := EmbedBatch(settings, [text], 10, post);
    match embeddings {
      case None => r := Raises;
      case Some(e) => r := if e != [] then Vector(e[0]) else NoVector;
    }
  }

  /** With a single text, `embed` asks for one batch holding it, and a failing request yields the
      zero vector of the vectorizer's dimension. */
  lemma EmbedOneBatch(settings: Settings, text: string, post: (string, Json) -> HttpResponse)
    ensures EmbedBatchOf(settings, [text], 10, post) == BatchItems(settings, post)([text])
    ensures post(settings.embeddingUrl, Embedding.InputPayload([text])).Unreachable? ==>
      EmbedBatchOf(settings, [text], 10, post) == Some([ZeroVector(settings.dimension)])
  {
    var call := BatchItems(settings, post);
    assert [text][..Min(10, |[text]|)] == [text];
    assert [text][Min(10, |[text]|)..] == [];
    assert Collect([text][Min(10, |[text]|)..], 10, call) == Some([]);
    ExtendedNothing(call([text]));
    if call([text]).Some? {
      assert call([text]).value + [] == call([text]).value;
    }
    assert ZeroVectors(|[text]|, settings.dimension) == [ZeroVector(settings.dimension)];
  }
}
