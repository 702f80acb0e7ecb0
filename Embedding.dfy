/** The embedding client of src/embedding.py: texts are sent in fixed-size batches; each batch
    request tries the service's "texts" body, then the OpenAI-compatible "input" body on a 422,
    then one request per text on a second 422; the reply is read in one of several shapes; and
    any failure gives zero vectors. The embedding service is the parameter `post`, a function
    from the request body to the exchange's outcome. */
module Embedding {
  import opened Common
  import opened PyValue
  import opened Batching
  import Config

  /** The request body with the service's own "texts" field. */
  function TextsPayload(texts: seq<string>): (r: Json)
    ensures r.JObj? && r.fields.Keys == {"texts", "model"}
    ensures r.fields["texts"] == JArr(JStrs(texts)) && r.fields["model"] == JStr(Config.EMBEDDING_MODEL)
  {
    JObj(map["texts" := JArr(JStrs(texts)), "model" := JStr(Config.EMBEDDING_MODEL)])
  }

  /** The request body with the OpenAI-compatible "input" field. */
  function InputPayload(texts: seq<string>): (r: Json)
    ensures r.JObj? && r.fields.Keys == {"input", "model"}
    ensures r.fields["input"] == JArr(JStrs(texts)) && r.fields["model"] == JStr(Config.EMBEDDING_MODEL)
  {
    JObj(map["input" := JArr(JStrs(texts)), "model" := JStr(Config.EMBEDDING_MODEL)])
  }

  /** The fallback: one vector of `EMBEDDING_DIMENSION` zeros per text. */
  function Zeros(texts: seq<string>): (r: Json)
    ensures r.JArr? && |r.items| == |texts|
    ensures forall i :: 0 <= i < |texts| ==>
      r.items[i].JArr? && |r.items[i].items| == Config.EMBEDDING_DIMENSION
      && forall k :: 0 <= k < Config.EMBEDDING_DIMENSION ==> r.items[i].items[k] == JNum(0.0)
  {
    JArr(ZeroVectors(|texts|, Config.EMBEDDING_DIMENSION))
  }

  // ---------------------------------------------------------------------------------------------
  // The batch reply

  /** The success log line evaluates `len(embeddings[0])` whenever `embeddings` is truthy: a
      non-empty list must start with something that has a length, a non-empty dict (no key 0) and
      a truthy scalar raise. Only the value's survival is decided here; it is returned as it is. */
  function Logged(embeddings: Json): (r: Option<Json>)
    ensures r.Some? ==> r.value == embeddings
    ensures r.Some? <==> !Truthy(embeddings) || embeddings.JStr?
                         || (embeddings.JArr? && HasLen(embeddings.items[0]))
  {
    if !Truthy(embeddings) || embeddings.JStr? || (embeddings.JArr? && HasLen(embeddings.items[0]))
    then Some(embeddings) else None
  }

  /** `item["embedding"]` for every item of a "data" list, when every item is a dict holding it. */
  function EmbeddingFields(items: seq<Json>): (r: Option<seq<Json>>)
    ensures r.Some? <==> forall i :: 0 <= i < |items| ==> items[i].JObj? && "embedding" in items[i].fields
    ensures r.Some? ==>
      (|r.value| == |items| && forall i :: 0 <= i < |items| ==> r.value[i] == items[i].fields["embedding"])
  {
    if forall i :: 0 <= i < |items| ==> items[i].JObj? && "embedding" in items[i].fields
    then Some(seq(|items|, i requires 0 <= i < |items| => items[i].fields["embedding"]))
    else None
  }

  /** The embeddings read from a batch reply, or None when reading raises (and the call falls back
      to zeros). A dict reply is read from "data" when present (a dict's "text_vectors", or a
      list's items' "embedding"; any other "data" is an error), else from "embeddings", else from
      "embedding" wrapped in a list; a list reply is taken as it is; anything else is an error.
      The debug lines after "text_vectors" and "embeddings" evaluate `len(embeddings)`, so a value
      without a length raises there. */
  function ParseBatch(result: Json): Option<Json> {
    match result
    case JObj(m) =>
      if "data" in m then
        var data := m["data"];
        if data.JObj? && "text_vectors" in data.fields then
          (if HasLen(data.fields["text_vectors"]) then Logged(data.fields["text_vectors"]) else None)
        else if data.JArr? then
          (match EmbeddingFields(data.items)
           case None => None
           case Some(embeddings) => Logged(JArr(embeddings)))
        else None
      else if "embeddings" in m then
        (if HasLen(m["embeddings"]) then Logged(m["embeddings"]) else None)
      else if "embedding" in m then Logged(JArr([m["embedding"]]))
      else None
    case JArr(_) => Logged(result)
    case _ => None
  }

  /** A present "data" alone decides the reading of a dict reply; without it, a present
      "embeddings" alone decides. */
  lemma ParseBatchPrecedence(m: map<string, Json>)
    ensures "data" in m ==> ParseBatch(JObj(m)) == ParseBatch(JObj(map["data" := m["data"]]))
    ensures "data" !in m && "embeddings" in m ==>
      ParseBatch(JObj(m)) == ParseBatch(JObj(map["embeddings" := m["embeddings"]]))
    ensures "data" !in m && "embeddings" !in m && "embedding" !in m ==> ParseBatch(JObj(m)).None?
  {
  }

  /** A "text_vectors" or "embeddings" value without a length (a number, a boolean, null) makes the
      reply unreadable, even a falsy one. */
  lemma ParseBatchNeedsLength(v: Json)
    requires !HasLen(v)
    ensures ParseBatch(JObj(map["embeddings" := v])).None?
    ensures ParseBatch(JObj(map["data" := JObj(map["text_vectors" := v])])).None?
  {
  }

  /** A list of vectors whose first vector has a length is read as it is, whether it comes as the
      whole reply, as "data"."text_vectors", as "embeddings", or as the "embedding" fields of the
      "data" items. */
  lemma ParseBatchReadsVectorLists(vs: seq<Json>)
    requires vs == [] || HasLen(vs[0])
    ensures ParseBatch(JArr(vs)) == Some(JArr(vs))
    ensures ParseBatch(JObj(map["data" := JObj(map["text_vectors" := JArr(vs)])])) == Some(JArr(vs))
    ensures ParseBatch(JObj(map["embeddings" := JArr(vs)])) == Some(JArr(vs))
    ensures var items := seq(|vs|, i requires 0 <= i < |vs| => JObj(map["embedding" := vs[i]]));
      ParseBatch(JObj(map["data" := JArr(items)])) == Some(JArr(vs))
  {
    var items := seq(|vs|, i requires 0 <= i < |vs| => JObj(map["embedding" := vs[i]]));
    assert forall i :: 0 <= i < |items| ==> items[i].JObj? && "embedding" in items[i].fields;
    assert EmbeddingFields(items).value == vs;
  }

  /** The parsed list is not compared with the request: a single-vector reply to a batch of any
      size is returned as one vector, and its dimension is not checked either. */
  lemma ParseBatchUnchecked(texts: seq<string>, v: Json)
    requires HasLen(v)
    ensures ParseBatch(JObj(map["embedding" := v])) == Some(JArr([v]))
    ensures ParseBatch(JObj(map["embeddings" := JArr([v])])) == Some(JArr([v]))
  {
  }

  // ---------------------------------------------------------------------------------------------
  // The one-request-per-text path

  /** What one per-text exchange contributes. */
  datatype Step = Fail | Nothing | Append(vector: Json)

  /** The reply to a one-text request: a transport failure, a status other than 200, a body that
      is not JSON, a reply that is not a dict or in none of the shapes fails (and the whole batch
      falls back to zeros); a falsy "data"."text_vectors" appends nothing; otherwise the first of
      "data"."text_vectors", the first "data" item's "embedding", "embedding", or the first of
      "embeddings" is appended, where the debug lines that measure it require it to have a length. */
  function PerTextStep(reply: HttpResponse): Step {
    if reply.Unreachable? || reply.status != 200 || reply.body.None? || !reply.body.value.JObj? then Fail
    else
      var m := reply.body.value.fields;
      if "data" in m && m["data"].JObj? && "text_vectors" in m["data"].fields then
        var vectors := m["data"].fields["text_vectors"];
        if !Truthy(vectors) then Nothing
        else if !HasLen(vectors) then Fail
        else
          (match First(vectors)
           case None => Fail
           case Some(v) => if HasLen(v) then Append(v) else Fail)
      else if "data" in m && m["data"].JArr? && m["data"].items != [] then
        var item := m["data"].items[0];
        if item.JObj? && "embedding" in item.fields then Append(item.fields["embedding"]) else Fail
      else if "embedding" in m then
        if HasLen(m["embedding"]) then Append(m["embedding"]) else Fail
      else if "embeddings" in m && HasLen(m["embeddings"]) then
        (match First(m["embeddings"])
         case None => Fail
         case Some(v) => Append(v))
      else Fail
  }

  /** A 200 reply yields the first vector of "data"."text_vectors" (when it has a length), the first
      "data" item's "embedding", "embedding" itself (when it has a length) or the first of
      "embeddings"; an empty "text_vectors" yields nothing; any other status fails. */
  lemma PerTextStepReadsFirstVector(v: Json, rest: seq<Json>, status: int, body: Option<Json>)
    ensures HasLen(v) ==>
      PerTextStep(Response(200, Some(JObj(map["data" := JObj(map["text_vectors" := JArr([v] + rest)])])))) == Append(v)
    ensures PerTextStep(Response(200, Some(JObj(map["data" := JArr([JObj(map["embedding" := v])] + rest)])))) == Append(v)
    ensures HasLen(v) ==> PerTextStep(Response(200, Some(JObj(map["embedding" := v])))) == Append(v)
    ensures PerTextStep(Response(200, Some(JObj(map["embeddings" := JArr([v] + rest)])))) == Append(v)
    ensures PerTextStep(Response(200, Some(JObj(map["data" := JObj(map["text_vectors" := JArr([])])])))) == Nothing
    ensures status != 200 ==> PerTextStep(Response(status, body)) == Fail
  {
  }

  /** The per-text loop over the texts, in order; None once a step fails. */
  function PerText(texts: seq<string>, post: Json -> HttpResponse): Option<seq<Json>>
    decreases |texts|
  {
    if texts == [] then Some([])
    else
      match PerText(texts[..|texts| - 1], post)
      case None => None
      case Some(done) =>
        match PerTextStep(post(TextsPayload([texts[|texts| - 1]])))
        case Fail => None
        case Nothing => Some(done)
        case Append(v) => Some(done + [v])
  }

  /** Once a prefix of the texts has failed, the whole loop has. */
  lemma {:induction false} PerTextFailureSticks(texts: seq<string>, n: nat, post: Json -> HttpResponse)
    requires n <= |texts| && PerText(texts[..n], post).None?
    ensures PerText(texts, post).None?
    decreases |texts| - n
  {
    if n < |texts| {
      assert texts[..n + 1][..n] == texts[..n];
      PerTextFailureSticks(texts, n + 1, post);
    } else {
      assert texts[..n] == texts;
    }
  }

  /** The per-text list never has more vectors than texts; it has exactly one per text, the one
      each reply supplies, when no reply is a falsy "text_vectors". */
  lemma {:induction false} PerTextLength(texts: seq<string>, post: Json -> HttpResponse)
    requires PerText(texts, post).Some?
    ensures |PerText(texts, post).value| <= |texts|
    ensures (forall i :: 0 <= i < |texts| ==> PerTextStep(post(TextsPayload([texts[i]]))).Append?) ==>
      |PerText(texts, post).value| == |texts|
      && forall i :: 0 <= i < |texts| ==>
        PerText(texts, post).value[i] == PerTextStep(post(TextsPayload([texts[i]]))).vector
    decreases |texts|
  {
    if texts != [] {
      var init, last := texts[..|texts| - 1], texts[|texts| - 1];
      assert PerText(init, post).Some?;
      PerTextLength(init, post);
      var done := PerText(init, post).value;
      var step := PerTextStep(post(TextsPayload([last])));
      assert step.Fail? ==> PerText(texts, post).None?;
      assert step.Nothing? ==> PerText(texts, post) == Some(done);
      assert step.Append? ==> PerText(texts, post) == Some(done + [step.vector]);
      if forall i :: 0 <= i < |texts| ==> PerTextStep(post(TextsPayload([texts[i]]))).Append? {
        assert forall i :: 0 <= i < |init| ==> init[i] == texts[i];
        assert step.Append?;
      }
    }
  }

  /** The loop of the per-text path. */
  method PerTextEmbeddings(texts: seq<string>, post: Json -> HttpResponse) returns (r: Option<seq<Json>>)
    ensures r == PerText(texts, post)
  {
    var embeddings: seq<Json> := [];
    var i := 0;
    while i < |texts|
      invariant 0 <= i <= |texts|
      invariant PerText(texts[..i], post) == Some(embeddings)
    {
      assert texts[..i + 1][..i] == texts[..i];
      var step := PerTextStep(post(TextsPayload([texts[i]])));
      match step {
        case Fail =>
          PerTextFailureSticks(texts, i + 1, post);
          return None;
        case Nothing =>
        case Append(v) =>
          embeddings := embeddings + [v];
      }
      i := i + 1;
    }
    assert texts[..i] == texts;
    r := Some(embeddings);
  }

  // ---------------------------------------------------------------------------------------------
  // One batch

  /** `_call_embedding_api`: the list the batch request yields. */
  function EmbeddingCall(texts: seq<string>, post: Json -> HttpResponse): Json {
    var first := post(TextsPayload(texts));
    if first.Unreachable? then Zeros(texts)
    else
      var response := if first.status == 422 then post(InputPayload(texts)) else first;
      if response.Unreachable? then Zeros(texts)
      else if response.status == 422 then
        (match PerText(texts, post)
         case None => Zeros(texts)
         case Some(embeddings) => JArr(embeddings))
      else if IsHttpError(response.status) || response.body.None? then Zeros(texts)
      else ParseBatch(response.body.value).GetOr(Zeros(texts))
  }

  /** The retry chain: the "input" body is sent only after a 422 to the "texts" body, and one
      request per text only after a 422 to both; a second reply other than 422 is read exactly as a
      first reply would have been. */
  lemma RetryChain(texts: seq<string>, post: Json -> HttpResponse)
    ensures var first := post(TextsPayload(texts));
      first.Response? && first.status != 422 && !IsHttpError(first.status) && first.body.Some?
      ==> EmbeddingCall(texts, post) == ParseBatch(first.body.value).GetOr(Zeros(texts))
    ensures var first := post(TextsPayload(texts));
      var second := post(InputPayload(texts));
      first.Response? && first.status == 422 && second.Response? && second.status == 422
      ==> EmbeddingCall(texts, post) == (if PerText(texts, post).Some? then JArr(PerText(texts, post).value) else Zeros(texts))
    ensures var first := post(TextsPayload(texts));
      var second := post(InputPayload(texts));
      first.Response? && first.status == 422 ==>
        (second.Unreachable? ==> EmbeddingCall(texts, post) == Zeros(texts))
        && (second.Response? && second.status != 422 && (IsHttpError(second.status) || second.body.None?)
            ==> EmbeddingCall(texts, post) == Zeros(texts))
        && (second.Response? && second.status != 422 && !IsHttpError(second.status) && second.body.Some?
            ==> EmbeddingCall(texts, post) == ParseBatch(second.body.value).GetOr(Zeros(texts)))
  {
  }

  /** Every failure before the reply is read (transport, an error status other than 422, a body
      that is not JSON) gives exactly one zero vector of the configured dimension per text. */
  lemma FailureGivesZeros(texts: seq<string>, post: Json -> HttpResponse)
    requires var first := post(TextsPayload(texts));
      first.Unreachable? || (first.status != 422 && (IsHttpError(first.status) || first.body.None?))
    ensures EmbeddingCall(texts, post) == Zeros(texts)
  {
  }

  /** `_call_embedding_api` as the code runs it. */
  method CallEmbeddingApi(texts: seq<string>, post: Json -> HttpResponse) returns (r: Json)
    ensures r == EmbeddingCall(texts, post)
  {
    var response := post(TextsPayload(texts));
    if response.Unreachable? {
      return Zeros(texts);
    }
    if response.status == 422 {
      response := post(InputPayload(texts));
      if response.Unreachable? {
        return Zeros(texts);
      }
    }
    if response.status == 422 {
      var embeddings := PerTextEmbeddings(texts, post);
      match embeddings {
        case None => return Zeros(texts);
        case Some(e) => return JArr(e);
      }
    }
    if IsHttpError(response.status) || response.body.None? {
      return Zeros(texts);
    }
    var parsed := ParseBatch(response.body.value);
    r := parsed.GetOr(Zeros(texts));
  }

  // ---------------------------------------------------------------------------------------------
  // local_embedding

  /** What one batch appends to the overall list, or None when extending by it raises. */
  function BatchItems(post: Json -> HttpResponse): seq<string> -> Option<seq<Json>> {
    batch => Listed(EmbeddingCall(batch, post))
  }

  /** `local_embedding`: None when it raises, that is for a batch size of 0, for a batch result that
      a list cannot be extended by, or when the final log line cannot measure the first vector;
      a negative batch size gives no batches. */
  function LocalEmbeddingOf(texts: seq<string>, batchSize: int, post: Json -> HttpResponse): Option<seq<Json>> {
    if batchSize == 0 then None
    else if batchSize < 0 then Some([])
    else
      match Collect(texts, batchSize, BatchItems(post))
      case None => None
      case Some(all) => if all != [] && !HasLen(all[0]) then None else Some(all)
  }

  /** The result is the concatenation, in order, of what the consecutive batches return; no text
      means no request at all. */
  lemma LocalEmbeddingConcatenates(texts: seq<string>, batchSize: int, post: Json -> HttpResponse)
    requires batchSize > 0
    requires forall i :: 0 <= i < |Batches(texts, batchSize)| ==>
      BatchItems(post)(Batches(texts, batchSize)[i]).Some?
    requires LocalEmbeddingOf(texts, batchSize, post).Some?
    ensures |Batches(texts, batchSize)| == (|texts| + batchSize - 1) / batchSize
    ensures Flatten(Batches(texts, batchSize)) == texts
    ensures LocalEmbeddingOf(texts, batchSize, post).value ==
      Flatten(Outputs(Batches(texts, batchSize), BatchItems(post)))
    ensures texts == [] ==> LocalEmbeddingOf(texts, batchSize, post) == Some([])
  {
    BatchesCount(texts, batchSize);
    BatchesFlatten(texts, batchSize);
    CollectIsConcatenation(texts, batchSize, BatchItems(post));
  }

  /** When every batch request fails, the result is one zero vector per text. */
  lemma AllFailingGivesZeros(texts: seq<string>, batchSize: int, post: Json -> HttpResponse)
    requires batchSize > 0
    requires forall batch :: post(TextsPayload(batch)).Unreachable?
    ensures LocalEmbeddingOf(texts, batchSize, post) == Some(ZeroVectors(|texts|, Config.EMBEDDING_DIMENSION))
    decreases |texts|
  {
    if texts != [] {
      var n := Min(batchSize, |texts|);
      AllFailingGivesZeros(texts[n..], batchSize, post);
      assert ZeroVectors(n, Config.EMBEDDING_DIMENSION) + ZeroVectors(|texts| - n, Config.EMBEDDING_DIMENSION)
          == ZeroVectors(|texts|, Config.EMBEDDING_DIMENSION);
    }
  }

  /** `local_embedding` as the code runs it. */
  method LocalEmbedding(texts: seq<string>, batchSize: int, post: Json -> HttpResponse) returns (r: Option<seq<Json>>)
    ensures r == LocalEmbeddingOf(texts, batchSize, post)
  {
    if batchSize == 0 {
      return None;
    }
    var all: seq<Json> := [];
    if batchSize > 0 {
      var collected := CollectBatches(texts, batchSize, BatchItems(post));
      if collected.None? {
        return None;
      }
      all := collected.value;
    }
    if all != [] && !HasLen(all[0]) {
      return None;
    }
    r := Some(all);
  }
}
