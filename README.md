# A verified model of a PDF question-answering pipeline

This project models the core of a retrieval-augmented question-answering system over PDF files:

- **PDF reading** (`PdfProcessor`): loads the pages of a PDF, tags each page with the file's path and name, and extracts the non-empty pages, their numbers and the document metadata.
- **Chunking** (`Chunker`): joins the pages into one document and lets a text splitter cut it. Each chunk is numbered, stripped of surrounding whitespace and tagged with its `chunk_id`.
- **Embedding** (`Embedding`, `Vectorizer`): sends the texts to an embedding service in batches. Each client has its own request shapes, reply shapes and per-text retry. A failure falls back to zero vectors of dimension 1024.
- **Retrieval** (`Retriever`): builds the Elasticsearch bodies for hybrid, BM25-only and vector-only search, and turns the hits into candidate records. Any failure returns no results at all.
- **Re-ranking** (`Reranker`, `Fusion`): the main part of the model.
  - It either calls a re-ranking service and reads one of five reply shapes, or falls back to reciprocal rank fusion (RRF).
  - RRF gives each candidate the score `1/(60 + rank)`, summed over its id, sorts stably by descending score, writes the score into every candidate and returns the first `top_k`.
  - Several queries' result lists are concatenated and fused the same way.
- **Answer generation** (`AnswerGenerator`):
  - builds a length-bounded context and the prompt;
  - picks the model's request flags and the authentication headers;
  - retries once when the service rejects the temperature;
  - reads the reply in one of several shapes;
  - otherwise returns a built-in summary answer together with the sources.

The services (embedding, re-ranking, language model, Elasticsearch), the PDF loader, the file-existence test and the text splitter are all function parameters. Every result is stated as a function of what those parameters return.

Python values that the code inspects dynamically are the datatype `PyValue.Json`, so the model follows the code on every value shape, not only the expected ones. This covers `x in y` on a dict, list or string, `list.extend` by a string, and subscripts that raise.

An operation that raises inside a `try` becomes `None` or the source's fallback. An operation that raises to its caller becomes an error value.

Loops that update a list or dict step by step are methods. Each method is proved against a specification function, and the properties are proved about that function:

- Re-ranking writes the scores into the caller's result array in place.
- PDF loading tags the loaded pages in place, in an array.

The code behaves as follows where it is easy to misread:

- `rerank_multiple_queries` (src/reranker.py:247-252) concatenates the per-query lists and runs RRF once over the whole list. A candidate's rank is therefore its position in the concatenation, not its position within its own query (`Reranker.ConcatenatedRank`, with the worked example `Reranker.MultiQueryRanksAreGlobal`).
- A candidate without an `id` is accumulated under its rank as a string (src/reranker.py:199), but it is sorted and scored by a lookup under `""` (src/reranker.py:210 and 216-217). So it scores 0.0 unless some candidate has the id `""` (`Fusion.ScoreWithoutId`).
- The reply shape of the re-ranking service is decided by the first branch whose test passes, in the order of src/reranker.py:108-156. A `ranked_documents` list with no dict entry leads to the RRF fallback, even when a later key holds good entries (`Reranker.FirstPresentShapeDecides`, `Reranker.ReplyShapePrecedence`).
- The service indices are cut to `top_k` before out-of-range ones are skipped (src/reranker.py:166-167), so fewer than `top_k` results can come back. A negative index selects from the end of the list, as Python indexing does.

## Model

| member | source | states |
|---|---|---|
| Fusion.Contribution | src/reranker.py:194-200 | every rank contributes a positive RRF score |
| Fusion.ContributionDecreases | src/reranker.py:194-200 | an earlier rank contributes strictly more than a later one |
| Fusion.AccumulateIsRankSum | src/reranker.py:197-205 | the score table holds exactly the keys that occur (the id, or the rank as a string), each with the sum of `1/(60 + rank)` over its occurrences |
| Fusion.Accumulate | src/reranker.py:197-205 | the score table after the accumulation loop; characterized by Fusion.AccumulateIsRankSum and computed by Fusion.AccumulateScores |
| Fusion.RankSumSingle | src/reranker.py:198-205 | a key that occurs once scores exactly its own rank's contribution |
| Fusion.RrfKeys | src/reranker.py:210 | the sort key of each input is its table score, looked up by id or `""`, with 0.0 when absent |
| Fusion.SortKey | src/reranker.py:210 | `rrf_scores.get(x.get("id", ""), 0.0)`; its values over the inputs are stated by Fusion.RrfKeys, Fusion.ScoreOfId and Fusion.ScoreWithoutId |
| Fusion.InsertPermutes | src/reranker.py:208-212 | inserting a position into the sorted list adds exactly that position |
| Fusion.SortPositionsPermutes | src/reranker.py:208-212 | sorting positions is a permutation of them |
| Fusion.InRange | src/reranker.py:198 | the ranks' positions are exactly 0..n-1 |
| Fusion.StableOrder | src/reranker.py:208-212 | the sort order is a permutation of all input positions |
| Fusion.InsertOrdered | src/reranker.py:208-212 | insertion keeps the order "higher score first, input order among equals" |
| Fusion.SortPositionsOrdered | src/reranker.py:208-212 | sorting distinct positions yields that order |
| Fusion.StableOrderOrdered | src/reranker.py:208-212 | Python's stable descending sort: higher score first, equal scores in input order |
| Fusion.SortedKeysKeepOrder | src/reranker.py:208-212 | input that is already in descending score order is left in input order |
| Fusion.Scored | src/reranker.py:214-217 | every input keeps its place and all its fields except `rerank_score`, which becomes its RRF sort key |
| Fusion.Arrange | src/reranker.py:208-212 | the i-th output is the candidate at the i-th position of the order |
| Fusion.RrfOutput | src/reranker.py:207-219 | what `_rerank_with_rrf` returns; characterized by Fusion.RrfRanking and Fusion.DistinctIdsKeepOrder |
| Fusion.RrfRanking | src/reranker.py:207-219 | the output is the head of the ranking: scores descend, ties keep input order, no repeats, everything left out ranks after everything kept, and there are min(top_k, n) results for top_k >= 0 |
| Fusion.ScoreOfId | src/reranker.py:199-217 | a candidate with an id gets the summed RRF score of that id |
| Fusion.ScoreWithoutId | src/reranker.py:199-217 | a candidate without an id gets 0.0, because it was filed under its rank but is looked up under `""` |
| Fusion.DistinctIdsKeepOrder | src/reranker.py:194-219 | with distinct ids, rank r scores 1/(60 + r) and the output is the first top_k inputs in their own order |
| Fusion.AccumulateScores | src/reranker.py:197-205 | the accumulation loop computes the score table of the whole input |
| Fusion.WriteScores | src/reranker.py:214-217 | every candidate object gets its table score written as `rerank_score`, in place; nothing else changes |
| Fusion.RerankWithRrf | src/reranker.py:182-219 | `_rerank_with_rrf` updates the caller's candidates in place with their scores and returns the RRF ranking cut at top_k |
| Reranker.NewReranker | src/reranker.py:15-25 | a missing or empty URL means the configured one; top_k is 10 |
| Reranker.RequestTexts | src/reranker.py:73 | the texts exist exactly when every candidate has text, one per candidate in order |
| Reranker.RerankPayload | src/reranker.py:76-81 | the request has exactly query, documents (the texts in order), model and top_k |
| Reranker.SelectEntries | src/reranker.py:97-162 | which entry list the reply is read from, in the order ranked_documents, results, data, list, result, or that reading raises; characterized by Reranker.ReplyShapePrecedence, Reranker.ListReplyShape, Reranker.EntryScorePrefers and Reranker.FirstPresentShapeDecides |
| Reranker.ParseItems | src/reranker.py:108-156 | the parse of the chosen entries; characterized by Reranker.ParsedIndices, Reranker.ParsedScores and Reranker.WellFormedEntriesParse, computed by Reranker.ParseEntries |
| Reranker.ParsedIndices | src/reranker.py:108-156 | parsing succeeds exactly when every dict entry's index (or rank, or position) is hashable; the indices are those of the dict entries, in order |
| Reranker.ScoresOfLastStep | src/reranker.py:112-115 | one more entry keeps "each index key holds the score of its last entry" |
| Reranker.ParsedScores | src/reranker.py:112-115 | the score table has a key for each parsed index and no other, holding the score of the last entry with that key |
| Reranker.ParseFailureSticks | src/reranker.py:108-156 | a prefix that fails to parse makes the whole reply fail |
| Reranker.ParseEntries | src/reranker.py:108-156 | the parsing loop computes the parse of the chosen entries |
| Reranker.PickIndex | src/reranker.py:165-170 | an integer 0 <= i < n picks i, an integer -n <= i < 0 picks n + i, a boolean picks 0 or 1; an index is skipped exactly when it is a number (or boolean) >= n; it raises exactly for an integer below -n, a float below n, or a string, null, list or dict |
| Reranker.ReorderFrom | src/reranker.py:165-170 | the reorder of the index window; characterized by Reranker.ReorderFails, Reranker.ReorderedCopies and Reranker.InRangeIndicesAllEmitted, computed by Reranker.ReorderEntries |
| Reranker.ReorderFails | src/reranker.py:165-172 | reordering fails exactly when some index raises |
| Reranker.ReorderedCopies | src/reranker.py:165-172 | each output is a copy of the candidate its index picks, carrying its score; the outputs are in index order; every index left out was out of range |
| Reranker.InRangeIndicesAllEmitted | src/reranker.py:165-172 | in-range integer indices yield exactly one copy each, in order |
| Reranker.ReorderEntries | src/reranker.py:165-172 | the reorder loop computes the reordering of the first top_k indices |
| Reranker.InterpretReply | src/reranker.py:93-172 | the list a service reply yields, or the fallback; characterized by Reranker.ReplyShapePrecedence, Reranker.ListReplyShape, Reranker.ResultsShapeReorders and Reranker.FirstPresentShapeDecides |
| Reranker.ApiOutcome | src/reranker.py:71-172 | `_rerank_with_api` before its fallback; characterized by Reranker.ApiOutputIsCopies |
| Reranker.ApiOutputIsCopies | src/reranker.py:54-172 | a service result is at most top_k copies of input candidates, each with a score |
| Reranker.FirstPresentShapeDecides | src/reranker.py:108-162 | a `ranked_documents` list with no dict entry yields no result (the RRF fallback), whatever else the reply holds |
| Reranker.ReplyShapePrecedence | src/reranker.py:108-156 | a dict reply is read from ranked_documents if it holds a list, else results, else data, else a result list, else result.results; only results and result.results prefer relevance_score; without any of these keys there are no entries |
| Reranker.ListReplyShape | src/reranker.py:108-139 | a top-level list is read whole, with score preferred, unless "ranked_documents", "results" or "data" is one of its elements, which raises |
| Reranker.EntryScorePrefers | src/reranker.py:113-153 | an entry's score is its preferred key if present, else the other key, else 0.0 |
| Reranker.DictsOfNoDicts | src/reranker.py:110-111 | entries that are not dicts contribute nothing |
| Reranker.DistinctKeysScores | src/reranker.py:112-115 | with distinct index keys, each index's score is its own entry's score |
| Reranker.WellFormedEntriesParse | src/reranker.py:108-156 | distinct integer "index" entries parse to their indices and scores |
| Reranker.ResultsShapeReorders | src/reranker.py:93-172 | a `results` reply with distinct in-range indices returns those candidates in reply order, cut at top_k, with their scores |
| Reranker.DictsOfDicts | src/reranker.py:110-111 | when every entry is a dict, they are all kept in order |
| Reranker.RerankWithApi | src/reranker.py:54-180 | the service outcome leaves the candidates unchanged; any failure falls back to RRF, which scores them in place |
| Reranker.Rerank | src/reranker.py:27-52 | no results gives []; otherwise the service or RRF path, with top_k defaulting to 10 |
| Reranker.RerankLengthBound | src/reranker.py:172-219 | either path returns at most top_k results |
| Reranker.RerankMultipleQueries | src/reranker.py:221-252 | empty queries or lists give []; a length mismatch raises ValueError; otherwise RRF over the concatenated lists |
| Reranker.ConcatenatedRank | src/reranker.py:247-249 | a candidate's position in the concatenation is its position in its list plus the lengths of the lists before it |
| Reranker.MultiQueryRanksAreGlobal | src/reranker.py:247-252 | worked example of Reranker.ConcatenatedRank with Fusion.ScoreOfId: an id at positions 1 and 3 of the concatenation scores 1/61 + 1/63 |
| Reranker.ThreeDistinctIds | src/reranker.py:194-219 | worked example of Fusion.DistinctIdsKeepOrder: three distinct ids with top_k 2 give the first two, scored 1/61 and 1/62 |
| Retriever.NewRetriever | src/retriever.py:12-25 | the index name is kept; the weights are 0.3 and 0.7 |
| Retriever.Field | src/retriever.py:114-115 | a nested field exists exactly when the value is a dict holding it |
| Retriever.Vector | src/retriever.py:99-101 | the query vector is the embedding, component by component, as JSON numbers |
| Retriever.HybridBody | src/retriever.py:73-111 | the hybrid body before the filter; characterized by Retriever.HybridRequestTop and Retriever.HybridRequestClauses |
| Retriever.FilterChangesNothingElse | src/retriever.py:114-115 | adding the filter sets `query.bool.filter` and changes nothing else |
| Retriever.WithFilter | src/retriever.py:114-115 | the body with `query.bool.filter` set; characterized by Retriever.FilterChangesNothingElse |
| Retriever.HybridRequest | src/retriever.py:73-115 | the body `search` sends; characterized by Retriever.HybridRequestTop and Retriever.HybridRequestClauses |
| Retriever.HybridRequestTop | src/retriever.py:70-115 | size is top_k or 10, min_score 0.1, the three source fields; a filter exactly when `filters` is truthy |
| Retriever.HybridRequestClauses | src/retriever.py:73-108 | two should-clauses: a match on text boosted by the BM25 weight, and the guarded cosine script boosted by the vector weight |
| Retriever.SingleSearchShapes | src/retriever.py:158-231 | the BM25 body has no min_score; the vector body has min_score 0.1 and the unguarded script |
| Retriever.Bm25Request | src/retriever.py:160-168 | the body of `search_bm25_only`; characterized by Retriever.SingleSearchShapes |
| Retriever.VectorRequest | src/retriever.py:216-231 | the body of `search_vector_only`; characterized by Retriever.SingleSearchShapes |
| Retriever.HitRecord | src/retriever.py:132-139 | a hit gives a record exactly when it is well formed (dict hit and `_source`, string text, chunk_id, dict or no metadata, `_score`, string `_id`); the record takes text, chunk_id, metadata (default {}), score and id from the hit |
| Retriever.HitRecords | src/retriever.py:131-139 | the records exist exactly when every hit converts, one per hit in order |
| Retriever.CollectHits | src/retriever.py:131-141 | the hit loop computes the records |
| Retriever.SearchResults | src/retriever.py:132-139 | `response["hits"]["hits"]` and the loop over it; characterized by Retriever.SearchIsAllOrNothing |
| Retriever.RunSearch | src/retriever.py:117-145 | a failing client or an unreadable response gives [] |
| Retriever.Search | src/retriever.py:51-145 | `search` is the search run on the hybrid body |
| Retriever.SearchBm25Only | src/retriever.py:147-197 | `search_bm25_only` is the search run on the BM25 body |
| Retriever.SearchVectorOnly | src/retriever.py:199-261 | `search_vector_only` is the search run on the vector body |
| Retriever.SearchIsAllOrNothing | src/retriever.py:131-145 | the search yields records exactly when every hit is well formed, then one per hit in order; one malformed hit empties the whole result |
| AnswerGenerator.NewAnswerGenerator | src/answer_generator.py:15-24 | a missing or empty URL means the configured one; the key and model are the configured ones |
| AnswerGenerator.Texts | src/answer_generator.py:68-85 | each document contributes its text, or "" |
| AnswerGenerator.ContextFrom | src/answer_generator.py:68-85 | the parts `_build_context` collects; characterized by the four lemmas below, computed by AnswerGenerator.BuildContext |
| AnswerGenerator.ContextWithinLimit | src/answer_generator.py:68-85 | the context parts never exceed max_length in total |
| AnswerGenerator.ContextPartsAreDocs | src/answer_generator.py:68-85 | the parts are the documents' texts in order; only the last may be a truncated prefix, longer than 100 characters |
| AnswerGenerator.ContextIsGreedy | src/answer_generator.py:68-85 | the first document not taken whole would have overflowed the limit |
| AnswerGenerator.ContextFitsWhole | src/answer_generator.py:71-83 | some number w of leading texts are kept whole, the parts continue with what the remaining texts yield after them, and when a text is left over it is the first one that no longer fits |
| AnswerGenerator.ContextIsWholeTextsThenCut | src/answer_generator.py:68-85 | the parts are the leading texts that fit whole, then the next text cut to exactly the room left when more than 100 characters remain, and nothing more otherwise |
| AnswerGenerator.BuildContext | src/answer_generator.py:57-85 | `_build_context` joins the greedy parts with blank lines |
| AnswerGenerator.BuildPrompt | src/answer_generator.py:270-289 | the prompt is, in order, the fixed head, the context, the "Question: " label, the query and the answer tail |
| AnswerGenerator.FixedTemperatureMeansCompletionTokens | src/answer_generator.py:104-117 | every model restricted to the default temperature also uses max_completion_tokens |
| AnswerGenerator.RequestPayload | src/answer_generator.py:119-148 | the model name, two messages (the fixed system message, then the user prompt), temperature 0.7 or 1, and either max_completion_tokens 2000 or max_tokens 500 |
| AnswerGenerator.Headers | src/answer_generator.py:150-165 | JSON content type; no key means no auth; x-api-key and version for Anthropic URLs that are not OpenAI; Bearer otherwise |
| AnswerGenerator.TemperatureRetry | src/answer_generator.py:176-193 | a 400 is retried exactly when its body is a dict whose "error" is a dict with a string message that mentions "temperature" (any case) or a param "temperature"; it raises past the handler exactly when `"error" in` or the subscripts, `.get` or `.lower()` fail; otherwise the response is kept |
| AnswerGenerator.RetryChangesOnlyTemperature | src/answer_generator.py:185 | the retried request differs only in temperature, which becomes 1 |
| AnswerGenerator.ReplyPrecedence | src/answer_generator.py:203-230 | a non-dict reply is unreadable; `choices[0].message.content` wins; with choices missing or falsy, top-level content, then text, then the fixed error text |
| AnswerGenerator.ReplyFromFirstChoice | src/answer_generator.py:209-223 | with truthy choices: no list of dicts is unreadable; a dict message gives its content, or "" when falsy; a string message is the answer; any other message gives None |
| AnswerGenerator.ParseLlmReply | src/answer_generator.py:203-230 | the answer read from the reply; characterized by AnswerGenerator.ReplyPrecedence and AnswerGenerator.ReplyFromFirstChoice |
| AnswerGenerator.SimpleAnswer | src/answer_generator.py:239-268 | no context gives the not-found message; otherwise, in order, the header, the first 500 characters, the count line and the note |
| AnswerGenerator.CountLine | src/answer_generator.py:262-263 | the count line is empty exactly when there are no documents |
| AnswerGenerator.ApiFailureFallsBack | src/answer_generator.py:232-237 | an unreachable service or an error status (other than a 400 retry) gives the simple answer with no count line |
| AnswerGenerator.ApiAnswer | src/answer_generator.py:87-237 | `_generate_with_api`; characterized by AnswerGenerator.ApiFailureFallsBack, AnswerGenerator.TemperatureRetry and AnswerGenerator.ReplyPrecedence |
| AnswerGenerator.GenerateAnswer | src/answer_generator.py:26-55 | no documents gives the not-found message; with a URL and key, the service path; otherwise the simple answer |
| AnswerGenerator.SourceOf | src/answer_generator.py:308-318 | a source is the text cut to 200 characters, the file name (default "Unknown"), the page number and the chunk id |
| AnswerGenerator.GenerateAnswerWithSources | src/answer_generator.py:291-326 | the answer, plus one source per document in order, plus their number |
| AnswerGenerator.CollectSources | src/answer_generator.py:308-319 | the source loop makes one source per document, in order |
| Batching.BatchesFlatten | src/embedding.py:31-32 | the slices concatenate back to the input |
| Batching.BatchesCount | src/embedding.py:29-31 | there are `(len + size - 1) // size` slices |
| Batching.BatchesSizes | src/embedding.py:31-32 | every slice holds batch_size items except the last, which holds between 1 and batch_size |
| Batching.CollectIsConcatenation | src/embedding.py:31-36 | the collected list exists exactly when no batch raised, and is the concatenation of the batch results in order |
| Batching.CollectBatches | vectorizer.py:50-54 | the batch loop computes the collected list |
| PyValue.Listed | src/embedding.py:36 | what `list.extend` appends: a list's items, a string's characters, nothing for an empty dict |
| PyValue.First | vectorizer.py:36 | `x[0]` of a non-empty list or string |
| Embedding.TextsPayload | src/embedding.py:58-61 | the first request has exactly texts and model |
| Embedding.InputPayload | src/embedding.py:79-90 | the retry after 422, and every request of vectorizer.py:71-74, has exactly input and model |
| Embedding.Zeros | src/embedding.py:184-205 | one 1024-wide zero vector per text |
| Embedding.Logged | src/embedding.py:179-182 | the success log survives exactly when the value is falsy, a string, or a list whose first item has a length |
| Embedding.EmbeddingFields | src/embedding.py:152-158 | a `data` list gives each item's embedding, only when every item is a dict holding one |
| Embedding.ParseBatchPrecedence | src/embedding.py:143-177 | `data` is looked at first, then `embeddings`, then `embedding`; none of them raises |
| Embedding.ParseBatchNeedsLength | src/embedding.py:150-163 | a `text_vectors` or `embeddings` value without a length raises in the debug line, so the reply is unreadable |
| Embedding.ParseBatchUnchecked | src/embedding.py:160-169 | a single `embedding` is wrapped in a list, and `embeddings` is taken as it is |
| Embedding.ParseBatchReadsVectorLists | src/embedding.py:146-177 | a vector list whose first vector has a length is read as it is, as the whole reply, `data.text_vectors`, `embeddings` or the `data` items' `embedding` fields |
| Embedding.ParseBatch | src/embedding.py:143-182 | the embeddings read from a batch reply; characterized by the ParseBatch lemmas above |
| Embedding.PerTextFailureSticks | src/embedding.py:94-132 | one failing text makes the whole per-text fallback fail |
| Embedding.PerTextStepReadsFirstVector | src/embedding.py:102-126 | a 200 reply gives the first `text_vectors` vector, the first `data` item's embedding, `embedding` or the first of `embeddings`; empty `text_vectors` gives nothing; any other status fails |
| Embedding.PerTextStep | src/embedding.py:102-126 | what one per-text reply contributes; characterized by Embedding.PerTextStepReadsFirstVector |
| Embedding.PerText | src/embedding.py:97-132 | the per-text loop; characterized by Embedding.PerTextFailureSticks and Embedding.PerTextLength |
| Embedding.PerTextLength | src/embedding.py:94-132 | at most one vector per text; exactly one per text, in order, when every reply has one |
| Embedding.PerTextEmbeddings | src/embedding.py:94-132 | the per-text loop computes the per-text result |
| Embedding.RetryChain | src/embedding.py:58-182 | a first reply other than 422 is parsed; after a 422 the "input" reply is read the same way (zeros when unreachable, on an error status or without a JSON body, else the parsed list); a second 422 switches to one request per text |
| Embedding.FailureGivesZeros | src/embedding.py:184-205 | a failed first request gives zero vectors |
| Embedding.CallEmbeddingApi | src/embedding.py:46-205 | `_call_embedding_api` computes the call's result |
| Embedding.EmbeddingCall | src/embedding.py:46-205 | `_call_embedding_api`; characterized by Embedding.RetryChain and Embedding.FailureGivesZeros |
| Embedding.LocalEmbeddingConcatenates | src/embedding.py:14-43 | ceil(n / batch_size) batches, which cover the texts; the result is the batch results concatenated in order |
| Embedding.AllFailingGivesZeros | src/embedding.py:184-193 | when the service is unreachable, every text gets a zero vector |
| Embedding.LocalEmbedding | src/embedding.py:14-43 | `local_embedding` computes its specification |
| Embedding.LocalEmbeddingOf | src/embedding.py:14-43 | `local_embedding`; characterized by Embedding.LocalEmbeddingConcatenates and Embedding.AllFailingGivesZeros |
| Vectorizer.NewVectorizer | vectorizer.py:15-23 | a missing or empty URL means the configured one; the dimension is 1024 |
| Vectorizer.DataEmbeddings | vectorizer.py:91-95 | a `data` list gives each item's embedding, only when every item is a dict holding one |
| Vectorizer.ParseReplyShapes | vectorizer.py:91-101 | `data` wins over `embeddings`; a list is taken whole unless it holds one of the key strings; anything else raises |
| Vectorizer.ParseReply | vectorizer.py:91-101 | the embeddings read from a reply; characterized by Vectorizer.ParseReplyShapes and Vectorizer.DataEmbeddings |
| Vectorizer.EmbeddingCall | vectorizer.py:58-111 | any failure gives zero vectors; otherwise the parsed reply |
| Vectorizer.EmbedBatchConcatenates | vectorizer.py:38-56 | the result is the batch results concatenated in order, over batches that cover the texts |
| Vectorizer.EmbedBatchOf | vectorizer.py:38-56 | `embed_batch`; characterized by Vectorizer.EmbedBatchConcatenates and Vectorizer.FailedBatchGivesZeros |
| Vectorizer.FailedBatchGivesZeros | vectorizer.py:105-111 | an unreachable service gives one zero vector per text of the batch |
| Vectorizer.EmbedBatch | vectorizer.py:38-56 | `embed_batch`: batch size 0 raises; a negative size gives []; otherwise the collected list |
| Vectorizer.Embed | vectorizer.py:25-36 | `embed` is the first vector, None when there is none, and raises when the batch call raises |
| Vectorizer.EmbedOneBatch | vectorizer.py:25-36 | one text is one batch; an unreachable service gives the zero vector |
| Chunker.NewTextChunker | src/chunker.py:46-57 | a missing or zero size or overlap means the configured 500 or 50 |
| Chunker.Contents | src/chunker.py:94-96 | the page contents, in page order |
| Chunker.Combined | src/chunker.py:94-106 | the split document is the pages joined by blank lines, with the first page's metadata |
| Chunker.NumberPieces | src/chunker.py:111-125 | one chunk per piece, in order, none dropped |
| Chunker.ChunkOf | src/chunker.py:113-125 | the chunk made from one piece; characterized by Chunker.ChunksNumberedAndTrimmed |
| Chunker.ChunksOf | src/chunker.py:111-125 | one chunk per piece, the i-th made from the i-th piece |
| Chunker.ChunkDocuments | src/chunker.py:67-139 | no pages gives []; otherwise the numbered chunks of the split combined document |
| Chunker.ChunksNumberedAndTrimmed | src/chunker.py:111-125 | chunk ids are 0, 1, 2, ..., also in the metadata, which otherwise is the piece's; each text is stripped and has no whitespace at its ends |
| Chunker.ChunkText | src/chunker.py:141-159 | empty or blank text gives []; otherwise the chunks of one page holding the text and its metadata |
| PdfProcessor.BasenameIsLastSegment | pdf_processor.py:43 | the base name is the '/'-free suffix that follows the last '/' |
| PdfProcessor.Basename | pdf_processor.py:43 | `os.path.basename`; characterized by PdfProcessor.BasenameIsLastSegment |
| PdfProcessor.AnnotatedTagsOnlyPagesWithMetadata | pdf_processor.py:44-47 | pages with metadata gain exactly file_path and file_name; pages without, and all texts, are unchanged |
| PdfProcessor.Annotated | pdf_processor.py:44-47 | one page after tagging; characterized by PdfProcessor.AnnotatedTagsOnlyPagesWithMetadata |
| PdfProcessor.AnnotatedPages | pdf_processor.py:42-49 | every loaded page is tagged, in order |
| PdfProcessor.AnnotatePages | pdf_processor.py:42-47 | the tagging loop updates every page in place |
| PdfProcessor.LoadPages | pdf_processor.py:25-49 | a missing file raises FileNotFoundError with the path; otherwise the tagged loaded pages |
| PdfProcessor.TextsOf | pdf_processor.py:82 | the texts of the page list, in order |
| PdfProcessor.KeptPages | pdf_processor.py:74-82 | the page list; characterized by PdfProcessor.KeptPagesAreTheNonEmptyPages |
| PdfProcessor.KeptPagesAreTheNonEmptyPages | pdf_processor.py:74-82 | the page list is exactly the non-empty pages, in order, each numbered by its "page" metadata or by its position in the list plus one |
| PdfProcessor.DocumentMetadataDescribesFile | pdf_processor.py:84-96 | the metadata has exactly the ten keys, total_pages counts every loaded page (skipped ones included), and it carries the path and the base name |
| PdfProcessor.DocumentMetadataFromFirstPage | pdf_processor.py:71-90 | title, author, subject, creator and producer are the first page's, with "" defaults |
| PdfProcessor.DocumentMetadataDates | pdf_processor.py:71-92 | creation_date and modification_date (read from "mod_date") are the first page's, as strings, with "" defaults |
| PdfProcessor.DocumentMetadataWithoutPages | pdf_processor.py:71-92 | without pages all seven descriptive fields are "" |
| PdfProcessor.DocumentMetadata | pdf_processor.py:84-96 | the metadata dict; characterized by the three DocumentMetadata lemmas above and PdfProcessor.DocumentMetadataDescribesFile |
| PdfProcessor.Aggregate | pdf_processor.py:66-105 | the loop builds the page list, the blank-line-joined text and the metadata |
| PdfProcessor.ExtractText | pdf_processor.py:51-105 | `extract_text` fails as loading does, and otherwise aggregates the tagged pages |

## Left out

- Transport, timeouts, logging and the headers sent to the re-ranking and embedding services are not modelled. Each service is a pure function of the request it receives, so two identical requests get the same reply.
- Floating point: scores are `real`. The RRF scores `1/(60 + r)` are exact, so float rounding and the tie-breaking it can cause are not modelled.
- The Elasticsearch client's `TypeError` fallback from keyword arguments to `body=` is not modelled, and neither is its connection setup. The client is one function of the index and the body.
- Candidate records are typed: a hit whose text or `_id` is not a string, or whose metadata is not a dict, counts as a malformed hit.
- The Painless script sources are constants, and their whitespace is not reproduced exactly.
- `str()` of a non-string value (`PyValue.PyStr`) is a placeholder, not Python's rendering.
- `.lower()` folds ASCII letters only.
- PyValue.Listed: extending a list by a non-empty dict appends its keys in insertion order. The model does not keep dict key order, so this case counts as a failure.
- Token counting with tiktoken (the chunk-size statistics and logs in `src/chunker.py`) is left out. The text splitter is the parameter `split`, so how pieces are cut and overlapped is not modelled.
- Chunker.NewTextChunker: always returns the settings. In the source, the constructor also builds the text splitter (src/chunker.py:60-65), and the splitter library raises `ValueError` when the overlap exceeds the size. For example, `TextChunker(chunk_size=40)` keeps the configured overlap 50 and raises. The splitter's own checks are not part of this model.
- Chunker.ChunkDocuments: always returns chunks. In the source, `num_tokens_from_string` (src/chunker.py:27-40) counts the tokens of every page (line 89) and of every chunk (line 118). The splitter also uses it as its length function (line 63). The tokenizer library raises `ValueError` on text that contains a special token such as `<|endoftext|>`, so `chunk_documents` raises for such a document. Token counting is not modelled, so that raise is lost.
- Chunker.ChunkText: calls `chunk_documents`, so it loses the same tokenizer raise.
- The PDF loader (PyMuPDFLoader) is the parameter `loader`, and `os.path.exists` is the parameter `fileExists`.
- `Vectorizer.normalize_embedding` (vectorizer.py:113-127) is NumPy floating-point arithmetic and is not modelled.
- The language-model key is a string, with "" for an unset key.
- Reranker.RerankMultipleQueries: the concatenated candidates are a fresh array. The model therefore does not show that the scores land in the callers' own lists, which share those dicts in Python.
- Embedding.LocalEmbedding: each batch call inside the loop uses the specification function of `_call_embedding_api`. The method `CallEmbeddingApi` shows that the call computes that function.
