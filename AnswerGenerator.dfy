/** The answer generator of src/answer_generator.py: the length-bounded context, the prompt, the
    request to the language model (token-limit and temperature flags, authentication headers,
    one retry on a temperature error), the tolerant reading of its reply, the template answer
    used without a model or after a failure, and the list of cited sources. The model's HTTP
    endpoint is the parameter `llm`. */
module AnswerGenerator {
  import opened Common
  import opened PyValue
  import opened Candidates

  /** What an `AnswerGenerator` keeps from its construction. */
  datatype Settings = Settings(llmApiUrl: string, llmApiKey: string, model: string)

  /** `AnswerGenerator(llm_api_url)`: a missing or empty URL means the configured one; key and
      model are the configured ones. */
  function NewAnswerGenerator(llmApiUrl: Option<string>, configuredUrl: string, configuredKey: string,
                              configuredModel: string): (r: Settings)
    ensures llmApiUrl.Some? && llmApiUrl.value != "" ==> r.llmApiUrl == llmApiUrl.value
    ensures llmApiUrl.None? || llmApiUrl.value == "" ==> r.llmApiUrl == configuredUrl
    ensures r.llmApiKey == configuredKey && r.model == configuredModel
  {
    Settings(StrOr(llmApiUrl, configuredUrl), configuredKey, configuredModel)
  }

  const NotFoundMessage: string := "I couldn't find any relevant information to answer your question."

  // ---------------------------------------------------------------------------------------------
  // The context

  /** `doc.get("text", "")` for every document. */
  function Texts(docs: seq<Candidate>): (r: seq<string>)
    ensures |r| == |docs| && forall i :: 0 <= i < |docs| ==> r[i] == docs[i].text.GetOr("")
  {
    seq(|docs|, i requires 0 <= i < |docs| => docs[i].text.GetOr(""))
  }

  /** The parts `_build_context` collects from the texts still ahead, having `current` characters
      already: whole texts while they fit, then the first one that does not fit cut to the room
      left, only when more than 100 characters of room are left, and nothing after it. */
  function ContextFrom(texts: seq<string>, current: int, maxLength: int): seq<string>
    decreases |texts|
  {
    if texts == [] then []
    else if current + |texts[0]| > maxLength then
      var remaining := maxLength - current;
      if remaining > 100 then [texts[0][..remaining]] else []
    else [texts[0]] + ContextFrom(texts[1..], current + |texts[0]|, maxLength)
  }

  /** The collected parts never hold more characters than the limit (separators aside). */
  lemma {:induction false} ContextWithinLimit(texts: seq<string>, current: int, maxLength: int)
    requires current >= 0
    ensures current + TotalLength(ContextFrom(texts, current, maxLength)) <= Max(current, maxLength)
    decreases |texts|
  {
    if texts != [] && current + |texts[0]| <= maxLength {
      var rest := ContextFrom(texts[1..], current + |texts[0]|, maxLength);
      ContextWithinLimit(texts[1..], current + |texts[0]|, maxLength);
      TotalLengthFront(texts[0], rest);
    } else if texts != [] && maxLength - current > 100 {
      var part := texts[0][..maxLength - current];
      assert [part][..0] == [];
    }
  }

  /** Every part is the text at its position, except possibly the last, which may instead be a
      proper prefix of its text longer than 100 characters. */
  lemma {:induction false} ContextPartsAreDocs(texts: seq<string>, current: int, maxLength: int)
    ensures |ContextFrom(texts, current, maxLength)| <= |texts|
    ensures forall i :: 0 <= i < |ContextFrom(texts, current, maxLength)| - 1 ==>
      ContextFrom(texts, current, maxLength)[i] == texts[i]
    ensures var parts := ContextFrom(texts, current, maxLength);
      parts != [] ==>
        parts[|parts| - 1] == texts[|parts| - 1]
        || (100 < |parts[|parts| - 1]| < |texts[|parts| - 1]|
            && parts[|parts| - 1] == texts[|parts| - 1][..|parts[|parts| - 1]|])
    decreases |texts|
  {
    if texts != [] && current + |texts[0]| <= maxLength {
      ContextPartsAreDocs(texts[1..], current + |texts[0]|, maxLength);
    }
  }

  /** The number of parts that are whole texts. */
  function WholeParts(texts: seq<string>, parts: seq<string>): nat
    requires |parts| <= |texts|
  {
    if parts != [] && parts[|parts| - 1] != texts[|parts| - 1] then |parts| - 1 else |parts|
  }

  /** The loop stops only at a text that would overflow: when not every text went in whole, the
      first text left out whole would have taken the total past the limit. */
  lemma {:induction false} ContextIsGreedy(texts: seq<string>, current: int, maxLength: int)
    ensures |ContextFrom(texts, current, maxLength)| <= |texts|
    ensures var parts := ContextFrom(texts, current, maxLength);
      var w := WholeParts(texts, parts);
      w < |texts| ==> current + TotalLength(texts[..w]) + |texts[w]| > maxLength
    decreases |texts|
  {
    ContextPartsAreDocs(texts, current, maxLength);
    if texts != [] && current + |texts[0]| <= maxLength {
      var parts := ContextFrom(texts, current, maxLength);
      var rest := ContextFrom(texts[1..], current + |texts[0]|, maxLength);
      ContextIsGreedy(texts[1..], current + |texts[0]|, maxLength);
      ContextPartsAreDocs(texts[1..], current + |texts[0]|, maxLength);
      assert parts == [texts[0]] + rest;
      var w := WholeParts(texts, parts);
      var wr := WholeParts(texts[1..], rest);
      if rest != [] {
        assert parts[|parts| - 1] == rest[|rest| - 1];
        assert texts[|parts| - 1] == texts[1..][|rest| - 1];
      }
      assert w == wr + 1;
      if w < |texts| {
        assert texts[..w] == [texts[0]] + texts[1..][..wr];
        TotalLengthFront(texts[0], texts[1..][..wr]);
        assert texts[w] == texts[1..][wr];
      }
    } else if texts != [] {
      assert texts[..0] == [];
    }
  }

  /** The first w texts fit whole; the parts are those texts followed by whatever the rest yields. */
  lemma {:induction false} ContextFitsWhole(texts: seq<string>, current: int, maxLength: int)
    returns (w: nat)
    ensures w <= |texts|
    ensures ContextFrom(texts, current, maxLength)
      == texts[..w] + ContextFrom(texts[w..], current + TotalLength(texts[..w]), maxLength)
    ensures w < |texts| ==> current + TotalLength(texts[..w]) + |texts[w]| > maxLength
    decreases |texts|
  {
    if texts == [] || current + |texts[0]| > maxLength {
      w := 0;
      assert texts[..0] == [] && texts[0..] == texts;
    } else {
      var w1 := ContextFitsWhole(texts[1..], current + |texts[0]|, maxLength);
      w := w1 + 1;
      assert texts[..w] == [texts[0]] + texts[1..][..w1];
      assert texts[w..] == texts[1..][w1..];
      TotalLengthFront(texts[0], texts[1..][..w1]);
    }
  }

  /** The parts are the longest run of leading texts that fits, w of them, then, when a text is
      left over, that text cut to the room left if more than 100 characters of room are left, and
      nothing otherwise. */
  lemma ContextIsWholeTextsThenCut(texts: seq<string>, current: int, maxLength: int)
    returns (w: nat)
    ensures w <= |texts|
    ensures w == |texts| ==> ContextFrom(texts, current, maxLength) == texts
    ensures w < |texts| ==> current + TotalLength(texts[..w]) + |texts[w]| > maxLength
    ensures w < |texts| ==>
      var remaining := maxLength - current - TotalLength(texts[..w]);
      (remaining > 100 ==>
         remaining < |texts[w]| && ContextFrom(texts, current, maxLength) == texts[..w] + [texts[w][..remaining]])
      && (remaining <= 100 ==> ContextFrom(texts, current, maxLength) == texts[..w])
  {
    w := ContextFitsWhole(texts, current, maxLength);
    if w == |texts| {
      assert texts[..w] == texts && texts[w..] == [];
    } else {
      var tail := texts[w..];
      assert tail[0] == texts[w];
    }
  }

  /** `_build_context`: the loop over the documents, then the parts joined by blank lines. */
  method BuildContext(docs: seq<Candidate>, maxLength: int) returns (context: string)
    ensures context == Join(ContextFrom(Texts(docs), 0, maxLength), "\n\n")
  {
    ghost var texts := Texts(docs);
    var parts: seq<string> := [];
    var current := 0;
    var i := 0;
    while i < |docs|
      invariant 0 <= i <= |docs|
      invariant parts + ContextFrom(texts[i..], current, maxLength) == ContextFrom(texts, 0, maxLength)
    {
      var text := docs[i].text.GetOr("");
      assert texts[i..][0] == text;
      if current + |text| > maxLength {
        var remaining := maxLength - current;
        if remaining > 100 {
          parts := parts + [text[..remaining]];
        }
        assert parts == ContextFrom(texts, 0, maxLength);
        context := Join(parts, "\n\n");
        return;
      }
      assert texts[i..][1..] == texts[i + 1..];
      parts := parts + [text];
      current := current + |text|;
      i := i + 1;
    }
    assert texts[i..] == [];
    assert parts + ContextFrom(texts[i..], current, maxLength) == parts + [] == parts;
    context := Join(parts, "\n\n");
  }

  // ---------------------------------------------------------------------------------------------
  // The request

  /** `_build_prompt`. */
  function BuildPrompt(query: string, context: string): (r: string)
    ensures r == PromptHead + context + QuestionLabel + query + PromptTail
  {
    PromptHead + context + QuestionLabel + query + PromptTail
  }

  const QuestionLabel: string := "\n\nQuestion: "

  const PromptHead: string :=
    "Based on the following context, please answer the question. If the context doesn't contain enough "
    + "information to answer the question, please say so.\n\nContext:\n"

  const PromptTail: string := "\n\nAnswer:"

  const SystemMessage: string :=
    "You are a helpful assistant that answers questions based on the provided context. If the context "
    + "doesn't contain enough information, say so."

  /** The model takes `max_completion_tokens` rather than `max_tokens`. */
  predicate UsesMaxCompletionTokens(model: string) {
    Contains(Lower(model), "gpt-4o") || Contains(Lower(model), "gpt-5") || Contains(Lower(model), "o1")
  }

  /** The model accepts a temperature other than 1; "2024" is looked for in the name as given. */
  predicate SupportsCustomTemperature(model: string) {
    !(Contains(Lower(model), "o1") || Contains(Lower(model), "gpt-4o-mini")
      || (Contains(Lower(model), "gpt-4o") && Contains(model, "2024")))
  }

  /** Every model held to the default temperature is also one that takes `max_completion_tokens`. */
  lemma FixedTemperatureMeansCompletionTokens(model: string)
    requires !SupportsCustomTemperature(model)
    ensures UsesMaxCompletionTokens(model)
  {
    if Contains(Lower(model), "gpt-4o-mini") {
      ContainsPrefixOf(Lower(model), "gpt-4o-mini", "gpt-4o");
    }
  }

  /** The JSON body of the chat request. */
  function RequestPayload(model: string, prompt: string): (r: Json)
    ensures r.JObj?
    ensures r.fields.Keys == {"model", "messages", "temperature",
                              if UsesMaxCompletionTokens(model) then "max_completion_tokens" else "max_tokens"}
    ensures r.fields["model"] == JStr(model)
    ensures r.fields["temperature"] == (if SupportsCustomTemperature(model) then JNum(0.7) else JInt(1))
    ensures UsesMaxCompletionTokens(model) ==> r.fields["max_completion_tokens"] == JInt(2000)
    ensures !UsesMaxCompletionTokens(model) ==> r.fields["max_tokens"] == JInt(500)
    ensures r.fields["messages"].JArr? && |r.fields["messages"].items| == 2
    ensures r.fields["messages"].items[0] == JObj(map["role" := JStr("system"), "content" := JStr(SystemMessage)])
    ensures r.fields["messages"].items[1] == JObj(map["role" := JStr("user"), "content" := JStr(prompt)])
  {
    var messages := JArr([
      JObj(map["role" := JStr("system"), "content" := JStr(SystemMessage)]),
      JObj(map["role" := JStr("user"), "content" := JStr(prompt)])]);
    var payload := map["model" := JStr(model), "messages" := messages];
    var payload := payload["temperature" := if SupportsCustomTemperature(model) then JNum(0.7) else JInt(1)];
    var payload := if UsesMaxCompletionTokens(model) then payload["max_completion_tokens" := JInt(2000)]
                   else payload["max_tokens" := JInt(500)];
    JObj(payload)
  }

  /** The request headers: the content type always; with a key, a bearer token for OpenAI URLs,
      `x-api-key` with the pinned API version for Anthropic URLs, a bearer token otherwise. */
  function Headers(url: string, key: string): (h: map<string, string>)
    ensures "Content-Type" in h && h["Content-Type"] == "application/json"
    ensures key == "" ==> h.Keys == {"Content-Type"}
    ensures ("x-api-key" in h) <==>
      key != "" && !(Contains(url, "openai.com") || Contains(url, "api.openai")) && Contains(url, "anthropic.com")
    ensures "x-api-key" in h ==>
      (h.Keys == {"Content-Type", "x-api-key", "anthropic-version"}
       && h["x-api-key"] == key && h["anthropic-version"] == "2023-06-01")
    ensures key != "" && "x-api-key" !in h ==>
      h == map["Content-Type" := "application/json", "Authorization" := "Bearer " + key]
  {
    var h := map["Content-Type" := "application/json"];
    if key == "" then h
    else if Contains(url, "openai.com") || Contains(url, "api.openai") then h["Authorization" := "Bearer " + key]
    else if Contains(url, "anthropic.com") then h["x-api-key" := key]["anthropic-version" := "2023-06-01"]
    else h["Authorization" := "Bearer " + key]
  }

  /** What the status-400 check does: retry with temperature 1, keep the response, or raise an
      exception that the handlers for (ValueError, KeyError) do not catch. */
  datatype RetryDecision = Retry | Keep | Crash

  /** A 400 whose body is a dict with an "error" dict whose message mentions "temperature" (in any
      case) or whose param is "temperature" is retried. A body that is not JSON is kept (ValueError
      is caught); `"error" in` a number or None, subscripting a list or string, `.get` on a
      non-dict error and `.lower()` on a non-string message raise past that handler. */
  function TemperatureRetry(status: int, body: Option<Json>): (d: RetryDecision)
    ensures d.Retry? <==>
      status == 400 && body.Some? && body.value.JObj? && "error" in body.value.fields
      && ErrorIsAbout(body.value.fields["error"], true)
    ensures d.Crash? <==>
      status == 400 && body.Some?
      && (HasKey(body.value, "error").None?
          || (HasKey(body.value, "error") == Some(true)
              && (!body.value.JObj? || !body.value.fields["error"].JObj?
                  || !Get(body.value.fields["error"].fields, "message", JStr("")).JStr?)))
  {
    if status != 400 || body.None? then Keep
    else
      var e := body.value;
      match HasKey(e, "error")
      case None => Crash
      case Some(present) =>
        if !present then Keep
        else if !e.JObj? then Crash
        else
          var err := e.fields["error"];
          if !err.JObj? then Crash
          else
            var message := Get(err.fields, "message", JStr(""));
            var param := Get(err.fields, "param", JStr(""));
            if !message.JStr? then Crash
            else if Contains(Lower(message.s), "temperature") || param == JStr("temperature") then Retry
            else Keep
  }

  /** An "error" dict whose message is a string: with `temperature` true, one that mentions
      "temperature" in its lower-cased message or names it as its param. */
  predicate ErrorIsAbout(err: Json, temperature: bool) {
    err.JObj? && Get(err.fields, "message", JStr("")).JStr?
    && temperature == (Contains(Lower(Get(err.fields, "message", JStr("")).s), "temperature")
                       || Get(err.fields, "param", JStr("")) == JStr("temperature"))
  }

  /** The retried request differs from the first only in its temperature, which is 1. */
  lemma RetryChangesOnlyTemperature(model: string, prompt: string)
    ensures var first := RequestPayload(model, prompt).fields;
      var retried := first["temperature" := JInt(1)];
      retried.Keys == first.Keys && retried["temperature"] == JInt(1)
      && forall k :: k in first && k != "temperature" ==> retried[k] == first[k]
  {
  }

  // ---------------------------------------------------------------------------------------------
  // The reply

  /** The answer read from a JSON reply, or None when reading it raises. A non-dict reply raises
      in the debug line; truthy "choices" must be a list whose first item is a dict. Its message
      gives the content (or "" when falsy; a truthy number or boolean raises in `len`), a string
      message is the answer, any other message gives None (Python's None, JNull here). Without
      choices, top-level "content", then "text", then a fixed error text. */
  function ParseLlmReply(result: Json): Option<Json> {
    if !result.JObj? then None
    else
      var m := result.fields;
      if "choices" in m && Truthy(m["choices"]) then
        var choices := m["choices"];
        if !(choices.JArr? && choices.items[0].JObj?) then None
        else
          var message := Get(choices.items[0].fields, "message", JObj(map[]));
          if message.JObj? && "content" in message.fields then
            var content := message.fields["content"];
            if Truthy(content) && !HasLen(content) then None
            else Some(if Truthy(content) then content else JStr(""))
          else if message.JStr? then Some(message)
          else Some(JNull)
      else if "content" in m then Some(m["content"])
      else if "text" in m then Some(m["text"])
      else Some(JStr(UnexpectedFormat))
  }

  const UnexpectedFormat: string := "Error: Unexpected API response format"

  /** A reply that is not a dict is unreadable. A chat-completion reply wins over any top-level
      "content" or "text"; those are read, in that order, only when "choices" is missing or falsy,
      and without either the answer is the fixed error text. */
  lemma ReplyPrecedence(m: map<string, Json>, content: string, other: Json)
    ensures !other.JObj? ==> ParseLlmReply(other).None?
    ensures var msg := JObj(map["message" := JObj(map["content" := JStr(content)])]);
      ParseLlmReply(JObj(m["choices" := JArr([msg])])) == Some(JStr(content))
    ensures ("choices" !in m || !Truthy(m["choices"])) && "content" in m ==>
      ParseLlmReply(JObj(m)) == Some(m["content"])
    ensures ("choices" !in m || !Truthy(m["choices"])) && "content" !in m && "text" in m ==>
      ParseLlmReply(JObj(m)) == Some(m["text"])
    ensures ("choices" !in m || !Truthy(m["choices"])) && "content" !in m && "text" !in m ==>
      ParseLlmReply(JObj(m)) == Some(JStr(UnexpectedFormat))
  {
  }

  /** With truthy "choices", the first choice decides: it must be a dict inside a list; a dict
      message's content is the answer ("" when falsy, unreadable when a truthy value without a
      length), a string message is the answer, and any other message gives None. */
  lemma ReplyFromFirstChoice(m: map<string, Json>)
    requires "choices" in m && Truthy(m["choices"])
    ensures !(m["choices"].JArr? && m["choices"].items[0].JObj?) ==> ParseLlmReply(JObj(m)).None?
    ensures m["choices"].JArr? && m["choices"].items[0].JObj? ==>
      var message := Get(m["choices"].items[0].fields, "message", JObj(map[]));
      (message.JObj? && "content" in message.fields && !Truthy(message.fields["content"]) ==>
         ParseLlmReply(JObj(m)) == Some(JStr("")))
      && (message.JObj? && "content" in message.fields && Truthy(message.fields["content"]) ==>
         ParseLlmReply(JObj(m)) == (if HasLen(message.fields["content"]) then Some(message.fields["content"]) else None))
      && (message.JStr? ==> ParseLlmReply(JObj(m)) == Some(message))
      && (!(message.JObj? && "content" in message.fields) && !message.JStr? ==> ParseLlmReply(JObj(m)) == Some(JNull))
  {
  }

  /** The template answer: the not-found message for an empty context; otherwise a header, the
      first 500 characters of the context, the document count when there are documents, a note. */
  function SimpleAnswer(context: string, numDocs: nat): (r: string)
    ensures context == "" ==> r == NotFoundMessage
    ensures context != "" ==>
      |r| == |AnswerHeader| + Min(500, |context|) + |CountLine(numDocs)| + |AnswerNote|
      && r[..|AnswerHeader|] == AnswerHeader
      && r[|AnswerHeader|..|AnswerHeader| + Min(500, |context|)] == context[..Min(500, |context|)]
      && r[|AnswerHeader| + Min(500, |context|)..|r| - |AnswerNote|] == CountLine(numDocs)
      && r[|r| - |AnswerNote|..] == AnswerNote
  {
    if context == "" then NotFoundMessage
    else
      var excerpt := Prefix(context, 500);
      ConcatLayout(AnswerHeader, excerpt, CountLine(numDocs), AnswerNote, []);
      AnswerHeader + excerpt + CountLine(numDocs) + AnswerNote
  }

  const AnswerHeader: string := "Based on the retrieved documents, here is relevant information:\n\n"

  const AnswerNote: string := "\n\nNote: For better answers, please configure an LLM API in the config file."

  /** The count line, present only for a non-empty document list. */
  function CountLine(numDocs: nat): (r: string)
    ensures numDocs == 0 <==> r == ""
  {
    if numDocs > 0 then "\n\n[Retrieved from " + Decimal(numDocs) + " document(s)]" else ""
  }

  /** `_generate_with_api`: the answer the exchange with the model yields; every exception, from
      the transport, an error status, a body that is not JSON or the reading of the reply, gives
      the template answer without the document count. */
  function ApiAnswer(settings: Settings, query: string, context: string,
                     llm: (string, Json, map<string, string>) -> HttpResponse): Json {
    var fallback := JStr(SimpleAnswer(context, 0));
    var payload := RequestPayload(settings.model, BuildPrompt(query, context));
    var headers := Headers(settings.llmApiUrl, settings.llmApiKey);
    var first := llm(settings.llmApiUrl, payload, headers);
    if first.Unreachable? then fallback
    else
      var decision := TemperatureRetry(first.status, first.body);
      if decision.Crash? then fallback
      else
        var response :=
          if decision.Retry? then llm(settings.llmApiUrl, JObj(payload.fields["temperature" := JInt(1)]), headers)
          else first;
        if response.Unreachable? || IsHttpError(response.status) || response.body.None? then fallback
        else ParseLlmReply(response.body.value).GetOr(fallback)
  }

  /** When the model cannot be reached or answers with an error status, without a temperature
      retry, the answer is the template one for the context, without the count line. */
  lemma ApiFailureFallsBack(settings: Settings, query: string, context: string,
                            llm: (string, Json, map<string, string>) -> HttpResponse)
    requires var first := llm(settings.llmApiUrl, RequestPayload(settings.model, BuildPrompt(query, context)),
                              Headers(settings.llmApiUrl, settings.llmApiKey));
      first.Unreachable? || (IsHttpError(first.status) && first.status != 400)
    ensures ApiAnswer(settings, query, context, llm) == JStr(SimpleAnswer(context, 0))
  {
  }

  // ---------------------------------------------------------------------------------------------
  // Entry points

  /** `generate_answer`: the not-found message without documents; the model's answer when both its
      URL and its key are set; the template answer with the document count otherwise. */
  method GenerateAnswer(settings: Settings, query: string, docs: seq<Candidate>, maxContextLength: int,
                        llm: (string, Json, map<string, string>) -> HttpResponse) returns (answer: Json)
    ensures docs == [] ==> answer == JStr(NotFoundMessage)
    ensures docs != [] ==>
      var context := Join(ContextFrom(Texts(docs), 0, maxContextLength), "\n\n");
      answer == (if settings.llmApiUrl != "" && settings.llmApiKey != "" then ApiAnswer(settings, query, context, llm)
                 else JStr(SimpleAnswer(context, |docs|)))
  {
    if docs == [] {
      return JStr(NotFoundMessage);
    }
    var context := BuildContext(docs, maxContextLength);
    if settings.llmApiUrl != "" && settings.llmApiKey != "" {
      answer := ApiAnswer(settings, query, context, llm);
    } else {
      answer := JStr(SimpleAnswer(context, |docs|));
    }
  }

  /** One cited source. */
  datatype Source = Source(text: string, fileName: Json, pageNumber: Json, chunkId: Json)

  /** The source entry of one retrieved document: its first 200 characters, its file name
      ("Unknown" by default), page number and chunk id (None by default). */
  function SourceOf(doc: Candidate): (s: Source)
    ensures s.text == Prefix(doc.text.GetOr(""), 200) && |s.text| <= 200
    ensures s.fileName == Get(doc.metadata.GetOr(map[]), "file_name", JStr("Unknown"))
    ensures s.pageNumber == Get(doc.metadata.GetOr(map[]), "page_number", JNull)
    ensures s.chunkId == doc.chunkId.GetOr(JNull)
  {
    var metadata := doc.metadata.GetOr(map[]);
    Source(Prefix(doc.text.GetOr(""), 200), Get(metadata, "file_name", JStr("Unknown")),
           Get(metadata, "page_number", JNull), doc.chunkId.GetOr(JNull))
  }

  datatype AnswerWithSources = AnswerWithSources(answer: Json, sources: seq<Source>, numSources: nat)

  /** `generate_answer_with_sources`: the answer, and one source per retrieved document (not only
      those that reached the context), in order, counted. */
  method GenerateAnswerWithSources(settings: Settings, query: string, docs: seq<Candidate>, maxContextLength: int,
                                   llm: (string, Json, map<string, string>) -> HttpResponse)
    returns (r: AnswerWithSources)
    ensures docs == [] ==> r.answer == JStr(NotFoundMessage)
    ensures docs != [] ==>
      var context := Join(ContextFrom(Texts(docs), 0, maxContextLength), "\n\n");
      r.answer == (if settings.llmApiUrl != "" && settings.llmApiKey != "" then ApiAnswer(settings, query, context, llm)
                   else JStr(SimpleAnswer(context, |docs|)))
    ensures |r.sources| == |docs| == r.numSources
    ensures forall i :: 0 <= i < |docs| ==> r.sources[i] == SourceOf(docs[i])
  {
    var answer := GenerateAnswer(settings, query, docs, maxContextLength, llm);
    var sources := CollectSources(docs);
    r := AnswerWithSources(answer, sources, |sources|);
  }

  /** The loop of `generate_answer_with_sources` that lists the sources. */
  method CollectSources(docs: seq<Candidate>) returns (sources: seq<Source>)
    ensures |sources| == |docs|
    ensures forall i :: 0 <= i < |docs| ==> sources[i] == SourceOf(docs[i])
  {
    sources := [];
    var i := 0;
    while i < |docs|
      invariant 0 <= i <= |docs|
      invariant |sources| == i && forall j :: 0 <= j < i ==> sources[j] == SourceOf(docs[j])
    {
      sources := sources + [SourceOf(docs[i])];
      i := i + 1;
    }
  }
}
