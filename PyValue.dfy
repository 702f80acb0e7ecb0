/** Decoded JSON values as Python's `json` module hands them to the pipeline, together with the
    Python operations the pipeline applies to them: truthiness, `key in value`, dict hashing,
    `value < n`, `len(value)` and `str(value)`. Also the outcome of one HTTP request. */
module PyValue {
  import opened Common

  /** Integers and floats stay distinct, as `json.loads` keeps them. */
  datatype Json =
    | JNull
    | JBool(b: bool)
    | JInt(i: int)
    | JNum(r: real)
    | JStr(s: string)
    | JArr(items: seq<Json>)
    | JObj(fields: map<string, Json>)

  /** Python's `bool(value)`. */
  predicate Truthy(j: Json) {
    match j
    case JNull => false
    case JBool(b) => b
    case JInt(i) => i != 0
    case JNum(r) => r != 0.0
    case JStr(s) => s != ""
    case JArr(items) => items != []
    case JObj(m) => m != map[]
  }

  /** Python's `key in value` for a string key: dict membership, list membership or substring.
      None when Python raises TypeError (numbers, booleans, None). */
  function HasKey(j: Json, key: string): (r: Option<bool>)
    ensures r.None? <==> !(j.JObj? || j.JArr? || j.JStr?)
    ensures j.JObj? ==> r == Some(key in j.fields)
  {
    match j
    case JObj(m) => Some(key in m)
    case JArr(items) => Some(JStr(key) in items)
    case JStr(s) => Some(Contains(s, key))
    case _ => None
  }

  /** `d.get(key, default)` on a dict. */
  function Get(m: map<string, Json>, key: string, default: Json): Json {
    if key in m then m[key] else default
  }

  /** `len(value)` is defined. */
  predicate HasLen(j: Json) {
    j.JStr? || j.JArr? || j.JObj?
  }

  /** The identity of a hashable dict key: True, 1 and 1.0 are one key in a Python dict. */
  datatype Key = NumKey(r: real) | StrKey(s: string) | NullKey

  /** `hash(value)`: None for the unhashable list and dict (TypeError). */
  function HashKey(j: Json): (r: Option<Key>)
    ensures r.None? <==> (j.JArr? || j.JObj?)
  {
    match j
    case JNull => Some(NullKey)
    case JBool(b) => Some(NumKey(if b then 1.0 else 0.0))
    case JInt(i) => Some(NumKey(i as real))
    case JNum(r) => Some(NumKey(r))
    case JStr(s) => Some(StrKey(s))
    case _ => None
  }

  /** Python's `str(value)` for the scalar kinds that document metadata carries; a float, list or dict
      is rendered by a representation that is not part of this model (see README). */
  function PyStr(j: Json): string {
    match j
    case JStr(s) => s
    case JInt(i) => IntToString(i)
    case JNull => "None"
    case JBool(b) => if b then "True" else "False"
    case _ => "<unrendered>"
  }

  /** A list of strings as JSON. */
  function JStrs(texts: seq<string>): (r: seq<Json>)
    ensures |r| == |texts| && forall i :: 0 <= i < |texts| ==> r[i] == JStr(texts[i])
  {
    seq(|texts|, i requires 0 <= i < |texts| => JStr(texts[i]))
  }

  /** `value[0]` on a non-empty list or string; None where Python raises (an empty list or
      string, a dict without the key 0, a scalar). */
  function First(j: Json): (r: Option<Json>)
    ensures r.Some? <==> (j.JArr? && j.items != []) || (j.JStr? && j.s != "")
    ensures j.JArr? && j.items != [] ==> r == Some(j.items[0])
    ensures j.JStr? && j.s != "" ==> r == Some(JStr([j.s[0]]))
  {
    match j
    case JArr(items) => if items == [] then None else Some(items[0])
    case JStr(s) => if s == "" then None else Some(JStr([s[0]]))
    case _ => None
  }

  /** The items `some_list.extend(value)` appends: a list's items, a string's characters, nothing
      for an empty dict. None where Python raises (None, numbers, booleans), and for a non-empty
      dict, whose keys Python appends in insertion order, an order this model does not keep. */
  function Listed(j: Json): (r: Option<seq<Json>>)
    ensures j.JArr? ==> r == Some(j.items)
    ensures j.JStr? ==>
      (r.Some? && |r.value| == |j.s| && forall i :: 0 <= i < |j.s| ==> r.value[i] == JStr([j.s[i]]))
    ensures r.None? <==> j.JNull? || j.JBool? || j.JInt? || j.JNum? || (j.JObj? && j.fields != map[])
  {
    match j
    case JArr(items) => Some(items)
    case JStr(s) => Some(seq(|s|, i requires 0 <= i < |s| => JStr([s[i]])))
    case JObj(m) => if m == map[] then Some([]) else None
    case _ => None
  }

  /** `[0.0] * dimension`. */
  function ZeroVector(dimension: nat): (r: Json)
    ensures r.JArr? && |r.items| == dimension
    ensures forall i :: 0 <= i < dimension ==> r.items[i] == JNum(0.0)
  {
    JArr(seq(dimension, _ => JNum(0.0)))
  }

  /** `[[0.0] * dimension for _ in texts]`: one zero vector per text. */
  function ZeroVectors(count: nat, dimension: nat): (r: seq<Json>)
    ensures |r| == count && forall i :: 0 <= i < count ==> r[i] == ZeroVector(dimension)
  {
    seq(count, _ => ZeroVector(dimension))
  }

  /** One HTTP exchange as `requests` reports it: the request raised (connection error, timeout),
      or a status with a body that is JSON (Some) or not (None, so `response.json()` raises). */
  datatype HttpResponse = Unreachable | Response(status: int, body: Option<Json>)

  /** `response.raise_for_status()` raises for the 4xx and 5xx statuses. */
  predicate IsHttpError(status: int) {
    400 <= status < 600
  }
}

/** A search result as the retriever produces it and the re-ranker and answer generator consume it:
    a dict whose keys may each be missing. */
module Candidates {
  import opened Common
  import opened PyValue

  datatype Candidate = Candidate(
    id: Option<string>,
    text: Option<string>,
    chunkId: Option<Json>,
    metadata: Option<map<string, Json>>,
    score: Option<Json>,
    rerankScore: Option<Json>)
}

/** A page or piece of text as the document loader and the text splitter exchange it
    (`page_content` and `metadata`). */
module Documents {
  import opened PyValue

  datatype Document = Document(content: string, metadata: map<string, Json>)
}

/** The fixed settings of the configuration file; the ones read from the environment
    (URLs, keys, the LLM model name) are parameters of the operations instead. */
module Config {
  const EMBEDDING_DIMENSION: nat := 1024
  const RERANK_TOP_K: int := 10
  const CHUNK_SIZE: int := 500
  const CHUNK_OVERLAP: int := 50
  const RETRIEVAL_TOP_K: int := 10
  const BM25_WEIGHT: real := 0.3
  const VECTOR_WEIGHT: real := 0.7
  const EMBEDDING_MODEL: string := "qwen3-embedding-0.6b"
  const RERANK_MODEL: string := "qwen3-reranker-0.6b"
}
