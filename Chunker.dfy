/** The chunker of src/chunker.py: the pages are joined into one document, which the configured
    text splitter cuts into pieces; the pieces are numbered, stripped and tagged. The splitter (a
    token-counting recursive splitter in the source) is the parameter `split`, a function of the
    chunk size, the overlap and the document. */
module Chunker {
  import opened Common
  import opened PyValue
  import opened Documents
  import Config

  /** What a `TextChunker` keeps from its construction. */
  datatype Settings = Settings(chunkSize: int, chunkOverlap: int, encodingName: string)

  /** `TextChunker(chunk_size, chunk_overlap, encoding_name)`: a missing or zero size or overlap
      means the configured one. */
  function NewTextChunker(chunkSize: Option<int>, chunkOverlap: Option<int>, encodingName: string): (r: Settings)
    ensures chunkSize.Some? && chunkSize.value != 0 ==> r.chunkSize == chunkSize.value
    ensures chunkSize.None? || chunkSize.value == 0 ==> r.chunkSize == Config.CHUNK_SIZE
    ensures chunkOverlap.Some? && chunkOverlap.value != 0 ==> r.chunkOverlap == chunkOverlap.value
    ensures chunkOverlap.None? || chunkOverlap.value == 0 ==> r.chunkOverlap == Config.CHUNK_OVERLAP
    ensures r.encodingName == encodingName
  {
    Settings(IntOr(chunkSize, Config.CHUNK_SIZE), IntOr(chunkOverlap, Config.CHUNK_OVERLAP), encodingName)
  }

  /** One output chunk: `{"text", "chunk_id", "metadata"}`. */
  datatype Chunk = Chunk(text: string, chunkId: nat, metadata: map<string, Json>)

  /** The page contents, in page order. */
  function Contents(pages: seq<Document>): (r: seq<string>)
    ensures |r| == |pages| && forall i :: 0 <= i < |pages| ==> r[i] == pages[i].content
  {
    seq(|pages|, i requires 0 <= i < |pages| => pages[i].content)
  }

  /** The single document handed to the splitter: every page's content joined by blank lines,
      with the first page's metadata. */
  function Combined(pages: seq<Document>): (d: Document)
    requires pages != []
    ensures d.content == Join(Contents(pages), "\n\n")
    ensures d.metadata == pages[0].metadata
    ensures |pages| == 1 ==> d.content == pages[0].content
  {
    Document(Join(Contents(pages), "\n\n"), pages[0].metadata)
  }

  /** The chunk made from the piece at position `id`: its content stripped, its metadata with
      "chunk_id" set to the position. */
  function ChunkOf(piece: Document, id: nat): Chunk {
    Chunk(Strip(piece.content), id, piece.metadata["chunk_id" := JInt(id)])
  }

  /** The numbering loop of `chunk_documents`: one chunk per piece, in piece order, none dropped
      even when its stripped text is empty. */
  method NumberPieces(pieces: seq<Document>) returns (chunks: seq<Chunk>)
    ensures |chunks| == |pieces|
    ensures forall i :: 0 <= i < |pieces| ==> chunks[i] == ChunkOf(pieces[i], i)
  {
    chunks := [];
    var chunkId := 0;
    while chunkId < |pieces|
      invariant 0 <= chunkId <= |pieces|
      invariant |chunks| == chunkId
      invariant forall i :: 0 <= i < chunkId ==> chunks[i] == ChunkOf(pieces[i], i)
    {
      var piece := pieces[chunkId];
      var metadata := piece.metadata["chunk_id" := JInt(chunkId)];
      var text := Strip(piece.content);
      chunks := chunks + [Chunk(text, chunkId, metadata)];
      chunkId := chunkId + 1;
    }
  }

  /** The chunks of a list of pieces, as a value. */
  function ChunksOf(pieces: seq<Document>): (r: seq<Chunk>)
    ensures |r| == |pieces| && forall i :: 0 <= i < |pieces| ==> r[i] == ChunkOf(pieces[i], i)
  {
    seq(|pieces|, i requires 0 <= i < |pieces| => ChunkOf(pieces[i], i))
  }

  /** `chunk_documents`: nothing for no pages (and the splitter is not called); otherwise the
      numbered chunks of what the splitter makes of the combined document. */
  method ChunkDocuments(settings: Settings, pages: seq<Document>,
                        split: (int, int, Document) -> seq<Document>) returns (chunks: seq<Chunk>)
    ensures pages == [] ==> chunks == []
    ensures pages != [] ==> chunks == ChunksOf(split(settings.chunkSize, settings.chunkOverlap, Combined(pages)))
  {
    if pages == [] {
      return [];
    }
    var combinedText := Join(Contents(pages), "\n\n");
    var combinedMetadata := pages[0].metadata;
    var pieces := split(settings.chunkSize, settings.chunkOverlap, Document(combinedText, combinedMetadata));
    chunks := NumberPieces(pieces);
  }

  /** The chunks are numbered 0, 1, 2, ...; each keeps its piece's metadata and adds the same
      number as "chunk_id"; each text is its piece's content with the surrounding whitespace
      removed, so it neither starts nor ends with whitespace. */
  lemma ChunksNumberedAndTrimmed(pieces: seq<Document>)
    ensures forall i :: 0 <= i < |pieces| ==>
      ChunksOf(pieces)[i].chunkId == i && ChunksOf(pieces)[i].metadata["chunk_id"] == JInt(i)
    ensures forall i :: 0 <= i < |pieces| ==>
      ChunksOf(pieces)[i].metadata.Keys == pieces[i].metadata.Keys + {"chunk_id"}
      && forall k :: k in pieces[i].metadata && k != "chunk_id" ==> ChunksOf(pieces)[i].metadata[k] == pieces[i].metadata[k]
    ensures forall i :: 0 <= i < |pieces| ==> ChunksOf(pieces)[i].text == Strip(pieces[i].content)
    ensures forall i :: 0 <= i < |pieces| ==>
      (ChunksOf(pieces)[i].text == "" || (!IsSpace(ChunksOf(pieces)[i].text[0])
        && !IsSpace(ChunksOf(pieces)[i].text[|ChunksOf(pieces)[i].text| - 1])))
  {
    forall i | 0 <= i < |pieces|
      ensures ChunksOf(pieces)[i].text == ""
        || (!IsSpace(ChunksOf(pieces)[i].text[0]) && !IsSpace(ChunksOf(pieces)[i].text[|ChunksOf(pieces)[i].text| - 1]))
    {
      var t := pieces[i].content;
      var start := StripIsTrimmedInfix(t);
    }
  }

  /** `chunk_text`: nothing for an empty or all-whitespace text; otherwise the chunks of the text as
      one page, with the given metadata or none. */
  method ChunkText(settings: Settings, text: string, metadata: Option<map<string, Json>>,
                   split: (int, int, Document) -> seq<Document>) returns (chunks: seq<Chunk>)
    ensures Strip(text) == "" ==> chunks == []
    ensures Strip(text) != "" ==>
      chunks == ChunksOf(split(settings.chunkSize, settings.chunkOverlap, Document(text, metadata.GetOr(map[]))))
  {
    if text == "" || Strip(text) == "" {
      return [];
    }
    var doc := Document(text, metadata.GetOr(map[]));
    chunks := ChunkDocuments(settings, [doc], split);
  }
}
