/** The PDF reader of pdf_processor.py: the pages come from a loader (PyMuPDF in the source, the
    parameter `loader` here) and are tagged with the file's path and name in place; the text
    extraction keeps the non-empty pages, numbers them and gathers document metadata. Whether the
    file exists is the parameter `fileExists`. */
module PdfProcessor {
  import opened Common
  import opened PyValue
  import opened Documents

  /** `os.path.basename` on POSIX: what follows the last '/'. */
  function Basename(path: string): string
    decreases |path|
  {
    if path == [] || path[|path| - 1] == '/' then []
    else Basename(path[..|path| - 1]) + [path[|path| - 1]]
  }

  /** The base name is the longest suffix of the path without a '/': a suffix, '/'-free, and
      preceded by a '/' unless it is the whole path. */
  lemma {:induction false} BasenameIsLastSegment(path: string)
    ensures |Basename(path)| <= |path| && Basename(path) == path[|path| - |Basename(path)|..]
    ensures forall i :: 0 <= i < |Basename(path)| ==> Basename(path)[i] != '/'
    ensures |Basename(path)| < |path| ==> path[|path| - |Basename(path)| - 1] == '/'
    decreases |path|
  {
    if path != [] && path[|path| - 1] != '/' {
      var init := path[..|path| - 1];
      BasenameIsLastSegment(init);
      var r := Basename(path);
      assert r == Basename(init) + [path[|path| - 1]];
      assert init[|init| - |Basename(init)|..] + [path[|path| - 1]] == path[|path| - |r|..];
      if |r| < |path| {
        assert path[|path| - |r| - 1] == init[|init| - |Basename(init)| - 1];
      }
    }
  }

  /** A page after `load_pages` has tagged it: a page with metadata gets "file_path" and
      "file_name"; a page without is left alone. */
  function Annotated(page: Document, path: string): Document {
    if page.metadata == map[] then page
    else page.(metadata := page.metadata["file_path" := JStr(path)]["file_name" := JStr(Basename(path))])
  }

  /** The tag adds exactly the path and the base name, changes no other entry and not the text,
      and leaves a page without metadata as it was. */
  lemma AnnotatedTagsOnlyPagesWithMetadata(page: Document, path: string)
    ensures Annotated(page, path).content == page.content
    ensures page.metadata == map[] ==> Annotated(page, path) == page
    ensures page.metadata != map[] ==>
      (Annotated(page, path).metadata.Keys == page.metadata.Keys + {"file_path", "file_name"}
       && Annotated(page, path).metadata["file_path"] == JStr(path)
       && Annotated(page, path).metadata["file_name"] == JStr(Basename(path))
       && forall k :: k in page.metadata && k != "file_path" && k != "file_name" ==>
            Annotated(page, path).metadata[k] == page.metadata[k])
  {
    if page.metadata != map[] {
      var withPath := page.metadata["file_path" := JStr(path)];
      var tagged := withPath["file_name" := JStr(Basename(path))];
      assert Annotated(page, path).metadata == tagged;
      assert tagged["file_path"] == withPath["file_path"] == JStr(path);
      assert tagged.Keys == page.metadata.Keys + {"file_path", "file_name"};
    }
  }

  /** The loaded pages after tagging, as values. */
  function AnnotatedPages(loaded: seq<Document>, path: string): (r: seq<Document>)
    ensures |r| == |loaded| && forall i :: 0 <= i < |loaded| ==> r[i] == Annotated(loaded[i], path)
  {
    seq(|loaded|, i requires 0 <= i < |loaded| => Annotated(loaded[i], path))
  }

  /** The tagging loop of `load_pages`, which updates each page's metadata in place. */
  method AnnotatePages(pages: array<Document>, path: string)
    modifies pages
    ensures forall i :: 0 <= i < pages.Length ==> pages[i] == Annotated(old(pages[i]), path)
  {
    var fileName := Basename(path);
    var i := 0;
    while i < pages.Length
      invariant 0 <= i <= pages.Length
      invariant forall j :: 0 <= j < i ==> pages[j] == Annotated(old(pages[j]), path)
      invariant forall j :: i <= j < pages.Length ==> pages[j] == old(pages[j])
    {
      if pages[i].metadata != map[] {
        pages[i] := pages[i].(metadata := pages[i].metadata["file_path" := JStr(path)]["file_name" := JStr(fileName)]);
      }
      i := i + 1;
    }
  }

  /** `load_pages`: FileNotFoundError for a missing file; otherwise the loaded pages, tagged. */
  method LoadPages(path: string, fileExists: string -> bool, loader: string -> seq<Document>)
    returns (r: Result<seq<Document>, string>)
    ensures !fileExists(path) ==> r == Err("PDF file not found: " + path)
    ensures fileExists(path) ==> r == Ok(AnnotatedPages(loader(path), path))
  {
    if !fileExists(path) {
      return Err("PDF file not found: " + path);
    }
    var loaded := loader(path);
    var pages := new Document[|loaded|](i requires 0 <= i < |loaded| => loaded[i]);
    assert pages[..] == loaded;
    AnnotatePages(pages, path);
    assert pages[..] == AnnotatedPages(loaded, path);
    r := Ok(pages[..]);
  }

  // ---------------------------------------------------------------------------------------------
  // extract_text

  /** One entry of the page list. */
  datatype PageText = PageText(pageNumber: Json, text: string)

  /** What `extract_text` returns. */
  datatype Extracted = Extracted(text: string, metadata: map<string, Json>, pages: seq<PageText>)

  /** The page list: the pages with non-empty text, in order, each numbered by its "page" metadata
      or else by the number of pages kept before it plus one. */
  function KeptPages(pages: seq<Document>): seq<PageText>
    decreases |pages|
  {
    if pages == [] then []
    else
      var kept := KeptPages(pages[..|pages| - 1]);
      var doc := pages[|pages| - 1];
      if doc.content == "" then kept
      else kept + [PageText(Get(doc.metadata, "page", JInt(|kept| + 1)), doc.content)]
  }

  /** The texts of the page list. */
  function TextsOf(kept: seq<PageText>): (r: seq<string>)
    ensures |r| == |kept| && forall i :: 0 <= i < |kept| ==> r[i] == kept[i].text
  {
    seq(|kept|, i requires 0 <= i < |kept| => kept[i].text)
  }

  /** The page list is the non-empty pages, in order, and only those: `from` gives the page each
      entry comes from, strictly increasing, and every page with text is among them. Each entry
      carries the page's text and its "page" number, or its own position plus one. */
  lemma {:induction false} KeptPagesAreTheNonEmptyPages(pages: seq<Document>) returns (from: seq<nat>)
    ensures |from| == |KeptPages(pages)| <= |pages|
    ensures forall j :: 0 <= j < |from| ==> from[j] < |pages|
    ensures forall j, k :: 0 <= j < k < |from| ==> from[j] < from[k]
    ensures forall j :: 0 <= j < |from| ==>
      KeptPages(pages)[j] == PageText(Get(pages[from[j]].metadata, "page", JInt(j + 1)), pages[from[j]].content)
    ensures forall j :: 0 <= j < |from| ==> pages[from[j]].content != ""
    ensures forall i :: 0 <= i < |pages| && pages[i].content != "" ==> i in from
    decreases |pages|
  {
    if pages == [] {
      from := [];
    } else {
      var init := pages[..|pages| - 1];
      var before := KeptPagesAreTheNonEmptyPages(init);
      assert forall i :: 0 <= i < |init| ==> init[i] == pages[i];
      if pages[|pages| - 1].content == "" {
        from := before;
      } else {
        from := before + [|pages| - 1];
      }
    }
  }

  /** The metadata of the first loaded page, empty when nothing was loaded. */
  function FirstPageMetadata(pages: seq<Document>): map<string, Json> {
    if pages != [] then pages[0].metadata else map[]
  }

  /** The document metadata: fields of the first page (empty when there are none), the number of
      loaded pages, skipped ones included, and the file's path and name. */
  function DocumentMetadata(pages: seq<Document>, path: string): map<string, Json> {
    var first := FirstPageMetadata(pages);
    map[
      "title" := Get(first, "title", JStr("")),
      "author" := Get(first, "author", JStr("")),
      "subject" := Get(first, "subject", JStr("")),
      "creator" := Get(first, "creator", JStr("")),
      "producer" := Get(first, "producer", JStr("")),
      "creation_date" := JStr(PyStr(Get(first, "creation_date", JStr("")))),
      "modification_date" := JStr(PyStr(Get(first, "mod_date", JStr("")))),
      "total_pages" := JInt(|pages|),
      "file_path" := JStr(path),
      "file_name" := JStr(Basename(path))]
  }

  /** The metadata always has the same ten keys, counts every loaded page and names the file. */
  lemma DocumentMetadataDescribesFile(pages: seq<Document>, path: string)
    ensures DocumentMetadata(pages, path).Keys ==
      {"title", "author", "subject", "creator", "producer", "creation_date",
       "modification_date", "total_pages", "file_path", "file_name"}
    ensures DocumentMetadata(pages, path)["total_pages"] == JInt(|pages|)
    ensures DocumentMetadata(pages, path)["file_path"] == JStr(path)
    ensures DocumentMetadata(pages, path)["file_name"] == JStr(Basename(path))
  { }

  /** The five descriptive text fields are the first page's, with "" for a missing one. */
  lemma DocumentMetadataFromFirstPage(pages: seq<Document>, path: string)
    ensures var m := DocumentMetadata(pages, path);
      var first := FirstPageMetadata(pages);
      m["title"] == Get(first, "title", JStr(""))
      && m["author"] == Get(first, "author", JStr(""))
      && m["subject"] == Get(first, "subject", JStr(""))
      && m["creator"] == Get(first, "creator", JStr(""))
      && m["producer"] == Get(first, "producer", JStr(""))
  { }

  /** Both dates are the first page's, turned into strings, with "" for a missing one; the
      modification date is read from "mod_date". */
  lemma DocumentMetadataDates(pages: seq<Document>, path: string)
    ensures var m := DocumentMetadata(pages, path);
      var first := FirstPageMetadata(pages);
      m["creation_date"] == JStr(PyStr(Get(first, "creation_date", JStr(""))))
      && m["modification_date"] == JStr(PyStr(Get(first, "mod_date", JStr(""))))
  { }

  /** Without pages every descriptive field is the empty string. */
  lemma DocumentMetadataWithoutPages(path: string)
    ensures var m := DocumentMetadata([], path);
      m["title"] == m["author"] == m["subject"] == m["creator"] == m["producer"]
      == m["creation_date"] == m["modification_date"] == JStr("")
  {
    DocumentMetadataFromFirstPage([], path);
    DocumentMetadataDates([], path);
  }

  /** The aggregation loop of `extract_text` over the loaded pages. */
  method Aggregate(pages: seq<Document>, path: string) returns (r: Extracted)
    ensures r.pages == KeptPages(pages)
    ensures r.text == Join(TextsOf(KeptPages(pages)), "\n\n")
    ensures r.metadata == DocumentMetadata(pages, path)
  {
    var textContent: seq<string> := [];
    var pagesText: seq<PageText> := [];
    var i := 0;
    while i < |pages|
      invariant 0 <= i <= |pages|
      invariant pagesText == KeptPages(pages[..i])
      invariant textContent == TextsOf(pagesText)
    {
      assert pages[..i + 1][..i] == pages[..i];
      var doc := pages[i];
      if doc.content != "" {
        var pageNumber := Get(doc.metadata, "page", JInt(|pagesText| + 1));
        pagesText := pagesText + [PageText(pageNumber, doc.content)];
        textContent := textContent + [doc.content];
      }
      i := i + 1;
    }
    assert pages[..i] == pages;
    r := Extracted(Join(textContent, "\n\n"), DocumentMetadata(pages, path), pagesText);
  }

  /** `extract_text`: the load's error, or the aggregation of the tagged pages. */
  method ExtractText(path: string, fileExists: string -> bool, loader: string -> seq<Document>)
    returns (r: Result<Extracted, string>)
    ensures !fileExists(path) ==> r == Err("PDF file not found: " + path)
    ensures fileExists(path) ==>
      (r.Ok?
       && r.value.pages == KeptPages(AnnotatedPages(loader(path), path))
       && r.value.text == Join(TextsOf(KeptPages(AnnotatedPages(loader(path), path))), "\n\n")
       && r.value.metadata == DocumentMetadata(AnnotatedPages(loader(path), path), path))
  {
    var loaded := LoadPages(path, fileExists, loader);
    match loaded {
      case Err(e) => return Err(e);
      case Ok(pages) =>
        var extracted := Aggregate(pages, path);
        return Ok(extracted);
    }
  }
}
