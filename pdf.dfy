/** `PDFProcessor.process_pdf`: check that the file exists, load and split it
    (a foreign collaborator here), resolve the document name, and stamp every chunk's
    metadata in place with its position, the document name and a fallback source. */
module Pdf {
  import opened Common

  /** The dict `process_pdf` returns. */
  datatype PdfResult = PdfResult(name: string, filePath: string, fileType: string, chunks: seq<Chunk>)

  /** `if not document_name: document_name = Path(file_path).name`. */
  function ResolveName(filePath: string, documentName: Option<string>): (r: string)
    ensures documentName.Some? && documentName.value != "" ==> r == documentName.value
    ensures documentName.None? || documentName.value == "" ==> r == Basename(filePath)
  {
    match documentName
    case Some(n) => if n != "" then n else Basename(filePath)
    case None => Basename(filePath)
  }

  /** The chunk after the loop body has run on it at position `i`. */
  function Stamp(c: Chunk, i: nat, filePath: string, name: string): (r: Chunk)
    ensures r.pageContent == c.pageContent
    ensures "chunk_id" in r.metadata && r.metadata["chunk_id"] == MInt(i)
  {
    var withSource := if Truthy(Lookup(c.metadata, "source")) then c.metadata
                      else c.metadata["source" := MStr(filePath)];
    Chunk(c.pageContent, withSource["name" := MStr(name)]["chunk_id" := MInt(i)])
  }

  /** What stamping does to one chunk: the text is kept; `chunk_id` and `name` are set; a
      truthy `source` is kept and a missing or falsy one becomes the file path; every other
      key keeps its value and no other key is added. */
  lemma StampFields(c: Chunk, i: nat, filePath: string, name: string)
    ensures var r := Stamp(c, i, filePath, name);
            && r.pageContent == c.pageContent
            && r.metadata.Keys == c.metadata.Keys + {"source", "name", "chunk_id"}
            && r.metadata["chunk_id"] == MInt(i)
            && r.metadata["name"] == MStr(name)
            && (Truthy(Lookup(c.metadata, "source")) ==> r.metadata["source"] == c.metadata["source"])
            && (!Truthy(Lookup(c.metadata, "source")) ==> r.metadata["source"] == MStr(filePath))
            && (forall k :: k in c.metadata && k != "source" && k != "name" && k != "chunk_id" ==>
                  r.metadata[k] == c.metadata[k])
  {
  }

  /** The whole chunk list after the stamping loop. */
  function StampAll(raw: seq<Chunk>, filePath: string, name: string): (r: seq<Chunk>)
    ensures |r| == |raw|
    ensures forall i :: 0 <= i < |raw| ==> r[i] == Stamp(raw[i], i, filePath, name)
  {
    seq(|raw|, i requires 0 <= i < |raw| => Stamp(raw[i], i, filePath, name))
  }

  /** What `process_pdf(file_path, document_name)` returns or raises, given the files
      that exist and the loader/splitter. */
  function ProcessPdfSpec(files: set<string>, loaded: map<string, seq<Chunk>>,
                          filePath: string, documentName: Option<string>): (r: Result<PdfResult>)
    ensures filePath !in files ==> r == Err(FileNotFound(filePath))
    ensures filePath in files && filePath !in loaded ==> r == Err(LoadFailed(filePath))
    ensures r.Ok? <==> filePath in files && filePath in loaded
    ensures r.Ok? ==> r.value.filePath == filePath && r.value.fileType == "pdf"
                      && |r.value.chunks| == |loaded[filePath]|
  {
    if filePath !in files then Err(FileNotFound(filePath))
    else if filePath !in loaded then Err(LoadFailed(filePath))
    else
      var name := ResolveName(filePath, documentName);
      Ok(PdfResult(name, filePath, "pdf", StampAll(loaded[filePath], filePath, name)))
  }

  /** The `for i, chunk in enumerate(chunks)` loop, mutating each chunk in place. */
  method StampChunks(chunks: array<Chunk>, filePath: string, name: string)
    modifies chunks
    ensures chunks[..] == StampAll(old(chunks[..]), filePath, name)
  {
    for i := 0 to chunks.Length
      invariant forall k :: 0 <= k < i ==> chunks[k] == Stamp(old(chunks[k]), k, filePath, name)
      invariant forall k :: i <= k < chunks.Length ==> chunks[k] == old(chunks[k])
    {
      ghost var original := chunks[i];
      var metadata := chunks[i].metadata;
      if !Truthy(Lookup(metadata, "source")) {
        metadata := metadata["source" := MStr(filePath)];
      }
      metadata := metadata["name" := MStr(name)];
      metadata := metadata["chunk_id" := MInt(i)];
      chunks[i] := Chunk(chunks[i].pageContent, metadata);
      assert chunks[i] == Stamp(original, i, filePath, name);
    }
  }

  method ProcessPdf(files: set<string>, loaded: map<string, seq<Chunk>>,
                    filePath: string, documentName: Option<string>) returns (r: Result<PdfResult>)
    ensures r == ProcessPdfSpec(files, loaded, filePath, documentName)
    ensures filePath !in files ==> r == Err(FileNotFound(filePath))
    ensures r.Ok? <==> filePath in files && filePath in loaded
  {
    if filePath !in files {
      return Err(FileNotFound(filePath));
    }
    if filePath !in loaded {
      return Err(LoadFailed(filePath));
    }
    var raw := loaded[filePath];
    var name := ResolveName(filePath, documentName);
    var chunks := new Chunk[|raw|](i requires 0 <= i < |raw| => raw[i]);
    assert chunks[..] == raw;
    StampChunks(chunks, filePath, name);
    r := Ok(PdfResult(name, filePath, "pdf", chunks[..]));
  }

  /** A missing file is reported before the loader is consulted: the outcome does not
      depend on the loader at all. */
  lemma MissingFileNeverLoads(files: set<string>, loaded1: map<string, seq<Chunk>>,
                              loaded2: map<string, seq<Chunk>>, filePath: string,
                              documentName: Option<string>)
    requires filePath !in files
    ensures ProcessPdfSpec(files, loaded1, filePath, documentName)
         == ProcessPdfSpec(files, loaded2, filePath, documentName)
         == Err(FileNotFound(filePath))
  {
  }

  /** Everything the caller can rely on about a successful result: the dict's fields,
      ids 0..n-1 in list order, one name for all chunks, and the split text untouched. */
  lemma ProcessPdfResult(files: set<string>, loaded: map<string, seq<Chunk>>,
                         filePath: string, documentName: Option<string>)
    requires ProcessPdfSpec(files, loaded, filePath, documentName).Ok?
    ensures var res := ProcessPdfSpec(files, loaded, filePath, documentName).value;
            var raw := loaded[filePath];
            && res.fileType == "pdf"
            && res.filePath == filePath
            && res.name == ResolveName(filePath, documentName)
            && |res.chunks| == |raw|
            && (forall i :: 0 <= i < |raw| ==>
                  && res.chunks[i].pageContent == raw[i].pageContent
                  && res.chunks[i].metadata["chunk_id"] == MInt(i)
                  && res.chunks[i].metadata["name"] == MStr(res.name))
  {
    var res := ProcessPdfSpec(files, loaded, filePath, documentName).value;
    var raw := loaded[filePath];
    forall i | 0 <= i < |raw|
      ensures res.chunks[i].pageContent == raw[i].pageContent
      ensures res.chunks[i].metadata["chunk_id"] == MInt(i)
      ensures res.chunks[i].metadata["name"] == MStr(res.name)
    {
      StampFields(raw[i], i, filePath, res.name);
    }
  }
}
