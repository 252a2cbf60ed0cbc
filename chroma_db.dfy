/** `ChromaDBService.rebuild_index` (and the identical loop in the `rebuild_index` view):
    every `*.pdf` entry of the documents directory is processed, its chunks appended to
    the vector store and its `Document` row upserted; a failing file is skipped. */
module ChromaDb {
  import opened Common
  import opened Pdf
  import opened Stores

  /** `[f for f in os.listdir(documents_dir) if f.lower().endswith(".pdf")]`. */
  function PdfFiles(listing: seq<string>): (r: seq<string>)
    ensures forall f :: f in r <==> f in listing && IsPdfName(f)
    ensures |r| <= |listing|
    ensures (forall f :: f in listing ==> !IsPdfName(f)) ==> r == []
    ensures forall f :: multiset(r)[f] == if IsPdfName(f) then multiset(listing)[f] else 0
  {
    if listing == [] then []
    else
      var prev := PdfFiles(listing[..|listing| - 1]);
      var f := listing[|listing| - 1];
      assert listing == listing[..|listing| - 1] + [f];
      if IsPdfName(f) then prev + [f] else prev
  }

  /** The value-level state of the two stores a rebuild writes. */
  datatype Tables = Tables(vectors: seq<Chunk>, rows: seq<DocumentRow>)

  /** The loop's state: the stores, `processed_docs` and `total_chunks`. */
  datatype Progress = Progress(tables: Tables, processed: seq<DocumentRow>, totalChunks: nat)

  /** The dict `rebuild_index` returns. */
  datatype RebuildSummary = RebuildSummary(success: bool, documentsProcessed: nat,
                                           totalChunks: nat, message: string)

  /** The processed file when both `process_pdf` and `add_documents` succeed on `path`. */
  function Prepared(env: Env, files: set<string>, path: string): (r: Option<PdfResult>)
    ensures r.Some? ==> r.value.filePath == path && r.value.fileType == "pdf"
                        && r.value.chunks !in env.rejected
  {
    match ProcessPdfSpec(files, env.loaded, path, None)
    case Err(_) => None
    case Ok(res) => if res.chunks !in env.rejected then Some(res) else None
  }

  /** The `defaults` the rebuild writes for a processed file. */
  function RowFor(res: PdfResult): DocumentRow
  {
    DocumentRow(res.name, res.filePath, res.fileType, |res.chunks|, true)
  }

  /** The row a rebuild would write for `path`, when nothing before the upsert fails. */
  function Planned(env: Env, files: set<string>, path: string): (r: Option<DocumentRow>)
    ensures r.Some? ==> r.value.filePath == path && r.value.indexed && r.value.fileType == "pdf"
  {
    if env.dbUp && Prepared(env, files, path).Some? then Some(RowFor(Prepared(env, files, path).value))
    else None
  }

  /** The body of the `try` for one file: the new stores, and the document on success. */
  function IndexFile(env: Env, files: set<string>, t: Tables, path: string): (r: (Tables, Option<DocumentRow>))
    ensures r.0.vectors == t.vectors + AddedBy(env, files, path)
    ensures r.1.Some? ==> RowsAt(r.0.rows, path) == [r.1.value]
    ensures r.1.None? ==> r.0.rows == t.rows
  {
    match Prepared(env, files, path)
    case None => (t, None)
    case Some(res) =>
      var vectors := t.vectors + res.chunks;
      match UpsertRows(t.rows, RowFor(res), env.dbUp)
      case Err(_) => (Tables(vectors, t.rows), None)
      case Ok(rows) => (Tables(vectors, rows), Some(RowFor(res)))
  }

  /** The loop's state after the files `pdfs` of directory `dir`. */
  function Rebuild(env: Env, files: set<string>, dir: string, start: Tables, pdfs: seq<string>): (r: Progress)
    ensures |r.processed| <= |pdfs|
    ensures |r.tables.vectors| >= |start.vectors|
  {
    if pdfs == [] then Progress(start, [], 0)
    else
      var prev := Rebuild(env, files, dir, start, pdfs[..|pdfs| - 1]);
      Advance(prev, IndexFile(env, files, prev.tables, Join(dir, pdfs[|pdfs| - 1])))
  }

  /** The loop state after one file: the stores the `try` block left, and the document
      appended to `processed_docs` when it completed. */
  function Advance(prev: Progress, step: (Tables, Option<DocumentRow>)): (r: Progress)
    ensures r.tables == step.0
  {
    match step.1
    case None => Progress(step.0, prev.processed, prev.totalChunks)
    case Some(doc) => Progress(step.0, prev.processed + [doc], prev.totalChunks + doc.chunkCount)
  }

  lemma RebuildSnoc(env: Env, files: set<string>, dir: string, start: Tables, pdfs: seq<string>, f: string)
    ensures var prev := Rebuild(env, files, dir, start, pdfs);
            Rebuild(env, files, dir, start, pdfs + [f])
            == Advance(prev, IndexFile(env, files, prev.tables, Join(dir, f)))
  {
    SnocTake(pdfs, f);
  }

  /** The dict returned after the loop: it always reports success, since per-file errors
      are caught, with the two counters and a message that spells them out in decimal. */
  function Summary(p: Progress): (r: RebuildSummary)
    ensures r.success && r.documentsProcessed == |p.processed| && r.totalChunks == p.totalChunks
  {
    RebuildSummary(true, |p.processed|, p.totalChunks,
                   "Successfully processed " + Decimal(|p.processed|) + " documents with "
                   + Decimal(p.totalChunks) + " chunks.")
  }

  /** The body of the loop for one file: the `try` block (process it, append its chunks,
      upsert its row, then record the document); any exception leaves the counters as
      they were. */
  method IndexOne(env: Env, disk: DocumentsDir, vs: VectorStore, table: DocumentTable, filePath: string,
                  processedDocs: seq<DocumentRow>, totalChunks: nat)
    returns (processedDocs': seq<DocumentRow>, totalChunks': nat)
    modifies vs, table
    ensures var before := Tables(old(vs.records), old(table.rows));
            Progress(Tables(vs.records, table.rows), processedDocs', totalChunks')
            == Advance(Progress(before, processedDocs, totalChunks), IndexFile(env, disk.files, before, filePath))
  {
    processedDocs', totalChunks' := processedDocs, totalChunks;
    var result := ProcessPdf(disk.files, env.loaded, filePath, None);
    if result.Ok? {
      var chunks := result.value.chunks;
      var added := vs.AddDocuments(chunks, chunks !in env.rejected);
      if added {
        var document := table.UpdateOrCreate(RowFor(result.value), env.dbUp);
        if document.Ok? {
          processedDocs' := processedDocs + [document.value];
          totalChunks' := totalChunks + |chunks|;
        }
      }
    }
  }

  method RebuildIndex(env: Env, disk: DocumentsDir, vs: VectorStore, table: DocumentTable,
                      dir: string, listing: seq<string>) returns (summary: RebuildSummary)
    modifies vs, table
    ensures var p := Rebuild(env, disk.files, dir, Tables(old(vs.records), old(table.rows)),
                             PdfFiles(listing));
            vs.records == p.tables.vectors && table.rows == p.tables.rows && summary == Summary(p)
  {
    var pdfFiles := PdfFiles(listing);
    var processedDocs: seq<DocumentRow> := [];
    var totalChunks: nat := 0;
    ghost var start := Tables(vs.records, table.rows);
    for i := 0 to |pdfFiles|
      invariant Progress(Tables(vs.records, table.rows), processedDocs, totalChunks)
                == Rebuild(env, disk.files, dir, start, pdfFiles[..i])
    {
      processedDocs, totalChunks := IndexOne(env, disk, vs, table, Join(dir, pdfFiles[i]), processedDocs, totalChunks);
      TakeSnoc(pdfFiles, i);
      RebuildSnoc(env, disk.files, dir, start, pdfFiles[..i], pdfFiles[i]);
    }
    assert pdfFiles[..|pdfFiles|] == pdfFiles;
    summary := RebuildSummary(true, |processedDocs|, totalChunks,
                              "Successfully processed " + Decimal(|processedDocs|) + " documents with "
                              + Decimal(totalChunks) + " chunks.");
  }

  // ----- What a rebuild does to the vector store -----

  /** The chunks one file contributes to the store: none unless processing and
      `add_documents` succeed. */
  function AddedBy(env: Env, files: set<string>, path: string): seq<Chunk>
  {
    match Prepared(env, files, path)
    case None => []
    case Some(res) => res.chunks
  }

  /** The chunks a rebuild over `pdfs` appends: those of every file whose processing and
      `add_documents` succeed, whatever happens to its database row afterwards. */
  function Added(env: Env, files: set<string>, dir: string, pdfs: seq<string>): seq<Chunk>
  {
    if pdfs == [] then []
    else Added(env, files, dir, pdfs[..|pdfs| - 1]) + AddedBy(env, files, Join(dir, pdfs[|pdfs| - 1]))
  }

  /** One more file appends exactly what that file contributes. */
  lemma RebuildVectorsStep(env: Env, files: set<string>, dir: string, start: Tables, pdfs: seq<string>)
    requires pdfs != []
    ensures Rebuild(env, files, dir, start, pdfs).tables.vectors
            == Rebuild(env, files, dir, start, pdfs[..|pdfs| - 1]).tables.vectors
               + AddedBy(env, files, Join(dir, pdfs[|pdfs| - 1]))
  {
  }

  /** The store only grows, and by an amount that does not depend on what it held before:
      nothing is replaced, since `add_documents` passes no ids. */
  lemma {:induction false} RebuildAppendsVectors(env: Env, files: set<string>, dir: string,
                                                 start: Tables, pdfs: seq<string>)
    ensures Rebuild(env, files, dir, start, pdfs).tables.vectors
            == start.vectors + Added(env, files, dir, pdfs)
  {
    if pdfs != [] {
      var prefix := pdfs[..|pdfs| - 1];
      RebuildVectorsStep(env, files, dir, start, pdfs);
      RebuildAppendsVectors(env, files, dir, start, prefix);
      AppendAssoc(start.vectors, Added(env, files, dir, prefix), AddedBy(env, files, Join(dir, pdfs[|pdfs| - 1])));
    }
  }

  // ----- What a rebuild reports -----

  function SumCounts(docs: seq<DocumentRow>): nat
  {
    if docs == [] then 0 else SumCounts(docs[..|docs| - 1]) + docs[|docs| - 1].chunkCount
  }

  /** Whether `path` is the joined path of one of `pdfs`. */
  predicate Targets(dir: string, pdfs: seq<string>, path: string)
  {
    pdfs != [] && (Join(dir, pdfs[|pdfs| - 1]) == path || Targets(dir, pdfs[..|pdfs| - 1], path))
  }

  /** A file counts only when its row was planned, and it counts that row, whose
      `chunk_count` is the number of chunks the file appended. */
  lemma IndexFileDocument(env: Env, files: set<string>, t: Tables, path: string)
    ensures var doc := IndexFile(env, files, t, path).1;
            doc.Some? ==> Planned(env, files, path) == doc
                          && doc.value.chunkCount == |AddedBy(env, files, path)|
  {
  }

  /** `documents_processed` counts only files that completed, `total_chunks` is the sum of
      their chunk counts, and each counted document is an indexed row for one of the
      listed files whose chunks were added to the store before the row was written. */
  lemma {:induction false} RebuildCounters(env: Env, files: set<string>, dir: string,
                                           start: Tables, pdfs: seq<string>)
    ensures var p := Rebuild(env, files, dir, start, pdfs);
            && p.totalChunks == SumCounts(p.processed)
            && |p.processed| <= |pdfs|
            && p.totalChunks <= |Added(env, files, dir, pdfs)|
            && forall k :: 0 <= k < |p.processed| ==>
                 && Targets(dir, pdfs, p.processed[k].filePath)
                 && Planned(env, files, p.processed[k].filePath) == Some(p.processed[k])
  {
    if pdfs != [] {
      var prefix := pdfs[..|pdfs| - 1];
      var path := Join(dir, pdfs[|pdfs| - 1]);
      RebuildCounters(env, files, dir, start, prefix);
      var prev := Rebuild(env, files, dir, start, prefix);
      var step := IndexFile(env, files, prev.tables, path);
      IndexFileDocument(env, files, prev.tables, path);
      if step.1.Some? {
        var doc := step.1.value;
        var processed := prev.processed + [doc];
        SnocTake(prev.processed, doc);
        assert SumCounts(processed) == SumCounts(prev.processed) + doc.chunkCount;
        forall k | 0 <= k < |processed|
          ensures Targets(dir, pdfs, processed[k].filePath)
          ensures Planned(env, files, processed[k].filePath) == Some(processed[k])
        {
          if k < |prev.processed| { assert processed[k] == prev.processed[k]; }
        }
      }
    }
  }

  /** A listing without PDF files leaves both stores untouched and reports success with
      nothing processed. */
  lemma RebuildNoPdfs(env: Env, files: set<string>, dir: string, start: Tables, listing: seq<string>)
    requires forall f :: f in listing ==> !IsPdfName(f)
    ensures var p := Rebuild(env, files, dir, start, PdfFiles(listing));
            && p.tables == start
            && Summary(p) == RebuildSummary(true, 0, 0, "Successfully processed 0 documents with 0 chunks.")
  {
    assert PdfFiles(listing) == [];
    EmptyRebuildMessage();
  }

  lemma EmptyRebuildMessage()
    ensures "Successfully processed " + Decimal(0) + " documents with " + Decimal(0) + " chunks."
            == "Successfully processed 0 documents with 0 chunks."
  {
    assert Decimal(0) == "0";
  }

  // ----- What a rebuild does to the Document table -----

  /** After a rebuild, a listed path whose file could be indexed holds exactly its fresh
      row, unless it already held several rows (update_or_create then raises); every other
      path keeps its rows. */
  lemma {:induction false} RebuildRows(env: Env, files: set<string>, dir: string,
                                       start: Tables, pdfs: seq<string>, q: string)
    ensures RowsAt(Rebuild(env, files, dir, start, pdfs).tables.rows, q)
            == if Targets(dir, pdfs, q) && Planned(env, files, q).Some? && |RowsAt(start.rows, q)| <= 1
               then [Planned(env, files, q).value]
               else RowsAt(start.rows, q)
  {
    if pdfs != [] {
      var prefix := pdfs[..|pdfs| - 1];
      var path := Join(dir, pdfs[|pdfs| - 1]);
      RebuildRows(env, files, dir, start, prefix, q);
      RebuildRows(env, files, dir, start, prefix, path);
      var prev := Rebuild(env, files, dir, start, prefix);
      if Prepared(env, files, path).Some? {
        var res := Prepared(env, files, path).value;
        var upsert := UpsertRows(prev.tables.rows, RowFor(res), env.dbUp);
        if upsert.Ok? && q != path {
          assert RowsAt(upsert.value, q) == RowsAt(prev.tables.rows, q);
        }
      }
    }
  }

  /** The rebuild never creates a second row for a path: a table with at most one row per
      `file_path` keeps that property. */
  lemma RebuildKeepsPathsUnique(env: Env, files: set<string>, dir: string, start: Tables, pdfs: seq<string>)
    requires forall q :: |RowsAt(start.rows, q)| <= 1
    ensures forall q :: |RowsAt(Rebuild(env, files, dir, start, pdfs).tables.rows, q)| <= 1
  {
    forall q ensures |RowsAt(Rebuild(env, files, dir, start, pdfs).tables.rows, q)| <= 1 {
      RebuildRows(env, files, dir, start, pdfs, q);
    }
  }

  /** The documents a rebuild reports, decided by the table it started from. */
  function Successes(env: Env, files: set<string>, dir: string, rows: seq<DocumentRow>,
                     pdfs: seq<string>): seq<DocumentRow>
  {
    if pdfs == [] then []
    else
      var prev := Successes(env, files, dir, rows, pdfs[..|pdfs| - 1]);
      var path := Join(dir, pdfs[|pdfs| - 1]);
      if Planned(env, files, path).Some? && |RowsAt(rows, path)| <= 1
      then prev + [Planned(env, files, path).value]
      else prev
  }

  lemma {:induction false} RebuildProcessed(env: Env, files: set<string>, dir: string,
                                            start: Tables, pdfs: seq<string>)
    ensures Rebuild(env, files, dir, start, pdfs).processed
            == Successes(env, files, dir, start.rows, pdfs)
  {
    if pdfs != [] {
      var prefix := pdfs[..|pdfs| - 1];
      var path := Join(dir, pdfs[|pdfs| - 1]);
      RebuildProcessed(env, files, dir, start, prefix);
      RebuildRows(env, files, dir, start, prefix, path);
    }
  }

  /** One file whose path already holds its row (or several rows) leaves the table as it is. */
  lemma IndexFileSettled(env: Env, files: set<string>, t: Tables, path: string)
    requires Planned(env, files, path).Some? ==>
               RowsAt(t.rows, path) == [Planned(env, files, path).value] || |RowsAt(t.rows, path)| >= 2
    ensures IndexFile(env, files, t, path).0.rows == t.rows
  {
    if env.dbUp && Prepared(env, files, path).Some? && |RowsAt(t.rows, path)| <= 1 {
      UpsertSettled(t.rows, RowFor(Prepared(env, files, path).value), env.dbUp);
    }
  }

  /** When every listed, indexable path already holds exactly its row (or several rows),
      a rebuild leaves the table as it is. */
  lemma {:induction false} RebuildSettledRows(env: Env, files: set<string>, dir: string,
                                              start: Tables, pdfs: seq<string>)
    requires forall q :: Targets(dir, pdfs, q) && Planned(env, files, q).Some? ==>
               RowsAt(start.rows, q) == [Planned(env, files, q).value] || |RowsAt(start.rows, q)| >= 2
    ensures Rebuild(env, files, dir, start, pdfs).tables.rows == start.rows
  {
    if pdfs != [] {
      var prefix := pdfs[..|pdfs| - 1];
      RebuildSettledRows(env, files, dir, start, prefix);
      IndexFileSettled(env, files, Rebuild(env, files, dir, start, prefix).tables, Join(dir, pdfs[|pdfs| - 1]));
    }
  }

  lemma {:induction false} SuccessesAgree(env: Env, files: set<string>, dir: string,
                                          rowsA: seq<DocumentRow>, rowsB: seq<DocumentRow>,
                                          pdfs: seq<string>)
    requires forall q :: Targets(dir, pdfs, q) && Planned(env, files, q).Some? ==>
               (|RowsAt(rowsA, q)| <= 1 <==> |RowsAt(rowsB, q)| <= 1)
    ensures Successes(env, files, dir, rowsA, pdfs) == Successes(env, files, dir, rowsB, pdfs)
  {
    if pdfs != [] {
      SuccessesAgree(env, files, dir, rowsA, rowsB, pdfs[..|pdfs| - 1]);
    }
  }

  /** Rebuilding twice: the second run reports the same result and leaves the table as the
      first left it (rows are upserted by `file_path`), but appends every chunk again, so
      the vector store holds the new chunks twice. */
  /** When the database is up and no path starts with several rows, no upsert fails, so
      every file whose chunks are appended is counted: the reported `total_chunks` is
      exactly how many vectors the rebuild added. */
  lemma {:induction false} TotalIsGrowth(env: Env, files: set<string>, dir: string, start: Tables, pdfs: seq<string>)
    requires env.dbUp && forall q :: |RowsAt(start.rows, q)| <= 1
    ensures Rebuild(env, files, dir, start, pdfs).totalChunks == |Added(env, files, dir, pdfs)|
  {
    if pdfs != [] {
      var prefix := pdfs[..|pdfs| - 1];
      var path := Join(dir, pdfs[|pdfs| - 1]);
      var prev := Rebuild(env, files, dir, start, prefix);
      TotalIsGrowth(env, files, dir, start, prefix);
      RebuildRows(env, files, dir, start, prefix, path);
      IndexFileDocument(env, files, prev.tables, path);
    }
  }

  lemma RebuildTwice(env: Env, files: set<string>, dir: string, start: Tables, pdfs: seq<string>)
    ensures var first := Rebuild(env, files, dir, start, pdfs);
            var second := Rebuild(env, files, dir, first.tables, pdfs);
            && second.tables.rows == first.tables.rows
            && second.tables.vectors == first.tables.vectors + Added(env, files, dir, pdfs)
            && first.tables.vectors == start.vectors + Added(env, files, dir, pdfs)
            && Summary(second) == Summary(first)
            && (env.dbUp && (forall q :: |RowsAt(start.rows, q)| <= 1) ==>
                  |second.tables.vectors| == |first.tables.vectors| + second.totalChunks)
  {
    var first := Rebuild(env, files, dir, start, pdfs);
    var second := Rebuild(env, files, dir, first.tables, pdfs);
    forall q | Targets(dir, pdfs, q) && Planned(env, files, q).Some?
      ensures RowsAt(first.tables.rows, q) == [Planned(env, files, q).value]
              || |RowsAt(first.tables.rows, q)| >= 2
      ensures |RowsAt(first.tables.rows, q)| <= 1 <==> |RowsAt(start.rows, q)| <= 1
    {
      RebuildRows(env, files, dir, start, pdfs, q);
    }
    RebuildSettledRows(env, files, dir, first.tables, pdfs);
    RebuildAppendsVectors(env, files, dir, start, pdfs);
    RebuildAppendsVectors(env, files, dir, first.tables, pdfs);
    RebuildProcessed(env, files, dir, start, pdfs);
    RebuildProcessed(env, files, dir, first.tables, pdfs);
    SuccessesAgree(env, files, dir, first.tables.rows, start.rows, pdfs);
    RebuildCounters(env, files, dir, start, pdfs);
    RebuildCounters(env, files, dir, first.tables, pdfs);
    if env.dbUp && (forall q :: |RowsAt(start.rows, q)| <= 1) {
      RebuildKeepsPathsUnique(env, files, dir, start, pdfs);
      TotalIsGrowth(env, files, dir, first.tables, pdfs);
    }
  }

  /** A path that holds several rows (two uploads of the same file name create two) is
      never counted by a rebuild, yet its chunks are still appended before the upsert fails. */
  lemma DuplicateRowsBlockIndexing(env: Env, files: set<string>, t: Tables, path: string)
    requires |RowsAt(t.rows, path)| >= 2
    requires Prepared(env, files, path).Some?
    ensures IndexFile(env, files, t, path).1 == None
    ensures IndexFile(env, files, t, path).0
            == Tables(t.vectors + Prepared(env, files, path).value.chunks, t.rows)
  {
  }
}
