# Indexing and citation core of a Django RAG backend, modelled in Dafny

The backend answers questions over uploaded PDF files. It has three endpoints:

- `query/` runs a LangChain RetrievalQA chain (MMR retrieval from a Chroma collection, then generation by a llama.cpp model). It returns the answer with a deduplicated list of cited sources.
- `upload/` saves a PDF and splits it into chunks. It stamps each chunk's metadata, appends the chunks to the Chroma collection, then creates a `Document` row.
- `rebuild-index/` re-processes every `*.pdf` file in the documents directory. It appends the chunks again and upserts each file's `Document` row by `file_path`, skipping files that fail.

The model keeps the sequential logic around the library calls. The libraries themselves are collaborators that may fail. They are the fields of a deterministic `Common.Env`:
- the PDF loader plus text splitter (`loaded`: the chunk list for every path they can read);
- embedding plus Chroma insertion (`rejected`: the chunk batches on which it raises);
- the database (`dbUp`);
- construction of the embedding and LLM handles (`servicesUp`);
- the disk (`diskWritable`);
- the QA chain (`answers`: its result for every query it answers).

The stores are three classes:
- `Stores.VectorStore`: the Chroma collection, a sequence of chunks. `add_documents` passes no ids, so it only ever appends.
- `Stores.DocumentTable`: the `Document` rows.
- `Stores.DocumentsDir`: the set of saved file paths.

Each state-changing method is proved equal to a value-level function. The lemmas are stated about those functions:
- `Pdf.ProcessPdfSpec`
- `ChromaDb.Rebuild`
- `Views.Upload`

Modules follow the source files:
- `Common`: shared values, the string and path functions used, and `Env`.
- `Pdf`: `pdf.py`.
- `Rag`: `rag.py`.
- `Stores`: the Chroma collection, the `Document` model and the documents directory.
- `ChromaDb`: `chroma_db.py`.
- `Views`: `views.py`.

`views.rebuild_index` repeats the loop of `ChromaDBService.rebuild_index` statement for statement. Both use `add_documents`, which has the same effect in either service. So the view is modelled as building the RAG service and then running the one loop, `ChromaDb.RebuildIndex`.

Two behaviours of the code are modelled as written and stated as lemmas:
- **Duplicate rows block rebuilds.** An upload uses `Document.objects.create`, which is not an upsert. Uploading the same file name twice therefore leaves two rows for one path. From then on, `update_or_create` raises MultipleObjectsReturned for that path on every rebuild. That happens after the file's chunks have already been appended, so the file is never counted but still adds vectors on every rebuild (`Views.RepeatedUploadBlocksRebuild`, `ChromaDb.DuplicateRowsBlockIndexing`).
- **No cleanup when the service fails to build.** The upload builds `RAGService()` after saving the file but outside the `try` that removes it. If the model handles cannot be built, the file stays on disk (`Views.UploadServiceFailureKeepsFile`).

Further behaviours of the code that the model keeps:
- The code appends chunks without ids and never removes stale vectors. It also keeps the vectors of a file whose row write failed.
- So repeated rebuilds grow the store. `ChromaDb.RebuildTwice` proves that the second rebuild appends exactly the same chunks again, while the table and the reported counts stay the same; when no upsert can fail, the store grows by exactly the reported `total_chunks` each time (`ChromaDb.TotalIsGrowth`).
- Re-uploading a changed file under an indexed name appends the new version's chunks and keeps the old version's, under the same name and source (`Views.RepeatedUploadStoresChunksTwice`).
- For a query with no retrieved chunks, the code still calls the chain (empty context) and returns an empty `sources` list.

## Model

| member | source | states |
|---|---|---|
| `Common.Lookup` | backend/ragBackend/rag/services/pdf.py:38 | `dict.get(key)` is present exactly when the key is, with the stored value |
| `Common.GetOr` | backend/ragBackend/rag/services/rag.py:135-138 | `dict.get(key, default)`: the stored value when the key is present, else the default |
| `Common.Truthy` | backend/ragBackend/rag/services/pdf.py:38 | a metadata value is truthy exactly when it is present and is not `None`, `""` or `0` |
| `Common.IsPdfName` | backend/ragBackend/rag/views.py:52 | `name.lower().endswith(".pdf")` looks only at the last four characters, which must lowercase to `.pdf` |
| `Common.PdfNameCaseInsensitive` | backend/ragBackend/rag/views.py:52 | the `.pdf` check ignores case, accepts every lower-case `.pdf` name, and needs a `.` four characters from the end |
| `Common.Join` | backend/ragBackend/rag/views.py:62 | `os.path.join`: an absolute name replaces the directory |
| `Common.JoinEndsWithName` | backend/ragBackend/rag/views.py:62 | whatever the directory, the joined path ends in the file name |
| `Common.Basename` | backend/ragBackend/rag/services/pdf.py:31 | `Path(p).name` is the final component of the path once trailing slashes are dropped: a suffix of it that contains no `/` and is either the whole path or preceded by a `/` |
| `Common.Decimal` | backend/ragBackend/rag/services/chroma_db.py:101 | `str(n)` is a non-empty string of digits, without a leading zero, that denotes `n` |
| `Common.BasenameOfJoin` | backend/ragBackend/rag/services/pdf.py:30-31 | a file name without `/` joined onto the documents directory has that name back as its basename, so the default document name is the file name |
| `Pdf.ResolveName` | backend/ragBackend/rag/services/pdf.py:30-31 | an absent or empty `document_name` becomes the basename of `file_path`; a non-empty one is kept |
| `Pdf.Stamp` | backend/ragBackend/rag/services/pdf.py:38-41 | one pass of the loop body keeps the chunk's text and sets `chunk_id` to its position |
| `Pdf.StampFields` | backend/ragBackend/rag/services/pdf.py:38-41 | text unchanged; `chunk_id` is the position; `name` is the document name; a truthy `source` is kept and a missing or falsy one becomes `file_path`; no other key is touched and only these three are added |
| `Pdf.StampAll` | backend/ragBackend/rag/services/pdf.py:37-41 | the stamped list has the same length, and chunk `i` is chunk `i` stamped with position `i` |
| `Pdf.StampChunks` | backend/ragBackend/rag/services/pdf.py:37-41 | the in-place loop over the array leaves exactly the stamped list |
| `Pdf.ProcessPdfSpec` | backend/ragBackend/rag/services/pdf.py:19-48 | a missing file raises FileNotFoundError before the loader runs; an unreadable one raises from the loader; otherwise the result carries the file's path, type `pdf` and as many chunks as the splitter made |
| `Pdf.ProcessPdf` | backend/ragBackend/rag/services/pdf.py:19-48 | equals the specification; a missing file raises FileNotFoundError; the result is a success exactly when the file exists and the loader and splitter can read it |
| `Pdf.MissingFileNeverLoads` | backend/ragBackend/rag/services/pdf.py:22-27 | a missing path gives FileNotFound whatever the loader would do, so the loader is never consulted |
| `Pdf.ProcessPdfResult` | backend/ragBackend/rag/services/pdf.py:36-48 | a result has `file_type == "pdf"`, the given `file_path` and the resolved name; chunk ids are exactly `0..n-1` in list order; every chunk carries the name; count, order and text of the chunks are those of the splitter |
| `Rag.Preview` | backend/ragBackend/rag/services/rag.py:139-141 | the preview is the text itself when it has at most 200 characters, otherwise its first 200 characters followed by `...`; never longer than 203 |
| `Rag.ToSource` | backend/ragBackend/rag/services/rag.py:134-142 | each field is the metadata value when present, otherwise `"unknown"` (id, name, source) or `0` (page); the preview is bounded |
| `Rag.FirstIndex` | backend/ragBackend/rag/services/rag.py:144-147 | the position of the first retrieved chunk cited under a name: it has that name and no earlier chunk has it |
| `Rag.Citations` | backend/ragBackend/rag/services/rag.py:131-147 | the citation list has at most one source per retrieved chunk and no two sources with one name |
| `Rag.CitationsCoverNames` | backend/ragBackend/rag/services/rag.py:133-147 | the deduplicated sources name every retrieved document name exactly once: their name set equals the retrieved name set, no two share a name, and there are at most as many sources as chunks |
| `Rag.CitationsFirstSeen` | backend/ragBackend/rag/services/rag.py:133-147 | each source is built from the first chunk carrying its name, and sources are ordered by those first positions, so they form a subsequence of the retrieved chunks |
| `Rag.UnnamedCollapse` | backend/ragBackend/rag/services/rag.py:135-147 | when any chunk has no `name`, exactly one source is named `"unknown"` |
| `Rag.CollectSources` | backend/ragBackend/rag/services/rag.py:131-147 | the loop with its seen-set computes the citation list: no duplicate names, every retrieved name covered, at most one source per chunk, every preview at most 203 characters |
| `Rag.Query` | backend/ragBackend/rag/services/rag.py:128-158 | a chain failure propagates; otherwise the result has the chain's `result` as `answer`, the deduplicated sources, and the elapsed milliseconds under `timing` |
| `Stores.RowsAt` | backend/ragBackend/rag/models.py:10 | the rows stored for one `file_path` all have that path and come from the table |
| `Stores.RowsAtCounts` | backend/ragBackend/rag/services/chroma_db.py:82-83 | the rows for a path are every table row with that path, each as often as the table holds it, and no other row, so their number is what `update_or_create` counts |
| `Stores.IndexOfPath` | backend/ragBackend/rag/services/chroma_db.py:82-83 | when one row has the path, the position of that row |
| `Stores.UpsertRows` | backend/ragBackend/rag/services/chroma_db.py:82-90 | `update_or_create` keyed on `file_path` succeeds exactly when the database is up and at most one row matches; the path then holds just the new row, every other path keeps its rows, and the table grows only when no row matched |
| `Stores.UpsertSettled` | backend/ragBackend/rag/services/chroma_db.py:82-90 | writing the row a path already holds leaves the table unchanged |
| `Stores.VectorStore.AddDocuments` | backend/ragBackend/rag/services/rag.py:60-64 | `add_documents` without ids appends the whole batch, or leaves the store unchanged when the backend fails |
| `Stores.DocumentTable.Create` | backend/ragBackend/rag/views.py:80-86 | `Document.objects.create` always appends a new row, even when the path already has one |
| `Stores.DocumentTable.UpdateOrCreate` | backend/ragBackend/rag/views.py:136-144 | the table becomes the upsert's result and the row is returned, or the exception is returned and the table is unchanged |
| `Stores.DocumentsDir.Save` | backend/ragBackend/rag/views.py:62-66 | a successful write adds the path to the directory |
| `Stores.DocumentsDir.RemoveIfExists` | backend/ragBackend/rag/views.py:98-99 | afterwards the path is not in the directory, and nothing else changed |
| `ChromaDb.PdfFiles` | backend/ragBackend/rag/services/chroma_db.py:67 | keeps exactly the listed names whose lowercased form ends in `.pdf`, each as often as it is listed; empty when there are none |
| `ChromaDb.Prepared` | backend/ragBackend/rag/services/chroma_db.py:75-79 | a file whose processing and `add_documents` succeed has its own path and type `pdf`, and the store accepted its chunks |
| `ChromaDb.Planned` | backend/ragBackend/rag/services/chroma_db.py:82-90 | the row a rebuild would write has the file's path, `indexed=True` and type `pdf` |
| `ChromaDb.IndexFile` | backend/ragBackend/rag/services/chroma_db.py:74-95 | one file's `try` block appends exactly the chunks of a file that was processed and accepted; a recorded file then holds exactly its row, and an unrecorded one leaves the table as it was |
| `ChromaDb.Rebuild` | backend/ragBackend/rag/services/chroma_db.py:72-95 | the loop counts at most one document per listed file and never shrinks the vector store |
| `ChromaDb.Summary` | backend/ragBackend/rag/services/chroma_db.py:97-102 | the returned dict always reports success, with the number of processed documents and the chunk total |
| `ChromaDb.IndexOne` | backend/ragBackend/rag/services/chroma_db.py:73-95 | one pass of the loop body leaves the stores, `processed_docs` and `total_chunks` as the per-file step of the rebuild specification says |
| `ChromaDb.RebuildIndex` | backend/ragBackend/rag/services/chroma_db.py:55-102 | the loop leaves both stores and returns the summary given by the rebuild specification over the `.pdf` entries of the listing |
| `ChromaDb.RebuildAppendsVectors` | backend/ragBackend/rag/services/chroma_db.py:72-79 | a rebuild only appends to the vector store, and what it appends does not depend on what the store held |
| `ChromaDb.RebuildVectorsStep` | backend/ragBackend/rag/services/chroma_db.py:75-79 | one more file appends exactly its own chunks, and only when processing and `add_documents` succeed |
| `ChromaDb.IndexFileDocument` | backend/ragBackend/rag/services/chroma_db.py:82-93 | a file is recorded only with the row planned for it, whose `chunk_count` is the number of chunks it appended |
| `ChromaDb.RebuildCounters` | backend/ragBackend/rag/services/chroma_db.py:92-100 | `total_chunks` is the sum of the counted documents' chunk counts and never more than the chunks appended; at most one document per listed file; each counted document is the indexed row of a listed file whose chunks were added |
| `ChromaDb.RebuildNoPdfs` | backend/ragBackend/rag/services/chroma_db.py:67-102 | a listing without PDF names leaves both stores unchanged and reports success with 0 documents and 0 chunks |
| `ChromaDb.RebuildRows` | backend/ragBackend/rag/services/chroma_db.py:82-90 | after a rebuild a listed, indexable path that had at most one row holds exactly its fresh row; every other path keeps its rows |
| `ChromaDb.RebuildKeepsPathsUnique` | backend/ragBackend/rag/services/chroma_db.py:82-90 | a table with at most one row per path keeps that property through a rebuild |
| `ChromaDb.RebuildProcessed` | backend/ragBackend/rag/services/chroma_db.py:72-95 | which files a rebuild counts is decided by the collaborators and the table it started from (continue-on-error) |
| `ChromaDb.IndexFileSettled` | backend/ragBackend/rag/services/chroma_db.py:82-90 | a file whose path already holds its row (or several rows) leaves the table unchanged |
| `ChromaDb.RebuildSettledRows` | backend/ragBackend/rag/services/chroma_db.py:82-90 | when every listed path already holds its row, a rebuild leaves the table unchanged |
| `ChromaDb.TotalIsGrowth` | backend/ragBackend/rag/services/chroma_db.py:79-93 | when the database is up and no path starts with several rows, the reported `total_chunks` equals the number of vectors the rebuild appended |
| `ChromaDb.RebuildTwice` | backend/ragBackend/rag/services/chroma_db.py:72-100 | a second rebuild leaves the table as the first did and reports the same summary, but appends the same chunks to the vector store again; when no upsert fails, by exactly the reported `total_chunks` |
| `ChromaDb.DuplicateRowsBlockIndexing` | backend/ragBackend/rag/services/chroma_db.py:79-95 | a path holding several rows is never counted, yet its chunks are still appended |
| `Views.MissingQuery` | backend/ragBackend/rag/views.py:19-20 | a query is rejected when it is absent or the empty string |
| `Views.QueryEndpoint` | backend/ragBackend/rag/views.py:16-36 | 400 exactly when the query is missing or empty, with no service involved; otherwise 500 when a service fails, else 200 with the chain's answer and the deduplicated sources |
| `Views.CheckUpload` | backend/ragBackend/rag/views.py:43-56 | an upload passes the checks exactly when a file is present and its lowercased name ends in `.pdf`; otherwise 400 with the matching message |
| `Views.Upload` | backend/ragBackend/rag/views.py:40-107 | an upload answers 400, 500 or 200; it adds a row only when it answers 200, and then exactly one after the rows already stored; it never removes or rewrites stored vectors |
| `Views.Ingest` | backend/ragBackend/rag/views.py:72-100 | the inner `try` either answers 200 with the file kept and one row appended, or answers 500 with the file removed and the rows as they were |
| `Views.UploadDocument` | backend/ragBackend/rag/views.py:40-107 | the method's effect on the three stores and its response equal the upload specification |
| `Views.IngestSaved` | backend/ragBackend/rag/views.py:72-100 | the inner `try` on a saved file leaves the stores and the response that the specification of that block gives: success with one new row, or 500 with the file removed |
| `Views.UploadRejection` | backend/ragBackend/rag/views.py:43-56 | status 400 exactly for a missing or non-PDF file, and a rejected request changes nothing |
| `Views.UploadSuccess` | backend/ragBackend/rag/views.py:58-94 | success exactly when no collaborator fails; then the file is saved, the stamped chunks are appended, and one indexed row with `chunk_count == len(chunks)` is created |
| `Views.UploadFailureCleansUp` | backend/ragBackend/rag/views.py:96-107 | when processing, adding or creating the row fails: 500, the saved file is removed, no row is written, and chunks remain only if the row creation failed |
| `Views.UploadServiceFailureKeepsFile` | backend/ragBackend/rag/views.py:69-70 | a failure to build the RAG service after saving ends in 500 with the file left on disk and no vectors or rows |
| `Views.UploadWriteOrder` | backend/ragBackend/rag/views.py:77-86 | a row is only created after the chunks were appended, and it records exactly how many were appended |
| `Views.UploadWriteFailure` | backend/ragBackend/rag/views.py:62-66 | a file that cannot be written ends in a 500 naming the path, with all three stores unchanged |
| `Views.RepeatedUploadBlocksRebuild` | backend/ragBackend/rag/views.py:80-86 | two successful uploads of one name, whatever the second file holds, leave at least two rows for the path, after which no rebuild counts that file |
| `Views.ReuploadSameContentSucceeds` | backend/ragBackend/rag/views.py:62-95 | uploading unchanged content again under the same name succeeds again |
| `Views.RepeatedUploadStoresChunksTwice` | backend/ragBackend/rag/views.py:64-77 | a second upload under an indexed name appends its chunks after the first upload's, which stay in the store; with unchanged content the same chunks are stored twice |
| `Views.RebuildEndpoint` | backend/ragBackend/rag/views.py:111-165 | a service failure gives 500 with both stores unchanged; otherwise 200 with the rebuild summary (`success` always true) and the stores the rebuild specifies |

## Left out

- MMR retrieval (`as_retriever(search_type="mmr", ...)`), `similarity_search`, the prompt template and the RetrievalQA chain: ranking and generation happen inside LangChain, Chroma and llama.cpp over float vectors. The chain is `Env.answers`, a map from each query it answers to its result; a query missing from it raises. It does not depend on the store's contents.
- Embedding and the handles built by `get_embeddings` and `CustomLLM` are foreign model handles. Their failures are `Env.rejected` and `Env.servicesUp`.
- PDF loading and the recursive character splitter (chunk size 1000, overlap 200) are library code. `Env.loaded` gives the chunk list for each readable path; a path missing from it raises. Within one environment it depends on the path only, not on the bytes written there; an upload that overwrites a file with other content is modelled by giving that upload its own environment (`Views.RepeatedUploadStoresChunksTwice`, `Views.RepeatedUploadBlocksRebuild`).
- `get_vectorstore`'s delete-and-recreate fallback is filesystem I/O (`shutil.rmtree`). A Chroma insertion is taken as all-or-nothing per batch.
- Wall-clock timing: the elapsed milliseconds are an input to `Rag.Query` and `Views.QueryEndpoint`.
- File I/O: writing the uploaded bytes, `os.makedirs`, and the order of `os.listdir`. The listing is an input sequence, and the directory is a set of paths.
- The `Document` uuid primary key and `created_at` are random or clock values. The `id` field of the upload response is left out with them.
- The traceback text of 500 responses, and the `print` of per-file errors during a rebuild.
- A `query` field that is present but not a string. JSON numbers and lists are not modelled; the query is an optional string.
- Concurrency between requests: each endpoint is modelled as one sequential run.
- The `ChromaDBService` constructor's call to `get_embeddings`.
- The Angular frontend, `models.py` beyond the row fields, `serializers.py` and `urls.py` hold no logic of this core.
- Common.Lower: models `str.lower()` on ASCII letters only; other Unicode case mappings are not modelled.
- Common.Basename: strips trailing slashes and takes the last component. It does not collapse `.` components the way `pathlib` does; the views only ever pass joined file names, where this cannot arise.
