/** The three HTTP endpoints: `query_endpoint`, `upload_document` and `rebuild_index`.
    Framing is reduced to a status code and a body; the traceback text of a 500 body is
    not modelled, only the exception it reports. */
module Views {
  import opened Common
  import opened Pdf
  import opened Rag
  import opened Stores
  import opened ChromaDb

  datatype Body =
    | Message(error: string)                               // {"error": "..."} with a fixed text
    | Raised(exception: Error)                             // {"error": str(e), "traceback": ...}
    | QueryOk(result: QueryResult)
    | UploadOk(name: string, chunkCount: nat, message: string)
    | RebuildOk(summary: RebuildSummary)

  datatype Response = Response(status: nat, body: Body)

  const BadRequest: nat := 400
  const ServerError: nat := 500
  const OkStatus: nat := 200

  const QueryRequired := "Query parameter is required"
  const NoFileProvided := "No file provided"
  const OnlyPdf := "Only PDF files are supported"

  // ----- query_endpoint -----

  /** `request.data.get("query")` is falsy: missing or empty. */
  predicate MissingQuery(query: Option<string>)
  {
    query.None? || query.value == ""
  }

  /** A missing or empty query is answered with 400 before any service is built; otherwise
      the service is built and queried, and any exception becomes a 500. */
  method QueryEndpoint(env: Env, query: Option<string>, elapsedMs: nat) returns (resp: Response)
    ensures MissingQuery(query) ==> resp == Response(BadRequest, Message(QueryRequired))
    ensures !MissingQuery(query) && !env.servicesUp ==> resp == Response(ServerError, Raised(ServiceInitFailed))
    ensures !MissingQuery(query) && env.servicesUp && query.value !in env.answers ==>
              resp == Response(ServerError, Raised(GenerationFailed))
    ensures !MissingQuery(query) && env.servicesUp && query.value in env.answers ==>
              resp.status == OkStatus && resp.body.QueryOk?
              && resp.body.result.answer == env.answers[query.value].result
              && resp.body.result.sources == Citations(env.answers[query.value].sourceDocuments)
    ensures resp.status == BadRequest <==> MissingQuery(query)
  {
    if MissingQuery(query) {
      return Response(BadRequest, Message(QueryRequired));
    }
    if !env.servicesUp {
      return Response(ServerError, Raised(ServiceInitFailed));
    }
    var result := Query(env, query.value, elapsedMs);
    if result.Err? {
      return Response(ServerError, Raised(result.error));
    }
    resp := Response(OkStatus, QueryOk(result.value));
  }

  // ----- upload_document -----

  /** The two 400 checks of the upload: a `file` part must be present (its name is given
      here) and its lowercased name must end in ".pdf". */
  function CheckUpload(fileName: Option<string>): (r: Option<Response>)
    ensures r.None? <==> fileName.Some? && IsPdfName(fileName.value)
    ensures fileName.None? ==> r == Some(Response(BadRequest, Message(NoFileProvided)))
    ensures fileName.Some? && !IsPdfName(fileName.value) ==> r == Some(Response(BadRequest, Message(OnlyPdf)))
  {
    match fileName
    case None => Some(Response(BadRequest, Message(NoFileProvided)))
    case Some(name) => if IsPdfName(name) then None else Some(Response(BadRequest, Message(OnlyPdf)))
  }

  /** The value-level state of the three stores. */
  datatype Site = Site(files: set<string>, vectors: seq<Chunk>, rows: seq<DocumentRow>)

  function UploadMessage(chunkCount: nat): string
  {
    "Successfully processed document with " + Decimal(chunkCount) + " chunks."
  }

  /** The inner `try` of `upload_document`, once the file is saved at `path`: process it,
      append its chunks, create its row; any exception removes the file again. */
  function Ingest(env: Env, s: Site, path: string): (r: (Site, Response))
    ensures r.1.status == OkStatus || r.1.status == ServerError
    ensures r.1.status == OkStatus ==>
              r.0.files == s.files && |r.0.rows| == |s.rows| + 1 && r.0.rows[..|s.rows|] == s.rows
    ensures r.1.status == ServerError ==> r.0.files == s.files - {path} && r.0.rows == s.rows
  {
    match ProcessPdfSpec(s.files, env.loaded, path, None)
    case Err(e) => (Site(s.files - {path}, s.vectors, s.rows), Response(ServerError, Raised(e)))
    case Ok(res) =>
      if res.chunks in env.rejected then
        (Site(s.files - {path}, s.vectors, s.rows), Response(ServerError, Raised(EmbeddingFailed)))
      else if !env.dbUp then
        (Site(s.files - {path}, s.vectors + res.chunks, s.rows), Response(ServerError, Raised(DatabaseFailed)))
      else
        (Site(s.files, s.vectors + res.chunks, s.rows + [RowFor(res)]),
         Response(OkStatus, UploadOk(res.name, |res.chunks|, UploadMessage(|res.chunks|))))
  }

  /** What `upload_document` does to the stores and answers. */
  function Upload(env: Env, dir: string, s: Site, fileName: Option<string>): (r: (Site, Response))
    ensures r.1.status == BadRequest || r.1.status == ServerError || r.1.status == OkStatus
    ensures r.0.rows == s.rows || (r.1.status == OkStatus && |r.0.rows| == |s.rows| + 1)
    ensures r.1.status == OkStatus ==> r.0.rows[..|s.rows|] == s.rows
    ensures |s.vectors| <= |r.0.vectors| && r.0.vectors[..|s.vectors|] == s.vectors
  {
    match CheckUpload(fileName)
    case Some(rejected) => (s, rejected)
    case None =>
      var path := Join(dir, fileName.value);
      if !env.diskWritable then (s, Response(ServerError, Raised(WriteFailed(path))))
      else
        var saved := Site(s.files + {path}, s.vectors, s.rows);
        if !env.servicesUp then (saved, Response(ServerError, Raised(ServiceInitFailed)))
        else Ingest(env, saved, path)
  }

  method UploadDocument(env: Env, dir: string, disk: DocumentsDir, vs: VectorStore,
                        table: DocumentTable, fileName: Option<string>) returns (resp: Response)
    modifies disk, vs, table
    ensures (Site(disk.files, vs.records, table.rows), resp)
            == Upload(env, dir, Site(old(disk.files), old(vs.records), old(table.rows)), fileName)
  {
    var rejected := CheckUpload(fileName);
    if rejected.Some? {
      return rejected.value;
    }
    var filePath := Join(dir, fileName.value);
    var saved := disk.Save(filePath, env.diskWritable);
    if !saved {
      return Response(ServerError, Raised(WriteFailed(filePath)));
    }
    // RAGService() is built outside the inner try: its failure skips the cleanup.
    if !env.servicesUp {
      return Response(ServerError, Raised(ServiceInitFailed));
    }
    resp := IngestSaved(env, disk, vs, table, filePath);
  }

  method IngestSaved(env: Env, disk: DocumentsDir, vs: VectorStore, table: DocumentTable, filePath: string)
    returns (resp: Response)
    modifies disk, vs, table
    ensures (Site(disk.files, vs.records, table.rows), resp)
            == Ingest(env, Site(old(disk.files), old(vs.records), old(table.rows)), filePath)
  {
    var failure: Error;
    var result := ProcessPdf(disk.files, env.loaded, filePath, None);
    if result.Ok? {
      var chunks := result.value.chunks;
      var added := vs.AddDocuments(chunks, chunks !in env.rejected);
      if added {
        var created := table.Create(RowFor(result.value), env.dbUp);
        if created {
          return Response(OkStatus, UploadOk(result.value.name, |chunks|, UploadMessage(|chunks|)));
        }
        failure := DatabaseFailed;
      } else {
        failure := EmbeddingFailed;
      }
    } else {
      failure := result.error;
    }
    disk.RemoveIfExists(filePath);
    resp := Response(ServerError, Raised(failure));
  }

  /** A rejected request (400) changes nothing, and a request is rejected exactly when the
      file part is missing or not named *.pdf. */
  lemma UploadRejection(env: Env, dir: string, s: Site, fileName: Option<string>)
    ensures Upload(env, dir, s, fileName).1.status == BadRequest
            <==> fileName.None? || !IsPdfName(fileName.value)
    ensures Upload(env, dir, s, fileName).1.status == BadRequest ==> Upload(env, dir, s, fileName).0 == s
  {
  }

  /** A successful upload saves the file, appends exactly the stamped chunks to the vector
      store and then creates one indexed row whose chunk count is the number of chunks;
      it succeeds exactly when no collaborator fails. */
  lemma UploadSuccess(env: Env, dir: string, s: Site, name: string)
    requires IsPdfName(name)
    ensures var path := Join(dir, name);
            var (s', resp) := Upload(env, dir, s, Some(name));
            && (resp.status == OkStatus
                <==> env.diskWritable && env.servicesUp && env.dbUp
                     && Prepared(env, s.files + {path}, path).Some?)
            && (resp.status == OkStatus ==>
                  var res := Prepared(env, s.files + {path}, path).value;
                  && s'.files == s.files + {path}
                  && s'.vectors == s.vectors + res.chunks
                  && s'.rows == s.rows + [DocumentRow(res.name, path, "pdf", |res.chunks|, true)]
                  && resp.body == UploadOk(res.name, |res.chunks|, UploadMessage(|res.chunks|)))
  {
  }

  /** When processing, adding or the row creation fails, the saved file is removed, no row
      is written, and the request ends in a 500; chunks stay in the store only when it was
      the row creation that failed. */
  lemma UploadFailureCleansUp(env: Env, dir: string, s: Site, name: string)
    requires IsPdfName(name) && env.diskWritable && env.servicesUp
    requires Upload(env, dir, s, Some(name)).1.status != OkStatus
    ensures var path := Join(dir, name);
            var (s', resp) := Upload(env, dir, s, Some(name));
            && resp.status == ServerError
            && path !in s'.files
            && s'.files == s.files - {path}
            && s'.rows == s.rows
            && (s'.vectors == s.vectors
                || (!env.dbUp && s'.vectors == s.vectors + Prepared(env, s.files + {path}, path).value.chunks))
  {
  }

  /** A file that cannot be written ends the request in a 500 before anything is stored. */
  lemma UploadWriteFailure(env: Env, dir: string, s: Site, name: string)
    requires IsPdfName(name) && !env.diskWritable
    ensures var (s', resp) := Upload(env, dir, s, Some(name));
            && resp == Response(ServerError, Raised(WriteFailed(Join(dir, name))))
            && s' == s
  {
  }

  /** A failure to build the RAG service happens after the file is saved and outside the
      cleanup, so the file stays on disk. */
  lemma UploadServiceFailureKeepsFile(env: Env, dir: string, s: Site, name: string)
    requires IsPdfName(name) && env.diskWritable && !env.servicesUp
    ensures var (s', resp) := Upload(env, dir, s, Some(name));
            && resp == Response(ServerError, Raised(ServiceInitFailed))
            && s'.files == s.files + {Join(dir, name)}
            && s'.vectors == s.vectors && s'.rows == s.rows
  {
  }

  /** Write order: a row is only ever created after its chunks were appended, and it
      records exactly how many were. */
  lemma UploadWriteOrder(env: Env, dir: string, s: Site, fileName: Option<string>)
    requires Upload(env, dir, s, fileName).0.rows != s.rows
    ensures var s' := Upload(env, dir, s, fileName).0;
            && |s'.rows| == |s.rows| + 1
            && s'.rows[..|s.rows|] == s.rows
            && s'.rows[|s.rows|].indexed
            && |s'.vectors| == |s.vectors| + s'.rows[|s.rows|].chunkCount
            && s'.vectors[..|s.vectors|] == s.vectors
  {
    var s' := Upload(env, dir, s, fileName).0;
    assert (s.rows + [s'.rows[|s.rows|]])[..|s.rows|] == s.rows;
  }

  /** Uploading a file name twice leaves two rows for one path (`create` is not an upsert),
      whatever the second file holds; after that, no rebuild can ever count that file,
      though it still appends its chunks on every run. The second upload overwrites the
      file, so its loader outcome is `env2`'s. */
  lemma RepeatedUploadBlocksRebuild(env: Env, env2: Env, later: Env, dir: string, s: Site, name: string)
    requires IsPdfName(name)
    requires Upload(env, dir, s, Some(name)).1.status == OkStatus
    requires Upload(env2, dir, Upload(env, dir, s, Some(name)).0, Some(name)).1.status == OkStatus
    ensures var twice := Upload(env2, dir, Upload(env, dir, s, Some(name)).0, Some(name)).0;
            var path := Join(dir, name);
            && |RowsAt(twice.rows, path)| >= 2
            && IndexFile(later, twice.files, Tables(twice.vectors, twice.rows), path).1 == None
  {
    var path := Join(dir, name);
    var once := Upload(env, dir, s, Some(name));
    var twice := Upload(env2, dir, once.0, Some(name));
    var row := twice.0.rows[|twice.0.rows| - 1];
    RowsAtSnoc(s.rows, once.0.rows[|s.rows|], path);
    RowsAtSnoc(once.0.rows, row, path);
    assert row.filePath == path;
    assert |RowsAt(once.0.rows, path)| >= 1;
  }

  /** Re-uploading unchanged content under the same name succeeds again: whatever let the
      first upload through lets the second through too. */
  lemma ReuploadSameContentSucceeds(env: Env, dir: string, s: Site, name: string)
    requires IsPdfName(name)
    requires Upload(env, dir, s, Some(name)).1.status == OkStatus
    ensures Upload(env, dir, Upload(env, dir, s, Some(name)).0, Some(name)).1.status == OkStatus
  {
    var path := Join(dir, name);
    var once := Upload(env, dir, s, Some(name));
    assert once.0.files == s.files + {path};
    assert once.0.files + {path} == s.files + {path};
  }

  /** Nothing deduplicates a second upload under a name that is already indexed: its chunks
      are appended after the first upload's, which stay in the store under the same name
      and source. When the content is unchanged, the very same chunks are stored twice. */
  lemma RepeatedUploadStoresChunksTwice(env: Env, env2: Env, dir: string, s: Site, name: string)
    requires IsPdfName(name)
    requires Upload(env, dir, s, Some(name)).1.status == OkStatus
    requires Upload(env2, dir, Upload(env, dir, s, Some(name)).0, Some(name)).1.status == OkStatus
    ensures var path := Join(dir, name);
            var c1 := Prepared(env, s.files + {path}, path).value.chunks;
            var c2 := Prepared(env2, s.files + {path}, path).value.chunks;
            var twice := Upload(env2, dir, Upload(env, dir, s, Some(name)).0, Some(name)).0;
            && twice.vectors == s.vectors + c1 + c2
            && (forall x :: multiset(twice.vectors)[x] == multiset(s.vectors)[x] + multiset(c1)[x] + multiset(c2)[x])
            && (env2.loaded[path] == env.loaded[path] ==> c2 == c1)
  {
    var path := Join(dir, name);
    var once := Upload(env, dir, s, Some(name));
    assert once.0.files == s.files + {path};
    assert once.0.files + {path} == s.files + {path};
  }

  // ----- rebuild_index -----

  /** The `rebuild_index` view: its loop is the service's; only the RAG service it builds
      first can make the whole request fail, before any store is touched. */
  method RebuildEndpoint(env: Env, dir: string, disk: DocumentsDir, vs: VectorStore,
                         table: DocumentTable, listing: seq<string>) returns (resp: Response)
    modifies vs, table
    ensures !env.servicesUp ==>
              resp == Response(ServerError, Raised(ServiceInitFailed))
              && vs.records == old(vs.records) && table.rows == old(table.rows)
    ensures env.servicesUp ==>
              var p := Rebuild(env, disk.files, dir, Tables(old(vs.records), old(table.rows)),
                               PdfFiles(listing));
              resp == Response(OkStatus, RebuildOk(Summary(p)))
              && vs.records == p.tables.vectors && table.rows == p.tables.rows
  {
    if !env.servicesUp {
      return Response(ServerError, Raised(ServiceInitFailed));
    }
    var summary := RebuildIndex(env, disk, vs, table, dir, listing);
    resp := Response(OkStatus, RebuildOk(summary));
  }
}
