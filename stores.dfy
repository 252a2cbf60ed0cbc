/** The three stores the backend writes: the Chroma collection (chunks appended by
    `add_documents`, which passes no ids), the Django `Document` table (`create` and
    `update_or_create` keyed on `file_path`), and the documents directory on disk. */
module Stores {
  import opened Common

  /** A row of the `Document` model. Its uuid primary key and creation time are not modelled. */
  datatype DocumentRow = DocumentRow(name: string, filePath: string, fileType: string,
                                     chunkCount: nat, indexed: bool)

  /** The rows stored for one `file_path`, in table order: every row with that path, as
      often as the table holds it, and no other. */
  function RowsAt(rows: seq<DocumentRow>, path: string): (r: seq<DocumentRow>)
    ensures |r| <= |rows|
    ensures forall row :: row in r ==> row in rows && row.filePath == path
  {
    if rows == [] then []
    else
      var prev := RowsAt(rows[..|rows| - 1], path);
      var last := rows[|rows| - 1];
      if last.filePath == path then prev + [last] else prev
  }

  /** `RowsAt` keeps every row with the path exactly as often as the table holds it, and
      no other row: its length is what `update_or_create` counts. */
  lemma {:induction false} RowsAtCounts(rows: seq<DocumentRow>, path: string)
    ensures forall x :: multiset(RowsAt(rows, path))[x]
                        == if x.filePath == path then multiset(rows)[x] else 0
  {
    if rows != [] {
      var prefix := rows[..|rows| - 1];
      RowsAtCounts(prefix, path);
      assert rows == prefix + [rows[|rows| - 1]];
    }
  }

  /** The position of the row with `file_path == path`, when there is exactly one. */
  function IndexOfPath(rows: seq<DocumentRow>, path: string): (i: nat)
    requires |RowsAt(rows, path)| == 1
    ensures i < |rows| && rows[i].filePath == path && RowsAt(rows, path) == [rows[i]]
  {
    var prefix := rows[..|rows| - 1];
    if rows[|rows| - 1].filePath == path then
      assert |RowsAt(prefix, path)| == 0;
      |rows| - 1
    else
      IndexOfPath(prefix, path)
  }

  lemma RowsAtSnoc(rows: seq<DocumentRow>, row: DocumentRow, path: string)
    ensures RowsAt(rows + [row], path)
         == if row.filePath == path then RowsAt(rows, path) + [row] else RowsAt(rows, path)
  {
    SnocTake(rows, row);
  }

  /** Overwriting a row changes `RowsAt` only at the paths of the old and the new row. */
  lemma {:induction false} RowsAtReplace(rows: seq<DocumentRow>, i: nat, row: DocumentRow, path: string)
    requires i < |rows| && rows[i].filePath == row.filePath
    ensures path != row.filePath ==> RowsAt(rows[i := row], path) == RowsAt(rows, path)
    ensures RowsAt(rows, row.filePath) == [rows[i]] ==> RowsAt(rows[i := row], row.filePath) == [row]
  {
    var prefix := rows[..|rows| - 1];
    var updated := rows[i := row];
    if i == |rows| - 1 {
      assert updated[..|rows| - 1] == prefix;
      if RowsAt(rows, row.filePath) == [rows[i]] {
        assert RowsAt(prefix, row.filePath) == [];
      }
    } else {
      assert updated[..|rows| - 1] == prefix[i := row];
      RowsAtReplace(prefix, i, row, path);
      if RowsAt(rows, row.filePath) == [rows[i]] {
        assert rows[i] in RowsAt(prefix, row.filePath) by {
          if rows[|rows| - 1].filePath == row.filePath {
            assert RowsAt(rows, row.filePath) == RowsAt(prefix, row.filePath) + [rows[|rows| - 1]];
            assert RowsAt(prefix, row.filePath) == [];
            RowsAtHas(prefix, i);
          } else {
            RowsAtHas(prefix, i);
          }
        }
        RowsAtReplace(prefix, i, row, row.filePath);
      }
    }
  }

  /** Every row is among the rows of its own path. */
  lemma {:induction false} RowsAtHas(rows: seq<DocumentRow>, i: nat)
    requires i < |rows|
    ensures rows[i] in RowsAt(rows, rows[i].filePath)
  {
    var prefix := rows[..|rows| - 1];
    if i < |rows| - 1 {
      assert prefix[i] == rows[i];
      RowsAtHas(prefix, i);
    }
  }

  /** `Document.objects.update_or_create(file_path=row.filePath, defaults=...)`: no row for
      the path creates one, one row is updated in place, several raise
      MultipleObjectsReturned. */
  function UpsertRows(rows: seq<DocumentRow>, row: DocumentRow, dbUp: bool): (r: Result<seq<DocumentRow>>)
    ensures r.Ok? <==> dbUp && |RowsAt(rows, row.filePath)| <= 1
    ensures r.Ok? ==> RowsAt(r.value, row.filePath) == [row]
    ensures r.Ok? ==> forall p :: p != row.filePath ==> RowsAt(r.value, p) == RowsAt(rows, p)
    ensures r.Ok? ==> |r.value| == |rows| + 1 - |RowsAt(rows, row.filePath)|
  {
    if !dbUp then Err(DatabaseFailed)
    else if |RowsAt(rows, row.filePath)| == 0 then
      RowsAtSnoc(rows, row, row.filePath);
      assert forall p :: p != row.filePath ==> RowsAt(rows + [row], p) == RowsAt(rows, p) by {
        forall p | p != row.filePath ensures RowsAt(rows + [row], p) == RowsAt(rows, p) {
          RowsAtSnoc(rows, row, p);
        }
      }
      Ok(rows + [row])
    else if |RowsAt(rows, row.filePath)| == 1 then
      var i := IndexOfPath(rows, row.filePath);
      assert forall p :: p != row.filePath ==> RowsAt(rows[i := row], p) == RowsAt(rows, p) by {
        forall p | p != row.filePath ensures RowsAt(rows[i := row], p) == RowsAt(rows, p) {
          RowsAtReplace(rows, i, row, p);
        }
      }
      RowsAtReplace(rows, i, row, row.filePath);
      Ok(rows[i := row])
    else Err(MultipleObjectsReturned(row.filePath))
  }

  /** When the path already holds exactly the row being written, the upsert is the identity. */
  lemma UpsertSettled(rows: seq<DocumentRow>, row: DocumentRow, dbUp: bool)
    requires dbUp && RowsAt(rows, row.filePath) == [row]
    ensures UpsertRows(rows, row, dbUp) == Ok(rows)
  {
    var i := IndexOfPath(rows, row.filePath);
    assert rows[i := row] == rows;
  }

  /** The Chroma collection: every stored chunk, in insertion order, duplicates included. */
  class VectorStore {
    var records: seq<Chunk>

    constructor (records: seq<Chunk>)
      ensures this.records == records
    {
      this.records := records;
    }

    /** `vectorstore.add_documents(chunks)` without ids: the batch is appended whole, or
        nothing happens when the backend rejects it. */
    method AddDocuments(chunks: seq<Chunk>, accepted: bool) returns (ok: bool)
      modifies this
      ensures ok == accepted
      ensures records == if ok then old(records) + chunks else old(records)
    {
      ok := accepted;
      if ok {
        records := records + chunks;
      }
    }
  }

  /** The `Document` table. */
  class DocumentTable {
    var rows: seq<DocumentRow>

    constructor (rows: seq<DocumentRow>)
      ensures this.rows == rows
    {
      this.rows := rows;
    }

    /** `Document.objects.create(...)`: always a new row, whatever is already stored. */
    method Create(row: DocumentRow, dbUp: bool) returns (ok: bool)
      modifies this
      ensures ok == dbUp
      ensures rows == if ok then old(rows) + [row] else old(rows)
    {
      ok := dbUp;
      if ok {
        rows := rows + [row];
      }
    }

    method UpdateOrCreate(row: DocumentRow, dbUp: bool) returns (r: Result<DocumentRow>)
      modifies this
      ensures UpsertRows(old(rows), row, dbUp).Ok? ==>
                r == Ok(row) && rows == UpsertRows(old(rows), row, dbUp).value
      ensures UpsertRows(old(rows), row, dbUp).Err? ==>
                r == Err(UpsertRows(old(rows), row, dbUp).error) && rows == old(rows)
    {
      var updated := UpsertRows(rows, row, dbUp);
      if updated.Err? {
        return Err(updated.error);
      }
      rows := updated.value;
      r := Ok(row);
    }
  }

  /** The media `documents` directory: the paths of the files it holds. */
  class DocumentsDir {
    var files: set<string>

    constructor (files: set<string>)
      ensures this.files == files
    {
      this.files := files;
    }

    /** Writing an upload to `path` (overwriting any file of that name). */
    method Save(path: string, writable: bool) returns (ok: bool)
      modifies this
      ensures ok == writable
      ensures files == if ok then old(files) + {path} else old(files)
    {
      ok := writable;
      if ok {
        files := files + {path};
      }
    }

    /** `if os.path.exists(path): os.remove(path)`. */
    method RemoveIfExists(path: string)
      modifies this
      ensures files == old(files) - {path}
    {
      if path in files {
        files := files - {path};
      }
    }
  }
}
