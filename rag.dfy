/** `RAGService.query` after the chain has run: every retrieved chunk becomes a source
    record with defaults for missing metadata and a truncated preview, and the records
    are deduplicated by document name, first one seen wins. */
module Rag {
  import opened Common

  /** One entry of the response's `sources` list. */
  datatype Source = Source(id: MetaValue, documentName: MetaValue, page: MetaValue,
                           source: MetaValue, contentPreview: string)

  datatype Timing = Timing(totalMs: nat)

  /** The dict `query` returns: exactly `answer`, `sources` and `timing.total_ms`. */
  datatype QueryResult = QueryResult(answer: string, sources: seq<Source>, timing: Timing)

  const PreviewLimit: nat := 200
  const Ellipsis: string := "..."

  /** `page_content[:200] + "..."` when longer than 200 characters, else the text itself. */
  function Preview(text: string): (r: string)
    ensures |r| <= PreviewLimit + |Ellipsis|
    ensures |text| <= PreviewLimit ==> r == text
    ensures |text| > PreviewLimit ==>
              |r| == PreviewLimit + |Ellipsis| && r[..PreviewLimit] == text[..PreviewLimit]
              && r[PreviewLimit..] == Ellipsis
  {
    if |text| > PreviewLimit then text[..PreviewLimit] + Ellipsis else text
  }

  /** The name a retrieved chunk is cited under: `metadata.get("name", "unknown")`. */
  function NameOf(doc: Chunk): MetaValue
  {
    GetOr(doc.metadata, "name", MStr("unknown"))
  }

  /** The source record built for one retrieved chunk. */
  function ToSource(doc: Chunk): (s: Source)
    ensures s.documentName == NameOf(doc)
    ensures "chunk_id" in doc.metadata ==> s.id == doc.metadata["chunk_id"]
    ensures "chunk_id" !in doc.metadata ==> s.id == MStr("unknown")
    ensures "name" in doc.metadata ==> s.documentName == doc.metadata["name"]
    ensures "name" !in doc.metadata ==> s.documentName == MStr("unknown")
    ensures "page" in doc.metadata ==> s.page == doc.metadata["page"]
    ensures "page" !in doc.metadata ==> s.page == MInt(0)
    ensures "source" in doc.metadata ==> s.source == doc.metadata["source"]
    ensures "source" !in doc.metadata ==> s.source == MStr("unknown")
    ensures |s.contentPreview| <= PreviewLimit + |Ellipsis|
  {
    Source(GetOr(doc.metadata, "chunk_id", MStr("unknown")),
           NameOf(doc),
           GetOr(doc.metadata, "page", MInt(0)),
           GetOr(doc.metadata, "source", MStr("unknown")),
           Preview(doc.pageContent))
  }

  /** The document names among the retrieved chunks. */
  function Names(docs: seq<Chunk>): set<MetaValue>
  {
    set i | 0 <= i < |docs| :: NameOf(docs[i])
  }

  /** The document names among a list of source records (the loop's `unique_documents`). */
  function CitedNames(sources: seq<Source>): set<MetaValue>
  {
    set k | 0 <= k < |sources| :: sources[k].documentName
  }

  predicate NoDuplicateNames(sources: seq<Source>)
  {
    forall k, l :: 0 <= k < l < |sources| ==> sources[k].documentName != sources[l].documentName
  }

  /** The `sources` list after the loop has seen `docs`. */
  function Citations(docs: seq<Chunk>): (r: seq<Source>)
    ensures |r| <= |docs|
    ensures NoDuplicateNames(r)
  {
    if docs == [] then []
    else
      var prev := Citations(docs[..|docs| - 1]);
      var s := ToSource(docs[|docs| - 1]);
      if s.documentName in CitedNames(prev) then prev else prev + [s]
  }

  lemma NamesSnoc(docs: seq<Chunk>, d: Chunk)
    ensures Names(docs + [d]) == Names(docs) + {NameOf(d)}
  {
    var all := docs + [d];
    assert NameOf(all[|docs|]) in Names(all);
    forall n | n in Names(all) ensures n in Names(docs) + {NameOf(d)} {
      var i :| 0 <= i < |all| && NameOf(all[i]) == n;
      if i < |docs| { assert all[i] == docs[i]; }
    }
    forall n | n in Names(docs) ensures n in Names(all) {
      var i :| 0 <= i < |docs| && NameOf(docs[i]) == n;
      assert all[i] == docs[i];
    }
  }

  lemma CitedNamesSnoc(sources: seq<Source>, s: Source)
    ensures CitedNames(sources + [s]) == CitedNames(sources) + {s.documentName}
  {
    var all := sources + [s];
    assert all[|sources|].documentName in CitedNames(all);
    forall n | n in CitedNames(all) ensures n in CitedNames(sources) + {s.documentName} {
      var k :| 0 <= k < |all| && all[k].documentName == n;
      if k < |sources| { assert all[k] == sources[k]; }
    }
    forall n | n in CitedNames(sources) ensures n in CitedNames(all) {
      var k :| 0 <= k < |sources| && sources[k].documentName == n;
      assert all[k] == sources[k];
    }
  }

  lemma {:induction false} NamesBound(docs: seq<Chunk>)
    ensures |Names(docs)| <= |docs|
  {
    if docs != [] {
      var prefix := docs[..|docs| - 1];
      assert docs == prefix + [docs[|docs| - 1]];
      NamesSnoc(prefix, docs[|docs| - 1]);
      NamesBound(prefix);
    }
  }

  /** The position of the first retrieved chunk cited under `name`. */
  function FirstIndex(docs: seq<Chunk>, name: MetaValue): (r: nat)
    requires name in Names(docs)
    ensures r < |docs| && NameOf(docs[r]) == name
    ensures forall j :: 0 <= j < r ==> NameOf(docs[j]) != name
  {
    var prefix := docs[..|docs| - 1];
    assert docs == prefix + [docs[|docs| - 1]];
    NamesSnoc(prefix, docs[|docs| - 1]);
    if name in Names(prefix) then FirstIndex(prefix, name)
    else
      assert forall j :: 0 <= j < |prefix| ==> NameOf(prefix[j]) in Names(prefix);
      |docs| - 1
  }

  /** The deduplicated list names every retrieved document exactly once. */
  lemma {:induction false} CitationsCoverNames(docs: seq<Chunk>)
    ensures CitedNames(Citations(docs)) == Names(docs)
    ensures NoDuplicateNames(Citations(docs))
    ensures |Citations(docs)| == |Names(docs)| <= |docs|
  {
    NamesBound(docs);
    if docs != [] {
      var prefix := docs[..|docs| - 1];
      var d := docs[|docs| - 1];
      assert docs == prefix + [d];
      CitationsCoverNames(prefix);
      NamesSnoc(prefix, d);
      var prev := Citations(prefix);
      var s := ToSource(d);
      if s.documentName in CitedNames(prev) {
        assert Citations(docs) == prev;
      } else {
        assert Citations(docs) == prev + [s];
        CitedNamesSnoc(prev, s);
        AppendFreshName(prev, s);
      }
    }
  }

  lemma AppendFreshName(prev: seq<Source>, s: Source)
    requires NoDuplicateNames(prev)
    requires s.documentName !in CitedNames(prev)
    ensures NoDuplicateNames(prev + [s])
  {
    var all := prev + [s];
    forall k, l | 0 <= k < l < |all| ensures all[k].documentName != all[l].documentName {
      assert all[k] == prev[k];
      if l < |prev| {
        assert all[l] == prev[l];
      } else {
        assert prev[k].documentName in CitedNames(prev);
      }
    }
  }

  lemma FirstIndexSnoc(prefix: seq<Chunk>, d: Chunk, name: MetaValue)
    requires name in Names(prefix)
    ensures name in Names(prefix + [d])
    ensures FirstIndex(prefix + [d], name) == FirstIndex(prefix, name)
  {
    var docs := prefix + [d];
    NamesSnoc(prefix, d);
    assert docs[..|docs| - 1] == prefix;
  }

  /** `sources` is built from the first chunk of each name, in the order those first
      chunks were retrieved. */
  predicate FirstSeen(docs: seq<Chunk>, sources: seq<Source>)
  {
    && (forall k :: 0 <= k < |sources| ==> sources[k].documentName in Names(docs))
    && (forall k :: 0 <= k < |sources| ==>
          sources[k] == ToSource(docs[FirstIndex(docs, sources[k].documentName)]))
    && (forall k, l :: 0 <= k < l < |sources| ==>
          FirstIndex(docs, sources[k].documentName) < FirstIndex(docs, sources[l].documentName))
  }

  /** Appending a chunk moves no first occurrence of a name already seen. */
  lemma FirstIndicesKept(prefix: seq<Chunk>, d: Chunk, prev: seq<Source>)
    requires forall k :: 0 <= k < |prev| ==> prev[k].documentName in Names(prefix)
    ensures forall k :: 0 <= k < |prev| ==>
              && prev[k].documentName in Names(prefix + [d])
              && FirstIndex(prefix + [d], prev[k].documentName) == FirstIndex(prefix, prev[k].documentName)
  {
    forall k | 0 <= k < |prev|
      ensures prev[k].documentName in Names(prefix + [d])
      ensures FirstIndex(prefix + [d], prev[k].documentName) == FirstIndex(prefix, prev[k].documentName)
    {
      FirstIndexSnoc(prefix, d, prev[k].documentName);
    }
  }

  /** Extending the retrieved list by one chunk keeps the records already built first-seen,
      all of them from positions before the new chunk. */
  lemma FirstSeenSnoc(prefix: seq<Chunk>, d: Chunk, prev: seq<Source>)
    requires FirstSeen(prefix, prev)
    ensures FirstSeen(prefix + [d], prev)
    ensures forall k :: 0 <= k < |prev| ==> FirstIndex(prefix + [d], prev[k].documentName) < |prefix|
  {
    var docs := prefix + [d];
    FirstIndicesKept(prefix, d, prev);
    forall k | 0 <= k < |prev|
      ensures prev[k] == ToSource(docs[FirstIndex(docs, prev[k].documentName)])
    {
      var i := FirstIndex(prefix, prev[k].documentName);
      assert docs[i] == prefix[i];
    }
  }

  /** First-seen order: each record is built from the first chunk carrying its name, and
      records appear in the order those first chunks were retrieved, so `sources` is the
      subsequence of the retrieved chunks at their first occurrences. */
  lemma {:induction false} CitationsFirstSeen(docs: seq<Chunk>)
    ensures FirstSeen(docs, Citations(docs))
  {
    if docs != [] {
      var prefix := docs[..|docs| - 1];
      var d := docs[|docs| - 1];
      assert docs == prefix + [d];
      var prev := Citations(prefix);
      CitationsFirstSeen(prefix);
      FirstSeenSnoc(prefix, d, prev);
      var s := ToSource(d);
      if s.documentName in CitedNames(prev) {
        assert Citations(docs) == prev;
      } else {
        CitationsCoverNames(prefix);
        NamesSnoc(prefix, d);
        assert Citations(docs) == prev + [s];
        assert FirstIndex(docs, s.documentName) == |docs| - 1;
        assert docs[|docs| - 1] == d;
        AppendFirstSeen(docs, prev, s);
      }
    }
  }

  lemma AppendFirstSeen(docs: seq<Chunk>, prev: seq<Source>, s: Source)
    requires FirstSeen(docs, prev)
    requires s.documentName in Names(docs)
    requires s == ToSource(docs[FirstIndex(docs, s.documentName)])
    requires forall k :: 0 <= k < |prev| ==>
               FirstIndex(docs, prev[k].documentName) < FirstIndex(docs, s.documentName)
    ensures FirstSeen(docs, prev + [s])
  {
    var c := prev + [s];
    forall k | 0 <= k < |c|
      ensures c[k].documentName in Names(docs)
      ensures c[k] == ToSource(docs[FirstIndex(docs, c[k].documentName)])
    {
      if k < |prev| { assert c[k] == prev[k]; }
    }
    forall k, l | 0 <= k < l < |c|
      ensures FirstIndex(docs, c[k].documentName) < FirstIndex(docs, c[l].documentName)
    {
      assert c[k] == prev[k];
      if l < |prev| { assert c[l] == prev[l]; }
    }
  }

  /** All chunks without a name collapse into one "unknown" citation. */
  lemma UnnamedCollapse(docs: seq<Chunk>, i: nat) returns (k: nat)
    requires i < |docs| && "name" !in docs[i].metadata
    ensures k < |Citations(docs)| && Citations(docs)[k].documentName == MStr("unknown")
    ensures forall l :: 0 <= l < |Citations(docs)| && l != k ==>
              Citations(docs)[l].documentName != MStr("unknown")
  {
    CitationsCoverNames(docs);
    var c := Citations(docs);
    assert NameOf(docs[i]) == MStr("unknown");
    assert MStr("unknown") in CitedNames(c);
    k :| 0 <= k < |c| && c[k].documentName == MStr("unknown");
  }

  /** The loop of `query` over `result["source_documents"]`, with the seen-set. */
  method CollectSources(docs: seq<Chunk>) returns (sources: seq<Source>)
    ensures sources == Citations(docs)
    ensures NoDuplicateNames(sources)
    ensures CitedNames(sources) == Names(docs)
    ensures |sources| <= |docs|
    ensures forall k :: 0 <= k < |sources| ==> |sources[k].contentPreview| <= PreviewLimit + |Ellipsis|
  {
    sources := [];
    var uniqueDocuments: set<MetaValue> := {};
    for i := 0 to |docs|
      invariant sources == Citations(docs[..i])
      invariant uniqueDocuments == CitedNames(sources)
    {
      assert docs[..i + 1][..i] == docs[..i];
      var source := ToSource(docs[i]);
      if source.documentName !in uniqueDocuments {
        CitedNamesSnoc(sources, source);
        sources := sources + [source];
        uniqueDocuments := uniqueDocuments + {source.documentName};
      }
    }
    assert docs[..|docs|] == docs;
    CitationsCoverNames(docs);
    forall k | 0 <= k < |sources| ensures |sources[k].contentPreview| <= PreviewLimit + |Ellipsis| {
      CitationsFirstSeen(docs);
    }
  }

  /** `RAGService.query(query_text)`: run the chain, then assemble the response. The
      elapsed wall-clock time is an input. */
  method Query(env: Env, queryText: string, elapsedMs: nat) returns (r: Result<QueryResult>)
    ensures queryText !in env.answers ==> r == Err(GenerationFailed)
    ensures queryText in env.answers ==>
              r.Ok?
              && r.value.answer == env.answers[queryText].result
              && r.value.sources == Citations(env.answers[queryText].sourceDocuments)
              && r.value.timing == Timing(elapsedMs)
  {
    if queryText !in env.answers {
      return Err(GenerationFailed);
    }
    var result := env.answers[queryText];
    var sources := CollectSources(result.sourceDocuments);
    r := Ok(QueryResult(result.result, sources, Timing(elapsedMs)));
  }
}
