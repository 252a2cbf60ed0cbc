/** Values shared by the whole model: LangChain documents and their metadata,
    the exceptions the backend raises or lets through, the foreign collaborators
    (PDF loader, embedding/vector store, database, LLM chain) as an environment,
    and the handful of Python string and path functions the views rely on. */
module Common {

  datatype Option<T> = None | Some(value: T)

  /** Either a value, or the exception that the Python code would raise. */
  datatype Result<T> = Ok(value: T) | Err(error: Error)

  datatype Error =
    | FileNotFound(path: string)            // process_pdf: the file does not exist
    | LoadFailed(path: string)              // PyPDFLoader or the text splitter raised
    | EmbeddingFailed                       // vectorstore.add_documents raised
    | DatabaseFailed                        // a Django ORM write raised
    | MultipleObjectsReturned(path: string) // update_or_create matched several rows
    | ServiceInitFailed                     // RAGService() could not build its model handles
    | WriteFailed(path: string)             // the uploaded file could not be saved
    | GenerationFailed                      // the RetrievalQA chain raised

  /** A value in a document's metadata dict: the kinds PyPDFLoader and this backend store. */
  datatype MetaValue = MStr(s: string) | MInt(i: int) | MNone

  /** A LangChain `Document`: page text plus a metadata dict. */
  datatype Chunk = Chunk(pageContent: string, metadata: map<string, MetaValue>)

  /** The answer of a RetrievalQA run: its `result` text and its `source_documents`. */
  datatype ChainResult = ChainResult(result: string, sourceDocuments: seq<Chunk>)

  /** The collaborators the code calls but whose code is not modelled. Each is
      deterministic: the same input always gives the same outcome. */
  datatype Env = Env(
    loaded: map<string, seq<Chunk>>,       // PyPDFLoader(path).load() then split_documents, for the paths they can read
    rejected: set<seq<Chunk>>,             // the batches whose embedding or Chroma insertion raises
    dbUp: bool,                            // Django ORM writes succeed
    servicesUp: bool,                      // RAGService() can build its embedding and LLM handles
    diskWritable: bool,                    // an upload can be written under the documents directory
    answers: map<string, ChainResult>)     // RetrievalQA (MMR retrieval + generation), for the queries it answers

  /** `dict.get(key)`: the stored value, or None when the key is missing. */
  function Lookup(m: map<string, MetaValue>, key: string): (r: Option<MetaValue>)
    ensures r.Some? <==> key in m
    ensures r.Some? ==> r.value == m[key]
  {
    if key in m then Some(m[key]) else None
  }

  /** `dict.get(key, default)`. */
  function GetOr(m: map<string, MetaValue>, key: string, default: MetaValue): (r: MetaValue)
    ensures key in m ==> r == m[key]
    ensures key !in m ==> r == default
  {
    if key in m then m[key] else default
  }

  /** Python truthiness of the result of `dict.get(key)`. */
  predicate Truthy(v: Option<MetaValue>)
    ensures Truthy(v) <==> v.Some? && v.value != MNone && v.value != MStr("") && v.value != MInt(0)
  {
    match v
    case None => false
    case Some(MStr(s)) => s != ""
    case Some(MInt(i)) => i != 0
    case Some(MNone) => false
  }

  /** `str.lower()` on one character, ASCII letters only. */
  function LowerChar(c: char): (r: char)
    ensures !('A' <= r <= 'Z')
    ensures !('A' <= c <= 'Z') ==> r == c
  {
    if 'A' <= c <= 'Z' then (c as int + 32) as char else c
  }

  function Lower(s: string): (r: string)
    ensures |r| == |s|
    ensures forall i :: 0 <= i < |s| ==> r[i] == LowerChar(s[i])
  {
    seq(|s|, i requires 0 <= i < |s| => LowerChar(s[i]))
  }

  predicate EndsWith(s: string, suffix: string)
  {
    |suffix| <= |s| && s[|s| - |suffix|..] == suffix
  }

  /** `name.lower().endswith(".pdf")`, the filter both the upload view and the rebuild use. */
  predicate IsPdfName(name: string)
    ensures IsPdfName(name) <==> |name| >= 4 && Lower(name[|name| - 4..]) == ".pdf"
  {
    assert |name| >= 4 ==> Lower(name)[|name| - 4..] == Lower(name[|name| - 4..]);
    EndsWith(Lower(name), ".pdf")
  }

  lemma LowerIdempotent(s: string)
    ensures Lower(Lower(s)) == Lower(s)
  {
    var l := Lower(s);
    var ll := Lower(l);
    forall i | 0 <= i < |l|
      ensures ll[i] == l[i]
    {
    }
  }

  lemma PdfNameCaseInsensitive(name: string)
    ensures IsPdfName(name) == IsPdfName(Lower(name))
    ensures EndsWith(name, ".pdf") ==> IsPdfName(name)
    ensures IsPdfName(name) ==> |name| >= 4 && name[|name| - 4] == '.'
  {
    var l := Lower(name);
    LowerIdempotent(name);
    if EndsWith(name, ".pdf") {
      assert l[|l| - 4..] == ".pdf" by {
        forall i | 0 <= i < 4
          ensures l[|l| - 4 + i] == ".pdf"[i]
        {
          assert name[|name| - 4 + i] == name[|name| - 4..][i];
        }
      }
    }
    if IsPdfName(name) {
      assert l[|l| - 4] == l[|l| - 4..][0];
    }
  }

  /** `os.path.join(directory, name)`. */
  function Join(directory: string, name: string): (r: string)
    ensures |name| > 0 && name[0] == '/' ==> r == name
  {
    if |name| > 0 && name[0] == '/' then name
    else if directory == "" || directory[|directory| - 1] == '/' then directory + name
    else directory + "/" + name
  }

  /** Whatever the directory, the joined path ends in the name. */
  lemma JoinEndsWithName(directory: string, name: string)
    ensures EndsWith(Join(directory, name), name)
  {
    if !(|name| > 0 && name[0] == '/') {
      if directory == "" || directory[|directory| - 1] == '/' {
        assert (directory + name)[|directory|..] == name;
      } else {
        assert (directory + "/" + name)[|directory| + 1..] == name;
      }
    }
  }

  function StripTrailingSlashes(p: string): (r: string)
    ensures |r| <= |p| && r == p[..|r|]
    ensures r == [] || r[|r| - 1] != '/'
  {
    if |p| > 0 && p[|p| - 1] == '/' then StripTrailingSlashes(p[..|p| - 1]) else p
  }

  /** The characters after the last '/'. */
  function LastComponent(p: string): (r: string)
    ensures '/' !in r
    ensures |r| <= |p| && r == p[|p| - |r|..]
    ensures |r| < |p| ==> p[|p| - |r| - 1] == '/'
  {
    if p == [] || p[|p| - 1] == '/' then []
    else LastComponent(p[..|p| - 1]) + [p[|p| - 1]]
  }

  /** `pathlib.Path(p).name`: the final component, ignoring trailing slashes. */
  function Basename(p: string): (r: string)
    ensures '/' !in r
    ensures var q := StripTrailingSlashes(p);
            |r| <= |q| && r == q[|q| - |r|..] && (|r| < |q| ==> q[|q| - |r| - 1] == '/')
  {
    LastComponent(StripTrailingSlashes(p))
  }

  lemma {:induction false} LastComponentAfterSlash(prefix: string, name: string)
    requires prefix == [] || prefix[|prefix| - 1] == '/'
    requires '/' !in name
    ensures LastComponent(prefix + name) == name
  {
    if name == [] {
      assert prefix + name == prefix;
    } else {
      var init := name[..|name| - 1];
      var last := name[|name| - 1];
      var whole := prefix + name;
      assert last in name;
      assert whole[|whole| - 1] == last;
      assert whole[..|whole| - 1] == prefix + init;
      assert '/' !in init by {
        forall c | c in init ensures c != '/' { assert c in name; }
      }
      LastComponentAfterSlash(prefix, init);
      assert LastComponent(whole) == LastComponent(prefix + init) + [last];
      assert init + [last] == name;
    }
  }

  /** A file name joined onto the documents directory has that name back as its basename,
      which is why every indexed document is named after its file. */
  lemma BasenameOfJoin(directory: string, name: string)
    requires name != [] && '/' !in name
    ensures Basename(Join(directory, name)) == name
  {
    var p := Join(directory, name);
    assert name[0] in name;
    assert name[|name| - 1] in name;
    assert p[|p| - 1] == name[|name| - 1];
    assert StripTrailingSlashes(p) == p;
    if directory == "" || directory[|directory| - 1] == '/' {
      LastComponentAfterSlash(directory, name);
    } else {
      assert p == (directory + "/") + name;
      LastComponentAfterSlash(directory + "/", name);
    }
  }

  function DigitChar(d: nat): char
    requires d < 10
  {
    ('0' as int + d) as char
  }

  /** The number a string of decimal digits denotes, most significant digit first. */
  ghost function DigitsValue(s: string): int
  {
    if s == [] then 0 else DigitsValue(s[..|s| - 1]) * 10 + (s[|s| - 1] as int - '0' as int)
  }

  /** `str(n)` for a natural number: the digits of `n`, without leading zeros. */
  function Decimal(n: nat): (r: string)
    ensures |r| >= 1
    ensures forall i :: 0 <= i < |r| ==> '0' <= r[i] <= '9'
    ensures DigitsValue(r) == n
    ensures |r| > 1 ==> r[0] != '0'
  {
    if n < 10 then
      assert [DigitChar(n)][..0] == [];
      [DigitChar(n)]
    else
      SnocTake(Decimal(n / 10), DigitChar(n % 10));
      Decimal(n / 10) + [DigitChar(n % 10)]
  }

  // ----- Sequence facts, stated once for any element type -----

  lemma TakeSnoc<T>(s: seq<T>, i: nat)
    requires i < |s|
    ensures s[..i + 1] == s[..i] + [s[i]]
  {
  }

  lemma SnocTake<T>(s: seq<T>, x: T)
    ensures (s + [x])[..|s|] == s
  {
  }

  lemma AppendAssoc<T>(a: seq<T>, b: seq<T>, c: seq<T>)
    ensures (a + b) + c == a + (b + c)
  {
  }
}
