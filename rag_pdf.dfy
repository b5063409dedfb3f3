/** The PDF specialisation of the retrieval chain: loading the PDFs that exist, the
    text-splitter settings, and the choice between reopening a persisted Chroma store
    and indexing the chunks anew. The loader, the splitter and Chroma are library
    calls: they appear as parameters. */
module RagPdf {
  import opened Wrappers
  import opened Values
  import Text

  /** The text splitter's settings. */
  datatype TextSplitter = RecursiveCharacter(chunkSize: nat, chunkOverlap: nat)

  /** `create_text_splitter`: chunks of 600 characters overlapping by 50. */
  const PdfSplitter: TextSplitter := RecursiveCharacter(600, 50)

  /** The documents `load_documents` returns: the pages of each existing file, in the
      order the paths are given (`present` is `os.path.exists`). */
  function LoadedDocs(uris: seq<string>, present: string -> bool, load: string -> seq<Doc>): seq<Doc>
    decreases |uris|
  {
    if uris == [] then []
    else
      var last := uris[|uris| - 1];
      LoadedDocs(uris[..|uris| - 1], present, load) + (if present(last) then load(last) else [])
  }

  /** Loading a concatenation of path lists loads the first list, then the second. */
  lemma {:induction false} LoadedDocsAppend(a: seq<string>, b: seq<string>, present: string -> bool, load: string -> seq<Doc>)
    ensures LoadedDocs(a + b, present, load) == LoadedDocs(a, present, load) + LoadedDocs(b, present, load)
    decreases |b|
  {
    if b == [] {
      assert a + b == a;
    } else {
      var init := b[..|b| - 1];
      var last := b[|b| - 1];
      assert (a + b)[..|a + b| - 1] == a + init;
      LoadedDocsAppend(a, init, present, load);
      var more := if present(last) then load(last) else [];
      Text.AppendAssoc(LoadedDocs(a, present, load), LoadedDocs(init, present, load), more);
    }
  }

  /** A path that does not exist is skipped: it contributes nothing, wherever it
      stands. */
  lemma MissingPathSkipped(a: seq<string>, u: string, b: seq<string>, present: string -> bool, load: string -> seq<Doc>)
    requires !present(u)
    ensures LoadedDocs(a + [u] + b, present, load) == LoadedDocs(a + b, present, load)
  {
    LoadedDocsAppend(a + [u], b, present, load);
    LoadedDocsAppend(a, [u], present, load);
    LoadedDocsAppend(a, b, present, load);
    assert [u][..0] == [];
  }

  /** Only existing paths are loaded: with none existing, nothing is loaded, and the
      pages of a single existing path are exactly what its loader returns. */
  lemma {:induction false} NothingExistsNothingLoaded(uris: seq<string>, present: string -> bool, load: string -> seq<Doc>)
    requires forall i :: 0 <= i < |uris| ==> !present(uris[i])
    ensures LoadedDocs(uris, present, load) == []
    decreases |uris|
  {
    if uris != [] {
      var init := uris[..|uris| - 1];
      forall i | 0 <= i < |init| ensures !present(init[i]) {
        assert init[i] == uris[i];
      }
      NothingExistsNothingLoaded(init, present, load);
    }
  }

  /** `load_documents`: the loop extending the list with each existing file's pages. */
  method LoadDocuments(uris: seq<string>, present: string -> bool, load: string -> seq<Doc>) returns (docs: seq<Doc>)
    ensures docs == LoadedDocs(uris, present, load)
  {
    docs := [];
    for i := 0 to |uris|
      invariant docs == LoadedDocs(uris[..i], present, load)
    {
      assert uris[..i + 1][..i] == uris[..i];
      if !present(uris[i]) {
        continue;
      }
      docs := docs + load(uris[i]);
    }
    assert uris[..|uris|] == uris;
  }

  /** The embedding model instance. */
  datatype Embeddings = OpenAIEmbeddings(model: string)

  /** A Chroma store: reopened from its directory, or built from chunks (persisted
      in the directory when one is given). */
  datatype VectorStore =
    | Reopened(directory: string, embedding: Embeddings)
    | Built(chunks: seq<Doc>, persistTo: Option<string>, embedding: Embeddings)

  /** `create_vectorstore`: refuse an empty chunk list; reopen the persisted store when
      a directory is configured and already holds files; otherwise index the chunks. */
  function CreateVectorstore(splitDocs: seq<Doc>, persistDirectory: Option<string>, directoryHasFiles: bool,
                             embeddingModel: string): Result<VectorStore>
  {
    if splitDocs == [] then Err("No split documents available.")
    else if persistDirectory.Some? && persistDirectory.value != [] && directoryHasFiles then
      Ok(Reopened(persistDirectory.value, OpenAIEmbeddings(embeddingModel)))
    else Ok(Built(splitDocs, persistDirectory, OpenAIEmbeddings(embeddingModel)))
  }

  /** An empty chunk list is refused whatever the directory holds; a non-empty
      configured directory with files is reopened without indexing the chunks; in
      every other case exactly the given chunks are indexed. */
  lemma VectorstoreDecision(splitDocs: seq<Doc>, persistDirectory: Option<string>, directoryHasFiles: bool,
                            embeddingModel: string)
    ensures var r := CreateVectorstore(splitDocs, persistDirectory, directoryHasFiles, embeddingModel);
      && (r.Err? <==> splitDocs == [])
      && (r.Ok? && r.value.Reopened? <==>
            splitDocs != [] && persistDirectory.Some? && persistDirectory.value != [] && directoryHasFiles)
      && (r.Ok? && r.value.Built? ==> r.value.chunks == splitDocs && r.value.persistTo == persistDirectory)
      && (r.Ok? ==> r.value.embedding == OpenAIEmbeddings(embeddingModel))
  {
  }
}
