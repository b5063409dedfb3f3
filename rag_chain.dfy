/** The retrieval chain of the RAG MCP server, with its PDF hooks bound in: it stays
    uninitialised until `initialize` builds its three retrievers, every search raises
    until then, and each search method treats its `k` argument in its own way.
    Loading, splitting, indexing and ranking are library calls: they appear as the
    fields of a `Library` value. */
module RagChain {
  import opened Wrappers
  import opened Values
  import RagPdf

  /** A retriever as a value: BM25 over chunks, a store's dense retriever, or an
      ensemble with weights. */
  datatype Retriever =
    | Bm25(docs: seq<Doc>, k: int)
    | Dense(store: RagPdf.VectorStore, k: int)
    | Ensemble(members: seq<Retriever>, weights: seq<real>)

  /** The semantic retriever object, whose `search_kwargs["k"]` the semantic search
      overwrites. */
  class SemanticRetriever {
    const store: RagPdf.VectorStore
    var k: int

    constructor (store: RagPdf.VectorStore, k: int)
      ensures this.store == store && this.k == k
    {
      this.store := store;
      this.k := k;
    }
  }

  /** The retrievers dict: exactly the keys "semantic", "keyword" and "hybrid". */
  datatype Retrievers = Retrievers(semantic: SemanticRetriever, keyword: Retriever, hybrid: Retriever)

  /** The library calls the chain makes while initialising. A retriever's search is a
      parameter of each search method: the documents it finds, or what it raises. */
  datatype Library = Library(
    present: string -> bool,                                       // os.path.exists
    load: string -> seq<Doc>,                                      // PDFPlumberLoader(path).load()
    split: (RagPdf.TextSplitter, seq<Doc>) -> seq<Doc>,            // text_splitter.split_documents(docs)
    directoryHasFiles: bool)                                       // any(os.listdir(persist_directory))

  const NotInitialised: string := "Initialization required. Call initialize() method first."

  /** `k or self.k`: a missing or zero `k` gives the chain's own. */
  function EffectiveK(k: Option<int>, own: int): (r: int)
    ensures k.Some? && k.value != 0 ==> r == k.value
    ensures k.None? || k.value == 0 ==> r == own
  {
    if k.Some? && k.value != 0 then k.value else own
  }

  class RetrievalChain {
    const sourceUri: seq<string>
    const k: int
    const embeddingModel: string
    const persistDirectory: Option<string>
    var embeddings: Option<RagPdf.Embeddings>
    var vectorstore: Option<RagPdf.VectorStore>
    var retrievers: Option<Retrievers>
    var splitDocs: Option<seq<Doc>>

    /** Initialised: the retrievers exist. */
    predicate Ready()
      reads this
    {
      retrievers.Some?
    }

    /** Once the retrievers exist, they were built over the current store with the
        chain's `k`: the semantic one over the store, BM25 over a non-empty chunk
        list, and the hybrid one as a 0.5/0.5 ensemble of a BM25 retriever like the
        keyword one and a dense retriever of its own that keeps the chain's `k`. */
    predicate Valid()
      reads this
    {
      retrievers.Some? ==>
        && embeddings == Some(RagPdf.OpenAIEmbeddings(embeddingModel))
        && vectorstore.Some?
        && retrievers.value.semantic.store == vectorstore.value
        && retrievers.value.keyword.Bm25?
        && retrievers.value.keyword.docs != []
        && retrievers.value.keyword.k == k
        && retrievers.value.hybrid
           == Ensemble([retrievers.value.keyword, Dense(vectorstore.value, k)], [0.5, 0.5])
    }

    /** `PDFRetrievalChain(source_uri, persist_directory, **kwargs)`: `k` defaults to 5
        and the embedding model to "text-embedding-3-small"; nothing is built yet. */
    constructor (sourceUri: seq<string>, persistDirectory: Option<string>, k: Option<int>, embeddingModel: Option<string>)
      ensures this.sourceUri == sourceUri && this.persistDirectory == persistDirectory
      ensures this.k == k.GetOr(5) && this.embeddingModel == embeddingModel.GetOr("text-embedding-3-small")
      ensures embeddings == None && vectorstore == None && retrievers == None && splitDocs == None
      ensures Valid() && !Ready()
    {
      this.sourceUri := sourceUri;
      this.persistDirectory := persistDirectory;
      this.k := k.GetOr(5);
      this.embeddingModel := embeddingModel.GetOr("text-embedding-3-small");
      embeddings := None;
      vectorstore := None;
      retrievers := None;
      splitDocs := None;
    }

    /** `initialize`: load the PDFs; with none loaded, change nothing; otherwise store
        the chunks of the 600/50 splitter and build the retrievers, which raises when
        the split is empty (after the chunks and the embeddings are stored). */
    method Initialize(lib: Library) returns (raised: Option<string>)
      requires Valid()
      modifies this
      ensures Valid()
      ensures var docs := RagPdf.LoadedDocs(sourceUri, lib.present, lib.load);
        docs == [] ==> raised == None && unchanged(this)
      ensures var docs := RagPdf.LoadedDocs(sourceUri, lib.present, lib.load);
        var chunks := lib.split(RagPdf.PdfSplitter, docs);
        docs != [] ==>
          && splitDocs == Some(chunks)
          && embeddings == Some(RagPdf.OpenAIEmbeddings(embeddingModel))
          && (chunks == [] ==>
                raised == Some("No split documents available.")
                && retrievers == old(retrievers) && vectorstore == old(vectorstore))
          && (chunks != [] ==>
                var store := RagPdf.CreateVectorstore(chunks, persistDirectory, lib.directoryHasFiles, embeddingModel).value;
                && raised == None && Ready()
                && vectorstore == Some(store)
                && fresh(retrievers.value.semantic)
                && retrievers.value.semantic.k == k
                && retrievers.value.keyword == Bm25(chunks, k)
                && retrievers.value.hybrid == Ensemble([Bm25(chunks, k), Dense(store, k)], [0.5, 0.5]))
    {
      var docs := RagPdf.LoadDocuments(sourceUri, lib.present, lib.load);
      if docs == [] {
        return None;
      }
      var splitter := RagPdf.PdfSplitter;
      var chunks := lib.split(splitter, docs);
      splitDocs := Some(chunks);
      raised := CreateRetrievers(chunks, lib);
    }

    /** `create_retrievers`: store the embeddings, then the vector store (raising on an
        empty chunk list), then build the semantic, keyword and hybrid retrievers. */
    method CreateRetrievers(chunks: seq<Doc>, lib: Library) returns (raised: Option<string>)
      requires Valid()
      modifies this`embeddings, this`vectorstore, this`retrievers
      ensures Valid()
      ensures embeddings == Some(RagPdf.OpenAIEmbeddings(embeddingModel))
      ensures chunks == [] ==>
        raised == Some("No split documents available.")
        && retrievers == old(retrievers) && vectorstore == old(vectorstore)
      ensures chunks != [] ==>
        var store := RagPdf.CreateVectorstore(chunks, persistDirectory, lib.directoryHasFiles, embeddingModel).value;
        && raised == None && Ready()
        && vectorstore == Some(store)
        && fresh(retrievers.value.semantic)
        && retrievers.value.semantic.k == k
        && retrievers.value.keyword == Bm25(chunks, k)
        && retrievers.value.hybrid == Ensemble([Bm25(chunks, k), Dense(store, k)], [0.5, 0.5])
    {
      embeddings := Some(RagPdf.OpenAIEmbeddings(embeddingModel));
      var created := RagPdf.CreateVectorstore(chunks, persistDirectory, lib.directoryHasFiles, embeddingModel);
      if created.Err? {
        return Some(created.error);
      }
      vectorstore := Some(created.value);
      var semantic := new SemanticRetriever(created.value, k);
      var keyword := Bm25(chunks, k);
      var hybrid := Ensemble([Bm25(chunks, k), Dense(created.value, k)], [0.5, 0.5]);
      retrievers := Some(Retrievers(semantic, keyword, hybrid));
      return None;
    }

    /** `search_semantic`: raise before initialisation; otherwise write `k or self.k`
        into the semantic retriever and search with it. */
    method SearchSemantic(query: string, k: Option<int>, search: (Retriever, string) -> Result<seq<Doc>>)
      returns (r: Result<seq<Doc>>)
      requires Valid()
      modifies if retrievers.Some? then {retrievers.value.semantic} else {}
      ensures retrievers.None? ==> r == Err(NotInitialised)
      ensures retrievers.Some? ==>
        var used := EffectiveK(k, this.k);
        retrievers.value.semantic.k == used && r == search(Dense(vectorstore.value, used), query)
    {
      if retrievers.None? {
        return Err(NotInitialised);
      }
      var used := EffectiveK(k, this.k);
      var retriever := retrievers.value.semantic;
      retriever.k := used;
      return search(Dense(retriever.store, retriever.k), query);
    }

    /** `search_keyword`: raise before initialisation; otherwise search with the BM25
        retriever, whatever `k` is given. */
    method SearchKeyword(query: string, k: Option<int>, search: (Retriever, string) -> Result<seq<Doc>>)
      returns (r: Result<seq<Doc>>)
      requires Valid()
      ensures retrievers.None? ==> r == Err(NotInitialised)
      ensures retrievers.Some? ==>
        retrievers.value.keyword.Bm25? && retrievers.value.keyword.k == this.k && r == search(retrievers.value.keyword, query)
    {
      if retrievers.None? {
        return Err(NotInitialised);
      }
      return search(retrievers.value.keyword, query);
    }

    /** `search_hybrid`: raise before initialisation; otherwise search with the
        ensemble, whose dense half keeps the chain's own `k` whatever `k` is given or
        the semantic search last wrote. */
    method SearchHybrid(query: string, k: Option<int>, search: (Retriever, string) -> Result<seq<Doc>>)
      returns (r: Result<seq<Doc>>)
      requires Valid()
      ensures retrievers.None? ==> r == Err(NotInitialised)
      ensures retrievers.Some? ==>
        r == search(Ensemble([retrievers.value.keyword, Dense(vectorstore.value, this.k)], [0.5, 0.5]), query)
    {
      if retrievers.None? {
        return Err(NotInitialised);
      }
      return search(retrievers.value.hybrid, query);
    }

    /** `search`: the semantic search. */
    method Search(query: string, k: Option<int>, search: (Retriever, string) -> Result<seq<Doc>>)
      returns (r: Result<seq<Doc>>)
      requires Valid()
      modifies if retrievers.Some? then {retrievers.value.semantic} else {}
      ensures retrievers.None? ==> r == Err(NotInitialised)
      ensures retrievers.Some? ==>
        var used := EffectiveK(k, this.k);
        retrievers.value.semantic.k == used && r == search(Dense(vectorstore.value, used), query)
    {
      r := SearchSemantic(query, k, search);
    }
  }
}
