/** The Dify external-knowledge server: bearer-token check, the three graph nodes
    (document processing, retriever setup, retrieval) writing into a shared state,
    and the `/retrieval` handler that normalises the records it returns.
    The vector store, the PDF loader, the text splitter, BM25 and the retrievers'
    ranking are library calls: they appear as the fields of a `Backend` value. */
module DifyServer {
  import opened Wrappers
  import opened Values
  import Text

  const ApiKey: string := "dify-external-knowledge-api-key"
  const BearerPrefix: string := "Bearer "
  const KnowledgeId: string := "test-knowledge-base"

  /* ---------- Bearer-token check ---------- */

  /** What `verify_api_key` does with the `Authorization` header: return the token,
      or answer 403 with a Dify error code and message. */
  datatype Auth = Authorized(token: string) | Forbidden(errorCode: nat, errorMsg: string)

  /** The header must start with "Bearer "; the token is the header with every
      occurrence of "Bearer " removed, and it must equal the API key. */
  function VerifyApiKey(authorization: string): (r: Auth)
    ensures r.Forbidden? && r.errorCode == 1001 <==> !Text.StartsWith(authorization, BearerPrefix)
    ensures r.Forbidden? ==> r.errorCode == 1001 || r.errorCode == 1002
    ensures r.Authorized? ==> r.token == ApiKey
    ensures r.Authorized? <==>
      Text.StartsWith(authorization, BearerPrefix) && Text.ReplaceAll(authorization, BearerPrefix, "") == ApiKey
  {
    if !Text.StartsWith(authorization, BearerPrefix) then
      Forbidden(1001, "Invalid Authorization header format. Expected 'Bearer ' format.")
    else
      var token := Text.ReplaceAll(authorization, BearerPrefix, "");
      if token != ApiKey then Forbidden(1002, "Authorization failed") else Authorized(token)
  }

  /** `n` copies of `s`. */
  function Repeat(s: string, n: nat): (r: string)
    ensures |r| == n * |s|
  {
    if n == 0 then [] else s + Repeat(s, n - 1)
  }

  /** The API key holds no 'B', so removing "Bearer " leaves it as it is. */
  lemma ApiKeyHasNoPrefix()
    ensures Text.ReplaceAll(ApiKey, BearerPrefix, "") == ApiKey
  {
    assert forall i :: 0 <= i < |ApiKey| ==> ApiKey[i] != 'B';
    Text.ReplaceAbsent(ApiKey, BearerPrefix, "");
  }

  /** For a key that holds no 'B', "Bearer " followed by the key is accepted exactly
      when the key is the API key. */
  lemma {:induction false} SingleBearerHeader(key: string)
    requires 'B' !in key
    ensures VerifyApiKey(BearerPrefix + key).Authorized? <==> key == ApiKey
  {
    assert (BearerPrefix + key)[..|BearerPrefix|] == BearerPrefix;
    Text.RemovePrefixOccurrence(key, BearerPrefix);
    Text.ReplaceAbsent(key, BearerPrefix, "");
  }

  /** Since every occurrence of the prefix is removed, a header repeating "Bearer "
      any positive number of times before the API key is accepted too. */
  lemma {:induction false} RepeatedBearerAccepted(n: nat)
    requires n >= 1
    ensures VerifyApiKey(Repeat(BearerPrefix, n) + ApiKey) == Authorized(ApiKey)
  {
    var h := Repeat(BearerPrefix, n) + ApiKey;
    assert h == BearerPrefix + (Repeat(BearerPrefix, n - 1) + ApiKey);
    assert h[..|BearerPrefix|] == BearerPrefix;
    StrippedRepeats(n);
  }

  lemma {:induction false} StrippedRepeats(n: nat)
    ensures Text.ReplaceAll(Repeat(BearerPrefix, n) + ApiKey, BearerPrefix, "") == ApiKey
  {
    if n == 0 {
      assert Repeat(BearerPrefix, 0) + ApiKey == ApiKey;
      ApiKeyHasNoPrefix();
    } else {
      var rest := Repeat(BearerPrefix, n - 1) + ApiKey;
      assert Repeat(BearerPrefix, n) + ApiKey == BearerPrefix + rest;
      Text.RemovePrefixOccurrence(rest, BearerPrefix);
      StrippedRepeats(n - 1);
    }
  }

  /* ---------- The library calls ---------- */

  /** A vector store: the persisted collection opened as it is, or a new collection
      indexed from chunks. */
  datatype VectorDb = Existing(collection: string) | Indexed(collection: string, chunks: seq<Doc>)

  /** What `vector_db.get()` returns: the "documents" and "metadatas" entries, each of
      which may be missing. */
  datatype Collection = Collection(documents: Option<seq<string>>, metadatas: Option<seq<Option<Metadata>>>)

  /** A retriever: the store's dense retriever with its `k`, a BM25 retriever over
      documents with its `k`, or an ensemble of retrievers with weights. */
  datatype Retriever =
    | Dense(db: VectorDb, k: int)
    | Bm25(docs: seq<Doc>, k: int)
    | Ensemble(members: seq<Retriever>, weights: seq<real>)

  /** The library calls one request makes, with the outcome each gives. */
  datatype Backend = Backend(
    pdfPath: string,                                  // PDF_PATH
    chromaFileExists: bool,                           // chroma.sqlite3 in the store directory
    existing: Result<Collection>,                     // opening the persisted collection and reading it
    pdf: Result<seq<Doc>>,                            // PDFPlumberLoader(PDF_PATH).load()
    split: seq<Doc> -> seq<Doc>,                      // splitter with chunk size 600, overlap 50
    indexError: Option<string>,                       // what Chroma.from_documents raises, if anything
    contents: VectorDb -> Result<Collection>,         // vector_db.get() in the retriever setup
    bm25Error: Option<string>,                        // what BM25Retriever.from_documents raises, if anything
    search: (Retriever, string) -> Result<seq<Doc>>)  // retriever.get_relevant_documents(query)

  /* ---------- Document processing ---------- */

  /** A collection read back from the store has documents (`collection.get("documents", [])`
      is truthy). */
  predicate HasDocuments(c: Collection) {
    c.documents.Some? && c.documents.value != []
  }

  const FallbackTexts: seq<string> := [
    "This is a test document chunk 1 for Dify external knowledge API.",
    "This is a test document chunk 2 about PDF processing and retrieval.",
    "This is a test document chunk 3 explaining external knowledge API implementation."]

  /** The temporary chunks indexed when splitting the PDF yields nothing. */
  function FallbackChunks(pdfPath: string): (r: seq<Doc>)
    ensures |r| == 3
    ensures forall i :: 0 <= i < 3 ==> r[i].content == FallbackTexts[i]
  {
    var m := map["path" := Str(pdfPath), "description" := Str("Test PDF document"),
                 "title" := Str(Text.Basename(pdfPath))];
    [Doc(FallbackTexts[0], m), Doc(FallbackTexts[1], m), Doc(FallbackTexts[2], m)]
  }

  /** The chunks a rebuild indexes: the split PDF, or the fallback chunks. */
  function RebuildChunks(b: Backend, docs: seq<Doc>): seq<Doc> {
    var split := b.split(docs);
    if split == [] then FallbackChunks(b.pdfPath) else split
  }

  /** The store `DocumentProcessor` puts into the state, or the exception it raises. */
  function OpenStore(b: Backend): Result<VectorDb> {
    if b.chromaFileExists && b.existing.Ok? && HasDocuments(b.existing.value) then
      Ok(Existing(KnowledgeId))
    else if b.pdf.Err? then Err(b.pdf.error)
    else if b.indexError.Some? then Err(b.indexError.value)
    else Ok(Indexed(KnowledgeId, RebuildChunks(b, b.pdf.value)))
  }

  /** The persisted store is reused exactly when its file exists and the collection
      reads back with documents; otherwise the store is rebuilt from the PDF, and a
      rebuilt store never indexes an empty chunk list: it indexes the split PDF, or
      exactly the three fallback chunks when the split is empty. */
  lemma OpenStoreDecision(b: Backend)
    ensures var r := OpenStore(b);
      && (r.Ok? && r.value.Existing? <==> b.chromaFileExists && b.existing.Ok? && HasDocuments(b.existing.value))
      && (r.Ok? && r.value.Indexed? ==>
            && b.pdf.Ok?
            && r.value.chunks != []
            && (b.split(b.pdf.value) != [] ==> r.value.chunks == b.split(b.pdf.value))
            && (b.split(b.pdf.value) == [] ==> r.value.chunks == FallbackChunks(b.pdfPath)))
      && (r.Err? ==> b.pdf.Err? || b.indexError.Some?)
  {
    if b.pdf.Ok? { EmptySplitFallsBack(b, b.pdf.value); }
  }

  /** An empty split is replaced by the fallback chunks, and a non-empty one is kept. */
  lemma EmptySplitFallsBack(b: Backend, docs: seq<Doc>)
    ensures b.split(docs) == [] ==> RebuildChunks(b, docs) == FallbackChunks(b.pdfPath)
    ensures b.split(docs) != [] ==> RebuildChunks(b, docs) == b.split(docs)
  {
  }

  /* ---------- The graph state ---------- */

  /** The `KnowledgeState` dict passed from node to node. The request fields are
      `None` when the key is missing, so that the nodes' `.get` defaults show. */
  class KnowledgeState {
    var query: Option<string>
    var searchMethod: Option<string>
    var topK: Option<int>
    var scoreThreshold: Option<real>
    var results: seq<Record>
    var vectorDb: Option<VectorDb>
    var semanticRetriever: Option<Retriever>
    var keywordRetriever: Option<Retriever>
    var hybridRetriever: Option<Retriever>

    /** The initial state the handler builds from a request. */
    constructor (query: string, searchMethod: string, topK: int, scoreThreshold: real)
      ensures this.query == Some(query) && this.searchMethod == Some(searchMethod)
      ensures this.topK == Some(topK) && this.scoreThreshold == Some(scoreThreshold)
      ensures results == [] && vectorDb == None
      ensures semanticRetriever == None && keywordRetriever == None && hybridRetriever == None
    {
      this.query := Some(query);
      this.searchMethod := Some(searchMethod);
      this.topK := Some(topK);
      this.scoreThreshold := Some(scoreThreshold);
      results := [];
      vectorDb := None;
      semanticRetriever := None;
      keywordRetriever := None;
      hybridRetriever := None;
    }
  }

  /** The `DocumentProcessor` node: store the opened or rebuilt vector store, or raise. */
  method ProcessDocuments(state: KnowledgeState, b: Backend) returns (raised: Option<string>)
    modifies state`vectorDb
    ensures OpenStore(b).Ok? ==> raised == None && state.vectorDb == Some(OpenStore(b).value)
    ensures OpenStore(b).Err? ==> raised == Some(OpenStore(b).error) && state.vectorDb == old(state.vectorDb)
  {
    var store := OpenStore(b);
    if store.Err? {
      return Some(store.error);
    }
    state.vectorDb := Some(store.value);
    return None;
  }

  /* ---------- Retriever setup ---------- */

  /** `Document(page_content=text, metadata=meta if meta else {})` over
      `zip(docs, metadatas)`, which stops at the shorter list. */
  function DocObjects(texts: seq<string>, metas: seq<Option<Metadata>>): (r: seq<Doc>)
    ensures |r| == if |texts| <= |metas| then |texts| else |metas|
  {
    if texts == [] || metas == [] then []
    else [Doc(texts[0], metas[0].GetOr(map[]))] + DocObjects(texts[1..], metas[1..])
  }

  /** Each built document pairs the text and the metadata at its own position. */
  lemma {:induction false} DocObjectsAt(texts: seq<string>, metas: seq<Option<Metadata>>, i: nat)
    requires i < |texts| && i < |metas|
    ensures DocObjects(texts, metas)[i] == Doc(texts[i], metas[i].GetOr(map[]))
  {
    if i > 0 {
      DocObjectsAt(texts[1..], metas[1..], i - 1);
    }
  }

  const TemporaryText: string := "This is a temporary document for testing purposes."

  /** The texts and metadatas the BM25 retriever is built from: the collection's, with
      one `None` per text when "metadatas" is missing, or one temporary text. */
  function KeywordSource(c: Collection): (seq<string>, seq<Option<Metadata>>) {
    if HasDocuments(c) then
      var texts := c.documents.value;
      (texts, if c.metadatas.Some? then c.metadatas.value else seq(|texts|, _ => None))
    else ([TemporaryText], [None])
  }

  /** The three retrievers the setup node stores. */
  datatype RetrieverSet = RetrieverSet(semantic: Retriever, keyword: Retriever, hybrid: Retriever)

  /** What `RetrieverSetup` stores for a store and a `top_k`: the dense retriever, and
      BM25 plus a 0.5/0.5 ensemble of [BM25, dense] unless reading the collection or
      building BM25 raised, in which case the dense retriever stands in for both. */
  function Retrievers(db: VectorDb, topK: int, contents: Result<Collection>, bm25Error: Option<string>): RetrieverSet {
    var semantic := Dense(db, topK);
    if contents.Err? || bm25Error.Some? then RetrieverSet(semantic, semantic, semantic)
    else
      var (texts, metas) := KeywordSource(contents.value);
      var keyword := Bm25(DocObjects(texts, metas), topK);
      RetrieverSet(semantic, keyword, Ensemble([keyword, semantic], [0.5, 0.5]))
  }

  /** The setup's fallbacks: the dense retriever always uses `top_k`; when the keyword
      side fails, keyword and hybrid are the dense retriever; otherwise BM25 gets
      `top_k` and one document per collection text (with `{}` for a missing
      metadata), or the single temporary document for an empty collection. */
  lemma {:induction false} RetrieversShape(db: VectorDb, topK: int, contents: Result<Collection>, bm25Error: Option<string>)
    ensures var s := Retrievers(db, topK, contents, bm25Error);
      && s.semantic == Dense(db, topK)
      && (contents.Err? || bm25Error.Some? ==> s.keyword == s.semantic && s.hybrid == s.semantic)
      && (contents.Ok? && bm25Error.None? ==>
            && s.keyword.Bm25? && s.keyword.k == topK
            && s.hybrid == Ensemble([s.keyword, s.semantic], [0.5, 0.5])
            && (!HasDocuments(contents.value) ==> s.keyword.docs == [Doc(TemporaryText, map[])])
            && (HasDocuments(contents.value) && contents.value.metadatas.None? ==>
                  |s.keyword.docs| == |contents.value.documents.value|
                  && forall i :: 0 <= i < |s.keyword.docs| ==>
                       s.keyword.docs[i] == Doc(contents.value.documents.value[i], map[])))
  {
    var s := Retrievers(db, topK, contents, bm25Error);
    if contents.Ok? && bm25Error.None? {
      var (texts, metas) := KeywordSource(contents.value);
      if !HasDocuments(contents.value) {
        assert DocObjects(texts, metas) == [Doc(TemporaryText, map[])] + DocObjects([], []);
      } else if contents.value.metadatas.None? {
        forall i | 0 <= i < |s.keyword.docs|
          ensures s.keyword.docs[i] == Doc(contents.value.documents.value[i], map[])
        {
          DocObjectsAt(texts, metas, i);
        }
      }
    }
  }

  /** The `RetrieverSetup` node: raise without a store, otherwise store the three
      retrievers for `top_k` (5 when the state has none). */
  method SetupRetrievers(state: KnowledgeState, b: Backend) returns (raised: Option<string>)
    modifies state`semanticRetriever, state`keywordRetriever, state`hybridRetriever
    ensures old(state.vectorDb).None? ==>
      raised == Some("Vector store not found in state")
      && unchanged(state`semanticRetriever, state`keywordRetriever, state`hybridRetriever)
    ensures old(state.vectorDb).Some? ==>
      var db := old(state.vectorDb).value;
      var s := Retrievers(db, old(state.topK).GetOr(5), b.contents(db), b.bm25Error);
      && raised == None
      && state.semanticRetriever == Some(s.semantic)
      && state.keywordRetriever == Some(s.keyword)
      && state.hybridRetriever == Some(s.hybrid)
  {
    if state.vectorDb.None? {
      return Some("Vector store not found in state");
    }
    var db := state.vectorDb.value;
    var topK := state.topK.GetOr(5);
    var semantic := Dense(db, topK);
    state.semanticRetriever := Some(semantic);
    var contents := b.contents(db);
    if contents.Err? || b.bm25Error.Some? {
      state.keywordRetriever := Some(semantic);
      state.hybridRetriever := Some(semantic);
    } else {
      var (texts, metas) := KeywordSource(contents.value);
      var keyword := Bm25(DocObjects(texts, metas), topK);
      state.keywordRetriever := Some(keyword);
      state.hybridRetriever := Some(Ensemble([keyword, semantic], [0.5, 0.5]));
    }
    return None;
  }

  /* ---------- Retrieval ---------- */

  /** The retriever the search method asks for, falling back to the hybrid one when
      that one is missing; `Err` when the hybrid one is missing too. */
  function ChooseRetriever(searchMethod: string, keyword: Option<Retriever>, semantic: Option<Retriever>,
                           hybrid: Option<Retriever>): Result<Retriever>
  {
    var wanted :=
      if searchMethod == "keyword_search" || searchMethod == "full_text_search" then keyword
      else if searchMethod == "semantic_search" then semantic
      else hybrid;
    if wanted.Some? then Ok(wanted.value)
    else if hybrid.Some? then Ok(hybrid.value)
    else Err("No retriever available in state")
  }

  /** The keyword methods use the keyword retriever and "semantic_search" the
      semantic one when those are set; every other method, and any method whose
      retriever is missing, uses the hybrid one; the choice fails exactly when the
      requested retriever and the hybrid one are both missing. */
  lemma ChooseRetrieverCases(searchMethod: string, keyword: Option<Retriever>, semantic: Option<Retriever>,
                             hybrid: Option<Retriever>)
    ensures var r := ChooseRetriever(searchMethod, keyword, semantic, hybrid);
      var isKeyword := searchMethod in ["keyword_search", "full_text_search"];
      var isSemantic := searchMethod == "semantic_search";
      && (isKeyword && keyword.Some? ==> r == Ok(keyword.value))
      && (isSemantic && semantic.Some? ==> r == Ok(semantic.value))
      && ((!isKeyword || keyword.None?) && (!isSemantic || semantic.None?) ==>
            if hybrid.Some? then r == Ok(hybrid.value) else r.Err?)
  {
  }

  /** The synthetic score at 0-based rank `i`: `max(0.95 - 0.1 * i, threshold)`. */
  function Score(i: nat, threshold: real): (r: real)
    ensures r >= threshold && r >= 0.95 - 0.1 * (i as real)
    ensures r == threshold || r == 0.95 - 0.1 * (i as real)
  {
    var s := 0.95 - 0.1 * (i as real);
    if s >= threshold then s else threshold
  }

  /** The record built for the document at rank `i`. */
  function RankRecord(d: Doc, i: nat, threshold: real): Record {
    Record(Some(d.metadata), Some(Score(i, threshold)),
           Some(GetOr(d.metadata, "Title", GetOr(d.metadata, "title", Str("Document chunk")))),
           Some(d.content))
  }

  /** The records of the retrieved documents, in rank order. */
  function RankedRecords(docs: seq<Doc>, threshold: real): seq<Record>
    decreases |docs|
  {
    if docs == [] then []
    else RankedRecords(docs[..|docs| - 1], threshold) + [RankRecord(docs[|docs| - 1], |docs| - 1, threshold)]
  }

  /** One record per document, the record at rank `i` built from the document at `i`. */
  lemma {:induction false} RankedRecordsAt(docs: seq<Doc>, threshold: real)
    ensures |RankedRecords(docs, threshold)| == |docs|
    ensures forall i :: 0 <= i < |docs| ==> RankedRecords(docs, threshold)[i] == RankRecord(docs[i], i, threshold)
    decreases |docs|
  {
    if docs != [] {
      var init := docs[..|docs| - 1];
      RankedRecordsAt(init, threshold);
      forall i | 0 <= i < |init| ensures docs[i] == init[i] { }
    }
  }

  /** The scores of the ranked records never increase and never fall below the
      threshold, each record carries its document's text, and its title is the
      "Title" metadata, else the "title" metadata, else "Document chunk". */
  lemma RankedRecordsProperties(docs: seq<Doc>, threshold: real)
    ensures var r := RankedRecords(docs, threshold);
      && |r| == |docs|
      && (forall i :: 0 <= i < |r| ==> r[i].score.Some? && r[i].score.value >= threshold)
      && (forall i, j :: 0 <= i <= j < |r| ==> r[j].score.value <= r[i].score.value)
      && (forall i :: 0 <= i < |r| ==> r[i].content == Some(docs[i].content) && r[i].metadata == Some(docs[i].metadata))
      && (forall i :: 0 <= i < |r| ==>
            r[i].title == Some(if "Title" in docs[i].metadata then docs[i].metadata["Title"]
                               else if "title" in docs[i].metadata then docs[i].metadata["title"]
                               else Str("Document chunk")))
  {
    RankedRecordsAt(docs, threshold);
  }

  /** The record answered when the search finds nothing. */
  function DefaultRecord(query: string, pdfPath: string): Record {
    Record(Some(map["path" := Str(pdfPath), "description" := Str("Default response")]), Some(0.5),
           Some(Str("Default response")), Some("No relevant documents found for query: '" + query + "'"))
  }

  /** The record answered when the search raises. */
  function RetrievalErrorRecord(error: string): Record {
    Record(Some(map["path" := Str("error"), "description" := Str("Error occurred during retrieval")]), Some(0.5),
           Some(Str("Error")), Some("An error occurred during retrieval: " + error))
  }

  /** The results `PerformRetrieval` stores for what the search returned. */
  function RetrievalResults(query: string, found: Result<seq<Doc>>, topK: int, threshold: real, pdfPath: string): seq<Record> {
    if found.Err? then [RetrievalErrorRecord(found.error)]
    else
      var ranked := RankedRecords(SliceTo(found.value, topK), threshold);
      if ranked == [] then [DefaultRecord(query, pdfPath)] else ranked
  }

  /** The stored results are never empty: a failed search gives exactly the one error
      record, a search that finds nothing within `top_k` exactly the one default
      record with score 0.5, and otherwise one ranked record per document of the
      first `top_k` (Python's `docs[:top_k]`). */
  lemma RetrievalResultsCases(query: string, found: Result<seq<Doc>>, topK: int, threshold: real, pdfPath: string)
    ensures var r := RetrievalResults(query, found, topK, threshold, pdfPath);
      && |r| >= 1
      && (found.Err? ==> r == [RetrievalErrorRecord(found.error)])
      && (found.Ok? && SliceTo(found.value, topK) == [] ==> r == [DefaultRecord(query, pdfPath)])
      && (found.Ok? && SliceTo(found.value, topK) != [] ==>
            |r| == |SliceTo(found.value, topK)| && (topK >= 0 ==> |r| <= topK))
  {
    if found.Ok? {
      RankedRecordsAt(SliceTo(found.value, topK), threshold);
    }
  }

  /** The loop over `docs[:top_k]` appending one record per document. */
  method RankDocuments(docs: seq<Doc>, threshold: real) returns (results: seq<Record>)
    ensures results == RankedRecords(docs, threshold)
  {
    results := [];
    var i := 0;
    while i < |docs|
      invariant 0 <= i <= |docs|
      invariant results == RankedRecords(docs[..i], threshold)
    {
      assert docs[..i + 1][..i] == docs[..i];
      results := results + [RankRecord(docs[i], i, threshold)];
      i := i + 1;
    }
    assert docs[..i] == docs;
  }

  /** The `PerformRetrieval` node: pick the retriever (raising when none is left),
      search, and store the ranked, default or error records. */
  method PerformRetrieval(state: KnowledgeState, b: Backend) returns (raised: Option<string>)
    modifies state`results
    ensures var choice := ChooseRetriever(old(state.searchMethod).GetOr("hybrid_search"),
                                          state.keywordRetriever, state.semanticRetriever, state.hybridRetriever);
      && (choice.Err? ==> raised == Some(choice.error) && state.results == old(state.results))
      && (choice.Ok? ==>
            var query := state.query.GetOr("");
            raised == None
            && state.results == RetrievalResults(query, b.search(choice.value, query), state.topK.GetOr(5),
                                                 state.scoreThreshold.GetOr(0.5), b.pdfPath))
  {
    var query := state.query.GetOr("");
    var searchMethod := state.searchMethod.GetOr("hybrid_search");
    var topK := state.topK.GetOr(5);
    var threshold := state.scoreThreshold.GetOr(0.5);
    var choice := ChooseRetriever(searchMethod, state.keywordRetriever, state.semanticRetriever, state.hybridRetriever);
    if choice.Err? {
      return Some(choice.error);
    }
    var found := b.search(choice.value, query);
    if found.Err? {
      state.results := [RetrievalErrorRecord(found.error)];
    } else {
      var ranked := RankDocuments(SliceTo(found.value, topK), threshold);
      state.results := ranked;
      if ranked == [] {
        state.results := [DefaultRecord(query, b.pdfPath)];
      }
    }
    return None;
  }

  /* ---------- The /retrieval handler ---------- */

  /** The request body: knowledge id, query, search method and retrieval settings. */
  datatype Request = Request(knowledgeId: string, query: string, searchMethod: string, topK: int, scoreThreshold: real)

  /** A record of the response body: every field present. */
  datatype OutRecord = OutRecord(metadata: Metadata, score: real, title: Value, content: string)

  /** The handler's answer: 403 from the token check, 500 without a graph, or records. */
  datatype Response =
    | AuthError(errorCode: nat, errorMsg: string)
    | ServerError(detail: string)
    | Records(records: seq<OutRecord>)

  /** The response record for a result: missing or empty metadata becomes
      `{"path": "unknown", "description": ""}`, and a missing score, title or
      content becomes 0.5, "Document" or "No content". */
  function Normalise(r: Record): (o: OutRecord)
    ensures r.metadata.Some? && r.metadata.value != map[] ==> o.metadata == r.metadata.value
    ensures o.metadata != map[]
  {
    var m := r.metadata.GetOr(map[]);
    var unknown := map["path" := Str("unknown"), "description" := Str("")];
    assert "path" in unknown;
    OutRecord(if m == map[] then unknown else m,
              r.score.GetOr(0.5), r.title.GetOr(Str("Document")), r.content.GetOr("No content"))
  }

  /** The record answered when running the graph raises. */
  function GraphErrorRecord(error: string): OutRecord {
    OutRecord(map["path" := Str("error"), "description" := Str("Error response")], 0.5, Str("Error"),
              "An error occurred: " + error)
  }

  /** The results of running the three nodes in order, or the first exception. */
  function RunGraph(req: Request, b: Backend): Result<seq<Record>> {
    var store := OpenStore(b);
    if store.Err? then Err(store.error)
    else
      var s := Retrievers(store.value, req.topK, b.contents(store.value), b.bm25Error);
      var choice := ChooseRetriever(req.searchMethod, Some(s.keyword), Some(s.semantic), Some(s.hybrid));
      if choice.Err? then Err(choice.error)
      else Ok(RetrievalResults(req.query, b.search(choice.value, req.query), req.topK, req.scoreThreshold, b.pdfPath))
  }

  /** What the handler answers. */
  function Respond(authorization: string, req: Request, graphBuilt: bool, b: Backend): Response {
    var auth := VerifyApiKey(authorization);
    if auth.Forbidden? then AuthError(auth.errorCode, auth.errorMsg)
    else if !graphBuilt then ServerError("Knowledge graph is not initialized")
    else
      var run := RunGraph(req, b);
      if run.Err? then Records([GraphErrorRecord(run.error)])
      else Records(seq(|run.value|, i requires 0 <= i < |run.value| => Normalise(run.value[i])))
  }

  /** Inside the graph the retriever choice never fails, since the setup always
      stores a hybrid retriever: the graph raises only when the store cannot be
      opened, and otherwise yields at least one result. */
  lemma RunGraphFailsOnlyOnStore(req: Request, b: Backend)
    ensures RunGraph(req, b).Err? <==> OpenStore(b).Err?
    ensures RunGraph(req, b).Ok? ==> |RunGraph(req, b).value| >= 1
  {
    var store := OpenStore(b);
    if store.Ok? {
      var s := Retrievers(store.value, req.topK, b.contents(store.value), b.bm25Error);
      var choice := ChooseRetriever(req.searchMethod, Some(s.keyword), Some(s.semantic), Some(s.hybrid));
      assert choice.Ok?;
      RetrievalResultsCases(req.query, b.search(choice.value, req.query), req.topK, req.scoreThreshold, b.pdfPath);
    }
  }

  /** So an authorised request to a built graph gets at least one record, and every
      record has non-empty metadata. */
  lemma AuthorisedRequestsGetRecords(authorization: string, req: Request, b: Backend)
    requires VerifyApiKey(authorization).Authorized?
    ensures var resp := Respond(authorization, req, true, b);
      && resp.Records?
      && |resp.records| >= 1
      && (forall i :: 0 <= i < |resp.records| ==> resp.records[i].metadata != map[])
  {
    RunGraphFailsOnlyOnStore(req, b);
    var run := RunGraph(req, b);
    if run.Err? {
      assert "path" in GraphErrorRecord(run.error).metadata;
    }
  }

  /** The loop turning the graph's results into response records. */
  method NormaliseAll(results: seq<Record>) returns (records: seq<OutRecord>)
    ensures |records| == |results|
    ensures forall i :: 0 <= i < |results| ==> records[i] == Normalise(results[i])
  {
    records := [];
    for i := 0 to |results|
      invariant |records| == i
      invariant forall j :: 0 <= j < i ==> records[j] == Normalise(results[j])
    {
      records := records + [Normalise(results[i])];
    }
  }

  /** The `/retrieval` endpoint: check the token, then run the graph on a fresh state
      and normalise its results; an exception from the graph is answered with one
      error record. */
  method RetrieveKnowledge(authorization: string, req: Request, graphBuilt: bool, b: Backend) returns (resp: Response)
    ensures resp == Respond(authorization, req, graphBuilt, b)
  {
    var auth := VerifyApiKey(authorization);
    if auth.Forbidden? {
      return AuthError(auth.errorCode, auth.errorMsg);
    }
    if !graphBuilt {
      return ServerError("Knowledge graph is not initialized");
    }
    var run := InvokeGraph(req, b);
    if run.Err? {
      return Records([GraphErrorRecord(run.error)]);
    }
    var records := NormaliseAll(run.value);
    return Records(records);
  }

  /** `knowledge_graph.invoke(initial_state)`: the three nodes in order on a fresh
      state, stopping at the first exception. */
  method InvokeGraph(req: Request, b: Backend) returns (run: Result<seq<Record>>)
    ensures run == RunGraph(req, b)
  {
    var state := new KnowledgeState(req.query, req.searchMethod, req.topK, req.scoreThreshold);
    var raised := ProcessDocuments(state, b);
    if raised.Some? {
      return Err(raised.value);
    }
    // With a store in the state the setup cannot raise, and with a hybrid retriever
    // in the state the retriever choice cannot either.
    ghost var db := OpenStore(b).value;
    ghost var s := Retrievers(db, req.topK, b.contents(db), b.bm25Error);
    raised := SetupRetrievers(state, b);
    assert raised.None? && state.hybridRetriever == Some(s.hybrid);
    assert state.keywordRetriever == Some(s.keyword) && state.semanticRetriever == Some(s.semantic);
    assert state.query == Some(req.query) && state.searchMethod == Some(req.searchMethod);
    assert state.topK == Some(req.topK) && state.scoreThreshold == Some(req.scoreThreshold);
    ghost var choice := ChooseRetriever(req.searchMethod, Some(s.keyword), Some(s.semantic), Some(s.hybrid));
    assert choice.Ok?;
    raised := PerformRetrieval(state, b);
    assert raised.None?;
    assert state.results
      == RetrievalResults(req.query, b.search(choice.value, req.query), req.topK, req.scoreThreshold, b.pdfPath);
    return Ok(state.results);
  }
}
