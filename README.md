# llm-dev glue logic, modelled in Dafny

This project models the deterministic code that the llm-dev repository wraps
around its LLM, retrieval and web-search libraries. The ranking, splitting,
embedding and HTTP work is done by libraries the repository does not contain.
Those libraries appear here as function-valued parameters or as fields of a
`Backend`/`Library` record. What the repository itself decides is modelled and
proved:

- **The agent UI** (`langgraph-mcp-agents/app.py`, same logic in `app_KOR.py`),
  module `AgentUi`, file `agent_ui.dfy`:
  - The "Add Tool" validator. It checks the braces, unwraps `mcpServers` and
    normalises each entry's `transport`. It accepts or refuses each entry and
    writes accepted entries into the pending configuration.
  - Tool deletion.
  - The `print_message` grouping loop.
  - The history append after a query.
  - The model list, the model select index and the login check.
- **The Dify external-knowledge server** (`case2/dify_ek_server.py`), module
  `DifyServer`:
  - Bearer-token check.
  - Reuse or rebuild of the Chroma store, with the three fallback chunks.
  - Retriever setup and its fallbacks.
  - The search-method → retriever mapping.
  - Truncation to `top_k` and the synthetic scores `max(0.95 - 0.1 i, threshold)`.
  - The default and error records.
  - The HTTP handler's record normalisation.
  - The graph state is a class whose fields the three nodes write.
- **The Dify MCP tool** (`case2/mcp_server.py`), module `DifyTool`:
  - The Markdown formatter.
  - Query refusal, clamping of `top_k` and `score_threshold`, and the
    "Search failed" messages.
  - The learning-guide prompt's fallbacks.
- **The PDF retrieval chain** (`case1/rag/base.py`, `case1/rag/pdf.py`), modules
  `RagPdf` and `RagChain`:
  - The chain is a class that is uninitialised until `initialize` stores its
    retrievers.
  - Loading skips missing files.
  - The 600/50 splitter.
  - The reuse-or-build decision for the vector store.
  - The per-method handling of `k` in the searches.
- **The PDF RAG MCP tools** (`case1/mcp_server.py`), module `RagTools`: the
  Markdown formatter with 1-based page numbers, and the tools that turn every
  exception into an error reply.
- **The Tavily web-search tool** (`case4/mcp_server.py`), module `WebTool`: the
  formatter, and the defaulting of `num_results`.
- **The launch-config scripts** (both `auto_mcp_json.py`), module
  `LaunchConfig`:
  - The filtered environment variables.
  - The virtual-environment interpreter path.
  - The one-server `mcpServers` dictionary.
- **The RAG chat page** (`03_EXAONE-3.5-2.4B-RAG.py`), module `RagChatPage`:
  - `format_docs`.
  - The chat history. It is reset to the system message and grows by the user's
    message and then the model's answer for each question. When the retriever or
    the model raises, the user's message stays without an answer.
  - The display loop, which hides system messages.

Shared modules:
- `Wrappers` holds `Option` and `Result`.
- `Text` holds the Python string operations used: `strip`, `startswith`,
  `replace`, `basename`, and decimal rendering of integers.
- `Values` holds metadata values and the document and record types.
- `Listing` captures the shape every formatter shares: numbered pieces
  concatenated in order, where the first piece that raises ends the text.

Modelling conventions:
- Python exceptions are `Result.Err` values or `raised` out-parameters.
- `{x:.2f}` is an opaque parameter `fmt2`, and `str()` of a `TypeError` is an
  opaque parameter `typeError`.
- Python truthiness is written out (`k or self.k` is "`k` absent or 0").
- Paths are lists of components.

Two behaviours of the source are worth knowing:
- `verify_api_key` removes *every* occurrence of `"Bearer "`. A header that
  repeats the prefix before the key is therefore accepted
  (`DifyServer.RepeatedBearerAccepted`).
- A second `initialize` whose split is empty replaces `split_docs` but keeps the
  old retrievers. For that reason `RetrievalChain.Valid` does not tie the
  keyword retriever's documents to `split_docs`.

## Model

Each row cites the English page `app.py` and the RAG server's `auto_mcp_json.py`.
The same members model the copies of that logic in the Korean page `app_KOR.py`:
the brace test at lines 612-616, the empty-map refusal at 622-631, the entry checks
at 637-670, tool deletion at 711-713, the message loop at 236-262, the chat input
at 833-844, the model list at 481-505 and the login switch at 91. They also model the web-search server's
`case4/auto_mcp_json.py`: the interpreter at lines 34-37 and the configuration at 43-53.

| member | source | states |
|---|---|---|
| AgentUi.BadBracesRefused | draft/langgraph-mcp-agents/app.py:627-631 | text whose stripped form does not start with `{` and end with `}` is refused before parsing, whatever it would parse to, and the pending map is unchanged |
| AgentUi.OnlyMcpServersProcessed | draft/langgraph-mcp-agents/app.py:637-646 | when the parsed object has an `mcpServers` key, only that key's value is processed as the tool map |
| AgentUi.EmptyToolMapRefused | draft/langgraph-mcp-agents/app.py:644-646 | an empty tool map, bare or under `mcpServers`, is refused and the pending map is unchanged |
| AgentUi.AcceptedTransport | draft/langgraph-mcp-agents/app.py:652-660 | an accepted entry with `url` has transport "sse" (overriding any given one); without `url` it keeps its transport or gets "stdio"; every other field is unchanged |
| AgentUi.AcceptIff | draft/langgraph-mcp-agents/app.py:663-685 | a dict entry is accepted iff it has `command` or `url` and, when it has `command`, `args` is present and is a list |
| AgentUi.NonDictNeverAccepted | draft/langgraph-mcp-agents/app.py:652-676 | a str or list entry (where Python's `in` is substring or membership) is never accepted, and any other non-dict entry raises |
| AgentUi.RaisedStops | draft/langgraph-mcp-agents/app.py:650-685 | once an entry raises, the loop is over: later entries change neither the pending map nor the lists of names |
| AgentUi.ProcessEntriesFrame | draft/langgraph-mcp-agents/app.py:680-685 | after the loop the pending keys are the old keys plus the accepted names, and old entries whose names were not accepted are untouched |
| AgentUi.ProcessEntriesCounts | draft/langgraph-mcp-agents/app.py:649-685 | without an exception every entry is accepted or refused exactly once, and the accepted names are entry names (in input order) |
| AgentUi.EntryFate | draft/langgraph-mcp-agents/app.py:663-685 | an accepted entry ends in the pending map under its name with its normalised config (overwriting); a refused entry leaves that name as it was |
| AgentUi.ToolSettings.AddTool | draft/langgraph-mcp-agents/app.py:625-713 | the pending map after "Add Tool" is the one `AddTools` computes, and the expander is collapsed exactly when at least one tool was accepted |
| AgentUi.ToolSettings.RunEntries | draft/langgraph-mcp-agents/app.py:649-685 | the in-place loop over the entries ends in the state `ProcessEntries` describes |
| AgentUi.ToolSettings.DeleteTool | draft/langgraph-mcp-agents/app.py:726-728 | deleting removes exactly that tool from the pending map |
| AgentUi.PrintMessage | draft/langgraph-mcp-agents/app.py:240-266 | the index-driven loop (advancing by 1 or 2) shows exactly `Render` of the history |
| AgentUi.RenderShowsEachMessageOnce | draft/langgraph-mcp-agents/app.py:244-266 | each user message gives one user bubble, each assistant message one bubble (consuming a following tool entry), and orphan tool entries none |
| AgentUi.RenderAppend | draft/langgraph-mcp-agents/app.py:240-266 | rendering distributes over a history extension that does not start with a tool entry |
| AgentUi.NewEntries | draft/langgraph-mcp-agents/app.py:850-861 | a successful query appends the user message and the answer, plus the tool text exactly when it is not blank (2 or 3 entries) |
| AgentUi.QueryRendersOneExchange | draft/langgraph-mcp-agents/app.py:850-861 | after a successful query the screen gains exactly one user bubble and one assistant bubble, carrying the tool text iff it is not blank |
| AgentUi.ChatSession.SubmitQuery | draft/langgraph-mcp-agents/app.py:833-861 | an error reply (or no query, or an uninitialised session) leaves the history unchanged; a reply appends exactly `NewEntries` |
| AgentUi.AvailableModels | draft/langgraph-mcp-agents/app.py:493-517 | the 3 Claude names when an Anthropic key is set, followed by the 2 GPT names when an OpenAI key is set; with neither key exactly the default Claude model |
| AgentUi.SelectIndex | draft/langgraph-mcp-agents/app.py:524-528 | the index of the first occurrence of the current model, or 0 when it is not listed |
| AgentUi.UseLogin | draft/langgraph-mcp-agents/app.py:91 | the login page is off when `USE_LOGIN` is unset, and on iff the variable is "true" with each letter in either case |
| AgentUi.LoginAccepted | draft/langgraph-mcp-agents/app.py:113-117 | login succeeds iff both credentials are set and equal the entered username and password |
| DifyServer.VerifyApiKey | draft/mcp-usecase/case2/dify_ek_server.py:402-429 | error 1001 iff the header does not start with "Bearer "; otherwise 1002 unless the header with every "Bearer " removed is the API key, which is then returned |
| DifyServer.SingleBearerHeader | draft/mcp-usecase/case2/dify_ek_server.py:405-429 | for a key containing no 'B', "Bearer " + key is accepted iff key is the API key |
| DifyServer.RepeatedBearerAccepted | draft/mcp-usecase/case2/dify_ek_server.py:416-429 | because every occurrence is removed, "Bearer " repeated n ≥ 1 times before the key is accepted |
| DifyServer.FallbackChunks | draft/mcp-usecase/case2/dify_ek_server.py:134-161 | an empty split is replaced by exactly the three fallback chunks |
| DifyServer.OpenStoreDecision | draft/mcp-usecase/case2/dify_ek_server.py:100-168 | the store is reused iff `chroma.sqlite3` exists and the collection reads back with documents; a rebuilt store indexes exactly the split PDF, or exactly `FallbackChunks` of the PDF path when the split is empty, never nothing |
| DifyServer.KnowledgeState.constructor | draft/mcp-usecase/case2/dify_ek_server.py:447-457 | the initial graph state holds the request fields, no results, no store and no retrievers |
| DifyServer.ProcessDocuments | draft/mcp-usecase/case2/dify_ek_server.py:83-176 | the node stores the opened store, or re-raises and leaves the state's store unchanged |
| DifyServer.DocObjects | draft/mcp-usecase/case2/dify_ek_server.py:223-230 | one document per pair of text and metadata, as long as the shorter list (`zip`) |
| DifyServer.DocObjectsAt | draft/mcp-usecase/case2/dify_ek_server.py:223-230 | the i-th document has the i-th text and the i-th metadata, with `{}` for a missing one |
| DifyServer.RetrieversShape | draft/mcp-usecase/case2/dify_ek_server.py:197-246 | semantic is the dense retriever; if reading or BM25 fails, keyword and hybrid are the semantic one; otherwise BM25 gets `top_k`, the temporary document for an empty collection, and hybrid fuses [keyword, semantic] at [0.5, 0.5] |
| DifyServer.SetupRetrievers | draft/mcp-usecase/case2/dify_ek_server.py:185-252 | without a store the node raises "Vector store not found in state" and stores nothing; otherwise it stores the three retrievers for `top_k` (default 5) |
| DifyServer.ChooseRetrieverCases | draft/mcp-usecase/case2/dify_ek_server.py:280-297 | keyword_search/full_text_search use the keyword retriever, semantic_search the semantic one, anything else the hybrid one; a missing retriever falls back to hybrid, and the choice fails iff hybrid is missing too |
| DifyServer.Score | draft/mcp-usecase/case2/dify_ek_server.py:306 | the rank score is the larger of 0.95 − 0.1·i and the threshold |
| DifyServer.RankedRecordsProperties | draft/mcp-usecase/case2/dify_ek_server.py:300-315 | one record per document; scores never increase and never fall below the threshold; each record keeps its document's text and metadata; the title is "Title", else "title", else "Document chunk" |
| DifyServer.RetrievalResultsCases | draft/mcp-usecase/case2/dify_ek_server.py:300-341 | results are never empty: exactly one error record when the search raises, exactly one default record when nothing is found within `top_k`, otherwise one record per document of `docs[:top_k]` |
| DifyServer.RankDocuments | draft/mcp-usecase/case2/dify_ek_server.py:300-315 | the append loop builds exactly the ranked records |
| DifyServer.PerformRetrieval | draft/mcp-usecase/case2/dify_ek_server.py:260-343 | the node raises with the results unchanged when no retriever can be chosen; otherwise it stores the results of searching with the chosen retriever |
| DifyServer.Normalise | draft/mcp-usecase/case2/dify_ek_server.py:465-477 | non-empty metadata is kept, and empty or missing metadata becomes `{"path": "unknown", "description": ""}`, so the metadata is never empty |
| DifyServer.RunGraphFailsOnlyOnStore | draft/mcp-usecase/case2/dify_ek_server.py:348-368 | running the graph raises exactly when opening the vector store does, and otherwise yields at least one result |
| DifyServer.AuthorisedRequestsGetRecords | draft/mcp-usecase/case2/dify_ek_server.py:435-490 | an authorised request to a built graph always answers at least one record, each with non-empty metadata |
| DifyServer.NormaliseAll | draft/mcp-usecase/case2/dify_ek_server.py:465-477 | the loop answers one normalised record per result, in order |
| DifyServer.RetrieveKnowledge | draft/mcp-usecase/case2/dify_ek_server.py:435-490 | the handler answers `Respond`: an authentication error, a 500 without a graph, the normalised records, or the single error record |
| DifyServer.InvokeGraph | draft/mcp-usecase/case2/dify_ek_server.py:348-368 | running the three nodes in order on a fresh state gives `RunGraph` |
| DifyTool.SourceText | draft/mcp-usecase/case2/mcp_server.py:38-46 | the source line raises iff the chosen file value (title, else path) is not a string |
| DifyTool.SourceTextPreference | draft/mcp-usecase/case2/mcp_server.py:38-46 | the file is the basename of `title` in preference to `path`; " \| Page: p" follows when `page` exists; with none of them it is "No source information" |
| DifyTool.SectionTitle | draft/mcp-usecase/case2/mcp_server.py:34 | a record with a title is titled by `str` of that title; one without is titled "Result " and its 1-based position |
| DifyTool.Section | draft/mcp-usecase/case2/mcp_server.py:31-51 | a section starts "## title (Relevance: " and ends "---\n\n"; between them come the score, ")", a newline, the source line, a blank line, the content ("" when missing) and a blank line; it raises iff its source line does |
| DifyTool.SectionsOkIff | draft/mcp-usecase/case2/mcp_server.py:31-51 | the sections exist iff every record's source line does |
| DifyTool.SectionsInOrder | draft/mcp-usecase/case2/mcp_server.py:31-51 | every record has its section, in order |
| DifyTool.FormatResultsLayout | draft/mcp-usecase/case2/mcp_server.py:21-54 | missing or empty records give exactly "No search results found."; otherwise the text starts with "# Search Results\n\n" and ends with the Dify footer |
| DifyTool.FormatSearchResults | draft/mcp-usecase/case2/mcp_server.py:21-54 | the accumulating loop computes `FormatResults` |
| DifyTool.SettingsFrom | draft/mcp-usecase/case2/mcp_server.py:11-13 | the API key and knowledge id default to the server's own values when unset |
| DifyTool.DefaultKeyAccepted | draft/mcp-usecase/case2/mcp_server.py:12 | with the default key the tool's header passes the server's token check |
| DifyTool.ClampTopK | draft/mcp-usecase/case2/mcp_server.py:86-89 | `top_k` is clamped into [1, 20] and left alone inside it |
| DifyTool.ClampThreshold | draft/mcp-usecase/case2/mcp_server.py:91-94 | `score_threshold` is clamped into [0, 1] and left alone inside it |
| DifyTool.HttpErrorMessage | draft/mcp-usecase/case2/mcp_server.py:120-128 | the message is "Dify API error: HTTP " and the status code, followed by " - " and the `error_msg` of a dict body that has one, or " - " and the first 100 characters of a body that is not JSON, and by nothing otherwise |
| DifyTool.Failure | draft/mcp-usecase/case2/mcp_server.py:120-152 | there is no failure iff the answer is a 200 with a JSON dict whose records format |
| DifyTool.ReplyToResults | draft/mcp-usecase/case2/mcp_server.py:133-135 | a 200 dict answer is replied with the formatted results, or "Unexpected error" with the formatter's exception |
| DifyTool.SearchReplyCases | draft/mcp-usecase/case2/mcp_server.py:83-131 | a blank query gives "Error: Search query is empty." without a request; the request carries the clamped settings and the bearer key; every failure starts "Search failed\n\n"; a non-200 status gives exactly the HTTP error message |
| DifyTool.DifyEkSearch | draft/mcp-usecase/case2/mcp_server.py:57-152 | the tool, clamping its arguments in place, answers `SearchReply` |
| DifyTool.LevelApproach | draft/mcp-usecase/case2/mcp_server.py:184 | an unknown learning level falls back to the beginner text |
| DifyTool.TimePlan | draft/mcp-usecase/case2/mcp_server.py:185 | an unknown time horizon falls back to the short-term text |
| DifyTool.GuideStartsWithProfile | draft/mcp-usecase/case2/mcp_server.py:212-236 | the prompt opens with the introduction followed by the learner profile |
| DifyTool.GuideFallbacks | draft/mcp-usecase/case2/mcp_server.py:184-222 | the profile names the level and horizon with the beginner and short-term texts when they are unknown; without a topic the prompt asks for overall AI trends under "AI Trends" |
| RagPdf.LoadedDocsAppend | draft/mcp-usecase/case1/rag/pdf.py:34-55 | the loaded documents of a concatenated path list are the concatenation, in input order |
| RagPdf.MissingPathSkipped | draft/mcp-usecase/case1/rag/pdf.py:47-49 | a path that does not exist contributes nothing |
| RagPdf.NothingExistsNothingLoaded | draft/mcp-usecase/case1/rag/pdf.py:45-55 | with no existing path nothing is loaded |
| RagPdf.LoadDocuments | draft/mcp-usecase/case1/rag/pdf.py:34-55 | the extending loop computes `LoadedDocs` |
| RagPdf.VectorstoreDecision | draft/mcp-usecase/case1/rag/pdf.py:70-106 | an empty chunk list raises before the directory is looked at; a configured non-empty directory is reopened without indexing; otherwise exactly the chunks are indexed |
| RagChain.SemanticRetriever.constructor | draft/mcp-usecase/case1/rag/base.py:115-117 | the semantic retriever searches the store with `k` |
| RagChain.EffectiveK | draft/mcp-usecase/case1/rag/base.py:212 | `k or self.k`: a given non-zero `k`, else the chain's own |
| RagChain.RetrievalChain.constructor | draft/mcp-usecase/case1/rag/base.py:32-39 | defaults k 5 and "text-embedding-3-small"; embeddings, store, retrievers and chunks start absent |
| RagChain.RetrievalChain.Initialize | draft/mcp-usecase/case1/rag/base.py:181-192 | no loaded documents change nothing; otherwise the 600/50 chunks are stored and the retrievers built, or the empty-split error raised with the retrievers kept |
| RagChain.RetrievalChain.CreateRetrievers | draft/mcp-usecase/case1/rag/base.py:163-170 | embeddings, then the store, then semantic (k), keyword (BM25, k) and hybrid ([keyword, semantic] at [0.5, 0.5]) |
| RagChain.RetrievalChain.SearchSemantic | draft/mcp-usecase/case1/rag/base.py:209-216 | raises before initialisation; otherwise writes `k or self.k` into the semantic retriever and searches the store with it |
| RagChain.RetrievalChain.SearchKeyword | draft/mcp-usecase/case1/rag/base.py:233-236 | raises before initialisation; otherwise searches with the keyword retriever, ignoring `k` |
| RagChain.RetrievalChain.SearchHybrid | draft/mcp-usecase/case1/rag/base.py:253-256 | raises before initialisation; otherwise searches with the [keyword, semantic] ensemble, ignoring `k` |
| RagChain.RetrievalChain.Search | draft/mcp-usecase/case1/rag/base.py:270 | `search` is the semantic search |
| RagTools.PageInfo | draft/mcp-usecase/case1/mcp_server.py:53-54 | no page gives ""; an int page p gives " (Page: p+1)"; the formatting raises iff the page is a string |
| RagTools.PageShownOneBased | draft/mcp-usecase/case1/mcp_server.py:54 | the digits shown for page p read back as p + 1, so page 0 shows as 1 |
| RagTools.SourceLine | draft/mcp-usecase/case1/mcp_server.py:52 | a missing source is "Unknown source" |
| RagTools.DocSection | draft/mcp-usecase/case1/mcp_server.py:51-59 | the section starts "### Result " with the 1-based position and the page part, then holds exactly the document's `page_content`, then ends with the source line and the rule; it raises iff the page part does |
| RagTools.FormatDocsOkIff | draft/mcp-usecase/case1/mcp_server.py:46-59 | no documents give exactly "No relevant information found."; formatting raises iff some page is a string |
| RagTools.FormatDocsInOrder | draft/mcp-usecase/case1/mcp_server.py:49-59 | the text starts with "## Search Results\n\n" and holds every document's section in order |
| RagTools.FormatSearchResults | draft/mcp-usecase/case1/mcp_server.py:34-61 | the accumulating loop computes `FormatDocs` |
| RagTools.ReplyMarksErrors | draft/mcp-usecase/case1/mcp_server.py:76-80 | a reply starts with "An error occurred during search: " iff the search or the formatting raised, and then carries the error |
| RagTools.Reply | draft/mcp-usecase/case1/mcp_server.py:76-80 | the try/except around a search answers `ToolReply` |
| RagTools.KeywordSearch | draft/mcp-usecase/case1/mcp_server.py:76-80 | the keyword tool ignores `top_k` and reports an uninitialised chain as an error reply |
| RagTools.SemanticSearch | draft/mcp-usecase/case1/mcp_server.py:95-99 | the semantic tool searches with `top_k`, or the chain's `k` when `top_k` is 0 |
| RagTools.HybridSearch | draft/mcp-usecase/case1/mcp_server.py:114-118 | the hybrid tool ignores `top_k` and searches with the ensemble |
| WebTool.TitleLine | draft/mcp-usecase/case4/mcp_server.py:43-51 | "**n.** [title](url)" with "No title" and "" as defaults, and " (Published: d)" iff the date is non-empty |
| WebTool.Entry | draft/mcp-usecase/case4/mcp_server.py:42-57 | the title line and the score line (default 0), then the content quote iff the content is non-empty, else a single newline |
| WebTool.FormatResponseInOrder | draft/mcp-usecase/case4/mcp_server.py:40-57 | after the header every result's entry appears, numbered from 1, in order |
| WebTool.FormatResponseExtras | draft/mcp-usecase/case4/mcp_server.py:59-65 | the answer section and the timing line are written only when truthy |
| WebTool.FormatSearchResults | draft/mcp-usecase/case4/mcp_server.py:25-65 | a missing or empty result list gives "No results found."; the loop computes `FormatResponse` |
| WebTool.ArgsFor | draft/mcp-usecase/case4/mcp_server.py:82-90 | `max_results` is `num_results` when truthy, else 5, with depth "basic" |
| WebTool.WebReplyMarksErrors | draft/mcp-usecase/case4/mcp_server.py:93-94 | a reply starts with the Tavily error prefix iff the client raised, and then carries the error |
| WebTool.SearchWeb | draft/mcp-usecase/case4/mcp_server.py:68-94 | the tool answers `WebReply` of the client's outcome for the defaulted arguments |
| LaunchConfig.Filtered | draft/mcp-usecase/case1/auto_mcp_json.py:26-29 | a required variable is kept iff it is set to a non-empty value, with its value |
| LaunchConfig.FilterEnv | draft/mcp-usecase/case4/auto_mcp_json.py:20-25 | the inserting loop computes `Filtered` |
| LaunchConfig.RagEnvVariables | draft/mcp-usecase/case1/auto_mcp_json.py:8-33 | the filtered variables, then `DEFAULT_TOP_K` applied after them |
| LaunchConfig.RagEnvContents | draft/mcp-usecase/case1/auto_mcp_json.py:18-33 | the OpenAI key iff set non-empty, always `DEFAULT_TOP_K` = "5", nothing else |
| LaunchConfig.WebEnvVariables | draft/mcp-usecase/case4/auto_mcp_json.py:9-25 | the filtered Tavily variable |
| LaunchConfig.WebEnvContents | draft/mcp-usecase/case4/auto_mcp_json.py:14-25 | the Tavily key iff set non-empty, and no other key |
| LaunchConfig.PythonPathInVenv | draft/mcp-usecase/case1/auto_mcp_json.py:51-54 | the interpreter is `.venv/Scripts/python.exe` iff `os.name` is "nt", else `.venv/bin/python`, under the root's parent |
| LaunchConfig.ConfigShape | draft/mcp-usecase/case1/auto_mcp_json.py:60-70 | exactly one server, with the interpreter, the root's `mcp_server.py` as its one argument and the given variables; the file is `mcp_config.json` in the root |
| LaunchConfig.CreateRagMcpJson | draft/mcp-usecase/case1/auto_mcp_json.py:36-78 | the "rag-mcp" configuration with the RAG variables |
| LaunchConfig.CreateWebMcpJson | draft/mcp-usecase/case4/auto_mcp_json.py:28-61 | the "tavily-web-search" configuration with the Tavily variable |
| RagChatPage.FormatDocsLength | draft/Military-Generative-Model/langchain-streamlit/pages/03_EXAONE-3.5-2.4B-RAG.py:88-94 | no documents give ""; the length is the total content length plus 14 characters per document |
| RagChatPage.FormatDocsInOrder | draft/Military-Generative-Model/langchain-streamlit/pages/03_EXAONE-3.5-2.4B-RAG.py:90-93 | every document appears as the marker, its text and three newlines, in order |
| RagChatPage.FormatDocsLoop | draft/Military-Generative-Model/langchain-streamlit/pages/03_EXAONE-3.5-2.4B-RAG.py:88-94 | the accumulating loop computes `FormatDocs` |
| RagChatPage.Visible | draft/Military-Generative-Model/langchain-streamlit/pages/03_EXAONE-3.5-2.4B-RAG.py:131-134 | no system message is shown, and no more messages than the history holds |
| RagChatPage.VisibleSkipsOnlySystem | draft/Military-Generative-Model/langchain-streamlit/pages/03_EXAONE-3.5-2.4B-RAG.py:131-136 | with a single leading system message, exactly the rest is shown |
| RagChatPage.ShowHistory | draft/Military-Generative-Model/langchain-streamlit/pages/03_EXAONE-3.5-2.4B-RAG.py:131-136 | the display loop shows exactly `Visible` of the history |
| RagChatPage.ChatPage.ShownIsConversation | draft/Military-Generative-Model/langchain-streamlit/pages/03_EXAONE-3.5-2.4B-RAG.py:131-136 | a valid history shows everything after its system message |
| RagChatPage.ChatPage.Start | draft/Military-Generative-Model/langchain-streamlit/pages/03_EXAONE-3.5-2.4B-RAG.py:80-81 | without a history, or on reset, the history is exactly [system message]; otherwise it is kept |
| RagChatPage.ChatPage.Ask | draft/Military-Generative-Model/langchain-streamlit/pages/03_EXAONE-3.5-2.4B-RAG.py:140-157 | a non-empty input appends the user message, then the answer for the formatted context of the retrieved documents; when the retriever or the model raises, the user message stays without an answer and the exception is returned; no input keeps the history; every assistant message follows a user message |

## Left out

- Streamlit rendering, widgets, reruns, expanders other than the tool expander's flag, and page configuration are not modelled; only the session fields the logic reads or writes are.
- LLM inference, prompting and streaming (`get_response`, the agent, `get_streaming_callback`) are library calls; their results are parameters.
- Async execution, event loops, timeouts and the MCP client lifecycle are concurrency concerns outside a sequential model.
- HTTP requests (the Dify POST and the Tavily client) are parameters whose outcome is an input.
- JSON parsing of the pasted tool text is a library call; the parsed value is an input, `None` standing for a decode error.
- File-system effects (`config.json` load and save, `json.dump` of the launch config, the backup rename of the Chroma directory) are not modelled; existence and emptiness checks are boolean parameters.
- BM25, ensemble fusion, Chroma, the text splitter, the PDF loader and the embedding models are library code; they appear as uninterpreted values and functions.
- Logging (`print`, `ctx.info`, `ctx.error`, `st.info`) writes only diagnostics and is dropped.
- `{x:.2f}` float formatting is the opaque parameter `fmt2`, and scores are exact reals rather than IEEE floats.
- The absolute-path strings of `auto_mcp_json.py` are modelled as lists of path components; `Path.resolve()` and `str()` of a path are not modelled.
- A dictionary value that is explicitly `None` is treated like a missing key in `WebTool` and `DifyTool` records, which is what `.get(key, default)` does only for missing keys.
- RagTools.PageInfo: a page that is neither an int nor a string (a float or bool) is shown through an opaque `plusOne`, because Python's float arithmetic and rendering are not modelled.
- DifyTool.Section: a score that is not a number (which would make `:.2f` raise) cannot occur, because scores are typed as reals.
- WebTool.FormatSearchResults: exceptions raised inside the formatter on malformed values (non-numeric score or response time) are not modelled, for the same reason.
- DifyTool.SourceText: `os.path.basename` is modelled as the part after the last `/`, without Windows separators.
- `draft/mcp-usecase/case3/mcp_server.py` is a thin HTTP wrapper, and `mcp_server_time.py` depends on the clock and time-zone data; neither is modelled.
- The static `Home.py` pages, the baseline chat page, `config.py` and `rag/__init__.py` hold no logic to model.
