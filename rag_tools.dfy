/** The tools of the PDF RAG MCP server: the Markdown formatter for the documents a
    search returns, and the keyword, semantic and hybrid search tools, which turn
    whatever the search or the formatting raises into an error reply.
    `str()` of a TypeError is the parameter `typeError`; `page + 1` on a metadata
    value that is neither an int nor a string (a float or a bool) is `plusOne`. */
module RagTools {
  import opened Wrappers
  import opened Values
  import Text
  import Listing
  import RagChain

  const NoInformation: string := "No relevant information found."
  const ResultsHeader: string := "## Search Results\n\n"
  const ErrorPrefix: string := "An error occurred during search: "

  /** The page part of a section title: empty without a "page" entry, else the page
      plus one in parentheses; adding one to a string raises. */
  function PageInfo(m: Metadata, typeError: Value -> string, plusOne: string -> string): (r: Result<string>)
    ensures "page" !in m ==> r == Ok("")
    ensures "page" in m && m["page"].Int? ==> r == Ok(" (Page: " + Text.IntToString(m["page"].i + 1) + ")")
    ensures r.Err? <==> "page" in m && m["page"].Str?
  {
    if "page" !in m then Ok("")
    else
      match m["page"]
      case Int(p) => Ok(" (Page: " + Text.IntToString(p + 1) + ")")
      case Str(_) => Err(typeError(m["page"]))
      case Other(t) => Ok(" (Page: " + plusOne(t) + ")")
  }

  /** Pages are numbered from 0 in the metadata and shown from 1: the digits shown
      for page `p` read back as `p + 1`, so page 0 shows as 1. */
  lemma PageShownOneBased(m: Metadata, typeError: Value -> string, plusOne: string -> string, p: nat)
    requires "page" in m && m["page"] == Int(p)
    ensures var info := PageInfo(m, typeError, plusOne);
      info.Ok? && info.value == " (Page: " + Text.NatToString(p + 1) + ")"
    ensures Text.DigitsValue(Text.NatToString(p + 1)) == p + 1
    ensures p == 0 ==> PageInfo(m, typeError, plusOne) == Ok(" (Page: 1)")
  {
    Text.NatToStringRoundTrip(p + 1);
    if p == 0 {
      assert Text.NatToString(1) == "1";
      assert " (Page: " + "1" + ")" == " (Page: 1)";
    }
  }

  /** The source line: the metadata "source", or "Unknown source". */
  function SourceLine(m: Metadata): (r: string)
    ensures "source" !in m ==> r == "Source: Unknown source"
    ensures "source" in m && m["source"].Str? ==> r == "Source: " + m["source"].s
  {
    "Source: " + Show(GetOr(m, "source", Str("Unknown source")))
  }

  /** The section of the document at 0-based position `i`: it is titled
      "### Result " and the 1-based position with the page part, then come the
      content and the source line, and it ends with a rule. */
  function DocSection(i: nat, d: Doc, typeError: Value -> string, plusOne: string -> string): (s: Result<string>)
    ensures s.Err? <==> PageInfo(d.metadata, typeError, plusOne).Err?
    ensures s.Ok? ==>
      Text.StartsWith(s.value, "### Result " + Text.NatToString(i + 1) + PageInfo(d.metadata, typeError, plusOne).value + "\n\n")
    ensures s.Ok? ==> Text.EndsWith(s.value, "\n\n" + SourceLine(d.metadata) + "\n\n---\n\n")
    ensures s.Ok? ==>
      var head := "### Result " + Text.NatToString(i + 1) + PageInfo(d.metadata, typeError, plusOne).value + "\n\n";
      var tail := "\n\n" + SourceLine(d.metadata) + "\n\n---\n\n";
      |head| + |tail| <= |s.value| && s.value[|head|..|s.value| - |tail|] == d.content
  {
    var page := PageInfo(d.metadata, typeError, plusOne);
    if page.Err? then Err(page.error)
    else
      var head := "### Result " + Text.NatToString(i + 1) + page.value + "\n\n";
      var tail := "\n\n" + SourceLine(d.metadata) + "\n\n---\n\n";
      var s := head + d.content + tail;
      assert s[..|head|] == head;
      assert s[|s| - |tail|..] == tail;
      assert s[|head|..|s| - |tail|] == d.content;
      Ok(s)
  }

  /** `DocSection` with the helpers bound in. */
  function SectionOf(typeError: Value -> string, plusOne: string -> string): (nat, Doc) -> Result<string> {
    (i: nat, d: Doc) => DocSection(i, d, typeError, plusOne)
  }

  /** What `format_search_results` returns: "No relevant information found." for no
      documents, otherwise the header and one section per document, or the first
      section's error. */
  function FormatDocs(docs: seq<Doc>, typeError: Value -> string, plusOne: string -> string): Result<string> {
    if docs == [] then Ok(NoInformation)
    else
      var body := Listing.Concat(docs, SectionOf(typeError, plusOne));
      if body.Err? then body else Ok(ResultsHeader + body.value)
  }

  /** No documents give exactly "No relevant information found.", and formatting
      fails exactly when some document's page is a string. */
  lemma FormatDocsOkIff(docs: seq<Doc>, typeError: Value -> string, plusOne: string -> string)
    ensures docs == [] ==> FormatDocs(docs, typeError, plusOne) == Ok(NoInformation)
    ensures FormatDocs(docs, typeError, plusOne).Err? <==>
      exists j :: 0 <= j < |docs| && "page" in docs[j].metadata && docs[j].metadata["page"].Str?
  {
    var part := SectionOf(typeError, plusOne);
    Listing.ConcatOkIff(docs, part);
    assert forall j :: 0 <= j < |docs| ==> part(j, docs[j]) == DocSection(j, docs[j], typeError, plusOne);
  }

  /** A formatted list starts with the header and holds the section of every
      document, in order. */
  lemma FormatDocsInOrder(docs: seq<Doc>, typeError: Value -> string, plusOne: string -> string, i: nat)
    requires i < |docs| && FormatDocs(docs, typeError, plusOne).Ok?
    ensures var before := Listing.Concat(docs[..i], SectionOf(typeError, plusOne));
      var section := DocSection(i, docs[i], typeError, plusOne);
      && before.Ok? && section.Ok?
      && Text.StartsWith(FormatDocs(docs, typeError, plusOne).value, ResultsHeader + before.value + section.value)
  {
    var part := SectionOf(typeError, plusOne);
    Listing.ConcatInOrder(docs, part, i);
    var body := Listing.Concat(docs, part).value;
    var prefix := Listing.Concat(docs[..i], part).value + part(i, docs[i]).value;
    assert (ResultsHeader + body)[..|ResultsHeader + prefix|] == ResultsHeader + body[..|prefix|];
    Text.AppendAssoc(ResultsHeader, Listing.Concat(docs[..i], part).value, part(i, docs[i]).value);
  }

  /** The formatting loop: the text starts as the header and gains one section per
      document, numbered from 1. */
  method FormatSearchResults(docs: seq<Doc>, typeError: Value -> string, plusOne: string -> string)
    returns (r: Result<string>)
    ensures r == FormatDocs(docs, typeError, plusOne)
  {
    if docs == [] {
      return Ok(NoInformation);
    }
    var part := SectionOf(typeError, plusOne);
    var text := ResultsHeader;
    for i := 0 to |docs|
      invariant Listing.Concat(docs[..i], part).Ok?
      invariant text == ResultsHeader + Listing.Concat(docs[..i], part).value
    {
      var section := DocSection(i, docs[i], typeError, plusOne);
      Listing.ConcatStep(docs, part, i);
      if section.Err? {
        Listing.ConcatErrorPersists(docs, part, i + 1);
        return section;
      }
      Text.AppendAssoc(ResultsHeader, Listing.Concat(docs[..i], part).value, section.value);
      text := text + section.value;
    }
    assert docs[..|docs|] == docs;
    return Ok(text);
  }

  /** The reply of a tool: the formatted documents, or the error message of what the
      search or the formatting raised. */
  function ToolReply(found: Result<seq<Doc>>, typeError: Value -> string, plusOne: string -> string): string {
    if found.Err? then ErrorPrefix + found.error
    else
      var text := FormatDocs(found.value, typeError, plusOne);
      if text.Err? then ErrorPrefix + text.error else text.value
  }

  /** A reply is an error message exactly when the search or the formatting raised,
      and then it carries that error's text: the tools never raise. */
  lemma ReplyMarksErrors(found: Result<seq<Doc>>, typeError: Value -> string, plusOne: string -> string)
    ensures var reply := ToolReply(found, typeError, plusOne);
      Text.StartsWith(reply, ErrorPrefix) <==> found.Err? || FormatDocs(found.value, typeError, plusOne).Err?
    ensures found.Err? ==> ToolReply(found, typeError, plusOne) == ErrorPrefix + found.error
  {
    var reply := ToolReply(found, typeError, plusOne);
    if found.Err? || FormatDocs(found.value, typeError, plusOne).Err? {
      assert reply[..|ErrorPrefix|] == ErrorPrefix;
    } else if found.value == [] {
      assert reply[0] != ErrorPrefix[0];
    } else {
      assert reply[0] == ResultsHeader[0] != ErrorPrefix[0];
    }
  }

  /** `keyword_search`: the keyword search of the chain, whose `top_k` is ignored. */
  method KeywordSearch(chain: RagChain.RetrievalChain, query: string, topK: int,
                       search: (RagChain.Retriever, string) -> Result<seq<Doc>>,
                       typeError: Value -> string, plusOne: string -> string)
    returns (reply: string)
    requires chain.Valid()
    ensures chain.retrievers.None? ==> reply == ErrorPrefix + RagChain.NotInitialised
    ensures chain.retrievers.Some? ==> reply == ToolReply(search(chain.retrievers.value.keyword, query), typeError, plusOne)
  {
    var found := chain.SearchKeyword(query, Some(topK), search);
    reply := Reply(found, typeError, plusOne);
  }

  /** `semantic_search`: the semantic search of the chain with `top_k`, or the
      chain's own `k` when `top_k` is 0. */
  method SemanticSearch(chain: RagChain.RetrievalChain, query: string, topK: int,
                        search: (RagChain.Retriever, string) -> Result<seq<Doc>>,
                        typeError: Value -> string, plusOne: string -> string)
    returns (reply: string)
    requires chain.Valid()
    modifies if chain.retrievers.Some? then {chain.retrievers.value.semantic} else {}
    ensures chain.retrievers.None? ==> reply == ErrorPrefix + RagChain.NotInitialised
    ensures chain.retrievers.Some? ==>
      var used := if topK != 0 then topK else chain.k;
      chain.retrievers.value.semantic.k == used
      && reply == ToolReply(search(RagChain.Dense(chain.vectorstore.value, used), query), typeError, plusOne)
  {
    var found := chain.SearchSemantic(query, Some(topK), search);
    reply := Reply(found, typeError, plusOne);
  }

  /** `hybrid_search`: the hybrid search of the chain, whose `top_k` is ignored. */
  method HybridSearch(chain: RagChain.RetrievalChain, query: string, topK: int,
                      search: (RagChain.Retriever, string) -> Result<seq<Doc>>,
                      typeError: Value -> string, plusOne: string -> string)
    returns (reply: string)
    requires chain.Valid()
    ensures chain.retrievers.None? ==> reply == ErrorPrefix + RagChain.NotInitialised
    ensures chain.retrievers.Some? ==>
      reply == ToolReply(search(RagChain.Ensemble([chain.retrievers.value.keyword,
                                                   RagChain.Dense(chain.vectorstore.value, chain.k)], [0.5, 0.5]), query),
                         typeError, plusOne)
  {
    var found := chain.SearchHybrid(query, Some(topK), search);
    reply := Reply(found, typeError, plusOne);
  }

  /** The `try`/`except` around a search: format what was found, or report the error. */
  method Reply(found: Result<seq<Doc>>, typeError: Value -> string, plusOne: string -> string) returns (reply: string)
    ensures reply == ToolReply(found, typeError, plusOne)
  {
    if found.Err? {
      return ErrorPrefix + found.error;
    }
    var text := FormatSearchResults(found.value, typeError, plusOne);
    if text.Err? {
      return ErrorPrefix + text.error;
    }
    return text.value;
  }
}
