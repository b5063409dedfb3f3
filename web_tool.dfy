/** The web-search MCP server: the Markdown formatter for a Tavily response and the
    `search_web` tool's argument defaulting and error reply. The Tavily client is a
    library call: it appears as the parameter `search`. `{x:.2f}` is `fmt2`. */
module WebTool {
  import opened Wrappers
  import Text
  import Listing

  const NoResults: string := "No results found."
  const ResultsHeader: string := "### Search Results:\n\n"
  const ErrorPrefix: string := "Error occurred during Tavily search: "
  const DefaultNumResults: int := 5

  /** One search result; a missing key (or a `None` value) is `None`. */
  datatype WebResult = WebResult(
    title: Option<string>,
    url: Option<string>,
    publishedDate: Option<string>,
    content: Option<string>,
    score: Option<real>)

  /** The response dict: its results, the generated answer and the response time. */
  datatype Response = Response(results: Option<seq<WebResult>>, answer: Option<string>, responseTime: Option<real>)

  /** Python truthiness of an optional string: present and non-empty. */
  predicate Truthy(s: Option<string>) {
    s.Some? && s.value != ""
  }

  /** The title line of the result numbered `n`: its number, its title as a link to
      its URL, and the publication date only when there is one. */
  function TitleLine(n: nat, r: WebResult): (line: string)
    ensures Text.StartsWith(line, "**" + Text.NatToString(n) + ".** [" + r.title.GetOr("No title") + "](" + r.url.GetOr("") + ")")
    ensures Truthy(r.publishedDate) ==> Text.EndsWith(line, ") (Published: " + r.publishedDate.value + ")\n")
    ensures !Truthy(r.publishedDate) ==> Text.EndsWith(line, r.url.GetOr("") + ")\n")
  {
    var head := "**" + Text.NatToString(n) + ".** [" + r.title.GetOr("No title") + "](";
    var url := r.url.GetOr("");
    var link := head + url + ")";
    var date := if Truthy(r.publishedDate) then " (Published: " + r.publishedDate.value + ")" else "";
    var line := link + date + "\n";
    Text.AppendAssoc(link, date, "\n");
    Text.PrefixOfAppend(link, date + "\n");
    if Truthy(r.publishedDate) then
      var tail := ") (Published: " + r.publishedDate.value + ")\n";
      assert line == (head + url) + tail;
      Text.SuffixOfAppend(head + url, tail);
      line
    else
      Text.AppendAssoc(head, url, ")");
      Text.AppendAssoc(head, url + ")", "\n");
      Text.SuffixOfAppend(head, url + ")\n");
      line
  }

  /** The entry of the result at 0-based position `i`: the title line numbered
      `i + 1` and the score line, then the content quote, or a lone newline when
      there is no content. */
  function Entry(i: nat, r: WebResult, fmt2: real -> string): (e: string)
    ensures var head := TitleLine(i + 1, r) + "**Relevance Score:** " + fmt2(r.score.GetOr(0.0)) + "\n";
      && (Truthy(r.content) ==> e == head + "> **Content:** " + r.content.value + "\n\n")
      && (!Truthy(r.content) ==> e == head + "\n")
  {
    var head := TitleLine(i + 1, r) + "**Relevance Score:** " + fmt2(r.score.GetOr(0.0)) + "\n";
    if Truthy(r.content) then
      Text.AppendAssoc(head, "> **Content:** " + r.content.value, "\n\n");
      head + ("> **Content:** " + r.content.value + "\n\n")
    else head + "\n"
  }

  /** `Entry` with the formatter bound in. */
  function EntryOf(fmt2: real -> string): (nat, WebResult) -> string {
    (i: nat, r: WebResult) => Entry(i, r, fmt2)
  }

  /** The answer section, written only for a non-empty answer. */
  function AnswerSection(answer: Option<string>): string {
    if Truthy(answer) then "\n### Answer:\n" + answer.value + "\n\n" else ""
  }

  /** The timing line, written only for a non-zero response time. */
  function TimingLine(responseTime: Option<real>, fmt2: real -> string): string {
    if responseTime.Some? && responseTime.value != 0.0 then "\n*Search completed in " + fmt2(responseTime.value) + " seconds*"
    else ""
  }

  /** What `format_search_results` returns: "No results found." for a missing or
      empty result list, otherwise the header, one entry per result, and the answer
      and timing parts. */
  function FormatResponse(resp: Response, fmt2: real -> string): string {
    var rs := resp.results.GetOr([]);
    if rs == [] then NoResults
    else
      ResultsHeader + Listing.Pieces(rs, EntryOf(fmt2)) + AnswerSection(resp.answer)
      + TimingLine(resp.responseTime, fmt2)
  }

  /** A formatted response holds the entry of every result, numbered from 1, in
      order, after the header. */
  lemma FormatResponseInOrder(resp: Response, fmt2: real -> string, i: nat)
    requires resp.results.Some? && i < |resp.results.value|
    ensures var rs := resp.results.value;
      Text.StartsWith(FormatResponse(resp, fmt2), ResultsHeader + Listing.Pieces(rs[..i], EntryOf(fmt2)) + Entry(i, rs[i], fmt2))
  {
    var rs := resp.results.value;
    var part := EntryOf(fmt2);
    Listing.PiecesInOrder(rs, part, i);
    var body := Listing.Pieces(rs, part);
    var prefix := Listing.Pieces(rs[..i], part) + Entry(i, rs[i], fmt2);
    var extras := AnswerSection(resp.answer) + TimingLine(resp.responseTime, fmt2);
    Text.AppendAssoc(ResultsHeader, body, AnswerSection(resp.answer));
    Text.AppendAssoc(ResultsHeader + body, AnswerSection(resp.answer), TimingLine(resp.responseTime, fmt2));
    Text.AppendAssoc(ResultsHeader, body, extras);
    Text.StartsWithAppend(body, extras, prefix);
    Text.AppendAssoc(ResultsHeader, Listing.Pieces(rs[..i], part), Entry(i, rs[i], fmt2));
    assert (ResultsHeader + (body + extras))[..|ResultsHeader + prefix|] == ResultsHeader + (body + extras)[..|prefix|];
  }

  /** The answer and the timing are written only when they are truthy: with
      neither, the text ends with the entries; a timing line ends the text when
      there is a response time; otherwise an answer section does. */
  lemma FormatResponseExtras(resp: Response, fmt2: real -> string)
    requires resp.results.Some? && resp.results.value != []
    ensures var text := FormatResponse(resp, fmt2);
      var entries := ResultsHeader + Listing.Pieces(resp.results.value, EntryOf(fmt2));
      && (!Truthy(resp.answer) && (resp.responseTime.None? || resp.responseTime.value == 0.0) ==> text == entries)
      && (resp.responseTime.Some? && resp.responseTime.value != 0.0 ==> Text.EndsWith(text, " seconds*"))
      && (Truthy(resp.answer) && (resp.responseTime.None? || resp.responseTime.value == 0.0) ==>
            Text.EndsWith(text, "\n### Answer:\n" + resp.answer.value + "\n\n"))
  {
    var entries := ResultsHeader + Listing.Pieces(resp.results.value, EntryOf(fmt2));
    var answer := AnswerSection(resp.answer);
    var timing := TimingLine(resp.responseTime, fmt2);
    assert FormatResponse(resp, fmt2) == entries + answer + timing;
    if timing != "" {
      var pre := "\n*Search completed in " + fmt2(resp.responseTime.value);
      Text.AppendAssoc(entries + answer, pre, " seconds*");
      Text.SuffixOfAppend(entries + answer + pre, " seconds*");
    } else {
      Text.SuffixOfAppend(entries, answer);
    }
  }

  /** The formatting loop, then the optional answer and timing parts. */
  method FormatSearchResults(resp: Response, fmt2: real -> string) returns (text: string)
    ensures text == FormatResponse(resp, fmt2)
  {
    var rs := resp.results.GetOr([]);
    if rs == [] {
      return NoResults;
    }
    var part := EntryOf(fmt2);
    text := ResultsHeader;
    for i := 0 to |rs|
      invariant text == ResultsHeader + Listing.Pieces(rs[..i], part)
    {
      var entry := Entry(i, rs[i], fmt2);
      Listing.PiecesStep(rs, part, i);
      Text.AppendAssoc(ResultsHeader, Listing.Pieces(rs[..i], part), entry);
      text := text + entry;
    }
    assert rs[..|rs|] == rs;
    var entries := text;
    if Truthy(resp.answer) {
      text := text + ("\n### Answer:\n" + resp.answer.value + "\n\n");
    }
    assert text == entries + AnswerSection(resp.answer);
    if resp.responseTime.Some? && resp.responseTime.value != 0.0 {
      text := text + ("\n*Search completed in " + fmt2(resp.responseTime.value) + " seconds*");
    }
  }

  /** The arguments `search_web` passes to the client. */
  datatype SearchArgs = SearchArgs(query: string, maxResults: int, searchDepth: string)

  /** `num_results or 5`, with the "basic" depth. */
  function ArgsFor(query: string, numResults: Option<int>): (a: SearchArgs)
    ensures a.query == query && a.searchDepth == "basic"
    ensures numResults.None? || numResults.value == 0 ==> a.maxResults == DefaultNumResults
    ensures numResults.Some? && numResults.value != 0 ==> a.maxResults == numResults.value
  {
    var n := if numResults.Some? && numResults.value != 0 then numResults.value else DefaultNumResults;
    SearchArgs(query, n, "basic")
  }

  /** The reply of `search_web` to what the client returned or raised. */
  function WebReply(outcome: Result<Response>, fmt2: real -> string): string {
    if outcome.Err? then ErrorPrefix + outcome.error else FormatResponse(outcome.value, fmt2)
  }

  /** A reply is an error message exactly when the client raised, and then it
      carries the error's text. */
  lemma WebReplyMarksErrors(outcome: Result<Response>, fmt2: real -> string)
    ensures Text.StartsWith(WebReply(outcome, fmt2), ErrorPrefix) <==> outcome.Err?
    ensures outcome.Err? ==> WebReply(outcome, fmt2) == ErrorPrefix + outcome.error
  {
    var reply := WebReply(outcome, fmt2);
    if outcome.Err? {
      assert reply[..|ErrorPrefix|] == ErrorPrefix;
    } else if outcome.value.results.GetOr([]) == [] {
      assert reply[0] != ErrorPrefix[0];
    } else {
      assert reply[0] == ResultsHeader[0] != ErrorPrefix[0];
    }
  }

  /** `search_web`: ask the client with the defaulted arguments and format its
      response, or report what it raised. */
  method SearchWeb(query: string, numResults: Option<int>, search: SearchArgs -> Result<Response>, fmt2: real -> string)
    returns (reply: string)
    ensures reply == WebReply(search(ArgsFor(query, numResults)), fmt2)
  {
    var maxResults := if numResults.Some? && numResults.value != 0 then numResults.value else DefaultNumResults;
    var outcome := search(SearchArgs(query, maxResults, "basic"));
    if outcome.Err? {
      return ErrorPrefix + outcome.error;
    }
    reply := FormatSearchResults(outcome.value, fmt2);
  }
}
