/** The MCP tool in front of the Dify external-knowledge server: the Markdown
    formatter for its records, the `dify_ek_search` tool (input checks, clamping, and
    the text of each failure), and the `ai_trend_learning_guide` prompt.
    The HTTP call and JSON decoding are library calls: the tool receives what the
    POST produced as a value. `{x:.2f}` is the parameter `fmt2`. */
module DifyTool {
  import opened Wrappers
  import opened Values
  import Text
  import Listing
  import DifyServer

  /* ---------- format_search_results ---------- */

  const ResultsHeader: string := "# Search Results\n\n"
  const ResultsFooter: string := "This information was retrieved via the Dify External Knowledge API."
  const NoResults: string := "No search results found."

  /** The value `os.path.basename` is given for the "File:" part: the metadata
      "title", else the metadata "path". */
  function FileValue(m: Metadata): Option<Value> {
    if "title" in m then Some(m["title"]) else if "path" in m then Some(m["path"]) else None
  }

  /** "File: <name>" and "Page: <page>", those that are present, joined by " | ", or
      "No source information" when neither is. */
  function SourceLine(fileName: Option<string>, page: Option<string>): (r: string)
    ensures fileName.Some? && page.Some? ==> r == ("File: " + fileName.value) + " | " + ("Page: " + page.value)
    ensures fileName.Some? && page.None? ==> r == "File: " + fileName.value
    ensures fileName.None? && page.Some? ==> r == "Page: " + page.value
    ensures fileName.None? && page.None? ==> r == "No source information"
  {
    var parts := (if fileName.Some? then ["File: " + fileName.value] else [])
                 + (if page.Some? then ["Page: " + page.value] else []);
    if fileName.Some? && page.Some? then
      assert parts == ["File: " + fileName.value, "Page: " + page.value];
      Text.JoinTwo("File: " + fileName.value, "Page: " + page.value, " | ");
      Text.Join(parts, " | ")
    else if parts == [] then "No source information"
    else
      assert |parts| == 1;
      Text.Join(parts, " | ")
  }

  /** The source line of a record: the basename of the file value and the page; `Err`
      carries the TypeError text when the file value is not a string. */
  function SourceText(m: Metadata, typeError: Value -> string): (r: Result<string>)
    ensures r.Err? <==> FileValue(m).Some? && !FileValue(m).value.Str?
  {
    var file := FileValue(m);
    if file.Some? && !file.value.Str? then Err(typeError(file.value))
    else
      var fileName := if file.Some? then Some(Text.Basename(file.value.s)) else None;
      Ok(SourceLine(fileName, if "page" in m then Some(Show(m["page"])) else None))
  }

  /** The source line prefers the basename of the "title" metadata over that of the
      "path" metadata, and a page follows after " | ". */
  lemma SourceTextPreference(m: Metadata, typeError: Value -> string)
    ensures "title" in m && m["title"].Str? && "page" !in m ==>
      SourceText(m, typeError) == Ok("File: " + Text.Basename(m["title"].s))
    ensures "title" !in m && "path" in m && m["path"].Str? && "page" !in m ==>
      SourceText(m, typeError) == Ok("File: " + Text.Basename(m["path"].s))
    ensures "title" in m && m["title"].Str? && "page" in m ==>
      SourceText(m, typeError) == Ok(("File: " + Text.Basename(m["title"].s)) + " | " + ("Page: " + Show(m["page"])))
    ensures "title" !in m && "path" !in m && "page" in m ==>
      SourceText(m, typeError) == Ok("Page: " + Show(m["page"]))
    ensures "title" !in m && "path" !in m && "page" !in m ==>
      SourceText(m, typeError) == Ok("No source information")
  {
    var page := if "page" in m then Some(Show(m["page"])) else None;
    if "title" in m && m["title"].Str? {
      assert SourceText(m, typeError) == Ok(SourceLine(Some(Text.Basename(m["title"].s)), page));
    } else if "title" !in m && "path" in m && m["path"].Str? {
      assert SourceText(m, typeError) == Ok(SourceLine(Some(Text.Basename(m["path"].s)), page));
    } else if "title" !in m && "path" !in m {
      assert SourceText(m, typeError) == Ok(SourceLine(None, page));
    }
  }

  /** The heading title of the record at 0-based position `i`: its "title", else
      "Result {i+1}". */
  function SectionTitle(i: nat, r: Record): (t: string)
    ensures r.title.None? ==> t == "Result " + Text.NatToString(i + 1)
    ensures r.title.Some? ==> t == Show(r.title.value)
  {
    Show(r.title.GetOr(Str("Result " + Text.NatToString(i + 1))))
  }

  /** The Markdown section of the record at position `i`. */
  function Section(i: nat, r: Record, fmt2: real -> string, typeError: Value -> string): (s: Result<string>)
    ensures s.Ok? ==> Text.StartsWith(s.value, "## " + SectionTitle(i, r) + " (Relevance: ")
    ensures s.Ok? ==> Text.EndsWith(s.value, "---\n\n")
    ensures s.Err? <==> SourceText(r.metadata.GetOr(map[]), typeError).Err?
    ensures s.Ok? ==>
      var head := "## " + SectionTitle(i, r) + " (Relevance: ";
      |head| + |"---\n\n"| <= |s.value|
      && s.value[|head|..|s.value| - |"---\n\n"|]
         == fmt2(r.score.GetOr(0.0)) + ")\n" + SourceText(r.metadata.GetOr(map[]), typeError).value + "\n\n"
            + r.content.GetOr("") + "\n\n"
  {
    var source := SourceText(r.metadata.GetOr(map[]), typeError);
    if source.Err? then Err(source.error)
    else
      var head := "## " + SectionTitle(i, r) + " (Relevance: ";
      var body := fmt2(r.score.GetOr(0.0)) + ")\n" + source.value + "\n\n" + r.content.GetOr("") + "\n\n";
      Text.AppendAssoc(head, body, "---\n\n");
      Text.PrefixOfAppend(head, body + "---\n\n");
      Text.SuffixOfAppend(head + body, "---\n\n");
      assert (head + body + "---\n\n")[|head|..|head| + |body|] == body;
      Ok(head + body + "---\n\n")
  }

  /** `Section` with the formatting helpers bound in. */
  function SectionOf(fmt2: real -> string, typeError: Value -> string): (nat, Record) -> Result<string> {
    (i: nat, r: Record) => Section(i, r, fmt2, typeError)
  }

  /** The sections of the records in order, or the first record's error. */
  function Sections(records: seq<Record>, fmt2: real -> string, typeError: Value -> string): Result<string> {
    Listing.Concat(records, SectionOf(fmt2, typeError))
  }

  /** What `format_search_results` returns for the "records" entry of the body. */
  function FormatResults(records: Option<seq<Record>>, fmt2: real -> string, typeError: Value -> string): Result<string> {
    var rs := records.GetOr([]);
    if rs == [] then Ok(NoResults)
    else
      var body := Sections(rs, fmt2, typeError);
      if body.Err? then body else Ok(ResultsHeader + body.value + ResultsFooter)
  }

  /** Formatting fails exactly when the source line of some record fails, that is
      when its file value is not a string. */
  lemma SectionsOkIff(records: seq<Record>, fmt2: real -> string, typeError: Value -> string)
    ensures Sections(records, fmt2, typeError).Ok? <==>
      forall j :: 0 <= j < |records| ==> SourceText(records[j].metadata.GetOr(map[]), typeError).Ok?
  {
    Listing.ConcatOkIff(records, SectionOf(fmt2, typeError));
    assert forall j :: 0 <= j < |records| ==>
      SectionOf(fmt2, typeError)(j, records[j]) == Section(j, records[j], fmt2, typeError);
  }

  /** When formatting succeeds, the sections of the records before position `i` are
      followed by the section of the record at `i`, titled by the record or by its
      1-based position: every record has its section, in order. */
  lemma SectionsInOrder(records: seq<Record>, fmt2: real -> string, typeError: Value -> string, i: nat)
    requires i < |records| && Sections(records, fmt2, typeError).Ok?
    ensures Sections(records[..i], fmt2, typeError).Ok?
    ensures Section(i, records[i], fmt2, typeError).Ok?
    ensures Text.StartsWith(Sections(records, fmt2, typeError).value,
              Sections(records[..i], fmt2, typeError).value + Section(i, records[i], fmt2, typeError).value)
  {
    Listing.ConcatInOrder(records, SectionOf(fmt2, typeError), i);
  }

  /** An empty or missing record list gives exactly "No search results found.";
      otherwise the text is the header, the sections, and the Dify footer. */
  lemma FormatResultsLayout(records: Option<seq<Record>>, fmt2: real -> string, typeError: Value -> string)
    ensures records.None? || records.value == [] ==> FormatResults(records, fmt2, typeError) == Ok(NoResults)
    ensures records.Some? && records.value != [] && FormatResults(records, fmt2, typeError).Ok? ==>
      var text := FormatResults(records, fmt2, typeError).value;
      Text.StartsWith(text, ResultsHeader) && Text.EndsWith(text, ResultsFooter)
  {
    if records.Some? && records.value != [] && FormatResults(records, fmt2, typeError).Ok? {
      var body := Sections(records.value, fmt2, typeError).value;
      var text := ResultsHeader + body + ResultsFooter;
      assert text[..|ResultsHeader|] == ResultsHeader;
      assert text[|text| - |ResultsFooter|..] == ResultsFooter;
    }
  }

  /** The formatting loop: the accumulated text starts as the header and gains one
      section per record; a TypeError from `os.path.basename` ends it. */
  method FormatSearchResults(records: Option<seq<Record>>, fmt2: real -> string, typeError: Value -> string)
    returns (r: Result<string>)
    ensures r == FormatResults(records, fmt2, typeError)
  {
    var rs := records.GetOr([]);
    if rs == [] {
      return Ok(NoResults);
    }
    var part := SectionOf(fmt2, typeError);
    var text := ResultsHeader;
    var i := 0;
    while i < |rs|
      invariant 0 <= i <= |rs|
      invariant Listing.Concat(rs[..i], part).Ok?
      invariant text == ResultsHeader + Listing.Concat(rs[..i], part).value
    {
      var section := Section(i, rs[i], fmt2, typeError);
      Listing.ConcatStep(rs, part, i);
      if section.Err? {
        Listing.ConcatErrorPersists(rs, part, i + 1);
        return section;
      }
      Text.AppendAssoc(ResultsHeader, Listing.Concat(rs[..i], part).value, section.value);
      text := text + section.value;
      i := i + 1;
    }
    assert rs[..i] == rs;
    return Ok(text + ResultsFooter);
  }

  /* ---------- dify_ek_search ---------- */

  /** The settings read from the environment, with their defaults. */
  datatype Settings = Settings(endpoint: string, apiKey: string, knowledgeId: string)

  function SettingsFrom(env: map<string, string>): (s: Settings)
    ensures "DIFY_API_KEY" !in env ==> s.apiKey == DifyServer.ApiKey
    ensures "DIFY_KNOWLEDGE_ID" !in env ==> s.knowledgeId == DifyServer.KnowledgeId
  {
    Settings(
      if "DIFY_API_ENDPOINT" in env then env["DIFY_API_ENDPOINT"] else "http://localhost:8000/retrieval",
      if "DIFY_API_KEY" in env then env["DIFY_API_KEY"] else "dify-external-knowledge-api-key",
      if "DIFY_KNOWLEDGE_ID" in env then env["DIFY_KNOWLEDGE_ID"] else "test-knowledge-base")
  }

  /** The `Authorization` header the tool sends. */
  function AuthHeader(s: Settings): string {
    "Bearer " + s.apiKey
  }

  /** With the default key on both sides, the server accepts the header the tool
      sends. */
  lemma DefaultKeyAccepted(env: map<string, string>)
    requires "DIFY_API_KEY" !in env
    ensures DifyServer.VerifyApiKey(AuthHeader(SettingsFrom(env))) == DifyServer.Authorized(DifyServer.ApiKey)
  {
    assert forall i :: 0 <= i < |DifyServer.ApiKey| ==> DifyServer.ApiKey[i] != 'B';
    DifyServer.SingleBearerHeader(DifyServer.ApiKey);
  }

  /** The POST: endpoint, header and JSON body. */
  datatype Post = Post(endpoint: string, authorization: string, body: DifyServer.Request)

  /** The response body as `response.json()` reads it. */
  datatype Body =
    | NotJson                                               // json() raises
    | JsonDict(records: Option<seq<Record>>, errorMsg: Option<Value>)
    | JsonOther(getError: string)                           // not a dict: `.get` raises with this text

  /** What the POST produced: an httpx request error, another exception, or a response. */
  datatype HttpOutcome =
    | RequestError(error: string)
    | OtherError(error: string)
    | Answered(status: int, body: Body, text: string)

  /** `top_k` brought into [1, 20]. */
  function ClampTopK(k: int): (r: int)
    ensures 1 <= r <= 20
    ensures 1 <= k <= 20 ==> r == k
    ensures k < 1 ==> r == 1
    ensures k > 20 ==> r == 20
  {
    if k < 1 then 1 else if k > 20 then 20 else k
  }

  /** `score_threshold` brought into [0, 1]. */
  function ClampThreshold(t: real): (r: real)
    ensures 0.0 <= r <= 1.0
    ensures 0.0 <= t <= 1.0 ==> r == t
    ensures t < 0.0 ==> r == 0.0
    ensures t > 1.0 ==> r == 1.0
  {
    if t < 0.0 then 0.0 else if t > 1.0 then 1.0 else t
  }

  /** The message for a non-200 status: the status code, then " - " and the body's
      "error_msg" when it is a dict holding one, or " - " and the first 100
      characters of the raw text when the body is not JSON. */
  function HttpErrorMessage(status: int, body: Body, text: string): (m: string)
    ensures Text.StartsWith(m, "Dify API error: HTTP " + Text.IntToString(status))
    ensures var base := "Dify API error: HTTP " + Text.IntToString(status);
      && (body.NotJson? ==> m == base + " - " + SliceTo(text, 100))
      && (body.JsonDict? && body.errorMsg.Some? ==> m == base + " - " + Show(body.errorMsg.value))
      && (body.JsonOther? || (body.JsonDict? && body.errorMsg.None?) ==> m == base)
  {
    var base := "Dify API error: HTTP " + Text.IntToString(status);
    var m :=
      match body
      case NotJson => base + " - " + SliceTo(text, 100)
      case JsonDict(_, Some(e)) => base + " - " + Show(e)
      case _ => base;
    assert m[..|base|] == base;
    m
  }

  /** The message after "Search failed" for a failed POST, an error status, an
      unreadable body or a formatting error; `None` when the results format. */
  function Failure(outcome: HttpOutcome, fmt2: real -> string, typeError: Value -> string): (r: Option<string>)
    ensures r.None? <==>
      outcome.Answered? && outcome.status == 200 && outcome.body.JsonDict?
      && FormatResults(outcome.body.records, fmt2, typeError).Ok?
  {
    match outcome
    case RequestError(e) => Some("API request error: " + e)
    case OtherError(e) => Some("Unexpected error: " + e)
    case Answered(status, body, text) =>
      if status != 200 then Some(HttpErrorMessage(status, body, text))
      else
        match body
        case NotJson => Some("Could not parse API response.")
        case JsonOther(e) => Some("Unexpected error: " + e)
        case JsonDict(records, _) =>
          var f := FormatResults(records, fmt2, typeError);
          if f.Err? then Some("Unexpected error: " + f.error) else None
  }

  /** What the tool answers for a response or a failure of the POST. */
  function Reply(outcome: HttpOutcome, fmt2: real -> string, typeError: Value -> string): string {
    var failure := Failure(outcome, fmt2, typeError);
    if failure.Some? then "Search failed\n\n" + failure.value
    else FormatResults(outcome.body.records, fmt2, typeError).value
  }

  /** A 200 answer with a dict body is answered with the formatted results, or with
      the formatter's exception. */
  lemma ReplyToResults(outcome: HttpOutcome, fmt2: real -> string, typeError: Value -> string)
    requires outcome.Answered? && outcome.status == 200 && outcome.body.JsonDict?
    ensures var f := FormatResults(outcome.body.records, fmt2, typeError);
      Reply(outcome, fmt2, typeError) == if f.Ok? then f.value else "Search failed\n\nUnexpected error: " + f.error
  {
    var f := FormatResults(outcome.body.records, fmt2, typeError);
    var failure := Failure(outcome, fmt2, typeError);
    if f.Ok? {
      assert failure.None?;
      assert Reply(outcome, fmt2, typeError) == f.value;
    } else {
      assert failure == Some("Unexpected error: " + f.error);
      assert Reply(outcome, fmt2, typeError) == "Search failed\n\n" + ("Unexpected error: " + f.error);
      Text.AppendAssoc("Search failed\n\n", "Unexpected error: ", f.error);
    }
  }

  /** The request the tool posts for its arguments. */
  function PostFor(s: Settings, query: string, topK: int, threshold: real, searchMethod: string): Post {
    Post(s.endpoint, AuthHeader(s),
         DifyServer.Request(s.knowledgeId, query, searchMethod, ClampTopK(topK), ClampThreshold(threshold)))
  }

  /** What `dify_ek_search` returns. */
  function SearchReply(s: Settings, query: string, topK: int, threshold: real, searchMethod: string,
                       post: Post -> HttpOutcome, fmt2: real -> string, typeError: Value -> string): string {
    if Text.IsBlank(query) then "Error: Search query is empty."
    else Reply(post(PostFor(s, query, topK, threshold, searchMethod)), fmt2, typeError)
  }

  /** A blank query is answered without a request; any other query is posted with
      `top_k` in [1, 20] and the threshold in [0, 1], and answered with the formatted
      results, or with "Search failed" and the failure's message. */
  lemma SearchReplyCases(s: Settings, query: string, topK: int, threshold: real, searchMethod: string,
                         post: Post -> HttpOutcome, fmt2: real -> string, typeError: Value -> string)
    ensures Text.IsBlank(query) ==>
      SearchReply(s, query, topK, threshold, searchMethod, post, fmt2, typeError) == "Error: Search query is empty."
    ensures var p := PostFor(s, query, topK, threshold, searchMethod);
      && 1 <= p.body.topK <= 20 && 0.0 <= p.body.scoreThreshold <= 1.0
      && p.body.query == query && p.authorization == "Bearer " + s.apiKey
    ensures !Text.IsBlank(query) ==>
      var outcome := post(PostFor(s, query, topK, threshold, searchMethod));
      var reply := SearchReply(s, query, topK, threshold, searchMethod, post, fmt2, typeError);
      && (Failure(outcome, fmt2, typeError).Some? ==> Text.StartsWith(reply, "Search failed\n\n"))
      && (outcome.Answered? && outcome.status != 200 ==>
            reply == "Search failed\n\n" + HttpErrorMessage(outcome.status, outcome.body, outcome.text))
  {
    if !Text.IsBlank(query) {
      var outcome := post(PostFor(s, query, topK, threshold, searchMethod));
      var failure := Failure(outcome, fmt2, typeError);
      if failure.Some? {
        var prefix := "Search failed\n\n";
        assert (prefix + failure.value)[..|prefix|] == prefix;
      }
    }
  }

  /** The tool: refuse a blank query, clamp the two settings in place, post, and turn
      the outcome into text. */
  method DifyEkSearch(s: Settings, query: string, topK: int, threshold: real, searchMethod: string,
                      post: Post -> HttpOutcome, fmt2: real -> string, typeError: Value -> string)
    returns (reply: string)
    ensures reply == SearchReply(s, query, topK, threshold, searchMethod, post, fmt2, typeError)
  {
    Text.StripEmptyIffBlank(query);
    if query == [] || Text.Strip(query) == [] {
      return "Error: Search query is empty.";
    }
    var k := topK;
    if k < 1 {
      k := 1;
    } else if k > 20 {
      k := 20;
    }
    var t := threshold;
    if t < 0.0 {
      t := 0.0;
    } else if t > 1.0 {
      t := 1.0;
    }
    assert k == ClampTopK(topK) && t == ClampThreshold(threshold);
    var outcome := post(Post(s.endpoint, AuthHeader(s), DifyServer.Request(s.knowledgeId, query, searchMethod, k, t)));
    assert outcome == post(PostFor(s, query, topK, threshold, searchMethod));
    if outcome.Answered? && outcome.status == 200 && outcome.body.JsonDict? {
      var f := FormatSearchResults(outcome.body.records, fmt2, typeError);
      ReplyToResults(outcome, fmt2, typeError);
      reply := if f.Ok? then f.value else "Search failed\n\nUnexpected error: " + f.error;
    } else {
      reply := Reply(outcome, fmt2, typeError);
    }
  }

  /* ---------- ai_trend_learning_guide ---------- */

  /** The approach text of the "beginner" level, the fallback for unknown levels. */
  const BeginnerApproach: string := "Focuses on understanding basic concepts and principles, with practical learning paths."

  /** The plan text of the "short-term" horizon, the fallback for unknown horizons. */
  const ShortTermPlan: string :=
    "Proposes intensive learning plans centered on core skills and knowledge that can be acquired within 1-3 months."

  const Levels: map<string, string> := map[
    "beginner" := BeginnerApproach,
    "intermediate" := "Focuses on advanced concepts and practical project implementation, with paths to improve application skills.",
    "advanced" := "Focuses on latest research trends and advanced technology implementation, with innovative approaches and expertise enhancement."]

  const Horizons: map<string, string> := map[
    "short-term" := ShortTermPlan,
    "medium-term" := "Proposes step-by-step learning plans to systematically build capabilities over 3-6 months.",
    "long-term" := "Proposes comprehensive learning plans to develop expertise from a long-term perspective of 6 months to 1 year."]

  /** The approach text for a level; an unknown level gets the beginner text. */
  function LevelApproach(level: string): (r: string)
    ensures level in Levels ==> r == Levels[level]
    ensures level !in Levels ==> r == BeginnerApproach
  {
    if level in Levels then Levels[level] else BeginnerApproach
  }

  /** The plan text for a horizon; an unknown horizon gets the short-term text. */
  function TimePlan(horizon: string): (r: string)
    ensures horizon in Horizons ==> r == Horizons[horizon]
    ensures horizon !in Horizons ==> r == ShortTermPlan
  {
    if horizon in Horizons then Horizons[horizon] else ShortTermPlan
  }

  const Intro: string :=
    "You are an AI learning guide expert who analyzes the latest AI trends based on SPRI monthly AI reports "
    + "and provides customized learning directions.\n\n"

  const InfoSection: string :=
    "## Information to Provide\n"
    + "1. Summary of latest AI trends and their importance\n"
    + "2. Core knowledge and technical elements in the field\n"
    + "3. Step-by-step learning plan and recommended resources\n"
    + "4. Practical application suggestions and career recommendations\n\n"

  const TemplateBody: string :=
    " Learning Guide\n    \n    ## 1. Trend Analysis\n    - Key trends\n    - Technological changes\n"
    + "    - Industry impact\n    \n    ## 2. Core Knowledge Areas\n    - Basic concepts\n    - Core technologies\n"
    + "    - Key algorithms/methodologies\n    \n    ## 3. Learning Roadmap\n    - Step-by-step learning plan\n"
    + "    - Recommended resources\n    - Practical projects\n    \n    ## 4. Career and Application Opportunities\n"
    + "    - Related roles/positions\n    - Industry use cases\n    - Future outlook\n    "

  const Closing: string :=
    "Search the report to provide practical and specific information. Suggest learning directions "
    + "that align with the latest trends, and create a practical guide that learners can easily follow."

  /** The learner-profile lines. */
  function Profile(level: string, horizon: string): string {
    "## Learner Profile\n"
    + "- Level: " + level + " (" + LevelApproach(level) + ")\n"
    + "- Learning Plan: " + horizon + " (" + TimePlan(horizon) + ")\n\n"
  }

  /** The analysis-target sentence about the topic. */
  function Focus(topic: string): string {
    if topic != [] then "Please focus on " + topic + "-related content in your analysis."
    else "Please analyze overall AI trends."
  }

  /** The heading of the output template. */
  function Heading(topic: string): string {
    if topic != [] then topic else "AI Trends"
  }

  /** The prompt `ai_trend_learning_guide` returns. */
  function LearningGuide(topic: string, level: string, horizon: string): string {
    Intro + Profile(level, horizon) + Request(topic)
  }

  /** The part of the prompt after the learner profile. */
  function Request(topic: string): string {
    "## Analysis Target\n" + "Please analyze based on the March issue of the SPRI monthly AI report. "
    + Focus(topic) + "\n\n"
    + InfoSection
    + "Please structure your analysis results as follows:\n\n" + ("\n    # " + Heading(topic) + TemplateBody) + "\n\n"
    + Closing
  }

  /** The prompt opens with the introduction and then the learner profile. */
  lemma GuideStartsWithProfile(topic: string, level: string, horizon: string)
    ensures Text.StartsWith(LearningGuide(topic, level, horizon), Intro + Profile(level, horizon))
  {
    Text.PrefixOfAppend(Intro + Profile(level, horizon), Request(topic));
  }

  /** The profile echoes the level and horizon as given; an unknown level or horizon
      gets the beginner or short-term text; and without a topic the prompt asks for
      overall AI trends under the heading "AI Trends". */
  lemma GuideFallbacks(topic: string, level: string, horizon: string)
    ensures level !in Levels && horizon !in Horizons ==>
      Profile(level, horizon) == "## Learner Profile\n"
        + "- Level: " + level + " (" + BeginnerApproach + ")\n"
        + "- Learning Plan: " + horizon + " (" + ShortTermPlan + ")\n\n"
    ensures topic == [] ==>
      Focus(topic) == "Please analyze overall AI trends." && Heading(topic) == "AI Trends"
  {
  }
}
