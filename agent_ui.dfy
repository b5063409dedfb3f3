/** The deterministic logic of the MCP agent chat page (langgraph-mcp-agents/app.py,
    and its Korean twin app_KOR.py, which has the same code with translated messages):
    the "Add Tool" validator that normalises pasted MCP server JSON into the pending
    tool configuration, tool deletion, the chat-history grouping of `print_message`,
    the history update after a query, the model list and the login gate. */
module AgentUi {
  import opened Wrappers
  import Text

  // ---------------------------------------------------------------------------
  // JSON values as `json.loads` returns them, and the Python operations on them
  // ---------------------------------------------------------------------------

  /** A parsed JSON value. An object keeps its keys in document order, as a Python
      dict does. */
  datatype Json =
    | Null
    | Bool(b: bool)
    | Int(i: int)
    | Float(r: real)
    | Str(s: string)
    | Arr(items: seq<Json>)
    | Obj(fields: seq<(string, Json)>)

  type Fields = seq<(string, Json)>

  /** `d.get(k)` on a dict: the value of the first field named `k`. */
  function Get(f: Fields, k: string): (r: Option<Json>)
    ensures r.Some? <==> exists i :: 0 <= i < |f| && f[i].0 == k
  {
    if f == [] then None
    else if f[0].0 == k then Some(f[0].1)
    else
      var r := Get(f[1..], k);
      assert forall i :: 1 <= i < |f| ==> f[1..][i - 1] == f[i];
      r
  }

  /** `k in d` on a dict. */
  predicate HasKey(f: Fields, k: string) {
    Get(f, k).Some?
  }

  /** What `json.loads` guarantees of an object: no key appears twice. */
  predicate UniqueKeys(f: Fields) {
    forall i, j :: 0 <= i < j < |f| ==> f[i].0 != f[j].0
  }

  /** `d[k] = v` on a dict: an existing key keeps its place and takes the new
      value, a new key is added at the end. */
  function SetField(f: Fields, k: string, v: Json): (r: Fields)
    ensures Get(r, k) == Some(v)
    ensures forall k' :: k' != k ==> Get(r, k') == Get(f, k')
  {
    if f == [] then [(k, v)]
    else if f[0].0 == k then [(k, v)] + f[1..]
    else [f[0]] + SetField(f[1..], k, v)
  }

  /** Python's `key in x` where `x` is a str (substring test) or a list (element
      test). On a number, bool or None the same expression raises TypeError. */
  predicate PyIn(key: string, x: Json)
    requires x.Str? || x.Arr?
  {
    if x.Str? then Text.Contains(x.s, key) else Str(key) in x.items
  }

  /** `len(x)`; `None` where `len` raises TypeError. */
  function PyLen(x: Json): Option<nat> {
    match x
    case Obj(f) => Some(|f|)
    case Arr(items) => Some(|items|)
    case Str(s) => Some(|s|)
    case _ => None
  }

  // ---------------------------------------------------------------------------
  // Validating one tool entry (app.py:650-685)
  // ---------------------------------------------------------------------------

  /** Why an entry was refused; each is reported with `st.error` and the loop goes on. */
  datatype Reason = MissingCommandOrUrl | MissingArgs | ArgsNotList

  /** What happens to one `tool_name: tool_config` entry. `Raised` is an exception
      that ends the whole loop (caught by the outer `except Exception`). */
  datatype EntryOutcome = Accepted(config: Json) | Rejected(reason: Reason) | Raised

  /** The transport rule: a `url` forces "sse"; otherwise an explicit transport is
      kept and a missing one becomes "stdio". */
  function NormaliseTransport(f: Fields): Fields {
    if HasKey(f, "url") then SetField(f, "transport", Str("sse"))
    else if !HasKey(f, "transport") then SetField(f, "transport", Str("stdio"))
    else f
  }

  /** The required-field checks on a dict entry, in the order the code makes them. */
  function Decide(f: Fields): EntryOutcome {
    if !HasKey(f, "command") && !HasKey(f, "url") then Rejected(MissingCommandOrUrl)
    else if HasKey(f, "command") && !HasKey(f, "args") then Rejected(MissingArgs)
    else if HasKey(f, "command") && !Get(f, "args").value.Arr? then Rejected(ArgsNotList)
    else Accepted(Obj(f))
  }

  /** One entry. A dict is normalised and checked. A str or list survives only when
      the `in` tests say it has no "url" but has "transport" (otherwise the item
      assignment raises); it is then refused, or raises when it is indexed with
      "args". Any other value makes `in` raise. */
  function CheckEntry(config: Json): EntryOutcome {
    match config
    case Obj(f) => Decide(NormaliseTransport(f))
    case Str(_) => NonDictEntry(config)
    case Arr(_) => NonDictEntry(config)
    case _ => Raised
  }

  function NonDictEntry(config: Json): EntryOutcome
    requires config.Str? || config.Arr?
  {
    if PyIn("url", config) || !PyIn("transport", config) then Raised
    else if !PyIn("command", config) then Rejected(MissingCommandOrUrl)
    else if !PyIn("args", config) then Rejected(MissingArgs)
    else Raised
  }

  /** A dict entry is accepted exactly when it has `command` or `url` and, when it
      has `command`, its `args` is present and a list. */
  lemma AcceptIff(f: Fields)
    ensures CheckEntry(Obj(f)).Accepted? <==>
      (HasKey(f, "command") || HasKey(f, "url"))
      && (HasKey(f, "command") ==> HasKey(f, "args") && Get(f, "args").value.Arr?)
  {
    NormaliseKeeps(f, "command");
    NormaliseKeeps(f, "url");
    NormaliseKeeps(f, "args");
    assert CheckEntry(Obj(f)) == Decide(NormaliseTransport(f));
  }

  /** The transport rule touches no field but `transport`. */
  lemma NormaliseKeeps(f: Fields, k: string)
    requires k != "transport"
    ensures Get(NormaliseTransport(f), k) == Get(f, k)
  {
  }

  /** An accepted dict entry carries the transport rule: "sse" whenever it has a
      `url`; otherwise its own transport, or "stdio" when it gave none. Every other
      field is kept as it was. */
  lemma AcceptedTransport(f: Fields)
    requires CheckEntry(Obj(f)).Accepted?
    ensures var c := CheckEntry(Obj(f)).config;
      c.Obj?
      && (HasKey(f, "url") ==> Get(c.fields, "transport") == Some(Str("sse")))
      && (!HasKey(f, "url") && HasKey(f, "transport") ==> Get(c.fields, "transport") == Get(f, "transport"))
      && (!HasKey(f, "url") && !HasKey(f, "transport") ==> Get(c.fields, "transport") == Some(Str("stdio")))
      && (forall k :: k != "transport" ==> Get(c.fields, k) == Get(f, k))
  {
  }

  /** A str or list entry is never accepted, and a number, bool or null always raises. */
  lemma NonDictNeverAccepted(config: Json)
    requires !config.Obj?
    ensures !CheckEntry(config).Accepted?
    ensures !(config.Str? || config.Arr?) ==> CheckEntry(config) == Raised
  {
  }

  // ---------------------------------------------------------------------------
  // The entry loop and the whole "Add Tool" action (app.py:627-700)
  // ---------------------------------------------------------------------------

  /** The state of the entry loop: the pending map, the accepted names in input
      order, the refused entries, and whether an exception ended the loop. */
  datatype Progress = Progress(
    pending: map<string, Json>,
    accepted: seq<string>,
    rejected: seq<(string, Reason)>,
    raised: bool)

  /** One turn of the loop over `parsed_tool.items()`, given what the checks made of
      the entry: an accepted entry is written into the pending map (overwriting a
      same-named entry), a refused one is only reported, an exception stops the loop. */
  function Step(p: Progress, name: string, outcome: EntryOutcome): Progress {
    if p.raised then p
    else
      match outcome
      case Accepted(c) => p.(pending := p.pending[name := c], accepted := p.accepted + [name])
      case Rejected(r) => p.(rejected := p.rejected + [(name, r)])
      case Raised => p.(raised := true)
  }

  /** The loop over `parsed_tool.items()`, stated on its prefixes. */
  function ProcessEntries(pending: map<string, Json>, entries: Fields): Progress
    decreases |entries|
  {
    if entries == [] then Progress(pending, [], [], false)
    else
      var last := entries[|entries| - 1];
      Step(ProcessEntries(pending, entries[..|entries| - 1]), last.0, CheckEntry(last.1))
  }

  /** Once an exception has ended the loop, later entries change nothing. */
  lemma {:induction false} RaisedStops(pending: map<string, Json>, entries: Fields, j: nat)
    requires j <= |entries| && ProcessEntries(pending, entries[..j]).raised
    ensures ProcessEntries(pending, entries) == ProcessEntries(pending, entries[..j])
    decreases |entries|
  {
    if j < |entries| {
      var init := entries[..|entries| - 1];
      assert init[..j] == entries[..j];
      RaisedStops(pending, init, j);
    } else {
      assert entries[..j] == entries;
    }
  }

  /** What the "Add Tool" button reports. */
  datatype AddOutcome =
    | BadBraces                                            // not wrapped in {...}
    | DecodeError                                          // json.JSONDecodeError
    | NoTools                                              // an empty tool map
    | Added(accepted: seq<string>, rejected: seq<(string, Reason)>)
    | Failed                                               // any other exception

  datatype AddResult = AddResult(outcome: AddOutcome, pending: map<string, Json>)

  /** The `mcpServers` unwrapping: `None` where the `in` test or the indexing raises. */
  function Unwrap(top: Json): Option<Json> {
    match top
    case Obj(f) => if HasKey(f, "mcpServers") then Get(f, "mcpServers") else Some(top)
    case Str(_) => if PyIn("mcpServers", top) then None else Some(top)
    case Arr(_) => if PyIn("mcpServers", top) then None else Some(top)
    case _ => None
  }

  /** The brace test on the pasted text, made before any parsing. */
  predicate Braced(text: string) {
    var t := Text.Strip(text);
    Text.StartsWith(t, "{") && Text.EndsWith(t, "}")
  }

  /** The whole "Add Tool" action on the pending map. `parsed` is what `json.loads`
      returns for `text`, `None` where it raises JSONDecodeError; it is consulted
      only after the brace test. */
  function AddTools(pending: map<string, Json>, text: string, parsed: Option<Json>): AddResult {
    if !Braced(text) then AddResult(BadBraces, pending)
    else if parsed.None? then AddResult(DecodeError, pending)
    else AddParsed(pending, parsed.value)
  }

  /** The part of "Add Tool" after the brace test and the parse: unwrap `mcpServers`,
      refuse an empty tool map, and run the entries. */
  function AddParsed(pending: map<string, Json>, parsed: Json): AddResult {
    match Unwrap(parsed)
    case None => AddResult(Failed, pending)
    case Some(tools) =>
      match PyLen(tools)
      case None => AddResult(Failed, pending)
      case Some(n) =>
        if n == 0 then AddResult(NoTools, pending)
        else if !tools.Obj? then AddResult(Failed, pending)  // `.items()` on a str or list
        else
          var p := ProcessEntries(pending, tools.fields);
          if p.raised then AddResult(Failed, p.pending)
          else AddResult(Added(p.accepted, p.rejected), p.pending)
  }

  /** Text not wrapped in braces is refused whatever it would parse to, and the
      pending map is unchanged. */
  lemma BadBracesRefused(pending: map<string, Json>, text: string, parsed: Option<Json>, other: Option<Json>)
    requires !Braced(text)
    ensures AddTools(pending, text, parsed) == AddTools(pending, text, other) == AddResult(BadBraces, pending)
  {
  }

  /** With an `mcpServers` key, the other top-level keys play no part: the result is
      that of pasting the `mcpServers` value alone under that key. */
  lemma OnlyMcpServersProcessed(pending: map<string, Json>, text: string, f: Fields)
    requires HasKey(f, "mcpServers")
    ensures AddTools(pending, text, Some(Obj(f)))
         == AddTools(pending, text, Some(Obj([("mcpServers", Get(f, "mcpServers").value)])))
  {
  }

  /** An empty tool map, wrapped or not, is refused and changes nothing. */
  lemma EmptyToolMapRefused(pending: map<string, Json>, text: string)
    requires Braced(text)
    ensures AddTools(pending, text, Some(Obj([]))) == AddResult(NoTools, pending)
    ensures AddTools(pending, text, Some(Obj([("mcpServers", Obj([]))]))) == AddResult(NoTools, pending)
  {
    var empty: Json := Obj([]);
    var wrapped: Fields := [("mcpServers", empty)];
    assert AddTools(pending, text, Some(empty)) == AddParsed(pending, empty);
    assert AddTools(pending, text, Some(Obj(wrapped))) == AddParsed(pending, Obj(wrapped));
    assert Get(wrapped, "mcpServers") == Some(empty);
    assert Unwrap(Obj(wrapped)) == Some(empty);
  }

  /** The pending map after the loop: the old entries whose names were not accepted
      are untouched, and the keys are the old ones plus the accepted names. */
  lemma {:induction false} ProcessEntriesFrame(pending: map<string, Json>, entries: Fields)
    ensures var p := ProcessEntries(pending, entries);
      && (forall k :: k in p.pending <==> k in pending || k in p.accepted)
      && (forall k :: k in pending && k !in p.accepted ==> k in p.pending && p.pending[k] == pending[k])
    decreases |entries|
  {
    if entries != [] {
      var init := entries[..|entries| - 1];
      ProcessEntriesFrame(pending, init);
      var p0 := ProcessEntries(pending, init);
      var last := entries[|entries| - 1];
      var p := ProcessEntries(pending, entries);
      assert p == Step(p0, last.0, CheckEntry(last.1));
      if !p0.raised && CheckEntry(last.1).Accepted? {
        assert p.accepted == p0.accepted + [last.0];
        assert p.pending == p0.pending[last.0 := CheckEntry(last.1).config];
      } else {
        assert p.accepted == p0.accepted && p.pending == p0.pending;
      }
    }
  }

  /** Without an exception every entry is either accepted or refused, and the
      accepted names are entry names. */
  lemma {:induction false} ProcessEntriesCounts(pending: map<string, Json>, entries: Fields)
    ensures var p := ProcessEntries(pending, entries);
      && |p.accepted| + |p.rejected| <= |entries|
      && (!p.raised ==> |p.accepted| + |p.rejected| == |entries|)
      && forall n :: n in p.accepted ==> exists i :: 0 <= i < |entries| && entries[i].0 == n
    decreases |entries|
  {
    if entries != [] {
      var init := entries[..|entries| - 1];
      ProcessEntriesCounts(pending, init);
      var last := entries[|entries| - 1];
      assert ProcessEntries(pending, entries) == Step(ProcessEntries(pending, init), last.0, CheckEntry(last.1));
      forall n | n in ProcessEntries(pending, init).accepted
        ensures exists i :: 0 <= i < |entries| && entries[i].0 == n
      {
        var i :| 0 <= i < |init| && init[i].0 == n;
        assert entries[i] == init[i];
      }
    }
  }

  /** When the loop ran to the end over a dict (unique names), an accepted entry is
      in the pending map under its name with its normalised config, and a refused
      entry leaves the pending map as it was at that name. */
  lemma {:induction false} EntryFate(pending: map<string, Json>, entries: Fields, i: nat)
    requires UniqueKeys(entries) && i < |entries|
    requires !ProcessEntries(pending, entries).raised
    ensures var p := ProcessEntries(pending, entries);
      var name := entries[i].0;
      var outcome := CheckEntry(entries[i].1);
      && (outcome.Accepted? ==> name in p.accepted && name in p.pending && p.pending[name] == outcome.config)
      && (outcome.Rejected? ==>
            name !in p.accepted && (name in p.pending <==> name in pending)
            && (name in pending ==> p.pending[name] == pending[name]))
    decreases |entries|
  {
    var init := entries[..|entries| - 1];
    var last := entries[|entries| - 1];
    var p0 := ProcessEntries(pending, init);
    assert ProcessEntries(pending, entries) == Step(p0, last.0, CheckEntry(last.1));
    assert !p0.raised;
    UniquePrefix(entries);
    if i < |entries| - 1 {
      EntryFate(pending, init, i);
      assert entries[i] == init[i];
      assert last.0 != entries[i].0;
      StepKeepsOtherNames(p0, last.0, CheckEntry(last.1), entries[i].0);
    } else {
      assert init + [last] == entries;
      LastEntryFate(pending, init, last);
    }
  }

  /** The entries before the last one of a dict have unique names too. */
  lemma UniquePrefix(entries: Fields)
    requires UniqueKeys(entries) && entries != []
    ensures UniqueKeys(entries[..|entries| - 1])
  {
    var init := entries[..|entries| - 1];
    forall a, b | 0 <= a < b < |init| ensures init[a].0 != init[b].0 {
      assert init[a] == entries[a] && init[b] == entries[b];
    }
  }

  /** A turn of the loop changes nothing under the names of other entries. */
  lemma StepKeepsOtherNames(p: Progress, name: string, outcome: EntryOutcome, other: string)
    requires other != name
    ensures var q := Step(p, name, outcome);
      && (other in q.accepted <==> other in p.accepted)
      && (other in q.pending <==> other in p.pending)
      && (other in p.pending ==> q.pending[other] == p.pending[other])
  {
  }

  /** The last entry of a dict: its name was not accepted before, so its own outcome
      decides what the pending map holds under that name. */
  lemma LastEntryFate(pending: map<string, Json>, init: Fields, last: (string, Json))
    requires UniqueKeys(init + [last])
    requires !ProcessEntries(pending, init).raised
    ensures var p0 := ProcessEntries(pending, init);
      var p := Step(p0, last.0, CheckEntry(last.1));
      var outcome := CheckEntry(last.1);
      && (outcome.Accepted? ==> last.0 in p.accepted && last.0 in p.pending && p.pending[last.0] == outcome.config)
      && (outcome.Rejected? ==>
            last.0 !in p.accepted && (last.0 in p.pending <==> last.0 in pending)
            && (last.0 in pending ==> p.pending[last.0] == pending[last.0]))
  {
    var p0 := ProcessEntries(pending, init);
    ProcessEntriesFrame(pending, init);
    ProcessEntriesCounts(pending, init);
    forall i | 0 <= i < |init| ensures init[i].0 != last.0 {
      assert (init + [last])[i] == init[i];
      assert (init + [last])[|init|] == last;
    }
    assert last.0 !in p0.accepted;
  }

  /** The tool settings kept in the session: the pending MCP configuration and
      whether the "Add MCP Tools" expander is open. */
  class ToolSettings {
    var pending: map<string, Json>
    var expanderOpen: bool

    constructor (initial: map<string, Json>)
      ensures pending == initial && expanderOpen
    {
      pending := initial;
      expanderOpen := true;
    }

    /** The "Add Tool" button: validates the pasted text, writes the accepted entries
        into the pending map one by one, and collapses the expander only when at
        least one tool was accepted. */
    method AddTool(text: string, parsed: Option<Json>) returns (outcome: AddOutcome)
      modifies this
      ensures AddResult(outcome, pending) == AddTools(old(pending), text, parsed)
      ensures expanderOpen == if outcome.Added? && outcome.accepted != [] then false else old(expanderOpen)
    {
      var t := Text.Strip(text);
      if !(Text.StartsWith(t, "{") && Text.EndsWith(t, "}")) {
        return BadBraces;
      }
      if parsed.None? {
        return DecodeError;
      }
      var tools := Unwrap(parsed.value);
      if tools.None? {
        return Failed;
      }
      var n := PyLen(tools.value);
      if n.None? {
        return Failed;
      }
      if n.value == 0 {
        return NoTools;
      }
      if !tools.value.Obj? {
        return Failed;
      }
      var entries := tools.value.fields;
      var raised, accepted, rejected := RunEntries(entries);
      if raised {
        return Failed;
      }
      if accepted != [] {
        expanderOpen := false;
      }
      return Added(accepted, rejected);
    }

    /** The loop over the entries: each accepted config is written into the pending
        map under its name as soon as it is checked, so an exception part-way keeps
        the entries accepted before it. */
    method RunEntries(entries: Fields) returns (raised: bool, accepted: seq<string>, rejected: seq<(string, Reason)>)
      modifies this`pending
      ensures ProcessEntries(old(pending), entries) == Progress(pending, accepted, rejected, raised)
    {
      accepted, rejected := [], [];
      var i := 0;
      while i < |entries|
        invariant 0 <= i <= |entries|
        invariant ProcessEntries(old(pending), entries[..i]) == Progress(pending, accepted, rejected, false)
      {
        assert entries[..i + 1][..i] == entries[..i];
        var name := entries[i].0;
        var outcome := CheckEntry(entries[i].1);
        if outcome.Raised? {
          RaisedStops(old(pending), entries, i + 1);
          return true, accepted, rejected;
        } else if outcome.Accepted? {
          pending := pending[name := outcome.config];
          accepted := accepted + [name];
        } else {
          rejected := rejected + [(name, outcome.reason)];
        }
        i := i + 1;
      }
      assert entries[..i] == entries;
      return false, accepted, rejected;
    }

    /** The "Delete" button next to a registered tool: removes exactly that key. */
    method DeleteTool(name: string)
      requires name in pending
      modifies this
      ensures pending == old(pending) - {name}
      ensures expanderOpen == old(expanderOpen)
    {
      pending := pending - {name};
    }
  }

  // ---------------------------------------------------------------------------
  // Chat history: print_message and the update after a query
  // ---------------------------------------------------------------------------

  datatype Role = User | Assistant | AssistantTool

  datatype Message = Message(role: Role, content: string)

  /** What `print_message` puts on screen: a user bubble, or an assistant bubble
      with the tool-call expander when the next entry is an `assistant_tool`. */
  datatype Shown = UserBubble(text: string) | AssistantBubble(text: string, tool: Option<string>)

  /** The grouping `print_message` performs, as a function of the history. */
  function Render(h: seq<Message>): seq<Shown>
    decreases |h|
  {
    if h == [] then []
    else if h[0].role == User then [UserBubble(h[0].content)] + Render(h[1..])
    else if h[0].role == Assistant then
      if |h| > 1 && h[1].role == AssistantTool then
        [AssistantBubble(h[0].content, Some(h[1].content))] + Render(h[2..])
      else [AssistantBubble(h[0].content, None)] + Render(h[1..])
    else Render(h[1..])
  }

  /** `print_message`: the index loop that shows a user entry, shows an assistant
      entry together with a following tool entry (advancing by two), and skips a tool
      entry that no assistant entry precedes. */
  method PrintMessage(history: seq<Message>) returns (shown: seq<Shown>)
    ensures shown == Render(history)
  {
    shown := [];
    var i := 0;
    while i < |history|
      invariant 0 <= i <= |history|
      invariant shown + Render(history[i..]) == Render(history)
      decreases |history| - i
    {
      var message := history[i];
      RenderFrom(history, i);
      if message.role == User {
        Text.AppendAssoc(shown, [UserBubble(message.content)], Render(history[i + 1..]));
        shown := shown + [UserBubble(message.content)];
        i := i + 1;
      } else if message.role == Assistant {
        if i + 1 < |history| && history[i + 1].role == AssistantTool {
          var bubble := AssistantBubble(message.content, Some(history[i + 1].content));
          Text.AppendAssoc(shown, [bubble], Render(history[i + 2..]));
          shown := shown + [bubble];
          i := i + 2;
        } else {
          Text.AppendAssoc(shown, [AssistantBubble(message.content, None)], Render(history[i + 1..]));
          shown := shown + [AssistantBubble(message.content, None)];
          i := i + 1;
        }
      } else {
        i := i + 1;
      }
    }
  }

  /** One turn of the loop: how the rendering of the history from position `i` on
      begins. */
  lemma RenderFrom(h: seq<Message>, i: nat)
    requires i < |h|
    ensures h[i].role == User ==> Render(h[i..]) == [UserBubble(h[i].content)] + Render(h[i + 1..])
    ensures h[i].role == Assistant && i + 1 < |h| && h[i + 1].role == AssistantTool ==>
      Render(h[i..]) == [AssistantBubble(h[i].content, Some(h[i + 1].content))] + Render(h[i + 2..])
    ensures h[i].role == Assistant && !(i + 1 < |h| && h[i + 1].role == AssistantTool) ==>
      Render(h[i..]) == [AssistantBubble(h[i].content, None)] + Render(h[i + 1..])
    ensures h[i].role == AssistantTool ==> Render(h[i..]) == Render(h[i + 1..])
  {
    assert h[i..][1..] == h[i + 1..];
    if i + 1 < |h| {
      assert h[i..][1] == h[i + 1];
      assert h[i..][2..] == h[i + 2..];
    }
  }

  /** The number of history entries with the given role. */
  function CountRole(h: seq<Message>, r: Role): nat {
    if h == [] then 0 else (if h[0].role == r then 1 else 0) + CountRole(h[1..], r)
  }

  function CountUserBubbles(s: seq<Shown>): nat {
    if s == [] then 0 else (if s[0].UserBubble? then 1 else 0) + CountUserBubbles(s[1..])
  }

  /** Each user entry is shown once and each assistant entry is shown once; tool
      entries never get a bubble of their own. */
  lemma {:induction false} RenderShowsEachMessageOnce(h: seq<Message>)
    ensures |Render(h)| == CountRole(h, User) + CountRole(h, Assistant)
    ensures CountUserBubbles(Render(h)) == CountRole(h, User)
    decreases |h|
  {
    if h != [] {
      if h[0].role == Assistant && |h| > 1 && h[1].role == AssistantTool {
        RenderShowsEachMessageOnce(h[2..]);
        assert h[1..][1..] == h[2..];
      } else {
        RenderShowsEachMessageOnce(h[1..]);
      }
    }
  }

  /** A history that does not start with a tool entry renders independently of what
      precedes it: appending it appends its bubbles. */
  lemma {:induction false} RenderAppend(a: seq<Message>, b: seq<Message>)
    requires b == [] || b[0].role != AssistantTool
    ensures Render(a + b) == Render(a) + Render(b)
    decreases |a|
  {
    if a == [] {
      assert a + b == b;
    } else {
      var ab := a + b;
      assert ab[0] == a[0];
      if a[0].role == Assistant && |a| > 1 && a[1].role == AssistantTool {
        var bubble := AssistantBubble(a[0].content, Some(a[1].content));
        assert ab[1] == a[1];
        assert ab[2..] == a[2..] + b;
        RenderAppend(a[2..], b);
        assert Render(ab) == [bubble] + Render(ab[2..]);
        Text.AppendAssoc([bubble], Render(a[2..]), Render(b));
      } else if a[0].role == Assistant && |a| == 1 {
        var bubble := AssistantBubble(a[0].content, None);
        assert ab[1..] == b;
        assert Render(a) == [bubble];
        assert Render(ab) == [bubble] + Render(b);
      } else {
        if |a| > 1 {
          assert ab[1] == a[1];
        }
        assert ab[1..] == a[1..] + b;
        RenderAppend(a[1..], b);
        var head := if a[0].role == User then [UserBubble(a[0].content)]
                    else if a[0].role == Assistant then [AssistantBubble(a[0].content, None)]
                    else [];
        assert Render(ab) == head + Render(ab[1..]);
        assert Render(a) == head + Render(a[1..]);
        Text.AppendAssoc(head, Render(a[1..]), Render(b));
      }
    }
  }

  /** What `process_query` hands back: a response carrying an "error" key, or the
      accumulated answer text and tool-call text. */
  datatype QueryReply = ErrorReply(error: string) | Reply(text: string, tool: string)

  /** The entries appended after a successful query: the user turn, the assistant
      turn, and the tool-call text when it is not blank. */
  function NewEntries(query: string, text: string, tool: string): (r: seq<Message>)
    ensures |r| == if Text.IsBlank(tool) then 2 else 3
    ensures r[0] == Message(User, query) && r[1] == Message(Assistant, text)
  {
    Text.StripEmptyIffBlank(tool);
    [Message(User, query), Message(Assistant, text)]
      + if Text.Strip(tool) != [] then [Message(AssistantTool, tool)] else []
  }

  /** The entries, spelled out for each outcome of the blank test. */
  lemma NewEntriesCases(query: string, text: string, tool: string)
    ensures Text.Strip(tool) != [] ==>
      NewEntries(query, text, tool) == [Message(User, query), Message(Assistant, text), Message(AssistantTool, tool)]
    ensures Text.Strip(tool) == [] ==>
      NewEntries(query, text, tool) == [Message(User, query), Message(Assistant, text)]
  {
  }

  /** After a successful query the screen gains exactly the user bubble and one
      assistant bubble, carrying the tool text exactly when it is not blank. */
  lemma QueryRendersOneExchange(history: seq<Message>, query: string, text: string, tool: string)
    ensures Render(history + NewEntries(query, text, tool))
         == Render(history)
            + [UserBubble(query), AssistantBubble(text, if Text.IsBlank(tool) then None else Some(tool))]
  {
    RenderNewEntries(query, text, tool);
    RenderAppend(history, NewEntries(query, text, tool));
  }

  lemma RenderNewEntries(query: string, text: string, tool: string)
    ensures Render(NewEntries(query, text, tool))
         == [UserBubble(query), AssistantBubble(text, if Text.IsBlank(tool) then None else Some(tool))]
  {
    Text.StripEmptyIffBlank(tool);
    if Text.IsBlank(tool) {
      assert NewEntries(query, text, tool) == [Message(User, query), Message(Assistant, text)];
      RenderPlainExchange(query, text);
    } else {
      assert NewEntries(query, text, tool)
          == [Message(User, query), Message(Assistant, text), Message(AssistantTool, tool)];
      RenderToolExchange(query, text, tool);
    }
  }

  lemma RenderPlainExchange(query: string, text: string)
    ensures Render([Message(User, query), Message(Assistant, text)])
         == [UserBubble(query), AssistantBubble(text, None)]
  {
    var u, a := Message(User, query), Message(Assistant, text);
    assert [u, a][1..] == [a];
    assert [a][1..] == [];
    assert Render([a]) == [AssistantBubble(text, None)] + Render([]);
    assert Render([u, a]) == [UserBubble(query)] + Render([a]);
  }

  lemma RenderToolExchange(query: string, text: string, tool: string)
    ensures Render([Message(User, query), Message(Assistant, text), Message(AssistantTool, tool)])
         == [UserBubble(query), AssistantBubble(text, Some(tool))]
  {
    var u, a, t := Message(User, query), Message(Assistant, text), Message(AssistantTool, tool);
    assert [u, a, t][1..] == [a, t];
    assert [a, t][2..] == [];
    assert Render([a, t]) == [AssistantBubble(text, Some(tool))] + Render([]);
    assert Render([u, a, t]) == [UserBubble(query)] + Render([a, t]);
  }

  /** The session fields the chat input reads and writes. */
  class ChatSession {
    var history: seq<Message>
    var initialized: bool

    constructor ()
      ensures history == [] && !initialized
    {
      history := [];
      initialized := false;
    }

    /** The chat input handler: with an initialised session, a reply with an error
        leaves the history alone; any other reply appends the user turn, the answer,
        and the tool-call text when `final_tool.strip()` is non-empty. */
    method SubmitQuery(query: string, reply: QueryReply)
      modifies this`history
      ensures query == [] || !initialized || reply.ErrorReply? ==> history == old(history)
      ensures query != [] && initialized && reply.Reply? ==>
        history == old(history) + NewEntries(query, reply.text, reply.tool)
    {
      if query != [] && initialized {
        match reply
        case ErrorReply(_) =>
        case Reply(finalText, finalTool) =>
          NewEntriesCases(query, finalText, finalTool);
          ghost var before := history;
          history := history + [Message(User, query)];
          history := history + [Message(Assistant, finalText)];
          assert history == before + [Message(User, query), Message(Assistant, finalText)];
          if Text.Strip(finalTool) != [] {
            history := history + [Message(AssistantTool, finalTool)];
            assert history == before + [Message(User, query), Message(Assistant, finalText), Message(AssistantTool, finalTool)];
          }
      }
    }
  }

  // ---------------------------------------------------------------------------
  // Model selection and login
  // ---------------------------------------------------------------------------

  const ClaudeModels: seq<string> := ["claude-3-7-sonnet-latest", "claude-3-5-sonnet-latest", "claude-3-5-haiku-latest"]
  const GptModels: seq<string> := ["gpt-4o", "gpt-4o-mini"]
  const DefaultModel: string := "claude-3-7-sonnet-latest"

  /** The model list: the Claude models when ANTHROPIC_API_KEY is set (to any value,
      even empty), then the GPT models when OPENAI_API_KEY is set; with neither key,
      just the default Claude model. */
  method AvailableModels(env: map<string, string>) returns (models: seq<string>)
    ensures |models| == (if "ANTHROPIC_API_KEY" in env then 3 else 0) + (if "OPENAI_API_KEY" in env then 2 else 0)
                        + (if "ANTHROPIC_API_KEY" !in env && "OPENAI_API_KEY" !in env then 1 else 0)
    ensures "ANTHROPIC_API_KEY" in env ==> models[..3] == ClaudeModels
    ensures "OPENAI_API_KEY" in env ==> models[|models| - 2..] == GptModels
    ensures "ANTHROPIC_API_KEY" !in env && "OPENAI_API_KEY" !in env ==> models == [DefaultModel]
  {
    models := [];
    if "ANTHROPIC_API_KEY" in env {
      models := models + ClaudeModels;
    }
    if "OPENAI_API_KEY" in env {
      models := models + GptModels;
    }
    if models == [] {
      models := [DefaultModel];
    }
  }

  /** The select box index: the position of the current model in the list (its
      first position, as `list.index` gives), or 0 when it is not listed. */
  function SelectIndex(models: seq<string>, current: string): (r: nat)
    ensures models != [] ==> r < |models|
    ensures current in models ==> r < |models| && models[r] == current && current !in models[..r]
    ensures current !in models ==> r == 0
  {
    if models == [] || models[0] == current then 0
    else if current in models[1..] then 1 + SelectIndex(models[1..], current)
    else 0
  }

  /** `USE_LOGIN` switches the login page on when it reads "true" in any case: an
      unset variable leaves it off, and otherwise each of its four letters may be
      lower or upper case. */
  function UseLogin(env: map<string, string>): (on: bool)
    ensures "USE_LOGIN" !in env ==> !on
    ensures on <==> "USE_LOGIN" in env && |env["USE_LOGIN"]| == 4
                    && forall i :: 0 <= i < 4 ==> env["USE_LOGIN"][i] == "true"[i] || env["USE_LOGIN"][i] == "TRUE"[i]
  {
    var v := if "USE_LOGIN" in env then env["USE_LOGIN"] else "false";
    LowerIsTrue(v);
    Text.AsciiLower(v) == "true"
  }

  /** A string lowers to "true" exactly when it is "true" with any of its letters
      in upper case. */
  lemma LowerIsTrue(v: string)
    ensures Text.AsciiLower(v) == "true" <==>
      |v| == 4 && forall i :: 0 <= i < 4 ==> v[i] == "true"[i] || v[i] == "TRUE"[i]
  {
    var lower := Text.AsciiLower(v);
    if |v| == 4 {
      forall i | 0 <= i < 4
        ensures lower[i] == "true"[i] <==> v[i] == "true"[i] || v[i] == "TRUE"[i]
      {
      }
      assert lower == "true" <==> forall i :: 0 <= i < 4 ==> lower[i] == "true"[i];
    }
  }

  /** The login form's test: both the username and the password equal the values of
      USER_ID and USER_PASSWORD; a variable that is not set matches no input. */
  function LoginAccepted(env: map<string, string>, username: string, password: string): (ok: bool)
    ensures ok <==> "USER_ID" in env && "USER_PASSWORD" in env
                    && env["USER_ID"] == username && env["USER_PASSWORD"] == password
  {
    Some(username) == (if "USER_ID" in env then Some(env["USER_ID"]) else None)
    && Some(password) == (if "USER_PASSWORD" in env then Some(env["USER_PASSWORD"]) else None)
  }
}
