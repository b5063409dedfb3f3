/** The RAG chat page of the military-service counselling bot: `format_docs`, which
    joins the retrieved documents into the prompt context, and the chat history kept
    in the session state (reset to the system message, then extended by one user and
    one assistant message per question). The retriever and the streamed LLM answer
    are library calls: they appear as parameters. */
module RagChatPage {
  import opened Wrappers
  import opened Values
  import Text
  import Listing

  /* ---------- format_docs ---------- */

  /** The line each document's text is introduced by. */
  const InfoMarker: string := "#**<정보>**:\n"

  /** What one document adds: the marker, its text, three newlines. */
  function DocPiece(d: Doc): string {
    InfoMarker + d.content + "\n\n\n"
  }

  /** What `format_docs` returns: the pieces of the documents in order. */
  function FormatDocs(docs: seq<Doc>): string {
    Listing.Pieces(docs, (i: nat, d: Doc) => DocPiece(d))
  }

  /** The total length of the documents' texts. */
  function ContentLength(docs: seq<Doc>): nat
    decreases |docs|
  {
    if docs == [] then 0 else ContentLength(docs[..|docs| - 1]) + |docs[|docs| - 1].content|
  }

  /** The characters each document adds besides its text: the 11 of the marker and
      the 3 newlines. */
  const Overhead: nat := 14

  /** No documents give the empty context, and the context is exactly as long as
      the texts plus 14 characters per document. */
  lemma {:induction false} FormatDocsLength(docs: seq<Doc>)
    ensures docs == [] ==> FormatDocs(docs) == ""
    ensures |FormatDocs(docs)| == ContentLength(docs) + Overhead * |docs|
    decreases |docs|
  {
    assert |InfoMarker| == 11;
    if docs != [] {
      FormatDocsLength(docs[..|docs| - 1]);
    }
  }

  /** Every document's piece appears, in order: the pieces of the documents before
      position `i` are followed by the piece of the document at `i`. */
  lemma FormatDocsInOrder(docs: seq<Doc>, i: nat)
    requires i < |docs|
    ensures Text.StartsWith(FormatDocs(docs), FormatDocs(docs[..i]) + InfoMarker + docs[i].content + "\n\n\n")
  {
    Listing.PiecesInOrder(docs, (j: nat, d: Doc) => DocPiece(d), i);
    Text.AppendAssoc(FormatDocs(docs[..i]), InfoMarker + docs[i].content, "\n\n\n");
    Text.AppendAssoc(FormatDocs(docs[..i]), InfoMarker, docs[i].content);
  }

  /** The loop adding the marker, the text and the newlines of each document. */
  method FormatDocsLoop(docs: seq<Doc>) returns (result: string)
    ensures result == FormatDocs(docs)
  {
    var piece := (i: nat, d: Doc) => DocPiece(d);
    result := "";
    for i := 0 to |docs|
      invariant result == Listing.Pieces(docs[..i], piece)
    {
      Listing.PiecesStep(docs, piece, i);
      Text.AppendAssoc(result, InfoMarker + docs[i].content, "\n\n\n");
      Text.AppendAssoc(result, InfoMarker, docs[i].content);
      result := result + InfoMarker;
      result := result + docs[i].content;
      result := result + "\n\n\n";
    }
    assert docs[..|docs|] == docs;
  }

  /* ---------- the chat history ---------- */

  datatype Role = System | User | Assistant

  datatype Message = Message(role: Role, content: string)

  /** The messages the page shows: all but the system ones, in order. */
  function Visible(history: seq<Message>): (r: seq<Message>)
    ensures forall j :: 0 <= j < |r| ==> r[j].role != System
    ensures |r| <= |history|
    decreases |history|
  {
    if history == [] then []
    else
      var last := history[|history| - 1];
      Visible(history[..|history| - 1]) + (if last.role == System then [] else [last])
  }

  /** Hiding the system messages keeps every other message: a history whose first
      message is the only system one shows exactly the rest. */
  lemma {:induction false} VisibleSkipsOnlySystem(history: seq<Message>)
    requires history != [] && history[0].role == System
    requires forall j :: 1 <= j < |history| ==> history[j].role != System
    ensures Visible(history) == history[1..]
    decreases |history|
  {
    if |history| > 1 {
      var init := history[..|history| - 1];
      VisibleSkipsOnlySystem(init);
      assert init[1..] + [history[|history| - 1]] == history[1..];
    } else {
      assert history == [history[0]];
      assert history[..0] == [];
    }
  }

  /** The messages the output loop shows: it skips the system ones. */
  method ShowHistory(history: seq<Message>) returns (shown: seq<Message>)
    ensures shown == Visible(history)
  {
    shown := [];
    for i := 0 to |history|
      invariant shown == Visible(history[..i])
    {
      assert history[..i + 1][..i] == history[..i];
      if history[i].role == System {
        continue;
      }
      shown := shown + [history[i]];
    }
    assert history[..|history|] == history;
  }

  /** The page's session state: the chat history, absent on the first run. */
  class ChatPage {
    const systemMessage: string
    var chatHistory: Option<seq<Message>>

    /** A present history starts with the system message, holds no other system
        message, and every assistant message answers the user message just before
        it. A user message may stay unanswered when the retriever or the model
        raised after it was appended. */
    predicate Valid()
      reads this
    {
      chatHistory.Some? ==>
        var h := chatHistory.value;
        && |h| >= 1
        && h[0] == Message(System, systemMessage)
        && (forall j :: 1 <= j < |h| ==> h[j].role != System)
        && (forall j :: 1 <= j < |h| && h[j].role == Assistant ==> h[j - 1].role == User)
    }

    /** A new session: no history yet. */
    constructor (systemMessage: string)
      ensures this.systemMessage == systemMessage && chatHistory == None && Valid()
    {
      this.systemMessage := systemMessage;
      chatHistory := None;
    }

    /** What a valid history shows: everything after the system message. */
    lemma ShownIsConversation()
      requires Valid() && chatHistory.Some?
      ensures Visible(chatHistory.value) == chatHistory.value[1..]
    {
      VisibleSkipsOnlySystem(chatHistory.value);
    }

    /** The start of each run: without a history, or when "Reset Chat" was pressed,
        the history becomes exactly the system message; otherwise it is kept. */
    method Start(resetPressed: bool)
      requires Valid()
      modifies this
      ensures Valid() && chatHistory.Some?
      ensures old(chatHistory).None? || resetPressed ==> chatHistory == Some([Message(System, systemMessage)])
      ensures old(chatHistory).Some? && !resetPressed ==> chatHistory == old(chatHistory)
    {
      if chatHistory.None? || resetPressed {
        chatHistory := Some([Message(System, systemMessage)]);
      }
    }

    /** A run with chat input: append the user's message, build the context from the
        retrieved documents, and append the answer the model streams for it. Without
        input the history is kept. The context is returned for the sidebar. An
        exception from the retriever or the model ends the run with the user's
        message already appended and no answer. */
    method Ask(userText: Option<string>, retrieve: string -> Result<seq<Doc>>,
               answer: (string, string, string) -> Result<string>)
      returns (context: string, raised: Option<string>)
      requires Valid() && chatHistory.Some?
      modifies this
      ensures Valid() && chatHistory.Some?
      ensures userText.None? || userText.value == "" ==> chatHistory == old(chatHistory) && raised == None
      ensures userText.Some? && userText.value != "" ==>
        var text := userText.value;
        var asked := old(chatHistory.value) + [Message(User, text)];
        var docs := retrieve(text);
        if docs.Err? then
          raised == Some(docs.error) && chatHistory == Some(asked)
        else
          var response := answer(systemMessage, text, FormatDocs(docs.value));
          && context == FormatDocs(docs.value)
          && (response.Err? ==> raised == Some(response.error) && chatHistory == Some(asked))
          && (response.Ok? ==> raised == None && chatHistory == Some(asked + [Message(Assistant, response.value)]))
    {
      context, raised := "", None;
      if userText.Some? && userText.value != "" {
        var text := userText.value;
        chatHistory := Some(chatHistory.value + [Message(User, text)]);
        var docs := retrieve(text);
        if docs.Err? {
          return "", Some(docs.error);
        }
        context := FormatDocsLoop(docs.value);
        var response := answer(systemMessage, text, context);
        if response.Err? {
          return context, Some(response.error);
        }
        chatHistory := Some(chatHistory.value + [Message(Assistant, response.value)]);
      }
    }
  }
}
