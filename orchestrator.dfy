/**
 * The side panel's conversation logic: it resolves the `@body` marker, builds the history sent
 * upstream, and applies the streaming callbacks of the latest send only.
 *
 * A send is modelled as the events it is made of, which other sends may interleave with:
 * `Send` (what `handleSend` does before its first `await`), `ResolveReference` (that `await`,
 * `processBodyReference`), `Proceed` (what follows, up to the request) and `Deliver` (one
 * callback of that request reaching the panel).
 */
module Orchestrator {
  import opened Common
  import opened JsString
  import opened ContentRelay
  import opened CompletionClient

  const Marker := "@body"
  const Intro := "the following page content:\n\n"
  const Greeting := "Hello! I'm your AI assistant. How can I help you today?"
  const ContentUnavailable := "Could not retrieve page content. Make sure you have an active tab open."

  datatype Sender = User | Assistant

  /**
   * Transcript ids. The source derives them from `Date.now()`; here they carry that clock
   * reading: a user entry, a streamed reply (`<now>_assistant`) or a send failure (`<now>_error`).
   */
  datatype MessageId = GreetingId | UserEntryId(t: int) | StreamId(t: int) | SendErrorId(t: int)

  /** One transcript entry (its timestamp is left out). */
  datatype Message = Message(id: MessageId, content: string, sender: Sender)

  // ----- Marker substitution -----

  /** Every `@body` replaced by the introduction and the formatted snapshot. */
  function SubstituteBody(message: string, content: PageContent): string {
    ReplaceAll(message, Marker, Intro + FormatContentForAI(content))
  }

  /** The same through `String.prototype.replace`, which expands `$` patterns in the inserted text. */
  function SubstituteBodyAsWritten(message: string, content: PageContent): string {
    JsReplaceAll(message, Marker, Intro + FormatContentForAI(content))
  }

  /**
   * `processBodyReference`, given what the relay yields: a message without the marker is kept
   * as it is (and the relay is not asked); with the marker, a missing snapshot is the
   * content-unavailable error and a snapshot is substituted for every marker.
   */
  function ProcessBodyReference(message: string, fetched: Option<PageContent>): (r: Result<string, string>)
    ensures !Contains(message, Marker) ==> r == Ok(message)
    ensures Contains(message, Marker) && fetched.None? ==> r == Err(ContentUnavailable)
    ensures Contains(message, Marker) && fetched.Some? ==> r == Ok(SubstituteBody(message, fetched.value))
  {
    if !Contains(message, Marker) then Ok(message)
    else match fetched
      case None => Err(ContentUnavailable)
      case Some(content) => Ok(SubstituteBody(message, content))
  }

  /**
   * A message with one marker: the text around it is kept as it is, and the marker becomes the
   * introduction followed by the formatted snapshot.
   */
  lemma {:induction false} SubstituteOneMarker(before: string, after: string, content: PageContent)
    requires !Contains(before + Marker[..|Marker| - 1], Marker) && !Contains(after, Marker)
    ensures ProcessBodyReference(before + Marker + after, Some(content))
         == Ok(before + (Intro + FormatContentForAI(content)) + after)
  {
    ReplaceAllSingle(before, after, Marker, Intro + FormatContentForAI(content));
  }

  /** A short page substituted into "Summarize @body". */
  lemma {:induction false} SummarizeExample(message: string, content: PageContent)
    requires message == "Summarize @body" && content == PageContent("hello world", "T", "u", 0)
    ensures ProcessBodyReference(message, Some(content))
         == Ok("Summarize " + (Intro + ("Page Title: T\nURL: u\nContent:\n" + "hello world")))
  {
    FormatExample(content);
    var formatted := FormatContentForAI(content);
    NotContainsShort("", Marker);
    NotContainsBeforeHead("Summarize ", Marker);
    SubstituteOneMarker("Summarize ", "", content);
    assert "Summarize " + Marker + "" == message;
    assert "Summarize " + (Intro + formatted) + "" == "Summarize " + (Intro + formatted);
  }

  /** Under the built-in replace, a message that is just the marker becomes the expansion of the inserted text. */
  lemma SubstituteAsWrittenMarkerOnly(content: PageContent)
    ensures SubstituteBodyAsWritten(Marker, content)
         == ExpandReplacement(Intro + FormatContentForAI(content), Marker, "", "")
  {
    var rep := Intro + FormatContentForAI(content);
    assert Marker[..0] == "" && Marker[0..] == Marker && Marker[|Marker|..] == "";
    assert JsReplaceFrom(Marker, |Marker|, Marker, rep) == "";
  }

  /**
   * A page text `$&` comes back as the marker itself under the built-in replace, where the
   * literal substitution keeps it (for any title and address without `$` that fit the limit).
   */
  lemma {:induction false} DollarInPageText(title: string, url: string, timestamp: int)
    requires '$' !in title && '$' !in url && |title| + |url| + 30 <= DefaultMaxLength
    ensures SubstituteBodyAsWritten(Marker, PageContent("$&", title, url, timestamp))
         == Intro + Header(title, url) + Marker
    ensures SubstituteBody(Marker, PageContent("$&", title, url, timestamp))
         == Intro + Header(title, url) + "$&"
  {
    var content := PageContent("$&", title, url, timestamp);
    FormatFits(content, DefaultMaxLength);
    DollarExpanded(content);
    DollarKept(content);
  }

  /** The built-in replace expands a page text `$&` into the marker. */
  lemma {:induction false} DollarExpanded(content: PageContent)
    requires '$' !in content.title && '$' !in content.url && content.textContent == "$&"
    requires FormatContentForAI(content) == Header(content.title, content.url) + "$&"
    ensures SubstituteBodyAsWritten(Marker, content) == Intro + Header(content.title, content.url) + Marker
  {
    var head := Intro + Header(content.title, content.url);
    assert Intro + FormatContentForAI(content) == head + "$&";
    HeadWithoutDollar(content.title, content.url);
    SubstituteAsWrittenMarkerOnly(content);
    ExpandLiteralHead(head, "$&", Marker, "", "");
    ExpandWholeMatch(Marker);
  }

  /** The fixed text before the page text has no `$` when the title and address have none. */
  lemma {:induction false} HeadWithoutDollar(title: string, url: string)
    requires '$' !in title && '$' !in url
    ensures '$' !in Intro + Header(title, url)
  {
  }

  /** The replacement `$&` alone expands to the matched text. */
  lemma {:induction false} ExpandWholeMatch(matched: string)
    ensures ExpandReplacement("$&", matched, "", "") == matched
  {
    assert ExpandReplacement("$&", matched, "", "") == matched + ExpandReplacement("", matched, "", "");
  }

  /** The literal substitution keeps a page text `$&` as it is. */
  lemma {:induction false} DollarKept(content: PageContent)
    requires FormatContentForAI(content) == Header(content.title, content.url) + "$&"
    ensures SubstituteBody(Marker, content) == Intro + Header(content.title, content.url) + "$&"
  {
    var head := Intro + Header(content.title, content.url);
    assert Intro + FormatContentForAI(content) == head + "$&";
    NotContainsShort("", Marker);
    NotContainsBeforeHead("", Marker);
    SubstituteOneMarker("", "", content);
    assert "" + Marker + "" == Marker;
    assert "" + (head + "$&") + "" == head + "$&";
  }

  /** Without `$` anywhere in the inserted text, the built-in replace is the literal substitution. */
  lemma SubstituteAgreesWithoutDollar(message: string, content: PageContent)
    requires '$' !in Intro + FormatContentForAI(content)
    ensures SubstituteBodyAsWritten(message, content) == SubstituteBody(message, content)
  {
    JsReplaceAllLiteral(message, Marker, Intro + FormatContentForAI(content));
  }

  // ----- History -----

  function RoleOf(sender: Sender): Role {
    if sender == User then UserRole else AssistantRole
  }

  /** The transcript as role-tagged entries, in order. */
  function HistoryOf(transcript: seq<Message>): (h: seq<ChatMessage>)
    ensures |h| == |transcript|
    ensures forall i :: 0 <= i < |h| ==> h[i] == ChatMessage(RoleOf(transcript[i].sender), transcript[i].content)
  {
    if transcript == [] then []
    else
      var last := transcript[|transcript| - 1];
      HistoryOf(transcript[..|transcript| - 1]) + [ChatMessage(RoleOf(last.sender), last.content)]
  }

  /** The history sent upstream: the transcript the send started from, then the processed input as a user entry. */
  function BuildHistory(transcript: seq<Message>, processed: string): (h: seq<ChatMessage>)
    ensures |h| == |transcript| + 1
    ensures h[..|transcript|] == HistoryOf(transcript)
    ensures h[|transcript|] == ChatMessage(UserRole, processed)
  {
    HistoryOf(transcript) + [ChatMessage(UserRole, processed)]
  }

  // ----- The panel's state -----

  /** How far one `handleSend` call has got. */
  datatype Phase =
    | Ignored          // it returned at once: blank input or no key configured
    | Resolving(input: string, snapshot: seq<Message>)
    | Resolved(snapshot: seq<Message>, processed: Result<string, string>)  // processBodyReference settled
    | Abandoned        // the page content could not be retrieved; no request was made
    | Streaming(id: MessageId, request: Option<seq<ChatMessage>>, trace: seq<Callback>,
                delivered: nat, accumulated: string)

  /** The text the terminal callback of a well-formed trace puts into the transcript. */
  function FinalContent(trace: seq<Callback>): string
    requires |trace| >= 1
  {
    match trace[|trace| - 1]
    case OnError(e) => "Error: " + e
    case _ => ChunkText(trace)
  }

  /**
   * The entry a request leaves in the transcript: the concatenated text of its stream's
   * non-empty deltas when the stream ends, or the error line when it fails.
   */
  lemma FinalContentOfStream(stream: Stream)
    ensures var trace := ChunkCallbacks(stream.deltas) + [Terminal(stream.ending)];
            && (stream.ending.None? ==> FinalContent(trace) == Concat(ChunkTexts(stream.deltas)))
            && (stream.ending.Some? ==> FinalContent(trace) == "Error: " + StreamErrorText(stream.ending.value))
  {
    ChunkTextWithTerminal(ChunkCallbacks(stream.deltas), Terminal(stream.ending));
    ChunkTextOfDeltas(stream.deltas);
  }

  /**
   * The panel's sends agree with its current request: each request's callbacks follow the
   * client's discipline, and every request whose id is current has not ended and has
   * accumulated exactly the text of the chunks delivered to it so far.
   */
  ghost predicate Consistent(sends: seq<Phase>, current: Option<MessageId>) {
    && (forall k :: 0 <= k < |sends| && sends[k].Streaming? ==>
          sends[k].delivered <= |sends[k].trace| && WellFormedTrace(sends[k].trace))
    && (forall k :: 0 <= k < |sends| && sends[k].Streaming? && current == Some(sends[k].id) ==>
          && sends[k].delivered < |sends[k].trace|
          && sends[k].accumulated == ChunkText(sends[k].trace[..sends[k].delivered]))
  }

  /** Recording a send that has not reached the client keeps the sends consistent. */
  lemma ConsistentAppend(sends: seq<Phase>, current: Option<MessageId>, p: Phase)
    requires Consistent(sends, current) && !p.Streaming?
    ensures Consistent(sends + [p], current)
  {
    assert forall j :: 0 <= j < |sends| ==> (sends + [p])[j] == sends[j];
  }

  /** So does a send that had not reached the client moving on to another such phase. */
  lemma ConsistentReplace(sends: seq<Phase>, current: Option<MessageId>, k: nat, p: Phase)
    requires Consistent(sends, current) && k < |sends| && !sends[k].Streaming? && !p.Streaming?
    ensures Consistent(sends[k := p], current)
  {
  }

  /** No request among `sends` streams under `id`. */
  ghost predicate FreshId(sends: seq<Phase>, id: MessageId) {
    forall j :: 0 <= j < |sends| && sends[j].Streaming? ==> sends[j].id != id
  }

  /** Freshness survives appending a phase that does not stream under that id. */
  lemma FreshAppend(sends: seq<Phase>, p: Phase, id: MessageId)
    requires FreshId(sends, id) && (p.Streaming? ==> p.id != id)
    ensures FreshId(sends + [p], id)
  {
    assert forall j :: 0 <= j < |sends| ==> (sends + [p])[j] == sends[j];
  }

  /** Once the callback at `d` is the last, the chunk text of the whole trace is the text before it, plus its own if it is a chunk. */
  lemma LastChunkText(trace: seq<Callback>, d: nat)
    requires d + 1 == |trace|
    ensures ChunkText(trace) == ChunkText(trace[..d]) + (match trace[d] case OnChunk(t) => t case _ => "")
    ensures trace[..d + 1] == trace
  {
  }

  /** Replacing the phase just appended is appending the replacement. */
  lemma ReplaceLast(sends: seq<Phase>, p: Phase, q: Phase)
    ensures (sends + [p])[|sends| := q] == sends + [q]
  {
  }

  /**
   * A request with a fresh id that has seen none of its well-formed callbacks may replace a send
   * that had not reached the client, and become the current one.
   */
  lemma ConsistentStart(sends: seq<Phase>, current: Option<MessageId>, k: nat, p: Phase)
    requires Consistent(sends, current) && k < |sends| && !sends[k].Streaming?
    requires p.Streaming? && p.delivered == 0 && p.accumulated == "" && WellFormedTrace(p.trace)
    requires FreshId(sends, p.id)
    ensures Consistent(sends[k := p], Some(p.id))
  {
    var t := sends[k := p];
    assert p.trace[..0] == [];
    assert forall j :: 0 <= j < |t| && j != k ==> t[j] == sends[j];
  }

  /** A callback of a request that is not current only advances its delivery count. */
  lemma ConsistentStale(sends: seq<Phase>, current: Option<MessageId>, k: nat)
    requires Consistent(sends, current) && k < |sends| && sends[k].Streaming?
    requires sends[k].delivered < |sends[k].trace| && current != Some(sends[k].id)
    ensures Consistent(sends[k := sends[k].(delivered := sends[k].delivered + 1)], current)
  {
    var t := sends[k := sends[k].(delivered := sends[k].delivered + 1)];
    assert forall j :: 0 <= j < |t| && j != k ==> t[j] == sends[j];
  }

  /**
   * A chunk of the current request is not its last callback, and extends its text to the text
   * of the chunks delivered so far.
   */
  lemma ConsistentChunk(sends: seq<Phase>, current: Option<MessageId>, k: nat)
    requires Consistent(sends, current) && k < |sends| && sends[k].Streaming?
    requires sends[k].delivered < |sends[k].trace| && current == Some(sends[k].id)
    requires sends[k].trace[sends[k].delivered].OnChunk?
    ensures var s := sends[k];
            var d := s.delivered;
            && s.accumulated + s.trace[d].text == ChunkText(s.trace[..d + 1])
            && Consistent(sends[k := s.(delivered := d + 1, accumulated := s.accumulated + s.trace[d].text)], current)
  {
    var s := sends[k];
    var d := s.delivered;
    assert s.trace[..d + 1][..d] == s.trace[..d];
    var t := sends[k := s.(delivered := d + 1, accumulated := s.accumulated + s.trace[d].text)];
    assert forall j :: 0 <= j < |t| && j != k ==> t[j] == sends[j];
  }

  /**
   * A terminal callback of the current request is its last; afterwards no request is current,
   * and on completion the text accumulated is the request's final content.
   */
  lemma ConsistentFinish(sends: seq<Phase>, current: Option<MessageId>, k: nat)
    requires Consistent(sends, current) && k < |sends| && sends[k].Streaming?
    requires sends[k].delivered < |sends[k].trace| && current == Some(sends[k].id)
    requires !sends[k].trace[sends[k].delivered].OnChunk?
    ensures sends[k].delivered + 1 == |sends[k].trace|
    ensures sends[k].trace[sends[k].delivered].OnComplete? ==> FinalContent(sends[k].trace) == sends[k].accumulated
    ensures Consistent(sends[k := sends[k].(delivered := sends[k].delivered + 1)], None)
  {
    var s := sends[k];
    var d := s.delivered;
    assert s.trace[..d + 1] == s.trace;
    var t := sends[k := s.(delivered := d + 1)];
    assert forall j :: 0 <= j < |t| && j != k ==> t[j] == sends[j];
  }

  /** The state the panel shows. */
  datatype View = View(messages: seq<Message>, isTyping: bool, isConfigured: bool, showApiKeyInput: bool,
                       streamingMessage: string, isLoadingPageContent: bool,
                       currentStreamingId: Option<MessageId>)

  class ChatPanel {
    const relay: PageContentService
    const service: OpenAIService

    var messages: seq<Message>
    var isTyping: bool
    var isConfigured: bool
    var showApiKeyInput: bool
    var streamingMessage: string
    var isLoadingPageContent: bool
    var currentStreamingId: Option<MessageId>
    /** Every `handleSend` call so far, with the closure state of its callbacks. */
    var sends: seq<Phase>

    ghost function ViewOf(): View
      reads this
    {
      View(messages, isTyping, isConfigured, showApiKeyInput, streamingMessage, isLoadingPageContent,
           currentStreamingId)
    }

    ghost predicate Valid()
      reads this
    {
      Consistent(sends, currentStreamingId)
    }

    /** The panel as first rendered: the greeting and nothing in progress. */
    constructor (relay: PageContentService, service: OpenAIService)
      ensures Valid() && this.relay == relay && this.service == service
      ensures ViewOf() == View([Message(GreetingId, Greeting, Assistant)], false, false, false, "", false, None)
      ensures sends == []
    {
      this.relay := relay;
      this.service := service;
      messages := [Message(GreetingId, Greeting, Assistant)];
      isTyping := false;
      isConfigured := false;
      showApiKeyInput := false;
      streamingMessage := "";
      isLoadingPageContent := false;
      currentStreamingId := None;
      sends := [];
    }

    /** The mount effect: the panel is configured exactly when the service now has a client. */
    method InitializeOpenAI(stored: Call<Option<string>>)
      requires Valid()
      modifies this, service
      ensures Valid() && sends == old(sends)
      ensures isConfigured <==> stored.Returned? && service.client.Some?
      ensures stored.Threw? ==> service.client == old(service.client) && service.apiKey == old(service.apiKey)
      ensures stored.Returned? ==>
                && service.apiKey == stored.value
                && service.client == if IsTruthy(stored.value) then Some(Client(stored.value.value)) else old(service.client)
      ensures showApiKeyInput == if isConfigured then old(showApiKeyInput) else true
      ensures ViewOf() == old(ViewOf()).(isConfigured := isConfigured, showApiKeyInput := showApiKeyInput)
    {
      var ok := service.Initialize(stored);
      isConfigured := ok;
      if !ok {
        showApiKeyInput := true;
      }
    }

    /** `handleSetApiKey`: a blank key is refused; a stored key configures both the panel and the service. */
    method HandleSetApiKey(key: string, write: Call<()>)
      requires Valid()
      modifies this, service
      ensures Valid() && sends == old(sends)
      ensures Trim(key) == "" ==>
                ViewOf() == old(ViewOf()) && service.client == old(service.client) && service.apiKey == old(service.apiKey)
      ensures Trim(key) != "" && write.Returned? ==>
                && ViewOf() == old(ViewOf()).(isConfigured := true, showApiKeyInput := false)
                && service.IsConfigured()
                && service.apiKey == Some(Trim(key)) && service.client == Some(Client(Trim(key)))
      ensures Trim(key) != "" && write.Threw? ==>
                ViewOf() == old(ViewOf()) && service.client == old(service.client) && service.apiKey == old(service.apiKey)
      ensures messages == old(messages) && currentStreamingId == old(currentStreamingId)
    {
      var trimmed := Trim(key);
      if trimmed == "" {
        return;
      }
      var ok := service.SetApiKey(trimmed, write);
      if ok {
        isConfigured := true;
        showApiKeyInput := false;
      }
    }

    /** `handleClearApiKey`, given the user's answer to the confirmation. */
    method HandleClearApiKey(confirmed: bool, removal: Call<()>)
      requires Valid()
      modifies this, service
      ensures Valid() && sends == old(sends)
      ensures confirmed && removal.Returned? ==>
                && ViewOf() == old(ViewOf()).(isConfigured := false, showApiKeyInput := true)
                && service.client.None? && service.apiKey.None? && !service.IsConfigured()
      ensures !(confirmed && removal.Returned?) ==>
                ViewOf() == old(ViewOf()) && service.client == old(service.client) && service.apiKey == old(service.apiKey)
      ensures messages == old(messages) && currentStreamingId == old(currentStreamingId)
    {
      if confirmed {
        var ok := service.ClearApiKey(removal);
        if ok {
          isConfigured := false;
          showApiKeyInput := true;
        }
      }
    }

    /**
     * `handleSend` up to its first `await`, for the text in the input box. Blank input changes
     * nothing; without a key only the key prompt opens. Otherwise the trimmed input becomes a user
     * entry, the panel shows that it is waiting, and the send records what it started from.
     */
    method Send(input: string, now: int) returns (k: nat)
      requires Valid()
      modifies this
      ensures Valid()
      ensures k == |old(sends)|
      ensures Trim(input) == "" ==> ViewOf() == old(ViewOf()) && sends == old(sends) + [Ignored]
      ensures Trim(input) != "" && !old(isConfigured) ==>
                ViewOf() == old(ViewOf()).(showApiKeyInput := true) && sends == old(sends) + [Ignored]
      ensures Trim(input) != "" && old(isConfigured) ==>
                && messages == old(messages) + [Message(UserEntryId(now), Trim(input), User)]
                && isTyping && streamingMessage == ""
                && isLoadingPageContent == (Contains(Trim(input), Marker) || old(isLoadingPageContent))
                && isConfigured == old(isConfigured) && showApiKeyInput == old(showApiKeyInput)
                && currentStreamingId == old(currentStreamingId)
                && sends == old(sends) + [Resolving(Trim(input), old(messages))]
    {
      k := |sends|;
      var text := Trim(input);
      if text == "" || !isConfigured {
        if text != "" {
          showApiKeyInput := true;
        }
        ConsistentAppend(sends, currentStreamingId, Ignored);
        sends := sends + [Ignored];
      } else {
        Enter(text, now);
      }
    }

    /** The accepted part of `handleSend`'s first step: the user entry and the waiting state. */
    method Enter(text: string, now: int)
      requires Valid()
      modifies this
      ensures Valid()
      ensures messages == old(messages) + [Message(UserEntryId(now), text, User)]
      ensures isTyping && streamingMessage == ""
      ensures isLoadingPageContent == (Contains(text, Marker) || old(isLoadingPageContent))
      ensures isConfigured == old(isConfigured) && showApiKeyInput == old(showApiKeyInput)
      ensures currentStreamingId == old(currentStreamingId)
      ensures sends == old(sends) + [Resolving(text, old(messages))]
    {
      var snapshot := messages;
      messages := messages + [Message(UserEntryId(now), text, User)];
      isTyping := true;
      streamingMessage := "";
      if Contains(text, Marker) {
        isLoadingPageContent := true;
      }
      ConsistentAppend(sends, currentStreamingId, Resolving(text, snapshot));
      sends := sends + [Resolving(text, snapshot)];
    }

    /**
     * The `await processBodyReference(...)` step of `handleSend`: the relay is asked only when
     * the input holds the marker, and then loading ends whatever the outcome. The result is the
     * processed input or the error `handleSend` catches; nothing else the panel shows changes.
     */
    method ResolveReference(k: nat, query: Call<seq<Tab>>, replies: Replies)
      returns (processed: Result<string, string>)
      requires Valid() && k < |sends| && sends[k].Resolving?
      modifies this, relay
      ensures Valid() && sends == old(sends)[k := Resolved(old(sends[k].snapshot), processed)]
      ensures processed == ProcessBodyReference(old(sends[k].input), FetchOutcome(query, replies))
      ensures !Contains(old(sends[k].input), Marker) ==>
                relay.cachedContent == old(relay.cachedContent) && ViewOf() == old(ViewOf())
      ensures var fetched := FetchOutcome(query, replies);
              Contains(old(sends[k].input), Marker) ==>
                && relay.cachedContent == (if fetched.Some? then fetched else old(relay.cachedContent))
                && ViewOf() == old(ViewOf()).(isLoadingPageContent := false)
    {
      var input := sends[k].input;
      if Contains(input, Marker) {
        var fetched := relay.GetCurrentPageContent(query, replies);
        isLoadingPageContent := false;
        processed := ProcessBodyReference(input, fetched);
      } else {
        processed := Ok(input);
      }
      ConsistentReplace(sends, currentStreamingId, k, Resolved(sends[k].snapshot, processed));
      sends := sends[k := Resolved(sends[k].snapshot, processed)];
    }

    /**
     * The rest of `handleSend` once `processBodyReference` has settled. A failure appends one
     * error entry and leaves the current request alone. Otherwise this request becomes the
     * current one, the history is built from the transcript the send started from, and the
     * client is called; without a client its `onError` arrives at once.
     */
    method Proceed(k: nat, stream: Stream, now: int)
      requires Valid() && k < |sends| && sends[k].Resolved?
      requires sends[k].processed.Ok? ==> FreshId(sends, StreamId(now))
      modifies this
      ensures Valid() && |sends| == |old(sends)|
      ensures var processed := old(sends[k].processed);
              processed.Err? ==>
                && messages == old(messages) + [Message(SendErrorId(now), "Error: " + processed.error, Assistant)]
                && !isTyping && streamingMessage == ""
                && currentStreamingId == old(currentStreamingId)
                && sends == old(sends)[k := Abandoned]
      ensures var processed := old(sends[k].processed);
              processed.Ok? && service.client.Some? ==>
                && messages == old(messages) && isTyping == old(isTyping)
                && streamingMessage == old(streamingMessage)
                && currentStreamingId == Some(StreamId(now))
                && sends == old(sends)[k := Streaming(StreamId(now),
                                                      Some(BuildHistory(old(sends[k].snapshot), processed.value)),
                                                      ChunkCallbacks(stream.deltas) + [Terminal(stream.ending)], 0, "")]
      ensures old(sends[k].processed.Ok?) && service.client.None? ==>
                && messages == old(messages) + [Message(StreamId(now), "Error: " + NotInitialized, Assistant)]
                && !isTyping && streamingMessage == "" && currentStreamingId.None?
                && sends == old(sends)[k := Streaming(StreamId(now), None, [OnError(NotInitialized)], 1, "")]
      ensures isConfigured == old(isConfigured) && showApiKeyInput == old(showApiKeyInput)
      ensures isLoadingPageContent == old(isLoadingPageContent)
    {
      if sends[k].processed.Err? {
        Abandon(k, now);
      } else {
        StartRequest(k, stream, now);
      }
    }

    /** The catch branch of `handleSend`: one error entry, and the panel stops waiting. */
    method Abandon(k: nat, now: int)
      requires Valid() && k < |sends| && sends[k].Resolved? && sends[k].processed.Err?
      modifies this
      ensures Valid()
      ensures messages == old(messages) + [Message(SendErrorId(now), "Error: " + old(sends[k].processed.error), Assistant)]
      ensures !isTyping && streamingMessage == ""
      ensures ViewOf() == old(ViewOf()).(messages := messages, isTyping := false, streamingMessage := "")
      ensures sends == old(sends)[k := Abandoned]
    {
      messages := messages + [Message(SendErrorId(now), "Error: " + sends[k].processed.error, Assistant)];
      isTyping := false;
      streamingMessage := "";
      ConsistentReplace(sends, currentStreamingId, k, Abandoned);
      sends := sends[k := Abandoned];
    }

    /**
     * The request part of `handleSend`: this send becomes the current one and the client is
     * called with the history built from the transcript the send started from.
     */
    method StartRequest(k: nat, stream: Stream, now: int)
      requires Valid() && k < |sends| && sends[k].Resolved? && sends[k].processed.Ok?
      requires FreshId(sends, StreamId(now))
      modifies this
      ensures Valid()
      ensures service.client.Some? ==>
                && ViewOf() == old(ViewOf()).(currentStreamingId := Some(StreamId(now)))
                && sends == old(sends)[k := Streaming(StreamId(now), Some(BuildHistory(old(sends[k].snapshot), old(sends[k].processed.value))),
                                                      ChunkCallbacks(stream.deltas) + [Terminal(stream.ending)], 0, "")]
      ensures service.client.None? ==>
                && messages == old(messages) + [Message(StreamId(now), "Error: " + NotInitialized, Assistant)]
                && !isTyping && streamingMessage == "" && currentStreamingId.None?
                && isLoadingPageContent == old(isLoadingPageContent)
                && isConfigured == old(isConfigured) && showApiKeyInput == old(showApiKeyInput)
                && sends == old(sends)[k := Streaming(StreamId(now), None, [OnError(NotInitialized)], 1, "")]
    {
      ghost var previous := currentStreamingId;
      var id := StreamId(now);
      currentStreamingId := Some(id);
      var history := BuildHistory(sends[k].snapshot, sends[k].processed.value);
      var request, trace := service.SendMessageStream(history, stream);
      ConsistentStart(sends, previous, k, Streaming(id, request, trace, 0, ""));
      sends := sends[k := Streaming(id, request, trace, 0, "")];
      if request.None? {
        Deliver(k);
      }
    }

    /**
     * One callback of request `k` reaches the panel. For a request that is no longer current it
     * changes nothing the panel shows. For the current one: a chunk extends the streamed text to
     * the text of all its chunks so far; the terminal callback appends one entry, tagged with the
     * request's id, holding all of that text or the error, and ends the request.
     */
    method Deliver(k: nat)
      requires Valid() && k < |sends| && sends[k].Streaming? && sends[k].delivered < |sends[k].trace|
      modifies this
      ensures Valid() && |sends| == |old(sends)|
      ensures forall j :: 0 <= j < |sends| && j != k ==> sends[j] == old(sends[j])
      ensures var s := old(sends[k]);
              var live := old(currentStreamingId) == Some(s.id);
              var cb := s.trace[s.delivered];
              sends[k] == s.(delivered := s.delivered + 1,
                             accumulated := if live && cb.OnChunk? then ChunkText(s.trace[..s.delivered + 1])
                                            else s.accumulated)
      ensures var s := old(sends[k]);
              old(currentStreamingId) != Some(s.id) ==> ViewOf() == old(ViewOf())
      ensures var s := old(sends[k]);
              var cb := s.trace[s.delivered];
              old(currentStreamingId) == Some(s.id) && cb.OnChunk? ==>
                && streamingMessage == ChunkText(s.trace[..s.delivered + 1])
                && ViewOf() == old(ViewOf()).(streamingMessage := streamingMessage)
      ensures var s := old(sends[k]);
              var cb := s.trace[s.delivered];
              old(currentStreamingId) == Some(s.id) && !cb.OnChunk? ==>
                && s.delivered + 1 == |s.trace|
                && messages == old(messages) + [Message(s.id, FinalContent(s.trace), Assistant)]
                && streamingMessage == "" && !isTyping && currentStreamingId.None?
                && isLoadingPageContent == old(isLoadingPageContent)
                && isConfigured == old(isConfigured) && showApiKeyInput == old(showApiKeyInput)
    {
      if sends[k].trace[sends[k].delivered].OnChunk? {
        DeliverChunk(k);
      } else {
        DeliverEnd(k);
      }
    }

    /**
     * The `onChunk` callback of request `k`: for the current request the streamed text grows by
     * the chunk; for any other request nothing the panel shows changes.
     */
    method DeliverChunk(k: nat)
      requires Valid() && k < |sends| && sends[k].Streaming? && sends[k].delivered < |sends[k].trace|
      requires sends[k].trace[sends[k].delivered].OnChunk?
      modifies this
      ensures Valid()
      ensures var s := old(sends[k]);
              var live := old(currentStreamingId) == Some(s.id);
              sends == old(sends)[k := s.(delivered := s.delivered + 1,
                                          accumulated := if live then ChunkText(s.trace[..s.delivered + 1]) else s.accumulated)]
      ensures old(currentStreamingId) != Some(old(sends[k].id)) ==> ViewOf() == old(ViewOf())
      ensures var s := old(sends[k]);
              old(currentStreamingId) == Some(s.id) ==>
                ViewOf() == old(ViewOf()).(streamingMessage := ChunkText(s.trace[..s.delivered + 1]))
    {
      var s := sends[k];
      var next := s.(delivered := s.delivered + 1);
      if currentStreamingId == Some(s.id) {
        ConsistentChunk(sends, currentStreamingId, k);
        var acc := s.accumulated + s.trace[s.delivered].text;
        streamingMessage := acc;
        next := next.(accumulated := acc);
      } else {
        ConsistentStale(sends, currentStreamingId, k);
      }
      sends := sends[k := next];
    }

    /**
     * The `onComplete` or `onError` callback of request `k`: the current request appends one
     * entry, tagged with its id, holding its streamed text or the error, and ends; for any other
     * request nothing the panel shows changes.
     */
    method DeliverEnd(k: nat)
      requires Valid() && k < |sends| && sends[k].Streaming? && sends[k].delivered < |sends[k].trace|
      requires !sends[k].trace[sends[k].delivered].OnChunk?
      modifies this
      ensures Valid() && sends == old(sends)[k := old(sends[k]).(delivered := old(sends[k]).delivered + 1)]
      ensures old(currentStreamingId) != Some(old(sends[k].id)) ==> ViewOf() == old(ViewOf())
      ensures var s := old(sends[k]);
              old(currentStreamingId) == Some(s.id) ==>
                && s.delivered + 1 == |s.trace|
                && ViewOf() == old(ViewOf()).(messages := old(messages) + [Message(s.id, FinalContent(s.trace), Assistant)],
                                              streamingMessage := "", isTyping := false, currentStreamingId := None)
    {
      var s := sends[k];
      if currentStreamingId == Some(s.id) {
        ConsistentFinish(sends, currentStreamingId, k);
        var content := if s.trace[s.delivered].OnError? then "Error: " + s.trace[s.delivered].message else s.accumulated;
        messages := messages + [Message(s.id, content, Assistant)];
        streamingMessage := "";
        isTyping := false;
        currentStreamingId := None;
      } else {
        ConsistentStale(sends, currentStreamingId, k);
      }
      sends := sends[k := s.(delivered := s.delivered + 1)];
    }

    /**
     * All remaining callbacks of request `k`, in order. If it was current, the transcript gains
     * exactly one entry, its final content; if it was not, nothing the panel shows changes.
     */
    method DeliverAll(k: nat)
      requires Valid() && k < |sends| && sends[k].Streaming?
      modifies this
      ensures Valid() && |sends| == |old(sends)|
      ensures forall j :: 0 <= j < |sends| && j != k ==> sends[j] == old(sends[j])
      ensures sends[k].Streaming? && sends[k].id == old(sends[k].id) && sends[k].trace == old(sends[k].trace)
              && sends[k].request == old(sends[k].request) && sends[k].delivered == |sends[k].trace|
      ensures old(currentStreamingId) != Some(old(sends[k].id)) ==>
                ViewOf() == old(ViewOf()) && sends[k].accumulated == old(sends[k].accumulated)
      ensures old(currentStreamingId) == Some(old(sends[k].id)) ==> sends[k].accumulated == ChunkText(old(sends[k].trace))
      ensures old(currentStreamingId) == Some(old(sends[k].id)) ==>
                && messages == old(messages) + [Message(old(sends[k].id), FinalContent(old(sends[k].trace)), Assistant)]
                && streamingMessage == "" && !isTyping && currentStreamingId.None?
                && isLoadingPageContent == old(isLoadingPageContent)
                && isConfigured == old(isConfigured) && showApiKeyInput == old(showApiKeyInput)
    {
      var id, trace := sends[k].id, sends[k].trace;
      var live := currentStreamingId == Some(id);
      while sends[k].delivered < |trace|
        invariant Valid() && |sends| == |old(sends)|
        invariant forall j :: 0 <= j < |sends| && j != k ==> sends[j] == old(sends[j])
        invariant sends[k].Streaming? && sends[k].id == id && sends[k].trace == trace
        invariant sends[k].request == old(sends[k].request)
        invariant !live ==> ViewOf() == old(ViewOf()) && sends[k].accumulated == old(sends[k].accumulated)
        invariant live && sends[k].delivered < |trace| ==>
                    && currentStreamingId == Some(id) && messages == old(messages) && isTyping == old(isTyping)
                    && isLoadingPageContent == old(isLoadingPageContent)
                    && isConfigured == old(isConfigured) && showApiKeyInput == old(showApiKeyInput)
        invariant live && sends[k].delivered == |trace| ==>
                    && sends[k].accumulated == ChunkText(trace)
                    && messages == old(messages) + [Message(id, FinalContent(trace), Assistant)]
                    && streamingMessage == "" && !isTyping && currentStreamingId.None?
                    && isLoadingPageContent == old(isLoadingPageContent)
                    && isConfigured == old(isConfigured) && showApiKeyInput == old(showApiKeyInput)
        decreases |trace| - sends[k].delivered
      {
        ghost var d := sends[k].delivered;
        ghost var before := sends[k].accumulated;
        if live {
          assert before == ChunkText(trace[..d]);
        }
        Deliver(k);
        if live && sends[k].delivered == |trace| {
          LastChunkText(trace, d);
        }
      }
    }
  }

  /**
   * A send without the marker, on a configured panel whose service has a client: the user entry
   * is appended and the request, current from then on, carries the transcript the send started
   * from followed by the trimmed input.
   */
  method PlainSend(panel: ChatPanel, input: string, stream: Stream, t0: int, t1: int,
                   query: Call<seq<Tab>>, replies: Replies)
    returns (k: nat)
    requires panel.Valid() && panel.isConfigured && panel.service.client.Some?
    requires Trim(input) != "" && !Contains(Trim(input), Marker)
    requires FreshId(panel.sends, StreamId(t1))
    modifies panel, panel.relay
    ensures panel.Valid() && panel.isConfigured && k == |old(panel.sends)|
    ensures panel.messages == old(panel.messages) + [Message(UserEntryId(t0), Trim(input), User)]
    ensures panel.sends == old(panel.sends) + [Streaming(StreamId(t1), Some(BuildHistory(old(panel.messages), Trim(input))),
                                                         ChunkCallbacks(stream.deltas) + [Terminal(stream.ending)], 0, "")]
    ensures panel.currentStreamingId == Some(StreamId(t1))
  {
    k := EnterPlain(panel, input, t0, t1, query, replies);
    panel.Proceed(k, stream, t1);
    ReplaceLast(old(panel.sends), Resolved(old(panel.messages), Ok(Trim(input))), panel.sends[k]);
  }

  /**
   * The first two events of a marker-free send on a configured panel: the user entry is
   * appended and, without asking the relay, the send records the trimmed input as its result.
   */
  method EnterPlain(panel: ChatPanel, input: string, t0: int, t1: int,
                    query: Call<seq<Tab>>, replies: Replies)
    returns (k: nat)
    requires panel.Valid() && panel.isConfigured && panel.service.client.Some?
    requires Trim(input) != "" && !Contains(Trim(input), Marker)
    requires FreshId(panel.sends, StreamId(t1))
    modifies panel, panel.relay
    ensures panel.Valid() && panel.isConfigured && panel.service.client.Some? && k == |old(panel.sends)|
    ensures panel.messages == old(panel.messages) + [Message(UserEntryId(t0), Trim(input), User)]
    ensures panel.sends == old(panel.sends) + [Resolved(old(panel.messages), Ok(Trim(input)))]
    ensures FreshId(panel.sends, StreamId(t1))
  {
    k := panel.Send(input, t0);
    var processed := panel.ResolveReference(k, query, replies);
    var resolved := Resolved(old(panel.messages), Ok(Trim(input)));
    ReplaceLast(old(panel.sends), Resolving(Trim(input), old(panel.messages)), resolved);
    FreshAppend(old(panel.sends), resolved, StreamId(t1));
  }

  /**
   * A marker-free send as the first of two: what the second send needs of it. The request it
   * starts is current and streams under its own id, and the id the second will use stays unused.
   */
  method FirstOfTwo(panel: ChatPanel, input: string, stream: Stream, t0: int, t1: int, t3: int,
                    query: Call<seq<Tab>>, replies: Replies)
    returns (k: nat)
    requires panel.Valid() && panel.isConfigured && panel.service.client.Some?
    requires Trim(input) != "" && !Contains(Trim(input), Marker)
    requires t1 != t3
    requires FreshId(panel.sends, StreamId(t1)) && FreshId(panel.sends, StreamId(t3))
    modifies panel, panel.relay
    ensures panel.Valid() && panel.isConfigured && k == |old(panel.sends)| && k < |panel.sends|
    ensures panel.messages == old(panel.messages) + [Message(UserEntryId(t0), Trim(input), User)]
    ensures panel.sends[k].Streaming? && panel.sends[k].id == StreamId(t1)
    ensures panel.currentStreamingId == Some(StreamId(t1))
    ensures FreshId(panel.sends, StreamId(t3))
  {
    ghost var s0 := panel.sends;
    k := PlainSend(panel, input, stream, t0, t1, query, replies);
    FreshAppend(s0, panel.sends[k], StreamId(t3));
  }

  /**
   * Two sends overlap: the second starts and becomes current while the first is still
   * streaming. The transcript gains both user entries, and the second history holds the first
   * user entry but no reply to it.
   */
  method StartTwoSends(panel: ChatPanel, first: string, second: string, stream1: Stream, stream2: Stream,
                       t0: int, t1: int, t2: int, t3: int,
                       query: Call<seq<Tab>>, replies: Replies)
    returns (a: nat, b: nat)
    requires panel.Valid() && panel.isConfigured && panel.service.client.Some?
    requires Trim(first) != "" && !Contains(Trim(first), Marker)
    requires Trim(second) != "" && !Contains(Trim(second), Marker)
    requires t1 != t3
    requires FreshId(panel.sends, StreamId(t1)) && FreshId(panel.sends, StreamId(t3))
    modifies panel, panel.relay
    ensures panel.Valid() && a < b < |panel.sends|
    ensures var user1 := Message(UserEntryId(t0), Trim(first), User);
            var user2 := Message(UserEntryId(t2), Trim(second), User);
            && panel.messages == old(panel.messages) + [user1] + [user2]
            && panel.sends[a].Streaming? && panel.sends[a].id == StreamId(t1)
            && panel.sends[b] == Streaming(StreamId(t3), Some(BuildHistory(old(panel.messages) + [user1], Trim(second))),
                                           ChunkCallbacks(stream2.deltas) + [Terminal(stream2.ending)], 0, "")
            && panel.currentStreamingId == Some(StreamId(t3))
  {
    a := FirstOfTwo(panel, first, stream1, t0, t1, t3, query, replies);
    ghost var s1 := panel.sends;
    b := PlainSend(panel, second, stream2, t2, t3, query, replies);
    assert panel.sends[a] == s1[a] by { assert panel.sends == s1 + [panel.sends[b]]; }
  }

  /**
   * Whatever the first of two overlapping requests delivers after the second has started is
   * discarded: the transcript gains the two user entries and only the second request's reply.
   */
  method OverlappingSends(panel: ChatPanel, first: string, second: string, stream1: Stream, stream2: Stream,
                          t0: int, t1: int, t2: int, t3: int,
                          query: Call<seq<Tab>>, replies: Replies)
    requires panel.Valid() && panel.isConfigured && panel.service.client.Some?
    requires Trim(first) != "" && !Contains(Trim(first), Marker)
    requires Trim(second) != "" && !Contains(Trim(second), Marker)
    requires t1 != t3
    requires FreshId(panel.sends, StreamId(t1)) && FreshId(panel.sends, StreamId(t3))
    modifies panel, panel.relay
    ensures panel.Valid()
    ensures var user1 := Message(UserEntryId(t0), Trim(first), User);
            var user2 := Message(UserEntryId(t2), Trim(second), User);
            var trace2 := ChunkCallbacks(stream2.deltas) + [Terminal(stream2.ending)];
            panel.messages == old(panel.messages) + [user1] + [user2] + [Message(StreamId(t3), FinalContent(trace2), Assistant)]
    ensures !panel.isTyping && panel.streamingMessage == "" && panel.currentStreamingId.None?
  {
    var a, b := StartTwoSends(panel, first, second, stream1, stream2, t0, t1, t2, t3, query, replies);
    ghost var m2, p := panel.messages, panel.sends[b];
    assert panel.currentStreamingId != Some(panel.sends[a].id);
    panel.DeliverAll(a);
    assert panel.messages == m2 && panel.sends[b] == p && panel.currentStreamingId == Some(p.id);
    panel.DeliverAll(b);
  }
}
