/**
 * The completion client: it holds the API key and the SDK client built from it, and turns one
 * chat-completion request into callbacks (streaming) or a reply text (single response).
 */
module CompletionClient {
  import opened Common
  import opened JsString

  const NotInitialized := "OpenAI client not initialized. Please set your API key first."
  const InvalidApiKey := "Invalid API key. Please check your OpenAI API key."
  const RateLimited := "Rate limit exceeded. Please try again later."
  const QuotaExceeded := "API quota exceeded. Please check your OpenAI account."
  const RequestFailed := "Failed to get response from OpenAI. Please try again."
  const Unexpected := "An unexpected error occurred."
  const NoResponse := "Sorry, I couldn't generate a response."

  datatype Role = UserRole | AssistantRole | SystemRole

  /** One entry of the `messages` array sent to the completion endpoint. */
  datatype ChatMessage = ChatMessage(role: Role, content: string)

  /** The SDK client, built from a key. */
  datatype Client = Client(apiKey: string)

  /** What a failed request throws: an `Error` with its message, or some other value. */
  datatype Failure = ErrorObject(message: string) | OtherValue

  /**
   * What the streaming endpoint delivers: the `delta.content` of each chunk in arrival order
   * (absent when a chunk has none), then either the end of the stream or a failure. A request
   * rejected before any chunk is a stream with no deltas that ends in a failure.
   */
  datatype Stream = Stream(deltas: seq<Option<string>>, ending: Option<Failure>)

  /** What the non-streaming endpoint does: it answers with `choices[0]?.message?.content`, or it throws. */
  datatype Response = Answered(content: Option<string>) | Rejected(failure: Failure)

  /** One invocation of a callback passed to `sendMessageStream`. */
  datatype Callback = OnChunk(text: string) | OnComplete | OnError(message: string)

  /** Whether a stored key or a field holding one is truthy. */
  predicate IsTruthy(key: Option<string>) {
    key.Some? && key.value != ""
  }

  // ----- Error classification -----

  /** The shared if-chain on an `Error`'s message: the first of `401`, `429`, `quota` it contains decides. */
  function ClassifyErrorMessage(m: string): (r: string)
    ensures r == InvalidApiKey <==> Contains(m, "401")
    ensures r == RateLimited <==> !Contains(m, "401") && Contains(m, "429")
    ensures r == QuotaExceeded <==> !Contains(m, "401") && !Contains(m, "429") && Contains(m, "quota")
    ensures r == RequestFailed <==> !Contains(m, "401") && !Contains(m, "429") && !Contains(m, "quota")
  {
    if Contains(m, "401") then InvalidApiKey
    else if Contains(m, "429") then RateLimited
    else if Contains(m, "quota") then QuotaExceeded
    else RequestFailed
  }

  /** The message `sendMessageStream` passes to `onError` for a failure. */
  function StreamErrorText(f: Failure): (r: string)
    ensures f.OtherValue? <==> r == Unexpected
  {
    match f
    case ErrorObject(m) => ClassifyErrorMessage(m)
    case OtherValue => Unexpected
  }

  /** The message of the `Error` that `sendMessage` throws for a failure. */
  function SendErrorText(f: Failure): (r: string)
    ensures r in {InvalidApiKey, RateLimited, QuotaExceeded, RequestFailed}
  {
    match f
    case ErrorObject(m) => ClassifyErrorMessage(m)
    case OtherValue => RequestFailed
  }

  /** The two entry points classify an `Error` alike; they differ exactly on a thrown non-`Error` value. */
  lemma ClassificationsAgree(f: Failure)
    ensures StreamErrorText(f) == SendErrorText(f) <==> f.ErrorObject?
    ensures f.OtherValue? ==> StreamErrorText(f) == Unexpected && SendErrorText(f) == RequestFailed
  {
  }

  // ----- Callback traces -----

  /** The non-empty delta texts, in arrival order. */
  function ChunkTexts(deltas: seq<Option<string>>): (r: seq<string>)
    ensures |r| <= |deltas|
    ensures forall i :: 0 <= i < |r| ==> r[i] != ""
  {
    if deltas == [] then []
    else
      var last := deltas[|deltas| - 1];
      ChunkTexts(deltas[..|deltas| - 1]) + (if last.Some? && last.value != "" then [last.value] else [])
  }

  /** The `onChunk` calls a stream's deltas produce: one per non-empty delta, in arrival order. */
  function ChunkCallbacks(deltas: seq<Option<string>>): (r: seq<Callback>)
    ensures |r| == |ChunkTexts(deltas)|
    ensures forall i :: 0 <= i < |r| ==> r[i] == OnChunk(ChunkTexts(deltas)[i])
  {
    if deltas == [] then []
    else
      var last := deltas[|deltas| - 1];
      ChunkCallbacks(deltas[..|deltas| - 1]) + (if last.Some? && last.value != "" then [OnChunk(last.value)] else [])
  }

  /** The concatenation of a sequence of strings. */
  function Concat(parts: seq<string>): string {
    if parts == [] then "" else Concat(parts[..|parts| - 1]) + parts[|parts| - 1]
  }

  /** The text of the `onChunk` calls of a trace, concatenated in order. */
  function ChunkText(trace: seq<Callback>): string {
    if trace == [] then ""
    else ChunkText(trace[..|trace| - 1]) + (match trace[|trace| - 1] case OnChunk(t) => t case _ => "")
  }

  /** The chunks of a stream carry exactly its delta text: missing deltas count as empty. */
  lemma {:induction false} ChunkTextOfDeltas(deltas: seq<Option<string>>)
    ensures ChunkText(ChunkCallbacks(deltas)) == Concat(ChunkTexts(deltas))
  {
    if deltas != [] {
      var init := deltas[..|deltas| - 1];
      var last := deltas[|deltas| - 1];
      ChunkTextOfDeltas(init);
      if last.Some? && last.value != "" {
        var cs := ChunkCallbacks(init) + [OnChunk(last.value)];
        assert cs[..|cs| - 1] == ChunkCallbacks(init);
        var ts := ChunkTexts(init) + [last.value];
        assert ts[..|ts| - 1] == ChunkTexts(init);
      } else {
        assert ChunkCallbacks(init) + [] == ChunkCallbacks(init);
        assert ChunkTexts(init) + [] == ChunkTexts(init);
      }
    }
  }

  /** A terminal callback adds nothing to the chunk text. */
  lemma ChunkTextWithTerminal(chunks: seq<Callback>, terminal: Callback)
    requires !terminal.OnChunk?
    ensures ChunkText(chunks + [terminal]) == ChunkText(chunks)
  {
    assert (chunks + [terminal])[..|chunks|] == chunks;
  }

  /**
   * The discipline of one streaming call: every callback but the last is `onChunk` with
   * non-empty text, and the last is the one terminal callback (`onComplete` or `onError`).
   */
  ghost predicate WellFormedTrace(trace: seq<Callback>) {
    && |trace| >= 1
    && (forall i :: 0 <= i < |trace| - 1 ==> trace[i].OnChunk? && trace[i].text != "")
    && !trace[|trace| - 1].OnChunk?
  }

  /** The terminal callback that ends a stream. */
  function Terminal(ending: Option<Failure>): (c: Callback)
    ensures c.OnComplete? <==> ending.None?
    ensures ending.Some? ==> c == OnError(StreamErrorText(ending.value))
  {
    match ending
    case None => OnComplete
    case Some(f) => OnError(StreamErrorText(f))
  }

  // ----- The service -----

  class OpenAIService {
    var client: Option<Client>
    var apiKey: Option<string>

    constructor ()
      ensures client.None? && apiKey.None?
    {
      client := None;
      apiKey := None;
    }

    /** `isConfigured()`: a client exists and the key is truthy. */
    predicate IsConfigured()
      reads this
    {
      client.Some? && IsTruthy(apiKey)
    }

    /**
     * `initialize()`, given what reading the stored key did: the key field takes the stored
     * value, a client is built only from a truthy key (an existing client is kept otherwise),
     * and the result tells whether a client exists. A failed read changes nothing.
     */
    method Initialize(stored: Call<Option<string>>) returns (ok: bool)
      modifies this
      ensures stored.Threw? ==> !ok && client == old(client) && apiKey == old(apiKey)
      ensures stored.Returned? ==> apiKey == stored.value
      ensures stored.Returned? ==> client == if IsTruthy(stored.value) then Some(Client(stored.value.value)) else old(client)
      ensures stored.Returned? ==> ok == client.Some?
    {
      if stored.Threw? {
        return false;
      }
      apiKey := stored.value;
      if IsTruthy(apiKey) {
        client := Some(Client(apiKey.value));
      }
      ok := client.Some?;
    }

    /** `setApiKey(key)`, given whether writing the key to storage succeeded. */
    method SetApiKey(key: string, write: Call<()>) returns (ok: bool)
      modifies this
      ensures ok <==> write.Returned?
      ensures ok ==> apiKey == Some(key) && client == Some(Client(key))
      ensures ok ==> (IsConfigured() <==> key != "")
      ensures !ok ==> client == old(client) && apiKey == old(apiKey)
    {
      if write.Threw? {
        return false;
      }
      apiKey := Some(key);
      client := Some(Client(key));
      ok := true;
    }

    /** `clearApiKey()`, given whether removing the key from storage succeeded. */
    method ClearApiKey(removal: Call<()>) returns (ok: bool)
      modifies this
      ensures ok <==> removal.Returned?
      ensures ok ==> client.None? && apiKey.None? && !IsConfigured()
      ensures !ok ==> client == old(client) && apiKey == old(apiKey)
    {
      if removal.Threw? {
        return false;
      }
      apiKey := None;
      client := None;
      ok := true;
    }

    /**
     * `sendMessage(messages)`: without a client it throws the configuration error and makes no
     * request; otherwise it returns the answer's content, or the fallback text when that is
     * missing or empty, or throws the classified error.
     */
    method SendMessage(messages: seq<ChatMessage>, response: Response)
      returns (request: Option<seq<ChatMessage>>, r: Result<string, string>)
      ensures client.None? ==> request.None? && r == Err(NotInitialized)
      ensures client.Some? ==> request == Some(messages)
      ensures client.Some? && response.Answered? ==>
                r == Ok(if IsTruthy(response.content) then response.content.value else NoResponse)
      ensures client.Some? && response.Rejected? ==> r == Err(SendErrorText(response.failure))
      ensures r.Ok? ==> r.value != ""
    {
      if client.None? {
        return None, Err(NotInitialized);
      }
      request := Some(messages);
      match response
      case Answered(content) =>
        r := Ok(if IsTruthy(content) then content.value else NoResponse);
      case Rejected(f) =>
        r := Err(SendErrorText(f));
    }

    /**
     * `sendMessageStream(messages, onChunk, onComplete, onError)`, as the sequence of callback
     * invocations it makes. Without a client: one `onError` with the configuration message and
     * no request. Otherwise: one `onChunk` per non-empty delta in arrival order, then exactly one
     * terminal callback, `onComplete` when the stream ends and the classified `onError` when it fails.
     */
    method SendMessageStream(messages: seq<ChatMessage>, stream: Stream)
      returns (request: Option<seq<ChatMessage>>, callbacks: seq<Callback>)
      ensures client.None? ==> request.None? && callbacks == [OnError(NotInitialized)]
      ensures client.Some? ==> request == Some(messages)
      ensures client.Some? ==> callbacks == ChunkCallbacks(stream.deltas) + [Terminal(stream.ending)]
      ensures WellFormedTrace(callbacks)
    {
      if client.None? {
        return None, [OnError(NotInitialized)];
      }
      request := Some(messages);
      callbacks := [];
      var i := 0;
      while i < |stream.deltas|
        invariant 0 <= i <= |stream.deltas|
        invariant callbacks == ChunkCallbacks(stream.deltas[..i])
      {
        var content := match stream.deltas[i] case Some(c) => c case None => "";
        if content != "" {
          callbacks := callbacks + [OnChunk(content)];
        }
        assert stream.deltas[..i + 1][..i] == stream.deltas[..i];
        i := i + 1;
      }
      assert stream.deltas[..i] == stream.deltas;
      match stream.ending
      case None =>
        callbacks := callbacks + [OnComplete];
      case Some(f) =>
        callbacks := callbacks + [OnError(StreamErrorText(f))];
    }
  }
}
