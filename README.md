# Side-panel chat assistant: a Dafny model

The extension is a browser side panel that chats with a completion endpoint. A content script in
each tab answers `GET_PAGE_CONTENT` requests with the page's cleaned-up text. The panel replaces
every `@body` in the user's message with that text, formatted under a title and URL header, and
streams the reply into its transcript. This project models that pipeline and proves properties of it.

- `common.dfy` (`Common`) defines `Option`, `Result`, `Call` and `PageContent`.
  - A `Call` is `Returned(value)` or `Threw`: what an awaited browser or storage call settles to.
  - `PageContent` is the snapshot a content script sends back.
- `js_string.dfy` (`JsString`) models the JavaScript string built-ins the code relies on.
  - These are `\s` and `trim`, `includes`, and `substring` with its clamping and swapping.
  - Replace-all comes in two forms: the literal one, and `String.prototype.replace` with its
    `$`-pattern expansion (the GetSubstitution step of ECMAScript).
  - One `char` stands for one UTF-16 code unit.
- `content_extractor.dfy` (`ContentExtractor`) models the content script.
  - It covers the three-step whitespace cleanup, the missing-body case and the message listener.
- `content_relay.dfy` (`ContentRelay`) models `formatContentForAI` and the `PageContentService` class.
  - The class's one field is the cached snapshot.
  - `chrome.tabs.query` and `chrome.tabs.sendMessage` are inputs: a `Call` of the tab list, and a
    map from tab id to each content script's reply. A tab without an entry makes the message call reject.
- `completion_client.dfy` (`CompletionClient`) models the `OpenAIService` class.
  - Its fields are `client` and `apiKey`. Storage reads and writes are `Call` inputs.
  - The classification of errors is shared by the two request paths.
  - The streaming endpoint is an input `Stream`: the deltas in arrival order, then the end of the
    stream or a failure. `SendMessageStream` turns it into the callbacks it makes, in order.
- `orchestrator.dfy` (`Orchestrator`) models the logic of the `App` component as the class `ChatPanel`.
  - Its fields are the component's state variables and `currentStreamingId`.
  - Each `handleSend` is split at its `await` points into events, which other sends may interleave with:
    - `Send`: the synchronous start;
    - `ResolveReference`: the `await` of `processBodyReference`, whose result the send records;
    - `Proceed`: what follows, up to the request, acting on that recorded result;
    - `Deliver`: one callback of that request reaching the panel, as `DeliverChunk` (`onChunk`)
      or `DeliverEnd` (`onComplete` and `onError`).
  - The field `sends` records how far each send has got. It is ordinary state, not ghost: a
    streaming send's `accumulated` stands for the closure variable `accumulatedMessage`, and the
    terminal callback reads it.
  - The invariant `Valid` states two things:
    - every request's callbacks follow the client's discipline;
    - the current request has accumulated exactly the text of the chunks delivered to it.
  - The clock reading `Date.now()` is a parameter `now`.

`formatContentForAI` keeps its output within `maxLength` only when the header and the 38-character
truncation notice fit. With a long title or address the budget `maxLength - header - 50` is
negative, `substring` clamps it to 0, and the output is the header and the notice, which is longer
than `maxLength` once the header is more than `maxLength - 38` characters long. The model follows the code. `FormatWithinLimitIff` states exactly when the bound
holds, and `FormatCanExceedLimit` gives an input where it fails.

## Model

| member | source | states |
|---|---|---|
| JsString.TrimStart | entrypoints/content.ts:42 | the result is a suffix of the input, everything dropped is whitespace, and the result does not start with whitespace |
| JsString.TrimEnd | entrypoints/content.ts:42 | the result is a prefix of the input, everything dropped is whitespace, and the result does not end with whitespace |
| JsString.Trim | entrypoints/sidepanel/App.tsx:78 | neither end of the result is whitespace, and the result is empty exactly when the input is all whitespace (the blank-input test of `handleSend`) |
| JsString.IsWhitespace | entrypoints/content.ts:40 | the `\s` class and the set `trim` strips: ECMAScript WhiteSpace and LineTerminator |
| JsString.TrimUnchanged | entrypoints/content.ts:42 | a string with no whitespace at either end is its own trim |
| JsString.Contains | entrypoints/sidepanel/App.tsx:53 | `includes`: some suffix of the text starts with the pattern; `ContainsAt` gives the other direction |
| JsString.ContainsAt | entrypoints/sidepanel/App.tsx:53 | an occurrence of the pattern at any position makes `includes` true |
| JsString.Clamp | entrypoints/sidepanel/page-content-service.ts:58 | a `substring` bound is clamped into `[0, length]`, and a bound already in range is kept |
| JsString.Substring | entrypoints/sidepanel/page-content-service.ts:58 | from position 0 or below, `substring` is the prefix as long as the clamped end, and it is never longer than the string |
| JsString.ReplaceAll | entrypoints/sidepanel/App.tsx:67 | literal replace-all scanning from the left over non-overlapping occurrences; its meaning is stated by `ReplaceAllNoMatch`, `ReplaceAllLeftmost` and `ReplaceAllSingle` |
| JsString.ReplaceAllNoMatch | entrypoints/sidepanel/App.tsx:67 | a text without the pattern comes back unchanged from replace-all |
| JsString.ReplaceAllLeftmost | entrypoints/sidepanel/App.tsx:67 | the leftmost occurrence is replaced, the text before it is kept, and scanning resumes after it |
| JsString.ReplaceAllSingle | entrypoints/sidepanel/App.tsx:67 | a text with exactly one occurrence (none begins before it or overlaps it, none after it) keeps everything around it and has only that occurrence replaced |
| JsString.ExpandWithoutDollar | entrypoints/sidepanel/App.tsx:67 | a replacement string without `$` is inserted as it is by `String.prototype.replace` |
| JsString.ExpandReplacement | entrypoints/sidepanel/App.tsx:67 | GetSubstitution for a pattern without capture groups: `$$`, `$&`, `` $` `` and `$'` expanded, every other `$` kept |
| JsString.JsReplaceFrom | entrypoints/sidepanel/App.tsx:67 | the scan of the global `replace` from one position, expanding the replacement at each match with the text before and after it |
| JsString.JsReplaceAll | entrypoints/sidepanel/App.tsx:67 | `String.prototype.replace` with a global pattern of plain characters and a string replacement; compared with `ReplaceAll` by `JsReplaceAllLiteral` and `DollarInPageText` |
| JsString.JsReplaceFromLiteral | entrypoints/sidepanel/App.tsx:67 | from any position, the built-in global replace with a `$`-free replacement is the literal replace-all |
| JsString.JsReplaceAllLiteral | entrypoints/sidepanel/App.tsx:67 | the built-in global replace with a `$`-free replacement equals the literal replace-all |
| ContentExtractor.CollapseWhitespace | entrypoints/content.ts:40 | the result holds no whitespace but spaces and no two spaces in a row, starts with a space exactly when the input starts with whitespace, and is empty exactly when the input is; that each run becomes exactly one space is stated by `CollapseRun`, `CollapseAppend` and `CollapseBetweenWords` |
| ContentExtractor.LastNewlineInRun | entrypoints/content.ts:41 | the greedy `\s*` between two newlines ends at the last newline of the leading whitespace run: the index found is a newline with only whitespace up to it, and no later position of the run is a newline; -1 exactly when the run holds no newline |
| ContentExtractor.CollapseRun | entrypoints/content.ts:40 | a non-empty whitespace run on its own becomes exactly one space |
| ContentExtractor.CollapseAppend | entrypoints/content.ts:40 | where two texts meet at no whitespace run, collapsing their concatenation is collapsing each and concatenating |
| ContentExtractor.CollapseBetweenWords | entrypoints/content.ts:40 | a whitespace run between two words becomes exactly one space, so words are never glued together |
| ContentExtractor.CollapseBlankLines | entrypoints/content.ts:41 | `replace(/\n\s*\n/g, '\n')` as a left-to-right scan that replaces each match, found through `LastNewlineInRun`, by one newline; its effect after the first step is stated by `BlankLinePassIsNoOp` |
| ContentExtractor.Clean | entrypoints/content.ts:39-42 | the three-step chain, run replacement then blank-line replacement then trim; its meaning is stated by the `Clean…` lemmas |
| ContentExtractor.RawText | entrypoints/content.ts:36 | `textContent`, or `innerText` when that is empty (both are strings here, so the final `''` is `innerText` itself when both are empty) |
| ContentExtractor.ExtractPageContent | entrypoints/content.ts:6-49 | null exactly when there is no body; otherwise the title, the address, the capture time and the cleaned text of `textContent`, or of `innerText` when that is empty |
| ContentExtractor.OnMessage | entrypoints/content.ts:53-59 | the listener answers exactly the `GET_PAGE_CONTENT` messages, with the extracted snapshot, and ignores every other message |
| ContentExtractor.CollapseBlankLinesWithoutNewline | entrypoints/content.ts:41 | a text without newlines passes the `\n\s*\n` replacement unchanged |
| ContentExtractor.BlankLinePassIsNoOp | entrypoints/content.ts:40-41 | after the run replacement no newline is left, so the blank-line replacement changes nothing |
| ContentExtractor.CollapsedShape | entrypoints/content.ts:40-41 | after the first two replacements the only whitespace is single spaces |
| ContentExtractor.TrimKeepsShape | entrypoints/content.ts:42 | trimming a text whose only whitespace is single spaces keeps that shape and drops only spaces |
| ContentExtractor.TrimStartKeepsShape | entrypoints/content.ts:42 | the same for the leading end |
| ContentExtractor.TrimEndKeepsShape | entrypoints/content.ts:42 | the same for the trailing end |
| ContentExtractor.CollapseKeepsNonWhitespace | entrypoints/content.ts:40 | deleting the spaces of the collapsed text is deleting all whitespace of the input |
| ContentExtractor.CleanOnlySpaces | entrypoints/content.ts:39-42 | the cleaned text holds no whitespace character other than a plain space |
| ContentExtractor.CleanNoDoubleSpace | entrypoints/content.ts:39-42 | the cleaned text never holds two spaces in a row |
| ContentExtractor.CleanTrimmed | entrypoints/content.ts:39-42 | the cleaned text has no whitespace at either end, and is empty exactly when the input is all whitespace |
| ContentExtractor.CleanKeepsNonWhitespace | entrypoints/content.ts:39-42 | deleting the spaces of the cleaned text gives the input with all its whitespace deleted: every other character is kept, in order |
| ContentExtractor.CollapseUnchanged | entrypoints/content.ts:40 | a text already in collapsed shape passes the run replacement unchanged |
| ContentExtractor.CleanIdempotent | entrypoints/content.ts:39-42 | cleaning the cleaned text changes nothing |
| ContentRelay.Header | entrypoints/sidepanel/page-content-service.ts:54 | the header is 28 characters longer than the title and the address together |
| ContentRelay.FormatContentForAI | entrypoints/sidepanel/page-content-service.ts:47-63 | the output always starts with the header, in both branches |
| ContentRelay.FormatFits | entrypoints/sidepanel/page-content-service.ts:47-53 | when header and text fit within `maxLength`, the output is exactly the header followed by the text |
| ContentRelay.FormatTruncates | entrypoints/sidepanel/page-content-service.ts:53-59 | when they do not fit, the output is the header, a prefix of the text as long as the clamped budget, then the truncation notice; the prefix is shorter than the text unless the text is empty |
| ContentRelay.FormatTruncatedLength | entrypoints/sidepanel/page-content-service.ts:55-59 | when cutting with a non-negative budget, the output is exactly `maxLength - 12` long |
| ContentRelay.FormatNegativeBudget | entrypoints/sidepanel/page-content-service.ts:55-58 | with a negative budget all of the text is dropped: the output is the header and the notice |
| ContentRelay.FormatWithinLimitIff | entrypoints/sidepanel/page-content-service.ts:47-62 | the output is within `maxLength` if and only if the text fits or the header and the notice fit |
| ContentRelay.FormatExample | entrypoints/sidepanel/page-content-service.ts:48-50 | title `T`, address `u` and text `hello world` format as `Page Title: T\nURL: u\nContent:\nhello world` |
| ContentRelay.FormatCanExceedLimit | entrypoints/sidepanel/page-content-service.ts:55-59 | a concrete page formatted for limit 10 comes out 68 characters long |
| ContentRelay.ActiveTabId | entrypoints/sidepanel/page-content-service.ts:15-17 | a tab id is used only when the first tab exists and its id is present and not 0 (truthy) |
| ContentRelay.SendToTab | entrypoints/sidepanel/page-content-service.ts:23-25 | the message call returns the tab's reply exactly when a content script in that tab answers, and rejects otherwise |
| ContentRelay.FetchOutcome | entrypoints/sidepanel/page-content-service.ts:11-36 | a snapshot results only when the tab query returns, the first tab has a truthy id, and that tab answers with a non-null reply; null on every other path, thrown errors included |
| ContentRelay.PageContentService.constructor | entrypoints/sidepanel/page-content-service.ts:9 | the cache starts empty |
| ContentRelay.PageContentService.GetCurrentPageContent | entrypoints/sidepanel/page-content-service.ts:11-37 | returns the fetch outcome; only a snapshot replaces the cached one, and on every null path the cache is unchanged |
| ContentRelay.PageContentService.GetCachedContent | entrypoints/sidepanel/page-content-service.ts:39-41 | returns the last snapshot cached |
| ContentRelay.PageContentService.ClearCache | entrypoints/sidepanel/page-content-service.ts:43-45 | the cache is empty afterwards |
| CompletionClient.ClassifyErrorMessage | entrypoints/sidepanel/openai-service.ts:118-126 | first match wins: `401` gives the invalid-key text, otherwise `429` the rate-limit text, otherwise `quota` the quota text, otherwise the generic text; each text in both directions |
| CompletionClient.StreamErrorText | entrypoints/sidepanel/openai-service.ts:117-129 | for streaming, a thrown non-`Error` value, and only that, gives `An unexpected error occurred.` |
| CompletionClient.SendErrorText | entrypoints/sidepanel/openai-service.ts:74-83 | `sendMessage` always throws one of the four classified texts, with the generic one for a non-`Error` value |
| CompletionClient.ClassificationsAgree | entrypoints/sidepanel/openai-service.ts:74-83 | the two paths classify an `Error` alike and differ exactly on a non-`Error` value |
| CompletionClient.ChunkTexts | entrypoints/sidepanel/openai-service.ts:107-112 | the chunk texts are non-empty, and there are no more of them than deltas |
| CompletionClient.ChunkCallbacks | entrypoints/sidepanel/openai-service.ts:107-112 | there is one `onChunk` per non-empty delta, in arrival order, carrying that delta's text |
| CompletionClient.ChunkTextOfDeltas | entrypoints/sidepanel/openai-service.ts:107-112 | the chunks of a stream carry exactly the concatenation of its non-empty delta texts |
| CompletionClient.ChunkTextWithTerminal | entrypoints/sidepanel/openai-service.ts:114 | a terminal callback adds nothing to the chunk text |
| CompletionClient.Terminal | entrypoints/sidepanel/openai-service.ts:114-129 | the terminal callback is `onComplete` exactly when the stream ends without failure, and otherwise `onError` with the classified text |
| CompletionClient.OpenAIService.constructor | entrypoints/sidepanel/openai-service.ts:4-5 | no client and no key at first |
| CompletionClient.IsTruthy | entrypoints/sidepanel/openai-service.ts:12 | a key is truthy when it is present and not empty |
| CompletionClient.OpenAIService.IsConfigured | entrypoints/sidepanel/openai-service.ts:53-55 | `isConfigured()`: a client exists and the key is truthy |
| CompletionClient.OpenAIService.Initialize | entrypoints/sidepanel/openai-service.ts:7-24 | the key field takes the stored value; a client is built only from a truthy key, and an existing client is kept otherwise; the result tells whether a client exists; a failed read changes nothing and gives false |
| CompletionClient.OpenAIService.SetApiKey | entrypoints/sidepanel/openai-service.ts:26-39 | succeeds exactly when the storage write does; then key and client are set from the key, and `isConfigured()` holds exactly when the key is non-empty; on failure both fields are unchanged |
| CompletionClient.OpenAIService.ClearApiKey | entrypoints/sidepanel/openai-service.ts:41-51 | succeeds exactly when the storage removal does; then both fields are cleared and `isConfigured()` is false; on failure both are unchanged |
| CompletionClient.OpenAIService.SendMessage | entrypoints/sidepanel/openai-service.ts:57-85 | without a client it throws the configuration error and makes no request; otherwise it sends the messages and returns the content, or the fallback text when that is missing or empty, or throws the classified error; a returned text is never empty |
| CompletionClient.OpenAIService.SendMessageStream | entrypoints/sidepanel/openai-service.ts:87-131 | without a client there is exactly one `onError` with the configuration text and no request; otherwise one `onChunk` per non-empty delta in order, then exactly one terminal callback; every trace is chunks followed by one terminal callback |
| Orchestrator.ProcessBodyReference | entrypoints/sidepanel/App.tsx:52-75 | a message without `@body` is kept as it is; with it, a null snapshot is the content-unavailable error, and a snapshot replaces every marker with the introduction and the formatted content |
| Orchestrator.SubstituteBody | entrypoints/sidepanel/App.tsx:67 | every marker replaced literally by the introduction and the formatted snapshot; the corrected half of the `$` finding |
| Orchestrator.SubstituteBodyAsWritten | entrypoints/sidepanel/App.tsx:67 | the same through the built-in `replace`, which expands `$` patterns; the as-written half of the `$` finding |
| Orchestrator.SubstituteOneMarker | entrypoints/sidepanel/App.tsx:67 | with exactly one marker (none begins in the text before it or overlaps it, none follows), the text around it is kept and the marker becomes the introduction followed by the formatted snapshot |
| Orchestrator.SummarizeExample | entrypoints/sidepanel/App.tsx:66-67 | `Summarize @body` with the short page becomes `Summarize the following page content:\n\nPage Title: T\nURL: u\nContent:\nhello world` |
| Orchestrator.SubstituteAsWrittenMarkerOnly | entrypoints/sidepanel/App.tsx:67 | under the built-in replace, a message that is just the marker becomes the `$`-expansion of the inserted text |
| Orchestrator.DollarInPageText | entrypoints/sidepanel/App.tsx:67 | a page text `$&` comes back as `@body` under the built-in replace, where the literal substitution keeps `$&` |
| Orchestrator.SubstituteAgreesWithoutDollar | entrypoints/sidepanel/App.tsx:67 | when the inserted text has no `$`, the built-in replace and the literal substitution agree |
| Orchestrator.HistoryOf | entrypoints/sidepanel/App.tsx:105-108 | the transcript mapped in order: a user entry gets role `user`, every other entry `assistant`, with the content unchanged |
| Orchestrator.RoleOf | entrypoints/sidepanel/App.tsx:106 | a user entry maps to the user role and every other entry to the assistant role |
| Orchestrator.BuildHistory | entrypoints/sidepanel/App.tsx:105-110 | the history is the mapped transcript followed by one user entry holding the processed input |
| Orchestrator.FinalContentOfStream | entrypoints/sidepanel/App.tsx:122-148 | the entry a request leaves is the concatenated delta text when its stream ends, and `Error: ` with the classified text when it fails |
| Orchestrator.FinalContent | entrypoints/sidepanel/App.tsx:124-146 | the content of the entry a trace leaves: `Error: ` and the message after `onError`, otherwise the text of all its chunks |
| Orchestrator.ConsistentAppend | entrypoints/sidepanel/App.tsx:94 | recording a send that has not reached the client keeps the panel's invariant |
| Orchestrator.ConsistentReplace | entrypoints/sidepanel/App.tsx:151-161 | a send that had not reached the client and is abandoned keeps the invariant |
| Orchestrator.FreshAppend | entrypoints/sidepanel/App.tsx:102 | an id no request streams under stays unused when a send is recorded under another id |
| Orchestrator.ConsistentStart | entrypoints/sidepanel/App.tsx:102-103 | a request with a fresh id and well-formed callbacks, none delivered yet, may become the current one and keeps the invariant |
| Orchestrator.ConsistentStale | entrypoints/sidepanel/App.tsx:117 | a callback of a request that is not current only advances its delivery count and keeps the invariant |
| Orchestrator.ConsistentChunk | entrypoints/sidepanel/App.tsx:116-121 | a chunk of the current request is not its last callback, its text extended by the chunk is the text of the chunks delivered so far, and the invariant is kept |
| Orchestrator.ConsistentFinish | entrypoints/sidepanel/App.tsx:122-149 | a terminal callback of the current request is its last; on completion the accumulated text is the final content; with no request current the invariant holds |
| Orchestrator.ChatPanel.constructor | entrypoints/sidepanel/App.tsx:14-31 | the panel starts with the greeting alone, nothing in progress, not configured, and the key prompt hidden |
| Orchestrator.ChatPanel.InitializeOpenAI | entrypoints/sidepanel/App.tsx:41-50 | the panel is configured exactly when the stored key was read and the service has a client; if not, the key prompt opens; the service's key takes the stored value and a client is built exactly from a truthy key (an earlier client is kept otherwise); a failed read leaves both service fields; nothing else the panel shows changes |
| Orchestrator.ChatPanel.HandleSetApiKey | entrypoints/sidepanel/App.tsx:171-182 | a blank key changes nothing; a stored key sets the service's key and client from the trimmed key, configures the panel and hides the prompt, and nothing else the panel shows changes; a failed write changes nothing the panel shows and leaves both service fields |
| Orchestrator.ChatPanel.HandleClearApiKey | entrypoints/sidepanel/App.tsx:184-192 | after confirmation and a successful removal, both service fields are cleared, the panel is unconfigured, the prompt opens and nothing else the panel shows changes; otherwise nothing changes |
| Orchestrator.ChatPanel.Send | entrypoints/sidepanel/App.tsx:77-97 | blank input changes nothing; an unconfigured panel only opens the key prompt and appends no message; otherwise the trimmed input (not the substituted one) becomes a user entry, the panel waits, loading starts when the input holds the marker, and the current request is untouched |
| Orchestrator.ChatPanel.Enter | entrypoints/sidepanel/App.tsx:85-97 | the accepted start of a send: one user entry, waiting state, loading when the marker is present |
| Orchestrator.ChatPanel.ResolveReference | entrypoints/sidepanel/App.tsx:52-75 | the result is `processBodyReference` of the recorded input and the relay's outcome; the relay is asked only when the input holds the marker, and then loading ends whatever the outcome; without the marker the relay, its cache and everything the panel shows are untouched; the send records the settled result, and no other send changes phase |
| Orchestrator.ChatPanel.Proceed | entrypoints/sidepanel/App.tsx:99-161 | acts on the result the send recorded when `processBodyReference` settled: a failure appends exactly one `Error: …` entry, stops the waiting, starts no request and leaves the current request alone; otherwise this send becomes current with the history built from the transcript it started from, and a missing client yields the configuration error entry at once |
| Orchestrator.ChatPanel.Abandon | entrypoints/sidepanel/App.tsx:151-161 | for a send whose recorded result is an error, one entry with that error is appended, the panel stops waiting, and nothing else it shows changes |
| Orchestrator.ChatPanel.StartRequest | entrypoints/sidepanel/App.tsx:102-114 | for a send whose recorded result is the processed input, this send becomes current and the client receives the history built from the transcript the send started from followed by that input |
| Orchestrator.ChatPanel.Deliver | entrypoints/sidepanel/App.tsx:116-149 | a callback of a request that is not current changes nothing the panel shows; for the current one, a chunk sets the streamed text to all its chunk text so far, and the terminal callback appends exactly one entry with the request's id (all of the chunk text, or `Error: ` and the message) and clears the streaming text, the waiting and the current id |
| Orchestrator.ChatPanel.DeliverChunk | entrypoints/sidepanel/App.tsx:116-121 | a chunk for a request that is not current changes nothing the panel shows; for the current one the streamed text becomes the text of all of its chunks so far |
| Orchestrator.ChatPanel.DeliverEnd | entrypoints/sidepanel/App.tsx:122-149 | a terminal callback for a request that is not current changes nothing the panel shows; for the current one it is the last callback, the transcript gains exactly one entry with the request's id and final content, and the streaming text, the waiting and the current id are cleared |
| Orchestrator.ChatPanel.DeliverAll | entrypoints/sidepanel/App.tsx:116-149 | all remaining callbacks of a request: if it was current the transcript gains exactly its final entry, the streaming text, the waiting and the current id are cleared and the loading and key flags are kept, and the request keeps the text of all its chunks; if not, nothing the panel shows changes and neither does its text; either way the request, its id and its callbacks are kept and every callback is delivered |
| Orchestrator.PlainSend | entrypoints/sidepanel/App.tsx:77-114 | a marker-free send on a configured panel appends the user entry and makes a request current whose history is the prior transcript followed by the trimmed input |
| Orchestrator.EnterPlain | entrypoints/sidepanel/App.tsx:77-100 | a marker-free send on a configured panel appends its user entry and records the trimmed input as its settled result, leaving a fresh id fresh |
| Orchestrator.FirstOfTwo | entrypoints/sidepanel/App.tsx:77-114 | the first of two sends appends its user entry and becomes current under its own id, and the id of the later send stays unused |
| Orchestrator.StartTwoSends | entrypoints/sidepanel/App.tsx:99-110 | when a second send starts while the first streams, the second becomes current and its history holds the first user entry but no reply to it |
| Orchestrator.OverlappingSends | entrypoints/sidepanel/App.tsx:116-137 | whatever the superseded request delivers is discarded: the transcript gains the two user entries and only the second request's reply |

## Left out

- DOM cloning and the removal of unwanted elements by selector (`entrypoints/content.ts:11-33`) are not modelled. Browser selector and `textContent` semantics are not modelled; the body's `textContent` and `innerText` are inputs.
- `chrome.tabs`, `chrome.storage.sync` and `chrome.runtime.onMessage` are abstract inputs and results; a thrown error is `Threw`.
- The OpenAI SDK request itself is not modelled. That covers the model name, temperature, `max_tokens` and the `new OpenAI(…)` constructor, which is assumed not to throw. The request is recorded as the messages it would carry.
- Callbacks are assumed not to throw. A throwing `onChunk` would leave the `for await` loop before `onComplete`, so the `catch`'s `onError` would be the only terminal callback, after fewer chunks. A throwing `onComplete` would reach the same `catch` and produce a second terminal callback. The model covers neither.
- React rendering, scrolling, textarea sizing, the input box's own state, `alert` and `confirm` are not modelled. The confirmation answer is an input to `HandleClearApiKey`.
- The event loop is not modelled. Overlapping sends are explicit interleavings of `Send`, `ResolveReference`, `Proceed` and `Deliver` calls.
- The history is built from the transcript at the moment the send starts. In the component it is the `messages` value the handler closed over at its last render.
- Ids derived from `Date.now()` are ids over a clock parameter. `Proceed` requires, when `processBodyReference` succeeded, that no request already streams under the new id; the error path uses no stream id and needs nothing. The component could collide when two sends resolve in the same millisecond.
- Message timestamps (`new Date()`) are not modelled.
- Console logging is not modelled.
- The `catch` branch of `handleSend` that formats a non-`Error` value cannot be reached: everything that can throw there throws an `Error`. Only the `Error` branch is modelled.
- Unicode beyond one UTF-16 code unit per `char` is not modelled. `\s`, `trim`, `length` and `substring` count code units.

## Findings

| source | as written | input that shows it | evidently intended | confidence | as-written member | corrected member |
|---|---|---|---|---|---|---|
| entrypoints/sidepanel/App.tsx:67 | `message.replace(/@body/g, text)` takes the formatted page text as a replacement pattern, so `$&`, `$$`, `` $` `` and `$'` in the page text, title or address are expanded | page text `$&` with message `@body`: the marker comes back instead of the page text | every `@body` replaced by the formatted page text literally | not executed | Orchestrator.DollarInPageText (over Orchestrator.SubstituteBodyAsWritten) | Orchestrator.ProcessBodyReference, which uses Orchestrator.SubstituteBody; Orchestrator.SubstituteOneMarker proves the text is inserted as it is |
