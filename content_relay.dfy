/**
 * The side panel's page-content service: it asks the active tab's content script for a
 * snapshot, keeps the last one it received, and formats a snapshot for the model.
 */
module ContentRelay {
  import opened Common
  import opened JsString

  const DefaultMaxLength := 8000
  /** Characters kept free below the limit when the content is cut. */
  const SafetyMargin := 50
  const TruncationNotice := "\n\n[Content truncated due to length...]"

  /** An entry of the `chrome.tabs.query` result; the id may be missing. */
  datatype Tab = Tab(id: Option<int>)

  // ----- Formatting -----

  /** The fixed lines that precede the page text. */
  function Header(title: string, url: string): (h: string)
    ensures |h| == |title| + |url| + 28
  {
    "Page Title: " + title + "\nURL: " + url + "\nContent:\n"
  }

  /**
   * `formatContentForAI`: the header followed by the page text, or, when that is longer than
   * `maxLength`, by as much of the text as the budget `maxLength - header - 50` allows (none when
   * the budget is negative) and the truncation notice.
   */
  function FormatContentForAI(content: PageContent, maxLength: int := DefaultMaxLength): (r: string)
    ensures Header(content.title, content.url) <= r
  {
    var formatted := "Page Title: " + content.title + "\n" + "URL: " + content.url + "\n"
                     + "Content:\n" + content.textContent;
    if |formatted| > maxLength then
      var titleAndUrl := "Page Title: " + content.title + "\nURL: " + content.url + "\nContent:\n";
      var availableLength := maxLength - |titleAndUrl| - SafetyMargin;
      var truncatedContent := Substring(content.textContent, 0, availableLength);
      titleAndUrl + truncatedContent + TruncationNotice
    else
      formatted
  }

  /** Text that fits is formatted as header and text, nothing cut and nothing added. */
  lemma FormatFits(content: PageContent, maxLength: int)
    requires |Header(content.title, content.url)| + |content.textContent| <= maxLength
    ensures FormatContentForAI(content, maxLength) == Header(content.title, content.url) + content.textContent
  {
  }

  /**
   * Text that does not fit becomes header, a prefix of the text as long as the clamped budget,
   * and the notice; the prefix is the whole text only when the text is empty.
   */
  lemma FormatTruncates(content: PageContent, maxLength: int)
    requires |Header(content.title, content.url)| + |content.textContent| > maxLength
    ensures var h := Header(content.title, content.url);
            var n := Clamp(maxLength - |h| - SafetyMargin, |content.textContent|);
            && FormatContentForAI(content, maxLength) == h + content.textContent[..n] + TruncationNotice
            && (n < |content.textContent| || content.textContent == [])
  {
    var h := Header(content.title, content.url);
    var n := Clamp(maxLength - |h| - SafetyMargin, |content.textContent|);
    var sub := Substring(content.textContent, 0, maxLength - |h| - SafetyMargin);
    assert sub == content.textContent[..n];
  }

  /** With a non-negative budget the cut output is exactly 12 characters under the limit. */
  lemma FormatTruncatedLength(content: PageContent, maxLength: int)
    requires |Header(content.title, content.url)| + |content.textContent| > maxLength
    requires |Header(content.title, content.url)| + SafetyMargin <= maxLength
    ensures |FormatContentForAI(content, maxLength)| == maxLength - 12
  {
    FormatTruncates(content, maxLength);
  }

  /**
   * With a negative budget `substring` clamps it to 0: all of the text is dropped and the
   * output is the header and the notice, whatever the limit.
   */
  lemma FormatNegativeBudget(content: PageContent, maxLength: int)
    requires |Header(content.title, content.url)| + |content.textContent| > maxLength
    requires |Header(content.title, content.url)| > maxLength - SafetyMargin
    ensures FormatContentForAI(content, maxLength) == Header(content.title, content.url) + TruncationNotice
  {
    FormatTruncates(content, maxLength);
    assert content.textContent[..0] == [];
  }

  /**
   * The output stays within the limit exactly when the untruncated text fits or the header and
   * the 38-character notice fit; a long title or address breaks the bound.
   */
  lemma FormatWithinLimitIff(content: PageContent, maxLength: int)
    ensures var h := Header(content.title, content.url);
            |FormatContentForAI(content, maxLength)| <= maxLength
            <==> |h| + |content.textContent| <= maxLength || |h| + |TruncationNotice| <= maxLength
  {
    var h := Header(content.title, content.url);
    if |h| + |content.textContent| > maxLength {
      FormatTruncates(content, maxLength);
    }
  }

  /** A short page is formatted as the three labelled lines and its text. */
  lemma FormatExample(content: PageContent)
    requires content == PageContent("hello world", "T", "u", 0)
    ensures FormatContentForAI(content) == "Page Title: T\nURL: u\nContent:\n" + "hello world"
  {
    FormatFits(content, DefaultMaxLength);
    assert Header("T", "u") == "Page Title: T\nURL: u\nContent:\n";
  }

  /** A concrete input whose formatted text exceeds the limit it was formatted for. */
  lemma FormatCanExceedLimit()
    ensures |FormatContentForAI(PageContent("hello", "T", "u", 0), 10)| == 68
  {
    FormatNegativeBudget(PageContent("hello", "T", "u", 0), 10);
  }

  // ----- Fetching -----

  /** The id `activeTab?.id` yields when it is truthy: the first tab exists and its id is present and not 0. */
  function ActiveTabId(tabs: seq<Tab>): (id: Option<int>)
    ensures id.Some? <==> |tabs| > 0 && tabs[0].id.Some? && tabs[0].id.value != 0
    ensures id.Some? ==> id == tabs[0].id
  {
    if |tabs| > 0 && tabs[0].id.Some? && tabs[0].id.value != 0 then tabs[0].id else None
  }

  /**
   * The reply of each tab's content script to `getPageContent` (null when it could not extract);
   * a tab without an entry has no listening content script.
   */
  type Replies = map<int, Option<PageContent>>

  /** What `chrome.tabs.sendMessage(id, …)` settles to: the tab's reply, or a rejection when no script listens. */
  function SendToTab(replies: Replies, id: int): (c: Call<Option<PageContent>>)
    ensures c.Returned? <==> id in replies
    ensures c.Returned? ==> c.value == replies[id]
  {
    if id in replies then Returned(replies[id]) else Threw
  }

  /**
   * What `getCurrentPageContent` resolves to, given what `chrome.tabs.query` and
   * `chrome.tabs.sendMessage` (addressed by tab id) do: a snapshot only when both return and the
   * reply is present; null on every other path.
   */
  function FetchOutcome(query: Call<seq<Tab>>, replies: Replies): (r: Option<PageContent>)
    ensures r.Some? ==> query.Returned? && ActiveTabId(query.value).Some?
                         && SendToTab(replies, ActiveTabId(query.value).value) == Returned(r)
    ensures r.None? <==> || query.Threw?
                         || ActiveTabId(query.value).None?
                         || SendToTab(replies, ActiveTabId(query.value).value).Threw?
                         || SendToTab(replies, ActiveTabId(query.value).value).value.None?
  {
    match query
    case Threw => None
    case Returned(tabs) =>
      match ActiveTabId(tabs)
      case None => None
      case Some(id) =>
        match SendToTab(replies, id)
        case Threw => None
        case Returned(reply) => reply
  }

  /** The service object; its one field is the last snapshot a request received. */
  class PageContentService {
    var cachedContent: Option<PageContent>

    constructor ()
      ensures cachedContent.None?
    {
      cachedContent := None;
    }

    /** Fetches the active tab's snapshot; only a present reply replaces the cached one. */
    method GetCurrentPageContent(query: Call<seq<Tab>>, replies: Replies)
      returns (r: Option<PageContent>)
      modifies this
      ensures r == FetchOutcome(query, replies)
      ensures cachedContent == if r.Some? then r else old(cachedContent)
    {
      if query.Threw? {
        return None;
      }
      var activeTab := ActiveTabId(query.value);
      if activeTab.None? {
        return None;
      }
      var reply := SendToTab(replies, activeTab.value);
      if reply.Threw? {
        return None;
      }
      var content := reply.value;
      if content.Some? {
        cachedContent := content;
        return content;
      }
      return None;
    }

    method GetCachedContent() returns (r: Option<PageContent>)
      ensures r == cachedContent
    {
      r := cachedContent;
    }

    method ClearCache()
      modifies this
      ensures cachedContent.None?
    {
      cachedContent := None;
    }
  }
}
