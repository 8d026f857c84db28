/**
 * The content script: on a `GET_PAGE_CONTENT` request it answers with the page's text, its
 * whitespace collapsed, together with the title, the address and the capture time.
 */
module ContentExtractor {
  import opened Common
  import opened JsString

  const GetPageContent := "GET_PAGE_CONTENT"

  /** The document's `<body>` after the excluded elements were removed from its copy. */
  datatype Body = Body(textContent: string, innerText: string)

  /** What the content script can see of the page when a request arrives. */
  datatype Document = Document(body: Option<Body>, title: string, url: string)

  /** A message on the runtime channel, by its `type` field. */
  datatype RuntimeMessage = RuntimeMessage(msgType: string)

  /** What the listener does with a message: nothing, or `sendResponse` with a snapshot or null. */
  datatype ListenerAction = Ignore | Respond(reply: Option<PageContent>)

  /** Every whitespace character the text holds is a plain space. */
  ghost predicate OnlySpaces(s: string) {
    forall i :: 0 <= i < |s| && IsWhitespace(s[i]) ==> s[i] == ' '
  }

  /** `s` with every plain space deleted. */
  function RemoveSpaces(s: string): string {
    if s == [] then [] else (if s[0] == ' ' then [] else [s[0]]) + RemoveSpaces(s[1..])
  }

  /** `s` with every whitespace character deleted. */
  function RemoveWhitespace(s: string): string {
    if s == [] then [] else (if IsWhitespace(s[0]) then [] else [s[0]]) + RemoveWhitespace(s[1..])
  }

  /**
   * `s.replace(/\s+/g, ' ')`: each maximal run of whitespace becomes one space. The result holds
   * no whitespace but spaces, never two spaces in a row, and starts with a space exactly when
   * `s` starts with whitespace.
   */
  function CollapseWhitespace(s: string): (r: string)
    ensures OnlySpaces(r)
    ensures !Contains(r, "  ")
    ensures (r != [] && r[0] == ' ') <==> (s != [] && IsWhitespace(s[0]))
    ensures r == [] <==> s == []
    decreases |s|
  {
    if s == [] then []
    else if IsWhitespace(s[0]) then
      var rest := TrimStart(s);
      var tail := CollapseWhitespace(rest);
      assert (" " + tail)[1..] == tail;
      " " + tail
    else
      var tail := CollapseWhitespace(s[1..]);
      assert ([s[0]] + tail)[0] != ' ';
      assert ([s[0]] + tail)[1..] == tail;
      [s[0]] + tail
  }

  /** The characters of `t` up to and including position `j` are all whitespace. */
  ghost predicate WhitespaceThrough(t: string, j: int)
    requires j < |t|
  {
    forall i :: 0 <= i <= j ==> IsWhitespace(t[i])
  }

  /**
   * The end of the match of `\n\s*\n` that starts just before `t`, as an index into `t`: the
   * last newline inside the run of whitespace `t` starts with (the `\s*` is greedy and gives
   * back characters until a newline follows), or -1 when that run holds no newline.
   */
  function LastNewlineInRun(t: string): (k: int)
    ensures -1 <= k < |t|
    ensures k >= 0 ==> t[k] == '\n' && WhitespaceThrough(t, k)
    ensures forall j :: k < j < |t| && WhitespaceThrough(t, j) ==> t[j] != '\n'
    decreases |t|
  {
    if t == [] || !IsWhitespace(t[0]) then
      -1
    else
      var k := LastNewlineInRun(t[1..]);
      assert forall j :: 1 <= j < |t| && WhitespaceThrough(t, j) ==> WhitespaceThrough(t[1..], j - 1) by {
        forall j | 1 <= j < |t| && WhitespaceThrough(t, j)
          ensures WhitespaceThrough(t[1..], j - 1)
        {
          assert forall i :: 0 <= i <= j - 1 ==> t[1..][i] == t[i + 1];
        }
      }
      assert k >= 0 ==> WhitespaceThrough(t, k + 1) by {
        if k >= 0 {
          assert forall i :: 1 <= i <= k + 1 ==> t[i] == t[1..][i - 1];
        }
      }
      assert forall j :: 1 <= j < |t| ==> t[j] == t[1..][j - 1];
      if k >= 0 then k + 1 else if t[0] == '\n' then 0 else -1
  }

  /** `s.replace(/\n\s*\n/g, '\n')`: each blank-line run, from its first newline to its last, becomes one newline. */
  function CollapseBlankLines(s: string): string
    decreases |s|
  {
    if s == [] then []
    else if s[0] == '\n' && LastNewlineInRun(s[1..]) >= 0 then
      "\n" + CollapseBlankLines(s[LastNewlineInRun(s[1..]) + 2..])
    else [s[0]] + CollapseBlankLines(s[1..])
  }

  /** The cleanup chain applied to the extracted text. */
  function Clean(s: string): string {
    Trim(CollapseBlankLines(CollapseWhitespace(s)))
  }

  /** `clone.textContent || clone.innerText || ''`. */
  function RawText(body: Body): string {
    if body.textContent != "" then body.textContent else body.innerText
  }

  /** `extractPageContent`: null without a body, otherwise a snapshot carrying the cleaned text. */
  function ExtractPageContent(doc: Document, now: int): (r: Option<PageContent>)
    ensures r.None? <==> doc.body.None?
    ensures r.Some? ==> r.value == PageContent(Clean(RawText(doc.body.value)), doc.title, doc.url, now)
  {
    match doc.body
    case None => None
    case Some(body) => Some(PageContent(Clean(RawText(body)), doc.title, doc.url, now))
  }

  /** The runtime-message listener: it answers page-content requests and ignores every other message. */
  function OnMessage(message: RuntimeMessage, doc: Document, now: int): (a: ListenerAction)
    ensures a.Respond? <==> message.msgType == GetPageContent
    ensures a.Respond? ==> a.reply == ExtractPageContent(doc, now)
  {
    if message.msgType == GetPageContent then Respond(ExtractPageContent(doc, now)) else Ignore
  }

  // ----- Lemmas about the cleanup -----

  /** A non-empty run of whitespace on its own becomes one space. */
  lemma {:induction false} CollapseRun(w: string)
    requires w != [] && AllWhitespace(w)
    ensures CollapseWhitespace(w) == " "
  {
    assert TrimStart(w) == [] by {
      TrimStartSkip(w, []);
      assert w + [] == w;
    }
  }

  /**
   * Where `a` and `b` meet at no whitespace run (one of them is empty, or `a` ends or `b`
   * starts with a character other than whitespace), the replacement works on each part alone.
   */
  lemma {:induction false} CollapseAppend(a: string, b: string)
    requires a == [] || b == [] || !IsWhitespace(a[|a| - 1]) || !IsWhitespace(b[0])
    ensures CollapseWhitespace(a + b) == CollapseWhitespace(a) + CollapseWhitespace(b)
    decreases |a|, 1
  {
    if a == [] {
      assert a + b == b;
    } else if b == [] {
      assert a + b == a;
    } else if !IsWhitespace(a[0]) {
      CollapseAppendAtWord(a, b);
    } else if AllWhitespace(a) {
      CollapseAppendAfterRun(a, b);
    } else {
      CollapseAppendAtRun(a, b);
    }
  }

  /** The case of `CollapseAppend` where `a` starts with a character other than whitespace. */
  lemma {:induction false} CollapseAppendAtWord(a: string, b: string)
    requires a != [] && b != [] && !IsWhitespace(a[0])
    requires !IsWhitespace(a[|a| - 1]) || !IsWhitespace(b[0])
    ensures CollapseWhitespace(a + b) == CollapseWhitespace(a) + CollapseWhitespace(b)
    decreases |a|, 0
  {
    var ab := a + b;
    assert ab[0] == a[0] && ab[1..] == a[1..] + b;
    assert CollapseWhitespace(ab) == [a[0]] + CollapseWhitespace(a[1..] + b);
    assert CollapseWhitespace(a) == [a[0]] + CollapseWhitespace(a[1..]);
    assert a[1..] != [] ==> a[1..][|a[1..]| - 1] == a[|a| - 1];
    CollapseAppend(a[1..], b);
    AppendAssoc([a[0]], CollapseWhitespace(a[1..]), CollapseWhitespace(b));
  }

  /** The case of `CollapseAppend` where all of `a` is one whitespace run, so `b` starts a word. */
  lemma {:induction false} CollapseAppendAfterRun(a: string, b: string)
    requires a != [] && b != [] && AllWhitespace(a) && !IsWhitespace(b[0])
    ensures CollapseWhitespace(a + b) == CollapseWhitespace(a) + CollapseWhitespace(b)
  {
    var ab := a + b;
    assert ab[0] == a[0];
    assert CollapseWhitespace(ab) == " " + CollapseWhitespace(TrimStart(ab));
    TrimStartSkip(a, b);
    assert TrimStart(b) == b;
    CollapseRun(a);
  }

  /** The case of `CollapseAppend` where `a` starts with a whitespace run that ends inside it. */
  lemma {:induction false} CollapseAppendAtRun(a: string, b: string)
    requires a != [] && b != [] && IsWhitespace(a[0]) && !AllWhitespace(a)
    requires !IsWhitespace(a[|a| - 1]) || !IsWhitespace(b[0])
    ensures CollapseWhitespace(a + b) == CollapseWhitespace(a) + CollapseWhitespace(b)
    decreases |a|, 0
  {
    var ab := a + b;
    assert ab[0] == a[0];
    assert CollapseWhitespace(ab) == " " + CollapseWhitespace(TrimStart(ab));
    assert CollapseWhitespace(a) == " " + CollapseWhitespace(TrimStart(a));
    TrimStartAppend(a, b);
    var t := TrimStart(a);
    assert t != [] && t[|t| - 1] == a[|a| - 1];
    CollapseAppend(t, b);
    AppendAssoc(" ", CollapseWhitespace(t), CollapseWhitespace(b));
  }

  /**
   * Words stay apart: a whitespace run between text ending and text starting with other
   * characters becomes exactly one space, and each side is collapsed on its own.
   */
  lemma {:induction false} CollapseBetweenWords(a: string, w: string, b: string)
    requires a != [] && !IsWhitespace(a[|a| - 1]) && b != [] && !IsWhitespace(b[0])
    requires w != [] && AllWhitespace(w)
    ensures CollapseWhitespace(a + w + b) == CollapseWhitespace(a) + " " + CollapseWhitespace(b)
  {
    calc {
      CollapseWhitespace(a + w + b);
      { assert a + w + b == a + (w + b); }
      CollapseWhitespace(a + (w + b));
      { CollapseAppend(a, w + b); }
      CollapseWhitespace(a) + CollapseWhitespace(w + b);
      { CollapseAppend(w, b); CollapseRun(w); }
      CollapseWhitespace(a) + (" " + CollapseWhitespace(b));
    }
  }

  /** A text without newlines passes the blank-line replacement unchanged. */
  lemma {:induction false} CollapseBlankLinesWithoutNewline(s: string)
    requires '\n' !in s
    ensures CollapseBlankLines(s) == s
    decreases |s|
  {
    if s != [] {
      assert s[0] != '\n';
      assert '\n' !in s[1..] by { assert forall i :: 0 <= i < |s| - 1 ==> s[1..][i] == s[i + 1]; }
      CollapseBlankLinesWithoutNewline(s[1..]);
    }
  }

  /** After the first replacement no newline is left, so the second is a no-op. */
  lemma BlankLinePassIsNoOp(s: string)
    ensures CollapseBlankLines(CollapseWhitespace(s)) == CollapseWhitespace(s)
  {
    var c := CollapseWhitespace(s);
    CollapseBlankLinesWithoutNewline(c);
  }

  /** The first two steps of the chain yield a text whose only whitespace is spaces, none doubled. */
  lemma CollapsedShape(s: string)
    ensures CollapseBlankLines(CollapseWhitespace(s)) == CollapseWhitespace(s)
    ensures OnlySpaces(CollapseWhitespace(s)) && !Contains(CollapseWhitespace(s), "  ")
  {
    BlankLinePassIsNoOp(s);
  }

  /** Trimming keeps a text that holds only spaces as whitespace in that shape, and drops only spaces. */
  lemma TrimKeepsShape(t: string)
    requires OnlySpaces(t) && !Contains(t, "  ")
    ensures OnlySpaces(Trim(t)) && !Contains(Trim(t), "  ")
    ensures RemoveSpaces(Trim(t)) == RemoveSpaces(t)
  {
    TrimStartKeepsShape(t);
    TrimEndKeepsShape(TrimStart(t));
  }

  /** Dropping leading whitespace keeps the collapsed shape and drops only spaces. */
  lemma TrimStartKeepsShape(t: string)
    requires OnlySpaces(t) && !Contains(t, "  ")
    ensures OnlySpaces(TrimStart(t)) && !Contains(TrimStart(t), "  ")
    ensures RemoveSpaces(TrimStart(t)) == RemoveSpaces(t)
  {
    TrimStartOnlySpaces(t);
    TrimStartNoDoubleSpace(t);
    TrimStartRemoveSpaces(t);
  }

  /** A suffix of a text whose only whitespace is spaces has the same property. */
  lemma TrimStartOnlySpaces(t: string)
    requires OnlySpaces(t)
    ensures OnlySpaces(TrimStart(t))
  {
    var u := TrimStart(t);
    assert forall i :: 0 <= i < |u| ==> u[i] == t[|t| - |u| + i];
  }

  /** A suffix of a text without a double space has none either. */
  lemma TrimStartNoDoubleSpace(t: string)
    requires !Contains(t, "  ")
    ensures !Contains(TrimStart(t), "  ")
  {
    var u := TrimStart(t);
    if Contains(u, "  ") { ContainsInSuffix(t, |t| - |u|, "  "); }
  }

  /** The leading whitespace dropped from such a text is made of spaces only. */
  lemma TrimStartRemoveSpaces(t: string)
    requires OnlySpaces(t)
    ensures RemoveSpaces(TrimStart(t)) == RemoveSpaces(t)
  {
    var u := TrimStart(t);
    var n := |t| - |u|;
    var w := t[..n];
    assert t == w + u;
    RemoveSpacesConcat(w, u);
    WhitespaceHeadIsSpaces(t, n);
    AllSpacesRemoved(w);
    assert [] + RemoveSpaces(u) == RemoveSpaces(u);
  }

  /** Dropping trailing whitespace keeps the collapsed shape and drops only spaces. */
  lemma TrimEndKeepsShape(u: string)
    requires OnlySpaces(u) && !Contains(u, "  ")
    ensures OnlySpaces(TrimEnd(u)) && !Contains(TrimEnd(u), "  ")
    ensures RemoveSpaces(TrimEnd(u)) == RemoveSpaces(u)
  {
    var v := TrimEnd(u);
    var w := u[|v|..];
    assert u == v + w;
    assert OnlySpaces(v) by {
      assert forall i :: 0 <= i < |v| ==> v[i] == u[i];
    }
    assert !Contains(v, "  ") by {
      if Contains(v, "  ") { ContainsInPrefix(u, |v|, "  "); }
    }
    assert RemoveSpaces(v) == RemoveSpaces(u) by {
      RemoveSpacesConcat(v, w);
      WhitespaceTailIsSpaces(u, |v|);
      AllSpacesRemoved(w);
      assert RemoveSpaces(v) + [] == RemoveSpaces(v);
    }
  }

  /** In a text whose only whitespace is spaces, a whitespace tail is made of spaces. */
  lemma WhitespaceTailIsSpaces(u: string, n: nat)
    requires OnlySpaces(u) && n <= |u|
    requires forall k :: n <= k < |u| ==> IsWhitespace(u[k])
    ensures forall i :: 0 <= i < |u| - n ==> u[n..][i] == ' '
  {
    forall i | 0 <= i < |u| - n
      ensures u[n..][i] == ' '
    {
      assert u[n..][i] == u[n + i];
    }
  }

  /** Deleting spaces distributes over concatenation. */
  lemma {:induction false} RemoveSpacesConcat(a: string, b: string)
    ensures RemoveSpaces(a + b) == RemoveSpaces(a) + RemoveSpaces(b)
    decreases |a|
  {
    if a != [] {
      assert (a + b)[0] == a[0] && (a + b)[1..] == a[1..] + b;
      RemoveSpacesConcat(a[1..], b);
    } else {
      assert a + b == b;
    }
  }

  /** In a text whose only whitespace is spaces, a whitespace head is made of spaces. */
  lemma WhitespaceHeadIsSpaces(t: string, n: nat)
    requires OnlySpaces(t) && n <= |t|
    requires forall k :: 0 <= k < n ==> IsWhitespace(t[k])
    ensures forall i :: 0 <= i < n ==> t[..n][i] == ' '
  {
    forall i | 0 <= i < n
      ensures t[..n][i] == ' '
    {
      assert t[..n][i] == t[i];
    }
  }

  /** Deleting spaces from a run of spaces leaves nothing. */
  lemma {:induction false} AllSpacesRemoved(a: string)
    requires forall i :: 0 <= i < |a| ==> a[i] == ' '
    ensures RemoveSpaces(a) == []
    decreases |a|
  {
    if a != [] { AllSpacesRemoved(a[1..]); }
  }

  /** Collapsing runs, then deleting spaces, is deleting all whitespace. */
  lemma {:induction false} CollapseKeepsNonWhitespace(s: string)
    ensures RemoveSpaces(CollapseWhitespace(s)) == RemoveWhitespace(s)
    decreases |s|
  {
    if s != [] {
      if IsWhitespace(s[0]) {
        var rest := TrimStart(s);
        CollapseKeepsNonWhitespace(rest);
        RemoveWhitespaceDropsRun(s);
        assert (" " + CollapseWhitespace(rest))[1..] == CollapseWhitespace(rest);
      } else {
        CollapseKeepsNonWhitespace(s[1..]);
        assert ([s[0]] + CollapseWhitespace(s[1..]))[1..] == CollapseWhitespace(s[1..]);
      }
    }
  }

  /** Leading whitespace contributes nothing once whitespace is deleted. */
  lemma {:induction false} RemoveWhitespaceDropsRun(s: string)
    ensures RemoveWhitespace(TrimStart(s)) == RemoveWhitespace(s)
    decreases |s|
  {
    if s != [] && IsWhitespace(s[0]) { RemoveWhitespaceDropsRun(s[1..]); }
  }

  /** The cleaned text holds no whitespace character other than a plain space. */
  lemma CleanOnlySpaces(s: string)
    ensures OnlySpaces(Clean(s))
  {
    CollapsedShape(s);
    TrimKeepsShape(CollapseWhitespace(s));
  }

  /** The cleaned text never holds two spaces in a row. */
  lemma CleanNoDoubleSpace(s: string)
    ensures !Contains(Clean(s), "  ")
  {
    CollapsedShape(s);
    TrimKeepsShape(CollapseWhitespace(s));
  }

  /** The cleaned text neither starts nor ends with whitespace, and it is empty exactly when the input is all whitespace. */
  lemma CleanTrimmed(s: string)
    ensures Clean(s) != [] ==> !IsWhitespace(Clean(s)[0]) && !IsWhitespace(Clean(s)[|Clean(s)| - 1])
    ensures Clean(s) == [] <==> AllWhitespace(s)
  {
    var c := CollapseWhitespace(s);
    BlankLinePassIsNoOp(s);
    assert Clean(s) == Trim(c);
    assert AllWhitespace(c) <==> AllWhitespace(s) by {
      CollapseKeepsNonWhitespace(s);
      AllWhitespaceIff(s);
      AllWhitespaceIffSpaces(c);
    }
  }

  /** A text is all whitespace exactly when deleting whitespace leaves nothing. */
  lemma {:induction false} AllWhitespaceIff(s: string)
    ensures AllWhitespace(s) <==> RemoveWhitespace(s) == []
    decreases |s|
  {
    if s != [] {
      AllWhitespaceIff(s[1..]);
      assert AllWhitespace(s) <==> IsWhitespace(s[0]) && AllWhitespace(s[1..]);
    }
  }

  /** For a text whose only whitespace is spaces: all whitespace exactly when deleting spaces leaves nothing. */
  lemma {:induction false} AllWhitespaceIffSpaces(s: string)
    requires OnlySpaces(s)
    ensures AllWhitespace(s) <==> RemoveSpaces(s) == []
    decreases |s|
  {
    if s != [] {
      assert OnlySpaces(s[1..]) by { assert forall i :: 0 <= i < |s| - 1 ==> s[1..][i] == s[i + 1]; }
      AllWhitespaceIffSpaces(s[1..]);
      assert AllWhitespace(s) <==> IsWhitespace(s[0]) && AllWhitespace(s[1..]);
    }
  }

  /** Deleting the spaces of the cleaned text gives the input with all its whitespace deleted: no other character is lost, added or moved. */
  lemma CleanKeepsNonWhitespace(s: string)
    ensures RemoveSpaces(Clean(s)) == RemoveWhitespace(s)
  {
    CollapsedShape(s);
    CollapseKeepsNonWhitespace(s);
    TrimKeepsShape(CollapseWhitespace(s));
  }

  /** A text already in collapsed shape passes the run replacement unchanged. */
  lemma {:induction false} CollapseUnchanged(t: string)
    requires OnlySpaces(t) && !Contains(t, "  ")
    ensures CollapseWhitespace(t) == t
    decreases |t|
  {
    if t != [] {
      assert OnlySpaces(t[1..]) by { assert forall i :: 0 <= i < |t| - 1 ==> t[1..][i] == t[i + 1]; }
      assert !Contains(t[1..], "  ");
      if IsWhitespace(t[0]) {
        assert t[0] == ' ';
        assert TrimStart(t[1..]) == t[1..];
        assert TrimStart(t) == t[1..];
      }
      CollapseUnchanged(t[1..]);
    }
  }

  /** Cleaning is idempotent. */
  lemma CleanIdempotent(s: string)
    ensures Clean(Clean(s)) == Clean(s)
  {
    var c := Clean(s);
    CleanOnlySpaces(s);
    CleanNoDoubleSpace(s);
    CleanTrimmed(s);
    CollapseUnchanged(c);
    BlankLinePassIsNoOp(c);
    TrimUnchanged(c);
  }
}
