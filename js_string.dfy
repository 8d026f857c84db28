/**
 * The JavaScript string built-ins the extension relies on, over `string` (one `char` stands
 * for one UTF-16 code unit, the unit `.length` and `substring` count).
 */
module JsString {

  /**
   * The characters the regular-expression class `\s` matches; `String.prototype.trim` strips
   * the same set (ECMAScript WhiteSpace and LineTerminator).
   */
  predicate IsWhitespace(c: char) {
    c == '\t' || c == '\n' || c == '\U{000B}' || c == '\U{000C}' || c == '\r' || c == ' '
    || c == '\U{00A0}' || c == '\U{1680}' || ('\U{2000}' <= c <= '\U{200A}')
    || c == '\U{2028}' || c == '\U{2029}' || c == '\U{202F}' || c == '\U{205F}'
    || c == '\U{3000}' || c == '\U{FEFF}'
  }

  /** Every character of `s` is whitespace (the empty string included). */
  predicate AllWhitespace(s: string) {
    forall k :: 0 <= k < |s| ==> IsWhitespace(s[k])
  }

  /** `s.includes(pat)`: some suffix of `s` starts with `pat`. */
  predicate Contains(s: string, pat: string)
    decreases |s|
  {
    pat <= s || (s != [] && Contains(s[1..], pat))
  }

  /** An occurrence of `pat` at any position makes `s` contain it. */
  lemma {:induction false} ContainsAt(s: string, i: nat, pat: string)
    requires i <= |s| && pat <= s[i..]
    ensures Contains(s, pat)
    decreases i
  {
    if i > 0 {
      assert s[1..][i - 1..] == s[i..];
      ContainsAt(s[1..], i - 1, pat);
    }
  }

  /** Whatever a suffix of `s` contains, `s` contains. */
  lemma {:induction false} ContainsInSuffix(s: string, n: nat, pat: string)
    requires n <= |s| && Contains(s[n..], pat)
    ensures Contains(s, pat)
    decreases n
  {
    if n > 0 {
      assert s[1..][n - 1..] == s[n..];
      ContainsInSuffix(s[1..], n - 1, pat);
    }
  }

  /** Whatever a prefix of `s` contains, `s` contains. */
  lemma {:induction false} ContainsInPrefix(s: string, m: nat, pat: string)
    requires m <= |s| && Contains(s[..m], pat)
    ensures Contains(s, pat)
    decreases m
  {
    if pat <= s[..m] {
      assert pat <= s;
    } else {
      assert s[..m][1..] == s[1..][..m - 1];
      ContainsInPrefix(s[1..], m - 1, pat);
    }
  }

  /** A string shorter than the pattern does not contain it. */
  lemma {:induction false} NotContainsShort(s: string, pat: string)
    requires |s| < |pat|
    ensures !Contains(s, pat)
    decreases |s|
  {
    if s != [] {
      NotContainsShort(s[1..], pat);
    }
  }

  /**
   * Text without the pattern's first character, followed by all but the last character of the
   * pattern, does not contain it: the first occurrence in `a + pat + b` is the one after `a`.
   */
  lemma {:induction false} NotContainsBeforeHead(a: string, pat: string)
    requires |pat| > 0 && pat[0] !in a
    ensures !Contains(a + pat[..|pat| - 1], pat)
    decreases |a|
  {
    var s := a + pat[..|pat| - 1];
    if a == [] {
      assert s == pat[..|pat| - 1];
      NotContainsShort(s, pat);
    } else {
      assert s[0] == a[0];
      assert s[1..] == a[1..] + pat[..|pat| - 1];
      NotContainsBeforeHead(a[1..], pat);
    }
  }

  /** Concatenation regroups freely. */
  lemma AppendAssoc(x: string, y: string, z: string)
    ensures x + (y + z) == x + y + z
  {
  }

  /** `s.trimStart()`: the suffix left after dropping the leading whitespace. */
  function TrimStart(s: string): (r: string)
    ensures |r| <= |s| && r == s[|s| - |r|..]
    ensures forall k :: 0 <= k < |s| - |r| ==> IsWhitespace(s[k])
    ensures r != [] ==> !IsWhitespace(r[0])
    decreases |s|
  {
    if s != [] && IsWhitespace(s[0]) then TrimStart(s[1..]) else s
  }

  /** Trimming the start of `a + b` stops inside `a` when `a` is not all whitespace. */
  lemma {:induction false} TrimStartAppend(a: string, b: string)
    requires !AllWhitespace(a)
    ensures TrimStart(a + b) == TrimStart(a) + b
    decreases |a|
  {
    if IsWhitespace(a[0]) {
      assert (a + b)[1..] == a[1..] + b;
      assert !AllWhitespace(a[1..]) by {
        var k :| 0 <= k < |a| && !IsWhitespace(a[k]);
        assert a[1..][k - 1] == a[k];
      }
      TrimStartAppend(a[1..], b);
    }
  }

  /** Trimming the start of `a + b` skips all of an all-whitespace `a`. */
  lemma {:induction false} TrimStartSkip(a: string, b: string)
    requires AllWhitespace(a)
    ensures TrimStart(a + b) == TrimStart(b)
    decreases |a|
  {
    if a != [] {
      var ab := a + b;
      assert ab[0] == a[0] && ab[1..] == a[1..] + b;
      assert TrimStart(ab) == TrimStart(ab[1..]) by { assert IsWhitespace(ab[0]); }
      assert AllWhitespace(a[1..]) by {
        assert forall k :: 0 <= k < |a| - 1 ==> a[1..][k] == a[k + 1];
      }
      TrimStartSkip(a[1..], b);
    } else {
      assert a + b == b;
    }
  }

  /** `s.trimEnd()`: the prefix left after dropping the trailing whitespace. */
  function TrimEnd(s: string): (r: string)
    ensures |r| <= |s| && r == s[..|r|]
    ensures forall k :: |r| <= k < |s| ==> IsWhitespace(s[k])
    ensures r != [] ==> !IsWhitespace(r[|r| - 1])
    decreases |s|
  {
    if s != [] && IsWhitespace(s[|s| - 1]) then TrimEnd(s[..|s| - 1]) else s
  }

  /** `s.trim()`: neither end of the result is whitespace, and only whitespace was dropped. */
  function Trim(s: string): (r: string)
    ensures r != [] ==> !IsWhitespace(r[0]) && !IsWhitespace(r[|r| - 1])
    ensures AllWhitespace(s) <==> r == []
  {
    var t := TrimStart(s);
    var r := TrimEnd(t);
    assert r != [] ==> r[0] == t[0];
    assert r == [] ==> t == [];
    r
  }

  /** A string with no whitespace at either end is its own trim. */
  lemma TrimUnchanged(s: string)
    requires s != [] ==> !IsWhitespace(s[0]) && !IsWhitespace(s[|s| - 1])
    ensures Trim(s) == s
  {
  }

  /** The index `ToIntegerOrInfinity` then clamping to `[0, len]` make of a `substring` bound. */
  function Clamp(x: int, len: nat): (r: nat)
    ensures r <= len
    ensures 0 <= x <= len ==> r == x
  {
    if x < 0 then 0 else if x > len then len else x
  }

  /**
   * `s.substring(start, end)`: both bounds are clamped to `[0, |s|]` and swapped when out of order.
   * From position 0 or below it is the prefix of `s` as long as the clamped `end`.
   */
  function Substring(s: string, start: int, end: int): (r: string)
    ensures start <= 0 ==> r <= s && |r| == Clamp(end, |s|)
    ensures |r| <= |s|
  {
    var a := Clamp(start, |s|);
    var b := Clamp(end, |s|);
    if a <= b then s[a..b] else s[b..a]
  }

  /** Every non-overlapping occurrence of `pat`, scanned from the left, replaced literally by `rep`. */
  function ReplaceAll(s: string, pat: string, rep: string): string
    requires |pat| > 0
    decreases |s|
  {
    if |s| < |pat| then s
    else if pat <= s then rep + ReplaceAll(s[|pat|..], pat, rep)
    else [s[0]] + ReplaceAll(s[1..], pat, rep)
  }

  /** Text without an occurrence of the pattern comes back unchanged. */
  lemma {:induction false} ReplaceAllNoMatch(s: string, pat: string, rep: string)
    requires |pat| > 0 && !Contains(s, pat)
    ensures ReplaceAll(s, pat, rep) == s
    decreases |s|
  {
    if |s| >= |pat| {
      ReplaceAllNoMatch(s[1..], pat, rep);
    }
  }

  /**
   * The leftmost occurrence is replaced and the text before it is kept as it is; scanning then
   * goes on after the occurrence. With ReplaceAllNoMatch this determines ReplaceAll completely.
   */
  lemma {:induction false} ReplaceAllLeftmost(a: string, b: string, pat: string, rep: string)
    requires |pat| > 0 && !Contains(a + pat[..|pat| - 1], pat)
    ensures ReplaceAll(a + pat + b, pat, rep) == a + rep + ReplaceAll(b, pat, rep)
    decreases |a|
  {
    var s := a + pat + b;
    if a == [] {
      assert s == pat + b;
      assert s[|pat|..] == b;
    } else {
      var head := a + pat[..|pat| - 1];
      assert !(pat <= s) by {
        assert !(pat <= head);
        assert forall i :: 0 <= i < |pat| ==> s[i] == head[i];
      }
      assert !Contains(a[1..] + pat[..|pat| - 1], pat) by {
        assert head[1..] == a[1..] + pat[..|pat| - 1];
      }
      assert s[1..] == a[1..] + pat + b;
      ReplaceAllLeftmost(a[1..], b, pat, rep);
      assert [a[0]] + (a[1..] + rep + ReplaceAll(b, pat, rep)) == a + rep + ReplaceAll(b, pat, rep);
    }
  }

  /**
   * A text with exactly one occurrence (none starts in `a` or overlaps the one after it, none
   * in `b`) keeps everything around it and has only that occurrence replaced.
   */
  lemma {:induction false} ReplaceAllSingle(a: string, b: string, pat: string, rep: string)
    requires |pat| > 0 && !Contains(a + pat[..|pat| - 1], pat) && !Contains(b, pat)
    ensures Contains(a + pat + b, pat)
    ensures ReplaceAll(a + pat + b, pat, rep) == a + rep + b
  {
    assert (a + pat + b)[|a|..] == pat + b;
    ContainsAt(a + pat + b, |a|, pat);
    ReplaceAllLeftmost(a, b, pat, rep);
    ReplaceAllNoMatch(b, pat, rep);
  }

  /**
   * What `String.prototype.replace` inserts for one match when the replacement is a string
   * (the GetSubstitution step of ECMAScript, for a pattern without capture groups): `$$` is one
   * `$`, `$&` the matched text, `` $` `` the text before the match, `$'` the text after it;
   * every other `$` is kept as it is.
   */
  function ExpandReplacement(rep: string, matched: string, before: string, after: string): string
    decreases |rep|
  {
    if rep == [] then []
    else if rep[0] == '$' && |rep| >= 2 && rep[1] in "$&`'" then
      var insert := if rep[1] == '$' then "$" else if rep[1] == '&' then matched
                    else if rep[1] == '`' then before else after;
      insert + ExpandReplacement(rep[2..], matched, before, after)
    else [rep[0]] + ExpandReplacement(rep[1..], matched, before, after)
  }

  /** A replacement without `$` is inserted as it is. */
  lemma {:induction false} ExpandWithoutDollar(rep: string, matched: string, before: string, after: string)
    requires '$' !in rep
    ensures ExpandReplacement(rep, matched, before, after) == rep
    decreases |rep|
  {
    if rep != [] {
      ExpandWithoutDollar(rep[1..], matched, before, after);
    }
  }

  /** A `$`-free head of the replacement is inserted as it is. */
  lemma {:induction false} ExpandLiteralHead(head: string, tail: string, matched: string, before: string, after: string)
    requires '$' !in head
    ensures ExpandReplacement(head + tail, matched, before, after)
         == head + ExpandReplacement(tail, matched, before, after)
    decreases |head|
  {
    if head != [] {
      assert head[0] != '$';
      assert (head + tail)[0] == head[0] && (head + tail)[1..] == head[1..] + tail;
      ExpandLiteralHead(head[1..], tail, matched, before, after);
      assert [head[0]] + (head[1..] + ExpandReplacement(tail, matched, before, after))
          == head + ExpandReplacement(tail, matched, before, after);
    } else {
      assert head + tail == tail;
    }
  }

  /** The scan of `s.replace(/pat/g, rep)` from position `i`, with the whole of `s` in view. */
  function JsReplaceFrom(s: string, i: nat, pat: string, rep: string): string
    requires |pat| > 0 && i <= |s|
    decreases |s| - i
  {
    if |s| - i < |pat| then s[i..]
    else if pat <= s[i..] then
      ExpandReplacement(rep, pat, s[..i], s[i + |pat|..]) + JsReplaceFrom(s, i + |pat|, pat, rep)
    else [s[i]] + JsReplaceFrom(s, i + 1, pat, rep)
  }

  /** `s.replace(/pat/g, rep)` for a pattern made of plain characters. */
  function JsReplaceAll(s: string, pat: string, rep: string): string
    requires |pat| > 0
  {
    JsReplaceFrom(s, 0, pat, rep)
  }

  /** With a `$`-free replacement, the built-in replace is the literal replace-all. */
  lemma {:induction false} JsReplaceFromLiteral(s: string, i: nat, pat: string, rep: string)
    requires |pat| > 0 && i <= |s| && '$' !in rep
    ensures JsReplaceFrom(s, i, pat, rep) == ReplaceAll(s[i..], pat, rep)
    decreases |s| - i
  {
    var t := s[i..];
    if |s| - i >= |pat| {
      if pat <= t {
        ExpandWithoutDollar(rep, pat, s[..i], s[i + |pat|..]);
        assert t[|pat|..] == s[i + |pat|..];
        JsReplaceFromLiteral(s, i + |pat|, pat, rep);
      } else {
        assert t[1..] == s[i + 1..];
        JsReplaceFromLiteral(s, i + 1, pat, rep);
      }
    }
  }

  /** The same, from the start of the string. */
  lemma JsReplaceAllLiteral(s: string, pat: string, rep: string)
    requires |pat| > 0 && '$' !in rep
    ensures JsReplaceAll(s, pat, rep) == ReplaceAll(s, pat, rep)
  {
    JsReplaceFromLiteral(s, 0, pat, rep);
    assert s[0..] == s;
  }
}
