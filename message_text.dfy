/**
 * The pure text helpers of the chat widget (js/main.js): `processMessageText`,
 * which turns URLs into links and newlines into `<br>`, and `validateInput`.
 */
module MessageText {
  import opened JsText
  import opened Wrappers

  /** Length of the maximal run of non-white-space characters at the head of `s` (what `[^\s]+` consumes greedily). */
  function NonSpaceRun(s: string): (n: nat)
    ensures n <= |s|
    ensures forall i :: 0 <= i < n ==> !IsJsWhitespace(s[i])
    ensures n < |s| ==> IsJsWhitespace(s[n])
  {
    if s == [] || IsJsWhitespace(s[0]) then 0 else 1 + NonSpaceRun(s[1..])
  }

  /** Length of the `https?:\/\/` match at the head of `s` (8, 7), or 0 when there is none. */
  function SchemeLength(s: string): (k: nat)
    ensures k == 0 || k == 7 || k == 8
  {
    if |s| >= 7 && s[0] == 'h' && s[1] == 't' && s[2] == 't' && s[3] == 'p' then
      if |s| >= 8 && s[4] == 's' && s[5] == ':' && s[6] == '/' && s[7] == '/' then 8
      else if s[4] == ':' && s[5] == '/' && s[6] == '/' then 7
      else 0
    else 0
  }

  /** The scheme length is that of the `https://` or `http://` prefix of `s`, and 0 when it has neither. */
  lemma SchemeLengthIsPrefix(s: string)
    ensures SchemeLength(s) == 8 <==> HasPrefix(s, "https://")
    ensures SchemeLength(s) == 7 <==> HasPrefix(s, "http://")
  {
    if |s| >= 8 { assert s[..8] == "https://" ==> s[0] == 'h' && s[4] == 's' && s[5] == ':' && s[6] == '/' && s[7] == '/'; }
    if |s| >= 7 { assert s[..7] == "http://" ==> s[0] == 'h' && s[3] == 'p' && s[4] == ':' && s[5] == '/' && s[6] == '/'; }
  }

  /**
   * Length of the match of `/(https?:\/\/[^\s]+)/` anchored at the head of
   * `s`, or 0 when the pattern does not match there: the scheme must be
   * followed by at least one non-white-space character, and the match runs
   * to the next white space or the end.
   */
  function UrlMatchLength(s: string): (n: nat)
    ensures n <= |s|
  {
    var k := SchemeLength(s);
    var run := NonSpaceRun(s);
    if k > 0 && run > k then run else 0
  }

  /** The replacement `<a href="$1" target="_blank" rel="noopener noreferrer">$1</a>` for a matched URL. */
  function Anchor(url: string): (r: string) {
    "<a href=\"" + url + "\" target=\"_blank\" rel=\"noopener noreferrer\">" + url + "</a>"
  }

  /**
   * The global URL replacement, scanning left to right; after a match the
   * scan resumes where the match ended. Linking never shortens the text, and
   * only the empty text links to the empty text.
   */
  function Linkify(s: string): (r: string)
    ensures |s| <= |r|
    ensures r == [] <==> s == []
    decreases |s|
  {
    if s == [] then []
    else
      var n := UrlMatchLength(s);
      if n > 0 then Anchor(s[..n]) + Linkify(s[n..]) else [s[0]] + Linkify(s[1..])
  }

  /** The global replacement of `\n` by `<br>`. */
  function BreakLines(s: string): (r: string)
    ensures '\n' !in r
  {
    if s == [] then []
    else (if s[0] == '\n' then "<br>" else [s[0]]) + BreakLines(s[1..])
  }

  /** `processMessageText`: links first, then line breaks. */
  function ProcessMessageText(text: string): (r: string)
    ensures '\n' !in r
  {
    BreakLines(Linkify(text))
  }

  /** No `http://` or `https://` starts anywhere in `s`. */
  predicate NoUrlScheme(s: string) {
    forall i :: 0 <= i < |s| ==> SchemeLength(s[i..]) == 0
  }

  /** A match found at the head of `s` is a URL: a scheme, then one or more non-white-space characters, ending at white space or the end. */
  lemma UrlMatchIsUrl(s: string)
    requires UrlMatchLength(s) > 0
    ensures var n := UrlMatchLength(s);
      (HasPrefix(s, "http://") || HasPrefix(s, "https://"))
      && n > SchemeLength(s)
      && (forall i :: 0 <= i < n ==> !IsJsWhitespace(s[i]))
      && (n == |s| || IsJsWhitespace(s[n]))
  {
  }

  /** Text in which no URL scheme occurs is left as it is by the link step. */
  lemma {:induction false} LinkifyNoUrl(s: string)
    requires NoUrlScheme(s)
    ensures Linkify(s) == s
    decreases |s|
  {
    if s != [] {
      assert s[0..] == s;
      assert UrlMatchLength(s) == 0;
      forall i | 0 <= i < |s[1..]| ensures SchemeLength(s[1..][i..]) == 0 {
        assert s[1..][i..] == s[i + 1..];
      }
      LinkifyNoUrl(s[1..]);
    }
  }

  /** One step of the scan, at a position where a URL matches. */
  lemma LinkifyAtMatch(s: string)
    requires UrlMatchLength(s) > 0
    ensures Linkify(s) == Anchor(s[..UrlMatchLength(s)]) + Linkify(s[UrlMatchLength(s)..])
  {
  }

  /** One step of the scan, at a position where no URL matches. */
  lemma LinkifyNoMatch(s: string)
    requires s != [] && UrlMatchLength(s) == 0
    ensures Linkify(s) == [s[0]] + Linkify(s[1..])
  {
  }

  /**
   * The pattern matches at the head exactly when a scheme there is followed
   * by a non-white-space character, and the match then runs to the next
   * white space or the end, whatever follows it.
   */
  lemma UrlMatchAtScheme(s: string)
    ensures var k := SchemeLength(s);
      UrlMatchLength(s) > 0 <==> k > 0 && |s| > k && !IsJsWhitespace(s[k])
    ensures UrlMatchLength(s) > 0 ==> UrlMatchLength(s) == NonSpaceRun(s)
  {
    var k := SchemeLength(s);
    var run := NonSpaceRun(s);
    if k > 0 && |s| > k && !IsJsWhitespace(s[k]) {
      assert forall i :: 0 <= i < k ==> !IsJsWhitespace(s[i]);
      assert run > k;
    }
  }

  /** A scheme followed by non-white-space up to the end matches the whole text. */
  lemma UrlMatchWhole(url: string)
    requires SchemeLength(url) > 0 && |url| > SchemeLength(url)
    requires forall i :: 0 <= i < |url| ==> !IsJsWhitespace(url[i])
    ensures UrlMatchLength(url) == |url|
  {
    assert NonSpaceRun(url) == |url|;
  }

  /** A whole string that is one URL becomes one anchor. */
  lemma LinkifyUrl(url: string)
    requires SchemeLength(url) > 0 && |url| > SchemeLength(url)
    requires forall i :: 0 <= i < |url| ==> !IsJsWhitespace(url[i])
    ensures Linkify(url) == Anchor(url)
  {
    UrlMatchWhole(url);
    LinkifyWholeMatch(url);
  }

  /** A text matched as a whole links to its anchor alone. */
  lemma LinkifyWholeMatch(s: string)
    requires UrlMatchLength(s) == |s| > 0
    ensures Linkify(s) == Anchor(s)
  {
    assert s[..|s|] == s;
    assert s[|s|..] == [];
    LinkifyAtMatch(s);
  }

  /** A non-white-space run at the head of `a + b` stops inside `a` when `a` ends with white space. */
  lemma {:induction false} NonSpaceRunConcat(a: string, b: string)
    requires a != [] && IsJsWhitespace(a[|a| - 1])
    ensures NonSpaceRun(a + b) == NonSpaceRun(a) < |a|
    decreases |a|
  {
    if !IsJsWhitespace(a[0]) {
      assert (a + b)[1..] == a[1..] + b;
      NonSpaceRunConcat(a[1..], b);
    }
  }

  /** A match never reaches past white space, so one at the head of `a + b` is the one at the head of `a`. */
  lemma UrlMatchConcat(a: string, b: string)
    requires a != [] && IsJsWhitespace(a[|a| - 1])
    ensures UrlMatchLength(a + b) == UrlMatchLength(a) < |a|
  {
    NonSpaceRunConcat(a, b);
    var run := NonSpaceRun(a);
    if run >= 8 {
      assert (a + b)[..8] == a[..8];
      assert (a + b)[..7] == a[..7];
    }
  }

  /** The scan step of `a + b` at a match in `a`, which ends before `a` does. */
  lemma LinkifyConcatAtMatch(a: string, b: string)
    requires a != [] && IsJsWhitespace(a[|a| - 1]) && UrlMatchLength(a) > 0
    ensures var n := UrlMatchLength(a);
      n < |a| && Linkify(a + b) == Anchor(a[..n]) + Linkify(a[n..] + b)
  {
    UrlMatchConcat(a, b);
    var n := UrlMatchLength(a);
    var s := a + b;
    assert s[..n] == a[..n];
    assert s[n..] == a[n..] + b;
    LinkifyAtMatch(s);
  }

  /** The scan step of `a + b` when no match starts at the head of `a`. */
  lemma LinkifyConcatNoMatch(a: string, b: string)
    requires a != [] && IsJsWhitespace(a[|a| - 1]) && UrlMatchLength(a) == 0
    ensures Linkify(a + b) == [a[0]] + Linkify(a[1..] + b)
  {
    UrlMatchConcat(a, b);
    LinkifyNoMatch(a + b);
    assert (a + b)[0] == a[0];
    assert (a + b)[1..] == a[1..] + b;
  }

  lemma EndsInSpaceAfterDrop(a: string, k: nat)
    requires k <= |a| && a != [] && IsJsWhitespace(a[|a| - 1])
    ensures a[k..] == [] || IsJsWhitespace(a[k..][|a[k..]| - 1])
  {
    if k < |a| { assert a[k..][|a[k..]| - 1] == a[|a| - 1]; }
  }

  lemma ConcatAfterCommonHead(head: string, whole: string, left: string, right: string)
    requires whole == left + right
    ensures head + whole == (head + left) + right
  {
  }

  /** Linking distributes over a split just after white space: no URL spans the split. */
  lemma {:induction false} LinkifySplitAtSpace(a: string, b: string)
    requires a == [] || IsJsWhitespace(a[|a| - 1])
    ensures Linkify(a + b) == Linkify(a) + Linkify(b)
    decreases |a|, 1
  {
    if a == [] {
      assert a + b == b;
    } else if UrlMatchLength(a) > 0 {
      LinkifySplitAfterMatch(a, b);
    } else {
      LinkifySplitAfterChar(a, b);
    }
  }

  /** `LinkifySplitAtSpace` when a URL matches at the head of `a`. */
  lemma {:induction false} LinkifySplitAfterMatch(a: string, b: string)
    requires a != [] && IsJsWhitespace(a[|a| - 1]) && UrlMatchLength(a) > 0
    ensures Linkify(a + b) == Linkify(a) + Linkify(b)
    decreases |a|, 0
  {
    var n := UrlMatchLength(a);
    EndsInSpaceAfterDrop(a, n);
    LinkifySplitAtSpace(a[n..], b);
    LinkifyConcatAtMatch(a, b);
    LinkifyAtMatch(a);
    ConcatAfterCommonHead(Anchor(a[..n]), Linkify(a[n..] + b), Linkify(a[n..]), Linkify(b));
  }

  /** `LinkifySplitAtSpace` when no URL matches at the head of `a`. */
  lemma {:induction false} LinkifySplitAfterChar(a: string, b: string)
    requires a != [] && IsJsWhitespace(a[|a| - 1]) && UrlMatchLength(a) == 0
    ensures Linkify(a + b) == Linkify(a) + Linkify(b)
    decreases |a|, 0
  {
    EndsInSpaceAfterDrop(a, 1);
    LinkifySplitAtSpace(a[1..], b);
    LinkifyConcatNoMatch(a, b);
    LinkifyNoMatch(a);
    ConcatAfterCommonHead([a[0]], Linkify(a[1..] + b), Linkify(a[1..]), Linkify(b));
  }

  /** A trailing white-space character never completes a scheme. */
  lemma SchemeLengthAppendSpace(a: string, c: char)
    requires IsJsWhitespace(c)
    ensures SchemeLength(a + [c]) == SchemeLength(a)
  {
    var s := a + [c];
    assert forall i :: 0 <= i < |a| ==> s[i] == a[i];
    assert s[|a|] == c;
  }

  /** A trailing white-space character never extends a non-white-space run. */
  lemma {:induction false} NonSpaceRunAppendSpace(a: string, c: char)
    requires IsJsWhitespace(c)
    ensures NonSpaceRun(a + [c]) == NonSpaceRun(a)
    decreases |a|
  {
    if a != [] {
      assert (a + [c])[0] == a[0];
      assert (a + [c])[1..] == a[1..] + [c];
      NonSpaceRunAppendSpace(a[1..], c);
    }
  }

  /** A match at the head is unchanged by a white-space character appended at the end. */
  lemma UrlMatchAppendSpace(a: string, c: char)
    requires IsJsWhitespace(c)
    ensures UrlMatchLength(a + [c]) == UrlMatchLength(a)
  {
    SchemeLengthAppendSpace(a, c);
    NonSpaceRunAppendSpace(a, c);
  }

  /** Appending a white-space character to the text appends it to the linked text. */
  lemma {:induction false} LinkifyAppendSpace(a: string, c: char)
    requires IsJsWhitespace(c)
    ensures Linkify(a + [c]) == Linkify(a) + [c]
    decreases |a|
  {
    var s := a + [c];
    UrlMatchAppendSpace(a, c);
    var n := UrlMatchLength(a);
    if a == [] {
      assert s == [c];
      assert SchemeLength(s) == 0;
      assert Linkify(s) == [c] + Linkify(s[1..]);
      assert s[1..] == [];
    } else if n > 0 {
      assert s[..n] == a[..n];
      assert s[n..] == a[n..] + [c];
      LinkifyAppendSpace(a[n..], c);
      LinkifyAtMatch(s);
      LinkifyAtMatch(a);
      ConcatAfterCommonHead(Anchor(a[..n]), Linkify(a[n..] + [c]), Linkify(a[n..]), [c]);
    } else {
      assert s[0] == a[0];
      assert s[1..] == a[1..] + [c];
      LinkifyAppendSpace(a[1..], c);
      LinkifyNoMatch(s);
      LinkifyNoMatch(a);
      ConcatAfterCommonHead([a[0]], Linkify(a[1..] + [c]), Linkify(a[1..]), [c]);
    }
  }

  lemma {:induction false} BreakLinesConcat(a: string, b: string)
    ensures BreakLines(a + b) == BreakLines(a) + BreakLines(b)
    decreases |a|
  {
    if a == [] {
      assert a + b == b;
    } else {
      assert (a + b)[0] == a[0];
      assert (a + b)[1..] == a[1..] + b;
      BreakLinesConcat(a[1..], b);
    }
  }

  /** Each newline becomes `<br>` and the text around it is treated independently. */
  lemma BreakLinesAtNewline(a: string, b: string)
    ensures BreakLines(a + "\n" + b) == BreakLines(a) + "<br>" + BreakLines(b)
  {
    BreakLinesConcat(a + "\n", b);
    BreakLinesConcat(a, "\n");
  }

  /** Text without newlines is left as it is by the line-break step. */
  lemma {:induction false} BreakLinesNoNewline(s: string)
    requires '\n' !in s
    ensures BreakLines(s) == s
  {
    if s != [] {
      assert '\n' !in s[1..] by {
        forall i | 0 <= i < |s[1..]| ensures s[1..][i] != '\n' { assert s[1..][i] == s[i + 1]; }
      }
      BreakLinesNoNewline(s[1..]);
    }
  }

  /** Text with neither a URL scheme nor a newline is returned unchanged. */
  lemma ProcessMessageTextPlain(text: string)
    requires NoUrlScheme(text) && '\n' !in text
    ensures ProcessMessageText(text) == text
  {
    LinkifyNoUrl(text);
    BreakLinesNoNewline(text);
  }

  /**
   * Each newline of the message becomes `<br>` in the rendered text, and the
   * text on either side is rendered independently: the link step keeps the
   * newline, since no URL runs across white space.
   */
  lemma ProcessMessageTextAtNewline(a: string, b: string)
    ensures ProcessMessageText(a + "\n" + b) == ProcessMessageText(a) + "<br>" + ProcessMessageText(b)
  {
    LinkifyAppendSpace(a, '\n');
    assert a + "\n" == a + ['\n'];
    LinkifySplitAtSpace(a + "\n", b);
    assert Linkify(a + "\n" + b) == Linkify(a) + "\n" + Linkify(b);
    BreakLinesAtNewline(Linkify(a), Linkify(b));
  }

  /**
   * `validateInput`, for a value that is either absent (`null`/`undefined`) or
   * a string; the result is the truthiness of the `&&` chain. The length is
   * `.length`, counted in UTF-16 code units.
   */
  function ValidateInput(input: Option<string>): (ok: bool)
    ensures ok <==> input.Some? && !AllWhitespace(input.value) && Utf16Length(Trim(input.value)) <= 1000
    ensures ok ==> 1 <= |Trim(input.value)| <= 1000
  {
    match input
    case None => false
    case Some(s) =>
      TrimEmptyIff(s);
      s != [] && Utf16Length(Trim(s)) > 0 && Utf16Length(Trim(s)) <= 1000
  }
}
