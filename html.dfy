/**
 * The HTML side of the caption: `escapeHtml`, `stripAllTags` and the visible-length measure
 * `visibleTextLength`, which strips tags and then decodes entities in a fixed sequence of passes.
 */
module Html {
  import opened Text

  /** `escapeHtml`: `&`, then `<`, then `>` are replaced, each by a global literal replace. */
  function EscapeHtml(t: string): string {
    ReplaceAll(ReplaceAll(ReplaceAll(t, "&", "&amp;"), "<", "&lt;"), ">", "&gt;")
  }

  /** The escape of one character. */
  function EscapeChar(c: char): string {
    if c == '&' then "&amp;" else if c == '<' then "&lt;" else if c == '>' then "&gt;" else [c]
  }

  /** Character-by-character escaping: the reference the three passes are proved equal to. */
  function EscapeChars(t: string): (r: string)
    ensures '<' !in r && '>' !in r
  {
    if t == [] then [] else EscapeChar(t[0]) + EscapeChars(t[1..])
  }

  /** `>` escaped alone: the text between the second and third decoding passes. */
  function EscapeGt(t: string): string {
    if t == [] then [] else (if t[0] == '>' then "&gt;" else [t[0]]) + EscapeGt(t[1..])
  }

  /** Whether a `>` occurs in `t`. */
  predicate HasClose(t: string)
    decreases |t|
  {
    t != [] && (t[0] == '>' || HasClose(t[1..]))
  }

  /** What follows the first `>` of `t`. */
  function AfterClose(t: string): (r: string)
    requires HasClose(t)
    ensures |r| < |t|
    decreases |t|
  {
    if t[0] == '>' then t[1..] else AfterClose(t[1..])
  }

  /** `s.replace(/<[^>]*>/g, "")`: every `<` up to the next `>` is removed; a `<` with no `>` after it stays. */
  function StripAllTags(s: string): string
    decreases |s|
  {
    if s == [] then []
    else if s[0] == '<' && HasClose(s[1..]) then StripAllTags(AfterClose(s[1..]))
    else [s[0]] + StripAllTags(s[1..])
  }

  predicate IsEntityChar(c: char) {
    c == '#' || ('a' <= c <= 'z') || ('A' <= c <= 'Z') || ('0' <= c <= '9')
  }

  /** The longest prefix made of `[#a-zA-Z0-9]`. */
  function TakeEntityChars(s: string): (r: string)
    ensures |r| <= |s| && r == s[..|r|]
    ensures '&' !in r && ';' !in r
  {
    if s != [] && IsEntityChar(s[0]) then [s[0]] + TakeEntityChars(s[1..]) else []
  }

  /** `s.replace(/&[#a-zA-Z0-9]+;/g, "X")`: every remaining entity counts as one character. */
  function EntitiesToX(s: string): string
    decreases |s|
  {
    if s == [] then []
    else
      var name := TakeEntityChars(s[1..]);
      if s[0] == '&' && name != [] && |name| + 1 < |s| && s[|name| + 1] == ';'
      then "X" + EntitiesToX(s[|name| + 2..])
      else [s[0]] + EntitiesToX(s[1..])
  }

  /** The entity passes of `visibleTextLength`, in their order. */
  function DecodeEntities(t: string): string {
    var a := ReplaceAll(t, "&amp;", "&");
    var b := ReplaceAll(a, "&lt;", "<");
    var c := ReplaceAll(b, "&gt;", ">");
    var d := ReplaceAll(c, "&quot;", "\"");
    var e := ReplaceAll(d, "&#39;", "'");
    EntitiesToX(e)
  }

  /** The text `visibleTextLength` measures: tags stripped, entities decoded. */
  function VisibleText(html: string): string {
    DecodeEntities(StripAllTags(html))
  }

  /** `visibleTextLength(html)`, in UTF-16 code units. */
  function VisibleTextLength(html: string): nat {
    Utf16Length(VisibleText(html))
  }

  // ---------------------------------------------------------------------------------------------
  // lemmas

  /** A global replace of a one-character pattern distributes over concatenation. */
  lemma {:induction false} ReplaceCharAppend(a: string, b: string, p: char, rep: string)
    ensures ReplaceAll(a + b, [p], rep) == ReplaceAll(a, [p], rep) + ReplaceAll(b, [p], rep)
    decreases |a|
  {
    if a != [] {
      var s := a + b;
      assert s[0] == a[0] && s[1..] == a[1..] + b;
      assert StartsWith(s, [p]) == StartsWith(a, [p]);
      ReplaceCharAppend(a[1..], b, p, rep);
    } else {
      assert a + b == b;
    }
  }

  /** The three sequential passes of `escapeHtml` escape each character on its own. */
  lemma {:induction false} EscapeHtmlCharwise(t: string)
    ensures EscapeHtml(t) == EscapeChars(t)
    decreases |t|
  {
    if t != [] {
      var c := t[0];
      var rest := t[1..];
      assert t == [c] + rest;
      ReplaceCharAppend([c], rest, '&', "&amp;");
      var a1 := ReplaceAll([c], "&", "&amp;");
      ReplaceCharAppend(a1, ReplaceAll(rest, "&", "&amp;"), '<', "&lt;");
      var a2 := ReplaceAll(a1, "<", "&lt;");
      ReplaceCharAppend(a2, ReplaceAll(ReplaceAll(rest, "&", "&amp;"), "<", "&lt;"), '>', "&gt;");
      EscapeOneChar(c);
      EscapeHtmlCharwise(rest);
    }
  }

  lemma EscapeOneChar(c: char)
    ensures EscapeHtml([c]) == EscapeChar(c)
  {
    hide ReplaceAll;
    if c == '&' {
      assert [c] == "&";
      ReplaceAllMatch([], "&", "&amp;");
      ReplaceAllAbsent([], "&", "&amp;");
      assert "&" + [] == "&" && "&amp;" + [] == "&amp;";
      assert ReplaceAll("&", "&", "&amp;") == "&amp;";
      ReplaceAllAbsent("&amp;", "<", "&lt;");
      ReplaceAllAbsent("&amp;", ">", "&gt;");
    } else if c == '<' {
      assert [c] == "<";
      ReplaceAllAbsent("<", "&", "&amp;");
      ReplaceAllMatch([], "<", "&lt;");
      ReplaceAllAbsent([], "<", "&lt;");
      assert "<" + [] == "<" && "&lt;" + [] == "&lt;";
      assert ReplaceAll("<", "<", "&lt;") == "&lt;";
      ReplaceAllAbsent("&lt;", ">", "&gt;");
    } else if c == '>' {
      assert [c] == ">";
      ReplaceAllAbsent(">", "&", "&amp;");
      ReplaceAllAbsent(">", "<", "&lt;");
      ReplaceAllMatch([], ">", "&gt;");
      ReplaceAllAbsent([], ">", "&gt;");
      assert ">" + [] == ">" && "&gt;" + [] == "&gt;";
      assert ReplaceAll(">", ">", "&gt;") == "&gt;";
    } else {
      ReplaceAllAbsent([c], "&", "&amp;");
      ReplaceAllAbsent([c], "<", "&lt;");
      ReplaceAllAbsent([c], ">", "&gt;");
    }
  }

  /** Text without `<` has no tags to strip. */
  lemma {:induction false} StripWithoutTags(s: string)
    requires '<' !in s
    ensures StripAllTags(s) == s
    decreases |s|
  {
    if s != [] {
      StripWithoutTags(s[1..]);
    }
  }

  /** Text without `&` has no entities. */
  lemma {:induction false} EntitiesToXWithoutAmp(s: string)
    requires '&' !in s
    ensures EntitiesToX(s) == s
    decreases |s|
  {
    if s != [] {
      EntitiesToXWithoutAmp(s[1..]);
    }
  }

  /** A piece that shares only its first character with the pattern passes through unchanged. */
  lemma ReplaceAllKeep(x: string, rest: string, pat: string, rep: string)
    requires |x| >= 2 && |pat| >= 2 && x[0] == pat[0] && x[1] != pat[1] && pat[0] !in x[1..]
    ensures ReplaceAll(x + rest, pat, rep) == x + ReplaceAll(rest, pat, rep)
  {
    var s := x + rest;
    assert s[0] == x[0] && s[1..] == x[1..] + rest;
    assert !StartsWith(s, pat) by {
      assert |pat| <= |s| ==> s[..|pat|][1] == x[1];
    }
    ReplaceAllSkips(x[1..], rest, pat, rep);
    assert x == [x[0]] + x[1..];
  }

  /** First decoding pass on escaped text without `&`: there is no `&amp;` to decode. */
  lemma {:induction false} DecodeAmpOnEscaped(t: string)
    requires '&' !in t
    ensures ReplaceAll(EscapeChars(t), "&amp;", "&") == EscapeChars(t)
    decreases |t|
  {
    if t != [] {
      var rest := EscapeChars(t[1..]);
      DecodeAmpOnEscaped(t[1..]);
      var piece := EscapeChar(t[0]);
      if t[0] == '<' || t[0] == '>' {
        ReplaceAllKeep(piece, rest, "&amp;", "&");
      } else {
        ReplaceAllSkips(piece, rest, "&amp;", "&");
      }
    }
  }

  /** Second pass: every `&lt;` becomes `<`, leaving `>` still escaped. */
  lemma {:induction false} DecodeLtOnEscaped(t: string)
    requires '&' !in t
    ensures ReplaceAll(EscapeChars(t), "&lt;", "<") == EscapeGt(t)
    decreases |t|
  {
    if t != [] {
      var rest := EscapeChars(t[1..]);
      DecodeLtOnEscaped(t[1..]);
      var piece := EscapeChar(t[0]);
      if t[0] == '<' {
        ReplaceAllMatch(rest, "&lt;", "<");
      } else if t[0] == '>' {
        ReplaceAllKeep(piece, rest, "&lt;", "<");
      } else {
        ReplaceAllSkips(piece, rest, "&lt;", "<");
      }
    }
  }

  /** Third pass: every `&gt;` becomes `>`, giving the text back. */
  lemma {:induction false} DecodeGtOnEscaped(t: string)
    requires '&' !in t
    ensures ReplaceAll(EscapeGt(t), "&gt;", ">") == t
    decreases |t|
  {
    if t != [] {
      var rest := EscapeGt(t[1..]);
      DecodeGtOnEscaped(t[1..]);
      if t[0] == '>' {
        ReplaceAllMatch(rest, "&gt;", ">");
      } else {
        ReplaceAllSkips([t[0]], rest, "&gt;", ">");
      }
      assert t == [t[0]] + t[1..];
    }
  }

  /**
   * Escaped text measures as the text itself, provided the text holds no `&`: escaping and the
   * visible-length decoding then round-trip exactly.
   */
  lemma VisibleTextOfEscaped(t: string)
    requires '&' !in t
    ensures VisibleText(EscapeHtml(t)) == t
    ensures VisibleTextLength(EscapeHtml(t)) == Utf16Length(t)
  {
    EscapeHtmlCharwise(t);
    StripWithoutTags(EscapeChars(t));
    DecodeAmpOnEscaped(t);
    DecodeLtOnEscaped(t);
    DecodeGtOnEscaped(t);
    ReplaceAllAbsent(t, "&quot;", "\"");
    ReplaceAllAbsent(t, "&#39;", "'");
    EntitiesToXWithoutAmp(t);
  }

  /**
   * With an `&` the round trip fails: a title `&lt;` is escaped to `&amp;lt;`, which Telegram shows as
   * the four characters `&lt;`, but the sequential decoding turns it into `<` and counts one.
   */
  lemma EscapedEntityUndercounted(t: string)
    requires t == "&lt;"
    ensures VisibleText(EscapeHtml(t)) == "<"
    ensures VisibleTextLength(EscapeHtml(t)) == 1 < Utf16Length(t)
  {
    EscapeHtmlCharwise(t);
    EscapeOfAmpLt(t);
    DecodeOfAmpLt();
    hide ReplaceAll;
    StripWithoutTags("&amp;lt;");
  }

  lemma EscapeOfAmpLt(t: string)
    requires t == "&lt;"
    ensures EscapeChars(t) == "&amp;lt;"
  {
    assert t == ['&'] + "lt;";
    assert EscapeChars(";") == ";";
    assert EscapeChars("t;") == "t;";
    assert EscapeChars("lt;") == "lt;";
  }

  lemma DecodeOfAmpLt()
    ensures DecodeEntities("&amp;lt;") == "<"
  {
    hide ReplaceAll;
    ReplaceAllMatch("lt;", "&amp;", "&");
    ReplaceAllAbsent("lt;", "&amp;", "&");
    assert "&amp;" + "lt;" == "&amp;lt;";
    assert "&" + "lt;" == "&lt;";
    ReplaceAllMatch([], "&lt;", "<");
    assert "&lt;" + [] == "&lt;";
    ReplaceAllAbsent([], "&lt;", "<");
    assert "<" + [] == "<";
    ReplaceAllAbsent("<", "&gt;", ">");
    ReplaceAllAbsent("<", "&quot;", "\"");
    ReplaceAllAbsent("<", "&#39;", "'");
    EntitiesToXWithoutAmp("<");
  }

  // ---------------------------------------------------------------------------------------------
  // visible text of assembled HTML

  /** Escaping one character at a time distributes over concatenation. */
  lemma {:induction false} EscapeCharsAppend(a: string, b: string)
    ensures EscapeChars(a + b) == EscapeChars(a) + EscapeChars(b)
    decreases |a|
  {
    if a != [] {
      assert (a + b)[0] == a[0] && (a + b)[1..] == a[1..] + b;
      EscapeCharsAppend(a[1..], b);
    } else {
      assert a + b == b;
    }
  }

  /** Text without the three special characters is its own escape. */
  lemma {:induction false} EscapeCharsPlain(t: string)
    requires '&' !in t && '<' !in t && '>' !in t
    ensures EscapeChars(t) == t
    decreases |t|
  {
    if t != [] {
      EscapeCharsPlain(t[1..]);
      assert t == [t[0]] + t[1..];
    }
  }

  /** Text before the first `<` is kept by tag stripping. */
  lemma {:induction false} StripPlainPrefix(x: string, rest: string)
    requires '<' !in x
    ensures StripAllTags(x + rest) == x + StripAllTags(rest)
    decreases |x|
  {
    if x != [] {
      assert (x + rest)[0] == x[0] && (x + rest)[1..] == x[1..] + rest;
      StripPlainPrefix(x[1..], rest);
      assert x == [x[0]] + x[1..];
    } else {
      assert x + rest == rest;
    }
  }

  /** The first `>` after a run without one is the one that closes it. */
  lemma {:induction false} CloseAfter(inner: string, rest: string)
    requires '>' !in inner
    ensures HasClose(inner + ">" + rest) && AfterClose(inner + ">" + rest) == rest
    decreases |inner|
  {
    var t := inner + ">" + rest;
    if inner == [] {
      assert t == ">" + rest && t[1..] == rest;
    } else {
      assert t[0] == inner[0] && t[1..] == inner[1..] + ">" + rest;
      CloseAfter(inner[1..], rest);
    }
  }

  /** A tag `<...>` is removed whole. */
  lemma StripTag(inner: string, rest: string)
    requires '>' !in inner
    ensures StripAllTags("<" + inner + ">" + rest) == StripAllTags(rest)
  {
    var s := "<" + inner + ">" + rest;
    assert s[0] == '<' && s[1..] == inner + ">" + rest;
    CloseAfter(inner, rest);
  }

  /** Text without `&` has no entities to decode. */
  lemma DecodeWithoutAmp(t: string)
    requires '&' !in t
    ensures DecodeEntities(t) == t
  {
    ReplaceAllAbsent(t, "&amp;", "&");
    ReplaceAllAbsent(t, "&lt;", "<");
    ReplaceAllAbsent(t, "&gt;", ">");
    ReplaceAllAbsent(t, "&quot;", "\"");
    ReplaceAllAbsent(t, "&#39;", "'");
    EntitiesToXWithoutAmp(t);
  }

  /** Text around one bold span loses only the two tags. */
  lemma StripBold(pre: string, text: string, post: string)
    requires '<' !in pre && '<' !in text && '<' !in post
    ensures StripAllTags(pre + "<b>" + text + "</b>" + post) == pre + text + post
  {
    hide StripAllTags;
    assert pre + "<b>" + text + "</b>" + post == pre + ("<" + "b" + ">" + (text + ("<" + "/b" + ">" + post)));
    StripPlainPrefix(pre, "<" + "b" + ">" + (text + ("<" + "/b" + ">" + post)));
    StripTag("b", text + ("<" + "/b" + ">" + post));
    StripPlainPrefix(text, "<" + "/b" + ">" + post);
    StripTag("/b", post);
    StripWithoutTags(post);
  }

  /** Appending text without `>` neither adds a closing bracket nor moves the first one. */
  lemma {:induction false} CloseAppend(t: string, b: string)
    requires '>' !in b
    ensures HasClose(t + b) == HasClose(t)
    ensures HasClose(t) ==> AfterClose(t + b) == AfterClose(t) + b
    decreases |t|
  {
    if t == [] {
      assert t + b == b;
      NoClose(b);
    } else {
      assert (t + b)[0] == t[0] && (t + b)[1..] == t[1..] + b;
      CloseAppend(t[1..], b);
    }
  }

  lemma {:induction false} NoClose(b: string)
    requires '>' !in b
    ensures !HasClose(b)
    decreases |b|
  {
    if b != [] {
      NoClose(b[1..]);
    }
  }

  /** Text without brackets after the last tag is kept as it is. */
  lemma {:induction false} StripAppendPlain(a: string, b: string)
    requires '<' !in b && '>' !in b
    ensures StripAllTags(a + b) == StripAllTags(a) + b
    decreases |a|
  {
    if a == [] {
      assert a + b == b;
      StripWithoutTags(b);
    } else {
      var s := a + b;
      assert s[0] == a[0] && s[1..] == a[1..] + b;
      CloseAppend(a[1..], b);
      if a[0] == '<' && HasClose(a[1..]) {
        StripAppendPlain(AfterClose(a[1..]), b);
      } else {
        StripAppendPlain(a[1..], b);
      }
    }
  }
}
