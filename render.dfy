/**
 * The caption renderer: episode labels with progress, one HTML line per show, and the assembly of
 * the caption under a budget of visible characters.
 */
module Render {
  import opened Wrappers
  import opened Text
  import opened Html
  import opened Records
  import opened Merge

  // ---------------------------------------------------------------------------------------------
  // formatEpisodeDisplay / defaultPadEpisode

  /** `defaultPadEpisode(n)`: a single non-negative digit gets a leading zero. */
  function DefaultPadEpisode(n: int): string {
    if 0 <= n < 10 then "0" + IntToString(n) else IntToString(n)
  }

  /** The label of one end of the range: the stored digit string, or the padded number when it is empty. */
  function EpisodeLabel(str: string, n: int): string {
    if str != [] then str else DefaultPadEpisode(n)
  }

  /** `formatEpisodeDisplay`: `E{from}` for a single episode, `E{from}-E{to}` for a range. */
  function FormatEpisodeDisplay(s: Show): string {
    var from := EpisodeLabel(s.epFromStr, s.epFrom);
    var to := EpisodeLabel(s.epToStr, s.epTo);
    if s.epFrom != s.epTo then "E" + from + "-E" + to else "E" + from
  }

  /** A padded number is at least two digits long and still reads as the number. */
  lemma PadEpisodeRoundTrip(n: int)
    requires n >= 0
    ensures var r := DefaultPadEpisode(n); AllDigits(r) && |r| >= 2 && DigitsValue(r) == n
  {
    var r := DefaultPadEpisode(n);
    if n < 10 {
      assert IntToString(n) == NatToString(n) == [DigitChar(n)];
      assert r == ['0', DigitChar(n)];
      assert r[..1] == "0" && "0"[..0] == [];
      assert DigitsValue("0") == 0;
      assert DigitsValue(r) == 10 * DigitsValue(r[..1]) + (DigitChar(n) as int - '0' as int);
    } else {
      NatToStringRoundTrip(n);
      assert NatToString(n) == NatToString(n / 10) + [DigitChar(n % 10)];
    }
  }

  /** The characters a label can be made of. */
  predicate Plain(s: string) {
    forall i :: 0 <= i < |s| ==> s[i] == 'E' || s[i] == '-' || IsDigit(s[i])
  }

  /** A string of digits and the letters of `E` and `-` is already trimmed and upper case. */
  lemma PlainIsNormal(s: string)
    requires Plain(s)
    ensures NormalizeSeason(s) == s
  {
    NoSpaceIsNormal(s);
    ToUpperFixed(s);
  }

  /** The display of a range: a digit run, a separator, another digit run. */
  lemma RangeDisplayRuns(a: string, b: string)
    requires a != [] && AllDigits(a) && b != [] && AllDigits(b)
    ensures var d := "E" + a + "-E" + b; NormalizeSeason(d) == d && DigitRuns(d) == [a, b]
  {
    var d := "E" + a + "-E" + b;
    assert d == ['E'] + (a + (['-'] + (['E'] + b)));
    PlainIsNormal(d);
    DigitRunsSkip('E', a + (['-'] + (['E'] + b)));
    DigitRunsThen(a, ['-'] + (['E'] + b));
    DigitRunsSkip('-', ['E'] + b);
    DigitRunsSkip('E', b);
    DigitRunsThen(b, []);
    assert b + [] == b;
  }

  /** The display of a single episode: one digit run. */
  lemma SingleDisplayRuns(a: string)
    requires a != [] && AllDigits(a)
    ensures var d := "E" + a; NormalizeSeason(d) == d && DigitRuns(d) == [a]
  {
    var d := "E" + a;
    assert d == ['E'] + a;
    PlainIsNormal(d);
    DigitRunsSkip('E', a);
    DigitRunsThen(a, []);
    assert a + [] == a;
  }

  /**
   * What `formatEpisodeDisplay` writes, `parseEpisodePart` reads back: when both labels are digit strings
   * naming the ends of an ordered range, parsing the display recovers the range and its labels.
   */
  lemma DisplayParsesBack(s: Show)
    requires s.epFrom <= s.epTo
    requires var a := EpisodeLabel(s.epFromStr, s.epFrom); a != [] && AllDigits(a) && DigitsValue(a) == s.epFrom
    requires var b := EpisodeLabel(s.epToStr, s.epTo); b != [] && AllDigits(b) && DigitsValue(b) == s.epTo
    ensures var a := EpisodeLabel(s.epFromStr, s.epFrom);
      var b := EpisodeLabel(s.epToStr, s.epTo);
      ParseEpisodePart(FormatEpisodeDisplay(s))
        == Some(EpisodeRange(s.epFrom, s.epTo, a, if s.epFrom == s.epTo then a else b))
  {
    var a := EpisodeLabel(s.epFromStr, s.epFrom);
    var b := EpisodeLabel(s.epToStr, s.epTo);
    hide NormalizeSeason;
    hide DigitRuns;
    hide EpisodeLabel;
    if s.epFrom != s.epTo {
      RangeDisplayRuns(a, b);
      ParseOfTwoRuns(FormatEpisodeDisplay(s), a, b);
    } else {
      SingleDisplayRuns(a);
      ParseOfOneRun(FormatEpisodeDisplay(s), a);
    }
  }

  // ---------------------------------------------------------------------------------------------
  // formatEpisodeWithProgress

  /** The confirmed episodes that fall inside the advertised range. */
  function DoneCount(item: Show): nat {
    |Restrict(item.done, item.epFrom, item.epTo)|
  }

  /**
   * `formatEpisodeWithProgress`: the display alone while nothing in range is confirmed, a tick for a
   * one-episode range, otherwise the confirmed count out of the range length and a tick.
   */
  function FormatEpisodeWithProgress(it: Show): string {
    var item := Reupgrade(it);
    var display := FormatEpisodeDisplay(item);
    var count := DoneCount(item);
    if count == 0 then display
    else if RangeLen(item) <= 1 then display + " ✅"
    else display + " (" + NatToString(count) + "/" + IntToString(RangeLen(item)) + ") ✅"
  }

  /** The episode display always leads, and it stands alone exactly when nothing in range is confirmed. */
  lemma ProgressExtendsDisplay(it: Show)
    ensures var item := Reupgrade(it); var r := FormatEpisodeWithProgress(it);
      && FormatEpisodeDisplay(item) <= r
      && (r == FormatEpisodeDisplay(item) <==> DoneCount(item) == 0)
  {
    hide Reupgrade;
    hide FormatEpisodeDisplay;
    hide DoneCount;
  }

  /**
   * Once an episode in range is confirmed, a one-episode range gets a bare tick and a longer range the
   * count out of the range length, both printed in decimal; on a well-formed record the count never
   * exceeds the length.
   */
  lemma ProgressSuffix(it: Show)
    ensures var item := Reupgrade(it); var r := FormatEpisodeWithProgress(it);
      var display := FormatEpisodeDisplay(item); var d := DoneCount(item); var t := RangeLen(item);
      && (d > 0 && t <= 1 ==> r == display + " ✅")
      && (d > 0 && t > 1 ==>
            && r == display + " (" + NatToString(d) + "/" + NatToString(t) + ") ✅"
            && DigitsValue(NatToString(d)) == d && DigitsValue(NatToString(t)) == t)
      && (WellFormed(it) ==> d <= t)
  {
    hide Reupgrade, FormatEpisodeDisplay, DoneCount;
    var item := Reupgrade(it);
    NatToStringRoundTrip(DoneCount(item));
    NatToStringRoundTrip(RangeLen(item));
    if WellFormed(it) {
      DoneCountAtMostTotal(it);
    }
  }

  /** Strictly increasing numbers inside `[lo, hi]` are at most as many as the numbers there. */
  lemma {:induction false} IncreasingWithin(xs: seq<int>, lo: int, hi: int)
    requires StrictlyIncreasing(xs)
    requires forall n :: n in xs ==> lo <= n <= hi
    ensures |xs| == 0 || |xs| <= hi - lo + 1
    decreases |xs|
  {
    if xs != [] {
      assert xs[0] in xs;
    }
    if |xs| > 1 {
      IncreasingHeadTail(xs);
      assert xs[0] in xs && xs[1] in xs[1..];
      IncreasingWithin(xs[1..], xs[0] + 1, hi);
    }
  }

  /** On a well-formed record the confirmed count never exceeds the range length. */
  lemma DoneCountAtMostTotal(it: Show)
    requires WellFormed(it)
    ensures Reupgrade(it) == it && DoneCount(it) <= RangeLen(it)
  {
    ReupgradeWellFormed(it);
    IncreasingWithin(Restrict(it.done, it.epFrom, it.epTo), it.epFrom, it.epTo);
  }

  // ---------------------------------------------------------------------------------------------
  // fitLinesToBudget

  /** The closing line of a list with `hidden` lines left out. */
  function Notice(hidden: nat): string {
    "<i>…以及 " + NatToString(hidden) + " 条未显示</i>"
  }

  /** The lines of the candidate with the first `n` body lines: the notice follows them exactly when some are left out. */
  function CandidateLines(prefix: seq<string>, body: seq<string>, suffix: seq<string>, n: nat): seq<string>
    requires n <= |body|
  {
    prefix + body[..n] + (if n < |body| then [Notice(|body| - n)] else []) + suffix
  }

  function Candidate(prefix: seq<string>, body: seq<string>, suffix: seq<string>, n: nat): string
    requires n <= |body|
  {
    Join(CandidateLines(prefix, body, suffix, n), "\n")
  }

  predicate Fits(html: string, budget: int) {
    VisibleTextLength(html) <= budget
  }

  /**
   * What `fitLinesToBudget` returns: the fitting candidate with the most body lines, or nothing when
   * not even the candidate without body lines fits.
   */
  predicate FitOutcome(prefix: seq<string>, body: seq<string>, suffix: seq<string>, budget: int, r: Option<string>) {
    match r
    case None => forall n: nat :: n <= |body| ==> !Fits(Candidate(prefix, body, suffix, n), budget)
    case Some(html) =>
      exists n: nat :: n <= |body| && html == Candidate(prefix, body, suffix, n) && Fits(html, budget)
        && forall m: nat :: n < m <= |body| ==> !Fits(Candidate(prefix, body, suffix, m), budget)
  }

  /** `fitLinesToBudget`: try `n = |body|` down to `0` and return the first candidate that fits. */
  method FitLinesToBudget(prefix: seq<string>, body: seq<string>, suffix: seq<string>, budget: int)
    returns (r: Option<string>)
    ensures FitOutcome(prefix, body, suffix, budget, r)
  {
    hide Join;
    hide VisibleTextLength;
    var n := |body|;
    while n >= 0
      invariant -1 <= n <= |body|
      invariant forall m: nat :: n < m <= |body| ==> !Fits(Candidate(prefix, body, suffix, m), budget)
      decreases n + 1
    {
      var hidden := |body| - n;
      var lines := prefix + body[..n];
      if hidden > 0 {
        lines := lines + [Notice(hidden)];
      }
      lines := lines + suffix;
      assert lines == CandidateLines(prefix, body, suffix, n);
      var html := Join(lines, "\n");
      if VisibleTextLength(html) <= budget {
        assert html == Candidate(prefix, body, suffix, n) && Fits(html, budget);
        return Some(html);
      }
      n := n - 1;
    }
    return None;
  }

  /** The outcome is determined by the lines and the budget. */
  lemma FitOutcomeUnique(prefix: seq<string>, body: seq<string>, suffix: seq<string>, budget: int,
                         r1: Option<string>, r2: Option<string>)
    requires FitOutcome(prefix, body, suffix, budget, r1) && FitOutcome(prefix, body, suffix, budget, r2)
    ensures r1 == r2
  {
    if r1.Some? && r2.Some? {
      var n1: nat :| n1 <= |body| && r1.value == Candidate(prefix, body, suffix, n1) && Fits(r1.value, budget)
        && forall m: nat :: n1 < m <= |body| ==> !Fits(Candidate(prefix, body, suffix, m), budget);
      var n2: nat :| n2 <= |body| && r2.value == Candidate(prefix, body, suffix, n2) && Fits(r2.value, budget)
        && forall m: nat :: n2 < m <= |body| ==> !Fits(Candidate(prefix, body, suffix, m), budget);
      assert n1 == n2;
    }
  }

  lemma CandidateOfAll(prefix: seq<string>, body: seq<string>, suffix: seq<string>)
    ensures Candidate(prefix, body, suffix, |body|) == Join(prefix + body + suffix, "\n")
  {
    hide Join;
    assert body[..|body|] == body;
    assert CandidateLines(prefix, body, suffix, |body|) == prefix + body + suffix;
  }

  /** When every body line fits, all of them are shown and there is no notice. */
  lemma FitAllShown(prefix: seq<string>, body: seq<string>, suffix: seq<string>, budget: int, r: Option<string>)
    requires FitOutcome(prefix, body, suffix, budget, r)
    requires Fits(Join(prefix + body + suffix, "\n"), budget)
    ensures r == Some(Join(prefix + body + suffix, "\n"))
  {
    CandidateOfAll(prefix, body, suffix);
    hide Candidate;
    hide Join;
    hide Fits;
    assert FitOutcome(prefix, body, suffix, budget, Some(Join(prefix + body + suffix, "\n")));
    FitOutcomeUnique(prefix, body, suffix, budget, r, Some(Join(prefix + body + suffix, "\n")));
  }

  // ---------------------------------------------------------------------------------------------
  // hardTrimVisible

  /**
   * What `hardTrimVisible` returns: the first `k` lines for some `k >= 1`, where every longer run of
   * lines is over budget and the kept lines fit unless only the first is left.
   */
  predicate TrimOutcome(html: string, budget: int, r: string) {
    var pieces := Split(html, '\n');
    exists k :: 1 <= k <= |pieces| && r == Join(pieces[..k], "\n")
      && (k == 1 || Fits(r, budget))
      && forall m :: k < m <= |pieces| ==> !Fits(Join(pieces[..m], "\n"), budget)
  }

  /** `hardTrimVisible`: drop trailing lines while more than one is left and the text is over budget. */
  method HardTrimVisible(html: string, budget: int) returns (r: string)
    ensures TrimOutcome(html, budget, r)
  {
    hide Join;
    hide VisibleTextLength;
    hide Split;
    var lines := Split(html, '\n');
    ghost var pieces := lines;
    assert pieces[..|pieces|] == pieces;
    while |lines| > 1 && VisibleTextLength(Join(lines, "\n")) > budget
      invariant 1 <= |lines| <= |pieces| && lines == pieces[..|lines|]
      invariant forall m :: |lines| < m <= |pieces| ==> !Fits(Join(pieces[..m], "\n"), budget)
      decreases |lines|
    {
      lines := lines[..|lines| - 1];
    }
    r := Join(lines, "\n");
    assert 1 <= |lines| <= |pieces| && r == Join(pieces[..|lines|], "\n") && (|lines| == 1 || Fits(r, budget));
  }

  /** The trimmed text is a prefix of the input and always keeps its first line. */
  lemma TrimKeepsFirstLine(html: string, budget: int, r: string)
    requires TrimOutcome(html, budget, r)
    ensures Split(html, '\n')[0] <= r <= html
  {
    var pieces := Split(html, '\n');
    var k :| 1 <= k <= |pieces| && r == Join(pieces[..k], "\n");
    JoinPrefix(pieces, k, "\n");
    JoinSplit(html, '\n');
  }

  // ---------------------------------------------------------------------------------------------
  // hardTrimToChars

  /** `hardTrimToChars`: text over the limit is cut to `max(0, maxChars - 20)` code units and marked `\n…`. */
  function HardTrimToChars(text: string, maxChars: int): string {
    if Utf16Length(text) <= maxChars then text
    else PrefixUnits(text, if maxChars - 20 > 0 then maxChars - 20 else 0) + "\n…"
  }

  lemma MarkLength()
    ensures Utf16Length("\n…") == 2
  {
  }

  /**
   * Text within the limit is kept. Longer text becomes a prefix of it that fills the room left after
   * the 20-unit margin, short of it by at most the one character that would not fit, then the mark.
   * Either way the result is within any limit of at least 2.
   */
  lemma HardTrimToCharsBound(text: string, maxChars: int)
    ensures var r := HardTrimToChars(text, maxChars);
      && (Utf16Length(text) <= maxChars ==> r == text)
      && (Utf16Length(text) > maxChars ==>
            exists p :: p <= text && r == p + "\n…" && maxChars - 22 < Utf16Length(p) <= (if maxChars > 20 then maxChars - 20 else 0))
      && (maxChars >= 2 ==> Utf16Length(r) <= maxChars)
  {
    hide Utf16Length;
    if Utf16Length(text) > maxChars {
      var k := if maxChars - 20 > 0 then maxChars - 20 else 0;
      var p := PrefixUnits(text, k);
      hide PrefixUnits;
      if |p| < |text| {
        assert CodeUnits(text[|p|]) <= 2;
      } else {
        assert p == text;
      }
      MarkLength();
      Utf16LengthAppend(p, "\n…");
    }
  }

  // ---------------------------------------------------------------------------------------------
  // buildCaptionHtml

  /** One list line: the trimmed title in bold, the year in brackets, the season and the episode text, all escaped. */
  function RenderLine(it: Show): string {
    "📺 <b>" + EscapeHtml(Trim(it.title)) + "</b> (" + EscapeHtml(Trim(it.year)) + ") "
      + EscapeHtml(NormalizeSeason(it.season)) + EscapeHtml(FormatEpisodeWithProgress(it))
  }

  /** What a reader of the line sees. */
  function PlainLine(it: Show): string {
    "📺 " + Trim(it.title) + " (" + Trim(it.year) + ") " + NormalizeSeason(it.season) + FormatEpisodeWithProgress(it)
  }

  /** Escaping the shown line escapes each field and leaves the fixed text alone. */
  lemma EscapeLineParts(t: string, y: string, se: string, ep: string)
    ensures EscapeChars("📺 " + t + " (" + y + ") " + se + ep)
      == "📺 " + EscapeChars(t) + " (" + EscapeChars(y) + ") " + EscapeChars(se) + EscapeChars(ep)
  {
    hide EscapeChars;
    EscapeCharsPlain("📺 ");
    EscapeCharsPlain(" (");
    EscapeCharsPlain(") ");
    EscapeCharsAppend("📺 " + t + " (" + y + ") " + se, ep);
    EscapeCharsAppend("📺 " + t + " (" + y + ") ", se);
    EscapeCharsAppend("📺 " + t + " (" + y, ") ");
    EscapeCharsAppend("📺 " + t + " (", y);
    EscapeCharsAppend("📺 " + t, " (");
    EscapeCharsAppend("📺 ", t);
  }

  /** The bold title with the fixed text around it loses only its two tags. */
  lemma StripTitle(et: string)
    requires '<' !in et
    ensures StripAllTags("📺 <b>" + et + "</b> (") == "📺 " + et + " ("
  {
    hide StripAllTags;
    assert "📺 <b>" + et + "</b> (" == "📺 " + "<b>" + et + "</b>" + " (";
    StripBold("📺 ", et, " (");
  }

  /**
   * A line measures exactly as the text it shows, provided the show's fields hold no `&` (with one the
   * count can come out short, as `EscapedEntityUndercounted` shows).
   */
  lemma RenderLineVisible(it: Show)
    requires '&' !in Trim(it.title) && '&' !in Trim(it.year) && '&' !in NormalizeSeason(it.season)
    requires '&' !in FormatEpisodeWithProgress(it)
    ensures VisibleText(RenderLine(it)) == PlainLine(it)
    ensures VisibleTextLength(RenderLine(it)) == Utf16Length(PlainLine(it))
  {
    hide StripAllTags;
    hide EscapeChars;
    hide Trim;
    hide NormalizeSeason;
    hide FormatEpisodeWithProgress;
    hide EscapeHtml;
    hide DecodeEntities;
    var t, y, se, ep := Trim(it.title), Trim(it.year), NormalizeSeason(it.season), FormatEpisodeWithProgress(it);
    var plain := PlainLine(it);
    EscapeHtmlCharwise(t);
    EscapeHtmlCharwise(y);
    EscapeHtmlCharwise(se);
    EscapeHtmlCharwise(ep);
    EscapeHtmlCharwise(plain);
    VisibleTextOfEscaped(plain);
    EscapeLineParts(t, y, se, ep);
    StripWithoutTags(EscapeChars(plain));
    var et, ey, ese, eep := EscapeChars(t), EscapeChars(y), EscapeChars(se), EscapeChars(ep);
    StripTitle(et);
    StripAppendPlain("📺 <b>" + et + "</b> (", ey);
    StripAppendPlain("📺 <b>" + et + "</b> (" + ey, ") ");
    StripAppendPlain("📺 <b>" + et + "</b> (" + ey + ") ", ese);
    StripAppendPlain("📺 <b>" + et + "</b> (" + ey + ") " + ese, eep);
  }

  const Header: string := "🎬 <b>今日电视剧更新</b>"
  const Placeholder: string := "（今日暂无更新）"

  lemma HeaderShown()
    ensures StripAllTags(Header) == "🎬 今日电视剧更新"
  {
    hide StripAllTags;
    assert Header == "🎬 " + "<b>" + "今日电视剧更新" + "</b>" + "";
    StripBold("🎬 ", "今日电视剧更新", "");
  }

  lemma ShownHeaderLength()
    ensures Utf16Length("🎬 今日电视剧更新") == 10
  {
    assert Utf16Length("今日电视剧更新") == 7;
    Utf16LengthAppend("🎬 ", "今日电视剧更新");
  }

  /** The header is 10 UTF-16 units of visible text: the clapper board counts two. */
  lemma HeaderVisibleLength()
    ensures VisibleTextLength(Header) == 10
  {
    hide StripAllTags;
    hide DecodeEntities;
    hide Utf16Length;
    HeaderShown();
    ShownHeaderLength();
    DecodeWithoutAmp("🎬 今日电视剧更新");
  }

  /** The line under the header: the date in bold and the update time in italics. */
  function Meta(dateKey: string, updatedAt: string): string {
    "🗓 <b>" + EscapeHtml(dateKey) + "</b>  ·  ⏱ <i>" + EscapeHtml(updatedAt) + "</i>"
  }

  function CaptionPrefix(dateKey: string, updatedAt: string): seq<string> {
    [Header, Meta(dateKey, updatedAt), ""]
  }

  /** One line per show, or the placeholder when the list is empty. */
  function CaptionBody(content: seq<Show>): (body: seq<string>)
    ensures |body| == if content == [] then 1 else |content|
  {
    if content == [] then [Placeholder]
    else seq(|content|, i requires 0 <= i < |content| => RenderLine(content[i]))
  }

  /**
   * The captions `buildCaptionHtml` may return: the fitted lines when some candidate fits, otherwise the
   * header and meta line cut back.
   */
  predicate CaptionOutcome(dateKey: string, updatedAt: string, content: seq<Show>, budget: int, html: string) {
    var prefix := CaptionPrefix(dateKey, updatedAt);
    var body := CaptionBody(content);
    || FitOutcome(prefix, body, [], budget, Some(html))
    || (FitOutcome(prefix, body, [], budget, None) && TrimOutcome(Header + "\n" + Meta(dateKey, updatedAt), budget, html))
  }

  /**
   * `buildCaptionHtml`: the header, the meta line and a blank line, then as many shows as fit the
   * budget with a notice for the rest; when not even that fits, the header and meta line cut back line
   * by line. A budget that holds the header is always met.
   */
  method BuildCaptionHtml(dateKey: string, updatedAt: string, content: seq<Show>, budget: int)
    returns (html: string)
    ensures CaptionOutcome(dateKey, updatedAt, content, budget, html)
    ensures budget >= 10 ==> Fits(html, budget)
  {
    var fitted := FitLinesToBudget(CaptionPrefix(dateKey, updatedAt), CaptionBody(content), [], budget);
    if fitted.Some? {
      html := fitted.value;
      CaptionFits(CaptionPrefix(dateKey, updatedAt), CaptionBody(content), budget, html);
    } else {
      html := HardTrimVisible(Header + "\n" + Meta(dateKey, updatedAt), budget);
      HeaderKept(Meta(dateKey, updatedAt), budget, html);
    }
  }

  lemma CaptionFits(prefix: seq<string>, body: seq<string>, budget: int, html: string)
    requires FitOutcome(prefix, body, [], budget, Some(html))
    ensures Fits(html, budget)
  {
  }

  /** Cutting back the header and meta line leaves at least the header, so it fits any budget of 10. */
  lemma HeaderKept(meta: string, budget: int, r: string)
    requires TrimOutcome(Header + "\n" + meta, budget, r)
    ensures budget >= 10 ==> Fits(r, budget)
  {
    var pieces := Split(Header + "\n" + meta, '\n');
    var k :| 1 <= k <= |pieces| && r == Join(pieces[..k], "\n") && (k == 1 || Fits(r, budget));
    if k == 1 {
      SplitFirst(Header, meta, '\n');
      assert pieces[..1] == [Header];
      HeaderVisibleLength();
    }
  }
}
