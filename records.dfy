/**
 * Show records: the raw shape items arrive or are stored in, the canonical shape the dashboard keeps,
 * the migration between them (`upgradeContentItem`), episode-range parsing (`parseEpisodePart`) and the
 * `title|year|SEASON` identity key (`makeShowKey`).
 */
module Records {
  import opened Wrappers
  import opened Text

  /**
   * An item as it arrives in a payload or sits in storage. Absent or non-numeric fields are `None`;
   * `episode` and `episodeDisplay` are the legacy free-text episode fields ("" when absent).
   */
  datatype RawItem = RawItem(
    title: string, year: string, season: string,
    epFrom: Option<int>, epTo: Option<int>,
    epFromStr: Option<string>, epToStr: Option<string>,
    episode: string, episodeDisplay: string,
    done: Option<seq<int>>)

  /** One show on today's list: its advertised episode range and the episodes confirmed in the library. */
  datatype Show = Show(
    title: string, year: string, season: string,
    epFrom: int, epTo: int,
    epFromStr: string, epToStr: string,
    done: seq<int>)

  /** The result of `parseEpisodePart`: numbers and the digit strings they were read from (padding kept). */
  datatype EpisodeRange = EpisodeRange(epFrom: int, epTo: int, epFromStr: string, epToStr: string)

  // ---------------------------------------------------------------------------------------------
  // identity key

  /** `normalizeTitleKey`: trim, then every run of white space becomes one space. */
  function NormalizeTitleKey(title: string): string {
    CollapseSpaces(Trim(title))
  }

  /** `String(season).trim().toUpperCase()` */
  function NormalizeSeason(season: string): string {
    ToUpper(Trim(season))
  }

  /** `makeShowKey(title, year, season)` */
  function MakeShowKey(title: string, year: string, season: string): string {
    NormalizeTitleKey(title) + "|" + Trim(year) + "|" + NormalizeSeason(season)
  }

  function KeyOf(s: Show): string {
    MakeShowKey(s.title, s.year, s.season)
  }

  lemma NormalizeTitleKeyIdempotent(title: string)
    ensures NormalizeTitleKey(NormalizeTitleKey(title)) == NormalizeTitleKey(title)
  {
    var u := NormalizeTitleKey(title);
    TrimIsTrimmed(title);
    CollapseSpacesEnds(Trim(title));
    CollapseSpacesSingle(Trim(title));
    TrimmedIsFixed(u);
    CollapseSingleSpacedIsFixed(u);
  }

  lemma NormalizeSeasonIdempotent(season: string)
    ensures NormalizeSeason(NormalizeSeason(season)) == NormalizeSeason(season)
  {
    TrimIsTrimmed(season);
    ToUpperKeepsTrimmed(Trim(season));
    TrimmedIsFixed(NormalizeSeason(season));
  }

  /** Only the last `|` of `a + "|" + b` can separate when `b` has none. */
  lemma SplitAtLastPipe(a1: string, b1: string, a2: string, b2: string)
    requires a1 + "|" + b1 == a2 + "|" + b2
    requires '|' !in b1 && '|' !in b2
    ensures a1 == a2 && b1 == b2
  {
    var s := a1 + "|" + b1;
    assert s[|a1|] == '|' && s[|a2|] == '|';
    assert forall j :: |a1| < j < |s| ==> s[j] == b1[j - |a1| - 1];
    assert forall j :: |a2| < j < |s| ==> s[j] == b2[j - |a2| - 1];
    assert |a1| == |a2|;
    assert a1 == s[..|a1|] && a2 == s[..|a2|];
    assert b1 == s[|a1| + 1..] && b2 == s[|a2| + 1..];
  }

  /**
   * Two records are the same show exactly when their normalised title, year and season agree, provided
   * year and season hold no `|` (the normaliser only produces four-digit years and `S<digits>` seasons).
   */
  lemma ShowKeyIdentifies(t1: string, y1: string, s1: string, t2: string, y2: string, s2: string)
    requires '|' !in Trim(y1) && '|' !in Trim(y2)
    requires '|' !in NormalizeSeason(s1) && '|' !in NormalizeSeason(s2)
    ensures MakeShowKey(t1, y1, s1) == MakeShowKey(t2, y2, s2)
        <==> (NormalizeTitleKey(t1) == NormalizeTitleKey(t2) && Trim(y1) == Trim(y2)
              && NormalizeSeason(s1) == NormalizeSeason(s2))
  {
    if MakeShowKey(t1, y1, s1) == MakeShowKey(t2, y2, s2) {
      var a1 := NormalizeTitleKey(t1) + "|" + Trim(y1);
      var a2 := NormalizeTitleKey(t2) + "|" + Trim(y2);
      assert MakeShowKey(t1, y1, s1) == a1 + "|" + NormalizeSeason(s1);
      assert MakeShowKey(t2, y2, s2) == a2 + "|" + NormalizeSeason(s2);
      SplitAtLastPipe(a1, NormalizeSeason(s1), a2, NormalizeSeason(s2));
      SplitAtLastPipe(NormalizeTitleKey(t1), Trim(y1), NormalizeTitleKey(t2), Trim(y2));
    }
  }

  // ---------------------------------------------------------------------------------------------
  // parseEpisodePart

  /** The longest prefix of decimal digits. */
  function TakeDigits(s: string): (r: string)
    ensures |r| <= |s| && r == s[..|r|] && AllDigits(r)
    ensures s != [] && IsDigit(s[0]) ==> r != []
  {
    if s != [] && IsDigit(s[0]) then [s[0]] + TakeDigits(s[1..]) else []
  }

  /** `s.match(/\d+/g) || []`: the maximal runs of decimal digits, left to right. */
  function DigitRuns(s: string): (runs: seq<string>)
    ensures forall k :: 0 <= k < |runs| ==> runs[k] != [] && AllDigits(runs[k])
    decreases |s|
  {
    if s == [] then []
    else if IsDigit(s[0]) then
      var run := TakeDigits(s);
      [run] + DigitRuns(s[|run|..])
    else DigitRuns(s[1..])
  }

  /**
   * `parseEpisodePart`: the first and the last run of digits are the ends of the range; the smaller
   * number comes first and its digit string moves with it.
   */
  function ParseEpisodePart(part: string): (r: Option<EpisodeRange>)
    ensures r.None? <==> DigitRuns(NormalizeSeason(part)) == []
    ensures r.Some? ==>
      var e := r.value;
      var runs := DigitRuns(NormalizeSeason(part));
      && e.epFrom <= e.epTo
      && AllDigits(e.epFromStr) && e.epFromStr != [] && DigitsValue(e.epFromStr) == e.epFrom
      && AllDigits(e.epToStr) && e.epToStr != [] && DigitsValue(e.epToStr) == e.epTo
      && (DigitsValue(runs[0]) <= DigitsValue(runs[|runs| - 1]) ==>
            e.epFromStr == runs[0] && e.epToStr == runs[|runs| - 1])
      && (DigitsValue(runs[|runs| - 1]) < DigitsValue(runs[0]) ==>
            e.epFromStr == runs[|runs| - 1] && e.epToStr == runs[0])
  {
    var s := NormalizeSeason(part);
    var nums := DigitRuns(s);
    if |nums| == 0 then None
    else
      var fromStr := nums[0];
      var toStr := nums[|nums| - 1];
      var from := DigitsValue(fromStr);
      var to := DigitsValue(toStr);
      if to < from then Some(EpisodeRange(to, from, toStr, fromStr))
      else Some(EpisodeRange(from, to, fromStr, toStr))
  }

  /** Two runs of digits make the range from the smaller number to the larger. */
  lemma ParseOfTwoRuns(part: string, a: string, b: string)
    requires DigitRuns(NormalizeSeason(part)) == [a, b]
    requires AllDigits(a) && AllDigits(b)
    ensures ParseEpisodePart(part) == Some(
      if DigitsValue(b) < DigitsValue(a) then EpisodeRange(DigitsValue(b), DigitsValue(a), b, a)
      else EpisodeRange(DigitsValue(a), DigitsValue(b), a, b))
  {
  }

  /** A run of digits followed by a non-digit (or nothing) is read whole. */
  lemma {:induction false} TakeDigitsThen(a: string, rest: string)
    requires AllDigits(a) && (rest == [] || !IsDigit(rest[0]))
    ensures TakeDigits(a + rest) == a
    decreases |a|
  {
    if a == [] {
      assert a + rest == rest;
    } else {
      assert (a + rest)[0] == a[0] && (a + rest)[1..] == a[1..] + rest;
      TakeDigitsThen(a[1..], rest);
      assert a == [a[0]] + a[1..];
    }
  }

  lemma DigitRunsThen(a: string, rest: string)
    requires a != [] && AllDigits(a) && (rest == [] || !IsDigit(rest[0]))
    ensures DigitRuns(a + rest) == [a] + DigitRuns(rest)
  {
    TakeDigitsThen(a, rest);
    assert (a + rest)[0] == a[0];
    assert (a + rest)[|a|..] == rest;
  }

  lemma DigitRunsSkip(c: char, rest: string)
    requires !IsDigit(c)
    ensures DigitRuns([c] + rest) == DigitRuns(rest)
  {
    assert ([c] + rest)[1..] == rest;
  }

  /** A single run of digits is the whole range. */
  lemma ParseOfOneRun(part: string, a: string)
    requires DigitRuns(NormalizeSeason(part)) == [a]
    requires AllDigits(a)
    ensures ParseEpisodePart(part) == Some(EpisodeRange(DigitsValue(a), DigitsValue(a), a, a))
  {
  }

  lemma NormalizeSeasonOfE13E14()
    ensures NormalizeSeason("E13-E14") == "E13-E14"
  {
    assert TrimStart("E13-E14") == "E13-E14";
    assert TrimEnd("E13-E14") == "E13-E14";
    ToUpperFixed("E13-E14");
  }

  lemma DigitRunsOfE13E14()
    ensures DigitRuns("E13-E14") == ["13", "14"]
  {
    assert TakeDigits("13-E14") == "13" by {
      assert TakeDigits("-E14") == [];
      assert TakeDigits("3-E14") == "3";
    }
    assert TakeDigits("14") == "14" by {
      assert TakeDigits("4") == "4";
    }
    assert DigitRuns("14") == ["14"];
    assert DigitRuns("E14") == ["14"];
    assert DigitRuns("-E14") == ["14"];
    assert DigitRuns("13-E14") == ["13", "14"];
  }

  /** A legacy `episode` field such as "E13-E14" gives the range 13..14. */
  lemma ParseEpisodePartExample(part: string)
    requires part == "E13-E14"
    ensures ParseEpisodePart(part) == Some(EpisodeRange(13, 14, "13", "14"))
  {
    hide NormalizeSeason, DigitRuns, ParseEpisodePart, TakeDigits, Trim, ToUpper;
    NormalizeSeasonOfE13E14();
    DigitRunsOfE13E14();
    assert DigitsValue("13") == 13 && DigitsValue("14") == 14 by {
      assert "13"[..1] == "1" && "14"[..1] == "1";
    }
    ParseOfTwoRuns(part, "13", "14");
  }

  lemma NormalizeSeasonOfE08E5()
    ensures NormalizeSeason(" E08-E5 ") == "E08-E5"
  {
    assert TrimStart(" E08-E5 ") == TrimStart(" E08-E5 "[1..]);
    assert " E08-E5 "[1..] == "E08-E5 ";
    assert TrimEnd("E08-E5 ") == TrimEnd("E08-E5 "[..6]);
    assert "E08-E5 "[..6] == "E08-E5";
    ToUpperFixed("E08-E5");
  }

  lemma DigitRunsOfE08E5()
    ensures DigitRuns("E08-E5") == ["08", "5"]
  {
    assert TakeDigits("08-E5") == "08" by {
      assert TakeDigits("-E5") == [];
      assert TakeDigits("8-E5") == "8";
    }
    assert TakeDigits("5") == "5";
    assert DigitRuns("5") == ["5"];
    assert DigitRuns("E5") == ["5"];
    assert DigitRuns("-E5") == ["5"];
    assert DigitRuns("08-E5") == ["08", "5"];
  }

  /** A reversed range is put in order, the padded digit strings travelling with their numbers. */
  lemma ParseEpisodePartSwapExample(part: string)
    requires part == " E08-E5 "
    ensures ParseEpisodePart(part) == Some(EpisodeRange(5, 8, "5", "08"))
  {
    hide NormalizeSeason, DigitRuns, ParseEpisodePart, TakeDigits, Trim, ToUpper;
    NormalizeSeasonOfE08E5();
    DigitRunsOfE08E5();
    assert DigitsValue("08") == 8 && DigitsValue("5") == 5 by {
      assert "08"[..1] == "0";
    }
    ParseOfTwoRuns(part, "08", "5");
  }

  lemma NormalizeSeasonOfE08E8()
    ensures NormalizeSeason("E08-E8") == "E08-E8"
  {
    assert TrimStart("E08-E8") == "E08-E8";
    assert TrimEnd("E08-E8") == "E08-E8";
    ToUpperFixed("E08-E8");
  }

  lemma DigitRunsOfE08E8()
    ensures DigitRuns("E08-E8") == ["08", "8"]
  {
    assert TakeDigits("08-E8") == "08" by {
      assert TakeDigits("-E8") == [];
      assert TakeDigits("8-E8") == "8";
    }
    assert TakeDigits("8") == "8";
    assert DigitRuns("8") == ["8"];
    assert DigitRuns("E8") == ["8"];
    assert DigitRuns("-E8") == ["8"];
    assert DigitRuns("08-E8") == ["08", "8"];
  }

  /** Equal ends are not swapped: the first run keeps its padding and stays first. */
  lemma ParseEpisodePartEqualExample(part: string)
    requires part == "E08-E8"
    ensures ParseEpisodePart(part) == Some(EpisodeRange(8, 8, "08", "8"))
  {
    hide NormalizeSeason, DigitRuns, ParseEpisodePart, TakeDigits, Trim, ToUpper;
    NormalizeSeasonOfE08E8();
    DigitRunsOfE08E8();
    assert DigitsValue("08") == 8 && DigitsValue("8") == 8 by {
      assert "08"[..1] == "0";
    }
    ParseOfTwoRuns(part, "08", "8");
  }

  // ---------------------------------------------------------------------------------------------
  // the `done` list: Array.from(new Set(done)).sort((a, b) => a - b)

  predicate StrictlyIncreasing(xs: seq<int>) {
    forall i, j :: 0 <= i < j < |xs| ==> xs[i] < xs[j]
  }

  function InsertSorted(xs: seq<int>, x: int): (r: seq<int>)
    requires StrictlyIncreasing(xs)
    ensures StrictlyIncreasing(r)
    ensures forall y :: y in r <==> y in xs || y == x
  {
    if xs == [] then [x]
    else if x < xs[0] then [x] + xs
    else if x == xs[0] then xs
    else
      var tail := InsertSorted(xs[1..], x);
      assert forall k :: 0 <= k < |tail| ==> tail[k] in tail;
      [xs[0]] + tail
  }

  /** The numbers of `xs`, each once, in increasing order. */
  function Canonical(xs: seq<int>): (r: seq<int>)
    ensures StrictlyIncreasing(r)
    ensures forall y :: y in r <==> y in xs
  {
    if xs == [] then []
    else
      var init := Canonical(xs[..|xs| - 1]);
      assert xs == xs[..|xs| - 1] + [xs[|xs| - 1]];
      InsertSorted(init, xs[|xs| - 1])
  }

  /** The head of a strictly increasing sequence is its least element, and the tail holds the rest. */
  lemma IncreasingHeadTail(a: seq<int>)
    requires StrictlyIncreasing(a) && a != []
    ensures StrictlyIncreasing(a[1..])
    ensures forall y :: y in a ==> a[0] <= y
    ensures forall y :: y in a[1..] <==> y in a && y != a[0]
  {
    assert forall k :: 0 < k < |a| ==> a[0] < a[k];
    assert a == [a[0]] + a[1..];
  }

  /** A strictly increasing sequence is determined by its elements. */
  lemma {:induction false} IncreasingUnique(a: seq<int>, b: seq<int>)
    requires StrictlyIncreasing(a) && StrictlyIncreasing(b)
    requires forall y :: y in a <==> y in b
    ensures a == b
    decreases |a|
  {
    assert a != [] ==> a[0] in a;
    assert b != [] ==> b[0] in b;
    if a != [] && b != [] {
      IncreasingHeadTail(a);
      IncreasingHeadTail(b);
      assert a[0] == b[0];
      IncreasingUnique(a[1..], b[1..]);
      assert a == [a[0]] + a[1..] && b == [b[0]] + b[1..];
    }
  }

  lemma CanonicalOfIncreasing(xs: seq<int>)
    requires StrictlyIncreasing(xs)
    ensures Canonical(xs) == xs
  {
    IncreasingUnique(Canonical(xs), xs);
  }

  /** Two lists with the same numbers have the same canonical form. */
  lemma CanonicalSameElements(xs: seq<int>, ys: seq<int>)
    requires forall y :: y in xs <==> y in ys
    ensures Canonical(xs) == Canonical(ys)
  {
    IncreasingUnique(Canonical(xs), Canonical(ys));
  }

  // ---------------------------------------------------------------------------------------------
  // upgradeContentItem

  /** The stored range fields are usable: both numbers present and both digit strings non-empty. */
  predicate HasRange(it: RawItem) {
    && it.epFrom.Some? && it.epTo.Some?
    && it.epFromStr.Some? && it.epToStr.Some?
    && it.epFromStr.value != [] && it.epToStr.value != []
  }

  /** `String(it.episode || it.episodeDisplay || "").trim()` */
  function LegacyText(it: RawItem): string {
    Trim(if it.episode != [] then it.episode else it.episodeDisplay)
  }

  /**
   * The range of an item without usable range fields: parsed from the legacy episode text, or else
   * `epFrom = parseInt(epFrom || "0") || 0` and `epTo = parseInt(epTo || epFrom || "0") || epFrom`.
   */
  function LegacyRange(it: RawItem): (e: EpisodeRange)
    ensures e.epFromStr != [] && e.epToStr != []
    ensures ParseEpisodePart(LegacyText(it)).Some? ==> e == ParseEpisodePart(LegacyText(it)).value
    ensures ParseEpisodePart(LegacyText(it)).None? ==>
      && e.epFrom == it.epFrom.GetOr(0)
      && e.epTo == (if it.epTo.Some? && it.epTo.value != 0 then it.epTo.value else e.epFrom)
      && e.epFromStr == IntToString(e.epFrom) && e.epToStr == IntToString(e.epTo)
  {
    match ParseEpisodePart(LegacyText(it))
    case Some(parsed) => parsed
    case None =>
      var from := it.epFrom.GetOr(0);
      var to := if it.epTo.Some? && it.epTo.value != 0 then it.epTo.value else from;
      EpisodeRange(from, to, IntToString(from), IntToString(to))
  }

  /** `Math.max(1, epTo - epFrom + 1)`: the number of episodes a range advertises. */
  function RangeLen(s: Show): (n: int)
    ensures n >= 1 && n >= s.epTo - s.epFrom + 1
  {
    if s.epTo - s.epFrom + 1 > 1 then s.epTo - s.epFrom + 1 else 1
  }

  /** What every record produced by `Upgrade` satisfies. */
  predicate WellFormed(s: Show) {
    && s.title != [] && NormalizeTitleKey(s.title) == s.title
    && s.year != [] && Trim(s.year) == s.year
    && s.season != [] && NormalizeSeason(s.season) == s.season
    && s.epFromStr != [] && s.epToStr != []
    && StrictlyIncreasing(s.done)
  }

  /**
   * `upgradeContentItem`: normalise title, year and season, drop the record when one of them is empty,
   * recover the range from legacy fields when the stored one is unusable, dedup and sort `done`.
   */
  function Upgrade(it: RawItem): (r: Option<Show>)
    ensures r.None? <==>
      NormalizeTitleKey(it.title) == [] || Trim(it.year) == [] || NormalizeSeason(it.season) == []
    ensures r.Some? ==> WellFormed(r.value) && KeyOf(r.value) == MakeShowKey(it.title, it.year, it.season)
    ensures r.Some? ==> forall n :: n in r.value.done <==> it.done.Some? && n in it.done.value
    ensures r.Some? && HasRange(it) ==>
      && r.value.epFrom == it.epFrom.value && r.value.epTo == it.epTo.value
      && r.value.epFromStr == it.epFromStr.value && r.value.epToStr == it.epToStr.value
  {
    var title := NormalizeTitleKey(it.title);
    var year := Trim(it.year);
    var season := NormalizeSeason(it.season);
    if title == [] || year == [] || season == [] then None
    else
      var range := if HasRange(it)
        then EpisodeRange(it.epFrom.value, it.epTo.value, it.epFromStr.value, it.epToStr.value)
        else LegacyRange(it);
      var done := Canonical(if it.done.Some? then it.done.value else []);
      NormalizeTitleKeyIdempotent(it.title);
      TrimIdempotent(it.year);
      NormalizeSeasonIdempotent(it.season);
      Some(Show(title, year, season, range.epFrom, range.epTo, range.epFromStr, range.epToStr, done))
  }

  /** A canonical record seen as a stored item. */
  function ToRaw(s: Show): RawItem {
    RawItem(s.title, s.year, s.season, Some(s.epFrom), Some(s.epTo), Some(s.epFromStr), Some(s.epToStr),
            "", "", Some(s.done))
  }

  /** `upgradeContentItem(v) || v` for a record already in the canonical shape. */
  function Reupgrade(s: Show): Show {
    match Upgrade(ToRaw(s))
    case Some(u) => u
    case None => s
  }

  /** Upgrading a well-formed record changes nothing. */
  lemma UpgradeWellFormedIsIdentity(s: Show)
    requires WellFormed(s)
    ensures Upgrade(ToRaw(s)) == Some(s)
  {
    CanonicalOfIncreasing(s.done);
  }

  /** Re-upgrading a well-formed record gives it back. */
  lemma ReupgradeWellFormed(s: Show)
    requires WellFormed(s)
    ensures Reupgrade(s) == s
  {
    UpgradeWellFormedIsIdentity(s);
  }

  /** Only `done` matters to well-formedness beyond the identity fields and the digit strings. */
  lemma WellFormedWithDone(s: Show, done: seq<int>)
    requires WellFormed(s) && StrictlyIncreasing(done)
    ensures WellFormed(s.(done := done)) && KeyOf(s.(done := done)) == KeyOf(s)
  {
  }

  /** The migration is idempotent: upgrading an upgraded record gives it back. */
  lemma UpgradeIdempotent(it: RawItem)
    requires Upgrade(it).Some?
    ensures Upgrade(ToRaw(Upgrade(it).value)) == Upgrade(it)
  {
    UpgradeWellFormedIsIdentity(Upgrade(it).value);
  }

  /**
   * A record without a full range takes the range and labels of its legacy episode text, or of the
   * fallback (`upgradeContentItem`'s `else` branch).
   */
  lemma UpgradeLegacy(it: RawItem)
    ensures Upgrade(it).Some? && !HasRange(it) ==>
      var u := Upgrade(it).value;
      EpisodeRange(u.epFrom, u.epTo, u.epFromStr, u.epToStr) == LegacyRange(it)
  {
  }

  /** A legacy record that only carries `episode: "E13-E14"` is migrated to the range 13..14. */
  lemma UpgradeLegacyEpisodeExample(it: RawItem)
    requires it == RawItem("Show", "2024", "S1", None, None, None, None, "E13-E14", "", None)
    ensures Upgrade(it) == Some(Show("Show", "2024", "S1", 13, 14, "13", "14", []))
  {
    hide ParseEpisodePart, Trim, CollapseSpaces, ToUpper, LegacyRange;
    assert LegacyText(it) == "E13-E14" by {
      NoSpaceIsNormal("E13-E14");
    }
    ParseEpisodePartExample("E13-E14");
    UpgradeLegacy(it);
    assert NormalizeTitleKey("Show") == "Show" by {
      NoSpaceIsNormal("Show");
    }
    assert Trim("2024") == "2024" by {
      NoSpaceIsNormal("2024");
    }
    assert NormalizeSeason("S1") == "S1" by {
      NoSpaceIsNormal("S1");
      ToUpperFixed("S1");
    }
    assert Canonical([]) == [];
  }

  /** Re-upgrading a record never changes its identity key. */
  lemma KeyOfReupgrade(s: Show)
    ensures KeyOf(Reupgrade(s)) == KeyOf(s)
  {
  }
}
