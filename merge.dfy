/**
 * The interval merge engine over today's show list: `mergeSubscribeItems` (the widest advertised range
 * wins) and `applyLibraryItemsToContent` (mark the library's episodes as done), each specified as a left
 * fold of a one-record step over the incoming items.
 */
module Merge {
  import opened Wrappers
  import opened Text
  import opened Records

  /** The content array after a pass, and the `changed` flag the pass returns. */
  datatype Merged = Merged(content: seq<Show>, changed: bool)

  function Keys(c: seq<Show>): set<string> {
    set j | 0 <= j < |c| :: KeyOf(c[j])
  }

  predicate UniqueKeys(c: seq<Show>) {
    forall i, j :: 0 <= i < j < |c| ==> KeyOf(c[i]) != KeyOf(c[j])
  }

  predicate AllWellFormed(c: seq<Show>) {
    forall j :: 0 <= j < |c| ==> WellFormed(c[j])
  }

  /** The first position holding `key`, if any. */
  function FirstIndex(ks: seq<string>, key: string): (r: Option<nat>)
    ensures r.None? ==> forall j :: 0 <= j < |ks| ==> ks[j] != key
    ensures r.Some? ==> r.value < |ks| && ks[r.value] == key && forall j :: 0 <= j < r.value ==> ks[j] != key
  {
    if ks == [] then None
    else if ks[0] == key then Some(0)
    else
      match FirstIndex(ks[1..], key)
      case None => None
      case Some(i) => Some(i + 1)
  }

  /** `content.findIndex(v => makeShowKey(v.title, v.year, v.season) === key)` */
  function FindKey(c: seq<Show>, key: string): (r: Option<nat>)
    ensures r.None? ==> forall j :: 0 <= j < |c| ==> KeyOf(c[j]) != key
    ensures r.Some? ==> r.value < |c| && KeyOf(c[r.value]) == key
    ensures r.Some? ==> forall j :: 0 <= j < r.value ==> KeyOf(c[j]) != key
  {
    var ks := KeyList(c);
    var r := FirstIndex(ks, key);
    assert r.None? ==> forall j :: 0 <= j < |c| ==> ks[j] != key;
    r
  }

  /** The key of each record, in order. */
  function KeyList(c: seq<Show>): (ks: seq<string>)
    ensures |ks| == |c| && forall j :: 0 <= j < |c| ==> ks[j] == KeyOf(c[j])
  {
    seq(|c|, j requires 0 <= j < |c| => KeyOf(c[j]))
  }

  lemma FindKeyAbsent(c: seq<Show>, key: string)
    ensures FindKey(c, key).None? <==> key !in Keys(c)
  {
    if FindKey(c, key).Some? {
      var i := FindKey(c, key).value;
      assert KeyOf(c[i]) in Keys(c);
    }
  }

  /** Two lists with the same keys position by position answer every lookup alike. */
  lemma FindKeySameKeys(c: seq<Show>, d: seq<Show>, key: string)
    requires |c| == |d| && forall j :: 0 <= j < |c| ==> KeyOf(c[j]) == KeyOf(d[j])
    ensures FindKey(c, key) == FindKey(d, key)
  {
    var a := FindKey(c, key);
    var b := FindKey(d, key);
    if a.Some? && b.Some? {
      assert !(a.value < b.value) && !(b.value < a.value);
    }
  }

  // ---------------------------------------------------------------------------------------------
  // mergeSubscribeItems

  /** Replace the stored range by a strictly longer one, or by one as long that ends later or starts earlier. */
  predicate ShouldReplace(existing: Show, incoming: Show) {
    || RangeLen(incoming) > RangeLen(existing)
    || (RangeLen(incoming) == RangeLen(existing) && incoming.epTo > existing.epTo)
    || (RangeLen(incoming) == RangeLen(existing) && incoming.epFrom < existing.epFrom)
  }

  /** `done.filter(n => n >= lo && n <= hi)` */
  function Restrict(done: seq<int>, lo: int, hi: int): (r: seq<int>)
    ensures forall n :: n in r <==> n in done && lo <= n <= hi
    ensures StrictlyIncreasing(done) ==> StrictlyIncreasing(r)
  {
    if done == [] then []
    else
      var rest := Restrict(done[1..], lo, hi);
      assert StrictlyIncreasing(done) ==> forall k :: 0 <= k < |rest| ==> done[0] < rest[k] by {
        if StrictlyIncreasing(done) {
          forall k | 0 <= k < |rest| ensures done[0] < rest[k] {
            assert rest[k] in done[1..];
          }
        }
      }
      if lo <= done[0] <= hi then [done[0]] + rest else rest
  }

  /**
   * One iteration of the `mergeSubscribeItems` loop, given the upgraded incoming record (`None` when
   * the upgrade dropped it).
   */
  function MergeStep(m: Merged, u: Option<Show>): Merged {
    match u
    case None => m
    case Some(it) =>
      match FindKey(m.content, KeyOf(it))
      case None => Merged(m.content + [it], true)
      case Some(i) =>
        var existing := Reupgrade(m.content[i]);
        if ShouldReplace(existing, it) then
          var kept := Canonical(Restrict(existing.done, it.epFrom, it.epTo));
          Merged(m.content[i := it.(done := kept)], true)
        else
          Merged(m.content[i := existing], m.changed)
  }

  /** `mergeSubscribeItems(content, incoming)`: the loop over `incoming` as a left fold. */
  function MergeAll(content: seq<Show>, incoming: seq<RawItem>): Merged
    decreases |incoming|
  {
    if incoming == [] then Merged(content, false)
    else MergeStep(MergeAll(content, incoming[..|incoming| - 1]), Upgrade(incoming[|incoming| - 1]))
  }

  function KeySet(u: Option<Show>): set<string> {
    if u.Some? then {KeyOf(u.value)} else {}
  }

  /** The keys of the incoming records that survive the upgrade. */
  function IncomingKeys(incoming: seq<RawItem>): set<string>
    decreases |incoming|
  {
    if incoming == [] then {}
    else IncomingKeys(incoming[..|incoming| - 1]) + KeySet(Upgrade(incoming[|incoming| - 1]))
  }

  /**
   * One merge step never removes an entry and never changes the key at an existing position; it
   * appends only a record whose key was absent, and appending sets `changed`.
   */
  lemma MergeStepKeys(m: Merged, u: Option<Show>)
    ensures var r := MergeStep(m, u);
      && |m.content| <= |r.content| <= |m.content| + 1
      && (forall j :: 0 <= j < |m.content| ==> KeyOf(r.content[j]) == KeyOf(m.content[j]))
      && (|r.content| > |m.content| ==>
            && r.changed && u.Some? && KeyOf(u.value) !in Keys(m.content)
            && KeyOf(r.content[|m.content|]) == KeyOf(u.value))
      && (u.Some? && |r.content| == |m.content| ==> KeyOf(u.value) in Keys(r.content))
      && (m.changed ==> r.changed)
  {
    hide MakeShowKey;
    hide Upgrade;
    hide NormalizeTitleKey;
    hide NormalizeSeason;
    hide Trim;
    hide Canonical;
    match u
    case None =>
    case Some(it) =>
      FindKeyAbsent(m.content, KeyOf(it));
      match FindKey(m.content, KeyOf(it))
      case None =>
      case Some(i) =>
        KeyOfReupgrade(m.content[i]);
        assert KeyOf(MergeStep(m, u).content[i]) == KeyOf(it);
  }

  /** After one step the keys are the old ones plus the incoming record's, each still once. */
  lemma MergeStepKeySet(m: Merged, u: Option<Show>)
    ensures var r := MergeStep(m, u);
      && Keys(r.content) == Keys(m.content) + KeySet(u)
      && (UniqueKeys(m.content) ==> UniqueKeys(r.content))
  {
    hide MakeShowKey;
    hide Upgrade;
    hide NormalizeTitleKey;
    hide NormalizeSeason;
    hide Trim;
    hide Canonical;
    var r := MergeStep(m, u);
    MergeStepKeys(m, u);
    forall k | k in Keys(r.content) ensures k in Keys(m.content) + KeySet(u) {
      var j :| 0 <= j < |r.content| && KeyOf(r.content[j]) == k;
      if j < |m.content| {
        assert KeyOf(m.content[j]) == k;
      }
    }
    forall k | k in Keys(m.content) ensures k in Keys(r.content) {
      var j :| 0 <= j < |m.content| && KeyOf(m.content[j]) == k;
      assert KeyOf(r.content[j]) == k;
    }
    if |r.content| > |m.content| {
      assert KeyOf(r.content[|m.content|]) in Keys(r.content);
    }
  }

  /**
   * A merge pass keeps every entry and its key in place, ends with exactly the old keys plus the keys of
   * the incoming records, never creates a duplicate key, and reports a change whenever it appended.
   */
  lemma {:induction false} MergeAllKeys(content: seq<Show>, incoming: seq<RawItem>)
    ensures var r := MergeAll(content, incoming);
      && |content| <= |r.content|
      && (forall j :: 0 <= j < |content| ==> KeyOf(r.content[j]) == KeyOf(content[j]))
      && (|r.content| > |content| ==> r.changed)
      && Keys(r.content) == Keys(content) + IncomingKeys(incoming)
      && (UniqueKeys(content) ==> UniqueKeys(r.content))
    decreases |incoming|
  {
    hide MakeShowKey;
    hide Upgrade;
    if incoming != [] {
      var mid := MergeAll(content, incoming[..|incoming| - 1]);
      var u := Upgrade(incoming[|incoming| - 1]);
      MergeAllKeys(content, incoming[..|incoming| - 1]);
      MergeStepKeys(mid, u);
      MergeStepKeySet(mid, u);
    }
  }

  /** A merged record is well formed again: re-upgraded, or the incoming record with a sorted `done`. */
  lemma MergeStepWellFormed(m: Merged, u: Option<Show>)
    requires AllWellFormed(m.content)
    requires u.Some? ==> WellFormed(u.value)
    ensures AllWellFormed(MergeStep(m, u).content)
  {
    hide MakeShowKey;
    hide Upgrade;
    hide NormalizeTitleKey;
    hide NormalizeSeason;
    hide Trim;
    hide Canonical;
    match u
    case None =>
    case Some(it) =>
      match FindKey(m.content, KeyOf(it))
      case None =>
      case Some(i) =>
        ReupgradeWellFormed(m.content[i]);
        WellFormedWithDone(it, Canonical(Restrict(m.content[i].done, it.epFrom, it.epTo)));
  }

  lemma {:induction false} MergeAllWellFormed(content: seq<Show>, incoming: seq<RawItem>)
    requires AllWellFormed(content)
    ensures AllWellFormed(MergeAll(content, incoming).content)
    decreases |incoming|
  {
    if incoming != [] {
      MergeAllWellFormed(content, incoming[..|incoming| - 1]);
      MergeStepWellFormed(MergeAll(content, incoming[..|incoming| - 1]), Upgrade(incoming[|incoming| - 1]));
    }
  }

  /**
   * For a key already present, the range is replaced exactly when `ShouldReplace` holds; the stored
   * record then becomes the incoming one, labels included, and `done` keeps just the old episodes inside it. Either way the
   * stored range is as long as the longer of the two, and nothing else in the list changes.
   */
  lemma MergeStepExisting(m: Merged, it: Show, i: nat)
    requires AllWellFormed(m.content)
    requires FindKey(m.content, KeyOf(it)) == Some(i)
    ensures var r := MergeStep(m, Some(it));
      var ex := m.content[i];
      && |r.content| == |m.content|
      && (forall j :: 0 <= j < |m.content| && j != i ==> r.content[j] == m.content[j])
      && r.changed == (m.changed || ShouldReplace(ex, it))
      && (ShouldReplace(ex, it) ==>
            && r.content[i] == it.(done := r.content[i].done)
            && (forall n :: n in r.content[i].done <==> n in ex.done && it.epFrom <= n <= it.epTo))
      && (!ShouldReplace(ex, it) ==> r.content[i] == ex)
      && RangeLen(r.content[i]) == (if RangeLen(ex) < RangeLen(it) then RangeLen(it) else RangeLen(ex))
      && StrictlyIncreasing(r.content[i].done)
  {
    UpgradeWellFormedIsIdentity(m.content[i]);
  }

  /** A record whose key was absent is appended as it is, and the pass reports a change. */
  lemma MergeStepAbsent(m: Merged, it: Show)
    requires KeyOf(it) !in Keys(m.content)
    ensures MergeStep(m, Some(it)) == Merged(m.content + [it], true)
  {
    FindKeyAbsent(m.content, KeyOf(it));
  }

  /** Merging the same record a second time reports no change and leaves the list as it was. */
  lemma MergeStepTwice(content: seq<Show>, it: Show)
    requires AllWellFormed(content) && WellFormed(it)
    ensures var once := MergeStep(Merged(content, false), Some(it));
      MergeStep(Merged(once.content, false), Some(it)) == Merged(once.content, false)
  {
    hide MakeShowKey;
    hide Upgrade;
    hide NormalizeTitleKey;
    hide NormalizeSeason;
    hide Trim;
    hide Canonical;
    var once := MergeStep(Merged(content, false), Some(it));
    MergeStepWellFormed(Merged(content, false), Some(it));
    MergeStepKeys(Merged(content, false), Some(it));
    FindKeyAbsent(content, KeyOf(it));
    FindKeyAbsent(once.content, KeyOf(it));
    var i := FindKey(once.content, KeyOf(it)).value;
    var e := once.content[i];
    UpgradeWellFormedIsIdentity(e);
    match FindKey(content, KeyOf(it))
    case None =>
      assert once.content == content + [it];
      assert i == |content|;
    case Some(i0) =>
      FindKeySameKeys(content, once.content, KeyOf(it));
      MergeStepExisting(Merged(content, false), it, i0);
    assert !ShouldReplace(e, it);
    assert once.content[i := e] == once.content;
  }

  /** Merging the same raw record a second time reports no change (`mergeSubscribeItems` twice). */
  lemma MergeSameRecordTwice(content: seq<Show>, raw: RawItem)
    requires AllWellFormed(content)
    ensures var once := MergeAll(content, [raw]);
      MergeAll(once.content, [raw]) == Merged(once.content, false)
  {
    assert [raw][..0] == [];
    assert MergeAll(content, []) == Merged(content, false);
    var once := MergeAll(content, [raw]);
    assert once == MergeStep(Merged(content, false), Upgrade(raw));
    assert MergeAll(once.content, []) == Merged(once.content, false);
    assert MergeAll(once.content, [raw]) == MergeStep(Merged(once.content, false), Upgrade(raw));
    if Upgrade(raw).Some? {
      MergeStepTwice(content, Upgrade(raw).value);
    }
  }

  // ---------------------------------------------------------------------------------------------
  // applyLibraryItemsToContent

  /** The episodes `lo..hi` not yet in `done`, in increasing order: what the inner loop pushes. */
  function Missing(done: seq<int>, lo: int, hi: int): (r: seq<int>)
    ensures forall n :: n in r <==> lo <= n <= hi && n !in done
    ensures forall k :: 0 <= k < |r| ==> lo <= r[k] <= hi
    ensures r == [] <==> forall n :: lo <= n <= hi ==> n in done
    decreases hi - lo
  {
    if hi < lo then []
    else
      var init := Missing(done, lo, hi - 1);
      init + (if hi in done then [] else [hi])
  }

  /** The overlap of the library record's range with the stored one. */
  function OverlapLo(lib: Show, item: Show): int {
    if lib.epFrom < item.epFrom then item.epFrom else lib.epFrom
  }

  function OverlapHi(lib: Show, item: Show): int {
    if lib.epTo < item.epTo then lib.epTo else item.epTo
  }

  /** One iteration of the `applyLibraryItemsToContent` loop, given the upgraded library record. */
  function ApplyStep(m: Merged, u: Option<Show>): Merged {
    match u
    case None => m
    case Some(lib) =>
      match FindKey(m.content, KeyOf(lib))
      case None => m
      case Some(i) =>
        var item := Reupgrade(m.content[i]);
        var lo := OverlapLo(lib, item);
        var hi := OverlapHi(lib, item);
        if hi < lo then m
        else
          var added := Missing(item.done, lo, hi);
          var pushed := item.done + added;
          var changed := m.changed || added != [];
          var done := if changed then Canonical(pushed) else pushed;
          Merged(m.content[i := item.(done := done)], changed)
  }

  /** `applyLibraryItemsToContent(content, libItems)`: the loop over `libItems` as a left fold. */
  function ApplyAll(content: seq<Show>, libItems: seq<RawItem>): Merged
    decreases |libItems|
  {
    if libItems == [] then Merged(content, false)
    else ApplyStep(ApplyAll(content, libItems[..|libItems| - 1]), Upgrade(libItems[|libItems| - 1]))
  }

  /** `b` is `a` with possibly more episodes done: same show, same range, `done` only grown. */
  predicate Grows(a: Show, b: Show) {
    && b.(done := a.done) == a
    && (forall n :: n in a.done ==> n in b.done)
  }

  predicate AllGrow(c: seq<Show>, d: seq<Show>) {
    |c| == |d| && forall j :: 0 <= j < |c| ==> Grows(c[j], d[j])
  }

  lemma AllGrowSameKeys(c: seq<Show>, d: seq<Show>)
    requires AllGrow(c, d)
    ensures forall j :: 0 <= j < |c| ==> KeyOf(c[j]) == KeyOf(d[j])
  {
    hide MakeShowKey;
    forall j | 0 <= j < |c| ensures KeyOf(c[j]) == KeyOf(d[j]) {
      assert d[j].(done := c[j].done) == c[j];
    }
  }

  /**
   * Applying one library record never adds, removes or re-ranges a show (only `done` grows), keeps
   * every record well formed, and a record whose key is unknown leaves the pass as it was.
   */
  lemma ApplyStepShape(m: Merged, u: Option<Show>)
    requires AllWellFormed(m.content)
    ensures var r := ApplyStep(m, u);
      && AllWellFormed(r.content)
      && AllGrow(m.content, r.content)
      && (m.changed ==> r.changed)
      && (u.None? || KeyOf(u.value) !in Keys(m.content) ==> r == m)
  {
    hide MakeShowKey;
    hide Upgrade;
    hide NormalizeTitleKey;
    hide NormalizeSeason;
    hide Trim;
    hide Canonical;
    match u
    case None =>
    case Some(lib) =>
      FindKeyAbsent(m.content, KeyOf(lib));
      match FindKey(m.content, KeyOf(lib))
      case None =>
      case Some(i) =>
        var item := m.content[i];
        ReupgradeWellFormed(item);
        var lo := OverlapLo(lib, item);
        var hi := OverlapHi(lib, item);
        if lo <= hi {
          var r := ApplyStep(m, u);
          var pushed := item.done + Missing(item.done, lo, hi);
          assert forall n :: n in item.done ==> n in pushed;
          if r.changed {
            WellFormedWithDone(item, Canonical(pushed));
          } else {
            assert pushed == item.done;
          }
        }
  }

  /**
   * On the show with the library record's key, `done` becomes exactly the old episodes plus the overlap
   * `[max(lib.epFrom, epFrom), min(lib.epTo, epTo)]` (nothing when the overlap is empty), and the pass
   * reports a change exactly when one of those episodes was not done yet; no other show changes.
   */
  lemma ApplyStepMarks(m: Merged, lib: Show, i: nat)
    requires AllWellFormed(m.content)
    requires FindKey(m.content, KeyOf(lib)) == Some(i)
    ensures var r := ApplyStep(m, Some(lib));
      var lo := OverlapLo(lib, m.content[i]);
      var hi := OverlapHi(lib, m.content[i]);
      && |r.content| == |m.content|
      && (forall j :: 0 <= j < |m.content| && j != i ==> r.content[j] == m.content[j])
      && (forall n :: n in r.content[i].done <==> n in m.content[i].done || lo <= n <= hi)
      && (r.changed <==> m.changed || exists n :: lo <= n <= hi && n !in m.content[i].done)
  {
    hide MakeShowKey;
    hide Upgrade;
    var item := m.content[i];
    ReupgradeWellFormed(item);
  }

  lemma {:induction false} ApplyAllShape(content: seq<Show>, libItems: seq<RawItem>)
    requires AllWellFormed(content)
    ensures AllWellFormed(ApplyAll(content, libItems).content)
    ensures AllGrow(content, ApplyAll(content, libItems).content)
    decreases |libItems|
  {
    if libItems != [] {
      var init := libItems[..|libItems| - 1];
      ApplyAllShape(content, init);
      ApplyStepShape(ApplyAll(content, init), Upgrade(libItems[|libItems| - 1]));
    }
  }

  /**
   * A library pass keeps the list's length and every show's identity and range, and a pass whose records
   * all have unknown keys changes nothing and reports no change.
   */
  lemma {:induction false} ApplyAllUnknownKeys(content: seq<Show>, libItems: seq<RawItem>)
    requires AllWellFormed(content)
    requires forall k :: 0 <= k < |libItems| ==>
      Upgrade(libItems[k]).None? || KeyOf(Upgrade(libItems[k]).value) !in Keys(content)
    ensures ApplyAll(content, libItems) == Merged(content, false)
    decreases |libItems|
  {
    if libItems != [] {
      var init := libItems[..|libItems| - 1];
      assert forall k :: 0 <= k < |init| ==> init[k] == libItems[k];
      ApplyAllUnknownKeys(content, init);
      ApplyStepShape(Merged(content, false), Upgrade(libItems[|libItems| - 1]));
    }
  }

  /** The library record's overlap with its show is already done (or the record matches no show). */
  predicate Covered(c: seq<Show>, u: Option<Show>) {
    match u
    case None => true
    case Some(lib) =>
      match FindKey(c, KeyOf(lib))
      case None => true
      case Some(i) =>
        forall n :: OverlapLo(lib, c[i]) <= n <= OverlapHi(lib, c[i]) ==> n in c[i].done
  }

  lemma CoveredGrows(c: seq<Show>, d: seq<Show>, u: Option<Show>)
    requires AllGrow(c, d) && Covered(c, u)
    ensures Covered(d, u)
  {
    hide MakeShowKey;
    if u.Some? {
      AllGrowSameKeys(c, d);
      FindKeySameKeys(c, d, KeyOf(u.value));
      if FindKey(c, KeyOf(u.value)).Some? {
        var i := FindKey(c, KeyOf(u.value)).value;
        assert d[i].(done := c[i].done) == c[i];
      }
    }
  }

  lemma ApplyStepCovers(m: Merged, u: Option<Show>)
    requires AllWellFormed(m.content)
    ensures Covered(ApplyStep(m, u).content, u)
  {
    hide MakeShowKey;
    hide Upgrade;
    hide NormalizeTitleKey;
    hide NormalizeSeason;
    hide Trim;
    hide Canonical;
    var r := ApplyStep(m, u);
    ApplyStepShape(m, u);
    if u.Some? {
      var lib := u.value;
      AllGrowSameKeys(m.content, r.content);
      FindKeySameKeys(m.content, r.content, KeyOf(lib));
      if FindKey(m.content, KeyOf(lib)).Some? {
        var i := FindKey(m.content, KeyOf(lib)).value;
        ApplyStepMarks(m, lib, i);
        assert r.content[i].(done := m.content[i].done) == m.content[i];
      }
    }
  }

  lemma {:induction false} ApplyAllCovers(content: seq<Show>, libItems: seq<RawItem>)
    requires AllWellFormed(content)
    ensures forall k :: 0 <= k < |libItems| ==>
      Covered(ApplyAll(content, libItems).content, Upgrade(libItems[k]))
    decreases |libItems|
  {
    hide MakeShowKey, Upgrade, Covered, ApplyStep, FindKey, KeyOf, AllGrow;
    if libItems != [] {
      var init := libItems[..|libItems| - 1];
      var last := libItems[|libItems| - 1];
      var mid := ApplyAll(content, init);
      ApplyAllCovers(content, init);
      ApplyAllShape(content, init);
      ApplyStepShape(mid, Upgrade(last));
      ApplyStepCovers(mid, Upgrade(last));
      var r := ApplyStep(mid, Upgrade(last));
      forall k | 0 <= k < |libItems| ensures Covered(r.content, Upgrade(libItems[k])) {
        if k < |init| {
          assert init[k] == libItems[k];
          CoveredGrows(mid.content, r.content, Upgrade(libItems[k]));
        }
      }
    }
  }

  /** A pass over records that are all covered changes nothing and reports no change. */
  lemma {:induction false} ApplyAllCoveredIsNoop(content: seq<Show>, libItems: seq<RawItem>)
    requires AllWellFormed(content)
    requires forall k :: 0 <= k < |libItems| ==> Covered(content, Upgrade(libItems[k]))
    ensures ApplyAll(content, libItems) == Merged(content, false)
    decreases |libItems|
  {
    hide MakeShowKey;
    hide Upgrade;
    if libItems != [] {
      var init := libItems[..|libItems| - 1];
      var u := Upgrade(libItems[|libItems| - 1]);
      assert forall k :: 0 <= k < |init| ==> init[k] == libItems[k];
      ApplyAllCoveredIsNoop(content, init);
      assert Covered(content, u);
      if u.Some? && FindKey(content, KeyOf(u.value)).Some? {
        var i := FindKey(content, KeyOf(u.value)).value;
        var r := ApplyStep(Merged(content, false), u);
        ApplyStepShape(Merged(content, false), u);
        ApplyStepMarks(Merged(content, false), u.value, i);
        assert r.content[i].(done := content[i].done) == content[i];
        IncreasingUnique(r.content[i].done, content[i].done);
        assert r.content == content;
      }
    }
  }

  /** Applying the same library items a second time returns false and changes nothing. */
  lemma ApplyTwiceReportsNoChange(content: seq<Show>, libItems: seq<RawItem>)
    requires AllWellFormed(content)
    ensures var once := ApplyAll(content, libItems);
      ApplyAll(once.content, libItems) == Merged(once.content, false)
  {
    ApplyAllShape(content, libItems);
    ApplyAllCovers(content, libItems);
    ApplyAllCoveredIsNoop(ApplyAll(content, libItems).content, libItems);
  }
}
