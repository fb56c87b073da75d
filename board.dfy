/**
 * The dashboard's persistent state (`state` in the Durable Object's storage) and the operations that
 * change it in place: merging a subscribe reminder, marking library episodes done, buffering library
 * events for a later day, and sorting the list.
 */
module Board {
  import opened Wrappers
  import opened Text
  import opened Records
  import opened Merge
  import opened Buffer
  import opened Sort

  /** `messageKind`: "photo", "text" or "unknown". */
  datatype Kind = Unknown | TextKind | PhotoKind

  /** The state as storage holds it; the list is kept in the raw shape it may have been written in. */
  datatype Snapshot = Snapshot(
    messageId: Option<int>, messageKind: Kind, dateKey: Option<string>,
    content: seq<RawItem>, photoUrl: string, dayImage: string,
    pendingLibrary: map<string, seq<Show>>)

  /** The state as `handleAggregate` works on it, with the list upgraded. */
  datatype Fields = Fields(
    messageId: Option<int>, messageKind: Kind, dateKey: Option<string>,
    content: seq<Show>, photoUrl: string, dayImage: string,
    pendingLibrary: map<string, seq<Show>>)

  /** JavaScript truthiness of `state.messageId`: present and not 0. */
  predicate HasMessage(id: Option<int>) {
    id.Some? && id.value != 0
  }

  /** `content.map(upgradeContentItem).filter(Boolean)` */
  function UpgradeAll(raw: seq<RawItem>): (c: seq<Show>)
    ensures AllWellFormed(c) && |c| <= |raw|
    decreases |raw|
  {
    if raw == [] then []
    else
      var init := UpgradeAll(raw[..|raw| - 1]);
      match Upgrade(raw[|raw| - 1])
      case None => init
      case Some(s) => init + [s]
  }

  /** The list as it is written back to storage. */
  function ToRawAll(c: seq<Show>): (raw: seq<RawItem>)
    ensures |raw| == |c|
  {
    seq(|c|, i requires 0 <= i < |c| => ToRaw(c[i]))
  }

  /** Writing a list of well-formed records and reading it back gives the same list. */
  lemma {:induction false} UpgradeAllRoundTrip(c: seq<Show>)
    requires AllWellFormed(c)
    ensures UpgradeAll(ToRawAll(c)) == c
    decreases |c|
  {
    if c != [] {
      var init := c[..|c| - 1];
      assert ToRawAll(c)[..|c| - 1] == ToRawAll(init);
      UpgradeAllRoundTrip(init);
      UpgradeWellFormedIsIdentity(c[|c| - 1]);
    }
  }

  /** What `storage.put("state", state)` writes for these fields. */
  function Store(f: Fields): Snapshot {
    Snapshot(f.messageId, f.messageKind, f.dateKey, ToRawAll(f.content), f.photoUrl, f.dayImage, f.pendingLibrary)
  }

  class BoardState {
    var messageId: Option<int>
    var messageKind: Kind
    var dateKey: Option<string>
    var content: seq<Show>
    var photoUrl: string
    var dayImage: string
    var pendingLibrary: map<string, seq<Show>>

    /** The state of a board that has never stored anything. */
    constructor Fresh()
      ensures messageId == None && messageKind == Unknown && dateKey == None && content == []
      ensures photoUrl == [] && dayImage == [] && pendingLibrary == map[]
    {
      messageId := None;
      messageKind := Unknown;
      dateKey := None;
      content := [];
      photoUrl := [];
      dayImage := [];
      pendingLibrary := map[];
    }

    /** A stored state, with its list upgraded to the current record shape. */
    constructor Load(s: Snapshot)
      ensures messageId == s.messageId && messageKind == s.messageKind && dateKey == s.dateKey
      ensures content == UpgradeAll(s.content)
      ensures photoUrl == s.photoUrl && dayImage == s.dayImage && pendingLibrary == s.pendingLibrary
    {
      messageId := s.messageId;
      messageKind := s.messageKind;
      dateKey := s.dateKey;
      content := UpgradeAll(s.content);
      photoUrl := s.photoUrl;
      dayImage := s.dayImage;
      pendingLibrary := s.pendingLibrary;
    }

    /** The fields as a value. */
    function Current(): Fields
      reads this
    {
      Fields(messageId, messageKind, dateKey, content, photoUrl, dayImage, pendingLibrary)
    }

    // -------------------------------------------------------------------------------------------
    // mergeSubscribeItems

    /**
     * One pass of the `mergeSubscribeItems` loop for an upgraded record: append it when its key is
     * new, otherwise widen the stored range or keep the stored record (re-upgraded).
     */
    method MergeOne(it: Show, changedBefore: bool) returns (changed: bool)
      modifies this`content
      ensures Merged(content, changed) == MergeStep(Merged(old(content), changedBefore), Some(it))
    {
      changed := changedBefore;
      var idx := FindKey(content, KeyOf(it));
      if idx.None? {
        content := content + [it];
        changed := true;
      } else {
        var existing := Reupgrade(content[idx.value]);
        if ShouldReplace(existing, it) {
          var preserved := Canonical(Restrict(existing.done, it.epFrom, it.epTo));
          content := content[idx.value := it.(done := preserved)];
          changed := true;
        } else {
          content := content[idx.value := existing];
        }
      }
    }

    /** `mergeSubscribeItems(state.content, incoming)`: merges in place and reports whether anything changed. */
    method MergeSubscribeItems(incoming: seq<RawItem>) returns (changed: bool)
      modifies this`content
      ensures Merged(content, changed) == MergeAll(old(content), incoming)
    {
      hide Upgrade, KeyOf, Canonical;
      changed := false;
      var i := 0;
      while i < |incoming|
        invariant 0 <= i <= |incoming|
        invariant Merged(content, changed) == MergeAll(old(content), incoming[..i])
      {
        assert incoming[..i + 1][..i] == incoming[..i];
        var u := Upgrade(incoming[i]);
        if u.Some? {
          changed := MergeOne(u.value, changed);
        }
        i := i + 1;
      }
      assert incoming[..|incoming|] == incoming;
    }

    // -------------------------------------------------------------------------------------------
    // applyLibraryItemsToContent

    /**
     * One pass of the `applyLibraryItemsToContent` loop for an upgraded library record: push every
     * episode of the overlap not yet done, and sort and dedup `done` once anything has changed.
     */
    method ApplyOne(lib: Show, changedBefore: bool) returns (changed: bool)
      modifies this`content
      ensures Merged(content, changed) == ApplyStep(Merged(old(content), changedBefore), Some(lib))
    {
      hide Upgrade, Reupgrade, KeyOf, Canonical;
      changed := changedBefore;
      var idx := FindKey(content, KeyOf(lib));
      if idx.None? {
        return;
      }
      var item := Reupgrade(content[idx.value]);
      var lo := OverlapLo(lib, item);
      var hi := OverlapHi(lib, item);
      if hi < lo {
        return;
      }
      var done;
      done, changed := PushOverlap(item.done, lo, hi, changed);
      if changed {
        done := Canonical(done);
      }
      content := content[idx.value := item.(done := done)];
    }

    /** The inner loop: `for (ep = from; ep <= to; ep++) if (!item.done.includes(ep)) { push; changed = true }` */
    static method PushOverlap(done0: seq<int>, lo: int, hi: int, changedBefore: bool) returns (done: seq<int>, changed: bool)
      requires lo <= hi
      ensures done == done0 + Missing(done0, lo, hi)
      ensures changed == (changedBefore || Missing(done0, lo, hi) != [])
    {
      hide Missing;
      done, changed := done0, changedBefore;
      var ep := lo;
      while ep <= hi
        invariant lo <= ep <= hi + 1
        invariant done == done0 + Missing(done0, lo, ep - 1)
        invariant changed == (changedBefore || Missing(done0, lo, ep - 1) != [])
      {
        MissingNext(done0, lo, ep);
        if ep !in done {
          done := done + [ep];
          changed := true;
        }
        ep := ep + 1;
      }
    }

    static lemma MissingNext(done0: seq<int>, lo: int, ep: int)
      requires lo <= ep
      ensures Missing(done0, lo, ep) == Missing(done0, lo, ep - 1) + (if ep in done0 then [] else [ep])
      ensures ep !in Missing(done0, lo, ep - 1)
    {
    }

    /** `applyLibraryItemsToContent(state.content, libItems)`: marks episodes in place and reports whether any was new. */
    method ApplyLibraryItemsToContent(libItems: seq<RawItem>) returns (changed: bool)
      modifies this`content
      ensures Merged(content, changed) == ApplyAll(old(content), libItems)
    {
      changed := false;
      var i := 0;
      while i < |libItems|
        invariant 0 <= i <= |libItems|
        invariant Merged(content, changed) == ApplyAll(old(content), libItems[..i])
      {
        assert libItems[..i + 1][..i] == libItems[..i];
        var u := Upgrade(libItems[i]);
        if u.Some? {
          changed := ApplyOne(u.value, changed);
        }
        i := i + 1;
      }
      assert libItems[..|libItems|] == libItems;
    }

    // -------------------------------------------------------------------------------------------
    // bufferLibraryItems

    /** `bufferLibraryItems(state, dateKey, libItems)` */
    method BufferLibraryItems(dateKey: string, items: seq<RawItem>)
      modifies this`pendingLibrary
      ensures pendingLibrary == Buffered(old(pendingLibrary), dateKey, items)
    {
      hide AddAll, Upgrade, Signature, HasSignature, Cap, EntrySignature, WellFormed, KeyOf, ToRaw, Canonical, Buffered, Trim;
      BufferedOf(pendingLibrary, dateKey, items);
      var dk := Trim(dateKey);
      if dk == [] {
        return;
      }
      if dk !in pendingLibrary {
        pendingLibrary := pendingLibrary[dk := []];
      }
      ghost var bucket := pendingLibrary[dk];
      ghost var start := pendingLibrary;
      assert bucket == if dk in old(pendingLibrary) then old(pendingLibrary)[dk] else [];
      var arr := pendingLibrary[dk];
      var i := 0;
      while i < |items|
        invariant 0 <= i <= |items|
        invariant arr == AddAll(bucket, items[..i])
        invariant pendingLibrary == start
      {
        AddAllNext(bucket, items, i);
        var u := Upgrade(items[i]);
        if u.Some? && !HasSignature(arr, Signature(u.value)) {
          arr := arr + [u.value];
        }
        i := i + 1;
      }
      assert items[..|items|] == items;
      assert start[dk := Cap(arr)] == old(pendingLibrary)[dk := Cap(arr)];
      pendingLibrary := pendingLibrary[dk := Cap(arr)];
    }

    // -------------------------------------------------------------------------------------------
    // safeSortContent

    /** `safeSortContent(state.content)` */
    method SortContent()
      modifies this`content
      ensures content == SortShows(old(content))
    {
      content := SortShows(content);
    }
  }
}
