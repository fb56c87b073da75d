/**
 * The cross-day buffer of library events (`bufferLibraryItems`): one bucket per date, deduplicated by
 * the signature `title|year|SEASON|epFrom-epTo` and capped at the newest 200 entries.
 */
module Buffer {
  import opened Wrappers
  import opened Text
  import opened Records

  /** The most entries a bucket keeps. */
  const BucketCap: nat := 200

  /** `${makeShowKey(title, year, season)}|${epFrom}-${epTo}` */
  function Signature(s: Show): string {
    KeyOf(s) + "|" + IntToString(s.epFrom) + "-" + IntToString(s.epTo)
  }

  /** The signature of a buffered entry, computed after upgrading it again; none when the upgrade drops it. */
  function EntrySignature(v: Show): Option<string> {
    match Upgrade(ToRaw(v))
    case None => None
    case Some(u) => Some(Signature(u))
  }

  /** `arr.some(v => ...)`: some entry of the bucket carries the signature. */
  predicate HasSignature(arr: seq<Show>, sig: string) {
    exists j :: 0 <= j < |arr| && EntrySignature(arr[j]) == Some(sig)
  }

  /** The bucket after the loop over the library items: an upgraded item is pushed unless its signature is present. */
  function AddAll(arr: seq<Show>, items: seq<RawItem>): (r: seq<Show>)
    ensures arr <= r && |r| <= |arr| + |items|
    decreases |items|
  {
    if items == [] then arr
    else
      var prev := AddAll(arr, items[..|items| - 1]);
      match Upgrade(items[|items| - 1])
      case None => prev
      case Some(it) => if HasSignature(prev, Signature(it)) then prev else prev + [it]
  }

  /** `arr.slice(arr.length - 200)` when the bucket is over the cap. */
  function Cap(arr: seq<Show>): (r: seq<Show>)
    ensures |r| <= BucketCap && |r| <= |arr| && r == arr[|arr| - |r|..]
    ensures |arr| <= BucketCap ==> r == arr
    ensures |arr| > BucketCap ==> |r| == BucketCap
  {
    if |arr| > BucketCap then arr[|arr| - BucketCap..] else arr
  }

  /** `bufferLibraryItems(state, dateKey, libItems)` on the map of buckets. */
  function Buffered(pending: map<string, seq<Show>>, dateKey: string, items: seq<RawItem>): map<string, seq<Show>> {
    var dk := Trim(dateKey);
    if dk == [] then pending
    else pending[dk := Cap(AddAll(if dk in pending then pending[dk] else [], items))]
  }

  // ---------------------------------------------------------------------------------------------
  // lemmas

  /**
   * An empty trimmed date key leaves the buckets alone; otherwise its bucket, or a new empty one, is replaced
   * by the capped result of the loop.
   */
  lemma BufferedOf(pending: map<string, seq<Show>>, dateKey: string, items: seq<RawItem>)
    ensures Trim(dateKey) == [] ==> Buffered(pending, dateKey, items) == pending
    ensures Trim(dateKey) != [] ==>
      var bucket := if Trim(dateKey) in pending then pending[Trim(dateKey)] else [];
      Buffered(pending, dateKey, items) == pending[Trim(dateKey) := Cap(AddAll(bucket, items))]
  {
    hide AddAll, Cap, Trim, Upgrade;
  }

  /** One pass of the loop over the next library item. */
  lemma AddAllNext(arr: seq<Show>, items: seq<RawItem>, i: nat)
    requires i < |items|
    ensures AddAll(arr, items[..i + 1]) ==
      match Upgrade(items[i])
      case None => AddAll(arr, items[..i])
      case Some(it) => if HasSignature(AddAll(arr, items[..i]), Signature(it)) then AddAll(arr, items[..i]) else AddAll(arr, items[..i]) + [it]
  {
    assert items[..i + 1][..i] == items[..i];
  }

  /** A pushed record is well formed, so its signature is its own. */
  lemma PushedSignature(it: Show)
    requires WellFormed(it)
    ensures EntrySignature(it) == Some(Signature(it))
  {
    UpgradeWellFormedIsIdentity(it);
  }

  /**
   * The loop keeps the bucket as a prefix and appends only upgraded items whose signature no earlier
   * entry carries.
   */
  lemma {:induction false} AddAllOnlyNew(arr: seq<Show>, items: seq<RawItem>)
    ensures var r := AddAll(arr, items);
      && arr <= r
      && forall j :: |arr| <= j < |r| ==>
           WellFormed(r[j]) && EntrySignature(r[j]) == Some(Signature(r[j])) && !HasSignature(r[..j], Signature(r[j]))
    decreases |items|
  {
    hide Upgrade, Signature, EntrySignature, WellFormed, ToRaw;
    if items != [] {
      var prev := AddAll(arr, items[..|items| - 1]);
      AddAllOnlyNew(arr, items[..|items| - 1]);
      var u := Upgrade(items[|items| - 1]);
      if u.Some? && !HasSignature(prev, Signature(u.value)) {
        var r := prev + [u.value];
        PushedSignature(u.value);
        assert r[..|prev|] == prev;
        forall j | |arr| <= j < |prev|
          ensures !HasSignature(r[..j], Signature(r[j]))
        {
          assert r[..j] == prev[..j];
        }
      }
    }
  }

  /**
   * `ks` names, in increasing order, the items whose upgrades are the entries `r` adds after `arr`:
   * the t-th added entry is the upgrade of item `ks[t]`.
   */
  predicate PushedFrom(ks: seq<nat>, arr: seq<Show>, items: seq<RawItem>, r: seq<Show>) {
    && |arr| <= |r| && |ks| == |r| - |arr|
    && (forall t :: 0 <= t < |ks| ==> ks[t] < |items| && Upgrade(items[ks[t]]) == Some(r[|arr| + t]))
    && (forall s, t :: 0 <= s < t < |ks| ==> ks[s] < ks[t])
  }

  /** Nothing is added when there is nothing to add. */
  lemma PushedNone(arr: seq<Show>, items: seq<RawItem>)
    ensures PushedFrom([], arr, items, arr)
  {
  }

  /** Indices into the items before the last stay valid once the last item is considered and skipped. */
  lemma PushedWiden(ks: seq<nat>, arr: seq<Show>, items: seq<RawItem>, r: seq<Show>)
    requires items != [] && PushedFrom(ks, arr, items[..|items| - 1], r)
    ensures PushedFrom(ks, arr, items, r)
  {
    hide Upgrade;
  }

  /** Pushing the upgrade of the last item extends the indices by that item's. */
  lemma PushedExtend(ks: seq<nat>, arr: seq<Show>, items: seq<RawItem>, r: seq<Show>, it: Show)
    requires items != [] && PushedFrom(ks, arr, items[..|items| - 1], r)
    requires Upgrade(items[|items| - 1]) == Some(it)
    ensures PushedFrom(ks + [|items| - 1], arr, items, r + [it])
  {
    hide Upgrade;
  }

  /** The entries the loop pushes are the upgrades of some of the items, in the items' order (`arr.push(it)`). */
  lemma {:induction false} AddAllPushesUpgrades(arr: seq<Show>, items: seq<RawItem>)
    ensures exists ks: seq<nat> :: PushedFrom(ks, arr, items, AddAll(arr, items))
    decreases |items|
  {
    hide Upgrade, HasSignature, Signature, EntrySignature, WellFormed, ToRaw, PushedFrom;
    if items == [] {
      PushedNone(arr, items);
      assert PushedFrom([], arr, items, AddAll(arr, items));
    } else {
      var init := items[..|items| - 1];
      var prev := AddAll(arr, init);
      AddAllPushesUpgrades(arr, init);
      var ks: seq<nat> :| PushedFrom(ks, arr, init, prev);
      var u := Upgrade(items[|items| - 1]);
      if u.Some? && !HasSignature(prev, Signature(u.value)) {
        assert AddAll(arr, items) == prev + [u.value];
        PushedExtend(ks, arr, items, prev, u.value);
        assert PushedFrom(ks + [|items| - 1], arr, items, AddAll(arr, items));
      } else {
        assert AddAll(arr, items) == prev;
        PushedWiden(ks, arr, items, prev);
        assert PushedFrom(ks, arr, items, AddAll(arr, items));
      }
    }
  }

  /** One more pass of the loop keeps every signature the bucket already carried. */
  lemma AddAllKeepsSignature(arr: seq<Show>, items: seq<RawItem>, sig: string)
    requires items != [] && HasSignature(AddAll(arr, items[..|items| - 1]), sig)
    ensures HasSignature(AddAll(arr, items), sig)
  {
    hide Upgrade, Signature, EntrySignature;
    var prev := AddAll(arr, items[..|items| - 1]);
    var r := AddAll(arr, items);
    assert prev <= r;
    var j :| 0 <= j < |prev| && EntrySignature(prev[j]) == Some(sig);
    assert r[j] == prev[j];
  }

  /** After the pass over an item that survives the upgrade, the bucket carries its signature. */
  lemma AddAllCoversLast(arr: seq<Show>, items: seq<RawItem>)
    requires items != [] && Upgrade(items[|items| - 1]).Some?
    ensures HasSignature(AddAll(arr, items), Signature(Upgrade(items[|items| - 1]).value))
  {
    hide Upgrade, Signature, EntrySignature, WellFormed, ToRaw;
    var prev := AddAll(arr, items[..|items| - 1]);
    var it := Upgrade(items[|items| - 1]).value;
    if !HasSignature(prev, Signature(it)) {
      var r := AddAll(arr, items);
      assert r == prev + [it];
      PushedSignature(it);
      assert r[|prev|] == it;
    }
  }

  /** Every item that survives the upgrade is represented in the bucket afterwards, by itself or by an earlier entry. */
  lemma {:induction false} AddAllCovers(arr: seq<Show>, items: seq<RawItem>)
    ensures forall k :: 0 <= k < |items| && Upgrade(items[k]).Some? ==>
      HasSignature(AddAll(arr, items), Signature(Upgrade(items[k]).value))
    decreases |items|
  {
    hide Upgrade, Signature, EntrySignature, WellFormed, ToRaw, AddAll, HasSignature;
    if items != [] {
      var init := items[..|items| - 1];
      AddAllCovers(arr, init);
      forall k | 0 <= k < |items| && Upgrade(items[k]).Some?
        ensures HasSignature(AddAll(arr, items), Signature(Upgrade(items[k]).value))
      {
        if k < |init| {
          assert items[k] == init[k];
          AddAllKeepsSignature(arr, items, Signature(Upgrade(items[k]).value));
        } else {
          AddAllCoversLast(arr, items);
        }
      }
    }
  }

  /** No two entries of a bucket carry the same signature. */
  predicate DistinctSignatures(arr: seq<Show>) {
    forall i, j :: 0 <= i < j < |arr| && EntrySignature(arr[i]).Some? ==> EntrySignature(arr[i]) != EntrySignature(arr[j])
  }

  /** The loop never introduces a duplicate signature into a bucket that had none. */
  lemma AddAllDistinct(arr: seq<Show>, items: seq<RawItem>)
    requires DistinctSignatures(arr)
    ensures DistinctSignatures(AddAll(arr, items))
  {
    hide Upgrade, Signature, EntrySignature, WellFormed, ToRaw;
    var added := AddAll(arr, items);
    AddAllOnlyNew(arr, items);
    forall i, j | 0 <= i < j < |added| && EntrySignature(added[i]).Some?
      ensures EntrySignature(added[i]) != EntrySignature(added[j])
    {
      if j >= |arr| {
        assert added[..j][i] == added[i];
      } else {
        assert added[i] == arr[i] && added[j] == arr[j];
      }
    }
  }

  /** Keeping the newest entries keeps the signatures distinct. */
  lemma CapDistinct(arr: seq<Show>)
    requires DistinctSignatures(arr)
    ensures DistinctSignatures(Cap(arr))
  {
    hide EntrySignature, Cap;
    var capped := Cap(arr);
    forall i, j | 0 <= i < j < |capped| && EntrySignature(capped[i]).Some?
      ensures EntrySignature(capped[i]) != EntrySignature(capped[j])
    {
      var off := |arr| - |capped|;
      assert capped[i] == arr[off + i] && capped[j] == arr[off + j];
    }
  }

  /** Buffering never introduces a duplicate signature into any bucket. */
  lemma BufferedDistinct(pending: map<string, seq<Show>>, dateKey: string, items: seq<RawItem>)
    requires forall dk :: dk in pending ==> DistinctSignatures(pending[dk])
    ensures var r := Buffered(pending, dateKey, items);
      forall dk :: dk in r ==> DistinctSignatures(r[dk])
  {
    hide AddAll, Cap, Trim;
    var dk := Trim(dateKey);
    if dk != [] {
      var arr := if dk in pending then pending[dk] else [];
      AddAllDistinct(arr, items);
      CapDistinct(AddAll(arr, items));
    }
  }

  /**
   * An empty date key leaves the buffer alone. Otherwise only that date's bucket changes, it is created
   * when absent, and it ends as the newest entries (at most 200, in their order) of the old bucket
   * followed by the newly pushed items.
   */
  lemma BufferedShape(pending: map<string, seq<Show>>, dateKey: string, items: seq<RawItem>)
    ensures var r := Buffered(pending, dateKey, items);
      var dk := Trim(dateKey);
      && (dk == [] ==> r == pending)
      && (dk != [] ==>
            && r.Keys == pending.Keys + {dk}
            && (forall other :: other in pending && other != dk ==> r[other] == pending[other])
            && var full := AddAll(if dk in pending then pending[dk] else [], items);
               |r[dk]| == (if |full| <= BucketCap then |full| else BucketCap) && r[dk] == full[|full| - |r[dk]|..])
  {
    hide AddAll, Trim;
  }
}
