/**
 * One `handleAggregate` step of the board's Durable Object: load the stored state, apply a subscribe
 * reminder or a library event (buffering, day rotation, merging, draining the day's pending bucket),
 * skip Telegram when nothing changed, otherwise rebuild the captions, upsert the dashboard and store.
 *
 * The transition is specified by pure functions over `Fields`; the methods change a `BoardState` in
 * place as the source does and are proved to follow those functions.
 */
module Aggregate {
  import opened Wrappers
  import opened Text
  import opened Records
  import opened Merge
  import opened Buffer
  import opened Sort
  import opened Render
  import opened Telegram
  import opened Board
  import opened Upsert

  /** `event`: "library", or anything else, which counts as a subscribe reminder. */
  datatype Event = Subscribe | Library

  /** The payload: `items` is `None` when it is not an array; a missing `dateKey` is "". */
  datatype Input = Input(dateKey: string, event: Event, items: Option<seq<RawItem>>, image: string)

  /** How the event step ends: go on to Telegram, or return early after storing. */
  datatype Exit = Proceed | BufferedExit | NoMatchExit

  datatype Stepped = Stepped(fields: Fields, changed: bool, exit: Exit)

  /** What `handleAggregate` returns; the `skipped` replies carry the reason the source gives. */
  datatype Reply =
    | BufferedReply(reason: string, dateKey: string, pendingCount: nat)
    | NoMatchReply(dateKey: string, messageId: Option<int>)
    | NoUpdateReply(messageId: Option<int>)
    | UpdatedReply(action: Action, messageId: Option<int>, shownDate: Option<string>)

  const NotReadyReason := "Buffered: dashboard not ready yet"
  const CrossDayReason := "Buffered: cross-day library event"
  const NoMatchReason := "Library: no matching episodes in today's list"
  const NoUpdateReason := "No update needed"
  const MissingEnvVars := "Missing Env Vars: BOT_TOKEN / CHAT_ID"
  const InvalidPayload := "Invalid payload to Durable Object"

  /** The caption budgets of the full, aggressive and minimal captions. */
  const CaptionSafeBudget := 900
  const CaptionAggressiveBudget := 700
  const CaptionMinBudget := 420

  // ---------------------------------------------------------------------------------------------
  // the transition

  /** `readyForToday`: the dashboard shows this day, has a list and a message. */
  predicate Ready(f: Fields, dateKey: string) {
    f.dateKey == Some(dateKey) && f.content != [] && HasMessage(f.messageId)
  }

  /** The stored state as `handleAggregate` starts from it: a fresh state, or the stored one upgraded and sorted. */
  function Loaded(stored: Option<Snapshot>): Fields {
    match stored
    case None => Fields(None, Unknown, None, [], [], [], map[])
    case Some(s) =>
      Fields(s.messageId, s.messageKind, s.dateKey, SortShows(UpgradeAll(s.content)), s.photoUrl, s.dayImage, s.pendingLibrary)
  }

  /** A library event: buffered until the day's dashboard is ready, then applied to the list. */
  function LibraryStep(f: Fields, dateKey: string, items: seq<RawItem>): Stepped {
    if !Ready(f, dateKey) then Stepped(f.(pendingLibrary := Buffered(f.pendingLibrary, dateKey, items)), false, BufferedExit)
    else
      var m := ApplyAll(f.content, items);
      Stepped(f.(content := m.content), m.changed, if m.changed then Proceed else NoMatchExit)
  }

  /** A subscribe reminder for another day starts that day: empty list, no image, only that day's bucket. */
  function NewDay(f: Fields, dateKey: string): Fields {
    f.(dateKey := Some(dateKey), content := [], dayImage := [],
       pendingLibrary := if dateKey in f.pendingLibrary then map[dateKey := f.pendingLibrary[dateKey]] else map[])
  }

  /** The day's pending bucket (`[]` when there is none). */
  function Pending(f: Fields, dateKey: string): seq<Show> {
    if dateKey in f.pendingLibrary then f.pendingLibrary[dateKey] else []
  }

  /**
   * A subscribe reminder: rotate the day if needed, merge the reminder, sort, take the first image of the
   * day, then apply and delete the day's pending bucket when it is not empty.
   */
  function SubscribeStep(f: Fields, dateKey: string, items: seq<RawItem>, image: string, sanitize: string -> string)
    : (r: Stepped)
    ensures r.exit == Proceed
  {
    var rotated := f.dateKey != Some(dateKey);
    var f1 := if rotated then NewDay(f, dateKey) else f;
    var m := MergeAll(f1.content, items);
    var safe := sanitize(image);
    var setImage := f1.dayImage == [] && safe != [];
    var f2 := f1.(content := SortShows(m.content), dayImage := if setImage then safe else f1.dayImage);
    var changed := rotated || m.changed || setImage;
    var pending := Pending(f2, dateKey);
    if pending == [] then Stepped(f2, changed, Proceed)
    else
      var a := ApplyAll(f2.content, ToRawAll(pending));
      Stepped(f2.(content := a.content, pendingLibrary := f2.pendingLibrary - {dateKey}), changed || a.changed, Proceed)
  }

  /** The event step; whenever it goes on to Telegram, the dashboard shows the event's day. */
  function Transition(f: Fields, event: Event, dateKey: string, items: seq<RawItem>, image: string,
                      sanitize: string -> string): (r: Stepped)
    ensures r.exit == Proceed ==> r.fields.dateKey == Some(dateKey)
  {
    match event
    case Library => LibraryStep(f, dateKey, items)
    case Subscribe => SubscribeStep(f, dateKey, items, image, sanitize)
  }

  // ---------------------------------------------------------------------------------------------
  // properties of the transition

  /** The list invariant: well-formed records with distinct keys. */
  predicate ListInvariant(c: seq<Show>) {
    AllWellFormed(c) && UniqueKeys(c)
  }

  /** Only `done` grows, so the order of the list is kept. */
  lemma SortedGrows(c: seq<Show>, d: seq<Show>)
    requires Sorted(c) && AllGrow(c, d)
    ensures Sorted(d)
  {
    forall i, j | 0 <= i < j < |d| ensures CompareShows(d[i], d[j]) <= 0 {
      assert d[i].(done := c[i].done) == c[i] && d[j].(done := c[j].done) == c[j];
    }
  }

  /** Growing `done` keeps the list invariant. */
  lemma InvariantGrows(c: seq<Show>, d: seq<Show>)
    requires UniqueKeys(c) && AllGrow(c, d)
    ensures UniqueKeys(d) && Keys(d) == Keys(c)
  {
    AllGrowSameKeys(c, d);
    forall k | k in Keys(d) ensures k in Keys(c) {
      var j :| 0 <= j < |d| && KeyOf(d[j]) == k;
      assert KeyOf(c[j]) == k;
    }
    forall k | k in Keys(c) ensures k in Keys(d) {
      var j :| 0 <= j < |c| && KeyOf(c[j]) == k;
      assert KeyOf(d[j]) == k;
    }
  }

  /**
   * A library event is applied only when the dashboard is ready for its day. Otherwise it is buffered and
   * only the buffer changes, with nothing reported changed. When applied, only the list changes: same
   * shows and ranges, `done` grown; the step stops with "no matching episodes" exactly when nothing new
   * was marked.
   */
  lemma LibraryReadiness(f: Fields, dateKey: string, items: seq<RawItem>)
    requires ListInvariant(f.content)
    ensures var r := LibraryStep(f, dateKey, items);
      && (r.exit == BufferedExit <==> !Ready(f, dateKey))
      && (!Ready(f, dateKey) ==>
            && r.fields.(pendingLibrary := f.pendingLibrary) == f && !r.changed
            && r.fields.pendingLibrary == Buffered(f.pendingLibrary, dateKey, items))
      && (Ready(f, dateKey) ==>
            && r.fields.(content := f.content) == f
            && AllGrow(f.content, r.fields.content) && ListInvariant(r.fields.content)
            && (r.exit == NoMatchExit <==> !r.changed))
  {
    hide Buffered, ApplyAll;
    if Ready(f, dateKey) {
      ApplyAllShape(f.content, items);
      InvariantGrows(f.content, ApplyAll(f.content, items).content);
    }
  }

  /**
   * A subscribe reminder for a new day resets the day: the date becomes the event's, the list holds
   * exactly the reminder's shows (plus nothing the pending bucket could add, since it only marks episodes),
   * the image is the reminder's sanitised image, and at most that day's bucket survives, emptied.
   * The step always reports a change.
   */
  lemma NewDayReset(f: Fields, dateKey: string, items: seq<RawItem>, image: string, sanitize: string -> string)
    requires f.dateKey != Some(dateKey)
    ensures var r := SubscribeStep(f, dateKey, items, image, sanitize);
      && r.changed && r.exit == Proceed
      && r.fields.dateKey == Some(dateKey)
      && Keys(r.fields.content) == IncomingKeys(items)
      && ListInvariant(r.fields.content) && Sorted(r.fields.content)
      && r.fields.dayImage == sanitize(image)
      && r.fields.pendingLibrary.Keys <= {dateKey}
      && (dateKey in r.fields.pendingLibrary ==> r.fields.pendingLibrary[dateKey] == [])
  {
    hide MergeAll, ApplyAll, SortShows, ToRawAll, ListInvariant, Sorted, IncomingKeys;
    SubscribeInvariant(f, dateKey, items, image, sanitize);
    SubscribeDrains(f, dateKey, items, image, sanitize);
    assert Keys([]) == {};
  }

  /**
   * A subscribe reminder drains the day's bucket once: afterwards the bucket is absent or empty, so a
   * later step has nothing to apply from it; the other buckets are kept on the same day and dropped on
   * a new one.
   */
  lemma SubscribeDrains(f: Fields, dateKey: string, items: seq<RawItem>, image: string, sanitize: string -> string)
    ensures var r := SubscribeStep(f, dateKey, items, image, sanitize);
      && Pending(r.fields, dateKey) == []
      && (forall k :: k in r.fields.pendingLibrary && k != dateKey ==>
            f.dateKey == Some(dateKey) && k in f.pendingLibrary && r.fields.pendingLibrary[k] == f.pendingLibrary[k])
      && (f.dateKey == Some(dateKey) ==>
            forall k :: k in f.pendingLibrary && k != dateKey ==> k in r.fields.pendingLibrary)
  {
    hide MergeAll, ApplyAll, SortShows, ToRawAll;
  }

  /**
   * A subscribe reminder keeps the list invariant and leaves the list sorted; its keys are the day's
   * keys (none on a new day) plus the reminder's.
   */
  lemma SubscribeInvariant(f: Fields, dateKey: string, items: seq<RawItem>, image: string, sanitize: string -> string)
    requires ListInvariant(f.content) || f.dateKey != Some(dateKey)
    ensures var r := SubscribeStep(f, dateKey, items, image, sanitize);
      var start := if f.dateKey != Some(dateKey) then [] else f.content;
      && ListInvariant(r.fields.content) && Sorted(r.fields.content)
      && Keys(r.fields.content) == Keys(start) + IncomingKeys(items)
  {
    hide ApplyAll, ToRawAll, NewDay;
    var rotated := f.dateKey != Some(dateKey);
    var f1 := if rotated then NewDay(f, dateKey) else f;
    assert f1.content == (if rotated then [] else f.content) by {
      NewDayEmpties(f, dateKey);
    }
    var m := MergeAll(f1.content, items);
    MergeAllKeys(f1.content, items);
    MergeAllWellFormed(f1.content, items);
    var sorted := SortShows(m.content);
    SortShowsSorted(m.content);
    PermutationKeeps(m.content, sorted);
    var r := SubscribeStep(f, dateKey, items, image, sanitize);
    var f2 := f1.(content := sorted, dayImage := if f1.dayImage == [] && sanitize(image) != [] then sanitize(image) else f1.dayImage);
    if Pending(f2, dateKey) != [] {
      ApplyAllShape(sorted, ToRawAll(Pending(f2, dateKey)));
      InvariantGrows(sorted, r.fields.content);
      SortedGrows(sorted, r.fields.content);
    }
  }

  lemma NewDayEmpties(f: Fields, dateKey: string)
    ensures NewDay(f, dateKey).content == []
  {
  }

  /** No event step changes the message fields; those belong to the upsert. */
  lemma TransitionKeepsMessage(f: Fields, event: Event, dateKey: string, items: seq<RawItem>, image: string,
                               sanitize: string -> string)
    ensures var r := Transition(f, event, dateKey, items, image, sanitize);
      r.fields.messageId == f.messageId && r.fields.messageKind == f.messageKind && r.fields.photoUrl == f.photoUrl
  {
    hide MergeAll, ApplyAll, SortShows, ToRawAll, Buffered;
  }

  // ---------------------------------------------------------------------------------------------
  // the step, in place

  /** The library branch of `handleAggregate`. */
  method LibraryEvent(state: BoardState, dateKey: string, items: seq<RawItem>) returns (changed: bool, exit: Exit)
    modifies state`content, state`pendingLibrary
    ensures var r := LibraryStep(old(state.Current()), dateKey, items);
      state.Current() == r.fields && changed == r.changed && exit == r.exit
  {
    var ready := state.dateKey == Some(dateKey) && state.content != [] && HasMessage(state.messageId);
    if !ready {
      state.BufferLibraryItems(dateKey, items);
      return false, BufferedExit;
    }
    var libChanged := state.ApplyLibraryItemsToContent(items);
    if !libChanged {
      return false, NoMatchExit;
    }
    return true, Proceed;
  }

  /** The subscribe branch of `handleAggregate`. */
  method SubscribeEvent(state: BoardState, dateKey: string, items: seq<RawItem>, image: string, sanitize: string -> string)
    returns (changed: bool)
    modifies state`dateKey, state`content, state`dayImage, state`pendingLibrary
    ensures var r := SubscribeStep(old(state.Current()), dateKey, items, image, sanitize);
      state.Current() == r.fields && changed == r.changed
  {
    hide MergeAll, ApplyAll, SortShows, ToRawAll, Pending;
    changed := false;
    if state.dateKey != Some(dateKey) {
      state.dateKey := Some(dateKey);
      state.content := [];
      state.dayImage := [];
      state.pendingLibrary := if dateKey in state.pendingLibrary then map[dateKey := state.pendingLibrary[dateKey]] else map[];
      changed := true;
      assert state.Current() == NewDay(old(state.Current()), dateKey);
    }
    var subChanged := state.MergeSubscribeItems(items);
    if subChanged {
      changed := true;
    }
    state.SortContent();
    var safeIncoming := sanitize(image);
    if state.dayImage == [] && safeIncoming != [] {
      state.dayImage := safeIncoming;
      changed := true;
    }
    var applied := DrainPending(state, dateKey);
    if applied {
      changed := true;
    }
  }

  /** The end of a subscribe event: the day's pending library events are applied once and deleted. */
  method DrainPending(state: BoardState, dateKey: string) returns (applied: bool)
    modifies state`content, state`pendingLibrary
    ensures var f := old(state.Current());
      var pending := Pending(f, dateKey);
      && (pending == [] ==> state.Current() == f && !applied)
      && (pending != [] ==>
            var a := ApplyAll(f.content, ToRawAll(pending));
            state.Current() == f.(content := a.content, pendingLibrary := f.pendingLibrary - {dateKey}) && applied == a.changed)
  {
    hide ApplyAll, ToRawAll;
    applied := false;
    var pending := if dateKey in state.pendingLibrary then state.pendingLibrary[dateKey] else [];
    if |pending| > 0 {
      applied := state.ApplyLibraryItemsToContent(ToRawAll(pending));
      state.pendingLibrary := state.pendingLibrary - {dateKey};
    }
  }

  /** The event branch of `handleAggregate`. */
  method ApplyEvent(state: BoardState, event: Event, dateKey: string, items: seq<RawItem>, image: string,
                    sanitize: string -> string)
    returns (changed: bool, exit: Exit)
    modifies state`dateKey, state`content, state`dayImage, state`pendingLibrary
    ensures var r := Transition(old(state.Current()), event, dateKey, items, image, sanitize);
      state.Current() == r.fields && changed == r.changed && exit == r.exit
  {
    if event == Library {
      changed, exit := LibraryEvent(state, dateKey, items);
    } else {
      changed := SubscribeEvent(state, dateKey, items, image, sanitize);
      exit := Proceed;
    }
  }

  /** The three captions `handleAggregate` builds, at the safe, aggressive and minimal budgets. */
  predicate CaptionsFor(dateKey: string, updatedAt: string, content: seq<Show>, caps: Captions) {
    && CaptionOutcome(dateKey, updatedAt, content, CaptionSafeBudget, caps.full)
    && CaptionOutcome(dateKey, updatedAt, content, CaptionAggressiveBudget, caps.aggressive)
    && CaptionOutcome(dateKey, updatedAt, content, CaptionMinBudget, caps.minimal)
  }

  /** Build the captions from the list and upsert the dashboard with them. */
  method Publish(t: Transport, state: BoardState, cfg: Config, dateKey: string, updatedAt: string, pinned: Option<Pinned>,
                 sanitize: string -> string)
    returns (r: Result<Action, string>, caps: Captions)
    modifies t, state`messageId, state`messageKind, state`photoUrl
    ensures CaptionsFor(dateKey, updatedAt, state.content, caps)
    ensures var u := UpsertOutcome(t.replies, |old(t.sent)|, old(state.messageId), old(state.messageKind), old(state.photoUrl),
                            state.dayImage, cfg, pinned, caps, sanitize);
      && t.sent == old(t.sent) + u.sent && r == u.result
      && state.messageId == u.messageId && state.messageKind == u.messageKind && state.photoUrl == u.photoUrl
  {
    var full := BuildCaptionHtml(dateKey, updatedAt, state.content, CaptionSafeBudget);
    var aggressive := BuildCaptionHtml(dateKey, updatedAt, state.content, CaptionAggressiveBudget);
    var minimal := BuildCaptionHtml(dateKey, updatedAt, state.content, CaptionMinBudget);
    caps := Captions(full, aggressive, minimal);
    r := UpsertPhotoDashboard(t, state, cfg, pinned, caps, sanitize);
  }

  /** The Durable Object: its storage holds the state under "state". */
  class SubscribeBoard {
    var stored: Option<Snapshot>

    constructor ()
      ensures stored == None
    {
      stored := None;
    }

    /**
     * `handleAggregate(input)`: check the environment and the payload, load the state, apply the event,
     * then either return early (buffered, no matching episodes, or nothing to update) or publish the
     * dashboard and store the state. A thrown error stores nothing.
     */
    method HandleAggregate(botToken: string, chatId: string, env: Switches, input: Input, t: Transport,
                           updatedAt: string, pinned: Option<Pinned>, sanitize: string -> string)
      returns (r: Result<Reply, string>, caps: Captions)
      modifies this, t
      ensures botToken == [] || chatId == [] ==> r == Err(MissingEnvVars) && stored == old(stored) && t.sent == old(t.sent)
      ensures botToken != [] && chatId != [] && (input.dateKey == [] || input.items.None?) ==>
        r == Err(InvalidPayload) && stored == old(stored) && t.sent == old(t.sent)
      ensures botToken != [] && chatId != [] && input.dateKey != [] && input.items.Some? ==>
        var dk := input.dateKey;
        var st := Transition(Loaded(old(stored)), input.event, dk, input.items.value, input.image, sanitize);
        var f := st.fields;
        && (st.exit == BufferedExit ==>
              && stored == Some(Store(f)) && t.sent == old(t.sent)
              && r == Ok(BufferedReply(if f.dateKey == Some(dk) then NotReadyReason else CrossDayReason, dk, |Pending(f, dk)|)))
        && (st.exit == NoMatchExit ==>
              stored == Some(Store(f)) && t.sent == old(t.sent) && r == Ok(NoMatchReply(dk, f.messageId)))
        && (st.exit == Proceed && !st.changed && HasMessage(f.messageId) ==>
              stored == old(stored) && t.sent == old(t.sent) && r == Ok(NoUpdateReply(f.messageId)))
        && (st.exit == Proceed && (st.changed || !HasMessage(f.messageId)) ==>
              && CaptionsFor(dk, updatedAt, f.content, caps)
              && var u := UpsertOutcome(t.replies, |old(t.sent)|, f.messageId, f.messageKind, f.photoUrl, f.dayImage, ConfigOf(env), pinned, caps, sanitize);
                 && t.sent == old(t.sent) + u.sent
                 && (u.result.Err? ==> r == Err(u.result.error) && stored == old(stored))
                 && (u.result.Ok? ==>
                       && r == Ok(UpdatedReply(u.result.value, u.messageId, Some(dk)))
                       && stored == Some(Store(f.(messageId := u.messageId, messageKind := u.messageKind, photoUrl := u.photoUrl)))))
    {
      hide Transition, UpsertOutcome, CaptionsFor, SortShows, UpgradeAll, Store, Pending;
      if botToken == [] || chatId == [] {
        return Err(MissingEnvVars), Captions([], [], []);
      }
      if input.dateKey == [] || input.items.None? {
        return Err(InvalidPayload), Captions([], [], []);
      }
      var dateKey := input.dateKey;
      var items := input.items.value;
      var state: BoardState;
      if stored.None? {
        state := new BoardState.Fresh();
      } else {
        state := new BoardState.Load(stored.value);
      }
      state.SortContent();
      assert state.Current() == Loaded(old(stored));
      var changed, exit := ApplyEvent(state, input.event, dateKey, items, input.image, sanitize);
      if exit == BufferedExit {
        stored := Some(Store(state.Current()));
        var reason := if state.dateKey == Some(dateKey) then NotReadyReason else CrossDayReason;
        var pendingCount := |Pending(state.Current(), dateKey)|;
        return Ok(BufferedReply(reason, dateKey, pendingCount)), Captions([], [], []);
      }
      if exit == NoMatchExit {
        stored := Some(Store(state.Current()));
        return Ok(NoMatchReply(dateKey, state.messageId)), Captions([], [], []);
      }
      r, caps := Conclude(t, state, changed, dateKey, ConfigOf(env), updatedAt, pinned, sanitize);
    }

    /**
     * The end of `handleAggregate`: nothing changed and a message exists, so Telegram is skipped and nothing
     * stored; otherwise the dashboard is published and, unless the upsert threw, the state stored.
     */
    method Conclude(t: Transport, state: BoardState, changed: bool, dateKey: string, cfg: Config, updatedAt: string,
                    pinned: Option<Pinned>, sanitize: string -> string)
      returns (r: Result<Reply, string>, caps: Captions)
      requires state.dateKey == Some(dateKey)
      modifies this, t, state`messageId, state`messageKind, state`photoUrl
      ensures var f := old(state.Current());
        && (!changed && HasMessage(f.messageId) ==>
              stored == old(stored) && t.sent == old(t.sent) && r == Ok(NoUpdateReply(f.messageId)))
        && (changed || !HasMessage(f.messageId) ==>
              && CaptionsFor(dateKey, updatedAt, f.content, caps)
              && var u := UpsertOutcome(t.replies, |old(t.sent)|, f.messageId, f.messageKind, f.photoUrl, f.dayImage, cfg, pinned, caps, sanitize);
                 && t.sent == old(t.sent) + u.sent
                 && (u.result.Err? ==> r == Err(u.result.error) && stored == old(stored))
                 && (u.result.Ok? ==>
                       && r == Ok(UpdatedReply(u.result.value, u.messageId, Some(dateKey)))
                       && stored == Some(Store(f.(messageId := u.messageId, messageKind := u.messageKind, photoUrl := u.photoUrl)))))
    {
      hide UpsertOutcome, CaptionsFor, Store;
      if !changed && HasMessage(state.messageId) {
        return Ok(NoUpdateReply(state.messageId)), Captions([], [], []);
      }
      var action;
      action, caps := Publish(t, state, cfg, dateKey, updatedAt, pinned, sanitize);
      if action.Err? {
        return Err(action.error), caps;
      }
      stored := Some(Store(state.Current()));
      r := Ok(UpdatedReply(action.value, state.messageId, state.dateKey));
    }
  }
}
