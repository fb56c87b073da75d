/**
 * Keeping ONE dashboard message (`upsertPhotoDashboard`): adopt the pinned dashboard when none is known,
 * otherwise create it, upgrade a text dashboard to a photo once, or edit it in place, retrying an edit
 * with the shorter captions when Telegram refuses it.
 */
module Upsert {
  import opened Wrappers
  import opened Text
  import opened Html
  import opened Render
  import opened Telegram
  import opened Board

  /** The switches read from the environment. */
  datatype Config = Config(
    preferPhoto: bool, allowTextToPhotoUpgrade: bool, strict: bool, adoptPinned: bool, autoPin: bool)

  /**
   * The environment strings behind the switches (`STRICT_SINGLE_MESSAGE`, `ADOPT_PINNED`, `AUTO_PIN`,
   * `PREFER_PHOTO_MESSAGE`, `ALLOW_TEXT_TO_PHOTO_UPGRADE`), each absent when unset.
   */
  datatype Switches = Switches(
    strictSingleMessage: Option<string>, adoptPinned: Option<string>, autoPin: Option<string>,
    preferPhotoMessage: Option<string>, allowTextToPhotoUpgrade: Option<string>)

  /** `(v ?? "1") !== "0"`: a switch that is on by default. */
  predicate OnUnlessZero(v: Option<string>) {
    v.GetOr("1") != "0"
  }

  /** `(v ?? "0") === "1"`: a switch that is off by default. */
  predicate OnlyIfOne(v: Option<string>) {
    v.GetOr("0") == "1"
  }

  /** The switches as `handleAggregate` reads them from the environment. */
  function ConfigOf(env: Switches): (cfg: Config)
    ensures cfg.strict <==> env.strictSingleMessage != Some("0")
    ensures cfg.adoptPinned <==> env.adoptPinned != Some("0")
    ensures cfg.preferPhoto <==> env.preferPhotoMessage != Some("0")
    ensures cfg.allowTextToPhotoUpgrade <==> env.allowTextToPhotoUpgrade != Some("0")
    ensures cfg.autoPin <==> env.autoPin == Some("1")
  {
    Config(OnUnlessZero(env.preferPhotoMessage), OnUnlessZero(env.allowTextToPhotoUpgrade),
           OnUnlessZero(env.strictSingleMessage), OnUnlessZero(env.adoptPinned), OnlyIfOne(env.autoPin))
  }

  /** With nothing set: strict, adopting, photo-preferring and upgrading, without auto-pin. */
  lemma ConfigDefaults(env: Switches)
    requires env == Switches(None, None, None, None, None)
    ensures ConfigOf(env) == Config(true, true, true, true, false)
  {
  }

  /** The caption built for each budget: full, aggressive, minimal. */
  datatype Captions = Captions(full: string, aggressive: string, minimal: string)

  function AttemptList(caps: Captions): seq<string> {
    [caps.full, caps.aggressive, caps.minimal]
  }

  /** What `upsertPhotoDashboard` reports it did. */
  datatype Action =
    | SendMessageAction(sentId: int, noPhotoYet: bool)
    | SendPhotoAction(sentId: int)
    | UpgradeTextToPhoto(oldMessageId: int, newMessageId: int, pinned: bool)
    | EditMessageMediaAction(messageId: int, attempt: nat)
    | EditMessageCaptionAction(messageId: int, attempt: nat)
    | EditMessageTextAction(messageId: int, attempt: nat)

  const StrictRefusal := "PREFER_PHOTO_MESSAGE=1 but dashboard is text and ALLOW_TEXT_TO_PHOTO_UPGRADE=0 (strict)."

  /** `Math.min(TG_TEXT_LIMIT, 3500)`: the most characters a text dashboard is given. */
  const TgTextLimit := 4096
  const TextEditLimit := if TgTextLimit < 3500 then TgTextLimit else 3500

  // ---------------------------------------------------------------------------------------------
  // decisions

  /**
   * `tryAdopt`, applied when no message is known: the pinned message becomes the dashboard when its
   * text (or else its caption) is not blank and looks like a dashboard; a caption makes it a photo.
   */
  function Adopted(id: Option<int>, kind: Kind, cfg: Config, pinned: Option<Pinned>): (r: (Option<int>, Kind))
    ensures HasMessage(id) || !cfg.adoptPinned || pinned.None? ==> r == (id, kind)
    ensures !HasMessage(id) && cfg.adoptPinned && pinned.Some? ==>
      var p := pinned.value;
      && (p.text.Some? && Trim(p.text.value) != [] ==>
            r == if LooksLikeDashboard(p.text.value) then (Some(p.messageId), TextKind) else (id, kind))
      && ((p.text.None? || Trim(p.text.value) == []) && p.caption.Some? && Trim(p.caption.value) != [] ==>
            r == if LooksLikeDashboard(p.caption.value) then (Some(p.messageId), PhotoKind) else (id, kind))
      && ((p.text.None? || Trim(p.text.value) == []) && (p.caption.None? || Trim(p.caption.value) == []) ==>
            r == (id, kind))
  {
    if HasMessage(id) || !cfg.adoptPinned || pinned.None? then (id, kind)
    else
      match ExtractPinned(pinned.value)
      case None => (id, kind)
      case Some(found) =>
        if LooksLikeDashboard(found.1) then (Some(pinned.value.messageId), if found.0 == FromCaption then PhotoKind else TextKind)
        else (id, kind)
  }

  /** `pickPhotoForSend`: today's image if it sanitises to a URL, else the current photo's, else none. */
  function PickPhotoForSend(dayImage: string, photoUrl: string, sanitize: string -> string): (photo: string)
    ensures photo == [] || photo == sanitize(dayImage) || photo == sanitize(photoUrl)
    ensures sanitize(dayImage) != [] ==> photo == sanitize(dayImage)
    ensures photo == [] <==> sanitize(dayImage) == [] && sanitize(photoUrl) == []
  {
    var today := sanitize(dayImage);
    if today != [] then today
    else
      var current := sanitize(photoUrl);
      if current != [] then current else []
  }

  /** Which branch of `upsertPhotoDashboard` runs, after adoption. */
  datatype Route =
    | CreateText(noPhotoYet: bool)
    | CreatePhoto(photo: string)
    | Refuse
    | KeepText
    | UpgradeToPhoto(photo: string)
    | EditPhoto

  function RouteOf(cfg: Config, hasMessage: bool, kind: Kind, photo: string): (route: Route)
    ensures route.CreateText? || route.CreatePhoto? <==> !hasMessage
    ensures route.Refuse? <==>
      hasMessage && cfg.preferPhoto && kind == TextKind && !cfg.allowTextToPhotoUpgrade && cfg.strict
    ensures (route.CreatePhoto? || route.UpgradeToPhoto?) ==> cfg.preferPhoto && route.photo == photo && photo != []
    ensures route.EditPhoto? ==> kind == PhotoKind
  {
    if !hasMessage then
      if cfg.preferPhoto then (if photo == [] then CreateText(true) else CreatePhoto(photo))
      else CreateText(false)
    else if cfg.preferPhoto && kind == TextKind then
      if !cfg.allowTextToPhotoUpgrade then (if cfg.strict then Refuse else KeepText)
      else if photo == [] then KeepText
      else UpgradeToPhoto(photo)
    else if kind == PhotoKind then EditPhoto
    else KeepText
  }

  // ---------------------------------------------------------------------------------------------
  // editPhotoDashboard

  /** The media choice of `editPhotoDashboard`: a new sanitised image of the day differs from the current photo. */
  predicate ShouldUpdateMedia(photo: string, photoUrl: string, dayImage: string, sanitize: string -> string) {
    photo != [] && photo != photoUrl && sanitize(dayImage) != []
  }

  function PhotoEdit(id: int, media: bool, photo: string, caption: string): Request {
    if media then EditMessageMedia(id, photo, caption) else EditMessageCaption(id, caption)
  }

  function CaptionOf(req: Request): string {
    match req
    case EditMessageMedia(_, _, c) => c
    case EditMessageCaption(_, c) => c
    case _ => []
  }

  lemma PhotoEditCaption(id: int, media: bool, photo: string, caption: string)
    ensures CaptionOf(PhotoEdit(id, media, photo, caption)) == caption
  {
  }

  /** After attempt `i` failed with `msg`: the next caption loses its tags when `msg` is an entity-parsing error. */
  function Retry(attempts: seq<string>, i: nat, msg: string): (next: seq<string>)
    requires i + 1 < |attempts|
    ensures |next| == |attempts|
  {
    if IsParseEntityError(msg) then attempts[i + 1 := StripAllTags(attempts[i + 1])] else attempts
  }

  /**
   * The attempts of `editPhotoDashboard` from attempt `i` on, given the API's replies from call `base`:
   * the requests sent and either the 1-based attempt that succeeded or the last error.
   */
  function PhotoRun(replies: seq<Outcome>, base: nat, id: int, media: bool, photo: string, attempts: seq<string>, i: nat)
    : (seq<Request>, Result<nat, string>)
    requires |attempts| == 3 && i < 3
    decreases 3 - i
  {
    var req := PhotoEdit(id, media, photo, attempts[i]);
    match Classify(ReplyAt(replies, base + i), MethodName(req), true)
    case Returned(_) => ([req], Ok(i + 1))
    case Threw(msg) =>
      if i == 2 then ([req], Err(msg))
      else
        var rest := PhotoRun(replies, base, id, media, photo, Retry(attempts, i, msg), i + 1);
        ([req] + rest.0, rest.1)
  }

  /** One attempt of the photo edit. */
  lemma PhotoRunStep(replies: seq<Outcome>, base: nat, id: int, media: bool, photo: string, attempts: seq<string>, i: nat)
    requires |attempts| == 3 && i < 3
    ensures var req := PhotoEdit(id, media, photo, attempts[i]);
      var c := Classify(ReplyAt(replies, base + i), MethodName(req), true);
      PhotoRun(replies, base, id, media, photo, attempts, i) ==
        if c.Returned? then ([req], Ok(i + 1))
        else if i == 2 then ([req], Err(c.message))
        else
          var rest := PhotoRun(replies, base, id, media, photo, Retry(attempts, i, c.message), i + 1);
          ([req] + rest.0, rest.1)
  {
  }

  /** The message of the error the k-th call from `base` throws, or "" when it does not throw. */
  function ThrownAt(replies: seq<Outcome>, base: nat, k: nat, req: Request): string {
    match Classify(ReplyAt(replies, base + k), MethodName(req), true)
    case Returned(_) => []
    case Threw(msg) => msg
  }

  /**
   * The photo edit makes between one and three attempts, all on the same message with the same media
   * choice; it succeeds at the attempt whose call returned, every earlier call having thrown, and
   * fails only after the third call threw, with that call's error.
   */
  lemma {:induction false} PhotoRunOutcome(replies: seq<Outcome>, base: nat, id: int, media: bool, photo: string,
                                           attempts: seq<string>, i: nat)
    requires |attempts| == 3 && i < 3
    ensures var (reqs, res) := PhotoRun(replies, base, id, media, photo, attempts, i);
      && 1 <= |reqs| <= 3 - i
      && (forall k :: 0 <= k < |reqs| ==> reqs[k] == PhotoEdit(id, media, photo, CaptionOf(reqs[k])))
      && (forall k :: 0 <= k < |reqs| - 1 ==> Classify(ReplyAt(replies, base + i + k), MethodName(reqs[k]), true).Threw?)
      && (res.Ok? ==>
            && res.value == i + |reqs|
            && Classify(ReplyAt(replies, base + res.value - 1), MethodName(reqs[|reqs| - 1]), true).Returned?)
      && (res.Err? ==>
            && i + |reqs| == 3
            && Classify(ReplyAt(replies, base + 2), MethodName(reqs[|reqs| - 1]), true) == Threw(res.error))
    decreases 3 - i
  {
    hide PhotoRun, Retry, Classify, PhotoEdit, CaptionOf, MethodName;
    PhotoRunStep(replies, base, id, media, photo, attempts, i);
    var req := PhotoEdit(id, media, photo, attempts[i]);
    PhotoEditCaption(id, media, photo, attempts[i]);
    var c := Classify(ReplyAt(replies, base + i), MethodName(req), true);
    if c.Threw? && i < 2 {
      var next := Retry(attempts, i, c.message);
      PhotoRunOutcome(replies, base, id, media, photo, next, i + 1);
      var rest := PhotoRun(replies, base, id, media, photo, next, i + 1);
      var reqs := [req] + rest.0;
      forall k | 1 <= k < |reqs| ensures reqs[k] == rest.0[k - 1] { }
    }
  }

  /**
   * The first attempt carries its own caption; attempt k+1 carries its own caption too, stripped of
   * tags exactly when attempt k failed with an entity-parsing error.
   */
  lemma {:induction false} PhotoRunCaptions(replies: seq<Outcome>, base: nat, id: int, media: bool, photo: string,
                                            attempts: seq<string>, i: nat)
    requires |attempts| == 3 && i < 3
    ensures var reqs := PhotoRun(replies, base, id, media, photo, attempts, i).0;
      && CaptionOf(reqs[0]) == attempts[i]
      && (forall k :: 1 <= k < |reqs| && i + k < 3 ==>
            CaptionOf(reqs[k]) == if IsParseEntityError(ThrownAt(replies, base, i + k - 1, reqs[k - 1]))
                                  then StripAllTags(attempts[i + k]) else attempts[i + k])
    decreases 3 - i
  {
    hide PhotoRun, Classify, StripAllTags, IsParseEntityError;
    PhotoRunStep(replies, base, id, media, photo, attempts, i);
    var req := PhotoEdit(id, media, photo, attempts[i]);
    var c := Classify(ReplyAt(replies, base + i), MethodName(req), true);
    if c.Threw? && i < 2 {
      var next := Retry(attempts, i, c.message);
      PhotoRunCaptions(replies, base, id, media, photo, next, i + 1);
      var rest := PhotoRun(replies, base, id, media, photo, next, i + 1);
      var reqs := [req] + rest.0;
      forall k | 1 <= k < |reqs| && i + k < 3
        ensures CaptionOf(reqs[k]) == if IsParseEntityError(ThrownAt(replies, base, i + k - 1, reqs[k - 1]))
                                      then StripAllTags(attempts[i + k]) else attempts[i + k]
      {
        assert reqs[k] == rest.0[k - 1];
        if k == 1 {
          assert ThrownAt(replies, base, i, req) == c.message;
        } else {
          assert reqs[k - 1] == rest.0[k - 2];
          assert next[i + k] == attempts[i + k];
        }
      }
    }
  }

  /** The retry loop of `editPhotoDashboard`: the full, the aggressive and the minimal caption in turn. */
  method PhotoEditLoop(t: Transport, id: int, media: bool, photo: string, caps: Captions)
    returns (res: Result<nat, string>)
    modifies t
    ensures var run := PhotoRun(t.replies, |old(t.sent)|, id, media, photo, AttemptList(caps), 0);
      t.sent == old(t.sent) + run.0 && res == run.1
  {
    hide PhotoRun, Classify, StripAllTags, IsParseEntityError, PhotoEdit, MethodName;
    var attempts := AttemptList(caps);
    ghost var whole := PhotoRun(t.replies, |t.sent|, id, media, photo, attempts, 0);
    ghost var done: seq<Request> := [];
    var i := 0;
    assert done + whole.0 == whole.0;
    while i < 3
      invariant 0 <= i < 3 && |attempts| == 3
      invariant t.sent == old(t.sent) + done && |done| == i
      invariant var rest := PhotoRun(t.replies, |old(t.sent)|, id, media, photo, attempts, i);
        whole == (done + rest.0, rest.1)
      decreases 3 - i
    {
      PhotoRunStep(t.replies, |old(t.sent)|, id, media, photo, attempts, i);
      var req := PhotoEdit(id, media, photo, attempts[i]);
      var r := t.Call(req, true);
      if r.Returned? {
        res := Ok(i + 1);
        return;
      }
      if i == 2 {
        res := Err(r.message);
        return;
      }
      ghost var next := Retry(attempts, i, r.message);
      assert whole.0 == (done + [req]) + PhotoRun(t.replies, |old(t.sent)|, id, media, photo, next, i + 1).0;
      if IsParseEntityError(r.message) {
        attempts := attempts[i + 1 := StripAllTags(attempts[i + 1])];
      }
      done := done + [req];
      i := i + 1;
    }
  }

  /**
   * `editPhotoDashboard`: edit the caption, or the media with it once a new image of the day is known;
   * the photo URL is recorded only after a media edit went through.
   */
  method EditPhotoDashboard(t: Transport, state: BoardState, caps: Captions, sanitize: string -> string)
    returns (r: Result<Action, string>)
    requires HasMessage(state.messageId)
    modifies t, state`photoUrl
    ensures var desired := PickPhotoForSend(state.dayImage, old(state.photoUrl), sanitize);
      var media := ShouldUpdateMedia(desired, old(state.photoUrl), state.dayImage, sanitize);
      var id := state.messageId.value;
      var (reqs, res) := PhotoRun(t.replies, |old(t.sent)|, id, media, desired, AttemptList(caps), 0);
      && t.sent == old(t.sent) + reqs
      && (res.Err? ==> r == Err(res.error) && state.photoUrl == old(state.photoUrl))
      && (res.Ok? ==> r == Ok(if media then EditMessageMediaAction(id, res.value) else EditMessageCaptionAction(id, res.value)))
      && (res.Ok? && media ==> state.photoUrl == desired)
      && (res.Ok? && !media ==> state.photoUrl == old(state.photoUrl))
  {
    var desired := PickPhotoForSend(state.dayImage, state.photoUrl, sanitize);
    var media := ShouldUpdateMedia(desired, state.photoUrl, state.dayImage, sanitize);
    var id := state.messageId.value;
    var res := PhotoEditLoop(t, id, media, desired, caps);
    if res.Err? {
      r := Err(res.error);
      return;
    }
    if media {
      state.photoUrl := desired;
    }
    r := Ok(if media then EditMessageMediaAction(id, res.value) else EditMessageCaptionAction(id, res.value));
  }

  // ---------------------------------------------------------------------------------------------
  // editTextDashboard

  /** The text of attempt k: the caption with its tags removed, cut to the text limit. */
  function TextAttempt(caption: string): (text: string)
    ensures Utf16Length(text) <= TextEditLimit
  {
    HardTrimToCharsBound(StripAllTags(caption), TextEditLimit);
    HardTrimToChars(StripAllTags(caption), TextEditLimit)
  }

  /** The attempts of `editTextDashboard` from attempt `i` on: any error moves on to the next text. */
  function TextRun(replies: seq<Outcome>, base: nat, id: int, captions: seq<string>, i: nat)
    : (seq<Request>, Result<nat, string>)
    requires |captions| == 3 && i < 3
    decreases 3 - i
  {
    var req := EditMessageText(id, TextAttempt(captions[i]));
    match Classify(ReplyAt(replies, base + i), MethodName(req), true)
    case Returned(_) => ([req], Ok(i + 1))
    case Threw(msg) =>
      if i == 2 then ([req], Err(msg))
      else
        var rest := TextRun(replies, base, id, captions, i + 1);
        ([req] + rest.0, rest.1)
  }

  /**
   * The text edit sends the attempts in order, each one the stripped caption cut to 3500 UTF-16 units,
   * stops at the first call that returns, and fails only when the third call threw, with its error.
   */
  lemma {:induction false} TextRunShape(replies: seq<Outcome>, base: nat, id: int, captions: seq<string>, i: nat)
    requires |captions| == 3 && i < 3
    ensures var (reqs, res) := TextRun(replies, base, id, captions, i);
      && 1 <= |reqs| <= 3 - i
      && (forall k :: 0 <= k < |reqs| ==> reqs[k] == EditMessageText(id, TextAttempt(captions[i + k])))
      && (forall k :: 0 <= k < |reqs| ==> Utf16Length(reqs[k].text) <= TextEditLimit)
      && (forall k :: 0 <= k < |reqs| - 1 ==> Classify(ReplyAt(replies, base + i + k), MethodName(reqs[k]), true).Threw?)
      && (res.Ok? ==>
            && res.value == i + |reqs|
            && Classify(ReplyAt(replies, base + res.value - 1), "editMessageText", true).Returned?)
      && (res.Err? ==>
            && i + |reqs| == 3
            && Classify(ReplyAt(replies, base + 2), "editMessageText", true) == Threw(res.error))
    decreases 3 - i
  {
    hide StripAllTags, HardTrimToChars, IsParseEntityError, Contains, ErrorText, Utf16Length, TextAttempt, TextRun;
    TextRunStep(replies, base, id, captions, i);
    var req := EditMessageText(id, TextAttempt(captions[i]));
    var c := Classify(ReplyAt(replies, base + i), MethodName(req), true);
    if c.Threw? && i < 2 {
      TextRunShape(replies, base, id, captions, i + 1);
      var rest := TextRun(replies, base, id, captions, i + 1);
      var reqs := [req] + rest.0;
      assert TextRun(replies, base, id, captions, i) == (reqs, rest.1);
      forall k | 1 <= k < |reqs| ensures reqs[k] == rest.0[k - 1] { }
    }
  }

  /** One attempt of the text edit. */
  lemma TextRunStep(replies: seq<Outcome>, base: nat, id: int, captions: seq<string>, i: nat)
    requires |captions| == 3 && i < 3
    ensures var req := EditMessageText(id, TextAttempt(captions[i]));
      var c := Classify(ReplyAt(replies, base + i), MethodName(req), true);
      TextRun(replies, base, id, captions, i) ==
        if c.Returned? then ([req], Ok(i + 1))
        else if i == 2 then ([req], Err(c.message))
        else
          var rest := TextRun(replies, base, id, captions, i + 1);
          ([req] + rest.0, rest.1)
  {
  }

  /** `editTextDashboard`: edit the text with the full, the aggressive and the minimal caption in turn. */
  method EditTextDashboard(t: Transport, state: BoardState, caps: Captions) returns (r: Result<Action, string>)
    requires HasMessage(state.messageId)
    modifies t
    ensures var id := state.messageId.value;
      var (reqs, res) := TextRun(t.replies, |old(t.sent)|, id, AttemptList(caps), 0);
      && t.sent == old(t.sent) + reqs
      && r == (if res.Ok? then Ok(EditMessageTextAction(id, res.value)) else Err(res.error))
  {
    hide TextRun, Classify, TextAttempt, MethodName;
    var id := state.messageId.value;
    var attempts := AttemptList(caps);
    ghost var whole := TextRun(t.replies, |t.sent|, id, attempts, 0);
    ghost var done: seq<Request> := [];
    var i := 0;
    assert done + whole.0 == whole.0;
    while i < 3
      invariant 0 <= i < 3
      invariant t.sent == old(t.sent) + done && |done| == i
      invariant var rest := TextRun(t.replies, |old(t.sent)|, id, attempts, i);
        whole == (done + rest.0, rest.1)
      decreases 3 - i
    {
      TextRunStep(t.replies, |old(t.sent)|, id, attempts, i);
      var text := TextAttempt(attempts[i]);
      var req := EditMessageText(id, text);
      var res := t.Call(req, true);
      if res.Returned? {
        r := Ok(EditMessageTextAction(id, i + 1));
        return;
      }
      if i == 2 {
        r := Err(res.message);
        return;
      }
      assert whole.0 == (done + [req]) + TextRun(t.replies, |old(t.sent)|, id, attempts, i + 1).0;
      done := done + [req];
      i := i + 1;
    }
  }

  // ---------------------------------------------------------------------------------------------
  // upsertPhotoDashboard

  /** The dashboard fields `upsertPhotoDashboard` may change, the requests it sends and what it returns or throws. */
  datatype Upserted = Upserted(
    sent: seq<Request>, result: Result<Action, string>, messageId: Option<int>, messageKind: Kind, photoUrl: string)

  /** `bestEffortPin` of the new message and, after an upgrade, `bestEffortUnpin` of the old one, when `autoPin` is on. */
  function PinRequests(autoPin: bool, newId: int, oldId: Option<int>): seq<Request> {
    if !autoPin then []
    else [PinChatMessage(newId)] + (if oldId.Some? then [UnpinChatMessage(oldId.value)] else [])
  }

  /**
   * A new dashboard message sent with `req` (`sendMessage` or `sendPhoto`, which must not fail): the requests
   * sent, with the best-effort pins once it went through, and its message id or the error thrown.
   */
  function NewMessage(replies: seq<Outcome>, base: nat, req: Request, autoPin: bool, oldId: Option<int>)
    : (seq<Request>, Result<int, string>)
  {
    match Sent(ReplyAt(replies, base), MethodName(req))
    case Err(msg) => ([req], Err(msg))
    case Ok(newId) => ([req] + PinRequests(autoPin, newId, oldId), Ok(newId))
  }

  /**
   * `upsertPhotoDashboard` on the stored fields, the pinned message `getChat` reported and the API's replies
   * from call `base` on.
   */
  function UpsertOutcome(replies: seq<Outcome>, base: nat, messageId: Option<int>, messageKind: Kind, photoUrl: string,
                  dayImage: string, cfg: Config, pinned: Option<Pinned>, caps: Captions, sanitize: string -> string)
    : Upserted
  {
    var (id, kind) := Adopted(messageId, messageKind, cfg, pinned);
    UpsertAdopted(replies, base, id, kind, photoUrl, dayImage, cfg, caps, sanitize)
  }

  /** `upsertPhotoDashboard` once adoption has run: create, refuse, upgrade or edit. */
  function UpsertAdopted(replies: seq<Outcome>, base: nat, id: Option<int>, kind: Kind, photoUrl: string,
                         dayImage: string, cfg: Config, caps: Captions, sanitize: string -> string)
    : Upserted
  {
    var photo := PickPhotoForSend(dayImage, photoUrl, sanitize);
    match RouteOf(cfg, HasMessage(id), kind, photo)
    case CreateText(noPhotoYet) =>
      var (reqs, res) := NewMessage(replies, base, SendMessage(StripAllTags(caps.full)), cfg.autoPin, None);
      if res.Err? then Upserted(reqs, Err(res.error), id, kind, photoUrl)
      else Upserted(reqs, Ok(SendMessageAction(res.value, noPhotoYet)), Some(res.value), TextKind, photoUrl)
    case CreatePhoto(p) =>
      var (reqs, res) := NewMessage(replies, base, SendPhoto(p, caps.full), cfg.autoPin, None);
      if res.Err? then Upserted(reqs, Err(res.error), id, kind, photoUrl)
      else Upserted(reqs, Ok(SendPhotoAction(res.value)), Some(res.value), PhotoKind, p)
    case Refuse =>
      Upserted([], Err(StrictRefusal), id, kind, photoUrl)
    case KeepText =>
      var (reqs, res) := TextRun(replies, base, id.value, AttemptList(caps), 0);
      Upserted(reqs, if res.Ok? then Ok(EditMessageTextAction(id.value, res.value)) else Err(res.error), id, kind, photoUrl)
    case UpgradeToPhoto(p) =>
      var (reqs, res) := NewMessage(replies, base, SendPhoto(p, caps.full), cfg.autoPin, id);
      if res.Err? then Upserted(reqs, Err(res.error), id, kind, photoUrl)
      else Upserted(reqs, Ok(UpgradeTextToPhoto(id.value, res.value, cfg.autoPin)), Some(res.value), PhotoKind, p)
    case EditPhoto =>
      var media := ShouldUpdateMedia(photo, photoUrl, dayImage, sanitize);
      var (reqs, res) := PhotoRun(replies, base, id.value, media, photo, AttemptList(caps), 0);
      if res.Err? then Upserted(reqs, Err(res.error), id, kind, photoUrl)
      else
        Upserted(reqs, Ok(if media then EditMessageMediaAction(id.value, res.value) else EditMessageCaptionAction(id.value, res.value)),
                 id, kind, if media then photo else photoUrl)
  }

  /** `bestEffortPin` / `bestEffortUnpin`: the call is made and its outcome, even a thrown error, ignored. */
  method BestEffort(t: Transport, req: Request)
    modifies t
    ensures t.sent == old(t.sent) + [req]
  {
    var _ := t.Call(req, false);
  }

  /** Send a new dashboard message, then pin it and unpin the one it replaces when `autoPin` is on. */
  method SendNewMessage(t: Transport, req: Request, autoPin: bool, oldId: Option<int>) returns (res: Result<int, string>)
    modifies t
    ensures var (reqs, expected) := NewMessage(t.replies, |old(t.sent)|, req, autoPin, oldId);
      t.sent == old(t.sent) + reqs && res == expected
  {
    var r := t.Call(req, false);
    ghost var sent := Sent(ReplyAt(t.replies, |old(t.sent)|), MethodName(req));
    if r.Threw? {
      res := Err(r.message);
      return;
    }
    var newId := r.id.value;
    if autoPin {
      BestEffort(t, PinChatMessage(newId));
      if oldId.Some? {
        BestEffort(t, UnpinChatMessage(oldId.value));
      }
    }
    res := Ok(newId);
  }

  /** `tryAdopt` and its use: with no message known, the pinned dashboard becomes the dashboard. */
  method AdoptPinned(state: BoardState, cfg: Config, pinned: Option<Pinned>)
    modifies state`messageId, state`messageKind
    ensures (state.messageId, state.messageKind) == Adopted(old(state.messageId), old(state.messageKind), cfg, pinned)
  {
    if !HasMessage(state.messageId) && cfg.adoptPinned && pinned.Some? {
      var extracted := ExtractPinned(pinned.value);
      if extracted.Some? && LooksLikeDashboard(extracted.value.1) {
        state.messageId := Some(pinned.value.messageId);
        state.messageKind := if extracted.value.0 == FromCaption then PhotoKind else TextKind;
      }
    }
  }

  /** `upsertPhotoDashboard`: keep exactly one dashboard message, preferring a photo. */
  method UpsertPhotoDashboard(t: Transport, state: BoardState, cfg: Config, pinned: Option<Pinned>, caps: Captions,
                              sanitize: string -> string)
    returns (r: Result<Action, string>)
    modifies t, state`messageId, state`messageKind, state`photoUrl
    ensures var u := UpsertOutcome(t.replies, |old(t.sent)|, old(state.messageId), old(state.messageKind), old(state.photoUrl),
                            state.dayImage, cfg, pinned, caps, sanitize);
      && t.sent == old(t.sent) + u.sent && r == u.result
      && state.messageId == u.messageId && state.messageKind == u.messageKind && state.photoUrl == u.photoUrl
  {
    AdoptPinned(state, cfg, pinned);
    r := UpsertAdoptedDashboard(t, state, cfg, caps, sanitize);
  }

  /** The branches of `upsertPhotoDashboard` after adoption. */
  method UpsertAdoptedDashboard(t: Transport, state: BoardState, cfg: Config, caps: Captions, sanitize: string -> string)
    returns (r: Result<Action, string>)
    modifies t, state`messageId, state`messageKind, state`photoUrl
    ensures var u := UpsertAdopted(t.replies, |old(t.sent)|, old(state.messageId), old(state.messageKind), old(state.photoUrl),
                                   state.dayImage, cfg, caps, sanitize);
      && t.sent == old(t.sent) + u.sent && r == u.result
      && state.messageId == u.messageId && state.messageKind == u.messageKind && state.photoUrl == u.photoUrl
  {
    hide PhotoRun, TextRun, NewMessage, StripAllTags, PickPhotoForSend;
    var wantPhoto := cfg.preferPhoto;
    if !HasMessage(state.messageId) {
      var photo := PickPhotoForSend(state.dayImage, state.photoUrl, sanitize);
      if !wantPhoto || photo == [] {
        var res := SendNewMessage(t, SendMessage(StripAllTags(caps.full)), cfg.autoPin, None);
        if res.Err? {
          r := Err(res.error);
          return;
        }
        state.messageId := Some(res.value);
        state.messageKind := TextKind;
        r := Ok(SendMessageAction(res.value, wantPhoto));
        return;
      }
      var res := SendNewMessage(t, SendPhoto(photo, caps.full), cfg.autoPin, None);
      if res.Err? {
        r := Err(res.error);
        return;
      }
      state.messageId := Some(res.value);
      state.messageKind := PhotoKind;
      state.photoUrl := photo;
      r := Ok(SendPhotoAction(res.value));
      return;
    }
    if wantPhoto && state.messageKind == TextKind {
      if !cfg.allowTextToPhotoUpgrade {
        if cfg.strict {
          r := Err(StrictRefusal);
          return;
        }
        r := EditTextDashboard(t, state, caps);
        return;
      }
      var photo := PickPhotoForSend(state.dayImage, state.photoUrl, sanitize);
      if photo == [] {
        r := EditTextDashboard(t, state, caps);
        return;
      }
      var oldId := state.messageId.value;
      var res := SendNewMessage(t, SendPhoto(photo, caps.full), cfg.autoPin, state.messageId);
      if res.Err? {
        r := Err(res.error);
        return;
      }
      state.messageId := Some(res.value);
      state.messageKind := PhotoKind;
      state.photoUrl := photo;
      r := Ok(UpgradeTextToPhoto(oldId, res.value, cfg.autoPin));
      return;
    }
    if state.messageKind == PhotoKind {
      ghost var photo := PickPhotoForSend(state.dayImage, state.photoUrl, sanitize);
      assert RouteOf(cfg, true, state.messageKind, photo) == EditPhoto;
      ghost var u0 := UpsertAdopted(t.replies, |old(t.sent)|, old(state.messageId), old(state.messageKind),
                                    old(state.photoUrl), state.dayImage, cfg, caps, sanitize);
      ghost var media := ShouldUpdateMedia(photo, state.photoUrl, state.dayImage, sanitize);
      ghost var run := PhotoRun(t.replies, |t.sent|, state.messageId.value, media, photo, AttemptList(caps), 0);
      assert u0.sent == run.0;
      assert u0.messageId == state.messageId;
      r := EditPhotoDashboard(t, state, caps, sanitize);
      return;
    }
    r := EditTextDashboard(t, state, caps);
  }

  // ---------------------------------------------------------------------------------------------
  // what upsertPhotoDashboard guarantees

  /** A request that creates a message. */
  predicate IsSend(req: Request) {
    req.SendMessage? || req.SendPhoto?
  }

  /** A request that edits a message. */
  predicate IsEdit(req: Request) {
    req.EditMessageMedia? || req.EditMessageCaption? || req.EditMessageText?
  }

  /** The requests of a new message: the send first, then only pins. */
  lemma NewMessageShape(replies: seq<Outcome>, base: nat, req: Request, autoPin: bool, oldId: Option<int>)
    requires IsSend(req)
    ensures var (reqs, res) := NewMessage(replies, base, req, autoPin, oldId);
      && 1 <= |reqs| <= 3 && reqs[0] == req
      && (forall k :: 1 <= k < |reqs| ==> !IsSend(reqs[k]) && !IsEdit(reqs[k]))
      && (res.Ok? <==> ReplyAt(replies, base).Delivered?)
      && (res.Ok? ==> ReplyAt(replies, base) == Delivered(res.value))
      && (res.Err? ==> |reqs| == 1)
  {
  }

  /**
   * Only one dashboard message: a message is created only by the first request, and exactly when no
   * dashboard is known after adoption or a text dashboard is upgraded to a photo that is available; every
   * edit goes to the known dashboard; no call of `upsertPhotoDashboard` makes more than three requests.
   */
  lemma UpsertSingleMessage(replies: seq<Outcome>, base: nat, messageId: Option<int>, messageKind: Kind, photoUrl: string,
                            dayImage: string, cfg: Config, pinned: Option<Pinned>, caps: Captions, sanitize: string -> string)
    ensures var u := UpsertOutcome(replies, base, messageId, messageKind, photoUrl, dayImage, cfg, pinned, caps, sanitize);
      var (id, kind) := Adopted(messageId, messageKind, cfg, pinned);
      && |u.sent| <= 3
      && (forall k :: 0 < k < |u.sent| ==> !IsSend(u.sent[k]))
      && (|u.sent| > 0 && IsSend(u.sent[0]) <==>
            !HasMessage(id) ||
            (cfg.preferPhoto && kind == TextKind && cfg.allowTextToPhotoUpgrade && PickPhotoForSend(dayImage, photoUrl, sanitize) != []))
      && (forall k :: 0 <= k < |u.sent| && IsEdit(u.sent[k]) ==> HasMessage(id) && u.sent[k].messageId == id.value)
  {
    hide UpsertAdopted, PickPhotoForSend, Adopted;
    var (id, kind) := Adopted(messageId, messageKind, cfg, pinned);
    AdoptedSingleMessage(replies, base, id, kind, photoUrl, dayImage, cfg, caps, sanitize);
  }

  /**
   * The requests of one upsert touch a single dashboard message: at most three calls, a send only as the
   * first call (exactly when `sendsFirst`), and every edit aimed at the message `id`.
   */
  predicate OneMessage(sent: seq<Request>, id: Option<int>, sendsFirst: bool) {
    && |sent| <= 3
    && (forall k :: 0 < k < |sent| ==> !IsSend(sent[k]))
    && (|sent| > 0 && IsSend(sent[0]) <==> sendsFirst)
    && (forall k :: 0 <= k < |sent| && IsEdit(sent[k]) ==> HasMessage(id) && sent[k].messageId == id.value)
  }

  /** `UpsertSingleMessage` once the pinned message has been considered. */
  lemma AdoptedSingleMessage(replies: seq<Outcome>, base: nat, id: Option<int>, kind: Kind, photoUrl: string,
                             dayImage: string, cfg: Config, caps: Captions, sanitize: string -> string)
    ensures OneMessage(UpsertAdopted(replies, base, id, kind, photoUrl, dayImage, cfg, caps, sanitize).sent, id,
      !HasMessage(id) ||
      (cfg.preferPhoto && kind == TextKind && cfg.allowTextToPhotoUpgrade && PickPhotoForSend(dayImage, photoUrl, sanitize) != []))
  {
    hide PhotoRun, TextRun, NewMessage, StripAllTags, PickPhotoForSend, Sent, ReplyAt, Classify, MethodName, IsParseEntityError;
    var photo := PickPhotoForSend(dayImage, photoUrl, sanitize);
    var u := UpsertAdopted(replies, base, id, kind, photoUrl, dayImage, cfg, caps, sanitize);
    match RouteOf(cfg, HasMessage(id), kind, photo)
    case CreateText(_) =>
      NewMessageOne(replies, base, SendMessage(StripAllTags(caps.full)), cfg.autoPin, None, id);
      assert u.sent == NewMessage(replies, base, SendMessage(StripAllTags(caps.full)), cfg.autoPin, None).0;
    case CreatePhoto(p) =>
      NewMessageOne(replies, base, SendPhoto(p, caps.full), cfg.autoPin, None, id);
      assert u.sent == NewMessage(replies, base, SendPhoto(p, caps.full), cfg.autoPin, None).0;
    case Refuse =>
      assert u.sent == [];
    case KeepText =>
      TextRunOne(replies, base, id, AttemptList(caps));
      assert u.sent == TextRun(replies, base, id.value, AttemptList(caps), 0).0;
    case UpgradeToPhoto(p) =>
      NewMessageOne(replies, base, SendPhoto(p, caps.full), cfg.autoPin, id, id);
      assert u.sent == NewMessage(replies, base, SendPhoto(p, caps.full), cfg.autoPin, id).0;
    case EditPhoto =>
      var media := ShouldUpdateMedia(photo, photoUrl, dayImage, sanitize);
      PhotoRunOne(replies, base, id, media, photo, AttemptList(caps));
      assert u.sent == PhotoRun(replies, base, id.value, media, photo, AttemptList(caps), 0).0;
  }

  /** A new message is one send followed by pins only. */
  lemma NewMessageOne(replies: seq<Outcome>, base: nat, req: Request, autoPin: bool, oldId: Option<int>, id: Option<int>)
    requires IsSend(req)
    ensures OneMessage(NewMessage(replies, base, req, autoPin, oldId).0, id, true)
  {
    NewMessageShape(replies, base, req, autoPin, oldId);
  }

  /** The text edit sends only edits of the message. */
  lemma TextRunOne(replies: seq<Outcome>, base: nat, id: Option<int>, captions: seq<string>)
    requires HasMessage(id) && |captions| == 3
    ensures OneMessage(TextRun(replies, base, id.value, captions, 0).0, id, false)
  {
    TextRunShape(replies, base, id.value, captions, 0);
  }

  /** The photo edit sends only edits of the message. */
  lemma PhotoRunOne(replies: seq<Outcome>, base: nat, id: Option<int>, media: bool, photo: string, captions: seq<string>)
    requires HasMessage(id) && |captions| == 3
    ensures OneMessage(PhotoRun(replies, base, id.value, media, photo, captions, 0).0, id, false)
  {
    PhotoRunOutcome(replies, base, id.value, media, photo, captions, 0);
  }

  /**
   * The strict refusal: nothing is sent exactly when a photo is preferred, the known dashboard is text,
   * the upgrade is not allowed and strict mode is on; the call then throws the refusal and changes nothing.
   */
  lemma UpsertStrictRefusal(replies: seq<Outcome>, base: nat, messageId: Option<int>, messageKind: Kind, photoUrl: string,
                            dayImage: string, cfg: Config, pinned: Option<Pinned>, caps: Captions, sanitize: string -> string)
    ensures var u := UpsertOutcome(replies, base, messageId, messageKind, photoUrl, dayImage, cfg, pinned, caps, sanitize);
      var (id, kind) := Adopted(messageId, messageKind, cfg, pinned);
      && (u.sent == [] <==>
            HasMessage(id) && cfg.preferPhoto && kind == TextKind && !cfg.allowTextToPhotoUpgrade && cfg.strict)
      && (u.sent == [] ==> u == Upserted([], Err(StrictRefusal), id, kind, photoUrl))
  {
    hide PhotoRun, TextRun, NewMessage, StripAllTags, PickPhotoForSend, Adopted;
    var (id, kind) := Adopted(messageId, messageKind, cfg, pinned);
    var photo := PickPhotoForSend(dayImage, photoUrl, sanitize);
    match RouteOf(cfg, HasMessage(id), kind, photo)
    case CreateText(_) =>
      NewMessageShape(replies, base, SendMessage(StripAllTags(caps.full)), cfg.autoPin, None);
    case CreatePhoto(p) =>
      NewMessageShape(replies, base, SendPhoto(p, caps.full), cfg.autoPin, None);
    case Refuse =>
    case KeepText =>
      TextRunShape(replies, base, id.value, AttemptList(caps), 0);
    case UpgradeToPhoto(p) =>
      NewMessageShape(replies, base, SendPhoto(p, caps.full), cfg.autoPin, id);
    case EditPhoto =>
      var media := ShouldUpdateMedia(photo, photoUrl, dayImage, sanitize);
      PhotoRunOutcome(replies, base, id.value, media, photo, AttemptList(caps), 0);
  }

  /**
   * What the stored fields become: after a thrown error they are as adoption left them; the dashboard id
   * changes only to the id Telegram gave a new message; the photo URL changes only on success, to the
   * photo picked for the day, on a photo dashboard.
   */
  lemma UpsertStateChanges(replies: seq<Outcome>, base: nat, messageId: Option<int>, messageKind: Kind, photoUrl: string,
                           dayImage: string, cfg: Config, pinned: Option<Pinned>, caps: Captions, sanitize: string -> string)
    ensures var u := UpsertOutcome(replies, base, messageId, messageKind, photoUrl, dayImage, cfg, pinned, caps, sanitize);
      var (id, kind) := Adopted(messageId, messageKind, cfg, pinned);
      && (u.result.Err? ==> u.messageId == id && u.messageKind == kind && u.photoUrl == photoUrl)
      && (u.messageId != id ==>
            && u.result.Ok? && IsSend(u.sent[0])
            && ReplyAt(replies, base) == Delivered(u.messageId.value))
      && (u.photoUrl != photoUrl ==>
            && u.result.Ok? && u.messageKind == PhotoKind
            && u.photoUrl == PickPhotoForSend(dayImage, photoUrl, sanitize))
  {
    hide PhotoRun, TextRun, NewMessage, StripAllTags, PickPhotoForSend, Adopted;
    var (id, kind) := Adopted(messageId, messageKind, cfg, pinned);
    var photo := PickPhotoForSend(dayImage, photoUrl, sanitize);
    match RouteOf(cfg, HasMessage(id), kind, photo)
    case CreateText(_) =>
      NewMessageShape(replies, base, SendMessage(StripAllTags(caps.full)), cfg.autoPin, None);
      var (reqs, res) := NewMessage(replies, base, SendMessage(StripAllTags(caps.full)), cfg.autoPin, None);
      var u := UpsertOutcome(replies, base, messageId, messageKind, photoUrl, dayImage, cfg, pinned, caps, sanitize);
      assert res.Ok? ==> u.messageId == Some(res.value);
    case CreatePhoto(p) =>
      NewMessageShape(replies, base, SendPhoto(p, caps.full), cfg.autoPin, None);
      var (reqs, res) := NewMessage(replies, base, SendPhoto(p, caps.full), cfg.autoPin, None);
      var u := UpsertOutcome(replies, base, messageId, messageKind, photoUrl, dayImage, cfg, pinned, caps, sanitize);
      assert res.Ok? ==> u.messageId == Some(res.value);
    case Refuse =>
    case KeepText =>
    case UpgradeToPhoto(p) =>
      NewMessageShape(replies, base, SendPhoto(p, caps.full), cfg.autoPin, id);
      var (reqs, res) := NewMessage(replies, base, SendPhoto(p, caps.full), cfg.autoPin, id);
      var u := UpsertOutcome(replies, base, messageId, messageKind, photoUrl, dayImage, cfg, pinned, caps, sanitize);
      assert res.Ok? ==> u.messageId == Some(res.value);
    case EditPhoto =>
  }

  /**
   * The one-time upgrade of a text dashboard: the photo is sent with the full caption and, with `autoPin`,
   * the new message is pinned and the old one unpinned, in that order; the action names both messages.
   */
  /**
   * Creating the dashboard when no message is known after adoption and the send is delivered: a photo
   * message when a photo is wanted and available, else a text message with the tags stripped; then the
   * pin of the new message when `autoPin` is on.
   */
  lemma UpsertCreateSequence(replies: seq<Outcome>, base: nat, messageId: Option<int>, messageKind: Kind, photoUrl: string,
                             dayImage: string, cfg: Config, pinned: Option<Pinned>, caps: Captions, sanitize: string -> string)
    requires !HasMessage(Adopted(messageId, messageKind, cfg, pinned).0) && ReplyAt(replies, base).Delivered?
    ensures var u := UpsertOutcome(replies, base, messageId, messageKind, photoUrl, dayImage, cfg, pinned, caps, sanitize);
      var newId := ReplyAt(replies, base).messageId;
      var photo := PickPhotoForSend(dayImage, photoUrl, sanitize);
      var pins := if cfg.autoPin then [PinChatMessage(newId)] else [];
      && u.messageId == Some(newId)
      && (cfg.preferPhoto && photo != [] ==>
            && u.sent == [SendPhoto(photo, caps.full)] + pins
            && u.result == Ok(SendPhotoAction(newId))
            && u.messageKind == PhotoKind && u.photoUrl == photo)
      && (!(cfg.preferPhoto && photo != []) ==>
            && u.sent == [SendMessage(StripAllTags(caps.full))] + pins
            && u.result == Ok(SendMessageAction(newId, cfg.preferPhoto))
            && u.messageKind == TextKind && u.photoUrl == photoUrl)
  {
    hide PhotoRun, TextRun, StripAllTags, PickPhotoForSend, Adopted;
  }

  lemma UpsertUpgradeSequence(replies: seq<Outcome>, base: nat, messageId: Option<int>, messageKind: Kind, photoUrl: string,
                              dayImage: string, cfg: Config, pinned: Option<Pinned>, caps: Captions, sanitize: string -> string)
    requires var (id, kind) := Adopted(messageId, messageKind, cfg, pinned);
      && HasMessage(id) && kind == TextKind && cfg.preferPhoto && cfg.allowTextToPhotoUpgrade
      && PickPhotoForSend(dayImage, photoUrl, sanitize) != [] && ReplyAt(replies, base).Delivered?
    ensures var u := UpsertOutcome(replies, base, messageId, messageKind, photoUrl, dayImage, cfg, pinned, caps, sanitize);
      var oldId := Adopted(messageId, messageKind, cfg, pinned).0.value;
      var newId := ReplyAt(replies, base).messageId;
      var photo := PickPhotoForSend(dayImage, photoUrl, sanitize);
      && u.sent == [SendPhoto(photo, caps.full)] + (if cfg.autoPin then [PinChatMessage(newId), UnpinChatMessage(oldId)] else [])
      && u.result == Ok(UpgradeTextToPhoto(oldId, newId, cfg.autoPin))
      && u == u.(messageId := Some(newId), messageKind := PhotoKind, photoUrl := photo)
  {
    hide PhotoRun, TextRun, StripAllTags, PickPhotoForSend, Adopted;
  }
}
