# SubscribeBoard dashboard core, in Dafny

This project models the aggregation core of `work.js`, a Cloudflare Worker whose Durable Object keeps one
Telegram "today's TV updates" dashboard message per chat. Each call of `handleAggregate` receives either a
subscribe reminder (today's list of shows and episode ranges) or a library event (episodes that have
arrived in the library). It then updates the stored state: the message id and kind, the day, the list, the
photo, the day's image and the per-day buffer of early library events. When something changed, it renders
three HTML captions of shrinking budgets and creates, adopts, upgrades or edits the dashboard message.

The modules follow the program's parts:

- `Text` models the JavaScript string operations the core relies on: `trim`, whitespace collapsing,
  ASCII case mapping, substring tests, UTF-16 length, `String(n)`, `split`/`join` and global replace.
- `Html` models `escapeHtml`, `stripAllTags` and `visibleTextLength`.
- `Records` holds the show record and its identity key, `parseEpisodePart` and `upgradeContentItem`.
- `Merge` holds `mergeSubscribeItems` and `applyLibraryItemsToContent` as specification folds.
- `Buffer` holds `bufferLibraryItems` as a specification function.
- `Sort` holds `safeSortContent`, with its comparator.
- `Render` holds the episode display, `fitLinesToBudget`, `hardTrimVisible`, `hardTrimToChars` and
  `buildCaptionHtml`.
- `Telegram` holds the requests, `telegramCall` over a scripted transport, and the pinned-message and
  error-text tests.
- `Board` holds the state object (`BoardState`, a class whose methods update its fields in place, as the
  source's loops do).
- `Upsert` holds `upsertPhotoDashboard` and the two three-attempt edit loops.
- `Aggregate` holds the event step and the Durable Object's `handleAggregate`.

Each imperative operation is a method with loops. Its `ensures` ties the new state to a specification
function. The properties the source promises are proved as lemmas about those functions.

The network is an oracle. A `Transport` is built from the replies the Bot API will give, and it records
every request sent. The pinned message, the current time string (`updatedAt`) and the URL sanitiser
(`sanitize`) are parameters.

## Model

| member | source | states |
|---|---|---|
| Text.TrimIdempotent | work.js:741-745 | trimming twice is trimming once |
| Text.CollapseSpacesSingle | work.js:742-744 | after `replace(/\s+/g, " ")` no two whitespace characters are adjacent and every remaining one is a plain space |
| Text.NatToStringRoundTrip | work.js:777-782 | `String(n)` of a natural number is a digit string that reads back as `n` |
| Text.Utf16LengthAppend | work.js:603 | the `.length` of a concatenation is the sum of the lengths |
| Text.PrefixUnits | work.js:622 | the slice is a prefix whose UTF-16 length is within `k`, and the next character would exceed it |
| Text.JoinSplit | work.js:606-611 | joining the pieces of `split("\n")` with `"\n"` gives the original text back |
| Html.EscapeHtmlCharwise | work.js:1061-1066 | the three global replaces of `escapeHtml` escape each character independently: `&`, `<` and `>` become entities and every other character is kept |
| Html.EscapeHtml | work.js:1061-1066 | `escapeHtml`, as the three global replaces; Html.EscapeHtmlCharwise and Html.EscapeChars state what it does |
| Html.EscapeChars | work.js:1061-1066 | escaped text contains no `<` and no `>` |
| Html.StripBold | work.js:614-617 | removing tags from text with a `<b>…</b>` pair keeps exactly the text outside the tags and inside them |
| Html.StripWithoutTags | work.js:614-617 | text without `<` is unchanged by `stripAllTags` |
| Html.StripAllTags | work.js:614-617 | `stripAllTags`, removing every `<…>`; Html.StripBold and Html.StripWithoutTags state what it keeps |
| Html.VisibleTextOfEscaped | work.js:594-604 | for text without `&`, decoding the escaped text gives the text back, and its visible length is the text's UTF-16 length |
| Html.EscapedEntityUndercounted | work.js:596-602 | the literal text `&lt;` escapes to `&amp;lt;`, which the sequential decoding reads as `<`: its visible length is 1, not 4 |
| Html.DecodeWithoutAmp | work.js:596-602 | text without `&` is unchanged by entity decoding |
| Html.VisibleTextLength | work.js:594-604 | the UTF-16 length of the tag-free, entity-decoded text; Html.VisibleTextOfEscaped and Html.EscapedEntityUndercounted state its value |
| Records.NormalizeTitleKeyIdempotent | work.js:741-745 | normalising a title key twice is normalising it once |
| Records.NormalizeSeasonIdempotent | work.js:748 | trimming and upper-casing a season twice is doing it once |
| Records.MakeShowKey | work.js:747-749 | the `title\|year\|SEASON` key; Records.ShowKeyIdentifies states when two keys are equal |
| Records.ShowKeyIdentifies | work.js:747-749 | two `title\|year\|SEASON` keys are equal exactly when the normalised title, year and season are equal, when year and season contain no `\|` |
| Records.ParseEpisodePart | work.js:751-775 | no result exactly when the normalised fragment has no digit run; otherwise `epFrom <= epTo`, both labels are digit runs with those values, and they are the first and last runs in that order, swapped together only when the last run's value is smaller |
| Records.ParseEpisodePartExample | work.js:751-775 | `"E13-E14"` parses to 13..14 with labels `"13"` and `"14"` |
| Records.ParseEpisodePartSwapExample | work.js:768-772 | `" E08-E5 "` parses to 5..8 with labels `"5"` and `"08"`: numbers and labels swap together |
| Records.ParseEpisodePartEqualExample | work.js:768-772 | `"E08-E8"` parses to 8..8 with labels `"08"` and `"8"`: equal values keep the labels in order |
| Records.InsertSorted | work.js:907 | inserting into a strictly increasing list keeps it strictly increasing and adds exactly that number |
| Records.Canonical | work.js:907 | `Array.from(new Set(done)).sort(...)` is strictly increasing with the same members |
| Records.IncreasingUnique | work.js:907 | two strictly increasing lists with the same members are equal |
| Records.CanonicalSameElements | work.js:907 | the canonical form depends only on the set of members |
| Records.LegacyRange | work.js:884-899 | when the trimmed legacy episode text parses, the range and labels are the parsed ones; otherwise `epFrom` is the stored one or 0, `epTo` the stored non-zero one or `epFrom`, and the labels are their decimal strings; the labels are never empty |
| Records.LegacyText | work.js:885 | the trimmed `episode`, or `episodeDisplay` when `episode` is empty |
| Records.UpgradeLegacy | work.js:884-899 | a surviving record without a full range takes the range and labels of `LegacyRange`: its parsed legacy episode text, or the fallback |
| Records.UpgradeLegacyEpisodeExample | work.js:884-899 | a record with no range and `episode: "E13-E14"` upgrades to 13..14 with labels `"13"` and `"14"` |
| Records.RangeLen | work.js:934-935 | `max(1, epTo - epFrom + 1)` is at least 1 and at least the span |
| Records.Upgrade | work.js:863-910 | the record is dropped exactly when its normalised title, year or season is empty; otherwise it is well formed, keeps its identity key, and its `done` has exactly the numbers of the stored `done`; a record with a full range keeps its range and labels |
| Records.UpgradeWellFormedIsIdentity | work.js:863-910 | upgrading a stored well-formed record gives that record back |
| Records.UpgradeIdempotent | work.js:863-910 | upgrading an upgraded record changes nothing |
| Records.ReupgradeWellFormed | work.js:931 | `upgradeContentItem(content[idx]) \|\| content[idx]` of a well-formed record is the record |
| Records.KeyOfReupgrade | work.js:931 | re-upgrading a record keeps its identity key |
| Merge.FirstIndex | work.js:923 | `findIndex` gives the first position holding the key, or none when no position does |
| Merge.FindKey | work.js:923 | the first record with the key, or none when no record has it |
| Merge.FindKeyAbsent | work.js:923-925 | `findIndex` gives -1 exactly when the key is not among the list's keys |
| Merge.Restrict | work.js:943-945 | the kept `done` numbers are exactly those of the old `done` within the new range |
| Merge.MergeStepAbsent | work.js:925-928 | a record with a new key is appended unchanged and the pass reports a change |
| Merge.MergeStepExisting | work.js:931-951 | for an existing key nothing else moves; the range is replaced exactly when it is longer, or as long and ending later or starting earlier; then the record becomes the incoming one, labels included, with the old `done` restricted to the new range; otherwise the stored record is kept; the kept length is the larger one |
| Merge.MergeStepKeys | work.js:918-953 | one pass never removes or re-keys a record, appends at most one, and appends only a record with an absent key, which sets `changed` |
| Merge.MergeStepKeySet | work.js:918-953 | after one pass the keys are the old keys plus the incoming record's, and keys stay unique |
| Merge.MergeAll | work.js:913-956 | `mergeSubscribeItems` as one merge pass per upgraded incoming record; Merge.MergeAllKeys, Merge.MergeAllWellFormed and Merge.MergeSameRecordTwice state its properties |
| Merge.MergeAllKeys | work.js:913-956 | merging keeps every old record's key in place, reports a change when it appended, and ends with the old keys plus the incoming keys, each once |
| Merge.MergeStepWellFormed | work.js:931-951 | a merge pass keeps every record well formed |
| Merge.MergeAllWellFormed | work.js:913-956 | merging keeps every record well formed |
| Merge.MergeStepTwice | work.js:934-951 | merging the same record again reports no change and leaves the list as it was |
| Merge.MergeSameRecordTwice | work.js:913-956 | calling `mergeSubscribeItems` again with the same record returns false and changes nothing |
| Merge.Missing | work.js:980-985 | the pushed episodes are exactly those of the overlap not yet done, and there are none exactly when the whole overlap is done |
| Merge.AllGrowSameKeys | work.js:991 | a list whose records only gained `done` entries keeps every key in its position |
| Merge.ApplyStepShape | work.js:964-992 | a library record never adds, removes or re-ranges a show, keeps records well formed, and one with an unknown key changes nothing |
| Merge.ApplyStepMarks | work.js:972-991 | the show's `done` gains exactly the overlap `[max(lib.epFrom, epFrom), min(lib.epTo, epTo)]`, no other show changes, and a change is reported exactly when an overlap episode was not yet done |
| Merge.ApplyAll | work.js:959-995 | `applyLibraryItemsToContent` as one library pass per upgraded item; Merge.ApplyAllShape, Merge.ApplyAllCovers, Merge.ApplyAllCoveredIsNoop and Merge.ApplyTwiceReportsNoChange state its properties |
| Merge.ApplyAllShape | work.js:959-995 | applying library items keeps the list's shows and ranges and only grows `done` |
| Merge.ApplyAllUnknownKeys | work.js:968-970 | library items whose keys are all unknown change nothing and return false |
| Merge.ApplyStepCovers | work.js:975-991 | after a library record is applied, its overlap with its show is done |
| Merge.CoveredGrows | work.js:975-991 | an overlap that is done stays done while `done` only grows |
| Merge.ApplyAllCovers | work.js:959-995 | after applying the items, every item's overlap with its show is done |
| Merge.ApplyAllCoveredIsNoop | work.js:959-995 | items whose overlaps are all done change nothing and return false |
| Merge.ApplyTwiceReportsNoChange | work.js:959-995 | applying the same library items a second time returns false and changes nothing |
| Buffer.AddAll | work.js:1005-1020 | the bucket only grows at its end, by at most one entry per item |
| Buffer.Cap | work.js:1023-1025 | at most 200 entries are kept, and they are the newest ones of the bucket in order; a longer bucket keeps exactly 200; a bucket of at most 200 is unchanged |
| Buffer.PushedSignature | work.js:1011-1016 | an upgraded record, re-upgraded inside `some`, yields its own `key\|epFrom-epTo` signature |
| Buffer.AddAllOnlyNew | work.js:1008-1020 | every pushed entry is well formed, re-upgrades to its own signature, and no earlier entry carries that signature |
| Buffer.AddAllPushesUpgrades | work.js:1008-1020 | the entries appended after the old bucket are upgrades of items, taken at strictly increasing positions of the items, so in their order |
| Buffer.AddAllCovers | work.js:1008-1020 | after the loop every upgraded item's signature is present in the bucket |
| Buffer.AddAllDistinct | work.js:1008-1020 | a bucket with distinct signatures keeps them distinct |
| Buffer.CapDistinct | work.js:1023-1025 | capping keeps signatures distinct |
| Buffer.Buffered | work.js:997-1026 | `bufferLibraryItems` on the map of buckets; Buffer.BufferedShape and Buffer.BufferedDistinct state its properties |
| Buffer.BufferedDistinct | work.js:997-1026 | buffering never brings a duplicate signature into any bucket |
| Buffer.BufferedShape | work.js:997-1026 | an empty trimmed date key changes nothing; otherwise only that date's bucket changes, created when absent, and it becomes the newest at most 200 entries of the old bucket followed by the new items |
| Sort.CompareStrings | work.js:683-688 | the ordinal comparison answers -1, 0 or 1 |
| Sort.CompareStringsFlip | work.js:683-688 | the ordinal comparison is antisymmetric, and 0 exactly for equal strings |
| Sort.CompareStringsTrans | work.js:683-688 | the ordinal comparison is transitive |
| Sort.CompareShowsFlip | work.js:657-673 | swapping two shows flips the sign of the comparator |
| Sort.CompareShowsTrans | work.js:657-673 | the comparator is transitive |
| Sort.Insert | work.js:657-673 | insertion adds exactly that record to the multiset |
| Sort.SortShows | work.js:657-673 | the sorted list is a permutation of the list |
| Sort.InsertKeepsSorted | work.js:657-673 | inserting into a sorted list keeps it sorted |
| Sort.SortShowsSorted | work.js:657-673 | the sorted list is ordered by title, numeric year, then season, and is a permutation of the list |
| Sort.PermutationKeeps | work.js:154 | sorting keeps the keys, their uniqueness and well-formedness |
| Render.PadEpisodeRoundTrip | work.js:777-782 | the padded label of a natural number has at least two digits and reads back as the number |
| Render.DefaultPadEpisode | work.js:777-782 | `defaultPadEpisode`; Render.PadEpisodeRoundTrip states its property |
| Render.FormatEpisodeDisplay | work.js:784-795 | `E{from}-E{to}` or `E{from}`; Render.RangeDisplayRuns, Render.SingleDisplayRuns and Render.DisplayParsesBack state its properties |
| Render.RangeDisplayRuns | work.js:791-792 | `E{from}-E{to}` has exactly the two labels as its digit runs |
| Render.SingleDisplayRuns | work.js:794 | `E{from}` has exactly the one label as its digit run |
| Render.DisplayParsesBack | work.js:784-795 | parsing the episode display of an ordered range gives back the range and its labels |
| Render.ProgressExtendsDisplay | work.js:1028-1040 | the progress text starts with the episode display, and is the bare display exactly when no in-range episode is done |
| Render.FormatEpisodeWithProgress | work.js:1028-1040 | `formatEpisodeWithProgress`; Render.ProgressExtendsDisplay and Render.ProgressSuffix state its forms |
| Render.ProgressSuffix | work.js:1032-1039 | with d in-range episodes done, d > 0, out of a total t: the text is the display and ` ✅` when t <= 1, and otherwise the display and ` (d/t) ✅` with d and t as decimal numbers that read back; for a well-formed record d <= t |
| Render.IncreasingWithin | work.js:1032-1034 | a strictly increasing list within `[lo, hi]` has at most `hi - lo + 1` entries |
| Render.DoneCountAtMostTotal | work.js:1032-1034 | for a well-formed record the done count never exceeds the total |
| Render.FitLinesToBudget | work.js:578-592 | returns the fitting candidate with the most body lines, holding the prefix, those lines and the `…以及 N 条未显示` notice exactly when lines are hidden, or nothing when not even zero body lines fit |
| Render.FitOutcomeUnique | work.js:578-592 | that outcome is unique |
| Render.CandidateOfAll | work.js:583-588 | the candidate with every body line has no notice |
| Render.FitAllShown | work.js:578-592 | when all the lines fit, all are shown |
| Render.HardTrimVisible | work.js:606-612 | keeps the first k >= 1 lines, for the largest k within the budget; only the first line is kept when none fit |
| Render.TrimKeepsFirstLine | work.js:606-612 | the trimmed text starts with the first line and is a prefix of the text |
| Render.HardTrimToCharsBound | work.js:619-623 | text within the limit is kept; longer text becomes the prefix that fills the limit less 20 UTF-16 units (short of it by at most one character), then `\n…`; the result stays within any limit of at least 2 |
| Render.CaptionBody | work.js:553-563 | one body line per show, or the single placeholder line for an empty list |
| Render.RenderLineVisible | work.js:553-559 | when the parts contain no `&`, a show line's visible text is the line without tags and its visible length is that text's length |
| Render.RenderLine | work.js:553-559 | the escaped show line; Render.RenderLineVisible states its visible text |
| Render.HeaderVisibleLength | work.js:550 | the header's visible length is 10 UTF-16 units (the emoji counts 2) |
| Render.BuildCaptionHtml | work.js:548-576 | the caption is the fitted lines, or the header and meta line cut back line by line when nothing fits; a budget of at least 10 is always met |
| Render.CaptionFits | work.js:575 | a fitted caption is within its budget |
| Render.HeaderKept | work.js:575 | the cut-back header and meta line is within any budget of at least 10 |
| Telegram.Sent | work.js:633-652 | without `allowNotModified`, `telegramCall` returns the delivered message id or throws the error text, and never returns null |
| Telegram.Transport.Call | work.js:633-652 | each call sends one request and answers with the reply at its position, classified |
| Telegram.ClassifyOutcome | work.js:633-652 | a call returns exactly when the API delivered, or when "not modified" is tolerated and the error says so; a thrown error has a message, the API's description when it gave one |
| Telegram.Classify | work.js:633-652 | the reading of one reply by `telegramCall`; Telegram.ClassifyOutcome states when it returns and what it throws |
| Telegram.ParseEntitiesSubsumed | work.js:628-631 | a message containing "can't parse entities" also contains "parse entities" |
| Telegram.IsParseEntityError | work.js:628-631 | the lower-cased message mentions an entity or HTML parse failure; Telegram.ParseEntitiesSubsumed relates its tests |
| Telegram.LooksLikeDashboard | work.js:519-524 | the text contains both `今日电视剧更新` and `📺`; Upsert.Adopted uses it as the adoption test |
| Telegram.ExtractPinned | work.js:513-517 | the text is taken, as it is, exactly when it is not blank; otherwise the caption is taken, as it is, exactly when it is not blank; the result is never blank |
| Upsert.PickPhotoForSend | work.js:401-408 | today's sanitised image when there is one, else the sanitised current photo, and empty exactly when both are empty |
| Upsert.ConfigOf | work.js:117-122 | `STRICT_SINGLE_MESSAGE`, `ADOPT_PINNED`, `PREFER_PHOTO_MESSAGE` and `ALLOW_TEXT_TO_PHOTO_UPGRADE` are on unless set to `"0"`; `AUTO_PIN` is on only when set to `"1"` |
| Upsert.ConfigDefaults | work.js:117-122 | with no switch set, strict mode, adoption, photo preference and the upgrade are on and auto-pin is off |
| Upsert.RouteOf | work.js:306-399 | a new message is created exactly when there is none; refusal happens exactly for a text dashboard, a wanted photo, a disallowed upgrade and strict mode; a photo is sent only when wanted and available; photo edits only touch photo dashboards |
| Upsert.AdoptPinned | work.js:297-304 | when no message is known, the pinned dashboard is adopted, as a photo when found through its caption |
| Upsert.Adopted | work.js:282-304 | a known message, adoption switched off or no pinned message keeps the id and kind; otherwise a non-blank text (else a non-blank caption) that looks like a dashboard adopts the pinned id, as a text (else photo) dashboard, and anything else keeps them |
| Upsert.Retry | work.js:455-458 | a retry keeps three attempts |
| Upsert.PhotoRunOutcome | work.js:417-462 | one to three edits of the same message with the same media choice; success at the first call that returned, every earlier one having thrown; failure only after the third call threw, with its error |
| Upsert.PhotoRunCaptions | work.js:451-460 | the first edit uses the full caption; each later edit uses the next caption, with tags stripped exactly when the previous error was an entity-parse error |
| Upsert.PhotoRun | work.js:417-462 | the three-attempt media or caption edit on a scripted transport; Upsert.PhotoRunOutcome and Upsert.PhotoRunCaptions state its properties |
| Upsert.PhotoEditLoop | work.js:417-462 | sends exactly the requests of the attempt run and returns its outcome |
| Upsert.EditPhotoDashboard | work.js:410-463 | edits media only for a new sanitised image of the day; `photoUrl` changes only after a media edit succeeded, to the new photo |
| Upsert.TextAttempt | work.js:467-474 | each text attempt fits within `min(TG_TEXT_LIMIT, 3500)` UTF-16 units |
| Upsert.TextRunShape | work.js:473-492 | one to three `editMessageText` requests, each tag-stripped and cut to the limit; success at the first call that returned; failure only after the third call threw, with its error |
| Upsert.TextRun | work.js:473-492 | the three-attempt text edit on a scripted transport; Upsert.TextRunShape states its properties |
| Upsert.EditTextDashboard | work.js:465-493 | sends exactly those requests and reports the attempt that succeeded or the last error |
| Upsert.BestEffort | work.js:526-543 | a pin or unpin request is sent and its failure is ignored |
| Upsert.SendNewMessage | work.js:316-350 | the send, then the best-effort pins only when it went through; the new id or the send's error |
| Upsert.NewMessageShape | work.js:316-350 | a new message sends first and then only pins; it succeeds exactly when the API delivered, with that id, and sends nothing more after a failure |
| Upsert.UpsertAdoptedDashboard | work.js:306-399 | the requests, result and new `messageId`, `messageKind` and `photoUrl` are those of the decision after adoption |
| Upsert.UpsertAdopted | work.js:306-399 | the branches after adoption as a function of the replies; Upsert.AdoptedSingleMessage, Upsert.UpsertStrictRefusal, Upsert.UpsertStateChanges and Upsert.UpsertUpgradeSequence state its properties |
| Upsert.UpsertPhotoDashboard | work.js:269-399 | the same, starting from the stored fields and the pinned message |
| Upsert.UpsertSingleMessage | work.js:269-399 | at most three requests; only the first may send a new message, and it does exactly when no message is known after adoption or a text dashboard is upgraded to a photo; every edit targets the known message |
| Upsert.AdoptedSingleMessage | work.js:306-399 | the same, once the pinned message has been considered |
| Upsert.UpsertStrictRefusal | work.js:355-359 | nothing is sent exactly in the strict refusal case, which throws the strict error and changes nothing after adoption |
| Upsert.UpsertCreateSequence | work.js:306-351 | with no message after adoption and a delivered send: a wanted and available photo is sent with the full caption and the state becomes that photo message; otherwise the tag-stripped caption is sent as text and the state becomes a text message with `photoUrl` kept; the new id is stored, and it alone is pinned when auto-pin is on |
| Upsert.UpsertStateChanges | work.js:269-399 | on error the state is as after adoption; the message id changes only on a successful send, to the delivered id; `photoUrl` changes only on success of a photo message, to the picked photo |
| Upsert.UpsertUpgradeSequence | work.js:364-389 | a delivered upgrade sends the photo, then pins the new message and unpins the old one when auto-pin is on, and the state becomes the new photo message |
| Board.UpgradeAll | work.js:153 | every upgraded record is well formed and none is added |
| Board.UpgradeAllRoundTrip | work.js:153 | writing a list of well-formed records and reading it back gives the same list |
| Board.BoardState.Fresh | work.js:131-143 | a board that never stored anything: no message, unknown kind, no day, empty list, photo, image and buffer |
| Board.BoardState.Load | work.js:144-153 | the stored fields, with the list upgraded |
| Board.BoardState.MergeOne | work.js:918-952 | one loop pass updates `content` in place as the merge pass specifies |
| Board.BoardState.MergeSubscribeItems | work.js:913-956 | merges in place; the list and the returned flag are those of the merge fold |
| Board.BoardState.PushOverlap | work.js:980-985 | pushes exactly the missing overlap episodes and sets `changed` exactly when there are some |
| Board.BoardState.ApplyOne | work.js:964-992 | one loop pass updates `content` in place as the library pass specifies |
| Board.BoardState.ApplyLibraryItemsToContent | work.js:959-995 | marks episodes in place; the list and the returned flag are those of the library fold |
| Board.BoardState.BufferLibraryItems | work.js:997-1026 | `pendingLibrary` becomes the buffered map |
| Board.BoardState.SortContent | work.js:657-673 | `content` becomes its sorted permutation |
| Aggregate.SubscribeStep | work.js:182-212 | a subscribe reminder never returns early: it always reaches the no-change test before Telegram |
| Aggregate.Transition | work.js:158-212 | whenever the step goes on to Telegram, the state shows the event's day |
| Aggregate.SortedGrows | work.js:175 | marking episodes keeps a sorted list sorted |
| Aggregate.InvariantGrows | work.js:175 | marking episodes keeps keys unique and unchanged |
| Aggregate.LibraryReadiness | work.js:158-180 | a library event is buffered exactly when the day, a non-empty list and a message are not all there, and then only the buffer changes; otherwise only the list changes, `done` only grows, and "no matching episodes" is reported exactly when nothing changed |
| Aggregate.LibraryStep | work.js:158-180 | the library event's step on the stored fields; Aggregate.LibraryReadiness states its cases |
| Aggregate.NewDayReset | work.js:183-191 | a reminder for a new day reports a change; the list becomes exactly the reminder's shows, unique, well formed and sorted; the image is today's; at most today's bucket remains, drained |
| Aggregate.SubscribeDrains | work.js:207-212 | after a reminder today's bucket is empty or gone, and other days' buckets are kept exactly when the day did not change |
| Aggregate.SubscribeInvariant | work.js:182-212 | after a reminder the list is well formed, has unique keys, is sorted, and holds the earlier keys of the day plus the reminder's |
| Aggregate.TransitionKeepsMessage | work.js:158-212 | the event step never touches the message id, kind or photo |
| Aggregate.LibraryEvent | work.js:158-180 | updates the state in place as the library step specifies |
| Aggregate.DrainPending | work.js:206-212 | a non-empty bucket is applied to the list and deleted; an empty one changes nothing |
| Aggregate.SubscribeEvent | work.js:182-212 | updates the state in place as the subscribe step specifies |
| Aggregate.ApplyEvent | work.js:158-212 | updates the state in place as the event step specifies |
| Aggregate.Publish | work.js:222-259 | builds the three captions for the list and upserts the dashboard with them |
| Aggregate.SubscribeBoard.HandleAggregate | work.js:110-263 | the switches are read from the environment strings; missing credentials or a bad payload is an error that stores and sends nothing; a buffered or unmatched library event stores the state and sends nothing; an unchanged state with a message skips Telegram and stores nothing; otherwise the captions are built and the upsert runs, and the state is stored only when it succeeded |
| Aggregate.SubscribeBoard.Conclude | work.js:215-262 | the skip when nothing changed and a message exists, else the captions, the upsert and the store on success |

## Left out

- The Worker `fetch` entry point, token checks and JSON bodies are HTTP I/O and are not modelled.
- The Durable Object's `fetch` and its promise queue serialise concurrent requests; one `handleAggregate` call is modelled.
- `telegramCall` is a `Transport` whose k-th call gets the k-th scripted reply; an exhausted script answers with a failure without a description.
- A success reply without a numeric `message_id` is not modelled: a delivered reply always carries an id.
- `tryGetPinnedMessage` (`getChat`) is replaced by a `pinned` parameter; its own failures surface as "no pinned message".
- The results of `bestEffortPin`/`bestEffortUnpin` are ignored by the source; the model records the requests only.
- `sanitizeHttpUrl` relies on the WHATWG URL parser; it is the function parameter `sanitize`.
- `formatDateTime`/`formatDateKey` depend on the clock and `Intl`; `updatedAt` and the day key are inputs.
- `safeStringCompare` uses `Intl.Collator`; the model uses the ordinal fallback the source applies when the collator fails.
- Sort.CompareStrings: JavaScript's `<` on strings compares UTF-16 code units; the model compares characters, which orders characters outside the Basic Multilingual Plane differently.
- Sort.SortShows: the source's `arr.sort` is stable (ECMAScript 2019 requires it), and the model's insertion sort is stable too; stability itself is not proved, only sortedness and permutation.
- `extractTextAndImage`, `classifyEvent` and the content normalisers are free-text parsing upstream of the core; records arrive as `RawItem`s.
- Numbers are unbounded integers: `Number()` coercions, `NaN` and `Number.isFinite` checks are not modelled, and `Number.parseInt` of a digit string is its value.
- Strings are sequences of Unicode scalar values. JavaScript `.length` is modelled by `Utf16Length`. Case mapping covers ASCII letters only.
- Render.HardTrimToCharsBound: `slice` on UTF-16 units can split a surrogate pair; the model keeps whole characters, one character short of the limit at most.
- `messageId` truthiness is modelled as "present and not 0"; the id is otherwise an integer.
- The `aggressive` and `minimal` flags of `buildCaptionHtml` produce the same prefix and suffix in the source; the three captions differ only in their budgets.
- The storage back-compat repairs (`typeof` checks on stored fields) are not modelled: a stored state already has the typed fields of `Snapshot`.
- Html.VisibleTextOfEscaped holds only for text without `&`: the sequential decoding at work.js:596-602 under-counts an escaped entity, as Html.EscapedEntityUndercounted shows.
