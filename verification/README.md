# Outfit try-on: state logic of the `App` component

This project models the state handlers of the outfit try-on application's
single `App` component (`App.tsx`). Lifted out of React, each handler is a
pure transition on an immutable state record. The model proves properties of
those transitions. There are four parts:

- **Wardrobe editing** (`WardrobeEdits`). Five slots hold ordered lists of
  clothing items. An upload is appended only while the slot is below its cap.
  The cap is 1 for headwear and footwear and 2 for every other slot. Removal
  filters by id. Shuffling a slot or the profile picks one preset URL. A full
  shuffle rebuilds every slot from the presets.
- **Daily quota** (`Quota`). A `{date, count}` record is persisted under one
  storage key. It is read once at start-up: a record stamped with a different
  day, or an absent or unparseable one, reads as 0 and is rewritten as
  `{today, 0}`. Each successful generation adds one and persists the result.
  The daily limit is 10.
- **Generation lifecycle** (`Generation`). There are two pre-flight checks,
  quota first and then profile. An accepted attempt clears the previous result
  and error and starts a countdown from 20. The remote call then settles, and
  settling always stops the countdown and clears the in-flight flag.
- **Countdown** (`Countdown`). Each tick counts down by one and holds at 1.

Supporting modules: `Wrappers` (an `Option` type and JavaScript truthiness of
optional strings), `Types` (the records of `types.ts`) and `Presets`
(`getRandom`).

Inputs the browser supplies are explicit parameters:

- the random draw is a `choice: nat`, and the index used is `choice % |list|`;
- ids built from `Date.now()`/`Math.random()` are string parameters;
- blob URLs from `URL.createObjectURL` are string parameters;
- "today" (`toISOString().split('T')[0]`, a UTC date) is an opaque `Day`;
- the stored quota value is a datatype: absent, unparseable, or a record;
- the remote call is an `Outcome`, either `Success(url)` or `Failure(message)`;
- the one-second interval is a number of ticks that fire before the call settles.

Points of the code's behaviour worth knowing:

- The accessories cap is 2 (`App.tsx:172`), although its upload widget is
  given `maxFiles={3}` (`App.tsx:348`).
- "Today" is the UTC date that `toISOString()` yields.
- A stale, absent or unparseable record is rewritten to `{today, 0}` as soon
  as it is loaded (`App.tsx:77-87`).
- `incrementLimit` adds one to the in-memory count and stamps the record with
  the date current at the time of the increment. So if the page stays open
  past midnight, the previous day's count carries over into the new day's
  record (`Quota.IncrementLimit` states exactly this behaviour).
- JavaScript truthiness is kept. A preset URL that is the empty string is
  treated like no URL by `randomizeWardrobeItem`, `randomizeProfile` and the
  per-slot choices of `randomizeAll`, and an empty profile preview fails the
  profile check. `randomizeAll` assigns the profile draw unfiltered, so an
  empty profile preset list clears the profile.
- `randomizeAll` reads the clock once per slot, so each slot's preset id has
  its own stamp (a `slotStamp` parameter).

## Model

| member | source | states |
|---|---|---|
| Presets.GetRandom | App.tsx:12-15 | The result is absent exactly when the list is empty; otherwise it is an element of the list |
| Presets.EveryPresetReachable | App.tsx:12-15 | Every element of a preset list is returned by some random draw |
| WardrobeEdits.Without | App.tsx:190 | Filtering by id keeps every item whose id differs, with its multiplicity, and no item with that id. The order is kept (the result is a subsequence) and it never grows. When no item has the id, the list is unchanged |
| WardrobeEdits.AddWardrobeItem | App.tsx:163-183 | The state is unchanged exactly when the slot is at its cap (1 for headwear/footwear, 2 otherwise). Otherwise the new uploaded item is appended last. Other slots and the profile are untouched, and caps are preserved |
| WardrobeEdits.RemoveWardrobeItem | App.tsx:185-193 | The slot becomes its items minus those with the id. Its length never grows, other slots and the profile are untouched, and caps are preserved |
| WardrobeEdits.RandomizeWardrobeItem | App.tsx:133-154 | A draw that is absent or the empty string (always so with no presets) leaves the state unchanged. A truthy draw sets the slot to exactly one preset item: id `preset_<stamp>`, no file, the drawn URL, which is in that slot's list. Other slots and the profile are untouched, and caps are preserved |
| WardrobeEdits.RandomizeProfile | App.tsx:122-131 | A draw that is absent or the empty string (always so with no presets) leaves the state unchanged. A truthy draw becomes the profile preview and the uploaded profile file is dropped. The wardrobe is untouched |
| WardrobeEdits.ShuffledProfileIsUsable | App.tsx:122-131 | With a non-empty list of non-empty profile URLs, a profile shuffle always yields a profile that passes the pre-flight check |
| WardrobeEdits.ShuffledSlot | App.tsx:113-117 | A slot's content after a full shuffle holds one item exactly when its draw is truthy: id `preset_<letter>_<stamp>`, no file, the drawn URL from the slot's own list. Otherwise the slot is empty |
| WardrobeEdits.RandomizeAll | App.tsx:100-120 | There is no profile file, and the profile preview is the profile draw as it is: absent exactly when the profile list is empty, otherwise drawn from it. Each slot holds exactly one preset item when its draw is truthy (id `preset_<letter>_<its stamp>`, the drawn URL, no file) and is empty otherwise, so it is empty when its list is. The result is within caps whatever the prior state |
| WardrobeEdits.WithoutAppend | App.tsx:190 | Filtering by id distributes over concatenation |
| WardrobeEdits.AddThenRemove | App.tsx:170-193 | Removing a just-added item by its fresh id restores the previous state, whether or not the slot was full |
| WardrobeEdits.RemoveIdempotent | App.tsx:185-193 | Removing an id twice equals removing it once |
| Quota.LoadQuota | App.tsx:69-89 | A record dated today yields its count and is kept. An absent, unparseable or differently dated record yields 0. In every case the store ends as `{today, count}` |
| Quota.IncrementLimit | App.tsx:156-161 | The count becomes exactly the previous count + 1, and the store holds `{today, count + 1}` |
| Quota.LoadIdempotent | App.tsx:69-89 | A second load on the same day returns and stores the same as the first |
| Quota.IncrementPersists | App.tsx:156-161 | An increment is read back as count + 1 the same day, and as a fresh 0 (rewritten) on any other day |
| Quota.LoadInverse | App.tsx:69-89 | Loading a store that agrees with the in-memory count for today reproduces that state |
| Countdown.Tick | App.tsx:212-217 | With no current value, or a value of at most 1, the next value is 1. Otherwise it is exactly one less. It is always at least 1 and never above a positive previous value |
| Countdown.TicksClosedForm | App.tsx:212-217 | From a start of at least 1, n ticks give start − n, held at 1 |
| Countdown.InitialCountdown | App.tsx:207-217 | From 20, the countdown stays in [1, 20] and is non-increasing. It equals 1 exactly from the 19th tick on |
| Generation.Preflight | App.tsx:196-204 | The attempt proceeds exactly when the count is below 10 and a truthy profile preview exists. An exhausted quota is reported first |
| Generation.Start | App.tsx:195-209 | A rejected attempt changes only the error, to the quota or profile message. An accepted one is in flight with countdown 20 and clears error and image. Profile, wardrobe and quota are untouched |
| Generation.TickSession | App.tsx:211-217 | Only the countdown moves, and only while generating. In flight, it stays in [1, 20] and does not increase |
| Generation.TickSessions | App.tsx:211-217 | After n interval firings in flight, the countdown equals n ticks applied to its start, and nothing else has changed |
| Generation.ErrorText | App.tsx:225 | The displayed failure message is the error's own message when truthy, and the fixed fallback otherwise. It is never empty |
| Generation.Settle | App.tsx:219-230 | The countdown is always cleared and the flag always dropped, and the editing state is untouched. Success stores the image and adds exactly 1 to the quota, persisted for the settle day. Failure stores the message and leaves quota and store unchanged |
| Generation.HandleGenerate | App.tsx:195-231 | Rejections only set the error. An accepted attempt ends with no countdown and not generating. On success the image is set, the error is cleared, and the quota rises by exactly 1, persisted. On failure there is no image, the message is set, and the quota is unchanged. The quota moves by at most 1, only on success, and never past the limit from at or below it |
| Generation.PendingCountdown | App.tsx:206-217 | While the call is pending after n ticks, the session is in flight and the countdown reads max(20 − n, 1) |
| Generation.RejectionIgnoresOutcome | App.tsx:195-204 | A rejected attempt's result does not depend on the remote outcome, the ticks or the date, so no remote call takes part |
| Generation.Run | App.tsx:195-231 | Over any sequence of attempts, the editing state is unchanged. The quota never decreases, rises by at most the number of successes, and never exceeds the limit from at or below it |
| Generation.FailuresKeepQuota | App.tsx:219-230 | Any number of failed attempts leave the count and the stored record unchanged |
| Generation.QuotaCountsSuccesses | App.tsx:156-161 | With a profile set and enough room under the limit, the quota rises by exactly the number of successful attempts |

## Left out

- Rendering, layout, the `SectionTitle` component and the upload, asset-library and collapsible-section widgets: presentation only.
- Dark-mode initialisation and toggling (`App.tsx:46-66`): theme plumbing on the DOM and local storage.
- Setting and clearing the profile photo from the upload widget (`App.tsx:296-297`): inline UI callbacks that only assign the two profile fields.
- `generateOutfit` in `services/geminiService.ts`: image encoding, prompt assembly and the remote call. It is an opaque `Outcome` here.
- The build configuration (`vite.config.ts`).
- Timing: the model has no notion of wall-clock seconds, only of how many interval firings happen before the call settles. The interval is taken to exist exactly while `isGenerating` is true.
- `randomizeWardrobeItem` is only ever called with wardrobe categories. Its behaviour for the `profile` library key, which would add a stray key to the wardrobe, is not modelled.
- JSON decoding: a parsed record is assumed to carry an integer `count`. A parsed value whose `count` is missing or not an integer is not modelled. Text whose parse or destructuring throws (including `null`) is the unparseable case.
- Races between browser tabs on the shared quota record: concurrency.
- Generation.HandleGenerate: storage writes are assumed not to throw. In the source, `incrementLimit` runs inside the `try` (`App.tsx:222`) and raises the in-memory count before writing storage (`App.tsx:159-160`). A write that throws (storage full or disabled) would reach the `catch`: the image would stay set, the count would have risen, the store would keep its old record and the error would show the exception's message. That path is not modelled.
- Generation.HandleGenerate: thrown values are assumed to be objects. A thrown `null` or `undefined` makes `err.message` itself throw inside the `catch` (`App.tsx:225`), leaving the error unset rather than showing the fallback text. That path is not modelled.
- Generation.Settle: the same two assumptions, storage writes that do not throw and thrown values that are objects, apply to the settling step.
- The double-click guard: the Generate button is disabled while generating or when the quota is exhausted (`App.tsx:384`). `HandleGenerate` does not assume this; it models the handler as written.
