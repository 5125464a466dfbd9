# Dice roller core in Dafny

A model of the logic of a browser dice roller. The player picks how many of each
polyhedral die to roll (d4, d6, d8, d10, d12, d20 and d100), rolls them, watches
each die cycle through placeholder faces before it settles on its value, and reads
the total. Rolls are kept in a short history, and named selections can be saved as
presets, both in the browser's `localStorage`.

The project has five modules:

- `Text` (text.dfy): decimal rendering and parsing of integers, and joining strings
  with a separator. JavaScript does both implicitly (template strings,
  `textContent = n`, `parseInt`, `Array.join`).
- `Dice` (dice.dfy, for `js/dice.js`): face generation for the two numbering
  conventions. d10 and d100 are zero-based and every other die is one-based.
  Also `rollMultiple`, `rollAll`, `calculateTotal` and the two formatters.
  `Math.random()` is replaced by injected integer draws: a draw for an N-sided die
  stands for `Math.floor(Math.random() * N)` and lies in `[0, N)`. JavaScript
  objects, which keep insertion order, become association lists.
- `Animation` (animation.dfy, for `js/animation.js`): the reveal of one die as a
  tick state machine and the critical highlight. Also the staggered reveal of a row
  of dice and `createDiceElement`. A page element is a `class` whose text, class
  set and data attributes the methods update in place.
- `App` (app.dfy, for `js/app.js`): the session controller, as a `class` over the
  dice counts, the `isRolling` flag and what the page shows. Covered: the +/-
  handler, clear-all, the roll guard, the results display with its global stagger
  accumulator, and keyboard dispatch. A roll is split at its first `await`.
  `HandleRoll` runs up to the button shake and `ResumeRoll` runs the rest, so other
  events may be handled in between, as in the browser.
- `Storage` (storage.dfy, for `js/storage.js`): the history and preset store over a
  `localStorage` modelled as a map from key to stored text, plus an availability
  flag. Stored text is kept as what `JSON.parse` makes of it: empty, unparsable, or
  a parsed value. `formatRelativeTime` is a pure function of two instants in
  milliseconds and the locale date string.

The code does not validate its inputs, and the model follows it:

- Unknown dice keys and negative counts are not rejected. A negative count rolls
  nothing, and any `"dN"` key, with N written without leading zeros, is rolled as an N-sided die.
- Reveal values are not range-checked.
- The `formatResults` doc comment shows entries separated by `", "`, but the code
  joins them with a vertical bar between spaces. `Dice.ResultsTextExample` proves the code's rendering.

## Model

| member | source | states |
|---|---|---|
| Dice.Name | js/dice.js:40 | A family's key is `d` followed by digits, and `parseInt` of the part after `d` gives back the number of sides |
| Dice.NameInjective | js/dice.js:103 | Distinct families have distinct keys |
| Dice.DrawBound | js/dice.js:13 | The range of draws `Math.floor(Math.random() * sides)` can yield is non-empty and covers every face index |
| Dice.RollDie | js/dice.js:12-14 | For a draw in `[0, sides)`, `rollDie(sides)` lies in `1..sides` (tested at js/dice.js:132-152) |
| Dice.RollD10 | js/dice.js:20-22 | A d10 roll lies in `0..9` (tested at js/dice.js:155-170) |
| Dice.RollD100 | js/dice.js:28-30 | A d100 roll lies in `0..99` (tested at js/dice.js:172-189) |
| Dice.Face | js/dice.js:43-49 | The branch `rollMultiple` takes per die yields a face in the family's range: `0..sides-1` for d10 and d100, `1..sides` for every other family |
| Dice.FaceOnto | js/dice.js:43-49 | Every face in the family's range comes from exactly one draw, so no face is unreachable or produced twice |
| Dice.RollMultiple | js/dice.js:38-52 | Returns exactly `max(count, 0)` values, each in the family's face range, the i-th rolled from the i-th draw (tested at js/dice.js:230-238) |
| Dice.CountOfMissing | js/dice.js:106 | A family without a key reads as count 0, as `undefined > 0` is false |
| Dice.CountOfAt | js/dice.js:106 | With distinct keys, looking up an entry's family gives that entry's count |
| Dice.CountOfPresent | js/dice.js:106 | A family whose entries all carry count n reads as n |
| Dice.CountOfReordered | js/dice.js:106 | Reordering the keys of a configuration does not change any looked-up count |
| Dice.Lookup | js/dice.js:64 | A result has a value for a family exactly when one of its entries is for that family |
| Dice.Shape | js/dice.js:62-65 | The (family, count) list of a result, one entry per result entry, in order |
| Dice.Positive | js/dice.js:63 | The configuration entries with a positive count, and only those |
| Dice.RolledAllShape | js/dice.js:59-68 | `rollAll` keeps the key order, has an entry exactly for each configuration entry with a positive count, and that entry has as many values as the count |
| Dice.RolledAllKeys | js/dice.js:59-68 | A family is a key of the result iff its count is positive, so zero-count families are absent rather than empty, and then it has exactly count values |
| Dice.RolledAllInRange | js/dice.js:59-68 | Every value of every entry of `rollAll` lies in its family's face range |
| Dice.RollAll | js/dice.js:59-68 | The loop builds `RolledAll`, one `rollMultiple` per positive count |
| Dice.SumAppend | js/dice.js:78 | The sum of a concatenation is the sum of the sums |
| Dice.Flatten | js/dice.js:77-78 | All values of a result, entry after entry, as many as there are dice |
| Dice.TotalIsSumOfAllValues | js/dice.js:75-81 | The per-entry totals add up to the sum of all values across all entries |
| Dice.TotalAppend | js/dice.js:75-81 | The total of two results put together is the sum of their totals |
| Dice.NumDiceAppend | js/app.js:160-185 | The number of dice in two results put together is the sum of their numbers of dice |
| Dice.NumDiceSnoc | js/app.js:160-185 | One more entry adds its number of values to the number of dice |
| Dice.CalculateTotal | js/dice.js:75-81 | The accumulated total is the sum of every value in every entry, and 0 for an empty result |
| Dice.TotalExamples | js/dice.js:244-251 | `{d6:[3,4], d10:[7]}` totals 14, `{d20:[20]}` totals 20 and `{}` totals 0 |
| Dice.ValueTextsReadBack | js/dice.js:91 | `rolls.join` renders one text per value, in order, and each text reads back as its value: the digits of a non-negative value, a minus sign before the digits of a negative one |
| Dice.EntryTextsSnoc | js/dice.js:90-92 | Each loop iteration appends the next entry's part |
| Dice.ResultsText | js/dice.js:88-94 | An empty result renders as the empty string, and otherwise the text starts with the first entry's part |
| Dice.FormatResults | js/dice.js:88-94 | The loop and join produce `ResultsText` |
| Dice.ResultsTextAppend | js/dice.js:88-94 | The text of two non-empty results put together is their two texts joined by the entry separator (space, vertical bar, space) |
| Dice.SelectionPart | js/dice.js:108 | A `"{count}{type}"` part starts with a digit |
| Dice.SelectionPartsFacts | js/dice.js:105-110 | No part is produced iff no family in the order has a positive count, and every part starts with a digit |
| Dice.SelectionPartsEmpty | js/dice.js:105-110 | No part is produced iff every family in the order has a count of at most 0 |
| Dice.SelectionPartsDigits | js/dice.js:105-110 | Every produced part starts with a digit |
| Dice.SelectionPartsPrefix | js/dice.js:105-110 | One more family in the order appends its part exactly when its count is positive |
| Dice.CollectSelectionParts | js/dice.js:102-110 | The loop over the canonical order collects exactly `SelectionParts` |
| Dice.FormatSelection | js/dice.js:101-112 | The summary is the collected parts joined by `" + "`, or the sentinel when there are none |
| Dice.SelectionSentinel | js/dice.js:111 | The summary is `"No dice selected"` iff no canonical family has a positive count; a real selection can never read as the sentinel |
| Dice.SelectionIgnoresKeyOrder | js/dice.js:101-112 | The summary does not depend on the key order of the configuration |
| Dice.SelectionPartsSameCounts | js/dice.js:105-110 | Configurations that agree on every count have the same parts |
| Dice.CanonicalNames | js/dice.js:103 | The canonical order's keys are `d4, d6, d8, d10, d12, d20, d100` |
| Dice.SelectionAllZeroExample | js/dice.js:263-266 | All-zero counts give `"No dice selected"` |
| Dice.EntryTextExamples | js/dice.js:91 | `d6: [3, 5]` and `d20: [17]` render as in the doc comment |
| Dice.TwoValuesText | js/dice.js:91 | `[3, 5].join(', ')` is `"3, 5"` |
| Dice.ResultsTextExample | js/dice.js:86-93 | `{d6:[3,5], d20:[17]}` renders as the two entries `d6: [3, 5]` and `d20: [17]` joined by the entry separator (space, vertical bar, space) |
| Text.ParseNatToString | js/animation.js:167 | Reading a natural number's decimal text back gives the number, so the die's `data-final-value` holds its value |
| Text.IntToStringReadBack | js/dice.js:91 | The decimal text of any integer reads back as that integer, with a minus sign exactly when it is negative |
| Text.JoinAppend | js/dice.js:93 | Joining two non-empty lists of parts is joining each and separating the two by one separator |
| Animation.Cycles | js/animation.js:40 | `floor(CYCLE_DURATION / CYCLE_INTERVAL)` is 4, and 4 frames fit in the cycling budget |
| Animation.TimingBudget | js/animation.js:8-12 | SHAKE 300, CYCLE 200, STAGGER 50, and shake plus cycling plus bounce is under one second (tested at js/animation.js:220-228) |
| Animation.Element.CreateDiceElement | js/animation.js:163-170 | A new die shows `"?"` with the die classes and stores its family and final value, which parses back to the value (tested at js/animation.js:234-238) |
| Animation.Highlighted | js/animation.js:77-88 | Any family but d20 keeps its classes. For a d20, success is present iff the value is 20, failure iff it is 1, and all other classes are kept |
| Animation.CriticalExactly | js/animation.js:77-88 | On an unmarked die, success appears iff it is a d20 showing 20, failure iff a d20 showing 1, and never both (tested at js/animation.js:196-217) |
| Animation.HighlightCritical | js/animation.js:77-88 | The class set becomes `Highlighted` of the old one; text and data attributes are untouched |
| Animation.PlaceholderIsFace | js/animation.js:48-49 | With `min` from the zero-indexed flag, a cycling placeholder equals the face the same draw rolls, and the placeholder range is the family's face range |
| Animation.ShowNumberCycling | js/animation.js:37-69 | At most 4 placeholders, each in `[min, min + maxValue)`, then the final value shown with the bounce class and exactly one completion, whatever the clock does |
| Animation.AnimateDieResult | js/animation.js:98-117 | Starts after the delay (none when not positive), shows only faces of the die's family, ends showing the value, with the critical highlight applied after cycling |
| Animation.StartReveals | js/animation.js:126-137 | Element i starts after `firstDelay + i * 50` ticks and ends revealed with value i; the elements not yet reached are untouched |
| Animation.AnimateAllDice | js/animation.js:126-137 | Element i gets delay `i * STAGGER_DELAY` and every element ends revealed with its value |
| App.Step | js/app.js:60-64 | An increase below 99 adds one, a decrease above 0 subtracts one, and anything else leaves the count. Counts stay in `0..99` |
| App.Adjusted | js/app.js:55-64 | A +/- click changes only the clicked family's entry and keeps every count in `0..99` |
| App.CountOfAdjusted | js/app.js:60-64 | After a click, the clicked family's count has taken one step, every other family reads as before, and a family without a key changes nothing |
| App.AdjustedAtBound | js/app.js:60-64 | An increase at 99 or a decrease at 0 is a no-op |
| App.Cleared | js/app.js:93-97 | Clear-all keeps every key and its order and sets each count to 0 |
| App.ClearedSelectsNothing | js/app.js:93-98 | After clear-all every count reads 0, nothing is selected and the summary is the sentinel |
| App.AnySelectedIffSummary | js/app.js:104-106 | For the canonical families, some count is positive iff the summary is not the sentinel |
| App.CountOfZeroPrefix | js/app.js:94-96 | After the clear loop has zeroed entries 0..i, entry i's family reads 0 |
| App.AdjustedShown | js/app.js:55-68 | A click followed by the two display updates keeps the counts in range and the labels and summary showing the new counts |
| App.CountsAdjusted | js/app.js:55-64 | On the canonical configuration, a click steps the clicked family's count and no other |
| App.LabelsAdjusted | js/app.js:66 | Refreshing only the clicked family's label gives the labels of the new counts |
| App.ClearedShown | js/app.js:93-99 | After clear-all, all labels showing 0 and the sentinel summary are the display of the cleared counts |
| App.CreateRow | js/app.js:161-175 | The row carries the `"{type}:"` label and one new, distinct die per value, each hidden with its value in its data |
| App.RevealRow | js/app.js:180-185 | The row's dice are revealed with delays continuing from the running delay in steps of 50, and the row then shows its entry |
| App.BuildRow | js/app.js:160-185 | Building and revealing one family's row shows that entry, with one delay per die continuing from the running delay |
| App.AddRow | js/app.js:160-185 | Adding a family's row keeps the rows showing the result so far, and the k-th die overall keeps delay `k * 50` |
| App.RevealAll | js/app.js:157-186 | The rows show the whole result, and the k-th die over all families, in iteration order, gets delay `k * STAGGER_DELAY` |
| App.StaggerContinues | js/app.js:184 | A row whose delays start at the running delay extends the sequence `k * 50` |
| App.ShowsSnoc | js/app.js:160-186 | Rows showing a result, plus a row showing one more entry, show the longer result |
| App.KeyAction | js/app.js:229-243 | INPUT or TEXTAREA targets and repeats are ignored. Otherwise Space or Enter rolls, Escape clears, and nothing else does either |
| App.AppState.Init | js/app.js:8-28 | Starts with every count 0, no roll in progress, the sentinel summary and no results |
| App.AppState.HasDiceSelected | js/app.js:104-106 | True iff some canonical family has a positive count, iff the summary is not the sentinel |
| App.AppState.UpdateCountDisplay | js/app.js:73-78 | Only the label of `t` is refreshed, to `t`'s current count |
| App.AppState.UpdateSelectionDisplay | js/app.js:83-88 | The summary shows `formatSelection` of the current counts |
| App.AppState.HandleDiceButton | js/app.js:55-68 | Steps the clicked family's count and no other, keeps all counts in `0..99` and keeps the labels and summary in step |
| App.AppState.ClearAll | js/app.js:93-99 | Zeroes every count, refreshes every label and shows the sentinel summary |
| App.AppState.ClearCounts | js/app.js:94-97 | The loop zeroes every entry and sets every existing label to 0 |
| App.AppState.ShowMessage | js/app.js:199-206 | The results section shows the message and the total shows a dash |
| App.AppState.HandleRoll | js/app.js:111-125 | While a roll is in progress, nothing changes. Without a selected die, the message is shown, no roll starts and the button is left as it was. Otherwise the roll starts with the button disabled and relabelled, and the results section and total are left as they were |
| App.AppState.ResumeRoll | js/app.js:127-137 | The rest of the roll: the displayed rows show exactly the rolled result, the total text is that result's sum with the bounce class added, and the guard and button are restored |
| App.AppState.RollAndShow | js/app.js:128-137 | Rolls the counts, displays that same result and its total with the bounce class added, then re-enables the button |
| App.AppState.EndRoll | js/app.js:134-137 | Clears `isRolling` and restores the button without touching the displayed rows |
| App.AppState.DisplayResultsAnimated | js/app.js:143-194 | The section becomes visible, the rows show the result with the k-th die delayed by `k * 50`, and only then is the total set with its bounce class |
| App.AppState.ShowTotal | js/app.js:192-193 | The total text becomes the total and gets the bounce class |
| App.AppState.HandleKeyboard | js/app.js:229-243 | Prevents the default action iff the key is not ignored, and ignored keys change nothing. Space or Enter has the effects of `HandleRoll` (nothing while rolling, the message when nothing is selected, otherwise a started roll) and leaves the counts and their display. Escape has the effects of `ClearAll` and leaves the roll flag, the button, the results section and the total |
| App.RollAndTotal | js/app.js:128-129 | The total is computed from the very result that was rolled |
| App.InitialShown | js/app.js:8-16 | The initial all-zero counts are already cleared, and all-zero labels with the sentinel summary display them |
| App.DistinctOrder | js/app.js:8-16 | The canonical configuration has distinct keys, all canonical |
| Storage.HistoryOf | js/storage.js:61-76 | Loading gives an empty history when the key is missing or the text does not parse, and a non-empty history only when an array is stored |
| Storage.PresetsOf | js/storage.js:132-145 | Loading gives no presets when the key is missing, and presets only when an object is stored |
| Storage.Pushed | js/storage.js:43-49 | The new entry is first and the previous ones follow in order; the length grows by one up to 20, so a history of at most 20 stays at most 20 |
| Storage.Store.constructor | js/storage.js:6-9 | A store with the given availability and contents |
| Storage.Store.IsLocalStorageAvailable | js/storage.js:15-24 | Reports availability; a working store is left as it was apart from the test key |
| Storage.Store.LoadHistory | js/storage.js:61-76 | Returns `HistoryOf` the store, or `[]` when unavailable. Unparsable history is removed from the store |
| Storage.Store.ClearHistory | js/storage.js:81-89 | Removes the history key, and changes nothing when the store is unavailable |
| Storage.Store.SaveRoll | js/storage.js:30-55 | Writes back the loaded history with the new entry pushed, and changes nothing when the store is unavailable |
| Storage.Store.LoadPresets | js/storage.js:132-145 | Returns `PresetsOf` the store, or no presets when unavailable |
| Storage.Store.SavePreset | js/storage.js:116-126 | Writes back the loaded presets with `name` set, and changes nothing when the store is unavailable |
| Storage.Store.RemovePreset | js/storage.js:151-161 | Writes back the loaded presets without `name`, and changes nothing when the store is unavailable |
| Storage.SaveThenLoad | js/storage.js:30-51 | Loading after a save gives the new entry first, then the previously stored entries in their order |
| Storage.ClearThenLoad | js/storage.js:81-89 | Loading after clearing gives `[]` (tested at js/storage.js:232-240) |
| Storage.LoadHistoryStable | js/storage.js:61-76 | Loading does not change what the next load returns. Corrupt history is removed, and otherwise the store keeps all but the test key |
| Storage.LatestPushed | js/storage.js:43-49 | If a history holds the latest saves newest first, one more push keeps that true, capped at 20 |
| Storage.SavedAllHistory | js/storage.js:30-55 | From an empty history, any sequence of saves leaves the newest `min(n, 20)` entries, newest first |
| Storage.TwentyFiveSaves | js/storage.js:211-230 | After 25 saves there are 20 entries: the first has total 25 and the last total 6 |
| Storage.SaveAfterClear | js/storage.js:188-209 | After clear and one save of `"2d6 + 1d20"` with total 23, loading gives exactly that entry |
| Storage.SavePresetThenLoad | js/storage.js:116-126 | After a save, the presets are the old ones with `name` set, and every other preset is unchanged |
| Storage.RemovePresetThenLoad | js/storage.js:151-161 | After a removal, `name` is gone and every other preset is unchanged |
| Storage.KeysIndependent | js/storage.js:7-8 | Preset operations leave the history, and history operations leave the presets |
| Storage.FormatRelativeTime | js/storage.js:96-109 | Under 10 s of difference (including a negative one) gives "just now", a day or more gives the locale date, and anything between is a count starting with a digit followed by `" ago"` |
| Storage.RelativeTimeBuckets | js/storage.js:96-109 | Under 10 s gives "just now", then floored seconds, minutes and hours up to a day, then the locale date |
| Storage.RelativeTimeExamples | js/storage.js:258-269 | 5 s ago is "just now", 2 min ago is "2m ago" and 1 h ago is "1h ago" |

## Left out

- `Math.random` and its distribution. Draws are an injected integer source in `[0, sides)`, and uniformity is not provable here. The distribution tests (js/dice.js:191-225) are not restated.
- Timers, `requestAnimationFrame`, `performance.now` and Promise scheduling are not modelled. Reveals run one after the other, and each one's start tick is returned instead of awaited. Whether the cycling budget has run out is an arbitrary boolean. Because reveals of distinct dice touch disjoint elements, this gives the state their interleaving gives.
- The `animate-pop` class that each cycling frame adds and removes 40 ms later is not modelled. It is styling, and no other code reads it.
- DOM construction and styling, `innerHTML`, the results-section elements as objects, `bindEvents`, the button shake (`shakeButton`) and the coin flip (`handleCoinFlip`, `animateCoinFlip`) are UI plumbing and not modelled. The shake is the split point between `HandleRoll` and `ResumeRoll`.
- JSON is modelled as parse outcomes (empty text, unparsable text, array, object, null, other scalar), assuming that `JSON.stringify` followed by `JSON.parse` gives the value back. A stored array whose elements are not roll records is not distinguished.
- `localStorage` failures other than complete unavailability are not modelled, such as a `setItem` that throws on a full quota. In the source they are caught and logged.
- `Date`, `toISOString` and `toLocaleDateString` become parameters. Invalid dates (`NaN` differences) are not modelled.
- Storage.PresetsOf: a stored JSON array under the presets key loads as no presets. The source returns the array itself, because `typeof [] === 'object'`.
- Storage.Store.LoadPresets: the same array case as `Storage.PresetsOf`.
- Storage.Store.SavePreset: when a JSON array is stored under the presets key, the model writes an object holding only the new preset. The source sets a named property on the array, which `JSON.stringify` drops, so it writes the array back unchanged and the preset is lost.
- Storage.Store.RemovePreset: when a JSON array is stored under the presets key, the model writes an empty object. The source writes the array back unchanged.
- Storage.SavePresetThenLoad: its promise that the saved preset is then present does not hold in the source when a JSON array is stored under the presets key, for the reason given for `Storage.Store.SavePreset`.
- Storage.RemovePresetThenLoad: when a JSON array is stored under the presets key, the source leaves the array in place, while the model states the empty preset map.
- The session invariant assumes the configuration holds the seven canonical keys in order, as the initial `diceConfig` does. `HandleDiceButton` keeps it for any family: a family without a key leaves the configuration unchanged (`App.CountOfAdjusted`).
- Keys that are not `d` followed by the digits of a number without leading zeros, such as `"d010"` or `"dx"`, cannot be written as a dice family. The source's `rollAll` would roll them too, with `NaN` values for `"dx"`.
- Counts are integers. Non-numeric or fractional counts cannot arise from the +/- buttons.
- The `formatSelection` test with `{d6:2, d10:1, d20:1}` (js/dice.js:257-261) is not restated as a lemma. `Dice.SelectionAllZeroExample` and the general lemmas cover the formatter.
- That the total is set only after every reveal holds by the order of statements in `DisplayResultsAnimated`, not by a separate lemma.
- The console test objects (`DiceTests`, `AnimationTests`, `StorageTests`) are not modelled. Their assertions are restated as the example lemmas above.
