# Life OS state store, modelled in Dafny

Life OS is a single-page personal tracker. Its daily page holds focus tags,
three tasks, a spiritual anchor and a daily win. Its weekly blueprint holds one
note per weekday, and its monthly page holds a five-item checklist and four
reflection prompts. Every change to an input rebuilds one snapshot of all
these fields and writes it to local storage under `lifeOSData`. At startup the
snapshot is read back into the fields. Four completion gauges (daily, weekly,
monthly, spiritual) are derived from the live fields, and each is painted with
a colour band.

This project models that state store over plain values instead of the DOM:

- `State.UiState` is the live page. It holds the element lists in document
  order (focus checkboxes, day-note areas, checklist checkboxes, prompt areas)
  and the single fields. An empty list means the elements have not been
  created yet.
- `State.Snapshot` is the persisted document. It has `Option` sections and
  fields, mirroring the truthiness checks of `loadData`.
- `Store.Save` and `Store.Load` are `saveData` and `loadData`.
  `Store.SetupWeeklyBlueprint` and `Store.SetupMonthlyChecklist` build the
  weekly and monthly elements. `Store.InitAsWritten` and `Store.InitCorrected`
  are the startup sequence.
- The `Metrics` module holds the four gauges and `getCompletionColor`.
  Percentages are computed exactly on integers: `Math.round(n / d * 100)` is
  `(200·n + d) / (2·d)`.
- `JsText` holds JavaScript's `trim` (the ECMAScript WhiteSpace and
  LineTerminator code points), `toLowerCase` on the ASCII labels, and the
  checklist slug `item.toLowerCase().replace(/ /g, '-')`.

The storage slot is a parameter, `Option<Snapshot>`. The focus tags live in
markup the script does not contain, so their values are a parameter too: at
most five, all distinct.

Two behaviours of the code are easy to misread:

- A persisted task that is falsy (`""`, or missing from the array) clears its
  slot, because tasks load with `tasks[i] || ''`. So a persisted `""` first
  task empties a filled `task1` (`FalsyTaskClearsSlot`). Anchor, win, day notes and prompts
  really are left untouched by a falsy value.
- At startup the weekly notes and checklist are never restored (see
  Findings). The round trip holds for the corrected startup order.

Some functions are helpers whose properties are stated through the rows
that use them: `Store.LoadDaily` and `Store.LoadMonthly` (the `daily` and
`monthly` halves of `loadData`, stated through `Store.Load`), and
`Layout.DayKeys` and `Layout.Slugs` (the derived keys, stated through
`Layout.DayKeysSpelled` and `Layout.SlugsDistinct`).

## Model

| member | source | states |
|---|---|---|
| JsText.Trim | app.js:253-257 | `trim` cuts a prefix and a suffix made only of whitespace and line terminators, keeps the contiguous piece between them, and that piece neither starts nor ends with one, so nothing more could be cut |
| JsText.TrimEmptyIffBlank | app.js:253 | `v.trim() === ''` holds exactly when every code point of `v` is whitespace or a line terminator, so the blank test used by every gauge treats "" and whitespace-only values as empty |
| JsText.Slug | app.js:139 | a slug has the item's length; at each position a space becomes `-`, an ASCII capital its small letter, and any other code point stays |
| JsText.SlugIdempotent | app.js:139 | deriving a slug from a slug changes nothing |
| Layout.DayKeysSpelled | app.js:93-116 | the `data-day` keys are the lower-cased day names "monday" … "sunday", in table order, and are pairwise distinct |
| Layout.SlugsDistinct | app.js:126-139 | the five checklist slugs are pairwise distinct and contain no space |
| Store.CheckedValues | app.js:213 | the saved tag list holds exactly the values of the checked boxes (a value is listed iff some checked box carries it); it is empty iff nothing is checked and as long as the box list iff everything is |
| Store.CheckedValuesCount | app.js:255 | the list has one entry per checked box, so its length is the `:checked` count the daily and monthly gauges use |
| Store.NotesToMap | app.js:229-233 | the saved `weekly` object's keys are exactly the notes' day keys, and each key maps to the text of the last note carrying it |
| Store.Save | app.js:210-233 | the snapshot is a full overwrite: all three sections are present, tasks are exactly `[task1, task2, task3]` in order, anchor, win and prompts are copied, the focus tags and checklist values are exactly the checked boxes' values (Store.CheckedValues), and with distinct day keys each day note is stored under its key |
| Store.CheckFirst | app.js:158-159 | only the first box carrying the tag is checked; nothing is unchecked and no value changes |
| Store.LoadFocus | app.js:156-161 | after the focus loop a box is checked iff it was checked, or its value is listed and it is the first box with that value; unknown tags change nothing |
| Store.LoadChecklist | app.js:190-197 | a checklist box is checked afterwards iff it was checked or the persisted list includes its value; nothing is unchecked |
| Store.KeepUnlessTruthy | app.js:169-175 | a text field takes the persisted value when it is truthy, and otherwise keeps its current text |
| Store.TaskOrEmpty | app.js:164-166 | a task slot takes the persisted entry at its index, or "" when the array is too short |
| Store.LoadWeekly | app.js:179-186 | each day note keeps its key and takes the persisted note for that key only when it is truthy |
| Store.LoadPrompts | app.js:199-205 | prompt area i takes persisted `prompts[i]` only when it exists and is truthy |
| Store.Load | app.js:148-207 | an empty slot changes nothing; no element is added or removed; boxes are only ever checked, never unchecked; the anchor, win, day notes and prompts change only to a truthy persisted value; a present task array overwrites all three tasks, a falsy or missing entry clearing its slot, and an absent one leaves them alone |
| Store.SetupWeeklyBlueprint | app.js:103-120 | the week grid is replaced by seven empty notes keyed by day, and nothing else changes |
| Store.SetupMonthlyChecklist | app.js:134-144 | five unchecked slug-valued boxes are appended after the existing checklist, and nothing else changes |
| Store.Fresh | app.js:91-145 | the page after both setup steps is well formed and entirely empty or unchecked |
| Store.InitAsWritten | app.js:21-28 | with `loadData` before the setup steps, every day note starts blank and every checklist box unchecked, whatever the slot holds |
| Store.InitCorrected | app.js:21-28 | with the setup steps first, an empty slot gives the fresh page and the result keeps the page's markup and well-formedness |
| Metrics.NonBlank | app.js:249-253 | a value is kept iff its trim is non-empty (both directions); the count is 0 iff all are blank and the full length iff none is |
| Metrics.NonBlankCount | app.js:253 | the `.length` of the filter is the number of positions whose value is not blank |
| Metrics.RoundPercent | app.js:261 | the percentage is the nearest integer to 100·n/d, with a half rounding up; it is at most 100 when n ≤ d and is 0 iff 200·n < d |
| Metrics.DailyPercent | app.js:249-261 | the daily gauge rounds (filled tasks + checked tags + anchor + win)·100/10; with at most five tags it lies in 0..100, it is 0 iff nothing is filled, and with five tags it is 100 iff everything is |
| Metrics.WeeklyPercent | app.js:267-268 | the weekly gauge rounds 100·(non-blank notes)/7; it lies in 0..100 for seven notes, is 0 iff all notes are blank, and is 100 iff none is |
| Metrics.MonthlyPercent | app.js:274-278 | the monthly gauge rounds 100·(checked items + non-blank prompts)/9; it lies in 0..100 for nine fields, is 0 iff nothing is filled, and is 100 iff everything is |
| Metrics.SpiritualPercent | app.js:284 | the spiritual gauge is 0 or 100, and it is 100 exactly when the anchor is not blank |
| Metrics.CompletionColor | app.js:289-293 | red below 30, yellow from 30 up to but not including 70, green from 70; each boundary falls in the higher band |
| Metrics.Completion | app.js:247-287 | each gauge shows its own section's percentage (daily, weekly, monthly, spiritual) and is painted with that percentage's band; on a well-formed page all four lie in 0..100, and the spiritual gauge is never yellow |
| StoreProperties.LoadFocusDistinct | app.js:156-161 | when the focus values are distinct, a box ends up checked iff it was checked or its value is listed |
| StoreProperties.RoundTrip | app.js:148-233 | saving a well-formed page and loading the snapshot into a freshly built page with the same tags reproduces every field |
| StoreProperties.NotesRestore | app.js:179-186 | the `weekly` object saved from notes with distinct keys, loaded into empty notes with the same keys, gives those notes back, empty notes included |
| StoreProperties.RoundTripFields | app.js:163-175 | the round trip restores the three tasks, the anchor and the win |
| StoreProperties.RoundTripKeepsGauges | app.js:210-237 | after the round trip the gauges are those of the saved page, and saving again writes the same snapshot |
| StoreProperties.SaveWeeklyKeys | app.js:229-233 | on a well-formed page the saved `weekly` keys are exactly the seven lower-case day names |
| StoreProperties.InitAsWrittenRestoresDaily | app.js:21-28 | the startup as written still restores the focus tags, tasks, anchor, win and prompts exactly as the corrected order does |
| StoreProperties.InitAsWrittenLosesWeek | app.js:21-28 | the startup as written brings a saved Monday note "plan" back blank and a checked checklist item back unchecked |
| StoreProperties.LoadIdempotent | app.js:148-207 | loading the same slot twice gives the same page as loading it once |
| StoreProperties.FalsyTaskClearsSlot | app.js:163-171 | a persisted "" first task clears a filled first task, while a persisted "" anchor keeps the filled anchor |
| StoreProperties.RoundPercentMonotone | app.js:261 | a larger count never gives a smaller percentage |
| StoreProperties.NoHalfwayPercent | app.js:261 | for the denominators 7, 9 and 10, 100·n/d is never halfway between two integers, so floating-point `Math.round` gives the same integer |
| StoreProperties.CompletionColorMonotone | app.js:289-293 | a higher percentage never gets a lower band |
| StoreProperties.SamplePercents | app.js:259-261 | 6 of 10 gives 60 (yellow), 4 of 7 gives 57, 5 of 9 gives 56; 29 is red, 30 and 69 are yellow, 70 is green |

## Findings

| source | as written | input that shows it | evidently intended | confidence | as-written member | corrected member |
|---|---|---|---|---|---|---|
| app.js:21-28 | `init` calls `loadData` before `setupWeeklyBlueprint` and `setupMonthlyChecklist`. The `.day-notes` areas and checklist boxes do not exist yet when `loadData` runs, and `setupWeeklyBlueprint` then clears the week grid anyway. | A stored snapshot saved from a page whose Monday note is "plan" and whose first checklist item is checked. After startup the note is blank and the item is unchecked, and the next save writes those blanks back. | Build the weekly and monthly elements first, then load, so every saved field is restored. | high for the weekly notes; the checklist case assumes the checklist markup starts empty; not executed | Store.InitAsWritten, StoreProperties.InitAsWrittenLosesWeek | Store.InitCorrected, StoreProperties.RoundTrip |

## Left out

- Service worker (`sw.js` and its registration at app.js:306-314): a cache-first wrapper over the browser Cache API and `fetch`, with no logic of its own.
- Tab and card navigation, the modal and the quick-action stubs (app.js:41-88, 296-300): presentation with nothing to state.
- Dates and clocks (app.js:14-19, 241-244): locale- and clock-dependent text.
- `localStorage` and JSON (app.js:149-152, 235): the slot is `Option<Snapshot>`. An empty-string slot, malformed JSON, a `null` document and non-string JSON values are not modelled.
- The gauge writes (`textContent`, `style.background`) become the `Metrics.Gauge` values. The event wiring (every input change runs `saveData`, which ends by recomputing the gauges) is not modelled as a loop.
- Book and contact lists: their add operations are not part of this source.
- The weekly themes and the checklist label text are display content. Only the derived day keys and slugs are modelled.
- The focus selector `input[value="${area}"]` is built by string interpolation. A persisted tag containing `"` or `\` is parsed as CSS, so it may throw, match nothing, or check a different box; the model matches tags by plain value equality.
- `toLowerCase` is modelled on ASCII letters only, which covers every label it is applied to.
- Metrics.DailyPercent: the 0..100 bound is stated only for pages with at most five focus checkboxes, because the count of focus tags lives in markup this model does not contain.
- Layout.SlugsDistinct: the five slugs are characterised position by position through JsText.Slug and proved distinct; the spelled-out slug strings are not stated as literals.
