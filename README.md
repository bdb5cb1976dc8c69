# pixelfit: a model of the game rules and the client-side store

pixelfit is a browser fitness game. A pixel pet grows happier when it is fed or played with, and this costs credits. Credits are earned by logging progress on custom tasks ("challenges") and by weighing in. Missed weigh-ins can be back-filled for a smaller reward. All game state lives in one in-memory record, `appState`, kept by `db.js`. It holds:

- a settings dictionary (credits, the pet, the last activity, per-challenge boss states);
- weight logs;
- challenges;
- activity logs.

This project models that store together with the rules `app.js` builds on it.

Modules, in dependency order:

- `Options`: the `Option` type. `None` stands for JavaScript `null`, and for the `NaN` that `parseInt`/`parseFloat` return on unparsable input.
- `Seqs`: generic `Filter` (JavaScript's `Array.prototype.filter`) and `Map`, with these lemmas:
  - occurrence counts are kept;
  - order is kept, as a subsequence;
  - filtering distributes over concatenation;
  - entry i of a mapped sequence is `f` of entry i.
- `Calendar`: `getTodayKey`'s `YYYY-MM-DD` formatting. This covers `String(n)`, `padStart(2, '0')` and a parser. The parser shows that the key determines the date.
- `Db`: the datatypes of `db.js` and one pure transition function per store operation. Each function's contract states the new state and what stays unchanged. The class `Db.Store` holds the four parts of `appState` as fields. Its methods update those fields in place, and each method is proved equal to the matching transition function.
- `App`: the rules of `app.js`.
  - Each handler is a pure step function on the state, returning the new state and an `Outcome`: applied, declined by its guard, or aborted by a `TypeError`. Each handler also has a method that performs the same steps through the `Db.Store` calls, proved equal to its step function.
  - `findMissingWeighIns` is a `while` loop over day numbers.
  - Also modelled: the task card values of `renderTasks`, the chart series of `updateWorkoutChart`, and the class decision of `updateScrollMask`.

JavaScript semantics that matter here are written out:

- Only `null` and `0` among the stored values are falsy. So `getSetting` returns null for a stored credits of 0.
- `parseInt(x) || 50` falls back to 50 on both 0 and NaN.
- A filter argument of `null`, `""` or `0` switches that filter off.
- `startsWith` is the prefix relation on strings.
- `Math.min`, `Math.max` and `Math.abs` are written as conditionals.
- XP, weights and percentages are exact reals.

Time is a parameter:

- `Date.now()` is an integer `now`.
- The local date is a `CalendarDate` triple.
- `toISOString` and `toLocaleTimeString` results are strings passed in.
- `findMissingWeighIns` works on day numbers.

`tests/test_happiness.py` simulates a segment-based happiness decay that its comments attribute to `app.js`. `app.js` has no decay, and leveling is the flat rule at app.js:420-428. The model follows `app.js`.

## Model

| member | source | states |
|---|---|---|
| Db.GetSetting | db.js:72-74 | The result is null exactly when the key is missing or its value is falsy, so a stored 0 also reads as null; otherwise it is the stored value. |
| Db.SetSetting | db.js:76-77 | The key now holds the value, and reads back as it unless the value is falsy. Every other key and all three lists are unchanged. |
| Db.CreditsAdded | db.js:92-94 | Credits become the old balance, with a missing or zero balance read as 0, plus the amount. Nothing else changes. |
| Db.ChallengeAdded | db.js:105-116 | Exactly one challenge is appended. It has id `now`, the given name and goal, and a boss with hp 100, maxHp 100 and level 1. Earlier entries and everything else are unchanged. |
| Db.FindIndex | db.js:132-133 | If some challenge has the id, the result is the FIRST such index. Otherwise it is none, and no challenge has that id. |
| Db.Merge | db.js:137 | Each field of `{...task, ...updates}` comes from the update when the update has it, and from the task otherwise. |
| Db.ChallengeUpdated | db.js:131-138 | An id not present leaves the state unchanged. The length stays the same. Only the first matching index is replaced, by the merge; every other index and the other parts of the state are unchanged. |
| Db.ChallengeDeleted | db.js:158-159 | No remaining challenge has the id. Every other challenge keeps all its occurrences, and they stay in their original order as a subsequence. |
| Db.WeightLogAdded | db.js:179-185 | Exactly one weight log is appended, holding the weight, the date, id `now` and timestamp `now`. Everything else is unchanged. |
| Db.ActivityLogAdded | db.js:213-219 | Exactly one activity log is appended. It holds the value, the task id, today's key as its date, type `workout`, and id `now` and timestamp `now`. Everything else is unchanged. |
| Db.GetActivityLogs | db.js:202-211 | The result is never longer than the log list. With both filters off it is the whole list. |
| Db.GetActivityLogsSelects | db.js:202-211 | Every returned log starts with the date prefix (when given) and has the task id (when given). Each matching log keeps all its occurrences and no other log appears. The result is an order-preserving subsequence of the log list. |
| Db.GetBossState | db.js:235-238 | The result is present exactly when `boss_states` is a map holding the id, and then it is that entry. An id never set reads as null. |
| Db.BossStateUpdated | db.js:240-244 | When `boss_states` is missing, falsy or a map, the id then reads back as the new state. Every other id reads as before. Only `boss_states` changes. |
| Db.Normalize | db.js:43-48 | Missing or falsy credits become 0, and a missing pet becomes level 1, happiness 50, xp 0. Present values are kept and other settings are untouched. Each missing list becomes empty and each present list is kept. |
| Db.NormalizeIdempotent | db.js:43-48 | Normalising an already normalised state changes nothing. |
| Db.Store.constructor | db.js:4-9 | The store starts with empty settings and three empty lists. |
| Db.Store.InitDB | db.js:23-48 | The new state is the normalisation of the loaded data, or of the current state when nothing was loaded. |
| Db.Store.UpdateSetting | db.js:76-77 | The new state is `SetSetting` of the old one. |
| Db.Store.AddCredits | db.js:92-94 | The new state is `CreditsAdded` of the old one. |
| Db.Store.AddChallenge | db.js:105-116 | The new state is `ChallengeAdded` of the old one. |
| Db.Store.UpdateChallenge | db.js:131-138 | The new state is `ChallengeUpdated` of the old one. |
| Db.Store.DeleteChallenge | db.js:158-159 | The new state is `ChallengeDeleted` of the old one. |
| Db.Store.AddWeightLog | db.js:179-185 | The new state is `WeightLogAdded` of the old one. |
| Db.Store.AddActivityLog | db.js:213-219 | The new state is `ActivityLogAdded` of the old one. |
| Db.Store.UpdateBossState | db.js:240-244 | The new state is `BossStateUpdated` of the old one. |
| Calendar.Decimal | db.js:248-250 | `String(n)` of a natural number is a non-empty string of digits. It is a single digit exactly when the number is below 10. |
| Calendar.IntToStringReadsBack | db.js:248-251 | `String(n)` of any integer, negative years included, reads back as `n`: the decimal digits of `n` for a natural number, and a minus sign followed by the digits of `-n` otherwise. |
| Db.CreditsOrZero | db.js:93 | `getSetting('credits') \|\| 0` is the stored number when credits are a number, and 0 when they are missing, falsy or not a number. |
| App.CanAffordExactly | app.js:95 | For a positive cost, `credits >= cost` holds exactly when the stored credits are a number of at least the cost; missing, null or non-numeric credits fail the test. |
| App.SumValsConcat | app.js:282 | The `reduce` total of two runs of logs joined is the sum of their two totals. |
| App.SumValsNonNegative | app.js:282 | Logs of non-negative value have a non-negative `reduce` total. |
| App.DoneOnUnaffected | app.js:281-282 | Appending a log for one task leaves the total that `getActivityLogs(dateKey, id)` and `reduce` give every other non-zero task id unchanged, for every day key. |
| Calendar.PadStart2 | db.js:249-250 | A string of two or more characters is kept. A shorter one becomes two characters: zeros, then the string. |
| Calendar.DateKey | db.js:246-251 | The day key is at least seven characters long. |
| Calendar.DecimalRoundTrip | db.js:248 | Reading back the digits of `String(n)` gives `n`. |
| Calendar.PaddedRoundTrip | db.js:249-250 | A month or day in 1..99 pads to exactly two digits that read back as the number. |
| Calendar.DateKeyRoundTrip | db.js:246-251 | For a four-digit year, a month in 1..12 and a day in 1..31, the key is 10 characters with dashes at positions 4 and 7. Parsing it back gives the date. |
| Calendar.DateKeyInjective | db.js:246-251 | Two such dates with equal keys are equal. |
| Seqs.Filter | db.js:204-209 | Filtering never lengthens a sequence. |
| Seqs.FilterCounts | db.js:159 | Each element that satisfies the predicate keeps all its occurrences; no other element remains. |
| Seqs.FilterIsSubsequence | db.js:159 | What filtering keeps stays in its original order. |
| Seqs.Map | app.js:615-631 | Mapping keeps the length. |
| Seqs.MapAt | app.js:615-631 | Entry i of the mapped sequence is `f` of entry i. |
| App.Cheered | app.js:99 | Happiness becomes min(100, h + boost). It is at most 100, and it does not decrease when it started in range and the boost is non-negative. Level and xp are unchanged. |
| App.GainXp | app.js:420-428 | xp grows by amt/10. If that reaches 100, level rises by exactly one and xp becomes 0; otherwise level is unchanged. Level rises by at most one, and xp ends below 100. |
| App.TreatStep | app.js:93-129 | The step is declined, with nothing changed, exactly when credits are below the cost or not a number. Otherwise credits drop by exactly the cost. The step aborts, after the charge, exactly when no pet is stored. When it applies, the pet's happiness is cheered, `last_activity` records the title and time, nothing else changes, and pet ranges are preserved. |
| App.TreatsRaiseHappinessWithinCap | app.js:93-123 | Feeding costs exactly 50 and playing exactly 20. Neither lowers an in-range happiness, and both keep it at most 100. |
| App.LogProgressStep | app.js:414-433 | The step acts exactly when there is an active task and the amount is a positive number; otherwise nothing changes. When it acts: one activity log with that value and task is appended, credits rise by exactly the amount, a pet record gains xp by `GainXp`, nothing else changes, and pet ranges are preserved. |
| App.LogProgressCountsToday | app.js:414-418 | After an applied log, the active task's total for today rises by exactly the amount. |
| App.WeightStep | app.js:441-448 | The step acts exactly when the parsed weight is a non-zero number; otherwise nothing changes. When it acts, exactly one weight log is appended and credits rise by 100. |
| App.MissingWeightStep | app.js:457-468 | The step acts exactly when the date is non-empty and the weight is a non-zero number; otherwise nothing changes. When it acts, one weight log stamped at noon UTC of that day is appended and credits rise by 50. |
| App.TaskGoal | app.js:479 | The goal is never 0. It is 50 exactly when nothing or 0 was parsed, unless 50 itself was entered. Otherwise it is the parsed goal. |
| App.NewTaskStep | app.js:477-485 | The step acts exactly when the name is non-empty, appending one challenge with that name and the defaulted goal; otherwise nothing changes. The settings and logs are untouched. |
| App.FeedPet | app.js:93-107 | The new state and outcome are those of `TreatStep` with cost 50 and boost 20. |
| App.PlayPet | app.js:109-123 | The new state and outcome are those of `TreatStep` with cost 20 and boost 10. |
| App.Treat | app.js:93-129 | Performing the handler's calls on the store gives the new state and outcome of `TreatStep`. |
| App.SubmitLogProgress | app.js:414-433 | Performing the handler on the store, including the in-place xp and level update, gives the new state and outcome of `LogProgressStep`. |
| App.SubmitWeight | app.js:441-448 | The new state and outcome are those of `WeightStep`. |
| App.SubmitMissingWeight | app.js:457-468 | The new state and outcome are those of `MissingWeightStep`. |
| App.SubmitNewTask | app.js:477-485 | The new state and outcome are those of `NewTaskStep`. |
| App.Oldest | app.js:201-205 | The oldest log day is one of the days and is no later than any of them. |
| App.FindMissingWeighIns | app.js:200-224 | With no logs the result is empty. Otherwise the result is strictly increasing and lies strictly between the oldest log day and today. It contains no log day, and contains every day in that range that has no log. |
| App.TaskPercent | app.js:285 | The bar width is at most 100. For a positive goal it is non-negative (when the amount done is non-negative), and it is 100 exactly when the goal is reached. A zero goal gives a finite width only for a positive amount. |
| App.QuotientBounds | app.js:285 | For a positive divisor, the quotient is at least one exactly when the numerator is at least the divisor, and a non-negative numerator gives a non-negative quotient. |
| App.RenderTask | app.js:279-285 | The card shows today's total for the task. It is complete exactly when that total reaches the goal, and its bar is at most 100, full exactly when complete for a positive goal. |
| App.Remaining | app.js:629 | `max(0, goal - done)` is non-negative, is 0 exactly when the goal is reached, and adds up with `done` to the goal when not reached. |
| App.ChartSeriesAt | app.js:615-631 | Bar i of the chart is the total logged under day i's key, and its remaining bar is what that total leaves of the goal. |
| App.WorkoutChartSeries | app.js:608-631 | The completed series maps each day to the total under its key, and the remaining series maps each total to what it leaves of the goal. |
| App.SeriesOverKeys | app.js:624-631 | The loop over the day keys pushes exactly those two series. |
| App.ScrollMask | app.js:693-712 | The classes other than the three mask classes are untouched. Without overflow, or at both start and end, no mask class is set. `mask-right`, `mask-left` and `mask-both` are each set exactly in their own case. |
| App.ScrollMaskAtMostOne | app.js:701-711 | At most one of the three mask classes is set. |

## Left out

- Network and storage synchronisation are not modelled: the `fetch` calls, local-storage load and save, the `useLocalStorage` switch and the asynchronous part of `initDB`. Every write is an immediate update of the state. `Db.Store.InitDB` receives the loaded data, if any, as a parameter.
- The UI is not modelled: toasts, `updateUI`, DOM elements and styling, Chart.js and the chart labels, canvas `drawPet`, the swipe handlers, modals and tab switching.
- `server.py` (an HTTP server over sqlite) and `tests/test_happiness.py` (a floating-point simulation of a decay rule that `app.js` does not have) are not part of this model.
- The clock and calendar are parameters, not modelled: `Date.now()`, local dates, `toISOString`, `toLocaleTimeString`, time zones, and the date arithmetic that produces the seven chart days.
- `App.FindMissingWeighIns` works on day numbers. It replaces sorting by date and taking the first entry with taking the minimum. It does not model the mix of UTC `toISOString` days and local midnight in the source.
- `Db.WeightLogAdded` receives the ISO date string ready-made. It does not model the re-formatting through `new Date(dateStr).toISOString()`, nor the `RangeError` that a malformed back-filled date raises in `submitMissingWeight`.
- App.MissingWeightStep: a non-empty but malformed date counts as Applied. In the source, `new Date(...).toISOString()` at app.js:463 throws a `RangeError` there, before any log is added or credits are given.
- App.FindMissingWeighIns: `getWeightLogs()` returns the stored array itself (db.js:176). The `.sort` calls at app.js:179 (`updateUI`), app.js:201 (`findMissingWeighIns`) and app.js:519 (`updateChart`) therefore reorder `appState.weight_logs` by date in place, so a back-filled log ends up at its date position. The model keeps the weight logs in append order and does not model this in-place reordering. Every reader sorts again before use.
- Parsing the form inputs (`parseInt`, `parseFloat`) is not modelled. Its result arrives as an `Option`, with `None` for `NaN`.
- Only the value shapes the application stores are modelled: null, integers, the pet record, the boss-state map and the last-activity note. Strings, booleans and floating-point credits are not.
- Db.CreditsAdded: a truthy credits value that is not a number counts as 0. JavaScript would instead concatenate it or produce `NaN`.
- Db.CreditsOrZero: the same simplification; a truthy non-numeric credits value reads as 0 rather than as itself.
- Db.BossStateUpdated: a truthy `boss_states` value that is not a map is stored back unchanged. That is exact for a number. For an object such as a pet record, JavaScript would also add the property to it.
- App.TreatStep: a truthy `pet` value that is not a pet record is written back unchanged. That is exact for a number. For an object, JavaScript would add a `happiness` property set to `NaN`.
- App.LogProgressStep: a truthy `pet` value that is not a pet record is left as it is. For an object, JavaScript would add an `xp` property set to `NaN`; since `NaN >= 100` is false, `level` is not touched.
- App.GainXp, App.TaskPercent: XP and percentages are exact reals, not IEEE doubles. The non-finite results of a zero goal (`NaN`, `-Infinity`) are represented as `None`.
- `Db.Store.GetChallenges` and `Db.Store.GetWeightLogs` are plain reads of the lists. Their `|| []` fallback cannot apply once the store exists, so they carry no contract of their own.
- `updateWorkoutChart` picks the task with `tasks.find` on the selected id. This selection is not modelled; the task is a parameter of `App.WorkoutChartSeries`.
- App.WorkoutChartSeries: day keys are formatted first, and the loop then goes over them (`App.SeriesOverKeys`). The source formats each key inside its loop; the values pushed are the same.
