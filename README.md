# FocusFlow core in Dafny

FocusFlow is a Pomodoro timer with a task list, a statistics dashboard and a small
Express back end. This project models its core:

- the client's interval state machine;
- the task ledger;
- the stats aggregator;
- the sync engine that pushes each change to the server and reconciles on failure;
- the server's resource store.

The client's module-level state (`settings`, `tasks`, `stats`, `state`, `syncErrorMessage`)
becomes the fields of one object, `Client.App`. The server's `store` becomes a second object,
`Server.Store`, with the same four resources. The client operations are methods that change those
fields. Each method is specified by pure functions and predicates, and the properties the program
promises are lemmas about those functions.

Files, in dependency order:

- `records.dfy` (`Records`):
  - the records and their defaults;
  - the JSON objects a PUT or a data file may carry, in which any field may be missing;
  - the object-spread merge `{ ...base, ...(body || {}) }` and the `Array.isArray` rule.
- `timer.dfy` (`Timer`): `formatTime`, `nextMode` and JavaScript's truncating `%`.
- `ledger.dfy` (`Ledger`): the `find`, `map` and `filter` expressions of the task operations, and the credit one task receives.
- `aggregator.dfy` (`Aggregator`): `updateStreak` and the counting part of `recordSession`, as functions of the stats record.
- `server.dfy` (`Server`): the store, `loadStore`'s normalisation, and the GET and PUT handlers.
- `client.dfy` (`Client`): the client object and every operation of the four client components.

Modelling conventions:

- **Requests.** Each request is a boolean outcome: it reached the server, or it failed.
  - `Net(put, reload)` is a PUT plus the reload that follows it when it fails.
  - `TasksNet` adds the optional stats and state reloads of `persistTasks`.
  - `CompletionNet` and `LoadNet` bundle the requests of one completed interval and of `init`.
  - A failed request never reached the server.
- **Timer.** "Running" is `timerId != null`. The `setInterval` callback is the method `Tick`.
- **Dates** are integer day numbers, so `lastSessionDate` is `Option<int>`.
- **Task ids.** A new task's id is a parameter that must not already be in the list.
- **JavaScript semantics, written out:**
  - `%` truncates toward zero (`Timer.JsRem`);
  - `Math.floor(x / 60)` is Dafny's `/`;
  - `cycles == 0` makes the remainder NaN, so no long break follows;
  - `Number(..) || 1` maps 0 and NaN to 1 but keeps negative estimates;
  - an active task id counts as set only when present and non-empty.

Quirks the model keeps:

- `cycleCount` is never reset (`Timer.CycleLaw`, `Client.SkipAfterLongBreak`).
- `toggleTask` never lowers `tasksDone`.
- `setActiveTask` accepts any id.
- A failed PUT whose reload also fails keeps the optimistic local value (`Client.PersistOutcome`).
- A successful reload after a failed PUT clears the sync error, so the save-failed message does not survive a reconciled failure.

## Model

| member | source | states |
|---|---|---|
| Records.MergeSettings | backend/server.js:71-79 | A PUT body's fields overwrite, every absent field keeps its old value, and a null body leaves the settings as they were |
| Records.MergeStats | backend/server.js:93-101 | The same shallow-merge law for the stats resource, `lastSessionDate` included (a sent `null` overwrites) |
| Records.MergeState | backend/server.js:104-112 | The same law for the state resource: a sent `activeTaskId` (also `null`) overwrites, an absent one keeps the old value |
| Records.TasksOr | backend/server.js:82-90 | An array body becomes the task list; any other body leaves the fallback |
| Records.MergeWholeRecord | backend/server.js:71-112 | Merging a whole record over any base gives exactly that record, for each object resource |
| Records.MergeIdempotent | backend/server.js:71-112 | Applying the same PUT body twice leaves the resource as after one PUT, for all four resources |
| Timer.JsRem | app.js:119-127 | JavaScript's remainder: equal to the Euclidean one for a non-negative dividend; for a negative dividend it is zero or negative, the negated remainder of the negated dividend; always smaller in magnitude than the divisor |
| Timer.TwoDigits | app.js:119-127 | A number below 100, converted and padded, is two digits whose decimal value is the number |
| Timer.FormatTimeShape | app.js:119-127 | For 0 <= s < 6000 the countdown text is `MM:SS` with four digits, SS < 60 and 60*MM + SS == s |
| Timer.NextModeRule | app.js:203-210 | From focus: a long break iff cycleCount > 0 and cycles divides it (no long break when cycles is 0), else a short break; from a break: focus; the mode always changes |
| Timer.CycleLaw | app.js:180-210 | From any multiple of `cycles`, the next `cycles` focus completions give cycles-1 short breaks and then one long break |
| Ledger.FindIndex | app.js:254-266 | `find` stops at the first task with the id; none earlier carries it; None means no task carries it |
| Ledger.RefersIff | app.js:290-302 | An active id finds a task iff some task in the list carries it; a null id finds none |
| Ledger.Estimate | app.js:212-228 | 0 and NaN become 1; any other number, negative ones included, is kept; so the estimate is never 0 |
| Ledger.ToggledSpec | app.js:254-257 | Toggling flips `done` on exactly the tasks with the id, changes nothing else, and toggling twice restores the list |
| Ledger.CreditedSpec | app.js:304-315 | Only tasks with the active id change: completed' = min(estimate, completed + 1), with done set once completed' >= estimate and otherwise kept |
| Ledger.FlipCountUnique | app.js:304-315 | With unique ids, tasksDone goes up by exactly 1 when the active task's done flips from false to true, and by 0 otherwise |
| Ledger.CreditRepeated | app.js:304-315 | n >= 1 credits give completed = min(estimate, completed + n), never above the estimate, and done iff it already was or completed + n reached the estimate |
| Ledger.CreditFlipsOnce | app.js:304-315 | However often a task is credited, its done flag flips from false to true at most once |
| Ledger.Filter | app.js:275-302 | A filter keeps exactly the tasks that pass the test, and never lengthens the list |
| Ledger.FilterAppend | app.js:275-302 | Filtering a concatenation filters each part, so survivors keep their relative order |
| Ledger.FilterKeepsUnique | app.js:275-302 | Filtering keeps task ids unique |
| Ledger.SurvivorsRefers | app.js:275-288 | After deleting an id, an active id finds a task iff it did before and is not the deleted id |
| Ledger.PendingRefers | app.js:290-302 | After clearing finished tasks, an active id finds a task iff an unfinished task carries it |
| Ledger.LedgerKeepsIdsUnique | app.js:212-320 | Toggle, credit, delete and clear keep ids unique, and so does adding a task with a fresh id |
| Aggregator.StreakRules | app.js:366-385 | No earlier date or a gap other than 0 or 1 gives streak 1; gap 0 keeps it; gap 1 adds one; the date becomes today; longest = max(old longest, streak); the counters are untouched |
| Aggregator.SessionCounts | app.js:355-364 | A recorded session adds 1 to sessions in every mode and adds minutes plus a streak update only for focus; tasksDone is untouched |
| Aggregator.StreakRun | app.js:366-385 | Over sessions on consecutive or equal days, the streak grows by the days spanned, and the longest streak never falls and is at least the streak |
| Aggregator.GapRestarts | app.js:366-385 | A gap of two or more days, or a date before the last one, restarts the streak at 1 |
| Server.Store.constructor | backend/server.js:11-40 | The store starts at the default settings, an empty task list, the zero stats and no active task |
| Server.Store.LoadStore | backend/server.js:42-59 | An unreadable file leaves the store; otherwise each object section is merged over its default (missing means default) and a non-array tasks section becomes [] |
| Server.Store.GetSettings | backend/server.js:66-70 | The response is the stored settings, and reading it back over the defaults gives them exactly |
| Server.Store.PutSettings | backend/server.js:71-79 | Only the settings change, to the merge of the body; sent fields overwrite, absent ones stay; the response is the new value |
| Server.Store.GetTasks | backend/server.js:81 | The response is the stored array |
| Server.Store.PutTasks | backend/server.js:82-90 | Only the tasks change: an array replaces them, anything else leaves them; the response is the new list |
| Server.Store.GetStats | backend/server.js:92 | The response is the stored stats, and reading it back over the defaults gives them exactly |
| Server.Store.PutStats | backend/server.js:93-101 | Only the stats change, to the merge of the body; the response is the new value |
| Server.Store.GetState | backend/server.js:103 | The response carries the stored active task id |
| Server.Store.PutState | backend/server.js:104-112 | Only the state changes, to the merge of the body; the response is the new value |
| Server.PutThenGet | backend/server.js:71-112 | On a store, a GET after a PUT returns every field the object body carried with the value sent, and the merge of the body over the old value as a whole; a GET after an array PUT returns that array |
| Client.PersistOutcome | app.js:446-505 | After a persist, local and server agree unless both the PUT and the reload failed, when the optimistic value stays local and the server keeps its own; the sync error is empty exactly when the PUT or the reload succeeded |
| Client.App.constructor | app.js:12-45 | Default settings and stats, no tasks, no error; focus mode with 25 minutes left, stopped, no cycles, no active task |
| Client.App.CountdownText | app.js:153-201 | When the current interval's full length is under 100 minutes, the countdown between events lies in [0, full length] and reads as `MM:SS`: four digits, SS < 60 and 60*MM + SS equal to the seconds left |
| Client.App.SetSyncError | app.js:528-531 | The message becomes the given one |
| Client.App.ClearSyncError | app.js:533-537 | The message becomes empty |
| Client.App.GetResource | app.js:507-517 | On success the server's value and a cleared error; on failure the fallback and the offline message |
| Client.App.LoadSettings | app.js:401-405 | The settings become the server's (or the defaults when offline), and the countdown becomes the current mode's full length |
| Client.App.LoadTasks | app.js:407-410 | The tasks become the server's array, or [] when offline |
| Client.App.LoadStats | app.js:412-415 | The stats become the server's, or the zero stats when offline |
| Client.App.LoadTimerState | app.js:417-420 | The active id becomes the server's, or none when offline |
| Client.App.Init | app.js:69-77 | Each resource is loaded from the server or falls back to its default; the countdown fits the loaded settings |
| Client.App.Push | app.js:446-459 | A PUT that reaches the server stores the local value of that resource only and clears the error; a failed one stores nothing and sets the save-failed message |
| Client.App.ReloadResource | app.js:469-505 | On success the resource becomes the server's; settings also reset the countdown and stop the timer; tasks also drop an active id they lack; the error clears. On failure only the still-offline message is set |
| Client.App.PersistResource | app.js:446-467 | Returns whether the PUT succeeded; after it, server and local values are as `Stored` and `Settled` give, and the error as `ErrorAfter` gives; only that resource changes |
| Client.App.PersistTasks | app.js:426-436 | The tasks persist with the tasks reload; on failure the stats and state are also reloaded when asked; nothing else changes |
| Client.App.SyncLedger | app.js:263-265 | The tasks persist, and the stats persist only when the tasks were saved, otherwise the stats are reloaded |
| Client.App.SyncRemoval | app.js:283-287 | The tasks persist; when the active task was lost, the state then persists if the tasks were saved and is reloaded if they were not; when it was not lost, the state is neither pushed nor reloaded |
| Client.App.SubmitTask | app.js:212-228 | An empty title changes nothing; otherwise the new task is appended and persisted, and stats, settings and timer are untouched |
| Client.App.ToggleTask | app.js:254-266 | The toggled list is synced with tasksDone + 1 when the first matching task is now done, and tasksDone unchanged when it is now not done (toggling back never lowers it) |
| Client.App.SetActiveTask | app.js:268-273 | The active id becomes the given one, unchecked, and persists; nothing else changes |
| Client.App.DeleteTask | app.js:275-288 | The tasks with the id go, survivors keep their order, the active id is cleared when it was the id, and both are synced |
| Client.App.ClearCompletedTasks | app.js:290-302 | Finished tasks go, a set active id no remaining task carries is cleared, and both are synced |
| Client.App.CreditActiveTask | app.js:304-320 | With no active id nothing changes; otherwise the tasks are credited, tasksDone rises by the number of flips, and the ledger is synced |
| Client.App.UpdateStreak | app.js:366-385 | The stats become the streak update for the given day |
| Client.App.RecordSession | app.js:355-364 | The stats gain the session (minutes and streak only for focus) and are persisted; nothing else changes |
| Client.App.ResetStats | app.js:395-399 | The stats become the zero record and are persisted |
| Client.App.SubmitSettings | app.js:329-344 | The new settings persist; the countdown is the current mode's new full length; the timer is stopped |
| Client.App.StartTimer | app.js:153-163 | The timer runs |
| Client.App.StopTimer | app.js:165-170 | The timer stops |
| Client.App.SwitchMode | app.js:97-104 | Switching to the current mode changes nothing; otherwise the mode changes, with its full length, stopped |
| Client.App.ToggleTimer | app.js:144-151 | Running becomes not running and vice versa |
| Client.App.HandleIntervalComplete | app.js:180-201 | The mode always changes to nextMode, with its full length, running iff autoStart; a skip changes no counter, task or resource; a completion records the session and, after focus, counts the cycle and credits the active task |
| Client.App.SkipInterval | app.js:172-178 | Paused at full length: only the mode advances, stopped; otherwise a skipped completion. Either way no counter, task or resource changes |
| Client.App.Tick | app.js:156-162 | One second off the countdown, with a full completion once it reaches zero |
| Client.SkipAfterLongBreak | app.js:172-210 | From start-up with the default settings: four focus completions reach a long break with cycleCount 4; after returning to focus, a paused skip gives a second long break, because cycleCount is never reset |

## Left out

- Every operation is modelled as running to completion, all its awaited requests included. No tick or user event is modelled while a PUT or a reload is in flight, and two PUTs to one resource never race.
- Rendering and DOM wiring are UI and are not modelled: `setup`, `render*`, `updateModeButtons`, `populateSettingsForm`, `updateActiveTaskLabel` and the status text.
- Form parsing is not modelled. `SubmitTask` takes the trimmed title and the parsed estimate (`None` for NaN), and `SubmitSettings` takes parsed settings; `Number` and `Boolean` conversions are not modelled.
- The chime (app.js:197-200) is best-effort audio with no state.
- Transport is not modelled: `fetch`, `requestJSON`, status codes, Express routing, CORS and the error middleware. Each request is reduced to reached-the-server or failed, a GET always returns the stored object, and a 204 is never produced.
- File persistence is not modelled: `saveStore`, the data file, the ENOENT branch and JSON parsing. `LoadStore` takes the parsed file, or `None` when it could not be read.
- A failure of `saveStore` after the store was updated is not modelled. The client then sees the PUT fail although the server holds the new value; the model treats every failed PUT as one that never reached the server.
- JSON objects carrying keys outside a record's fields, and values of the wrong type, are not modelled.
- Dates, `toDateString` parsing, time zones and DST are not modelled; days are integers.
- `Math.round` is not modelled, because settings are integers.
- Client.App.Init: the four loads run concurrently under `Promise.all` but are modelled in source order. The sync error it promises is the one the last load leaves.
- Client.App.PersistTasks: the stats and state reloads run concurrently but are modelled in source order, stats before state.
- Client.App.HandleIntervalComplete: `recordSession` and `creditActiveTask` are not awaited. They are modelled as running to completion, in source order, before the mode switch. Interleavings with other user actions are not modelled.
- The save-failed message is set and then overwritten by the reload's outcome. Only the final message is stated.
- Client.App.SkipInterval: the paused-at-full-length skip goes through `switchMode`, which leaves the timer stopped whatever `autoStart` says. "Running iff autoStart" is stated only for the other path, through `handleIntervalComplete`.
- `console.error` logging is not modelled.
