# Objectives and site-time extension: a Dafny model of its core

The browser extension keeps a to-do list of objectives and records how long
the user spends on each website. This project
models four parts of it:

- **The background tracker** (`background.dfy`, module `Background`). It keeps
  at most one open browsing session: a tab, a domain and a start time. It also
  keeps a ledger of whole seconds per domain. Four browser events drive it:
  navigation committed, tab removed, tab activated and window focus changed.
  - Each handler is a pure step function on `TrackerState`, and the lemmas are
    about these functions.
  - Each handler is also a method of the class `SessionTracker`. The method
    reassigns the tracker's fields in place and is proved to produce exactly
    the step function's state.
  - `Run` folds any sequence of timestamped events. Ledger entries are never
    lost and never decrease along a run. Consider a run of top-frame
    navigations to http URLs whose hosts parse to non-empty names, at
    positive, non-decreasing times. Over such a run each domain gains exactly
    the whole seconds of its sessions, and each interval is credited once.
- **The task manager** (`goal_manager.dfy`, module `GoalManager`). It covers
  objectives with subtasks, an optional due date and a priority; creating,
  toggling and deleting them; the automatic completion of a parent from its
  subtasks; and the zero-padded hour and minute pickers.
  - Operations that build a new list (spread, `map`, `filter`) are functions.
  - Operations that copy the list and then assign into the copy are methods.
    Each works on a fresh array and is proved equal to its specification
    function.
- **The progress chart** (`progress_chart.dfy`, module `ProgressChart`). The
  counting loop is a method with loop invariants. It is proved against
  recursive counting functions, and the rounded completion percentage is
  characterised exactly.
- **The time monitor** (`time_monitor.dfy`, module `TimeMonitor`). This covers:
  - the `"1h 2m 3s"` rendering of a number of seconds, proved to read back to
    the number it was made from;
  - the merge of an `updateSiteDuration` message into the popup's ledger. For
    a non-empty host and a positive time it performs the same update as the
    tracker's flush. Otherwise it may differ: a negative time is added as it
    is, where the tracker ignores it;
  - the longest-first ordering of the sites.

`text.dfy` (module `Text`) gives the JavaScript string built-ins these parts rely
on: `trim` with the ECMAScript white-space set, `startsWith`, `padStart`, and
`toString` of a non-negative integer. It also defines `Join` and `Split`, which
the source does not call. `Join` describes the shape of the rendered duration
template. `Split` serves only to read a rendering back, for `FormatRoundTrip`.
`wrappers.dfy` holds `Option`.

Modelling choices:

- `Date.now()`, the tab that `chrome.tabs.get` or `chrome.tabs.query` resolves,
  and `new URL(u).hostname` are parameters. The hostname parser is a function
  `string -> Option<string>`, where `None` stands for the constructor throwing.
- JavaScript truthiness of `activeDomain` and `sessionStart` is explicit
  (`Truthy`, `IsSet`). An empty domain and a start time of 0 count as unset.
- JavaScript's truncating `%` is `JsRem`. `Math.floor` of a division by a
  positive constant is Dafny's `/`.
- The message field called `type` in the source is `kind` here, because `type`
  is a Dafny keyword.

In these places the code behaves in ways a reader may not expect; the model
follows the code:

- A committed navigation whose URL the parser rejects returns before flushing
  the old session (`src/background.js:19-24`). See
  `CommittedUnparsableKeepsState`.
- Regaining window focus never credits the open session. It replaces the
  session, or clears it when the URL does not parse (`src/background.js:83-95`).
  See `FocusGainDropsOpenSession`.
- Regaining focus on a window whose active tab is missing or not `http` leaves
  the state exactly as it was. See `FocusGainOnOtherTabKeepsState`.
- Adding a subtask does not re-derive the parent's completion
  (`src/components/GoalManager.jsx:65-76`). A finished objective without
  subtasks stays finished after gaining an open subtask. See
  `CreateSubTaskCanBreakDerived`.
- With 200 or more units the chart can show 100% while work is still pending:
  199 of 200 rounds to 100. See `RateBelowHundredWhileUnfinished` and
  `RateRoundsUpToHundred`.

## Model

| member | source | states |
|---|---|---|
| Text.TrimEmptyIffBlank | src/components/GoalManager.jsx:46 | `trim()` gives the empty (falsy) string exactly when the input is all white space, in both directions |
| Text.Trim | src/components/TimeMonitor.jsx:8 | `String.prototype.trim`: both ends' white space removed |
| Text.StartsWith | src/background.js:15 | `s.startsWith(prefix)` |
| Text.TrimStart | src/components/TimeMonitor.jsx:8 | the result is a suffix of the input, does not start with white space, and what was dropped is all white space |
| Text.TrimEnd | src/components/TimeMonitor.jsx:8 | the result is a prefix of the input, does not end with white space, and what was dropped is all white space |
| Text.TrimOfTrimmed | src/components/TimeMonitor.jsx:8 | a string with no white space at either end is its own trim |
| Text.TrimDropsTrailingSpace | src/components/TimeMonitor.jsx:8 | trimming removes a single trailing space after such a string |
| Text.DecimalString | src/components/GoalManager.jsx:7 | `toString` of a non-negative integer is a non-empty string of decimal digits |
| Text.DecimalRoundTrip | src/components/GoalManager.jsx:7 | the decimal notation reads back as the number it came from |
| Text.DecimalNoLeadingZero | src/components/GoalManager.jsx:7 | the notation starts with '0' only for zero |
| Text.DecimalStringInjective | src/components/GoalManager.jsx:7 | different numbers have different notations |
| Text.PadStart | src/components/GoalManager.jsx:7 | `padStart` gives the larger of the width and the input length, ends with the input, and fills the front with the fill character |
| Text.LeadingZerosValue | src/components/GoalManager.jsx:7 | leading zeros keep a digit string a digit string and do not change its value |
| Text.SplitJoin | src/components/TimeMonitor.jsx:8 | splitting on the separator undoes joining on it when no part contains the separator |
| Background.Elapsed | src/background.js:27 | `Math.floor((now - start) / 1000)`: the elapsed milliseconds lie in `[1000·secs, 1000·secs + 1000)` |
| Background.AddDuration | src/background.js:5-12 | a missing or empty domain or a non-positive duration changes nothing; otherwise only that domain's entry changes, to its previous value (0 if absent) plus the duration; entries never shrink |
| Background.Flush | src/background.js:26-29 | when a tab, a domain and a start are all set and whole seconds have elapsed, the open domain's entry (0 if absent) grows by them; otherwise the ledger is unchanged; every other entry is kept and none shrinks |
| Background.CommittedIgnoresOtherNavigations | src/background.js:15 | a navigation in a sub-frame or to a URL not starting with "http" changes nothing |
| Background.CommittedUnparsableKeepsState | src/background.js:18-24 | an unparsable top-frame URL leaves the whole state, ledger included, unchanged |
| Background.CommittedFlushesThenInstalls | src/background.js:14-35 | a valid navigation credits the old session exactly when it was open, then opens a session for the new tab and domain at `now` |
| Background.RemovedOnlyClosesOwnSession | src/background.js:37-45 | closing another tab, or closing while no session is open, is a no-op; closing the session's tab flushes it and clears tab, domain and start |
| Background.ActivatedFlushesThenTracks | src/background.js:47-72 | activation always flushes the open session; the new tab is tracked from `now` exactly when its URL starts with "http" and parses, and otherwise the session is cleared |
| Background.BlurKeepsTabAndDomain | src/background.js:76-81 | losing all focus flushes an open session and clears only its start; without an open session nothing changes |
| Background.NoFlushAfterBlur | src/background.js:76-81 | after a blur no session is open, so a later flush at any time credits nothing |
| Background.FocusGainDropsOpenSession | src/background.js:83-95 | regaining focus on an http tab installs a new session at `now` and leaves the ledger as it was, so the open session's time is lost |
| Background.FocusGainOnOtherTabKeepsState | src/background.js:83-84 | regaining focus when the window's active tab is missing, has no URL or is not http changes nothing |
| Background.StepCreditsOnlyOpenSession | src/background.js:14-98 | every event leaves the ledger alone or applies exactly the flush of the open session |
| Background.StepRestartsClockAfterCredit | src/background.js:14-98 | when an event credits time, the start moves to `now` or is cleared, so no interval is credited twice |
| Background.StepGrows | src/background.js:14-98 | no event removes a ledger entry or decreases one |
| Background.RunGrows | src/background.js:14-98 | over any sequence of events, ledger entries are never removed and never decrease |
| Background.RunKeepsNonNegative | src/background.js:6-9 | a ledger of non-negative entries stays non-negative over any sequence of events |
| Background.Truthy | src/background.js:6 | JavaScript truthiness of a domain: present and not the empty string |
| Background.IsSet | src/background.js:26 | JavaScript truthiness of a start time: present and not 0 |
| Background.Lookup | src/background.js:9 | `durations[domain] \|\| 0`: the entry, or 0 when absent; every host is its own key (see "Left out" on `Object.prototype` names) |
| Background.Open | src/background.js:26 | the guard `activeTabId !== null && activeDomain && sessionStart` |
| Background.AfterCommitted | src/background.js:14-35 | the state after `webNavigation.onCommitted` |
| Background.AfterRemoved | src/background.js:37-45 | the state after `tabs.onRemoved` |
| Background.AfterActivated | src/background.js:47-72 | the state after `tabs.onActivated`, its callback run at once |
| Background.AfterFocusChanged | src/background.js:74-98 | the state after `windows.onFocusChanged`, its callback run at once |
| Background.Step | src/background.js:14-98 | dispatch of one event to its handler |
| Background.Run | src/background.js:14-98 | the handlers applied to a sequence of timestamped events, in order |
| Background.FlushLookup | src/background.js:26-29 | when an open session started no later than `now`, a flush adds its elapsed seconds to its own domain and changes no other domain's lookup |
| Background.RunCreditsSessions | src/background.js:14-35 | over top-frame navigations to parsable http URLs, at positive non-decreasing times, each domain's entry grows by exactly `SessionCredit`: the whole seconds of each of its sessions, counting the one open at the start, with each interval credited once |
| Background.SessionsScenario | src/background.js:14-35 | "a.com" open at 1 s, then navigations to "b.com" at 11 s, "a.com" at 41.5 s and "b.com" at 46 s: "a.com" gains 10 + 4 s and "b.com" 30 s |
| Background.NavigationScenario | src/background.js:14-35 | "a.com" open for 65 s and then a navigation to "b.com": 65 s go to "a.com" and "b.com" starts at the navigation time |
| Background.SessionTracker.constructor | src/background.js:1-3 | the tracker starts with no tab, domain or start and the stored ledger |
| Background.SessionTracker.UpdateDuration | src/background.js:5-12 | the ledger field becomes `AddDuration` of the old ledger, and no entry shrinks |
| Background.SessionTracker.FlushAt | src/background.js:26-29 | the ledger field becomes the flush of the old state |
| Background.SessionTracker.OnCommitted | src/background.js:14-35 | the new fields are exactly `AfterCommitted` of the old ones |
| Background.SessionTracker.OnRemoved | src/background.js:37-45 | the new fields are exactly `AfterRemoved` of the old ones |
| Background.SessionTracker.OnActivated | src/background.js:47-72 | the new fields are exactly `AfterActivated` of the old ones |
| Background.SessionTracker.OnFocusChanged | src/background.js:74-98 | the new fields are exactly `AfterFocusChanged` of the old ones |
| GoalManager.TimeOption | src/components/GoalManager.jsx:7 | `i.toString().padStart(pad, '0')` |
| GoalManager.GenerateTimeOptions | src/components/GoalManager.jsx:4-10 | one option for each number below `max` (none when `max <= 0`); option `i` is `i` padded with zeros, and it reads back as `i` |
| GoalManager.TimeOptionReadsBack | src/components/GoalManager.jsx:7 | a zero-padded option is a digit string denoting its number, whatever the width |
| GoalManager.TwoDigitOption | src/components/GoalManager.jsx:131-132 | with width 2, every hour and minute option has exactly two characters |
| GoalManager.DueDate | src/components/GoalManager.jsx:51 | there is no due date exactly when the date field is empty |
| GoalManager.DueDateRoundTrip | src/components/GoalManager.jsx:51 | a due date built from a date and picker values reads back as that date and the chosen hour and minute, or "00" for an empty one |
| GoalManager.CreateObjective | src/components/GoalManager.jsx:45-62 | a blank title leaves the list unchanged; otherwise the list gains exactly one open objective at the end, with no subtasks, the due date and the priority |
| GoalManager.CreateSubTask | src/components/GoalManager.jsx:65-76 | a blank title changes nothing; otherwise only the chosen objective changes, gaining one open subtask at the end |
| GoalManager.RemoveAt | src/components/GoalManager.jsx:112 | the filter on the index removes exactly that position, and an index outside the list removes nothing |
| GoalManager.DeleteObjective | src/components/GoalManager.jsx:111-114 | the objective at `idx` is removed and the others keep their order; an index outside the list changes nothing |
| GoalManager.Rederived | src/components/GoalManager.jsx:79-87 | a parent with subtasks becomes done exactly when all subtasks are; a parent without subtasks is unchanged; only `isDone` changes |
| GoalManager.AllSetTo | src/components/GoalManager.jsx:94-97 | every subtask keeps its title and position and gets the given completion |
| GoalManager.Toggled | src/components/GoalManager.jsx:90-100 | the objective's completion is negated and all its subtasks take the new value |
| GoalManager.SubTaskToggled | src/components/GoalManager.jsx:105 | only subtask `j` changes, and only its completion, which is negated |
| GoalManager.ToggledIsDerived | src/components/GoalManager.jsx:90-100 | after toggling an objective its completion agrees with its subtasks |
| GoalManager.LastSubTaskCompletesParent | src/components/GoalManager.jsx:103-108 | checking the last open subtask marks the parent done |
| GoalManager.UncheckingSubTaskReopensParent | src/components/GoalManager.jsx:103-108 | unchecking a subtask marks the parent not done |
| GoalManager.DeletingLastSubTaskKeepsParent | src/components/GoalManager.jsx:117-122 | deleting the only subtask leaves the parent's completion as it was |
| GoalManager.CreateSubTaskCanBreakDerived | src/components/GoalManager.jsx:65-76 | adding a subtask to a done objective without subtasks leaves it done with an open subtask, so its completion no longer agrees with its subtasks |
| GoalManager.TwoSubTaskScenario | src/components/GoalManager.jsx:103-108 | with two open subtasks, checking the first leaves the parent open and checking the second completes it |
| GoalManager.CopyToArray | src/components/GoalManager.jsx:91 | the spread copy is a fresh array with the same elements |
| GoalManager.CheckParentCompletion | src/components/GoalManager.jsx:79-87 | only the objective at `objIdx` changes, and it becomes its re-derived form |
| GoalManager.ToggleObjective | src/components/GoalManager.jsx:90-100 | only objective `idx` changes, it becomes its toggled form, and it agrees with its subtasks |
| GoalManager.ToggleSubTask | src/components/GoalManager.jsx:103-108 | only objective `objIdx` changes: one subtask is negated, then the parent is re-derived |
| GoalManager.DeleteSubTask | src/components/GoalManager.jsx:117-122 | only objective `objIdx` changes: it loses the subtask at `subIdx` (or none if out of range), then the parent is re-derived |
| ProgressChart.TotalTasks | src/components/ProgressChart.jsx:14-21 | the `totalTasks` the loop accumulates: one per objective plus its subtasks |
| ProgressChart.CompletedTasks | src/components/ProgressChart.jsx:14-21 | the `completedTasks` the loop accumulates: done objectives plus done subtasks |
| ProgressChart.DoneCount | src/components/ProgressChart.jsx:19 | the done subtasks number at most the subtasks, and equal them exactly when all are done |
| ProgressChart.TotalCountsObjectives | src/components/ProgressChart.jsx:14-21 | there is at least one unit per objective, and zero units exactly when there are no objectives |
| ProgressChart.CompletedWithinTotal | src/components/ProgressChart.jsx:14-25 | completed units never exceed the total, so the pending slice is never negative, and they equal it exactly when every objective and subtask is done |
| ProgressChart.CompletionRate | src/components/ProgressChart.jsx:27 | 0 without units; otherwise the percentage rounded half up: `2t·r − t <= 200c < 2t·r + t` |
| ProgressChart.RateIsPercentage | src/components/ProgressChart.jsx:27 | the rate lies between 0 and 100; it is 100 when everything is done and 0 when nothing is |
| ProgressChart.RateBelowHundredWhileUnfinished | src/components/ProgressChart.jsx:27 | with fewer than 200 units, unfinished work never shows 100% |
| ProgressChart.RateRoundsUpToHundred | src/components/ProgressChart.jsx:27 | 199 done out of 200 shows 100% |
| ProgressChart.CalculateProgress | src/components/ProgressChart.jsx:10-28 | the chart is [completed, pending] as the counting functions give them, with pending non-negative; the rate is `CompletionRate` of those counts, within 0..100, and 100 for a finished non-empty list |
| ProgressChart.FetchObjectives | src/components/ProgressChart.jsx:30-49 | no stored list gives an empty chart and rate 0; a stored list, even an empty one, is counted |
| TimeMonitor.JsRem | src/components/TimeMonitor.jsx:6-7 | JavaScript `%`: equal to the Euclidean remainder for non-negative dividends, and in `(-b, 0]` for negative ones |
| TimeMonitor.Hours | src/components/TimeMonitor.jsx:5 | `Math.floor(seconds / 3600)` |
| TimeMonitor.Minutes | src/components/TimeMonitor.jsx:6 | `Math.floor((seconds % 3600) / 60)` with JavaScript's `%` |
| TimeMonitor.Secs | src/components/TimeMonitor.jsx:7 | `seconds % 60` with JavaScript's `%` |
| TimeMonitor.Raw | src/components/TimeMonitor.jsx:8 | the template string before trimming |
| TimeMonitor.DurationDecomposition | src/components/TimeMonitor.jsx:5-7 | for a non-negative count, hours·3600 + minutes·60 + seconds recompose it, with minutes and seconds below 60 |
| TimeMonitor.FormatDuration | src/components/TimeMonitor.jsx:4-9 | the rendering is never empty |
| TimeMonitor.Render | src/components/TimeMonitor.jsx:8 | the trimmed template, or "0s" in its place, is never empty |
| TimeMonitor.FormatJoinsUnits | src/components/TimeMonitor.jsx:4-9 | the rendering is the positive components ("3h", "2m", "5s") joined by single spaces, or "0s" when none is positive |
| TimeMonitor.RenderIsJoin | src/components/TimeMonitor.jsx:8 | the same for any hours, minutes and seconds |
| TimeMonitor.TrimmedRawIsJoin | src/components/TimeMonitor.jsx:8 | trimming the template removes exactly the trailing space left when the seconds are not shown |
| TimeMonitor.RawIsJoin | src/components/TimeMonitor.jsx:8 | the template is the join of the shown components, plus a trailing space when seconds are hidden but something else is shown |
| TimeMonitor.FormatNonPositive | src/components/TimeMonitor.jsx:4-9 | zero and negative counts render as "0s" |
| TimeMonitor.FormatUnderMinute | src/components/TimeMonitor.jsx:4-9 | from 1 to 59 seconds only the seconds are shown, as "<n>s" |
| TimeMonitor.ParseUnitsOfUnits | src/components/TimeMonitor.jsx:5-8 | the shown components contain no space and add up to the count they come from |
| TimeMonitor.FormatRoundTrip | src/components/TimeMonitor.jsx:4-9 | for every non-negative count, reading the rendering back gives that count |
| TimeMonitor.HandleMessage | src/components/TimeMonitor.jsx:34-41 | other message types leave the ledger unchanged; `updateSiteDuration` adds the time to the site's entry (0 if absent) and keeps every other entry |
| TimeMonitor.MessageMatchesFlush | src/components/TimeMonitor.jsx:35-39 | for a named site and a positive time, the merge is the same update as the tracker's `updateDuration` |
| TimeMonitor.Insert | src/components/TimeMonitor.jsx:56-57 | inserting into a longest-first list keeps it longest-first and adds exactly the one entry |
| TimeMonitor.SortedSites | src/components/TimeMonitor.jsx:56-57 | the sorted sites are longest first and a permutation of the entries |
| TimeMonitor.SortedSitesListsLedger | src/components/TimeMonitor.jsx:56-57 | the sorted list still lists every site of the ledger once, with its duration |

## Left out

- Rendering: the React components, their markup, charts, icons (`getIconPath`)
  and form-field resets after an action are not modelled. Neither are
  `App.jsx`, the overdue check, the locale formatting of due dates, nor the
  priority select's string values (here `Priority`).
- Storage and messaging: `chrome.storage` and `localStorage` reads and writes,
  JSON (de)serialisation, and the storage-change listeners are left out. A
  stored list or ledger is a parameter; `FetchObjectives` takes `None` for a
  missing one.
- Concurrency: `updateDuration` is an asynchronous read-modify-write of the
  stored ledger. The tab lookups in `onActivated` and `onFocusChanged` run in
  callbacks. Here each handler, and each flush, is one atomic step. Lost
  updates from interleaved callbacks are not captured.
- Hosts named after `Object.prototype` members: the source's ledgers are
  plain JavaScript objects. `durations[domain] || 0` (src/background.js:9) and
  `prev[message.hostname] || 0` (src/components/TimeMonitor.jsx:38) also find
  inherited properties. A host "constructor" therefore gets the string
  `Object` + seconds, and an assignment to "__proto__" is ignored. The model's
  map treats every host as its own key, starting from 0, so these hosts are
  not modelled as the source handles them.
- URL parsing: `new URL(u).hostname` is the parameter `hostname`. URL
  parsing itself is not modelled.
- Time: `Date.now()` is a parameter. Clock changes and non-monotonic time
  are not excluded.
- Objects shared between the old and the copied task list: the spread copy in
  `toggleObjective`, `toggleSubTask` and `deleteSubTask` is shallow. The source
  therefore also mutates the objectives held in the previous list. Objectives
  are values here, so that aliasing is not captured.
- Records whose `subTasks` field is missing (`obj.subTasks || []`) are not
  modelled: every objective has a sequence of subtasks. The following indices
  make the source throw, and they are preconditions here:
  an out-of-range `idx` in `toggleObjective`; out-of-range indices in
  `toggleSubTask`; an out-of-range `objIdx` in `deleteSubTask`. An
  out-of-range `subIdx` in `deleteSubTask` removes nothing, in the source
  and in the model alike.
- ProgressChart.CompletionRate: the rate is computed in exact arithmetic. The
  source computes `completed / total * 100` in IEEE doubles, which can land
  just below a half. For example, 23 of 40 gives 57.49999999999999, which
  rounds to 57, where the exact value 57.5 rounds to 58.
- TimeMonitor.FormatDuration: only integer second counts are modelled. Ledger
  entries are sums of whole seconds, so fractional input does not arise from
  the tracker.
- TimeMonitor.SortedSites: the order among sites with equal time is not stated.
  `Array.prototype.sort` is stable, and so is this insertion sort, but no
  contract says so.
- Text.IsWhitespace: white space is the ECMAScript WhiteSpace and
  LineTerminator set on single UTF-16 code units. There is no Unicode
  normalisation.
- Number formatting: `toString` is modelled for non-negative integers only,
  which is all the hour and minute pickers and `formatDuration`'s positive
  components use.
