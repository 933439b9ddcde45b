# Trove clock: a verified model of the Pomodoro timer and to-do list

This project models the logic of the trove-clock page (`script.js`): a focus/break
countdown timer driven by a one-second repeating callback, the counter of completed focus
sessions and its row of plant slots, the minutes:seconds display, the duration settings
with their fallbacks, the persistence of the counter and settings in `localStorage`, and the
to-do list whose first open task labels the page.

Modules:

- `Pomodoro` (`pomodoro.dfy`): the `timerState` record. `Engine` is the state as a value, and
  one function per operation (`Start`, `Pause`, `Toggle`, `Tick`, `Complete`, `SwitchToFocus`,
  `SwitchToBreak`, `Reset`, `SetFocusTime`, `SetBreakTime`, `LoadSettings`) says what it does.
  The lemmas state what the timer promises. The class `Timer` holds the same fields and
  updates them in place, and each method is proved to do what its function says.
  `setInterval`/`clearInterval` are modelled by the ghost counter `liveIntervals`, the number
  of scheduled callbacks not yet cleared. The callback body is the method `OnInterval`, which
  the environment calls while a callback is live. The invariant `Inv` says exactly one
  callback is live while running and none while idle, so starting twice never schedules two.
  It also says a running timer has time left.
- `Todo` (`todo.dfy`): `todoState.items` as a class over a sequence of `{id, text, completed}`
  records, with the filter, find-and-flip and label choice as functions.
- `ClockFace` (`clock_face.dfy`): the `updateDisplay` split and padding, and the plant-slot loop.
- `Storage` (`storage.dfy`): the `localStorage` entries as a `map<string, string>`, the
  save/load of the session counter, and the fallback used when settings are loaded.
- `Decimal` (`decimal.dfy`): `String(n)` for integers, `padStart`, and `parseInt(s, 10)`.
- `Wrappers` (`wrappers.dfy`): `Option`.

Behaviour of the code that a reader might not expect, and that the model keeps:

- A negative duration entry is kept. `parseInt(v) || 25` replaces only NaN and 0, so `-5`
  gives a focus duration of -300 seconds (`SetFocusTimeNegative`). It does not fall back to 1500.
- Durations and the time left can therefore be negative. "The time left is never negative"
  holds only while both durations are positive (`StepKeepsSane`).
- The time left does not stay at 0 after `n` ticks. The tick that reaches 0 completes the
  period, and the time left becomes the next mode's duration (`CountDownToCompletion`).
- Switching to the other mode starts the timer only when that mode's duration is positive
  (`OtherModeButtonSwitches`).
- A negative time left is displayed inconsistently: -5 seconds shows as "-1" and "-5"
  (`SplitNegative`).

## Model

| member | source | states |
|---|---|---|
| `Pomodoro.Timer.constructor` | script.js:1-9 | The record starts in focus mode, idle, with 1500 s focus, 300 s break, 1500 s left, no session and no live callback. |
| `Pomodoro.InitialInvariants` | script.js:1-9 | The initial record satisfies the scheduling invariant, has positive durations and a non-negative time left. |
| `Pomodoro.Timer.LoadTimerSettings` | script.js:36-46 | Loading applies `LoadSettings` to the record. The parsed record is present exactly when the store holds a non-empty settings entry, and without one nothing changes. The invariant is kept when loading happens before any start. |
| `Pomodoro.LoadSettingsEffect` | script.js:40-42 | A missing or zero stored field falls back to 1500 or 300. The time left becomes the focus duration. Neither duration is 0 afterwards. Mode, running flag and counter are unchanged. |
| `Pomodoro.SettingsRoundTrip` | script.js:40-53 | A stored record whose durations are non-zero loads back unchanged. |
| `Pomodoro.StepKeepsDurationsNonZero` | script.js:504-526 | No command makes a duration 0, so saved settings always read back unchanged. |
| `Storage.OrElse` | script.js:505 | The logical-or fallback on a number: a present non-zero value is kept, a missing value or 0 gives the fallback, and the result is never 0 when the fallback is not 0. |
| `Storage.SessionsRoundTrip` | script.js:100-110 | Saving the counter as `String(n)` and reading it back with `parseInt(saved, 10)` gives `n`. No other storage entry changes. |
| `Decimal.TrimStart` | script.js:103 | `parseInt` skips exactly the leading white space: every character removed is white space, and the rest is a suffix that does not start with white space. |
| `Decimal.ParseIntToString` | script.js:103 | `parseInt(String(i), 10)` is `i` for every integer `i`. |
| `Decimal.NatToDecimal` | script.js:184 | `String(n)` of a non-negative integer is a non-empty string of digits. It has no leading zero unless `n` is 0. |
| `Decimal.NatToDecimalValue` | script.js:184 | The digits `String(n)` writes have the value `n`. |
| `Decimal.PadStart` | script.js:184-185 | `padStart(2, '0')` gives length max(2, original). The original is kept as the suffix, so nothing is truncated, and only '0' is added in front. |
| `ClockFace.SplitExact` | script.js:180-182 | For a time left that is not negative, minutes * 60 + seconds is the time left and the seconds are between 0 and 59. |
| `ClockFace.SplitNegative` | script.js:180-182 | For a negative time left that is not a whole number of minutes, the floored minutes and the signed remainder do not add back up to the time. |
| `ClockFace.ShowClockReadsBack` | script.js:180-186 | For a time left that is not negative, the seconds text is exactly two digits and the minutes text at least two. Reading both texts back as decimals gives minutes * 60 + seconds = time left. |
| `ClockFace.UpdatePlantDisplay` | script.js:112-124 | After the loop, slot index `k` (slot `k+1` on the page) shows a grown plant exactly when `k < sessionsCompleted`. |
| `Pomodoro.Timer.ToggleTimer` | script.js:188-194 | Toggling applies `Toggle` and keeps the invariant. |
| `Pomodoro.ToggleEffect` | script.js:188-218 | Toggling flips `isRunning` unless it is a refused start. Time left, mode, durations, counter and storage stay as they were. |
| `Pomodoro.ToggleTwice` | script.js:188-218 | From a state satisfying the invariant, toggling twice gives the same state back. |
| `Pomodoro.Timer.StartTimer` | script.js:196-210 | Starting applies `Start`: it is refused while running or with no time left, and otherwise sets running and schedules one callback. |
| `Pomodoro.StartEffect` | script.js:196-210 | A start changes nothing while running or when time left <= 0. Otherwise it only sets running and adds one live callback. |
| `Pomodoro.StartIdempotent` | script.js:196-210 | Starting twice is the same as starting once, so no second callback is scheduled. |
| `Pomodoro.Timer.PauseTimer` | script.js:212-218 | Pausing applies `Pause`: it is refused while idle, and otherwise clears running and the live callback. |
| `Pomodoro.PauseEffect` | script.js:212-218 | A pause changes nothing while idle. From a running state with exactly one live callback (the invariant `Inv`), it clears running and leaves no live callback. |
| `Pomodoro.StepKeepsInv` | script.js:196-218 | Every command and every tick keeps the invariant: one live callback iff running, and time left > 0 while running. |
| `Pomodoro.Timer.OnInterval` | script.js:202-208 | The callback, called only while a callback is live, applies `Tick` and keeps the invariant. |
| `Pomodoro.TickEffect` | script.js:202-208 | A tick takes exactly one second off. It completes the period exactly when the new time left is <= 0, and only then does the mode change. |
| `Pomodoro.CountDown` | script.js:202-208 | While `n` is below the time left, `n` ticks of a running timer give the same state with the time left reduced by `n`. |
| `Pomodoro.CountDownToCompletion` | script.js:202-208 | After exactly `timeLeft` ticks a running timer is in the state that completing a period at 0 gives. |
| `Pomodoro.StepKeepsSane` | script.js:196-210 | With positive durations, every command keeps the time left non-negative and the durations positive. The exception is a setter given a negative number. |
| `Pomodoro.DefaultFocusPeriod` | script.js:202-208 | With the defaults, start and 1500 ticks give break mode with 300 s left. The timer is running, and one session is counted and saved. |
| `Pomodoro.Timer.ResetTimer` | script.js:220-229 | Reset applies `Reset` and keeps the invariant. |
| `Pomodoro.ResetFromAnyState` | script.js:220-229 | From any state, reset gives focus mode, idle, time left = focus duration and a counter of 0 that is also saved. The durations are unchanged. From a state with one live callback iff running, no callback is left live. |
| `Pomodoro.Timer.SwitchToFocusMode` | script.js:231-248 | The focus button applies `SwitchToFocus`. It keeps the invariant from any state with one live callback iff running. |
| `Pomodoro.Timer.SwitchToBreakMode` | script.js:250-265 | The break button applies `SwitchToBreak`, with the same invariant. |
| `Pomodoro.SameModeButtonToggles` | script.js:231-265 | Pressing the button of the current mode is exactly a toggle, and the time left is not reset. |
| `Pomodoro.OtherModeButtonSwitches` | script.js:231-265 | Pressing the other mode's button sets that mode and its full duration. The timer runs afterwards iff that duration is positive. Counter and storage are unchanged. |
| `Pomodoro.Timer.SaveSessionsCompleted` | script.js:108-110 | Only the sessions entry of the store changes, and it becomes `String(sessionsCompleted)`. |
| `Pomodoro.Timer.TimerComplete` | script.js:304-316 | Completion applies `Complete` and restores the invariant. |
| `Pomodoro.CompleteFocus` | script.js:304-316 | Completing focus adds exactly 1 to the counter and saves it. It moves to break with time left = break duration, running iff that is positive. |
| `Pomodoro.CompleteBreak` | script.js:304-316 | Completing a break moves to focus with time left = focus duration, running iff that is positive. The counter and storage are unchanged. |
| `Pomodoro.Timer.UpdateFocusTime` | script.js:504-514 | The focus input applies `SetFocusTime` and keeps the invariant. |
| `Pomodoro.SetFocusTimeEffect` | script.js:504-514 | The focus duration becomes parsed minutes * 60, with 25 only for NaN or 0, and the settings are saved. The time left is overwritten only when idle in focus mode. Running flag, mode, counter and break duration are untouched. |
| `Pomodoro.SetFocusTimeIdle` | script.js:504-514 | Entering 10 while idle in focus mode gives a focus duration of 600 and a time left of 600. |
| `Pomodoro.SetFocusTimeNegative` | script.js:505-506 | Entering -5 gives a focus duration of -300: a negative entry is not replaced. |
| `Pomodoro.Timer.UpdateBreakTime` | script.js:516-526 | The break input applies `SetBreakTime` and keeps the invariant. |
| `Pomodoro.SetBreakTimeEffect` | script.js:516-526 | The break duration becomes parsed minutes * 60, with 5 only for NaN or 0, and the settings are saved. The time left is overwritten only when idle in break mode. Running flag, mode, counter and focus duration are untouched. |
| `Todo.TodoList.constructor` | script.js:11-14 | The list starts empty. |
| `Todo.TodoList.AddItem` | script.js:349-360 | Adding appends exactly one item, with the given id and text and not completed, after the existing items in order. |
| `Todo.TaskLabelAfterAdd` | script.js:349-389 | After an add the label is unchanged if some task was open, and otherwise it is the new task's text. |
| `Todo.TodoList.DeleteItem` | script.js:362-367 | Deleting replaces the items with `Without(items, id)`. |
| `Todo.WithoutMembers` | script.js:363 | The items kept are exactly those of the list whose id differs. |
| `Todo.WithoutAppend` | script.js:363 | Filtering distributes over concatenation, so the kept items keep their order. |
| `Todo.WithoutCounts` | script.js:363 | Every copy of an item with a different id is kept, and no item with the id remains. |
| `Todo.WithoutAbsent` | script.js:363 | Deleting an id that no item has changes nothing. |
| `Todo.FirstIndexOf` | script.js:370 | `find` stops at the first item with the id. When there is none, no item has it. |
| `Todo.TodoList.ToggleItem` | script.js:369-377 | Toggling replaces the items with `Toggled(items, id)`. |
| `Todo.ToggledEffect` | script.js:369-377 | Only the first item with the id has `completed` flipped. All other items, the order and the length stay. Without a match nothing changes. |
| `Todo.ToggleTwice` | script.js:369-377 | Toggling the same id twice gives the list back. |
| `Todo.TaskLabel` | script.js:379-389 | The label is the text of the first item not completed, or "Plans for today?" when every item is completed. |

## Left out

- DOM reads and writes, event-listener wiring, button texts and classes (script.js:126-178, 267-279): these are display effects. The model exposes the handlers as methods instead.
- Real time: `setInterval`/`clearInterval` are replaced by the `liveIntervals` counter and an explicit `OnInterval` call. The numeric value of `intervalId` is not modelled.
- Notifications: the permission request and `playNotification` (script.js:281-302, 318-330) are asynchronous browser calls with no effect on the timer state.
- Night mode, fonts, the settings panel, and `loadDisplaySettings`/`saveDisplaySettings` (script.js:56-85, 456-502): cosmetic.
- Plant DOM handling other than the grown-plant rule: `clearAllPlants` hiding the empty pots, `showCurrentPlantEmpty` and `growCurrentPlant` (script.js:420-453). These are visual only.
- Rendering of the to-do list, `togglePlans` and `toggleTodoList` (script.js:333-347, 391-417): visual only.
- `JSON.parse` and the JSON form of the to-do items (script.js:87-98): `LoadTimerSettings` takes the object `JSON.parse` returns, reduced to two optional integer fields. A field holding a truthy non-number is not modelled. A malformed entry that makes `JSON.parse` throw is not modelled either.
- `parseInt(e.target.value)` in the duration setters: the setters take its result as `Option<int>`, with `None` for NaN. The parsing of the input field's text is not modelled.
- Pomodoro.SettingsRoundTrip: that `JSON.parse(SettingsJson(f, b))` gives `Parsed(f, b)` is assumed, not proved, because `JSON.parse` is not modelled; the lemma starts from the parsed record.
- Loading the counter into the timer (script.js:100-106): a stored text that parses to NaN or to a negative number would make the page's counter NaN or negative, which the `nat` counter cannot hold. The model proves the save/load round trip on the store (`Storage.SessionsRoundTrip`), and the `Timer` class does not load the counter.
- `Date.now()` ids: the id is an input of `AddItem`, so ids may collide.
- JavaScript numbers are modelled as unbounded integers. Precision loss above 2^53 and the exponent form of `String(n)` for |n| >= 10^21 are not modelled.
- `ClockFace.UpdatePlantDisplay`: models only the grown-plant marker of each slot, not its empty pot, and the slots that exist on the page are given as an array.
