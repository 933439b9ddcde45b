/**
 * The page's use of `localStorage`, seen as a map from keys to strings. Only the entries the
 * timer engine reads and writes are modelled; `JSON.parse` is not (see README).
 */
module Storage {
  import opened Wrappers
  import opened Decimal

  type Store = map<string, string>

  const TIMER_SETTINGS_KEY: string := "trove_timer_settings"
  const SESSIONS_COMPLETED_KEY: string := "trove_sessions_completed"

  /** `saveSessionsCompleted`: the counter is stored as `String(n)`. */
  function SaveSessions(store: Store, n: int): Store {
    store[SESSIONS_COMPLETED_KEY := IntToString(n)]
  }

  /**
   * `loadSessionsCompleted`: nothing is loaded when the entry is missing or is the empty
   * string (both falsy); otherwise the entry is read with `parseInt(saved, 10)`.
   */
  function LoadSessions(store: Store): Option<Number> {
    if SESSIONS_COMPLETED_KEY in store && store[SESSIONS_COMPLETED_KEY] != "" then
      Some(ParseInt10(store[SESSIONS_COMPLETED_KEY]))
    else
      None
  }

  /** Saving the counter and loading it again gives the same counter, and no other entry changes. */
  lemma SessionsRoundTrip(store: Store, n: int)
    ensures LoadSessions(SaveSessions(store, n)) == Some(Int(n))
    ensures SaveSessions(store, n) - {SESSIONS_COMPLETED_KEY} == store - {SESSIONS_COMPLETED_KEY}
  {
    ParseIntToString(n);
  }

  /** `JSON.stringify({focusTime, breakTime})` for integer durations, as `saveTimerSettings` stores it. */
  function SettingsJson(focusTime: int, breakTime: int): string {
    "{\"focusTime\":" + IntToString(focusTime) + ",\"breakTime\":" + IntToString(breakTime) + "}"
  }

  /** `saveTimerSettings`. */
  function SaveSettings(store: Store, focusTime: int, breakTime: int): Store {
    store[TIMER_SETTINGS_KEY := SettingsJson(focusTime, breakTime)]
  }

  /**
   * The object `JSON.parse` returns for the stored timer settings, reduced to its two fields:
   * `None` stands for a field that is missing or holds a falsy non-number.
   */
  datatype SavedSettings = SavedSettings(focusTime: Option<int>, breakTime: Option<int>)

  /** The record `JSON.parse` gives back for what `SaveSettings` wrote. */
  function Parsed(focusTime: int, breakTime: int): SavedSettings {
    SavedSettings(Some(focusTime), Some(breakTime))
  }

  /** JavaScript's `v || fallback` on a number: the fallback replaces a missing value, NaN and 0. */
  function OrElse(v: Option<int>, fallback: int): (r: int)
    ensures v.Some? && v.value != 0 ==> r == v.value
    ensures v.None? || v.value == 0 ==> r == fallback
    ensures fallback != 0 ==> r != 0
  {
    if v.None? || v.value == 0 then fallback else v.value
  }
}
