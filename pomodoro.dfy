/**
 * The focus/break countdown timer: the `timerState` record and the operations that start,
 * pause, tick, complete, reset and reconfigure it.
 *
 * `Engine` is the timer's state as a value and the functions below say what each operation
 * does to it; lemmas state what the page promises about them. The class `Timer` is the
 * mutable record the page updates in place; each of its methods is proved to change its
 * fields as the matching function says.
 *
 * The browser's `setInterval`/`clearInterval` are modelled by `liveIntervals`, the number of
 * repeating one-second callbacks scheduled and not cleared; the callback itself is `Tick`,
 * which the environment calls once per second while such a callback is live.
 */
module Pomodoro {
  import opened Wrappers
  import opened Decimal
  import opened Storage

  datatype Mode = Focus | Break

  const DEFAULT_FOCUS_MINUTES: int := 25
  const DEFAULT_BREAK_MINUTES: int := 5
  const DEFAULT_FOCUS_TIME: int := 25 * 60
  const DEFAULT_BREAK_TIME: int := 5 * 60

  /** The timer's state; times are in seconds, and `store` holds the entries of `localStorage`. */
  datatype Engine = Engine(
    mode: Mode,
    isRunning: bool,
    timeLeft: int,
    focusTime: int,
    breakTime: int,
    sessionsCompleted: nat,
    liveIntervals: nat,
    store: Store)

  /** The state before anything is loaded: focus mode, idle, 25 minutes of focus and 5 of break. */
  function Initial(store: Store): Engine {
    Engine(Focus, false, DEFAULT_FOCUS_TIME, DEFAULT_FOCUS_TIME, DEFAULT_BREAK_TIME, 0, 0, store)
  }

  /** `startTimer`: refused while running or when no time is left; otherwise schedules the tick. */
  function Start(s: Engine): Engine {
    if s.isRunning || s.timeLeft <= 0 then s
    else s.(isRunning := true, liveIntervals := s.liveIntervals + 1)
  }

  /** `pauseTimer`: refused while idle; otherwise clears the interval last scheduled. */
  function Pause(s: Engine): Engine {
    if !s.isRunning then s
    else s.(isRunning := false, liveIntervals := if s.liveIntervals > 0 then s.liveIntervals - 1 else 0)
  }

  /** `toggleTimer`. */
  function Toggle(s: Engine): Engine {
    if s.isRunning then Pause(s) else Start(s)
  }

  /** `resetTimer`: pause, back to focus with a full focus period, and the counter zeroed and saved. */
  function Reset(s: Engine): Engine {
    var p := Pause(s);
    p.(mode := Focus, timeLeft := p.focusTime, sessionsCompleted := 0, store := SaveSessions(p.store, 0))
  }

  /** `switchToFocus`, the focus button: a pause/resume control in focus mode, a switch otherwise. */
  function SwitchToFocus(s: Engine): Engine {
    if s.mode == Focus then
      (if s.isRunning then Pause(s) else Start(s))
    else
      var p := Pause(s);
      Start(p.(mode := Focus, timeLeft := p.focusTime))
  }

  /** `switchToBreak`, the break button. */
  function SwitchToBreak(s: Engine): Engine {
    if s.mode == Break then
      (if s.isRunning then Pause(s) else Start(s))
    else
      var p := Pause(s);
      Start(p.(mode := Break, timeLeft := p.breakTime))
  }

  /** `timerComplete`: pause; a finished focus period counts a session, saves it and switches to break; a finished break switches to focus. */
  function Complete(s: Engine): Engine {
    var p := Pause(s);
    if p.mode == Focus then
      var n := p.sessionsCompleted + 1;
      SwitchToBreak(p.(sessionsCompleted := n, store := SaveSessions(p.store, n)))
    else
      SwitchToFocus(p)
  }

  /** The body of the one-second callback: count down, and complete the period once nothing is left. */
  function Tick(s: Engine): Engine {
    var t := s.(timeLeft := s.timeLeft - 1);
    if t.timeLeft <= 0 then Complete(t) else t
  }

  /**
   * `updateFocusTime`: `parseInt` of the input (`None` for NaN) falls back to 25 when it is NaN
   * or 0, becomes the focus duration in seconds, is saved, and replaces the time left when the
   * timer is idle in focus mode.
   */
  function SetFocusTime(s: Engine, parsed: Option<int>): Engine {
    var f := OrElse(parsed, DEFAULT_FOCUS_MINUTES) * 60;
    var t := s.(focusTime := f, store := SaveSettings(s.store, f, s.breakTime));
    if t.mode == Focus && !t.isRunning then t.(timeLeft := f) else t
  }

  /** `updateBreakTime`: as `SetFocusTime`, for the break duration with fallback 5. */
  function SetBreakTime(s: Engine, parsed: Option<int>): Engine {
    var b := OrElse(parsed, DEFAULT_BREAK_MINUTES) * 60;
    var t := s.(breakTime := b, store := SaveSettings(s.store, s.focusTime, b));
    if t.mode == Break && !t.isRunning then t.(timeLeft := b) else t
  }

  /**
   * `loadTimerSettings`: nothing happens without a stored entry; otherwise a field that is
   * missing or 0 falls back to its default, and the time left becomes the focus duration.
   */
  function LoadSettings(s: Engine, saved: Option<SavedSettings>): Engine {
    match saved
    case None => s
    case Some(d) =>
      var f := OrElse(d.focusTime, DEFAULT_FOCUS_TIME);
      s.(focusTime := f, breakTime := OrElse(d.breakTime, DEFAULT_BREAK_TIME), timeLeft := f)
  }

  /** `n` one-second callbacks in a row. */
  function Ticks(s: Engine, n: nat): Engine
    decreases n
  {
    if n == 0 then s else Ticks(Tick(s), n - 1)
  }

  /** The events the page reacts to. */
  datatype Command =
    | FocusButton
    | BreakButton
    | ResetButton
    | ToggleCommand
    | FocusInput(parsed: Option<int>)
    | BreakInput(parsed: Option<int>)
    | IntervalFires

  function Step(s: Engine, c: Command): Engine {
    match c
    case FocusButton => SwitchToFocus(s)
    case BreakButton => SwitchToBreak(s)
    case ResetButton => Reset(s)
    case ToggleCommand => Toggle(s)
    case FocusInput(p) => SetFocusTime(s, p)
    case BreakInput(p) => SetBreakTime(s, p)
    case IntervalFires => Tick(s)
  }

  /** The browser runs the callback only while an interval is scheduled. */
  predicate Enabled(s: Engine, c: Command) {
    c.IntervalFires? ==> s.liveIntervals > 0
  }

  /** Exactly one interval is live while running and none while idle. */
  predicate Scheduled(s: Engine) {
    s.liveIntervals == if s.isRunning then 1 else 0
  }

  /** The timer's invariant: one interval iff running, and a running timer has time left. */
  predicate Inv(s: Engine) {
    Scheduled(s) && (s.isRunning ==> s.timeLeft > 0)
  }

  /** Positive durations and a time left that is not negative. */
  predicate Sane(s: Engine) {
    s.focusTime > 0 && s.breakTime > 0 && s.timeLeft >= 0
  }

  /** Neither duration is 0, so that the stored settings read back unchanged. */
  predicate DurationsNonZero(s: Engine) {
    s.focusTime != 0 && s.breakTime != 0
  }

  /** A command keeps `Sane` unless it sets a duration from a negative number. */
  predicate KeepsDurationsPositive(c: Command) {
    (c.FocusInput? ==> OrElse(c.parsed, DEFAULT_FOCUS_MINUTES) > 0)
    && (c.BreakInput? ==> OrElse(c.parsed, DEFAULT_BREAK_MINUTES) > 0)
  }

  // ---------------------------------------------------------------------------
  // Starting, pausing, toggling
  // ---------------------------------------------------------------------------

  /** `startTimer` changes nothing while running or when no time is left; otherwise it only starts the timer. */
  lemma StartEffect(s: Engine)
    ensures s.isRunning || s.timeLeft <= 0 ==> Start(s) == s
    ensures !s.isRunning && s.timeLeft > 0 ==>
      Start(s) == s.(isRunning := true, liveIntervals := s.liveIntervals + 1)
  {
  }

  /** Starting twice schedules no second interval. */
  lemma StartIdempotent(s: Engine)
    ensures Start(Start(s)) == Start(s)
  {
  }

  /** `pauseTimer` changes nothing while idle; from a valid running state it stops and leaves no interval. */
  lemma PauseEffect(s: Engine)
    ensures !s.isRunning ==> Pause(s) == s
    ensures Inv(s) && s.isRunning ==> Pause(s) == s.(isRunning := false, liveIntervals := 0)
  {
  }

  /**
   * `toggleTimer` flips `isRunning` unless it is a refused start, and never changes the time
   * left, the mode, the durations, the counter or the store.
   */
  lemma ToggleEffect(s: Engine)
    ensures var r := Toggle(s);
      && (r.isRunning != s.isRunning <==> s.isRunning || s.timeLeft > 0)
      && r.timeLeft == s.timeLeft && r.mode == s.mode && r.sessionsCompleted == s.sessionsCompleted
      && r.focusTime == s.focusTime && r.breakTime == s.breakTime && r.store == s.store
  {
  }

  /** Toggling twice gives back the state toggled from. */
  lemma ToggleTwice(s: Engine)
    requires Inv(s)
    ensures Toggle(Toggle(s)) == s
  {
  }

  // ---------------------------------------------------------------------------
  // Mode buttons and completion
  // ---------------------------------------------------------------------------

  /** Pressing the button of the current mode is `toggleTimer`: the time left is not reset. */
  lemma SameModeButtonToggles(s: Engine)
    ensures s.mode == Focus ==> SwitchToFocus(s) == Toggle(s)
    ensures s.mode == Break ==> SwitchToBreak(s) == Toggle(s)
  {
  }

  /**
   * Pressing the other mode's button switches to that mode with its full duration, and
   * the timer runs afterwards exactly when that duration is positive.
   */
  lemma OtherModeButtonSwitches(s: Engine)
    requires Scheduled(s)
    ensures s.mode == Break ==> var r := SwitchToFocus(s);
      && r.mode == Focus && r.timeLeft == s.focusTime && r.isRunning == (s.focusTime > 0)
      && r.sessionsCompleted == s.sessionsCompleted && r.store == s.store && Inv(r)
    ensures s.mode == Focus ==> var r := SwitchToBreak(s);
      && r.mode == Break && r.timeLeft == s.breakTime && r.isRunning == (s.breakTime > 0)
      && r.sessionsCompleted == s.sessionsCompleted && r.store == s.store && Inv(r)
  {
  }

  /**
   * Completing a focus period counts exactly one session, saves it, and goes to break with a
   * full break period, running again exactly when the break duration is positive.
   */
  lemma CompleteFocus(s: Engine)
    requires Scheduled(s) && s.mode == Focus
    ensures var r := Complete(s);
      && r.mode == Break && r.timeLeft == s.breakTime && r.isRunning == (s.breakTime > 0)
      && r.sessionsCompleted == s.sessionsCompleted + 1
      && r.focusTime == s.focusTime && r.breakTime == s.breakTime
      && LoadSessions(r.store) == Some(Int(r.sessionsCompleted))
      && Inv(r)
  {
    var p := Pause(s);
    SessionsRoundTrip(p.store, p.sessionsCompleted + 1);
  }

  /**
   * Completing a break goes to focus with a full focus period and the counter unchanged,
   * running again exactly when the focus duration is positive.
   */
  lemma CompleteBreak(s: Engine)
    requires Scheduled(s) && s.mode == Break
    ensures var r := Complete(s);
      && r.mode == Focus && r.timeLeft == s.focusTime && r.isRunning == (s.focusTime > 0)
      && r.sessionsCompleted == s.sessionsCompleted
      && r.focusTime == s.focusTime && r.breakTime == s.breakTime && r.store == s.store
      && Inv(r)
  {
  }

  // ---------------------------------------------------------------------------
  // Ticking
  // ---------------------------------------------------------------------------

  /**
   * A tick takes exactly one second off; it completes the period exactly when that leaves
   * nothing, and otherwise changes nothing else.
   */
  lemma TickEffect(s: Engine)
    requires Scheduled(s)
    ensures s.timeLeft - 1 > 0 ==> Tick(s) == s.(timeLeft := s.timeLeft - 1)
    ensures s.timeLeft - 1 <= 0 ==> Tick(s) == Complete(s.(timeLeft := s.timeLeft - 1))
    ensures Tick(s).mode != s.mode <==> s.timeLeft - 1 <= 0
  {
  }

  /** While time is left, `n` ticks count a running timer down by exactly `n` and change nothing else. */
  lemma {:induction false} CountDown(s: Engine, n: nat)
    requires Inv(s) && s.isRunning && n < s.timeLeft
    ensures Ticks(s, n) == s.(timeLeft := s.timeLeft - n)
    decreases n
  {
    if n > 0 {
      var t := Tick(s);
      assert t == s.(timeLeft := s.timeLeft - 1);
      CountDown(t, n - 1);
    }
  }

  /**
   * A running timer completes after exactly `timeLeft` ticks: the state is that of
   * `timerComplete` on the period at 0, so the countdown never goes below 0 on the way.
   */
  lemma {:induction false} CountDownToCompletion(s: Engine)
    requires Inv(s) && s.isRunning
    ensures Ticks(s, s.timeLeft) == Complete(s.(timeLeft := 0))
    decreases s.timeLeft
  {
    var t := Tick(s);
    if s.timeLeft == 1 {
      assert Ticks(s, 1) == t;
    } else {
      assert t == s.(timeLeft := s.timeLeft - 1);
      CountDownToCompletion(t);
    }
  }

  /**
   * With the default durations, starting and letting 1500 ticks pass completes one focus
   * period: the timer is in break mode with 300 seconds left, running, one session counted and saved.
   */
  lemma DefaultFocusPeriod(store: Store)
    ensures var r := Ticks(Start(Initial(store)), 1500);
      && r.mode == Break && r.timeLeft == 300 && r.isRunning && r.sessionsCompleted == 1
      && LoadSessions(r.store) == Some(Int(1))
  {
    var s := Start(Initial(store));
    CountDownToCompletion(s);
    CompleteFocus(s.(timeLeft := 0));
  }

  // ---------------------------------------------------------------------------
  // Reset and settings
  // ---------------------------------------------------------------------------

  /**
   * From any state, reset gives focus mode, idle, a full focus period and a zero counter that
   * is saved; the durations are unchanged and no interval is left live.
   */
  lemma ResetFromAnyState(s: Engine)
    ensures var r := Reset(s);
      && r.mode == Focus && !r.isRunning && r.timeLeft == s.focusTime && r.sessionsCompleted == 0
      && r.focusTime == s.focusTime && r.breakTime == s.breakTime
      && LoadSessions(r.store) == Some(Int(0))
      && (Scheduled(s) ==> r.liveIntervals == 0)
  {
    SessionsRoundTrip(Pause(s).store, 0);
  }

  /**
   * `updateFocusTime` sets the focus duration to the parsed minutes times 60, with 25 in
   * place of NaN or 0; it touches the time left only when idle in focus mode, and never
   * the running flag, the mode, the counter or the break duration.
   */
  lemma SetFocusTimeEffect(s: Engine, parsed: Option<int>)
    ensures var r := SetFocusTime(s, parsed);
      && r.focusTime == (if parsed.None? || parsed.value == 0 then 25 else parsed.value) * 60
      && r.focusTime != 0
      && r.timeLeft == (if s.mode == Focus && !s.isRunning then r.focusTime else s.timeLeft)
      && r.isRunning == s.isRunning && r.mode == s.mode && r.sessionsCompleted == s.sessionsCompleted
      && r.breakTime == s.breakTime && r.liveIntervals == s.liveIntervals
      && r.store == s.store[TIMER_SETTINGS_KEY := SettingsJson(r.focusTime, r.breakTime)]
  {
  }

  /** `updateBreakTime`, the same for the break duration with 5 in place of NaN or 0. */
  lemma SetBreakTimeEffect(s: Engine, parsed: Option<int>)
    ensures var r := SetBreakTime(s, parsed);
      && r.breakTime == (if parsed.None? || parsed.value == 0 then 5 else parsed.value) * 60
      && r.breakTime != 0
      && r.timeLeft == (if s.mode == Break && !s.isRunning then r.breakTime else s.timeLeft)
      && r.isRunning == s.isRunning && r.mode == s.mode && r.sessionsCompleted == s.sessionsCompleted
      && r.focusTime == s.focusTime && r.liveIntervals == s.liveIntervals
      && r.store == s.store[TIMER_SETTINGS_KEY := SettingsJson(r.focusTime, r.breakTime)]
  {
  }

  /** Ten minutes entered while idle in focus mode show at once as 600 seconds. */
  lemma SetFocusTimeIdle(s: Engine)
    requires s.mode == Focus && !s.isRunning
    ensures SetFocusTime(s, Some(10)).focusTime == 600 && SetFocusTime(s, Some(10)).timeLeft == 600
  {
  }

  /** A negative entry is not replaced by the default: -5 minutes become -300 seconds. */
  lemma SetFocusTimeNegative(s: Engine)
    ensures SetFocusTime(s, Some(-5)).focusTime == -300
  {
  }

  /** Loading settings: a missing or zero field falls back to 1500 or 300, and the time left is the focus duration. */
  lemma LoadSettingsEffect(s: Engine, d: SavedSettings)
    ensures var r := LoadSettings(s, Some(d));
      && r.focusTime == (if d.focusTime.None? || d.focusTime.value == 0 then 1500 else d.focusTime.value)
      && r.breakTime == (if d.breakTime.None? || d.breakTime.value == 0 then 300 else d.breakTime.value)
      && r.timeLeft == r.focusTime && DurationsNonZero(r)
      && r.mode == s.mode && r.isRunning == s.isRunning && r.sessionsCompleted == s.sessionsCompleted
  {
  }

  /** Durations that are not 0 are restored unchanged by loading what was saved. */
  lemma SettingsRoundTrip(s: Engine, t: Engine)
    requires DurationsNonZero(s)
    ensures var r := LoadSettings(t, Some(Parsed(s.focusTime, s.breakTime)));
      r.focusTime == s.focusTime && r.breakTime == s.breakTime
  {
  }

  // ---------------------------------------------------------------------------
  // Invariants over every command
  // ---------------------------------------------------------------------------

  /** The initial state satisfies every invariant. */
  lemma InitialInvariants(store: Store)
    ensures Inv(Initial(store)) && Sane(Initial(store)) && DurationsNonZero(Initial(store))
  {
  }

  /** Every command keeps one interval live iff running, and keeps a running timer's time positive. */
  lemma StepKeepsInv(s: Engine, c: Command)
    requires Inv(s) && Enabled(s, c)
    ensures Inv(Step(s, c))
  {
  }

  /** Durations stay non-zero under every command, so the saved settings always read back unchanged. */
  lemma StepKeepsDurationsNonZero(s: Engine, c: Command)
    requires DurationsNonZero(s)
    ensures DurationsNonZero(Step(s, c))
  {
  }

  /**
   * With positive durations the time left is never negative: every command keeps `Sane`
   * except a duration set from a negative number.
   */
  lemma StepKeepsSane(s: Engine, c: Command)
    requires Inv(s) && Sane(s) && Enabled(s, c) && KeepsDurationsPositive(c)
    ensures Sane(Step(s, c))
  {
  }

  // ---------------------------------------------------------------------------
  // The mutable timer record
  // ---------------------------------------------------------------------------

  /** `timerState`, updated in place by the page's handlers. */
  class Timer {
    var mode: Mode
    var isRunning: bool
    var timeLeft: int
    var focusTime: int
    var breakTime: int
    var sessionsCompleted: nat
    var store: Store
    /** Repeating callbacks scheduled by `setInterval` and not yet cleared. */
    ghost var liveIntervals: nat

    ghost function State(): Engine
      reads this
    {
      Engine(mode, isRunning, timeLeft, focusTime, breakTime, sessionsCompleted, liveIntervals, store)
    }

    ghost predicate Valid()
      reads this
    {
      Inv(State())
    }

    /** The record as the page declares it, over the browser's current storage. */
    constructor (store: Store)
      ensures State() == Initial(store) && Valid()
    {
      mode := Focus;
      isRunning := false;
      timeLeft := DEFAULT_FOCUS_TIME;
      focusTime := DEFAULT_FOCUS_TIME;
      breakTime := DEFAULT_BREAK_TIME;
      sessionsCompleted := 0;
      this.store := store;
      liveIntervals := 0;
    }

    /** Called once, at page load, before the timer has been started. */
    method LoadTimerSettings(saved: Option<SavedSettings>)
      requires Valid()
      requires saved.None? <==> !(TIMER_SETTINGS_KEY in store && store[TIMER_SETTINGS_KEY] != "")
      modifies this
      ensures State() == LoadSettings(old(State()), saved)
      ensures !old(isRunning) ==> Valid()
    {
      if saved.Some? {
        focusTime := OrElse(saved.value.focusTime, DEFAULT_FOCUS_TIME);
        breakTime := OrElse(saved.value.breakTime, DEFAULT_BREAK_TIME);
        timeLeft := focusTime;
      }
    }

    method StartTimer()
      modifies this
      ensures State() == Start(old(State()))
    {
      if isRunning || timeLeft <= 0 {
        return;
      }
      isRunning := true;
      liveIntervals := liveIntervals + 1;
    }

    method PauseTimer()
      modifies this
      ensures State() == Pause(old(State()))
    {
      if !isRunning {
        return;
      }
      isRunning := false;
      liveIntervals := if liveIntervals > 0 then liveIntervals - 1 else 0;
    }

    method ToggleTimer()
      requires Valid()
      modifies this
      ensures State() == Toggle(old(State())) && Valid()
    {
      if isRunning {
        PauseTimer();
      } else {
        StartTimer();
      }
    }

    method SaveSessionsCompleted()
      modifies this
      ensures State() == old(State()).(store := SaveSessions(old(store), old(sessionsCompleted)))
    {
      store := SaveSessions(store, sessionsCompleted);
    }

    method ResetTimer()
      requires Valid()
      modifies this
      ensures State() == Reset(old(State())) && Valid()
    {
      PauseTimer();
      mode := Focus;
      timeLeft := focusTime;
      sessionsCompleted := 0;
      SaveSessionsCompleted();
    }

    method SwitchToFocusMode()
      modifies this
      ensures State() == SwitchToFocus(old(State()))
      ensures old(Scheduled(State())) ==> Valid()
    {
      if mode == Focus {
        if isRunning {
          PauseTimer();
        } else {
          StartTimer();
        }
      } else {
        PauseTimer();
        mode := Focus;
        timeLeft := focusTime;
        StartTimer();
      }
    }

    method SwitchToBreakMode()
      modifies this
      ensures State() == SwitchToBreak(old(State()))
      ensures old(Scheduled(State())) ==> Valid()
    {
      if mode == Break {
        if isRunning {
          PauseTimer();
        } else {
          StartTimer();
        }
      } else {
        PauseTimer();
        mode := Break;
        timeLeft := breakTime;
        StartTimer();
      }
    }

    method TimerComplete()
      requires Scheduled(State())
      modifies this
      ensures State() == Complete(old(State())) && Valid()
    {
      PauseTimer();
      if mode == Focus {
        sessionsCompleted := sessionsCompleted + 1;
        SaveSessionsCompleted();
        SwitchToBreakMode();
      } else {
        SwitchToFocusMode();
      }
    }

    /** The interval callback; the browser calls it only while an interval is live. */
    method OnInterval()
      requires Valid() && liveIntervals > 0
      modifies this
      ensures State() == Tick(old(State())) && Valid()
    {
      timeLeft := timeLeft - 1;
      if timeLeft <= 0 {
        TimerComplete();
      }
    }

    method UpdateFocusTime(parsed: Option<int>)
      requires Valid()
      modifies this
      ensures State() == SetFocusTime(old(State()), parsed) && Valid()
    {
      focusTime := OrElse(parsed, DEFAULT_FOCUS_MINUTES) * 60;
      store := SaveSettings(store, focusTime, breakTime);
      if mode == Focus && !isRunning {
        timeLeft := focusTime;
      }
    }

    method UpdateBreakTime(parsed: Option<int>)
      requires Valid()
      modifies this
      ensures State() == SetBreakTime(old(State()), parsed) && Valid()
    {
      breakTime := OrElse(parsed, DEFAULT_BREAK_MINUTES) * 60;
      store := SaveSettings(store, focusTime, breakTime);
      if mode == Break && !isRunning {
        timeLeft := breakTime;
      }
    }
  }
}
