/**
 * What the page shows of the timer: the two-field minutes:seconds countdown and the row
 * of plant slots, one grown plant per completed focus session.
 */
module ClockFace {
  import opened Decimal

  /** The two texts of the countdown display. */
  datatype Clock = Clock(minutes: string, seconds: string)

  /** `Math.floor(t / 60)`: Dafny's division by a positive divisor already rounds down. */
  function MinutesPart(t: int): int {
    t / 60
  }

  /** `t % 60` in JavaScript, whose remainder takes the sign of the dividend. */
  function SecondsPart(t: int): int {
    if t >= 0 then t % 60 else -((-t) % 60)
  }

  /** The countdown as displayed: each part converted with `String` and left-padded with '0' to two characters. */
  function ShowClock(timeLeft: int): Clock {
    Clock(PadStart(IntToString(MinutesPart(timeLeft)), 2, '0'),
          PadStart(IntToString(SecondsPart(timeLeft)), 2, '0'))
  }

  /** For a time that is not negative the split is exact: whole minutes and 0 to 59 seconds. */
  lemma SplitExact(t: int)
    requires t >= 0
    ensures MinutesPart(t) * 60 + SecondsPart(t) == t
    ensures 0 <= SecondsPart(t) < 60 && MinutesPart(t) >= 0
  {
  }

  /**
   * A negative time that is not a whole number of minutes is split inconsistently, because
   * the minutes round down while the seconds keep the sign: -5 shows as "-1" and "-5".
   */
  lemma SplitNegative(t: int)
    requires t < 0 && t % 60 != 0
    ensures MinutesPart(t) * 60 + SecondsPart(t) != t
    ensures MinutesPart(t) < 0 && SecondsPart(t) < 0
  {
  }

  /**
   * For a time that is not negative the display reads back as the time: the seconds field is
   * exactly two digits, the minutes field at least two, and minutes * 60 + seconds is `timeLeft`.
   */
  lemma ShowClockReadsBack(timeLeft: int)
    requires timeLeft >= 0
    ensures var c := ShowClock(timeLeft);
      && |c.seconds| == 2 && |c.minutes| >= 2
      && AllDigits(c.minutes) && AllDigits(c.seconds)
      && DigitsValue(c.minutes) * 60 + DigitsValue(c.seconds) == timeLeft
  {
    var m, s := MinutesPart(timeLeft), SecondsPart(timeLeft);
    var ms, ss := NatToDecimal(m), NatToDecimal(s);
    NatToDecimalShort(s);
    NatToDecimalValue(m);
    NatToDecimalValue(s);
    PaddedValue(ms);
    PaddedValue(ss);
  }

  /** Padding a digit string with zeros keeps it a digit string of the same value. */
  lemma PaddedValue(d: string)
    requires AllDigits(d)
    ensures AllDigits(PadStart(d, 2, '0')) && DigitsValue(PadStart(d, 2, '0')) == DigitsValue(d)
  {
    if |d| < 2 {
      LeadingZerosValue(Repeat('0', 2 - |d|), d);
    }
  }

  /**
   * `updatePlantDisplay`: every slot's grown plant is hidden, then for each completed session
   * `i` the plant of slot `i + 1` (index `i` here) is shown, when that slot exists.
   * Afterwards slot index `k` shows a grown plant exactly when `k < sessionsCompleted`.
   */
  method UpdatePlantDisplay(grown: array<bool>, sessionsCompleted: nat)
    modifies grown
    ensures forall k :: 0 <= k < grown.Length ==> (grown[k] <==> k < sessionsCompleted)
  {
    // clearAllPlants
    var j := 0;
    while j < grown.Length
      invariant 0 <= j <= grown.Length
      invariant forall k :: 0 <= k < j ==> !grown[k]
    {
      grown[j] := false;
      j := j + 1;
    }
    var i := 0;
    while i < sessionsCompleted
      invariant 0 <= i <= sessionsCompleted
      invariant forall k :: 0 <= k < grown.Length ==> (grown[k] <==> k < i)
    {
      if i < grown.Length {
        grown[i] := true;
      }
      i := i + 1;
    }
  }
}
