/**
 * The popup's own timer: a countdown in whole seconds held in the popup's
 * module-level variables, advanced by one `TimerTick` per second while the
 * popup is open. After the last session's break it stops rather than wraps.
 *
 * Extension storage appears as two fields of `Timer`: the saved settings
 * (`pomodoroSettings`) and the history of completed focus phases
 * (`pomodoroSessions`). The clock is the parameter `now`.
 */
module Popup {
  import opened Wrappers
  import opened Numeric

  const DEFAULT_FOCUS: int := 25
  const DEFAULT_BREAK: int := 5
  const DEFAULT_SESSIONS: int := 4

  /** Stepper bounds: focus minutes, break minutes, sessions per round. */
  const MAX_FOCUS: int := 60
  const MAX_BREAK: int := 30
  const MAX_SESSIONS: int := 12

  /** One completed focus phase; `focusDuration` is in seconds and `date`
      stands for the ISO time stamp taken when the record is saved. */
  datatype SessionRecord = SessionRecord(date: int, focusDuration: int)

  /** The object saved under `pomodoroSettings`. */
  datatype StoredSettings = StoredSettings(focusDuration: int, breakDuration: int, sessionCount: int)

  /** The `data-target` and `data-action` of a stepper button. */
  datatype StepTarget = FocusTarget | BreakTarget | SessionsTarget
  datatype StepAction = Increase | Decrease

  /** The class a progress dot gets besides `dot`. */
  datatype DotClass = Completed | Active | Upcoming

  /** `Math.min(hi, Math.max(lo, val))`. */
  function Clamp(val: int, lo: int, hi: int): (r: int)
    ensures r <= hi
    ensures lo <= hi ==> lo <= r
    ensures lo <= val <= hi ==> r == val
    ensures lo <= hi && val < lo ==> r == lo
    ensures val > hi ==> r == hi
  {
    var raised := if val < lo then lo else val;
    if hi < raised then hi else raised
  }

  // ---------------------------------------------------------------------
  // formatTime, with JavaScript's arithmetic and string conversion

  predicate IsDigit(c: char) { '0' <= c <= '9' }

  predicate AllDigits(s: string) {
    forall i :: 0 <= i < |s| ==> IsDigit(s[i])
  }

  function DigitChar(d: int): (c: char)
    requires 0 <= d < 10
    ensures IsDigit(c)
  {
    ('0' as int + d) as char
  }

  function DigitValue(c: char): int
    requires IsDigit(c)
  {
    c as int - '0' as int
  }

  /** The decimal numeral of `n`, without leading zeros. */
  function Digits(n: nat): (r: string)
    ensures 1 <= |r| && AllDigits(r)
    ensures n < 10 ==> |r| == 1
    ensures n >= 10 ==> r[0] != '0'
    decreases n
  {
    if n < 10 then [DigitChar(n)] else Digits(n / 10) + [DigitChar(n % 10)]
  }

  /** `n.toString()` for an integer `n`. */
  function ToString(n: int): (r: string)
    ensures n >= 0 ==> AllDigits(r) && Value(r) == n
    ensures n < 0 ==> |r| >= 2 && r[0] == '-' && AllDigits(r[1..]) && Value(r[1..]) == -n
    ensures n >= 0 ==> |r| >= 1 && (|r| == 1 || r[0] != '0')
    ensures n < 0 ==> |r| == 2 || r[1] != '0'
  {
    DigitsValue(if n < 0 then -n else n);
    if n < 0 then
      var d := Digits(-n);
      assert ("-" + d)[1..] == d;
      "-" + d
    else Digits(n)
  }

  function Repeat(c: char, n: nat): (r: string)
    ensures |r| == n
    ensures forall i :: 0 <= i < n ==> r[i] == c
  {
    seq(n, _ => c)
  }

  /** `s.padStart(width, fill)` for a one-character `fill`. */
  function PadStart(s: string, width: nat, fill: char): (r: string)
    ensures |r| == Max(|s|, width)
    ensures r[|r| - |s|..] == s
    ensures forall i :: 0 <= i < |r| - |s| ==> r[i] == fill
  {
    if |s| >= width then s else Repeat(fill, width - |s|) + s
  }

  /** JavaScript's `a % b`: the remainder takes the sign of `a`. */
  function JsRem(a: int, b: int): (r: int)
    requires b > 0
    ensures -b < r < b
    ensures a >= 0 ==> r >= 0
    ensures a <= 0 ==> r <= 0
    ensures (a - r) % b == 0
  {
    var x := if a >= 0 then a else -a;
    var q := x / b;
    assert x == b * q + x % b;
    if a >= 0 then
      MultipleRem(b, q);
      a % b
    else
      assert b * (-q) == -(b * q);
      MultipleRem(b, -q);
      -((-a) % b)
  }

  /** A multiple of `b` leaves no remainder. */
  lemma MultipleRem(b: int, k: int)
    requires b > 0
    ensures (b * k) % b == 0
  {
    var y := b * k;
    var m := k - y / b;
    assert y % b == b * m by {
      assert y == b * (y / b) + y % b;
      assert b * m == b * k - b * (y / b);
    }
  }

  /** `formatTime(seconds)`. `Math.floor(seconds / 60)` is Dafny's `/`, which
      rounds down when the divisor is positive. */
  function FormatTime(seconds: int): (r: string)
    ensures seconds >= 0 ==> |r| >= 5 && r[|r| - 3] == ':'
  {
    var m := PadStart(ToString(seconds / 60), 2, '0');
    var s := PadStart(ToString(JsRem(seconds, 60)), 2, '0');
    // The split only brings the width of the seconds field into scope for
    // the postcondition; both branches return the same display.
    if seconds >= 0 then
      SecondsFieldWidth(JsRem(seconds, 60));
      m + ":" + s
    else m + ":" + s
  }

  /** The number a string of decimal digits denotes (leading zeros allowed). */
  function Value(s: string): nat
    requires AllDigits(s)
  {
    if s == [] then 0 else Value(s[..|s| - 1]) * 10 + DigitValue(s[|s| - 1])
  }

  /** Reads back a displayed time: minutes, a colon, two digits of seconds. */
  function ParseTime(t: string): Option<int> {
    if |t| >= 4 && t[|t| - 3] == ':' && AllDigits(t[..|t| - 3]) && AllDigits(t[|t| - 2..])
    then Some(Value(t[..|t| - 3]) * 60 + Value(t[|t| - 2..]))
    else None
  }

  lemma {:induction false} DigitsValue(n: nat)
    ensures Value(Digits(n)) == n
    decreases n
  {
    if n >= 10 {
      DigitsValue(n / 10);
      var d := Digits(n);
      assert d[..|d| - 1] == Digits(n / 10);
    }
  }

  lemma {:induction false} ZerosValue(k: nat)
    ensures AllDigits(Repeat('0', k)) && Value(Repeat('0', k)) == 0
  {
    if k > 0 {
      var z := Repeat('0', k);
      assert z[..k - 1] == Repeat('0', k - 1);
      ZerosValue(k - 1);
    }
  }

  lemma {:induction false} LeadingZerosValue(k: nat, s: string)
    requires AllDigits(s)
    ensures AllDigits(Repeat('0', k) + s) && Value(Repeat('0', k) + s) == Value(s)
    decreases |s|
  {
    var z := Repeat('0', k);
    var t := z + s;
    if s == [] {
      assert t == z;
      ZerosValue(k);
    } else {
      assert t[..|t| - 1] == z + s[..|s| - 1];
      LeadingZerosValue(k, s[..|s| - 1]);
    }
  }

  /** Zero-padding a numeral does not change the number it denotes. */
  lemma PaddedValue(n: nat, width: nat)
    ensures AllDigits(PadStart(Digits(n), width, '0'))
    ensures Value(PadStart(Digits(n), width, '0')) == n
  {
    DigitsValue(n);
    var d := Digits(n);
    if |d| < width {
      LeadingZerosValue(width - |d|, d);
    }
  }

  lemma TwoDigitsAtMost(n: nat)
    requires n < 100
    ensures |Digits(n)| <= 2
  {
    if n >= 10 {
      assert Digits(n) == Digits(n / 10) + [DigitChar(n % 10)];
    }
  }

  /** Seconds past the minute always fill exactly the two padded places. */
  lemma SecondsFieldWidth(sec: int)
    requires 0 <= sec < 60
    ensures |PadStart(ToString(sec), 2, '0')| == 2
  {
    TwoDigitsAtMost(sec);
    assert ToString(sec) == Digits(sec);
  }

  /** Minutes and seconds joined by a colon can be cut apart again. */
  lemma JoinParts(m: string, s: string)
    requires |m| >= 2 && |s| == 2
    ensures var f := m + ":" + s;
      |f| >= 5 && f[|f| - 3] == ':' && f[..|f| - 3] == m && f[|f| - 2..] == s
  {
    var f := m + ":" + s;
    assert f[..|f| - 3] == m;
    assert f[|f| - 2..] == s;
  }

  /** `f` is a display of `mins` minutes and `secs` seconds: decimal
      minutes, a colon, then exactly two decimal digits. */
  predicate Shows(f: string, mins: int, secs: int) {
    |f| >= 5 && f[|f| - 3] == ':' &&
    AllDigits(f[..|f| - 3]) && Value(f[..|f| - 3]) == mins &&
    AllDigits(f[|f| - 2..]) && Value(f[|f| - 2..]) == secs
  }

  /** For a non-negative number of seconds the display is: the minutes,
      zero-padded to at least two digits, a colon, and the seconds past the
      minute in exactly two digits. */
  lemma FormatTimeParts(seconds: int)
    requires seconds >= 0
    ensures Shows(FormatTime(seconds), seconds / 60, seconds % 60)
    ensures |FormatTime(seconds)| - 3 == Max(2, |Digits(seconds / 60)|)
  {
    var mins, secs := seconds / 60, seconds % 60;
    assert JsRem(seconds, 60) == secs;
    var m := PadStart(Digits(mins), 2, '0');
    var s := PadStart(Digits(secs), 2, '0');
    assert FormatTime(seconds) == m + ":" + s;
    TwoDigitsAtMost(secs);
    PaddedValue(mins, 2);
    PaddedValue(secs, 2);
    JoinParts(m, s);
  }

  /** A well-shaped display of `seconds / 60` minutes and `seconds % 60`
      seconds reads back as `seconds`. */
  lemma ParseDisplay(f: string, seconds: int)
    requires Shows(f, seconds / 60, seconds % 60)
    ensures ParseTime(f) == Some(seconds)
  {
    assert (seconds / 60) * 60 + seconds % 60 == seconds;
  }

  /** Reading the display back gives the number of seconds shown. */
  lemma FormatTimeRoundTrip(seconds: int)
    requires seconds >= 0
    ensures ParseTime(FormatTime(seconds)) == Some(seconds)
  {
    FormatTimeParts(seconds);
    ParseDisplay(FormatTime(seconds), seconds);
  }

  /** A negative count keeps JavaScript's signs in both parts, for example
      at 65 seconds past zero. */
  lemma NegativeSecondsFormat()
    ensures FormatTime(-65) == "-2:-5"
  {
    assert -65 / 60 == -2;
    assert JsRem(-65, 60) == -5;
    assert ToString(-2) == "-2";
    assert ToString(-5) == "-5";
  }

  /** Any negative count shows a minus sign first, since the minutes round
      down; within the first minute below zero the display is `-1:`
      followed by the signed count itself. */
  lemma NegativeSecondsSigns(seconds: int)
    requires seconds < 0
    ensures FormatTime(seconds)[0] == '-'
    ensures -60 < seconds ==> FormatTime(seconds) == "-1:" + ToString(seconds)
  {
    var m := NegativeField(seconds / 60);
    var sec := PadStart(ToString(JsRem(seconds, 60)), 2, '0');
    assert FormatTime(seconds) == m + ":" + sec;
    if -60 < seconds {
      FirstMinuteBelowZero(seconds);
      sec := NegativeField(seconds);
    }
  }

  /** Within the first minute below zero the minutes round down to -1 and
      the remainder is the count itself. */
  lemma FirstMinuteBelowZero(seconds: int)
    requires -60 < seconds < 0
    ensures ToString(seconds / 60) == "-1"
    ensures JsRem(seconds, 60) == seconds
  {
    assert seconds / 60 == -1;
    assert Digits(1) == "1";
  }

  /** A negative number's numeral is already two places wide, so padding
      leaves it, minus sign first, as it is. */
  lemma NegativeField(n: int) returns (f: string)
    requires n < 0
    ensures f == PadStart(ToString(n), 2, '0') == ToString(n)
    ensures f[0] == '-'
  {
    f := ToString(n);
  }

  // ---------------------------------------------------------------------
  // renderProgressDots

  /** The class of dot `i` (counted from 1) when `current` is the session. */
  function DotFor(i: int, current: int): (r: DotClass)
    ensures r == Completed <==> i < current
    ensures r == Active <==> i == current
    ensures r == Upcoming <==> i > current
  {
    if i < current then Completed else if i == current then Active else Upcoming
  }

  /** The classes of dots 1 to `n`. */
  function DotRow(n: nat, current: int): (r: seq<DotClass>)
    ensures |r| == n
    ensures forall k :: 0 <= k < n ==> r[k] == DotFor(k + 1, current)
  {
    if n == 0 then [] else DotRow(n - 1, current) + [DotFor(n, current)]
  }

  /** How many of `dots` are of class `c`. */
  function Count(dots: seq<DotClass>, c: DotClass): nat {
    multiset(dots)[c]
  }

  /** Adding dot `n` to the row adds one to the count of its class. */
  lemma CountLastDot(n: nat, current: int, c: DotClass)
    requires n > 0
    ensures Count(DotRow(n, current), c) ==
      Count(DotRow(n - 1, current), c) + (if DotFor(n, current) == c then 1 else 0)
  {
    assert DotRow(n, current) == DotRow(n - 1, current) + [DotFor(n, current)];
  }

  /** Of `n` dots, the ones before `current` are completed. */
  lemma {:induction false} CompletedDots(n: nat, current: int)
    ensures Count(DotRow(n, current), Completed) == Clamp(current - 1, 0, n)
  {
    if n == 0 {
      assert DotRow(n, current) == [];
    } else {
      CompletedDots(n - 1, current);
      CompletedDotsStep(n, current);
    }
  }

  lemma CompletedDotsStep(n: nat, current: int)
    requires n > 0
    requires Count(DotRow(n - 1, current), Completed) == Clamp(current - 1, 0, n - 1)
    ensures Count(DotRow(n, current), Completed) == Clamp(current - 1, 0, n)
  {
    CountLastDot(n, current, Completed);
  }

  /** Of `n` dots, one is active exactly when `current` is among them. */
  lemma {:induction false} ActiveDots(n: nat, current: int)
    ensures Count(DotRow(n, current), Active) == if 1 <= current <= n then 1 else 0
  {
    if n == 0 {
      assert DotRow(n, current) == [];
    } else {
      ActiveDots(n - 1, current);
      ActiveDotsStep(n, current);
    }
  }

  lemma ActiveDotsStep(n: nat, current: int)
    requires n > 0
    requires Count(DotRow(n - 1, current), Active) == if 1 <= current <= n - 1 then 1 else 0
    ensures Count(DotRow(n, current), Active) == if 1 <= current <= n then 1 else 0
  {
    CountLastDot(n, current, Active);
  }

  /** Of `n` dots, the ones after `current` are upcoming. */
  lemma {:induction false} UpcomingDots(n: nat, current: int)
    ensures Count(DotRow(n, current), Upcoming) == n - Clamp(current, 0, n)
  {
    if n == 0 {
      assert DotRow(n, current) == [];
    } else {
      UpcomingDots(n - 1, current);
      UpcomingDotsStep(n, current);
    }
  }

  lemma UpcomingDotsStep(n: nat, current: int)
    requires n > 0
    requires Count(DotRow(n - 1, current), Upcoming) == (n - 1) - Clamp(current, 0, n - 1)
    ensures Count(DotRow(n, current), Upcoming) == n - Clamp(current, 0, n)
  {
    CountLastDot(n, current, Upcoming);
  }

  /** With the current session among the `n` dots: one active dot, the
      dots before it completed, the dots after it upcoming. */
  lemma RowCountsInRange(n: nat, current: int)
    requires 1 <= current <= n
    ensures Count(DotRow(n, current), Active) == 1
    ensures Count(DotRow(n, current), Completed) == current - 1
    ensures Count(DotRow(n, current), Upcoming) == n - current
  {
    CompletedDots(n, current);
    ActiveDots(n, current);
    UpcomingDots(n, current);
  }

  // ---------------------------------------------------------------------
  // The popup's state and its handlers

  class Timer {
    var focusDuration: int
    var breakDuration: int
    var sessionCount: int
    var currentSession: int
    var isFocusPhase: bool
    var timerSeconds: int
    var isRunning: bool
    /** `pomodoroSettings` in extension storage. */
    var storedSettings: Option<StoredSettings>
    /** `pomodoroSessions` in extension storage. */
    var history: seq<SessionRecord>

    /** The popup opens: the state variables take their initial values;
        storage holds what earlier popups saved. */
    constructor (settingsInStorage: Option<StoredSettings>, historyInStorage: seq<SessionRecord>)
      ensures focusDuration == DEFAULT_FOCUS && breakDuration == DEFAULT_BREAK
      ensures sessionCount == DEFAULT_SESSIONS
      ensures currentSession == 1 && isFocusPhase && !isRunning
      ensures timerSeconds == DEFAULT_FOCUS * 60
      ensures storedSettings == settingsInStorage && history == historyInStorage
    {
      focusDuration := DEFAULT_FOCUS;
      breakDuration := DEFAULT_BREAK;
      sessionCount := DEFAULT_SESSIONS;
      currentSession := 1;
      isFocusPhase := true;
      timerSeconds := DEFAULT_FOCUS * 60;
      isRunning := false;
      storedSettings := settingsInStorage;
      history := historyInStorage;
    }

    predicate SessionInRange()
      reads this
    {
      1 <= currentSession <= sessionCount
    }

    predicate SettingsInRange()
      reads this
    {
      1 <= focusDuration <= MAX_FOCUS && 1 <= breakDuration <= MAX_BREAK &&
      1 <= sessionCount <= MAX_SESSIONS
    }

    method SaveSettings()
      modifies this`storedSettings
      ensures storedSettings == Some(StoredSettings(focusDuration, breakDuration, sessionCount))
    {
      storedSettings := Some(StoredSettings(focusDuration, breakDuration, sessionCount));
    }

    /** Appends one record to the history. */
    method SaveSessionRecord(focusSeconds: int, now: int)
      modifies this`history
      ensures history == old(history) + [SessionRecord(now, focusSeconds)]
    {
      history := history + [SessionRecord(now, focusSeconds)];
    }

    /** Starting a running timer does nothing. */
    method StartTimer()
      modifies this`isRunning
      ensures isRunning
    {
      if isRunning {
        return;
      }
      isRunning := true;
    }

    /** Stopping a stopped timer does nothing. */
    method StopTimer()
      modifies this`isRunning
      ensures !isRunning
    {
      if !isRunning {
        return;
      }
      isRunning := false;
    }

    /** The play/pause button. */
    method OnPlayPause()
      modifies this`isRunning
      ensures isRunning == !old(isRunning)
    {
      if isRunning {
        StopTimer();
      } else {
        StartTimer();
      }
    }

    /** Back to the first focus phase at full length, stopped. */
    method ResetTimer()
      modifies this`isRunning, this`currentSession, this`isFocusPhase, this`timerSeconds
      ensures !isRunning && currentSession == 1 && isFocusPhase
      ensures timerSeconds == focusDuration * 60
      ensures sessionCount >= 1 ==> SessionInRange()
    {
      StopTimer();
      currentSession := 1;
      isFocusPhase := true;
      timerSeconds := focusDuration * 60;
    }

    /** One second passes. While time is left it counts down. At zero a focus
        phase is recorded in the history and a break follows; a break is
        followed by the next session's focus phase, or, after the last
        session, the timer stops where it is. */
    method TimerTick(now: int)
      modifies this`timerSeconds, this`isFocusPhase, this`currentSession, this`isRunning, this`history
      ensures old(timerSeconds) > 0 ==>
        timerSeconds == old(timerSeconds) - 1 &&
        isFocusPhase == old(isFocusPhase) && currentSession == old(currentSession) &&
        isRunning == old(isRunning) && history == old(history)
      ensures old(timerSeconds) <= 0 && old(isFocusPhase) ==>
        history == old(history) + [SessionRecord(now, focusDuration * 60)] &&
        !isFocusPhase && timerSeconds == breakDuration * 60 &&
        currentSession == old(currentSession) && isRunning == old(isRunning)
      ensures old(timerSeconds) <= 0 && !old(isFocusPhase) && old(currentSession) < sessionCount ==>
        currentSession == old(currentSession) + 1 &&
        isFocusPhase && timerSeconds == focusDuration * 60 &&
        isRunning == old(isRunning) && history == old(history)
      ensures old(timerSeconds) <= 0 && !old(isFocusPhase) && old(currentSession) >= sessionCount ==>
        !isRunning && !isFocusPhase && currentSession == old(currentSession) &&
        timerSeconds == old(timerSeconds) && history == old(history)
      ensures old(currentSession) <= sessionCount ==> currentSession <= sessionCount
      ensures old(SessionInRange()) ==> SessionInRange()
    {
      if timerSeconds > 0 {
        timerSeconds := timerSeconds - 1;
      } else {
        if isFocusPhase {
          SaveSessionRecord(focusDuration * 60, now);
          isFocusPhase := false;
          timerSeconds := breakDuration * 60;
        } else {
          if currentSession < sessionCount {
            currentSession := currentSession + 1;
            isFocusPhase := true;
            timerSeconds := focusDuration * 60;
          } else {
            StopTimer();
            return;
          }
        }
      }
    }

    /** A stepper button: move one setting by one, clamp it to its bounds,
        save the settings and reset the timer. */
    method OnStepperClick(target: StepTarget, action: StepAction)
      modifies this`focusDuration, this`breakDuration, this`sessionCount, this`storedSettings
      modifies this`isRunning, this`currentSession, this`isFocusPhase, this`timerSeconds
      ensures var delta := if action == Increase then 1 else -1;
        match target
        case FocusTarget =>
          focusDuration == Clamp(old(focusDuration) + delta, 1, MAX_FOCUS) &&
          breakDuration == old(breakDuration) && sessionCount == old(sessionCount)
        case BreakTarget =>
          breakDuration == Clamp(old(breakDuration) + delta, 1, MAX_BREAK) &&
          focusDuration == old(focusDuration) && sessionCount == old(sessionCount)
        case SessionsTarget =>
          sessionCount == Clamp(old(sessionCount) + delta, 1, MAX_SESSIONS) &&
          focusDuration == old(focusDuration) && breakDuration == old(breakDuration)
      ensures old(SettingsInRange()) ==> SettingsInRange()
      ensures storedSettings == Some(StoredSettings(focusDuration, breakDuration, sessionCount))
      ensures !isRunning && currentSession == 1 && isFocusPhase
      ensures timerSeconds == focusDuration * 60
    {
      var currentVal := match target
        case FocusTarget => focusDuration
        case BreakTarget => breakDuration
        case SessionsTarget => sessionCount;
      if action == Increase {
        currentVal := currentVal + 1;
      } else {
        currentVal := currentVal - 1;
      }
      match target {
        case FocusTarget => focusDuration := Clamp(currentVal, 1, MAX_FOCUS);
        case BreakTarget => breakDuration := Clamp(currentVal, 1, MAX_BREAK);
        case SessionsTarget => sessionCount := Clamp(currentVal, 1, MAX_SESSIONS);
      }
      SaveSettings();
      ResetTimer();
    }

    /** Take the saved settings, if any, as they are, and reset the timer. */
    method LoadSettings()
      modifies this`focusDuration, this`breakDuration, this`sessionCount
      modifies this`isRunning, this`currentSession, this`isFocusPhase, this`timerSeconds
      ensures storedSettings.Some? ==>
        focusDuration == storedSettings.value.focusDuration &&
        breakDuration == storedSettings.value.breakDuration &&
        sessionCount == storedSettings.value.sessionCount
      ensures storedSettings.None? ==>
        focusDuration == old(focusDuration) && breakDuration == old(breakDuration) &&
        sessionCount == old(sessionCount)
      ensures !isRunning && currentSession == 1 && isFocusPhase
      ensures timerSeconds == focusDuration * 60
    {
      if storedSettings.Some? {
        var s := storedSettings.value;
        focusDuration := s.focusDuration;
        breakDuration := s.breakDuration;
        sessionCount := s.sessionCount;
      }
      ResetTimer();
    }

    /** The dot classes `renderProgressDots` draws, one per session. */
    method ProgressDots() returns (dots: seq<DotClass>)
      ensures dots == DotRow(Max(0, sessionCount), currentSession)
      ensures |dots| == Max(0, sessionCount)
      ensures forall k :: 0 <= k < |dots| ==> dots[k] == DotFor(k + 1, currentSession)
    {
      dots := [];
      var i := 1;
      while i <= sessionCount
        invariant 1 <= i <= Max(0, sessionCount) + 1
        invariant dots == DotRow(i - 1, currentSession)
      {
        dots := dots + [DotFor(i, currentSession)];
        i := i + 1;
      }
    }
  }

  /** A stepper click, then the popup is closed and opened again: the new
      popup loads exactly the settings the click left, and the history. */
  method ReopenAfterStepper(t: Timer, target: StepTarget, action: StepAction) returns (reopened: Timer)
    modifies t
    ensures reopened.focusDuration == t.focusDuration && reopened.breakDuration == t.breakDuration
    ensures reopened.sessionCount == t.sessionCount && reopened.history == t.history
    ensures reopened.timerSeconds == t.timerSeconds && reopened.currentSession == 1
  {
    t.OnStepperClick(target, action);
    reopened := new Timer(t.storedSettings, t.history);
    reopened.LoadSettings();
  }
}
