/**
 * The background worker's timer: a deadline-based engine whose whole state is
 * one persisted snapshot. Commands load the snapshot, change it field by
 * field and store it back; a one-shot alarm named `flowTimerEnd` wakes the
 * worker at the deadline, and the completion step then moves to the next
 * phase and pauses.
 *
 * Wall-clock time is the parameter `now`; extension storage is the field
 * `Worker.timerState`; the pending alarm is the field `Worker.alarm`.
 */
module Background {
  import opened Wrappers
  import opened Numeric

  /** The interval kind, `'focus'` or `'break'`. */
  datatype Phase = Focus | Break

  /** `settings`: minutes of focus, minutes of break, sessions in one round. */
  datatype Settings = Settings(focusMinutes: int, breakMinutes: int, sessions: int)

  /** The persisted `timerState` object. `remainingTime` is in milliseconds;
      `totalSessions` is stored but never read by any step. */
  datatype Snapshot = Snapshot(
    isRunning: bool,
    targetTime: Option<int>,
    remainingTime: int,
    phase: Phase,
    sessionCount: int,
    totalSessions: int,
    settings: Settings)

  /** The one-shot alarm `flowTimerEnd`: armed at an absolute time, or cleared. */
  datatype Alarm = Cleared | ArmedAt(when: int)

  /** The `action` of a message. `Unrecognised(action)` stands for a message
      whose `action` is none of `START`, `STOP`, `RESET`, `UPDATE_SETTINGS`
      and `GET_STATUS`; those five always arrive as their own constructors. */
  datatype Request =
    | Start
    | Stop
    | Reset
    | UpdateSettings(payload: Settings)
    | GetStatus
    | Unrecognised(action: string)

  const MS_PER_MINUTE: int := 60 * 1000
  const ALARM_NAME: string := "flowTimerEnd"

  /** Used whenever storage holds no snapshot. */
  const DEFAULT_STATE: Snapshot :=
    Snapshot(false, None, 25 * MS_PER_MINUTE, Focus, 1, 4, Settings(25, 5, 4))

  /** The defaults describe a paused first focus phase of the configured
      length, with the session count inside the configured round. */
  lemma DefaultStateIsIdleFirstFocus()
    ensures !DEFAULT_STATE.isRunning && Consistent(DEFAULT_STATE)
    ensures DEFAULT_STATE.phase == Focus && DEFAULT_STATE.sessionCount == 1
    ensures DEFAULT_STATE.remainingTime == PhaseMs(DEFAULT_STATE.settings, Focus)
    ensures SessionInRange(DEFAULT_STATE)
    ensures DEFAULT_STATE.totalSessions == DEFAULT_STATE.settings.sessions
  {
  }

  /** The configured length of `phase`, in milliseconds. */
  function PhaseMs(settings: Settings, phase: Phase): int {
    (match phase
     case Focus => settings.focusMinutes
     case Break => settings.breakMinutes) * MS_PER_MINUTE
  }

  /** A deadline is set exactly when the timer runs. */
  predicate Consistent(s: Snapshot) {
    s.isRunning <==> s.targetTime.Some?
  }

  /** The half of `Consistent` that every step keeps. */
  predicate RunningHasTarget(s: Snapshot) {
    s.isRunning ==> s.targetTime.Some?
  }

  predicate SessionInRange(s: Snapshot) {
    1 <= s.sessionCount <= s.settings.sessions
  }

  /** START on an idle snapshot: arm the deadline `remainingTime` from now. */
  function Started(s: Snapshot, now: int): (r: Snapshot)
    ensures r.isRunning && Consistent(r)
    ensures r.targetTime == Some(now + s.remainingTime)
    ensures r.remainingTime == s.remainingTime && r.phase == s.phase
    ensures r.sessionCount == s.sessionCount && r.settings == s.settings
    ensures r.totalSessions == s.totalSessions
  {
    s.(isRunning := true, targetTime := Some(now + s.remainingTime))
  }

  /** STOP on a running snapshot: keep what is left of the deadline.
      A missing deadline counts as 0, as `null - now` does in JavaScript. */
  function Stopped(s: Snapshot, now: int): (r: Snapshot)
    ensures !r.isRunning && Consistent(r)
    ensures r.remainingTime >= 0
    ensures s.targetTime.Some? && s.targetTime.value >= now ==> r.remainingTime == s.targetTime.value - now
    ensures s.targetTime.Some? && s.targetTime.value < now ==> r.remainingTime == 0
    ensures s.targetTime.None? ==> r.remainingTime == Max(0, 0 - now)
    ensures r.phase == s.phase && r.sessionCount == s.sessionCount
    ensures r.settings == s.settings && r.totalSessions == s.totalSessions
  {
    var target := s.targetTime.GetOr(0);
    s.(isRunning := false, remainingTime := Max(0, target - now), targetTime := None)
  }

  /** RESET: back to the first focus phase, paused; the deadline is kept. */
  function Restarted(s: Snapshot): (r: Snapshot)
    ensures !r.isRunning && r.phase == Focus && r.sessionCount == 1
    ensures r.remainingTime == PhaseMs(r.settings, r.phase)
    ensures r.settings == s.settings && r.targetTime == s.targetTime
    ensures r.totalSessions == s.totalSessions
  {
    s.(isRunning := false, phase := Focus,
       remainingTime := s.settings.focusMinutes * MS_PER_MINUTE, sessionCount := 1)
  }

  /** UPDATE_SETTINGS: take the payload as it is; only an idle timer is resized. */
  function Reconfigured(s: Snapshot, payload: Settings): (r: Snapshot)
    ensures r.settings == payload
    ensures r.isRunning == s.isRunning && r.targetTime == s.targetTime
    ensures r.phase == s.phase && r.sessionCount == s.sessionCount
    ensures !s.isRunning ==> r.remainingTime == PhaseMs(payload, s.phase)
    ensures s.isRunning ==> r.remainingTime == s.remainingTime
    ensures r.totalSessions == s.totalSessions
  {
    var updated := s.(settings := payload);
    if updated.isRunning then updated
    else updated.(remainingTime := PhaseMs(updated.settings, updated.phase))
  }

  /** The session count after a completed phase: a break ending moves to the
      next session, wrapping to 1 past the configured number. */
  function NextSessionCount(s: Snapshot): (r: int)
    ensures s.phase == Focus ==> r == s.sessionCount
    ensures s.phase == Break && s.sessionCount < s.settings.sessions ==> r == s.sessionCount + 1
    ensures s.phase == Break && s.sessionCount >= s.settings.sessions ==> r == 1
    ensures SessionInRange(s) ==> 1 <= r <= s.settings.sessions
  {
    if s.phase == Break then
      (if s.sessionCount + 1 > s.settings.sessions then 1 else s.sessionCount + 1)
    else s.sessionCount
  }

  /** The step taken when the alarm fires: a fresh snapshot for the other
      phase, paused, with that phase's full length remaining. */
  function Completed(s: Snapshot): (r: Snapshot)
    ensures r.phase != s.phase
    ensures !r.isRunning && r.targetTime == None
    ensures r.remainingTime == PhaseMs(s.settings, r.phase)
    ensures r.settings == s.settings && r.totalSessions == s.totalSessions
    ensures SessionInRange(s) ==> SessionInRange(r)
  {
    var nextPhase := if s.phase == Focus then Break else Focus;
    var nextDuration := if nextPhase == Focus then s.settings.focusMinutes else s.settings.breakMinutes;
    s.(isRunning := false, phase := nextPhase, sessionCount := NextSessionCount(s),
       remainingTime := nextDuration * MS_PER_MINUTE, targetTime := None)
  }

  /** The extension's background worker: its stored snapshot and its alarm. */
  class Worker {
    /** `timerState` in extension storage; `None` until first written. */
    var timerState: Option<Snapshot>
    /** The pending `flowTimerEnd` alarm. */
    var alarm: Alarm

    constructor ()
      ensures timerState == None && alarm == Cleared
    {
      timerState := None;
      alarm := Cleared;
    }

    /** What every handler starts from: `res.timerState || DEFAULT_STATE`. */
    function Loaded(): (r: Snapshot)
      reads this
      ensures timerState.None? ==> r == DEFAULT_STATE
      ensures timerState.Some? ==> r == timerState.value
    {
      timerState.GetOr(DEFAULT_STATE)
    }

    /** On install, store the defaults unless a snapshot is already there. */
    method OnInstalled()
      modifies this`timerState
      ensures timerState == Some(old(Loaded()))
    {
      if timerState.None? {
        timerState := Some(DEFAULT_STATE);
      }
    }

    /** Store the completed snapshot (the notification changes no state). */
    method HandleTimerComplete()
      modifies this`timerState
      ensures timerState == Some(Completed(old(Loaded())))
    {
      var state := Loaded();
      timerState := Some(Completed(state));
    }

    /** An alarm fires. The one-shot alarm is then no longer pending; the
        handler does not check whether the snapshot is still running. */
    method OnAlarm(name: string)
      modifies this
      ensures name == ALARM_NAME ==> alarm == Cleared && timerState == Some(Completed(old(Loaded())))
      ensures name != ALARM_NAME ==> alarm == old(alarm) && timerState == old(timerState)
    {
      if name == ALARM_NAME {
        alarm := Cleared;
        HandleTimerComplete();
      }
    }

    /** The message handler: load, change the loaded snapshot field by field,
        store, and answer with it. An unrecognised action gets no answer. */
    method OnMessage(req: Request, now: int) returns (response: Option<Snapshot>)
      modifies this
      ensures req.Start? && !old(Loaded()).isRunning ==>
        timerState == Some(Started(old(Loaded()), now)) &&
        alarm == ArmedAt(now + old(Loaded()).remainingTime)
      ensures req.Start? && old(Loaded()).isRunning ==>
        timerState == old(timerState) && alarm == old(alarm)
      ensures req.Stop? && old(Loaded()).isRunning ==>
        timerState == Some(Stopped(old(Loaded()), now)) && alarm == Cleared
      ensures req.Stop? && !old(Loaded()).isRunning ==>
        timerState == old(timerState) && alarm == old(alarm)
      ensures req.Reset? ==> timerState == Some(Restarted(old(Loaded()))) && alarm == Cleared
      ensures req.UpdateSettings? ==>
        timerState == Some(Reconfigured(old(Loaded()), req.payload)) && alarm == old(alarm)
      ensures req.GetStatus? || req.Unrecognised? ==>
        timerState == old(timerState) && alarm == old(alarm)
      ensures response.None? <==> req.Unrecognised?
      ensures response.Some? ==> response.value == Loaded()
    {
      var state := Loaded();
      response := None;
      if req.Start? {
        if !state.isRunning {
          var target := now + state.remainingTime;
          state := state.(isRunning := true);
          state := state.(targetTime := Some(target));
          alarm := ArmedAt(target);
          timerState := Some(state);
        }
        response := Some(state);
      } else if req.Stop? {
        if state.isRunning {
          var left := Max(0, state.targetTime.GetOr(0) - now);
          state := state.(isRunning := false);
          state := state.(remainingTime := left);
          state := state.(targetTime := None);
          alarm := Cleared;
          timerState := Some(state);
        }
        response := Some(state);
      } else if req.Reset? {
        alarm := Cleared;
        state := state.(isRunning := false);
        state := state.(phase := Focus);
        state := state.(remainingTime := state.settings.focusMinutes * MS_PER_MINUTE);
        state := state.(sessionCount := 1);
        timerState := Some(state);
        response := Some(state);
      } else if req.UpdateSettings? {
        state := state.(settings := state.settings.(focusMinutes := req.payload.focusMinutes));
        state := state.(settings := state.settings.(breakMinutes := req.payload.breakMinutes));
        state := state.(settings := state.settings.(sessions := req.payload.sessions));
        if !state.isRunning {
          var currentDur := if state.phase == Focus then state.settings.focusMinutes else state.settings.breakMinutes;
          state := state.(remainingTime := currentDur * MS_PER_MINUTE);
        }
        timerState := Some(state);
        response := Some(state);
      } else if req.GetStatus? {
        response := Some(state);
      }
    }
  }

  /** Pausing `delta` milliseconds after starting keeps `remainingTime - delta`
      (never below zero), changes nothing else, and the next START arms
      exactly that much. */
  lemma PauseResumeRoundTrip(s: Snapshot, t0: int, t1: int, t2: int)
    requires !s.isRunning
    ensures Stopped(Started(s, t0), t1) ==
      s.(remainingTime := Max(0, s.remainingTime - (t1 - t0)), targetTime := None)
    ensures Started(Stopped(Started(s, t0), t1), t2).targetTime ==
      Some(t2 + Max(0, s.remainingTime - (t1 - t0)))
  {
  }

  /** START, STOP, UPDATE_SETTINGS and completion keep `Consistent`. */
  lemma StepsPreserveConsistency(s: Snapshot, now: int, payload: Settings)
    requires Consistent(s)
    ensures Consistent(Started(s, now)) && Consistent(Stopped(s, now))
    ensures Consistent(Reconfigured(s, payload)) && Consistent(Completed(s))
  {
  }

  /** Every step, RESET included, keeps "running implies a deadline". */
  lemma StepsPreserveRunningHasTarget(s: Snapshot, now: int, payload: Settings)
    requires RunningHasTarget(s)
    ensures RunningHasTarget(Started(s, now)) && RunningHasTarget(Stopped(s, now))
    ensures RunningHasTarget(Restarted(s)) && RunningHasTarget(Reconfigured(s, payload))
    ensures RunningHasTarget(Completed(s))
  {
  }

  /** RESET of a running snapshot leaves a stale deadline behind a paused timer. */
  lemma ResetWhileRunningBreaksConsistency(s: Snapshot)
    requires s.isRunning && Consistent(s)
    ensures !Consistent(Restarted(s))
    ensures Restarted(s).targetTime == s.targetTime
  {
  }

  /** The session count stays after a focus phase; after a break it moves on
      by one, wrapping to 1 once it would exceed `settings.sessions`. */
  lemma CompletionSessionRule(s: Snapshot)
    ensures s.phase == Focus ==> Completed(s).sessionCount == s.sessionCount
    ensures s.phase == Break && s.sessionCount < s.settings.sessions ==>
      Completed(s).sessionCount == s.sessionCount + 1
    ensures s.phase == Break && s.sessionCount >= s.settings.sessions ==>
      Completed(s).sessionCount == 1
  {
  }

  /** `n` completion steps in a row. */
  function CompletedTimes(s: Snapshot, n: nat): Snapshot {
    if n == 0 then s else Completed(CompletedTimes(s, n - 1))
  }

  /** `k` full focus/break cycles that stay within the round advance the
      session count by `k` and end in a focus phase. */
  lemma {:induction false} CyclesAdvanceSession(s: Snapshot, k: nat)
    requires s.phase == Focus && 1 <= s.sessionCount
    requires s.sessionCount + k <= s.settings.sessions
    ensures CompletedTimes(s, 2 * k).phase == Focus
    ensures CompletedTimes(s, 2 * k).sessionCount == s.sessionCount + k
    ensures CompletedTimes(s, 2 * k).settings == s.settings
  {
    if k > 0 {
      CyclesAdvanceSession(s, k - 1);
      var mid := CompletedTimes(s, 2 * (k - 1));
      assert CompletedTimes(s, 2 * k) == Completed(Completed(mid));
    }
  }

  /** From session 1, `settings.sessions` full cycles wrap back to session 1. */
  lemma FullRoundWraps(s: Snapshot)
    requires s.phase == Focus && s.sessionCount == 1 && s.settings.sessions >= 1
    ensures CompletedTimes(s, 2 * s.settings.sessions).phase == Focus
    ensures CompletedTimes(s, 2 * s.settings.sessions).sessionCount == 1
  {
    var n := s.settings.sessions;
    CyclesAdvanceSession(s, n - 1);
    var last := CompletedTimes(s, 2 * (n - 1));
    assert CompletedTimes(s, 2 * n) == Completed(Completed(last));
  }

  /** UPDATE_SETTINGS stores the payload unclamped, so a smaller session
      count than the current one leaves the snapshot out of range. */
  lemma UnclampedSettingsLeaveRange(s: Snapshot, payload: Settings)
    requires payload.sessions < s.sessionCount
    ensures Reconfigured(s, payload).settings == payload
    ensures !SessionInRange(Reconfigured(s, payload))
  {
  }

  /** No step reads `totalSessions`: changing it changes nothing else. */
  lemma TotalSessionsIsNeverRead(s: Snapshot, k: int, now: int, payload: Settings)
    ensures Started(s.(totalSessions := k), now) == Started(s, now).(totalSessions := k)
    ensures Stopped(s.(totalSessions := k), now) == Stopped(s, now).(totalSessions := k)
    ensures Restarted(s.(totalSessions := k)) == Restarted(s).(totalSessions := k)
    ensures Reconfigured(s.(totalSessions := k), payload) == Reconfigured(s, payload).(totalSessions := k)
    ensures Completed(s.(totalSessions := k)) == Completed(s).(totalSessions := k)
  {
  }

  /** A worker that starts from the defaults, answers START twice, completes
      the focus phase, starts the break, and is reset while running. */
  method DefaultScenario()
  {
    var w := new Worker();
    w.OnInstalled();
    var r := w.OnMessage(Start, 0);
    assert r == Some(DEFAULT_STATE.(isRunning := true, targetTime := Some(1500000)));
    assert w.alarm == ArmedAt(1500000);
    var again := w.OnMessage(Start, 1000);
    assert again == r && w.alarm == ArmedAt(1500000);

    w.OnAlarm(ALARM_NAME);
    assert w.timerState == Some(Snapshot(false, None, 300000, Break, 1, 4, Settings(25, 5, 4)));

    r := w.OnMessage(Start, 1500000);
    assert w.alarm == ArmedAt(1800000);
    r := w.OnMessage(Reset, 1600000);
    assert r == Some(Snapshot(false, Some(1800000), 1500000, Focus, 1, 4, Settings(25, 5, 4)));
    assert w.alarm == Cleared;
  }
}
