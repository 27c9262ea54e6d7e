/**
 * The shapes exchanged with the timer server (src/app/core/models/timer.models.ts).
 * Each TypeScript union of string literals becomes a closed datatype, so
 * "one of exactly these values" holds by construction.
 */
module Models {
  import opened Wrappers

  /** The three kinds of session a timer can run. */
  datatype SessionType = Focus | ShortBreak | LongBreak

  /** How a finished session ended. */
  datatype SessionStatus = Completed | Cancelled

  /**
   * One finished session. `kind` is the source's `type` field (a reserved
   * word in Dafny); `duration` is in seconds and taken as the server sends it.
   */
  datatype SessionHistoryEntry = SessionHistoryEntry(
    kind: SessionType,
    startTime: string,
    endTime: string,
    duration: int,
    status: SessionStatus)

  /** The synchronised snapshot; `startTime` is null when no session runs. */
  datatype TimerState = TimerState(
    isRunning: bool,
    timeRemaining: int,
    sessionType: SessionType,
    sessionCount: int,
    startTime: Option<string>,
    history: seq<SessionHistoryEntry>)

  /** The three configurable durations, in seconds. */
  datatype TimerSettings = TimerSettings(
    focusDuration: int,
    shortBreakDuration: int,
    longBreakDuration: int)

  /** Envelope returned by every mutating timer command. */
  datatype TimerResponse = TimerResponse(success: bool, state: TimerState)

  /** Envelope returned by the settings update and reset requests. */
  datatype SettingsResponse = SettingsResponse(success: bool, settings: TimerSettings)
}
