/**
 * The history page's derived values (src/app/features/history/history.component.ts):
 * per-type session counts, total focus time, and two display helpers.
 */
module History {
  import opened Models
  import opened Decimal

  /** HistoryStats, as computed for the statistics panel. */
  datatype HistoryStats = HistoryStats(
    totalSessions: nat,
    focusSessions: nat,
    shortBreaks: nat,
    longBreaks: nat,
    totalFocusTime: int)

  /** `history.filter((s) => s.type === t)`: the entries of one type, in history order. */
  function Filter(history: seq<SessionHistoryEntry>, t: SessionType): (r: seq<SessionHistoryEntry>)
    ensures |r| <= |history|
    ensures forall e :: e in r <==> e in history && e.kind == t
    decreases |history|
  {
    if history == [] then []
    else if history[|history| - 1].kind == t then Filter(history[..|history| - 1], t) + [history[|history| - 1]]
    else Filter(history[..|history| - 1], t)
  }

  /** `reduce((sum, s) => sum + s.duration, 0)`. */
  function SumDurations(entries: seq<SessionHistoryEntry>): (total: int)
    ensures (forall i :: 0 <= i < |entries| ==> entries[i].duration >= 0) ==> total >= 0
    ensures (forall i :: 0 <= i < |entries| ==> entries[i].duration >= 0) ==> forall i :: 0 <= i < |entries| ==> entries[i].duration <= total
    decreases |entries|
  {
    if entries == [] then 0 else SumDurations(entries[..|entries| - 1]) + entries[|entries| - 1].duration
  }

  /** calculateStats. */
  function CalculateStats(history: seq<SessionHistoryEntry>): (r: HistoryStats)
    ensures r.totalSessions == |history|
    ensures r.focusSessions + r.shortBreaks + r.longBreaks == r.totalSessions
    ensures history == [] ==> r == HistoryStats(0, 0, 0, 0, 0)
  {
    StatsPartition(history);
    var focus := Filter(history, Focus);
    HistoryStats(
      |history|,
      |focus|,
      |Filter(history, ShortBreak)|,
      |Filter(history, LongBreak)|,
      SumDurations(focus))
  }

  /** Every entry has exactly one of the three types, so the three filters split the history. */
  lemma {:induction false} StatsPartition(history: seq<SessionHistoryEntry>)
    ensures |Filter(history, Focus)| + |Filter(history, ShortBreak)| + |Filter(history, LongBreak)| == |history|
    decreases |history|
  {
    if history != [] {
      StatsPartition(history[..|history| - 1]);
    }
  }

  /** Filtering distributes over appending one entry. */
  lemma FilterAppend(history: seq<SessionHistoryEntry>, e: SessionHistoryEntry, t: SessionType)
    ensures Filter(history + [e], t) == Filter(history, t) + (if e.kind == t then [e] else [])
  {
    assert (history + [e])[..|history + [e]| - 1] == history;
  }

  /**
   * The history only grows at its end; the statistics of the longer history
   * are those of the shorter one with the new entry counted once under its type
   * (and its duration added to the focus time when it is a focus session).
   */
  lemma StatsAppend(history: seq<SessionHistoryEntry>, e: SessionHistoryEntry)
    ensures var before, after := CalculateStats(history), CalculateStats(history + [e]);
      && after.totalSessions == before.totalSessions + 1
      && after.focusSessions == before.focusSessions + (if e.kind == Focus then 1 else 0)
      && after.shortBreaks == before.shortBreaks + (if e.kind == ShortBreak then 1 else 0)
      && after.longBreaks == before.longBreaks + (if e.kind == LongBreak then 1 else 0)
      && after.totalFocusTime == before.totalFocusTime + (if e.kind == Focus then e.duration else 0)
  {
    FilterAppend(history, e, Focus);
    FilterAppend(history, e, ShortBreak);
    FilterAppend(history, e, LongBreak);
    var f := Filter(history, Focus);
    if e.kind == Focus {
      assert (f + [e])[..|f + [e]| - 1] == f;
    }
  }

  /** The total focus time adds up only focus sessions, so it is never below zero when durations are not. */
  lemma {:induction false} FocusTimeNonNegative(history: seq<SessionHistoryEntry>)
    requires forall i :: 0 <= i < |history| ==> history[i].duration >= 0
    ensures CalculateStats(history).totalFocusTime >= 0
    decreases |history|
  {
    if history != [] {
      var h' := history[..|history| - 1];
      FocusTimeNonNegative(h');
      StatsAppend(h', history[|history| - 1]);
      assert h' + [history[|history| - 1]] == history;
    }
  }

  /** formatDuration: whole minutes, rounded down, followed by " min". */
  function FormatDuration(seconds: int): (r: string)
    ensures |r| >= 5 && r[|r| - 4..] == " min"
    ensures var p := r[..|r| - 4]; |p| >= 1 && AllDigits(if p[0] == '-' then p[1..] else p)
    ensures var m := ParseInt(r[..|r| - 4]); m * 60 <= seconds < m * 60 + 60
    ensures var p := r[..|r| - 4]; (p[0] == '0' ==> |p| == 1) && (p[0] == '-' ==> |p| >= 2 && p[1] != '0')
  {
    var minutes := seconds / 60;
    var digits := IntToString(minutes);
    ParseIntToString(minutes);
    assert (digits + " min")[..|digits|] == digits;
    digits + " min"
  }

  /** getSessionTypeLabel. */
  function SessionTypeLabel(t: SessionType): (text: string)
    ensures text != []
  {
    match t
    case Focus => "Focus"
    case ShortBreak => "Short Break"
    case LongBreak => "Long Break"
  }

  /** The labels tell the three types apart. */
  lemma SessionTypeLabelInjective(a: SessionType, b: SessionType)
    ensures SessionTypeLabel(a) == SessionTypeLabel(b) <==> a == b
  {
  }
}
