/**
 * The timer's single-value store (src/app/core/state/timer.state.ts).
 *
 * The source keeps the snapshot in a BehaviorSubject. Here the store keeps the
 * current snapshot and the log of every value the subject has carried, oldest
 * first: `published[0]` is the initial value and the last entry is `current`.
 * A subscription is a position in that log; from position `c` a subscriber
 * observes `published[c..]`, i.e. the value current when it subscribed and then
 * every later value in publish order.
 */
module TimerStore {
  import opened Wrappers
  import opened Models

  /** INITIAL_STATE: idle, a full 25-minute focus session, nothing completed yet. */
  const InitialState := TimerState(false, 1500, Focus, 0, None, [])

  /** `Partial<TimerState>`: the fields a caller wants to overwrite. */
  datatype TimerStatePatch = TimerStatePatch(
    isRunning: Option<bool>,
    timeRemaining: Option<int>,
    sessionType: Option<SessionType>,
    sessionCount: Option<int>,
    startTime: Option<Option<string>>,
    history: Option<seq<SessionHistoryEntry>>)

  function Pick<T>(patched: Option<T>, previous: T): T {
    if patched.Some? then patched.value else previous
  }

  /**
   * `{ ...state, ...patch }`: fields present in the patch win; a field the
   * patch does not name keeps its old value.
   */
  function Merge(s: TimerState, p: TimerStatePatch): (r: TimerState)
    ensures p.isRunning.None? ==> r.isRunning == s.isRunning
    ensures p.timeRemaining.None? ==> r.timeRemaining == s.timeRemaining
    ensures p.sessionType.None? ==> r.sessionType == s.sessionType
    ensures p.sessionCount.None? ==> r.sessionCount == s.sessionCount
    ensures p.startTime.None? ==> r.startTime == s.startTime
    ensures p.history.None? ==> r.history == s.history
  {
    TimerState(
      Pick(p.isRunning, s.isRunning),
      Pick(p.timeRemaining, s.timeRemaining),
      Pick(p.sessionType, s.sessionType),
      Pick(p.sessionCount, s.sessionCount),
      Pick(p.startTime, s.startTime),
      Pick(p.history, s.history))
  }

  const EmptyPatch := TimerStatePatch(None, None, None, None, None, None)

  /** The patch that names every field of `s`. */
  function FullPatch(s: TimerState): TimerStatePatch {
    TimerStatePatch(Some(s.isRunning), Some(s.timeRemaining), Some(s.sessionType),
                    Some(s.sessionCount), Some(s.startTime), Some(s.history))
  }

  /** Later patches win field by field, as a second spread does. */
  function Then(p: TimerStatePatch, q: TimerStatePatch): TimerStatePatch {
    TimerStatePatch(
      if q.isRunning.Some? then q.isRunning else p.isRunning,
      if q.timeRemaining.Some? then q.timeRemaining else p.timeRemaining,
      if q.sessionType.Some? then q.sessionType else p.sessionType,
      if q.sessionCount.Some? then q.sessionCount else p.sessionCount,
      if q.startTime.Some? then q.startTime else p.startTime,
      if q.history.Some? then q.history else p.history)
  }

  /** Merging an empty patch keeps the state; a patch naming every field replaces it. */
  lemma MergeEmptyAndFull(s: TimerState, t: TimerState)
    ensures Merge(s, EmptyPatch) == s
    ensures Merge(s, FullPatch(t)) == t
  {
  }

  /** Every field the patch names takes the patch's value (the other fields are kept, by Merge's contract). */
  lemma MergeTakesNamedFields(s: TimerState, p: TimerStatePatch)
    ensures p.isRunning.Some? ==> Merge(s, p).isRunning == p.isRunning.value
    ensures p.timeRemaining.Some? ==> Merge(s, p).timeRemaining == p.timeRemaining.value
    ensures p.sessionType.Some? ==> Merge(s, p).sessionType == p.sessionType.value
    ensures p.sessionCount.Some? ==> Merge(s, p).sessionCount == p.sessionCount.value
    ensures p.startTime.Some? ==> Merge(s, p).startTime == p.startTime.value
    ensures p.history.Some? ==> Merge(s, p).history == p.history.value
  {
  }

  /** Applying the same patch twice is the same as once; two patches in a row act as their combination. */
  lemma MergeIdempotentAndComposes(s: TimerState, p: TimerStatePatch, q: TimerStatePatch)
    ensures Merge(Merge(s, p), p) == Merge(s, p)
    ensures Merge(Merge(s, p), q) == Merge(s, Then(p, q))
  {
  }

  /** TimerStateService. */
  class TimerStateService {
    var current: TimerState
    var published: seq<TimerState>

    ghost predicate Valid()
      reads this
    {
      |published| > 0 && published[0] == InitialState && published[|published| - 1] == current
    }

    /** A fresh store holds INITIAL_STATE and has published nothing else. */
    constructor ()
      ensures Valid()
      ensures current == InitialState && published == [InitialState]
    {
      current := InitialState;
      published := [InitialState];
    }

    /** What a subscriber at position `cursor` has observed so far. */
    function Observed(cursor: nat): seq<TimerState>
      reads this
      requires cursor < |published|
    {
      published[cursor..]
    }

    /** getState().subscribe(...): the new subscription first observes the current value. */
    method GetState() returns (cursor: nat)
      requires Valid()
      ensures cursor < |published| && Observed(cursor) == [current]
    {
      cursor := |published| - 1;
    }

    /** getCurrentState: the most recently published value. */
    function GetCurrentState(): (s: TimerState)
      reads this
      requires Valid()
      ensures s == published[|published| - 1]
    {
      current
    }

    /** setState: publish `s` as the whole new snapshot. */
    method SetState(s: TimerState)
      requires Valid()
      modifies this
      ensures Valid()
      ensures GetCurrentState() == s
      ensures published == old(published) + [s]
      ensures forall c :: 0 <= c < old(|published|) ==> Observed(c) == old(Observed(c)) + [s]
    {
      current := s;
      published := published + [s];
    }

    /** updateState: publish the current snapshot with the patch's fields overwritten. */
    method UpdateState(p: TimerStatePatch)
      requires Valid()
      modifies this
      ensures Valid()
      ensures GetCurrentState() == Merge(old(current), p)
      ensures published == old(published) + [Merge(old(current), p)]
      ensures forall c :: 0 <= c < old(|published|) ==> Observed(c) == old(Observed(c)) + [current]
    {
      SetState(Merge(current, p));
    }

    /** resetState: publish INITIAL_STATE, whatever came before. */
    method ResetState()
      requires Valid()
      modifies this
      ensures Valid()
      ensures GetCurrentState() == InitialState
      ensures published == old(published) + [InitialState]
      ensures forall c :: 0 <= c < old(|published|) ==> Observed(c) == old(Observed(c)) + [InitialState]
    {
      SetState(InitialState);
    }

    /** The read-through getters agree with getCurrentState(). */
    function IsRunning(): (b: bool)
      reads this
      requires Valid()
      ensures b == GetCurrentState().isRunning
    {
      current.isRunning
    }

    function TimeRemaining(): (t: int)
      reads this
      requires Valid()
      ensures t == GetCurrentState().timeRemaining
    {
      current.timeRemaining
    }

    function SessionType(): (t: Models.SessionType)
      reads this
      requires Valid()
      ensures t == GetCurrentState().sessionType
    {
      current.sessionType
    }

    function SessionCount(): (n: int)
      reads this
      requires Valid()
      ensures n == GetCurrentState().sessionCount
    {
      current.sessionCount
    }
  }
}
