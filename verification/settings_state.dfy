/**
 * The settings store (src/app/core/state/settings.state.ts): the same
 * BehaviorSubject pattern as the timer store, over the three durations.
 * `published` is the log of every value the subject has carried; a
 * subscription at position `c` observes `published[c..]`.
 */
module SettingsStore {
  import opened Wrappers
  import opened Models

  /** DEFAULT_SETTINGS: 25-minute focus, 5-minute short break, 15-minute long break. */
  const DefaultSettings := TimerSettings(1500, 300, 900)

  /** `Partial<TimerSettings>`. */
  datatype SettingsPatch = SettingsPatch(
    focusDuration: Option<int>,
    shortBreakDuration: Option<int>,
    longBreakDuration: Option<int>)

  /** `{ ...settings, ...patch }`: a duration the patch does not name keeps its old value. */
  function Merge(s: TimerSettings, p: SettingsPatch): (r: TimerSettings)
    ensures p.focusDuration.None? ==> r.focusDuration == s.focusDuration
    ensures p.shortBreakDuration.None? ==> r.shortBreakDuration == s.shortBreakDuration
    ensures p.longBreakDuration.None? ==> r.longBreakDuration == s.longBreakDuration
  {
    TimerSettings(
      if p.focusDuration.Some? then p.focusDuration.value else s.focusDuration,
      if p.shortBreakDuration.Some? then p.shortBreakDuration.value else s.shortBreakDuration,
      if p.longBreakDuration.Some? then p.longBreakDuration.value else s.longBreakDuration)
  }

  /** The patch naming all three durations of `s`. */
  function FullPatch(s: TimerSettings): SettingsPatch {
    SettingsPatch(Some(s.focusDuration), Some(s.shortBreakDuration), Some(s.longBreakDuration))
  }

  /** A patch naming every field replaces the settings; an empty one keeps them. */
  lemma MergeEmptyAndFull(s: TimerSettings, t: TimerSettings)
    ensures Merge(s, SettingsPatch(None, None, None)) == s
    ensures Merge(s, FullPatch(t)) == t
  {
  }

  /** The durations the patch names take the patch's value; merging the same patch again changes nothing. */
  lemma MergeTakesNamedFields(s: TimerSettings, p: SettingsPatch)
    ensures p.focusDuration.Some? ==> Merge(s, p).focusDuration == p.focusDuration.value
    ensures p.shortBreakDuration.Some? ==> Merge(s, p).shortBreakDuration == p.shortBreakDuration.value
    ensures p.longBreakDuration.Some? ==> Merge(s, p).longBreakDuration == p.longBreakDuration.value
    ensures Merge(Merge(s, p), p) == Merge(s, p)
  {
  }

  /** The vectors of the store's tests: one named duration, then two. */
  lemma MergeVectors()
    ensures Merge(DefaultSettings, SettingsPatch(Some(1800), None, None)) == TimerSettings(1800, 300, 900)
    ensures Merge(DefaultSettings, SettingsPatch(Some(1800), Some(420), None)) == TimerSettings(1800, 420, 900)
  {
  }

  /** SettingsStateService. */
  class SettingsStateService {
    var current: TimerSettings
    var published: seq<TimerSettings>

    ghost predicate Valid()
      reads this
    {
      |published| > 0 && published[0] == DefaultSettings && published[|published| - 1] == current
    }

    /** A fresh store holds DEFAULT_SETTINGS. */
    constructor ()
      ensures Valid()
      ensures current == DefaultSettings && published == [DefaultSettings]
    {
      current := DefaultSettings;
      published := [DefaultSettings];
    }

    /** What a subscriber at position `cursor` has observed so far. */
    function Observed(cursor: nat): seq<TimerSettings>
      reads this
      requires cursor < |published|
    {
      published[cursor..]
    }

    /** getState().subscribe(...): the new subscription first observes the current value. */
    method GetState() returns (cursor: nat)
      requires Valid()
      ensures cursor < |published| && Observed(cursor) == [current]
    {
      cursor := |published| - 1;
    }

    /** getCurrentState: the most recently published value. */
    function GetCurrentState(): (s: TimerSettings)
      reads this
      requires Valid()
      ensures s == published[|published| - 1]
    {
      current
    }

    /** setState: publish `s`, replacing all three durations. */
    method SetState(s: TimerSettings)
      requires Valid()
      modifies this
      ensures Valid()
      ensures GetCurrentState() == s
      ensures published == old(published) + [s]
      ensures forall c :: 0 <= c < old(|published|) ==> Observed(c) == old(Observed(c)) + [s]
    {
      current := s;
      published := published + [s];
    }

    /** updateState: publish the current settings with the named durations overwritten. */
    method UpdateState(p: SettingsPatch)
      requires Valid()
      modifies this
      ensures Valid()
      ensures GetCurrentState() == Merge(old(current), p)
      ensures published == old(published) + [Merge(old(current), p)]
      ensures forall c :: 0 <= c < old(|published|) ==> Observed(c) == old(Observed(c)) + [current]
    {
      SetState(Merge(current, p));
    }

    /** resetState: publish DEFAULT_SETTINGS. */
    method ResetState()
      requires Valid()
      modifies this
      ensures Valid()
      ensures GetCurrentState() == DefaultSettings
      ensures published == old(published) + [DefaultSettings]
      ensures forall c :: 0 <= c < old(|published|) ==> Observed(c) == old(Observed(c)) + [DefaultSettings]
    {
      SetState(DefaultSettings);
    }
  }

  /**
   * The store test's emission scenario: a subscriber that joins a fresh store
   * and then sees one setState observes the defaults and then that value.
   */
  method SubscribeThenSet(s: TimerSettings) returns (seen: seq<TimerSettings>)
    ensures seen == [DefaultSettings, s]
  {
    var store := new SettingsStateService();
    var cursor := store.GetState();
    store.SetState(s);
    seen := store.Observed(cursor);
  }
}
