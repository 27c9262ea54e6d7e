/**
 * The settings form (src/app/features/settings/settings.component.ts): a
 * local, editable copy of the settings, minute/second conversions for its
 * inputs, and the save/reset flags.
 */
module SettingsForm {
  import opened Wrappers
  import opened Models
  import opened SettingsStore
  import opened SettingsSync

  /** secondsToMinutes: whole minutes, rounded down. */
  function SecondsToMinutes(seconds: int): (minutes: int)
    ensures minutes * 60 <= seconds < minutes * 60 + 60
  {
    seconds / 60
  }

  /** minutesToSeconds, for whole minutes: a whole number of minutes converts back exactly. */
  function MinutesToSeconds(minutes: int): (seconds: int)
    ensures seconds % 60 == 0
    ensures SecondsToMinutes(seconds) == minutes
  {
    minutes * 60
  }

  /** Converting seconds to minutes and back loses only the leftover seconds. */
  lemma MinutesRoundDown(seconds: int)
    ensures MinutesToSeconds(SecondsToMinutes(seconds)) <= seconds < MinutesToSeconds(SecondsToMinutes(seconds)) + 60
    ensures seconds % 60 == 0 ==> MinutesToSeconds(SecondsToMinutes(seconds)) == seconds
  {
  }

  /** The conversion vectors of the component's tests. */
  lemma ConversionVectors()
    ensures SecondsToMinutes(1500) == 25 && SecondsToMinutes(300) == 5 && SecondsToMinutes(900) == 15
    ensures SecondsToMinutes(90) == 1 && SecondsToMinutes(150) == 2 && SecondsToMinutes(59) == 0
    ensures SecondsToMinutes(0) == 0
    ensures MinutesToSeconds(25) == 1500 && MinutesToSeconds(5) == 300 && MinutesToSeconds(15) == 900
    ensures MinutesToSeconds(0) == 0
  {
  }

  /** The form's starting values, equal to DEFAULT_SETTINGS. */
  const InitialLocalSettings := TimerSettings(1500, 300, 900)

  /** SettingsComponent. */
  class SettingsComponent {
    const facade: SettingsFacade
    var localSettings: TimerSettings
    var saveSuccess: bool
    var saveError: bool
    /** Whether the component is subscribed to the facade's settings stream. */
    var subscribed: bool

    /** Both flags start false and the form starts at 1500/300/900 seconds. */
    constructor (facade: SettingsFacade)
      ensures this.facade == facade
      ensures localSettings == InitialLocalSettings && localSettings == DefaultSettings
      ensures !saveSuccess && !saveError && !subscribed
    {
      this.facade := facade;
      localSettings := InitialLocalSettings;
      saveSuccess := false;
      saveError := false;
      subscribed := false;
    }

    /** ngOnInit: subscribe; the stream replays the current settings into the form at once. */
    method NgOnInit()
      requires facade.store.Valid()
      modifies this`subscribed, this`localSettings
      ensures subscribed
      ensures localSettings == facade.store.current
    {
      subscribed := true;
      localSettings := facade.CurrentSettings();
    }

    /**
     * The subscription delivers settings `s`: the form takes a copy. Settings
     * are values here, so later edits of the form cannot reach the store's value.
     */
    method SettingsEmitted(s: TimerSettings)
      requires subscribed
      requires s in facade.store.published
      modifies this`localSettings
      ensures localSettings == s
    {
      localSettings := s;
    }

    /** ngOnDestroy: the subscription ends. */
    method NgOnDestroy()
      modifies this`subscribed
      ensures !subscribed
    {
      subscribed := false;
    }

    /** onFocusChange: only the focus duration changes, to the given minutes in seconds. */
    method OnFocusChange(minutes: int)
      modifies this`localSettings
      ensures localSettings == old(localSettings).(focusDuration := MinutesToSeconds(minutes))
      ensures SecondsToMinutes(localSettings.focusDuration) == minutes
    {
      localSettings := localSettings.(focusDuration := MinutesToSeconds(minutes));
    }

    /** onShortBreakChange: only the short-break duration changes. */
    method OnShortBreakChange(minutes: int)
      modifies this`localSettings
      ensures localSettings == old(localSettings).(shortBreakDuration := MinutesToSeconds(minutes))
      ensures SecondsToMinutes(localSettings.shortBreakDuration) == minutes
    {
      localSettings := localSettings.(shortBreakDuration := MinutesToSeconds(minutes));
    }

    /** onLongBreakChange: only the long-break duration changes. */
    method OnLongBreakChange(minutes: int)
      modifies this`localSettings
      ensures localSettings == old(localSettings).(longBreakDuration := MinutesToSeconds(minutes))
      ensures SecondsToMinutes(localSettings.longBreakDuration) == minutes
    {
      localSettings := localSettings.(longBreakDuration := MinutesToSeconds(minutes));
    }

    /**
     * onSave: clear both flags, send the form through updateSettings, then
     * raise exactly one of them: saveSuccess when the facade yields true,
     * saveError otherwise. An accepted save is published to the store, and a
     * subscribed form receives it before the flag is raised.
     */
    method OnSave(outcome: HttpOutcome<SettingsResponse>)
      requires facade.store.Valid()
      modifies this`saveSuccess, this`saveError, this`localSettings, facade.store
      ensures facade.store.Valid()
      ensures saveSuccess <==> outcome.Ok? && outcome.body.success
      ensures saveError <==> !saveSuccess
      ensures facade.store.published == old(facade.store.published) + (if saveSuccess then [outcome.body.settings] else [])
      ensures localSettings == if saveSuccess && subscribed then outcome.body.settings else old(localSettings)
    {
      saveSuccess := false;
      saveError := false;
      var ok := facade.UpdateSettings(outcome);
      if ok && subscribed {
        localSettings := facade.CurrentSettings();
      }
      if ok {
        saveSuccess := true;
      } else {
        saveError := true;
      }
    }

    /** onReset: ask the facade to reset, and leave both flags false. */
    method OnReset(outcome: HttpOutcome<SettingsResponse>)
      requires facade.store.Valid()
      modifies this`saveSuccess, this`saveError, this`localSettings, facade.store
      ensures facade.store.Valid()
      ensures !saveSuccess && !saveError
      ensures facade.store.published == old(facade.store.published)
        + (if outcome.Ok? && outcome.body.success then [outcome.body.settings] else [])
      ensures localSettings == if outcome.Ok? && outcome.body.success && subscribed then outcome.body.settings else old(localSettings)
    {
      facade.ResetSettings(outcome);
      if outcome.Ok? && outcome.body.success && subscribed {
        localSettings := facade.CurrentSettings();
      }
      saveSuccess := false;
      saveError := false;
    }
  }
}
