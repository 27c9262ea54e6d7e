/**
 * The settings facade (src/app/core/services/settings.facade.ts): loads the
 * settings at construction, saves and resets them, and mirrors every accepted
 * server answer into the settings store. Each HTTP request is represented by
 * its outcome.
 */
module SettingsSync {
  import opened Wrappers
  import opened Models
  import opened SettingsStore

  /** SettingsFacade. */
  class SettingsFacade {
    const store: SettingsStateService

    /** Construction: a store at DEFAULT_SETTINGS; the load's reply arrives through `LoadSettings`. */
    constructor ()
      ensures fresh(store) && store.Valid()
      ensures store.published == [DefaultSettings]
    {
      store := new SettingsStateService();
    }

    /** loadSettings resolves: fetched settings are published; a failure is only logged. */
    method LoadSettings(outcome: HttpOutcome<TimerSettings>)
      requires store.Valid()
      modifies store
      ensures store.Valid()
      ensures store.published == old(store.published) + (if outcome.Ok? then [outcome.body] else [])
    {
      if outcome.Ok? {
        store.SetState(outcome.body);
      }
    }

    /**
     * updateSettings: yields exactly one boolean, true iff the server answered
     * with success:true, in which case (and only then) its settings are published.
     */
    method UpdateSettings(outcome: HttpOutcome<SettingsResponse>) returns (ok: bool)
      requires store.Valid()
      modifies store
      ensures store.Valid()
      ensures ok <==> outcome.Ok? && outcome.body.success
      ensures store.published == old(store.published) + (if ok then [outcome.body.settings] else [])
    {
      match outcome
      case Ok(response) =>
        if response.success {
          store.SetState(response.settings);
          ok := true;
        } else {
          ok := false;
        }
      case Err =>
        ok := false;
    }

    /** resetSettings: publishes the server's settings only on a success:true answer. */
    method ResetSettings(outcome: HttpOutcome<SettingsResponse>)
      requires store.Valid()
      modifies store
      ensures store.Valid()
      ensures store.published == old(store.published)
        + (if outcome.Ok? && outcome.body.success then [outcome.body.settings] else [])
    {
      if outcome.Ok? && outcome.body.success {
        store.SetState(outcome.body.settings);
      }
    }

    /** currentSettings: the store's current value. */
    function CurrentSettings(): (s: TimerSettings)
      reads this, store
      requires store.Valid()
      ensures s == store.published[|store.published| - 1]
    {
      store.GetCurrentState()
    }
  }

  /** A rejected save (success:false) after a successful load: false, and the loaded settings stay. */
  method RejectedSaveKeepsSettings(loaded: TimerSettings, proposed: TimerSettings) returns (ok: bool, kept: TimerSettings)
    ensures !ok && kept == loaded
  {
    var facade := new SettingsFacade();
    facade.LoadSettings(Ok(loaded));
    ok := facade.UpdateSettings(Ok(SettingsResponse(false, proposed)));
    kept := facade.CurrentSettings();
  }
}
