/**
  The persistence service of the newer core (Core/PersistenceService.swift): user settings and the
  focus-session history, each under its own key of the preference store.
 */
module Persistence {
  import opened Optional
  import opened FocusSessions
  import opened KeyValueStore

  class UserDefaultsPersistence {
    const defaults: UserDefaults
    /** Two different keys, so writing one never disturbs the other. */
    const userSettingsKey: string := "userSettings"
    const sessionHistoryKey: string := "sessionHistory"

    constructor (defaults: UserDefaults)
      ensures this.defaults == defaults
    {
      this.defaults := defaults;
    }

    /** `loadUserSettings`: the stored settings, or the defaults when the key is absent or undecodable. */
    function LoadUserSettings(): (r: UserSettings)
      reads defaults
      ensures userSettingsKey !in defaults.entries ==> r == DefaultSettings()
      ensures userSettingsKey in defaults.entries && !defaults.entries[userSettingsKey].Settings?
              ==> r == DefaultSettings()
      ensures userSettingsKey in defaults.entries && defaults.entries[userSettingsKey].Settings?
              ==> r == defaults.entries[userSettingsKey].settings
    {
      match defaults.DataFor(userSettingsKey)
      case None => DefaultSettings()
      case Some(d) => DecodeSettings(d).GetOr(DefaultSettings())
    }

    /** `loadSessionHistory`: the stored history, or the empty list when the key is absent or undecodable. */
    function LoadSessionHistory(): (r: seq<FocusSession>)
      reads defaults
      ensures sessionHistoryKey !in defaults.entries ==> r == []
      ensures sessionHistoryKey in defaults.entries && !defaults.entries[sessionHistoryKey].FocusSessionList?
              ==> r == []
      ensures sessionHistoryKey in defaults.entries && defaults.entries[sessionHistoryKey].FocusSessionList?
              ==> r == defaults.entries[sessionHistoryKey].history
    {
      match defaults.DataFor(sessionHistoryKey)
      case None => []
      case Some(d) => DecodeFocusSessions(d).GetOr([])
    }

    /** `saveUserSettings`: loading now returns exactly `settings`, and the history is untouched. */
    method SaveUserSettings(settings: UserSettings)
      modifies defaults
      ensures defaults.entries == old(defaults.entries)[userSettingsKey := Settings(settings)]
      ensures LoadUserSettings() == settings
      ensures LoadSessionHistory() == old(LoadSessionHistory())
    {
      defaults.Set(Settings(settings), userSettingsKey);
    }

    /** `saveSession`: read the history, append, write. The settings are untouched. */
    method SaveSession(session: FocusSession)
      modifies defaults
      ensures defaults.entries == old(defaults.entries)[sessionHistoryKey := FocusSessionList(old(LoadSessionHistory()) + [session])]
      ensures LoadSessionHistory() == old(LoadSessionHistory()) + [session]
      ensures LoadUserSettings() == old(LoadUserSettings())
    {
      var history := LoadSessionHistory();
      history := history + [session];
      defaults.Set(FocusSessionList(history), sessionHistoryKey);
    }

    /** `clearSessionHistory`: loading afterwards gives the empty list. The settings are untouched. */
    method ClearSessionHistory()
      modifies defaults
      ensures defaults.entries == old(defaults.entries) - {sessionHistoryKey}
      ensures LoadSessionHistory() == []
      ensures LoadUserSettings() == old(LoadUserSettings())
    {
      defaults.RemoveObject(sessionHistoryKey);
    }
  }
}
