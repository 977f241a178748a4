/**
  The app's preference store (the platform's user defaults), shared by the session log and the
  persistence service. Each key holds JSON-encoded data; the model keeps the decoded shape of that
  data instead of its bytes, and bytes that decode as none of the app's types are `Undecodable`.
 */
module KeyValueStore {
  import opened Optional
  import Sessions
  import FocusSessions

  datatype Data =
    | SessionList(sessions: seq<Sessions.Session>)
    | FocusSessionList(history: seq<FocusSessions.FocusSession>)
    | Settings(settings: FocusSessions.UserSettings)
    | Undecodable(bytes: seq<int>)

  /** Decoding `[Session]`: succeeds only on data that holds a list of session records. */
  function DecodeSessions(d: Data): (r: Option<seq<Sessions.Session>>)
    ensures r.Some? <==> d.SessionList?
  {
    if d.SessionList? then Some(d.sessions) else None
  }

  /** Decoding `[FocusSession]`. */
  function DecodeFocusSessions(d: Data): (r: Option<seq<FocusSessions.FocusSession>>)
    ensures r.Some? <==> d.FocusSessionList?
  {
    if d.FocusSessionList? then Some(d.history) else None
  }

  /** Decoding `UserSettings`. */
  function DecodeSettings(d: Data): (r: Option<FocusSessions.UserSettings>)
    ensures r.Some? <==> d.Settings?
  {
    if d.Settings? then Some(d.settings) else None
  }

  /** Encoding then decoding gives back what was encoded, for each of the three stored types. */
  lemma DecodeEncode(s: seq<Sessions.Session>, h: seq<FocusSessions.FocusSession>, u: FocusSessions.UserSettings)
    ensures DecodeSessions(SessionList(s)) == Some(s)
    ensures DecodeFocusSessions(FocusSessionList(h)) == Some(h)
    ensures DecodeSettings(Settings(u)) == Some(u)
  {
  }

  class UserDefaults {
    var entries: map<string, Data>

    constructor ()
      ensures entries == map[]
    {
      entries := map[];
    }

    /** `data(forKey:)`: what the key holds, if anything. */
    function DataFor(key: string): (r: Option<Data>)
      reads this
      ensures r.Some? <==> key in entries
      ensures r.Some? ==> r.value == entries[key]
    {
      if key in entries then Some(entries[key]) else None
    }

    /** `set(_:forKey:)`: the key now holds `d`; every other key is untouched. */
    method Set(d: Data, key: string)
      modifies this
      ensures entries == old(entries)[key := d]
    {
      entries := entries[key := d];
    }

    /** `removeObject(forKey:)`: the key is gone; every other key is untouched. */
    method RemoveObject(key: string)
      modifies this
      ensures entries == old(entries) - {key}
    {
      entries := entries - {key};
    }
  }
}
