/**
  `UserDefaults.standard`: the process-wide string store that both the API
  client (reading the bearer token) and the authentication manager (writing
  and removing it) share.
*/
module Defaults {
  import opened Wrappers

  /** The one key under which the app keeps its bearer token. */
  const AuthTokenKey: string := "authToken"

  class UserDefaults {
    var entries: map<string, string>

    constructor (initial: map<string, string>)
      ensures entries == initial
    {
      entries := initial;
    }

    /** `string(forKey:)`. */
    function StringForKey(key: string): (r: Option<string>)
      reads this
      ensures r.Some? <==> key in entries
      ensures r.Some? ==> r.value == entries[key]
    {
      if key in entries then Some(entries[key]) else None
    }

    /** `set(_:forKey:)`: stores the value, leaving every other key alone. */
    method Set(value: string, key: string)
      modifies this
      ensures entries == old(entries)[key := value]
    {
      entries := entries[key := value];
    }

    /** `removeObject(forKey:)`: forgets the key, leaving every other key alone. */
    method RemoveObject(key: string)
      modifies this
      ensures entries == old(entries) - {key}
    {
      entries := entries - {key};
    }
  }
}
