/** The browser state the dashboard touches: `localStorage`, the current
    location, and the common default headers of the global `axios` object
    (which `setAuthToken` edits; the shared API instance has its own). */
module Web {

  /** The storage key of the bearer token. */
  const TokenKey := "admin_token"
  /** The storage key of the serialized user. */
  const UserKey := "admin_user"
  const AuthorizationHeader := "Authorization"

  class Browser {
    var storage: map<string, string>
    var location: string
    var defaultHeaders: map<string, string>

    constructor (storage: map<string, string>, location: string)
      ensures this.storage == storage && this.location == location
      ensures defaultHeaders == map[]
    {
      this.storage := storage;
      this.location := location;
      defaultHeaders := map[];
    }
  }

  /** `localStorage.getItem(key)` tested for truthiness: present and not
      the empty string. */
  predicate Truthy(storage: map<string, string>, key: string) {
    key in storage && storage[key] != ""
  }

  /** Storage with the session keys removed, as every sign-out path leaves
      it. */
  function WithoutSession(storage: map<string, string>): (s: map<string, string>)
    ensures TokenKey !in s && UserKey !in s
    ensures forall k :: k in storage && k != TokenKey && k != UserKey ==> k in s && s[k] == storage[k]
    ensures forall k :: k in s ==> k in storage
  {
    storage - {TokenKey, UserKey}
  }

  /** `"Bearer " + token` */
  function Bearer(token: string): (h: string)
    ensures |h| == 7 + |token|
    ensures h[..7] == "Bearer " && h[7..] == token
  {
    "Bearer " + token
  }
}
