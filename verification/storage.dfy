/** The browser's persistent key/value stores as the dashboard uses them:
    `localStorage` and the cookie jar, each a map from key to string.
    The session lives under two fixed keys. */
module Storage {
  import opened Base

  /** `localStorage`, or the cookie jar (name to value). */
  type Store = map<string, string>

  const AccessKey: string := "access_token"
  const RefreshKey: string := "refresh_token"

  /** `getItem(key)`: the stored value, or `null` when the key is absent. */
  function GetItem(st: Store, key: string): Option<string> {
    if key in st then Some(st[key]) else None
  }

  /** `setItem(key, value)`. */
  function SetItem(st: Store, key: string, value: string): Store {
    st[key := value]
  }

  /** `removeItem(key)`; also a cookie written with an expiry in the past. */
  function RemoveItem(st: Store, key: string): Store {
    st - {key}
  }

  /** Both session keys removed, one after the other, as logout and a
      failed refresh do: neither token can be read back afterwards, and
      every other key keeps its value. */
  function ClearTokens(st: Store): (r: Store)
    ensures GetItem(r, AccessKey) == None && GetItem(r, RefreshKey) == None
    ensures forall k :: k != AccessKey && k != RefreshKey ==> GetItem(r, k) == GetItem(st, k)
  {
    RemoveItem(RemoveItem(st, AccessKey), RefreshKey)
  }

  /** Clearing an already cleared store changes nothing, so a second
      logout is harmless. */
  lemma ClearTokensIdempotent(st: Store)
    ensures ClearTokens(ClearTokens(st)) == ClearTokens(st)
  {
  }
}
