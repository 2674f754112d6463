/**
 * The bearer-token store (src/services/auth.js): `getToken`, `setToken` and
 * `removeToken` on the single `token` entry of the browser's key-value
 * storage. The storage is a map from keys to string values; the three
 * operations are specified by pure functions on that map.
 */
module TokenStore {
  import opened Common

  const TokenKey := "token"

  /** `localStorage.getItem('token')`: the stored token, or `None` (null). */
  function Lookup(storage: map<string, string>): (t: Option<string>)
    ensures t.Some? <==> TokenKey in storage
    ensures t.Some? ==> t.value == storage[TokenKey]
  {
    if TokenKey in storage then Some(storage[TokenKey]) else None
  }

  /** The storage after `localStorage.setItem('token', token)`. */
  function Stored(storage: map<string, string>, token: string): map<string, string> {
    storage[TokenKey := token]
  }

  /** The storage after `localStorage.removeItem('token')`. */
  function Removed(storage: map<string, string>): map<string, string> {
    storage - {TokenKey}
  }

  /** After `setToken(t)`, `getToken()` returns `t`. */
  lemma GetAfterSet(storage: map<string, string>, token: string)
    ensures Lookup(Stored(storage, token)) == Some(token)
  {
  }

  /** After `removeToken()`, `getToken()` returns null. */
  lemma GetAfterRemove(storage: map<string, string>)
    ensures Lookup(Removed(storage)) == None
  {
  }

  /** The last `setToken` wins. */
  lemma LastWriteWins(storage: map<string, string>, first: string, second: string)
    ensures Stored(Stored(storage, first), second) == Stored(storage, second)
  {
  }

  /** `removeToken` is idempotent. */
  lemma RemoveIdempotent(storage: map<string, string>)
    ensures Removed(Removed(storage)) == Removed(storage)
  {
  }

  /** Setting and removing the token leave every other key as it was. */
  lemma OtherKeysUntouched(storage: map<string, string>, token: string, key: string)
    requires key != TokenKey
    ensures key in Stored(storage, token) <==> key in storage
    ensures key in Removed(storage) <==> key in storage
    ensures key in storage ==> Stored(storage, token)[key] == storage[key] && Removed(storage)[key] == storage[key]
  {
  }

  /** The browser's key-value storage as the three token functions see it. */
  class LocalStorage {
    var entries: map<string, string>

    constructor (entries: map<string, string>)
      ensures this.entries == entries
    {
      this.entries := entries;
    }

    /** `getToken`: reads the storage, changes nothing. */
    method GetToken() returns (token: Option<string>)
      ensures token == Lookup(entries)
      ensures token.Some? <==> TokenKey in entries
    {
      if TokenKey in entries {
        token := Some(entries[TokenKey]);
      } else {
        token := None;
      }
    }

    /** `setToken`. */
    method SetToken(token: string)
      modifies this
      ensures entries == Stored(old(entries), token)
      ensures Lookup(entries) == Some(token)
    {
      entries := entries[TokenKey := token];
    }

    /** `removeToken`. */
    method RemoveToken()
      modifies this
      ensures entries == Removed(old(entries))
      ensures Lookup(entries) == None
    {
      entries := entries - {TokenKey};
    }
  }
}
