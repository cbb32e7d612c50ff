/** `KeychainManager`: one username/password pair under two fixed keychain keys. */
module Keychain {
  import opened Wrappers
  import Stores

  const UsernameKey: string := "appUsernameKey"
  const PasswordKey: string := "appPasswordKey"

  /** What `retrieveCredentials` hands back: two optional strings. */
  datatype Credentials = Credentials(username: Option<string>, password: Option<string>)

  /** `keychain.get(key)`: the stored string, or nil when nothing is stored under `key`. */
  function Lookup(entries: map<string, string>, key: string): (r: Option<string>)
    ensures r.None? <==> key !in entries
    ensures key in entries ==> r == Some(entries[key])
  {
    if key in entries then Some(entries[key]) else None
  }

  /** The pair `retrieveCredentials` reads from the keychain. */
  function Retrieve(entries: map<string, string>): (c: Credentials)
    ensures c.username.None? <==> UsernameKey !in entries
    ensures c.password.None? <==> PasswordKey !in entries
    ensures entries == map[] ==> c == Credentials(None, None)
  {
    Credentials(Lookup(entries, UsernameKey), Lookup(entries, PasswordKey))
  }

  /** Both credential keys are present, or neither is. */
  predicate Paired(entries: map<string, string>)
  {
    UsernameKey in entries <==> PasswordKey in entries
  }

  /**
   * The keychain after `storeCredentials(username, password)`: the pair is read
   * back exactly, it is stored as a pair, and no other key is touched.
   */
  function Stored(entries: map<string, string>, username: string, password: string): (r: map<string, string>)
    ensures Retrieve(r) == Credentials(Some(username), Some(password))
    ensures Paired(r)
    ensures r - {UsernameKey, PasswordKey} == entries - {UsernameKey, PasswordKey}
  {
    entries[UsernameKey := username][PasswordKey := password]
  }

  /** A second store leaves no trace of the first. */
  lemma StoredOverwrites(entries: map<string, string>, u1: string, p1: string, u2: string, p2: string)
    ensures Stored(Stored(entries, u1, p1), u2, p2) == Stored(entries, u2, p2)
  {
  }

  class KeychainManager {
    const keychain: Stores.SecureStore

    /** Every `KeychainManager()` opens the same device keychain. */
    constructor (keychain: Stores.SecureStore)
      ensures this.keychain == keychain
    {
      this.keychain := keychain;
    }

    method StoreCredentials(username: string, password: string)
      modifies keychain
      ensures keychain.entries == Stored(old(keychain.entries), username, password)
    {
      keychain.entries := keychain.entries[UsernameKey := username];
      keychain.entries := keychain.entries[PasswordKey := password];
    }

    method RetrieveCredentials() returns (username: Option<string>, password: Option<string>)
      ensures Credentials(username, password) == Retrieve(keychain.entries)
      ensures username.Some? <==> UsernameKey in keychain.entries
      ensures password.Some? <==> PasswordKey in keychain.entries
    {
      username := Lookup(keychain.entries, UsernameKey);
      password := Lookup(keychain.entries, PasswordKey);
    }
  }

}
