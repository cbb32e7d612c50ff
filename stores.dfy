/**
 * The two platform key-value stores the app writes to. Their internals are
 * foreign libraries; here each is only the map it holds, shared by every
 * part of the app that opens it.
 */
module Stores {

  /** The device keychain as KeychainSwift exposes it: strings under string keys. */
  class SecureStore {
    var entries: map<string, string>

    constructor (entries: map<string, string>)
      ensures this.entries == entries
    {
      this.entries := entries;
    }
  }

  /** `UserDefaults.standard`, restricted to the boolean values this app stores. */
  class UserDefaults {
    var values: map<string, bool>

    constructor (values: map<string, bool>)
      ensures this.values == values
    {
      this.values := values;
    }
  }

}
