/** `AppState`: the in-memory session and its persisted "stay logged in" choice. */
module Session {
  import Stores

  const StayLoggedInKey: string := "stayLoggedIn"

  /** `UserDefaults.bool(forKey: "stayLoggedIn")`: false when nothing is stored. */
  function PersistedStay(values: map<string, bool>): (stay: bool)
    ensures StayLoggedInKey !in values ==> !stay
    ensures StayLoggedInKey in values ==> stay == values[StayLoggedInKey]
  {
    StayLoggedInKey in values && values[StayLoggedInKey]
  }

  /** The preferences after the `stayLoggedIn` observer saved `v`; no other key changes. */
  function WithStay(values: map<string, bool>, v: bool): (r: map<string, bool>)
    ensures PersistedStay(r) == v
    ensures r - {StayLoggedInKey} == values - {StayLoggedInKey}
  {
    values[StayLoggedInKey := v]
  }

  class AppState {
    var isLoggedIn: bool
    var stayLoggedIn: bool
    const defaults: Stores.UserDefaults

    /** The in-memory choice agrees with what is persisted. */
    predicate Synced()
      reads this, defaults
    {
      stayLoggedIn == PersistedStay(defaults.values)
    }

    /**
     * Restores the choice from the preferences and, when it is set, logs in
     * without looking at any credential. Swift does not run the `didSet`
     * observer for assignments in the class's own initializer, so nothing is
     * written back.
     */
    constructor (defaults: Stores.UserDefaults)
      ensures this.defaults == defaults && unchanged(defaults)
      ensures stayLoggedIn == PersistedStay(defaults.values)
      ensures isLoggedIn == stayLoggedIn
      ensures Synced()
    {
      this.defaults := defaults;
      isLoggedIn := false;
      stayLoggedIn := PersistedStay(defaults.values);
      new;
      if stayLoggedIn {
        isLoggedIn := true;
      }
    }

    /** Writing `stayLoggedIn`, whose `didSet` saves the new value at once. */
    method SetStayLoggedIn(v: bool)
      modifies this`stayLoggedIn, defaults`values
      ensures stayLoggedIn == v && isLoggedIn == old(isLoggedIn)
      ensures defaults.values == WithStay(old(defaults.values), v)
      ensures Synced()
    {
      stayLoggedIn := v;
      defaults.values := defaults.values[StayLoggedInKey := v];
    }

    /** Ends the session; the stay choice and the stores are left as they are. */
    method LogOut()
      modifies this`isLoggedIn
      ensures !isLoggedIn
      ensures stayLoggedIn == old(stayLoggedIn) && unchanged(defaults)
      ensures old(Synced()) ==> Synced()
    {
      isLoggedIn := false;
    }
  }

}
