/**
 * The views whose actions touch the session: the app's entry point, the
 * welcome screen's `onAppear`, `SignUpView.signUp`, `LoginView.login` and the
 * login screen's "Stay Logged In" toggle. Each view owns its own
 * `KeychainManager`, and all of them open the one device keychain.
 */
module Views {
  import opened Wrappers
  import Stores
  import Keychain
  import Session
  import Navigation
  import Auth

  /** The flow's state as the running app holds it. */
  function Observe(appState: Session.AppState, keychain: Stores.SecureStore): Auth.World
    reads appState, appState.defaults, keychain
  {
    Auth.World(keychain.entries, appState.defaults.values, appState.isLoggedIn, appState.stayLoggedIn)
  }

  /** `FamilyConnectApp` constructing its one `AppState` at process start. */
  method LaunchApp(keychain: Stores.SecureStore, defaults: Stores.UserDefaults) returns (appState: Session.AppState)
    ensures fresh(appState) && appState.defaults == defaults
    ensures Observe(appState, keychain) == Auth.Launch(keychain.entries, defaults.values)
  {
    appState := new Session.AppState(defaults);
  }

  /** The welcome screen appearing, on the same preferences as the session's. */
  method ShowWelcomeScreen(appState: Session.AppState, keychain: Stores.SecureStore)
    modifies appState.defaults
    ensures Navigation.Body(appState.defaults, appState) != Navigation.WelcomeScreen
    ensures Observe(appState, keychain) == Auth.Step(old(Observe(appState, keychain)), Auth.WelcomeScreenAppeared)
  {
    Navigation.WelcomeScreenAppeared(appState.defaults);
  }

  class SignUpView {
    var username: string
    var email: string
    var password: string
    var passwordConfirmation: string
    const keychainManager: Keychain.KeychainManager
    const appState: Session.AppState

    constructor (keychain: Stores.SecureStore, appState: Session.AppState)
      ensures username == email == password == passwordConfirmation == ""
      ensures fresh(keychainManager) && keychainManager.keychain == keychain
      ensures this.appState == appState
    {
      username, email, password, passwordConfirmation := "", "", "", "";
      keychainManager := new Keychain.KeychainManager(keychain);
      this.appState := appState;
    }

    /**
     * Stores the typed username and password. The email and the confirmation
     * are not looked at: a confirmation that differs from the password is
     * accepted.
     */
    method SignUp()
      modifies keychainManager.keychain
      ensures keychainManager.keychain.entries
        == Keychain.Stored(old(keychainManager.keychain.entries), username, password)
      ensures Observe(appState, keychainManager.keychain)
        == Auth.Step(old(Observe(appState, keychainManager.keychain)),
                     Auth.SignUp(username, email, password, passwordConfirmation))
    {
      keychainManager.StoreCredentials(username, password);
    }
  }

  class LoginView {
    var username: string
    var password: string
    var authenticationFailed: bool
    const keychainManager: Keychain.KeychainManager
    const appState: Session.AppState

    constructor (keychain: Stores.SecureStore, appState: Session.AppState)
      ensures username == password == "" && !authenticationFailed
      ensures fresh(keychainManager) && keychainManager.keychain == keychain
      ensures this.appState == appState
    {
      username, password, authenticationFailed := "", "", false;
      keychainManager := new Keychain.KeychainManager(keychain);
      this.appState := appState;
    }

    /**
     * Logged in exactly when both typed strings equal the stored ones; on any
     * mismatch, or with nothing stored, the session is ended even if it was
     * running, and the failure flag is raised. Credentials and the stay
     * choice are left alone.
     */
    method Login()
      modifies this`authenticationFailed, appState`isLoggedIn
      ensures appState.isLoggedIn
        <==> Keychain.Retrieve(keychainManager.keychain.entries)
               == Keychain.Credentials(Some(username), Some(password))
      ensures authenticationFailed == !appState.isLoggedIn
      ensures appState.stayLoggedIn == old(appState.stayLoggedIn)
      ensures unchanged(keychainManager.keychain, appState.defaults)
      ensures Observe(appState, keychainManager.keychain)
        == Auth.Step(old(Observe(appState, keychainManager.keychain)), Auth.Login(username, password))
    {
      var storedUsername, storedPassword := keychainManager.RetrieveCredentials();
      if Some(username) == storedUsername && Some(password) == storedPassword {
        authenticationFailed := false;
        appState.isLoggedIn := true;
      } else {
        authenticationFailed := true;
        appState.isLoggedIn := false;
      }
    }

    /** The "Stay Logged In" toggle, bound to `appState.stayLoggedIn`. */
    method ToggleStayLoggedIn(stay: bool)
      modifies appState`stayLoggedIn, appState.defaults`values
      ensures appState.stayLoggedIn == stay
      ensures Observe(appState, keychainManager.keychain)
        == Auth.Step(old(Observe(appState, keychainManager.keychain)), Auth.SetStayLoggedIn(stay))
    {
      appState.SetStayLoggedIn(stay);
    }
  }

  /**
   * The sign-up sheet and the login screen each build their own
   * `KeychainManager`, yet a pair signed up in one logs in through the other,
   * whatever was stored before and whatever the confirmation says.
   */
  method SignUpThenLogIn(keychain: Stores.SecureStore, appState: Session.AppState,
                         username: string, email: string, password: string, confirmation: string)
    modifies keychain, appState`isLoggedIn
    ensures Keychain.Retrieve(keychain.entries) == Keychain.Credentials(Some(username), Some(password))
    ensures appState.isLoggedIn
  {
    var signUp := new SignUpView(keychain, appState);
    signUp.username, signUp.email, signUp.password, signUp.passwordConfirmation := username, email, password, confirmation;
    signUp.SignUp();
    var login := new LoginView(keychain, appState);
    login.username, login.password := username, password;
    login.Login();
  }

}
