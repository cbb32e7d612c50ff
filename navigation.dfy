/** The first-launch flag and the top-level screen choice of `ContentView`. */
module Navigation {
  import Stores
  import Session

  const WelcomeScreenShownKey: string := "welcomeScreenShown"

  /** `UserDefaults.welcomeScreenShown`: a stored boolean, false when absent. */
  function WelcomeScreenShown(values: map<string, bool>): (shown: bool)
    ensures WelcomeScreenShownKey !in values ==> !shown
    ensures WelcomeScreenShownKey in values ==> shown == values[WelcomeScreenShownKey]
  {
    WelcomeScreenShownKey in values && values[WelcomeScreenShownKey]
  }

  /** The preferences after the flag is set; no other key changes. */
  function WithWelcomeShown(values: map<string, bool>): (r: map<string, bool>)
    ensures WelcomeScreenShown(r)
    ensures r - {WelcomeScreenShownKey} == values - {WelcomeScreenShownKey}
  {
    values[WelcomeScreenShownKey := true]
  }

  datatype Screen = WelcomeScreen | LoginView | MainAppDashboard

  /**
   * Until the welcome screen has been shown it is shown, whatever the session;
   * afterwards the dashboard exactly when logged in, the login screen otherwise.
   */
  function Route(welcomeScreenShown: bool, isLoggedIn: bool): (s: Screen)
    ensures s == WelcomeScreen <==> !welcomeScreenShown
    ensures s == MainAppDashboard <==> welcomeScreenShown && isLoggedIn
    ensures s == LoginView <==> welcomeScreenShown && !isLoggedIn
  {
    if welcomeScreenShown then
      if isLoggedIn then MainAppDashboard else LoginView
    else
      WelcomeScreen
  }

  /** `ContentView.body`, reading the flag from the preferences and the session from `appState`. */
  function Body(defaults: Stores.UserDefaults, appState: Session.AppState): (s: Screen)
    reads defaults, appState
  {
    Route(WelcomeScreenShown(defaults.values), appState.isLoggedIn)
  }

  /** The welcome screen's `onAppear`: the flag is set and stays set. */
  method WelcomeScreenAppeared(defaults: Stores.UserDefaults)
    modifies defaults
    ensures defaults.values == WithWelcomeShown(old(defaults.values))
  {
    defaults.values := defaults.values[WelcomeScreenShownKey := true];
  }

}
