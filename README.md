# FamilyConnect: login and session model

FamilyConnect is a small SwiftUI app: a welcome screen, a local sign-up and
login flow, and a dashboard of placeholder panes. Its only logic with state
is the session: one username/password pair kept in the device keychain by
`KeychainManager`, an `AppState` object holding `isLoggedIn` and a
`stayLoggedIn` choice saved in `UserDefaults`, the `signUp` and `login`
actions of the two forms, and the choice in `ContentView` between the
welcome screen, the login screen and the dashboard.

This Dafny project models that part:

- `Stores` — the keychain and `UserDefaults.standard` as two shared objects, each holding a map.
- `Keychain` — the two fixed keys, `storeCredentials` and `retrieveCredentials` (`KeychainManager` is a class over the shared keychain; the values it reads back are `Option<string>`).
- `Session` — `AppState`: its initializer, the `stayLoggedIn` setter with its saving `didSet`, and `logOut`.
- `Navigation` — the `welcomeScreenShown` preference, the screen choice of `ContentView.body` as the pure function `Route`, and the welcome screen's `onAppear`.
- `Auth` — the whole flow as a transition system: a `World` (keychain, preferences, the two session flags), one `Step` per user action (sign up, log in, toggle "stay logged in", log out, welcome screen shown, relaunch), `Run` over a sequence of actions, and the lemmas about every reachable state.
- `Views` — the app entry point, `SignUpView.signUp`, `LoginView.login` and its toggle as classes whose methods are proved to take exactly the corresponding `Auth.Step`.

Two facts of the Swift code shape the model. Swift does not run a property's
`didSet` observer for assignments made in the class's own initializer, so
constructing `AppState` writes nothing back to the preferences. And every
view creates its own `KeychainManager()`, but they all open the same device
keychain; the model passes one shared `SecureStore` to all of them.

## Model

| member | source | states |
|---|---|---|
| `Keychain.Lookup` | ContentView.swift:61-62 | `keychain.get` returns nil exactly when nothing is stored under the key, and the stored string otherwise |
| `Keychain.Retrieve` | ContentView.swift:60-64 | each retrieved value is missing exactly when its key is absent; an empty keychain gives `(None, None)` |
| `Keychain.Stored` | ContentView.swift:55-58 | after storing `(u, p)` the keychain reads back exactly `(Some(u), Some(p))`, both keys are present, and no other key changes |
| `Keychain.StoredOverwrites` | ContentView.swift:55-58 | a second store replaces the first completely: storing `(u1, p1)` then `(u2, p2)` equals storing only `(u2, p2)` |
| `Keychain.KeychainManager.StoreCredentials` | ContentView.swift:55-58 | the shared keychain becomes `Stored` of its old contents and the given pair |
| `Keychain.KeychainManager.RetrieveCredentials` | ContentView.swift:60-64 | returns the two stored values, each `None` exactly when its key is absent |
| `Session.PersistedStay` | ContentView.swift:33 | reading the stay flag gives false when the key is absent and the stored value otherwise |
| `Session.WithStay` | ContentView.swift:26-30 | after saving `v`, the persisted flag reads `v` and no other preference changes |
| `Session.AppState.constructor` | ContentView.swift:32-39 | `stayLoggedIn` is the persisted flag (false when absent), `isLoggedIn` equals it with no credential check, and the preferences are not written |
| `Session.AppState.SetStayLoggedIn` | ContentView.swift:26-30 | the flag becomes `v`, it is saved at once under `stayLoggedIn`, the session flag is unchanged, and memory and storage agree afterwards |
| `Session.AppState.LogOut` | ContentView.swift:41-46 | `isLoggedIn` is false afterwards, whatever `stayLoggedIn` is; `stayLoggedIn` and the preferences are unchanged |
| `Navigation.WelcomeScreenShown` | ContentView.swift:14-17 | the welcome flag reads false when the key is absent and the stored value otherwise |
| `Navigation.WithWelcomeShown` | ContentView.swift:18-20 | after the write the welcome flag reads true and no other preference changes |
| `Navigation.Route` | ContentView.swift:70-79 | the welcome screen exactly when it has not been shown, whatever the session; otherwise the dashboard exactly when logged in and the login screen exactly when not |
| `Navigation.WelcomeScreenAppeared` | ContentView.swift:119 | the welcome screen's appearance sets the persisted flag to true |
| `Auth.Authenticates` | ContentView.swift:258-259 | a login matches exactly when the stored pair is `(Some(username), Some(password))`; a missing stored value never matches |
| `Auth.Launch` | ContentView.swift:32-39 | a process start keeps the device's stores, restores the stay flag in sync with storage, and is logged in exactly when that flag is set |
| `Auth.Step` | ContentView.swift:24-64 | every action keeps the stay flag in sync with storage and the two credential keys paired, and never clears the welcome flag |
| `Auth.RunKeepsInvariant` | ContentView.swift:24-64 | after any sequence of actions from a consistent state, the stay flag still agrees with storage and the credential keys are still paired |
| `Auth.LaunchedStatesAreConsistent` | ContentView.swift:32-64 | from a launch on a keychain holding both credential keys or neither, every reachable state keeps the stay flag in sync with storage and reads the credentials back both present or both missing |
| `Auth.RunStoresLastSignUp` | ContentView.swift:188-193 | after any actions the keychain reads back the pair of the last sign-up; with no sign-up the keychain is untouched |
| `Auth.LoginSucceedsIffLastSignUp` | ContentView.swift:253-269 | from a keychain with no credentials, a login after any actions succeeds if and only if it repeats the last sign-up's pair, so it fails before any sign-up and with an overwritten pair |
| `Auth.RunPersistsLastStayChoice` | ContentView.swift:26-30 | the persisted stay flag after any actions is the last value chosen, or the initial one when none was chosen |
| `Auth.RelaunchRestoresStay` | ContentView.swift:32-39 | after a relaunch the session is logged in exactly when the last stay choice was true, with the keychain unchanged and never consulted |
| `Auth.WelcomeScreenShownIsPermanent` | ContentView.swift:14-20 | once the welcome screen has appeared, the flag stays true through any later actions and the welcome screen is never routed to again |
| `Auth.FailedLoginLogsOut` | ContentView.swift:264-267 | a failed login while logged in ends the session and changes nothing else |
| `Auth.SignUpIgnoresEmailAndConfirmation` | ContentView.swift:188-193 | sign-ups that differ only in email or confirmation lead to the same state |
| `Views.LaunchApp` | FamilyConnectApp.swift:12-16 | the app's one `AppState` starts in the state `Auth.Launch` gives for the device's stores |
| `Views.ShowWelcomeScreen` | ContentView.swift:119 | after the welcome screen appears, the next evaluation of `ContentView.body` routes elsewhere, and the step is `Auth.WelcomeScreenAppeared` |
| `Views.SignUpView.SignUp` | ContentView.swift:188-193 | stores exactly the typed username and password, ignoring email and confirmation; the step is `Auth.SignUp` |
| `Views.LoginView.Login` | ContentView.swift:253-269 | logged in if and only if both typed strings equal the stored ones; `authenticationFailed` is the opposite; a mismatch logs out even a running session; credentials, preferences and `stayLoggedIn` are unchanged; the step is `Auth.Login` |
| `Views.LoginView.ToggleStayLoggedIn` | ContentView.swift:224-226 | the toggle sets `stayLoggedIn` through its saving setter; the step is `Auth.SetStayLoggedIn` |
| `Views.SignUpThenLogIn` | ContentView.swift:188-193 | signing up in one form and logging in with the same pair in the other succeeds, whatever was stored before and whatever the confirmation says |

## Left out

- SwiftUI layout, styling, previews, the dashboard tabs and the placeholder panes (`HomeView` and the rest): display only.
- Sheet presentation, including `.sheet(isPresented: $appState.isLoggedIn)` on the login button: dismissing that sheet can set `isLoggedIn` to false through the framework's binding, which the model does not capture.
- `ObservableObject` / `@Published` change notification: framework observation, not logic. In particular `ContentView.body` observes only `appState` and reads the welcome flag straight from the preferences, so setting that flag does not by itself redraw the screen; `Views.ShowWelcomeScreen` speaks of the next evaluation of `body`, not of when it happens.
- `Auth.Authenticates`: compares strings as sequences of Unicode scalars, while Swift's `String ==` compares by canonical equivalence (a decomposed "e" plus combining accent equals the precomposed character). Unicode normalization is not modelled, so the model agrees with the app only for strings typed in the same normal form.
- `Views.LoginView.Login`: "both typed strings equal the stored ones" is scalar-by-scalar equality; a login typed in another Unicode normal form of the stored pair succeeds in the app but fails in the model.
- `Auth.LoginSucceedsIffLastSignUp`: the "if and only if" holds with scalar-by-scalar equality; for a pair canonically equivalent to, but not identical with, the last sign-up's pair the app logs in while the lemma says the login fails.
- `Auth.LaunchedStatesAreConsistent`: requires a keychain holding both credential keys or neither; a device keychain holding only one of them (written by something other than this app) is not covered.
- The internals of `KeychainSwift` and `UserDefaults`: each is a map. A keychain write that fails (KeychainSwift returns false) is not modelled, since the source ignores the result. `UserDefaults` holds only booleans here, since the app stores nothing else.
- The unused `@AppStorage("wecomeScreenShown")` property of `WelcomeScreen`: it is never read, so it cannot affect routing.
- `print` logging in `signUp` and `login`, and the unused `Contacts` imports.
- `AppState.logOut` is modelled, but no view of the app calls it, so no view method is tied to `Auth.LogOut`.
- `Navigation.Body` (`ContentView.body` reading the stores) has no contract of its own; what it decides is stated by `Navigation.Route` and `Views.ShowWelcomeScreen`.
