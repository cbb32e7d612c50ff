/**
 * The sign-up / login / session flow as a transition system over what the
 * device keeps (keychain, preferences) and what the running process holds
 * (the two `AppState` flags). Each action is one user-triggered call; the
 * classes in `Views` are proved to take exactly these steps.
 */
module Auth {
  import opened Wrappers
  import Stores
  import Keychain
  import Session
  import Navigation

  /**
   * The test in `LoginView.login`: a `String` equals a `String?` only when the
   * optional holds that very string, so nothing matches a missing credential.
   */
  function Authenticates(stored: Keychain.Credentials, username: string, password: string): (ok: bool)
    ensures ok <==> stored == Keychain.Credentials(Some(username), Some(password))
    ensures stored.username.None? || stored.password.None? ==> !ok
  {
    stored.username == Some(username) && stored.password == Some(password)
  }

  datatype World = World(
    keychain: map<string, string>,
    defaults: map<string, bool>,
    isLoggedIn: bool,
    stayLoggedIn: bool)

  datatype Action =
    | SignUp(username: string, email: string, password: string, passwordConfirmation: string)
    | Login(username: string, password: string)
    | SetStayLoggedIn(stay: bool)
    | LogOut
    | WelcomeScreenAppeared
    | Relaunch

  /** The session flag in memory agrees with the persisted one. */
  predicate StaySynced(w: World)
  {
    w.stayLoggedIn == Session.PersistedStay(w.defaults)
  }

  /** What holds in every reachable state. */
  predicate Invariant(w: World)
  {
    StaySynced(w) && Keychain.Paired(w.keychain)
  }

  /** A process start: a fresh `AppState` over whatever the device has kept. */
  function Launch(keychain: map<string, string>, defaults: map<string, bool>): (w: World)
    ensures w.keychain == keychain && w.defaults == defaults
    ensures StaySynced(w)
    ensures w.isLoggedIn <==> Session.PersistedStay(defaults)
  {
    var stay := Session.PersistedStay(defaults);
    World(keychain, defaults, stay, stay)
  }

  /** One action; every action keeps the invariant and never clears the welcome flag. */
  function Step(w: World, a: Action): (r: World)
    ensures Invariant(w) ==> Invariant(r)
    ensures Navigation.WelcomeScreenShown(w.defaults) ==> Navigation.WelcomeScreenShown(r.defaults)
  {
    match a
    case SignUp(username, _, password, _) =>
      w.(keychain := Keychain.Stored(w.keychain, username, password))
    case Login(username, password) =>
      w.(isLoggedIn := Authenticates(Keychain.Retrieve(w.keychain), username, password))
    case SetStayLoggedIn(stay) =>
      w.(stayLoggedIn := stay, defaults := Session.WithStay(w.defaults, stay))
    case LogOut =>
      w.(isLoggedIn := false)
    case WelcomeScreenAppeared =>
      w.(defaults := Navigation.WithWelcomeShown(w.defaults))
    case Relaunch =>
      Launch(w.keychain, w.defaults)
  }

  /** The actions applied in order, the last one last. */
  function Run(w: World, acts: seq<Action>): World
    decreases |acts|
  {
    if acts == [] then w else Step(Run(w, acts[..|acts| - 1]), acts[|acts| - 1])
  }

  lemma RunSnoc(w: World, acts: seq<Action>, a: Action)
    ensures Run(w, acts + [a]) == Step(Run(w, acts), a)
  {
    assert (acts + [a])[..|acts|] == acts;
  }

  /** The pair of the most recent sign-up, if there was one. */
  function LastSignUp(acts: seq<Action>): Option<(string, string)>
    decreases |acts|
  {
    if acts == [] then None
    else match acts[|acts| - 1]
      case SignUp(username, _, password, _) => Some((username, password))
      case _ => LastSignUp(acts[..|acts| - 1])
  }

  /** The persisted stay choice after the actions, starting from `initial`. */
  function LastStayChoice(acts: seq<Action>, initial: bool): bool
    decreases |acts|
  {
    if acts == [] then initial
    else match acts[|acts| - 1]
      case SetStayLoggedIn(stay) => stay
      case _ => LastStayChoice(acts[..|acts| - 1], initial)
  }

  /** Every reachable state satisfies the invariant. */
  lemma {:induction false} RunKeepsInvariant(w: World, acts: seq<Action>)
    requires Invariant(w)
    ensures Invariant(Run(w, acts))
    decreases |acts|
  {
    if acts != [] {
      RunKeepsInvariant(w, acts[..|acts| - 1]);
    }
  }

  /**
   * From a launch on a device whose keychain holds both credential keys or
   * neither, every reachable state keeps the stay flag in sync with storage,
   * and the stored credentials are read back both present or both missing.
   */
  lemma {:induction false} LaunchedStatesAreConsistent(keychain: map<string, string>, defaults: map<string, bool>,
                                                       acts: seq<Action>)
    requires Keychain.Paired(keychain)
    ensures Invariant(Run(Launch(keychain, defaults), acts))
    ensures var c := Keychain.Retrieve(Run(Launch(keychain, defaults), acts).keychain);
      c.username.None? <==> c.password.None?
  {
    RunKeepsInvariant(Launch(keychain, defaults), acts);
  }

  /**
   * The keychain holds the pair of the last sign-up and nothing of an earlier
   * one; with no sign-up it is untouched.
   */
  lemma {:induction false} RunStoresLastSignUp(w: World, acts: seq<Action>)
    ensures LastSignUp(acts).None? ==> Run(w, acts).keychain == w.keychain
    ensures LastSignUp(acts).Some? ==>
      Keychain.Retrieve(Run(w, acts).keychain)
        == Keychain.Credentials(Some(LastSignUp(acts).value.0), Some(LastSignUp(acts).value.1))
    decreases |acts|
  {
    if acts != [] {
      RunStoresLastSignUp(w, acts[..|acts| - 1]);
    }
  }

  /**
   * Starting from a keychain that holds no credentials, a login after any
   * actions succeeds exactly when it repeats the last sign-up's pair: before
   * any sign-up it fails whatever is typed, and an overwritten pair fails.
   */
  lemma {:induction false} LoginSucceedsIffLastSignUp(w: World, acts: seq<Action>, username: string, password: string)
    requires Keychain.Retrieve(w.keychain) == Keychain.Credentials(None, None)
    ensures Run(w, acts + [Login(username, password)]).isLoggedIn
      <==> LastSignUp(acts) == Some((username, password))
  {
    RunSnoc(w, acts, Login(username, password));
    RunStoresLastSignUp(w, acts);
  }

  /** The preferences carry the most recent stay choice. */
  lemma {:induction false} RunPersistsLastStayChoice(w: World, acts: seq<Action>)
    ensures Session.PersistedStay(Run(w, acts).defaults)
      == LastStayChoice(acts, Session.PersistedStay(w.defaults))
    decreases |acts|
  {
    if acts != [] {
      RunPersistsLastStayChoice(w, acts[..|acts| - 1]);
    }
  }

  /**
   * After a relaunch the session is logged in exactly when "stay logged in"
   * was last chosen (or was already persisted), with no credential check:
   * this holds even when the keychain is empty.
   */
  lemma {:induction false} RelaunchRestoresStay(w: World, acts: seq<Action>)
    ensures Run(w, acts + [Relaunch]).isLoggedIn
      == LastStayChoice(acts, Session.PersistedStay(w.defaults))
    ensures Run(w, acts + [Relaunch]).keychain == Run(w, acts).keychain
  {
    RunSnoc(w, acts, Relaunch);
    RunPersistsLastStayChoice(w, acts);
  }

  /**
   * Once the welcome screen has appeared, the flag stays set and the welcome
   * screen is never routed to again.
   */
  lemma {:induction false} WelcomeScreenShownIsPermanent(w: World, acts: seq<Action>, i: nat)
    requires i < |acts| && acts[i] == WelcomeScreenAppeared
    ensures Navigation.WelcomeScreenShown(Run(w, acts).defaults)
    ensures Navigation.Route(Navigation.WelcomeScreenShown(Run(w, acts).defaults), Run(w, acts).isLoggedIn)
      != Navigation.WelcomeScreen
    decreases |acts|
  {
    if i < |acts| - 1 {
      WelcomeScreenShownIsPermanent(w, acts[..|acts| - 1], i);
    }
  }

  /** A failed login ends a running session; nothing but the session flag changes. */
  lemma FailedLoginLogsOut(w: World, username: string, password: string)
    requires w.isLoggedIn
    requires !Authenticates(Keychain.Retrieve(w.keychain), username, password)
    ensures var r := Step(w, Login(username, password));
      !r.isLoggedIn && r == w.(isLoggedIn := false)
  {
  }

  /** Neither the email nor the confirmation reaches the keychain. */
  lemma SignUpIgnoresEmailAndConfirmation(w: World, username: string, password: string,
                                          email1: string, confirmation1: string,
                                          email2: string, confirmation2: string)
    ensures Step(w, SignUp(username, email1, password, confirmation1))
         == Step(w, SignUp(username, email2, password, confirmation2))
  {
  }

}
