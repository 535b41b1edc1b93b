/**
 * The application root (App.tsx): the current view, the command palette's
 * open flag, the Cmd/Ctrl+K shortcut, the switch that mounts one screen per
 * view, and the palette's callbacks.
 */
module App {
  import opened Types
  import CommandMenu
  import LandingPage
  import AuthPage
  import DashboardPage
  import SettingsPage
  import EmailField

  /** The screen component a view renders. */
  datatype ScreenKind = LandingScreen | AuthScreen | DashboardScreen | SettingsScreen

  /** The view whose screen `k` is. */
  function ViewOf(k: ScreenKind): View
  {
    match k
    case LandingScreen => Landing
    case AuthScreen => Auth
    case DashboardScreen => Dashboard
    case SettingsScreen => Settings
  }

  /** The switch of `renderView`, on the enum's string value; anything else falls back to Landing. */
  function RenderTag(tag: string): (k: ScreenKind)
    ensures tag !in {"LANDING", "AUTH", "DASHBOARD", "SETTINGS"} ==> k == LandingScreen
  {
    if tag == "LANDING" then LandingScreen
    else if tag == "AUTH" then AuthScreen
    else if tag == "DASHBOARD" then DashboardScreen
    else if tag == "SETTINGS" then SettingsScreen
    else LandingScreen
  }

  /** `renderView`: every view selects its own screen, and only that one. */
  function RenderView(v: View): (k: ScreenKind)
    ensures ViewOf(k) == v
  {
    RenderTag(ViewName(v))
  }

  /** Distinct views render distinct screens. */
  lemma RenderViewInjective(a: View, b: View)
    ensures RenderView(a) == RenderView(b) ==> a == b
  {
  }

  /** The current view after the `navigateTo` calls `vs`, in order, starting from `start`. */
  function AfterNavigations(start: View, vs: seq<View>): View
    decreases |vs|
  {
    if vs == [] then start else AfterNavigations(vs[0], vs[1..])
  }

  /** After any non-empty sequence of navigations the current view is the last one requested. */
  lemma {:induction false} LastNavigationWins(start: View, vs: seq<View>)
    requires vs != []
    ensures AfterNavigations(start, vs) == vs[|vs| - 1]
    decreases |vs|
  {
    if |vs| > 1 {
      LastNavigationWins(vs[0], vs[1..]);
    }
  }

  /** A keydown as the window listener sees it. */
  datatype KeyEvent = KeyEvent(key: string, metaKey: bool, ctrlKey: bool)

  /** The reserved chord: Meta or Control held with the key `k`. */
  predicate IsPaletteChord(e: KeyEvent)
  {
    (e.metaKey || e.ctrlKey) && e.key == "k"
  }

  /** The palette flag after a keydown: flipped by the chord, kept by every other key. */
  function PaletteAfterKey(open: bool, e: KeyEvent): (r: bool)
    ensures IsPaletteChord(e) ==> r == !open
    ensures !IsPaletteChord(e) ==> r == open
  {
    if IsPaletteChord(e) then !open else open
  }

  /** Pressing the chord twice restores the flag. */
  lemma ChordTwice(open: bool, e: KeyEvent, f: KeyEvent)
    requires IsPaletteChord(e) && IsPaletteChord(f)
    ensures PaletteAfterKey(PaletteAfterKey(open, e), f) == open
  {
  }

  /** Upper-case `K`, `k` without Meta or Control, and Escape leave the flag alone. */
  lemma OtherKeysIgnored(open: bool, meta: bool, ctrl: bool)
    ensures PaletteAfterKey(open, KeyEvent("K", meta, ctrl)) == open
    ensures PaletteAfterKey(open, KeyEvent("k", false, false)) == open
    ensures PaletteAfterKey(open, KeyEvent("Escape", meta, ctrl)) == open
  {
    assert "K" != "k" by { assert "K"[0] != "k"[0]; }
    assert "Escape" != "k";
  }

  /** The mounted screen component and its state. */
  datatype Screen =
    | OnLanding(landing: LandingPage.LandingState)
    | OnAuth(auth: AuthPage.AuthState)
    | OnDashboard(dashboard: DashboardPage.DashboardState)
    | OnSettings(settings: SettingsPage.SettingsState)

  function KindOf(s: Screen): ScreenKind
  {
    match s
    case OnLanding(_) => LandingScreen
    case OnAuth(_) => AuthScreen
    case OnDashboard(_) => DashboardScreen
    case OnSettings(_) => SettingsScreen
  }

  /** The object holding the mounted screen's state. */
  function StateOf(s: Screen): object
  {
    match s
    case OnLanding(p) => p
    case OnAuth(p) => p
    case OnDashboard(p) => p
    case OnSettings(p) => p
  }

  ghost predicate ScreenValid(s: Screen)
    reads StateOf(s)
  {
    match s
    case OnLanding(_) => true
    case OnAuth(p) => p.Valid()
    case OnDashboard(p) => p.Valid()
    case OnSettings(p) => p.Valid()
  }

  /** The state a freshly mounted screen starts in. */
  ghost predicate ScreenInitial(s: Screen)
    reads StateOf(s)
  {
    match s
    case OnLanding(p) => p.Initial()
    case OnAuth(p) => p.Initial()
    case OnDashboard(p) => p.Initial()
    case OnSettings(p) => p.Initial()
  }

  /** Mounts the screen `renderView` selects for `v`, with its initial state. */
  method Mount(v: View) returns (s: Screen)
    ensures fresh(StateOf(s))
    ensures KindOf(s) == RenderView(v)
    ensures ScreenValid(s) && ScreenInitial(s)
  {
    match RenderView(v)
    case LandingScreen =>
      var p := new LandingPage.LandingState();
      s := OnLanding(p);
    case AuthScreen =>
      var p := new AuthPage.AuthState();
      s := OnAuth(p);
    case DashboardScreen =>
      var p := new DashboardPage.DashboardState();
      s := OnDashboard(p);
    case SettingsScreen =>
      var p := new SettingsPage.SettingsState();
      s := OnSettings(p);
  }

  class Root {
    var currentView: View
    var isCommandOpen: bool
    /** The palette stays mounted for the root's lifetime, so its query survives closing. */
    const menu: CommandMenu.Menu
    var screen: Screen

    /** The mounted screen is the one `renderView` selects for the current view. */
    ghost predicate Valid()
      reads this, StateOf(screen)
    {
      KindOf(screen) == RenderView(currentView) && ScreenValid(screen)
    }

    /** The application starts on Landing with the palette closed and an empty query. */
    constructor ()
      ensures Valid()
      ensures currentView == Landing && !isCommandOpen
      ensures menu.options == CommandMenu.Options() && menu.query == ""
      ensures ScreenInitial(screen)
      ensures fresh(menu) && fresh(StateOf(screen))
    {
      currentView := Landing;
      isCommandOpen := false;
      menu := new CommandMenu.Menu();
      var p := new LandingPage.LandingState();
      screen := OnLanding(p);
    }

    /**
     * `navigateTo(v)`: the view becomes `v` unconditionally. Moving to another
     * view mounts that view's screen afresh; setting the same view again keeps
     * the mounted screen and its state. The palette is not touched.
     */
    method Navigate(v: View)
      requires Valid()
      modifies this
      ensures Valid()
      ensures currentView == v
      ensures isCommandOpen == old(isCommandOpen)
      ensures v == old(currentView) ==> screen == old(screen)
      ensures v != old(currentView) ==> fresh(StateOf(screen)) && ScreenInitial(screen)
    {
      if v != currentView {
        screen := Mount(v);
        currentView := v;
      }
    }

    /** The window keydown listener; returns whether the default action was prevented. */
    method KeyDown(e: KeyEvent) returns (preventDefault: bool)
      requires Valid()
      modifies this
      ensures Valid()
      ensures isCommandOpen == PaletteAfterKey(old(isCommandOpen), e)
      ensures preventDefault <==> IsPaletteChord(e)
      ensures currentView == old(currentView) && screen == old(screen)
      ensures menu.query == old(menu.query)
    {
      preventDefault := false;
      if IsPaletteChord(e) {
        preventDefault := true;
        isCommandOpen := !isCommandOpen;
      }
    }

    /** The palette's `onClose`, also reached by a click on its backdrop. */
    method ClosePalette()
      requires Valid()
      modifies this
      ensures Valid()
      ensures !isCommandOpen
      ensures currentView == old(currentView) && screen == old(screen)
      ensures menu.query == old(menu.query)
    {
      isCommandOpen := false;
    }

    /** Typing in the palette's search field, which exists only while it is open. */
    method TypeQuery(q: string)
      requires Valid() && isCommandOpen
      modifies menu
      ensures Valid()
      ensures menu.query == q
    {
      menu.SetQuery(q);
    }

    /** The commands the open palette lists for its query. */
    function Listed(): (r: seq<CommandMenu.Command>)
      reads this, menu
      ensures forall c :: c in r <==> c in menu.options && CommandMenu.Matches(c, menu.query)
    {
      var r := CommandMenu.Filter(menu.options, menu.query);
      assert forall c :: c in r <==> c in menu.options && CommandMenu.Matches(c, menu.query) by {
        forall c { CommandMenu.FilterMembership(menu.options, menu.query, c); }
      }
      r
    }

    /**
     * A click on the `i`-th listed command: its action runs (Go to Dashboard
     * and Settings change the view, Documentation does nothing), then the
     * palette closes. The query is kept.
     */
    method Select(i: nat) returns (cmd: CommandMenu.Command)
      requires Valid() && isCommandOpen && i < |Listed()|
      modifies this
      ensures Valid()
      ensures cmd == old(Listed())[i]
      ensures cmd in menu.options && CommandMenu.Matches(cmd, menu.query)
      ensures !isCommandOpen
      ensures currentView == CommandMenu.ApplyAction(cmd.action, old(currentView))
      ensures currentView == old(currentView) ==> screen == old(screen)
      ensures currentView != old(currentView) ==> fresh(StateOf(screen)) && ScreenInitial(screen)
      ensures menu.query == old(menu.query)
    {
      var listed := Listed();
      cmd := listed[i];
      assert cmd in listed;
      match cmd.action {
        case ChangeView(t) => Navigate(t);
        case NoAction =>
      }
      isCommandOpen := false;
    }
  }

  /**
   * Sign-in end to end: Get Started on the landing screen, a valid email
   * submitted on the sign-in screen, and the request timer firing land on the
   * dashboard, on a freshly mounted dashboard screen.
   */
  method SignInFlow(email: string) returns (afterClick: View, loading: bool, afterTimer: View)
    requires EmailField.IsValidAddress(email)
    ensures afterClick == Auth && loading && afterTimer == Dashboard
  {
    var app := new Root();
    var landing := app.screen.landing;
    var nav := landing.Click(LandingPage.GetStarted);
    app.Navigate(nav.value);
    afterClick := app.currentView;
    var auth := app.screen.auth;
    auth.SetEmail(email);
    auth.SubmitForm();
    loading := auth.isLoading;
    nav := auth.TimerFired();
    app.Navigate(nav.value);
    afterTimer := app.currentView;
  }

  /**
   * An email without `@` never starts the request. The screen's error shows
   * only for the empty field: any other such value is stopped by the browser
   * before `handleSubmit` runs.
   */
  method RejectedSignIn(email: string) returns (view: View, error: string, loading: bool)
    requires '@' !in email
    ensures view == Auth && !loading
    ensures email == "" ==> error == AuthPage.InvalidEmailMessage
    ensures email != "" ==> error == ""
  {
    var app := new Root();
    app.Navigate(Auth);
    var auth := app.screen.auth;
    auth.SetEmail(email);
    auth.SubmitForm();
    view, error, loading := app.currentView, auth.error, auth.isLoading;
  }

  /**
   * A value the browser refuses, such as `@` or `a@` (EmailField.Examples),
   * never reaches `handleSubmit`: no error, no loading, still on sign-in.
   */
  method BlockedSignIn(email: string) returns (view: View, error: string, loading: bool)
    requires !EmailField.Accepts(email)
    ensures view == Auth && error == "" && !loading
  {
    var app := new Root();
    app.Navigate(Auth);
    var auth := app.screen.auth;
    auth.SetEmail(email);
    auth.SubmitForm();
    view, error, loading := app.currentView, auth.error, auth.isLoading;
  }

  /**
   * The palette keeps its query across closing: open, type, close, reopen,
   * and the same query, with the same listing, is still there.
   */
  method QuerySurvivesClose(q: string) returns (before: string, after: string, reopened: bool)
    ensures before == q && after == q && reopened
  {
    var app := new Root();
    var _ := app.KeyDown(KeyEvent("k", true, false));
    app.TypeQuery(q);
    before := app.menu.query;
    app.ClosePalette();
    var _ := app.KeyDown(KeyEvent("k", false, true));
    after, reopened := app.menu.query, app.isCommandOpen;
  }

  /**
   * The sign-in request's timer is not cancelled: after Back to Home the
   * timer still fires and its `navigateTo` still moves the app to the dashboard.
   */
  method StaleSignInTimer(email: string) returns (afterBack: View, afterTimer: View)
    requires EmailField.IsValidAddress(email)
    ensures afterBack == Landing && afterTimer == Dashboard
  {
    var app := new Root();
    app.Navigate(Auth);
    var auth := app.screen.auth;
    auth.SetEmail(email);
    auth.SubmitForm();
    var nav := auth.BackToHome();
    app.Navigate(nav.value);
    afterBack := app.currentView;
    nav := auth.TimerFired();
    app.Navigate(nav.value);
    afterTimer := app.currentView;
  }
}
