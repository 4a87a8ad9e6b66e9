/**
 * The application shell (App.tsx): the `loading`, `session` and `activeTab` state,
 * the initial session check, the auth-change handler, and the choice of screen.
 * Gateway answers arrive as parameters; each event is one atomic step.
 */
module Shell {
  import opened Wrappers
  import Checklist

  /** The part of a gateway session the shell uses. */
  datatype Session = Session(userId: string, email: string)

  /** The five tabs of `activeTab`; there is no profile tab. */
  datatype Tab = DashboardTab | SopTab | BusinessesTab | ReplyTab | PostTab

  /** The event names the gateway passes to `onAuthStateChange`. */
  datatype AuthEvent = InitialSession | SignedIn | SignedOut | TokenRefreshed | UserUpdated | PasswordRecovery

  /** How `getSession()` ended: with a session or none, or by throwing. */
  datatype SessionCheck = Resolved(session: Option<Session>) | Threw

  /** What the component returns. */
  datatype Screen =
    | LoaderScreen | AuthScreen
    | DashboardScreen | SopScreen | BusinessesScreen | ReplyScreen | PostScreen

  /** The three state variables of the component. */
  datatype ShellState = ShellState(loading: bool, session: Option<Session>, activeTab: Tab)

  /** The state right after mounting. */
  const Initial: ShellState := ShellState(true, None, DashboardTab)

  /** `checkSession`: take the returned session; on a throw keep the old one; `finally` clears `loading`. */
  function AfterCheck(st: ShellState, r: SessionCheck): (next: ShellState)
    ensures !next.loading && next.activeTab == st.activeTab
    ensures next.session == if r.Resolved? then r.session else st.session
  {
    match r
    case Resolved(s) => st.(session := s, loading := false)
    case Threw => st.(loading := false)
  }

  /** The events after which the handler resets the tab. */
  predicate ResetsTab(e: AuthEvent) {
    e == SignedIn || e == SignedOut
  }

  /** The events after which the handler removes the checklist slot. */
  predicate ClearsChecklist(e: AuthEvent) {
    e == SignedOut
  }

  /** The `onAuthStateChange` callback on the three state variables: every notification takes
      the session it carries and ends loading, and only a sign-in or a sign-out sends the tab
      back to the dashboard. */
  function AfterAuthChange(st: ShellState, e: AuthEvent, s: Option<Session>): (next: ShellState)
    ensures next.session == s && !next.loading
    ensures next.activeTab == if e in {SignedIn, SignedOut} then DashboardTab else st.activeTab
  {
    var st' := st.(session := s, loading := false);
    if ResetsTab(e) then st'.(activeTab := DashboardTab) else st'
  }

  /** The page shown for each tab inside the layout. */
  function PageFor(t: Tab): Screen {
    match t
    case DashboardTab => DashboardScreen
    case SopTab => SopScreen
    case BusinessesTab => BusinessesScreen
    case ReplyTab => ReplyScreen
    case PostTab => PostScreen
  }

  /** The render: loader while loading, else the sign-in screen without a session, else the
      one page of the active tab. */
  function Render(st: ShellState): (r: Screen)
    ensures r == LoaderScreen <==> st.loading
    ensures r == AuthScreen <==> !st.loading && st.session == None
    ensures !st.loading && st.session != None ==> r == PageFor(st.activeTab)
  {
    if st.loading then LoaderScreen
    else if st.session == None then AuthScreen
    else PageFor(st.activeTab)
  }

  /** Different tabs show different pages, and no page is the loader or the sign-in screen. */
  lemma PageForInjective(t1: Tab, t2: Tab)
    ensures PageFor(t1) != LoaderScreen && PageFor(t1) != AuthScreen
    ensures PageFor(t1) == PageFor(t2) ==> t1 == t2
  {
  }

  /** The initial check always ends the loading phase, and the screen is then decided by the
      session alone: the sign-in screen without one, the active page with one. */
  lemma CheckResolvesLoading(st: ShellState, r: SessionCheck)
    ensures !AfterCheck(st, r).loading
    ensures r.Threw? ==> AfterCheck(st, r).session == st.session
    ensures Render(AfterCheck(st, r)) ==
              if AfterCheck(st, r).session == None then AuthScreen else PageFor(st.activeTab)
  {
  }

  /** The initial check and a notification carrying the same session may arrive in either
      order: both orders end in the same state. */
  lemma SourcesCommute(st: ShellState, e: AuthEvent, s: Option<Session>)
    ensures AfterAuthChange(AfterCheck(st, Resolved(s)), e, s) == AfterCheck(AfterAuthChange(st, e, s), Resolved(s))
  {
  }

  /** After a sign-out the sign-in screen is shown, and a later sign-in opens on the dashboard. */
  lemma SignOutThenSignIn(st: ShellState, s: Session)
    ensures Render(AfterAuthChange(st, SignedOut, None)) == AuthScreen
    ensures Render(AfterAuthChange(AfterAuthChange(st, SignedOut, None), SignedIn, Some(s))) == DashboardScreen
  {
  }

  /** The App component. `storage` is the browser's local storage, shared with the checklist. */
  class App {
    var loading: bool
    var session: Option<Session>
    var activeTab: Tab
    const storage: Checklist.LocalStorage

    function State(): ShellState
      reads this
    {
      ShellState(loading, session, activeTab)
    }

    /** Mounting: `useState(null)`, `useState(true)`, `useState('dashboard')`. */
    constructor (storage: Checklist.LocalStorage)
      ensures State() == Initial && this.storage == storage
    {
      this.storage := storage;
      loading, session, activeTab := true, None, DashboardTab;
    }

    /** `checkSession` with the gateway's answer `r`. */
    method CheckSession(r: SessionCheck)
      modifies this
      ensures State() == AfterCheck(old(State()), r)
    {
      match r {
        case Resolved(s) => session := s;
        case Threw =>
      }
      loading := false;
    }

    /** The `onAuthStateChange` callback; a sign-out also removes the checklist slot. */
    method OnAuthStateChange(e: AuthEvent, s: Option<Session>)
      modifies this, storage
      ensures State() == AfterAuthChange(old(State()), e, s)
      ensures storage.sopTasks == if ClearsChecklist(e) then None else old(storage.sopTasks)
    {
      session := s;
      loading := false;
      if e == SignedIn {
        activeTab := DashboardTab;
      }
      if e == SignedOut {
        activeTab := DashboardTab;
        storage.RemoveItem();
      }
    }

    /** `setActiveTab`, handed to the layout and the dashboard. */
    method SetActiveTab(t: Tab)
      modifies this
      ensures State() == old(State()).(activeTab := t)
    {
      activeTab := t;
    }

    /** What the component renders now. */
    function View(): Screen
      reads this
    {
      Render(State())
    }
  }

  /** A sign-out while a checklist is stored, followed by a fresh checklist screen: the session is
      gone, the tab is the dashboard, and the checklist starts again from the seed. */
  method SignOutThenOpenChecklist(app: App) returns (m: Checklist.ChecklistManager)
    modifies app, app.storage
    ensures app.session == None && app.activeTab == DashboardTab && app.View() == AuthScreen
    ensures fresh(m) && m.tasks == Checklist.Seed()
  {
    app.OnAuthStateChange(SignedOut, None);
    m := new Checklist.ChecklistManager(app.storage);
    m.Load();
  }
}
