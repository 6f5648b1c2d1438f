/** The session reconciler of `src/contexts/AuthContext.tsx`: the state the
    `AuthProvider` keeps (`user`, `loading`), the two ways it changes (the
    startup session check, run each time the effect runs, and each
    auth-state-change notification), the value the provider exposes, and the
    `useAuth` guard.

    Each handler is one atomic transition from a state and its inputs to a new
    state and at most one navigation. The backend's answers (the current
    session, the resolved profile) are inputs; `navigate` is the returned
    route. */
module AuthContext {
  import opened Wrappers
  import opened Profiles

  /** The provider's own state: `useState<User | null>(null)` and
      `useState(true)`. */
  datatype State = State(user: Option<User>, loading: bool)

  /** The state at mount: nobody signed in, the session check outstanding. */
  const Initial: State := State(None, true)

  /** The three places the provider navigates to. */
  datatype Route = AdminHome | StudentHome | LoginPage {
    /** The path passed to `navigate`. */
    function Path(): (p: string)
    {
      match this
      case AdminHome => "/admin"
      case StudentHome => "/student"
      case LoginPage => "/login"
    }
  }

  /** A backend session; only the account identifier is used. */
  datatype Session = Session(userId: string)

  const SignedIn: string := "SIGNED_IN"
  const SignedOut: string := "SIGNED_OUT"

  /** One auth-state-change notification: the event name (any string the
      backend emits, e.g. `TOKEN_REFRESHED`) and the session, if any. */
  datatype AuthChange = AuthChange(event: string, session: Option<Session>)

  /** How the awaited part of the startup check ended: normally, with the
      resolved profile (`null` when there was no session or no profile), or
      by throwing (the `catch` branch). */
  datatype Resolution = Resolved(profile: Option<User>) | Threw

  /** A handler's effect: the new state and the navigation it requested. */
  datatype Transition = Transition(state: State, nav: Option<Route>)

  /** The landing route for a freshly signed-in user. */
  function LandingRoute(u: User): (r: Route)
    ensures r == AdminHome <==> u.role == AdminRole
    ensures r != LoginPage
    ensures r.Path() == "/admin" <==> u.role == AdminRole
    ensures r.Path() == "/student" <==> u.role != AdminRole
  {
    if u.role == AdminRole then AdminHome else StudentHome
  }

  /** `checkSession`: if a session exists and its profile resolved to a user,
      that user is stored; in every other case, including an exception, the
      user is left as it was. The `finally` clears `loading`. It restores a
      session, so it never navigates. */
  function CheckSession(s: State, session: Option<Session>, outcome: Resolution): (t: Transition)
    ensures !t.state.loading
    ensures t.nav.None?
    ensures session.Some? && outcome.Resolved? && outcome.profile.Some? ==> t.state.user == outcome.profile
    ensures session.None? || outcome.Threw? || outcome.profile.None? ==> t.state.user == s.user
    // a startup check can install a user but never removes one
    ensures s.user.Some? ==> t.state.user.Some?
  {
    var user := if session.Some? && outcome.Resolved? && outcome.profile.Some? then outcome.profile else s.user;
    Transition(State(user, false), None)
  }

  /** The `onAuthStateChange` callback, given the profile its
      `fetchUserProfile` call resolved to (only awaited on `SIGNED_IN` with a
      session; ignored otherwise). */
  function OnAuthStateChange(s: State, change: AuthChange, profile: Option<User>): (t: Transition)
    // `loading` is cleared on every path
    ensures !t.state.loading
    // a sign-in with a session and a profile installs exactly that profile and
    // lands on the admin page iff the role is `admin`, else the student page
    ensures change.event == SignedIn && change.session.Some? && profile.Some? ==>
      && t.state.user == profile
      && t.nav.Some?
      && (t.nav.value == AdminHome <==> profile.value.role == AdminRole)
      && (t.nav.value == StudentHome <==> profile.value.role != AdminRole)
    // a sign-in without a session or without a profile leaves `user` alone
    // and does not navigate (`loading` is still cleared)
    ensures change.event == SignedIn && (change.session.None? || profile.None?) ==>
      t.state.user == s.user && t.nav.None?
    // a sign-out clears the user and goes to the login page
    ensures change.event == SignedOut ==> t.state.user.None? && t.nav == Some(LoginPage)
    ensures change.event == SignedOut ==> t.nav.value.Path() == "/login"
    // any other event leaves the user alone and does not navigate
    ensures change.event != SignedIn && change.event != SignedOut ==>
      t.state.user == s.user && t.nav.None?
    // the login page is reached exactly on sign-out
    ensures t.nav == Some(LoginPage) <==> change.event == SignedOut
  {
    if change.event == SignedIn && change.session.Some? then
      if profile.Some? then
        Transition(State(profile, false), Some(LandingRoute(profile.value)))
      else
        Transition(State(s.user, false), None)
    else if change.event == SignedOut then
      Transition(State(None, false), Some(LoginPage))
    else
      Transition(State(s.user, false), None)
  }

  /** The value `AuthProvider` publishes, minus the action callbacks. */
  datatype ContextValue = ContextValue(user: Option<User>, loading: bool, isAdmin: bool)

  /** The provider's `value`: `loading` also reflects an outstanding sign-in,
      sign-up or sign-out (`actionLoading`), and `isAdmin` is
      `user?.role === 'admin'`. */
  function Expose(s: State, actionLoading: bool): (v: ContextValue)
    ensures v.user == s.user
    ensures v.loading <==> s.loading || actionLoading
    ensures v.isAdmin <==> s.user.Some? && s.user.value.role == AdminRole
    ensures v.isAdmin ==> v.user.Some?
  {
    ContextValue(s.user, s.loading || actionLoading, s.user.Some? && s.user.value.role == AdminRole)
  }

  const UseAuthOutsideProvider: string := "useAuth must be used within an AuthProvider"

  /** `useAuth`: the nearest provider's value, or an error when the caller is
      not inside an `AuthProvider` (no value). */
  function UseAuth(provided: Option<ContextValue>): (r: Result<ContextValue, string>)
    ensures r.Failure? <==> provided.None?
    ensures r.Success? ==> r.value == provided.value
    ensures r.Failure? ==> r.error == UseAuthOutsideProvider
  {
    match provided
    case Some(v) => Success(v)
    case None => Failure(UseAuthOutsideProvider)
  }

  /** At mount nobody is exposed, nobody is an administrator, and the
      provider reports itself as loading. */
  lemma MountExposesLoading(actionLoading: bool)
    ensures Expose(Initial, actionLoading) == ContextValue(None, true, false)
  {
  }

  /** A sign-in whose profile is resolved for the session's account: any user
      it installs is that account, a failed profile query never lands on the
      admin page, and when neither lookup finds the account `user` is unchanged
      and nothing is navigated to (`loading` is still cleared). */
  lemma SignInResolvesSessionAccount(s: State, change: AuthChange, query: ProfileQuery, fallback: AuthLookup)
    requires change.event == SignedIn && change.session.Some?
    ensures var id := change.session.value.userId;
      var t := OnAuthStateChange(s, change, FetchUserProfile(id, query, fallback));
      && (t.state.user != s.user ==> t.state.user.Some? && t.state.user.value.id == id)
      && (t.nav == Some(AdminHome) ==> query.Found? && query.row.role == Some(AdminRole))
      && (!query.Found? && !(query.QueryError? && fallback.AuthFound?) ==> t.state.user == s.user && t.nav.None?)
  {
  }

  /** The same for the startup check: a restored user is the session's account,
      and with a failed resolution the user is kept. */
  lemma CheckSessionResolvesSessionAccount(s: State, session: Session, query: ProfileQuery, fallback: AuthLookup)
    ensures var p := FetchUserProfile(session.userId, query, fallback);
      var t := CheckSession(s, Some(session), Resolved(p));
      && (t.state.user != s.user ==> t.state.user.Some? && t.state.user.value.id == session.userId)
      && (p.None? ==> t.state.user == s.user)
  {
  }

  /** After a sign-in that installed a user, the landing route and the
      exposed `isAdmin` flag agree, whatever the action state. */
  lemma LandingAgreesWithIsAdmin(s: State, change: AuthChange, profile: Option<User>, actionLoading: bool)
    requires change.event == SignedIn && change.session.Some? && profile.Some?
    ensures var t := OnAuthStateChange(s, change, profile);
      t.nav == Some(AdminHome) <==> Expose(t.state, actionLoading).isAdmin
  {
  }

  /** After a sign-out nobody is exposed and nobody is an administrator. */
  lemma SignOutExposesNobody(s: State, change: AuthChange, profile: Option<User>, actionLoading: bool)
    requires change.event == SignedOut
    ensures var v := Expose(OnAuthStateChange(s, change, profile).state, actionLoading);
      v.user.None? && !v.isAdmin && (v.loading <==> actionLoading)
  {
  }

  /** Running the startup check twice with the same session and outcome ends
      in the same state as running it once. */
  lemma CheckSessionIdempotent(s: State, session: Option<Session>, outcome: Resolution)
    ensures var t := CheckSession(s, session, outcome);
      CheckSession(t.state, session, outcome) == t
  {
  }

  /** Handling the same auth event twice in a row ends in the same state as
      handling it once (the navigation is requested again). */
  lemma OnAuthStateChangeIdempotent(s: State, change: AuthChange, profile: Option<User>)
    ensures var t := OnAuthStateChange(s, change, profile);
      OnAuthStateChange(t.state, change, profile) == t
  {
  }
}
