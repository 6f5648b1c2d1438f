/** One mount of `AuthProvider`, seen as the sequence of handler runs it
    performs: each startup check (one per run of the effect, whenever it
    completes) and each
    auth-state-change notification, in the order their state updates land.
    Each run is atomic; the state and the list of requested navigations are
    threaded through them. */
module Lifetime {
  import opened Wrappers
  import opened Profiles
  import opened AuthContext

  /** One completed handler run, with the inputs it saw. */
  datatype Input =
    | StartupCheck(session: Option<Session>, outcome: Resolution)
    | StateChange(change: AuthChange, profile: Option<User>)

  /** The state after the runs and every navigation they requested, in order. */
  datatype Trace = Trace(state: State, navs: seq<Route>)

  /** One handler run: the startup check or the notification handler. */
  function Apply(s: State, i: Input): (t: Transition)
  {
    match i
    case StartupCheck(session, outcome) => CheckSession(s, session, outcome)
    case StateChange(change, profile) => OnAuthStateChange(s, change, profile)
  }

  function NavList(nav: Option<Route>): (r: seq<Route>)
    ensures |r| <= 1
  {
    if nav.Some? then [nav.value] else []
  }

  /** The handler runs applied in order from `s`. */
  function Run(s: State, inputs: seq<Input>): (tr: Trace)
    decreases |inputs|
  {
    if |inputs| == 0 then Trace(s, [])
    else
      var t := Apply(s, inputs[0]);
      var rest := Run(t.state, inputs[1..]);
      Trace(rest.state, NavList(t.nav) + rest.navs)
  }

  /** What a handler run does to `user`, read off the inputs alone:
      `Some(u)` when it stores `u` (`None` for sign-out), `None` when it
      leaves `user` alone. */
  function Writes(i: Input): (w: Option<Option<User>>)
  {
    match i
    case StartupCheck(session, outcome) =>
      if session.Some? && outcome.Resolved? && outcome.profile.Some? then Some(outcome.profile) else None
    case StateChange(change, profile) =>
      if change.event == SignedOut then Some(None)
      else if change.event == SignedIn && change.session.Some? && profile.Some? then Some(profile)
      else None
  }

  /** Whether a handler run navigates, read off the inputs alone. */
  predicate Navigates(i: Input)
  {
    && i.StateChange?
    && (|| i.change.event == SignedOut
        || (i.change.event == SignedIn && i.change.session.Some? && i.profile.Some?))
  }

  /** Every handler run agrees with `Writes` and `Navigates`, and clears `loading`. */
  lemma ApplyEffect(s: State, i: Input)
    ensures var t := Apply(s, i);
      && !t.state.loading
      && t.state.user == Writes(i).GetOr(s.user)
      && (t.nav.Some? <==> Navigates(i))
  {
  }

  /** The user left by the last run that wrote one, or `init` if none did. */
  function LastWrite(init: Option<User>, inputs: seq<Input>): (u: Option<User>)
    decreases |inputs|
  {
    if |inputs| == 0 then init
    else
      var w := Writes(inputs[|inputs| - 1]);
      if w.Some? then w.value else LastWrite(init, inputs[..|inputs| - 1])
  }

  /** The number of `SIGNED_OUT` notifications among the runs. */
  function CountSignOuts(inputs: seq<Input>): (n: nat)
  {
    if |inputs| == 0 then 0
    else
      (if inputs[0].StateChange? && inputs[0].change.event == SignedOut then 1 else 0)
      + CountSignOuts(inputs[1..])
  }

  /** The number of runs that navigate. */
  function CountNavigating(inputs: seq<Input>): (n: nat)
  {
    if |inputs| == 0 then 0
    else (if Navigates(inputs[0]) then 1 else 0) + CountNavigating(inputs[1..])
  }

  /** The number of sign-ins that install a profile whose role is `admin`
      (`landsAdmin`) or any other role (`!landsAdmin`). */
  function CountLandings(inputs: seq<Input>, landsAdmin: bool): (n: nat)
  {
    if |inputs| == 0 then 0
    else
      var i := inputs[0];
      var lands := i.StateChange? && i.change.event == SignedIn && i.change.session.Some?
        && i.profile.Some? && (i.profile.value.role == AdminRole <==> landsAdmin);
      (if lands then 1 else 0) + CountLandings(inputs[1..], landsAdmin)
  }

  /** Running one more handler after a sequence is running the sequence and
      then the handler. */
  lemma {:induction false} RunSnoc(s: State, inputs: seq<Input>, i: Input)
    ensures var before := Run(s, inputs);
      var t := Apply(before.state, i);
      Run(s, inputs + [i]) == Trace(t.state, before.navs + NavList(t.nav))
    decreases |inputs|
  {
    if |inputs| == 0 {
      assert inputs + [i] == [i];
      assert [i][1..] == [];
    } else {
      var t0 := Apply(s, inputs[0]);
      assert (inputs + [i])[0] == inputs[0];
      assert (inputs + [i])[1..] == inputs[1..] + [i];
      RunSnoc(t0.state, inputs[1..], i);
    }
  }

  /** `loading` is still set only if no handler has run yet. */
  lemma {:induction false} RunLoading(s: State, inputs: seq<Input>)
    ensures Run(s, inputs).state.loading <==> s.loading && |inputs| == 0
    decreases |inputs|
  {
    if |inputs| > 0 {
      var t := Apply(s, inputs[0]);
      RunLoading(t.state, inputs[1..]);
      if |inputs| == 1 {
        assert inputs[1..] == [];
      }
    }
  }

  /** The user at the end is the one written by the last handler run that
      wrote one (last write wins), or the initial user if none did. */
  lemma {:induction false} RunUserIsLastWrite(s: State, inputs: seq<Input>)
    ensures Run(s, inputs).state.user == LastWrite(s.user, inputs)
    decreases |inputs|
  {
    if |inputs| > 0 {
      var front := inputs[..|inputs| - 1];
      var last := inputs[|inputs| - 1];
      assert front + [last] == inputs;
      RunSnoc(s, front, last);
      RunUserIsLastWrite(s, front);
      ApplyEffect(Run(s, front).state, last);
    }
  }

  /** Every navigation comes from exactly one navigating handler run; the
      login page is requested exactly once per sign-out, the admin page once
      per sign-in of an `admin` profile, and the student page once per
      sign-in of any other profile. */
  lemma {:induction false} RunNavigationCounts(s: State, inputs: seq<Input>)
    ensures |Run(s, inputs).navs| == CountNavigating(inputs)
    ensures multiset(Run(s, inputs).navs)[LoginPage] == CountSignOuts(inputs)
    ensures multiset(Run(s, inputs).navs)[AdminHome] == CountLandings(inputs, true)
    ensures multiset(Run(s, inputs).navs)[StudentHome] == CountLandings(inputs, false)
    decreases |inputs|
  {
    if |inputs| > 0 {
      var t := Apply(s, inputs[0]);
      var rest := Run(t.state, inputs[1..]);
      RunNavigationCounts(t.state, inputs[1..]);
      ApplyEffect(s, inputs[0]);
      var navs := NavList(t.nav) + rest.navs;
      assert multiset(navs) == multiset(NavList(t.nav)) + multiset(rest.navs);
    }
  }

  /** From the mount state, someone is signed in at the end only if some
      handler run stored a resolved profile, and a trailing sign-out always
      leaves nobody signed in. */
  lemma {:induction false} SignedInOnlyFromAProfile(inputs: seq<Input>)
    ensures Run(Initial, inputs).state.user.Some? ==>
      exists k :: 0 <= k < |inputs| && Writes(inputs[k]) == Some(Run(Initial, inputs).state.user)
    ensures |inputs| > 0 && inputs[|inputs| - 1].StateChange? && inputs[|inputs| - 1].change.event == SignedOut ==>
      Run(Initial, inputs).state.user.None?
  {
    RunUserIsLastWrite(Initial, inputs);
    LastWriteComesFromAnInput(None, inputs);
  }

  lemma {:induction false} LastWriteComesFromAnInput(init: Option<User>, inputs: seq<Input>)
    ensures LastWrite(init, inputs) == init ||
      exists k :: 0 <= k < |inputs| && Writes(inputs[k]) == Some(LastWrite(init, inputs))
    decreases |inputs|
  {
    if |inputs| > 0 {
      var front := inputs[..|inputs| - 1];
      if Writes(inputs[|inputs| - 1]).None? {
        LastWriteComesFromAnInput(init, front);
        if LastWrite(init, front) != init {
          var k :| 0 <= k < |front| && Writes(front[k]) == Some(LastWrite(init, front));
          assert inputs[k] == front[k];
        }
      }
    }
  }

  /** Nothing cancels a stale handler: a sign-in (or startup check) whose
      profile lookup lands after a sign-out puts the user back. */
  lemma StaleSignInAfterSignOut(s: State, session: Session, u: User)
    ensures var out := StateChange(AuthChange(SignedOut, None), None);
      var tr := Run(s, [out, StateChange(AuthChange(SignedIn, Some(session)), Some(u))]);
      tr.state.user == Some(u) && tr.navs == [LoginPage, LandingRoute(u)]
    ensures var out := StateChange(AuthChange(SignedOut, None), None);
      var tr := Run(s, [out, StartupCheck(Some(session), Resolved(Some(u)))]);
      tr.state.user == Some(u) && tr.navs == [LoginPage]
  {
    var out := StateChange(AuthChange(SignedOut, None), None);
    var signIn := StateChange(AuthChange(SignedIn, Some(session)), Some(u));
    var check := StartupCheck(Some(session), Resolved(Some(u)));
    RunSnoc(s, [out], signIn);
    RunSnoc(s, [out], check);
    assert [out] + [signIn] == [out, signIn];
    assert [out] + [check] == [out, check];
    assert [out][1..] == [];
  }

  /** The handler runs applied one at a time, in the order their state
      updates land, as a loop. */
  method Replay(s: State, inputs: seq<Input>) returns (final: State, navs: seq<Route>)
    ensures final == Run(s, inputs).state && navs == Run(s, inputs).navs
    ensures |inputs| > 0 ==> !final.loading
  {
    final, navs := s, [];
    var k := 0;
    while k < |inputs|
      invariant 0 <= k <= |inputs|
      invariant Trace(final, navs) == Run(s, inputs[..k])
    {
      RunSnoc(s, inputs[..k], inputs[k]);
      assert inputs[..k] + [inputs[k]] == inputs[..k + 1];
      var t := Apply(final, inputs[k]);
      final, navs := t.state, navs + NavList(t.nav);
      k := k + 1;
    }
    assert inputs[..k] == inputs;
    RunLoading(s, inputs);
  }
}
