# Auth session reconciler of a library-management web app — Dafny model

The application's client-side authentication layer keeps one piece of state,
the signed-in `User` (or `null`) plus a `loading` flag, inside a React
`AuthProvider`. Two decision procedures drive it, and this project models both
as pure functions and proves what they do:

- **Profile resolution** (`fetchUserProfile`, module `Profiles`,
  `user_profile.dfy`). It maps the outcome of the `profiles` table query to a
  `User`. If the query returned an error, it falls back to the auth backend's
  administrative user lookup. It defaults `email` to `''` and `role` to
  `'student'`, and it catches every exception and returns `null`.
- **Session reconciliation** (module `AuthContext`, `auth_context.dfy`). It
  covers the startup session check, run each time the effect runs
  (`AuthContext.tsx:64`), the `onAuthStateChange` handler
  with its navigation to `/admin`, `/student` or `/login`, the value the
  provider exposes (`loading || actionLoading`, `isAdmin`), and the `useAuth`
  guard.
- **One mount as a sequence of handler runs** (module `Lifetime`,
  `auth_lifetime.dfy`). It folds the transitions over a sequence of completed
  handler runs, in the order their state updates land. The proofs show that
  `loading` ends cleared, that the last write to `user` wins, and how many
  navigations to each of `/login`, `/admin` and `/student` are requested.
  An iterative `Replay` is checked against the fold.

Backend calls are inputs, not behaviour. These are `getSession`, the
`profiles` query, `auth.admin.getUserById` and the notification stream.
Three outcome datatypes have a throw case: `ProfileQuery` covers the
`profiles` query, `AuthLookup` covers `auth.admin.getUserById`, and
`Resolution` covers the awaited part of the startup check (a rejected
`getSession` is its `Threw`). A notification is an `AuthChange`, an event
name and an optional session. `navigate(...)` becomes the
returned `Option<Route>`.

Behaviour the model keeps exactly as the code has it:

- `role` is a string. It is cast, not validated (`userProfile.ts:40`), so any
  non-empty role in a profile row reaches the app. Only an absent or empty
  role becomes `'student'`.
- A startup check that throws, or finds no profile, leaves `user` as it was.
  It does not reset it to `null`. It only clears `loading`.
- A `SIGNED_IN` notification whose profile resolves to `null` leaves `user`
  unchanged and does not navigate.
- The fallback is the administrative auth lookup. It synthesises a `student`
  user from the account's email and `user_metadata`.

## Model

| member | source | states |
|---|---|---|
| Profiles.FromRow | src/utils/userProfile.ts:37-43 | The user built from a found row has the requested id, never the row's id. Its email is the row's email when that is non-empty, else `''`. Its role defaults to `'student'` exactly when the row's role is absent or empty, and is otherwise passed through unchecked. Its name and student id are copied verbatim. |
| Profiles.FromAuthUser | src/utils/userProfile.ts:21-30 | The user synthesised from the auth account has the requested id and role `'student'`. Its email is the account's email or `''`. Its name and student id come from `user_metadata`, and are absent when the metadata is absent. |
| Profiles.FetchUserProfile | src/utils/userProfile.ts:5-48 | A user is returned iff the row was found, or iff the query errored and the fallback found the account. A thrown call or a missing account gives `null`. Any returned user has the requested id and a non-empty role. Without a found row, that role is `'student'`. |
| Profiles.FallbackOnlyAfterQueryError | src/utils/userProfile.ts:16-33 | The fallback lookup's outcome affects the result only when the profile query returned an error. |
| Profiles.RowRoundTrip | src/utils/userProfile.ts:37-43 | Storing a user's row and resolving it gives the same user back iff the user's role is non-empty. An empty role comes back as `'student'`. |
| AuthContext.LandingRoute | src/contexts/AuthContext.tsx:46-51 | The landing route is `/admin` exactly when the role is `'admin'`. It is never the login page. |
| AuthContext.CheckSession | src/contexts/AuthContext.tsx:19-33 | The startup check stores the resolved user only when a session exists and the profile resolved to a user. In every other case, a thrown error included, `user` is unchanged. `loading` is false afterwards, no navigation is produced, and a present user is never removed. |
| AuthContext.OnAuthStateChange | src/contexts/AuthContext.tsx:39-58 | A `SIGNED_IN` with a session and a profile installs exactly that profile and navigates to `/admin` iff its role is `'admin'`, else to `/student`. A `SIGNED_IN` without a session or profile leaves `user` unchanged and navigates nowhere (`loading` is still cleared). A `SIGNED_OUT` clears `user` and navigates to `/login`. Other events leave `user` unchanged and navigate nowhere. `loading` is false on every path, and `/login` is requested iff the event is `SIGNED_OUT`. |
| AuthContext.Expose | src/contexts/AuthContext.tsx:71-78 | The exposed `loading` is reconciler loading or action loading. `isAdmin` holds iff a user is present with role `'admin'`. |
| AuthContext.UseAuth | src/contexts/AuthContext.tsx:84-90 | `useAuth` fails, with the provider error message, exactly when no provider value is present. Otherwise it returns that value. |
| AuthContext.MountExposesLoading | src/contexts/AuthContext.tsx:12-13 | At mount the provider exposes no user, not admin, and loading. |
| AuthContext.LandingAgreesWithIsAdmin | src/contexts/AuthContext.tsx:40-77 | After a sign-in that installed a user, navigation goes to `/admin` iff the exposed `isAdmin` is true. |
| AuthContext.SignOutExposesNobody | src/contexts/AuthContext.tsx:53-77 | After a sign-out no user is exposed and `isAdmin` is false. The exposed `loading` is then just the action flag. |
| AuthContext.SignInResolvesSessionAccount | src/contexts/AuthContext.tsx:40-52 | When a sign-in's profile is resolved for the session's account, any user it installs is that account. Reaching `/admin` requires a found profile row with role `'admin'`. If both lookups fail, `user` is unchanged and nothing is navigated to (`loading` is still cleared). |
| AuthContext.CheckSessionResolvesSessionAccount | src/contexts/AuthContext.tsx:22-27 | A user restored at startup is the session's account. A failed resolution keeps the previous user. |
| AuthContext.CheckSessionIdempotent | src/contexts/AuthContext.tsx:19-33 | Running the startup check twice with the same session and outcome gives the same result as running it once. |
| AuthContext.OnAuthStateChangeIdempotent | src/contexts/AuthContext.tsx:39-58 | Handling the same notification twice in a row gives the same state and navigation as handling it once. |
| Lifetime.ApplyEffect | src/contexts/AuthContext.tsx:17-59 | Every handler run clears `loading`. Its effect on `user` is the one `Writes` reads off its inputs. It navigates iff `Navigates` holds of its inputs. |
| Lifetime.RunSnoc | src/contexts/AuthContext.tsx:38-59 | Applying one more handler run after a sequence equals applying the sequence and then that run. |
| Lifetime.RunLoading | src/contexts/AuthContext.tsx:13-57 | `loading` is still set after a sequence of handler runs only if it was set and nothing has run. |
| Lifetime.RunUserIsLastWrite | src/contexts/AuthContext.tsx:12-56 | The final `user` is the one written by the last run that wrote one (last write wins), or the initial user if no run wrote one. |
| Lifetime.RunNavigationCounts | src/contexts/AuthContext.tsx:38-59 | The number of navigations equals the number of navigating runs. `/login` is requested exactly once per `SIGNED_OUT`, `/admin` once per sign-in that installs an `'admin'` profile, and `/student` once per sign-in that installs any other profile. |
| Lifetime.SignedInOnlyFromAProfile | src/contexts/AuthContext.tsx:12-56 | Starting from mount, a user is signed in at the end only if some run stored that very resolved profile. A trailing `SIGNED_OUT` leaves nobody signed in. |
| Lifetime.LastWriteComesFromAnInput | src/contexts/AuthContext.tsx:12-56 | The last-written user is the initial one or one that some run wrote. |
| Lifetime.StaleSignInAfterSignOut | src/contexts/AuthContext.tsx:40-57 | A sign-in whose profile lookup lands after a later `SIGNED_OUT` signs the user back in: the final user is that profile, and the navigations are `/login` followed by the landing route. A startup check landing after a sign-out restores its user the same way. |
| Lifetime.Replay | src/contexts/AuthContext.tsx:38-59 | Applying the handler runs one at a time, in the order their state updates land, gives the fold's state and navigations. `loading` is cleared once anything ran. |

## Left out

- `src/lib/supabase.ts` is not part of this model: it only constructs the
  backend client from environment variables. Its `User` shape informs the
  `User` datatype.
- The backend calls `getSession`, `from('profiles')…single()`,
  `auth.admin.getUserById`, `onAuthStateChange` and `unsubscribe` are not
  modelled as behaviour. Their outcomes are inputs because their code is
  external.
- The order in which notifications arrive is not modelled. Every handler
  writes state only after its last `await`, so `Lifetime` orders runs by
  when their state updates land. A stale profile lookup that lands after a
  newer notification is simply a later run, and the last write to land wins
  (`Lifetime.RunUserIsLastWrite`, `Lifetime.StaleSignInAfterSignOut`).
- React machinery is left out: `createContext`, `useState`, `useEffect`, the
  cleanup that unsubscribes before each re-run of the effect and at unmount
  (`AuthContext.tsx:61-63`) and the `navigate` hook (a returned route
  instead). A re-run of the effect is one more `StartupCheck` run in
  `Lifetime`. `console` logging is left out too. All of these
  are UI or I/O.
- `useAuthActions` (sign-in, sign-up, sign-out) is left out because its code
  is external. `handleSignOut` (`AuthContext.tsx:66-68`) only delegates to
  `useAuthActions`, so it is left out with it.
  `actionLoading` is a free boolean input of `Expose`.
- Profiles.FetchUserProfile: a query that returns neither a row nor an error
  is not modelled. The code would throw reading a field of `null` and return
  `null`, but the backend's `single()` always returns one of the two.
- Profiles.FetchUserProfile: JavaScript's distinction between `null` and
  `undefined` for absent fields is collapsed into `None`. Non-string column
  values are not modelled.
- The auth-state-change handler is assumed not to throw. Its profile lookup
  cannot: `fetchUserProfile` catches everything, so the handler receives an
  `Option<User>`. The handler also reads `session.user.id` itself
  (`AuthContext.tsx:41`), outside any `try`; the model assumes a session
  always carries a user (`Session(userId)`), so that read cannot throw and
  skip `setLoading(false)`.
