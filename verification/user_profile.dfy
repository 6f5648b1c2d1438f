/** The profile resolver of `src/utils/userProfile.ts`: `fetchUserProfile`
    turns the outcome of a `profiles` table query, and if that failed the
    outcome of the auth backend's administrative user lookup, into the
    application's `User` or `null`.

    The two backend calls are not modelled as behaviour: their outcomes are
    inputs. Each may also reject (throw); every such exception is caught by
    the function, so the result is always an `Option<User>`. */
module Profiles {
  import opened Wrappers

  const AdminRole: string := "admin"
  const StudentRole: string := "student"

  /** The application's view of an account. `role` is kept as the string the
      profile row held: the source casts it to `'admin' | 'student'` without
      checking, so any other non-empty value reaches the rest of the app. */
  datatype User = User(
    id: string,
    email: string,
    role: string,
    name: Option<string>,
    studentId: Option<string>)

  /** A row of the `profiles` table; a column that is null or missing is `None`. */
  datatype ProfileRow = ProfileRow(
    id: string,
    email: Option<string>,
    role: Option<string>,
    name: Option<string>,
    studentId: Option<string>)

  /** The `user_metadata` object an auth account carries (set at sign-up). */
  datatype Metadata = Metadata(name: Option<string>, studentId: Option<string>)

  /** An account as returned by the auth backend; `metadata` may be absent. */
  datatype AuthUser = AuthUser(email: Option<string>, metadata: Option<Metadata>)

  /** Outcome of `from('profiles').select('*').eq('id', userId).single()`:
      the row, a returned `error` (no row, several rows, denied ...), or a
      rejected promise. */
  datatype ProfileQuery = Found(row: ProfileRow) | QueryError(message: string) | QueryThrew

  /** Outcome of `auth.admin.getUserById(userId)`: `data.user` present,
      `data.user` null or missing, or a rejected promise. */
  datatype AuthLookup = AuthFound(user: AuthUser) | AuthMissing | AuthThrew

  /** JavaScript's `s || fallback` where `s` is a string that may be null or
      undefined: the empty string is falsy, so it also yields `fallback`. */
  function OrElse(s: Option<string>, fallback: string): (r: string)
    ensures s.Some? && s.value != "" ==> r == s.value
    ensures s.None? || s.value == "" ==> r == fallback
  {
    if s.Some? && s.value != "" then s.value else fallback
  }

  /** The `User` built from a found profile row (the normal path). */
  function FromRow(userId: string, row: ProfileRow): (u: User)
    // the identifier is the one asked for, never the row's own `id`
    ensures u.id == userId
    ensures u.email == "" <==> row.email.None? || row.email == Some("")
    ensures u.email != "" ==> row.email == Some(u.email)
    // the role defaults to student exactly when the row has none; anything
    // else is passed through unchecked
    ensures row.role.None? || row.role == Some("") ==> u.role == StudentRole
    ensures row.role.Some? && row.role.value != "" ==> u.role == row.role.value
    ensures u.role != ""
    ensures u.name == row.name && u.studentId == row.studentId
  {
    User(userId, OrElse(row.email, ""), OrElse(row.role, StudentRole), row.name, row.studentId)
  }

  /** The `User` synthesised from the auth account when the profile query
      failed: always a student, name and student id taken from metadata. */
  function FromAuthUser(userId: string, a: AuthUser): (u: User)
    ensures u.id == userId
    ensures u.role == StudentRole
    ensures u.email == "" <==> a.email.None? || a.email == Some("")
    ensures u.email != "" ==> a.email == Some(u.email)
    ensures a.metadata.None? ==> u.name.None? && u.studentId.None?
    ensures a.metadata.Some? ==> u.name == a.metadata.value.name && u.studentId == a.metadata.value.studentId
  {
    // `user_metadata?.name` and `user_metadata?.student_id`
    var name := if a.metadata.Some? then a.metadata.value.name else None;
    var studentId := if a.metadata.Some? then a.metadata.value.studentId else None;
    User(userId, OrElse(a.email, ""), StudentRole, name, studentId)
  }

  /** `fetchUserProfile(userId)`, given the outcomes of its two backend calls.
      The fallback lookup is only consulted when the query returned an error. */
  function FetchUserProfile(userId: string, query: ProfileQuery, fallback: AuthLookup): (r: Option<User>)
    // a user comes back exactly when the row was found, or the query failed
    // and the fallback lookup found the account
    ensures r.Some? <==> query.Found? || (query.QueryError? && fallback.AuthFound?)
    // whatever comes back is about the requested account and carries a role
    ensures r.Some? ==> r.value.id == userId && r.value.role != ""
    ensures query.Found? ==> r == Some(FromRow(userId, query.row))
    ensures query.QueryError? && fallback.AuthFound? ==> r == Some(FromAuthUser(userId, fallback.user))
    // the fallback never grants more than the student role
    ensures !query.Found? && r.Some? ==> r.value.role == StudentRole
  {
    match query
    case Found(row) => Some(FromRow(userId, row))
    case QueryError(_) =>
      (match fallback
       case AuthFound(a) => Some(FromAuthUser(userId, a))
       case AuthMissing => None
       case AuthThrew => None)
    case QueryThrew => None
  }

  /** The fallback lookup only matters when the query returned an error: a
      found row, or a rejected query, decides the result on its own. */
  lemma FallbackOnlyAfterQueryError(userId: string, query: ProfileQuery, f1: AuthLookup, f2: AuthLookup)
    requires !query.QueryError?
    ensures FetchUserProfile(userId, query, f1) == FetchUserProfile(userId, query, f2)
  {
  }

  /** The row a profile store would hold for `u` (what the setup instructions
      ask an administrator to insert). */
  function RowOf(u: User): (row: ProfileRow)
  {
    ProfileRow(u.id, Some(u.email), Some(u.role), u.name, u.studentId)
  }

  /** Writing a user's row and reading it back gives the same user exactly
      when the user has a non-empty role; with an empty role the reader
      substitutes `student`. */
  lemma RowRoundTrip(u: User, fallback: AuthLookup)
    ensures FetchUserProfile(u.id, Found(RowOf(u)), fallback) == Some(u) <==> u.role != ""
    ensures u.role == "" ==> FetchUserProfile(u.id, Found(RowOf(u)), fallback) == Some(u.(role := StudentRole))
  {
  }
}
