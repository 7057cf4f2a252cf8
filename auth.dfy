/**
 * The authentication context: who is logged in, the role predicates every
 * page gates its controls on, and the login, logout, registration and
 * session-restore flows. Tokens and the stored user live in browser storage,
 * which is not part of this model; what the flows read from it is passed in.
 */
module Auth {
  import opened Common

  /** A portal account as the back end describes it; `role` is free text on the wire. */
  datatype User = User(
    id: int,
    email: string,
    username: string,
    firstName: Option<string>,
    lastName: Option<string>,
    role: string,
    isActive: bool,
    createdAt: string,
    updatedAt: string)

  /** The four flags the context derives from the current user. */
  datatype AuthFlags = AuthFlags(isAuthenticated: bool, isLecturer: bool, isStudent: bool, isAdmin: bool)

  /** The value the provider hands to its consumers. */
  datatype AuthContextValue = AuthContextValue(user: Option<User>, flags: AuthFlags, loading: bool, error: Option<string>)

  /** The role flags: each holds iff a user is logged in with exactly that role. */
  function Flags(user: Option<User>): (f: AuthFlags)
    ensures f.isAuthenticated <==> user.Some?
    ensures f.isLecturer <==> user.Some? && user.value.role == "lecturer"
    ensures f.isStudent <==> user.Some? && user.value.role == "student"
    ensures f.isAdmin <==> user.Some? && user.value.role == "admin"
  {
    match user
    case None => AuthFlags(false, false, false, false)
    case Some(u) => AuthFlags(true, u.role == "lecturer", u.role == "student", u.role == "admin")
  }

  /** How many of the three role flags hold. */
  function RoleCount(f: AuthFlags): nat
  {
    (if f.isLecturer then 1 else 0) + (if f.isStudent then 1 else 0) + (if f.isAdmin then 1 else 0)
  }

  /** At most one role holds, a role implies being logged in, and logged out means no role. */
  lemma RolesExclusive(user: Option<User>)
    ensures RoleCount(Flags(user)) <= 1
    ensures RoleCount(Flags(user)) == 1 ==> Flags(user).isAuthenticated
    ensures user.None? ==> RoleCount(Flags(user)) == 0
  {
  }

  /**
   * The role given to a user the back end could not describe: the three
   * test accounts are named after their role, everyone else is a student.
   */
  function FallbackRole(username: string): (role: string)
    ensures username in {"lecturer", "student", "admin"} ==> role == username
    ensures username !in {"lecturer", "student", "admin"} ==> role == "student"
  {
    if username == "lecturer" then "lecturer"
    else if username == "student" then "student"
    else if username == "admin" then "admin"
    else "student"
  }

  /** The first user in `users` with exactly this username lies at `i`. */
  ghost predicate IsFirstNamed(users: seq<User>, username: string, i: int)
  {
    0 <= i < |users| && users[i].username == username &&
    forall j :: 0 <= j < i ==> users[j].username != username
  }

  /** `userData.find(u => u.username === username)`. */
  function FindByUsername(users: seq<User>, username: string): (r: Option<User>)
    ensures r.None? <==> forall i :: 0 <= i < |users| ==> users[i].username != username
    ensures r.Some? ==> exists i :: IsFirstNamed(users, username, i) && users[i] == r.value
  {
    if users == [] then None
    else if users[0].username == username then
      assert IsFirstNamed(users, username, 0);
      Some(users[0])
    else
      var r := FindByUsername(users[1..], username);
      assert forall i :: IsFirstNamed(users[1..], username, i) ==> IsFirstNamed(users, username, i + 1);
      assert forall i :: 1 <= i < |users| ==> users[1..][i - 1] == users[i];
      r
  }

  /** The stand-in account used when the back end's user list is unavailable or lacks the name. */
  function DummyUser(username: string, now: string): (u: User)
    ensures u.id == 1 && u.username == username && u.email == username + "@example.com"
    ensures u.firstName == Some("") && u.lastName == Some("")
    ensures u.role == FallbackRole(username) && u.isActive
    ensures u.createdAt == now && u.updatedAt == now
  {
    User(1, username + "@example.com", username, Some(""), Some(""), FallbackRole(username), true, now, now)
  }

  /**
   * The user a successful login settles on: the first fetched account with
   * the typed name, or the stand-in when the list could not be fetched or
   * holds no such account.
   */
  function LoginUser(username: string, fetched: Option<seq<User>>, now: string): (u: User)
    ensures u.username == username
    ensures fetched.Some? && FindByUsername(fetched.value, username).Some? ==>
      u == FindByUsername(fetched.value, username).value
    ensures fetched.None? || FindByUsername(fetched.value, username).None? ==> u == DummyUser(username, now)
  {
    if fetched.Some? && FindByUsername(fetched.value, username).Some? then
      var u := FindByUsername(fetched.value, username).value;
      ghost var i :| IsFirstNamed(fetched.value, username, i) && fetched.value[i] == u;
      u
    else DummyUser(username, now)
  }

  /** The error shown after a failed call: the server's detail when non-empty, else `fallback`. */
  function ErrorText(detail: Option<string>, fallback: string): (text: string)
    ensures detail.Some? && detail.value != "" ==> text == detail.value
    ensures detail.None? || detail.value == "" ==> text == fallback
  {
    if detail.Some? && detail.value != "" then detail.value else fallback
  }

  const LoginFailed: string := "Login failed. Please check your credentials."
  const RegistrationFailed: string := "Registration failed. Please try again."
  const NoProvider: string := "useAuth must be used within an AuthProvider"

  /** `useAuth`: outside a provider there is no context and the hook fails. */
  function UseAuth(context: Option<AuthContextValue>): (r: Result<AuthContextValue, string>)
    ensures context.None? <==> r.Err?
    ensures r.Err? ==> r.error == NoProvider
    ensures r.Ok? ==> r.value == context.value
  {
    match context
    case None => Err(NoProvider)
    case Some(c) => Ok(c)
  }

  class AuthProvider {
    var user: Option<User>
    var loading: bool
    var error: Option<string>

    /** The provider starts with nobody logged in, still loading. */
    constructor ()
      ensures user == None && loading && error == None
    {
      user := None;
      loading := true;
      error := None;
    }

    /** What the provider exposes; the flags are always derived from `user`. */
    function Value(): (v: AuthContextValue)
      reads this
      ensures v.user == user && v.flags == Flags(user) && v.loading == loading && v.error == error
    {
      AuthContextValue(user, Flags(user), loading, error)
    }

    /**
     * The mount-time check. `token` is the stored token (absent or empty
     * counts as none); `storedUser` the stored account, None when it is
     * absent or cannot be parsed. Loading always ends.
     */
    method RestoreSession(token: Option<string>, storedUser: Option<User>)
      modifies this`user, this`loading
      ensures !loading
      ensures user == (if token.Some? && token.value != "" && storedUser.Some? then storedUser else old(user))
    {
      if token.None? || token.value == "" {
        loading := false;
        return;
      }
      if storedUser.Some? {
        user := storedUser;
      }
      loading := false;
    }

    /**
     * `login`. `credentials` is the token service's answer: Ok with the
     * token, or Err with the server's detail message. `fetched` is the user
     * list, None when that call failed. On failure the error is recorded,
     * the user is unchanged and the failure is passed on.
     */
    method Login(username: string, credentials: Result<string, Option<string>>,
                 fetched: Option<seq<User>>, now: string)
      returns (r: Result<User, string>)
      modifies this`user, this`loading, this`error
      ensures !loading
      ensures credentials.Err? ==>
        r.Err? && error == Some(ErrorText(credentials.error, LoginFailed)) && user == old(user) &&
        r.error == error.value
      ensures credentials.Ok? ==>
        r == Ok(LoginUser(username, fetched, now)) && user == Some(r.value) && error == None
    {
      loading := true;
      error := None;
      if credentials.Err? {
        error := Some(ErrorText(credentials.error, LoginFailed));
        r := Err(error.value);
      } else {
        var u := LoginUser(username, fetched, now);
        user := Some(u);
        r := Ok(u);
      }
      loading := false;
    }

    /** `logout`: nobody is logged in afterwards, so every flag is false. */
    method Logout()
      modifies this`user
      ensures user == None
      ensures Flags(user) == AuthFlags(false, false, false, false)
    {
      user := None;
    }

    /**
     * `register`: the user is not logged in by it. A refusal records the
     * error and is passed on to the caller, as the rethrow does.
     */
    method Register(accepted: bool, detail: Option<string>) returns (r: Result<(), string>)
      modifies this`loading, this`error
      ensures !loading
      ensures r.Err? <==> !accepted
      ensures error == (if accepted then None else Some(ErrorText(detail, RegistrationFailed)))
      ensures r.Err? ==> r.error == error.value
    {
      loading := true;
      error := None;
      r := Ok(());
      if !accepted {
        error := Some(ErrorText(detail, RegistrationFailed));
        r := Err(error.value);
      }
      loading := false;
    }
  }

  /** The stand-in account a login falls back on always has exactly one role. */
  lemma LoginYieldsOneRole(username: string, fetched: Option<seq<User>>, now: string)
    requires fetched.None? || FindByUsername(fetched.value, username).None?
    ensures RoleCount(Flags(Some(LoginUser(username, fetched, now)))) == 1
  {
  }
}
