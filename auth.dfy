/** The session of `src/context/AuthContext.tsx`: the signed-in user, the token and the two
    flags derived from them, kept in step with the `token` and `user` storage keys. Signing
    in is simulated: one hard-coded administrator, and registration that always succeeds. */
module Auth {
  import opened Wrappers
  import Routes

  datatype User = User(id: int, username: string, email: string, role: string)

  /** The four pieces of provider state, as one value. */
  datatype Session = Session(user: Option<User>, token: Option<string>, isAuthenticated: bool, isAdmin: bool)

  const AdminRole := "admin"
  const UserRole := "user"
  const TokenPrefix := "mock-jwt-token-"
  const InvalidCredentials := "Credenciales incorrectas"

  /** The hard-coded administrator `login('admin', 'admin')` signs in. */
  const AdminUser := User(1, "admin", "admin@example.com", AdminRole)

  const SignedOut := Session(None, None, false, false)

  /** The session invariant: authenticated exactly when a user and a token are present,
      and admin exactly when that user's role is `admin`. */
  predicate Consistent(s: Session)
  {
    && (s.isAuthenticated <==> s.user.Some?)
    && (s.isAuthenticated <==> s.token.Some?)
    && (s.isAdmin <==> s.user.Some? && s.user.value.role == AdminRole)
  }

  /** The mount effect: with both keys present (and the token not empty) the stored session
      is taken over, the admin flag read from the role; otherwise the initial signed-out
      state stays. */
  function Restored(storedToken: Option<string>, storedUser: Option<User>): (s: Session)
    ensures Consistent(s)
    ensures s.isAuthenticated <==> storedToken.Some? && storedToken.value != "" && storedUser.Some?
    ensures s.isAuthenticated ==> s.user == storedUser && s.token == storedToken
    ensures s.isAdmin <==> s.isAuthenticated && storedUser.value.role == AdminRole
  {
    if storedToken.Some? && storedToken.value != "" && storedUser.Some? then
      Session(storedUser, storedToken, true, storedUser.value.role == AdminRole)
    else SignedOut
  }

  /** Whatever a sign-in writes to storage is restored as the same session on the next
      mount, and a signed-out storage restores the signed-out session. */
  lemma RestoreRoundTrip(s: Session)
    requires Consistent(s)
    requires s.token.Some? ==> s.token.value != ""
    ensures Restored(s.token, s.user) == (if s.isAuthenticated then s else SignedOut)
  {
  }

  /** The admin flag never holds without a session. */
  lemma AdminImpliesAuthenticated(s: Session)
    requires Consistent(s)
    ensures s.isAdmin ==> s.isAuthenticated && s.user.Some? && s.token.Some?
  {
  }

  /** The provider: its state and the two storage keys it writes. */
  class AuthProvider {
    var user: Option<User>
    var token: Option<string>
    var isAuthenticated: bool
    var isAdmin: bool
    var storedToken: Option<string>
    var storedUser: Option<User>

    ghost function Current(): Session
      reads this
    {
      Session(user, token, isAuthenticated, isAdmin)
    }

    ghost predicate Valid()
      reads this
    {
      Consistent(Current())
    }

    /** Storage holds the current session. */
    ghost predicate Persisted()
      reads this
    {
      storedToken == token && storedUser == user
    }

    /** Mount with what storage holds: the first commit is signed out, whatever storage
        holds; the stored session is taken over only by `RestoreEffect`, which runs after the
        effects of the routes below the provider. */
    constructor (storedToken: Option<string>, storedUser: Option<User>)
      ensures Valid()
      ensures Current() == SignedOut
      ensures this.storedToken == storedToken && this.storedUser == storedUser
    {
      this.storedToken := storedToken;
      this.storedUser := storedUser;
      user := None;
      token := None;
      isAuthenticated := false;
      isAdmin := false;
    }

    /** The mount effect: with both keys present (and the token not empty) the stored
        session is taken over, the admin flag read from the role; otherwise the state stays.
        Storage is only read. */
    method RestoreEffect()
      modifies this
      ensures Current() == (if Restored(storedToken, storedUser).isAuthenticated
                            then Restored(storedToken, storedUser) else old(Current()))
      ensures old(Current()) == SignedOut ==> Current() == Restored(storedToken, storedUser)
      ensures old(Valid()) ==> Valid()
      ensures storedToken == old(storedToken) && storedUser == old(storedUser)
    {
      if storedToken.Some? && storedToken.value != "" && storedUser.Some? {
        token := storedToken;
        user := storedUser;
        isAuthenticated := true;
        isAdmin := storedUser.value.role == AdminRole;
      }
    }

    /** `login`: only `admin`/`admin` succeeds, signing in the administrator with a fresh
        token (`randomSuffix` stands for the random part); any other pair throws and leaves
        state and storage as they were. */
    method Login(email: string, password: string, randomSuffix: string) returns (thrown: Option<string>)
      modifies this
      ensures thrown.None? <==> email == "admin" && password == "admin"
      ensures thrown.None? ==>
        && Current() == Session(Some(AdminUser), Some(TokenPrefix + randomSuffix), true, true)
        && Persisted() && Valid()
      ensures thrown.Some? ==> thrown.value == InvalidCredentials && unchanged(this)
    {
      if email == "admin" && password == "admin" {
        var mockToken := TokenPrefix + randomSuffix;
        storedToken := Some(mockToken);
        storedUser := Some(AdminUser);
        token := Some(mockToken);
        user := Some(AdminUser);
        isAuthenticated := true;
        isAdmin := true;
        return None;
      }
      return Some(InvalidCredentials);
    }

    /** `register`: always signs in a new regular user, whose id is the clock reading `now`;
        the password is not used. */
    method Register(username: string, email: string, password: string, now: int, randomSuffix: string)
      modifies this
      ensures Current() == Session(Some(User(now, username, email, UserRole)), Some(TokenPrefix + randomSuffix), true, false)
      ensures Persisted() && Valid()
    {
      var mockUser := User(now, username, email, UserRole);
      var mockToken := TokenPrefix + randomSuffix;
      storedToken := Some(mockToken);
      storedUser := Some(mockUser);
      token := Some(mockToken);
      user := Some(mockUser);
      isAuthenticated := true;
      isAdmin := false;
    }

    /** `logout`: both keys removed and the signed-out state. */
    method Logout()
      modifies this
      ensures Current() == SignedOut && storedToken == None && storedUser == None
      ensures Persisted() && Valid()
    {
      storedToken := None;
      storedUser := None;
      token := None;
      user := None;
      isAuthenticated := false;
      isAdmin := false;
    }
  }

  /** Reloading a guarded path with a stored session: on the first, signed-out commit the
      guard redirects to `/login` (its `Navigate` effect runs before the provider's restore
      effect, as child effects run first); once the session is restored, `/login` is where
      the browser is, and it renders the login page whatever the session. */
  lemma ReloadOfGuardedPathLandsOnLogin(path: string, storedToken: Option<string>, storedUser: Option<User>)
    requires Routes.IsPathname(path)
    requires Routes.Lookup(Routes.Segments(path)).access.Protected?
    ensures Routes.Navigate(path, SignedOut.isAuthenticated, SignedOut.isAdmin) == Routes.RedirectTo(Routes.LoginPath)
    ensures var s := Restored(storedToken, storedUser);
      Routes.Navigate(Routes.LoginPath, s.isAuthenticated, s.isAdmin) == Routes.Show(Routes.Login)
  {
    var s := Restored(storedToken, storedUser);
    Routes.RedirectTargetsOpen(s.isAuthenticated, s.isAdmin);
  }

  /** After any of `login`, `register` or `logout`, remounting from storage gives back the
      session the provider holds: the three operations leave nothing that a reload loses. */
  lemma ReloadKeepsSession(p: AuthProvider)
    requires p.Valid() && p.Persisted()
    requires p.token.Some? ==> p.token.value != ""
    ensures Restored(p.storedToken, p.storedUser) == p.Current()
  {
    RestoreRoundTrip(p.Current());
  }
}
