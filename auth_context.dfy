/** `AuthProvider`: the signed-in user held in React state, the role flags
    derived from it, and `login`, `register` and `logout`. The HTTP calls are
    out of the model: their outcome is a parameter. The access token written
    to `localStorage` is kept as a field, because which token is stored is
    part of what `login` decides; the mirror of the user into
    `localStorage` is out of the model. */
module AuthContext {
  import opened Common
  import opened FrontTypes

  // ---------------------------------------------------------------------
  // Derived flags

  const AdminRole := "ADMIN"
  const TechSupportRole := "TECH_SUPPORT"
  const UserRole := "USER"

  /** `isAuthenticated: !!user` (a user object is always truthy). */
  predicate IsAuthenticated(user: Option<User>) {
    user.Some?
  }

  /** `user?.role === role` */
  predicate HasRole(user: Option<User>, role: string) {
    user.Some? && user.value.role == role
  }

  predicate IsAdmin(user: Option<User>) { HasRole(user, AdminRole) }
  predicate IsTechSupport(user: Option<User>) { HasRole(user, TechSupportRole) }
  predicate IsUser(user: Option<User>) { HasRole(user, UserRole) }

  /** At most one role flag holds, each implies being signed in, and a role
      outside the three (the server's answer is cast, not checked) sets
      none of them. */
  lemma RoleFlags(user: Option<User>)
    ensures !(IsAdmin(user) && IsTechSupport(user))
    ensures !(IsAdmin(user) && IsUser(user))
    ensures !(IsTechSupport(user) && IsUser(user))
    ensures IsAdmin(user) || IsTechSupport(user) || IsUser(user) ==> IsAuthenticated(user)
    ensures user.Some? && user.value.role != AdminRole && user.value.role != TechSupportRole &&
            user.value.role != UserRole ==>
      IsAuthenticated(user) && !IsAdmin(user) && !IsTechSupport(user) && !IsUser(user)
  {
  }

  // ---------------------------------------------------------------------
  // Login

  /** `data.accessToken ?? data.idToken ?? ''` */
  function StoredToken(data: LoginResponse): (t: string)
    ensures data.accessToken.Some? ==> t == data.accessToken.value
    ensures data.accessToken.None? && data.idToken.Some? ==> t == data.idToken.value
    ensures data.accessToken.None? && data.idToken.None? ==> t == ""
  {
    match data.accessToken
    case Some(a) => a
    case None => data.idToken.GetOr("")
  }

  /** The user `login` builds: the answer's email, or the email typed in
      when the answer has none; both tokens as the answer gives them. */
  function LoginUser(data: LoginResponse, typedEmail: string): (u: User)
    ensures u.userId == data.userId && u.role == data.role
    ensures u.email == if data.email.Some? then data.email.value else typedEmail
    ensures u.accessToken == data.accessToken && u.refreshToken == data.refreshToken
    ensures u.name.None? && u.blocked.None?
  {
    User(data.userId, data.email.GetOr(typedEmail), None, data.role, None, data.accessToken, data.refreshToken)
  }

  /** The id token is stored only when the answer has no access token, and
      the stored token is empty only when the answer has neither token (or
      an empty one). */
  lemma StoredTokenChoice(data: LoginResponse)
    ensures StoredToken(data) == "" ==>
      (data.accessToken.None? || data.accessToken.value == "") &&
      (data.accessToken.Some? || data.idToken.None? || data.idToken.value == "")
    ensures data.accessToken.Some? ==> StoredToken(data) == LoginUser(data, "").accessToken.value
  {
  }

  /** What the login request delivered: the answer, or the message the
      failure was reported with. */
  datatype Outcome<+T> = Answered(data: T) | Failed(message: string)

  /** What `login` and `register` give their caller: the value the promise
      resolves with, or the `Error` it rejects with. */
  datatype Settled<+T> = Resolved(value: T) | Rejected(message: string)

  class AuthProvider {
    var user: Option<User>
    var loading: bool
    var error: Option<string>
    /** The `accessToken` entry of `localStorage`. */
    var storedToken: Option<string>

    /** The state once the first render's effect has run, given the user
        and the token saved by an earlier session: with no saved user the
        effect removes the saved token as well. */
    constructor(saved: Option<User>, savedToken: Option<string>)
      ensures user == saved && !loading && error.None?
      ensures saved.Some? ==> storedToken == savedToken
      ensures saved.None? ==> storedToken.None?
    {
      user := saved;
      loading := false;
      error := None;
      storedToken := if saved.None? then None else savedToken;
    }

    /** `login(email, password)`, once the request has settled with
        `outcome`. */
    method Login(email: string, outcome: Outcome<LoginResponse>) returns (r: Settled<User>)
      modifies this
      ensures !loading
      ensures outcome.Answered? ==>
        && r == Resolved(LoginUser(outcome.data, email))
        && user == Some(LoginUser(outcome.data, email))
        && storedToken == Some(StoredToken(outcome.data))
        && error.None?
      ensures outcome.Failed? ==>
        && r == Rejected(outcome.message)
        && user == old(user)
        && storedToken == old(storedToken)
        && error == Some(outcome.message)
    {
      loading := true;
      error := None;
      match outcome {
        case Answered(data) =>
          storedToken := Some(StoredToken(data));
          var userData := LoginUser(data, email);
          user := Some(userData);
          r := Resolved(userData);
        case Failed(msg) =>
          error := Some(msg);
          r := Rejected(msg);
      }
      loading := false;
    }

    /** `register(...)`, once the request has settled: the user is never
        changed, registering does not sign in. */
    method Register<T>(outcome: Outcome<T>) returns (r: Settled<T>)
      modifies this
      ensures !loading && user == old(user) && storedToken == old(storedToken)
      ensures outcome.Answered? ==> r == Resolved(outcome.data) && error.None?
      ensures outcome.Failed? ==> r == Rejected(outcome.message) && error == Some(outcome.message)
    {
      loading := true;
      error := None;
      match outcome {
        case Answered(data) =>
          r := Resolved(data);
        case Failed(msg) =>
          error := Some(msg);
          r := Rejected(msg);
      }
      loading := false;
    }

    /** `logout()`: the user and the stored token are gone; `loading` and
        `error` are left as they are. */
    method Logout()
      modifies this
      ensures user.None? && storedToken.None?
      ensures loading == old(loading) && error == old(error)
    {
      user := None;
      storedToken := None;
    }
  }

  /** Signing in as an administrator sets exactly the administrator flag;
      signing out clears every flag. */
  method AdminSignInOut(data: LoginResponse, email: string) returns (signedIn: Option<User>, signedOut: Option<User>)
    requires data.role == AdminRole
    ensures IsAdmin(signedIn) && !IsTechSupport(signedIn) && !IsUser(signedIn)
    ensures !IsAuthenticated(signedOut) && !IsAdmin(signedOut)
  {
    var p := new AuthProvider(None, None);
    var r := p.Login(email, Answered(data));
    signedIn := p.user;
    p.Logout();
    signedOut := p.user;
  }
}
