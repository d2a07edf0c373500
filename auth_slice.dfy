/** The `auth` slice: the signed-in user and the loading and error flags of
    login and registration. Reading and writing `localStorage` is out of the
    model; the user saved there at start-up is a constructor parameter. */
module AuthSlice {
  import opened Common
  import opened FrontTypes

  datatype Snapshot = Snapshot(user: Option<User>, loading: bool, error: Option<string>)

  /** The user a fulfilled login stores: id, email (empty when the answer
      has none) and role; no name, flag or token. */
  function LoggedInUser(payload: LoginResponse): (u: User)
    ensures u.userId == payload.userId && u.role == payload.role
    ensures payload.email.Some? ==> u.email == payload.email.value
    ensures payload.email.None? ==> u.email == ""
    ensures u.accessToken.None? && u.refreshToken.None? && u.name.None? && u.blocked.None?
  {
    User(payload.userId, payload.email.GetOr(""), None, payload.role, None, None, None)
  }

  class AuthState {
    var user: Option<User>
    var loading: bool
    var error: Option<string>

    function State(): Snapshot
      reads this
    {
      Snapshot(user, loading, error)
    }

    /** `initialState`, given the user saved by an earlier session. */
    constructor(saved: Option<User>)
      ensures State() == Snapshot(saved, false, None)
    {
      user := saved;
      loading := false;
      error := None;
    }

    /** `logout` */
    method Logout()
      modifies this
      ensures State() == old(State()).(user := None, error := None)
    {
      user := None;
      error := None;
    }

    /** `clearError` */
    method ClearError()
      modifies this
      ensures State() == old(State()).(error := None)
    {
      error := None;
    }

    /** `loginUser.pending` */
    method LoginPending()
      modifies this
      ensures State() == old(State()).(loading := true, error := None)
    {
      loading := true;
      error := None;
    }

    /** `loginUser.fulfilled`: an error left by an earlier attempt is not
        cleared here (pending already cleared it). */
    method LoginFulfilled(payload: LoginResponse)
      modifies this
      ensures State() == old(State()).(loading := false, user := Some(LoggedInUser(payload)))
    {
      loading := false;
      user := Some(LoggedInUser(payload));
    }

    /** `loginUser.rejected`: whoever was signed in stays signed in. */
    method LoginRejected(message: string)
      modifies this
      ensures State() == old(State()).(loading := false, error := Some(message))
    {
      loading := false;
      error := Some(message);
    }

    /** `registerUser.pending` */
    method RegisterPending()
      modifies this
      ensures State() == old(State()).(loading := true, error := None)
    {
      loading := true;
      error := None;
    }

    /** `registerUser.fulfilled`: registering does not sign in. */
    method RegisterFulfilled()
      modifies this
      ensures State() == old(State()).(loading := false)
    {
      loading := false;
    }

    /** `registerUser.rejected` */
    method RegisterRejected(message: string)
      modifies this
      ensures State() == old(State()).(loading := false, error := Some(message))
    {
      loading := false;
      error := Some(message);
    }
  }

  /** A full login: pending, then fulfilled. The stored user carries no
      token, and a registration afterwards leaves that user signed in. */
  method LoginThenRegister(saved: Option<User>, payload: LoginResponse) returns (state: AuthState)
    ensures state.user.Some? && state.user.value.userId == payload.userId
    ensures state.user.value.accessToken.None?
    ensures !state.loading && state.error.None?
  {
    state := new AuthState(saved);
    state.LoginPending();
    state.LoginFulfilled(payload);
    state.RegisterPending();
    state.RegisterFulfilled();
  }
}
