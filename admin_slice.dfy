/** The `admin` slice: the user list of the administration pages and the
    loading and error flags of its fetch. */
module AdminSlice {
  import opened Common
  import opened FrontTypes

  datatype Snapshot = Snapshot(users: seq<User>, loading: bool, error: Option<string>)

  const Initial := Snapshot([], false, None)

  /** While the fetch is outstanding no error is shown. */
  ghost predicate Consistent(s: Snapshot) {
    s.loading ==> s.error.None?
  }

  class AdminState {
    var users: seq<User>
    var loading: bool
    var error: Option<string>

    function State(): Snapshot
      reads this
    {
      Snapshot(users, loading, error)
    }

    /** `initialState` */
    constructor()
      ensures State() == Initial && Consistent(State())
    {
      users := [];
      loading := false;
      error := None;
    }

    /** `fetchUsers.pending` */
    method FetchUsersPending()
      modifies this
      ensures State() == old(State()).(loading := true, error := None)
      ensures Consistent(State())
    {
      loading := true;
      error := None;
    }

    /** `fetchUsers.fulfilled` */
    method FetchUsersFulfilled(payload: seq<User>)
      modifies this
      ensures State() == old(State()).(loading := false, users := payload)
      ensures Consistent(State())
    {
      loading := false;
      users := payload;
    }

    /** `fetchUsers.rejected`: the users already loaded are kept. */
    method FetchUsersRejected(message: string)
      modifies this
      ensures State() == old(State()).(loading := false, error := Some(message))
      ensures Consistent(State())
    {
      loading := false;
      error := Some(message);
    }
  }
}
