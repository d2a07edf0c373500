/** `GET /users/me`: the caller's own identity, projected from `req.user`. */
module UsersController {
  import opened Common
  import opened Http
  import opened Auth

  datatype Me = Me(userId: string, email: Option<string>, username: Option<string>, groups: seq<ClaimValue>)

  /** `getMe` */
  function GetMe(user: Option<AuthUser>): (r: Response<Me>)
    ensures Subject(user).None? ==> r == Fail(401, "Unauthorized")
    ensures Subject(user).Some? ==> r.code == 200 && r.body.Data?
    ensures r.body.Data? ==>
      && user.Some?
      && r.body.data.userId == user.value.sub != ""
      && r.body.data.email == user.value.email
      && r.body.data.username == user.value.username
      && r.body.data.groups == GroupsOf(user)
  {
    if Subject(user).None? then Fail(401, "Unauthorized")
    else
      var u := user.value;
      Response(200, Data(Me(u.sub, u.email, u.username, u.groups.GetOr([]))))
  }

  /** With authentication disabled the caller is the placeholder user, with
      no groups. */
  lemma {:induction false} GetMeLocalUser()
    ensures GetMe(Some(LocalUser)) == Response(200, Data(Me("local-user", None, Some("local"), [])))
  {
  }
}
