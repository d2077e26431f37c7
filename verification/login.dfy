/** `POST /api/auth/login` (`src/app/api/auth/login/route.ts`): a lookup of
    the e-mail address in the route's own fixed user list, which holds the
    administrator only; users created by the register route are not in it.
    The session cookie is left out. */
module LoginRoute {
  import opened Wrappers
  import opened Http
  import opened Accounts
  import RegisterRoute

  /** The route's `mockUsers`. */
  const AdminUser: StoredUser :=
    StoredUser(1, "admin", "admin@skatetube.com", "admin123", "SkateTube Administrator", None, 0, AdminRole)
  const LoginUsers: seq<StoredUser> := [AdminUser]

  datatype LoginRequest = LoginRequest(email: Option<string>, password: Option<string>)

  datatype LoginBody =
    | Error(error: string)
    | LoggedIn(message: string, user: PublicUser)

  const MissingFieldsMessage: string := "Email and password are required"
  const InvalidMessage: string := "Invalid email or password"
  const LoggedInMessage: string := "Login successful"
  const InternalErrorMessage: string := "Internal server error"

  /** The route against a user list `users`: both fields are required
      (400); the first user with the e-mail address must have the password,
      and an unknown address and a wrong password get the same 401. */
  function LoginWith(users: seq<StoredUser>, body: Option<LoginRequest>): (r: Response<LoginBody>)
    ensures body.None? ==> r.status == ServerError500
    ensures body.Some? && (!Present(body.value.email) || !Present(body.value.password)) ==>
              r == Response(BadRequest400, Error(MissingFieldsMessage))
    ensures r.status == Ok200 <==>
              && body.Some? && Present(body.value.email) && Present(body.value.password)
              && var u := FindByEmail(users, body.value.email.value);
                 u.Some? && u.value.password == body.value.password.value
    ensures r.status == Ok200 ==>
              r.body == LoggedIn(LoggedInMessage, WithoutPassword(FindByEmail(users, body.value.email.value).value))
    ensures r.status != Ok200 && body.Some? && Present(body.value.email) && Present(body.value.password) ==>
              r == Response(Unauthorized401, Error(InvalidMessage))
  {
    match body
    case None => Response(ServerError500, Error(InternalErrorMessage))
    case Some(b) =>
      if !Present(b.email) || !Present(b.password) then Response(BadRequest400, Error(MissingFieldsMessage))
      else
        var u := FindByEmail(users, b.email.value);
        if u.None? || u.value.password != b.password.value then Response(Unauthorized401, Error(InvalidMessage))
        else Response(Ok200, LoggedIn(LoggedInMessage, WithoutPassword(u.value)))
  }

  /** The route itself. */
  function Login(body: Option<LoginRequest>): Response<LoginBody>
  {
    LoginWith(LoginUsers, body)
  }

  /** Exactly one pair of credentials succeeds, and it answers with the
      administrator without the password. */
  lemma OnlyAdminLogsIn(email: string, password: string)
    ensures Login(Some(LoginRequest(Some(email), Some(password)))).status == Ok200
            <==> email == AdminUser.email && password == AdminUser.password
    ensures Login(Some(LoginRequest(Some(email), Some(password)))).status == Ok200 ==>
              Login(Some(LoginRequest(Some(email), Some(password)))).body.user == WithoutPassword(AdminUser)
  {
    var u := FindByEmail(LoginUsers, email);
    if email == AdminUser.email {
      assert u == Some(AdminUser);
    } else {
      assert u == None;
    }
  }

  /** An unknown address and a known address with a wrong password are
      answered identically, so the response does not reveal which
      addresses exist. */
  lemma NoAccountEnumeration(users: seq<StoredUser>, unknown: string, known: string, wrong: string, password: string)
    requires password != "" && wrong != "" && unknown != "" && known != ""
    requires forall i :: 0 <= i < |users| ==> users[i].email != unknown
    requires FindByEmail(users, known).Some? && FindByEmail(users, known).value.password != wrong
    ensures LoginWith(users, Some(LoginRequest(Some(unknown), Some(password))))
            == LoginWith(users, Some(LoginRequest(Some(known), Some(wrong))))
  {
  }

  /** A user the register route has just created cannot log in with the
      registered credentials unless they are the administrator's. */
  lemma RegisteredUserNotFound(st: RegisterRoute.Store, req: RegisterRoute.RegisterRequest)
    requires RegisterRoute.Register(st, Some(req)).response.status == Ok200
    requires req.email.value != AdminUser.email || req.password.value != AdminUser.password
    ensures Login(Some(LoginRequest(req.email, req.password))).status == Unauthorized401
  {
    OnlyAdminLogsIn(req.email.value, req.password.value);
  }
}
