/** `GET /api/auth/me` (`src/app/api/auth/me/route.ts`): the current user.
    The route does not decode the session token: any `auth-token` cookie
    gets the first user of its fixed list. Its records have no password
    to strip. `cookie` is the cookie's value, `None` when it is absent. */
module MeRoute {
  import opened Wrappers
  import opened Http
  import opened Accounts

  const Admin: PublicUser := PublicUser(
    1, "admin", "admin@skatetube.com",
    "SkateTube Administrator - Passionate about skateboarding and building the ultimate video platform for extreme sports enthusiasts.",
    None, 1250, AdminRole)
  const SkaterPro: PublicUser := PublicUser(
    2, "skater_pro", "pro@skatetube.com",
    "Professional skateboarder from California. Sharing tricks, tutorials, and street skating adventures. Follow for daily skateboarding content!",
    None, 5420, UserRole)
  /** The route's `mockUsers`. */
  const MeUsers: seq<PublicUser> := [Admin, SkaterPro]

  datatype MeBody = Error(error: string) | CurrentUser(user: PublicUser)

  const NotAuthenticatedMessage: string := "Not authenticated"
  const NotFoundMessage: string := "User not found"

  /** The route against a user list `users`: 401 without a cookie, else the
      first user, or 404 when the list is empty. */
  function MeWith(users: seq<PublicUser>, cookie: Option<string>): (r: Response<MeBody>)
    ensures cookie.None? ==> r == Response(Unauthorized401, Error(NotAuthenticatedMessage))
    ensures cookie.Some? && |users| > 0 ==> r == Response(Ok200, CurrentUser(users[0]))
    ensures r.status == NotFound404 <==> cookie.Some? && |users| == 0
  {
    if cookie.None? then Response(Unauthorized401, Error(NotAuthenticatedMessage))
    else if |users| == 0 then Response(NotFound404, Error(NotFoundMessage))
    else Response(Ok200, CurrentUser(users[0]))
  }

  /** The route itself. */
  function Me(cookie: Option<string>): Response<MeBody>
  {
    MeWith(MeUsers, cookie)
  }

  /** Any cookie, whatever its token, is answered with the administrator,
      and the 404 answer never happens. */
  lemma MeIsAlwaysAdmin(cookie: Option<string>)
    ensures cookie.Some? ==> Me(cookie) == Response(Ok200, CurrentUser(Admin))
    ensures cookie.Some? ==> Me(cookie).body.user.id == 1 && Me(cookie).body.user.role == AdminRole
    ensures Me(cookie).status != NotFound404
  {
  }
}
