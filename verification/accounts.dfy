/** The user records of the authentication routes (`src/app/api/auth/`):
    the stored record with its password, and the public record the routes
    answer with, which has no password field at all. */
module Accounts {
  import opened Wrappers

  datatype Role = UserRole | AdminRole

  /** A user as a route's store holds it. */
  datatype StoredUser = StoredUser(
    id: nat, username: string, email: string, password: string,
    bio: string, avatar: Option<string>, subscriberCount: nat, role: Role)

  /** A user as a route returns it: the stored record without `password`. */
  datatype PublicUser = PublicUser(
    id: nat, username: string, email: string,
    bio: string, avatar: Option<string>, subscriberCount: nat, role: Role)

  /** `const { password: _, ...userWithoutPassword } = user`. */
  function WithoutPassword(u: StoredUser): PublicUser
  {
    PublicUser(u.id, u.username, u.email, u.bio, u.avatar, u.subscriberCount, u.role)
  }

  /** The public record with a password put back. */
  function WithPassword(p: PublicUser, password: string): StoredUser
  {
    StoredUser(p.id, p.username, p.email, password, p.bio, p.avatar, p.subscriberCount, p.role)
  }

  /** Stripping the password loses that field and nothing else: putting it
      back restores the stored record. */
  lemma StripRoundTrip(u: StoredUser)
    ensures WithPassword(WithoutPassword(u), u.password) == u
    ensures WithoutPassword(WithPassword(WithoutPassword(u), "")) == WithoutPassword(u)
  {
  }

  /** The public record does not depend on the password. */
  lemma StripIgnoresPassword(u: StoredUser, other: string)
    ensures WithoutPassword(u.(password := other)) == WithoutPassword(u)
  {
  }

  /** `users.find(u => u.email === email)`: the first user with exactly
      this e-mail address (case-sensitive), if any. */
  function FindByEmail(users: seq<StoredUser>, email: string): (r: Option<StoredUser>)
    ensures r.Some? <==> exists i :: 0 <= i < |users| && users[i].email == email
    ensures r.Some? ==> r.value in users && r.value.email == email
    ensures r.Some? ==> exists i :: 0 <= i < |users| && users[i] == r.value
                                   && forall j :: 0 <= j < i ==> users[j].email != email
  {
    if |users| == 0 then None
    else if users[0].email == email then Some(users[0])
    else
      assert forall i :: 1 <= i < |users| ==> users[i] == users[1..][i - 1];
      FindByEmail(users[1..], email)
  }
}
