/** `POST /api/auth/register` (`src/app/api/auth/register/route.ts`): the
    in-memory user list and id counter of the route, and the registration
    step that validates a request and appends one user.

    The store is threaded through explicitly: each call takes the store
    and returns the store after it. A request body that is not JSON is
    `None`; a field that is absent is `None`. The session cookie is left
    out. */
module RegisterRoute {
  import opened Wrappers
  import opened Http
  import opened Accounts

  /** The module-level `users` array and `nextUserId` counter. */
  datatype Store = Store(users: seq<StoredUser>, nextId: nat)

  const InitialStore: Store := Store([], 1)
  const MinPasswordLength: nat := 6

  datatype RegisterRequest = RegisterRequest(
    username: Option<string>, email: Option<string>, password: Option<string>, bio: Option<string>)

  datatype RegisterBody =
    | Error(error: string)
    | Registered(message: string, user: PublicUser)

  datatype Outcome = Outcome(store: Store, response: Response<RegisterBody>)

  const MissingFieldsMessage: string := "Username, email, and password are required"
  const ShortPasswordMessage: string := "Password must be at least 6 characters long"
  const TakenMessage: string := "User with this email or username already exists"
  const RegisteredMessage: string := "User registered successfully"
  const InternalErrorMessage: string := "Internal server error"

  /** The store invariant: no two users share an e-mail address or a
      username, and ids are positive, strictly increasing in insertion
      order and below the counter. */
  predicate Valid(st: Store)
  {
    && (forall i, j :: 0 <= i < j < |st.users| ==>
          st.users[i].email != st.users[j].email
          && st.users[i].username != st.users[j].username
          && st.users[i].id < st.users[j].id)
    && (forall i :: 0 <= i < |st.users| ==> 1 <= st.users[i].id < st.nextId)
    && st.nextId >= 1
  }

  /** `users.find(user => user.email === email || user.username === username)`
      finds someone. */
  predicate Taken(users: seq<StoredUser>, email: string, username: string)
  {
    exists i :: 0 <= i < |users| && (users[i].email == email || users[i].username == username)
  }

  /** The record created for a successful request. */
  function NewUser(id: nat, username: string, email: string, password: string, bio: Option<string>): StoredUser
  {
    StoredUser(id, username, email, password, if Present(bio) then bio.value else "", None, 0, UserRole)
  }

  /** One call of the route. The checks run in order: all three fields
      present (400), password long enough (400), e-mail and username free
      (409). Any failure leaves the store as it was; success appends one
      user with the counter's value as id and advances the counter. */
  function Register(st: Store, body: Option<RegisterRequest>): (out: Outcome)
    ensures out.response.status != Ok200 ==> out.store == st && out.response.body.Error?
    ensures body.None? ==> out.response.status == ServerError500
    ensures body.Some? ==>
              var b := body.value;
              && (!Present(b.username) || !Present(b.email) || !Present(b.password) ==>
                    out.response == Response(BadRequest400, Error(MissingFieldsMessage)))
              && (Present(b.username) && Present(b.email) && Present(b.password) && |b.password.value| < MinPasswordLength ==>
                    out.response == Response(BadRequest400, Error(ShortPasswordMessage)))
              && (Present(b.username) && Present(b.email) && Present(b.password) && |b.password.value| >= MinPasswordLength ==>
                    (out.response.status == Conflict409 <==> Taken(st.users, b.email.value, b.username.value)))
              && (Present(b.username) && Present(b.email) && Present(b.password) && |b.password.value| >= MinPasswordLength
                  && !Taken(st.users, b.email.value, b.username.value) ==>
                    out.response.status == Ok200)
    ensures out.response.status == Ok200 ==>
              && out.response.body.Registered?
              && |out.store.users| == |st.users| + 1
              && out.store.users[..|st.users|] == st.users
              && out.store.nextId == st.nextId + 1
              && var u := out.store.users[|st.users|];
                 && u.id == st.nextId
                 && u.username == body.value.username.value
                 && u.email == body.value.email.value
                 && u.password == body.value.password.value
                 && out.response.body.user == WithoutPassword(u)
  {
    match body
    case None => Outcome(st, Response(ServerError500, Error(InternalErrorMessage)))
    case Some(b) =>
      if !Present(b.username) || !Present(b.email) || !Present(b.password) then
        Outcome(st, Response(BadRequest400, Error(MissingFieldsMessage)))
      else if |b.password.value| < MinPasswordLength then
        Outcome(st, Response(BadRequest400, Error(ShortPasswordMessage)))
      else if Taken(st.users, b.email.value, b.username.value) then
        Outcome(st, Response(Conflict409, Error(TakenMessage)))
      else
        var u := NewUser(st.nextId, b.username.value, b.email.value, b.password.value, b.bio);
        var users := st.users + [u];
        assert users[..|st.users|] == st.users;
        Outcome(Store(users, st.nextId + 1), Response(Ok200, Registered(RegisteredMessage, WithoutPassword(u))))
  }

  /** The defaults of a new user: the given bio or an empty one, no avatar,
      no subscribers, the ordinary role. */
  lemma RegisterDefaults(st: Store, body: Option<RegisterRequest>)
    requires Register(st, body).response.status == Ok200
    ensures var u := Register(st, body).response.body.user;
            && u.bio == (if Present(body.value.bio) then body.value.bio.value else "")
            && u.avatar == None && u.subscriberCount == 0 && u.role == UserRole
  {
  }

  /** The first registration into the empty store succeeds whenever the
      fields are present and the password long enough, and the new user
      gets id 1. */
  lemma FirstRegistration(b: RegisterRequest)
    requires Present(b.username) && Present(b.email) && Present(b.password)
    requires |b.password.value| >= MinPasswordLength
    ensures var out := Register(InitialStore, Some(b));
            && out.response.status == Ok200
            && out.store.users == [NewUser(1, b.username.value, b.email.value, b.password.value, b.bio)]
            && out.store.nextId == 2
            && Valid(out.store)
  {
    assert !Taken(InitialStore.users, b.email.value, b.username.value);
  }

  /** Registration keeps the store invariant. */
  lemma RegisterPreservesValid(st: Store, body: Option<RegisterRequest>)
    requires Valid(st)
    ensures Valid(Register(st, body).store)
  {
    var out := Register(st, body);
    if out.response.status == Ok200 {
      var b := body.value;
      var u := out.store.users[|st.users|];
      assert !Taken(st.users, b.email.value, b.username.value);
      forall i | 0 <= i < |st.users|
        ensures st.users[i].email != u.email && st.users[i].username != u.username && st.users[i].id < u.id
      {
      }
    }
  }

  /** Two successive registrations with the same e-mail address: the
      second one is refused with 409. */
  lemma SecondRegistrationConflicts(st: Store, first: RegisterRequest, second: RegisterRequest)
    requires Register(st, Some(first)).response.status == Ok200
    requires Present(second.username) && Present(second.email) && Present(second.password)
    requires |second.password.value| >= MinPasswordLength
    requires second.email == first.email || second.username == first.username
    ensures var st1 := Register(st, Some(first)).store;
            Register(st1, Some(second)) == Outcome(st1, Response(Conflict409, Error(TakenMessage)))
  {
    var st1 := Register(st, Some(first)).store;
    var k := |st.users|;
    assert st1.users[k].email == first.email.value && st1.users[k].username == first.username.value;
    assert Taken(st1.users, second.email.value, second.username.value);
  }
}
