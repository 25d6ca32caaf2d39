/** The mock log-in route: a lookup of the email and password in its own
    user list, which no request changes, answered without the password. */
module Login {
  import opened JsText
  import opened JsArray
  import opened Records
  import opened Accounts

  const Success := "Login successful"
  const InvalidCredentials := "Invalid credentials"
  const Failed := "Login failed"

  /** The stored user has exactly the email and the password of the body
      (both `undefined` when the body lacks them). */
  predicate Matches(u: User, body: Record) {
    u.email == Field(body, "email") && u.password == Field(body, "password")
  }

  /** `POST` against a list of users (the route's own list is the seed,
      which nothing changes): the first user matching both fields, without
      the password; 401 when none matches; 500 when the body cannot be read. */
  function Post(users: seq<User>, body: Option<Record>): (r: Reply)
    ensures body.None? ==> r == Refused(500, Failed)
    ensures body.Some? ==>
      (r.Welcome? <==> exists k | 0 <= k < |users| :: Matches(users[k], body.value))
    ensures body.Some? && r.Refused? ==> r == Refused(401, InvalidCredentials)
    ensures r.Welcome? ==>
      && body.Some? && r.message == Success
      && exists k | 0 <= k < |users| ::
           && Matches(users[k], body.value)
           && r.user == WithoutPassword(users[k])
           && forall j | 0 <= j < k :: !Matches(users[j], body.value)
  {
    if body.None? then Refused(500, Failed)
    else
      var found := Find(users, (u: User) => Matches(u, body.value));
      if found.None? then Refused(401, InvalidCredentials)
      else Welcome(WithoutPassword(users[found.value]), Success)
  }

  /** Only the seeded emails can log in: an account created through the
      sign-up route, which keeps a separate list, is refused with 401. */
  lemma OnlySeededEmailsLogIn(body: Record)
    requires forall k | 0 <= k < |SeedUsers| :: SeedUsers[k].email != Field(body, "email")
    ensures Post(SeedUsers, Some(body)) == Refused(401, InvalidCredentials)
  {
  }

  /** The seeded admin logs in with its password and comes back as admin. */
  lemma AdminLogsIn()
    ensures var r := Post(SeedUsers, Some(map["email" := JStr("admin@rewear.com"), "password" := JStr("admin123")]));
      r.Welcome? && r.user.id == 1 && r.user.isAdmin == Some(true)
  {
    var body := map["email" := JStr("admin@rewear.com"), "password" := JStr("admin123")];
    assert Matches(SeedUsers[0], body);
  }
}
