/** The user records shared by the mock sign-up and log-in routes: the four
    seeded accounts each route starts from, the public view of a user that a
    response carries, and the replies the two routes give. */
module Accounts {
  import opened JsText
  import opened Records

  /** A stored user. The name, email and password are whatever the request
      body held under those keys (`None` for a missing key); the seeded
      users other than the admin have no `isAdmin` key at all. */
  datatype User = User(
    id: int,
    email: Option<Json>,
    password: Option<Json>,
    name: Option<Json>,
    points: int,
    isAdmin: Option<bool>)

  /** A user without the password, as the responses carry it. */
  datatype PublicUser = PublicUser(
    id: int,
    email: Option<Json>,
    name: Option<Json>,
    points: int,
    isAdmin: Option<bool>)

  /** A route's answer: the user and a message, or an HTTP error. */
  datatype Reply = Welcome(user: PublicUser, message: string) | Refused(status: int, error: string)

  /** `const { password: _, ...userWithoutPassword } = user`. */
  function WithoutPassword(u: User): (p: PublicUser)
    ensures p.id == u.id && p.email == u.email && p.name == u.name
    ensures p.points == u.points && p.isAdmin == u.isAdmin
  {
    PublicUser(u.id, u.email, u.name, u.points, u.isAdmin)
  }

  function Seeded(id: int, email: string, password: string, name: string, points: int, isAdmin: Option<bool>): User {
    User(id, Some(JStr(email)), Some(JStr(password)), Some(JStr(name)), points, isAdmin)
  }

  /** The mock users each route starts with. */
  const SeedUsers: seq<User> := [
    Seeded(1, "admin@rewear.com", "admin123", "Admin User", 1000, Some(true)),
    Seeded(2, "john@example.com", "password123", "John Doe", 150, None),
    Seeded(3, "jane@example.com", "password123", "Jane Smith", 200, None),
    Seeded(4, "mike@example.com", "password123", "Mike Johnson", 120, None)
  ]

  /** The ids count up from 1 in stored order. */
  ghost predicate IdsArePositions(users: seq<User>) {
    forall k | 0 <= k < |users| :: users[k].id == k + 1
  }

  /** No two users share an email. */
  ghost predicate DistinctEmails(users: seq<User>) {
    forall j, k | 0 <= j < k < |users| :: users[j].email != users[k].email
  }

  /** The seed keeps both: ids 1 to 4 and four different emails. */
  lemma SeedIsWellFormed()
    ensures IdsArePositions(SeedUsers) && DistinctEmails(SeedUsers)
  {
    assert "admin@rewear.com"[0] != "john@example.com"[0];
    assert "admin@rewear.com"[0] != "jane@example.com"[0];
    assert "admin@rewear.com"[0] != "mike@example.com"[0];
    assert "john@example.com"[1] != "jane@example.com"[1];
    assert "john@example.com"[0] != "mike@example.com"[0];
    assert "jane@example.com"[0] != "mike@example.com"[0];
  }
}
