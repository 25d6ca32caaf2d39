/** The mock sign-up route: its own in-memory user list, the duplicate-email
    check, and the new account appended with the next id, 100 points and no
    admin rights. */
module Signup {
  import opened JsText
  import opened JsArray
  import opened Records
  import opened Accounts

  const Created := "Account created successfully"
  const AlreadyExists := "User already exists"
  const Failed := "Signup failed"

  /** The account a fresh sign-up creates when `count` users are stored. */
  function NewUser(count: nat, body: Record): (u: User)
    ensures u.id == count + 1 && u.points == 100 && u.isAdmin == Some(false)
    ensures u.name == Field(body, "name") && u.email == Field(body, "email")
    ensures u.password == Field(body, "password")
  {
    User(count + 1, Field(body, "email"), Field(body, "password"), Field(body, "name"), 100, Some(false))
  }

  /** Some stored user has this email. */
  predicate EmailTaken(users: seq<User>, email: Option<Json>) {
    exists k | 0 <= k < |users| :: users[k].email == email
  }

  class UserStore {
    var users: seq<User>

    /** Ids are positions plus one and emails are unique. */
    ghost predicate Valid()
      reads this
    {
      IdsArePositions(users) && DistinctEmails(users)
    }

    constructor ()
      ensures Valid() && users == SeedUsers
    {
      users := SeedUsers;
      SeedIsWellFormed();
    }

    /** `POST`: a body that cannot be read fails with 500, a taken email with
        400, both leaving the store as it was; otherwise the new account is
        appended and returned without its password. */
    method Post(body: Option<Record>) returns (reply: Reply)
      requires Valid()
      modifies this
      ensures Valid()
      ensures body.None? ==> reply == Refused(500, Failed) && users == old(users)
      ensures body.Some? && EmailTaken(old(users), Field(body.value, "email")) ==>
        reply == Refused(400, AlreadyExists) && users == old(users)
      ensures body.Some? && !EmailTaken(old(users), Field(body.value, "email")) ==>
        && users == old(users) + [NewUser(|old(users)|, body.value)]
        && reply == Welcome(WithoutPassword(NewUser(|old(users)|, body.value)), Created)
    {
      if body.None? {
        return Refused(500, Failed);
      }
      var email := Field(body.value, "email");
      var existing := Find(users, (u: User) => u.email == email);
      if existing.Some? {
        return Refused(400, AlreadyExists);
      }
      var newUser := NewUser(|users|, body.value);
      users := users + [newUser];
      reply := Welcome(WithoutPassword(newUser), Created);
    }
  }

  /** Once a sign-up succeeds its email is taken, so a later sign-up with
      the same email, whatever its other fields, is refused. */
  lemma SignupTakesEmail(users: seq<User>, body: Record)
    ensures EmailTaken(users + [NewUser(|users|, body)], Field(body, "email"))
  {
    var grown := users + [NewUser(|users|, body)];
    assert grown[|users|].email == Field(body, "email");
  }

  /** Appending the new account to a well-formed list whose users all have
      other emails keeps ids as positions and emails unique. */
  lemma SignupKeepsStoreWellFormed(users: seq<User>, body: Record)
    requires IdsArePositions(users) && DistinctEmails(users)
    requires !EmailTaken(users, Field(body, "email"))
    ensures IdsArePositions(users + [NewUser(|users|, body)])
    ensures DistinctEmails(users + [NewUser(|users|, body)])
  {
    var grown := users + [NewUser(|users|, body)];
    forall j, k | 0 <= j < k < |grown|
      ensures grown[j].email != grown[k].email
    {
      assert grown[j] == users[j];
      if k < |users| {
        assert grown[k] == users[k];
      }
    }
  }
}
