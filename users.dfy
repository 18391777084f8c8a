/** The in-memory user table: three seed accounts, lookup by email ignoring case,
    the login check, registration that refuses an email already taken, and the
    reset to the seed accounts. Timestamps are milliseconds since the epoch. */
module Users {
  import opened Common
  import opened Text

  datatype User = User(id: string, email: string, password: string, name: string, createdAt: int)

  const NoAccountMessage := "No account found with this email address"
  const WrongPasswordMessage := "Incorrect password. Please try again."
  const EmailTakenMessage := "An account with this email already exists"

  /** 2024-01-15, 2024-01-01 and 2024-02-20 at midnight UTC. */
  const SeedUsers: seq<User> := [
    User("user-001", "test@example.com", "Password123!", "Test User", 1705276800000),
    User("user-002", "admin@techstore.com", "Admin@2024", "Admin User", 1704067200000),
    User("user-003", "john.doe@email.com", "JohnDoe123!", "John Doe", 1708387200000)
  ]

  /** Index of the first user whose email equals `email` ignoring case, `|users|`
      when there is none. */
  function EmailIndex(users: seq<User>, email: string): (k: nat)
    ensures k <= |users|
    ensures k < |users| ==> SameIgnoringCase(users[k].email, email)
    ensures forall i :: 0 <= i < k ==> !SameIgnoringCase(users[i].email, email)
  {
    if users == [] then 0
    else if SameIgnoringCase(users[0].email, email) then 0
    else 1 + EmailIndex(users[1..], email)
  }

  /** `findUserByEmail`. */
  function FindByEmail(users: seq<User>, email: string): (r: Option<User>)
    ensures r.None? <==> forall i :: 0 <= i < |users| ==> !SameIgnoringCase(users[i].email, email)
    ensures r.Some? ==> r.value in users && SameIgnoringCase(r.value.email, email)
    ensures forall k :: 0 <= k < |users| && SameIgnoringCase(users[k].email, email)
                        && (forall i :: 0 <= i < k ==> !SameIgnoringCase(users[i].email, email))
                        ==> r == Some(users[k])
  {
    var k := EmailIndex(users, email);
    if k == |users| then None else Some(users[k])
  }

  /** `validateLogin`. Passwords are compared exactly. */
  function ValidateLogin(users: seq<User>, email: string, password: string): (r: Result<User>)
    ensures r.Ok? ==> r.value in users && r.value.password == password && SameIgnoringCase(r.value.email, email)
    ensures r.Err? ==> r.error == NoAccountMessage || r.error == WrongPasswordMessage
  {
    match FindByEmail(users, email)
    case None => Err(NoAccountMessage)
    case Some(u) => if u.password != password then Err(WrongPasswordMessage) else Ok(u)
  }

  /** `registerUser` on a table: the new table and the result. The id and the
      timestamp are supplied by the caller. */
  function Register(users: seq<User>, email: string, password: string, name: string, id: string, now: int)
    : (r: (seq<User>, Result<User>))
    ensures r.1.Ok? <==> FindByEmail(users, email).None?
    ensures r.1.Err? ==> r.0 == users && r.1.error == EmailTakenMessage
    ensures r.1.Ok? ==> r.0 == users + [r.1.value] && r.1.value.email == email && r.1.value.password == password
  {
    if FindByEmail(users, email).Some? then (users, Err(EmailTakenMessage))
    else var u := User(id, email, password, name, now); (users + [u], Ok(u))
  }

  /** No two accounts share an email, ignoring case. */
  predicate EmailsUnique(users: seq<User>) {
    forall i, j :: 0 <= i < j < |users| ==> !SameIgnoringCase(users[i].email, users[j].email)
  }

  // ---- lemmas ------------------------------------------------------------------------

  /** The three outcomes of a login check. */
  lemma ValidateLoginSpec(users: seq<User>, email: string, password: string)
    ensures var r := ValidateLogin(users, email, password);
            var k := EmailIndex(users, email);
            && (k == |users| ==> r == Err(NoAccountMessage))
            && (k < |users| && users[k].password != password ==> r == Err(WrongPasswordMessage))
            && (k < |users| && users[k].password == password ==> r == Ok(users[k]))
  {
  }

  /** An email matching one of an account's, ignoring case, is refused and the
      table is left as it is; any other email adds exactly one account at the end. */
  lemma RegisterSpec(users: seq<User>, email: string, password: string, name: string, id: string, now: int)
    ensures var (after, r) := Register(users, email, password, name, id, now);
            && ((exists i :: 0 <= i < |users| && SameIgnoringCase(users[i].email, email)) ==>
                  after == users && r == Err(EmailTakenMessage))
            && ((forall i :: 0 <= i < |users| ==> !SameIgnoringCase(users[i].email, email)) ==>
                  var u := User(id, email, password, name, now);
                  after == users + [u] && r == Ok(u))
  {
  }

  lemma {:induction false} EmailIndexAppend(users: seq<User>, u: User, email: string)
    requires forall i :: 0 <= i < |users| ==> !SameIgnoringCase(users[i].email, email)
    requires SameIgnoringCase(u.email, email)
    ensures EmailIndex(users + [u], email) == |users|
  {
    if users != [] {
      assert (users + [u])[1..] == users[1..] + [u];
      EmailIndexAppend(users[1..], u, email);
    } else {
      assert [u][0] == u;
    }
  }

  /** After a successful registration the same email and password log in, and
      they yield the new account. */
  lemma RegisterThenLogin(users: seq<User>, email: string, password: string, name: string, id: string, now: int)
    requires Register(users, email, password, name, id, now).1.Ok?
    ensures var (after, r) := Register(users, email, password, name, id, now);
            ValidateLogin(after, email, password) == r
  {
    var u := User(id, email, password, name, now);
    EmailIndexAppend(users, u, email);
    assert (users + [u])[|users|] == u;
  }

  /** Registration keeps the emails unique. */
  lemma RegisterKeepsUnique(users: seq<User>, email: string, password: string, name: string, id: string, now: int)
    requires EmailsUnique(users)
    ensures EmailsUnique(Register(users, email, password, name, id, now).0)
  {
    var (after, r) := Register(users, email, password, name, id, now);
    if r.Ok? {
      forall i, j | 0 <= i < j < |after| ensures !SameIgnoringCase(after[i].email, after[j].email) {
        if j == |users| {
          assert after[j].email == email;
          assert after[i] == users[i];
          assert !SameIgnoringCase(users[i].email, email);
        }
      }
    }
  }

  /** The seed emails differ even ignoring case (they have different lengths). */
  lemma SeedEmailsUnique()
    ensures EmailsUnique(SeedUsers)
  {
    forall i, j | 0 <= i < j < |SeedUsers| ensures !SameIgnoringCase(SeedUsers[i].email, SeedUsers[j].email) {
      assert |ToLower(SeedUsers[i].email)| != |ToLower(SeedUsers[j].email)|;
    }
  }

  // ---- the store -----------------------------------------------------------------

  class UserStore {
    var users: seq<User>

    predicate Valid()
      reads this
    {
      EmailsUnique(users)
    }

    constructor ()
      ensures users == SeedUsers && Valid()
    {
      users := SeedUsers;
      SeedEmailsUnique();
    }

    function FindUserByEmail(email: string): (r: Option<User>)
      reads this
      ensures r.None? <==> forall i :: 0 <= i < |users| ==> !SameIgnoringCase(users[i].email, email)
      ensures r.Some? ==> r.value in users && SameIgnoringCase(r.value.email, email)
      ensures forall k :: 0 <= k < |users| && SameIgnoringCase(users[k].email, email)
                          && (forall i :: 0 <= i < k ==> !SameIgnoringCase(users[i].email, email))
                          ==> r == Some(users[k])
      ensures r == FindByEmail(users, email)
    {
      FindByEmail(users, email)
    }

    function Login(email: string, password: string): (r: Result<User>)
      reads this
      ensures r.Ok? ==> r.value in users && r.value.password == password
                        && SameIgnoringCase(r.value.email, email)
      ensures var k := EmailIndex(users, email);
              && (k == |users| ==> r == Err(NoAccountMessage))
              && (k < |users| && users[k].password != password ==> r == Err(WrongPasswordMessage))
              && (k < |users| && users[k].password == password ==> r == Ok(users[k]))
      ensures r == ValidateLogin(users, email, password)
    {
      ValidateLogin(users, email, password)
    }

    /** `registerUser`: pushes the new account onto the table. */
    method RegisterUser(email: string, password: string, name: string, id: string, now: int)
      returns (r: Result<User>)
      requires Valid()
      modifies this
      ensures Valid()
      ensures (users, r) == Register(old(users), email, password, name, id, now)
    {
      RegisterKeepsUnique(users, email, password, name, id, now);
      if FindUserByEmail(email).Some? {
        return Err(EmailTakenMessage);
      }
      var u := User(id, email, password, name, now);
      users := users + [u];
      return Ok(u);
    }

    method ResetUsers()
      modifies this
      ensures users == SeedUsers && Valid()
    {
      users := SeedUsers;
      SeedEmailsUnique();
    }
  }
}
