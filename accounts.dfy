/**
 * The user-account scripts: registration, login, password reset, account
 * deletion and the idempotent test-user creator, over an in-memory `users`
 * table and `user_settings` table. Password hashing, hash verification and
 * e-mail validation are foreign and passed in as functions.
 */
module Accounts {
  import opened Wrappers
  import opened Strings

  /** A row of `users`; `password` holds the stored hash. */
  datatype User = User(id: nat, name: string, email: string, password: string)

  /** The part of a user row a successful login returns: everything but the hash. */
  datatype PublicUser = PublicUser(id: nat, name: string, email: string)

  /** A row of `user_settings`. */
  datatype UserSetting = UserSetting(userId: nat, kwhRate: real)

  datatype Verb = Options | Post | OtherVerb

  /** A POST whose body sets name, e-mail and password. */
  predicate RegisterReady(verb: Verb, body: map<string, string>) {
    verb == Post && "name" in body && "email" in body && "password" in body
  }

  datatype Response =
    | PreflightOk                                 // 200, empty body
    | MethodNotAllowed                            // 405
    | BadRequest(message: string)                 // 400
    | Unauthorized(message: string)               // 401
    | Registered(message: string)                 // 201
    | LoggedIn(message: string, user: PublicUser) // 200
    | Done(message: string)                       // 200
    | ServerError(message: string)                // 500

  const TestEmail: string := "test@example.com"
  const TestPassword: string := "test123"
  const TestName: string := "Test User"
  const TestRate: real := 12.0
  const MinPasswordLength: nat := 6

  /** `SELECT ... FROM users WHERE email = ?` then `fetch()`: the first row with that email. */
  function FindByEmail(users: seq<User>, email: string): (r: Option<User>)
    ensures r.Some? ==> r.value in users && r.value.email == email
    ensures r.None? <==> forall u :: u in users ==> u.email != email
  {
    if users == [] then None
    else if users[0].email == email then Some(users[0])
    else FindByEmail(users[1..], email)
  }

  /** No two rows share an e-mail address. */
  ghost predicate EmailsUnique(users: seq<User>) {
    forall i, j :: 0 <= i < j < |users| ==> users[i].email != users[j].email
  }

  /** Ids are distinct and all below the next auto-increment value. */
  ghost predicate IdsBelowAndUnique(users: seq<User>, nextId: nat) {
    (forall i :: 0 <= i < |users| ==> users[i].id < nextId) &&
    (forall i, j :: 0 <= i < j < |users| ==> users[i].id != users[j].id)
  }

  /** `UPDATE users SET password = ? WHERE id = ?`. */
  function SetPassword(users: seq<User>, id: nat, hashed: string): (r: seq<User>)
    ensures |r| == |users|
    ensures forall i :: 0 <= i < |users| ==>
              r[i] == if users[i].id == id then users[i].(password := hashed) else users[i]
  {
    if users == [] then []
    else [if users[0].id == id then users[0].(password := hashed) else users[0]] + SetPassword(users[1..], id, hashed)
  }

  /** `DELETE FROM users WHERE id = ?`, keeping the order of the other rows. */
  function RemoveId(users: seq<User>, id: nat): (r: seq<User>)
    ensures forall u :: u in r <==> u in users && u.id != id
    ensures |r| <= |users|
  {
    if users == [] then []
    else (if users[0].id == id then [] else [users[0]]) + RemoveId(users[1..], id)
  }

  /**
   * The login script, which only reads the table. `fault` is the SELECT
   * raising an error.
   */
  function Login(verb: Verb, body: map<string, string>, users: seq<User>,
                 verify: (string, string) -> bool, fault: bool): (r: Response)
    ensures verb == Options <==> r == PreflightOk
    ensures verb == OtherVerb <==> r == MethodNotAllowed
    ensures verb == Post && ("email" !in body || "password" !in body) ==> r == BadRequest("Missing required fields")
    ensures r.LoggedIn? ==>
              verb == Post && "email" in body && "password" in body && !fault &&
              exists u :: u in users && u.email == Trim(body["email"]) && verify(body["password"], u.password) &&
                          r.user == PublicUser(u.id, u.name, u.email)
    ensures verb == Post && "email" in body && "password" in body && fault ==>
              r == ServerError("Login failed: database error")
    ensures verb == Post && "email" in body && "password" in body && !fault &&
            FindByEmail(users, Trim(body["email"])).Some? &&
            verify(body["password"], FindByEmail(users, Trim(body["email"])).value.password) ==>
              var u := FindByEmail(users, Trim(body["email"])).value;
              r == LoggedIn("Login successful", PublicUser(u.id, u.name, u.email))
    ensures verb == Post && "email" in body && "password" in body && !fault ==>
              (r == Unauthorized("Invalid credentials") <==>
               match FindByEmail(users, Trim(body["email"]))
               case None => true
               case Some(u) => !verify(body["password"], u.password))
  {
    match verb
    case Options => PreflightOk
    case OtherVerb => MethodNotAllowed
    case Post =>
      if "email" !in body || "password" !in body then BadRequest("Missing required fields")
      else if fault then ServerError("Login failed: database error")
      else
        match FindByEmail(users, Trim(body["email"]))
        case None => Unauthorized("Invalid credentials")
        case Some(u) =>
          if !verify(body["password"], u.password) then Unauthorized("Invalid credentials")
          else LoggedIn("Login successful", PublicUser(u.id, u.name, u.email))
  }

  /** The state after the test-user script, when both INSERTs succeed. */
  datatype Tables = Tables(users: seq<User>, settings: seq<UserSetting>, nextId: nat)

  /**
   * `create_test_user.php` on the tables: nothing when the test e-mail exists,
   * otherwise one user row and one settings row for the new id.
   */
  function WithTestUser(t: Tables, hashed: string): (r: Tables)
    ensures FindByEmail(t.users, TestEmail).Some? ==> r == t
    ensures FindByEmail(t.users, TestEmail).None? ==>
              r.users == t.users + [User(t.nextId, TestName, TestEmail, hashed)] &&
              r.settings == t.settings + [UserSetting(t.nextId, TestRate)] &&
              r.nextId == t.nextId + 1
  {
    if FindByEmail(t.users, TestEmail).Some? then t
    else Tables(t.users + [User(t.nextId, TestName, TestEmail, hashed)],
                t.settings + [UserSetting(t.nextId, TestRate)], t.nextId + 1)
  }

  /** Running the test-user script twice leaves the state of running it once. */
  lemma TestUserIdempotent(t: Tables, hashed: string)
    ensures WithTestUser(WithTestUser(t, hashed), hashed) == WithTestUser(t, hashed)
  {
    var once := WithTestUser(t, hashed);
    if FindByEmail(t.users, TestEmail).None? {
      var u := User(t.nextId, TestName, TestEmail, hashed);
      assert u in once.users;
    }
  }

  /** A newly appended row is what a lookup of its (fresh) e-mail finds. */
  lemma {:induction false} FindAppended(users: seq<User>, u: User)
    requires FindByEmail(users, u.email).None?
    ensures FindByEmail(users + [u], u.email) == Some(u)
  {
    if users != [] {
      assert (users + [u])[1..] == users[1..] + [u];
      FindAppended(users[1..], u);
    }
  }

  /** A lookup of an e-mail finds the row at the index that holds it, when e-mails are unique. */
  lemma {:induction false} FindUnique(users: seq<User>, k: nat)
    requires EmailsUnique(users) && k < |users|
    ensures FindByEmail(users, users[k].email) == Some(users[k])
  {
    if k > 0 {
      assert users[0].email != users[k].email;
      assert users[1..][k - 1] == users[k];
      FindUnique(users[1..], k - 1);
    }
  }

  /** With unique e-mails, a lookup finds exactly the one row holding that e-mail. */
  lemma FindOwner(users: seq<User>, u: User)
    requires EmailsUnique(users) && u in users
    ensures FindByEmail(users, u.email) == Some(u)
  {
    var k :| 0 <= k < |users| && users[k] == u;
    FindUnique(users, k);
  }

  /** After a reset, a lookup of the user's e-mail sees the new hash and nothing else changed. */
  lemma {:induction false} ResetVisible(users: seq<User>, id: nat, hashed: string, email: string)
    requires FindByEmail(users, email).Some? && FindByEmail(users, email).value.id == id
    ensures FindByEmail(SetPassword(users, id, hashed), email) == Some(FindByEmail(users, email).value.(password := hashed))
  {
    if users[0].email != email {
      ResetVisible(users[1..], id, hashed, email);
    }
  }

  /** After a deletion, nothing is found under the deleted user's e-mail. */
  lemma DeletedNotFound(users: seq<User>, u: User)
    requires EmailsUnique(users) && u in users
    ensures FindByEmail(RemoveId(users, u.id), u.email).None?
  {
    forall v | v in RemoveId(users, u.id)
      ensures v.email != u.email
    {
      var i :| 0 <= i < |users| && users[i] == v;
      var j :| 0 <= j < |users| && users[j] == u;
      assert i != j;
    }
  }

  /** A user who registered with a password that verifies against its hash can log in. */
  lemma LoginAfterRegister(users: seq<User>, u: User, body: map<string, string>,
                           verify: (string, string) -> bool)
    requires EmailsUnique(users) && u in users
    requires "email" in body && "password" in body
    requires Trim(body["email"]) == u.email && verify(body["password"], u.password)
    ensures Login(Post, body, users, verify, false) == LoggedIn("Login successful", PublicUser(u.id, u.name, u.email))
  {
    FindOwner(users, u);
  }

  class UserStore {
    var users: seq<User>
    var settings: seq<UserSetting>
    var nextId: nat

    ghost predicate Valid()
      reads this
    {
      EmailsUnique(users) && IdsBelowAndUnique(users, nextId)
    }

    constructor ()
      ensures users == [] && settings == [] && nextId == 1
      ensures Valid()
    {
      users := [];
      settings := [];
      nextId := 1;
    }

    /**
     * The registration script. `fault` is the INSERT raising an error, which
     * leaves the table as it was.
     */
    method Register(verb: Verb, body: map<string, string>, isEmail: string -> bool,
                    hash: string -> string, fault: bool) returns (resp: Response)
      requires Valid()
      modifies this
      ensures Valid()
      ensures settings == old(settings)
      ensures verb == Options ==> resp == PreflightOk && users == old(users)
      ensures verb == OtherVerb ==> resp == MethodNotAllowed && users == old(users)
      ensures verb == Post && ("name" !in body || "email" !in body || "password" !in body) ==>
                resp == BadRequest("Missing required fields") && users == old(users)
      ensures RegisterReady(verb, body) && !isEmail(Trim(body["email"])) ==>
                resp == BadRequest("Invalid email format") && users == old(users)
      ensures RegisterReady(verb, body) && isEmail(Trim(body["email"])) && |body["password"]| < MinPasswordLength ==>
                resp == BadRequest("Password must be at least 6 characters long") && users == old(users)
      ensures RegisterReady(verb, body) && isEmail(Trim(body["email"])) && |body["password"]| >= MinPasswordLength ==>
                var email := Trim(body["email"]);
                (FindByEmail(old(users), email).Some? ==>
                   resp == BadRequest("Email already registered") && users == old(users)) &&
                (FindByEmail(old(users), email).None? && fault ==>
                   resp.ServerError? && users == old(users)) &&
                (FindByEmail(old(users), email).None? && !fault ==>
                   resp == Registered("Registration successful") && nextId == old(nextId) + 1 &&
                   users == old(users) + [User(old(nextId), Trim(body["name"]), email, hash(body["password"]))])
    {
      if verb == Options {
        return PreflightOk;
      }
      if verb != Post {
        return MethodNotAllowed;
      }
      if "name" !in body || "email" !in body || "password" !in body {
        return BadRequest("Missing required fields");
      }
      var name := Trim(body["name"]);
      var email := Trim(body["email"]);
      var password := body["password"];
      if !isEmail(email) {
        return BadRequest("Invalid email format");
      }
      if |password| < MinPasswordLength {
        return BadRequest("Password must be at least 6 characters long");
      }
      if FindByEmail(users, email).Some? {
        return BadRequest("Email already registered");
      }
      if fault {
        return ServerError("Registration failed: database error");
      }
      Insert(User(nextId, name, email, hash(password)));
      resp := Registered("Registration successful");
    }

    /** One INSERT of a user whose e-mail is new, at the next id. */
    method Insert(u: User)
      requires Valid() && u.id == nextId && FindByEmail(users, u.email).None?
      modifies this
      ensures Valid()
      ensures users == old(users) + [u] && nextId == old(nextId) + 1 && settings == old(settings)
    {
      users := users + [u];
      nextId := nextId + 1;
    }

    /**
     * The password-reset script. The e-mail is used as given, untrimmed, and
     * the new password has no length check. `fault` is the UPDATE raising an error.
     */
    method ResetPassword(verb: Verb, body: map<string, string>, verify: (string, string) -> bool,
                         hash: string -> string, fault: bool) returns (resp: Response)
      requires Valid()
      modifies this`users
      ensures Valid()
      ensures verb == Options ==> resp == PreflightOk && users == old(users)
      ensures verb == OtherVerb ==> resp == MethodNotAllowed && users == old(users)
      ensures verb == Post && ("email" !in body || "currentPassword" !in body || "newPassword" !in body) ==>
                resp == BadRequest("Missing required fields") && users == old(users)
      ensures verb == Post && "email" in body && "currentPassword" in body && "newPassword" in body ==>
                var found := FindByEmail(old(users), body["email"]);
                ((found.None? || !verify(body["currentPassword"], found.value.password)) ==>
                   resp == Unauthorized("Invalid email or current password") && users == old(users)) &&
                (found.Some? && verify(body["currentPassword"], found.value.password) && fault ==>
                   resp.ServerError? && users == old(users)) &&
                (found.Some? && verify(body["currentPassword"], found.value.password) && !fault ==>
                   resp == Done("Password updated successfully") &&
                   users == SetPassword(old(users), found.value.id, hash(body["newPassword"])))
    {
      if verb == Options {
        return PreflightOk;
      }
      if verb != Post {
        return MethodNotAllowed;
      }
      if "email" !in body || "currentPassword" !in body || "newPassword" !in body {
        return BadRequest("Missing required fields");
      }
      var found := FindByEmail(users, body["email"]);
      if found.None? || !verify(body["currentPassword"], found.value.password) {
        return Unauthorized("Invalid email or current password");
      }
      if fault {
        return ServerError("Database error: update failed");
      }
      SetPasswordKeepsValid(users, nextId, found.value.id, hash(body["newPassword"]));
      users := SetPassword(users, found.value.id, hash(body["newPassword"]));
      resp := Done("Password updated successfully");
    }

    /**
     * The account-deletion script. `fault` is the DELETE raising an error or
     * reporting zero affected rows; both give 500 and delete nothing.
     */
    method DeleteAccount(verb: Verb, body: map<string, string>, verify: (string, string) -> bool,
                         fault: bool) returns (resp: Response)
      requires Valid()
      modifies this`users
      ensures Valid()
      ensures verb == Options ==> resp == PreflightOk && users == old(users)
      ensures verb == OtherVerb ==> resp == MethodNotAllowed && users == old(users)
      ensures verb == Post && ("email" !in body || "password" !in body) ==>
                resp == BadRequest("Email and password are required") && users == old(users)
      ensures verb == Post && "email" in body && "password" in body ==>
                var found := FindByEmail(old(users), body["email"]);
                ((found.None? || !verify(body["password"], found.value.password)) ==>
                   resp == Unauthorized("Invalid credentials") && users == old(users)) &&
                (found.Some? && verify(body["password"], found.value.password) && fault ==>
                   resp == ServerError("Failed to delete account: Failed to delete account") && users == old(users)) &&
                (found.Some? && verify(body["password"], found.value.password) && !fault ==>
                   resp == Done("Account deleted successfully") && users == RemoveId(old(users), found.value.id) &&
                   |users| < |old(users)|)
    {
      if verb == Options {
        return PreflightOk;
      }
      if verb != Post {
        return MethodNotAllowed;
      }
      if "email" !in body || "password" !in body {
        return BadRequest("Email and password are required");
      }
      var found := FindByEmail(users, body["email"]);
      if found.None? || !verify(body["password"], found.value.password) {
        return Unauthorized("Invalid credentials");
      }
      if fault {
        return ServerError("Failed to delete account: Failed to delete account");
      }
      RemoveKeepsValid(users, nextId, found.value.id);
      RemoveShrinks(users, found.value);
      users := RemoveId(users, found.value.id);
      resp := Done("Account deleted successfully");
    }

    /**
     * The test-user script. A failing existence SELECT answers 500 before
     * anything else. The two INSERTs run without a transaction, so a failing
     * settings INSERT leaves the new user row in place.
     */
    method CreateTestUser(hash: string -> string, fault: TestUserFault) returns (resp: TestUserResponse)
      requires Valid()
      modifies this
      ensures Valid()
      ensures fault == SelectFails ==>
                resp.TestUserFailed? && users == old(users) && settings == old(settings) && nextId == old(nextId)
      ensures fault != SelectFails && FindByEmail(old(users), TestEmail).Some? ==>
                resp == TestUserReady("Test user already exists", FindByEmail(old(users), TestEmail).value.id, TestEmail, TestPassword) &&
                users == old(users) && settings == old(settings) && nextId == old(nextId)
      ensures FindByEmail(old(users), TestEmail).None? && fault == UserInsertFails ==>
                resp.TestUserFailed? && users == old(users) && settings == old(settings) && nextId == old(nextId)
      ensures FindByEmail(old(users), TestEmail).None? && fault == SettingsInsertFails ==>
                resp.TestUserFailed? && settings == old(settings) && nextId == old(nextId) + 1 &&
                users == old(users) + [User(old(nextId), TestName, TestEmail, hash(TestPassword))]
      ensures FindByEmail(old(users), TestEmail).None? && fault == NoFault ==>
                resp == TestUserReady("Test user created successfully", old(nextId), TestEmail, TestPassword)
      ensures fault == NoFault ==>
                Tables(users, settings, nextId) ==
                WithTestUser(Tables(old(users), old(settings), old(nextId)), hash(TestPassword))
    {
      if fault == SelectFails {
        return TestUserFailed("Failed to create test user: lookup failed");
      }
      var existing := FindByEmail(users, TestEmail);
      if existing.Some? {
        return TestUserReady("Test user already exists", existing.value.id, TestEmail, TestPassword);
      }
      if fault == UserInsertFails {
        return TestUserFailed("Failed to create test user: insert failed");
      }
      var userId := nextId;
      Insert(User(userId, TestName, TestEmail, hash(TestPassword)));
      if fault == SettingsInsertFails {
        return TestUserFailed("Failed to create test user: insert failed");
      }
      settings := settings + [UserSetting(userId, TestRate)];
      resp := TestUserReady("Test user created successfully", userId, TestEmail, TestPassword);
    }
  }

  /** Where the test-user script's database work fails, if it does. */
  datatype TestUserFault = NoFault | SelectFails | UserInsertFails | SettingsInsertFails

  /** Both successful replies carry the test account's e-mail and plain password. */
  datatype TestUserResponse =
    | TestUserReady(message: string, userId: nat, email: string, password: string) // 200, status "success"
    | TestUserFailed(message: string)             // 500, status "error"

  lemma SetPasswordKeepsValid(users: seq<User>, nextId: nat, id: nat, hashed: string)
    requires EmailsUnique(users) && IdsBelowAndUnique(users, nextId)
    ensures EmailsUnique(SetPassword(users, id, hashed)) && IdsBelowAndUnique(SetPassword(users, id, hashed), nextId)
  {
  }

  /** The first row shares neither e-mail nor id with any later row. */
  lemma HeadDistinct(users: seq<User>, nextId: nat)
    requires EmailsUnique(users) && IdsBelowAndUnique(users, nextId) && users != []
    ensures forall v :: v in users[1..] ==> v.email != users[0].email && v.id != users[0].id
    ensures EmailsUnique(users[1..]) && IdsBelowAndUnique(users[1..], nextId)
  {
    forall v | v in users[1..]
      ensures v.email != users[0].email && v.id != users[0].id
    {
      var k :| 0 <= k < |users[1..]| && users[1..][k] == v;
      assert users[k + 1] == v;
    }
  }

  /** Prepending a row distinct from all others keeps both uniqueness facts. */
  lemma ConsUnique(x: User, rest: seq<User>, nextId: nat)
    requires EmailsUnique(rest) && IdsBelowAndUnique(rest, nextId) && x.id < nextId
    requires forall v :: v in rest ==> v.email != x.email && v.id != x.id
    ensures EmailsUnique([x] + rest) && IdsBelowAndUnique([x] + rest, nextId)
  {
    var r := [x] + rest;
    forall i, j | 0 <= i < j < |r|
      ensures r[i].email != r[j].email && r[i].id != r[j].id
    {
      assert r[j] == rest[j - 1];
      if i > 0 {
        assert r[i] == rest[i - 1];
      } else {
        assert rest[j - 1] in rest;
      }
    }
  }

  /** Deleting keeps a subsequence of the rows, so uniqueness survives. */
  lemma {:induction false} RemoveKeepsValid(users: seq<User>, nextId: nat, id: nat)
    requires EmailsUnique(users) && IdsBelowAndUnique(users, nextId)
    ensures EmailsUnique(RemoveId(users, id)) && IdsBelowAndUnique(RemoveId(users, id), nextId)
  {
    if users != [] {
      HeadDistinct(users, nextId);
      var rest := RemoveId(users[1..], id);
      RemoveKeepsValid(users[1..], nextId, id);
      if users[0].id != id {
        ConsUnique(users[0], rest, nextId);
      }
    }
  }

  /** Deleting the id of a row that exists removes at least that row. */
  lemma {:induction false} RemoveShrinks(users: seq<User>, u: User)
    requires u in users
    ensures |RemoveId(users, u.id)| < |users|
  {
    if users[0] != u {
      RemoveShrinks(users[1..], u);
    }
  }
}
