/**
 * Registration and login in the auth service, over the users table. A
 * username can be registered once; login answers the same 401 whether the
 * username is unknown or the password does not match, and otherwise issues a
 * token whose claims carry the user's id and role. Password hashing,
 * password checking and token signing are parameters of the operations.
 */
module Auth {
  import opened Common

  datatype User = User(id: Uuid, username: string, passwordHash: string, role: string)

  datatype Credentials = Credentials(username: string, password: string)

  const DefaultRole := "USER"

  /** findByUsername: the first row with that username, if any. */
  function FindByUsername(users: seq<User>, name: string): (r: Option<User>)
    ensures r.Some? <==> exists i :: 0 <= i < |users| && users[i].username == name
    ensures r.Some? ==> r.value in users && r.value.username == name
    decreases |users|
  {
    if users == [] then None
    else if users[0].username == name then Some(users[0])
    else
      var rest := FindByUsername(users[1..], name);
      assert forall i :: 1 <= i < |users| ==> users[i] == users[1..][i - 1];
      rest
  }

  /** No two rows share a username, and no two share an id. */
  ghost predicate UsersUnique(users: seq<User>) {
    forall i, j :: 0 <= i < j < |users| ==> users[i].username != users[j].username && users[i].id != users[j].id
  }

  const UsernameTaken := HttpResponse(400, map["error" := "username_taken"])
  const Registered := HttpResponse(200, map["status" := "registered"])
  const InvalidCredentials := HttpResponse(401, map["error" := "invalid_credentials"])

  datatype Registration = Registration(users: seq<User>, response: HttpResponse)

  /**
   * POST /auth/register on the table `users`: refused when the username is
   * taken, otherwise one new row with the hashed password and role USER.
   * `newId` is the key the store generates for the row.
   */
  function Register(users: seq<User>, req: Credentials, encode: string -> string, newId: Uuid): (r: Registration)
    ensures (exists i :: 0 <= i < |users| && users[i].username == req.username) ==>
      r == Registration(users, UsernameTaken)
    ensures (forall i :: 0 <= i < |users| ==> users[i].username != req.username) ==>
      r == Registration(users + [User(newId, req.username, encode(req.password), DefaultRole)], Registered)
  {
    if FindByUsername(users, req.username).Some? then Registration(users, UsernameTaken)
    else Registration(users + [User(newId, req.username, encode(req.password), DefaultRole)], Registered)
  }

  /** Registering keeps usernames (and ids, when the new id is fresh) pairwise distinct. */
  lemma RegisterKeepsUsersUnique(users: seq<User>, req: Credentials, encode: string -> string, newId: Uuid)
    requires UsersUnique(users)
    requires forall i :: 0 <= i < |users| ==> users[i].id != newId
    ensures UsersUnique(Register(users, req, encode, newId).users)
  {
  }

  /** `r` is the successful login of `req` as the row `u`: same username, matching password, a token for u's id and role. */
  ghost predicate TokenFor(u: User, req: Credentials, matches: (string, string) -> bool,
                           sign: (string, map<string, string>) -> string, r: HttpResponse) {
    && u.username == req.username
    && matches(req.password, u.passwordHash)
    && r.body == map["token" := sign(req.username, map["uid" := u.id, "role" := u.role])]
  }

  /**
   * POST /auth/login. `matches` is the password check against a stored hash
   * and `sign` issues a token for a subject and its claims.
   */
  function Login(users: seq<User>, req: Credentials, matches: (string, string) -> bool,
                 sign: (string, map<string, string>) -> string): (r: HttpResponse)
    ensures r.status == 200 || r == InvalidCredentials
    ensures (forall i :: 0 <= i < |users| ==> users[i].username != req.username) ==> r == InvalidCredentials
    ensures r.status == 200 ==>
      exists i :: 0 <= i < |users| && TokenFor(users[i], req, matches, sign, r)
    ensures UsersUnique(users) ==> forall i :: 0 <= i < |users| && users[i].username == req.username ==>
      (r.status == 200 <==> matches(req.password, users[i].passwordHash))
  {
    var found := FindByUsername(users, req.username);
    if found.None? then InvalidCredentials
    else
      var u := found.value;
      if !matches(req.password, u.passwordHash) then InvalidCredentials
      else HttpResponse(200, map["token" := sign(u.username, map["uid" := u.id, "role" := u.role])])
  }

  /**
   * Right after a successful registration, login with that username succeeds
   * exactly when the password matches the stored hash of the registered
   * password, and the token names the new user's id and role USER.
   */
  lemma LoginAfterRegister(users: seq<User>, reg: Credentials, encode: string -> string, newId: Uuid,
                           password: string, matches: (string, string) -> bool,
                           sign: (string, map<string, string>) -> string)
    requires FindByUsername(users, reg.username).None?
    ensures var after := Register(users, reg, encode, newId).users;
      var r := Login(after, Credentials(reg.username, password), matches, sign);
      && (r.status == 200 <==> matches(password, encode(reg.password)))
      && (r.status == 200 ==> r.body == map["token" := sign(reg.username, map["uid" := newId, "role" := DefaultRole])])
      && (r.status != 200 ==> r == InvalidCredentials)
  {
    var after := Register(users, reg, encode, newId).users;
    assert after[|users|].username == reg.username;
    var found := FindByUsername(after, reg.username);
    assert found.value == after[|users|];
  }

  /** An unknown username and a wrong password get the same answer: login does not reveal which usernames exist. */
  lemma FailedLoginsIndistinguishable(users: seq<User>, unknown: Credentials, known: Credentials,
                                      matches: (string, string) -> bool, sign: (string, map<string, string>) -> string)
    requires FindByUsername(users, unknown.username).None?
    requires FindByUsername(users, known.username).Some?
    requires !matches(known.password, FindByUsername(users, known.username).value.passwordHash)
    ensures Login(users, unknown, matches, sign) == Login(users, known, matches, sign)
  {
  }

  /** The auth controller and its users table. */
  class AuthController {
    var users: seq<User>

    ghost predicate Valid()
      reads this
    {
      UsersUnique(users)
    }

    constructor ()
      ensures Valid() && users == []
    {
      users := [];
    }

    /** POST /auth/register. `newId` is the fresh key the store generates for a new row. */
    method RegisterUser(req: Credentials, encode: string -> string, newId: Uuid) returns (response: HttpResponse)
      requires Valid()
      requires forall i :: 0 <= i < |users| ==> users[i].id != newId
      modifies this
      ensures Valid()
      ensures Registration(users, response) == Register(old(users), req, encode, newId)
    {
      if FindByUsername(users, req.username).Some? {
        return UsernameTaken;
      }
      var user := User(newId, req.username, encode(req.password), DefaultRole);
      users := users + [user];
      response := Registered;
    }
  }
}
