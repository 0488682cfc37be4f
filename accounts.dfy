/** The user table behind server/src/routes/auth.ts (register, login) and the
    admin create-user route of server/src/index.ts. Password hashing, password
    comparison and token signing are opaque functions handed in; a store that
    throws is the flag `storeUp == false`. */
module Accounts {
  import opened JsRuntime
  import opened Entities
  import opened AuthMiddleware

  /** A row of the user table; `phoneNo` is None when the creating route does not set it. */
  datatype User = User(id: int, name: string, email: string, passwordHash: string,
                       phoneNo: Option<string>, role: Role)

  /** The user object sent back to the client: the modelled columns except the
      password (the address, picture and creation date are not modelled). */
  datatype PublicUser = PublicUser(id: int, name: string, email: string, role: Role, phoneNo: Option<string>)

  datatype AuthReply =
    | Failure(code: nat, error: string)
    | Success(code: nat, token: string, payload: Claims, user: PublicUser)

  function Payload(u: User): (c: Claims)
    ensures c.userId == u.id && c.email == u.email && c.role == RoleName(u.role) && c.name == u.name
  {
    Claims(u.id, u.email, RoleName(u.role), u.name)
  }

  function Public(u: User): (p: PublicUser)
    ensures p.id == u.id && p.email == u.email && p.role == u.role && p.name == u.name && p.phoneNo == u.phoneNo
  {
    PublicUser(u.id, u.name, u.email, u.role, u.phoneNo)
  }

  /** A request field the route reads with `!x`: absent or empty is falsy. */
  predicate Missing(s: Option<string>)
  {
    s.None? || s.value == ""
  }

  /** `x || default` on an optional string. */
  function OrDefault(s: Option<string>, d: string): (r: string)
    ensures Missing(s) ==> r == d
    ensures !Missing(s) ==> r == s.value
  {
    if Missing(s) then d else s.value
  }

  /** The role a create request asks for, `role || 'CUSTOMER'`, as the store reads it:
      None when it names no role of the enumeration. */
  function RequestedRole(role: Option<string>): (r: Option<Role>)
    ensures Missing(role) ==> r == Some(CUSTOMER)
    ensures r.Some? && !Missing(role) ==> RoleName(r.value) == role.value
  {
    ParseRole(OrDefault(role, "CUSTOMER"))
  }

  /** Every row is filed under its own email and every id is below `nextId`. */
  ghost predicate WellFormed(users: map<string, User>, nextId: int)
  {
    nextId >= 1 &&
    forall e :: e in users ==> users[e].email == e && 1 <= users[e].id < nextId
  }

  /** The answer of `/register` against a table. */
  function RegisterReply(users: map<string, User>, nextId: int, storeUp: bool,
                         name: string, email: Option<string>, password: Option<string>,
                         phoneNo: Option<string>, role: Option<string>,
                         hash: string -> string, sign: Claims -> string): (r: AuthReply)
    ensures Missing(email) || Missing(password) ==> r == Failure(400, "Email and password are required")
    ensures !Missing(email) && !Missing(password) && storeUp && email.value in users ==>
              r == Failure(400, "User already exists")
    ensures !storeUp ==> r.Failure?
    ensures r.Success? <==>
              !Missing(email) && !Missing(password) && storeUp && email.value !in users && RequestedRole(role).Some?
    ensures !Missing(email) && !Missing(password) && !storeUp ==> r == Failure(500, "Registration failed")
    ensures !Missing(email) && !Missing(password) && storeUp && email.value !in users && RequestedRole(role).None? ==>
              r == Failure(500, "Registration failed")
    ensures r.Success? ==>
              !Missing(email) && !Missing(password) && storeUp && email.value !in users &&
              r.code == 201 && r.payload.userId == nextId && r.payload.email == email.value &&
              r.payload.name == name && Some(r.user.role) == RequestedRole(role) &&
              r.user.phoneNo == Some(OrDefault(phoneNo, "")) && r.token == sign(r.payload)
  {
    if Missing(email) || Missing(password) then Failure(400, "Email and password are required")
    else if !storeUp then Failure(500, "Registration failed")
    else if email.value in users then Failure(400, "User already exists")
    else match RequestedRole(role)
      case None => Failure(500, "Registration failed")
      case Some(rl) =>
        var u := User(nextId, name, email.value, hash(password.value), Some(OrDefault(phoneNo, "")), rl);
        Success(201, sign(Payload(u)), Payload(u), Public(u))
  }

  /** The answer of `/login` against a table; `matches(password, hash)` is the password check. */
  function LoginReply(users: map<string, User>, storeUp: bool, email: string, password: string,
                      matches: (string, string) -> bool, sign: Claims -> string): (r: AuthReply)
    ensures r.Success? <==> storeUp && email in users && matches(password, users[email].passwordHash)
    ensures r.Success? ==> r.code == 200 && r.payload == Payload(users[email]) &&
                           r.user == Public(users[email]) && r.token == sign(r.payload)
    ensures storeUp && email !in users ==> r == Failure(401, "Invalid credentials")
    ensures storeUp && email in users && !matches(password, users[email].passwordHash) ==>
              r == Failure(401, "Invalid credentials")
    ensures !storeUp ==> r == Failure(500, "Login failed")
  {
    if !storeUp then Failure(500, "Login failed")
    else if email !in users then Failure(401, "Invalid credentials")
    else if !matches(password, users[email].passwordHash) then Failure(401, "Invalid credentials")
    else Success(200, sign(Payload(users[email])), Payload(users[email]), Public(users[email]))
  }

  /** An unknown email and a wrong password are indistinguishable to the caller. */
  lemma UnknownEmailLooksLikeWrongPassword(users: map<string, User>, unknown: string, known: string,
                                           password: string, matches: (string, string) -> bool,
                                           sign: Claims -> string)
    requires unknown !in users && known in users && !matches(password, users[known].passwordHash)
    ensures LoginReply(users, true, unknown, password, matches, sign)
         == LoginReply(users, true, known, password, matches, sign)
  {
  }

  /** The answer of the admin `POST /api/users` route after authentication.
      A duplicate email is the store's unique-constraint error (400); a role
      outside the enumeration is a validation error (500). */
  function CreateUserReply(users: map<string, User>, nextId: int, storeUp: bool, caller: Option<Claims>,
                           name: string, email: Option<string>, password: Option<string>,
                           role: Option<string>): (r: Reply)
    ensures !RequireAdmin(caller).Next? ==> r == Reply(403, "Access denied. Admins only.")
    ensures RequireAdmin(caller).Next? && (Missing(email) || Missing(password)) ==>
              r == Reply(400, "Email and password are required")
    ensures r.code == 201 <==>
              RequireAdmin(caller).Next? && !Missing(email) && !Missing(password) && storeUp &&
              RequestedRole(role).Some? && email.value !in users
    ensures r.code == 400 && r.error == "Email already exists" ==> email.Some? && email.value in users
    ensures RequireAdmin(caller).Next? && !Missing(email) && !Missing(password) && storeUp &&
            RequestedRole(role).Some? && email.value in users ==>
              r == Reply(400, "Email already exists")
    ensures RequireAdmin(caller).Next? && !Missing(email) && !Missing(password) &&
            (!storeUp || RequestedRole(role).None?) ==>
              r == Reply(500, "Failed to create user")
  {
    if !RequireAdmin(caller).Next? then Reply(403, "Access denied. Admins only.")
    else if Missing(email) || Missing(password) then Reply(400, "Email and password are required")
    else if !storeUp || RequestedRole(role).None? then Reply(500, "Failed to create user")
    else if email.value in users then Reply(400, "Email already exists")
    else Reply(201, "")
  }

  class UserTable {
    var users: map<string, User>
    var nextId: int

    ghost predicate Valid()
      reads this
    {
      WellFormed(users, nextId)
    }

    constructor ()
      ensures Valid() && users == map[]
    {
      users := map[];
      nextId := 1;
    }

    /** `POST /register`. */
    method Register(storeUp: bool, name: string, email: Option<string>, password: Option<string>,
                    phoneNo: Option<string>, role: Option<string>,
                    hash: string -> string, sign: Claims -> string) returns (reply: AuthReply)
      requires Valid()
      modifies this
      ensures Valid()
      ensures reply == RegisterReply(old(users), old(nextId), storeUp, name, email, password, phoneNo, role, hash, sign)
      ensures reply.Failure? ==> users == old(users)
      ensures reply.Success? ==>
                users == old(users)[email.value := User(old(nextId), name, email.value, hash(password.value),
                                                        Some(OrDefault(phoneNo, "")), reply.user.role)]
    {
      if Missing(email) || Missing(password) {
        return Failure(400, "Email and password are required");
      }
      if !storeUp {
        return Failure(500, "Registration failed");
      }
      if email.value in users {
        return Failure(400, "User already exists");
      }
      var rl := RequestedRole(role);
      if rl.None? {
        return Failure(500, "Registration failed");
      }
      var u := User(nextId, name, email.value, hash(password.value), Some(OrDefault(phoneNo, "")), rl.value);
      users := users[email.value := u];
      nextId := nextId + 1;
      reply := Success(201, sign(Payload(u)), Payload(u), Public(u));
    }

    /** `POST /login`: reads the table only. */
    method Login(storeUp: bool, email: string, password: string,
                 matches: (string, string) -> bool, sign: Claims -> string) returns (reply: AuthReply)
      ensures reply == LoginReply(users, storeUp, email, password, matches, sign)
    {
      reply := LoginReply(users, storeUp, email, password, matches, sign);
    }

    /** Admin `POST /api/users`: the same row shape, without a phone number. */
    method CreateUser(storeUp: bool, caller: Option<Claims>, name: string, email: Option<string>,
                      password: Option<string>, role: Option<string>, hash: string -> string)
      returns (reply: Reply)
      requires Valid()
      modifies this
      ensures Valid()
      ensures reply == CreateUserReply(old(users), old(nextId), storeUp, caller, name, email, password, role)
      ensures reply.code != 201 ==> users == old(users)
      ensures reply.code == 201 ==>
                users == old(users)[email.value := User(old(nextId), name, email.value, hash(password.value),
                                                        None, RequestedRole(role).value)]
    {
      if !RequireAdmin(caller).Next? {
        return Reply(403, "Access denied. Admins only.");
      }
      if Missing(email) || Missing(password) {
        return Reply(400, "Email and password are required");
      }
      var rl := RequestedRole(role);
      if !storeUp || rl.None? {
        return Reply(500, "Failed to create user");
      }
      if email.value in users {
        return Reply(400, "Email already exists");
      }
      users := users[email.value := User(nextId, name, email.value, hash(password.value), None, rl.value)];
      nextId := nextId + 1;
      reply := Reply(201, "");
    }
  }

  /** A freshly registered account can log in with the password it registered,
      and the login issues the same token payload and user object. */
  lemma {:induction false} RegisterThenLogin(users: map<string, User>, nextId: int,
                                             name: string, email: string, password: string,
                                             phoneNo: Option<string>, role: Option<string>,
                                             hash: string -> string, matches: (string, string) -> bool,
                                             sign: Claims -> string)
    requires matches(password, hash(password))
    requires RegisterReply(users, nextId, true, name, Some(email), Some(password), phoneNo, role, hash, sign).Success?
    ensures var reg := RegisterReply(users, nextId, true, name, Some(email), Some(password), phoneNo, role, hash, sign);
            var after := users[email := User(nextId, name, email, hash(password), Some(OrDefault(phoneNo, "")), reg.user.role)];
            var log := LoginReply(after, true, email, password, matches, sign);
            log.Success? && log.payload == reg.payload && log.user == reg.user && log.token == reg.token
  {
    var rl := RequestedRole(role);
    assert rl.Some?;
    var reg := RegisterReply(users, nextId, true, name, Some(email), Some(password), phoneNo, role, hash, sign);
    assert reg.user.role == rl.value;
  }
}
