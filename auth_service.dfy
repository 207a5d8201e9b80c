/** The authentication service (backend/app/services/auth_service.py): the
    login decision, the token checks and the demo administrator.  bcrypt and
    JWT are oracles: `hash` makes a password hash, `verify(plain, hashed)`
    checks one, and `decode` yields a token's payload or nothing when the
    token does not verify. */
module AuthService {
  import opened Common
  import opened Models
  import opened Database
  import Seqs
  import AuthSchemas
  import UserService
  import PrintJobService

  /** `authenticate_user`: the first user with the name; an LDAP user is
      let in whatever the password; a local user needs a stored hash that
      the password verifies against. */
  function AuthenticateUser(db: Db, username: string, password: string, verify: (string, string) -> bool): (r: Option<User>)
    ensures UserService.UserNamed(db.users, username).None? ==> r == None
    ensures UserService.UserNamed(db.users, username).Some? ==>
              var u := db.users[UserService.UserNamed(db.users, username).value];
              r == if u.isLdapUser || (UserService.IsSet(u.hashedPassword) && verify(password, u.hashedPassword.value))
                   then Some(u) else None
    ensures r.Some? ==> r.value in db.users && r.value.username == username
  {
    match UserService.UserNamed(db.users, username)
    case None => None
    case Some(i) =>
      var u := db.users[i];
      if u.isLdapUser then Some(u)
      else if !UserService.IsSet(u.hashedPassword) then None
      else if !verify(password, u.hashedPassword.value) then None
      else Some(u)
  }

  /** An LDAP user is authenticated by any password at all. */
  lemma LdapUserAnyPassword(db: Db, username: string, p: string, q: string, verify: (string, string) -> bool)
    requires UserService.UserNamed(db.users, username).Some?
    requires db.users[UserService.UserNamed(db.users, username).value].isLdapUser
    ensures AuthenticateUser(db, username, p, verify) == AuthenticateUser(db, username, q, verify)
    ensures AuthenticateUser(db, username, p, verify).Some?
  {
  }

  /** A local user created with a password logs in with that password when
      the hash check accepts its own hashes. */
  lemma CreatedUserLogsIn(db: Db, u: AuthSchemas.UserCreate, companyId: nat, now: int,
                          hash: string -> string, verify: (string, string) -> bool)
    requires UserService.CreateUserStep(db, u, companyId, now, hash).Ok?
    requires UserService.IsSet(u.password) && !UserService.IsSet(u.ldapDn)
    requires verify(u.password.value, hash(u.password.value))
    requires hash(u.password.value) != ""
    ensures var st := UserService.CreateUserStep(db, u, companyId, now, hash).value;
      AuthenticateUser(st.db, u.username, u.password.value, verify) == Some(st.value)
  {
    var st := UserService.CreateUserStep(db, u, companyId, now, hash).value;
    Seqs.FindFirstAppend(db.users, st.value, (x: User) => x.username == u.username);
  }

  const InvalidCredentials := Http(401, "Invalid authentication credentials")
  const UnknownUser := Http(401, "User not found")

  /** `verify_token`: a payload that decodes and whose `sub` is not `None`. */
  function VerifyToken(token: string, decode: string -> Option<map<string, Value>>): (r: Result<map<string, Value>, ServiceError>)
    ensures decode(token).None? ==> r == Err(InvalidCredentials)
    ensures decode(token).Some? && Get(decode(token).value, "sub", Null) == Null ==> r == Err(InvalidCredentials)
    ensures r.Ok? <==> decode(token).Some? && Get(decode(token).value, "sub", Null) != Null
    ensures r.Ok? ==> r.value == decode(token).value && "sub" in r.value
  {
    match decode(token)
    case None => Err(InvalidCredentials)
    case Some(payload) =>
      if Get(payload, "sub", Null) == Null then Err(InvalidCredentials) else Ok(payload)
  }

  /** `get_current_user`: the first user named by the token's subject.  A
      subject that is not a string names no user. */
  function CurrentUser(db: Db, token: string, decode: string -> Option<map<string, Value>>): (r: Result<User, ServiceError>)
    ensures VerifyToken(token, decode).Err? ==> r == Err(InvalidCredentials)
    ensures r.Err? ==> r.error in {InvalidCredentials, UnknownUser}
    ensures r.Ok? ==> var payload := decode(token).value;
      && "sub" in payload && payload["sub"] == Str(r.value.username)
      && r.value in db.users
      && UserService.UserNamed(db.users, r.value.username).Some?
      && r.value == db.users[UserService.UserNamed(db.users, r.value.username).value]
    ensures VerifyToken(token, decode).Ok? ==> var sub := decode(token).value["sub"];
      (r.Err? <==> !sub.Str? || UserService.UserNamed(db.users, sub.s).None?)
  {
    match VerifyToken(token, decode)
    case Err(e) => Err(e)
    case Ok(payload) =>
      var sub := payload["sub"];
      if !sub.Str? then Err(UnknownUser)
      else match UserService.UserNamed(db.users, sub.s)
        case Some(i) => Ok(db.users[i])
        case None => Err(UnknownUser)
  }

  /** The administrator `create_demo_users` adds. */
  function DemoAdmin(id: nat, now: int, companyId: nat, hash: string -> string): (u: User)
    ensures u.username == "admin" && u.role == Some("admin") && u.isActive == Some(true) && !u.isLdapUser
    ensures u.email == Some("admin@acme.com") && u.fullName == Some("Administrator")
    ensures u.hashedPassword == Some(hash("admin123")) && u.companyId == companyId
  {
    NewUser(id, now, "admin", companyId).(email := Some("admin@acme.com"), fullName := Some("Administrator"),
                                          hashedPassword := Some(hash("admin123")), role := Some("admin"))
  }

  /** What `create_demo_users` adds: an administrator in the first company,
      unless a user named "admin" exists or there is no company. */
  function DemoUsersStep(db: Db, now: int, hash: string -> string): (r: Result<Step<Option<User>>, ServiceError>)
    ensures UserService.UserNamed(db.users, "admin").Some? || |db.companies| == 0 ==> r == Ok(Step(db, None))
    ensures UserService.UserNamed(db.users, "admin").None? && |db.companies| > 0 ==>
              var admin := DemoAdmin(db.nextId, now, db.companies[0].id, hash);
              r == Flush(PrintJobService.WithUser(db, admin), Some(admin))
    ensures r.Err? ==> r.error == IntegrityError
    ensures r.Ok? ==> r.value.db.jobs == db.jobs && r.value.db.companies == db.companies
  {
    if UserService.UserNamed(db.users, "admin").Some? || |db.companies| == 0 then Ok(Step(db, None))
    else
      var admin := DemoAdmin(db.nextId, now, db.companies[0].id, hash);
      Flush(PrintJobService.WithUser(db, admin), Some(admin))
  }

  /** A second call adds nothing. */
  lemma DemoUsersIdempotent(db: Db, now: int, later: int, hash: string -> string)
    requires DemoUsersStep(db, now, hash).Ok?
    ensures var st := DemoUsersStep(db, now, hash).value;
      DemoUsersStep(st.db, later, hash) == Ok(Step(st.db, None))
  {
    var st := DemoUsersStep(db, now, hash).value;
    if st.value.Some? {
      Seqs.FindFirstAppend(db.users, st.value.value, (x: User) => x.username == "admin");
    }
  }

  /** The demo administrator can log in with "admin123" when the hash check
      accepts its own hashes. */
  lemma DemoAdminLogsIn(db: Db, now: int, hash: string -> string, verify: (string, string) -> bool)
    requires DemoUsersStep(db, now, hash).Ok? && DemoUsersStep(db, now, hash).value.value.Some?
    requires verify("admin123", hash("admin123")) && hash("admin123") != ""
    ensures var st := DemoUsersStep(db, now, hash).value;
      AuthenticateUser(st.db, "admin", "admin123", verify) == st.value
  {
    var st := DemoUsersStep(db, now, hash).value;
    Seqs.FindFirstAppend(db.users, st.value.value, (x: User) => x.username == "admin");
  }

  class AuthService {
    const db: Session

    constructor (db: Session)
      ensures this.db == db
    {
      this.db := db;
    }

    /** `create_demo_users`, committed when it adds the administrator. */
    method CreateDemoUsers(now: int, hash: string -> string) returns (r: Result<Option<User>, ServiceError>)
      requires db.Valid()
      modifies db
      ensures db.Valid()
      ensures r == Answer(old(db.state), DemoUsersStep(old(db.state).work, now, hash))
      ensures db.state == if r.Ok? && r.value.Some? then Committed(Run(old(db.state), DemoUsersStep(old(db.state).work, now, hash)))
                          else Run(old(db.state), DemoUsersStep(old(db.state).work, now, hash))
    {
      if db.state.broken {
        return Err(PendingRollback);
      }
      var work := db.state.work;
      if UserService.UserNamed(work.users, "admin").Some? || |work.companies| == 0 {
        return Ok(None);
      }
      var admin := DemoAdmin(work.nextId, now, work.companies[0].id, hash);
      var next := PrintJobService.WithUser(work, admin);
      assert next.jobs == work.jobs;
      var ok := db.Flush(next);
      if !ok {
        return Err(IntegrityError);
      }
      ok := db.Commit();
      return Ok(Some(admin));
    }
  }
}
