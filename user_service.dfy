/** The user management service (backend/app/services/user_service.py): the
    filtered user listing, creation with its uniqueness and company checks,
    the field-by-field update, the soft delete, the password reset and the
    per-user printing statistics.  The session is a `Database.Session`, the
    password hash the oracle `hash` and the clock the parameter `now`. */
module UserService {
  import opened Common
  import opened Models
  import opened Database
  import opened AuthSchemas
  import Text
  import Like
  import Seqs
  import Sorting
  import PrintJobService

  // Lookups, each the `.first()` of its query.

  function UserWithId(us: seq<User>, id: nat): Option<nat>
  {
    Seqs.FindFirst(us, (u: User) => u.id == id)
  }

  function UserNamed(us: seq<User>, username: string): Option<nat>
  {
    Seqs.FindFirst(us, (u: User) => u.username == username)
  }

  function UserWithEmail(us: seq<User>, email: string): Option<nat>
  {
    Seqs.FindFirst(us, (u: User) => u.email == Some(email))
  }

  function OtherUserWithEmail(us: seq<User>, email: string, id: nat): Option<nat>
  {
    Seqs.FindFirst(us, (u: User) => u.email == Some(email) && u.id != id)
  }

  function CompanyWithId(cs: seq<Company>, id: nat): Option<nat>
  {
    Seqs.FindFirst(cs, (c: Company) => c.id == id)
  }

  /** A string that Python finds true: present and non-empty. */
  predicate IsSet(s: Option<string>) { s.Some? && s.value != "" }

  /** Primary keys: no two users share an id. */
  predicate UserIdsDistinct(us: seq<User>)
  {
    forall i, j :: 0 <= i < j < |us| ==> us[i].id != us[j].id
  }

  const UsernameExists := Http(400, "Username already exists")
  const EmailExists := Http(400, "Email already exists")
  const InvalidCompany := Http(400, "Invalid company ID")
  const UserNotFound := Http(404, "User not found")
  const LdapUserPassword := Http(400, "Cannot reset password for LDAP users")

  // get_users

  /** The optional filters of `get_users`. */
  datatype UserQuery = UserQuery(
    search: Option<string>, role: Option<string>, isActive: Option<bool>,
    isLdapUser: Option<bool>, companyId: Option<int>)

  const AllUsers := UserQuery(None, None, None, None, None)

  /** `column.ilike(f"%{t}%")` on a nullable column: NULL matches nothing. */
  predicate NullableILike(column: Option<string>, t: string)
  {
    column.Some? && Like.ILikeContains(column.value, t)
  }

  /** A user satisfies every filter that is set.  `search`, `role` and
      `company_id` apply only when truthy; the booleans whenever they are
      not `None`, and a NULL column equals nothing. */
  predicate UserMatches(u: User, q: UserQuery)
  {
    && (IsSet(q.search) ==>
          Like.ILikeContains(u.username, q.search.value)
          || NullableILike(u.email, q.search.value)
          || NullableILike(u.fullName, q.search.value))
    && (IsSet(q.role) ==> u.role == q.role)
    && (q.isActive.Some? ==> u.isActive == q.isActive)
    && (q.isLdapUser.Some? ==> u.isLdapUser == q.isLdapUser.value)
    && (q.companyId.Some? && q.companyId.value != 0 ==> u.companyId == q.companyId.value)
  }

  function MatchingUsers(db: Db, q: UserQuery): seq<User>
  {
    Seqs.Filter(db.users, (u: User) => UserMatches(u, q))
  }

  /** `ORDER BY username`. */
  predicate ByUsername(a: User, b: User) { Text.LexLe(a.username, b.username) }

  lemma ByUsernameIsTotalPreorder()
    ensures Sorting.TotalPreorder(ByUsername)
  {
    forall a: User, b: User ensures ByUsername(a, b) || ByUsername(b, a) {
      Text.LexLeTotal(a.username, b.username);
    }
    forall a: User, b: User, c: User | ByUsername(a, b) && ByUsername(b, c) ensures ByUsername(a, c) {
      Text.LexLeTransitive(a.username, b.username, c.username);
    }
  }

  /** All matching users, by username. */
  function OrderedUsers(db: Db, q: UserQuery): (r: seq<User>)
    ensures multiset(r) == multiset(MatchingUsers(db, q))
    ensures Sorting.Sorted(r, ByUsername)
  {
    ByUsernameIsTotalPreorder();
    Sorting.Sort(MatchingUsers(db, q), ByUsername)
  }

  /** `get_users(skip, limit, ...)`. */
  function Users(db: Db, skip: int := 0, limit: int := 100, q: UserQuery := AllUsers): (r: seq<User>)
    ensures forall x :: x in r ==> x in db.users && UserMatches(x, q)
    ensures Sorting.Sorted(r, ByUsername)
    ensures limit >= 0 ==> |r| <= limit
    ensures r == Seqs.Page(OrderedUsers(db, q), skip, limit)
  {
    var all := OrderedUsers(db, q);
    Seqs.PageOfSorted(all, skip, limit, ByUsername);
    OrderedUsersMatch(db, q);
    Seqs.Page(all, skip, limit)
  }

  /** Ordering keeps exactly the stored users that match. */
  lemma OrderedUsersMatch(db: Db, q: UserQuery)
    ensures forall x :: x in OrderedUsers(db, q) ==> x in db.users && UserMatches(x, q)
  {
    forall x | x in OrderedUsers(db, q) ensures x in db.users && UserMatches(x, q) {
      assert x in multiset(OrderedUsers(db, q));
      assert x in multiset(MatchingUsers(db, q));
    }
  }

  /** Without a limit or an offset every matching user is listed. */
  lemma UsersComplete(db: Db, q: UserQuery, x: User)
    requires x in db.users && UserMatches(x, q)
    ensures x in Users(db, 0, -1, q)
  {
    var m := MatchingUsers(db, q);
    assert x in multiset(m);
    assert x in multiset(OrderedUsers(db, q));
  }

  /** A wildcard-free search is a case-insensitive substring test on the
      username, the e-mail or the full name. */
  lemma UserSearchIsSubstring(db: Db, skip: int, limit: int, q: UserQuery, x: User)
    requires IsSet(q.search) && Like.NoWildcards(q.search.value)
    requires x in Users(db, skip, limit, q)
    ensures var t := Text.Lower(q.search.value);
      || Text.Contains(Text.Lower(x.username), t)
      || (x.email.Some? && Text.Contains(Text.Lower(x.email.value), t))
      || (x.fullName.Some? && Text.Contains(Text.Lower(x.fullName.value), t))
  {
    Like.ILikeIsContains(x.username, q.search.value);
    if x.email.Some? {
      Like.ILikeIsContains(x.email.value, q.search.value);
    }
    if x.fullName.Some? {
      Like.ILikeIsContains(x.fullName.value, q.search.value);
    }
  }

  // create_user

  /** The row `create_user` adds: the body's fields, the LDAP flag set by a
      non-empty `ldap_dn`, and a hash only for a local user with a
      password. */
  function CreatedUser(id: nat, now: int, u: UserCreate, companyId: nat, hash: string -> string): (r: User)
    ensures r.id == id && r.createdAt == now && r.updatedAt == now
    ensures r.username == u.username && r.email == u.email && r.fullName == u.fullName
    ensures r.role == Some(RoleName(u.role)) && r.isActive == Some(u.isActive)
    ensures r.ldapDn == u.ldapDn && r.companyId == companyId && r.lastLogin == None
    ensures r.isLdapUser <==> IsSet(u.ldapDn)
    ensures r.hashedPassword.Some? <==> IsSet(u.password) && !IsSet(u.ldapDn)
    ensures r.hashedPassword.Some? ==> r.hashedPassword.value == hash(u.password.value)
  {
    User(id, now, now, u.username, u.email, u.fullName,
         if IsSet(u.password) && !IsSet(u.ldapDn) then Some(hash(u.password.value)) else None,
         Some(RoleName(u.role)), Some(u.isActive), IsSet(u.ldapDn), u.ldapDn, None, companyId)
  }

  /** What `create_user` adds to the open transaction. */
  function CreateUserStep(db: Db, u: UserCreate, companyId: nat, now: int, hash: string -> string): (r: Result<Step<User>, ServiceError>)
    ensures UserNamed(db.users, u.username).Some? ==> r == Err(UsernameExists)
    ensures UserNamed(db.users, u.username).None? && IsSet(u.email) && UserWithEmail(db.users, u.email.value).Some? ==>
              r == Err(EmailExists)
    ensures (UserNamed(db.users, u.username).None? && !(IsSet(u.email) && UserWithEmail(db.users, u.email.value).Some?)
             && CompanyWithId(db.companies, companyId).None?) ==> r == Err(InvalidCompany)
    ensures r.Err? ==> r.error in {UsernameExists, EmailExists, InvalidCompany, IntegrityError}
    ensures r.Ok? ==> r.value.value == CreatedUser(db.nextId, now, u, companyId, hash)
                      && r.value.db == PrintJobService.WithUser(db, r.value.value)
    ensures r.Ok? ==> CompanyWithId(db.companies, companyId).Some?
  {
    if UserNamed(db.users, u.username).Some? then Err(UsernameExists)
    else if IsSet(u.email) && UserWithEmail(db.users, u.email.value).Some? then Err(EmailExists)
    else if CompanyWithId(db.companies, companyId).None? then Err(InvalidCompany)
    else
      var row := CreatedUser(db.nextId, now, u, companyId, hash);
      Flush(PrintJobService.WithUser(db, row), row)
  }

  /** The three checks are the only reasons `create_user` fails, short of a
      second user with an empty e-mail. */
  lemma CreateUserChecksSuffice(db: Db, u: UserCreate, companyId: nat, now: int, hash: string -> string)
    requires Constraints(db)
    requires UserNamed(db.users, u.username).None?
    requires u.email.Some? ==> UserWithEmail(db.users, u.email.value).None?
    requires CompanyWithId(db.companies, companyId).Some?
    ensures CreateUserStep(db, u, companyId, now, hash).Ok?
  {
    var row := CreatedUser(db.nextId, now, u, companyId, hash);
    AppendUserUnique(db.users, row);
  }

  /** A local user created with a password is authenticated by that
      password under any hash whose check accepts it. */
  lemma CreatedUserHasHash(db: Db, u: UserCreate, companyId: nat, now: int, hash: string -> string)
    requires CreateUserStep(db, u, companyId, now, hash).Ok?
    requires IsSet(u.password) && !IsSet(u.ldapDn)
    ensures var row := CreateUserStep(db, u, companyId, now, hash).value.value;
      !row.isLdapUser && row.hashedPassword == Some(hash(u.password.value))
  {
  }

  // update_user

  /** One attribute `setattr` assigns. */
  datatype UserField =
    | EmailField(email: Option<string>)
    | FullNameField(fullName: Option<string>)
    | RoleField(role: Option<UserRole>)
    | IsActiveField(isActive: Option<bool>)

  /** The value of a field that was sent: `null` is `None`. */
  function SentValue<T>(i: Input<T>): Option<T>
  {
    if i.Given? then Some(i.value) else None
  }

  /** `user_update.dict(exclude_unset=True).items()`: the fields that were
      sent, in declaration order. */
  function SetFields(upd: UserUpdate): (fs: seq<UserField>)
    ensures |fs| <= 4
  {
    EmailRun(upd) + FullNameRun(upd) + RoleRun(upd) + IsActiveRun(upd)
  }

  /** `setattr(user, field, value)`; a role is stored by its name. */
  function SetAttr(u: User, f: UserField): User
  {
    match f
    case EmailField(e) => u.(email := e)
    case FullNameField(n) => u.(fullName := n)
    case RoleField(r) => u.(role := if r.Some? then Some(RoleName(r.value)) else None)
    case IsActiveField(a) => u.(isActive := a)
  }

  /** The loop over `fs`, in order. */
  function SetAll(u: User, fs: seq<UserField>): User
    decreases |fs|
  {
    if |fs| == 0 then u else SetAttr(SetAll(u, fs[..|fs| - 1]), fs[|fs| - 1])
  }

  /** What an update means, field by field: a sent field takes the sent
      value, an unsent one keeps its old value. */
  function Updated(u: User, upd: UserUpdate): (r: User)
    ensures r.email == if upd.email.Omitted? then u.email else SentValue(upd.email)
    ensures r.fullName == if upd.fullName.Omitted? then u.fullName else SentValue(upd.fullName)
    ensures r.role == if upd.role.Omitted? then u.role
                      else if upd.role.Given? then Some(RoleName(upd.role.value)) else None
    ensures r.isActive == if upd.isActive.Omitted? then u.isActive else SentValue(upd.isActive)
    ensures r.(email := u.email, fullName := u.fullName, role := u.role, isActive := u.isActive) == u
  {
    u.(email := if upd.email.Omitted? then u.email else SentValue(upd.email),
       fullName := if upd.fullName.Omitted? then u.fullName else SentValue(upd.fullName),
       role := if upd.role.Omitted? then u.role
               else if upd.role.Given? then Some(RoleName(upd.role.value)) else None,
       isActive := if upd.isActive.Omitted? then u.isActive else SentValue(upd.isActive))
  }

  lemma SetAllAppend(u: User, fs: seq<UserField>, f: UserField)
    ensures SetAll(u, fs + [f]) == SetAttr(SetAll(u, fs), f)
  {
    assert (fs + [f])[..|fs|] == fs;
  }

  /** The loop over two runs of fields is the loop over the first, then
      over the second. */
  lemma {:induction false} SetAllConcat(u: User, a: seq<UserField>, b: seq<UserField>)
    ensures SetAll(u, a + b) == SetAll(SetAll(u, a), b)
    decreases |b|
  {
    if |b| == 0 {
      assert a + b == a;
    } else {
      var init := b[..|b| - 1];
      SetAllConcat(u, a, init);
      assert a + b == (a + init) + [b[|b| - 1]];
      SetAllAppend(u, a + init, b[|b| - 1]);
      assert b == init + [b[|b| - 1]];
      SetAllAppend(SetAll(u, a), init, b[|b| - 1]);
    }
  }

  lemma SetAllOne(u: User, f: UserField)
    ensures SetAll(u, [f]) == SetAttr(u, f)
  {
    SetAllAppend(u, [], f);
    assert [] + [f] == [f];
  }

  /** A run of at most one field sets that field, or nothing. */
  lemma SetAllAtMostOne(u: User, fs: seq<UserField>)
    requires |fs| <= 1
    ensures SetAll(u, fs) == if fs == [] then u else SetAttr(u, fs[0])
  {
    if fs != [] { SetAllOne(u, fs[0]); }
  }

  /** The four runs of `SetFields`, one per field of the update. */
  function EmailRun(upd: UserUpdate): seq<UserField>
  {
    if upd.email.Omitted? then [] else [EmailField(SentValue(upd.email))]
  }

  function FullNameRun(upd: UserUpdate): seq<UserField>
  {
    if upd.fullName.Omitted? then [] else [FullNameField(SentValue(upd.fullName))]
  }

  function RoleRun(upd: UserUpdate): seq<UserField>
  {
    if upd.role.Omitted? then [] else [RoleField(SentValue(upd.role))]
  }

  function IsActiveRun(upd: UserUpdate): seq<UserField>
  {
    if upd.isActive.Omitted? then [] else [IsActiveField(SentValue(upd.isActive))]
  }

  /** The loop over all sent fields is the loop over each run in turn. */
  lemma SetAllRuns(u: User, upd: UserUpdate)
    ensures SetAll(u, SetFields(upd))
         == SetAll(SetAll(SetAll(SetAll(u, EmailRun(upd)), FullNameRun(upd)), RoleRun(upd)), IsActiveRun(upd))
  {
    var e, n, r, a := EmailRun(upd), FullNameRun(upd), RoleRun(upd), IsActiveRun(upd);
    assert SetFields(upd) == e + n + r + a;
    SetAllConcat(u, e + n + r, a);
    SetAllConcat(u, e + n, r);
    SetAllConcat(u, e, n);
  }

  /** The update of one field on its own. */
  function WithEmail(u: User, upd: UserUpdate): User
  {
    if upd.email.Omitted? then u else u.(email := SentValue(upd.email))
  }

  function WithFullName(u: User, upd: UserUpdate): User
  {
    if upd.fullName.Omitted? then u else u.(fullName := SentValue(upd.fullName))
  }

  function WithRole(u: User, upd: UserUpdate): User
  {
    if upd.role.Omitted? then u
    else u.(role := if upd.role.Given? then Some(RoleName(upd.role.value)) else None)
  }

  function WithIsActive(u: User, upd: UserUpdate): User
  {
    if upd.isActive.Omitted? then u else u.(isActive := SentValue(upd.isActive))
  }

  /** Updating the four fields one after the other is the update. */
  lemma FieldByFieldIsUpdated(u: User, upd: UserUpdate)
    ensures WithIsActive(WithRole(WithFullName(WithEmail(u, upd), upd), upd), upd) == Updated(u, upd)
  {
    var w := Updated(u, upd);
    var v := WithIsActive(WithRole(WithFullName(WithEmail(u, upd), upd), upd), upd);
    assert v.email == w.email && v.fullName == w.fullName;
    assert v.role == w.role && v.isActive == w.isActive;
  }

  /** Each field is set at most once, so the `setattr` loop computes the
      field-by-field update. */
  lemma SetAllIsUpdated(u: User, upd: UserUpdate)
    ensures SetAll(u, SetFields(upd)) == Updated(u, upd)
  {
    SetAllRuns(u, upd);
    var u1 := SetAll(u, EmailRun(upd));
    var u2 := SetAll(u1, FullNameRun(upd));
    var u3 := SetAll(u2, RoleRun(upd));
    SetAllAtMostOne(u, EmailRun(upd));
    assert u1 == WithEmail(u, upd);
    SetAllAtMostOne(u1, FullNameRun(upd));
    assert u2 == WithFullName(u1, upd);
    SetAllAtMostOne(u2, RoleRun(upd));
    assert u3 == WithRole(u2, upd);
    SetAllAtMostOne(u3, IsActiveRun(upd));
    assert SetAll(u3, IsActiveRun(upd)) == WithIsActive(u3, upd);
    FieldByFieldIsUpdated(u, upd);
  }

  /** Whether the update's e-mail is refused: a non-empty new address that
      another user already holds. */
  predicate EmailClash(us: seq<User>, user: User, userId: nat, upd: UserUpdate)
  {
    && upd.email.Given? && upd.email.value != "" && Some(upd.email.value) != user.email
    && OtherUserWithEmail(us, upd.email.value, userId).Some?
  }

  /** What `update_user` does to the open transaction. */
  function UpdateUserStep(db: Db, userId: nat, upd: UserUpdate, now: int): (r: Result<Step<User>, ServiceError>)
    ensures UserWithId(db.users, userId).None? ==> r == Err(UserNotFound)
    ensures UserWithId(db.users, userId).Some? && EmailClash(db.users, db.users[UserWithId(db.users, userId).value], userId, upd) ==>
              r == Err(EmailExists)
    ensures r.Err? ==> r.error in {UserNotFound, EmailExists, IntegrityError}
    ensures r.Ok? ==> var i := UserWithId(db.users, userId).value;
      && r.value.value == Updated(db.users[i], upd).(updatedAt := now)
      && r.value.db == db.(users := db.users[i := r.value.value])
  {
    match UserWithId(db.users, userId)
    case None => Err(UserNotFound)
    case Some(i) =>
      if EmailClash(db.users, db.users[i], userId, upd) then Err(EmailExists)
      else
        var row := Updated(db.users[i], upd).(updatedAt := now);
        Flush(db.(users := db.users[i := row]), row)
  }

  /** Replacing one user by a row with the same username and an e-mail no
      other user holds keeps the constraints. */
  lemma ReplaceUserKeepsConstraints(db: Db, i: nat, row: User)
    requires Constraints(db) && i < |db.users|
    requires row.username == db.users[i].username
    requires row.email.Some? ==> forall k :: 0 <= k < |db.users| && k != i ==> db.users[k].email != row.email
    ensures Constraints(db.(users := db.users[i := row]))
  {
    var t := db.users[i := row];
    forall a, b | 0 <= a < b < |t| && t[a].email.Some? ensures t[a].email != t[b].email {
      if a != i && b != i {
        assert t[a] == db.users[a] && t[b] == db.users[b];
      }
    }
  }

  /** An update whose e-mail passes the check never violates a constraint
      when it adds no empty address. */
  lemma UpdateUserChecksSuffice(db: Db, userId: nat, upd: UserUpdate, now: int)
    requires Constraints(db) && UserIdsDistinct(db.users)
    requires UserWithId(db.users, userId).Some?
    requires !EmailClash(db.users, db.users[UserWithId(db.users, userId).value], userId, upd)
    requires upd.email.Given? ==> upd.email.value != ""
    ensures UpdateUserStep(db, userId, upd, now).Ok?
  {
    var i := UserWithId(db.users, userId).value;
    var row := Updated(db.users[i], upd).(updatedAt := now);
    if row.email.Some? && row.email != db.users[i].email {
      forall k | 0 <= k < |db.users| && k != i ensures db.users[k].email != row.email {
        assert db.users[k].id != userId;
      }
    }
    ReplaceUserKeepsConstraints(db, i, row);
  }

  // delete_user and reset_password

  /** What `delete_user` does: the user stays, deactivated. */
  function DeleteUserStep(db: Db, userId: nat, now: int): (r: Result<Step<bool>, ServiceError>)
    requires Constraints(db)
    ensures UserWithId(db.users, userId).None? <==> r == Err(UserNotFound)
    ensures UserWithId(db.users, userId).Some? ==> var i := UserWithId(db.users, userId).value;
      r == Ok(Step(db.(users := db.users[i := db.users[i].(isActive := Some(false), updatedAt := now)]), true))
    ensures r.Ok? ==> |r.value.db.users| == |db.users|
  {
    match UserWithId(db.users, userId)
    case None => Err(UserNotFound)
    case Some(i) =>
      var row := db.users[i].(isActive := Some(false), updatedAt := now);
      ReplaceUserKeepsConstraints(db, i, row);
      Flush(db.(users := db.users[i := row]), true)
  }

  /** What `reset_password` does: only the hash and `updated_at` of a local
      user change. */
  function ResetPasswordStep(db: Db, userId: nat, newPassword: string, now: int, hash: string -> string): (r: Result<Step<string>, ServiceError>)
    requires Constraints(db)
    ensures UserWithId(db.users, userId).None? ==> r == Err(UserNotFound)
    ensures UserWithId(db.users, userId).Some? && db.users[UserWithId(db.users, userId).value].isLdapUser ==>
              r == Err(LdapUserPassword)
    ensures UserWithId(db.users, userId).Some? && !db.users[UserWithId(db.users, userId).value].isLdapUser ==>
              var i := UserWithId(db.users, userId).value;
              r == Ok(Step(db.(users := db.users[i := db.users[i].(hashedPassword := Some(hash(newPassword)), updatedAt := now)]),
                           "Password reset successfully"))
  {
    match UserWithId(db.users, userId)
    case None => Err(UserNotFound)
    case Some(i) =>
      if db.users[i].isLdapUser then Err(LdapUserPassword)
      else
        var row := db.users[i].(hashedPassword := Some(hash(newPassword)), updatedAt := now);
        ReplaceUserKeepsConstraints(db, i, row);
        Flush(db.(users := db.users[i := row]), "Password reset successfully")
  }

  /** A soft-deleted user is still found by id and by name, and is listed
      among the inactive users. */
  lemma DeletedUserRemains(db: Db, userId: nat, now: int)
    requires Constraints(db) && UserWithId(db.users, userId).Some?
    ensures var after := DeleteUserStep(db, userId, now).value.db;
      var i := UserWithId(db.users, userId).value;
      && UserWithId(after.users, userId) == Some(i)
      && UserNamed(after.users, db.users[i].username) == UserNamed(db.users, db.users[i].username)
      && after.users[i].isActive == Some(false)
      && forall k :: 0 <= k < |db.users| && k != i ==> after.users[k] == db.users[k]
  {
    var i := UserWithId(db.users, userId).value;
    var after := DeleteUserStep(db, userId, now).value.db;
    Seqs.FirstIsUnique(after.users, (u: User) => u.id == userId, i);
    var name := db.users[i].username;
    var p := (u: User) => u.username == name;
    assert forall k :: 0 <= k < |db.users| ==> (p(after.users[k]) <==> p(db.users[k]));
    var j := UserNamed(db.users, name).value;
    Seqs.FirstIsUnique(after.users, p, j);
  }

  // get_user_statistics

  /** One row of `get_user_statistics`. */
  datatype UserStat = UserStat(username: string, totalJobs: nat, totalPages: int, colorPages: int, bwPages: int, lastPrint: int)

  /** The jobs of one user. */
  function JobsOf(js: seq<PrintJob>, name: string): seq<PrintJob>
  {
    Seqs.Filter(js, (j: PrintJob) => j.username == name)
  }

  function JobUsernames(js: seq<PrintJob>): seq<string>
  {
    seq(|js|, k requires 0 <= k < |js| => js[k].username)
  }

  /** `max(print_time)`. */
  function LatestPrint(js: seq<PrintJob>): (t: int)
    requires |js| > 0
    ensures exists k :: 0 <= k < |js| && js[k].printTime == t
    ensures forall k :: 0 <= k < |js| ==> js[k].printTime <= t
    decreases |js|
  {
    if |js| == 1 then js[0].printTime
    else
      var t := LatestPrint(js[1..]);
      assert forall k :: 1 <= k < |js| ==> js[k] == js[1..][k - 1];
      if js[0].printTime >= t then js[0].printTime else t
  }

  /** The group of `name`, with `color_pages` read as the total pages of
      the user's colour jobs. */
  function StatOf(js: seq<PrintJob>, name: string): (s: UserStat)
    requires name in JobUsernames(js)
    ensures s.username == name && s.totalJobs >= 1 && s.totalJobs == |JobsOf(js, name)|
    ensures s.totalPages == PrintJobService.Sum(JobsOf(js, name), PrintJobService.TotalPages)
    ensures s.colorPages == PrintJobService.Sum(Seqs.Filter(JobsOf(js, name), PrintJobService.IsColorJob), PrintJobService.TotalPages)
    ensures s.bwPages == PrintJobService.Sum(JobsOf(js, name), PrintJobService.BwPages)
    ensures s.colorPages + s.bwPages == s.totalPages
    ensures (exists j :: j in JobsOf(js, name) && j.printTime == s.lastPrint)
            && forall j :: j in JobsOf(js, name) ==> j.printTime <= s.lastPrint
  {
    var mine := JobsOf(js, name);
    var k :| 0 <= k < |js| && js[k].username == name;
    assert js[k] in mine;
    PrintJobService.SumsSplit(mine);
    PrintJobService.ColorPagesOfColorJobs(mine);
    var total := PrintJobService.Sum(mine, PrintJobService.TotalPages);
    var color := PrintJobService.Sum(mine, PrintJobService.ColorPages);
    UserStat(name, |mine|, total, color, total - color, LatestPrint(mine))
  }

  /** `ORDER BY total_pages DESC`. */
  predicate MorePages(a: UserStat, b: UserStat) { a.totalPages >= b.totalPages }

  /** One row per user who printed, in order of first job. */
  function Groups(js: seq<PrintJob>): (r: seq<UserStat>)
    ensures |r| == |Seqs.Distinct(JobUsernames(js))|
    ensures forall k :: 0 <= k < |r| ==> r[k] == StatOf(js, Seqs.Distinct(JobUsernames(js))[k])
  {
    var names := Seqs.Distinct(JobUsernames(js));
    seq(|names|, k requires 0 <= k < |names| => StatOf(js, names[k]))
  }

  /** The corrected `get_user_statistics`: one row per user, busiest first,
      at most 50; the users left out printed no more than any user listed. */
  function UserStatistics(db: Db): (r: seq<UserStat>)
    ensures |r| <= 50
    ensures Sorting.Sorted(r, MorePages)
    ensures forall k :: 0 <= k < |r| ==> r[k].username in JobUsernames(db.jobs) && r[k] == StatOf(db.jobs, r[k].username)
    ensures forall i, j :: 0 <= i < j < |r| ==> r[i].username != r[j].username
    ensures forall k :: 0 <= k < |r| ==> r[k].bwPages == r[k].totalPages - r[k].colorPages
  {
    assert Sorting.TotalPreorder(MorePages);
    var r := Seqs.Limit(Sorting.Sort(Groups(db.jobs), MorePages), 50);
    TopGroups(db.jobs);
    r
  }

  /** The statistics keep the busiest users: min(50, users) rows, and a
      user left out printed no more pages than any user listed. */
  lemma UserStatisticsAreTop(db: Db)
    ensures var r := UserStatistics(db);
      && |r| == (if |Seqs.Distinct(JobUsernames(db.jobs))| <= 50 then |Seqs.Distinct(JobUsernames(db.jobs))| else 50)
      && forall g :: g in Groups(db.jobs) && g !in r ==> forall k :: 0 <= k < |r| ==> r[k].totalPages >= g.totalPages
  {
    TopIsBusiest(db.jobs);
  }

  /** `LIMIT 50` after `ORDER BY total_pages DESC` keeps min(50, users) rows,
      and no group left out has more pages than a group kept. */
  lemma TopIsBusiest(js: seq<PrintJob>)
    ensures Sorting.TotalPreorder(MorePages)
    ensures var g := Groups(js);
      var r := Seqs.Limit(Sorting.Sort(g, MorePages), 50);
      && |r| == (if |g| <= 50 then |g| else 50)
      && forall x :: x in g && x !in r ==> forall k :: 0 <= k < |r| ==> r[k].totalPages >= x.totalPages
  {
    TopRows(Groups(js));
  }

  /** The top-50 selection on any rows. */
  lemma TopRows(g: seq<UserStat>)
    ensures Sorting.TotalPreorder(MorePages)
    ensures var r := Seqs.Limit(Sorting.Sort(g, MorePages), 50);
      && |r| == (if |g| <= 50 then |g| else 50)
      && forall x :: x in g && x !in r ==> forall k :: 0 <= k < |r| ==> r[k].totalPages >= x.totalPages
  {
    assert Sorting.TotalPreorder(MorePages);
    var sorted := Sorting.Sort(g, MorePages);
    assert |sorted| == |multiset(sorted)| == |multiset(g)| == |g|;
    var r := Seqs.Limit(sorted, 50);
    forall x | x in g ensures x in sorted {
      assert x in multiset(g);
    }
    if 50 < |sorted| {
      assert sorted == r + sorted[50..];
      forall x, k | x in g && x !in r && 0 <= k < |r| ensures r[k].totalPages >= x.totalPages {
        assert x in sorted[50..];
        assert r[k] in sorted[..50];
        Sorting.PrefixPrecedesRest(sorted, MorePages, 50, r[k], x);
      }
    }
  }

  /** The first 50 groups by pages are sorted, each a group, and of distinct
      users. */
  lemma TopGroups(js: seq<PrintJob>)
    ensures Sorting.TotalPreorder(MorePages)
    ensures var r := Seqs.Limit(Sorting.Sort(Groups(js), MorePages), 50);
      && Sorting.Sorted(r, MorePages)
      && (forall k :: 0 <= k < |r| ==> r[k] in Groups(js))
      && (forall i, j :: 0 <= i < j < |r| ==> r[i].username != r[j].username)
  {
    GroupsDistinctUsers(js);
    TopRowsShape(Groups(js));
  }

  /** Rows that name each user at most once. */
  predicate DistinctUsers(g: seq<UserStat>)
  {
    forall i, j :: 0 <= i < j < |g| ==> g[i].username != g[j].username
  }

  lemma GroupsDistinctUsers(js: seq<PrintJob>)
    ensures DistinctUsers(Groups(js))
  {
    var g := Groups(js);
    var names := Seqs.Distinct(JobUsernames(js));
    forall i, j | 0 <= i < j < |g| ensures g[i].username != g[j].username {
      assert g[i].username == names[i] && g[j].username == names[j];
    }
  }

  /** Reordering keeps the users distinct. */
  lemma PermutationDistinctUsers(a: seq<UserStat>, b: seq<UserStat>)
    requires multiset(a) == multiset(b) && DistinctUsers(b)
    ensures DistinctUsers(a)
  {
    assert Seqs.NoDuplicates(b);
    Seqs.PermutationNoDuplicates(a, b);
    forall i, j | 0 <= i < j < |a| ensures a[i].username != a[j].username {
      assert a[i] in multiset(b) && a[j] in multiset(b);
      var x :| 0 <= x < |b| && b[x] == a[i];
      var y :| 0 <= y < |b| && b[y] == a[j];
      assert x != y;
    }
  }

  /** The first 50 of any rows of distinct users, by pages: sorted, drawn
      from the rows, and of distinct users. */
  lemma TopRowsShape(g: seq<UserStat>)
    requires DistinctUsers(g)
    ensures Sorting.TotalPreorder(MorePages)
    ensures var r := Seqs.Limit(Sorting.Sort(g, MorePages), 50);
      && Sorting.Sorted(r, MorePages)
      && (forall k :: 0 <= k < |r| ==> r[k] in g)
      && DistinctUsers(r)
  {
    assert Sorting.TotalPreorder(MorePages);
    var sorted := Sorting.Sort(g, MorePages);
    PermutationDistinctUsers(sorted, g);
    var r := Seqs.Limit(sorted, 50);
    if 50 < |sorted| {
      Seqs.PrefixSorted(sorted, 50, MorePages);
    }
    forall k | 0 <= k < |r| ensures r[k] in g {
      assert r[k] == sorted[k] && sorted[k] in multiset(g);
    }
    forall i, j | 0 <= i < j < |r| ensures r[i].username != r[j].username {
      assert r[i] == sorted[i] && r[j] == sorted[j];
    }
  }

  /** With at most 50 users, every user who printed has a row. */
  lemma UserStatisticsComplete(db: Db, name: string)
    requires |Seqs.Distinct(JobUsernames(db.jobs))| <= 50
    requires name in JobUsernames(db.jobs)
    ensures exists k :: 0 <= k < |UserStatistics(db)| && UserStatistics(db)[k].username == name
  {
    var names := Seqs.Distinct(JobUsernames(db.jobs));
    var g := Groups(db.jobs);
    var i :| 0 <= i < |names| && names[i] == name;
    assert g[i].username == name;
    FewRowsAllKept(g, g[i]);
    var r := UserStatistics(db);
    var k :| 0 <= k < |r| && r[k] == g[i];
  }

  /** With at most 50 rows, the top-50 selection keeps every row. */
  lemma FewRowsAllKept(g: seq<UserStat>, x: UserStat)
    requires |g| <= 50 && x in g
    ensures Sorting.TotalPreorder(MorePages)
    ensures x in Seqs.Limit(Sorting.Sort(g, MorePages), 50)
  {
    assert Sorting.TotalPreorder(MorePages);
    var sorted := Sorting.Sort(g, MorePages);
    assert |sorted| == |multiset(sorted)| == |multiset(g)| == |g|;
    assert x in multiset(sorted);
  }

  /** `get_user_statistics` as written: the query names
      `PrintJob.color_pages`, which the print job model does not define, so
      building it raises before any row is read. */
  function UserStatisticsAsWritten(db: Db): (r: Option<seq<UserStat>>)
  {
    if "color_pages" in PrintJobColumns then Some(UserStatistics(db)) else None
  }

  /** Whatever the data, the written statistics fail. */
  lemma UserStatisticsAsWrittenFails(db: Db)
    ensures UserStatisticsAsWritten(db) == None
  {
    assert "color_pages" !in PrintJobColumns;
  }

  class UserService {
    const db: Session

    constructor (db: Session)
      ensures this.db == db
    {
      this.db := db;
    }

    /** `create_user`: the checks in order, then the row, committed. */
    method CreateUser(u: UserCreate, companyId: nat, now: int, hash: string -> string) returns (r: Result<User, ServiceError>)
      requires db.Valid()
      modifies db
      ensures db.Valid()
      ensures r == Answer(old(db.state), CreateUserStep(old(db.state).work, u, companyId, now, hash))
      ensures db.state == if r.Ok? then Committed(Run(old(db.state), CreateUserStep(old(db.state).work, u, companyId, now, hash)))
                          else Run(old(db.state), CreateUserStep(old(db.state).work, u, companyId, now, hash))
    {
      if db.state.broken {
        return Err(PendingRollback);
      }
      var work := db.state.work;
      if UserNamed(work.users, u.username).Some? {
        return Err(UsernameExists);
      }
      if IsSet(u.email) && UserWithEmail(work.users, u.email.value).Some? {
        return Err(EmailExists);
      }
      if CompanyWithId(work.companies, companyId).None? {
        return Err(InvalidCompany);
      }
      var row := CreatedUser(work.nextId, now, u, companyId, hash);
      var next := PrintJobService.WithUser(work, row);
      assert JobIdsFresh(next.jobs, next.nextId) by {
        assert next.jobs == work.jobs;
      }
      var ok := db.Flush(next);
      if !ok {
        return Err(IntegrityError);
      }
      ok := db.Commit();
      return Ok(row);
    }

    /** `update_user`: the lookup, the e-mail check, then the `setattr` loop
        over the fields that were sent, committed. */
    method UpdateUser(userId: nat, upd: UserUpdate, now: int) returns (r: Result<User, ServiceError>)
      requires db.Valid()
      modifies db
      ensures db.Valid()
      ensures r == Answer(old(db.state), UpdateUserStep(old(db.state).work, userId, upd, now))
      ensures db.state == if r.Ok? then Committed(Run(old(db.state), UpdateUserStep(old(db.state).work, userId, upd, now)))
                          else Run(old(db.state), UpdateUserStep(old(db.state).work, userId, upd, now))
    {
      if db.state.broken {
        return Err(PendingRollback);
      }
      var work := db.state.work;
      var found := UserWithId(work.users, userId);
      if found.None? {
        return Err(UserNotFound);
      }
      var i := found.value;
      var user := work.users[i];
      if EmailClash(work.users, user, userId, upd) {
        return Err(EmailExists);
      }
      var fields := SetFields(upd);
      var k := 0;
      while k < |fields|
        invariant 0 <= k <= |fields|
        invariant db.state == old(db.state)
        invariant user == SetAll(work.users[i], fields[..k])
      {
        assert fields[..k + 1] == fields[..k] + [fields[k]];
        SetAllAppend(work.users[i], fields[..k], fields[k]);
        user := SetAttr(user, fields[k]);
        k := k + 1;
      }
      assert fields[..|fields|] == fields;
      SetAllIsUpdated(work.users[i], upd);
      user := user.(updatedAt := now);
      var next := work.(users := work.users[i := user]);
      var ok := db.Flush(next);
      if !ok {
        return Err(IntegrityError);
      }
      ok := db.Commit();
      return Ok(user);
    }

    /** `delete_user`: a soft delete, committed. */
    method DeleteUser(userId: nat, now: int) returns (r: Result<bool, ServiceError>)
      requires db.Valid()
      modifies db
      ensures db.Valid()
      ensures r == Answer(old(db.state), DeleteUserStep(old(db.state).work, userId, now))
      ensures db.state == if r.Ok? then Committed(Run(old(db.state), DeleteUserStep(old(db.state).work, userId, now)))
                          else Run(old(db.state), DeleteUserStep(old(db.state).work, userId, now))
    {
      if db.state.broken {
        return Err(PendingRollback);
      }
      var work := db.state.work;
      var found := UserWithId(work.users, userId);
      if found.None? {
        return Err(UserNotFound);
      }
      var i := found.value;
      var row := work.users[i].(isActive := Some(false), updatedAt := now);
      ReplaceUserKeepsConstraints(work, i, row);
      var ok := db.Flush(work.(users := work.users[i := row]));
      ok := db.Commit();
      return Ok(true);
    }

    /** `reset_password`: refused for LDAP users; committed otherwise. */
    method ResetPassword(userId: nat, newPassword: string, now: int, hash: string -> string) returns (r: Result<string, ServiceError>)
      requires db.Valid()
      modifies db
      ensures db.Valid()
      ensures r == Answer(old(db.state), ResetPasswordStep(old(db.state).work, userId, newPassword, now, hash))
      ensures db.state == if r.Ok? then Committed(Run(old(db.state), ResetPasswordStep(old(db.state).work, userId, newPassword, now, hash)))
                          else Run(old(db.state), ResetPasswordStep(old(db.state).work, userId, newPassword, now, hash))
    {
      if db.state.broken {
        return Err(PendingRollback);
      }
      var work := db.state.work;
      var found := UserWithId(work.users, userId);
      if found.None? {
        return Err(UserNotFound);
      }
      var i := found.value;
      if work.users[i].isLdapUser {
        return Err(LdapUserPassword);
      }
      var row := work.users[i].(hashedPassword := Some(hash(newPassword)), updatedAt := now);
      ReplaceUserKeepsConstraints(work, i, row);
      var ok := db.Flush(work.(users := work.users[i := row]));
      ok := db.Commit();
      return Ok("Password reset successfully");
    }
  }
}
