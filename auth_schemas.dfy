/** The request bodies of the user and login API
    (backend/app/schemas/auth.py) and their validation, in the style of
    `PrintJobSchemas`: a body is a record of `Input`s and validation yields
    the typed record or the names of the failing fields.  Whether a string
    is an e-mail address (`EmailStr`) is the oracle `isEmail`. */
module AuthSchemas {
  import opened Common
  import opened PrintJobSchemas

  /** `UserRole`. */
  datatype UserRole = Admin | Member | Viewer

  /** The string value of each role. */
  function RoleName(r: UserRole): (s: string)
  {
    match r
    case Admin => "admin"
    case Member => "user"
    case Viewer => "viewer"
  }

  /** The role a JSON string names, if any. */
  function ParseRole(s: string): (r: Option<UserRole>)
    ensures r.Some? <==> s in {"admin", "user", "viewer"}
    ensures r.Some? ==> RoleName(r.value) == s
  {
    if s == "admin" then Some(Admin)
    else if s == "user" then Some(Member)
    else if s == "viewer" then Some(Viewer)
    else None
  }

  /** Every role's name parses back to it, and the names are distinct. */
  lemma RoleRoundTrip(r: UserRole, q: UserRole)
    ensures ParseRole(RoleName(r)) == Some(r)
    ensures RoleName(r) == RoleName(q) ==> r == q
  {
  }

  /** A role field with a default: omitted gives the default, `null` and an
      unknown name are refused. */
  function DefaultedRole(i: Input<string>, default: UserRole): (r: Option<UserRole>)
    ensures i.Omitted? ==> r == Some(default)
    ensures i.ExplicitNull? ==> r == None
    ensures i.Given? ==> r == ParseRole(i.value)
  {
    match i
    case Omitted => Some(default)
    case ExplicitNull => None
    case Given(s) => ParseRole(s)
  }

  /** An `Optional[EmailStr]` field, `None` by default. */
  function OptionalEmail(i: Input<string>, isEmail: string -> bool): (r: Option<Option<string>>)
    ensures r.None? <==> i.Given? && !isEmail(i.value)
    ensures r.Some? ==> r.value == (if i.Given? then Some(i.value) else None)
  {
    match i
    case Given(s) => if isEmail(s) then Some(Some(s)) else None
    case _ => Some(None)
  }

  // LoginRequest

  datatype LoginInput = LoginInput(username: Input<string>, password: Input<string>, rememberMe: Input<bool>)

  datatype LoginRequest = LoginRequest(username: string, password: string, rememberMe: bool)

  function LoginErrors(b: LoginInput): set<string>
  {
    (if RequiredString(b.username, 1, 100).None? then {"username"} else {})
    + (if !b.password.Given? || |b.password.value| < 1 then {"password"} else {})
    + (if DefaultedBool(b.rememberMe, false).None? then {"remember_me"} else {})
  }

  /** `LoginRequest`: a username of 1 to 100 characters, a non-empty
      password, `remember_me` false unless given. */
  function ValidateLogin(b: LoginInput): (r: Result<LoginRequest, set<string>>)
    ensures r.Err? <==> LoginErrors(b) != {}
    ensures r.Err? ==> r.error == LoginErrors(b)
    ensures r.Ok? ==> 1 <= |r.value.username| <= 100 && |r.value.password| >= 1
    ensures r.Ok? ==> Given(r.value.username) == b.username && Given(r.value.password) == b.password
    ensures r.Ok? && b.rememberMe.Omitted? ==> !r.value.rememberMe
  {
    if LoginErrors(b) != {} then Err(LoginErrors(b))
    else Ok(LoginRequest(b.username.value, b.password.value, DefaultedBool(b.rememberMe, false).value))
  }

  // UserBase and UserCreate

  datatype UserCreateInput = UserCreateInput(
    username: Input<string>, email: Input<string>, fullName: Input<string>,
    role: Input<string>, isActive: Input<bool>, password: Input<string>, ldapDn: Input<string>)

  datatype UserCreate = UserCreate(
    username: string, email: Option<string>, fullName: Option<string>,
    role: UserRole, isActive: bool, password: Option<string>, ldapDn: Option<string>)

  /** The `password` field as written: `Optional[str]` of at least 8
      characters, and a validator that runs only on a value that was sent
      (an omitted field keeps its default unchecked) and that sees only the
      fields declared before `password`, so never `ldap_dn`.  It therefore
      accepts an omitted password and refuses an explicit `null` whatever
      `ldap_dn` holds. */
  function PasswordAsWritten(i: Input<string>): (r: Option<Option<string>>)
    ensures i.Omitted? ==> r == Some(None)
    ensures i.ExplicitNull? ==> r == None
    ensures i.Given? ==> (r.Some? <==> |i.value| >= 8) && (r.Some? ==> r.value == Some(i.value))
  {
    match i
    case Omitted => Some(None)
    case ExplicitNull => None
    case Given(p) => if |p| >= 8 then Some(Some(p)) else None
  }

  /** Whether a non-empty `ldap_dn` was sent. */
  predicate HasLdapDn(i: Input<string>) { i.Given? && i.value != "" }

  /** The `password` field as its validator's message intends: a password of
      at least 8 characters, required exactly when no `ldap_dn` is given. */
  function PasswordChecked(i: Input<string>, ldapDn: Input<string>): (r: Option<Option<string>>)
    ensures i.Given? ==> (r.Some? <==> |i.value| >= 8) && (r.Some? ==> r.value == Some(i.value))
    ensures !i.Given? ==> (r.Some? <==> HasLdapDn(ldapDn)) && (r.Some? ==> r.value == None)
  {
    match i
    case Given(p) => if |p| >= 8 then Some(Some(p)) else None
    case _ => if HasLdapDn(ldapDn) then Some(None) else None
  }

  /** The names of the failing fields, with the `password` rule given. */
  function UserCreateErrorsWith(b: UserCreateInput, isEmail: string -> bool, password: Option<Option<string>>): set<string>
  {
    (if RequiredString(b.username, 3, 100).None? then {"username"} else {})
    + (if OptionalEmail(b.email, isEmail).None? then {"email"} else {})
    + (if OptionalString(b.fullName, 255).None? then {"full_name"} else {})
    + (if DefaultedRole(b.role, Member).None? then {"role"} else {})
    + (if DefaultedBool(b.isActive, true).None? then {"is_active"} else {})
    + (if password.None? then {"password"} else {})
    + (if OptionalString(b.ldapDn, 500).None? then {"ldap_dn"} else {})
  }

  /** The record, once every field has passed. */
  function UserCreateWith(b: UserCreateInput, isEmail: string -> bool, password: Option<Option<string>>): (r: Result<UserCreate, set<string>>)
  {
    var e := UserCreateErrorsWith(b, isEmail, password);
    if e != {} then Err(e)
    else Ok(UserCreate(
      RequiredString(b.username, 3, 100).value,
      OptionalEmail(b.email, isEmail).value,
      OptionalString(b.fullName, 255).value,
      DefaultedRole(b.role, Member).value,
      DefaultedBool(b.isActive, true).value,
      password.value,
      OptionalString(b.ldapDn, 500).value))
  }

  /** `UserCreate` validation as written. */
  function ValidateUserCreateAsWritten(b: UserCreateInput, isEmail: string -> bool): (r: Result<UserCreate, set<string>>)
    ensures r.Err? ==> r.error == UserCreateErrorsWith(b, isEmail, PasswordAsWritten(b.password))
  {
    UserCreateWith(b, isEmail, PasswordAsWritten(b.password))
  }

  /** `UserCreate` validation with the password rule as intended. */
  function ValidateUserCreate(b: UserCreateInput, isEmail: string -> bool): (r: Result<UserCreate, set<string>>)
    ensures r.Err? <==> UserCreateErrorsWith(b, isEmail, PasswordChecked(b.password, b.ldapDn)) != {}
    ensures r.Err? ==> r.error == UserCreateErrorsWith(b, isEmail, PasswordChecked(b.password, b.ldapDn))
    ensures r.Ok? ==> 3 <= |r.value.username| <= 100 && Given(r.value.username) == b.username
    ensures r.Ok? ==> (r.value.fullName.Some? ==> |r.value.fullName.value| <= 255)
    ensures r.Ok? ==> (r.value.email.Some? ==> isEmail(r.value.email.value))
    ensures r.Ok? ==> (r.value.password.Some? ==> |r.value.password.value| >= 8)
    ensures r.Ok? ==> (r.value.ldapDn.Some? ==> |r.value.ldapDn.value| <= 500)
    ensures r.Ok? && b.role.Omitted? ==> r.value.role == Member
    ensures r.Ok? && b.isActive.Omitted? ==> r.value.isActive
    ensures r.Ok? ==> (r.value.password.None? <==> r.value.ldapDn.Some? && r.value.ldapDn.value != "" && !b.password.Given?)
  {
    UserCreateWith(b, isEmail, PasswordChecked(b.password, b.ldapDn))
  }

  /** A body sending only `username`. */
  function OnlyUsername(name: string): UserCreateInput
  {
    UserCreateInput(Given(name), Omitted, Omitted, Omitted, Omitted, Omitted, Omitted)
  }

  /** As written, a local user without a password is accepted: nothing
      reaches the validator when `password` is omitted. */
  lemma AsWrittenAcceptsNoPassword(isEmail: string -> bool)
    ensures var r := ValidateUserCreateAsWritten(OnlyUsername("alice"), isEmail);
      r.Ok? && r.value.password.None? && r.value.ldapDn.None?
    ensures ValidateUserCreate(OnlyUsername("alice"), isEmail) == Err({"password"})
  {
    var b := OnlyUsername("alice");
    assert |"alice"| == 5;
    assert RequiredString(b.username, 3, 100).Some?;
    assert UserCreateErrorsWith(b, isEmail, PasswordChecked(b.password, b.ldapDn)) == {"password"};
  }

  /** As written, an LDAP user sent with `"password": null` is refused,
      because the validator cannot see `ldap_dn`. */
  lemma AsWrittenRefusesLdapNullPassword(isEmail: string -> bool)
    ensures var b := UserCreateInput(Given("bob"), Omitted, Omitted, Omitted, Omitted, ExplicitNull, Given("cn=bob"));
      && ValidateUserCreateAsWritten(b, isEmail) == Err({"password"})
      && ValidateUserCreate(b, isEmail).Ok?
  {
    var b := UserCreateInput(Given("bob"), Omitted, Omitted, Omitted, Omitted, ExplicitNull, Given("cn=bob"));
    assert |"bob"| == 3 && |"cn=bob"| == 6;
    assert RequiredString(b.username, 3, 100).Some? && OptionalString(b.ldapDn, 500).Some?;
    assert UserCreateErrorsWith(b, isEmail, PasswordAsWritten(b.password)) == {"password"};
  }

  /** With the intended rule, every accepted user has a password or an LDAP
      identity, and a user with an LDAP identity needs no password. */
  lemma PasswordOrLdap(b: UserCreateInput, isEmail: string -> bool)
    ensures var r := ValidateUserCreate(b, isEmail);
      r.Ok? ==> r.value.password.Some? || (r.value.ldapDn.Some? && r.value.ldapDn.value != "")
    ensures var r := ValidateUserCreate(b, isEmail);
      !b.password.Given? && HasLdapDn(b.ldapDn) ==> (r.Ok? <==> UserCreateErrorsWith(b, isEmail, Some(None)) == {})
  {
  }

  // UserUpdate

  /** `UserUpdate` after validation.  Each field remembers whether it was
      sent, because the service applies only the fields that were. */
  datatype UserUpdate = UserUpdate(email: Input<string>, fullName: Input<string>, role: Input<UserRole>, isActive: Input<bool>)

  datatype UserUpdateInput = UserUpdateInput(email: Input<string>, fullName: Input<string>, role: Input<string>, isActive: Input<bool>)

  function UserUpdateErrors(b: UserUpdateInput, isEmail: string -> bool): set<string>
  {
    (if OptionalEmail(b.email, isEmail).None? then {"email"} else {})
    + (if OptionalString(b.fullName, 255).None? then {"full_name"} else {})
    + (if b.role.Given? && ParseRole(b.role.value).None? then {"role"} else {})
  }

  /** An optional role field. */
  function RoleInput(i: Input<string>): Input<UserRole>
  {
    match i
    case Given(s) => if ParseRole(s).Some? then Given(ParseRole(s).value) else ExplicitNull
    case ExplicitNull => ExplicitNull
    case Omitted => Omitted
  }

  /** `UserUpdate`: every field optional; a sent e-mail must be an address,
      a sent full name at most 255 characters, a sent role a known one. */
  function ValidateUserUpdate(b: UserUpdateInput, isEmail: string -> bool): (r: Result<UserUpdate, set<string>>)
    ensures r.Err? <==> UserUpdateErrors(b, isEmail) != {}
    ensures r.Err? ==> r.error == UserUpdateErrors(b, isEmail)
    ensures r.Ok? ==> r.value.email == b.email && r.value.fullName == b.fullName && r.value.isActive == b.isActive
    ensures r.Ok? ==> (r.value.role.Given? <==> b.role.Given?) && (r.value.role.Omitted? <==> b.role.Omitted?)
    ensures r.Ok? && b.role.Given? ==> RoleName(r.value.role.value) == b.role.value
    ensures r.Ok? && r.value.email.Given? ==> isEmail(r.value.email.value)
    ensures r.Ok? && r.value.fullName.Given? ==> |r.value.fullName.value| <= 255
  {
    if UserUpdateErrors(b, isEmail) != {} then Err(UserUpdateErrors(b, isEmail))
    else Ok(UserUpdate(b.email, b.fullName, RoleInput(b.role), b.isActive))
  }

  // PasswordReset

  datatype PasswordResetInput = PasswordResetInput(userId: Input<int>, newPassword: Input<string>)

  datatype PasswordReset = PasswordReset(userId: int, newPassword: string)

  /** `PasswordReset`: a user id and a new password of at least 8
      characters, both required. */
  function ValidatePasswordReset(b: PasswordResetInput): (r: Result<PasswordReset, set<string>>)
    ensures r.Ok? <==> b.userId.Given? && b.newPassword.Given? && |b.newPassword.value| >= 8
    ensures r.Ok? ==> Given(r.value.userId) == b.userId && Given(r.value.newPassword) == b.newPassword
    ensures r.Err? ==> ("user_id" in r.error <==> !b.userId.Given?)
    ensures r.Err? ==> ("new_password" in r.error <==> !(b.newPassword.Given? && |b.newPassword.value| >= 8))
  {
    var e := (if !b.userId.Given? then {"user_id"} else {})
           + (if !(b.newPassword.Given? && |b.newPassword.value| >= 8) then {"new_password"} else {});
    if e != {} then Err(e) else Ok(PasswordReset(b.userId.value, b.newPassword.value))
  }
}
