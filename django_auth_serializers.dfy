/**
 * authentication.serializers of the Django back-end: registration (field checks,
 * then the cross-field checks in order, then the user it creates), login
 * validation, the role getters and the profile update. Password hashing and
 * checking (Django's hashers) and Django's EmailValidator are parameters.
 */
module DjangoAuthSerializers {
  import opened Wrappers
  import opened PyText
  import opened DjangoRbac
  import opened DjangoWebsiteModel
  import opened DjangoStore

  // ----------------------------------------------------------------- registration

  /** The fields UserRegistrationSerializer reads, as the request sends them. */
  datatype Registration = Registration(email: string, username: string, firstName: string, lastName: string,
                                       password: string, passwordConfirm: string, roleName: Option<string>)

  /** CharField's trim_whitespace: every field is stripped before it is checked or used. */
  function Stripped(r: Registration): (s: Registration)
    ensures s.roleName.None? <==> r.roleName.None?
  {
    Registration(Strip(r.email), Strip(r.username), Strip(r.firstName), Strip(r.lastName), Strip(r.password),
                 Strip(r.passwordConfirm), match r.roleName case Some(n) => Some(Strip(n)) case None => None)
  }

  const MinPassword := 8
  const MaxUsername := 150
  const MaxName := 30

  /** The registration fields, each reported under its own key in serializer.errors. */
  datatype Field = Email | Username | FirstName | LastName | Password | PasswordConfirm | RoleName

  /** The key serializer.errors reports a field under. */
  function Key(f: Field): string {
    match f
    case Email => "email"
    case Username => "username"
    case FirstName => "first_name"
    case LastName => "last_name"
    case Password => "password"
    case PasswordConfirm => "password_confirm"
    case RoleName => "role_name"
  }

  /**
   * The fields whose own checks fail: a blank field, an email that `validEmail`
   * (Django's EmailValidator) refuses, a username over 150 characters, a first or
   * last name over 30, a password under 8.
   */
  function FieldErrors(r: Registration, validEmail: string -> bool): (errors: set<Field>)
    ensures Password in errors <==> |r.password| < MinPassword
    ensures Username in errors <==> r.username == "" || |r.username| > MaxUsername
    ensures FirstName in errors <==> r.firstName == "" || |r.firstName| > MaxName
    ensures LastName in errors <==> r.lastName == "" || |r.lastName| > MaxName
    ensures Email in errors <==> r.email == "" || !validEmail(r.email)
    ensures PasswordConfirm in errors <==> r.passwordConfirm == ""
    ensures RoleName in errors <==> r.roleName == Some("")
  {
    set f | f in {Email, Username, FirstName, LastName, Password, PasswordConfirm, RoleName} && Fails(r, f, validEmail)
  }

  /** The field's own check fails. */
  predicate Fails(r: Registration, f: Field, validEmail: string -> bool) {
    match f
    case Email => r.email == "" || !validEmail(r.email)
    case Username => r.username == "" || |r.username| > MaxUsername
    case FirstName => r.firstName == "" || |r.firstName| > MaxName
    case LastName => r.lastName == "" || |r.lastName| > MaxName
    case Password => |r.password| < MinPassword
    case PasswordConfirm => r.passwordConfirm == ""
    case RoleName => r.roleName == Some("")
  }

  /** What is_valid() decides: field errors, a validate() error, or the cleaned data. */
  datatype RegistrationCheck = FieldsRejected(fields: set<Field>) | Rejected(message: string) | Accepted(data: Registration)

  predicate EmailTaken(users: seq<User>, email: string) {
    exists k :: 0 <= k < |users| && users[k].email == email
  }

  predicate UsernameTaken(users: seq<User>, username: string) {
    exists k :: 0 <= k < |users| && users[k].username == username
  }

  /**
   * validate() on the cleaned fields: the passwords must match, then the email must
   * be new, then the username must be new, each failure with its own message.
   */
  function Validate(users: seq<User>, data: Registration): (r: Result<Registration>)
    ensures r.Ok? <==> data.password == data.passwordConfirm && !EmailTaken(users, data.email) && !UsernameTaken(users, data.username)
    ensures r.Ok? ==> r.value == data
  {
    if data.password != data.passwordConfirm then Err("Passwords don't match")
    else if First(users, (u: User) => u.email == data.email).Some? then Err("Email already exists")
    else if First(users, (u: User) => u.username == data.username).Some? then Err("Username already exists")
    else Ok(data)
  }

  /**
   * The order of validate()'s checks: a mismatch is reported whatever the email and
   * username, a known email whatever the username.
   */
  lemma RegistrationOrder(users: seq<User>, data: Registration)
    ensures data.password != data.passwordConfirm ==> Validate(users, data) == Err("Passwords don't match")
    ensures data.password == data.passwordConfirm && EmailTaken(users, data.email) ==>
              Validate(users, data) == Err("Email already exists")
    ensures data.password == data.passwordConfirm && !EmailTaken(users, data.email) && UsernameTaken(users, data.username) ==>
              Validate(users, data) == Err("Username already exists")
  {
    if EmailTaken(users, data.email) {
      var k :| 0 <= k < |users| && users[k].email == data.email;
      assert First(users, (u: User) => u.email == data.email).Some?;
    }
    if UsernameTaken(users, data.username) {
      var k :| 0 <= k < |users| && users[k].username == data.username;
      assert First(users, (u: User) => u.username == data.username).Some?;
    }
  }

  /** is_valid(): the field checks on the stripped fields, then validate() on what they clean. */
  function ValidateRegistration(users: seq<User>, raw: Registration, validEmail: string -> bool): (r: RegistrationCheck)
    ensures r.FieldsRejected? <==> FieldErrors(Stripped(raw), validEmail) != {}
    ensures r.FieldsRejected? ==> r.fields == FieldErrors(Stripped(raw), validEmail)
    ensures r.Rejected? ==> Validate(users, Stripped(raw)) == Err(r.message)
    ensures r.Accepted? ==> r.data == Stripped(raw)
    ensures r.Accepted? ==> && r.data.password == r.data.passwordConfirm && |r.data.password| >= MinPassword
                            && !EmailTaken(users, r.data.email) && !UsernameTaken(users, r.data.username)
    ensures r.Accepted? ==> validEmail(r.data.email) && |r.data.username| <= MaxUsername
                            && |r.data.firstName| <= MaxName && |r.data.lastName| <= MaxName
  {
    var data := Stripped(raw);
    if FieldErrors(data, validEmail) != {} then FieldsRejected(FieldErrors(data, validEmail))
    else match Validate(users, data)
      case Err(message) => Rejected(message)
      case Ok(cleaned) => Accepted(cleaned)
  }

  /**
   * The minimum length counts the stripped password: a password sent with a space on
   * either side is checked, and stored, without them.
   */
  lemma PasswordStripped(raw: Registration, p: string, validEmail: string -> bool)
    requires p != [] && Trimmed(p) && raw.password == " " + p + " "
    ensures Stripped(raw).password == p
    ensures Password in FieldErrors(Stripped(raw), validEmail) <==> |p| < MinPassword
  {
    StripPadded(p);
  }

  /** The role create() gives: the first role named role_name (default 'Viewer'), or none. */
  function RegisteredRole(roles: seq<Role>, roleName: Option<string>): (r: Option<Role>)
    ensures var name := if roleName.Some? then roleName.value else "Viewer";
      && (RoleNamed(roles, name).Some? ==> r == Some(roles[RoleNamed(roles, name).value]))
      && (RoleNamed(roles, name).None? ==> r.None?)
  {
    var name := if roleName.Some? then roleName.value else "Viewer";
    match RoleNamed(roles, name)
    case Some(k) => Some(roles[k])
    case None => None
  }

  /** The role create() gives is a stored role, as its reference dereferences. */
  lemma RegisteredRoleCurrent(roles: seq<Role>, roleName: Option<string>)
    requires DistinctRoleIds(roles)
    ensures RegisteredRole(roles, roleName).Some? ==> RoleWithId(roles, RegisteredRole(roles, roleName).value.id) == RegisteredRole(roles, roleName)
  {
    var name := if roleName.Some? then roleName.value else "Viewer";
    if RoleNamed(roles, name).Some? {
      RoleWithIdFinds(roles, RoleNamed(roles, name).value);
    }
  }

  /** The user create() saves from the cleaned data, with the hashed password. */
  function RegisteredUser(roles: seq<Role>, data: Registration, hash: string -> string, newId: string, now: int): (u: User)
    ensures u.id == newId && u.email == data.email && u.username == data.username
    ensures u.firstName == Some(data.firstName) && u.lastName == Some(data.lastName)
    ensures u.password == hash(data.password) && u.isActive && !u.isStaff && !u.isSuperuser && !u.isVerified
    ensures u.role == RegisteredRole(roles, data.roleName) && u.updatedAt == now
  {
    User(newId, data.username, data.email, Some(data.firstName), Some(data.lastName), hash(data.password),
         true, false, false, RegisteredRole(roles, data.roleName), false, now)
  }

  /**
   * UserRegistrationSerializer.create, run on validated data: the new user is stored
   * and no other collection changes.
   */
  method CreateUser(db: Db, raw: Registration, validEmail: string -> bool, hash: string -> string, newId: string, now: int)
      returns (user: User)
    requires db.Valid() && ValidateRegistration(db.users, raw, validEmail).Accepted?
    requires forall k :: 0 <= k < |db.users| ==> db.users[k].id != newId
    modifies db
    ensures db.Valid()
    ensures user == RegisteredUser(db.roles, ValidateRegistration(old(db.users), raw, validEmail).data, hash, newId, now)
    ensures db.users == old(db.users) + [user]
    ensures db.roles == old(db.roles) && db.permissions == old(db.permissions) && db.assignments == old(db.assignments)
    ensures db.websites == old(db.websites) && db.sections == old(db.sections) && db.analytics == old(db.analytics)
  {
    var data := ValidateRegistration(db.users, raw, validEmail).data;
    user := RegisteredUser(db.roles, data, hash, newId, now);
    RegisteredRoleCurrent(db.roles, data.roleName);
    AddUser(db, user);
  }

  /** Saving a user with a fresh id and a current role keeps the store valid. */
  method AddUser(db: Db, user: User)
    requires db.Valid() && RoleCurrent(user, db.roles)
    requires forall k :: 0 <= k < |db.users| ==> db.users[k].id != user.id
    modifies db
    ensures db.Valid() && db.users == old(db.users) + [user]
    ensures db.roles == old(db.roles) && db.permissions == old(db.permissions) && db.assignments == old(db.assignments)
    ensures db.websites == old(db.websites) && db.sections == old(db.sections) && db.analytics == old(db.analytics)
  {
    var after := db.users + [user];
    assert forall k :: 0 <= k < |db.users| ==> after[k] == db.users[k];
    db.users := after;
  }

  /** An unknown role name does not fail the registration: the user is stored without a role. */
  lemma UnknownRoleLeavesRoleless(roles: seq<Role>, data: Registration, hash: string -> string, newId: string, now: int)
    requires data.roleName.Some? && forall k :: 0 <= k < |roles| ==> roles[k].name != data.roleName.value
    ensures RegisteredUser(roles, data, hash, newId, now).role.None?
    ensures forall resource, action :: !UserHasPermission(RegisteredUser(roles, data, hash, newId, now), resource, action)
  {
  }

  /** After a registration the new user is the only one with that email and that username. */
  lemma RegisteredUnique(users: seq<User>, roles: seq<Role>, raw: Registration, validEmail: string -> bool,
                         hash: string -> string, newId: string, now: int)
    requires ValidateRegistration(users, raw, validEmail).Accepted?
    ensures var data := ValidateRegistration(users, raw, validEmail).data;
      var after := users + [RegisteredUser(roles, data, hash, newId, now)];
      && (forall k :: 0 <= k < |after| && after[k].email == data.email ==> k == |users|)
      && (forall k :: 0 <= k < |after| && after[k].username == data.username ==> k == |users|)
  {
    var data := ValidateRegistration(users, raw, validEmail).data;
    AppendedUnique(users, RegisteredUser(roles, data, hash, newId, now));
  }

  /** A user whose email and username are not taken is the only one with them once appended. */
  lemma AppendedUnique(users: seq<User>, u: User)
    requires !EmailTaken(users, u.email) && !UsernameTaken(users, u.username)
    ensures forall k :: 0 <= k < |users + [u]| && (users + [u])[k].email == u.email ==> k == |users|
    ensures forall k :: 0 <= k < |users + [u]| && (users + [u])[k].username == u.username ==> k == |users|
  {
    assert forall k :: 0 <= k < |users| ==> (users + [u])[k] == users[k];
  }

  // ------------------------------------------------------------------------ login

  /**
   * UserLoginSerializer.validate alone, on the email and password it is handed: both
   * must be given, then the first user with that email must exist and the password check
   * must pass ('Invalid credentials' either way), and only then is is_active read.
   */
  function ValidateLogin(users: seq<User>, email: Option<string>, password: Option<string>,
                         check: (string, string) -> bool): (r: Result<User>)
    ensures email.None? || email == Some("") || password.None? || password == Some("") ==>
              r == Err("Must provide email and password")
    ensures r.Ok? ==> r.value in users && Some(r.value.email) == email && r.value.isActive && check(password.value, r.value.password)
  {
    if email.Some? && email.value != "" && password.Some? && password.value != "" then
      match First(users, (u: User) => u.email == email.value)
      case None => Err("Invalid credentials")
      case Some(k) =>
        if !check(password.value, users[k].password) then Err("Invalid credentials")
        else if !users[k].isActive then Err("User account is disabled")
        else Ok(users[k])
    else Err("Must provide email and password")
  }

  /**
   * An unknown email and a wrong password get the same message, and a disabled
   * account with a wrong password is refused as invalid, not as disabled.
   */
  lemma LoginCredentialsFirst(users: seq<User>, email: string, password: string, check: (string, string) -> bool)
    requires email != "" && password != ""
    ensures !EmailTaken(users, email) ==> ValidateLogin(users, Some(email), Some(password), check) == Err("Invalid credentials")
    ensures forall k :: 0 <= k < |users| && users[k].email == email && (forall j :: 0 <= j < k ==> users[j].email != email)
                        && !check(password, users[k].password) ==>
              ValidateLogin(users, Some(email), Some(password), check) == Err("Invalid credentials")
    ensures forall k :: 0 <= k < |users| && users[k].email == email && (forall j :: 0 <= j < k ==> users[j].email != email)
                        && check(password, users[k].password) && !users[k].isActive ==>
              ValidateLogin(users, Some(email), Some(password), check) == Err("User account is disabled")
  {
    forall k | 0 <= k < |users| && users[k].email == email && (forall j :: 0 <= j < k ==> users[j].email != email)
      ensures First(users, (u: User) => u.email == email) == Some(k)
    {
      var f := First(users, (u: User) => u.email == email);
      assert f.Some?;
    }
  }

  /** The login fields, each reported under its own key in serializer.errors. */
  datatype LoginField = LoginEmail | LoginPassword

  /** What the login serializer's is_valid() decides: field errors, a validate() error, or the user. */
  datatype LoginCheck = LoginFieldsRejected(fields: set<LoginField>) | LoginRejected(message: string) | LoginAccepted(user: User)

  /**
   * The login fields' own checks on the stripped values: the email must be given,
   * not blank and accepted by `validEmail`; the password must be given and not blank.
   */
  function LoginFieldErrors(email: Option<string>, password: Option<string>, validEmail: string -> bool): (errors: set<LoginField>)
    ensures LoginEmail in errors <==> email.None? || Strip(email.value) == "" || !validEmail(Strip(email.value))
    ensures LoginPassword in errors <==> password.None? || Strip(password.value) == ""
  {
    var emailFails := email.None? || Strip(email.value) == "" || !validEmail(Strip(email.value));
    var passwordFails := password.None? || Strip(password.value) == "";
    (if emailFails then {LoginEmail} else {}) + (if passwordFails then {LoginPassword} else {})
  }

  /** is_valid() of UserLoginSerializer: the field checks, then validate() on the stripped values. */
  function LoginIsValid(users: seq<User>, email: Option<string>, password: Option<string>, validEmail: string -> bool,
                        check: (string, string) -> bool): (r: LoginCheck)
    ensures r.LoginFieldsRejected? <==> LoginFieldErrors(email, password, validEmail) != {}
    ensures r.LoginFieldsRejected? ==> r.fields == LoginFieldErrors(email, password, validEmail)
    ensures r.LoginRejected? ==> ValidateLogin(users, Some(Strip(email.value)), Some(Strip(password.value)), check) == Err(r.message)
    ensures r.LoginAccepted? ==> && r.user in users && r.user.email == Strip(email.value) && validEmail(r.user.email)
                                 && r.user.isActive && check(Strip(password.value), r.user.password)
  {
    var errors := LoginFieldErrors(email, password, validEmail);
    if errors != {} then LoginFieldsRejected(errors)
    else match ValidateLogin(users, Some(Strip(email.value)), Some(Strip(password.value)), check)
      case Err(message) => LoginRejected(message)
      case Ok(user) => LoginAccepted(user)
  }

  /**
   * The field checks run first, so validate()'s 'Must provide email and password'
   * never reaches the caller: a missing or blank field is a field error instead.
   */
  lemma LoginMustProvideUnreachable(users: seq<User>, email: Option<string>, password: Option<string>,
                                    validEmail: string -> bool, check: (string, string) -> bool)
    ensures LoginIsValid(users, email, password, validEmail, check) != LoginRejected("Must provide email and password")
    ensures email.None? || password.None? ==> LoginIsValid(users, email, password, validEmail, check).LoginFieldsRejected?
  {
  }

  // ---------------------------------------------------------------- role getters

  /** UserSerializer.get_role_name */
  function RoleNameOf(u: User): (r: Option<string>)
    ensures r.None? <==> u.role.None?
    ensures r.Some? ==> r.value == u.role.value.name
  {
    if u.role.Some? then Some(u.role.value.name) else None
  }

  /** The dict get_role_info returns. */
  datatype RoleInfo = RoleInfo(id: string, name: string, description: Option<string>)

  /** UserProfileSerializer.get_role_info */
  function RoleInfoOf(u: User): (r: Option<RoleInfo>)
    ensures r.None? <==> u.role.None?
    ensures r.Some? ==> r.value == RoleInfo(u.role.value.id, u.role.value.name, u.role.value.description)
  {
    match u.role
    case None => None
    case Some(role) => Some(RoleInfo(role.id, role.name, role.description))
  }

  /** The two getters agree: both are None for a role-less user, and they name the same role. */
  lemma RoleGettersAgree(u: User)
    ensures RoleNameOf(u).None? <==> RoleInfoOf(u).None?
    ensures RoleInfoOf(u).Some? ==> RoleNameOf(u) == Some(RoleInfoOf(u).value.name)
  {
  }

  // --------------------------------------------------------------- profile update

  /** The fields a profile update may carry; an absent key is None. */
  datatype ProfileChanges = ProfileChanges(username: Option<string>, firstName: Option<string>, lastName: Option<string>)

  /** UserProfileSerializer.update: the given names replace the old ones, then save(). */
  function ProfileUpdated(u: User, c: ProfileChanges, now: int): (r: User)
    ensures r.username == if c.username.Some? then c.username.value else u.username
    ensures r.firstName == if c.firstName.Some? then c.firstName else u.firstName
    ensures r.lastName == if c.lastName.Some? then c.lastName else u.lastName
    ensures r.(username := u.username, firstName := u.firstName, lastName := u.lastName, updatedAt := u.updatedAt) == u
    ensures r.updatedAt == now
  {
    var username := if c.username.Some? then c.username.value else u.username;
    var firstName := if c.firstName.Some? then c.firstName else u.firstName;
    var lastName := if c.lastName.Some? then c.lastName else u.lastName;
    SaveUser(u.(username := username, firstName := firstName, lastName := lastName), now)
  }

  /** An update without any of the three keys changes nothing but updated_at. */
  lemma EmptyProfileUpdate(u: User, now: int)
    ensures ProfileUpdated(u, ProfileChanges(None, None, None), now) == u.(updatedAt := now)
  {
  }

  /** The fields of UserProfileSerializer that a request may write. */
  datatype ProfileField = ProfileUsername | ProfileFirstName | ProfileLastName

  /** The profile fields that fail their own check: absent in a full update, or blank once stripped. */
  function ProfileFieldErrors(c: ProfileChanges, partial: bool): (errors: set<ProfileField>)
    ensures ProfileUsername in errors <==> (c.username.None? && !partial) || (c.username.Some? && Strip(c.username.value) == "")
    ensures ProfileFirstName in errors <==> (c.firstName.None? && !partial) || (c.firstName.Some? && Strip(c.firstName.value) == "")
    ensures ProfileLastName in errors <==> (c.lastName.None? && !partial) || (c.lastName.Some? && Strip(c.lastName.value) == "")
  {
    (if BadText(c.username, partial) then {ProfileUsername} else {})
    + (if BadText(c.firstName, partial) then {ProfileFirstName} else {})
    + (if BadText(c.lastName, partial) then {ProfileLastName} else {})
  }

  /** A CharField's own check fails: required and absent, or blank once stripped. */
  predicate BadText(v: Option<string>, partial: bool) {
    (v.None? && !partial) || (v.Some? && Strip(v.value) == "")
  }

  /** The values the profile serializer cleans: each given field stripped. */
  function CleanedProfile(c: ProfileChanges): (r: ProfileChanges)
    ensures r.username.Some? <==> c.username.Some?
    ensures r.firstName.Some? <==> c.firstName.Some?
    ensures r.lastName.Some? <==> c.lastName.Some?
  {
    ProfileChanges(StripOption(c.username), StripOption(c.firstName), StripOption(c.lastName))
  }

  function StripOption(v: Option<string>): Option<string> {
    if v.Some? then Some(Strip(v.value)) else None
  }

  /** mongoengine's length checks on save(): username at most 150, each name at most 30. */
  predicate FitsUserFields(u: User) {
    && |u.username| <= MaxUsername
    && (u.firstName.Some? ==> |u.firstName.value| <= MaxName)
    && (u.lastName.Some? ==> |u.lastName.value| <= MaxName)
  }

  /** Another stored user than the one at k has this username. */
  predicate UsernameTakenByOther(users: seq<User>, k: nat, username: string) {
    exists j :: 0 <= j < |users| && j != k && users[j].username == username
  }

  /**
   * A profile update: refused field by field, or save() raising (a 500 naming the
   * exception), or the saved user.
   */
  datatype ProfileOutcome = ProfileFieldsRejected(fields: set<ProfileField>) | ProfileSaveFailed(error: string) | ProfileSaved(user: User)

  /**
   * A profile update of the stored user at k: the serializer's field checks, then
   * update() assigns the cleaned values and save() validates the lengths (a
   * ValidationError) and then the unique username index (a NotUniqueError).
   */
  function ProfileUpdate(users: seq<User>, k: nat, c: ProfileChanges, partial: bool, now: int): (r: ProfileOutcome)
    requires k < |users|
    ensures r.ProfileFieldsRejected? <==> ProfileFieldErrors(c, partial) != {}
    ensures r.ProfileFieldsRejected? ==> r.fields == ProfileFieldErrors(c, partial)
    ensures r.ProfileSaveFailed? ==> r.error in {"ValidationError", "NotUniqueError"}
    ensures r.ProfileSaved? ==> r.user == ProfileUpdated(users[k], CleanedProfile(c), now)
    ensures r.ProfileSaved? ==> FitsUserFields(r.user) && !UsernameTakenByOther(users, k, r.user.username)
  {
    var errors := ProfileFieldErrors(c, partial);
    if errors != {} then ProfileFieldsRejected(errors)
    else
      var u := ProfileUpdated(users[k], CleanedProfile(c), now);
      if !FitsUserFields(u) then ProfileSaveFailed("ValidationError")
      else if UsernameTakenByOther(users, k, u.username) then ProfileSaveFailed("NotUniqueError")
      else ProfileSaved(u)
  }

  /** A valid update is saved exactly when the new fields fit and the username is not another user's. */
  lemma ProfileSavedExactly(users: seq<User>, k: nat, c: ProfileChanges, partial: bool, now: int)
    requires k < |users| && ProfileFieldErrors(c, partial) == {}
    ensures var u := ProfileUpdated(users[k], CleanedProfile(c), now);
      ProfileUpdate(users, k, c, partial, now).ProfileSaved? <==> FitsUserFields(u) && !UsernameTakenByOther(users, k, u.username)
  {
  }

  /** A given first name over 30 characters once stripped makes save() raise a ValidationError. */
  lemma LongFirstNameRefused(users: seq<User>, k: nat, c: ProfileChanges, partial: bool, now: int)
    requires k < |users| && ProfileFieldErrors(c, partial) == {}
    requires c.firstName.Some? && |Strip(c.firstName.value)| > MaxName
    ensures ProfileUpdate(users, k, c, partial, now) == ProfileSaveFailed("ValidationError")
  {
  }

  /** A fitting update whose username another user holds makes save() raise a NotUniqueError. */
  lemma TakenUsernameRefused(users: seq<User>, k: nat, j: nat, c: ProfileChanges, partial: bool, now: int)
    requires k < |users| && j < |users| && j != k && ProfileFieldErrors(c, partial) == {}
    requires FitsUserFields(ProfileUpdated(users[k], CleanedProfile(c), now))
    requires c.username.Some? && users[j].username == Strip(c.username.value)
    ensures ProfileUpdate(users, k, c, partial, now) == ProfileSaveFailed("NotUniqueError")
  {
  }

  /** Usernames that were distinct stay distinct after a saved update. */
  lemma ProfileKeepsUsernamesUnique(users: seq<User>, k: nat, c: ProfileChanges, partial: bool, now: int)
    requires k < |users| && ProfileUpdate(users, k, c, partial, now).ProfileSaved?
    requires forall i, j :: 0 <= i < j < |users| ==> users[i].username != users[j].username
    ensures var after := users[k := ProfileUpdate(users, k, c, partial, now).user];
      forall i, j :: 0 <= i < j < |after| ==> after[i].username != after[j].username
  {
    var u := ProfileUpdate(users, k, c, partial, now).user;
    var after := users[k := u];
    forall i, j | 0 <= i < j < |after| ensures after[i].username != after[j].username {
      if i == k {
        assert !UsernameTakenByOther(users, k, u.username);
        assert users[j].username != u.username;
      } else if j == k {
        assert users[i].username != u.username;
      }
    }
  }

  /**
   * The profile update on the stored user at position k: the store changes only
   * when save() succeeds, and then only in that user.
   */
  method UpdateProfile(db: Db, k: nat, c: ProfileChanges, partial: bool, now: int) returns (outcome: ProfileOutcome)
    requires db.Valid() && k < |db.users|
    modifies db
    ensures db.Valid()
    ensures outcome == ProfileUpdate(old(db.users), k, c, partial, now)
    ensures db.users == if outcome.ProfileSaved? then old(db.users)[k := outcome.user] else old(db.users)
    ensures db.roles == old(db.roles) && db.permissions == old(db.permissions) && db.assignments == old(db.assignments)
    ensures db.websites == old(db.websites) && db.sections == old(db.sections) && db.analytics == old(db.analytics)
  {
    outcome := ProfileUpdate(db.users, k, c, partial, now);
    if outcome.ProfileSaved? {
      var user := outcome.user;
      assert user.id == db.users[k].id && user.role == db.users[k].role;
      db.users := db.users[k := user];
    }
  }
}
