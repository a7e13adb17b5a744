/**
 * The authentication routes of app.auth.routes: register checks the fields and the
 * e-mail pattern, refuses a known e-mail and stores a user with the viewer role;
 * login checks the credentials in a fixed order and reports the user's role name.
 * Password hashing and checking (bcrypt) are parameters; token signing is left out.
 */
module FlaskAuth {
  import opened Wrappers
  import opened PyText
  import opened PyValues
  import opened FlaskDb
  import opened FlaskApi
  import FlaskUser
  import FlaskRole

  // ------------------------------------------------------------ the e-mail pattern

  predicate IsLetter(c: char) {
    'a' <= c <= 'z' || 'A' <= c <= 'Z'
  }

  predicate IsDigit(c: char) {
    '0' <= c <= '9'
  }

  /** [a-zA-Z0-9._%+-] */
  predicate LocalChar(c: char) {
    IsLetter(c) || IsDigit(c) || c == '.' || c == '_' || c == '%' || c == '+' || c == '-'
  }

  /** [a-zA-Z0-9.-] */
  predicate DomainChar(c: char) {
    IsLetter(c) || IsDigit(c) || c == '.' || c == '-'
  }

  predicate AllChars(s: string, p: char -> bool) {
    forall i :: 0 <= i < |s| ==> p(s[i])
  }

  /**
   * `body` reads as L "@" D "." T with L in [a-zA-Z0-9._%+-]+, D in [a-zA-Z0-9.-]+ and
   * T in [a-zA-Z]{2,}, the '@' at position `at` and the '.' at position `dot`.
   */
  predicate ShapedAt(body: string, at: nat, dot: nat) {
    && 1 <= at && at + 2 <= dot && dot + 3 <= |body|
    && body[at] == '@' && body[dot] == '.'
    && AllChars(body[..at], LocalChar)
    && AllChars(body[at + 1..dot], DomainChar)
    && AllChars(body[dot + 1..], IsLetter)
  }

  /**
   * re.match(r'^[a-zA-Z0-9._%+-]+@[a-zA-Z0-9.-]+\.[a-zA-Z]{2,}$', s): the whole text
   * has that shape, or all of it but a final newline does (`$` also matches there).
   */
  ghost predicate EmailPattern(s: string) {
    Shaped(s) || (|s| > 0 && s[|s| - 1] == '\n' && Shaped(s[..|s| - 1]))
  }

  /** The text has the pattern's shape, for some position of the '@' and of the last '.'. */
  ghost predicate Shaped(body: string) {
    exists at: nat, dot: nat :: ShapedAt(body, at, dot)
  }

  function WithoutFinalNewline(s: string): string {
    if |s| > 0 && s[|s| - 1] == '\n' then s[..|s| - 1] else s
  }

  /**
   * The scanner: drop one final newline, take the first '@' and the last '.', and
   * check the three parts' lengths and characters.
   */
  function ScanEmail(s: string): bool {
    var body := WithoutFinalNewline(s);
    match FindChar(body, '@')
    case None => false
    case Some(at) =>
      match RFindChar(body, '.')
      case None => false
      case Some(dot) => ShapedAt(body, at, dot)
  }

  /** In a text of that shape the '@' is the first and the '.' the last of its kind. */
  lemma ShapePositions(body: string, at: nat, dot: nat)
    requires ShapedAt(body, at, dot)
    ensures FindChar(body, '@') == Some(at) && RFindChar(body, '.') == Some(dot)
  {
    forall k | 0 <= k < at
      ensures body[k] != '@'
    {
      assert body[..at][k] == body[k];
    }
    forall k | dot < k < |body|
      ensures body[k] != '.'
    {
      assert body[dot + 1..][k - dot - 1] == body[k];
    }
    var first := FindChar(body, '@');
    assert first.Some? by { assert body[at] in body; }
    var last := RFindChar(body, '.');
    assert last.Some? by { assert body[dot] in body; }
  }

  /** The scanner accepts exactly the texts the pattern matches. */
  lemma ScanEmailIsPattern(s: string)
    ensures ScanEmail(s) <==> EmailPattern(s)
  {
    var body := WithoutFinalNewline(s);
    if ScanEmail(s) {
      var at := FindChar(body, '@').value;
      var dot := RFindChar(body, '.').value;
      assert ShapedAt(body, at, dot);
    }
    if Shaped(s) {
      var at: nat, dot: nat :| ShapedAt(s, at, dot);
      assert s[dot + 1..][|s| - dot - 2] == s[|s| - 1];
      assert body == s;
      ShapePositions(s, at, dot);
    } else if |s| > 0 && s[|s| - 1] == '\n' && Shaped(s[..|s| - 1]) {
      var at: nat, dot: nat :| ShapedAt(s[..|s| - 1], at, dot);
      ShapePositions(s[..|s| - 1], at, dot);
    }
  }

  // --------------------------------------------------------------------- register

  /**
   * register's checks, in order: 400 without a truthy email and password, 500 when
   * the email is not a str (re.match raises), 400 for an email outside the pattern,
   * 409 for a known email, 500 without a viewer role or with a password that is not
   * a str. Ok gives the email, the password and the viewer role's id.
   */
  function RegistrationChecks(users: Collection, roles: Collection, body: Value): (r: Result<(string, string, string)>)
    ensures body.Dict? && (!TruthyAt(body.fields, "email") || !TruthyAt(body.fields, "password")) ==>
              r == Err("Email and password are required")
    ensures r.Ok? ==> body.Dict? && body.fields["email"] == Str(r.value.0) && body.fields["password"] == Str(r.value.1)
    ensures r.Ok? ==> EmailPattern(r.value.0) && FlaskUser.FindByEmail(users, Str(r.value.0)).None?
    ensures r.Ok? ==> HasId(roles, r.value.2)
    ensures r.Ok? ==> FlaskRole.FindByName(roles, Str("viewer")).Some? && r.value.2 == FlaskRole.FindByName(roles, Str("viewer")).value["_id"].hex
  {
    if !body.Dict? then Err("AttributeError")
    else if !TruthyAt(body.fields, "email") || !TruthyAt(body.fields, "password") then Err("Email and password are required")
    else
      var email := body.fields["email"];
      if !email.Str? then Err("TypeError")
      else if !ScanEmail(email.s) then (ScanEmailIsPattern(email.s); Err("Invalid email format"))
      else if FlaskUser.FindByEmail(users, email).Some? then Err("User already exists")
      else match FlaskRole.FindByName(roles, Str("viewer"))
        case None => Err("Default role not found")
        case Some(viewer) =>
          var password := body.fields["password"];
          if !password.Str? then Err("AttributeError")
          else
            ScanEmailIsPattern(email.s);
            Ok((email.s, password.s, viewer["_id"].hex))
  }

  /** The status register answers with when a check fails. */
  function RegistrationStatus(message: string): nat {
    if message == "Email and password are required" || message == "Invalid email format" then 400
    else if message == "User already exists" then 409
    else 500
  }

  /**
   * An email outside the pattern is refused with 400, a known email with 409, and a
   * store without a viewer role with 500.
   */
  lemma RegistrationRefusals(users: Collection, roles: Collection, body: Doc)
    requires TruthyAt(body, "email") && TruthyAt(body, "password") && body["email"].Str?
    ensures !EmailPattern(body["email"].s) ==> RegistrationChecks(users, roles, Dict(body)) == Err("Invalid email format")
    ensures EmailPattern(body["email"].s) && FlaskUser.FindByEmail(users, body["email"]).Some? ==>
              RegistrationChecks(users, roles, Dict(body)) == Err("User already exists")
    ensures EmailPattern(body["email"].s) && FlaskUser.FindByEmail(users, body["email"]).None? && FlaskRole.FindByName(roles, Str("viewer")).None? ==>
              RegistrationChecks(users, roles, Dict(body)) == Err("Default role not found")
    ensures RegistrationStatus("Invalid email format") == 400 && RegistrationStatus("User already exists") == 409
    ensures RegistrationStatus("Default role not found") == 500
  {
    ScanEmailIsPattern(body["email"].s);
  }

  /**
   * register: on 201 a user with that email, the hashed password, the viewer role's
   * id and is_active True is stored under the fresh id; otherwise nothing changes.
   */
  method Register(db: Db, body: Value, hash: string -> string, now: int, newId: string) returns (resp: Response)
    requires db.Valid() && IsCanonicalId(newId) && !HasId(db.users, newId)
    modifies db
    ensures db.Valid()
    ensures RegistrationChecks(old(db.users), old(db.roles), body).Err? ==>
              var message := RegistrationChecks(old(db.users), old(db.roles), body).error;
              resp == Response(RegistrationStatus(message), message) && db.users == old(db.users)
    ensures RegistrationChecks(old(db.users), old(db.roles), body).Ok? ==>
              var (email, password, viewerId) := RegistrationChecks(old(db.users), old(db.roles), body).value;
              && resp == Response(201, newId)
              && db.users == Insert(old(db.users), newId, FlaskUser.UserDocument(Str(email), hash(password), ObjectId(viewerId), Bool(true), now))
    ensures db.roles == old(db.roles) && db.websites == old(db.websites)
  {
    var checks := RegistrationChecks(db.users, db.roles, body);
    if checks.Err? {
      return Response(RegistrationStatus(checks.error), checks.error);
    }
    var (email, password, viewerId) := checks.value;
    var doc := FlaskUser.UserDocument(Str(email), hash(password), ObjectId(viewerId), Bool(true), now);
    var id := FlaskUser.SaveUser(db, doc, newId);
    resp := Response(201, id);
  }

  /** After a 201 the new user is the one stored user with that email. */
  lemma RegisteredEmailUnique(users: Collection, roles: Collection, body: Value, hash: string -> string, now: int, newId: string)
    requires RegistrationChecks(users, roles, body).Ok?
    ensures var (email, password, viewerId) := RegistrationChecks(users, roles, body).value;
      var doc := FlaskUser.UserDocument(Str(email), hash(password), ObjectId(viewerId), Bool(true), now);
      FindAll(Insert(users, newId, doc), "email", Str(email)) == [Record(newId, doc)]
  {
    var (email, password, viewerId) := RegistrationChecks(users, roles, body).value;
    var doc := FlaskUser.UserDocument(Str(email), hash(password), ObjectId(viewerId), Bool(true), now);
    FindAllNone(users, "email", Str(email));
    var after := Insert(users, newId, doc);
    assert after[..|after| - 1] == users;
  }

  // ------------------------------------------------------------------------ login

  /** login's answer: refused with a response, or the user's id, email and role name. */
  datatype LoginResult = Refused(response: Response) | LoggedIn(id: string, email: Value, role: Value)

  /**
   * login, in order: 400 without an email and password, 401 'Invalid credentials'
   * for an unknown email and for a wrong password, 401 'Account is deactivated' only
   * after the password was right (a missing is_active reads as True), then the role
   * name, 'viewer' when role_id finds no role. `check` stands for bcrypt.checkpw on
   * the password and the stored hash.
   */
  function Login(users: Collection, roles: Collection, body: Value, check: (string, string) -> bool): (r: LoginResult)
    ensures body.Dict? && (!TruthyAt(body.fields, "email") || !TruthyAt(body.fields, "password")) ==>
              r == Refused(Response(400, "Email and password are required"))
    ensures (body.Dict? && TruthyAt(body.fields, "email") && TruthyAt(body.fields, "password")
             && FlaskUser.FindByEmail(users, body.fields["email"]).None?) ==> r == Refused(Response(401, "Invalid credentials"))
  {
    if !body.Dict? then Refused(Response(500, "AttributeError"))
    else if !TruthyAt(body.fields, "email") || !TruthyAt(body.fields, "password") then Refused(Response(400, "Email and password are required"))
    else match FlaskUser.FindByEmail(users, body.fields["email"])
      case None => Refused(Response(401, "Invalid credentials"))
      case Some(user) =>
        var password := body.fields["password"];
        if "email" !in user || "password_hash" !in user then Refused(Response(500, "KeyError"))
        else if !password.Str? || !user["password_hash"].Str? then Refused(Response(500, "AttributeError"))
        else if !check(password.s, user["password_hash"].s) then Refused(Response(401, "Invalid credentials"))
        else if !Truthy(Get(user, "is_active", Bool(true))) then Refused(Response(401, "Account is deactivated"))
        else if "role_id" !in user then Refused(Response(500, "KeyError"))
        else match FindByValue(roles, user["role_id"])
          case Err(e) => Refused(Response(500, e))
          case Ok(None) => LoggedIn(user["_id"].hex, user["email"], Str("viewer"))
          case Ok(Some(role)) =>
            if "name" !in role then Refused(Response(500, "KeyError"))
            else LoggedIn(user["_id"].hex, user["email"], role["name"])
  }

  /** The stored user find_by_email returns for a login, when it finds one. */
  function LoginUser(users: Collection, body: Doc): Option<Doc> {
    FlaskUser.FindByEmail(users, Get(body, "email", Null))
  }

  /**
   * A wrong password is answered exactly like an unknown email, and before the
   * account's is_active is looked at: a deactivated account with a wrong password
   * gets 'Invalid credentials', not 'Account is deactivated'.
   */
  lemma WrongPasswordBeforeDeactivation(users: Collection, roles: Collection, body: Doc, check: (string, string) -> bool)
    requires TruthyAt(body, "email") && TruthyAt(body, "password") && body["password"].Str?
    requires LoginUser(users, body).Some?
    requires var user := LoginUser(users, body).value;
      "email" in user && "password_hash" in user && user["password_hash"].Str? && !check(body["password"].s, user["password_hash"].s)
    ensures Login(users, roles, Dict(body), check) == Refused(Response(401, "Invalid credentials"))
  {
  }

  /** With the right password a falsy is_active refuses the login; a missing one admits it. */
  lemma IsActiveDefaultsTrue(users: Collection, roles: Collection, body: Doc, check: (string, string) -> bool)
    requires TruthyAt(body, "email") && TruthyAt(body, "password") && body["password"].Str?
    requires LoginUser(users, body).Some?
    requires var user := LoginUser(users, body).value;
      "email" in user && "password_hash" in user && user["password_hash"].Str? && check(body["password"].s, user["password_hash"].s)
    ensures var user := LoginUser(users, body).value;
      "is_active" in user && !Truthy(user["is_active"]) ==> Login(users, roles, Dict(body), check) == Refused(Response(401, "Account is deactivated"))
    ensures var user := LoginUser(users, body).value;
      "is_active" !in user && "role_id" in user && FindByValue(roles, user["role_id"]) == Ok(None) ==>
        Login(users, roles, Dict(body), check).LoggedIn?
  {
  }

  /** A role_id of None, or one that names no stored role, is reported as role 'viewer'. */
  lemma RoleFallsBackToViewer(users: Collection, roles: Collection, body: Doc, check: (string, string) -> bool)
    requires TruthyAt(body, "email") && TruthyAt(body, "password") && body["password"].Str?
    requires LoginUser(users, body).Some?
    requires var user := LoginUser(users, body).value;
      && "email" in user && "password_hash" in user && user["password_hash"].Str? && check(body["password"].s, user["password_hash"].s)
      && Truthy(Get(user, "is_active", Bool(true))) && "role_id" in user
      && (user["role_id"] == Null || (user["role_id"].ObjectId? && !HasId(roles, user["role_id"].hex)))
    ensures Login(users, roles, Dict(body), check).LoggedIn?
    ensures Login(users, roles, Dict(body), check).role == Str("viewer")
  {
  }
}
