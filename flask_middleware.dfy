/**
 * The decorators of app.middleware: require_auth reads the bearer token from the
 * Authorization header and attaches the user it resolves to; require_permission and
 * require_role decide on the attached user's role document. A decorator either
 * passes the request on to the wrapped handler or answers with a status and an error.
 */
module FlaskMiddleware {
  import opened Wrappers
  import opened PyText
  import opened PyValues

  /** What a guard does with a request: run the wrapped handler, or answer it. */
  datatype Gate = Pass | Deny(status: nat, error: string)

  /** The response Flask gives for an exception nobody catches. */
  const InternalError := Deny(500, "Internal Server Error")

  /** request.current_user.get('role'): the role document get_user_from_token attached, or None. */
  function RoleOf(user: Doc): Value {
    Get(user, "role", Null)
  }

  /**
   * require_permission(permission): 401 without an attached user, 403 when the role
   * is missing or falsy, 403 when the permission is not in the role's permissions
   * (an absent list reads as []).
   */
  function RequirePermission(permission: string, current: Option<Doc>): (r: Gate)
    ensures current.None? ==> r == Deny(401, "Authentication required")
    ensures current.Some? && !Truthy(RoleOf(current.value)) ==> r == Deny(403, "User role not found")
    ensures r == Pass ==> current.Some? && RoleOf(current.value).Dict?
  {
    match current
    case None => Deny(401, "Authentication required")
    case Some(user) =>
      var role := RoleOf(user);
      if !Truthy(role) then Deny(403, "User role not found")
      else if !role.Dict? then InternalError
      else match StrIn(permission, Get(role.fields, "permissions", List([])))
        case None => InternalError
        case Some(false) => Deny(403, "Insufficient permissions")
        case Some(true) => Pass
  }

  /** The permission names a role document lists. */
  predicate ListsPermission(role: Doc, permission: string) {
    "permissions" in role && role["permissions"].List? && Str(permission) in role["permissions"].items
  }

  /**
   * For a role document whose permissions are a list (or absent), require_permission
   * passes exactly when the permission is listed, and otherwise answers 403.
   */
  lemma RequirePermissionDecision(permission: string, user: Doc)
    requires RoleOf(user).Dict? && RoleOf(user).fields != map[]
    requires var role := RoleOf(user).fields; "permissions" in role ==> role["permissions"].List?
    ensures RequirePermission(permission, Some(user)) == Pass <==> ListsPermission(RoleOf(user).fields, permission)
    ensures !ListsPermission(RoleOf(user).fields, permission) ==>
              RequirePermission(permission, Some(user)) == Deny(403, "Insufficient permissions")
  {
  }

  /** An empty or absent permissions list denies every permission with 403. */
  lemma EmptyPermissionsDeny(permission: string, user: Doc)
    requires RoleOf(user).Dict?
    requires var role := RoleOf(user).fields; "permissions" !in role || role["permissions"] == List([])
    ensures RequirePermission(permission, Some(user)).Deny?
    ensures RequirePermission(permission, Some(user)).status == 403
  {
  }

  /**
   * require_role(role_name): 401 without an attached user, otherwise 403 unless the
   * role exists and its name is exactly role_name.
   */
  function RequireRole(roleName: string, current: Option<Doc>): (r: Gate)
    ensures current.None? ==> r == Deny(401, "Authentication required")
    ensures current.Some? && !Truthy(RoleOf(current.value)) ==> r == Deny(403, "Role " + roleName + " required")
    ensures r == Pass ==> current.Some? && RoleOf(current.value).Dict?
  {
    match current
    case None => Deny(401, "Authentication required")
    case Some(user) =>
      var role := RoleOf(user);
      if !Truthy(role) then Deny(403, "Role " + roleName + " required")
      else if !role.Dict? then InternalError
      else if Get(role.fields, "name", Null) != Str(roleName) then Deny(403, "Role " + roleName + " required")
      else Pass
  }

  /**
   * For a role document, require_role passes exactly when the name matches character
   * for character; any other name, another casing included, gets 403.
   */
  lemma RequireRoleExact(roleName: string, user: Doc)
    requires RoleOf(user).Dict?
    ensures RequireRole(roleName, Some(user)) == Pass <==> Get(RoleOf(user).fields, "name", Null) == Str(roleName)
    ensures RequireRole(roleName, Some(user)) != Pass ==> RequireRole(roleName, Some(user)) == Deny(403, "Role " + roleName + " required")
  {
  }

  /** The Flask roles are lower case: a role named "Admin" does not satisfy require_role('admin'). */
  lemma RoleNamesCaseSensitive(user: Doc)
    requires RoleOf(user).Dict? && Get(RoleOf(user).fields, "name", Null) == Str("Admin")
    ensures RequireRole("admin", Some(user)) == Deny(403, "Role admin required")
  {
    assert Str("Admin") != Str("admin") by { assert "Admin"[0] != "admin"[0]; }
  }

  /**
   * Neither guard looks at anything but the attached role: two users with the same
   * role get the same answer, whatever their is_active or other fields say.
   */
  lemma GuardsReadOnlyTheRole(permission: string, roleName: string, u1: Doc, u2: Doc)
    requires RoleOf(u1) == RoleOf(u2)
    ensures RequirePermission(permission, Some(u1)) == RequirePermission(permission, Some(u2))
    ensures RequireRole(roleName, Some(u1)) == RequireRole(roleName, Some(u2))
  {
  }

  /** In particular a deactivated user passes exactly where an active one does. */
  lemma GuardsIgnoreIsActive(permission: string, roleName: string, user: Doc)
    ensures RequirePermission(permission, Some(user["is_active" := Bool(false)])) == RequirePermission(permission, Some(user["is_active" := Bool(true)]))
    ensures RequireRole(roleName, Some(user["is_active" := Bool(false)])) == RequireRole(roleName, Some(user["is_active" := Bool(true)]))
  {
    GuardsReadOnlyTheRole(permission, roleName, user["is_active" := Bool(false)], user["is_active" := Bool(true)]);
  }

  /**
   * The token require_auth takes from the header: None when the header is absent or
   * empty, the second field of split(" ") otherwise, and Err where indexing that
   * field raises IndexError.
   */
  function HeaderToken(header: Option<string>): (r: Result<Option<string>>)
    ensures header.None? || header == Some("") ==> r == Ok(None)
    ensures r.Ok? && r.value.Some? ==> !Contains(r.value.value, " ")
  {
    if header.None? || header.value == "" then Ok(None)
    else
      var parts := Split(header.value, " ");
      if |parts| < 2 then Err("Invalid token format") else Ok(Some(parts[1]))
  }

  /** What require_auth does: answer 401, or run the handler with the user attached. */
  datatype AuthOutcome = Rejected(status: nat, error: string) | Admitted(user: Doc)

  /**
   * require_auth, with get_user_from_token (JWT decoding and the user and role
   * lookups) as the parameter `resolve`.
   */
  function RequireAuth(header: Option<string>, resolve: string -> Option<Doc>): (r: AuthOutcome)
    ensures r.Rejected? ==> r.status == 401
    ensures r.Admitted? <==> HeaderToken(header).Ok? && HeaderToken(header).value.Some?
                             && HeaderToken(header).value.value != ""
                             && resolve(HeaderToken(header).value.value).Some?
                             && resolve(HeaderToken(header).value.value).value != map[]
    ensures r.Admitted? ==> r.user == resolve(HeaderToken(header).value.value).value
  {
    match HeaderToken(header)
    case Err(_) => Rejected(401, "Invalid token format")
    case Ok(token) =>
      if token.None? || token.value == "" then Rejected(401, "Token is missing")
      else
        var user := resolve(token.value);
        if user.None? || user.value == map[] then Rejected(401, "Token is invalid or expired")
        else Admitted(user.value)
  }

  /** An absent or empty Authorization header is answered 'Token is missing'. */
  lemma MissingHeader(header: Option<string>, resolve: string -> Option<Doc>)
    requires header.None? || header == Some("")
    ensures RequireAuth(header, resolve) == Rejected(401, "Token is missing")
  {
  }

  /** A non-empty header without a space is answered 'Invalid token format'. */
  lemma HeaderWithoutSpace(h: string, resolve: string -> Option<Doc>)
    requires h != ""
    ensures !Contains(h, " ") <==> RequireAuth(Some(h), resolve) == Rejected(401, "Invalid token format")
  {
    SplitSingle(h, " ");
  }

  /**
   * Whatever the scheme word, the token is the text between the first and the second
   * space: `scheme token` and `scheme token rest` both yield token.
   */
  lemma TokenBetweenSpaces(scheme: string, token: string, rest: string)
    requires !Contains(scheme, " ") && !Contains(token, " ")
    ensures HeaderToken(Some(scheme + " " + token)) == Ok(Some(token))
    ensures HeaderToken(Some(scheme + " " + token + " " + rest)) == Ok(Some(token))
  {
    assert scheme + " "[..0] == scheme;
    assert token + " "[..0] == token;
    SplitAfterFirst(scheme, " ", token);
    SplitWithout(token, " ");
    SplitAfterFirst(scheme, " ", token + " " + rest);
    SplitAfterFirst(token, " ", rest);
    assert scheme + " " + token + " " + rest == scheme + " " + (token + " " + rest);
  }

  /** `Bearer ` with nothing after the space is answered 'Token is missing'. */
  lemma EmptyTokenIsMissing(scheme: string, resolve: string -> Option<Doc>)
    requires !Contains(scheme, " ")
    ensures RequireAuth(Some(scheme + " "), resolve) == Rejected(401, "Token is missing")
  {
    TokenBetweenSpaces(scheme, "", "");
    assert scheme + " " + "" == scheme + " ";
  }

  /** A well-formed header whose token resolves admits exactly the user the token resolves to. */
  lemma ResolvedTokenAdmits(scheme: string, token: string, resolve: string -> Option<Doc>)
    requires !Contains(scheme, " ") && !Contains(token, " ") && token != ""
    ensures resolve(token).None? ==> RequireAuth(Some(scheme + " " + token), resolve) == Rejected(401, "Token is invalid or expired")
    ensures resolve(token).Some? && resolve(token).value != map[] ==>
              RequireAuth(Some(scheme + " " + token), resolve) == Admitted(resolve(token).value)
  {
    TokenBetweenSpaces(scheme, token, "");
  }
}
