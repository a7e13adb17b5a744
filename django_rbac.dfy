/**
 * The Django back-end's role-based access control: permissions as (resource,
 * action) pairs, roles holding lists of them, users holding an optional role, the
 * DRF permission classes and the RBAC middleware's decision.
 */
module DjangoRbac {
  import opened Wrappers
  import opened PyText

  /** rbac.models.Permission */
  datatype Permission = Permission(id: string, name: string, codename: string, resource: string, action: string, description: Option<string>)

  /** Permission.__str__: "resource.action". */
  function PermissionText(p: Permission): string {
    p.resource + "." + p.action
  }

  /** When neither part holds a dot, the text splits back into the resource and the action. */
  lemma PermissionTextSplits(p: Permission)
    requires !Contains(p.resource, ".") && !Contains(p.action, ".")
    ensures Split(PermissionText(p), ".") == [p.resource, p.action]
  {
    SplitWithout(p.action, ".");
    assert OccursAt(PermissionText(p), ".", |p.resource|) by {
      assert PermissionText(p)[|p.resource|..|p.resource| + 1] == ".";
    }
    var s := PermissionText(p);
    var i := IndexOf(s, ".").value;
    if i < |p.resource| {
      assert s[i..i + 1] == p.resource[i..i + 1];
      assert OccursAt(p.resource, ".", i);
      assert false;
    }
    assert s[..i] == p.resource;
    assert s[i + 1..] == p.action;
  }

  /** rbac.models.Role, with its permission references read as the permissions themselves. */
  datatype Role = Role(id: string, name: string, description: Option<string>, permissions: seq<Permission>,
                       isDefault: bool, updatedAt: int)

  predicate Grants(p: Permission, resource: string, action: string) {
    p.resource == resource && p.action == action
  }

  /** Role.has_permission: some permission of the role has exactly this resource and this action. */
  predicate RoleHasPermission(role: Role, resource: string, action: string) {
    exists i :: 0 <= i < |role.permissions| && Grants(role.permissions[i], resource, action)
  }

  /** Role.has_permission as written: a scan of the list that returns at the first match. */
  method HasPermission(role: Role, resource: string, action: string) returns (r: bool)
    ensures r == RoleHasPermission(role, resource, action)
  {
    var i := 0;
    while i < |role.permissions|
      invariant 0 <= i <= |role.permissions|
      invariant forall k :: 0 <= k < i ==> !Grants(role.permissions[k], resource, action)
    {
      if role.permissions[i].resource == resource && role.permissions[i].action == action {
        return true;
      }
      i := i + 1;
    }
    return false;
  }

  /** Role.get_permissions_list: the (resource, action) pair of each permission, in order. */
  function PermissionsList(ps: seq<Permission>): (r: seq<(string, string)>)
    ensures |r| == |ps|
    ensures forall i :: 0 <= i < |ps| ==> r[i] == (ps[i].resource, ps[i].action)
  {
    if ps == [] then [] else PermissionsList(ps[..|ps| - 1]) + [(ps[|ps| - 1].resource, ps[|ps| - 1].action)]
  }

  /** has_permission(r, a) holds exactly when (r, a) is in get_permissions_list(). */
  lemma HasPermissionIffListed(role: Role, resource: string, action: string)
    ensures RoleHasPermission(role, resource, action) <==> (resource, action) in PermissionsList(role.permissions)
  {
    var l := PermissionsList(role.permissions);
    if (resource, action) in l {
      var i :| 0 <= i < |l| && l[i] == (resource, action);
      assert Grants(role.permissions[i], resource, action);
    }
  }

  /** A role without permissions grants nothing. */
  lemma EmptyRoleDenies(role: Role, resource: string, action: string)
    requires role.permissions == []
    ensures !RoleHasPermission(role, resource, action)
    ensures PermissionsList(role.permissions) == []
  {
  }

  /** Role.save and every other document save here: only updated_at changes. */
  function SaveRole(role: Role, now: int): (r: Role)
    ensures r.updatedAt == now && r.(updatedAt := role.updatedAt) == role
  {
    role.(updatedAt := now)
  }

  /** authentication.models.User, with its role reference read as the role itself. */
  datatype User = User(id: string, username: string, email: string, firstName: Option<string>, lastName: Option<string>,
                       password: string, isActive: bool, isStaff: bool, isSuperuser: bool, role: Option<Role>,
                       isVerified: bool, updatedAt: int)

  /** A string field in an f-string: an unset field prints as "None". */
  function Shown(field: Option<string>): string {
    match field
    case Some(s) => s
    case None => "None"
  }

  /** User.full_name: the two names joined by a space, stripped. */
  function FullName(u: User): string {
    Strip(Shown(u.firstName) + " " + Shown(u.lastName))
  }

  /** Two empty names give the empty full name. */
  lemma FullNameOfEmpty(u: User)
    requires u.firstName == Some("") && u.lastName == Some("")
    ensures FullName(u) == ""
  {
    assert Shown(u.firstName) + " " + Shown(u.lastName) == " ";
    assert LStrip(" ") == LStrip(" "[1..]);
  }

  /** Two names without surrounding whitespace are joined by one space and kept as they are. */
  lemma FullNameOfTrimmed(u: User, first: string, last: string)
    requires u.firstName == Some(first) && u.lastName == Some(last)
    requires first != [] && last != [] && Trimmed(first) && Trimmed(last)
    ensures FullName(u) == first + " " + last
  {
    var s := first + " " + last;
    assert s[0] == first[0] && s[|s| - 1] == last[|last| - 1];
    StripTrimmed(s);
  }

  /** User.has_permission: false without a role, otherwise the role's answer. */
  predicate UserHasPermission(u: User, resource: string, action: string) {
    u.role.Some? && RoleHasPermission(u.role.value, resource, action)
  }

  /** A user without a role is refused every permission. */
  lemma RolelessDenied(u: User)
    requires u.role.None?
    ensures forall resource, action :: !UserHasPermission(u, resource, action)
  {
  }

  /** User.save: only updated_at changes. */
  function SaveUser(u: User, now: int): (r: User)
    ensures r.updatedAt == now && r.(updatedAt := u.updatedAt) == u
  {
    u.(updatedAt := now)
  }

  /** request.user: the anonymous user, or an authenticated user document. */
  datatype Requester = Anonymous | Authenticated(user: User)

  /** `user.role and user.role.name == name` */
  predicate HasRoleNamed(u: User, name: string) {
    u.role.Some? && u.role.value.name == name
  }

  /** IsAdmin.has_permission */
  predicate IsAdmin(req: Requester) {
    req.Authenticated? && HasRoleNamed(req.user, "Admin")
  }

  /** IsAdminOrEditor.has_permission */
  predicate IsAdminOrEditor(req: Requester) {
    req.Authenticated? && req.user.role.Some? && req.user.role.value.name in ["Admin", "Editor"]
  }

  /** Every admin passes IsAdminOrEditor; an editor passes it without being an admin. */
  lemma AdminIsAdminOrEditor(req: Requester)
    ensures IsAdmin(req) ==> IsAdminOrEditor(req)
    ensures req.Authenticated? && HasRoleNamed(req.user, "Editor") ==> IsAdminOrEditor(req) && !IsAdmin(req)
    ensures IsAdminOrEditor(req) ==> req.Authenticated? && (HasRoleNamed(req.user, "Admin") || HasRoleNamed(req.user, "Editor"))
  {
  }

  /** HasPermission(resource, action).has_permission */
  predicate HasPermissionClass(req: Requester, resource: string, action: string) {
    req.Authenticated? && UserHasPermission(req.user, resource, action)
  }

  /** The HTTP method to action table: `method_permission_map.get(method, 'read')`. */
  function MethodAction(httpMethod: string): (a: string)
    ensures httpMethod == "GET" ==> a == "read"
    ensures httpMethod == "POST" ==> a == "create"
    ensures httpMethod == "PUT" || httpMethod == "PATCH" ==> a == "update"
    ensures httpMethod == "DELETE" ==> a == "delete"
    ensures httpMethod !in ["GET", "POST", "PUT", "PATCH", "DELETE"] ==> a == "read"
  {
    if httpMethod == "POST" then "create"
    else if httpMethod == "PUT" || httpMethod == "PATCH" then "update"
    else if httpMethod == "DELETE" then "delete"
    else "read"
  }

  /** Only GET and the methods outside the table read: each other method has its own action. */
  lemma MethodActionRead(httpMethod: string)
    ensures MethodAction(httpMethod) == "read" <==> httpMethod !in ["POST", "PUT", "PATCH", "DELETE"]
  {
  }

  /**
   * ResourcePermission.has_permission. `resourceName` is the permission class's own
   * resource_name (None for ResourcePermission itself, "websites", "users" or
   * "roles" for its subclasses); `viewHasResourceName` is hasattr(view, 'resource_name').
   */
  predicate ResourcePermissionAllows(req: Requester, resourceName: Option<string>, viewHasResourceName: bool, httpMethod: string) {
    if !req.Authenticated? then false
    else if !viewHasResourceName then true
    else resourceName.Some? && UserHasPermission(req.user, resourceName.value, MethodAction(httpMethod))
  }

  const WebsitePermission: Option<string> := Some("websites")
  const UserManagementPermission: Option<string> := Some("users")
  const RoleManagementPermission: Option<string> := Some("roles")

  /**
   * The three outcomes of ResourcePermission: anonymous callers are refused, views
   * without a resource_name are open to every authenticated caller, and otherwise the
   * user must hold (resource, action) for the request method.
   */
  lemma ResourcePermissionDecision(req: Requester, resourceName: Option<string>, viewHasResourceName: bool, httpMethod: string)
    ensures !req.Authenticated? ==> !ResourcePermissionAllows(req, resourceName, viewHasResourceName, httpMethod)
    ensures req.Authenticated? && !viewHasResourceName ==> ResourcePermissionAllows(req, resourceName, viewHasResourceName, httpMethod)
    ensures req.Authenticated? && viewHasResourceName && resourceName.Some? ==>
      (ResourcePermissionAllows(req, resourceName, viewHasResourceName, httpMethod) <==>
       UserHasPermission(req.user, resourceName.value, MethodAction(httpMethod)))
    ensures resourceName.None? && viewHasResourceName ==> !ResourcePermissionAllows(req, resourceName, viewHasResourceName, httpMethod)
  {
  }

  /** WebsitePermission: a GET needs websites.read, a DELETE needs websites.delete. */
  lemma WebsitePermissionActions(req: Requester)
    requires req.Authenticated?
    ensures ResourcePermissionAllows(req, WebsitePermission, true, "GET") <==> UserHasPermission(req.user, "websites", "read")
    ensures ResourcePermissionAllows(req, WebsitePermission, true, "DELETE") <==> UserHasPermission(req.user, "websites", "delete")
  {
  }

  /** The paths RBACMiddleware never checks. */
  const SkipUrls := ["/api/auth/login/", "/api/auth/register/", "/admin/", "/api/auth/verify-token/"]

  predicate Skipped(path: string) {
    exists i :: 0 <= i < |SkipUrls| && StartsWith(path, SkipUrls[i])
  }

  /** What resolve(request.path) gives: an error, or the matched URL's app_name. */
  datatype Resolution = Unresolvable | Resolved(appName: string)

  /** `permission_map[app_name]['resource']`, or None for an app outside the map. */
  function AppResource(appName: string): (r: Option<string>)
    ensures r.Some? <==> appName == "website_builder" || appName == "rbac"
  {
    if appName == "website_builder" then Some("websites")
    else if appName == "rbac" then Some("roles")
    else None
  }

  /** RBACMiddleware.check_permission; resolve() is the `resolution` argument. */
  predicate CheckPermission(path: string, httpMethod: string, req: Requester, resolution: Resolution) {
    if Skipped(path) then true
    else if !StartsWith(path, "/api/") then true
    else if !req.Authenticated? then true
    else if resolution.Unresolvable? then true
    else match AppResource(resolution.appName)
      case None => true
      case Some(resource) =>
        HasRoleNamed(req.user, "Admin") || UserHasPermission(req.user, resource, MethodAction(httpMethod))
  }

  /**
   * The middleware refuses a request exactly when the path is under /api/ and not
   * skipped, the caller is authenticated, the path resolves to a mapped app, and the
   * caller is neither an admin nor holds the app's resource for the method's action.
   */
  lemma CheckPermissionDenies(path: string, httpMethod: string, req: Requester, resolution: Resolution)
    ensures !CheckPermission(path, httpMethod, req, resolution) <==>
      && !Skipped(path) && StartsWith(path, "/api/")
      && req.Authenticated? && resolution.Resolved?
      && AppResource(resolution.appName).Some?
      && !HasRoleNamed(req.user, "Admin")
      && !UserHasPermission(req.user, AppResource(resolution.appName).value, MethodAction(httpMethod))
  {
  }

  /** website_builder paths are checked against "websites", rbac paths against "roles". */
  lemma CheckPermissionResources(path: string, httpMethod: string, u: User)
    requires !Skipped(path) && StartsWith(path, "/api/") && !HasRoleNamed(u, "Admin")
    ensures CheckPermission(path, httpMethod, Authenticated(u), Resolved("website_builder")) <==>
      UserHasPermission(u, "websites", MethodAction(httpMethod))
    ensures CheckPermission(path, httpMethod, Authenticated(u), Resolved("rbac")) <==>
      UserHasPermission(u, "roles", MethodAction(httpMethod))
  {
  }

  /** The login and registration paths pass whoever asks, whatever the method. */
  lemma AuthPathsSkipped(rest: string, httpMethod: string, req: Requester, resolution: Resolution)
    ensures CheckPermission("/api/auth/login/" + rest, httpMethod, req, resolution)
    ensures CheckPermission("/api/auth/register/" + rest, httpMethod, req, resolution)
  {
    assert StartsWith("/api/auth/login/" + rest, SkipUrls[0]) by {
      assert ("/api/auth/login/" + rest)[..|SkipUrls[0]|] == SkipUrls[0];
    }
    assert StartsWith("/api/auth/register/" + rest, SkipUrls[1]) by {
      assert ("/api/auth/register/" + rest)[..|SkipUrls[1]|] == SkipUrls[1];
    }
  }

  /** RBACMiddleware.__call__: a 403 JSON response on refusal, otherwise the view's response. */
  datatype MiddlewareOutcome = Forbidden(status: int, error: string) | PassedOn

  function MiddlewareCall(path: string, httpMethod: string, req: Requester, resolution: Resolution): (r: MiddlewareOutcome)
    ensures r.Forbidden? <==> !CheckPermission(path, httpMethod, req, resolution)
    ensures r.Forbidden? ==> r.status == 403 && r.error == "Permission denied"
  {
    if CheckPermission(path, httpMethod, req, resolution) then PassedOn else Forbidden(403, "Permission denied")
  }
}
