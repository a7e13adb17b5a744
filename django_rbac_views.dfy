/**
 * The function views of rbac.views: assign_role, initialize_default_roles and
 * my_permissions. The list and detail views above them are generic DRF views
 * over the same collections and are not modelled here.
 */
module DjangoRbacViews {
  import opened Wrappers
  import opened PyText
  import opened PyValues
  import opened DjangoRbac
  import opened DjangoStore

  /** One entry of initialize_default_roles' permissions_data. */
  datatype PermissionData = PermissionData(name: string, codename: string, resource: string, action: string)

  /** The twelve default permissions: create, read, update and delete on websites, users and roles. */
  const PermissionsData: seq<PermissionData> := [
    PermissionData("Create Website", "create_website", "websites", "create"),
    PermissionData("Read Website", "read_website", "websites", "read"),
    PermissionData("Update Website", "update_website", "websites", "update"),
    PermissionData("Delete Website", "delete_website", "websites", "delete"),
    PermissionData("Create User", "create_user", "users", "create"),
    PermissionData("Read User", "read_user", "users", "read"),
    PermissionData("Update User", "update_user", "users", "update"),
    PermissionData("Delete User", "delete_user", "users", "delete"),
    PermissionData("Create Role", "create_role", "roles", "create"),
    PermissionData("Read Role", "read_role", "roles", "read"),
    PermissionData("Update Role", "update_role", "roles", "update"),
    PermissionData("Delete Role", "delete_role", "roles", "delete")
  ]

  /** Permission(**perm_data), saved under a fresh id: no description. */
  function NewPermission(d: PermissionData, id: string): (p: Permission)
    ensures p.id == id && p.description.None?
    ensures p.name == d.name && p.codename == d.codename && p.resource == d.resource && p.action == d.action
  {
    Permission(id, d.name, d.codename, d.resource, d.action, None)
  }

  function HasCodename(codename: string): Permission -> bool {
    (p: Permission) => p.codename == codename
  }

  /** Permission.objects(codename=codename).first() */
  function WithCodename(ps: seq<Permission>, codename: string): Option<nat> {
    First(ps, HasCodename(codename))
  }

  /** Storing a permission changes a codename lookup only when it found nothing before. */
  lemma WithCodenameAppend(ps: seq<Permission>, p: Permission, codename: string)
    ensures WithCodename(ps + [p], codename) ==
            if WithCodename(ps, codename).Some? then WithCodename(ps, codename)
            else if p.codename == codename then Some(|ps|) else None
  {
    FirstAppend(ps, p, HasCodename(codename));
  }

  /**
   * One pass of the loop: the stored permission with the entry's codename, or a new
   * one that is then stored.
   */
  function Ensure(stored: seq<Permission>, d: PermissionData, id: string): (seq<Permission>, Permission) {
    match WithCodename(stored, d.codename)
    case Some(k) => (stored, stored[k])
    case None => (stored + [NewPermission(d, id)], NewPermission(d, id))
  }

  /**
   * The loop over permissions_data: the permission store afterwards and the list of
   * permissions it collected, one per entry. The stored permissions stay as they were
   * and in front; every entry's codename is then stored, and the collected permission
   * is the first one stored with it.
   */
  function Ensured(stored: seq<Permission>, data: seq<PermissionData>, ids: seq<string>): (r: (seq<Permission>, seq<Permission>))
    requires |ids| == |data|
    ensures |stored| <= |r.0| && r.0[..|stored|] == stored
    ensures |r.1| == |data|
    ensures forall i :: 0 <= i < |data| ==> r.1[i].codename == data[i].codename
    ensures forall i :: 0 <= i < |data| ==> WithCodename(r.0, data[i].codename).Some?
    ensures forall i :: 0 <= i < |data| ==> r.1[i] == r.0[WithCodename(r.0, data[i].codename).value]
    decreases |data|
  {
    if data == [] then (stored, [])
    else
      var n := |data| - 1;
      var r := Ensured(stored, data[..n], ids[..n]);
      var e := Ensure(r.0, data[n], ids[n]);
      EnsuredStep(stored, data, r.0, r.1, ids[n]);
      (e.0, r.1 + [e.1])
  }

  /** One more pass of the loop keeps what Ensured promises for the entries before it and adds the last entry. */
  lemma EnsuredStep(stored: seq<Permission>, data: seq<PermissionData>, s: seq<Permission>, l: seq<Permission>, id: string)
    requires data != []
    requires var n := |data| - 1;
      && |stored| <= |s| && s[..|stored|] == stored && |l| == n
      && (forall i :: 0 <= i < n ==> l[i].codename == data[..n][i].codename)
      && (forall i :: 0 <= i < n ==> WithCodename(s, data[..n][i].codename).Some?)
      && (forall i :: 0 <= i < n ==> l[i] == s[WithCodename(s, data[..n][i].codename).value])
    ensures var n := |data| - 1; var s' := Ensure(s, data[n], id).0; var r := l + [Ensure(s, data[n], id).1];
      && |stored| <= |s'| && s'[..|stored|] == stored
      && |r| == |data|
      && (forall i :: 0 <= i < |data| ==> r[i].codename == data[i].codename)
      && (forall i :: 0 <= i < |data| ==> WithCodename(s', data[i].codename).Some?)
      && (forall i :: 0 <= i < |data| ==> r[i] == s'[WithCodename(s', data[i].codename).value])
  {
    var n := |data| - 1;
    var s' := Ensure(s, data[n], id).0;
    var r := l + [Ensure(s, data[n], id).1];
    EnsureKeepsFound(s, data[n], id);
    assert s'[..|stored|] == s'[..|s|][..|stored|];
    forall i | 0 <= i < |data|
      ensures r[i].codename == data[i].codename
      ensures WithCodename(s', data[i].codename).Some?
      ensures r[i] == s'[WithCodename(s', data[i].codename).value]
    {
      if i < n {
        assert data[..n][i] == data[i];
        assert WithCodename(s', data[i].codename) == WithCodename(s, data[i].codename);
        assert s'[..|s|][WithCodename(s, data[i].codename).value] == s'[WithCodename(s, data[i].codename).value];
      }
    }
  }

  /** One pass keeps every earlier codename lookup and finds the entry's codename. */
  lemma EnsureKeepsFound(s: seq<Permission>, d: PermissionData, id: string)
    ensures |s| <= |Ensure(s, d, id).0| && Ensure(s, d, id).0[..|s|] == s
    ensures forall c :: WithCodename(s, c).Some? ==> WithCodename(Ensure(s, d, id).0, c) == WithCodename(s, c)
    ensures WithCodename(Ensure(s, d, id).0, d.codename).Some?
    ensures Ensure(s, d, id).1 == Ensure(s, d, id).0[WithCodename(Ensure(s, d, id).0, d.codename).value]
    ensures Ensure(s, d, id).1.codename == d.codename
  {
    if WithCodename(s, d.codename).None? {
      forall c ensures WithCodename(s + [NewPermission(d, id)], c) ==
                       if WithCodename(s, c).Some? then WithCodename(s, c)
                       else if d.codename == c then Some(|s|) else None {
        WithCodenameAppend(s, NewPermission(d, id), c);
      }
      assert (s + [NewPermission(d, id)])[..|s|] == s;
    }
  }

  /** The permissions the loop collects for a store: the first stored one with each codename. */
  function Found(stored: seq<Permission>, data: seq<PermissionData>): (r: seq<Permission>)
    requires forall i :: 0 <= i < |data| ==> WithCodename(stored, data[i].codename).Some?
    ensures |r| == |data|
  {
    seq(|data|, i requires 0 <= i < |data| => stored[WithCodename(stored, data[i].codename).value])
  }

  /** When every codename is already stored, the loop stores nothing and collects the stored permissions. */
  lemma {:induction false} EnsuredWhenAllStored(stored: seq<Permission>, data: seq<PermissionData>, ids: seq<string>)
    requires |ids| == |data|
    requires forall i :: 0 <= i < |data| ==> WithCodename(stored, data[i].codename).Some?
    ensures Ensured(stored, data, ids) == (stored, Found(stored, data))
    decreases |data|
  {
    if data != [] {
      var n := |data| - 1;
      var pre := data[..n];
      forall i | 0 <= i < n ensures WithCodename(stored, pre[i].codename).Some? {
        assert pre[i] == data[i];
      }
      EnsuredWhenAllStored(stored, pre, ids[..n]);
      var k := WithCodename(stored, data[n].codename).value;
      assert Ensure(stored, data[n], ids[n]) == (stored, stored[k]);
      FoundSnoc(stored, data);
      assert Ensured(stored, data, ids) == (stored, Found(stored, pre) + [stored[k]]);
    }
  }

  /** The permissions found for one more entry are those found before it and the entry's own. */
  lemma FoundSnoc(stored: seq<Permission>, data: seq<PermissionData>)
    requires data != []
    requires forall i :: 0 <= i < |data| ==> WithCodename(stored, data[i].codename).Some?
    ensures var n := |data| - 1;
      Found(stored, data) == Found(stored, data[..n]) + [stored[WithCodename(stored, data[n].codename).value]]
  {
    var n := |data| - 1;
    var pre := data[..n];
    assert forall i :: 0 <= i < n ==> pre[i] == data[i];
  }

  /**
   * Running the permission loop again, with any fresh ids, neither stores nor changes
   * a permission and collects the same permissions: the seeding is idempotent.
   */
  lemma PermissionsIdempotent(stored: seq<Permission>, data: seq<PermissionData>, ids: seq<string>, ids2: seq<string>)
    requires |ids| == |data| && |ids2| == |data|
    ensures Ensured(Ensured(stored, data, ids).0, data, ids2) == Ensured(stored, data, ids)
  {
    var (s, l) := Ensured(stored, data, ids);
    EnsuredWhenAllStored(s, data, ids2);
    assert l == Found(s, data);
  }

  /** A permission that was stored already keeps its place and its contents. */
  lemma SeedingKeepsStored(stored: seq<Permission>, ids: seq<string>, k: nat)
    requires |ids| == |PermissionsData| && k < |stored|
    ensures Ensured(stored, PermissionsData, ids).0[k] == stored[k]
  {
    var s := Ensured(stored, PermissionsData, ids).0;
    assert s[..|stored|][k] == s[k];
  }

  function OfResource(resource: string): Permission -> bool {
    (p: Permission) => p.resource == resource
  }

  function OfAction(action: string): Permission -> bool {
    (p: Permission) => p.action == action
  }

  /**
   * Role.objects(name=name).first(), created with this description and is_default
   * when missing, then given exactly these permissions and saved.
   */
  function WithRole(roles: seq<Role>, name: string, description: string, isDefault: bool,
                    permissions: seq<Permission>, newId: string, now: int): (r: seq<Role>)
    ensures RoleNamed(roles, name).Some? ==>
              var k := RoleNamed(roles, name).value;
              r == roles[k := SaveRole(roles[k].(permissions := permissions), now)]
    ensures RoleNamed(roles, name).None? ==> r == roles + [Role(newId, name, Some(description), permissions, isDefault, now)]
  {
    match RoleNamed(roles, name)
    case Some(k) => roles[k := SaveRole(roles[k].(permissions := permissions), now)]
    case None => roles + [Role(newId, name, Some(description), permissions, isDefault, now)]
  }

  /** The role a name finds in a role collection, if any. */
  function Named(roles: seq<Role>, name: string): Option<Role> {
    match RoleNamed(roles, name)
    case Some(k) => Some(roles[k])
    case None => None
  }

  /**
   * After WithRole the role with that name holds exactly the given permissions (what it
   * held before is replaced, not merged), every role keeps its id and its place, a new
   * role comes last with the fresh id, and every role with another name is as it was.
   */
  lemma WithRoleEffect(roles: seq<Role>, name: string, description: string, isDefault: bool,
                       permissions: seq<Permission>, newId: string, now: int)
    ensures var r := WithRole(roles, name, description, isDefault, permissions, newId, now);
      && Named(r, name).Some?
      && Named(r, name).value.permissions == permissions
      && Named(r, name).value.updatedAt == now
      && (|r| == |roles| || (|r| == |roles| + 1 && r[|roles|].id == newId && r[|roles|].name == name))
      && (forall k :: 0 <= k < |roles| ==> r[k].id == roles[k].id)
      && (forall k :: 0 <= k < |roles| && roles[k].name != name ==> r[k] == roles[k])
  {
    var r := WithRole(roles, name, description, isDefault, permissions, newId, now);
    match RoleNamed(roles, name)
    case Some(k) =>
      FirstSameMatches(roles, r, NameIs(name));
    case None =>
      FirstAppend(roles, r[|roles|], NameIs(name));
  }

  /** WithRole leaves the role every other name finds as it was. */
  lemma WithRoleKeepsOthers(roles: seq<Role>, name: string, description: string, isDefault: bool,
                            permissions: seq<Permission>, newId: string, now: int, other: string)
    requires other != name
    ensures Named(WithRole(roles, name, description, isDefault, permissions, newId, now), other) == Named(roles, other)
  {
    var r := WithRole(roles, name, description, isDefault, permissions, newId, now);
    match RoleNamed(roles, name)
    case Some(k) =>
      FirstSameMatches(roles, r, NameIs(other));
    case None =>
      FirstAppend(roles, r[|roles|], NameIs(other));
  }

  /** The three default roles: Admin with the collected list, Editor with the websites permissions, Viewer with the read ones. */
  function DefaultRoles(roles: seq<Role>, stored: seq<Permission>, collected: seq<Permission>, roleIds: seq<string>, now: int): seq<Role>
    requires |roleIds| == 3
  {
    var admin := WithRole(roles, "Admin", "Full access to all resources", false, collected, roleIds[0], now);
    var editor := WithRole(admin, "Editor", "Can create and edit websites", false, Filter(stored, OfResource("websites")), roleIds[1], now);
    WithRole(editor, "Viewer", "Read-only access to websites", true, Filter(stored, OfAction("read")), roleIds[2], now)
  }

  /**
   * initialize_default_roles' roles: Admin, Editor and Viewer all exist; Admin holds
   * the collected permissions, Editor every stored permission on websites and Viewer
   * every stored read permission, whatever they held before; roles with other
   * names are untouched and no role loses its id.
   */
  lemma DefaultRolesGrant(roles: seq<Role>, stored: seq<Permission>, collected: seq<Permission>, roleIds: seq<string>, now: int)
    requires |roleIds| == 3
    ensures var r := DefaultRoles(roles, stored, collected, roleIds, now);
      && Named(r, "Admin").Some? && Named(r, "Admin").value.permissions == collected
      && Named(r, "Editor").Some? && Named(r, "Editor").value.permissions == Filter(stored, OfResource("websites"))
      && Named(r, "Viewer").Some? && Named(r, "Viewer").value.permissions == Filter(stored, OfAction("read"))
      && (forall k :: 0 <= k < |roles| ==> k < |r| && r[k].id == roles[k].id)
      && (forall k :: 0 <= k < |roles| && roles[k].name !in {"Admin", "Editor", "Viewer"} ==> r[k] == roles[k])
  {
    var editors := Filter(stored, OfResource("websites"));
    var viewers := Filter(stored, OfAction("read"));
    var admin := WithRole(roles, "Admin", "Full access to all resources", false, collected, roleIds[0], now);
    var editor := WithRole(admin, "Editor", "Can create and edit websites", false, editors, roleIds[1], now);
    var r := WithRole(editor, "Viewer", "Read-only access to websites", true, viewers, roleIds[2], now);
    assert r == DefaultRoles(roles, stored, collected, roleIds, now);
    WithRoleEffect(roles, "Admin", "Full access to all resources", false, collected, roleIds[0], now);
    WithRoleEffect(admin, "Editor", "Can create and edit websites", false, editors, roleIds[1], now);
    WithRoleEffect(editor, "Viewer", "Read-only access to websites", true, viewers, roleIds[2], now);
    assert Named(r, "Admin") == Named(admin, "Admin") by {
      WithRoleKeepsOthers(admin, "Editor", "Can create and edit websites", false, editors, roleIds[1], now, "Admin");
      WithRoleKeepsOthers(editor, "Viewer", "Read-only access to websites", true, viewers, roleIds[2], now, "Admin");
    }
    assert Named(r, "Editor") == Named(editor, "Editor") by {
      WithRoleKeepsOthers(editor, "Viewer", "Read-only access to websites", true, viewers, roleIds[2], now, "Editor");
    }
    forall k | 0 <= k < |roles| && roles[k].name !in {"Admin", "Editor", "Viewer"} ensures r[k] == roles[k] {
      assert admin[k] == roles[k];
      assert editor[k] == admin[k];
    }
  }

  /** The loop of initialize_default_roles over permissions_data, which touches only the permissions. */
  method SeedPermissions(db: Db, data: seq<PermissionData>, ids: seq<string>) returns (permissions: seq<Permission>)
    requires |ids| == |data|
    modifies db
    ensures (db.permissions, permissions) == Ensured(old(db.permissions), data, ids)
    ensures db.roles == old(db.roles) && db.users == old(db.users) && db.assignments == old(db.assignments)
    ensures db.websites == old(db.websites) && db.sections == old(db.sections) && db.analytics == old(db.analytics)
  {
    permissions := [];
    var i := 0;
    while i < |data|
      invariant 0 <= i <= |data|
      invariant (db.permissions, permissions) == Ensured(old(db.permissions), data[..i], ids[..i])
      invariant db.roles == old(db.roles) && db.users == old(db.users) && db.assignments == old(db.assignments)
      invariant db.websites == old(db.websites) && db.sections == old(db.sections) && db.analytics == old(db.analytics)
    {
      var entry := data[i];
      var found := WithCodename(db.permissions, entry.codename);
      var permission;
      if found.None? {
        permission := NewPermission(entry, ids[i]);
        db.permissions := db.permissions + [permission];
      } else {
        permission := db.permissions[found.value];
      }
      permissions := permissions + [permission];
      assert data[..i + 1][..i] == data[..i];
      assert ids[..i + 1][..i] == ids[..i];
      i := i + 1;
    }
    assert data[..i] == data && ids[..i] == ids;
  }

  /**
   * The rest of initialize_default_roles: the three default roles, after which the
   * users' role references read the roles as they now stand.
   */
  method SeedRoles(db: Db, collected: seq<Permission>, roleIds: seq<string>, now: int)
    requires db.Valid()
    requires |roleIds| == 3 && roleIds[0] != roleIds[1] && roleIds[0] != roleIds[2] && roleIds[1] != roleIds[2]
    requires forall k :: 0 <= k < |db.roles| ==> db.roles[k].id !in roleIds
    modifies db
    ensures db.Valid()
    ensures db.roles == DefaultRoles(old(db.roles), db.permissions, collected, roleIds, now)
    ensures db.users == DereferencedAll(old(db.users), db.roles)
    ensures db.permissions == old(db.permissions) && db.assignments == old(db.assignments)
    ensures db.websites == old(db.websites) && db.sections == old(db.sections) && db.analytics == old(db.analytics)
  {
    var roles := DefaultRoles(db.roles, db.permissions, collected, roleIds, now);
    var users := DereferencedAll(db.users, roles);
    DefaultRolesValid(db.roles, db.permissions, collected, roleIds, now, db.users);
    StoreRolesAndUsers(db, roles, users);
  }

  /** Replaces the roles and the users of the store with collections that keep it valid. */
  method StoreRolesAndUsers(db: Db, roles: seq<Role>, users: seq<User>)
    requires DistinctRoleIds(roles) && DistinctUserIds(users) && RolesCurrent(users, roles)
    modifies db
    ensures db.Valid()
    ensures db.roles == roles && db.users == users
    ensures db.permissions == old(db.permissions) && db.assignments == old(db.assignments)
    ensures db.websites == old(db.websites) && db.sections == old(db.sections) && db.analytics == old(db.analytics)
  {
    db.roles, db.users := roles, users;
  }

  /**
   * initialize_default_roles: the permission loop, then the three default roles, then
   * the users' role references read the roles as they now stand. The store stays valid
   * while the role ids given are fresh and distinct.
   */
  method InitializeDefaultRoles(db: Db, permissionIds: seq<string>, roleIds: seq<string>, now: int) returns (status: nat, message: string)
    requires db.Valid()
    requires |permissionIds| == |PermissionsData| && |roleIds| == 3
    requires roleIds[0] != roleIds[1] && roleIds[0] != roleIds[2] && roleIds[1] != roleIds[2]
    requires forall k :: 0 <= k < |db.roles| ==> db.roles[k].id !in roleIds
    modifies db
    ensures db.Valid()
    ensures status == 200 && message == "Default roles and permissions initialized successfully"
    ensures db.permissions == Ensured(old(db.permissions), PermissionsData, permissionIds).0
    ensures db.roles == DefaultRoles(old(db.roles), db.permissions, Ensured(old(db.permissions), PermissionsData, permissionIds).1, roleIds, now)
    ensures db.users == DereferencedAll(old(db.users), db.roles)
    ensures db.assignments == old(db.assignments) && db.websites == old(db.websites)
    ensures db.sections == old(db.sections) && db.analytics == old(db.analytics)
  {
    var permissions := SeedPermissions(db, PermissionsData, permissionIds);
    SeedRoles(db, permissions, roleIds, now);
    status, message := 200, "Default roles and permissions initialized successfully";
  }

  /** With a fresh id, WithRole keeps role ids distinct, keeps every stored id and adds no other. */
  lemma WithRoleIds(roles: seq<Role>, name: string, description: string, isDefault: bool,
                    permissions: seq<Permission>, newId: string, now: int)
    requires DistinctRoleIds(roles) && RoleWithId(roles, newId).None?
    ensures var r := WithRole(roles, name, description, isDefault, permissions, newId, now);
      && DistinctRoleIds(r)
      && (forall id :: RoleWithId(roles, id).Some? ==> RoleWithId(r, id).Some?)
      && (forall id :: id != newId && RoleWithId(roles, id).None? ==> RoleWithId(r, id).None?)
  {
    WithRoleEffect(roles, name, description, isDefault, permissions, newId, now);
  }

  /**
   * With three distinct fresh ids the default roles keep role ids distinct, and every
   * role a user refers to is still stored.
   */
  lemma DefaultRolesValid(roles: seq<Role>, stored: seq<Permission>, collected: seq<Permission>, roleIds: seq<string>, now: int, users: seq<User>)
    requires |roleIds| == 3 && roleIds[0] != roleIds[1] && roleIds[0] != roleIds[2] && roleIds[1] != roleIds[2]
    requires forall k :: 0 <= k < |roles| ==> roles[k].id !in roleIds
    requires DistinctRoleIds(roles) && RolesCurrent(users, roles)
    requires DistinctUserIds(users)
    ensures var r := DefaultRoles(roles, stored, collected, roleIds, now);
      && DistinctRoleIds(r)
      && DistinctUserIds(DereferencedAll(users, r))
      && RolesCurrent(DereferencedAll(users, r), r)
  {
    var editors := Filter(stored, OfResource("websites"));
    var viewers := Filter(stored, OfAction("read"));
    var admin := WithRole(roles, "Admin", "Full access to all resources", false, collected, roleIds[0], now);
    var editor := WithRole(admin, "Editor", "Can create and edit websites", false, editors, roleIds[1], now);
    var r := WithRole(editor, "Viewer", "Read-only access to websites", true, viewers, roleIds[2], now);
    assert r == DefaultRoles(roles, stored, collected, roleIds, now);
    assert RoleWithId(roles, roleIds[0]).None? && RoleWithId(roles, roleIds[1]).None? && RoleWithId(roles, roleIds[2]).None?;
    WithRoleIds(roles, "Admin", "Full access to all resources", false, collected, roleIds[0], now);
    WithRoleIds(admin, "Editor", "Can create and edit websites", false, editors, roleIds[1], now);
    WithRoleIds(editor, "Viewer", "Read-only access to websites", true, viewers, roleIds[2], now);
    forall k | 0 <= k < |users| && users[k].role.Some?
      ensures RoleWithId(r, users[k].role.value.id).Some?
    {
      assert RoleCurrent(users[k], roles);
    }
    DereferencedCurrent(users, r);
    var after := DereferencedAll(users, r);
    assert forall k :: 0 <= k < |users| ==> after[k].id == users[k].id;
  }

  /**
   * mongoengine's query on an ObjectIdField: the value is turned into ObjectId(str(v)),
   * so an ObjectId, a 24-hex-digit text (the id lower-cased) or a non-negative integer
   * of 24 decimal digits names an id, and anything else (None included) raises the
   * ValidationError that assign_role answers with 400.
   */
  function IdQuery(v: Value): (r: Result<string>)
    ensures r.Ok? <==> (v.Str? && IsObjectIdText(v.s)) || v.ObjectId? || (v.Int? && v.i >= 0 && IsObjectIdText(NatToString(v.i)))
    ensures r.Ok? && v.Str? ==> r.value == Lower(v.s)
    ensures r.Ok? && v.ObjectId? ==> r.value == v.hex
    ensures r.Ok? && v.Int? ==> |r.value| == 24 && r.value == NatToString(v.i)
    ensures r.Err? ==> r.error == "ValidationError"
  {
    match v
    case Str(s) => if IsObjectIdText(s) then Ok(Lower(s)) else Err("ValidationError")
    case ObjectId(h) => Ok(h)
    case Int(n) => if n >= 0 && IsObjectIdText(NatToString(n)) then Ok(NatToString(n)) else Err("ValidationError")
    case _ => Err("ValidationError")
  }

  /** A missing user_id or role_id (None) is refused with 400 "ValidationError". */
  lemma MissingIdRefused(users: seq<User>, roles: seq<Role>, userId: Value, roleId: Value)
    requires userId.Null? || roleId.Null?
    ensures AssignTarget(users, roles, userId, roleId).Err?
    ensures AssignStatus(AssignTarget(users, roles, userId, roleId).error) == 400
  {
  }

  /** User.objects(id=v).first() */
  function UserQuery(users: seq<User>, v: Value): Result<Option<nat>> {
    match IdQuery(v)
    case Err(e) => Err(e)
    case Ok(id) => Ok(UserWithId(users, id))
  }

  /** Role.objects(id=v).first() */
  function RoleQuery(roles: seq<Role>, v: Value): Result<Option<Role>> {
    match IdQuery(v)
    case Err(e) => Err(e)
    case Ok(id) => Ok(RoleWithId(roles, id))
  }

  /**
   * assign_role's lookups and checks: both queries run before either check, so an
   * invalid id of either kind is a 400 even when the user is unknown; then 404 for an
   * unknown user before 404 for an unknown role.
   */
  function AssignTarget(users: seq<User>, roles: seq<Role>, userId: Value, roleId: Value): (r: Result<(nat, Role)>)
    ensures IdQuery(userId).Err? ==> r == Err(IdQuery(userId).error)
    ensures IdQuery(userId).Ok? && IdQuery(roleId).Err? ==> r == Err(IdQuery(roleId).error)
    ensures r.Ok? ==> var (k, role) := r.value;
      && k < |users| && IdQuery(userId).Ok? && users[k].id == IdQuery(userId).value
      && role in roles && IdQuery(roleId).Ok? && role.id == IdQuery(roleId).value
  {
    match (UserQuery(users, userId), RoleQuery(roles, roleId))
    case (Err(e), _) => Err(e)
    case (_, Err(e)) => Err(e)
    case (Ok(None), _) => Err("User not found")
    case (_, Ok(None)) => Err("Role not found")
    case (Ok(Some(k)), Ok(Some(role))) => Ok((k, role))
  }

  /** The status of a refused assign_role: 404 for the two not-found answers, 400 for a raised exception. */
  function AssignStatus(error: string): nat {
    if error == "User not found" || error == "Role not found" then 404 else 400
  }

  /**
   * A well-formed user id that no stored user holds is 404 'User not found', whatever
   * the role id's lookup finds, as long as it does not raise.
   */
  lemma UnknownUserFirst(users: seq<User>, roles: seq<Role>, userId: Value, roleId: Value)
    requires IdQuery(userId).Ok? && UserWithId(users, IdQuery(userId).value).None? && IdQuery(roleId).Ok?
    ensures AssignTarget(users, roles, userId, roleId) == Err("User not found")
    ensures AssignStatus(AssignTarget(users, roles, userId, roleId).error) == 404
  {
  }

  function SamePair(user: string, role: string): Assignment -> bool {
    (a: Assignment) => a.user == user && a.role == role
  }

  /** RoleAssignment.objects(user=user, role=role).first(), created when missing. */
  function Recorded(assignments: seq<Assignment>, user: string, role: string, assignedBy: Option<string>, now: int): (r: seq<Assignment>)
    ensures First(r, SamePair(user, role)).Some?
    ensures First(assignments, SamePair(user, role)).Some? ==> r == assignments
    ensures First(assignments, SamePair(user, role)).None? ==> r == assignments + [Assignment(user, role, assignedBy, now)]
  {
    if First(assignments, SamePair(user, role)).Some? then assignments
    else
      FirstAppend(assignments, Assignment(user, role, assignedBy, now), SamePair(user, role));
      assignments + [Assignment(user, role, assignedBy, now)]
  }

  /** Assigning the same role to the same user twice records one assignment, the first one. */
  lemma RecordedOnce(assignments: seq<Assignment>, user: string, role: string, by1: Option<string>, now1: int, by2: Option<string>, now2: int)
    ensures var once := Recorded(assignments, user, role, by1, now1);
      Recorded(once, user, role, by2, now2) == once
  {
  }

  /**
   * assign_role: on 200 the user's role becomes the role (and the user is saved) and an
   * assignment of that user to that role is on record, created by the caller only if
   * none existed; otherwise nothing changes.
   */
  method AssignRole(db: Db, userId: Value, roleId: Value, caller: string, now: int) returns (status: nat, message: string)
    requires db.Valid()
    modifies db
    ensures db.Valid()
    ensures AssignTarget(old(db.users), old(db.roles), userId, roleId).Err? ==>
              var e := AssignTarget(old(db.users), old(db.roles), userId, roleId).error;
              status == AssignStatus(e) && message == e && db.users == old(db.users) && db.assignments == old(db.assignments)
    ensures AssignTarget(old(db.users), old(db.roles), userId, roleId).Ok? ==>
              var (k, role) := AssignTarget(old(db.users), old(db.roles), userId, roleId).value;
              && status == 200
              && message == "Role " + role.name + " assigned to " + old(db.users)[k].email + " successfully"
              && db.users == old(db.users)[k := SaveUser(old(db.users)[k].(role := Some(role)), now)]
              && db.assignments == Recorded(old(db.assignments), old(db.users)[k].id, role.id, Some(caller), now)
    ensures db.permissions == old(db.permissions) && db.roles == old(db.roles) && db.websites == old(db.websites)
    ensures db.sections == old(db.sections) && db.analytics == old(db.analytics)
  {
    var target := AssignTarget(db.users, db.roles, userId, roleId);
    if target.Err? {
      status, message := AssignStatus(target.error), target.error;
      return;
    }
    var (k, role) := target.value;
    var user := db.users[k];
    StoreAssignment(db, k, role, caller, now);
    status, message := 200, "Role " + role.name + " assigned to " + user.email + " successfully";
  }

  /** user.role = role; user.save(), then the RoleAssignment on record. */
  method StoreAssignment(db: Db, k: nat, role: Role, caller: string, now: int)
    requires db.Valid() && k < |db.users| && role in db.roles
    modifies db
    ensures db.Valid()
    ensures db.users == old(db.users)[k := SaveUser(old(db.users)[k].(role := Some(role)), now)]
    ensures db.assignments == Recorded(old(db.assignments), old(db.users)[k].id, role.id, Some(caller), now)
    ensures db.permissions == old(db.permissions) && db.roles == old(db.roles) && db.websites == old(db.websites)
    ensures db.sections == old(db.sections) && db.analytics == old(db.analytics)
  {
    var user := db.users[k];
    AssignedValid(db.users, db.roles, k, role, now);
    db.users := db.users[k := SaveUser(user.(role := Some(role)), now)];
    db.assignments := Recorded(db.assignments, user.id, role.id, Some(caller), now);
  }

  /** Giving a stored user a stored role keeps the store valid. */
  lemma AssignedValid(users: seq<User>, roles: seq<Role>, k: nat, role: Role, now: int)
    requires DistinctRoleIds(roles) && DistinctUserIds(users) && RolesCurrent(users, roles)
    requires k < |users| && role in roles
    ensures var after := users[k := SaveUser(users[k].(role := Some(role)), now)];
      DistinctUserIds(after) && RolesCurrent(after, roles)
  {
    var j :| 0 <= j < |roles| && roles[j] == role;
    RoleWithIdFinds(roles, j);
    var after := users[k := SaveUser(users[k].(role := Some(role)), now)];
    assert forall i :: 0 <= i < |users| ==> after[i].id == users[i].id;
    assert RoleCurrent(after[k], roles);
  }

  /** my_permissions' answer: no role key and no permissions for a roleless user. */
  datatype PermissionsReport = PermissionsReport(role: Option<string>, permissions: seq<Permission>)

  function MyPermissions(u: User): (r: PermissionsReport)
    ensures r.role.None? <==> u.role.None?
    ensures u.role.None? ==> r.permissions == []
    ensures u.role.Some? ==> r.role == Some(u.role.value.name) && r.permissions == u.role.value.permissions
  {
    match u.role
    case None => PermissionsReport(None, [])
    case Some(role) => PermissionsReport(Some(role.name), role.permissions)
  }

  /** The report lists a permission with a resource and an action exactly when has_permission grants that pair. */
  lemma MyPermissionsAgree(u: User, resource: string, action: string)
    ensures UserHasPermission(u, resource, action) <==>
            exists i :: 0 <= i < |MyPermissions(u).permissions| && Grants(MyPermissions(u).permissions[i], resource, action)
  {
    if u.role.Some? {
      assert MyPermissions(u).permissions == u.role.value.permissions;
    }
  }
}
