/**
 * app.models.role of the Flask back-end: role documents, the role collection's
 * operations and the seeding of the admin, editor and viewer roles.
 */
module FlaskRole {
  import opened Wrappers
  import opened PyText
  import opened PyValues
  import opened FlaskDb
  import FlaskPermission

  /** The document Role(name, description, permissions).save() inserts: permissions `or []`. */
  function RoleDocument(name: Value, description: Value, permissions: Value, now: int): (d: Doc)
    ensures d.Keys == {"name", "description", "permissions", "created_at", "updated_at"}
    ensures d["name"] == name && d["description"] == description
    ensures Truthy(permissions) ==> d["permissions"] == permissions
    ensures !Truthy(permissions) ==> d["permissions"] == List([])
  {
    map["name" := name, "description" := description,
        "permissions" := if Truthy(permissions) then permissions else List([]),
        "created_at" := DateTime(now), "updated_at" := DateTime(now)]
  }

  /** Role.save: the document is appended under the id the server assigns, which is returned. */
  method SaveRole(db: Db, name: Value, description: Value, permissions: Value, now: int, newId: string) returns (id: string)
    requires db.Valid() && IsCanonicalId(newId) && !HasId(db.roles, newId)
    modifies db
    ensures db.Valid() && id == newId
    ensures db.roles == Insert(old(db.roles), newId, RoleDocument(name, description, permissions, now))
    ensures db.users == old(db.users) && db.websites == old(db.websites)
  {
    InsertKeepsKeys(db.roles, newId, RoleDocument(name, description, permissions, now));
    db.roles := Insert(db.roles, newId, RoleDocument(name, description, permissions, now));
    id := newId;
  }

  /** Role.find_by_name: the first role whose name matches. */
  function FindByName(roles: Collection, name: Value): (r: Option<Doc>)
    ensures r.Some? <==> exists k :: 0 <= k < |roles| && DocMatches(roles[k].doc, "name", name)
    ensures r.Some? ==> "_id" in r.value && r.value["_id"].ObjectId? && HasId(roles, r.value["_id"].hex)
  {
    match FindFirst(roles, "name", name)
    case Some(k) => Some(Returned(roles[k]))
    case None => None
  }

  /** Role.update_role: data gains updated_at and is $set into the role with that id. */
  method UpdateRole(db: Db, roleId: string, data: Doc, now: int) returns (r: Result<Doc>)
    requires db.Valid()
    modifies db
    ensures db.Valid()
    ensures r.Err? <==> !IsObjectIdText(roleId)
    ensures r.Err? ==> db.roles == old(db.roles)
    ensures r.Ok? ==> r.value == data["updated_at" := DateTime(now)]
    ensures r.Ok? ==> db.roles == UpdateById(old(db.roles), Lower(roleId), r.value)
    ensures db.users == old(db.users) && db.websites == old(db.websites)
  {
    var stamped := data["updated_at" := DateTime(now)];
    var id := ParseObjectId(roleId);
    if id.None? {
      return Err("InvalidId");
    }
    UpdateKeepsKeys(db.roles, id.value, stamped);
    db.roles := UpdateById(db.roles, id.value, stamped);
    r := Ok(stamped);
  }

  /**
   * The $set merge of update_role: the role with that id keeps every field the data
   * does not name, takes the data's values and a new updated_at, and keeps its id;
   * every other role is untouched.
   */
  lemma UpdateRoleMerge(roles: Collection, id: string, data: Doc, now: int, k: nat)
    requires k < |roles|
    ensures var r := UpdateById(roles, id, data["updated_at" := DateTime(now)]);
      && r[k].id == roles[k].id
      && (roles[k].id != id ==> r[k] == roles[k])
      && (roles[k].id == id ==>
            && r[k].doc.Keys == roles[k].doc.Keys + data.Keys + {"updated_at"}
            && r[k].doc["updated_at"] == DateTime(now)
            && (forall f :: f in data && f != "updated_at" ==> r[k].doc[f] == data[f])
            && (forall f :: f in roles[k].doc && f !in data && f != "updated_at" ==> r[k].doc[f] == roles[k].doc[f]))
  {
  }

  /** Role.delete_role */
  method DeleteRole(db: Db, roleId: string) returns (r: Result<()>)
    requires db.Valid()
    modifies db
    ensures db.Valid()
    ensures r.Err? <==> !IsObjectIdText(roleId)
    ensures r.Err? ==> db.roles == old(db.roles)
    ensures r.Ok? ==> db.roles == DeleteById(old(db.roles), Lower(roleId))
    ensures db.users == old(db.users) && db.websites == old(db.websites)
  {
    var id := ParseObjectId(roleId);
    if id.None? {
      return Err("InvalidId");
    }
    DeleteKeepsKeys(db.roles, id.value);
    db.roles := DeleteById(db.roles, id.value);
    r := Ok(());
  }

  /** One entry of create_default_roles' default_roles. */
  datatype DefaultRole = DefaultRole(name: string, description: string, permissions: seq<string>)

  const AdminRole := DefaultRole("admin", "Full access to all resources",
    ["create_website", "read_website", "update_website", "delete_website", "manage_users", "manage_roles", "manage_permissions"])
  const EditorRole := DefaultRole("editor", "Can create and edit websites", ["create_website", "read_website", "update_website"])
  const ViewerRole := DefaultRole("viewer", "Can only view websites", ["read_website"])
  const DefaultRoles := [AdminRole, EditorRole, ViewerRole]

  function StrList(xs: seq<string>): (r: seq<Value>)
    ensures |r| == |xs| && forall i :: 0 <= i < |xs| ==> r[i] == Str(xs[i])
  {
    if xs == [] then [] else StrList(xs[..|xs| - 1]) + [Str(xs[|xs| - 1])]
  }

  /** The document inserted for a missing default role. */
  function DefaultDocument(d: DefaultRole, now: int): Doc {
    map["name" := Str(d.name), "description" := Str(d.description), "permissions" := List(StrList(d.permissions)),
        "created_at" := DateTime(now), "updated_at" := DateTime(now)]
  }

  /** Some stored role is named `name`. */
  predicate Named(roles: Collection, name: string) {
    exists k :: 0 <= k < |roles| && DocMatches(roles[k].doc, "name", Str(name))
  }

  /** One iteration of the seeding loop: insert the role unless one of that name exists. */
  function SeedStep(roles: Collection, d: DefaultRole, id: string, now: int): Collection {
    if FindFirst(roles, "name", Str(d.name)).Some? then roles else Insert(roles, id, DefaultDocument(d, now))
  }

  /** The roles after the seeding loop has run over ds, the i-th insertion taking ids[i]. */
  function Seeded(roles: Collection, ds: seq<DefaultRole>, ids: seq<string>, now: int): Collection
    requires |ids| == |ds|
    decreases |ds|
  {
    if ds == [] then roles
    else SeedStep(Seeded(roles, ds[..|ds| - 1], ids[..|ds| - 1], now), ds[|ds| - 1], ids[|ds| - 1], now)
  }

  /** Seeding only appends: every role stored before keeps its place, id and fields. */
  lemma {:induction false} SeedKeepsExisting(roles: Collection, ds: seq<DefaultRole>, ids: seq<string>, now: int)
    requires |ids| == |ds|
    ensures |Seeded(roles, ds, ids, now)| >= |roles| && Seeded(roles, ds, ids, now)[..|roles|] == roles
    decreases |ds|
  {
    if ds != [] {
      SeedKeepsExisting(roles, ds[..|ds| - 1], ids[..|ds| - 1], now);
      var before := Seeded(roles, ds[..|ds| - 1], ids[..|ds| - 1], now);
      assert before[..|roles|] == roles;
      var after := SeedStep(before, ds[|ds| - 1], ids[|ds| - 1], now);
      assert after[..|before|] == before;
      assert after[..|roles|] == before[..|before|][..|roles|];
    }
  }

  /** Every id of the seeded roles was stored before or is one of the ids handed out. */
  lemma {:induction false} SeedIds(roles: Collection, ds: seq<DefaultRole>, ids: seq<string>, now: int, x: string)
    requires |ids| == |ds|
    ensures HasId(Seeded(roles, ds, ids, now), x) ==> HasId(roles, x) || x in ids
    decreases |ds|
  {
    if ds != [] {
      var n := |ds| - 1;
      SeedIds(roles, ds[..n], ids[..n], now, x);
      var before := Seeded(roles, ds[..n], ids[..n], now);
      if HasId(Seeded(roles, ds, ids, now), x) && !HasId(before, x) {
        assert x == ids[n];
      }
    }
  }

  /** After seeding, a role of each default name exists. */
  lemma {:induction false} SeedNamesAll(roles: Collection, ds: seq<DefaultRole>, ids: seq<string>, now: int)
    requires |ids| == |ds|
    ensures forall i :: 0 <= i < |ds| ==> Named(Seeded(roles, ds, ids, now), ds[i].name)
    decreases |ds|
  {
    if ds != [] {
      var n := |ds| - 1;
      SeedNamesAll(roles, ds[..n], ids[..n], now);
      var before := Seeded(roles, ds[..n], ids[..n], now);
      var after := Seeded(roles, ds, ids, now);
      assert after == SeedStep(before, ds[n], ids[n], now);
      assert after[..|before|] == before;
      forall i | 0 <= i < |ds| ensures Named(after, ds[i].name) {
        if i < n {
          assert ds[..n][i] == ds[i];
          var k :| 0 <= k < |before| && DocMatches(before[k].doc, "name", Str(ds[i].name));
          assert after[k] == before[k];
        } else if FindFirst(before, "name", Str(ds[n].name)).None? {
          assert after[|before|].doc == DefaultDocument(ds[n], now);
        }
      }
    }
  }

  /** Seeding roles that already carry every default name changes nothing. */
  lemma {:induction false} SeedNamedUnchanged(roles: Collection, ds: seq<DefaultRole>, ids: seq<string>, now: int)
    requires |ids| == |ds|
    requires forall i :: 0 <= i < |ds| ==> Named(roles, ds[i].name)
    ensures Seeded(roles, ds, ids, now) == roles
    decreases |ds|
  {
    if ds != [] {
      var n := |ds| - 1;
      var pre, preIds := ds[..n], ids[..n];
      forall i | 0 <= i < n ensures Named(roles, pre[i].name) {
        assert pre[i] == ds[i];
      }
      SeedNamedUnchanged(roles, pre, preIds, now);
      assert Named(roles, ds[n].name);
      var k :| 0 <= k < |roles| && DocMatches(roles[k].doc, "name", Str(ds[n].name));
      assert FindFirst(roles, "name", Str(ds[n].name)).Some?;
    }
  }


  /** Seeding twice is seeding once, whatever ids the second run would hand out. */
  lemma SeedIdempotent(roles: Collection, ids: seq<string>, ids2: seq<string>, now: int, now2: int)
    requires |ids| == |DefaultRoles| && |ids2| == |DefaultRoles|
    ensures Seeded(Seeded(roles, DefaultRoles, ids, now), DefaultRoles, ids2, now2) == Seeded(roles, DefaultRoles, ids, now)
  {
    SeedNamesAll(roles, DefaultRoles, ids, now);
    SeedNamedUnchanged(Seeded(roles, DefaultRoles, ids, now), DefaultRoles, ids2, now2);
  }

  /** After seeding, roles named admin, editor and viewer all exist. */
  lemma SeedCreatesDefaults(roles: Collection, ids: seq<string>, now: int)
    requires |ids| == |DefaultRoles|
    ensures var s := Seeded(roles, DefaultRoles, ids, now);
      Named(s, "admin") && Named(s, "editor") && Named(s, "viewer")
  {
    SeedNamesAll(roles, DefaultRoles, ids, now);
    assert DefaultRoles[0].name == "admin" && DefaultRoles[1].name == "editor" && DefaultRoles[2].name == "viewer";
  }

  /** The i-th iteration of the seeding loop extends the seeding of the first i roles by one step. */
  lemma SeededStep(roles: Collection, ds: seq<DefaultRole>, ids: seq<string>, now: int, i: nat)
    requires |ids| == |ds| && i < |ds|
    ensures Seeded(roles, ds[..i + 1], ids[..i + 1], now) == SeedStep(Seeded(roles, ds[..i], ids[..i], now), ds[i], ids[i], now)
  {
    assert ds[..i + 1][..i] == ds[..i];
    assert ids[..i + 1][..i] == ids[..i];
  }

  /** The id the i-th insertion takes is not yet stored after the first i iterations. */
  lemma SeedFresh(roles: Collection, ds: seq<DefaultRole>, ids: seq<string>, now: int, i: nat)
    requires |ids| == |ds| && i < |ds|
    requires forall j :: 0 <= j < |ids| ==> !HasId(roles, ids[j])
    requires forall j, k :: 0 <= j < k < |ids| ==> ids[j] != ids[k]
    ensures !HasId(Seeded(roles, ds[..i], ids[..i], now), ids[i])
  {
    SeedIds(roles, ds[..i], ids[..i], now, ids[i]);
    assert forall j :: 0 <= j < i ==> ids[..i][j] == ids[j] != ids[i];
  }

  /** The seeding loop over any list of roles to create. */
  method SeedRoles(db: Db, ds: seq<DefaultRole>, ids: seq<string>, now: int)
    requires db.Valid() && |ids| == |ds|
    requires forall i :: 0 <= i < |ids| ==> IsCanonicalId(ids[i]) && !HasId(db.roles, ids[i])
    requires forall i, j :: 0 <= i < j < |ids| ==> ids[i] != ids[j]
    modifies db
    ensures db.Valid()
    ensures db.roles == Seeded(old(db.roles), ds, ids, now)
    ensures db.users == old(db.users) && db.websites == old(db.websites)
  {
    var i := 0;
    ghost var roles0 := db.roles;
    while i < |ds|
      invariant 0 <= i <= |ds|
      invariant db.roles == Seeded(roles0, ds[..i], ids[..i], now)
      invariant db.Valid()
      invariant db.users == old(db.users) && db.websites == old(db.websites)
    {
      SeededStep(roles0, ds, ids, now, i);
      var before := db.roles;
      if FindFirst(before, "name", Str(ds[i].name)).None? {
        SeedFresh(roles0, ds, ids, now, i);
        InsertKeepsKeys(before, ids[i], DefaultDocument(ds[i], now));
        db.roles := Insert(before, ids[i], DefaultDocument(ds[i], now));
      }
      assert db.roles == SeedStep(before, ds[i], ids[i], now);
      i := i + 1;
    }
    assert ds[..|ds|] == ds;
    assert ids[..|ids|] == ids;
  }

  /** Role.create_default_roles, with the ids the server would assign to the three possible insertions. */
  method CreateDefaultRoles(db: Db, ids: seq<string>, now: int)
    requires db.Valid() && |ids| == |DefaultRoles|
    requires forall i :: 0 <= i < |ids| ==> IsCanonicalId(ids[i]) && !HasId(db.roles, ids[i])
    requires forall i, j :: 0 <= i < j < |ids| ==> ids[i] != ids[j]
    modifies db
    ensures db.Valid()
    ensures db.roles == Seeded(old(db.roles), DefaultRoles, ids, now)
    ensures db.users == old(db.users) && db.websites == old(db.websites)
  {
    SeedRoles(db, DefaultRoles, ids, now);
  }

  /** The default permissions are nested, viewer within editor within admin, and all valid. */
  lemma DefaultsNested()
    ensures forall p :: p in ViewerRole.permissions ==> p in EditorRole.permissions
    ensures forall p :: p in EditorRole.permissions ==> p in AdminRole.permissions
    ensures forall i :: 0 <= i < |DefaultRoles| ==>
      forall p :: p in DefaultRoles[i].permissions ==> FlaskPermission.IsValidPermission(p)
    ensures AdminRole.permissions == FlaskPermission.Permissions
  {
  }
}
