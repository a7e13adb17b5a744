/**
 * The administration routes of app.api.admin, as they run once require_auth and
 * require_role('admin') have let the request through: the user listing, role
 * assignment, user deletion, role creation, update and deletion, and the dashboard
 * counts. Each handler is a decision function giving the response, and a method on
 * the database that gives that response and makes the store change it implies.
 */
module FlaskAdmin {
  import opened Wrappers
  import opened PyText
  import opened PyValues
  import opened FlaskDb
  import opened FlaskApi
  import FlaskUser
  import FlaskRole
  import FlaskWebsite

  /** The names of the default roles, which update_role and delete_role refuse to touch. */
  predicate Reserved(name: Value) {
    name in [Str("admin"), Str("editor"), Str("viewer")]
  }

  // ---------------------------------------------------------------- get_all_users

  /**
   * The entry get_all_users lists for one stored user: _id as text, the role label,
   * the password hash removed. None where the loop raises (a role_id ObjectId()
   * refuses, a role without a name).
   */
  function ListedUser(r: Record, roles: Collection): (u: Option<Doc>)
    ensures u.Some? ==> "password_hash" !in u.value && "_id" in u.value && u.value["_id"] == Str(r.id) && "role" in u.value
    ensures u.Some? ==> forall key :: key in r.doc && key != "_id" && key != "role" && key != "password_hash" ==>
                          key in u.value && u.value[key] == r.doc[key]
    ensures !TruthyAt(r.doc, "role_id") ==> u.Some? && u.value["role"] == Str("no_role")
    ensures TruthyAt(r.doc, "role_id") && FindByValue(roles, r.doc["role_id"]) == Ok(None) ==>
              u.Some? && u.value["role"] == Str("unknown")
    ensures TruthyAt(r.doc, "role_id") && FindByValue(roles, r.doc["role_id"]).Ok? && FindByValue(roles, r.doc["role_id"]).value.Some? ==>
              var role := FindByValue(roles, r.doc["role_id"]).value.value;
              ("name" in role <==> u.Some?) && ("name" in role ==> u.value["role"] == role["name"])
    ensures TruthyAt(r.doc, "role_id") && FindByValue(roles, r.doc["role_id"]).Err? ==> u.None?
  {
    var d := r.doc["_id" := Str(r.id)];
    var roleLabel :=
      if TruthyAt(d, "role_id") then
        match FindByValue(roles, d["role_id"])
        case Err(_) => None
        case Ok(None) => Some(Str("unknown"))
        case Ok(Some(role)) => if "name" in role then Some(role["name"]) else None
      else Some(Str("no_role"));
    if roleLabel.None? then None else Some(d["role" := roleLabel.value] - {"password_hash"})
  }

  /** The rewrite the get_all_users loop applies to each user. */
  function UserEntry(roles: Collection): Record -> Option<Doc> {
    r => ListedUser(r, roles)
  }

  /**
   * get_all_users: 200 and every user's entry in natural order, or 500 when some
   * user's entry raised. The store is read, never changed (the loop edits the dicts
   * find() returned).
   */
  method GetAllUsers(db: Db) returns (status: nat, listing: seq<Doc>)
    ensures status == 200 || status == 500
    ensures status == 200 ==> |listing| == |db.users| && forall k :: 0 <= k < |db.users| ==> ListedUser(db.users[k], db.roles) == Some(listing[k])
    ensures status == 500 <==> exists k :: 0 <= k < |db.users| && ListedUser(db.users[k], db.roles).None?
  {
    var r := ListEach(db.users, UserEntry(db.roles));
    ListingFails(db.users, UserEntry(db.roles));
    if r.None? {
      return 500, [];
    }
    status, listing := 200, r.value;
  }

  // --------------------------------------------------------------- get_all_roles

  /** The rewrite the get_all_roles loop applies: _id as text, nothing else touched. */
  function RoleEntry(): Record -> Option<Doc> {
    (r: Record) => Some(r.doc["_id" := Str(r.id)])
  }

  /**
   * get_all_roles: every role in natural order with its _id as text and all its
   * other fields as stored; the store is read, never changed.
   */
  method GetAllRoles(db: Db) returns (listing: seq<Doc>)
    ensures |listing| == |db.roles|
    ensures forall k :: 0 <= k < |db.roles| ==> "_id" in listing[k] && listing[k]["_id"] == Str(db.roles[k].id)
    ensures forall k, key :: 0 <= k < |db.roles| && key in db.roles[k].doc && key != "_id" ==>
              key in listing[k] && listing[k][key] == db.roles[k].doc[key]
    ensures forall k :: 0 <= k < |db.roles| ==> listing[k].Keys == db.roles[k].doc.Keys + {"_id"}
  {
    var r := ListEach(db.roles, RoleEntry());
    ListingFails(db.roles, RoleEntry());
    listing := r.value;
  }

  // ------------------------------------------------------------ update_user_role

  /**
   * update_user_role(user_id): 500 for a body that is not a dict, 400 without a
   * truthy role_id, 404 for an unknown role (checked first), 404 for an unknown user,
   * 200 otherwise; an id ObjectId() refuses gives 500.
   */
  function UpdateUserRoleOutcome(users: Collection, roles: Collection, userId: string, body: Value): (r: Response)
    ensures !body.Dict? ==> r.status == 500
    ensures body.Dict? && !TruthyAt(body.fields, "role_id") ==> r == Response(400, "role_id is required")
    ensures r.status == 200 ==>
              && body.Dict? && TruthyAt(body.fields, "role_id")
              && ObjectIdOf(body.fields["role_id"]).Some? && HasId(roles, ObjectIdOf(body.fields["role_id"]).value)
              && IsObjectIdText(userId) && HasId(users, Lower(userId))
  {
    if !body.Dict? then Response(500, "AttributeError")
    else
      var roleId := Get(body.fields, "role_id", Null);
      if !Truthy(roleId) then Response(400, "role_id is required")
      else match FindByValue(roles, roleId)
        case Err(e) => Response(500, e)
        case Ok(None) => Response(404, "Role not found")
        case Ok(Some(_)) =>
          match FindById(users, userId)
          case Err(e) => Response(500, e)
          case Ok(None) => Response(404, "User not found")
          case Ok(Some(_)) => Response(200, "User role updated successfully")
  }

  /**
   * An unknown role is reported before the user is looked up: the answer is the
   * same 404 whatever the users collection holds.
   */
  lemma RoleCheckedBeforeUser(users1: Collection, users2: Collection, roles: Collection, userId: string, body: Value)
    requires body.Dict? && TruthyAt(body.fields, "role_id") && FindByValue(roles, body.fields["role_id"]) == Ok(None)
    ensures UpdateUserRoleOutcome(users1, roles, userId, body) == Response(404, "Role not found")
    ensures UpdateUserRoleOutcome(users1, roles, userId, body) == UpdateUserRoleOutcome(users2, roles, userId, body)
  {
  }

  /** The 200 answer exactly when the role exists and then the user exists. */
  lemma UpdateUserRoleSucceeds(users: Collection, roles: Collection, userId: string, body: Value)
    requires body.Dict? && TruthyAt(body.fields, "role_id")
    requires FindByValue(roles, body.fields["role_id"]).Ok? && FindByValue(roles, body.fields["role_id"]).value.Some?
    ensures UpdateUserRoleOutcome(users, roles, userId, body).status == 200 <==> FindById(users, userId).Ok? && FindById(users, userId).value.Some?
    ensures FindById(users, userId) == Ok(None) ==> UpdateUserRoleOutcome(users, roles, userId, body) == Response(404, "User not found")
  {
  }

  /** update_user_role: on 200 the user's role_id becomes the role's id; any other answer changes nothing. */
  method UpdateUserRole(db: Db, userId: string, body: Value, now: int) returns (resp: Response)
    requires db.Valid()
    modifies db
    ensures db.Valid()
    ensures resp == UpdateUserRoleOutcome(old(db.users), old(db.roles), userId, body)
    ensures resp.status == 200 ==>
              db.users == UpdateById(old(db.users), Lower(userId),
                                     map["role_id" := ObjectId(ObjectIdOf(body.fields["role_id"]).value), "updated_at" := DateTime(now)])
    ensures resp.status != 200 ==> db.users == old(db.users)
    ensures db.roles == old(db.roles) && db.websites == old(db.websites)
  {
    resp := UpdateUserRoleOutcome(db.users, db.roles, userId, body);
    if resp.status == 200 {
      var _ := FlaskUser.UpdateUserRole(db, userId, body.fields["role_id"], now);
    }
  }

  /** After a 200 the user's role_id names a stored role. */
  lemma AssignedRoleExists(users: Collection, roles: Collection, userId: string, body: Value, now: int, k: nat)
    requires UpdateUserRoleOutcome(users, roles, userId, body).status == 200
    requires k < |users| && users[k].id == Lower(userId)
    ensures var after := UpdateById(users, Lower(userId),
                                    map["role_id" := ObjectId(ObjectIdOf(body.fields["role_id"]).value), "updated_at" := DateTime(now)]);
      after[k].doc["role_id"].ObjectId? && HasId(roles, after[k].doc["role_id"].hex)
  {
    var oid := ObjectIdOf(body.fields["role_id"]).value;
    var data := map["role_id" := ObjectId(oid), "updated_at" := DateTime(now)];
    var after := UpdateById(users, Lower(userId), data);
    assert after[k].doc == users[k].doc + data;
    assert after[k].doc["role_id"] == ObjectId(oid);
  }

  // ------------------------------------------------------------------ delete_user

  /**
   * delete_user(user_id) as written: the self-check compares str(current_user['_id'])
   * with the path text itself, before ObjectId() reads that text.
   */
  function DeleteUserOutcomeAsWritten(users: Collection, callerId: string, userId: string): Response {
    if callerId == userId then Response(400, "Cannot delete your own account")
    else match FindById(users, userId)
      case Err(e) => Response(500, e)
      case Ok(None) => Response(404, "User not found")
      case Ok(Some(_)) => Response(200, "User deleted successfully")
  }

  /**
   * ObjectId() reads upper-case hex digits too, so the caller's own id in upper case
   * passes the check as written and the caller is deleted.
   */
  lemma SelfDeletionAsWritten(users: Collection, callerId: string, userId: string)
    requires IsCanonicalId(callerId) && HasId(users, callerId)
    requires IsObjectIdText(userId) && Lower(userId) == callerId && userId != callerId
    ensures DeleteUserOutcomeAsWritten(users, callerId, userId).status == 200
    ensures !HasId(DeleteById(users, Lower(userId)), callerId)
  {
  }

  /**
   * Such a text exists for every id with one of the letters a-f among its digits:
   * the same id with that letter in upper case.
   */
  lemma UpperCaseVariantExists(callerId: string, i: nat)
    requires IsCanonicalId(callerId) && i < |callerId| && 'a' <= callerId[i] <= 'f'
    ensures var userId := callerId[i := (callerId[i] as int - 32) as char];
      IsObjectIdText(userId) && Lower(userId) == callerId && userId != callerId
  {
    var userId := callerId[i := (callerId[i] as int - 32) as char];
    assert forall j :: 0 <= j < |callerId| ==> LowerChar(callerId[j]) == callerId[j] by {
      forall j | 0 <= j < |callerId| ensures LowerChar(callerId[j]) == callerId[j] {
        assert Lower(callerId)[j] == LowerChar(callerId[j]);
      }
    }
    assert forall j :: 0 <= j < |userId| ==> Lower(userId)[j] == callerId[j];
  }

  /** delete_user with the self-check on the id the path denotes, as the check intends. */
  function DeleteUserOutcome(users: Collection, callerId: string, userId: string): (r: Response)
    ensures r.status == 400 <==> callerId == userId || ParseObjectId(userId) == Some(callerId)
    ensures r.status == 200 ==> IsObjectIdText(userId) && HasId(users, Lower(userId)) && Lower(userId) != callerId
  {
    if callerId == userId || ParseObjectId(userId) == Some(callerId) then Response(400, "Cannot delete your own account")
    else match FindById(users, userId)
      case Err(e) => Response(500, e)
      case Ok(None) => Response(404, "User not found")
      case Ok(Some(_)) => Response(200, "User deleted successfully")
  }

  /**
   * With the corrected check a caller never deletes their own account, and a 200
   * removes exactly the user the path names.
   */
  lemma DeleteUserNeverSelf(users: Collection, callerId: string, userId: string, r: Record)
    requires DeleteUserOutcome(users, callerId, userId).status == 200
    ensures HasId(DeleteById(users, Lower(userId)), callerId) <==> HasId(users, callerId)
    ensures r in DeleteById(users, Lower(userId)) <==> r in users && r.id != Lower(userId)
  {
    DeleteByIdExactly(users, Lower(userId), r);
    if HasId(users, callerId) {
      var i :| 0 <= i < |users| && users[i].id == callerId;
      DeleteByIdExactly(users, Lower(userId), users[i]);
      var j :| 0 <= j < |DeleteById(users, Lower(userId))| && DeleteById(users, Lower(userId))[j] == users[i];
    }
    if HasId(DeleteById(users, Lower(userId)), callerId) {
      var d := DeleteById(users, Lower(userId));
      var j :| 0 <= j < |d| && d[j].id == callerId;
      DeleteByIdExactly(users, Lower(userId), d[j]);
    }
  }

  /** The corrected check differs from the written one only in refusing more requests. */
  lemma DeleteUserCorrectionOnlyRefuses(users: Collection, callerId: string, userId: string)
    ensures DeleteUserOutcome(users, callerId, userId).status != 400 ==>
              DeleteUserOutcome(users, callerId, userId) == DeleteUserOutcomeAsWritten(users, callerId, userId)
  {
  }

  /** delete_user (with the corrected self-check): on 200 that user is removed; otherwise nothing changes. */
  method DeleteUser(db: Db, callerId: string, userId: string) returns (resp: Response)
    requires db.Valid()
    modifies db
    ensures db.Valid()
    ensures resp == DeleteUserOutcome(old(db.users), callerId, userId)
    ensures resp.status == 200 ==> db.users == DeleteById(old(db.users), Lower(userId))
    ensures resp.status != 200 ==> db.users == old(db.users)
    ensures db.roles == old(db.roles) && db.websites == old(db.websites)
  {
    resp := DeleteUserOutcome(db.users, callerId, userId);
    if resp.status == 200 {
      var _ := FlaskUser.DeleteUser(db, userId);
    }
  }

  // ------------------------------------------------------------------ create_role

  const RoleFields := ["name", "description", "permissions"]

  /**
   * create_role: 500 for a body that is not a dict, 400 naming the first of name,
   * description, permissions that is missing or falsy, 409 when a role with that
   * name exists, 201 otherwise.
   */
  function CreateRoleOutcome(roles: Collection, body: Value): (r: Response)
    ensures r.status == 201 ==> body.Dict? && forall j :: 0 <= j < |RoleFields| ==> TruthyAt(body.fields, RoleFields[j])
    ensures r.status == 201 ==> "name" in body.fields
    ensures r.status == 201 ==> forall k :: 0 <= k < |roles| ==> !DocMatches(roles[k].doc, "name", body.fields["name"])
    ensures body.Dict? && FirstMissing(body.fields, RoleFields).Some? ==>
              r == Response(400, RequiredMessage(RoleFields[FirstMissing(body.fields, RoleFields).value]))
  {
    if !body.Dict? then Response(500, "AttributeError")
    else match FirstMissing(body.fields, RoleFields)
      case Some(i) => Response(400, RequiredMessage(RoleFields[i]))
      case None =>
        if FlaskRole.FindByName(roles, body.fields["name"]).Some? then Response(409, "Role name already exists")
        else Response(201, "Role created successfully")
  }

  /** After a 201 the new role is the one stored role with that name. */
  lemma CreatedRoleNameUnique(roles: Collection, body: Value, now: int, newId: string)
    requires CreateRoleOutcome(roles, body).status == 201
    ensures var doc := FlaskRole.RoleDocument(body.fields["name"], body.fields["description"], body.fields["permissions"], now);
      FindAll(Insert(roles, newId, doc), "name", body.fields["name"]) == [Record(newId, doc)]
  {
    var doc := FlaskRole.RoleDocument(body.fields["name"], body.fields["description"], body.fields["permissions"], now);
    FindAllNone(roles, "name", body.fields["name"]);
    var after := Insert(roles, newId, doc);
    assert after[..|after| - 1] == roles;
  }

  /** create_role: on 201 the role is stored under the fresh id; otherwise nothing changes. */
  method CreateRole(db: Db, body: Value, now: int, newId: string) returns (resp: Response, roleId: Option<string>)
    requires db.Valid() && IsCanonicalId(newId) && !HasId(db.roles, newId)
    modifies db
    ensures db.Valid()
    ensures resp == CreateRoleOutcome(old(db.roles), body)
    ensures resp.status == 201 ==> roleId == Some(newId)
    ensures resp.status == 201 ==>
              db.roles == Insert(old(db.roles), newId, FlaskRole.RoleDocument(body.fields["name"], body.fields["description"], body.fields["permissions"], now))
    ensures resp.status != 201 ==> roleId == None && db.roles == old(db.roles)
    ensures db.users == old(db.users) && db.websites == old(db.websites)
  {
    resp := CreateRoleOutcome(db.roles, body);
    roleId := None;
    if resp.status == 201 {
      var id := FlaskRole.SaveRole(db, body.fields["name"], body.fields["description"], body.fields["permissions"], now, newId);
      roleId := Some(id);
    }
  }

  // ------------------------------------------------------------------ update_role

  const RoleUpdateFields := ["description", "permissions"]

  /**
   * update_role(role_id): 404 for an unknown role, 400 for a default role, 400 when
   * the body holds neither description nor permissions, 200 otherwise; an id
   * ObjectId() refuses, a role without a name or a body `in` cannot search gives 500.
   */
  function UpdateRoleOutcome(roles: Collection, roleId: string, body: Value): (r: Response)
    ensures r.status == 200 ==> IsObjectIdText(roleId) && HasId(roles, Lower(roleId))
    ensures r.status == 200 ==> Copied(body, RoleUpdateFields).Ok? && Copied(body, RoleUpdateFields).value != map[]
    ensures FindById(roles, roleId) == Ok(None) ==> r == Response(404, "Role not found")
  {
    match FindById(roles, roleId)
    case Err(e) => Response(500, e)
    case Ok(None) => Response(404, "Role not found")
    case Ok(Some(role)) =>
      if "name" !in role then Response(500, "KeyError")
      else if Reserved(role["name"]) then Response(400, "Cannot modify default roles")
      else match Copied(body, RoleUpdateFields)
        case Err(e) => Response(500, e)
        case Ok(update) =>
          if update == map[] then Response(400, "No valid fields to update")
          else Response(200, "Role updated successfully")
  }

  /** A default role is refused with 400 whatever the body says. */
  lemma DefaultRolesImmutable(roles: Collection, roleId: string, body: Value)
    requires FindById(roles, roleId).Ok? && FindById(roles, roleId).value.Some?
    requires var role := FindById(roles, roleId).value.value; "name" in role && Reserved(role["name"])
    ensures UpdateRoleOutcome(roles, roleId, body) == Response(400, "Cannot modify default roles")
  {
  }

  /** A dict body that names neither description nor permissions is refused with 400. */
  lemma NoRoleFieldsRefused(roles: Collection, roleId: string, body: Doc)
    requires FindById(roles, roleId).Ok? && FindById(roles, roleId).value.Some?
    requires var role := FindById(roles, roleId).value.value; "name" in role && !Reserved(role["name"])
    requires "description" !in body && "permissions" !in body
    ensures UpdateRoleOutcome(roles, roleId, Dict(body)) == Response(400, "No valid fields to update")
  {
    CopiedFromDict(RoleUpdateFields, body);
    var update := Copied(Dict(body), RoleUpdateFields).value;
    assert forall k :: k in RoleUpdateFields ==> k !in body;
    assert update.Keys == {};
  }

  /** update_role: on 200 the whitelisted fields and updated_at are $set; otherwise nothing changes. */
  method UpdateRole(db: Db, roleId: string, body: Value, now: int) returns (resp: Response)
    requires db.Valid()
    modifies db
    ensures db.Valid()
    ensures resp == UpdateRoleOutcome(old(db.roles), roleId, body)
    ensures resp.status == 200 ==>
              db.roles == UpdateById(old(db.roles), Lower(roleId), Copied(body, RoleUpdateFields).value["updated_at" := DateTime(now)])
    ensures resp.status != 200 ==> db.roles == old(db.roles)
    ensures db.users == old(db.users) && db.websites == old(db.websites)
  {
    resp := UpdateRoleOutcome(db.roles, roleId, body);
    if resp.status == 200 {
      var update := CopyFields(body, RoleUpdateFields);
      var _ := FlaskRole.UpdateRole(db, roleId, update.value, now);
    }
  }

  /** update_role never renames a role: every stored name stays as it was. */
  lemma RoleNameNeverChanges(roles: Collection, roleId: string, body: Value, now: int, k: nat)
    requires UpdateRoleOutcome(roles, roleId, body).status == 200 && k < |roles|
    ensures var after := UpdateById(roles, Lower(roleId), Copied(body, RoleUpdateFields).value["updated_at" := DateTime(now)]);
      && after[k].id == roles[k].id
      && ("name" in after[k].doc <==> "name" in roles[k].doc)
      && ("name" in roles[k].doc ==> after[k].doc["name"] == roles[k].doc["name"])
  {
    var update := Copied(body, RoleUpdateFields).value;
    assert "name" !in update;
  }

  // ------------------------------------------------------------------ delete_role

  /** delete_role(role_id): 404 for an unknown role, 400 for a default role, 200 otherwise. */
  function DeleteRoleOutcome(roles: Collection, roleId: string): (r: Response)
    ensures r.status == 200 ==> IsObjectIdText(roleId) && HasId(roles, Lower(roleId))
    ensures r.status == 200 ==> var role := Lookup(roles, Lower(roleId)).value; "name" in role && !Reserved(role["name"])
    ensures FindById(roles, roleId) == Ok(None) ==> r == Response(404, "Role not found")
  {
    match FindById(roles, roleId)
    case Err(e) => Response(500, e)
    case Ok(None) => Response(404, "Role not found")
    case Ok(Some(role)) =>
      if "name" !in role then Response(500, "KeyError")
      else if Reserved(role["name"]) then Response(400, "Cannot delete default roles")
      else Response(200, "Role deleted successfully")
  }

  /** delete_role: on 200 only that role is removed; otherwise nothing changes. */
  method DeleteRole(db: Db, roleId: string) returns (resp: Response)
    requires db.Valid()
    modifies db
    ensures db.Valid()
    ensures resp == DeleteRoleOutcome(old(db.roles), roleId)
    ensures resp.status == 200 ==> db.roles == DeleteById(old(db.roles), Lower(roleId))
    ensures resp.status != 200 ==> db.roles == old(db.roles)
    ensures db.users == old(db.users) && db.websites == old(db.websites)
  {
    resp := DeleteRoleOutcome(db.roles, roleId);
    if resp.status == 200 {
      var _ := FlaskRole.DeleteRole(db, roleId);
    }
  }

  /** The default roles survive delete_role: a role named admin, editor or viewer stays stored. */
  lemma DefaultRolesSurvive(roles: Collection, roleId: string, k: nat)
    requires WellKeyed(roles) && k < |roles| && "name" in roles[k].doc && Reserved(roles[k].doc["name"])
    ensures DeleteRoleOutcome(roles, roleId).status == 200 ==> roles[k] in DeleteById(roles, Lower(roleId))
  {
    if DeleteRoleOutcome(roles, roleId).status == 200 {
      var i := IndexOfId(roles, Lower(roleId)).value;
      assert i != k;
      DeleteByIdExactly(roles, Lower(roleId), roles[k]);
    }
  }

  // -------------------------------------------------------------- admin_dashboard

  datatype Statistics = Statistics(totalUsers: nat, totalWebsites: nat, publishedWebsites: nat, totalRoles: nat)

  /** admin_dashboard's counts: the sizes of the three collections and of the published websites. */
  function Dashboard(users: Collection, websites: Collection, roles: Collection): (s: Statistics)
    ensures s.publishedWebsites <= s.totalWebsites
    ensures s.totalUsers == |users| && s.totalWebsites == |websites| && s.totalRoles == |roles|
  {
    Statistics(|users|, |websites|, |FlaskWebsite.GetPublished(websites)|, |roles|)
  }

  /** Every website counted as published is a stored website whose is_published matches True. */
  lemma PublishedCountExact(websites: Collection)
    ensures Dashboard([], websites, []).publishedWebsites == |FindAll(websites, "is_published", Bool(true))|
    ensures forall w :: w in FlaskWebsite.GetPublished(websites) ==> w in websites && DocMatches(w.doc, "is_published", Bool(true))
  {
    forall w | w in FlaskWebsite.GetPublished(websites)
      ensures w in websites && DocMatches(w.doc, "is_published", Bool(true))
    {
      FlaskWebsite.GetPublishedExactly(websites, w);
    }
  }
}
