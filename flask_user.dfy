/**
 * app.models.user of the Flask back-end, as far as the handlers use it: the user
 * document, lookups by id and by email, the role update and deletion. Password
 * hashing is left to the callers (a hash value is passed in).
 */
module FlaskUser {
  import opened Wrappers
  import opened PyText
  import opened PyValues
  import opened FlaskDb

  /** The document User(email, password, role_id, is_active).save() inserts, with the password already hashed. */
  function UserDocument(email: Value, passwordHash: string, roleId: Value, isActive: Value, now: int): (d: Doc)
    ensures d.Keys == {"email", "password_hash", "role_id", "is_active", "created_at", "updated_at"}
    ensures d["email"] == email && d["role_id"] == roleId && d["is_active"] == isActive
  {
    map["email" := email, "password_hash" := Str(passwordHash), "role_id" := roleId, "is_active" := isActive,
        "created_at" := DateTime(now), "updated_at" := DateTime(now)]
  }

  /** User.save */
  method SaveUser(db: Db, doc: Doc, newId: string) returns (id: string)
    requires db.Valid() && IsCanonicalId(newId) && !HasId(db.users, newId)
    modifies db
    ensures db.Valid() && id == newId
    ensures db.users == Insert(old(db.users), newId, doc)
    ensures db.roles == old(db.roles) && db.websites == old(db.websites)
  {
    InsertKeepsKeys(db.users, newId, doc);
    db.users := Insert(db.users, newId, doc);
    id := newId;
  }

  /** User.find_by_email: the first user whose email matches. */
  function FindByEmail(users: Collection, email: Value): (r: Option<Doc>)
    ensures r.Some? <==> exists k :: 0 <= k < |users| && DocMatches(users[k].doc, "email", email)
    ensures r.Some? ==> "_id" in r.value && r.value["_id"].ObjectId? && HasId(users, r.value["_id"].hex)
  {
    match FindFirst(users, "email", email)
    case Some(k) => Some(Returned(users[k]))
    case None => None
  }

  /**
   * User.update_user_role: both ids go through ObjectId(), then role_id and
   * updated_at are $set. The role id is a request value other than None (ObjectId(None)
   * would make up a fresh id; the one caller checks role_id for truth first).
   */
  method UpdateUserRole(db: Db, userId: string, roleId: Value, now: int) returns (r: Result<Doc>)
    requires db.Valid() && roleId != Null
    modifies db
    ensures db.Valid()
    ensures r.Err? <==> !IsObjectIdText(userId) || ObjectIdOf(roleId).None?
    ensures r.Err? ==> db.users == old(db.users)
    ensures r.Ok? ==> r.value == map["role_id" := ObjectId(ObjectIdOf(roleId).value), "updated_at" := DateTime(now)]
    ensures r.Ok? ==> db.users == UpdateById(old(db.users), Lower(userId), r.value)
    ensures db.roles == old(db.roles) && db.websites == old(db.websites)
  {
    var uid := ParseObjectId(userId);
    if uid.None? {
      return Err("InvalidId");
    }
    var rid := ObjectIdOf(roleId);
    if rid.None? {
      return Err("InvalidId");
    }
    var data := map["role_id" := ObjectId(rid.value), "updated_at" := DateTime(now)];
    UpdateKeepsKeys(db.users, uid.value, data);
    db.users := UpdateById(db.users, uid.value, data);
    r := Ok(data);
  }

  /** User.delete_user */
  method DeleteUser(db: Db, userId: string) returns (r: Result<()>)
    requires db.Valid()
    modifies db
    ensures db.Valid()
    ensures r.Err? <==> !IsObjectIdText(userId)
    ensures r.Err? ==> db.users == old(db.users)
    ensures r.Ok? ==> db.users == DeleteById(old(db.users), Lower(userId))
    ensures db.roles == old(db.roles) && db.websites == old(db.websites)
  {
    var id := ParseObjectId(userId);
    if id.None? {
      return Err("InvalidId");
    }
    DeleteKeepsKeys(db.users, id.value);
    db.users := DeleteById(db.users, id.value);
    r := Ok(());
  }
}
