/**
 * app.models.website of the Flask back-end: the website document, its insertion,
 * the $set update, the owner and published filters, and deletion.
 */
module FlaskWebsite {
  import opened Wrappers
  import opened PyText
  import opened PyValues
  import opened FlaskDb

  /**
   * The document Website(...).save() inserts. `ownerId` is the owner's id as
   * ObjectId(owner_id) stores it; business_type, industry and template_id default to
   * None and is_published to False.
   */
  function WebsiteDocument(title: Value, content: Value, ownerId: string, businessType: Value, industry: Value,
                           templateId: Value, isPublished: Value, now: int): (d: Doc)
    ensures d.Keys == {"title", "content", "owner_id", "business_type", "industry", "template_id", "is_published", "created_at", "updated_at"}
    ensures d["owner_id"] == ObjectId(ownerId) && d["is_published"] == isPublished
  {
    map["title" := title, "content" := content, "owner_id" := ObjectId(ownerId),
        "business_type" := businessType, "industry" := industry, "template_id" := templateId,
        "is_published" := isPublished, "created_at" := DateTime(now), "updated_at" := DateTime(now)]
  }

  /** Website(title, content, owner_id) with the constructor's defaults. */
  function DefaultWebsiteDocument(title: Value, content: Value, ownerId: string, now: int): (d: Doc)
    ensures "is_published" in d && "business_type" in d && "industry" in d && "template_id" in d
    ensures d["is_published"] == Bool(false) && d["business_type"] == Null && d["industry"] == Null && d["template_id"] == Null
  {
    WebsiteDocument(title, content, ownerId, Null, Null, Null, Bool(false), now)
  }

  /** Website.save: ObjectId(owner_id) raises on a malformed owner id; otherwise the document is appended. */
  method SaveWebsite(db: Db, title: Value, content: Value, ownerId: string, businessType: Value, industry: Value,
                     templateId: Value, isPublished: Value, now: int, newId: string) returns (r: Result<string>)
    requires db.Valid() && IsCanonicalId(newId) && !HasId(db.websites, newId)
    modifies db
    ensures db.Valid()
    ensures r.Err? <==> !IsObjectIdText(ownerId)
    ensures r.Err? ==> db.websites == old(db.websites)
    ensures r.Ok? ==> r.value == newId
    ensures r.Ok? ==> db.websites == Insert(old(db.websites), newId, WebsiteDocument(title, content, Lower(ownerId), businessType, industry, templateId, isPublished, now))
    ensures db.users == old(db.users) && db.roles == old(db.roles)
  {
    var owner := ParseObjectId(ownerId);
    if owner.None? {
      return Err("InvalidId");
    }
    var doc := WebsiteDocument(title, content, owner.value, businessType, industry, templateId, isPublished, now);
    InsertKeepsKeys(db.websites, newId, doc);
    db.websites := Insert(db.websites, newId, doc);
    r := Ok(newId);
  }

  /** Website.find_by_owner: Err where ObjectId raises, otherwise the websites owned by that id. */
  function FindByOwner(websites: Collection, ownerId: string): (r: Result<Collection>)
    ensures r.Err? <==> !IsObjectIdText(ownerId)
  {
    match ParseObjectId(ownerId)
    case None => Err("InvalidId")
    case Some(id) => Ok(FindAll(websites, "owner_id", ObjectId(id)))
  }

  /** Website.get_published_websites */
  function GetPublished(websites: Collection): Collection {
    FindAll(websites, "is_published", Bool(true))
  }

  /** find_by_owner returns exactly the stored websites whose owner_id is that id. */
  lemma FindByOwnerExactly(websites: Collection, ownerId: string, w: Record)
    requires IsCanonicalId(ownerId)
    ensures FindByOwner(websites, ownerId) == Ok(FindAll(websites, "owner_id", ObjectId(ownerId)))
    ensures w in FindByOwner(websites, ownerId).value <==> w in websites && DocMatches(w.doc, "owner_id", ObjectId(ownerId))
  {
    FindAllExactly(websites, "owner_id", ObjectId(ownerId), w);
  }

  /** get_published_websites returns exactly the stored websites whose is_published matches True. */
  lemma GetPublishedExactly(websites: Collection, w: Record)
    ensures w in GetPublished(websites) <==> w in websites && DocMatches(w.doc, "is_published", Bool(true))
    ensures |GetPublished(websites)| <= |websites|
  {
    FindAllExactly(websites, "is_published", Bool(true), w);
  }

  /** Website.update_website: data gains updated_at and is $set into the website with that id. */
  method UpdateWebsite(db: Db, websiteId: string, data: Doc, now: int) returns (r: Result<Doc>)
    requires db.Valid()
    modifies db
    ensures db.Valid()
    ensures r.Err? <==> !IsObjectIdText(websiteId)
    ensures r.Err? ==> db.websites == old(db.websites)
    ensures r.Ok? ==> r.value == data["updated_at" := DateTime(now)]
    ensures r.Ok? ==> db.websites == UpdateById(old(db.websites), Lower(websiteId), r.value)
    ensures db.users == old(db.users) && db.roles == old(db.roles)
  {
    var stamped := data["updated_at" := DateTime(now)];
    var id := ParseObjectId(websiteId);
    if id.None? {
      return Err("InvalidId");
    }
    UpdateKeepsKeys(db.websites, id.value, stamped);
    db.websites := UpdateById(db.websites, id.value, stamped);
    r := Ok(stamped);
  }

  /**
   * The $set merge keeps an updated website's owner unless the data names owner_id,
   * and changes no other website.
   */
  lemma UpdateKeepsOwner(websites: Collection, id: string, data: Doc, now: int, k: nat)
    requires k < |websites| && "owner_id" !in data
    ensures var r := UpdateById(websites, id, data["updated_at" := DateTime(now)]);
      && r[k].id == websites[k].id
      && ("owner_id" in r[k].doc <==> "owner_id" in websites[k].doc)
      && ("owner_id" in websites[k].doc ==> r[k].doc["owner_id"] == websites[k].doc["owner_id"])
      && (websites[k].id != id ==> r[k] == websites[k])
  {
  }

  /** Website.delete_website */
  method DeleteWebsite(db: Db, websiteId: string) returns (r: Result<()>)
    requires db.Valid()
    modifies db
    ensures db.Valid()
    ensures r.Err? <==> !IsObjectIdText(websiteId)
    ensures r.Err? ==> db.websites == old(db.websites)
    ensures r.Ok? ==> db.websites == DeleteById(old(db.websites), Lower(websiteId))
    ensures db.users == old(db.users) && db.roles == old(db.roles)
  {
    var id := ParseObjectId(websiteId);
    if id.None? {
      return Err("InvalidId");
    }
    DeleteKeepsKeys(db.websites, id.value);
    db.websites := DeleteById(db.websites, id.value);
    r := Ok(());
  }
}
