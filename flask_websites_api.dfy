/**
 * The website routes of app.api.websites, as they run once require_auth and
 * require_permission have let the request through: listing, reading, updating and
 * deleting a website, and the unauthenticated preview. Only an admin or the owner
 * may change a website; admins and viewers may read any.
 */
module FlaskWebsitesApi {
  import opened Wrappers
  import opened PyText
  import opened PyValues
  import opened FlaskDb
  import opened FlaskApi
  import FlaskWebsite

  /**
   * `str(website_data['owner_id']) != str(request.current_user['_id'])` negated: the
   * website is the caller's. None where the document has no owner_id (KeyError).
   */
  function IsOwnWebsite(website: Doc, caller: Caller, show: Value -> string): (r: Option<bool>)
    ensures r.Some? <==> "owner_id" in website
    ensures "owner_id" in website && website["owner_id"] == ObjectId(caller.id) ==> r == Some(true)
  {
    if "owner_id" !in website then None else Some(IdString(website["owner_id"], show) == caller.id)
  }

  /** A website as the handlers answer with it: _id and owner_id as text; None where owner_id is missing. */
  function ListedWebsite(r: Record, show: Value -> string): (w: Option<Doc>)
    ensures w.Some? <==> "owner_id" in r.doc
    ensures w.Some? ==> w.value.Keys == r.doc.Keys + {"_id"} && w.value["_id"] == Str(r.id)
    ensures w.Some? ==> w.value["owner_id"] == Str(IdString(r.doc["owner_id"], show))
    ensures w.Some? ==> forall key :: key in r.doc && key != "_id" && key != "owner_id" ==> w.value[key] == r.doc[key]
  {
    if "owner_id" !in r.doc then None
    else Some(r.doc["_id" := Str(r.id)]["owner_id" := Str(IdString(r.doc["owner_id"], show))])
  }

  function WebsiteEntry(show: Value -> string): Record -> Option<Doc> {
    r => ListedWebsite(r, show)
  }

  /** The websites get_websites reads before rewriting them: all of them for an admin, else the caller's. */
  function VisibleWebsites(websites: Collection, caller: Caller): (r: Result<Collection>)
    ensures RoleName(caller).Err? ==> r.Err?
    ensures RoleName(caller) == Ok(Str("admin")) ==> r == Ok(websites)
    ensures RoleName(caller).Ok? && RoleName(caller).value != Str("admin") ==> r == FlaskWebsite.FindByOwner(websites, caller.id)
  {
    match RoleName(caller)
    case Err(e) => Err(e)
    case Ok(name) => if name == Str("admin") then Ok(websites) else FlaskWebsite.FindByOwner(websites, caller.id)
  }

  /** A non-admin sees exactly the websites whose owner_id is their id. */
  lemma NonAdminSeesOwn(websites: Collection, caller: Caller, w: Record)
    requires IsCanonicalId(caller.id) && RoleName(caller).Ok? && RoleName(caller).value != Str("admin")
    ensures VisibleWebsites(websites, caller).Ok?
    ensures w in VisibleWebsites(websites, caller).value <==> w in websites && DocMatches(w.doc, "owner_id", ObjectId(caller.id))
  {
    FlaskWebsite.FindByOwnerExactly(websites, caller.id, w);
  }

  /**
   * get_websites: 200 and the visible websites with their ids as text, or 500 when
   * the role is not a dict, the caller's id is refused or a website has no owner_id.
   * The store is only read.
   */
  method GetWebsites(db: Db, caller: Caller, show: Value -> string) returns (status: nat, listing: seq<Doc>)
    ensures status == 200 || status == 500
    ensures status == 200 <==> VisibleWebsites(db.websites, caller).Ok? && Listing(VisibleWebsites(db.websites, caller).value, WebsiteEntry(show)).Some?
    ensures status == 200 ==> listing == Listing(VisibleWebsites(db.websites, caller).value, WebsiteEntry(show)).value
  {
    var visible := VisibleWebsites(db.websites, caller);
    if visible.Err? {
      return 500, [];
    }
    var r := ListEach(visible.value, WebsiteEntry(show));
    if r.None? {
      return 500, [];
    }
    status, listing := 200, r.value;
  }

  /** The roles that may read any website. */
  predicate ReadsAny(name: Value) {
    name == Str("admin") || name == Str("viewer")
  }

  /**
   * The ownership gate of get_website, update_website, delete_website and
   * regenerate_content: those the predicate `privileged` admits pass, anyone else only
   * for their own website (403 otherwise); 500 where the role or owner_id cannot be read.
   */
  function AccessGate(website: Doc, caller: Caller, privileged: Value -> bool, show: Value -> string): (r: Option<Response>)
    ensures r.None? <==> RoleName(caller).Ok? && (privileged(RoleName(caller).value) || IsOwnWebsite(website, caller, show) == Some(true))
    ensures r.Some? ==> r.value.status == 403 || r.value.status == 500
  {
    match RoleName(caller)
    case Err(e) => Some(Response(500, e))
    case Ok(name) =>
      if privileged(name) then None
      else match IsOwnWebsite(website, caller, show)
        case None => Some(Response(500, "KeyError"))
        case Some(own) => if own then None else Some(Response(403, "Access denied"))
  }

  function IsAdminName(name: Value): bool { name == Str("admin") }

  const AdminOnly: Value -> bool := IsAdminName
  const AdminOrViewer: Value -> bool := ReadsAny

  /** A caller whose role is neither admin nor viewer reading some one else's website gets 403. */
  lemma ForeignWebsiteDenied(website: Doc, caller: Caller, show: Value -> string)
    requires RoleName(caller).Ok? && IsOwnWebsite(website, caller, show) == Some(false)
    ensures !ReadsAny(RoleName(caller).value) ==> AccessGate(website, caller, AdminOrViewer, show) == Some(Response(403, "Access denied"))
    ensures !IsAdminName(RoleName(caller).value) ==> AccessGate(website, caller, AdminOnly, show) == Some(Response(403, "Access denied"))
  {
  }

  /** The owner, whatever their role, always passes the gate. */
  lemma OwnerPasses(website: Doc, caller: Caller, privileged: Value -> bool, show: Value -> string)
    requires caller.role.Dict? && "owner_id" in website && website["owner_id"] == ObjectId(caller.id)
    ensures AccessGate(website, caller, privileged, show).None?
  {
  }

  /**
   * get_website(website_id): 404 for an unknown website, the gate for admin or viewer
   * or owner, then 200 with the website.
   */
  function GetWebsite(websites: Collection, websiteId: string, caller: Caller, show: Value -> string): (r: (Response, Option<Doc>))
    ensures r.0.status == 200 <==> r.1.Some?
    ensures FindById(websites, websiteId) == Ok(None) ==> r.0 == Response(404, "Website not found")
    ensures r.0.status == 200 ==>
              && IsObjectIdText(websiteId) && HasId(websites, Lower(websiteId))
              && var w := websites[IndexOfId(websites, Lower(websiteId)).value];
                 AccessGate(Returned(w), caller, AdminOrViewer, show).None? && r.1 == ListedWebsite(w, show)
  {
    match FindById(websites, websiteId)
    case Err(e) => (Response(500, e), None)
    case Ok(None) => (Response(404, "Website not found"), None)
    case Ok(Some(doc)) =>
      var w := websites[IndexOfId(websites, Lower(websiteId)).value];
      match AccessGate(doc, caller, AdminOrViewer, show)
      case Some(denied) => (denied, None)
      case None =>
        match ListedWebsite(w, show)
        case None => (Response(500, "KeyError"), None)
        case Some(listed) => (Response(200, ""), Some(listed))
  }

  const WebsiteUpdateFields := ["title", "content", "is_published", "template_id"]

  /**
   * update_website(website_id): 404, the admin-or-owner gate, then 400 when the body
   * holds none of title, content, is_published, template_id, and 200 otherwise.
   */
  function UpdateWebsiteOutcome(websites: Collection, websiteId: string, caller: Caller, body: Value, show: Value -> string): (r: Response)
    ensures FindById(websites, websiteId) == Ok(None) ==> r == Response(404, "Website not found")
    ensures r.status == 200 ==>
              && IsObjectIdText(websiteId) && HasId(websites, Lower(websiteId))
              && AccessGate(Lookup(websites, Lower(websiteId)).value, caller, AdminOnly, show).None?
              && Copied(body, WebsiteUpdateFields).Ok? && Copied(body, WebsiteUpdateFields).value != map[]
  {
    match FindById(websites, websiteId)
    case Err(e) => Response(500, e)
    case Ok(None) => Response(404, "Website not found")
    case Ok(Some(doc)) =>
      match AccessGate(doc, caller, AdminOnly, show)
      case Some(denied) => denied
      case None =>
        match Copied(body, WebsiteUpdateFields)
        case Err(e) => Response(500, e)
        case Ok(update) =>
          if update == map[] then Response(400, "No valid fields to update")
          else Response(200, "Website updated successfully")
  }

  /** update_website: on 200 the whitelisted fields and updated_at are $set; otherwise nothing changes. */
  method UpdateWebsite(db: Db, websiteId: string, caller: Caller, body: Value, now: int, show: Value -> string) returns (resp: Response)
    requires db.Valid()
    modifies db
    ensures db.Valid()
    ensures resp == UpdateWebsiteOutcome(old(db.websites), websiteId, caller, body, show)
    ensures resp.status == 200 ==>
              db.websites == UpdateById(old(db.websites), Lower(websiteId), Copied(body, WebsiteUpdateFields).value["updated_at" := DateTime(now)])
    ensures resp.status != 200 ==> db.websites == old(db.websites)
    ensures db.users == old(db.users) && db.roles == old(db.roles)
  {
    resp := UpdateWebsiteOutcome(db.websites, websiteId, caller, body, show);
    if resp.status == 200 {
      var update := CopyFields(body, WebsiteUpdateFields);
      var _ := FlaskWebsite.UpdateWebsite(db, websiteId, update.value, now);
    }
  }

  /** update_website never changes a website's owner, and changes no other website. */
  lemma UpdateWebsiteKeepsOwner(websites: Collection, websiteId: string, caller: Caller, body: Value, now: int, show: Value -> string, k: nat)
    requires UpdateWebsiteOutcome(websites, websiteId, caller, body, show).status == 200 && k < |websites|
    ensures var after := UpdateById(websites, Lower(websiteId), Copied(body, WebsiteUpdateFields).value["updated_at" := DateTime(now)]);
      && ("owner_id" in after[k].doc <==> "owner_id" in websites[k].doc)
      && ("owner_id" in websites[k].doc ==> after[k].doc["owner_id"] == websites[k].doc["owner_id"])
      && (websites[k].id != Lower(websiteId) ==> after[k] == websites[k])
  {
    var update := Copied(body, WebsiteUpdateFields).value;
    assert "owner_id" !in update;
    FlaskWebsite.UpdateKeepsOwner(websites, Lower(websiteId), update, now, k);
  }

  /** A caller who is neither admin nor owner gets 403 and the website stays as it was. */
  lemma UpdateByOthersRefused(websites: Collection, websiteId: string, caller: Caller, body: Value, show: Value -> string)
    requires FindById(websites, websiteId).Ok? && FindById(websites, websiteId).value.Some?
    requires RoleName(caller).Ok? && !IsAdminName(RoleName(caller).value)
    requires IsOwnWebsite(FindById(websites, websiteId).value.value, caller, show) == Some(false)
    ensures UpdateWebsiteOutcome(websites, websiteId, caller, body, show) == Response(403, "Access denied")
  {
  }

  /** delete_website(website_id): 404, the admin-or-owner gate, then 200. */
  function DeleteWebsiteOutcome(websites: Collection, websiteId: string, caller: Caller, show: Value -> string): (r: Response)
    ensures FindById(websites, websiteId) == Ok(None) ==> r == Response(404, "Website not found")
    ensures r.status == 200 ==>
              && IsObjectIdText(websiteId) && HasId(websites, Lower(websiteId))
              && AccessGate(Lookup(websites, Lower(websiteId)).value, caller, AdminOnly, show).None?
  {
    match FindById(websites, websiteId)
    case Err(e) => Response(500, e)
    case Ok(None) => Response(404, "Website not found")
    case Ok(Some(doc)) =>
      match AccessGate(doc, caller, AdminOnly, show)
      case Some(denied) => denied
      case None => Response(200, "Website deleted successfully")
  }

  /** delete_website: on 200 only that website is removed; otherwise nothing changes. */
  method DeleteWebsite(db: Db, websiteId: string, caller: Caller, show: Value -> string) returns (resp: Response)
    requires db.Valid()
    modifies db
    ensures db.Valid()
    ensures resp == DeleteWebsiteOutcome(old(db.websites), websiteId, caller, show)
    ensures resp.status == 200 ==> db.websites == DeleteById(old(db.websites), Lower(websiteId))
    ensures resp.status != 200 ==> db.websites == old(db.websites)
    ensures db.users == old(db.users) && db.roles == old(db.roles)
  {
    resp := DeleteWebsiteOutcome(db.websites, websiteId, caller, show);
    if resp.status == 200 {
      var _ := FlaskWebsite.DeleteWebsite(db, websiteId);
    }
  }

  /** What the preview template is given: the title and the four content blocks. */
  datatype PreviewPage = PreviewPage(title: Value, hero: Value, about: Value, services: Value, contact: Value)

  /** preview_website answers with a plain-text status, or renders the page. */
  datatype Preview = NotShown(response: Response) | Shown(page: PreviewPage)

  /**
   * preview_website(website_id), which needs no login: 404 for an unknown website,
   * 403 unless is_published is truthy, then the page; 500 where the id is refused or
   * the content is not a dict.
   */
  function PreviewWebsite(websites: Collection, websiteId: string): (r: Preview)
    ensures FindById(websites, websiteId) == Ok(None) ==> r == NotShown(Response(404, "Website not found"))
    ensures r.Shown? ==> IsObjectIdText(websiteId) && Lookup(websites, Lower(websiteId)).Some?
    ensures r.Shown? ==> TruthyAt(Lookup(websites, Lower(websiteId)).value, "is_published")
  {
    match FindById(websites, websiteId)
    case Err(e) => NotShown(Response(500, "Error: " + e))
    case Ok(None) => NotShown(Response(404, "Website not found"))
    case Ok(Some(doc)) =>
      if !Truthy(Get(doc, "is_published", Bool(false))) then NotShown(Response(403, "Website not published"))
      else
        var content := Get(doc, "content", Dict(map[]));
        if !content.Dict? then NotShown(Response(500, "Error: AttributeError"))
        else
          var c := content.fields;
          Shown(PreviewPage(Get(doc, "title", Str("Website")), Get(c, "hero", Dict(map[])), Get(c, "about", Dict(map[])),
                            Get(c, "services", List([])), Get(c, "contact", Dict(map[]))))
  }

  /** An unpublished website is never shown, to anyone. */
  lemma UnpublishedNotShown(websites: Collection, websiteId: string)
    requires FindById(websites, websiteId).Ok? && FindById(websites, websiteId).value.Some?
    requires !TruthyAt(FindById(websites, websiteId).value.value, "is_published")
    ensures PreviewWebsite(websites, websiteId) == NotShown(Response(403, "Website not published"))
  {
  }
}
