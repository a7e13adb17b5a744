/**
 * The views of website_builder: which websites a caller sees, the object gates of
 * the detail, publish, section, preview, analytics and clone views, website
 * creation with its generated content and four default sections, the preview's
 * page-view counter, the analytics totals and cloning. The provider's reply and
 * the JSON parser are parameters; fresh ids, the clock and the day are arguments.
 */
module DjangoWebsiteViews {
  import opened Wrappers
  import opened PyValues
  import opened DjangoRbac
  import opened DjangoWebsiteModel
  import opened DjangoStore
  import AiService
  import ContentOptimizer
  import Layout
  import WebsiteSerializers

  /**
   * The body DRF gives the Http404 of get_object_or_404 for a missing id. The views pass
   * the mongoengine Document Website, for which the call raises ValueError instead (see
   * GetObjectOr404); the gates here model the lookup the views evidently intend.
   */
  const NotFound := "Not found."
  const AccessDenial := "You don't have permission to access this website"
  const DeleteDenial := "You don't have permission to delete this website"
  const PublishDenial := "You don't have permission to publish this website"
  const EditDenial := "You don't have permission to edit this website"
  const PermissionDenied := "Permission denied"

  // ---------------------------------------------------------------------------
  // Lookups and queryset scoping

  function OwnedBy(owner: string): Website -> bool {
    (w: Website) => w.owner == owner
  }

  function HasWebsiteId(id: string): Website -> bool {
    (w: Website) => w.id == id
  }

  /** Website.objects(pk=id) */
  function WebsiteWithId(websites: seq<Website>, id: string): Option<nat> {
    First(websites, HasWebsiteId(id))
  }

  /** WebsiteListCreateView.get_queryset: every website for an admin, the caller's own otherwise. */
  function VisibleWebsites(websites: seq<Website>, u: User): (r: seq<Website>)
    ensures HasRoleNamed(u, "Admin") ==> r == websites
    ensures forall w :: w in r <==> w in websites && (HasRoleNamed(u, "Admin") || IsOwner(w, u))
  {
    if HasRoleNamed(u, "Admin") then websites else Filter(websites, OwnedBy(u.id))
  }

  /** What a view's object gate decides: the position of the website, or the refusal. */
  datatype Access = Granted(index: nat) | Refused(status: nat, message: string)

  /**
   * The get_object of WebsiteDetailView (and the same test in the section and image
   * views): 404 for an unknown id, then an admin or the owner passes and anyone else
   * gets 403 with the view's message.
   */
  function ObjectGate(websites: seq<Website>, id: string, u: User, denial: string): Access {
    match WebsiteWithId(websites, id)
    case None => Refused(404, NotFound)
    case Some(k) => if HasRoleNamed(u, "Admin") || IsOwner(websites[k], u) then Granted(k) else Refused(403, denial)
  }

  /**
   * The detail view opens exactly the websites the list view shows: a website with the
   * id is granted iff it is in the caller's queryset, and a denial is 404 or 403.
   */
  lemma ObjectGateMatchesQueryset(websites: seq<Website>, id: string, u: User, denial: string)
    ensures var g := ObjectGate(websites, id, u, denial);
      && (g.Granted? ==> g.index < |websites| && websites[g.index].id == id && websites[g.index] in VisibleWebsites(websites, u))
      && (WebsiteWithId(websites, id).Some? && websites[WebsiteWithId(websites, id).value] in VisibleWebsites(websites, u) ==> g.Granted?)
      && ((forall k :: 0 <= k < |websites| ==> websites[k].id != id) ==> g == Refused(404, NotFound))
      && (g.Refused? ==> g == Refused(404, NotFound) || g == Refused(403, denial))
  {
  }

  /** A caller with no role sees their own websites and nobody else's. */
  lemma RolelessSeesOwn(websites: seq<Website>, u: User)
    requires u.role.None?
    ensures forall w :: w in VisibleWebsites(websites, u) <==> w in websites && w.owner == u.id
  {
  }

  // ---------------------------------------------------------------------------
  // get_object_or_404 over a mongoengine Document

  /** What get_object_or_404 is given: a Django model class, or a mongoengine Document class such as Website. */
  datatype ModelClass = DjangoModel | MongoDocument

  /**
   * django.shortcuts.get_object_or_404(klass, pk=id): a Django model's default manager
   * looks the id up (None stands for the Http404 it raises for a missing id); a
   * mongoengine Document class has no _default_manager and no get, so the call raises
   * ValueError whatever the id and whatever is stored.
   */
  function GetObjectOr404(klass: ModelClass, websites: seq<Website>, id: string): (r: Result<Option<nat>>)
    ensures r.Err? <==> klass == MongoDocument
    ensures r.Err? ==> r.error == "ValueError"
    ensures r.Ok? ==> r.value == WebsiteWithId(websites, id)
  {
    if klass == MongoDocument then Err("ValueError") else Ok(WebsiteWithId(websites, id))
  }

  /**
   * The views' object gate with Website passed to get_object_or_404, as the views do:
   * the ValueError is not caught, so the view answers 500 before any permission test.
   */
  function ObjectGateAsWritten(websites: seq<Website>, id: string, u: User, denial: string): Access {
    match GetObjectOr404(MongoDocument, websites, id)
    case Err(e) => Refused(500, e)
    case Ok(_) => ObjectGate(websites, id, u, denial)
  }

  /**
   * The owner of the one stored website is answered 500 by the gate as written, where
   * the gate over a working lookup (the one the rest of this model uses) grants them it.
   */
  lemma OwnerRefusedAsWritten(w: Website, u: User, denial: string)
    requires IsOwner(w, u)
    ensures ObjectGateAsWritten([w], w.id, u, denial) == Refused(500, "ValueError")
    ensures ObjectGate([w], w.id, u, denial) == Granted(0)
    ensures GetObjectOr404(DjangoModel, [w], w.id) == Ok(Some(0))
  {
  }

  // ---------------------------------------------------------------------------
  // Deleting (WebsiteDetailView.perform_destroy)

  /** get_object's test, then can_delete with its own message. */
  function DestroyGate(websites: seq<Website>, id: string, u: User): (r: Access)
    ensures r.Granted? ==> r.index < |websites| && websites[r.index].id == id
  {
    match ObjectGate(websites, id, u, AccessDenial)
    case Refused(s, m) => Refused(s, m)
    case Granted(k) => if CanDelete(websites[k], u) then Granted(k) else Refused(403, DeleteDenial)
  }

  /** A website is deleted exactly when it exists and the caller may delete it. */
  lemma DestroyGateIsCanDelete(websites: seq<Website>, id: string, u: User)
    ensures DestroyGate(websites, id, u).Granted? <==>
            WebsiteWithId(websites, id).Some? && CanDelete(websites[WebsiteWithId(websites, id).value], u)
    ensures WebsiteWithId(websites, id).Some? && !HasRoleNamed(u, "Admin") && !IsOwner(websites[WebsiteWithId(websites, id).value], u) ==>
              DestroyGate(websites, id, u) == Refused(403, AccessDenial)
  {
  }

  /** DELETE on the detail view: 204 and the website removed; its sections stay stored. */
  method DestroyWebsite(db: Db, id: string, u: User) returns (status: nat, message: string)
    modifies db
    ensures var g := DestroyGate(old(db.websites), id, u);
      && (g.Refused? ==> status == g.status && message == g.message && db.websites == old(db.websites))
      && (g.Granted? ==> status == 204 && message == "" && db.websites == old(db.websites)[..g.index] + old(db.websites)[g.index + 1..])
    ensures db.sections == old(db.sections) && db.analytics == old(db.analytics)
    ensures db.users == old(db.users) && db.roles == old(db.roles)
    ensures db.permissions == old(db.permissions) && db.assignments == old(db.assignments)
  {
    var g := DestroyGate(db.websites, id, u);
    if g.Refused? {
      return g.status, g.message;
    }
    db.websites := db.websites[..g.index] + db.websites[g.index + 1..];
    status, message := 204, "";
  }

  // ---------------------------------------------------------------------------
  // Publishing (WebsitePublishView)

  /** 404, then can_edit (403), then the status whitelist (400). */
  function PublishGate(websites: seq<Website>, id: string, u: User, status: string): (r: Access)
    ensures r.Granted? ==> r.index < |websites| && websites[r.index].id == id
  {
    match WebsiteWithId(websites, id)
    case None => Refused(404, NotFound)
    case Some(k) =>
      if !CanEdit(websites[k], u) then Refused(403, PublishDenial)
      else match WebsiteSerializers.ValidateStatus(status)
        case Err(e) => Refused(400, e)
        case Ok(_) => Granted(k)
  }

  /** A status change goes through exactly for an editor of an existing website and a listed status. */
  lemma PublishGateDecision(websites: seq<Website>, id: string, u: User, status: string)
    ensures PublishGate(websites, id, u, status).Granted? <==>
            WebsiteWithId(websites, id).Some? && CanEdit(websites[WebsiteWithId(websites, id).value], u) && status in StatusChoices
    ensures WebsiteWithId(websites, id).Some? && CanEdit(websites[WebsiteWithId(websites, id).value], u) && status !in StatusChoices ==>
              PublishGate(websites, id, u, status) == Refused(400, "Invalid status")
  {
  }

  /**
   * serializer.save() then perform_update: the status is stored, and published_at is
   * set to now when the website is published and had no publication time.
   */
  function Published(w: Website, status: string, now: int): (r: Website)
    ensures r.status == status && r.updatedAt == now
    ensures r.(status := w.status, publishedAt := w.publishedAt, updatedAt := w.updatedAt) == w
  {
    var saved := SaveWebsite(w.(status := status), now);
    if saved.status == "published" && saved.publishedAt.None? then SaveWebsite(saved.(publishedAt := Some(now)), now) else saved
  }

  /** published_at is set exactly once: by the first publication, and kept by every later status change. */
  lemma PublishedAtSetOnce(w: Website, status: string, now: int)
    ensures w.publishedAt.Some? ==> Published(w, status, now).publishedAt == w.publishedAt
    ensures w.publishedAt.None? ==> Published(w, status, now).publishedAt == if status == "published" then Some(now) else None
    ensures forall later: string, t: int :: Published(Published(w, "published", now), later, t).publishedAt == Published(w, "published", now).publishedAt
  {
  }

  /** PATCH/PUT on the publish view: 200 with the new status, or the gate's refusal. */
  method PublishWebsite(db: Db, id: string, u: User, status: string, now: int) returns (code: nat, message: string)
    modifies db
    ensures var g := PublishGate(old(db.websites), id, u, status);
      && (g.Refused? ==> code == g.status && message == g.message && db.websites == old(db.websites))
      && (g.Granted? ==> code == 200 && message == status &&
                         db.websites == old(db.websites)[g.index := Published(old(db.websites)[g.index], status, now)])
    ensures db.sections == old(db.sections) && db.analytics == old(db.analytics)
    ensures db.users == old(db.users) && db.roles == old(db.roles)
    ensures db.permissions == old(db.permissions) && db.assignments == old(db.assignments)
  {
    var g := PublishGate(db.websites, id, u, status);
    if g.Refused? {
      return g.status, g.message;
    }
    db.websites := db.websites[g.index := Published(db.websites[g.index], status, now)];
    code, message := 200, status;
  }

  // ---------------------------------------------------------------------------
  // Sections of a website (WebsiteSectionListCreateView)

  function SectionOf(websiteId: string): WebsiteSection -> bool {
    (s: WebsiteSection) => s.website == websiteId
  }

  /** website.sections: the sections that reference the website. */
  function SectionsOf(sections: seq<WebsiteSection>, websiteId: string): (r: seq<WebsiteSection>)
    ensures forall s :: s in r <==> s in sections && s.website == websiteId
  {
    Filter(sections, SectionOf(websiteId))
  }

  /** get_queryset: the object gate, then the website's sections. */
  function SectionList(websites: seq<Website>, sections: seq<WebsiteSection>, id: string, u: User): (r: Result<seq<WebsiteSection>>)
    ensures r.Ok? ==> ObjectGate(websites, id, u, AccessDenial).Granted?
    ensures r.Ok? ==> forall s :: s in r.value <==> s in sections && s.website == id
    ensures r.Err? ==> ObjectGate(websites, id, u, AccessDenial).Refused? && r.error == ObjectGate(websites, id, u, AccessDenial).message
  {
    match ObjectGate(websites, id, u, AccessDenial)
    case Refused(_, m) => Err(m)
    case Granted(k) => Ok(SectionsOf(sections, websites[k].id))
  }

  /** perform_create: 404, then can_edit (403); the new section is saved for that website. */
  function SectionCreateGate(websites: seq<Website>, id: string, u: User): (r: Access)
    ensures r.Granted? <==> WebsiteWithId(websites, id).Some? && CanEdit(websites[WebsiteWithId(websites, id).value], u)
    ensures r.Granted? ==> r.index < |websites| && websites[r.index].id == id
  {
    match WebsiteWithId(websites, id)
    case None => Refused(404, NotFound)
    case Some(k) => if CanEdit(websites[k], u) then Granted(k) else Refused(403, EditDenial)
  }

  /** POST on a website's sections: 201 and the section appended with its website set. */
  method CreateSection(db: Db, id: string, u: User, section: WebsiteSection) returns (status: nat, message: string)
    modifies db
    ensures var g := SectionCreateGate(old(db.websites), id, u);
      && (g.Refused? ==> status == g.status && message == g.message && db.sections == old(db.sections))
      && (g.Granted? ==> status == 201 && db.sections == old(db.sections) + [section.(website := old(db.websites)[g.index].id)])
    ensures db.websites == old(db.websites) && db.analytics == old(db.analytics)
    ensures db.users == old(db.users) && db.roles == old(db.roles)
    ensures db.permissions == old(db.permissions) && db.assignments == old(db.assignments)
  {
    var g := SectionCreateGate(db.websites, id, u);
    if g.Refused? {
      return g.status, g.message;
    }
    db.sections := db.sections + [section.(website := db.websites[g.index].id)];
    status, message := 201, "";
  }

  // ---------------------------------------------------------------------------
  // Creating a website (WebsiteListCreateView.perform_create)

  /** The create serializer's validated fields. */
  datatype CreateRequest = CreateRequest(title: string, description: Option<string>, businessType: string, industry: string,
                                         templateType: Option<string>, businessName: string)

  /** What generate_website_content returns, as AiService.GenerateWebsiteContent specifies it. */
  function Generated(reply: AiService.ProviderResult, parse: string -> Option<Value>,
                     businessType: string, industry: string, businessName: string): Doc {
    match AiService.ReplyOutcome(reply, parse)
    case Some(d) => d
    case None => AiService.FallbackContent(businessType, industry, businessName)
  }

  /**
   * A StringField's validation on save: None leaves the field unset, a str must fit
   * max_length, any other value fails (None here).
   */
  function StringFieldValue(v: Value, maxLength: Option<nat>): (r: Option<Option<string>>)
    ensures r == Some(None) <==> v.Null?
    ensures r.Some? && r.value.Some? ==> v == Str(r.value.value) && (maxLength.Some? ==> |r.value.value| <= maxLength.value)
    ensures v.Str? && (maxLength.None? || |v.s| <= maxLength.value) ==> r == Some(Some(v.s))
  {
    match v
    case Null => Some(None)
    case Str(s) => if maxLength.Some? && |s| > maxLength.value then None else Some(Some(s))
    case _ => None
  }

  /** ListField(DictField()): a list of dictionaries (None stores as empty). */
  function DictListValue(v: Value): (r: Option<seq<Value>>)
    ensures r.Some? ==> forall i :: 0 <= i < |r.value| ==> r.value[i].Dict?
    ensures v.List? && (forall i :: 0 <= i < |v.items| ==> v.items[i].Dict?) ==> r == Some(v.items)
  {
    match v
    case Null => Some([])
    case List(xs) => if forall i :: 0 <= i < |xs| ==> xs[i].Dict? then Some(xs) else None
    case _ => None
  }

  /** DictField: a dictionary (None stores as empty). */
  function DictValue(v: Value): (r: Option<Doc>)
    ensures v.Dict? ==> r == Some(v.fields)
    ensures !v.Dict? && !v.Null? ==> r.None?
  {
    match v
    case Null => Some(map[])
    case Dict(m) => Some(m)
    case _ => None
  }

  /**
   * The eight field assignments of perform_create, the layout and website.save():
   * None when the save's validation rejects a value (hero_title and meta_title up
   * to 200 characters, meta_keywords up to 500).
   */
  function Enriched(w: Website, content: Doc, now: int): (r: Option<Website>)
    ensures r.Some? ==> r.value.layoutData == Some(Layout.GenerateLayoutStructure(w.templateType, content))
    ensures r.Some? ==> r.value.updatedAt == now
    ensures r.Some? ==> r.value.(heroTitle := w.heroTitle, heroSubtitle := w.heroSubtitle, aboutSection := w.aboutSection,
                                 servicesSection := w.servicesSection, contactInfo := w.contactInfo, layoutData := w.layoutData,
                                 metaTitle := w.metaTitle, metaDescription := w.metaDescription, metaKeywords := w.metaKeywords,
                                 updatedAt := w.updatedAt) == w
    ensures r.Some? ==> StringFieldValue(Get(content, "hero_title", Str("")), Some(200)) == Some(r.value.heroTitle)
    ensures r.Some? ==> StringFieldValue(Get(content, "meta_title", Str("")), Some(200)) == Some(r.value.metaTitle)
    ensures r.Some? ==> StringFieldValue(Get(content, "meta_keywords", Str("")), Some(500)) == Some(r.value.metaKeywords)
    ensures r.Some? ==> DictValue(Get(content, "contact_info", Dict(map[]))) == Some(r.value.contactInfo)
  {
    var heroTitle :- StringFieldValue(Get(content, "hero_title", Str("")), Some(200));
    var heroSubtitle :- StringFieldValue(Get(content, "hero_subtitle", Str("")), None);
    var about :- StringFieldValue(Get(content, "about_section", Str("")), None);
    var services :- DictListValue(Get(content, "services", List([])));
    var contact :- DictValue(Get(content, "contact_info", Dict(map[])));
    var metaTitle :- StringFieldValue(Get(content, "meta_title", Str("")), Some(200));
    var metaDescription :- StringFieldValue(Get(content, "meta_description", Str("")), None);
    var metaKeywords :- StringFieldValue(Get(content, "meta_keywords", Str("")), Some(500));
    Some(SaveWebsite(w.(heroTitle := heroTitle, heroSubtitle := heroSubtitle, aboutSection := about, servicesSection := services,
                        contactInfo := contact, layoutData := Some(Layout.GenerateLayoutStructure(w.templateType, content)),
                        metaTitle := metaTitle, metaDescription := metaDescription, metaKeywords := metaKeywords), now))
  }

  /** The sections' types in _create_default_sections. */
  const DefaultSectionTypes := ["hero", "about", "services", "contact"]

  /**
   * _create_default_sections for a website just given its content: hero, about,
   * services and contact, ordered 1 to 4, all visible. The hero and about texts are
   * the values the website was just given.
   */
  function DefaultSections(w: Website, content: Doc): (r: seq<WebsiteSection>)
    ensures |r| == 4
    ensures forall i :: 0 <= i < 4 ==> r[i].website == w.id && r[i].sectionType == DefaultSectionTypes[i]
    ensures forall i :: 0 <= i < 4 ==> r[i].order == i + 1 && r[i].isVisible
  {
    [WebsiteSection(w.id, "hero", w.heroTitle, w.heroSubtitle, map["cta_text" := Str("Get Started"), "cta_link" := Str("#contact")], 1, true),
     WebsiteSection(w.id, "about", Some("About Us"), w.aboutSection, map[], 2, true),
     WebsiteSection(w.id, "services", Some("Our Services"), Some(""), map["services" := Get(content, "services", List([]))], 3, true),
     WebsiteSection(w.id, "contact", Some("Contact Us"), Some("Get in touch with us today"), w.contactInfo, 4, true)]
  }

  /** Every default section has a type of the section choice list, and the four types differ. */
  lemma DefaultSectionTypesListed()
    ensures forall i :: 0 <= i < 4 ==> DefaultSectionTypes[i] in SectionTypes
    ensures forall i, j :: 0 <= i < j < 4 ==> DefaultSectionTypes[i] != DefaultSectionTypes[j]
  {
  }

  /** The website serializer.save() stores. */
  function Created(req: CreateRequest, owner: string, newId: string, now: int): Website {
    NewWebsite(newId, req.title, req.description, req.businessType, req.industry, req.templateType, owner, now)
  }

  /** The name perform_create passes to the generator: `business_name or website.title`. */
  function GenerationName(req: CreateRequest): string {
    if req.businessName != "" then req.businessName else req.title
  }

  /**
   * What the try block of perform_create leaves stored for a website given the
   * generated content: the website enriched and the default sections when the block
   * runs to its end; the website as it was and no sections when optimize_meta_tags
   * or the save's validation raises, the exception being swallowed.
   */
  function Enrichment(created: Website, content: Doc, now: int): (Website, seq<WebsiteSection>) {
    match ContentOptimizer.OptimizeMetaTags(content)
    case None => (created, [])
    case Some(optimized) =>
      var structured := AiService.FillDefaults(optimized, ContentOptimizer.StructureDefaults);
      match Enriched(created, structured, now)
      case None => (created, [])
      case Some(enriched) => (enriched, DefaultSections(enriched, structured))
  }

  /**
   * Whatever the content, the website keeps its id, owner, request fields, status and
   * publication state; it gets either no sections or exactly the four default ones,
   * and the four come with the generated layout.
   */
  lemma EnrichmentKeepsWebsite(created: Website, content: Doc, now: int)
    ensures var (w, sections) := Enrichment(created, content, now);
      && w.id == created.id && w.owner == created.owner && w.title == created.title && w.description == created.description
      && w.businessType == created.businessType && w.industry == created.industry && w.templateType == created.templateType
      && w.status == created.status && w.publishedAt == created.publishedAt && w.createdAt == created.createdAt
      && (sections == [] ==> w == created)
      && (sections != [] ==> |sections| == 4 && w.layoutData.Some?)
      && (forall i :: 0 <= i < |sections| ==>
            sections[i].website == created.id && sections[i].sectionType == DefaultSectionTypes[i] && sections[i].order == i + 1)
  {
  }

  /** The created website has the request's fields, the caller as owner, status draft and no publication time. */
  lemma CreatedFromRequest(req: CreateRequest, owner: string, newId: string, now: int)
    ensures var w := Created(req, owner, newId, now);
      && w.id == newId && w.owner == owner && w.title == req.title && w.description == req.description
      && w.businessType == req.businessType && w.industry == req.industry
      && w.templateType == (if req.templateType.Some? then req.templateType.value else DefaultTemplate)
      && w.status == DefaultStatus && w.publishedAt.None? && w.createdAt == now && w.layoutData.None?
  {
  }

  /** _create_default_sections: one WebsiteSection.objects.create per default section, in order. */
  method CreateDefaultSections(db: Db, w: Website, content: Doc)
    modifies db
    ensures db.sections == old(db.sections) + DefaultSections(w, content)
    ensures db.websites == old(db.websites) && db.analytics == old(db.analytics)
    ensures db.users == old(db.users) && db.roles == old(db.roles)
    ensures db.permissions == old(db.permissions) && db.assignments == old(db.assignments)
  {
    var defaults := DefaultSections(w, content);
    var i := 0;
    while i < |defaults|
      invariant 0 <= i <= |defaults|
      invariant db.sections == old(db.sections) + defaults[..i]
      invariant db.websites == old(db.websites) && db.analytics == old(db.analytics)
      invariant db.users == old(db.users) && db.roles == old(db.roles)
      invariant db.permissions == old(db.permissions) && db.assignments == old(db.assignments)
    {
      assert defaults[..i + 1] == defaults[..i] + [defaults[i]];
      db.sections := db.sections + [defaults[i]];
      i := i + 1;
    }
  }

  /** The try block of perform_create, for the website stored last. */
  method Enrich(db: Db, created: Website, content: Doc, now: int) returns (website: Website)
    requires db.websites != [] && db.websites[|db.websites| - 1] == created
    modifies db
    ensures website == Enrichment(created, content, now).0
    ensures db.websites == old(db.websites)[|old(db.websites)| - 1 := website]
    ensures db.sections == old(db.sections) + Enrichment(created, content, now).1
    ensures db.analytics == old(db.analytics)
    ensures db.users == old(db.users) && db.roles == old(db.roles)
    ensures db.permissions == old(db.permissions) && db.assignments == old(db.assignments)
  {
    website := created;
    var optimized := ContentOptimizer.OptimizeMetaTags(content);
    if optimized.None? {
      return;
    }
    var structured := ContentOptimizer.ValidateContentStructure(optimized.value);
    var enriched := Enriched(created, structured, now);
    if enriched.None? {
      return;
    }
    website := enriched.value;
    SaveEnriched(db, website, structured);
  }

  /** website.save() with the enriched fields, then _create_default_sections. */
  method SaveEnriched(db: Db, website: Website, structured: Doc)
    requires db.websites != []
    modifies db
    ensures db.websites == old(db.websites)[|old(db.websites)| - 1 := website]
    ensures db.sections == old(db.sections) + DefaultSections(website, structured)
    ensures db.analytics == old(db.analytics)
    ensures db.users == old(db.users) && db.roles == old(db.roles)
    ensures db.permissions == old(db.permissions) && db.assignments == old(db.assignments)
  {
    db.websites := db.websites[|db.websites| - 1 := website];
    CreateDefaultSections(db, website, structured);
  }

  /** generate_website_content, whose result Generated states. */
  method GenerateContent(reply: AiService.ProviderResult, parse: string -> Option<Value>,
                         businessType: string, industry: string, businessName: string) returns (content: Doc)
    ensures content == Generated(reply, parse, businessType, industry, businessName)
  {
    content := AiService.GenerateWebsiteContent(reply, parse, businessType, industry, businessName);
  }

  /**
   * serializer.save() and perform_create: the website is appended and then, when the
   * generated content is saved, replaced by its enriched form and given its sections.
   * The generator is a parameter; GenerateContent is what AIWebsiteGenerator answers.
   */
  method CreateWebsite(db: Db, caller: User, req: CreateRequest, generate: (string, string, string) -> Doc,
                       newId: string, now: int) returns (website: Website, content: Doc)
    modifies db
    ensures content == generate(req.businessType, req.industry, GenerationName(req))
    ensures website == Enrichment(Created(req, caller.id, newId, now), content, now).0
    ensures db.sections == old(db.sections) + Enrichment(Created(req, caller.id, newId, now), content, now).1
    ensures db.websites == old(db.websites) + [website]
    ensures db.analytics == old(db.analytics)
    ensures db.users == old(db.users) && db.roles == old(db.roles)
    ensures db.permissions == old(db.permissions) && db.assignments == old(db.assignments)
  {
    var created := Created(req, caller.id, newId, now);
    SaveCreated(db, created);
    content := generate(created.businessType, created.industry, GenerationName(req));
    website := Enrich(db, created, content, now);
  }

  /** serializer.save(): the new website is appended. */
  method SaveCreated(db: Db, created: Website)
    modifies db
    ensures db.websites == old(db.websites) + [created]
    ensures db.sections == old(db.sections) && db.analytics == old(db.analytics)
    ensures db.users == old(db.users) && db.roles == old(db.roles)
    ensures db.permissions == old(db.permissions) && db.assignments == old(db.assignments)
  {
    db.websites := db.websites + [created];
  }

  // ---------------------------------------------------------------------------
  // Preview and its page-view counter (website_preview)

  /**
   * The name of the Http404 that get_object_or_404 would raise for a missing id in the
   * plain Django preview view; as for the REST views, the lookup evidently intended.
   */
  const PageNotFound := "Http404"

  /**
   * website_preview's access test: an admin passes; another signed-in caller needs
   * to own the website or hold websites.read (403); an anonymous caller sees only a
   * published website (404 otherwise).
   */
  function PreviewGate(w: Website, req: Requester): Option<(nat, string)> {
    match req
    case Authenticated(u) =>
      if HasRoleNamed(u, "Admin") then None
      else if !IsOwner(w, u) && !UserHasPermission(u, "websites", "read") then Some((403, PermissionDenied))
      else None
    case Anonymous => if w.status != "published" then Some((404, "Website not found")) else None
  }

  lemma PreviewAccess(w: Website, req: Requester)
    ensures req.Anonymous? ==> (PreviewGate(w, req).None? <==> w.status == "published")
    ensures req.Anonymous? && w.status != "published" ==> PreviewGate(w, req) == Some((404, "Website not found"))
    ensures req.Authenticated? ==>
              (PreviewGate(w, req).None? <==>
               HasRoleNamed(req.user, "Admin") || IsOwner(w, req.user) || UserHasPermission(req.user, "websites", "read"))
    ensures req.Authenticated? && PreviewGate(w, req).Some? ==> PreviewGate(w, req) == Some((403, PermissionDenied))
    ensures req.Authenticated? ==> forall s: string :: PreviewGate(w.(status := s), req) == PreviewGate(w, req)
  {
  }

  /** A published website is open to anonymous visitors yet closed to a signed-in role-less stranger. */
  lemma PreviewAnonymousSeesMore(w: Website, u: User)
    requires w.status == "published" && u.role.None? && w.owner != u.id
    ensures PreviewGate(w, Anonymous).None?
    ensures PreviewGate(w, Authenticated(u)) == Some((403, PermissionDenied))
  {
  }

  function Visible(websiteId: string): WebsiteSection -> bool {
    (s: WebsiteSection) => s.website == websiteId && s.isVisible
  }

  datatype Preview = Rendered(website: Website, sections: seq<WebsiteSection>) | Declined(status: nat, text: string)

  /** The page website_preview answers with: the gate's refusal, or the website and its visible sections. */
  function PreviewPage(websites: seq<Website>, sections: seq<WebsiteSection>, id: string, req: Requester): (r: Preview)
    ensures r.Rendered? ==> r.website.id == id && r.website in websites && PreviewGate(r.website, req).None?
    ensures r.Rendered? ==> forall s :: s in r.sections <==> s in sections && s.website == id && s.isVisible
    ensures WebsiteWithId(websites, id).None? ==> r == Declined(404, PageNotFound)
  {
    match WebsiteWithId(websites, id)
    case None => Declined(404, PageNotFound)
    case Some(k) =>
      match PreviewGate(websites[k], req)
      case Some((status, text)) => Declined(status, text)
      case None => Rendered(websites[k], Filter(sections, Visible(websites[k].id)))
  }

  function DayRecord(websiteId: string, day: int): WebsiteAnalytics -> bool {
    (a: WebsiteAnalytics) => a.website == websiteId && a.date == day
  }

  /**
   * get_or_create for (website, day), then page_views += 1 and save: the first record
   * of that day gains a view, or a record with one view and no visitors is added.
   */
  function Counted(analytics: seq<WebsiteAnalytics>, websiteId: string, day: int): seq<WebsiteAnalytics> {
    match First(analytics, DayRecord(websiteId, day))
    case Some(k) => analytics[k := analytics[k].(pageViews := analytics[k].pageViews + 1)]
    case None => analytics + [WebsiteAnalytics(websiteId, 1, 0, day)]
  }

  /**
   * Counting a view adds exactly one page view to the day's record (a new record
   * starts from zero) and leaves every other record as it was.
   */
  lemma CountedOneView(analytics: seq<WebsiteAnalytics>, websiteId: string, day: int)
    ensures var r := Counted(analytics, websiteId, day);
      var before := First(analytics, DayRecord(websiteId, day));
      && First(r, DayRecord(websiteId, day)).Some?
      && var k := First(r, DayRecord(websiteId, day)).value;
      && r[k].website == websiteId && r[k].date == day
      && r[k].pageViews == 1 + (if before.Some? then analytics[before.value].pageViews else 0)
      && r[k].uniqueVisitors == (if before.Some? then analytics[before.value].uniqueVisitors else 0)
      && |r| == |analytics| + (if before.Some? then 0 else 1)
      && (forall j :: 0 <= j < |analytics| && j != k ==> r[j] == analytics[j])
  {
    var d := DayRecord(websiteId, day);
    match First(analytics, d)
    case Some(k) =>
      var r := Counted(analytics, websiteId, day);
      assert forall j :: 0 <= j < |r| ==> d(r[j]) == d(analytics[j]);
      FirstSameMatches(r, analytics, d);
    case None =>
      FirstAppend(analytics, WebsiteAnalytics(websiteId, 1, 0, day), d);
  }

  /**
   * website_preview: the page, and for a published website the day's view counted;
   * nothing else changes.
   */
  method WebsitePreview(db: Db, id: string, req: Requester, today: int) returns (page: Preview)
    modifies db
    ensures page == PreviewPage(old(db.websites), old(db.sections), id, req)
    ensures page.Rendered? && page.website.status == "published" ==> db.analytics == Counted(old(db.analytics), id, today)
    ensures !(page.Rendered? && page.website.status == "published") ==> db.analytics == old(db.analytics)
    ensures db.websites == old(db.websites) && db.sections == old(db.sections)
    ensures db.users == old(db.users) && db.roles == old(db.roles)
    ensures db.permissions == old(db.permissions) && db.assignments == old(db.assignments)
  {
    page := PreviewPage(db.websites, db.sections, id, req);
    if page.Rendered? && page.website.status == "published" {
      db.analytics := Counted(db.analytics, id, today);
    }
  }

  /** Only a website that is being shown, and is published, gets a view counted. */
  lemma PreviewCountsOnlyPublished(websites: seq<Website>, sections: seq<WebsiteSection>, id: string, req: Requester)
    ensures var page := PreviewPage(websites, sections, id, req);
      req.Anonymous? && page.Rendered? ==> page.website.status == "published"
  {
  }

  // ---------------------------------------------------------------------------
  // Analytics (website_analytics)

  /** No record comes before a record of a later day. */
  predicate NewestFirst(s: seq<WebsiteAnalytics>) {
    forall i, j :: 0 <= i < j < |s| ==> s[i].date >= s[j].date
  }

  /** One step of the ordering: a record placed before the first record of its day or an earlier one. */
  function InsertNewest(a: WebsiteAnalytics, s: seq<WebsiteAnalytics>): (r: seq<WebsiteAnalytics>)
    ensures multiset(r) == multiset(s) + multiset{a}
  {
    if s == [] || s[0].date <= a.date then [a] + s
    else
      assert s == [s[0]] + s[1..];
      [s[0]] + InsertNewest(a, s[1..])
  }

  lemma {:induction false} InsertNewestOrdered(a: WebsiteAnalytics, s: seq<WebsiteAnalytics>)
    requires NewestFirst(s)
    ensures NewestFirst(InsertNewest(a, s))
  {
    if s != [] && s[0].date > a.date {
      var t := s[1..];
      assert NewestFirst(t) by {
        forall i, j | 0 <= i < j < |t| ensures t[i].date >= t[j].date {
          assert t[i] == s[i + 1] && t[j] == s[j + 1];
        }
      }
      InsertNewestOrdered(a, t);
      var rest := InsertNewest(a, t);
      InsertNewestBelow(a, t, s[0].date);
      var r := [s[0]] + rest;
      assert InsertNewest(a, s) == r;
      forall i, j | 0 <= i < j < |r| ensures r[i].date >= r[j].date {
        assert r[j] == rest[j - 1];
        if i > 0 {
          assert r[i] == rest[i - 1];
        }
      }
    }
  }

  /** Inserting a record no later than a day into records no later than it keeps them all no later. */
  lemma {:induction false} InsertNewestBelow(a: WebsiteAnalytics, s: seq<WebsiteAnalytics>, day: int)
    requires a.date <= day && forall k :: 0 <= k < |s| ==> s[k].date <= day
    ensures forall k :: 0 <= k < |InsertNewest(a, s)| ==> InsertNewest(a, s)[k].date <= day
  {
    if s != [] && s[0].date > a.date {
      InsertNewestBelow(a, s[1..], day);
      assert InsertNewest(a, s) == [s[0]] + InsertNewest(a, s[1..]);
    }
  }

  /** order_by('-date') */
  function ByDateDesc(s: seq<WebsiteAnalytics>): (r: seq<WebsiteAnalytics>)
    ensures multiset(r) == multiset(s) && |r| == |s|
    ensures NewestFirst(r)
  {
    if s == [] then []
    else
      assert s == [s[0]] + s[1..];
      InsertNewestOrdered(s[0], ByDateDesc(s[1..]));
      InsertNewest(s[0], ByDateDesc(s[1..]))
  }

  function OfWebsite(websiteId: string): WebsiteAnalytics -> bool {
    (a: WebsiteAnalytics) => a.website == websiteId
  }

  /** WebsiteAnalytics.objects.filter(website=website) */
  function SiteRecords(analytics: seq<WebsiteAnalytics>, websiteId: string): seq<WebsiteAnalytics> {
    Filter(analytics, OfWebsite(websiteId))
  }

  /** The slice [:30] of the records newest first. */
  const DailyLimit := 30

  function Recent(analytics: seq<WebsiteAnalytics>, websiteId: string): seq<WebsiteAnalytics> {
    var sorted := ByDateDesc(SiteRecords(analytics, websiteId));
    if |sorted| <= DailyLimit then sorted else sorted[..DailyLimit]
  }

  function TotalViews(s: seq<WebsiteAnalytics>): int {
    if s == [] then 0 else s[0].pageViews + TotalViews(s[1..])
  }

  function TotalVisitors(s: seq<WebsiteAnalytics>): int {
    if s == [] then 0 else s[0].uniqueVisitors + TotalVisitors(s[1..])
  }

  datatype AnalyticsAnswer =
    | AnalyticsRefused(status: nat, error: string)
    | AnalyticsReport(websiteId: string, totalPageViews: int, totalUniqueVisitors: int, daily: seq<WebsiteAnalytics>)

  /** website_analytics: 404, then admin or owner (403), then the totals over the recent records. */
  function Analytics(websites: seq<Website>, analytics: seq<WebsiteAnalytics>, id: string, u: User): AnalyticsAnswer {
    match WebsiteWithId(websites, id)
    case None => AnalyticsRefused(404, NotFound)
    case Some(k) =>
      if !HasRoleNamed(u, "Admin") && !IsOwner(websites[k], u) then AnalyticsRefused(403, PermissionDenied)
      else
        var daily := Recent(analytics, id);
        AnalyticsReport(id, TotalViews(daily), TotalVisitors(daily), daily)
  }

  /**
   * The recent records are at most 30 of the website's own records, newest first,
   * and the records left out are no newer than any listed one.
   */
  lemma RecentShape(analytics: seq<WebsiteAnalytics>, id: string)
    ensures var r := Recent(analytics, id);
      && |r| <= DailyLimit && NewestFirst(r)
      && (forall x :: x in r ==> x in analytics && x.website == id)
      && multiset(r) <= multiset(SiteRecords(analytics, id))
  {
    var sorted := ByDateDesc(SiteRecords(analytics, id));
    var r := Recent(analytics, id);
    if |sorted| > DailyLimit {
      assert sorted == r + sorted[DailyLimit..];
    }
    forall x | x in r ensures x in analytics && x.website == id {
      assert x in multiset(sorted);
    }
  }

  /** A record of the website the report leaves out is no newer than any record it lists. */
  lemma RecentOmitsOnlyOlder(analytics: seq<WebsiteAnalytics>, id: string, x: WebsiteAnalytics, i: nat)
    requires x in SiteRecords(analytics, id) && x !in Recent(analytics, id) && i < |Recent(analytics, id)|
    ensures x.date <= Recent(analytics, id)[i].date
  {
    var sorted := ByDateDesc(SiteRecords(analytics, id));
    assert x in multiset(sorted);
    var j :| 0 <= j < |sorted| && sorted[j] == x;
    if |sorted| > DailyLimit {
      assert j >= DailyLimit;
    }
  }

  /** The report's totals are the sums over the records it lists, which are the recent ones; a refusal is 404 or 403. */
  lemma AnalyticsReportTotals(websites: seq<Website>, analytics: seq<WebsiteAnalytics>, id: string, u: User)
    ensures var r := Analytics(websites, analytics, id, u);
      r.AnalyticsReport? ==>
        && r.websiteId == id && r.daily == Recent(analytics, id)
        && r.totalPageViews == TotalViews(r.daily) && r.totalUniqueVisitors == TotalVisitors(r.daily)
    ensures var r := Analytics(websites, analytics, id, u);
      r.AnalyticsReport? <==> WebsiteWithId(websites, id).Some? &&
                              (HasRoleNamed(u, "Admin") || IsOwner(websites[WebsiteWithId(websites, id).value], u))
    ensures var r := Analytics(websites, analytics, id, u);
      r.AnalyticsRefused? ==> r == AnalyticsRefused(404, NotFound) || r == AnalyticsRefused(403, PermissionDenied)
  {
  }

  lemma {:induction false} InsertNewestTotals(a: WebsiteAnalytics, s: seq<WebsiteAnalytics>)
    ensures TotalViews(InsertNewest(a, s)) == a.pageViews + TotalViews(s)
    ensures TotalVisitors(InsertNewest(a, s)) == a.uniqueVisitors + TotalVisitors(s)
  {
    if s == [] || s[0].date <= a.date {
      assert ([a] + s)[1..] == s;
    } else {
      InsertNewestTotals(a, s[1..]);
      assert ([s[0]] + InsertNewest(a, s[1..]))[1..] == InsertNewest(a, s[1..]);
    }
  }

  lemma {:induction false} ByDateDescTotals(s: seq<WebsiteAnalytics>)
    ensures TotalViews(ByDateDesc(s)) == TotalViews(s)
    ensures TotalVisitors(ByDateDesc(s)) == TotalVisitors(s)
  {
    if s != [] {
      ByDateDescTotals(s[1..]);
      InsertNewestTotals(s[0], ByDateDesc(s[1..]));
    }
  }

  /** With at most 30 records the report covers them all, so its totals are the website's whole totals. */
  lemma FewRecordsAllCounted(websites: seq<Website>, analytics: seq<WebsiteAnalytics>, id: string, u: User)
    requires |SiteRecords(analytics, id)| <= DailyLimit
    ensures var r := Analytics(websites, analytics, id, u);
      r.AnalyticsReport? ==>
        && multiset(r.daily) == multiset(SiteRecords(analytics, id))
        && r.totalPageViews == TotalViews(SiteRecords(analytics, id))
        && r.totalUniqueVisitors == TotalVisitors(SiteRecords(analytics, id))
  {
    ByDateDescTotals(SiteRecords(analytics, id));
  }

  // ---------------------------------------------------------------------------
  // Cloning (clone_website)

  const CopySuffix := " (Copy)"

  /**
   * The Website.objects.create of clone_website: every content field copied, the
   * title suffixed, the caller as owner, status draft, a fresh publication state.
   */
  function Clone(o: Website, owner: string, newId: string, now: int): (w: Website)
    ensures w.id == newId && w.title == o.title + CopySuffix && w.owner == owner
    ensures w.status == DefaultStatus && w.isAiGenerated && w.publishedAt.None? && w.createdAt == now && w.updatedAt == now
    ensures w.(id := o.id, title := o.title, owner := o.owner, status := o.status, isAiGenerated := o.isAiGenerated,
               createdAt := o.createdAt, updatedAt := o.updatedAt, publishedAt := o.publishedAt) == o
  {
    Website(newId, o.title + CopySuffix, o.description, o.businessType, o.industry, o.templateType,
            o.heroTitle, o.heroSubtitle, o.aboutSection, o.servicesSection, o.contactInfo, o.layoutData, o.customCss, o.customJs,
            owner, DefaultStatus, true, o.metaTitle, o.metaDescription, o.metaKeywords, now, now, None)
  }

  /** The title field's max_length, checked when the clone is created. */
  const TitleMaxLength := 200

  /** 404, then admin or owner (403), then the create's validation of the suffixed title (500). */
  function CloneGate(websites: seq<Website>, id: string, u: User): (r: Access)
    ensures r.Granted? ==> r.index < |websites| && websites[r.index].id == id
    ensures r.Granted? <==> WebsiteWithId(websites, id).Some? && websites[WebsiteWithId(websites, id).value] in VisibleWebsites(websites, u)
                            && |websites[WebsiteWithId(websites, id).value].title + CopySuffix| <= TitleMaxLength
  {
    match WebsiteWithId(websites, id)
    case None => Refused(404, NotFound)
    case Some(k) =>
      if !HasRoleNamed(u, "Admin") && !IsOwner(websites[k], u) then Refused(403, PermissionDenied)
      else if |websites[k].title + CopySuffix| > TitleMaxLength then Refused(500, "ValidationError")
      else Granted(k)
  }

  /** A section copied to the clone: the same type, texts, data, order and visibility. */
  function ClonedSections(sections: seq<WebsiteSection>, newId: string): (r: seq<WebsiteSection>)
    ensures |r| == |sections|
    ensures forall i :: 0 <= i < |r| ==> r[i] == sections[i].(website := newId)
  {
    seq(|sections|, i requires 0 <= i < |sections| => sections[i].(website := newId))
  }

  lemma {:induction false} FilterNoMatch<T(!new)>(s: seq<T>, matches: T -> bool)
    requires forall k :: 0 <= k < |s| ==> !matches(s[k])
    ensures Filter(s, matches) == []
    decreases |s|
  {
    if s != [] {
      FilterNoMatch(s[..|s| - 1], matches);
    }
  }

  lemma {:induction false} FilterAllMatch<T(!new)>(s: seq<T>, matches: T -> bool)
    requires forall k :: 0 <= k < |s| ==> matches(s[k])
    ensures Filter(s, matches) == s
    decreases |s|
  {
    if s != [] {
      var n := |s| - 1;
      FilterAllMatch(s[..n], matches);
      assert matches(s[n]);
      assert s == s[..n] + [s[n]];
    }
  }

  /**
   * Once cloned, the new website's sections are exactly the copies of the original's,
   * in the original's order, provided no stored section referenced the new id.
   */
  lemma ClonedSectionsOfClone(sections: seq<WebsiteSection>, originalId: string, newId: string)
    requires forall k :: 0 <= k < |sections| ==> sections[k].website != newId
    ensures var copies := ClonedSections(SectionsOf(sections, originalId), newId);
      SectionsOf(sections + copies, newId) == copies
  {
    var copies := ClonedSections(SectionsOf(sections, originalId), newId);
    FilterConcat(sections, copies, SectionOf(newId));
    FilterNoMatch(sections, SectionOf(newId));
    FilterAllMatch(copies, SectionOf(newId));
  }

  /** The loop of clone_website: one WebsiteSection.objects.create per section of the original. */
  method CopySections(db: Db, originals: seq<WebsiteSection>, newId: string)
    modifies db
    ensures db.sections == old(db.sections) + ClonedSections(originals, newId)
    ensures db.websites == old(db.websites) && db.analytics == old(db.analytics)
    ensures db.users == old(db.users) && db.roles == old(db.roles)
    ensures db.permissions == old(db.permissions) && db.assignments == old(db.assignments)
  {
    ghost var copies := ClonedSections(originals, newId);
    var i := 0;
    while i < |originals|
      invariant 0 <= i <= |originals|
      invariant db.sections == old(db.sections) + copies[..i]
      invariant db.websites == old(db.websites) && db.analytics == old(db.analytics)
      invariant db.users == old(db.users) && db.roles == old(db.roles)
      invariant db.permissions == old(db.permissions) && db.assignments == old(db.assignments)
    {
      assert copies[..i + 1] == copies[..i] + [originals[i].(website := newId)];
      db.sections := db.sections + [originals[i].(website := newId)];
      i := i + 1;
    }
    assert copies[..i] == copies;
  }

  /** clone_website: 201 with the clone appended and the original's sections copied to it. */
  method CloneWebsite(db: Db, id: string, u: User, newId: string, now: int) returns (status: nat, message: string)
    modifies db
    ensures var g := CloneGate(old(db.websites), id, u);
      && (g.Refused? ==> status == g.status && message == g.message &&
                         db.websites == old(db.websites) && db.sections == old(db.sections))
      && (g.Granted? ==> status == 201 && message == "Website cloned successfully" &&
                         db.websites == old(db.websites) + [Clone(old(db.websites)[g.index], u.id, newId, now)] &&
                         db.sections == old(db.sections) + ClonedSections(SectionsOf(old(db.sections), id), newId))
    ensures db.analytics == old(db.analytics)
    ensures db.users == old(db.users) && db.roles == old(db.roles)
    ensures db.permissions == old(db.permissions) && db.assignments == old(db.assignments)
  {
    var g := CloneGate(db.websites, id, u);
    if g.Refused? {
      return g.status, g.message;
    }
    var original := db.websites[g.index];
    db.websites := db.websites + [Clone(original, u.id, newId, now)];
    CopySections(db, SectionsOf(db.sections, original.id), newId);
    status, message := 201, "Website cloned successfully";
  }
}
