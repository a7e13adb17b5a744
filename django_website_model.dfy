/**
 * website_builder.models of the Django back-end: the Website, WebsiteSection and
 * WebsiteAnalytics documents, their choice lists and defaults, and the ownership
 * and edit/delete rules.
 */
module DjangoWebsiteModel {
  import opened Wrappers
  import opened PyValues
  import opened DjangoRbac
  import Layout

  /** The stored values of Website.STATUS_CHOICES and Website.TEMPLATE_CHOICES. */
  const StatusChoices := ["draft", "published", "archived"]
  const TemplateChoices := ["business", "portfolio", "restaurant", "blog", "ecommerce"]
  const DefaultStatus := "draft"
  const DefaultTemplate := "business"

  /** The stored values of WebsiteSection.SECTION_TYPES. */
  const SectionTypes := ["hero", "about", "services", "portfolio", "testimonials", "contact", "footer", "custom"]

  /**
   * A website document; `owner` is the owning user's id and `layoutData` the stored
   * layout, None while it is still the empty default dictionary.
   */
  datatype Website = Website(
    id: string, title: string, description: Option<string>, businessType: string, industry: string,
    templateType: string, heroTitle: Option<string>, heroSubtitle: Option<string>, aboutSection: Option<string>,
    servicesSection: seq<Value>, contactInfo: Doc, layoutData: Option<Layout.Layout>, customCss: Option<string>, customJs: Option<string>,
    owner: string, status: string, isAiGenerated: bool, metaTitle: Option<string>, metaDescription: Option<string>,
    metaKeywords: Option<string>, createdAt: int, updatedAt: int, publishedAt: Option<int>)

  /** A section document of a website; `website` is the website's id. */
  datatype WebsiteSection = WebsiteSection(website: string, sectionType: string, title: Option<string>, content: Option<string>,
                                           data: Doc, order: int, isVisible: bool)

  /** One day's analytics document of a website, `date` a day number (the float fields are not modelled). */
  datatype WebsiteAnalytics = WebsiteAnalytics(website: string, pageViews: int, uniqueVisitors: int, date: int)

  /** A website as Website.objects.create builds it from the create serializer's fields and the owner. */
  function NewWebsite(id: string, title: string, description: Option<string>, businessType: string, industry: string,
                      templateType: Option<string>, owner: string, now: int): (w: Website)
    ensures w.status == DefaultStatus && w.status in StatusChoices
    ensures templateType.None? ==> w.templateType == DefaultTemplate
    ensures templateType.Some? ==> w.templateType == templateType.value
    ensures w.owner == owner && w.title == title && w.publishedAt.None? && w.isAiGenerated
  {
    Website(id, title, description, businessType, industry,
            match templateType case Some(t) => t case None => DefaultTemplate,
            None, None, None, [], map[], None, None, None, owner, DefaultStatus, true, None, None, None, now, now, None)
  }

  /** A template type the choice list accepts; the default is one of them. */
  lemma DefaultsAreChoices()
    ensures DefaultTemplate in TemplateChoices && DefaultStatus in StatusChoices
    ensures |StatusChoices| == 3 && |TemplateChoices| == 5
  {
  }

  /** Website.save: only updated_at changes. */
  function SaveWebsite(w: Website, now: int): (r: Website)
    ensures r.updatedAt == now && r.(updatedAt := w.updatedAt) == w
  {
    w.(updatedAt := now)
  }

  /** Website.is_owner_check: the owner's id and the user's id are the same string. */
  predicate IsOwner(w: Website, u: User) {
    w.owner == u.id
  }

  /** Website.can_edit */
  predicate CanEdit(w: Website, u: User) {
    HasRoleNamed(u, "Admin") || (IsOwner(w, u) && UserHasPermission(u, "websites", "update"))
  }

  /** Website.can_delete */
  predicate CanDelete(w: Website, u: User) {
    HasRoleNamed(u, "Admin") || (IsOwner(w, u) && UserHasPermission(u, "websites", "delete"))
  }

  /**
   * An admin may edit and delete every website; anyone else must own it and hold
   * the matching websites permission, so a non-admin non-owner may do neither
   * whatever permissions the role lists.
   */
  lemma EditDeleteRules(w: Website, u: User)
    ensures HasRoleNamed(u, "Admin") ==> CanEdit(w, u) && CanDelete(w, u)
    ensures !HasRoleNamed(u, "Admin") && !IsOwner(w, u) ==> !CanEdit(w, u) && !CanDelete(w, u)
    ensures !HasRoleNamed(u, "Admin") ==> (CanEdit(w, u) <==> IsOwner(w, u) && UserHasPermission(u, "websites", "update"))
    ensures !HasRoleNamed(u, "Admin") ==> (CanDelete(w, u) <==> IsOwner(w, u) && UserHasPermission(u, "websites", "delete"))
  {
  }

  /** A role-less user may edit or delete nothing, not even their own websites. */
  lemma RolelessCannotEdit(w: Website, u: User)
    requires u.role.None?
    ensures !CanEdit(w, u) && !CanDelete(w, u)
  {
  }
}
