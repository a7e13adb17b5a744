/**
 * generate_layout_structure: the page skeleton for a template, a fixed header and
 * footer around the template's four sections.
 */
module Layout {
  import opened PyValues

  /** One layout block: its "type" and its "components" list. */
  datatype Section = Section(kind: string, components: seq<string>)

  /** The layout dictionary: "header", "sections" and "footer". */
  datatype Layout = Layout(header: Section, sections: seq<Section>, footer: Section)

  const HeaderSection := Section("header", ["logo", "navigation", "cta_button"])
  const FooterSection := Section("footer", ["contact_info", "social_links", "copyright"])

  const BusinessSections := [
    Section("hero", ["title", "subtitle", "cta_button", "hero_image"]),
    Section("about", ["title", "content", "image"]),
    Section("services", ["title", "service_grid"]),
    Section("contact", ["form", "info", "map"])
  ]

  const PortfolioSections := [
    Section("hero", ["title", "subtitle", "portfolio_preview"]),
    Section("about", ["title", "content", "skills"]),
    Section("portfolio", ["filter", "gallery"]),
    Section("contact", ["form", "info"])
  ]

  const RestaurantSections := [
    Section("hero", ["title", "subtitle", "reservation_button"]),
    Section("about", ["story", "chef_info"]),
    Section("menu", ["menu_categories", "featured_items"]),
    Section("contact", ["location", "hours", "reservation"])
  ]

  const BlogSections := [
    Section("hero", ["title", "subtitle", "search"]),
    Section("featured_posts", ["post_grid"]),
    Section("categories", ["category_list"]),
    Section("about", ["author_info"])
  ]

  const EcommerceSections := [
    Section("hero", ["title", "subtitle", "shop_button"]),
    Section("featured_products", ["product_grid"]),
    Section("about", ["brand_story"]),
    Section("contact", ["support_info"])
  ]

  /** The keys of `template_sections`. */
  const Templates: set<string> := {"business", "portfolio", "restaurant", "blog", "ecommerce"}

  /** `template_sections.get(template_type, template_sections["business"])`: an exact, case-sensitive lookup. */
  function TemplateSections(templateType: string): seq<Section> {
    if templateType == "portfolio" then PortfolioSections
    else if templateType == "restaurant" then RestaurantSections
    else if templateType == "blog" then BlogSections
    else if templateType == "ecommerce" then EcommerceSections
    else BusinessSections
  }

  /**
   * generate_layout_structure(template_type, content). The content argument is
   * accepted and never read.
   */
  function GenerateLayoutStructure(templateType: string, content: Doc): (r: Layout)
    ensures r.header.kind == "header" && r.footer.kind == "footer"
    ensures r.header == HeaderSection && r.footer == FooterSection
  {
    Layout(HeaderSection, TemplateSections(templateType), FooterSection)
  }

  /** A template name outside the table gets the business sections. */
  lemma UnknownTemplateIsBusiness(templateType: string, content: Doc)
    ensures templateType !in Templates ==> GenerateLayoutStructure(templateType, content).sections == BusinessSections
    ensures templateType in Templates ==> GenerateLayoutStructure(templateType, content).sections == TemplateSections(templateType)
  {
  }

  /**
   * Four sections, opening with a hero section that shows a title and a subtitle,
   * holding an about section, never repeating a section kind.
   */
  predicate WellShaped(s: seq<Section>) {
    && |s| == 4
    && s[0].kind == "hero" && |s[0].components| >= 3
    && s[0].components[0] == "title" && s[0].components[1] == "subtitle"
    && (exists i :: 0 <= i < 4 && s[i].kind == "about")
    && (forall i, j :: 0 <= i < j < 4 ==> s[i].kind != s[j].kind)
  }

  lemma BusinessShaped() ensures WellShaped(BusinessSections) { assert BusinessSections[1].kind == "about"; }
  lemma PortfolioShaped() ensures WellShaped(PortfolioSections) { assert PortfolioSections[1].kind == "about"; }
  lemma RestaurantShaped() ensures WellShaped(RestaurantSections) { assert RestaurantSections[1].kind == "about"; }
  lemma BlogShaped() ensures WellShaped(BlogSections) { assert BlogSections[3].kind == "about"; }
  lemma EcommerceShaped() ensures WellShaped(EcommerceSections) { assert EcommerceSections[2].kind == "about"; }

  /** Every layout, whatever the template name, has a well-shaped list of sections. */
  lemma LayoutShape(templateType: string, content: Doc)
    ensures WellShaped(GenerateLayoutStructure(templateType, content).sections)
  {
    BusinessShaped();
    PortfolioShaped();
    RestaurantShaped();
    BlogShaped();
    EcommerceShaped();
  }

  /** The template lookup is case-sensitive: "Blog" is not "blog" and gets the business sections. */
  lemma TemplateCaseSensitive(content: Doc)
    ensures GenerateLayoutStructure("Blog", content).sections == BusinessSections
    ensures GenerateLayoutStructure("blog", content).sections == BlogSections
    ensures BlogSections != BusinessSections
  {
    assert BlogSections[1].kind != BusinessSections[1].kind;
  }
}
