/**
 * ContentOptimizer: the SEO and readability passes over a content dictionary.
 * Each pass updates the dictionary it is given and returns it; here the updated
 * dictionary is the result, and None stands for an exception the pass raises
 * (len() of a value without a length, str methods called on a non-string).
 */
module ContentOptimizer {
  import opened Wrappers
  import opened PyText
  import opened PyValues
  import opened AiService

  // ---------------------------------------------------------------------------
  // optimize_meta_tags

  /**
   * One capping statement guarded by `len(content.get(key, '')) > cap`: an absent
   * key reads as the empty string and is left absent.
   */
  function CapIfPresent(m: Doc, key: string, cap: nat): (r: Option<Doc>)
    requires cap >= 3
    ensures key !in m ==> r == Some(m)
    ensures key in m ==> r == CapAt(m, key, cap)
  {
    if key !in m then Some(m) else CapAt(m, key, cap)
  }

  /** optimize_meta_tags */
  function OptimizeMetaTags(content: Doc): Option<Doc> {
    var m1 :- CapIfPresent(content, "meta_title", 60);
    CapIfPresent(m1, "meta_description", 160)
  }

  /** The field is absent or is a value the capping statement accepts. */
  predicate FitsIfPresent(m: Doc, key: string, cap: nat) {
    key !in m || Fits(m[key], cap)
  }

  /**
   * The pass raises exactly when a present meta field has no length or is an
   * over-long non-string; otherwise it keeps the keys, caps the two meta fields
   * (a string is shortened to cap - 3 characters and "...") and leaves every other
   * field alone.
   */
  lemma MetaTagsCapped(content: Doc)
    ensures OptimizeMetaTags(content).Some? <==>
      FitsIfPresent(content, "meta_title", 60) && FitsIfPresent(content, "meta_description", 160)
    ensures OptimizeMetaTags(content).Some? ==>
      var r := OptimizeMetaTags(content).value;
      && r.Keys == content.Keys
      && ("meta_title" in r ==> Len(r["meta_title"]).Some? && Len(r["meta_title"]).value <= 60)
      && ("meta_description" in r ==> Len(r["meta_description"]).Some? && Len(r["meta_description"]).value <= 160)
      && ("meta_title" in r ==> r["meta_title"] == CapValue(content["meta_title"], 60).value)
      && ("meta_description" in r ==> r["meta_description"] == CapValue(content["meta_description"], 160).value)
      && (forall k :: k in content && k != "meta_title" && k != "meta_description" ==> r[k] == content[k])
  {
    if OptimizeMetaTags(content).Some? {
      var m1 := CapIfPresent(content, "meta_title", 60).value;
      assert m1.Keys == content.Keys;
    }
  }

  /** A capped value is accepted by the same cap and comes back unchanged. */
  lemma CapValueStable(v: Value, cap: nat)
    requires cap >= 3 && CapValue(v, cap).Some?
    ensures CapValue(CapValue(v, cap).value, cap) == CapValue(v, cap)
  {
    if v.Str? {
      EllipsizeIdempotent(v.s, cap);
    }
  }

  /** Running the pass on its own output changes nothing. */
  lemma MetaTagsIdempotent(content: Doc)
    requires OptimizeMetaTags(content).Some?
    ensures OptimizeMetaTags(OptimizeMetaTags(content).value) == OptimizeMetaTags(content)
  {
    var r := OptimizeMetaTags(content).value;
    MetaTagsCapped(content);
    if "meta_title" in content {
      CapValueStable(content["meta_title"], 60);
      assert CapValue(r["meta_title"], 60) == Some(r["meta_title"]);
      assert r["meta_title" := r["meta_title"]] == r;
    }
    assert CapIfPresent(r, "meta_title", 60) == Some(r);
    if "meta_description" in content {
      CapValueStable(content["meta_description"], 160);
      assert CapValue(r["meta_description"], 160) == Some(r["meta_description"]);
      assert r["meta_description" := r["meta_description"]] == r;
    }
    assert CapIfPresent(r, "meta_description", 160) == Some(r);
  }

  // ---------------------------------------------------------------------------
  // validate_content_structure

  /** `required_fields` of validate_content_structure. */
  const StructureDefaults: Defaults := [
    ("hero_title", Str("Welcome to Our Business")),
    ("hero_subtitle", Str("Professional services you can trust")),
    ("about_section", Str("We provide excellent services to our clients.")),
    ("services", List([])),
    ("contact_info", Dict(map[])),
    ("meta_title", Str("Business Website")),
    ("meta_description", Str("Professional business website")),
    ("meta_keywords", Str("business, professional, services"))
  ]

  /** validate_content_structure: the defaults loop over its own table. */
  method ValidateContentStructure(content: Doc) returns (r: Doc)
    ensures r == FillDefaults(content, StructureDefaults)
  {
    r := FillDefaultsLoop(content, StructureDefaults);
  }

  lemma StructureDistinct()
    ensures DistinctKeys(StructureDefaults)
  {
  }

  /**
   * After the pass every listed field is present: a truthy old value is kept, any
   * other gets its default; a field outside the table is untouched.
   */
  lemma StructureFilled(content: Doc, k: string)
    ensures k in content ==> k in FillDefaults(content, StructureDefaults)
    ensures forall i :: 0 <= i < |StructureDefaults| && StructureDefaults[i].0 == k ==>
      k in FillDefaults(content, StructureDefaults) &&
      FillDefaults(content, StructureDefaults)[k] == Filled(content, k, StructureDefaults[i].1)
    ensures !Listed(StructureDefaults, k) ==>
      (k in FillDefaults(content, StructureDefaults) <==> k in content) &&
      (k in content ==> FillDefaults(content, StructureDefaults)[k] == content[k])
  {
    StructureDistinct();
    FillDefaultsAt(content, StructureDefaults, k);
  }

  /** A defaults loop over distinct fields is idempotent. */
  lemma FillDefaultsIdempotent(m: Doc, ds: Defaults)
    requires DistinctKeys(ds)
    ensures FillDefaults(FillDefaults(m, ds), ds) == FillDefaults(m, ds)
  {
    var once := FillDefaults(m, ds);
    var twice := FillDefaults(once, ds);
    forall k | k in twice || k in once
      ensures k in once && k in twice && twice[k] == once[k]
    {
      FillDefaultsAt(m, ds, k);
      FillDefaultsAt(once, ds, k);
    }
    assert twice.Keys == once.Keys;
  }

  /** Running validate_content_structure twice equals running it once. */
  lemma StructureIdempotent(content: Doc)
    ensures FillDefaults(FillDefaults(content, StructureDefaults), StructureDefaults)
      == FillDefaults(content, StructureDefaults)
  {
    StructureDistinct();
    FillDefaultsIdempotent(content, StructureDefaults);
  }

  // ---------------------------------------------------------------------------
  // enhance_readability

  /** The text before the middle sentence break, rejoined. */
  function FirstHalf(s: string): string {
    var sentences := Split(s, ". ");
    Join(sentences[..|sentences| / 2], ". ")
  }

  /** The text from the middle sentence on, rejoined. */
  function SecondHalf(s: string): string {
    var sentences := Split(s, ". ");
    Join(sentences[|sentences| / 2..], ". ")
  }

  /** enhance_readability: a long single-paragraph about text is broken in two at its middle sentence. */
  function EnhanceReadability(content: Doc): Option<Doc> {
    if "about_section" !in content then Some(content)
    else
      var about := content["about_section"];
      match Len(about)
      case None => None
      case Some(n) =>
        if n <= 500 then Some(content)
        else if !about.Str? then None
        else if |Split(about.s, "\n")| != 1 then Some(content)
        else Some(content["about_section" := Str(FirstHalf(about.s) + ".\n\n" + SecondHalf(about.s))])
  }

  /** A string splits into one piece exactly when the separator does not occur in it. */
  lemma SplitOnePiece(s: string, sep: string)
    requires |sep| > 0
    ensures |Split(s, sep)| == 1 <==> !Contains(s, sep)
  {
    IndexOfNone(s, sep);
    if !Contains(s, sep) {
      SplitWithout(s, sep);
    }
  }

  /**
   * The two halves put back together with the sentence break they were cut at give
   * the original text, whenever the text has a sentence break at all.
   */
  lemma HalvesRejoin(s: string)
    requires Contains(s, ". ")
    ensures FirstHalf(s) + ". " + SecondHalf(s) == s
  {
    var sentences := Split(s, ". ");
    SplitOnePiece(s, ". ");
    var mid := |sentences| / 2;
    assert sentences == sentences[..mid] + sentences[mid..];
    JoinAppend(sentences[..mid], sentences[mid..], ". ");
    JoinSplit(s, ". ");
  }

  /** Without any sentence break the first half is empty and the text is pushed after a lone ".". */
  lemma HalvesWithoutBreak(s: string)
    requires !Contains(s, ". ")
    ensures FirstHalf(s) == "" && SecondHalf(s) == s
  {
    SplitWithout(s, ". ");
  }

  /**
   * The pass rewrites about_section only when it is a string over 500 characters
   * without a newline; it then holds the two halves around ".\n\n". Every other
   * field is untouched, and dictionaries without a sized about_section raise.
   */
  lemma ReadabilityRewrites(content: Doc)
    ensures EnhanceReadability(content).None? <==>
      "about_section" in content &&
      (Len(content["about_section"]).None? || (!content["about_section"].Str? && Len(content["about_section"]).value > 500))
    ensures EnhanceReadability(content).Some? ==>
      var r := EnhanceReadability(content).value;
      && r.Keys == content.Keys
      && (forall k :: k in content && k != "about_section" ==> r[k] == content[k])
      && ("about_section" in content && content["about_section"].Str? ==>
            var s := content["about_section"].s;
            r["about_section"] == if |s| > 500 && !Contains(s, "\n") then Str(FirstHalf(s) + ".\n\n" + SecondHalf(s)) else Str(s))
  {
    if "about_section" in content {
      var about := content["about_section"];
      if Len(about).Some? && Len(about).value > 500 && about.Str? {
        SplitOnePiece(about.s, "\n");
        if !Contains(about.s, "\n") {
          var r := content["about_section" := Str(FirstHalf(about.s) + ".\n\n" + SecondHalf(about.s))];
          assert EnhanceReadability(content) == Some(r);
          assert r.Keys == content.Keys;
        }
      }
    }
  }

  /** The rewritten text contains a newline, so a second pass leaves it alone. */
  lemma ReadabilityIdempotent(content: Doc)
    requires EnhanceReadability(content).Some?
    ensures EnhanceReadability(EnhanceReadability(content).value) == EnhanceReadability(content)
  {
    var r := EnhanceReadability(content).value;
    if r != content {
      var s := content["about_section"].s;
      var t := FirstHalf(s) + ".\n\n" + SecondHalf(s);
      assert r["about_section"] == Str(t);
      assert OccursAt(t, "\n", |FirstHalf(s)| + 1);
      SplitOnePiece(t, "\n");
      assert |t| > 500 by {
        if Contains(s, ". ") {
          HalvesRejoin(s);
        } else {
          HalvesWithoutBreak(s);
        }
      }
      assert r == r["about_section" := Str(t)];
    }
  }

  // ---------------------------------------------------------------------------
  // generate_seo_keywords

  /** `business_keywords` of generate_seo_keywords. */
  const BusinessKeywords: seq<string> := [
    "professional", "services", "quality", "expert", "business",
    "solutions", "consulting", "support", "reliable", "experienced"
  ]

  /** `f"{content.get('hero_title', '')} {content.get('about_section', '')}"` */
  function KeywordSource(content: Doc, show: Value -> string): string {
    Interpolated(Get(content, "hero_title", Str("")), show) + " " + Interpolated(Get(content, "about_section", Str("")), show)
  }

  /** The keywords of ks that occur in the lower-cased text, in table order. */
  function FoundKeywords(ks: seq<string>, lowered: string): (r: seq<string>)
    ensures |r| <= |ks|
    decreases |ks|
  {
    if ks == [] then []
    else
      var front := FoundKeywords(ks[..|ks| - 1], lowered);
      if Contains(lowered, ks[|ks| - 1]) then front + [ks[|ks| - 1]] else front
  }

  /** A keyword is found exactly when it is in the table and occurs in the text. */
  lemma {:induction false} FoundExactly(ks: seq<string>, lowered: string, k: string)
    ensures k in FoundKeywords(ks, lowered) <==> k in ks && Contains(lowered, k)
    decreases |ks|
  {
    if ks != [] {
      var front := ks[..|ks| - 1];
      FoundExactly(front, lowered, k);
      assert ks == front + [ks[|ks| - 1]];
    }
  }

  /** `(base_keywords + found_keywords[:6])[:8]` */
  function SeoKeywordList(businessType: string, industry: string, found: seq<string>): seq<string> {
    Prefix([Lower(businessType), Lower(industry)] + Prefix(found, 6), 8)
  }

  /** generate_seo_keywords, scanning the table with a loop. */
  method GenerateSeoKeywords(businessType: string, industry: string, content: Doc, show: Value -> string)
    returns (r: string)
    ensures r == Join(SeoKeywordList(businessType, industry, FoundKeywords(BusinessKeywords, Lower(KeywordSource(content, show)))), ", ")
  {
    var lowered := Lower(KeywordSource(content, show));
    var found: seq<string> := [];
    for i := 0 to |BusinessKeywords|
      invariant found == FoundKeywords(BusinessKeywords[..i], lowered)
    {
      if Contains(lowered, BusinessKeywords[i]) {
        found := found + [BusinessKeywords[i]];
      }
      assert BusinessKeywords[..i + 1][..i] == BusinessKeywords[..i];
    }
    assert BusinessKeywords[..|BusinessKeywords|] == BusinessKeywords;
    r := Join(SeoKeywordList(businessType, industry, found), ", ");
  }

  /**
   * At most eight keywords: the lower-cased business type and industry first, then
   * up to six table keywords, each occurring in the hero title or the about text.
   */
  lemma SeoKeywordsShape(businessType: string, industry: string, content: Doc, show: Value -> string)
    ensures var lowered := Lower(KeywordSource(content, show));
      var ks := SeoKeywordList(businessType, industry, FoundKeywords(BusinessKeywords, lowered));
      && 2 <= |ks| <= 8
      && ks[0] == Lower(businessType) && ks[1] == Lower(industry)
      && (forall i :: 2 <= i < |ks| ==> ks[i] in BusinessKeywords && Contains(lowered, ks[i]))
  {
    var lowered := Lower(KeywordSource(content, show));
    var found := FoundKeywords(BusinessKeywords, lowered);
    var ks := SeoKeywordList(businessType, industry, found);
    forall i | 2 <= i < |ks| ensures ks[i] in BusinessKeywords && Contains(lowered, ks[i]) {
      assert ks[i] == found[i - 2];
      FoundExactly(BusinessKeywords, lowered, ks[i]);
    }
  }

  // ---------------------------------------------------------------------------
  // optimize_for_mobile

  /** `mobile_hero_title`: long titles of more than eight words keep their first six and "...". */
  function MobileHeroTitle(content: Doc): Option<Value> {
    var hero := Get(content, "hero_title", Str(""));
    var n :- Len(hero);
    if n <= 50 then Some(hero)
    else if !hero.Str? then None
    else
      var words := SplitWords(hero.s);
      if |words| > 8 then Some(Str(Join(words[..6], " ") + "...")) else Some(hero)
  }

  /** One service of the loop: it gains `mobile_description`, its description capped at 120. */
  function MobileService(service: Value): Option<Value> {
    if !service.Dict? then None
    else
      var d :- CapValue(Get(service.fields, "description", Str("")), 120);
      Some(Dict(service.fields["mobile_description" := d]))
  }

  /** The services loop over a list; None when some service raises. */
  function MobileServices(items: seq<Value>): (r: Option<seq<Value>>)
    ensures r.Some? ==> |r.value| == |items|
    decreases |items|
  {
    if items == [] then Some([])
    else
      var front :- MobileServices(items[..|items| - 1]);
      var last :- MobileService(items[|items| - 1]);
      Some(front + [last])
  }

  /**
   * The services loop over whatever `content['services']` holds: a list is walked,
   * an empty string or dictionary gives no iterations, and anything else raises
   * (a non-empty string or dictionary yields strings, which have no .get).
   */
  function MobileServicesValue(v: Value): Option<Value> {
    match v
    case List(items) =>
      var out :- MobileServices(items);
      Some(List(out))
    case Str(s) => if s == [] then Some(v) else None
    case Dict(f) => if f == map[] then Some(v) else None
    case _ => None
  }

  /** optimize_for_mobile */
  function OptimizeForMobile(content: Doc): Option<Doc> {
    var title :- MobileHeroTitle(content);
    var m := content["mobile_hero_title" := title];
    if "services" !in content then Some(m)
    else
      var services :- MobileServicesValue(content["services"]);
      Some(m["services" := services])
  }

  /** A failure at some service is a failure of the whole loop. */
  lemma {:induction false} MobileServicesFails(items: seq<Value>, i: nat)
    requires i <= |items| && MobileServices(items[..i]).None?
    ensures MobileServices(items).None?
    decreases |items| - i
  {
    if i < |items| {
      assert items[..i + 1][..i] == items[..i];
      MobileServicesFails(items, i + 1);
    } else {
      assert items[..i] == items;
    }
  }

  /** optimize_for_mobile, walking the services list with a loop. */
  method OptimizeForMobileLoop(content: Doc) returns (r: Option<Doc>)
    ensures r == OptimizeForMobile(content)
  {
    var title := MobileHeroTitle(content);
    if title.None? {
      return None;
    }
    var m := content["mobile_hero_title" := title.value];
    if "services" !in content {
      return Some(m);
    }
    var v := content["services"];
    if !v.List? {
      r := if MobileServicesValue(v).Some? then Some(m["services" := v]) else None;
      return;
    }
    var out: seq<Value> := [];
    for i := 0 to |v.items|
      invariant MobileServices(v.items[..i]) == Some(out)
    {
      var s := MobileService(v.items[i]);
      if s.None? {
        assert MobileServices(v.items[..i + 1]).None? by {
          assert v.items[..i + 1][..i] == v.items[..i];
        }
        MobileServicesFails(v.items, i + 1);
        return None;
      }
      out := out + [s.value];
      assert v.items[..i + 1][..i] == v.items[..i];
    }
    assert v.items[..|v.items|] == v.items;
    r := Some(m["services" := List(out)]);
  }

  /** Every mobile description the loop writes has at most 120 characters. */
  lemma {:induction false} MobileDescriptionsCapped(items: seq<Value>)
    requires MobileServices(items).Some?
    ensures forall i :: 0 <= i < |items| ==>
      && MobileServices(items).value[i].Dict?
      && "mobile_description" in MobileServices(items).value[i].fields
      && Len(MobileServices(items).value[i].fields["mobile_description"]).Some?
      && Len(MobileServices(items).value[i].fields["mobile_description"]).value <= 120
    decreases |items|
  {
    if items != [] {
      MobileDescriptionsCapped(items[..|items| - 1]);
    }
  }

  /** The service `out` the loop writes for `service`: its fields plus `mobile_description`. */
  predicate ServiceKept(service: Value, out: Value) {
    && service.Dict? && out.Dict?
    && out.fields.Keys == service.fields.Keys + {"mobile_description"}
    && (forall k :: k in service.fields && k != "mobile_description" ==> out.fields[k] == service.fields[k])
  }

  /**
   * Each service keeps its fields and gains `mobile_description`, the description
   * capped at 120 characters.
   */
  lemma {:induction false} MobileServicesKeep(items: seq<Value>)
    requires MobileServices(items).Some?
    ensures forall i :: 0 <= i < |items| ==> ServiceKept(items[i], MobileServices(items).value[i])
    decreases |items|
  {
    if items != [] {
      var n := |items| - 1;
      var front := items[..n];
      MobileServicesSnoc(items);
      MobileServicesKeep(front);
      MobileServiceKeeps(items[n]);
      var r := MobileServices(items).value;
      var rf := MobileServices(front).value;
      forall i | 0 <= i < |items|
        ensures ServiceKept(items[i], r[i])
      {
        if i < n {
          assert items[i] == front[i] && r[i] == rf[i];
        }
      }
    }
  }

  /** The loop's result on a non-empty list is its result on the front, then the last service. */
  lemma MobileServicesSnoc(items: seq<Value>)
    requires items != [] && MobileServices(items).Some?
    ensures MobileServices(items[..|items| - 1]).Some? && MobileService(items[|items| - 1]).Some?
    ensures MobileServices(items).value == MobileServices(items[..|items| - 1]).value + [MobileService(items[|items| - 1]).value]
  {
  }

  /** One service of the loop keeps its fields and gains mobile_description. */
  lemma MobileServiceKeeps(service: Value)
    requires MobileService(service).Some?
    ensures ServiceKept(service, MobileService(service).value)
  {
  }

  /** A title of at most 50 characters is copied as it is; a long one with more than eight words is cut to six. */
  lemma MobileHeroShape(content: Doc)
    ensures var hero := Get(content, "hero_title", Str(""));
      && (Len(hero).Some? && Len(hero).value <= 50 ==> MobileHeroTitle(content) == Some(hero))
      && (hero.Str? && |hero.s| > 50 && |SplitWords(hero.s)| > 8 ==>
            MobileHeroTitle(content) == Some(Str(Join(SplitWords(hero.s)[..6], " ") + "...")))
      && (Len(hero).None? ==> MobileHeroTitle(content).None?)
  {
  }

  /** The pass adds mobile_hero_title, rewrites only services, and leaves every other field alone. */
  lemma MobileUntouched(content: Doc)
    requires OptimizeForMobile(content).Some?
    ensures var r := OptimizeForMobile(content).value;
      && r.Keys == content.Keys + {"mobile_hero_title"}
      && r["mobile_hero_title"] == MobileHeroTitle(content).value
      && (forall k :: k in content && k != "mobile_hero_title" && k != "services" ==> r[k] == content[k])
  {
  }
}
