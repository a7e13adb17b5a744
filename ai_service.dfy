/**
 * The Django back-end's content generator (class AIWebsiteGenerator): the repair of
 * a parsed provider answer, the brace extraction and manual extraction of a reply
 * that does not parse, the table-driven fallback document, the layout table, and
 * the control flow of generate_website_content around an abstract provider.
 *
 * The provider call is a ProviderResult parameter and json.loads is a function
 * parameter `parse`; the prompt text is not modelled.
 */
module AiService {
  import opened Wrappers
  import opened PyText
  import opened PyValues

  /** What the provider call produced: `response.text`, or an exception. */
  datatype ProviderResult = Failed | Text(text: string)

  /** A dictionary of defaults, in the order the source iterates it. */
  type Defaults = seq<(string, Value)>

  predicate DistinctKeys(ds: Defaults) {
    forall i, j :: 0 <= i < j < |ds| ==> ds[i].0 != ds[j].0
  }

  predicate Listed(ds: Defaults, k: string) {
    exists i :: 0 <= i < |ds| && ds[i].0 == k
  }

  const HeroTitleDefault := "Welcome to Your Business"
  const HeroSubtitleDefault := "Professional services tailored to your needs"
  const MetaTitleDefault := "Professional Business Services"
  const MetaDescriptionDefault := "Quality professional services for your business needs"
  const MetaKeywordsDefault := "business, professional, services, quality, reliable"
  const AboutDefault := "We provide excellent services to our clients."

  /** `required_fields` of _validate_and_clean_content. */
  const RequiredFields: Defaults := [
    ("hero_title", Str(HeroTitleDefault)),
    ("hero_subtitle", Str(HeroSubtitleDefault)),
    ("about_section", Str(AboutDefault)),
    ("services", List([])),
    ("contact_info", Dict(map[])),
    ("meta_title", Str(MetaTitleDefault)),
    ("meta_description", Str(MetaDescriptionDefault)),
    ("meta_keywords", Str(MetaKeywordsDefault))
  ]

  const PhoneDefault := "(555) 123-4567"
  const EmailDefault := "info@business.com"
  const AddressDefault := "123 Business Street, City, State 12345"
  const HoursDefault := "Monday - Friday: 9:00 AM - 5:00 PM"

  /** `contact_defaults` of _validate_and_clean_content. */
  const ContactDefaults: Defaults := [
    ("phone", Str(PhoneDefault)),
    ("email", Str(EmailDefault)),
    ("address", Str(AddressDefault)),
    ("business_hours", Str(HoursDefault))
  ]

  /** The icon names a service may carry (`valid_icons`; only membership is used). */
  const ValidIcons: set<string> :=
    {"star", "heart", "check", "briefcase", "target", "headphones", "shield", "globe", "cog", "users"}

  /** The four headline fields and their caps, in the order they are capped. */
  const Caps: seq<(string, nat)> :=
    [("hero_title", 80), ("hero_subtitle", 150), ("meta_title", 60), ("meta_description", 160)]

  // ---------------------------------------------------------------------------
  // Defaults

  /** The value a field holds after `if field not in d or not d[field]: d[field] = default`. */
  function Filled(m: Doc, field: string, default: Value): Value {
    if TruthyAt(m, field) then m[field] else default
  }

  /** One round of the defaults loop. */
  function FillField(m: Doc, field: string, default: Value): Doc {
    if TruthyAt(m, field) then m else m[field := default]
  }

  /** The defaults loop over ds, in order (the last entry is applied last). */
  function FillDefaults(m: Doc, ds: Defaults): (r: Doc)
    ensures m.Keys <= r.Keys
    ensures forall i :: 0 <= i < |ds| ==> ds[i].0 in r
    decreases |ds|
  {
    if ds == [] then m
    else
      var front := FillDefaults(m, ds[..|ds| - 1]);
      assert forall i :: 0 <= i < |ds| - 1 ==> ds[..|ds| - 1][i] == ds[i];
      FillField(front, ds[|ds| - 1].0, ds[|ds| - 1].1)
  }

  /**
   * After the loop a listed field holds its old value when that was truthy and its
   * default otherwise; a field that is not listed is untouched.
   */
  lemma {:induction false} FillDefaultsAt(m: Doc, ds: Defaults, k: string)
    requires DistinctKeys(ds)
    ensures k in FillDefaults(m, ds) <==> k in m || Listed(ds, k)
    ensures forall i :: 0 <= i < |ds| && ds[i].0 == k ==> FillDefaults(m, ds)[k] == Filled(m, k, ds[i].1)
    ensures !Listed(ds, k) && k in m ==> FillDefaults(m, ds)[k] == m[k]
    decreases |ds|
  {
    if ds != [] {
      var front := ds[..|ds| - 1];
      var last := ds[|ds| - 1];
      assert forall i :: 0 <= i < |front| ==> front[i] == ds[i];
      FillDefaultsAt(m, front, k);
      if last.0 == k {
        assert !Listed(front, k);
      } else {
        assert Listed(ds, k) <==> Listed(front, k);
      }
    }
  }

  /** The loop changes nothing once every listed field is truthy. */
  lemma {:induction false} FillDefaultsTruthy(m: Doc, ds: Defaults)
    requires forall i :: 0 <= i < |ds| ==> TruthyAt(m, ds[i].0)
    ensures FillDefaults(m, ds) == m
    decreases |ds|
  {
    if ds != [] {
      var front := ds[..|ds| - 1];
      assert forall i :: 0 <= i < |front| ==> front[i] == ds[i];
      FillDefaultsTruthy(m, front);
    }
  }

  // ---------------------------------------------------------------------------
  // Services

  /** A repaired service: exactly a title, a description and an allowed icon. */
  predicate ValidService(v: Value) {
    && v.Dict?
    && v.fields.Keys == {"title", "description", "icon"}
    && v.fields["icon"].Str?
    && v.fields["icon"].s in ValidIcons
  }

  /** `service.get('icon', 'star') if service.get('icon') in valid_icons else 'star'` */
  function ServiceIcon(service: Doc): (r: Value)
    ensures r.Str? && r.s in ValidIcons
    ensures r == Get(service, "icon", Null) <==> (var icon := Get(service, "icon", Null); icon.Str? && icon.s in ValidIcons)
    ensures r != Get(service, "icon", Null) ==> r == Str("star")
  {
    var icon := Get(service, "icon", Null);
    if icon.Str? && icon.s in ValidIcons then icon else Str("star")
  }

  /** The repaired form of one dict entry of `services`. */
  function CleanService(service: Doc): (r: Value)
    ensures ValidService(r)
    ensures r.fields["title"] == Get(service, "title", Str("Professional Service"))
    ensures r.fields["description"] == Get(service, "description", Str("Quality service description"))
  {
    Dict(map[
      "title" := Get(service, "title", Str("Professional Service")),
      "description" := Get(service, "description", Str("Quality service description")),
      "icon" := ServiceIcon(service)])
  }

  /** The entry the padding loop appends at 1-based position k. */
  function Placeholder(k: nat): (r: Value)
    ensures ValidService(r)
    ensures r.fields["title"] == Str("Service " + NatToString(k))
  {
    Dict(map[
      "title" := Str("Service " + NatToString(k)),
      "description" := Str("Professional service offering"),
      "icon" := Str("star")])
  }

  /** The loop over `services[:3]`: the dict entries, repaired, in order. */
  function KeptServices(xs: seq<Value>): (r: seq<Value>)
    ensures |r| <= |xs|
    ensures forall i :: 0 <= i < |r| ==> ValidService(r[i])
    decreases |xs|
  {
    if xs == [] then []
    else
      var front := KeptServices(xs[..|xs| - 1]);
      var last := xs[|xs| - 1];
      if last.Dict? then front + [CleanService(last.fields)] else front
  }

  /** The while loop: placeholders are appended until there are three entries. */
  function PadServices(vs: seq<Value>): (r: seq<Value>)
    ensures |r| == if |vs| < 3 then 3 else |vs|
    ensures r[..|vs|] == vs
    ensures forall i :: |vs| <= i < |r| ==> r[i] == Placeholder(i + 1)
    decreases 3 - |vs|
  {
    if |vs| >= 3 then vs else PadServices(vs + [Placeholder(|vs| + 1)])
  }

  /** `content['services']` after `if not isinstance(..., list): ... = []` */
  function ServiceItems(v: Value): seq<Value> {
    if v.List? then v.items else []
  }

  /** The validated services list built from the value of `services`. */
  function CleanServices(v: Value): seq<Value> {
    PadServices(KeptServices(Prefix(ServiceItems(v), 3)))
  }

  /** Repairing a list of repaired services gives it back. */
  lemma {:induction false} KeptValidServices(xs: seq<Value>)
    requires forall i :: 0 <= i < |xs| ==> ValidService(xs[i])
    ensures KeptServices(xs) == xs
    decreases |xs|
  {
    if xs != [] {
      var front := xs[..|xs| - 1];
      var last := xs[|xs| - 1];
      assert forall i :: 0 <= i < |front| ==> front[i] == xs[i];
      KeptValidServices(front);
      assert CleanService(last.fields).fields == last.fields;
      assert xs == front + [last];
    }
  }

  // ---------------------------------------------------------------------------
  // Length caps

  /**
   * `if len(x) > cap: x = x[:cap - 3] + '...'`. None is the TypeError raised by
   * len() on a value without a length, or by slicing and concatenating a long
   * value that is not a string.
   */
  function CapValue(v: Value, cap: nat): (r: Option<Value>)
    requires cap >= 3
    ensures r.Some? <==> v.Str? || (Len(v).Some? && Len(v).value <= cap)
    ensures r.Some? ==> Len(r.value).Some? && Len(r.value).value <= cap
    ensures r.Some? && Truthy(v) ==> Truthy(r.value)
    ensures v.Str? ==> r == Some(Str(Ellipsize(v.s, cap)))
    ensures r.Some? && !v.Str? ==> r.value == v
  {
    match Len(v)
    case None => None
    case Some(n) =>
      if n <= cap then Some(v)
      else if v.Str? then Some(Str(v.s[..cap - 3] + "..."))
      else None
  }

  /** One capping statement applied to the field `key` of m. */
  function CapAt(m: Doc, key: string, cap: nat): (r: Option<Doc>)
    requires cap >= 3 && key in m
    ensures r.Some? <==> CapValue(m[key], cap).Some?
    ensures r.Some? ==> r.value == m[key := CapValue(m[key], cap).value]
    ensures r.Some? ==> r.value.Keys == m.Keys
  {
    match CapValue(m[key], cap)
    case None => None
    case Some(v) => Some(m[key := v])
  }

  /** The four capping statements, in order. */
  function CapAll(m: Doc): Option<Doc>
    requires "hero_title" in m && "hero_subtitle" in m && "meta_title" in m && "meta_description" in m
  {
    var m1 :- CapAt(m, "hero_title", 80);
    var m2 :- CapAt(m1, "hero_subtitle", 150);
    var m3 :- CapAt(m2, "meta_title", 60);
    CapAt(m3, "meta_description", 160)
  }

  // ---------------------------------------------------------------------------
  // _validate_and_clean_content

  /** The document after the defaults, the services repair and the contact repair. */
  function Repaired(m: Doc): (r: Doc)
    ensures HasRequired(r)
  {
    RequiredFieldNames();
    var m1 := FillDefaults(m, RequiredFields);
    var m2 := m1["services" := List(CleanServices(m1["services"]))];
    var contact := m2["contact_info"];
    m2["contact_info" := Dict(FillDefaults(if contact.Dict? then contact.fields else map[], ContactDefaults))]
  }

  /** The eight fields `required_fields` names are all present. */
  predicate HasRequired(r: Doc) {
    && "hero_title" in r && "hero_subtitle" in r && "about_section" in r && "services" in r
    && "contact_info" in r && "meta_title" in r && "meta_description" in r && "meta_keywords" in r
  }

  /** _validate_and_clean_content; None is an exception it raises. */
  function ValidatedContent(content: Value): Option<Doc> {
    if !content.Dict? then None
    else
      CapAll(Repaired(content.fields))
  }

  /** The defaults loop, updating the dictionary one field at a time. */
  method FillDefaultsLoop(m0: Doc, ds: Defaults) returns (m: Doc)
    ensures m == FillDefaults(m0, ds)
  {
    m := m0;
    for i := 0 to |ds|
      invariant m == FillDefaults(m0, ds[..i])
    {
      var (field, default) := ds[i];
      if field !in m || !Truthy(m[field]) {
        m := m[field := default];
      }
      assert ds[..i + 1][..i] == ds[..i];
    }
    assert ds[..|ds|] == ds;
  }

  /** One more item of the loop over `services[:3]` adds its repaired form when it is a dict. */
  lemma KeptServicesSnoc(xs: seq<Value>, i: nat)
    requires i < |xs|
    ensures KeptServices(xs[..i + 1]) == KeptServices(xs[..i]) + (if xs[i].Dict? then [CleanService(xs[i].fields)] else [])
  {
    assert xs[..i + 1][..i] == xs[..i];
  }

  /** The services repair: the loop over `services[:3]` and the padding loop. */
  method CleanServicesLoop(v: Value) returns (services: seq<Value>)
    ensures services == CleanServices(v)
  {
    var items := if v.List? then v.items else [];
    var head := Prefix(items, 3);
    services := [];
    for i := 0 to |head|
      invariant services == KeptServices(head[..i])
    {
      KeptServicesSnoc(head, i);
      if head[i].Dict? {
        services := services + [CleanService(head[i].fields)];
      }
    }
    assert head[..|head|] == head;
    while |services| < 3
      invariant PadServices(services) == CleanServices(v)
      decreases 3 - |services|
    {
      services := services + [Placeholder(|services| + 1)];
    }
  }

  /** _validate_and_clean_content, repairing the dictionary step by step. */
  method ValidateAndCleanContent(content: Value) returns (r: Option<Doc>)
    ensures r == ValidatedContent(content)
  {
    if !content.Dict? {
      return None;
    }
    var m := FillDefaultsLoop(content.fields, RequiredFields);
    RequiredFieldNames();
    var services := CleanServicesLoop(m["services"]);
    m := m["services" := List(services)];
    var contact := if m["contact_info"].Dict? then m["contact_info"].fields else map[];
    contact := FillDefaultsLoop(contact, ContactDefaults);
    m := m["contact_info" := Dict(contact)];
    assert m == Repaired(content.fields);
    var m1 := CapField(m, "hero_title", 80);
    if m1.None? {
      return None;
    }
    var m2 := CapField(m1.value, "hero_subtitle", 150);
    if m2.None? {
      return None;
    }
    var m3 := CapField(m2.value, "meta_title", 60);
    if m3.None? {
      return None;
    }
    r := CapField(m3.value, "meta_description", 160);
  }

  /** One capping statement, as the source writes it. */
  method CapField(m: Doc, key: string, cap: nat) returns (r: Option<Doc>)
    requires cap >= 3 && key in m
    ensures r == CapAt(m, key, cap)
  {
    var n := Len(m[key]);
    if n.None? {
      return None;
    }
    if n.value > cap {
      if !m[key].Str? {
        return None;
      }
      return Some(m[key := Str(m[key].s[..cap - 3] + "...")]);
    }
    assert m[key := m[key]] == m;
    return Some(m);
  }

  /** The value the defaults loop leaves in `services`, `contact_info`, and so on. */
  function RequiredValue(m: Doc, i: nat): Value
    requires i < |RequiredFields|
  {
    Filled(m, RequiredFields[i].0, RequiredFields[i].1)
  }

  lemma RequiredDistinct()
    ensures DistinctKeys(RequiredFields)
    ensures DistinctKeys(ContactDefaults)
  {
  }

  const RequiredKeys: set<string> :=
    {"hero_title", "hero_subtitle", "about_section", "services", "contact_info", "meta_title", "meta_description", "meta_keywords"}

  lemma RequiredFieldNames()
    ensures RequiredFields[0].0 == "hero_title" && RequiredFields[1].0 == "hero_subtitle"
    ensures RequiredFields[2].0 == "about_section" && RequiredFields[3].0 == "services"
    ensures RequiredFields[4].0 == "contact_info" && RequiredFields[5].0 == "meta_title"
    ensures RequiredFields[6].0 == "meta_description" && RequiredFields[7].0 == "meta_keywords"
  {
  }

  lemma RequiredListed(k: string)
    ensures Listed(RequiredFields, k) <==> k in RequiredKeys
  {
    RequiredFieldNames();
  }

  /** A field outside `required_fields` is neither added, removed nor changed by the repair. */
  lemma RepairedOther(m: Doc, k: string)
    requires k !in RequiredKeys
    ensures k in Repaired(m) <==> k in m
    ensures k in m ==> Repaired(m)[k] == m[k]
  {
    RequiredDistinct();
    RequiredListed(k);
    FillDefaultsAt(m, RequiredFields, k);
  }

  /** A listed field other than services and contact_info holds its filled value. */
  lemma RepairedField(m: Doc, i: nat)
    requires i < |RequiredFields| && i != 3 && i != 4
    ensures Repaired(m)[RequiredFields[i].0] == RequiredValue(m, i)
  {
    RequiredDistinct();
    RequiredFieldNames();
    var k := RequiredFields[i].0;
    assert k != RequiredFields[3].0 && k != RequiredFields[4].0;
    FillDefaultsAt(m, RequiredFields, k);
    var m1 := FillDefaults(m, RequiredFields);
    assert m1[k] == RequiredValue(m, i);
    var m2 := m1["services" := List(CleanServices(m1["services"]))];
    assert m2[k] == m1[k];
  }

  /** services and contact_info hold their repaired forms. */
  lemma RepairedNested(m: Doc)
    ensures Repaired(m)["services"] == List(CleanServices(RequiredValue(m, 3)))
    ensures Repaired(m)["contact_info"]
      == Dict(FillDefaults(if RequiredValue(m, 4).Dict? then RequiredValue(m, 4).fields else map[], ContactDefaults))
  {
    RequiredDistinct();
    RequiredFieldNames();
    FillDefaultsAt(m, RequiredFields, "services");
    FillDefaultsAt(m, RequiredFields, "contact_info");
    var m1 := FillDefaults(m, RequiredFields);
    assert m1["services"] == RequiredValue(m, 3);
    assert m1["contact_info"] == RequiredValue(m, 4);
    var m2 := m1["services" := List(CleanServices(m1["services"]))];
    assert m2["contact_info"] == m1["contact_info"];
  }

  /** The four capping statements succeed exactly when none of them raises. */
  lemma CapAllSome(m: Doc)
    requires "hero_title" in m && "hero_subtitle" in m && "meta_title" in m && "meta_description" in m
    ensures CapAll(m).Some? <==>
      && CapValue(m["hero_title"], 80).Some? && CapValue(m["hero_subtitle"], 150).Some?
      && CapValue(m["meta_title"], 60).Some? && CapValue(m["meta_description"], 160).Some?
  {
  }

  /** What the capping statements leave in the four headline fields. */
  lemma CapAllHeadlines(m: Doc)
    requires "hero_title" in m && "hero_subtitle" in m && "meta_title" in m && "meta_description" in m
    requires CapAll(m).Some?
    ensures && CapValue(m["hero_title"], 80).Some? && CapValue(m["hero_subtitle"], 150).Some?
            && CapValue(m["meta_title"], 60).Some? && CapValue(m["meta_description"], 160).Some?
    ensures var r := CapAll(m).value;
      && r.Keys == m.Keys
      && r["hero_title"] == CapValue(m["hero_title"], 80).value
      && r["hero_subtitle"] == CapValue(m["hero_subtitle"], 150).value
      && r["meta_title"] == CapValue(m["meta_title"], 60).value
      && r["meta_description"] == CapValue(m["meta_description"], 160).value
  {
  }

  /** The capping statements leave every other field alone. */
  lemma CapAllOther(m: Doc, k: string)
    requires "hero_title" in m && "hero_subtitle" in m && "meta_title" in m && "meta_description" in m
    requires CapAll(m).Some? && k in m && k !in CapKeys
    ensures k in CapAll(m).value && CapAll(m).value[k] == m[k]
  {
  }

  /** The capping statements leave the four other required fields alone. */
  lemma CapAllRest(m: Doc)
    requires HasRequired(m) && CapAll(m).Some?
    ensures var r := CapAll(m).value;
      && HasRequired(r)
      && r["about_section"] == m["about_section"] && r["services"] == m["services"]
      && r["contact_info"] == m["contact_info"] && r["meta_keywords"] == m["meta_keywords"]
  {
  }

  const CapKeys: set<string> := {"hero_title", "hero_subtitle", "meta_title", "meta_description"}

  /** The contact dictionary the repair starts from. */
  function ContactInput(m: Doc): Doc {
    var c := Get(m, "contact_info", Null);
    if c.Dict? then c.fields else map[]
  }

  /** The items the services loop sees. */
  function ServicesInput(m: Doc): seq<Value> {
    ServiceItems(Get(m, "services", Null))
  }

  lemma RequiredInputs(m: Doc)
    ensures ServiceItems(RequiredValue(m, 3)) == ServicesInput(m)
    ensures (if RequiredValue(m, 4).Dict? then RequiredValue(m, 4).fields else map[]) == ContactInput(m)
  {
  }

  /** The headline and text fields hold their filled values after the repair. */
  lemma RepairedText(m: Doc)
    ensures var r := Repaired(m);
      && r["hero_title"] == Filled(m, "hero_title", Str(HeroTitleDefault))
      && r["hero_subtitle"] == Filled(m, "hero_subtitle", Str(HeroSubtitleDefault))
      && r["about_section"] == Filled(m, "about_section", Str(AboutDefault))
      && r["meta_title"] == Filled(m, "meta_title", Str(MetaTitleDefault))
      && r["meta_description"] == Filled(m, "meta_description", Str(MetaDescriptionDefault))
      && r["meta_keywords"] == Filled(m, "meta_keywords", Str(MetaKeywordsDefault))
  {
    RequiredFieldNames();
    RepairedField(m, 0);
    RepairedField(m, 1);
    RepairedField(m, 2);
    RepairedField(m, 5);
    RepairedField(m, 6);
    RepairedField(m, 7);
  }

  /** The repair adds exactly the required keys and leaves every other key alone. */
  lemma RepairedKeys(m: Doc)
    ensures Repaired(m).Keys == m.Keys + RequiredKeys
    ensures forall k :: k in m && k !in RequiredKeys ==> Repaired(m)[k] == m[k]
  {
    var r := Repaired(m);
    forall k | k !in RequiredKeys
      ensures (k in r <==> k in m) && (k in m ==> r[k] == m[k])
    {
      RepairedOther(m, k);
    }
  }

  /**
   * After the repair `services` holds exactly three well-formed entries: the dict
   * entries among the first three inputs, repaired and in order, followed by
   * placeholders titled "Service k" at the remaining 1-based positions k.
   */
  lemma ValidatedServices(m: Doc)
    requires ValidatedContent(Dict(m)).Some?
    ensures var r := ValidatedContent(Dict(m)).value;
      var kept := KeptServices(Prefix(ServicesInput(m), 3));
      && "services" in r && r["services"].List?
      && |r["services"].items| == 3
      && (forall i :: 0 <= i < 3 ==> ValidService(r["services"].items[i]))
      && (forall i :: 0 <= i < 3 ==> r["services"].items[i] == if i < |kept| then kept[i] else Placeholder(i + 1))
  {
    ValidatedServicesValue(m);
    RequiredInputs(m);
    CleanServicesShape(RequiredValue(m, 3));
  }

  /** The validated `services` is the services repair applied to the filled field. */
  lemma ValidatedServicesValue(m: Doc)
    requires ValidatedContent(Dict(m)).Some?
    ensures var r := ValidatedContent(Dict(m)).value;
      "services" in r && r["services"] == List(CleanServices(RequiredValue(m, 3)))
  {
    RepairedNested(m);
    CapAllRest(Repaired(m));
  }

  lemma CleanServicesShape(v: Value)
    ensures var c := CleanServices(v);
      var kept := KeptServices(Prefix(ServiceItems(v), 3));
      && |c| == 3
      && (forall i :: 0 <= i < 3 ==> ValidService(c[i]))
      && (forall i :: 0 <= i < 3 ==> c[i] == if i < |kept| then kept[i] else Placeholder(i + 1))
  {
    var kept := KeptServices(Prefix(ServiceItems(v), 3));
    var c := CleanServices(v);
    assert forall i :: 0 <= i < |kept| ==> c[i] == c[..|kept|][i];
  }

  /** A headline value within its cap: strings are cut with "...", other values kept. */
  predicate CappedFrom(out: Value, filled: Value, cap: nat)
    requires cap >= 3
  {
    && Len(out).Some? && Len(out).value <= cap
    && (filled.Str? ==> out == Str(Ellipsize(filled.s, cap)))
    && (!filled.Str? ==> out == filled)
  }

  /** A headline value the capping statement accepts without raising. */
  predicate Fits(v: Value, cap: nat) {
    v.Str? || (Len(v).Some? && Len(v).value <= cap)
  }

  /**
   * The repair succeeds exactly on a dictionary whose four headline fields, once
   * filled, are strings or sized values within their caps; otherwise it raises.
   */
  lemma ValidatedSucceeds(content: Value)
    ensures ValidatedContent(content).Some? <==>
      && content.Dict?
      && Fits(Filled(content.fields, "hero_title", Str(HeroTitleDefault)), 80)
      && Fits(Filled(content.fields, "hero_subtitle", Str(HeroSubtitleDefault)), 150)
      && Fits(Filled(content.fields, "meta_title", Str(MetaTitleDefault)), 60)
      && Fits(Filled(content.fields, "meta_description", Str(MetaDescriptionDefault)), 160)
  {
    if content.Dict? {
      RepairedText(content.fields);
      CapAllSome(Repaired(content.fields));
    }
  }

  /**
   * The four headline fields end within their caps: a string longer than its cap
   * is cut to cap - 3 characters followed by "...", a shorter one is unchanged.
   */
  lemma ValidatedCaps(m: Doc)
    requires ValidatedContent(Dict(m)).Some?
    ensures var r := ValidatedContent(Dict(m)).value;
      && "hero_title" in r && CappedFrom(r["hero_title"], Filled(m, "hero_title", Str(HeroTitleDefault)), 80)
      && "hero_subtitle" in r && CappedFrom(r["hero_subtitle"], Filled(m, "hero_subtitle", Str(HeroSubtitleDefault)), 150)
      && "meta_title" in r && CappedFrom(r["meta_title"], Filled(m, "meta_title", Str(MetaTitleDefault)), 60)
      && "meta_description" in r && CappedFrom(r["meta_description"], Filled(m, "meta_description", Str(MetaDescriptionDefault)), 160)
  {
    var m1 := Repaired(m);
    var r := CapAll(m1).value;
    RepairedText(m);
    CapAllHeadlines(m1);
    HeadlineCapped(m1, r, "hero_title", 80, Filled(m, "hero_title", Str(HeroTitleDefault)));
    HeadlineCapped(m1, r, "hero_subtitle", 150, Filled(m, "hero_subtitle", Str(HeroSubtitleDefault)));
    HeadlineCapped(m1, r, "meta_title", 60, Filled(m, "meta_title", Str(MetaTitleDefault)));
    HeadlineCapped(m1, r, "meta_description", 160, Filled(m, "meta_description", Str(MetaDescriptionDefault)));
  }

  /** A headline the capping statement rewrote is capped from its filled value. */
  lemma HeadlineCapped(m1: Doc, r: Doc, key: string, cap: nat, filled: Value)
    requires cap >= 3 && key in m1 && key in r && m1[key] == filled
    requires CapValue(filled, cap).Some? && r[key] == CapValue(filled, cap).value
    ensures CappedFrom(r[key], filled, cap)
  {
  }

  /** The repair adds exactly the required keys and leaves every other key alone. */
  lemma ValidatedUntouched(m: Doc)
    requires ValidatedContent(Dict(m)).Some?
    ensures var r := ValidatedContent(Dict(m)).value;
      && r.Keys == m.Keys + RequiredKeys
      && (forall k :: k in m && k !in RequiredKeys ==> r[k] == m[k])
  {
    var m1 := Repaired(m);
    var r := CapAll(m1).value;
    RepairedKeys(m);
    CapAllHeadlines(m1);
    forall k | k in m && k !in RequiredKeys ensures r[k] == m[k] {
      CapAllOther(m1, k);
    }
  }

  /** Every required field ends present and truthy. */
  lemma ValidatedFields(m: Doc)
    requires ValidatedContent(Dict(m)).Some?
    ensures var r := ValidatedContent(Dict(m)).value;
      && RequiredKeys <= r.Keys
      && Truthy(r["hero_title"]) && Truthy(r["hero_subtitle"]) && Truthy(r["about_section"])
      && Truthy(r["services"]) && Truthy(r["contact_info"])
      && Truthy(r["meta_title"]) && Truthy(r["meta_description"]) && Truthy(r["meta_keywords"])
  {
    ValidatedUntouched(m);
    ValidatedHeadlinesTruthy(m);
    ValidatedNestedTruthy(m);
    ValidatedText(m);
    FilledTruthy(m, "about_section", Str(AboutDefault));
    FilledTruthy(m, "meta_keywords", Str(MetaKeywordsDefault));
  }

  /** about_section and meta_keywords keep a truthy given value and otherwise hold their defaults. */
  lemma ValidatedText(m: Doc)
    requires ValidatedContent(Dict(m)).Some?
    ensures var r := ValidatedContent(Dict(m)).value;
      && "about_section" in r && "meta_keywords" in r
      && r["about_section"] == Filled(m, "about_section", Str(AboutDefault))
      && r["meta_keywords"] == Filled(m, "meta_keywords", Str(MetaKeywordsDefault))
  {
    RepairedText(m);
    CapAllRest(Repaired(m));
  }

  lemma ValidatedHeadlinesTruthy(m: Doc)
    requires ValidatedContent(Dict(m)).Some?
    ensures var r := ValidatedContent(Dict(m)).value;
      && "hero_title" in r && "hero_subtitle" in r && "meta_title" in r && "meta_description" in r
      && Truthy(r["hero_title"]) && Truthy(r["hero_subtitle"])
      && Truthy(r["meta_title"]) && Truthy(r["meta_description"])
  {
    ValidatedCaps(m);
    var r := ValidatedContent(Dict(m)).value;
    FilledTruthy(m, "hero_title", Str(HeroTitleDefault));
    FilledTruthy(m, "hero_subtitle", Str(HeroSubtitleDefault));
    FilledTruthy(m, "meta_title", Str(MetaTitleDefault));
    FilledTruthy(m, "meta_description", Str(MetaDescriptionDefault));
    CappedTruthy(r["hero_title"], Filled(m, "hero_title", Str(HeroTitleDefault)), 80);
    CappedTruthy(r["hero_subtitle"], Filled(m, "hero_subtitle", Str(HeroSubtitleDefault)), 150);
    CappedTruthy(r["meta_title"], Filled(m, "meta_title", Str(MetaTitleDefault)), 60);
    CappedTruthy(r["meta_description"], Filled(m, "meta_description", Str(MetaDescriptionDefault)), 160);
  }

  lemma FilledTruthy(m: Doc, field: string, default: Value)
    requires Truthy(default)
    ensures Truthy(Filled(m, field, default))
  {
  }

  lemma CappedTruthy(out: Value, filled: Value, cap: nat)
    requires cap >= 3 && CappedFrom(out, filled, cap) && Truthy(filled)
    ensures Truthy(out)
  {
  }

  lemma ValidatedNestedTruthy(m: Doc)
    requires ValidatedContent(Dict(m)).Some?
    ensures var r := ValidatedContent(Dict(m)).value;
      && "services" in r && "contact_info" in r
      && Truthy(r["services"]) && Truthy(r["contact_info"])
  {
    ValidatedServicesValue(m);
    CleanServicesShape(RequiredValue(m, 3));
    ValidatedContactValue(m);
    ContactFilled(ContactInput(m));
    assert "phone" in FillDefaults(ContactInput(m), ContactDefaults);
  }

  /**
   * contact_info ends a dictionary whose phone, email, address and business_hours
   * keep a truthy given value and otherwise hold their defaults; its other keys
   * are untouched.
   */
  lemma ValidatedContact(m: Doc)
    requires ValidatedContent(Dict(m)).Some?
    ensures var r := ValidatedContent(Dict(m)).value;
      var given := ContactInput(m);
      && "contact_info" in r && r["contact_info"].Dict?
      && var c := r["contact_info"].fields;
      && c.Keys == given.Keys + ContactKeys
      && c["phone"] == Filled(given, "phone", Str(PhoneDefault))
      && c["email"] == Filled(given, "email", Str(EmailDefault))
      && c["address"] == Filled(given, "address", Str(AddressDefault))
      && c["business_hours"] == Filled(given, "business_hours", Str(HoursDefault))
      && (forall k :: k in ContactKeys ==> Truthy(c[k]))
      && (forall k :: k in given && k !in ContactKeys ==> c[k] == given[k])
  {
    ValidatedContactValue(m);
    ContactFilled(ContactInput(m));
  }

  /** The validated `contact_info` is the contact defaults loop applied to the given dictionary. */
  lemma ValidatedContactValue(m: Doc)
    requires ValidatedContent(Dict(m)).Some?
    ensures var r := ValidatedContent(Dict(m)).value;
      "contact_info" in r && r["contact_info"] == Dict(FillDefaults(ContactInput(m), ContactDefaults))
  {
    RepairedNested(m);
    RequiredInputs(m);
    CapAllRest(Repaired(m));
  }

  const ContactKeys: set<string> := {"phone", "email", "address", "business_hours"}

  /** The contact defaults loop, field by field. */
  lemma ContactFilled(given: Doc)
    ensures var c := FillDefaults(given, ContactDefaults);
      && c.Keys == given.Keys + ContactKeys
      && c["phone"] == Filled(given, "phone", Str(PhoneDefault))
      && c["email"] == Filled(given, "email", Str(EmailDefault))
      && c["address"] == Filled(given, "address", Str(AddressDefault))
      && c["business_hours"] == Filled(given, "business_hours", Str(HoursDefault))
      && (forall k :: k in ContactKeys ==> Truthy(c[k]))
      && (forall k :: k in given && k !in ContactKeys ==> c[k] == given[k])
  {
    RequiredDistinct();
    var c := FillDefaults(given, ContactDefaults);
    assert ContactDefaults[0].0 == "phone" && ContactDefaults[1].0 == "email";
    assert ContactDefaults[2].0 == "address" && ContactDefaults[3].0 == "business_hours";
    forall k ensures (k in c <==> k in given || k in ContactKeys)
      && (k in ContactKeys ==> Truthy(c[k]))
      && (k in given && k !in ContactKeys ==> c[k] == given[k])
    {
      FillDefaultsAt(given, ContactDefaults, k);
      assert Listed(ContactDefaults, k) <==> k in ContactKeys;
    }
    FillDefaultsAt(given, ContactDefaults, "phone");
    FillDefaultsAt(given, ContactDefaults, "email");
    FillDefaultsAt(given, ContactDefaults, "address");
    FillDefaultsAt(given, ContactDefaults, "business_hours");
  }

  /**
   * The shape the repair establishes: every required field truthy, exactly three
   * well-formed services, a contact dictionary with its four fields truthy, and the
   * headline fields within their caps.
   */
  predicate CleanContent(r: Doc) {
    && RequiredKeys <= r.Keys
    && Truthy(r["hero_title"]) && Truthy(r["hero_subtitle"]) && Truthy(r["about_section"])
    && Truthy(r["services"]) && Truthy(r["contact_info"])
    && Truthy(r["meta_title"]) && Truthy(r["meta_description"]) && Truthy(r["meta_keywords"])
    && r["services"].List? && |r["services"].items| == 3
    && (forall i :: 0 <= i < 3 ==> ValidService(r["services"].items[i]))
    && r["contact_info"].Dict? && ContactKeys <= r["contact_info"].fields.Keys
    && (forall k :: k in ContactKeys ==> Truthy(r["contact_info"].fields[k]))
    && Len(r["hero_title"]).Some? && Len(r["hero_title"]).value <= 80
    && Len(r["hero_subtitle"]).Some? && Len(r["hero_subtitle"]).value <= 150
    && Len(r["meta_title"]).Some? && Len(r["meta_title"]).value <= 60
    && Len(r["meta_description"]).Some? && Len(r["meta_description"]).value <= 160
  }

  /** Whatever the repair returns has the clean shape. */
  lemma ValidatedIsClean(m: Doc)
    requires ValidatedContent(Dict(m)).Some?
    ensures CleanContent(ValidatedContent(Dict(m)).value)
  {
    var r := ValidatedContent(Dict(m)).value;
    ValidatedFields(m);
    ValidatedServices(m);
    ValidatedContact(m);
    ValidatedCaps(m);
  }

  /** The repair returns a clean document unchanged. */
  lemma CleanIsFixed(r: Doc)
    requires CleanContent(r)
    ensures ValidatedContent(Dict(r)) == Some(r)
  {
    CleanRepairedFixed(r);
    CleanCapsFixed(r);
  }

  /** The defaults loops and the services repair leave a clean document as it is. */
  lemma CleanRepairedFixed(r: Doc)
    requires CleanContent(r)
    ensures Repaired(r) == r
  {
    CleanFilledFixed(r);
    CleanServicesFixed(r);
    CleanContactFixed(r);
    assert r["services" := List(r["services"].items)] == r;
    assert r["contact_info" := Dict(r["contact_info"].fields)] == r;
  }

  lemma CleanFilledFixed(r: Doc)
    requires CleanContent(r)
    ensures FillDefaults(r, RequiredFields) == r
  {
    RequiredFieldNames();
    assert forall i :: 0 <= i < |RequiredFields| ==> TruthyAt(r, RequiredFields[i].0);
    FillDefaultsTruthy(r, RequiredFields);
  }

  lemma CleanServicesFixed(r: Doc)
    requires CleanContent(r)
    ensures CleanServices(r["services"]) == r["services"].items
  {
    var s3 := r["services"].items;
    KeptValidServices(s3);
    assert Prefix(s3, 3) == s3;
  }

  lemma CleanContactFixed(r: Doc)
    requires CleanContent(r)
    ensures FillDefaults(r["contact_info"].fields, ContactDefaults) == r["contact_info"].fields
  {
    assert ContactDefaults[0].0 == "phone" && ContactDefaults[1].0 == "email";
    assert ContactDefaults[2].0 == "address" && ContactDefaults[3].0 == "business_hours";
    FillDefaultsTruthy(r["contact_info"].fields, ContactDefaults);
  }

  /** The capping statements leave a clean document as it is. */
  lemma CleanCapsFixed(r: Doc)
    requires CleanContent(r)
    ensures CapAll(r) == Some(r)
  {
    CapWithin(r, "hero_title", 80);
    CapWithin(r, "hero_subtitle", 150);
    CapWithin(r, "meta_title", 60);
    CapWithin(r, "meta_description", 160);
  }

  /** A field already within its cap is left as it is. */
  lemma CapWithin(m: Doc, key: string, cap: nat)
    requires cap >= 3 && key in m && Len(m[key]).Some? && Len(m[key]).value <= cap
    ensures CapAt(m, key, cap) == Some(m)
  {
    assert m[key := m[key]] == m;
  }

  /** Repairing a repaired document changes nothing. */
  lemma ValidatedIdempotent(m: Doc)
    requires ValidatedContent(Dict(m)).Some?
    ensures var r := ValidatedContent(Dict(m)).value;
      ValidatedContent(Dict(r)) == Some(r)
  {
    ValidatedIsClean(m);
    CleanIsFixed(ValidatedContent(Dict(m)).value);
  }

  // ---------------------------------------------------------------------------
  // _parse_ai_response: the brace extraction

  /**
   * re.search(r'\{.*\}', s, re.DOTALL): the leftmost '{' that has a '}' after it,
   * through the last '}' of the text.
   */
  function BraceSpan(s: string): (r: Option<string>)
    ensures r.None? <==> !exists i, j :: 0 <= i < j < |s| && s[i] == '{' && s[j] == '}'
    ensures r.Some? ==>
      exists i, j :: && 0 <= i < j < |s| && s[i] == '{' && s[j] == '}' && r.value == s[i..j + 1]
                     && (forall k :: 0 <= k < i ==> s[k] != '{')
                     && (forall k :: j < k < |s| ==> s[k] != '}')
  {
    match (FindChar(s, '{'), RFindChar(s, '}'))
    case (Some(i), Some(j)) => if i < j then Some(s[i..j + 1]) else None
    case _ => None
  }

  // ---------------------------------------------------------------------------
  // _extract_content_manually

  const TitleWords: seq<string> := ["welcome", "professional", "expert", "quality", "best"]

  /** The test a stripped line must pass to become the title. */
  predicate TitleLine(line: string) {
    10 < |line| < 80 && HasTitleWord(Lower(line))
  }

  /** `any(word in lowered for word in [...])` */
  predicate HasTitleWord(lowered: string) {
    exists j :: 0 <= j < |TitleWords| && Contains(lowered, TitleWords[j])
  }

  /** line.replace('"', '').replace("'", '') */
  function Unquoted(line: string): (r: string)
    ensures |r| <= |line| && '"' !in r && '\'' !in r
  {
    RemoveChar(RemoveChar(line, '"'), '\'')
  }

  /** A line of the reply that, once stripped, becomes the title. */
  predicate IsTitleLine(line: string) {
    TitleLine(Strip(line))
  }

  /** The first line at or after k that `accept` takes, if any. */
  function FirstAccepted(lines: seq<string>, accept: string -> bool, k: nat): (r: Option<nat>)
    ensures r.Some? ==> k <= r.value < |lines| && accept(lines[r.value])
    ensures r.Some? ==> forall j :: k <= j < r.value ==> !accept(lines[j])
    ensures r.None? ==> forall j :: k <= j < |lines| ==> !accept(lines[j])
    decreases |lines| - k
  {
    if k >= |lines| then None
    else if accept(lines[k]) then Some(k)
    else FirstAccepted(lines, accept, k + 1)
  }

  /** The title the line scan settles on: the first title line, stripped and unquoted. */
  function ManualTitle(lines: seq<string>): (r: string)
    ensures |r| < 80 && '"' !in r && '\'' !in r
  {
    match FirstAccepted(lines, IsTitleLine, 0)
    case None => HeroTitleDefault
    case Some(i) => Unquoted(Strip(lines[i]))
  }

  /** A service dictionary written out in the source. */
  function ServiceEntry(title: string, description: string, icon: string): (r: Value)
    ensures r.Dict? && r.fields.Keys == {"title", "description", "icon"}
    ensures r.fields["title"] == Str(title) && r.fields["description"] == Str(description)
    ensures icon in ValidIcons ==> ValidService(r)
  {
    Dict(map["title" := Str(title), "description" := Str(description), "icon" := Str(icon)])
  }

  /** The fixed contact block of the manual and fallback documents. */
  function DefaultContact(email: string): Value {
    Dict(map[
      "phone" := Str(PhoneDefault),
      "email" := Str(email),
      "address" := Str(AddressDefault),
      "business_hours" := Str(HoursDefault)])
  }

  /** A content document with the eight fields the generator always returns. */
  function ContentDocument(heroTitle: Value, heroSubtitle: Value, about: Value, services: Value,
                           contact: Value, metaTitle: Value, metaDescription: Value, metaKeywords: Value): (d: Doc)
    ensures d.Keys == RequiredKeys
    ensures d["hero_title"] == heroTitle && d["hero_subtitle"] == heroSubtitle
    ensures d["about_section"] == about && d["services"] == services
    ensures d["contact_info"] == contact && d["meta_title"] == metaTitle
    ensures d["meta_description"] == metaDescription && d["meta_keywords"] == metaKeywords
  {
    map[
      "hero_title" := heroTitle,
      "hero_subtitle" := heroSubtitle,
      "about_section" := about,
      "services" := services,
      "contact_info" := contact,
      "meta_title" := metaTitle,
      "meta_description" := metaDescription,
      "meta_keywords" := metaKeywords]
  }

  /** The three services of the manual document. */
  const ManualServiceList: seq<Value> := [
    ServiceEntry("Service 1", "Professional service description", "star"),
    ServiceEntry("Service 2", "Quality service offering", "heart"),
    ServiceEntry("Service 3", "Dedicated support service", "check")]

  /** The document _extract_content_manually returns once it has chosen a title. */
  function ManualDocument(title: string, response: string): Doc {
    ContentDocument(
      Str(title), Str(HeroSubtitleDefault), Str(Prefix(response, 500)), List(ManualServiceList),
      DefaultContact(EmailDefault), Str(MetaTitleDefault), Str(MetaDescriptionDefault), Str(MetaKeywordsDefault))
  }

  /** The document _extract_content_manually builds from a reply. */
  function ManualContent(response: string): Doc {
    ManualDocument(ManualTitle(Split(response, "\n")), response)
  }

  /** _extract_content_manually */
  method ExtractContentManually(response: string) returns (r: Doc)
    ensures r == ManualContent(response)
  {
    var lines := Split(response, "\n");
    var title := ScanTitle(lines);
    r := ManualDocument(title, response);
  }

  /** The loop of _extract_content_manually over the lines, stopping at the first title. */
  method ScanTitle(lines: seq<string>) returns (title: string)
    ensures title == ManualTitle(lines)
  {
    title := HeroTitleDefault;
    var i := 0;
    while i < |lines|
      invariant 0 <= i <= |lines|
      invariant FirstAccepted(lines, IsTitleLine, i) == FirstAccepted(lines, IsTitleLine, 0)
    {
      var line := Strip(lines[i]);
      if |line| > 10 && |line| < 80 {
        if HasTitleWord(Lower(line)) {
          assert IsTitleLine(lines[i]);
          title := Unquoted(line);
          break;
        }
      }
      assert !IsTitleLine(lines[i]);
      i := i + 1;
    }
  }

  /** The manual document has three fixed services with allowed icons. */
  lemma ManualServices(response: string)
    ensures var r := ManualContent(response);
      && r["services"].List? && |r["services"].items| == 3
      && (forall i :: 0 <= i < 3 ==> ValidService(r["services"].items[i]))
  {
    ManualDocumentServices(ManualTitle(Split(response, "\n")), response);
  }

  lemma ManualDocumentServices(title: string, response: string)
    ensures var r := ManualDocument(title, response);
      && r["services"] == List(ManualServiceList)
      && |ManualServiceList| == 3
      && (forall i :: 0 <= i < 3 ==> ValidService(ManualServiceList[i]))
  {
    ManualServiceListValid();
  }

  lemma ManualServiceListValid()
    ensures |ManualServiceList| == 3 && forall i :: 0 <= i < 3 ==> ValidService(ManualServiceList[i])
  {
  }

  /** The manual about_section is the reply's first 500 characters at most. */
  lemma ManualAbout(response: string)
    ensures var r := ManualContent(response);
      && r["about_section"].Str? && |r["about_section"].s| <= 500
      && StartsWith(response, r["about_section"].s)
  {
    ManualDocumentText(ManualTitle(Split(response, "\n")), response);
  }

  /** The manual hero_title is under 80 characters and holds no quote character. */
  lemma ManualHeroTitle(response: string)
    ensures var r := ManualContent(response);
      && r["hero_title"].Str? && |r["hero_title"].s| < 80
      && '"' !in r["hero_title"].s && '\'' !in r["hero_title"].s
  {
    ManualDocumentText(ManualTitle(Split(response, "\n")), response);
  }

  lemma ManualDocumentText(title: string, response: string)
    ensures var r := ManualDocument(title, response);
      && r["hero_title"] == Str(title)
      && r["about_section"] == Str(Prefix(response, 500))
  {
  }

  // ---------------------------------------------------------------------------
  // _get_fallback_content

  /** `industry_keywords.get(industry.lower(), [...])` */
  function IndustryKeywords(industryLower: string): seq<string> {
    if industryLower == "technology" then ["innovation", "digital", "solutions", "software", "tech"]
    else if industryLower == "healthcare" then ["medical", "health", "care", "wellness", "treatment"]
    else if industryLower == "education" then ["learning", "education", "training", "knowledge", "academic"]
    else if industryLower == "finance" then ["financial", "investment", "banking", "money", "consulting"]
    else if industryLower == "food" then ["culinary", "dining", "restaurant", "catering", "cuisine"]
    else if industryLower == "retail" then ["shopping", "products", "merchandise", "sales", "store"]
    else if industryLower == "real estate" then ["property", "homes", "investment", "buying", "selling"]
    else if industryLower == "automotive" then ["vehicles", "cars", "automotive", "repair", "maintenance"]
    else if industryLower == "construction" then ["building", "construction", "renovation", "contracting", "development"]
    else if industryLower == "legal" then ["legal", "law", "attorney", "consultation", "representation"]
    else ["professional", "quality", "service", "business", "excellence"]
  }

  /** The industries `services_map` has an entry for. */
  const ServiceIndustries: set<string> := {"technology", "healthcare", "education"}

  /** `services_map[industry_lower]` for the three listed industries. */
  function IndustryServices(industryLower: string): (r: seq<Value>)
    requires industryLower in ServiceIndustries
    ensures |r| == 3 && forall i :: 0 <= i < 3 ==> ValidService(r[i])
  {
    if industryLower == "technology" then TechnologyServices()
    else if industryLower == "healthcare" then HealthcareServices()
    else EducationServices()
  }

  // The descriptions of the tabled services.
  const SoftwareText := "Custom software solutions for your business needs"
  const ConsultingText := "Expert technology consulting and strategic planning"
  const SupportText := "24/7 technical support and maintenance services"
  const PatientText := "Comprehensive healthcare services with personalized attention"
  const MedicalText := "Expert medical consultation and diagnosis"
  const MonitoringText := "Continuous health monitoring and preventive care"
  const LearningText := "Interactive online courses and educational programs"
  const TutoringText := "Personalized tutoring and academic support"
  const CertificationText := "Professional certification and skill development"

  /** `services_map['technology']` */
  function TechnologyServices(): (r: seq<Value>)
    ensures |r| == 3 && forall i :: 0 <= i < 3 ==> ValidService(r[i])
  {
    [ServiceEntry("Software Development", SoftwareText, "cog"),
     ServiceEntry("IT Consulting", ConsultingText, "briefcase"),
     ServiceEntry("Technical Support", SupportText, "headphones")]
  }

  /** `services_map['healthcare']` */
  function HealthcareServices(): (r: seq<Value>)
    ensures |r| == 3 && forall i :: 0 <= i < 3 ==> ValidService(r[i])
  {
    [ServiceEntry("Patient Care", PatientText, "heart"),
     ServiceEntry("Medical Consultation", MedicalText, "shield"),
     ServiceEntry("Health Monitoring", MonitoringText, "check")]
  }

  /** `services_map['education']` */
  function EducationServices(): (r: seq<Value>)
    ensures |r| == 3 && forall i :: 0 <= i < 3 ==> ValidService(r[i])
  {
    [ServiceEntry("Online Learning", LearningText, "globe"),
     ServiceEntry("Tutoring Services", TutoringText, "users"),
     ServiceEntry("Certification Programs", CertificationText, "target")]
  }

  const StrategyText := "Comprehensive strategy development tailored to your business goals"
  const OngoingText := "Ongoing support and maintenance to ensure your success"

  /** `default_services`: the trio naming the industry as given. */
  function DefaultServices(industry: string): (r: seq<Value>)
    ensures |r| == 3 && forall i :: 0 <= i < 3 ==> ValidService(r[i])
    ensures r[0] == ServiceEntry(industry + " Consulting",
      "Expert consulting services in " + Lower(industry) + " to help your business grow", "briefcase")
  {
    [
      ServiceEntry(industry + " Consulting",
        "Expert consulting services in " + Lower(industry) + " to help your business grow", "briefcase"),
      ServiceEntry("Strategy Development", StrategyText, "target"),
      ServiceEntry("Support Services", OngoingText, "headphones")
    ]
  }

  /**
   * `services_map.get(industry.lower(), default_services)`: always three services
   * with allowed icons.
   */
  function FallbackServices(industry: string): (r: seq<Value>)
    ensures |r| == 3 && forall i :: 0 <= i < 3 ==> ValidService(r[i])
  {
    var key := Lower(industry);
    if key in ServiceIndustries then IndustryServices(key) else DefaultServices(industry)
  }

  /** The contact email: the name lowered with spaces and hyphens removed. */
  function FallbackEmail(businessName: string): string {
    if businessName != "" then "info@" + RemoveChar(RemoveChar(Lower(businessName), ' '), '-') + ".com"
    else EmailDefault
  }

  /** The indentation the triple-quoted about text carries on its inner lines. */
  const Indent := "            "
  // The fixed lines of the about text, each ending with the spaces the source leaves.
  const AboutExperience := "With years of experience and a commitment to excellence, we provide our clients with \n"
  const AboutQuality := "top-quality services that meet their unique needs.\n"
  const AboutTeam := "Our team of professionals is dedicated to delivering outstanding results and ensuring \n"
  const AboutPride := "customer satisfaction. We pride ourselves on our attention to detail, innovative approach, \n"
  const AboutDelivery := "and reliable service delivery."

  /** The about text once .strip() has removed the leading newline and trailing indentation. */
  function FallbackAbout(typeLower: string, industryLower: string): string {
    "We are a leading " + typeLower + " company specializing in " + industryLower + " solutions. \n"
    + Indent + AboutExperience + Indent + AboutQuality + Indent + "\n"
    + Indent + AboutTeam + Indent + AboutPride + Indent + AboutDelivery
  }

  /** `business_name if business_name else f"{business_type} Business"` */
  function BusinessDisplay(businessType: string, businessName: string): string {
    if businessName != "" then businessName else businessType + " Business"
  }

  function FallbackSubtitle(typeLower: string, industryLower: string): string {
    "Professional " + typeLower + " services in the " + industryLower + " industry"
  }

  function FallbackMetaDescription(typeLower: string, industryLower: string): string {
    "Professional " + typeLower + " services in " + industryLower + ". Quality solutions for your business needs."
  }

  function FallbackKeywords(typeLower: string, industryLower: string): string {
    typeLower + ", " + industryLower + ", " + Join(Prefix(IndustryKeywords(industryLower), 5), ", ")
  }

  /** _get_fallback_content */
  function FallbackContent(businessType: string, industry: string, businessName: string): Doc {
    var display := BusinessDisplay(businessType, businessName);
    ContentDocument(
      Str("Welcome to " + display),
      Str(FallbackSubtitle(Lower(businessType), Lower(industry))),
      Str(FallbackAbout(Lower(businessType), Lower(industry))),
      List(FallbackServices(industry)),
      DefaultContact(FallbackEmail(businessName)),
      Str(display + " - Professional " + industry + " Services"),
      Str(FallbackMetaDescription(Lower(businessType), Lower(industry))),
      Str(FallbackKeywords(Lower(businessType), Lower(industry))))
  }

  /** The fallback document always carries exactly three services with allowed icons. */
  lemma FallbackServicesValid(businessType: string, industry: string, businessName: string)
    ensures var r := FallbackContent(businessType, industry, businessName);
      && r["services"].List? && |r["services"].items| == 3
      && (forall i :: 0 <= i < 3 ==> ValidService(r["services"].items[i]))
  {
    var r := FallbackContent(businessType, industry, businessName);
    assert r["services"] == List(FallbackServices(industry));
  }

  /**
   * The industry is matched case-insensitively against the three tabled industries;
   * any other industry gets the default trio, whose first service names it.
   */
  lemma FallbackIndustryMatch(industry: string, other: string)
    ensures Lower(industry) == Lower(other) && Lower(industry) in ServiceIndustries ==>
      FallbackServices(industry) == FallbackServices(other)
    ensures Lower(industry) !in ServiceIndustries ==> FallbackServices(industry) == DefaultServices(industry)
  {
  }

  /**
   * The contact email is info@business.com for an empty name, and otherwise
   * "info@" + a local part with no space, hyphen or upper-case letter + ".com": the
   * name with its spaces and hyphens removed, lowered, which for a name without
   * spaces and hyphens is the name lowered.
   */
  lemma FallbackEmailShape(businessName: string)
    ensures businessName == "" ==> FallbackEmail(businessName) == EmailDefault
    ensures businessName != "" ==>
      var e := FallbackEmail(businessName);
      && StartsWith(e, "info@") && EndsWith(e, ".com")
      && var local := e[5..|e| - 4];
      && ' ' !in local && '-' !in local
      && (forall k :: 0 <= k < |local| ==> !('A' <= local[k] <= 'Z'))
      && |local| <= |businessName|
  ensures businessName != "" ==>
      var e := FallbackEmail(businessName);
      e[5..|e| - 4] == Lower(RemoveChar(RemoveChar(businessName, ' '), '-'))
  ensures businessName != "" && ' ' !in businessName && '-' !in businessName ==>
      var e := FallbackEmail(businessName);
      e[5..|e| - 4] == Lower(businessName)
  {
    if businessName != "" {
      var l := Lower(businessName);
      var local := RemoveChar(RemoveChar(l, ' '), '-');
      var e := FallbackEmail(businessName);
      assert e == "info@" + local + ".com";
      assert e[5..|e| - 4] == local;
      forall k | 0 <= k < |local| ensures !('A' <= local[k] <= 'Z') {
        assert local[k] in local;
      }
      RemoveCharLower(businessName, ' ');
      RemoveCharLower(RemoveChar(businessName, ' '), '-');
      if ' ' !in businessName && '-' !in businessName {
        LowerKeepsAbsent(businessName, ' ');
        LowerKeepsAbsent(businessName, '-');
        RemoveCharAbsent(l, ' ');
        RemoveCharAbsent(l, '-');
      }
    }
  }

  /** Lowering does not introduce a character that is not a letter. */
  lemma LowerKeepsAbsent(s: string, c: char)
    requires c !in s && !('A' <= c <= 'Z') && !('a' <= c <= 'z')
    ensures c !in Lower(s)
  {
    var l := Lower(s);
    forall k | 0 <= k < |l| ensures l[k] != c {
      assert s[k] in s;
    }
  }

  /** The fallback hero_title is not capped: a name over 69 characters gives a title over 80. */
  lemma FallbackNotCapped(businessType: string, industry: string, businessName: string)
    requires |businessName| > 69
    ensures |FallbackContent(businessType, industry, businessName)["hero_title"].s| > 80
  {
  }

  // ---------------------------------------------------------------------------
  // _parse_ai_response and generate_website_content

  /**
   * _parse_ai_response. A reply without a brace span, or whose span does not parse,
   * goes to the manual extraction; a parsed value goes through the repair. None is
   * an exception the repair raises, which this method does not catch.
   */
  function ParsedResponse(response: string, parse: string -> Option<Value>): Option<Doc> {
    match BraceSpan(Strip(response))
    case None => Some(ManualContent(response))
    case Some(js) =>
      match parse(js)
      case None => Some(ManualContent(response))
      case Some(v) => ValidatedContent(v)
  }

  /**
   * What the reply handling of generate_website_content (and of
   * generate_enhanced_content) settles on: the parsed document, or None when it
   * returns the fallback document because the provider raised, the text was empty,
   * or _parse_ai_response raised.
   */
  function ReplyOutcome(reply: ProviderResult, parse: string -> Option<Value>): Option<Doc> {
    match reply
    case Failed => None
    case Text(text) => if text == "" then None else ParsedResponse(text, parse)
  }

  /** _parse_ai_response, calling the extraction and the repair as the source does. */
  method ParseAiResponse(response: string, parse: string -> Option<Value>) returns (r: Option<Doc>)
    ensures r == ParsedResponse(response, parse)
  {
    var cleaned := Strip(response);
    var span := BraceSpan(cleaned);
    if span.Some? {
      var parsed := parse(span.value);
      if parsed.Some? {
        r := ValidateAndCleanContent(parsed.value);
        return;
      }
    }
    var manual := ExtractContentManually(response);
    r := Some(manual);
  }

  /** The try block of generate_website_content: None where it falls back. */
  method AnswerReply(reply: ProviderResult, parse: string -> Option<Value>) returns (r: Option<Doc>)
    ensures r == ReplyOutcome(reply, parse)
  {
    if reply.Failed? || reply.text == "" {
      return None;
    }
    r := ParseAiResponse(reply.text, parse);
  }

  /**
   * generate_website_content with the provider's reply given: the reply's document when
   * there is one, the fallback otherwise; either way all eight fields and exactly three
   * services with allowed icons.
   */
  method GenerateWebsiteContent(reply: ProviderResult, parse: string -> Option<Value>,
                                businessType: string, industry: string, businessName: string) returns (r: Doc)
    ensures ReplyOutcome(reply, parse).Some? ==> r == ReplyOutcome(reply, parse).value
    ensures ReplyOutcome(reply, parse).None? ==> r == FallbackContent(businessType, industry, businessName)
    ensures WellFormedContent(r)
  {
    OutcomeWellFormed(reply, parse);
    FallbackWellFormed(businessType, industry, businessName);
    var answer := AnswerReply(reply, parse);
    if answer.Some? {
      r := answer.value;
    } else {
      r := FallbackContent(businessType, industry, businessName);
    }
  }

  /** The shape every generated document has: the eight fields and three well-formed services. */
  predicate WellFormedContent(d: Doc) {
    && HasRequired(d)
    && d["services"].List? && |d["services"].items| == 3
    && (forall i :: 0 <= i < 3 ==> ValidService(d["services"].items[i]))
  }

  lemma ManualWellFormed(response: string)
    ensures WellFormedContent(ManualContent(response))
  {
    ManualServices(response);
  }

  lemma FallbackWellFormed(businessType: string, industry: string, businessName: string)
    ensures WellFormedContent(FallbackContent(businessType, industry, businessName))
  {
    FallbackServicesValid(businessType, industry, businessName);
  }

  lemma ValidatedWellFormed(content: Value)
    requires ValidatedContent(content).Some?
    ensures WellFormedContent(ValidatedContent(content).value)
  {
    ValidatedUntouched(content.fields);
    ValidatedServices(content.fields);
  }

  /** Each document _parse_ai_response returns has the shape. */
  lemma ParsedWellFormed(response: string, parse: string -> Option<Value>)
    requires ParsedResponse(response, parse).Some?
    ensures WellFormedContent(ParsedResponse(response, parse).value)
  {
    match BraceSpan(Strip(response))
    case None =>
      ManualWellFormed(response);
    case Some(js) =>
      match parse(js)
      case None =>
        ManualWellFormed(response);
      case Some(v) =>
        ValidatedWellFormed(v);
  }

  lemma OutcomeWellFormed(reply: ProviderResult, parse: string -> Option<Value>)
    ensures ReplyOutcome(reply, parse).Some? ==> WellFormedContent(ReplyOutcome(reply, parse).value)
  {
    if ReplyOutcome(reply, parse).Some? {
      ParsedWellFormed(reply.text, parse);
    }
  }

  /** A failed provider call or an empty reply gives the fallback document. */
  lemma GeneratedFallback(reply: ProviderResult, parse: string -> Option<Value>)
    requires reply.Failed? || reply == Text("")
    ensures ReplyOutcome(reply, parse) == None
  {
  }

  /**
   * A reply whose brace span parses goes through the repair: a value the repair
   * accepts is returned repaired (and so clean, by ValidatedIsClean), and one it
   * raises on gives the fallback document.
   */
  lemma GeneratedFromJson(text: string, parse: string -> Option<Value>)
    requires BraceSpan(Strip(text)).Some? && parse(BraceSpan(Strip(text)).value).Some?
    ensures ReplyOutcome(Text(text), parse) == ValidatedContent(parse(BraceSpan(Strip(text)).value).value)
  {
    NonEmptyReply(text);
  }

  /**
   * A non-empty reply with no '{' ... '}' span, or whose span does not parse, goes to
   * the manual extraction rather than to the fallback document.
   */
  lemma GeneratedManual(text: string, parse: string -> Option<Value>)
    requires text != ""
    requires BraceSpan(Strip(text)).None? || parse(BraceSpan(Strip(text)).value).None?
    ensures ReplyOutcome(Text(text), parse) == Some(ManualContent(text))
  {
  }

  /** A reply with a brace span is not empty. */
  lemma NonEmptyReply(text: string)
    requires BraceSpan(Strip(text)).Some?
    ensures text != ""
  {
    StripTrims(text);
  }
}
