/**
 * The generation routes of app.api.ai_generator: generate_website asks GeminiService
 * for content and stores a new website titled "<company> - <business type>";
 * regenerate_content recovers the company name from that title and replaces the
 * content. The provider's reply and the JSON parser are parameters.
 */
module FlaskGenerator {
  import opened Wrappers
  import opened PyText
  import opened PyValues
  import opened FlaskDb
  import opened FlaskApi
  import opened AiService
  import FlaskWebsite
  import FlaskWebsitesApi
  import GeminiService

  const GenerationFields := ["business_type", "industry"]

  /** The separator of the stored title. */
  const TitleSeparator := " - "

  /** f"{company_name} - {business_type}" */
  function Title(companyName: Value, businessType: Value, show: Value -> string): string {
    Interpolated(companyName, show) + TitleSeparator + Interpolated(businessType, show)
  }

  /**
   * The arguments generate_website_content interpolates: a value as an f-string
   * shows it, and `company_name or 'Your Company'` reads a falsy name as absent.
   */
  function CompanyArgument(companyName: Value, show: Value -> string): Option<string> {
    if Truthy(companyName) then Some(Interpolated(companyName, show)) else None
  }

  /** The request fields generate_website uses, once the required-fields check has passed. */
  datatype GenerationInput = GenerationInput(businessType: Value, industry: Value, companyName: Value)

  /**
   * generate_website's checks: 500 for a body that is not a dict, 400 naming the first
   * of business_type and industry that is missing or falsy; company_name defaults to
   * 'Your Company' only when the key is absent.
   */
  function GenerationRequest(body: Value): (r: Result<GenerationInput>)
    ensures r.Ok? <==> body.Dict? && TruthyAt(body.fields, "business_type") && TruthyAt(body.fields, "industry")
    ensures r.Ok? ==> r.value.businessType == body.fields["business_type"] && r.value.industry == body.fields["industry"]
    ensures r.Ok? ==> r.value.companyName == if "company_name" in body.fields then body.fields["company_name"] else Str("Your Company")
    ensures body.Dict? && !TruthyAt(body.fields, "business_type") ==> r == Err(RequiredMessage("business_type"))
    ensures body.Dict? && TruthyAt(body.fields, "business_type") && !TruthyAt(body.fields, "industry") ==> r == Err(RequiredMessage("industry"))
  {
    if !body.Dict? then Err("AttributeError")
    else match MissingMessage(body.fields)
      case Some(message) => Err(message)
      case None => Ok(GenerationInput(body.fields["business_type"], body.fields["industry"], Get(body.fields, "company_name", Str("Your Company"))))
  }

  /** The message of the required-fields loop: the first of the two fields that is missing or falsy. */
  function MissingMessage(data: Doc): (r: Option<string>)
    ensures r.None? <==> TruthyAt(data, "business_type") && TruthyAt(data, "industry")
    ensures !TruthyAt(data, "business_type") ==> r == Some(RequiredMessage("business_type"))
    ensures TruthyAt(data, "business_type") && !TruthyAt(data, "industry") ==> r == Some(RequiredMessage("industry"))
  {
    assert GenerationFields[0] == "business_type" && GenerationFields[1] == "industry";
    match FirstMissing(data, GenerationFields)
    case Some(i) =>
      assert i == 0 <==> !TruthyAt(data, "business_type");
      Some(RequiredMessage(GenerationFields[i]))
    case None => None
  }

  /** An explicit company_name, even an empty one, is kept: only an absent key gets the default. */
  lemma CompanyDefaultOnlyWhenAbsent(body: Doc)
    requires TruthyAt(body, "business_type") && TruthyAt(body, "industry")
    ensures "company_name" !in body ==> GenerationRequest(Dict(body)).value.companyName == Str("Your Company")
    ensures "company_name" in body ==> GenerationRequest(Dict(body)).value.companyName == body["company_name"]
  {
  }

  /**
   * generate_website: on 201 a website owned by the caller is stored with the title
   * "<company> - <business type>", the generated content, template_id 'default' and
   * is_published False; otherwise the store is unchanged.
   */
  method GenerateWebsite(db: Db, caller: Caller, body: Value, reply: ProviderResult, parse: string -> Option<Value>,
                         show: Value -> string, now: int, newId: string) returns (resp: Response, content: Option<Value>)
    requires db.Valid() && IsCanonicalId(newId) && !HasId(db.websites, newId)
    modifies db
    ensures db.Valid()
    ensures GenerationRequest(body).Err? && body.Dict? ==> resp == Response(400, GenerationRequest(body).error)
    ensures !body.Dict? ==> resp.status == 500 && db.websites == old(db.websites)
    ensures resp.status == 201 <==> GenerationRequest(body).Ok? && IsObjectIdText(caller.id)
    ensures resp.status == 201 ==> content.Some? && resp.text == newId
    ensures resp.status == 201 ==>
              var input := GenerationRequest(body).value;
              content.value == GeminiService.Answer(reply, parse, Interpolated(input.businessType, show),
                                                    Interpolated(input.industry, show), CompanyArgument(input.companyName, show))
    ensures resp.status == 201 ==>
              var input := GenerationRequest(body).value;
              db.websites == Insert(old(db.websites), newId,
                                    FlaskWebsite.WebsiteDocument(Str(Title(input.companyName, input.businessType, show)), content.value,
                                                                 Lower(caller.id), input.businessType, input.industry,
                                                                 Str("default"), Bool(false), now))
    ensures resp.status != 201 ==> db.websites == old(db.websites) && content.None?
    ensures db.users == old(db.users) && db.roles == old(db.roles)
  {
    var request := GenerationRequest(body);
    if request.Err? {
      content := None;
      resp := if body.Dict? then Response(400, request.error) else Response(500, request.error);
      return;
    }
    var input := request.value;
    var generated := GeminiService.GenerateWebsiteContent(reply, parse, Interpolated(input.businessType, show),
                                                          Interpolated(input.industry, show), CompanyArgument(input.companyName, show));
    var saved := FlaskWebsite.SaveWebsite(db, Str(Title(input.companyName, input.businessType, show)), generated, caller.id,
                                          input.businessType, input.industry, Str("default"), Bool(false), now, newId);
    if saved.Err? {
      resp, content := Response(500, saved.error), None;
    } else {
      resp, content := Response(201, saved.value), Some(generated);
    }
  }

  /** The company name regenerate_content reads back: `title.split(' - ')[0]`. */
  function RecoveredCompany(title: string): string {
    Split(title, TitleSeparator)[0]
  }

  /**
   * The name comes back exactly when the company text, followed by " -", holds no
   * " - ": in particular whenever it holds no " - " and does not end in " -".
   */
  lemma CompanyRecovered(company: string, businessType: string)
    ensures RecoveredCompany(company + TitleSeparator + businessType) == company <==> !Contains(company + " -", TitleSeparator)
  {
    SplitFirstPiece(company, TitleSeparator, businessType);
    assert TitleSeparator[..|TitleSeparator| - 1] == " -";
  }

  /** A company name with the separator in it loses its tail: "A - B" comes back as "A". */
  lemma CompanyWithSeparatorTruncated(businessType: string)
    ensures RecoveredCompany("A - B" + TitleSeparator + businessType) == "A"
  {
    assert "A - B" + TitleSeparator + businessType == "A" + TitleSeparator + ("B" + TitleSeparator + businessType);
    assert !Contains("A" + " -", TitleSeparator) by {
      assert |"A" + " -"| == 3;
      assert !OccursAt("A" + " -", TitleSeparator, 0) by { assert ("A" + " -")[0] != TitleSeparator[0]; }
    }
    assert TitleSeparator[..|TitleSeparator| - 1] == " -";
    SplitAfterFirst("A", TitleSeparator, "B" + TitleSeparator + businessType);
  }

  /**
   * regenerate_content's checks and arguments: 404 for an unknown website, the
   * admin-or-owner gate (403), then business_type, industry and the title's first
   * piece, 500 where a key is missing or the title is not a str.
   */
  function RegenerationRequest(websites: Collection, websiteId: string, caller: Caller, show: Value -> string): (r: Result<(Value, Value, string)>)
    ensures FindById(websites, websiteId) == Ok(None) ==> r == Err("Website not found")
    ensures r.Ok? ==> IsObjectIdText(websiteId) && HasId(websites, Lower(websiteId))
    ensures r.Ok? ==> FlaskWebsitesApi.AccessGate(Lookup(websites, Lower(websiteId)).value, caller, FlaskWebsitesApi.AdminOnly, show).None?
    ensures r.Ok? ==> var doc := Lookup(websites, Lower(websiteId)).value;
              && "title" in doc && doc["title"].Str?
              && r.value.2 == RecoveredCompany(doc["title"].s)
  {
    match FindById(websites, websiteId)
    case Err(e) => Err(e)
    case Ok(None) => Err("Website not found")
    case Ok(Some(doc)) =>
      match FlaskWebsitesApi.AccessGate(doc, caller, FlaskWebsitesApi.AdminOnly, show)
      case Some(denied) => Err(denied.text)
      case None =>
        if "business_type" !in doc || "industry" !in doc || "title" !in doc then Err("KeyError")
        else if !doc["title"].Str? then Err("AttributeError")
        else Ok((doc["business_type"], doc["industry"], RecoveredCompany(doc["title"].s)))
  }

  /** The status regenerate_content answers with before it calls the provider. */
  function RegenerationStatus(websites: Collection, websiteId: string, caller: Caller, show: Value -> string): nat {
    match FindById(websites, websiteId)
    case Err(_) => 500
    case Ok(None) => 404
    case Ok(Some(doc)) =>
      match FlaskWebsitesApi.AccessGate(doc, caller, FlaskWebsitesApi.AdminOnly, show)
      case Some(denied) => denied.status
      case None => if RegenerationRequest(websites, websiteId, caller, show).Err? then 500 else 200
  }

  /**
   * regenerate_content: on 200 only the website's content (and updated_at) is
   * replaced by freshly generated content; otherwise nothing changes.
   */
  method RegenerateContent(db: Db, websiteId: string, caller: Caller, reply: ProviderResult, parse: string -> Option<Value>,
                           show: Value -> string, now: int) returns (resp: Response, content: Option<Value>)
    requires db.Valid()
    modifies db
    ensures db.Valid()
    ensures resp.status == RegenerationStatus(old(db.websites), websiteId, caller, show)
    ensures resp.status == 200 <==> RegenerationRequest(old(db.websites), websiteId, caller, show).Ok?
    ensures resp.status == 200 ==> content.Some?
    ensures resp.status == 200 ==>
              var (businessType, industry, company) := RegenerationRequest(old(db.websites), websiteId, caller, show).value;
              content.value == GeminiService.Answer(reply, parse, Interpolated(businessType, show),
                                                    Interpolated(industry, show), CompanyArgument(Str(company), show))
    ensures resp.status == 200 ==>
              db.websites == UpdateById(old(db.websites), Lower(websiteId), map["content" := content.value, "updated_at" := DateTime(now)])
    ensures resp.status != 200 ==> db.websites == old(db.websites) && content.None?
    ensures db.users == old(db.users) && db.roles == old(db.roles)
  {
    var request := RegenerationRequest(db.websites, websiteId, caller, show);
    if request.Err? {
      resp, content := Response(RegenerationStatus(db.websites, websiteId, caller, show), request.error), None;
      return;
    }
    var (businessType, industry, company) := request.value;
    var companyArgument := CompanyArgument(Str(company), show);
    var generated := GeminiService.GenerateWebsiteContent(reply, parse, Interpolated(businessType, show),
                                                          Interpolated(industry, show), companyArgument);
    var _ := FlaskWebsite.UpdateWebsite(db, websiteId, map["content" := generated], now);
    assert map["content" := generated]["updated_at" := DateTime(now)] == map["content" := generated, "updated_at" := DateTime(now)];
    resp, content := Response(200, "Content regenerated successfully"), Some(generated);
  }

  /** Regeneration keeps every field of every website but content and updated_at: owner, title and all. */
  lemma RegenerationKeepsOtherFields(websites: Collection, id: string, content: Value, now: int, k: nat, key: string)
    requires k < |websites| && key != "content" && key != "updated_at"
    ensures var after := UpdateById(websites, id, map["content" := content, "updated_at" := DateTime(now)]);
      && after[k].id == websites[k].id
      && (key in after[k].doc <==> key in websites[k].doc)
      && (key in websites[k].doc ==> after[k].doc[key] == websites[k].doc[key])
  {
  }

  /**
   * A website generate_website stored for a company whose name holds no " - " and
   * does not end in " -" is regenerated for that same company name, so the provider
   * is asked with the same arguments and the same reply gives the same content.
   */
  lemma GenerateThenRegenerate(company: string, businessType: Value, industry: Value, show: Value -> string,
                               reply: ProviderResult, parse: string -> Option<Value>)
    requires !Contains(company + " -", TitleSeparator)
    ensures RecoveredCompany(Title(Str(company), businessType, show)) == company
    ensures var recovered := RecoveredCompany(Title(Str(company), businessType, show));
      GeminiService.Answer(reply, parse, Interpolated(businessType, show), Interpolated(industry, show), CompanyArgument(Str(recovered), show))
      == GeminiService.Answer(reply, parse, Interpolated(businessType, show), Interpolated(industry, show), CompanyArgument(Str(company), show))
  {
    CompanyRecovered(company, Interpolated(businessType, show));
  }
}
