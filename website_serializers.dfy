/**
 * The request checks of website_builder.serializers: the status whitelist of
 * WebsitePublishSerializer and the fields and validators of
 * AIGenerationRequestSerializer.
 */
module WebsiteSerializers {
  import opened Wrappers
  import opened PyText
  import DjangoWebsiteModel

  /** validate_status: one of the three statuses, returned as it is. */
  function ValidateStatus(value: string): (r: Result<string>)
    ensures r.Ok? ==> r.value == value
    ensures r.Err? ==> r.error == "Invalid status"
  {
    if value !in ["published", "draft", "archived"] then Err("Invalid status") else Ok(value)
  }

  /** The statuses the serializer accepts are exactly the model's status choices. */
  lemma StatusWhitelist(value: string)
    ensures ValidateStatus(value).Ok? <==> value in DjangoWebsiteModel.StatusChoices
    ensures ValidateStatus(value).Ok? <==> value == "published" || value == "draft" || value == "archived"
  {
  }

  /** The shared rule of validate_business_type and validate_industry. */
  function ValidateText(value: string, message: string): (r: Result<string>)
    ensures r.Ok? <==> |Strip(value)| >= 2
    ensures r.Ok? ==> r.value == Strip(value) && |r.value| >= 2 && Trimmed(r.value)
    ensures r.Err? ==> r.error == message
  {
    StripTrims(value);
    if |Strip(value)| < 2 then Err(message) else Ok(Strip(value))
  }

  const BusinessTypeMessage := "Business type must be at least 2 characters long"
  const IndustryMessage := "Industry must be at least 2 characters long"

  /** validate_business_type */
  function ValidateBusinessType(value: string): Result<string> {
    ValidateText(value, BusinessTypeMessage)
  }

  /** validate_industry */
  function ValidateIndustry(value: string): Result<string> {
    ValidateText(value, IndustryMessage)
  }

  /** A validated value passes the same validator again, unchanged. */
  lemma ValidateTextIdempotent(value: string, message: string)
    ensures ValidateText(value, message).Ok? ==> ValidateText(ValidateText(value, message).value, message) == ValidateText(value, message)
  {
    StripIdempotent(value);
  }

  /** Both validators accept exactly the values with at least two characters inside the whitespace. */
  lemma ValidatorsAgree(value: string)
    ensures ValidateBusinessType(value).Ok? <==> ValidateIndustry(value).Ok?
    ensures ValidateBusinessType(value).Ok? ==> ValidateBusinessType(value).value == ValidateIndustry(value).value
  {
  }

  /** The validated data of AIGenerationRequestSerializer, with the view's defaults applied. */
  datatype GenerationRequest = GenerationRequest(businessType: string, industry: string, businessName: string, templateType: string)

  /** serializer.is_valid(): the validated data, or serializer.errors keyed by field name. */
  datatype Validation = Valid(request: GenerationRequest) | Invalid(errors: map<string, string>)

  /** The messages of DRF's CharField for an absent, a blank and an over-long value. */
  const RequiredMessage := "This field is required."
  const BlankMessage := "This field may not be blank."

  const TooLong100 := "Ensure this field has no more than 100 characters."
  const TooLong200 := "Ensure this field has no more than 200 characters."

  /**
   * A required CharField(max_length) followed by the shared validator with its
   * message. The field strips the text first (trim_whitespace), refuses it when
   * nothing is left, checks max_length on the stripped text and hands that text to
   * the validator.
   */
  function RequiredText(value: Option<string>, maxLength: nat, tooLong: string, message: string): (r: Result<string>)
    ensures value.None? ==> r == Err(RequiredMessage)
    ensures value.Some? && Strip(value.value) == "" ==> r == Err(BlankMessage)
    ensures value.Some? && Strip(value.value) != "" && |Strip(value.value)| > maxLength ==> r == Err(tooLong)
    ensures r.Ok? <==> value.Some? && 2 <= |Strip(value.value)| <= maxLength
    ensures r.Ok? ==> r.value == Strip(value.value)
  {
    match value
    case None => Err(RequiredMessage)
    case Some(v) =>
      var s := Strip(v);
      StripIdempotent(v);
      if s == "" then Err(BlankMessage)
      else if |s| > maxLength then Err(tooLong)
      else ValidateText(s, message)
  }

  /** Whitespace around a value changes nothing: the field strips it before any check. */
  lemma RequiredTextPadded(v: string, maxLength: nat, tooLong: string, message: string)
    requires v != [] && Trimmed(v)
    ensures RequiredText(Some(" " + v + " "), maxLength, tooLong, message) == RequiredText(Some(v), maxLength, tooLong, message)
  {
    StripPadded(v);
    StripTrimmed(v);
  }

  /** The optional CharField(max_length=200, allow_blank=True) business_name, stripped; "" when absent. */
  function OptionalName(businessName: Option<string>): string {
    if businessName.Some? then Strip(businessName.value) else ""
  }

  /** serializer.errors gains `key` when the field failed. */
  function NoteError(errors: map<string, string>, failed: bool, key: string, message: string): (r: map<string, string>)
    ensures r.Keys == if failed then errors.Keys + {key} else errors.Keys
    ensures failed ==> r[key] == message
    ensures forall k :: k in errors && k != key ==> r[k] == errors[k]
  {
    if failed then errors[key := message] else errors
  }

  /** The errors of the four fields, each reported under its own name. */
  function RequestErrors(bt: Result<string>, ind: Result<string>, nameOk: bool, templateOk: bool): (r: map<string, string>)
    ensures "business_type" in r <==> bt.Err?
    ensures "industry" in r <==> ind.Err?
    ensures "business_name" in r <==> !nameOk
    ensures "template_type" in r <==> !templateOk
    ensures bt.Err? ==> r["business_type"] == bt.error
    ensures ind.Err? ==> r["industry"] == ind.error
  {
    var e0 := NoteError(map[], bt.Err?, "business_type", if bt.Err? then bt.error else "");
    var e1 := NoteError(e0, ind.Err?, "industry", if ind.Err? then ind.error else "");
    var e2 := NoteError(e1, !nameOk, "business_name", TooLong200);
    NoteError(e2, !templateOk, "template_type", "not a valid choice")
  }

  /**
   * AIGenerationRequestSerializer(data).is_valid(): business_type and industry are
   * required, not blank, at most 100 characters once stripped and pass their
   * validators; business_name is optional, at most 200 characters once stripped,
   * and reads as "" when absent; template_type defaults to "business" and must be
   * one of the template choices.
   */
  function ValidateGenerationRequest(businessType: Option<string>, industry: Option<string>,
                                     businessName: Option<string>, templateType: Option<string>): Validation {
    var bt := RequiredText(businessType, 100, TooLong100, BusinessTypeMessage);
    var ind := RequiredText(industry, 100, TooLong100, IndustryMessage);
    var name := OptionalName(businessName);
    var nameOk := |name| <= 200;
    var template := if templateType.Some? then templateType.value else DjangoWebsiteModel.DefaultTemplate;
    var templateOk := template in DjangoWebsiteModel.TemplateChoices;
    if bt.Ok? && ind.Ok? && nameOk && templateOk then
      Valid(GenerationRequest(bt.value, ind.value, name, template))
    else Invalid(RequestErrors(bt, ind, nameOk, templateOk))
  }

  predicate BusinessTypeOk(businessType: Option<string>) {
    businessType.Some? && 2 <= |Strip(businessType.value)| <= 100
  }

  predicate IndustryOk(industry: Option<string>) {
    industry.Some? && 2 <= |Strip(industry.value)| <= 100
  }

  predicate BusinessNameOk(businessName: Option<string>) {
    businessName.None? || |Strip(businessName.value)| <= 200
  }

  predicate TemplateOk(templateType: Option<string>) {
    templateType.None? || templateType.value in DjangoWebsiteModel.TemplateChoices
  }

  /** A request is valid exactly when every field passes. */
  lemma GenerationRequestValid(businessType: Option<string>, industry: Option<string>,
                               businessName: Option<string>, templateType: Option<string>)
    ensures ValidateGenerationRequest(businessType, industry, businessName, templateType).Valid?
        <==> BusinessTypeOk(businessType) && IndustryOk(industry) && BusinessNameOk(businessName) && TemplateOk(templateType)
  {
  }

  /**
   * The validated request holds the stripped business type, industry and name ("" when
   * absent), and the given template or "business".
   */
  lemma GenerationRequestFields(businessType: Option<string>, industry: Option<string>,
                                businessName: Option<string>, templateType: Option<string>)
    requires ValidateGenerationRequest(businessType, industry, businessName, templateType).Valid?
    ensures var q := ValidateGenerationRequest(businessType, industry, businessName, templateType).request;
      && businessType.Some? && q.businessType == Strip(businessType.value)
      && industry.Some? && q.industry == Strip(industry.value)
      && (businessName.Some? ==> q.businessName == Strip(businessName.value))
      && (businessName.None? ==> q.businessName == "")
      && q.templateType in DjangoWebsiteModel.TemplateChoices
      && (templateType.Some? ==> q.templateType == templateType.value)
      && (templateType.None? ==> q.templateType == "business")
  {
  }

  /** An invalid request names business_type, or industry, among its errors exactly when that field fails. */
  lemma GenerationRequestErrors(businessType: Option<string>, industry: Option<string>,
                                businessName: Option<string>, templateType: Option<string>)
    requires ValidateGenerationRequest(businessType, industry, businessName, templateType).Invalid?
    ensures var e := ValidateGenerationRequest(businessType, industry, businessName, templateType).errors;
      && ("business_type" in e <==> !BusinessTypeOk(businessType))
      && ("industry" in e <==> !IndustryOk(industry))
  {
  }

  /** An invalid request names business_name, or template_type, among its errors exactly when that field fails. */
  lemma GenerationRequestOptionalErrors(businessType: Option<string>, industry: Option<string>,
                                        businessName: Option<string>, templateType: Option<string>)
    requires ValidateGenerationRequest(businessType, industry, businessName, templateType).Invalid?
    ensures var e := ValidateGenerationRequest(businessType, industry, businessName, templateType).errors;
      && ("business_name" in e <==> !BusinessNameOk(businessName))
      && ("template_type" in e <==> !TemplateOk(templateType))
  {
  }

  /**
   * A missing or blank business_type is reported with DRF's own messages, before
   * max_length and the validator are consulted.
   */
  lemma BusinessTypeMessages(businessType: Option<string>, industry: Option<string>,
                             businessName: Option<string>, templateType: Option<string>)
    ensures var r := ValidateGenerationRequest(businessType, industry, businessName, templateType);
      && (businessType.None? ==> r.Invalid? && r.errors["business_type"] == RequiredMessage)
      && (businessType.Some? && Strip(businessType.value) == "" ==> r.Invalid? && r.errors["business_type"] == BlankMessage)
  {
  }

  /** A missing or blank industry is reported with DRF's own messages. */
  lemma IndustryMessages(businessType: Option<string>, industry: Option<string>,
                         businessName: Option<string>, templateType: Option<string>)
    ensures var r := ValidateGenerationRequest(businessType, industry, businessName, templateType);
      && (industry.None? ==> r.Invalid? && r.errors["industry"] == RequiredMessage)
      && (industry.Some? && Strip(industry.value) == "" ==> r.Invalid? && r.errors["industry"] == BlankMessage)
  {
  }
}
