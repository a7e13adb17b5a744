# AI website builder: a Dafny model of its two back-ends

The AI website builder lets users generate a small business website from a business
type, an industry and a company name. A language model writes the content, and the
application stores, edits, publishes and previews the result under role-based
access control. The repository has two parallel back-ends:

- a Flask + PyMongo back-end (`app/`), with string role names (`admin`, `editor`,
  `viewer`) and string permissions;
- a Django + mongoengine back-end (`website_builder/`, `rbac/`, `authentication/`),
  with capitalised role names (`Admin`, `Editor`, `Viewer`) and permissions that are
  (resource, action) pairs.

This project models, for each back-end, three kinds of logic:

- the content pipeline that repairs, extracts or invents a website document;
- the authorization decisions;
- the request handlers' ordered error classification over an abstract store.

It proves what that code promises about them. The two stacks live in separate
modules.

| module | file | models |
|---|---|---|
| `Wrappers` | wrappers.dfy | Option and Result |
| `PyText` | py_text.dfy | the Python string methods the code calls: strip, lower, split, join, find, slicing with ellipsis |
| `PyValues` | py_values.dfy | parsed JSON and MongoDB documents as one value type, with truthiness, len() and MongoDB's filter on plain (non-operator) query values |
| `AiService` | ai_service.dfy | `website_builder/ai_service.py`: `_validate_and_clean_content`, `_parse_ai_response`, `_extract_content_manually`, `_get_fallback_content`, `generate_website_content` and `generate_enhanced_content` |
| `ContentOptimizer` | content_optimizer.dfy | the `ContentOptimizer` class of the same file |
| `Layout` | layout.dfy | `generate_layout_structure` |
| `WebsiteSerializers` | website_serializers.dfy | `website_builder/serializers.py` |
| `DjangoRbac` | django_rbac.dfy | `rbac/models.py`, `rbac/permissions.py`, `rbac/middlware.py`, `authentication/models.py` |
| `DjangoAuthSerializers` | django_auth_serializers.dfy | `authentication/serializers.py` |
| `DjangoStore` | django_store.dfy | the mongoengine collections and their `objects(...)` queries |
| `DjangoRbacViews` | django_rbac_views.dfy | `assign_role`, `initialize_default_roles`, `my_permissions` of `rbac/views.py` |
| `DjangoWebsiteModel` | django_website_model.dfy | `website_builder/models.py` |
| `DjangoWebsiteViews` | django_website_views.dfy | `website_builder/views.py` |
| `GeminiService` | gemini_service.dfy | `app/services/gemini_service.py` |
| `FlaskPermission` | flask_permission.dfy | `app/models/permission.py` |
| `FlaskMiddleware` | flask_middleware.dfy | `app/middleware/auth_middleware.py`, `app/middleware/permission_middleware.py` |
| `FlaskDb` | flask_db.dfy | the PyMongo collections, ObjectId text and find/insert/update/delete |
| `FlaskRole`, `FlaskUser`, `FlaskWebsite` | flask_role.dfy, flask_user.dfy, flask_website.dfy | `app/models/role.py`, `user.py`, `website.py` |
| `FlaskApi` | flask_api.dfy | what the Flask handlers share: the caller, the required-fields check, the field whitelist copy, the listing loops |
| `FlaskAdmin` | flask_admin.dfy | `app/api/admin.py` |
| `FlaskWebsitesApi` | flask_websites_api.dfy | `app/api/websites.py` |
| `FlaskGenerator` | flask_generator.dfy | `app/api/ai_generator.py` |
| `FlaskAuth` | flask_auth.dfy | `app/auth/routes.py` |

Modelling choices:

- **Stores.** Each store is a class (`FlaskDb.Db`, `DjangoStore.Db`). Its fields are
  the collections, kept as sequences in natural (insertion) order. Handlers that write
  are methods that modify the store. Each such method ensures that its response equals
  an outcome function of the old state, and states the whole new state. Lemmas prove
  the handler's promises about that outcome function.
- **Errors.** A Python exception caught by a handler's broad `except` becomes a 500
  response. Inside the content pipeline it becomes `None`.
- **Dependencies outside the code.** The language model's reply, `json.loads`,
  `str()` of a value, password hashing and checking, token resolution, fresh ids and
  the clock are all parameters of the operations that use them.
- **Helpers.** `PyText`, `PyValues` and `Wrappers` model Python built-ins and carry
  no rows of their own below.

Behaviour of the code that a reader might not expect, and that the model keeps:

- The Flask guards never consult `is_active`; only login does.
- Ids are not shape-checked before a query. A malformed id raises inside `ObjectId()`
  and becomes a 500.
- The fallback documents' fields are not length-capped.
- A non-empty reply without a parsable brace span goes to `_extract_content_manually`,
  never to the fallback document.

One behaviour of the code the model does not keep. The Django website views pass the
mongoengine Document `Website` to Django's `get_object_or_404` and to DRF
ModelSerializers. A mongoengine Document is not a Django model, so both raise, and as
written those views answer 500. The model gives these views the lookup and the
serialisation they evidently intend. "## Findings" records the lookup, with both
halves in `DjangoWebsiteViews`, and "## Left out" names each member concerned.

## Model

| member | source | states |
|---|---|---|
| AiService.FillDefaults | ai_website_builder/website_builder/ai_service.py:117-119 | the defaults loop keeps every key it was given and leaves every listed field present |
| AiService.FillDefaultsAt | ai_website_builder/website_builder/ai_service.py:117-119 | with distinct field names, a key is present afterwards exactly when it was present or is listed; a listed field keeps its value when truthy and otherwise takes its default; unlisted keys keep their values |
| AiService.FillDefaultsTruthy | ai_website_builder/website_builder/ai_service.py:117-119 | when every listed field is already truthy, the loop leaves the dictionary unchanged |
| AiService.ServiceIcon | ai_website_builder/website_builder/ai_service.py:127-134 | the icon is always one of the ten allowed names; it is the given icon exactly when that is an allowed string, and "star" otherwise |
| AiService.CleanService | ai_website_builder/website_builder/ai_service.py:131-135 | a repaired service has exactly title, description and an allowed icon; title and description are the given ones, with "Professional Service" / "Quality service description" when missing |
| AiService.Placeholder | ai_website_builder/website_builder/ai_service.py:140-144 | the k-th padding service is a valid service titled "Service k" |
| AiService.KeptServices | ai_website_builder/website_builder/ai_service.py:129-136 | the loop drops non-dictionaries, so it keeps at most as many entries as it sees, and every kept entry is a valid service |
| AiService.PadServices | ai_website_builder/website_builder/ai_service.py:139-144 | padding brings the list to at least three, keeps the given services as a prefix and numbers each placeholder by its position |
| AiService.KeptValidServices | ai_website_builder/website_builder/ai_service.py:129-136 | repairing a list of already valid services gives it back unchanged |
| AiService.CapValue | ai_website_builder/website_builder/ai_service.py:164-174 | a capping statement raises exactly on a value without a length, or a non-string longer than the cap; a string becomes its first cap-3 characters and "..." when too long; the result fits the cap and stays truthy |
| AiService.CapAt | ai_website_builder/website_builder/ai_service.py:164-174 | one capping statement replaces only that key with its capped value and keeps the key set |
| AiService.Repaired | ai_website_builder/website_builder/ai_service.py:105-161 | after the defaults, services and contact repairs all eight required fields are present |
| AiService.FillDefaultsLoop | ai_website_builder/website_builder/ai_service.py:117-119 | the in-place loop over the defaults table computes FillDefaults |
| AiService.CleanServicesLoop | ai_website_builder/website_builder/ai_service.py:121-146 | the for loop over the first three entries and the padding while loop compute the repaired services list |
| AiService.ValidateAndCleanContent | ai_website_builder/website_builder/ai_service.py:102-176 | the step-by-step repair of a parsed reply computes ValidatedContent (None is the exception it raises) |
| AiService.CapField | ai_website_builder/website_builder/ai_service.py:164-174 | the capping statement computes CapAt |
| AiService.RequiredDistinct | ai_website_builder/website_builder/ai_service.py:106-157 | neither defaults table names a field twice |
| AiService.RequiredFieldNames | ai_website_builder/website_builder/ai_service.py:106-115 | the required-fields table lists the eight fields in source order |
| AiService.RequiredListed | ai_website_builder/website_builder/ai_service.py:106-115 | a name is listed in the table exactly when it is one of the eight required keys |
| AiService.RepairedOther | ai_website_builder/website_builder/ai_service.py:102-161 | a key that is not required is present after the repair exactly when it was, with the same value |
| AiService.RepairedField | ai_website_builder/website_builder/ai_service.py:117-119 | each required text field ends as the value the defaults loop gave it |
| AiService.RepairedNested | ai_website_builder/website_builder/ai_service.py:121-161 | services becomes the three repaired services; contact_info becomes the given dictionary (or {} when not a dictionary) with the four contact defaults filled in |
| AiService.CapAllSome | ai_website_builder/website_builder/ai_service.py:164-174 | the four caps succeed exactly when each headline field passes its own cap (80, 150, 60, 160) |
| AiService.CapAllHeadlines | ai_website_builder/website_builder/ai_service.py:164-174 | after the four caps the key set is unchanged and each headline field holds its capped value |
| AiService.CapAllOther | ai_website_builder/website_builder/ai_service.py:164-174 | the caps leave every other field as it was |
| AiService.CapAllRest | ai_website_builder/website_builder/ai_service.py:164-174 | the caps leave about_section, services, contact_info and meta_keywords as they were |
| AiService.RequiredInputs | ai_website_builder/website_builder/ai_service.py:122-150 | the services and contact repairs see the list and the dictionary the reply held once the defaults are in place |
| AiService.RepairedText | ai_website_builder/website_builder/ai_service.py:117-119 | each of the six text fields is the reply's value when truthy, and its default otherwise |
| AiService.RepairedKeys | ai_website_builder/website_builder/ai_service.py:102-161 | the repaired keys are the given keys plus the eight required ones; other keys keep their values |
| AiService.ValidatedServices | ai_website_builder/website_builder/ai_service.py:126-146 | the repaired reply has exactly three valid services: the repaired dictionaries among the first three entries, then numbered placeholders |
| AiService.ValidatedServicesValue | ai_website_builder/website_builder/ai_service.py:146 | the services field of the repaired reply is the repaired services list |
| AiService.CleanServicesShape | ai_website_builder/website_builder/ai_service.py:126-146 | the repaired services list has three valid entries, kept ones first, then placeholders |
| AiService.ValidatedSucceeds | ai_website_builder/website_builder/ai_service.py:102-176 | the repair raises exactly when the parsed value is not a dictionary or a filled headline field has no length or is an over-long non-string |
| AiService.ValidatedCaps | ai_website_builder/website_builder/ai_service.py:164-174 | each headline field of the result is its filled value, ellipsised to the cap when it is a string over the cap |
| AiService.HeadlineCapped | ai_website_builder/website_builder/ai_service.py:164-174 | a field holding its capped value is capped from the filled value |
| AiService.ValidatedUntouched | ai_website_builder/website_builder/ai_service.py:102-176 | the result's keys are the given keys plus the required ones and every other key passes through unchanged |
| AiService.ValidatedFields | ai_website_builder/website_builder/ai_service.py:105-176 | all eight required fields are present and truthy in the result |
| AiService.ValidatedText | ai_website_builder/website_builder/ai_service.py:117-119 | about_section and meta_keywords are the reply's values when truthy, else the defaults, and are never capped |
| AiService.ValidatedHeadlinesTruthy | ai_website_builder/website_builder/ai_service.py:117-174 | capping never empties a headline field |
| AiService.FilledTruthy | ai_website_builder/website_builder/ai_service.py:117-119 | a field filled from a truthy default is truthy |
| AiService.CappedTruthy | ai_website_builder/website_builder/ai_service.py:164-174 | capping a truthy value gives a truthy value |
| AiService.ValidatedNestedTruthy | ai_website_builder/website_builder/ai_service.py:139-161 | services and contact_info of the result are non-empty |
| AiService.ValidatedContact | ai_website_builder/website_builder/ai_service.py:148-161 | contact_info of the result is a dictionary with the given keys plus phone, email, address and business_hours; each of the four is kept when truthy and defaulted otherwise; other keys are kept |
| AiService.ValidatedContactValue | ai_website_builder/website_builder/ai_service.py:148-161 | contact_info of the result is the defaults loop applied to the reply's contact dictionary |
| AiService.ContactFilled | ai_website_builder/website_builder/ai_service.py:159-161 | the contact defaults loop fills exactly the four contact fields and keeps the rest |
| AiService.ValidatedIsClean | ai_website_builder/website_builder/ai_service.py:102-176 | whatever the repair returns has the clean shape: the eight fields truthy, three valid services, a full contact dictionary, headline fields within their caps |
| AiService.CleanIsFixed | ai_website_builder/website_builder/ai_service.py:102-176 | a dictionary of the clean shape passes the repair unchanged |
| AiService.CleanRepairedFixed | ai_website_builder/website_builder/ai_service.py:105-161 | the defaults, services and contact steps leave a clean dictionary unchanged |
| AiService.CleanFilledFixed | ai_website_builder/website_builder/ai_service.py:117-119 | the defaults loop leaves a clean dictionary unchanged |
| AiService.CleanServicesFixed | ai_website_builder/website_builder/ai_service.py:126-146 | the services repair gives back the three valid services of a clean dictionary |
| AiService.CleanContactFixed | ai_website_builder/website_builder/ai_service.py:159-161 | the contact defaults loop leaves a full contact dictionary unchanged |
| AiService.CleanCapsFixed | ai_website_builder/website_builder/ai_service.py:164-174 | the caps leave a clean dictionary unchanged |
| AiService.CapWithin | ai_website_builder/website_builder/ai_service.py:164-174 | a capping statement leaves a value within the cap alone |
| AiService.ValidatedIdempotent | ai_website_builder/website_builder/ai_service.py:102-176 | repairing a repaired reply gives it back: the repair is idempotent |
| AiService.BraceSpan | ai_website_builder/website_builder/ai_service.py:87-89 | the greedy `\{.*\}` search finds nothing exactly when no '{' precedes a '}', and otherwise returns the text from the first '{' to the last '}' |
| AiService.Unquoted | ai_website_builder/website_builder/ai_service.py:192 | removing both quote characters leaves no quote and never lengthens the line |
| AiService.FirstAccepted | ai_website_builder/website_builder/ai_service.py:188-193 | the loop with break stops at the first line it accepts, or at none when no line is accepted |
| AiService.ManualTitle | ai_website_builder/website_builder/ai_service.py:185-193 | the title manual extraction picks is shorter than 80 characters and has no quote characters |
| AiService.ServiceEntry | ai_website_builder/website_builder/ai_service.py:199-257 | a literal service dictionary has exactly title, description and icon, and is valid when its icon is allowed |
| AiService.ContentDocument | ai_website_builder/website_builder/ai_service.py:195-213 | a literal content document has exactly the eight required keys with the given values |
| AiService.ExtractContentManually | ai_website_builder/website_builder/ai_service.py:178-213 | manual extraction computes ManualContent |
| AiService.ScanTitle | ai_website_builder/website_builder/ai_service.py:182-193 | the line-scanning loop computes ManualTitle |
| AiService.ManualServices | ai_website_builder/website_builder/ai_service.py:199-203 | manual extraction always yields three valid services |
| AiService.ManualDocumentServices | ai_website_builder/website_builder/ai_service.py:199-203 | the manual document's services are the three literal services, all valid |
| AiService.ManualServiceListValid | ai_website_builder/website_builder/ai_service.py:199-203 | the three literal manual services are valid |
| AiService.ManualAbout | ai_website_builder/website_builder/ai_service.py:198 | the manual about text is at most 500 characters and a prefix of the reply |
| AiService.ManualHeroTitle | ai_website_builder/website_builder/ai_service.py:185-196 | the manual hero title is shorter than 80 characters and quote-free |
| AiService.ManualDocumentText | ai_website_builder/website_builder/ai_service.py:196-198 | the manual document carries the picked title and the first 500 characters of the reply |
| AiService.IndustryServices | ai_website_builder/website_builder/ai_service.py:236-252 | each industry with its own services has three valid services |
| AiService.TechnologyServices | ai_website_builder/website_builder/ai_service.py:237-241 | the technology services are three valid services |
| AiService.HealthcareServices | ai_website_builder/website_builder/ai_service.py:242-246 | the healthcare services are three valid services |
| AiService.EducationServices | ai_website_builder/website_builder/ai_service.py:247-251 | the education services are three valid services |
| AiService.DefaultServices | ai_website_builder/website_builder/ai_service.py:254-258 | the default services are three valid services, the first titled "<industry> Consulting" with the lower-cased industry in its description |
| AiService.FallbackServices | ai_website_builder/website_builder/ai_service.py:260 | the fallback services are three valid services |
| AiService.FallbackServicesValid | ai_website_builder/website_builder/ai_service.py:215-284 | the fallback document carries exactly three valid services |
| AiService.FallbackIndustryMatch | ai_website_builder/website_builder/ai_service.py:260 | the services lookup ignores the industry's case, and an unlisted industry gets the default services |
| AiService.FallbackEmailShape | ai_website_builder/website_builder/ai_service.py:277 | without a business name the email is info@business.com; with one it is "info@" + the name with its spaces and hyphens removed, lower-cased, + ".com": a local part with no space, hyphen or upper-case letter, no longer than the name, and the lower-cased name itself when the name has no space or hyphen |
| AiService.FallbackNotCapped | ai_website_builder/website_builder/ai_service.py:263 | the fallback document is not capped: a business name over 69 characters gives a hero title over 80 |
| AiService.ParseAiResponse | ai_website_builder/website_builder/ai_service.py:80-100 | parsing computes ParsedResponse: repair of the parsed JSON span, or manual extraction when there is no span or it does not parse |
| AiService.AnswerReply | ai_website_builder/website_builder/ai_service.py:17-27 | the reply handling computes ReplyOutcome |
| AiService.GenerateWebsiteContent | ai_website_builder/website_builder/ai_service.py:12-27 | the generated content is the parsed reply when there is one and the fallback document otherwise; either way it has the required fields and three valid services |
| AiService.ManualWellFormed | ai_website_builder/website_builder/ai_service.py:178-213 | the manual document is well formed |
| AiService.FallbackWellFormed | ai_website_builder/website_builder/ai_service.py:215-284 | the fallback document is well formed |
| AiService.ValidatedWellFormed | ai_website_builder/website_builder/ai_service.py:102-176 | a repaired reply is well formed |
| AiService.ParsedWellFormed | ai_website_builder/website_builder/ai_service.py:80-100 | whatever parsing returns is well formed |
| AiService.OutcomeWellFormed | ai_website_builder/website_builder/ai_service.py:17-27 | a reply outcome, when there is one, is well formed |
| AiService.GeneratedFallback | ai_website_builder/website_builder/ai_service.py:20-27 | a provider failure or an empty text leads to the fallback document |
| AiService.GeneratedFromJson | ai_website_builder/website_builder/ai_service.py:84-93 | a reply whose brace span parses is answered by the repair of the parsed value |
| AiService.GeneratedManual | ai_website_builder/website_builder/ai_service.py:94-100 | a non-empty reply without a parsable span is answered by manual extraction |
| AiService.NonEmptyReply | ai_website_builder/website_builder/ai_service.py:20-21 | a reply holding a brace span is non-empty, so it reaches the parser |
| ContentOptimizer.CapIfPresent | ai_website_builder/website_builder/ai_service.py:398-403 | a missing meta field is left absent (its length is that of '') and a present one is capped |
| ContentOptimizer.MetaTagsCapped | ai_website_builder/website_builder/ai_service.py:394-405 | optimize_meta_tags raises exactly when a present meta field has no length or is an over-long non-string; otherwise it keeps the keys, caps meta_title at 60 and meta_description at 160, and leaves the rest |
| ContentOptimizer.CapValueStable | ai_website_builder/website_builder/ai_service.py:398-403 | capping a capped value changes nothing |
| ContentOptimizer.MetaTagsIdempotent | ai_website_builder/website_builder/ai_service.py:394-405 | optimize_meta_tags is idempotent |
| ContentOptimizer.ValidateContentStructure | ai_website_builder/website_builder/ai_service.py:408-426 | the defaults loop of validate_content_structure computes FillDefaults over its own table |
| ContentOptimizer.StructureDistinct | ai_website_builder/website_builder/ai_service.py:411-420 | the structure table names no field twice |
| ContentOptimizer.StructureFilled | ai_website_builder/website_builder/ai_service.py:422-424 | every listed field ends as the given value when truthy and its default otherwise; other keys are kept, none added |
| ContentOptimizer.FillDefaultsIdempotent | ai_website_builder/website_builder/ai_service.py:422-424 | filling defaults twice is filling them once |
| ContentOptimizer.StructureIdempotent | ai_website_builder/website_builder/ai_service.py:408-426 | validate_content_structure is idempotent |
| ContentOptimizer.SplitOnePiece | ai_website_builder/website_builder/ai_service.py:434-435 | a text splits into one paragraph exactly when it has no newline |
| ContentOptimizer.HalvesRejoin | ai_website_builder/website_builder/ai_service.py:437-439 | the two sentence halves joined by ". " give back the text |
| ContentOptimizer.HalvesWithoutBreak | ai_website_builder/website_builder/ai_service.py:437-439 | a text with no ". " has an empty first half and itself as the second |
| ContentOptimizer.ReadabilityRewrites | ai_website_builder/website_builder/ai_service.py:429-441 | enhance_readability raises exactly when about_section has no length or is a long non-string; it rewrites only a string over 500 characters without a newline, into its two halves joined by ".\n\n", and leaves every other field alone |
| ContentOptimizer.ReadabilityIdempotent | ai_website_builder/website_builder/ai_service.py:429-441 | a second pass of enhance_readability changes nothing |
| ContentOptimizer.FoundKeywords | ai_website_builder/website_builder/ai_service.py:460-463 | the scan finds at most as many keywords as the table holds |
| ContentOptimizer.FoundExactly | ai_website_builder/website_builder/ai_service.py:460-463 | a keyword is found exactly when it is in the table and occurs in the lower-cased text |
| ContentOptimizer.GenerateSeoKeywords | ai_website_builder/website_builder/ai_service.py:444-468 | the loop computes the joined list of the two base keywords and the first six found keywords, at most eight in all |
| ContentOptimizer.SeoKeywordsShape | ai_website_builder/website_builder/ai_service.py:448-468 | the keyword list has between 2 and 8 entries, starts with the lower-cased business type and industry, and the rest are table keywords that occur in the title and about text |
| ContentOptimizer.MobileServices | ai_website_builder/website_builder/ai_service.py:486-490 | the services loop, when it succeeds, returns one service per input |
| ContentOptimizer.MobileServicesFails | ai_website_builder/website_builder/ai_service.py:486-490 | a service that raises makes the whole loop raise |
| ContentOptimizer.OptimizeForMobileLoop | ai_website_builder/website_builder/ai_service.py:471-492 | the in-place loop over the services computes OptimizeForMobile |
| ContentOptimizer.MobileDescriptionsCapped | ai_website_builder/website_builder/ai_service.py:486-490 | every service gains a mobile_description of at most 120 characters |
| ContentOptimizer.MobileServicesKeep | ai_website_builder/website_builder/ai_service.py:486-490 | every service keeps its fields and gains only mobile_description |
| ContentOptimizer.MobileHeroShape | ai_website_builder/website_builder/ai_service.py:474-482 | a title of at most 50 characters is kept; a longer string of more than 8 words becomes its first six words and "..."; a title without a length raises |
| ContentOptimizer.MobileUntouched | ai_website_builder/website_builder/ai_service.py:471-492 | the result gains mobile_hero_title and leaves every field except services alone |
| Layout.GenerateLayoutStructure | ai_website_builder/website_builder/ai_service.py:286-337 | the layout always has the fixed header and footer |
| Layout.UnknownTemplateIsBusiness | ai_website_builder/website_builder/ai_service.py:335 | a known template gets its own sections and any other name gets the business sections |
| Layout.BusinessShaped | ai_website_builder/website_builder/ai_service.py:303-308 | the business sections are well shaped: four kinds, distinct, hero first with title and subtitle, one about |
| Layout.PortfolioShaped | ai_website_builder/website_builder/ai_service.py:309-314 | the portfolio sections are well shaped |
| Layout.RestaurantShaped | ai_website_builder/website_builder/ai_service.py:315-320 | the restaurant sections are well shaped |
| Layout.BlogShaped | ai_website_builder/website_builder/ai_service.py:321-326 | the blog sections are well shaped |
| Layout.EcommerceShaped | ai_website_builder/website_builder/ai_service.py:327-332 | the ecommerce sections are well shaped |
| Layout.LayoutShape | ai_website_builder/website_builder/ai_service.py:286-337 | every layout, whatever the template name, has well-shaped sections |
| Layout.TemplateCaseSensitive | ai_website_builder/website_builder/ai_service.py:335 | the template lookup is case-sensitive: "Blog" gets the business sections, "blog" the blog ones |
| WebsiteSerializers.ValidateStatus | ai_website_builder/website_builder/serializers.py:75-78 | a valid status is returned unchanged; a refused one gives "Invalid status" |
| WebsiteSerializers.StatusWhitelist | ai_website_builder/website_builder/serializers.py:75-78 | a status is accepted exactly when it is published, draft or archived, the model's status choices |
| WebsiteSerializers.ValidateText | ai_website_builder/website_builder/serializers.py:94-101 | a value is accepted exactly when it has at least 2 characters once stripped, and the result is the stripped value; otherwise the error is the field's message |
| WebsiteSerializers.ValidateTextIdempotent | ai_website_builder/website_builder/serializers.py:94-101 | a validated value passes the validator again unchanged |
| WebsiteSerializers.ValidatorsAgree | ai_website_builder/website_builder/serializers.py:94-101 | the business-type and industry validators accept the same values and return the same result |
| WebsiteSerializers.RequiredText | ai_website_builder/website_builder/serializers.py:87-101 | a required CharField with max_length strips the text first: absent gives "This field is required.", blank "This field may not be blank.", over-long once stripped the max_length message; it passes exactly when the stripped text has 2 to max_length characters, and yields the stripped text |
| WebsiteSerializers.RequiredTextPadded | ai_website_builder/website_builder/serializers.py:87-88 | whitespace around a value changes nothing: the padded value validates exactly like the value |
| WebsiteSerializers.NoteError | ai_website_builder/website_builder/serializers.py:86-101 | a failed field adds its key to the error map |
| WebsiteSerializers.RequestErrors | ai_website_builder/website_builder/serializers.py:86-101 | the error map names exactly the fields that failed |
| WebsiteSerializers.GenerationRequestValid | ai_website_builder/website_builder/serializers.py:86-101 | a generation request is valid exactly when business_type and industry have 2 to 100 characters once stripped, business_name (if given) at most 200 once stripped, and the template is a choice |
| WebsiteSerializers.GenerationRequestFields | ai_website_builder/website_builder/serializers.py:86-101 | the validated request holds the stripped business type, industry and business name ("" when absent) and the given template, or "business" when absent |
| WebsiteSerializers.GenerationRequestErrors | ai_website_builder/website_builder/serializers.py:86-101 | an invalid request names business_type, and industry, among its errors exactly when that field fails its stripped checks |
| WebsiteSerializers.GenerationRequestOptionalErrors | ai_website_builder/website_builder/serializers.py:89-92 | an invalid request names business_name, and template_type, among its errors exactly when that field fails |
| WebsiteSerializers.BusinessTypeMessages | ai_website_builder/website_builder/serializers.py:87-97 | a missing business_type is reported as "This field is required." and a blank one as "This field may not be blank.", before the validator's message |
| WebsiteSerializers.IndustryMessages | ai_website_builder/website_builder/serializers.py:88-101 | a missing industry is reported as "This field is required." and a blank one as "This field may not be blank." |
| DjangoRbac.PermissionTextSplits | ai_website_builder/rbac/models.py:23-24 | a permission's text "resource.action" splits back into its resource and action when neither holds a dot |
| DjangoRbac.HasPermission | ai_website_builder/rbac/models.py:42-46 | the scan with early return answers true exactly when some permission of the role has this resource and this action |
| DjangoRbac.PermissionsList | ai_website_builder/rbac/models.py:48-49 | the list has one (resource, action) pair per permission, in order |
| DjangoRbac.HasPermissionIffListed | ai_website_builder/rbac/models.py:42-49 | has_permission holds exactly when the pair is in get_permissions_list |
| DjangoRbac.EmptyRoleDenies | ai_website_builder/rbac/models.py:42-49 | a role without permissions grants nothing and lists nothing |
| DjangoRbac.SaveRole | ai_website_builder/rbac/models.py:51-53 | saving a role stamps updated_at and changes nothing else |
| DjangoRbac.FullNameOfEmpty | ai_website_builder/authentication/models.py:34-36 | two empty names give the empty full name |
| DjangoRbac.FullNameOfTrimmed | ai_website_builder/authentication/models.py:34-36 | two non-empty trimmed names give "first last" |
| DjangoRbac.RolelessDenied | ai_website_builder/authentication/models.py:38-41 | a user without a role has no permission at all |
| DjangoRbac.SaveUser | ai_website_builder/authentication/models.py:43-45 | saving a user stamps updated_at and changes nothing else |
| DjangoRbac.AdminIsAdminOrEditor | ai_website_builder/rbac/permissions.py:3-17 | every admin passes IsAdminOrEditor; an editor passes it without passing IsAdmin; IsAdminOrEditor admits only authenticated admins and editors |
| DjangoRbac.MethodAction | ai_website_builder/rbac/permissions.py:33-42 | GET maps to read, POST to create, PUT and PATCH to update, DELETE to delete, any other method to read |
| DjangoRbac.MethodActionRead | ai_website_builder/rbac/permissions.py:33-42 | the action is read exactly when the method is none of POST, PUT, PATCH, DELETE |
| DjangoRbac.ResourcePermissionDecision | ai_website_builder/rbac/permissions.py:44-52 | anonymous callers are refused; a view without resource_name admits every authenticated caller; otherwise the caller must hold (resource, action) for the method, and a None resource admits nobody |
| DjangoRbac.WebsitePermissionActions | ai_website_builder/rbac/permissions.py:54-55 | WebsitePermission needs websites.read for GET and websites.delete for DELETE |
| DjangoRbac.AppResource | ai_website_builder/rbac/middlware.py:40-62 | only the website_builder and rbac apps are in the permission map |
| DjangoRbac.CheckPermissionDenies | ai_website_builder/rbac/middlware.py:19-70 | the middleware refuses exactly an authenticated, non-admin caller without the app's resource for the method's action, on a resolvable, mapped, non-skipped /api/ path |
| DjangoRbac.CheckPermissionResources | ai_website_builder/rbac/middlware.py:40-68 | website_builder paths need the websites resource and rbac paths the roles resource |
| DjangoRbac.AuthPathsSkipped | ai_website_builder/rbac/middlware.py:20-27 | login and register paths are always let through |
| DjangoRbac.MiddlewareCall | ai_website_builder/rbac/middlware.py:9-17 | the middleware answers 403 "Permission denied" exactly when the check refuses, and passes the request on otherwise |
| DjangoAuthSerializers.Stripped | ai_website_builder/authentication/serializers.py:6-13 | the CharFields are stripped; role_name stays absent exactly when it was absent |
| DjangoAuthSerializers.FieldErrors | ai_website_builder/authentication/serializers.py:6-13 | a field error is reported, under the field's key, exactly for a password under 8 characters, a blank or over-long username or name, a blank email or one the email validator refuses, a blank confirmation, and a blank role_name |
| DjangoAuthSerializers.ValidateRegistration | ai_website_builder/authentication/serializers.py:6-25 | registration is rejected field by field exactly when a field check fails, then with validate()'s message; an accepted registration is the stripped input, with matching passwords of at least 8 characters, a valid email, a username and names within their limits, and an email and username no stored user has |
| DjangoAuthSerializers.Validate | ai_website_builder/authentication/serializers.py:15-25 | validate() accepts exactly when the passwords match and no stored user has the email or the username, and then returns the data unchanged |
| DjangoAuthSerializers.RegistrationOrder | ai_website_builder/authentication/serializers.py:15-25 | validate() checks in order: passwords match, then the email is new, then the username is new, each with its own message |
| DjangoAuthSerializers.PasswordStripped | ai_website_builder/authentication/serializers.py:11 | the password is stripped before its minimum length is checked |
| DjangoAuthSerializers.RegisteredRole | ai_website_builder/authentication/serializers.py:29-37 | the new user gets the first role named role_name (Viewer when absent), or no role when there is none |
| DjangoAuthSerializers.RegisteredRoleCurrent | ai_website_builder/authentication/serializers.py:35-37 | the role given to the new user is the stored role with its id |
| DjangoAuthSerializers.RegisteredUser | ai_website_builder/authentication/serializers.py:27-42 | the new user has the given email, username and names, the hashed password, the model defaults for the flags, the looked-up role, and the save time |
| DjangoAuthSerializers.CreateUser | ai_website_builder/authentication/serializers.py:27-42 | create() appends the new user to the users collection only, keeping user ids distinct and role references current |
| DjangoAuthSerializers.AddUser | ai_website_builder/authentication/serializers.py:41 | saving a user with a fresh id and a current role appends it to the users collection only and keeps ids distinct and roles current |
| DjangoAuthSerializers.UnknownRoleLeavesRoleless | ai_website_builder/authentication/serializers.py:35-39 | an unknown role name leaves the user without a role and without any permission |
| DjangoAuthSerializers.RegisteredUnique | ai_website_builder/authentication/serializers.py:19-23 | after registration the new user is the only one with its email and the only one with its username |
| DjangoAuthSerializers.ValidateLogin | ai_website_builder/authentication/serializers.py:48-62 | validate() alone: a missing or empty email or password gives "Must provide email and password"; a successful login returns a stored, active user with that email whose password checks |
| DjangoAuthSerializers.LoginFieldErrors | ai_website_builder/authentication/serializers.py:44-46 | the email field fails exactly when it is absent, blank once stripped or refused by the email validator; the password field exactly when it is absent or blank once stripped |
| DjangoAuthSerializers.LoginIsValid | ai_website_builder/authentication/serializers.py:44-62 | is_valid() reports the field errors first; otherwise it gives validate()'s message on the stripped values, or a stored active user with that valid email whose password checks |
| DjangoAuthSerializers.LoginMustProvideUnreachable | ai_website_builder/authentication/serializers.py:44-62 | since the field checks come first, "Must provide email and password" never reaches the caller, and an absent field is a field error |
| DjangoAuthSerializers.LoginCredentialsFirst | ai_website_builder/authentication/serializers.py:52-57 | an unknown email or a wrong password gives "Invalid credentials", checked before "User account is disabled" |
| DjangoAuthSerializers.RoleNameOf | ai_website_builder/authentication/serializers.py:74-75 | role_name is None exactly for a roleless user, else the role's name |
| DjangoAuthSerializers.RoleInfoOf | ai_website_builder/authentication/serializers.py:86-93 | role_info is None exactly for a roleless user, else the role's id, name and description |
| DjangoAuthSerializers.RoleGettersAgree | ai_website_builder/authentication/serializers.py:74-93 | role_name and role_info agree on the role |
| DjangoAuthSerializers.ProfileUpdated | ai_website_builder/authentication/serializers.py:95-100 | the profile update sets the username and names that were given, keeps the rest, and stamps the save |
| DjangoAuthSerializers.EmptyProfileUpdate | ai_website_builder/authentication/serializers.py:95-100 | an update without fields only stamps updated_at |
| DjangoAuthSerializers.ProfileFieldErrors | ai_website_builder/authentication/serializers.py:80-82 | a profile field fails exactly when it is absent from a full update or blank once stripped |
| DjangoAuthSerializers.ProfileUpdate | ai_website_builder/authentication/serializers.py:95-100 | field errors come first; a saved update is the cleaned values assigned to the user, within the model's length limits and with a username no other user holds; any other failure is a ValidationError or a NotUniqueError |
| DjangoAuthSerializers.ProfileSavedExactly | ai_website_builder/authentication/models.py:7-10 | an update without field errors is saved exactly when the new username and names fit their limits and no other user has the username |
| DjangoAuthSerializers.LongFirstNameRefused | ai_website_builder/authentication/models.py:9 | a first name over 30 characters once stripped makes save() raise a ValidationError |
| DjangoAuthSerializers.TakenUsernameRefused | ai_website_builder/authentication/models.py:7 | a username another user holds makes save() raise a NotUniqueError |
| DjangoAuthSerializers.ProfileKeepsUsernamesUnique | ai_website_builder/authentication/models.py:7 | distinct usernames stay distinct after a saved profile update |
| DjangoAuthSerializers.UpdateProfile | ai_website_builder/authentication/serializers.py:95-100 | the store changes only when the update is saved, and then only in that user, keeping user ids distinct and role references current |
| DjangoStore.First | ai_website_builder/rbac/views.py:73-74 | `objects(...).first()` finds the first matching document, and nothing exactly when none matches |
| DjangoStore.Filter | ai_website_builder/rbac/views.py:131-141 | `objects(field=value)` returns exactly the matching documents, and never more documents than the collection holds |
| DjangoStore.RoleWithId | ai_website_builder/rbac/views.py:74 | `Role.objects(id=id).first()` finds a stored role with that id, and nothing exactly when no role has it |
| DjangoStore.RoleNamed | ai_website_builder/rbac/views.py:122-142 | `Role.objects(name=name).first()` finds the first role with that name |
| DjangoStore.UserWithId | ai_website_builder/rbac/views.py:73 | `User.objects(id=id).first()` finds a user with that id, and nothing exactly when no user has it |
| DjangoStore.RoleWithIdFinds | ai_website_builder/rbac/views.py:74 | with distinct ids, looking up a stored role's id finds that role |
| DjangoStore.Dereferenced | ai_website_builder/authentication/models.py:15 | dereferencing a user's role reference changes only the role, and only to the role now stored with that id |
| DjangoStore.DereferencedAll | ai_website_builder/authentication/models.py:15 | every user's role is dereferenced |
| DjangoStore.DereferencedCurrent | ai_website_builder/authentication/models.py:15 | once every referenced role id is still stored, every dereferenced reference is current |
| DjangoRbacViews.NewPermission | ai_website_builder/rbac/views.py:118 | the new permission has the entry's name, codename, resource and action, the fresh id and no description |
| DjangoRbacViews.WithCodenameAppend | ai_website_builder/rbac/views.py:116-119 | storing a permission changes a codename lookup only when it found nothing before |
| DjangoRbacViews.Ensured | ai_website_builder/rbac/views.py:114-120 | the permission loop keeps the stored permissions in front, stores every entry's codename, and collects one permission per entry: the first one stored with its codename |
| DjangoRbacViews.EnsureKeepsFound | ai_website_builder/rbac/views.py:116-120 | one round keeps the store as a prefix, keeps every lookup that already found something, and collects the permission stored with the entry's codename |
| DjangoRbacViews.Found | ai_website_builder/rbac/views.py:116-120 | when every codename is stored, the loop collects one permission per entry |
| DjangoRbacViews.EnsuredWhenAllStored | ai_website_builder/rbac/views.py:114-120 | when every codename is already stored, the loop stores nothing and collects the stored permissions |
| DjangoRbacViews.PermissionsIdempotent | ai_website_builder/rbac/views.py:114-120 | running the permission loop a second time, with any ids, stores nothing new and collects the same permissions |
| DjangoRbacViews.SeedingKeepsStored | ai_website_builder/rbac/views.py:98-120 | seeding never changes a permission that was already stored |
| DjangoRbacViews.WithRole | ai_website_builder/rbac/views.py:122-129 | a role found by name gets exactly the given permissions and is saved; a missing one is appended with its description, is_default flag, the permissions and the fresh id |
| DjangoRbacViews.WithRoleEffect | ai_website_builder/rbac/views.py:122-129 | afterwards the named role holds exactly the given permissions (replaced, not merged), every role keeps its id and place, a new role comes last, roles with other names are as they were |
| DjangoRbacViews.WithRoleKeepsOthers | ai_website_builder/rbac/views.py:122-149 | seeding one role never changes what a lookup by another name finds |
| DjangoRbacViews.DefaultRolesGrant | ai_website_builder/rbac/views.py:122-149 | Admin gets every seeded permission, Editor every stored websites permission, Viewer every stored read permission; other roles keep their ids, and roles with other names are unchanged |
| DjangoRbacViews.SeedPermissions | ai_website_builder/rbac/views.py:114-120 | the loop updates only the permission store, giving Ensured's store and collected list |
| DjangoRbacViews.SeedRoles | ai_website_builder/rbac/views.py:122-149 | the three role updates give DefaultRoles; users' role references then see the updated roles; nothing else changes and the store invariants hold |
| DjangoRbacViews.InitializeDefaultRoles | ai_website_builder/rbac/views.py:95-153 | initialize_default_roles answers 200 with its message, stores the seeded permissions, and sets the three default roles from them |
| DjangoRbacViews.WithRoleIds | ai_website_builder/rbac/views.py:122-129 | seeding a role with a fresh id keeps role ids distinct and every stored id stored, and adds no id but the fresh one |
| DjangoRbacViews.DefaultRolesValid | ai_website_builder/rbac/views.py:122-149 | after seeding, role ids are distinct and users' role references are current |
| DjangoRbacViews.IdQuery | ai_website_builder/rbac/views.py:73-93 | an ObjectId, a 24-hex-digit text (lower-cased) or a non-negative integer of 24 decimal digits names an id; anything else, None included, raises the ValidationError the view turns into 400 |
| DjangoRbacViews.MissingIdRefused | ai_website_builder/rbac/views.py:73-93 | a missing user_id or role_id is refused with status 400 |
| DjangoRbacViews.AssignTarget | ai_website_builder/rbac/views.py:72-79 | both queries run before either check, so an ill-formed or missing id of either kind is the ValidationError even for an unknown user; a success names a stored user and a stored role holding the ids the two values name |
| DjangoRbacViews.UnknownUserFirst | ai_website_builder/rbac/views.py:76-79 | a well-formed user id that no stored user holds gives 404 "User not found", whatever the role lookup finds, as long as the role id is well-formed |
| DjangoRbacViews.Recorded | ai_website_builder/rbac/views.py:83-86 | the assignment for the pair is stored afterwards; it is appended only when none existed |
| DjangoRbacViews.RecordedOnce | ai_website_builder/rbac/views.py:83-86 | assigning the same role twice records one assignment |
| DjangoRbacViews.AssignRole | ai_website_builder/rbac/views.py:66-93 | an error leaves users and assignments alone and answers 404 or 400 with its text; a success sets and saves the user's role, records the assignment by the caller, and answers 200 "Role R assigned to E successfully" |
| DjangoRbacViews.AssignedValid | ai_website_builder/rbac/views.py:81-82 | giving a user a stored role keeps user ids distinct and role references current |
| DjangoRbacViews.MyPermissions | ai_website_builder/rbac/views.py:155-176 | a roleless user gets an empty list without a role name; otherwise the role's name and its permissions |
| DjangoRbacViews.MyPermissionsAgree | ai_website_builder/rbac/views.py:155-176 | the permissions my_permissions lists are exactly what has_permission grants |
| DjangoWebsiteModel.NewWebsite | ai_website_builder/website_builder/models.py:21-46 | a new website is a draft, has the given template or "business", the given owner and title, no published_at, and is marked AI-generated |
| DjangoWebsiteModel.DefaultsAreChoices | ai_website_builder/website_builder/models.py:9-38 | the default template and status are among the choices; there are three statuses and five templates |
| DjangoWebsiteModel.SaveWebsite | ai_website_builder/website_builder/models.py:71-73 | saving a website stamps updated_at and changes nothing else |
| DjangoWebsiteModel.EditDeleteRules | ai_website_builder/website_builder/models.py:58-69 | an admin may edit and delete every website; anyone else may edit exactly when owning it with websites.update, and delete exactly when owning it with websites.delete |
| DjangoWebsiteModel.RolelessCannotEdit | ai_website_builder/website_builder/models.py:61-69 | a user without a role may neither edit nor delete |
| DjangoWebsiteViews.VisibleWebsites | ai_website_builder/website_builder/views.py:25-29 | an admin's queryset is every website; anyone else's holds exactly the websites they own |
| DjangoWebsiteViews.ObjectGateMatchesQueryset | ai_website_builder/website_builder/views.py:104-111 | the detail view opens a website exactly when it is in the caller's list queryset; an unknown id is 404 and every other refusal is 403 with the view's message |
| DjangoWebsiteViews.GetObjectOr404 | ai_website_builder/website_builder/views.py:105 | given a mongoengine Document class the lookup raises ValueError for every id; given a Django model it finds the first website with the id, or none |
| DjangoWebsiteViews.OwnerRefusedAsWritten | ai_website_builder/website_builder/views.py:104-111 | as written, the owner of the one stored website is answered 500 "ValueError", where the gate over a working lookup grants them that website |
| DjangoWebsiteViews.RolelessSeesOwn | ai_website_builder/website_builder/views.py:25-29 | a caller without a role sees exactly the websites they own |
| DjangoWebsiteViews.DestroyGate | ai_website_builder/website_builder/views.py:104-116 | a granted delete names the website with that id |
| DjangoWebsiteViews.DestroyGateIsCanDelete | ai_website_builder/website_builder/views.py:104-116 | delete is granted exactly when the website exists and can_delete holds; a non-admin non-owner is stopped by get_object with the access message |
| DjangoWebsiteViews.DestroyWebsite | ai_website_builder/website_builder/views.py:113-116 | a refusal changes nothing; a granted delete answers 204 and removes only that website, leaving its sections and analytics stored |
| DjangoWebsiteViews.PublishGate | ai_website_builder/website_builder/views.py:123-127 | a granted publish names the website with that id |
| DjangoWebsiteViews.PublishGateDecision | ai_website_builder/website_builder/views.py:123-127 | publishing is granted exactly for an existing website the caller can edit and a status among the choices; an editable website with a bad status gets 400 "Invalid status" |
| DjangoWebsiteViews.Published | ai_website_builder/website_builder/views.py:129-133 | the saved website has the new status and save time and is otherwise unchanged apart from published_at |
| DjangoWebsiteViews.PublishedAtSetOnce | ai_website_builder/website_builder/views.py:131-133 | published_at is set to the current time only by a publish while it is unset, and no later update changes it |
| DjangoWebsiteViews.PublishWebsite | ai_website_builder/website_builder/views.py:118-133 | a refusal changes nothing; a granted update answers 200, replaces only that website with its published form, and leaves every other collection alone |
| DjangoWebsiteViews.SectionsOf | ai_website_builder/website_builder/views.py:143-146 | a website's sections are exactly the stored sections that reference it |
| DjangoWebsiteViews.SectionList | ai_website_builder/website_builder/views.py:139-146 | the section list is given only through the object gate, and then holds exactly the website's sections; a refusal carries the gate's message |
| DjangoWebsiteViews.SectionCreateGate | ai_website_builder/website_builder/views.py:148-151 | creating a section is allowed exactly for an existing website the caller can edit |
| DjangoWebsiteViews.CreateSection | ai_website_builder/website_builder/views.py:148-152 | a refusal changes nothing; a granted create answers 201 and appends the section bound to that website |
| DjangoWebsiteViews.StringFieldValue | ai_website_builder/website_builder/models.py:28-42 | a StringField stores None as unset and a string within max_length as itself; any other value fails validation |
| DjangoWebsiteViews.DictListValue | ai_website_builder/website_builder/models.py:31 | a ListField(DictField) accepts exactly a list of dictionaries |
| DjangoWebsiteViews.DictValue | ai_website_builder/website_builder/models.py:32 | a DictField accepts a dictionary and refuses every other non-None value |
| DjangoWebsiteViews.Enriched | ai_website_builder/website_builder/views.py:43-56 | the saved website takes the content fields as validated, gets the generated layout and the save time, and keeps every other field |
| DjangoWebsiteViews.DefaultSections | ai_website_builder/website_builder/views.py:61-91 | exactly four visible sections, hero, about, services and contact, with orders 1 to 4, all bound to the website |
| DjangoWebsiteViews.DefaultSectionTypesListed | ai_website_builder/website_builder/views.py:62-91 | the four default section types are distinct section-type choices |
| DjangoWebsiteViews.EnrichmentKeepsWebsite | ai_website_builder/website_builder/views.py:35-59 | whatever the content, the created website keeps its id, owner, request fields and status; an exception leaves it as created with no sections, otherwise it gets the layout and exactly the four default sections |
| DjangoWebsiteViews.CreatedFromRequest | ai_website_builder/website_builder/serializers.py:52-59 | the created website has the fresh id, the caller as owner, the request's fields, the default template when none is given, status draft and no layout |
| DjangoWebsiteViews.CreateDefaultSections | ai_website_builder/website_builder/views.py:92-93 | the loop appends the four default sections and changes nothing else |
| DjangoWebsiteViews.Enrich | ai_website_builder/website_builder/views.py:41-57 | the try block replaces the created website with its enrichment and appends the sections Enrichment gives |
| DjangoWebsiteViews.GenerateContent | ai_website_builder/website_builder/views.py:34-40 | the content is the generator's answer for the website's business type and industry and the business name or title |
| DjangoWebsiteViews.CreateWebsite | ai_website_builder/website_builder/views.py:31-59 | creation asks the generator for the website's business type, industry and business name or title, always stores the new website, even when enrichment fails, and stores it enriched with its sections exactly as Enrichment says for the generated content |
| DjangoWebsiteViews.PreviewAccess | ai_website_builder/website_builder/views.py:204-211 | an anonymous caller sees exactly published websites and otherwise gets 404; an authenticated caller passes exactly as admin, owner or holder of websites.read, otherwise 403, whatever the status |
| DjangoWebsiteViews.PreviewAnonymousSeesMore | ai_website_builder/website_builder/views.py:204-211 | a published website is open to anonymous callers but refused to a roleless non-owner who is signed in |
| DjangoWebsiteViews.PreviewPage | ai_website_builder/website_builder/views.py:201-212 | a rendered preview shows the website with that id, which passed the gate, with exactly its visible sections; an unknown id is 404 |
| DjangoWebsiteViews.CountedOneView | ai_website_builder/website_builder/views.py:224-231 | counting adds exactly one page view to the day's record, created with zero views when missing, and leaves every other record alone |
| DjangoWebsiteViews.WebsitePreview | ai_website_builder/website_builder/views.py:201-232 | the view answers PreviewPage, counts a view exactly when it renders a published website, and changes nothing else |
| DjangoWebsiteViews.PreviewCountsOnlyPublished | ai_website_builder/website_builder/views.py:209-211 | an anonymous caller is only ever shown a published website |
| DjangoWebsiteViews.InsertNewest | ai_website_builder/website_builder/views.py:270 | one step of the ordering keeps every record |
| DjangoWebsiteViews.InsertNewestOrdered | ai_website_builder/website_builder/views.py:270 | one step of the ordering keeps the records newest first |
| DjangoWebsiteViews.ByDateDesc | ai_website_builder/website_builder/views.py:270 | order_by('-date') is a permutation of the records, newest first |
| DjangoWebsiteViews.RecentShape | ai_website_builder/website_builder/views.py:270 | the recent records are at most 30 of the website's own records, newest first |
| DjangoWebsiteViews.RecentOmitsOnlyOlder | ai_website_builder/website_builder/views.py:270 | a record left out of the 30 is no newer than any listed one |
| DjangoWebsiteViews.AnalyticsReportTotals | ai_website_builder/website_builder/views.py:263-286 | a report is given exactly for an existing website to its admin or owner; its totals are the sums over the recent records; refusals are 404 or 403 "Permission denied" |
| DjangoWebsiteViews.InsertNewestTotals | ai_website_builder/website_builder/views.py:271-272 | one ordering step keeps both sums |
| DjangoWebsiteViews.ByDateDescTotals | ai_website_builder/website_builder/views.py:271-272 | ordering the records keeps both sums |
| DjangoWebsiteViews.FewRecordsAllCounted | ai_website_builder/website_builder/views.py:270-272 | with at most 30 records every one of them is listed and counted in the totals |
| DjangoWebsiteViews.Clone | ai_website_builder/website_builder/views.py:308-327 | the clone has the fresh id, the title with " (Copy)", the caller as owner, status draft and fresh times, and copies every other field |
| DjangoWebsiteViews.CloneGate | ai_website_builder/website_builder/views.py:302-309 | cloning is granted exactly for a website in the caller's queryset whose copy title fits 200 characters |
| DjangoWebsiteViews.ClonedSections | ai_website_builder/website_builder/views.py:328-337 | each copy is the original section bound to the clone, in the same order |
| DjangoWebsiteViews.ClonedSectionsOfClone | ai_website_builder/website_builder/views.py:328-337 | after copying, the clone's sections are exactly the copies of the original's sections |
| DjangoWebsiteViews.CopySections | ai_website_builder/website_builder/views.py:328-337 | the loop appends the copies and changes nothing else |
| DjangoWebsiteViews.CloneWebsite | ai_website_builder/website_builder/views.py:299-342 | a refusal changes nothing; a granted clone answers 201, appends the clone and its copied sections, and leaves the rest alone |
| GeminiService.CompanyOf | ai_website_builder/app/services/gemini_service.py:62 | a given non-empty company name is used; an absent or empty one gives "Your Company" |
| GeminiService.ParseReply | ai_website_builder/app/services/gemini_service.py:47-55 | the reassignments of the reply text compute ParsedReply: the parse of the text with its fences stripped |
| GeminiService.GenerateWebsiteContent | ai_website_builder/app/services/gemini_service.py:10-59 | a reply that parses is returned as parsed, with no repair; a provider failure or a parse failure gives the fallback document; either way the answer is the one GeminiService.Answer names |
| GeminiService.PrefixCut | ai_website_builder/app/services/gemini_service.py:48-49 | cutting a known prefix leaves the rest |
| GeminiService.SuffixCut | ai_website_builder/app/services/gemini_service.py:50-51 | cutting a known suffix leaves the rest |
| GeminiService.FenceFacts | ai_website_builder/app/services/gemini_service.py:48-51 | the opening fence "```json" has 7 characters and the closing fence 3 |
| GeminiService.FencedRoundTrip | ai_website_builder/app/services/gemini_service.py:47-51 | a body wrapped in "```json" and "```" comes back as the body |
| GeminiService.UnfencedUnchanged | ai_website_builder/app/services/gemini_service.py:47-51 | a trimmed text without fences passes unchanged |
| GeminiService.BareFenceKept | ai_website_builder/app/services/gemini_service.py:48-49 | a bare leading "```" without "json" is not removed |
| GeminiService.StripFencesSlice | ai_website_builder/app/services/gemini_service.py:47-51 | the result is the stripped text less at most 7 leading and 3 trailing characters |
| GeminiService.ParsedFromStripped | ai_website_builder/app/services/gemini_service.py:45-55 | a text reply is parsed after the fences are stripped, and a failure parses nothing |
| GeminiService.FallbackShape | ai_website_builder/app/services/gemini_service.py:61-92 | the fallback has exactly hero, about, services and contact, three services with title and description, and the hero title "Welcome to " + the company |
| FlaskPermission.GetAllPermissions | ai_website_builder/app/models/permission.py:7-19 | the vocabulary has seven distinct permissions, and a permission is in it exactly when is_valid_permission holds |
| FlaskPermission.ValidPermissions | ai_website_builder/app/models/permission.py:21-23 | is_valid_permission holds exactly for the seven listed names |
| FlaskMiddleware.RequirePermission | ai_website_builder/app/middleware/permission_middleware.py:4-22 | no attached user is 401, checked first; a missing or falsy role is 403 "User role not found"; a pass needs a role dictionary |
| FlaskMiddleware.RequirePermissionDecision | ai_website_builder/app/middleware/permission_middleware.py:15-20 | with a role whose permissions are a list or absent, the guard passes exactly when the permission is listed, and answers 403 "Insufficient permissions" otherwise |
| FlaskMiddleware.EmptyPermissionsDeny | ai_website_builder/app/middleware/permission_middleware.py:15-18 | an empty or absent permissions list always gives 403 |
| FlaskMiddleware.RequireRole | ai_website_builder/app/middleware/permission_middleware.py:24-37 | no attached user is 401; a missing role is 403 "Role R required"; a pass needs a role dictionary |
| FlaskMiddleware.RequireRoleExact | ai_website_builder/app/middleware/permission_middleware.py:31-33 | the guard passes exactly when the role's name equals the argument, and otherwise answers 403 |
| FlaskMiddleware.RoleNamesCaseSensitive | ai_website_builder/app/middleware/permission_middleware.py:32 | the name test is case-sensitive: an "Admin" role fails require_role('admin') |
| FlaskMiddleware.GuardsReadOnlyTheRole | ai_website_builder/app/middleware/permission_middleware.py:4-37 | both guards depend only on the user's role |
| FlaskMiddleware.GuardsIgnoreIsActive | ai_website_builder/app/middleware/permission_middleware.py:4-37 | neither guard consults is_active |
| FlaskMiddleware.HeaderToken | ai_website_builder/app/middleware/auth_middleware.py:9-15 | an absent or empty header gives no token; a token never holds a space |
| FlaskMiddleware.RequireAuth | ai_website_builder/app/middleware/auth_middleware.py:5-27 | every refusal is 401; the caller is admitted exactly with a non-empty token that resolves to a non-empty user, and that user is attached |
| FlaskMiddleware.MissingHeader | ai_website_builder/app/middleware/auth_middleware.py:11-18 | an absent or empty header is "Token is missing" |
| FlaskMiddleware.HeaderWithoutSpace | ai_website_builder/app/middleware/auth_middleware.py:12-15 | a non-empty header without a space is exactly the "Invalid token format" case |
| FlaskMiddleware.TokenBetweenSpaces | ai_website_builder/app/middleware/auth_middleware.py:13 | the token is the text between the first and second space, whatever the scheme word |
| FlaskMiddleware.EmptyTokenIsMissing | ai_website_builder/app/middleware/auth_middleware.py:13-18 | a header like "Bearer " is "Token is missing" |
| FlaskMiddleware.ResolvedTokenAdmits | ai_website_builder/app/middleware/auth_middleware.py:20-25 | an unresolvable token is "Token is invalid or expired"; a resolved one admits its user |
| FlaskDb.ParseObjectId | ai_website_builder/app/models/role.py:26 | ObjectId(text) succeeds exactly on 24 hexadecimal digits and yields the lower-case id |
| FlaskDb.ParseCanonical | ai_website_builder/app/models/role.py:22-26 | an id as str() prints it parses back to itself |
| FlaskDb.IndexOfId | ai_website_builder/app/models/role.py:26 | finds the position holding the id, and none exactly when no document has it |
| FlaskDb.Lookup | ai_website_builder/app/models/role.py:26 | find_one by _id finds a document exactly when one has the id |
| FlaskDb.FindById | ai_website_builder/app/models/role.py:25-26 | fails exactly when the text is not an ObjectId; otherwise looks up its lower-case form |
| FlaskDb.ObjectIdOf | ai_website_builder/app/models/user.py:53 | ObjectId(v) keeps an ObjectId, parses a string, and fails on anything else |
| FlaskDb.FindByValue | ai_website_builder/app/models/user.py:40-41 | find_by_id on a stored value: None finds nothing, a non-id fails, a found document has that id |
| FlaskDb.FindFirst | ai_website_builder/app/models/role.py:29-30 | find_one by a field returns the first matching document, and none exactly when nothing matches |
| FlaskDb.FindAll | ai_website_builder/app/models/website.py:37-38 | find by a field returns only matching documents and no more than the collection holds |
| FlaskDb.FindAllExactly | ai_website_builder/app/models/website.py:57-58 | a document is in the result of find exactly when it is stored and matches |
| FlaskDb.FindAllNone | ai_website_builder/app/api/admin.py:111 | a query nothing matches returns nothing |
| FlaskDb.Insert | ai_website_builder/app/models/role.py:21 | insert_one appends the document under its new id and keeps the rest |
| FlaskDb.InsertKeepsKeys | ai_website_builder/app/models/role.py:21-22 | inserting under a fresh canonical id keeps ids canonical and distinct and stores the new id |
| FlaskDb.UpdateById | ai_website_builder/app/models/role.py:39-42 | update_one with $set merges the data into the one document with the id and changes nothing else |
| FlaskDb.DeleteById | ai_website_builder/app/models/role.py:46 | delete_one leaves no document with the id |
| FlaskDb.DeleteByIdExactly | ai_website_builder/app/models/role.py:46 | a document survives delete_one exactly when its id differs |
| FlaskDb.UpdateKeepsKeys | ai_website_builder/app/models/role.py:39-42 | an update keeps ids canonical and distinct and keeps the set of stored ids |
| FlaskDb.DeleteKeepsKeys | ai_website_builder/app/models/role.py:46 | a delete keeps ids canonical and distinct |
| FlaskRole.RoleDocument | ai_website_builder/app/models/role.py:6-20 | the stored role has exactly name, description, permissions and both timestamps; falsy permissions become [] |
| FlaskRole.SaveRole | ai_website_builder/app/models/role.py:13-22 | appends the role document under the new id, returns that id, and leaves users and websites alone |
| FlaskRole.FindByName | ai_website_builder/app/models/role.py:29-30 | finds a role exactly when one has the name, and the result carries a stored _id |
| FlaskRole.UpdateRole | ai_website_builder/app/models/role.py:37-42 | a bad id fails and changes nothing; otherwise the data plus updated_at is merged into that role |
| FlaskRole.UpdateRoleMerge | ai_website_builder/app/models/role.py:38-42 | after the merge the role has the old fields plus the data's, the data's values win, updated_at is the clock, other roles are unchanged |
| FlaskRole.DeleteRole | ai_website_builder/app/models/role.py:45-46 | a bad id fails and changes nothing; otherwise the role with that id is removed |
| FlaskRole.StrList | ai_website_builder/app/models/role.py:54-63 | the permission names as list elements, in order |
| FlaskRole.SeedKeepsExisting | ai_website_builder/app/models/role.py:65-69 | seeding only appends: the stored roles stay first and unchanged |
| FlaskRole.SeedIds | ai_website_builder/app/models/role.py:69 | every id after seeding was stored before or is one of the fresh ids |
| FlaskRole.SeedNamesAll | ai_website_builder/app/models/role.py:65-69 | after seeding, every default name is held by some role |
| FlaskRole.SeedNamedUnchanged | ai_website_builder/app/models/role.py:66 | when every default name is already taken, seeding changes nothing |
| FlaskRole.SeedIdempotent | ai_website_builder/app/models/role.py:49-69 | seeding twice gives the same roles as seeding once |
| FlaskRole.SeedCreatesDefaults | ai_website_builder/app/models/role.py:50-69 | after seeding there are roles named admin, editor and viewer |
| FlaskRole.CreateDefaultRoles | ai_website_builder/app/models/role.py:48-69 | the loop leaves the roles equal to the seeding function of the old roles, and users and websites alone |
| FlaskRole.DefaultsNested | ai_website_builder/app/models/role.py:50-63 | viewer's permissions are within editor's, editor's within admin's, all are valid, and admin has all seven |
| FlaskUser.UserDocument | ai_website_builder/app/models/user.py:9-31 | the stored user has exactly email, password_hash, role_id, is_active and both timestamps |
| FlaskUser.SaveUser | ai_website_builder/app/models/user.py:23-33 | appends the user document under the new id and returns it |
| FlaskUser.FindByEmail | ai_website_builder/app/models/user.py:35-37 | finds a user exactly when one has the email, and the result carries a stored _id |
| FlaskUser.UpdateUserRole | ai_website_builder/app/models/user.py:47-57 | fails exactly on a bad user id or role id; otherwise sets role_id and updated_at on that user only |
| FlaskUser.DeleteUser | ai_website_builder/app/models/user.py:59-61 | a bad id fails and changes nothing; otherwise the user with that id is removed |
| FlaskWebsite.WebsiteDocument | ai_website_builder/app/models/website.py:6-28 | the stored website has exactly the nine fields, owner_id as an ObjectId |
| FlaskWebsite.DefaultWebsiteDocument | ai_website_builder/app/models/website.py:6-7 | by default a website is unpublished and has no business type, industry or template |
| FlaskWebsite.SaveWebsite | ai_website_builder/app/models/website.py:18-30 | a bad owner id fails and stores nothing; otherwise the document is appended under the new id |
| FlaskWebsite.FindByOwner | ai_website_builder/app/models/website.py:36-38 | fails exactly when the owner id is not an ObjectId |
| FlaskWebsite.FindByOwnerExactly | ai_website_builder/app/models/website.py:36-38 | returns exactly the stored websites whose owner_id is that id |
| FlaskWebsite.GetPublishedExactly | ai_website_builder/app/models/website.py:56-58 | returns exactly the stored websites whose is_published is True |
| FlaskWebsite.UpdateWebsite | ai_website_builder/app/models/website.py:44-50 | a bad id fails and changes nothing; otherwise the data plus updated_at is merged into that website |
| FlaskWebsite.UpdateKeepsOwner | ai_website_builder/app/models/website.py:45-50 | data without owner_id never changes any website's owner, and other websites stay the same |
| FlaskWebsite.DeleteWebsite | ai_website_builder/app/models/website.py:52-54 | a bad id fails and changes nothing; otherwise the website with that id is removed |
| FlaskAdmin.ListedUser | ai_website_builder/app/api/admin.py:19-27 | a listed user has its _id as text, no password hash and every other stored field; its role is "no_role" without a role_id, "unknown" for a missing role, the role's name otherwise; a bad role_id or a nameless role raises |
| FlaskAdmin.GetAllUsers | ai_website_builder/app/api/admin.py:14-32 | 200 with every user's entry in natural order, or 500 exactly when some entry raises |
| FlaskAdmin.GetAllRoles | ai_website_builder/app/api/admin.py:86-96 | every role in natural order, _id as text and every other field as stored, nothing added |
| FlaskAdmin.UpdateUserRoleOutcome | ai_website_builder/app/api/admin.py:37-61 | a non-object body is 500, a falsy role_id 400; 200 needs a stored role and a stored user |
| FlaskAdmin.RoleCheckedBeforeUser | ai_website_builder/app/api/admin.py:46-53 | an unknown role is 404 "Role not found" whatever the users are |
| FlaskAdmin.UpdateUserRoleSucceeds | ai_website_builder/app/api/admin.py:51-58 | with a stored role, the update succeeds exactly when the user is found, and an unknown user is 404 "User not found" |
| FlaskAdmin.UpdateUserRole | ai_website_builder/app/api/admin.py:34-61 | answers the outcome; on 200 sets role_id and updated_at on that user, otherwise changes nothing |
| FlaskAdmin.AssignedRoleExists | ai_website_builder/app/api/admin.py:46-56 | after a successful update the user's role_id names a stored role |
| FlaskAdmin.SelfDeletionAsWritten | ai_website_builder/app/api/admin.py:69-77 | as written, the caller's own id in another letter case passes the self-deletion test and the caller is deleted |
| FlaskAdmin.UpperCaseVariantExists | ai_website_builder/app/api/admin.py:69 | every id with a hex letter has such a variant: different text, same ObjectId |
| FlaskAdmin.DeleteUserOutcome | ai_website_builder/app/api/admin.py:66-80 | corrected: 400 exactly when the id names the caller, in any case; 200 needs a stored user other than the caller |
| FlaskAdmin.DeleteUserNeverSelf | ai_website_builder/app/api/admin.py:68-76 | a successful delete keeps the caller and removes exactly the named user |
| FlaskAdmin.DeleteUserCorrectionOnlyRefuses | ai_website_builder/app/api/admin.py:66-80 | the correction differs from the code as written only by refusing more |
| FlaskAdmin.DeleteUser | ai_website_builder/app/api/admin.py:63-80 | answers the outcome; on 200 removes that user, otherwise changes nothing |
| FlaskAdmin.CreateRoleOutcome | ai_website_builder/app/api/admin.py:101-123 | the first falsy field of name, description and permissions is 400 "F is required"; 201 needs all three and a name no stored role has |
| FlaskAdmin.CreatedRoleNameUnique | ai_website_builder/app/api/admin.py:110-115 | after a create, exactly one role has the new name |
| FlaskAdmin.CreateRole | ai_website_builder/app/api/admin.py:98-123 | answers the outcome; on 201 appends the role under the new id and returns it, otherwise changes nothing |
| FlaskAdmin.UpdateRoleOutcome | ai_website_builder/app/api/admin.py:128-153 | an unknown role is 404; 200 needs a stored role and a non-empty update drawn from description and permissions |
| FlaskAdmin.DefaultRolesImmutable | ai_website_builder/app/api/admin.py:136-138 | admin, editor and viewer are 400 "Cannot modify default roles" |
| FlaskAdmin.NoRoleFieldsRefused | ai_website_builder/app/api/admin.py:140-150 | a body without description and permissions is 400 "No valid fields to update" |
| FlaskAdmin.UpdateRole | ai_website_builder/app/api/admin.py:125-153 | answers the outcome; on 200 merges the copied fields plus updated_at into that role, otherwise changes nothing |
| FlaskAdmin.RoleNameNeverChanges | ai_website_builder/app/api/admin.py:140-147 | a successful update never adds, removes or changes any role's name |
| FlaskAdmin.DeleteRoleOutcome | ai_website_builder/app/api/admin.py:158-172 | an unknown role is 404; 200 needs a stored role, with a name, that is not a default role |
| FlaskAdmin.DeleteRole | ai_website_builder/app/api/admin.py:155-172 | answers the outcome; on 200 removes that role, otherwise changes nothing |
| FlaskAdmin.DefaultRolesSurvive | ai_website_builder/app/api/admin.py:164-168 | no successful delete removes a default role |
| FlaskAdmin.Dashboard | ai_website_builder/app/api/admin.py:178-193 | the counts are the sizes of the collections, and published never exceeds total |
| FlaskAdmin.PublishedCountExact | ai_website_builder/app/api/admin.py:183 | published_websites counts exactly the websites whose is_published is True |
| FlaskApi.RoleName | ai_website_builder/app/api/websites.py:13-15 | the caller's role name, or a raise when the role is not a dictionary (get on None) |
| FlaskApi.FirstMissing | ai_website_builder/app/api/admin.py:105-108 | the first required field whose value is missing or falsy, and none exactly when all are truthy |
| FlaskApi.Copied | ai_website_builder/app/api/websites.py:65-70 | the copied update holds only allowed fields |
| FlaskApi.CopiedFromDict | ai_website_builder/app/api/websites.py:67-70 | from a JSON object, exactly the allowed fields present in it, with their values |
| FlaskApi.CopiedFromOther | ai_website_builder/app/api/websites.py:68-70 | from a non-object body, a copy that does not raise is empty |
| FlaskApi.CopyFields | ai_website_builder/app/api/websites.py:65-70 | the copying loop computes the copy |
| FlaskApi.CopyFailureStays | ai_website_builder/app/api/websites.py:68-70 | once a field test raises, the whole copy raises |
| FlaskApi.Listing | ai_website_builder/app/api/websites.py:19-21 | a rewritten listing has one entry per document, each its rewrite |
| FlaskApi.ListingFails | ai_website_builder/app/api/websites.py:19-26 | the listing raises exactly when some document's rewrite raises |
| FlaskApi.ListEach | ai_website_builder/app/api/websites.py:19-21 | the rewriting loop computes the listing |
| FlaskWebsitesApi.IsOwnWebsite | ai_website_builder/app/api/websites.py:39 | the ownership test needs owner_id, and the caller's own ObjectId always passes it |
| FlaskWebsitesApi.ListedWebsite | ai_website_builder/app/api/websites.py:20-43 | a listed website has _id and owner_id as text and every other field as stored; no owner_id raises |
| FlaskWebsitesApi.VisibleWebsites | ai_website_builder/app/api/websites.py:13-18 | an admin reads every website, anyone else find_by_owner of their own id; an unreadable role raises |
| FlaskWebsitesApi.NonAdminSeesOwn | ai_website_builder/app/api/websites.py:17-18 | a non-admin sees exactly the websites they own |
| FlaskWebsitesApi.GetWebsites | ai_website_builder/app/api/websites.py:11-26 | 200 exactly when the query and every rewrite succeed, with the rewritten websites; 500 otherwise |
| FlaskWebsitesApi.AccessGate | ai_website_builder/app/api/websites.py:37-40 | passes exactly a privileged role or the owner; refuses with 403, or 500 where role or owner_id cannot be read |
| FlaskWebsitesApi.ForeignWebsiteDenied | ai_website_builder/app/api/websites.py:38-62 | someone else's website is 403 "Access denied" to reads unless admin or viewer, to changes unless admin |
| FlaskWebsitesApi.OwnerPasses | ai_website_builder/app/api/websites.py:38-93 | the owner always passes the gate |
| FlaskWebsitesApi.GetWebsite | ai_website_builder/app/api/websites.py:31-48 | an unknown website is 404; 200 exactly when a website is given, and then it is stored, the gate passed, and it is rewritten |
| FlaskWebsitesApi.UpdateWebsiteOutcome | ai_website_builder/app/api/websites.py:53-79 | an unknown website is 404; 200 needs a stored website, the admin-or-owner gate, and a non-empty copy of title, content, is_published, template_id |
| FlaskWebsitesApi.UpdateWebsite | ai_website_builder/app/api/websites.py:50-79 | answers the outcome; on 200 merges the copy plus updated_at into that website, otherwise changes nothing |
| FlaskWebsitesApi.UpdateWebsiteKeepsOwner | ai_website_builder/app/api/websites.py:67-73 | an update never changes any website's owner, and other websites stay the same |
| FlaskWebsitesApi.UpdateByOthersRefused | ai_website_builder/app/api/websites.py:59-62 | a non-admin changing someone else's website gets 403 |
| FlaskWebsitesApi.DeleteWebsiteOutcome | ai_website_builder/app/api/websites.py:84-99 | an unknown website is 404; 200 needs a stored website and the admin-or-owner gate |
| FlaskWebsitesApi.DeleteWebsite | ai_website_builder/app/api/websites.py:81-99 | answers the outcome; on 200 removes that website, otherwise changes nothing |
| FlaskWebsitesApi.PreviewWebsite | ai_website_builder/app/api/websites.py:102-111 | an unknown website is 404; a shown preview is of a stored, published website |
| FlaskWebsitesApi.UnpublishedNotShown | ai_website_builder/app/api/websites.py:108-109 | an unpublished website is 403 "Website not published" |
| FlaskGenerator.GenerationRequest | ai_website_builder/app/api/ai_generator.py:13-22 | accepted exactly with truthy business_type and industry, refusing with the first missing one; company_name defaults to 'Your Company' only when absent |
| FlaskGenerator.MissingMessage | ai_website_builder/app/api/ai_generator.py:15-18 | the required-fields loop reports "business_type is required" when business_type is falsy, else "industry is required" when industry is, and nothing exactly when both are truthy |
| FlaskGenerator.CompanyDefaultOnlyWhenAbsent | ai_website_builder/app/api/ai_generator.py:22 | a present but empty company_name is kept, not replaced by the default |
| FlaskGenerator.GenerateWebsite | ai_website_builder/app/api/ai_generator.py:11-44 | a body that is not a JSON object is 500 and stores nothing; a refused request is 400 with its message; 201 exactly with an accepted request and an ObjectId caller, storing "company - business_type" as the title, the content the generator answers for the interpolated business type, industry and company (the parsed reply, or the fallback), template 'default', unpublished, under the new id; otherwise nothing is stored |
| FlaskGenerator.CompanyRecovered | ai_website_builder/app/api/ai_generator.py:29-64 | splitting the title on " - " gives the company back exactly when the company followed by " -" holds no " - " |
| FlaskGenerator.CompanyWithSeparatorTruncated | ai_website_builder/app/api/ai_generator.py:29-64 | a company named "A - B" comes back as "A" |
| FlaskGenerator.RegenerationRequest | ai_website_builder/app/api/ai_generator.py:51-64 | an unknown website is "Website not found"; success needs a stored website, the admin-or-owner gate, and a text title whose first " - " part is the company |
| FlaskGenerator.RegenerateContent | ai_website_builder/app/api/ai_generator.py:49-73 | 200 exactly when the request succeeds, and then only content and updated_at of that website change, the content being what the generator answers for the stored business type, industry and the company recovered from the title; otherwise nothing changes |
| FlaskGenerator.RegenerationKeepsOtherFields | ai_website_builder/app/api/ai_generator.py:66 | regeneration leaves every other field of every website as it was |
| FlaskGenerator.GenerateThenRegenerate | ai_website_builder/app/api/ai_generator.py:29-64 | a website generated for a company without the separator is regenerated for the same company, so the same provider reply gives the same content |
| FlaskAuth.ShapePositions | ai_website_builder/app/auth/routes.py:16 | in an address of the pattern's shape the '@' is the first '@' and the '.' the last '.' |
| FlaskAuth.ScanEmailIsPattern | ai_website_builder/app/auth/routes.py:16-17 | the scanner accepts exactly the texts re.match accepts with the email pattern, a final newline included |
| FlaskAuth.RegistrationChecks | ai_website_builder/app/auth/routes.py:11-25 | missing email or password is refused first; success needs text email and password, the pattern, an unknown email and a role named viewer, whose id the new user gets |
| FlaskAuth.RegistrationRefusals | ai_website_builder/app/auth/routes.py:16-25 | an email outside the pattern is 400 "Invalid email format", a known one 409 "User already exists", and a missing viewer role 500 "Default role not found" |
| FlaskAuth.Register | ai_website_builder/app/auth/routes.py:9-38 | a refusal answers its status and stores nothing; success is 201 with the new id, storing the email, the password's hash, the viewer role and is_active True |
| FlaskAuth.RegisteredEmailUnique | ai_website_builder/app/auth/routes.py:20-28 | after a registration exactly one user has the email |
| FlaskAuth.Login | ai_website_builder/app/auth/routes.py:41-50 | missing email or password is 400; an unknown email is 401 "Invalid credentials" |
| FlaskAuth.WrongPasswordBeforeDeactivation | ai_website_builder/app/auth/routes.py:52-59 | a wrong password is 401 "Invalid credentials" even for a deactivated account |
| FlaskAuth.IsActiveDefaultsTrue | ai_website_builder/app/auth/routes.py:58-63 | a falsy is_active is 401 "Account is deactivated"; a missing is_active counts as active |
| FlaskAuth.RoleFallsBackToViewer | ai_website_builder/app/auth/routes.py:63-71 | a user with no role or an unknown role logs in as "viewer" |

## Left out

- The language-model SDK, the prompts (`_create_content_prompt`, the enhanced prompt) and the model configuration: the reply is a `ProviderResult` parameter, and the prompt text is not modelled.
- `json.loads`, `str()` of a value and the `re` engine: parsing is a parameter, `str()` is a `show` parameter, and the brace span and the email pattern are hand-written scanners proved equal to their patterns.
- Password hashing (bcrypt, Django's hashers), JWT signing and verification (`app/auth/utils.py`, `authentication/views.py`): these are function parameters. The JWT, register, login, logout and verify_token views of `authentication/views.py` are not modelled.
- MongoDB and mongoengine themselves: each collection is an in-memory sequence. Query ordering (`order_by`) is not modelled: section lists, the preview's sections and `my_websites` come back in natural order.
- FlaskDb.FindFirst: compares the query value with the stored value as a plain value. PyMongo reads a dict query value whose keys start with `$` (such as `{"$ne": null}`) as an operator; the model does not, so it does not capture an operator injected through a JSON body.
- FlaskUser.FindByEmail: inherits the plain-value comparison of FindFirst; an operator dict as the email is not modelled.
- FlaskRole.FindByName: inherits the plain-value comparison of FindFirst; an operator dict as the name is not modelled.
- FlaskAuth.Login: an email given as an operator dict (`{"$ne": null}`) would select the first user in PyMongo; the model compares it literally and answers 401.
- FlaskAdmin.CreateRoleOutcome: a name given as an operator dict would match an existing role in PyMongo and give 400 "Role already exists"; the model compares it literally.
- Floating point: `bounce_rate` and `avg_session_duration` of the analytics documents, and any float in a request body.
- Unicode case mapping: `lower()` maps ASCII letters only.
- Framework wiring and static content: `app.py`, `app/__init__.py`, `config.py`, the `urls.py` files, `app/services/template_service.py`, and HTML rendering. The Flask preview's page is given as the five values the template reads.
- `User.create_admin_user` (`app/models/user.py:63-69`): start-up seeding of a fixed admin account, outside the request handling modelled here. The `print` calls are left out everywhere.
- `rbac/serializers.py` and the generic list and detail views of `rbac/views.py`: these are DRF glue over the same collections.
- `website_builder/views.py`: the `generate_website_content` view (234-259), `my_websites` (288-297), the section detail lookup (158-166), and the image views together with `WebsiteImage` (models.py:111-136) are not modelled.
- mongoengine field validation on save: the DictField key checks, and the length and choice checks of title, business_type and industry at creation. The clone's 200-character title limit is modelled (a 500 naming the validation error). A null ListField or DictField is stored as empty.
- `WebsiteSection.save`'s `updated_at` refresh is not modelled.
- DjangoAuthSerializers.FieldErrors: Django's EmailValidator is the `validEmail` parameter; its pattern is not modelled. The same parameter serves LoginFieldErrors.
- DjangoAuthSerializers.ProfileUpdate: save() validates every field of the document; the model checks the three the update assigns and takes the stored email and password hash to pass. Whether the view runs a full or a partial update is the `partial` parameter.
- DjangoRbacViews.InitializeDefaultRoles: the unique index on `Permission.name` is not modelled. When a stored permission has an entry's name under another codename, `permission.save()` raises NotUniqueError and Django answers 500, keeping the permissions saved before it; the model stores the second permission and answers 200.
- DjangoWebsiteViews.SectionsOf: a `Website` document has no reverse `sections` attribute. The model reads `website.sections` as the stored sections whose website is this one.
- DjangoWebsiteViews.CreateWebsite: takes the generator as a function parameter and states that it is asked with the request's business_type and industry, which the saved website holds; that this generator answers what GenerateContent states is not part of the same contract, because the fallback texts and the enrichment together make that one proof too costly.
- DjangoWebsiteViews.EnrichmentKeepsWebsite: states what a failed and a successful enrichment leave behind, but does not characterise which content makes the enrichment fail.
- DjangoRbacViews.InitializeDefaultRoles: the model does not prove that seeding a fresh store creates exactly the twelve permissions in codename order; it proves that seeding keeps stored permissions, is idempotent on them, and derives the three role sets.
- Plain-Django errors are named: the 404 page of the preview, which `get_object_or_404` would raise for a missing id were it given a Django model, reads "Http404", and a 500 carries the exception's name in place of its message.
- DjangoWebsiteViews.ObjectGateMatchesQueryset: The detail view's lookup is modelled as if `get_object_or_404` accepted the mongoengine Document `Website`. As written, the call raises ValueError for every id (see the Findings row), so the view answers 500 before its permission test.
- DjangoWebsiteViews.DestroyGate: The delete view's lookup is modelled as if `get_object_or_404` accepted the mongoengine Document `Website`. As written, the call raises ValueError for every id (see the Findings row), so the view answers 500 before its permission test.
- DjangoWebsiteViews.DestroyGateIsCanDelete: The delete view's lookup is modelled as if `get_object_or_404` accepted the mongoengine Document `Website`. As written, the call raises ValueError for every id (see the Findings row), so the view answers 500 before its permission test and nothing is deleted.
- DjangoWebsiteViews.DestroyWebsite: The delete view's lookup is modelled as if `get_object_or_404` accepted the mongoengine Document `Website`. As written, the call raises ValueError for every id (see the Findings row), so the view answers 500 before its permission test and nothing is deleted.
- DjangoWebsiteViews.PublishGate: The publish view's lookup is modelled as if `get_object_or_404` accepted the mongoengine Document `Website`, and the ModelSerializer `WebsitePublishSerializer` accepted it. As written, the call raises ValueError for every id (see the Findings row), so the view answers 500 before its permission test.
- DjangoWebsiteViews.PublishGateDecision: The publish view's lookup is modelled as if `get_object_or_404` accepted the mongoengine Document `Website`, and the ModelSerializer `WebsitePublishSerializer` accepted it. As written, the call raises ValueError for every id (see the Findings row), so the view answers 500 before its permission test.
- DjangoWebsiteViews.PublishWebsite: The publish view is modelled as if `get_object_or_404` accepted the mongoengine Document `Website`, and the ModelSerializer `WebsitePublishSerializer` accepted it (DRF builds its fields from Django's `_meta`, which a mongoengine Document lacks). As written, the call raises ValueError for every id (see the Findings row), so the view answers 500 before its permission test and nothing is saved.
- DjangoWebsiteViews.SectionList: The section list's lookup is modelled as if `get_object_or_404` accepted the mongoengine Document `Website`, and the ModelSerializer `WebsiteSectionSerializer` accepted `WebsiteSection`. As written, the call raises ValueError for every id (see the Findings row), so the view answers 500 before its permission test.
- DjangoWebsiteViews.SectionCreateGate: The section creation's lookup is modelled as if `get_object_or_404` accepted the mongoengine Document `Website`, and the ModelSerializer `WebsiteSectionSerializer` accepted `WebsiteSection`. As written, the call raises ValueError for every id (see the Findings row), so the view answers 500 before its permission test.
- DjangoWebsiteViews.CreateSection: The section creation is modelled as if `get_object_or_404` accepted the mongoengine Document `Website`, and the ModelSerializer `WebsiteSectionSerializer` accepted `WebsiteSection`. As written, the call raises ValueError for every id (see the Findings row), so the view answers 500 before its permission test and no section is stored.
- DjangoWebsiteViews.PreviewAccess: The preview's lookup is modelled as if `get_object_or_404` accepted the mongoengine Document `Website`. As written, the call raises ValueError for every id (see the Findings row), so the view answers 500 before its permission test.
- DjangoWebsiteViews.PreviewAnonymousSeesMore: The preview's lookup is modelled as if `get_object_or_404` accepted the mongoengine Document `Website`. As written, the call raises ValueError for every id (see the Findings row), so the view answers 500 before its permission test.
- DjangoWebsiteViews.PreviewPage: The preview page is modelled as if `get_object_or_404` accepted the mongoengine Document `Website`, and as if `website.images` existed (a `Website` document has no reverse `images` attribute; the images are not part of this model). As written, the call raises ValueError for every id (see the Findings row), so the view answers 500 before its permission test.
- DjangoWebsiteViews.WebsitePreview: The preview view is modelled as if `get_object_or_404` accepted the mongoengine Document `Website`, and as if `website.images` existed. As written, the call raises ValueError for every id (see the Findings row), so the view answers 500 before its permission test and no view is counted.
- DjangoWebsiteViews.PreviewCountsOnlyPublished: The preview's lookup is modelled as if `get_object_or_404` accepted the mongoengine Document `Website`. As written, the call raises ValueError for every id (see the Findings row), so the view answers 500 before its permission test and no view is counted.
- DjangoWebsiteViews.AnalyticsReportTotals: The analytics view's lookup is modelled as if `get_object_or_404` accepted the mongoengine Document `Website`. As written, the call raises ValueError for every id (see the Findings row), so the view answers 500 before its permission test.
- DjangoWebsiteViews.FewRecordsAllCounted: The analytics view's lookup is modelled as if `get_object_or_404` accepted the mongoengine Document `Website`. As written, the call raises ValueError for every id (see the Findings row), so the view answers 500 before its permission test.
- DjangoWebsiteViews.CloneGate: The clone view's lookup is modelled as if `get_object_or_404` accepted the mongoengine Document `Website`. As written, the call raises ValueError for every id (see the Findings row), so the view answers 500 before its permission test.
- DjangoWebsiteViews.CloneWebsite: The clone view is modelled as if `get_object_or_404` accepted the mongoengine Document `Website`, and the ModelSerializer `WebsiteDetailSerializer` accepted the clone. As written, the call raises ValueError for every id (see the Findings row), so the view answers 500 before its permission test and nothing is copied.
- DjangoWebsiteViews.CreateWebsite: is modelled as if the ModelSerializer `WebsiteCreateSerializer` accepted the mongoengine Document `Website`. DRF builds a ModelSerializer's fields from Django's `_meta`, which a mongoengine Document lacks, so as written the view raises while validating the request and answers 500 before `perform_create`; no website is created.

## Findings

| source | as written | input that shows it | evidently intended | confidence | as-written member | corrected member |
|---|---|---|---|---|---|---|
| ai_website_builder/website_builder/views.py:104-111 | the Django views look websites up with `get_object_or_404(Website, pk=...)` (also at 124, 140, 149, 202, 264 and 302), but `Website` is a mongoengine Document, which has no `_default_manager` and no `get`, so Django raises ValueError | the owner of the one stored website opening it: 500 | the website is looked up by id, 404 for a missing one, then the permission test | not executed | DjangoWebsiteViews.OwnerRefusedAsWritten | DjangoWebsiteViews.ObjectGateMatchesQueryset |
| ai_website_builder/app/api/admin.py:68-77 | `delete_user` refuses self-deletion by comparing the caller's id text with the URL's id text, but `ObjectId()` also accepts upper-case hex digits | the caller's own id with one of its letters a-f upper-cased: the texts differ, the id is the same, and the caller's account is deleted | refuse whenever the id names the caller, however it is written | not executed | FlaskAdmin.SelfDeletionAsWritten | FlaskAdmin.DeleteUserNeverSelf |
