/**
 * GeminiService of the Flask back-end: the provider's reply with its code fences
 * removed, parsed and returned as it is, or a fixed fallback document.
 */
module GeminiService {
  import opened Wrappers
  import opened PyText
  import opened PyValues
  import opened AiService

  const JsonFence := "```json"
  const Fence := "```"

  /** `content.strip()`, then a leading "```json" and a trailing "```" removed. */
  function StripFences(text: string): string {
    var c := Strip(text);
    var c1 := if StartsWith(c, JsonFence) then c[7..] else c;
    if EndsWith(c1, Fence) then c1[..|c1| - 3] else c1
  }

  /** `company_name or "Your Company"`: an absent or empty name gives the placeholder. */
  function CompanyOf(companyName: Option<string>): (r: string)
    ensures companyName.Some? && companyName.value != "" ==> r == companyName.value
    ensures companyName.None? || companyName.value == "" ==> r == "Your Company"
  {
    match companyName
    case Some(s) => if s != "" then s else "Your Company"
    case None => "Your Company"
  }

  const AboutTail := ". With years of experience and dedication to excellence, we provide top-quality services to our clients. Our team is committed to delivering innovative solutions that meet your specific needs."
  const CustomText := "Customized solutions designed to meet your unique requirements."
  const SupportText := "Ongoing support and maintenance to ensure optimal performance."
  const ContactText := "Ready to take your business to the next level? Contact us today to discuss how we can help you achieve your goals."

  /** A fallback block: a title and a second text field. */
  function Block(title: string, key: string, text: string): Value {
    Dict(map["title" := Str(title), key := Str(text)])
  }

  function FallbackServices(industry: string): seq<Value> {
    [ Block("Professional Consulting", "description", "Expert consulting services tailored to " + industry + " businesses."),
      Block("Custom Solutions", "description", CustomText),
      Block("Support & Maintenance", "description", SupportText) ]
  }

  /** get_fallback_content */
  function FallbackContent(businessType: string, industry: string, companyName: Option<string>): Doc {
    var company := CompanyOf(companyName);
    map[
      "hero" := Dict(map[
        "title" := Str("Welcome to " + company),
        "subtitle" := Str("Your trusted partner in " + industry),
        "cta_text" := Str("Get Started")]),
      "about" := Block("About Us", "content", "We are a leading " + businessType + " company specializing in " + industry + AboutTail),
      "services" := List(FallbackServices(industry)),
      "contact" := Block("Get In Touch", "content", ContactText)]
  }

  /** The parsed reply, or None where generate_website_content raises inside its try block. */
  function ParsedReply(reply: ProviderResult, parse: string -> Option<Value>): Option<Value> {
    match reply
    case Failed => None
    case Text(text) => parse(StripFences(text))
  }

  /** The try block of generate_website_content, reassigning the reply text step by step. */
  method ParseReply(reply: ProviderResult, parse: string -> Option<Value>) returns (r: Option<Value>)
    ensures r == ParsedReply(reply, parse)
  {
    if reply.Failed? {
      return None;
    }
    var content := Strip(reply.text);
    if StartsWith(content, JsonFence) {
      content := content[7..];
    }
    if EndsWith(content, Fence) {
      content := content[..|content| - 3];
    }
    r := parse(content);
  }

  /** What generate_website_content answers: the parsed reply, or the fallback document. */
  function Answer(reply: ProviderResult, parse: string -> Option<Value>,
                  businessType: string, industry: string, companyName: Option<string>): Value {
    if ParsedReply(reply, parse).Some? then ParsedReply(reply, parse).value
    else Dict(FallbackContent(businessType, industry, companyName))
  }

  /**
   * generate_website_content: the parsed reply as it is, or the fallback when the
   * provider or the parser raises.
   */
  method GenerateWebsiteContent(reply: ProviderResult, parse: string -> Option<Value>,
                                businessType: string, industry: string, companyName: Option<string>) returns (r: Value)
    ensures ParsedReply(reply, parse).Some? ==> r == ParsedReply(reply, parse).value
    ensures ParsedReply(reply, parse).None? ==> r == Dict(FallbackContent(businessType, industry, companyName))
    ensures r == Answer(reply, parse, businessType, industry, companyName)
  {
    var parsed := ParseReply(reply, parse);
    if parsed.Some? {
      r := parsed.value;
    } else {
      r := Dict(FallbackContent(businessType, industry, companyName));
    }
  }

  lemma PrefixCut(p: string, rest: string)
    ensures StartsWith(p + rest, p) && (p + rest)[|p|..] == rest
  {
    assert (p + rest)[..|p|] == p;
  }

  lemma SuffixCut(rest: string, q: string)
    ensures EndsWith(rest + q, q) && (rest + q)[..|rest|] == rest
  {
    assert (rest + q)[|rest|..] == q;
  }

  lemma FenceFacts()
    ensures |JsonFence| == 7 && |Fence| == 3
    ensures JsonFence[0] == '`' && Fence[2] == '`'
  {
  }

  /** The fenced form of a JSON text loses both fences and nothing else. */
  lemma FencedRoundTrip(body: string)
    ensures StripFences(JsonFence + body + Fence) == body
  {
    FenceFacts();
    var c1 := body + Fence;
    var c := JsonFence + c1;
    assert JsonFence + body + Fence == c;
    assert c[0] == JsonFence[0] && c[|c| - 1] == Fence[2];
    assert !IsSpace('`');
    StripTrimmed(c);
    PrefixCut(JsonFence, c1);
    SuffixCut(body, Fence);
  }

  /** A trimmed text without fences is passed to the parser as it is. */
  lemma UnfencedUnchanged(text: string)
    requires Trimmed(text) && !StartsWith(text, JsonFence) && !EndsWith(text, Fence)
    ensures StripFences(text) == text
  {
    StripTrimmed(text);
  }

  /** A bare leading "```" is not a fence the service removes: the reply keeps it. */
  lemma BareFenceKept(text: string)
    requires StartsWith(Strip(text), Fence) && !StartsWith(Strip(text), JsonFence) && |Strip(text)| >= 6
    ensures StartsWith(StripFences(text), Fence)
  {
    var c := Strip(text);
    var r := StripFences(text);
    assert r == c || r == c[..|c| - 3];
    assert r[..3] == c[..3];
  }

  /** The result is a slice of the stripped reply: at most 7 characters off the front and 3 off the back. */
  lemma StripFencesSlice(text: string)
    ensures var c := Strip(text); var r := StripFences(text);
      exists i, j :: (i == 0 || i == 7) && j <= |c| && |c| - j <= 3 && i <= j && r == c[i..j]
  {
    var c := Strip(text);
    var i := if StartsWith(c, JsonFence) then 7 else 0;
    var c1 := c[i..];
    var j := if EndsWith(c1, Fence) then |c| - 3 else |c|;
    if EndsWith(c1, Fence) {
      assert |c1| >= 3 && c1[..|c1| - 3] == c[i..j];
    } else {
      assert c1 == c[i..j];
    }
    assert StripFences(text) == c[i..j];
  }

  /** A text reply reaches the parser with its fences stripped, and nothing else. */
  lemma ParsedFromStripped(text: string, parse: string -> Option<Value>)
    ensures ParsedReply(Text(text), parse) == parse(StripFences(text))
    ensures ParsedReply(Failed, parse) == None
  {
  }

  /**
   * The fallback has hero, about, services and contact; exactly three services; and
   * a hero greeting the company, which is the given name or "Your Company".
   */
  lemma FallbackShape(businessType: string, industry: string, companyName: Option<string>)
    ensures var d := FallbackContent(businessType, industry, companyName);
      && d.Keys == {"hero", "about", "services", "contact"}
      && d["services"].List? && |d["services"].items| == 3
      && (forall i :: 0 <= i < 3 ==>
            d["services"].items[i].Dict? && "title" in d["services"].items[i].fields && "description" in d["services"].items[i].fields)
      && d["hero"].Dict? && "title" in d["hero"].fields
      && d["hero"].fields["title"] == Str("Welcome to " + CompanyOf(companyName))
  {
    var d := FallbackContent(businessType, industry, companyName);
    assert d["services"] == List(FallbackServices(industry));
  }
}
