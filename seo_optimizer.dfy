/**
 * The discoverability helpers: social-media meta tags with fixed defaults,
 * structured-data objects (before they are stringified), the page keyword
 * string, image attributes, canonical URLs, the robots directive and the
 * hreflang alternates, all under the fixed base URL.
 */
module SeoOptimizer {
  import opened Common
  import opened JsValue

  const BaseUrl: string := "https://mfuhad.xyz"
  const DefaultTitle: string := "Muhammed Fuhad C (Fuad) - IoT & Embedded Systems Developer"
  const DefaultDescription: string := "Professional IoT & Embedded Systems Developer specializing in Smart Agriculture, Healthcare Monitoring, and Mobile Apps."
  const DefaultImageAlt: string := "Muhammed Fuhad C (Fuad) - IoT & Embedded Systems Developer Portfolio"

  // ---------------------------------------------------------------- social media meta

  datatype PageData = PageData(title: Value, description: Value, image: Value, url: Value, pageType: Value, imageAlt: Value)

  datatype SocialMeta = SocialMeta(
    ogTitle: Value, ogDescription: Value, ogImage: Value, ogUrl: string, ogType: Value,
    ogSiteName: string, ogLocale: string, ogLocaleAlternate: string, ogUpdatedTime: string,
    ogImageWidth: string, ogImageHeight: string, ogImageAlt: Value,
    twitterCard: string, twitterTitle: Value, twitterDescription: Value, twitterImage: Value,
    twitterImageAlt: Value, twitterCreator: string, twitterSite: string, twitterDomain: string,
    linkedinOwner: string, fbAppId: string, fbAdmins: string)

  /** `generateSocialMediaMeta(pageData)`; `now` is the ISO time of the call. */
  function SocialMediaMeta(page: PageData, now: string): (m: SocialMeta)
    ensures m.ogTitle == m.twitterTitle && m.ogDescription == m.twitterDescription
    ensures m.ogImage == m.twitterImage && m.ogImageAlt == m.twitterImageAlt
    ensures Truthy(page.title) ==> m.ogTitle == page.title
    ensures !Truthy(page.title) ==> m.ogTitle == Str(DefaultTitle)
    ensures !Truthy(page.description) ==> m.ogDescription == Str(DefaultDescription)
    ensures !Truthy(page.image) ==> m.ogImage == Str(BaseUrl + "/og-image.jpg")
    ensures m.ogUrl == BaseUrl + (if Truthy(page.url) then ToJsString(page.url) else "/")
    ensures m.ogUpdatedTime == now
  {
    var defaultImage := Str(BaseUrl + "/og-image.jpg");
    SocialMeta(
      Or(page.title, Str(DefaultTitle)),
      Or(page.description, Str(DefaultDescription)),
      Or(page.image, defaultImage),
      BaseUrl + ToJsString(Or(page.url, Str("/"))),
      Or(page.pageType, Str("website")),
      "Muhammed Fuhad C Portfolio", "en_US", "en_IN", now, "1200", "630",
      Or(page.imageAlt, Str(DefaultImageAlt)),
      "summary_large_image",
      Or(page.title, Str(DefaultTitle)),
      Or(page.description, Str(DefaultDescription)),
      Or(page.image, defaultImage),
      Or(page.imageAlt, Str(DefaultImageAlt)),
      "@_fuhad_c", "@_fuhad_c", "mfuhad.xyz", "fuhadc", "your-facebook-app-id", "fuhadcs3")
  }

  /** Every field the page supplies shows through; the meta never depends on anything else. */
  lemma SupplyingFieldsOverridesDefaults(page: PageData, now: string)
    requires Truthy(page.title) && Truthy(page.description) && Truthy(page.image) && Truthy(page.imageAlt)
    ensures var m := SocialMediaMeta(page, now);
      m.ogTitle == page.title && m.ogDescription == page.description
      && m.ogImage == page.image && m.twitterImageAlt == page.imageAlt
  {
  }

  // ---------------------------------------------------------------- structured data

  /** `{'@context': 'https://schema.org', '@type': type, ...data}`, before `JSON.stringify`. */
  function StructuredData(schemaType: string, data: Record): (r: Record)
  {
    Merge([("@context", Str("https://schema.org")), ("@type", Str(schemaType))], data)
  }

  /** Keys of `data` override; `@context` and `@type` are there otherwise. */
  lemma StructuredDataLookup(schemaType: string, data: Record, k: string)
    requires KeysDistinct(data)
    ensures HasKey(StructuredData(schemaType, data), "@context") && HasKey(StructuredData(schemaType, data), "@type")
    ensures HasKey(data, k) ==> Lookup(StructuredData(schemaType, data), k) == Lookup(data, k)
    ensures !HasKey(data, "@type") ==> Lookup(StructuredData(schemaType, data), "@type") == Str(schemaType)
    ensures !HasKey(data, "@context") ==> Lookup(StructuredData(schemaType, data), "@context") == Str("https://schema.org")
  {
    var base := [("@context", Str("https://schema.org")), ("@type", Str(schemaType))];
    LookupMerge(base, data, k);
    LookupMerge(base, data, "@type");
    LookupMerge(base, data, "@context");
    MergeHasKey(base, data, "@type");
    MergeHasKey(base, data, "@context");
    assert HasKey(base, "@type") by { assert base[1..][0].0 == "@type"; }
  }

  datatype Crumb = Crumb(name: Value, url: Value)

  function CrumbItem(crumb: Crumb, position: int): Value
  {
    Obj([("@type", Str("ListItem")), ("position", Num(position)), ("name", crumb.name), ("item", crumb.url)])
  }

  function CrumbItems(crumbs: seq<Crumb>): (items: seq<Value>)
    ensures |items| == |crumbs|
    ensures forall i :: 0 <= i < |crumbs| ==> items[i] == CrumbItem(crumbs[i], i + 1)
  {
    seq(|crumbs|, i requires 0 <= i < |crumbs| => CrumbItem(crumbs[i], i + 1))
  }

  /** `generateBreadcrumbStructuredData(breadcrumbs)` before stringifying. */
  function BreadcrumbStructuredData(crumbs: seq<Crumb>): Record
  {
    StructuredData("BreadcrumbList", [("itemListElement", Arr(CrumbItems(crumbs)))])
  }

  /** The list holds one item per crumb, in order, at positions 1..n. */
  lemma BreadcrumbStructuredDataItems(crumbs: seq<Crumb>)
    ensures var r := BreadcrumbStructuredData(crumbs);
      && Lookup(r, "@type") == Str("BreadcrumbList")
      && Lookup(r, "itemListElement").Arr?
      && var items := Lookup(r, "itemListElement").elems;
      && |items| == |crumbs|
      && forall i :: 0 <= i < |crumbs| ==>
           Property(items[i], "position") == Num(i + 1) && Property(items[i], "name") == crumbs[i].name
           && Property(items[i], "item") == crumbs[i].url
  {
    var data := [("itemListElement", Arr(CrumbItems(crumbs)))];
    assert data[1..] == [];
    assert !HasKey(data[1..], "@type") && KeysDistinct(data[1..]);
    assert data[0].0 != "@type" by {
      assert data[0].0[0] == 'i' && "@type"[0] == '@';
    }
    assert !HasKey(data, "@type");
    assert KeysDistinct(data) && HasKey(data, "itemListElement");
    StructuredDataLookup("BreadcrumbList", data, "itemListElement");
    StructuredDataLookup("BreadcrumbList", data, "@type");
    forall i | 0 <= i < |crumbs| ensures var item := CrumbItems(crumbs)[i];
      Property(item, "position") == Num(i + 1) && Property(item, "name") == crumbs[i].name
      && Property(item, "item") == crumbs[i].url
    {
      CrumbItemFields(crumbs[i], i + 1);
    }
  }

  lemma CrumbItemFields(crumb: Crumb, position: int)
    ensures Property(CrumbItem(crumb, position), "position") == Num(position)
    ensures Property(CrumbItem(crumb, position), "name") == crumb.name
    ensures Property(CrumbItem(crumb, position), "item") == crumb.url
  {
    var r := [("@type", Str("ListItem")), ("position", Num(position)), ("name", crumb.name), ("item", crumb.url)];
    assert CrumbItem(crumb, position) == Obj(r);
    var r1, r2, r3 := r[1..], r[2..], r[3..];
    assert r1[1..] == r2 && r2[1..] == r3 && r3[1..] == [];
    assert r[0].0 == "@type" && r1[0].0 == "position" && r2[0].0 == "name" && r3[0].0 == "item";
    assert Lookup(r3, "item") == crumb.url;
    assert Lookup(r2, "name") == crumb.name && Lookup(r2, "item") == crumb.url;
    assert Lookup(r1, "position") == Num(position);
    assert Lookup(r1, "name") == crumb.name && Lookup(r1, "item") == crumb.url;
  }

  // ---------------------------------------------------------------- keywords

  const SocialMediaKeywordList: seq<string> := [
    "fuad", "fuhad", "muhammed fuhad", "fuhad c", "muhammed fuhad c",
    "iot developer", "embedded systems developer", "smart agriculture",
    "healthcare monitoring", "mobile app developer", "flutter developer",
    "python developer", "arduino", "raspberry pi", "research", "ieee",
    "springer", "kerala", "india", "portfolio", "developer", "software engineer",
    "researcher", "toyota industries", "christ university", "btech",
    "computer science", "engineering", "instagram", "facebook", "linkedin",
    "github", "twitter", "researchgate", "social media", "contact", "hire",
    "collaboration", "professional networking", "connect", "follow"]

  /** `generateSocialMediaKeywords()`. */
  function SocialMediaKeywords(): string
  {
    Join(SocialMediaKeywordList, ", ")
  }

  const PageSpecificTable: map<string, seq<string>> := map[
    "home" := ["portfolio", "homepage", "main page", "welcome"],
    "about" := ["about me", "biography", "background", "story", "personal"],
    "projects" := ["projects", "work", "portfolio", "case studies", "examples"],
    "publications" := ["research", "papers", "publications", "academic", "ieee", "springer"],
    "skills" := ["skills", "technologies", "expertise", "competencies", "abilities"],
    "experience" := ["experience", "career", "work history", "employment", "professional"],
    "achievements" := ["achievements", "awards", "certifications", "recognition", "accomplishments"],
    "contact" := ["contact", "get in touch", "reach out", "connect", "social media"],
    "social" := ["social media", "social links", "connect", "follow", "networking"]]

  /** `pageSpecificKeywords[pageType] || []`. */
  function PageSpecificKeywords(pageType: string): seq<string>
  {
    if pageType in PageSpecificTable then PageSpecificTable[pageType] else []
  }

  /** `generatePageKeywords(pageType, additionalKeywords)`. */
  function PageKeywords(pageType: string, additional: seq<string>): string
  {
    Join([SocialMediaKeywords()] + PageSpecificKeywords(pageType) + additional, ", ")
  }

  /**
   * The keyword string is the base list, the page's list and the additional
   * keywords, in that order, joined by ", ".
   */
  lemma PageKeywordsFlatten(pageType: string, additional: seq<string>)
    ensures PageKeywords(pageType, additional)
         == Join(SocialMediaKeywordList + PageSpecificKeywords(pageType) + additional, ", ")
  {
    JoinFlatten(SocialMediaKeywordList, PageSpecificKeywords(pageType), additional);
  }

  /** An unknown page type adds no keywords of its own. */
  lemma UnknownPageKeywords(pageType: string, additional: seq<string>)
    requires pageType !in PageSpecificTable
    ensures PageKeywords(pageType, additional) == Join(SocialMediaKeywordList + additional, ", ")
  {
    PageKeywordsFlatten(pageType, additional);
    assert SocialMediaKeywordList + [] == SocialMediaKeywordList;
  }

  /** What `generatePageKeywords` gives as written: the keyword string, or the TypeError its spread throws. */
  datatype KeywordsOutcome = KeywordText(text: string) | SpreadThrows

  /**
   * `generatePageKeywords` as written: `pageSpecificKeywords[pageType]`
   * also sees the members every object inherits, and spreading one of them
   * (a function, or the prototype object) into the array throws.
   */
  function PageKeywordsAsWritten(pageType: string, additional: seq<string>): KeywordsOutcome
  {
    match ReadLiteral(if pageType in PageSpecificTable then Some(PageSpecificTable[pageType]) else None,
                      pageType, [])
    case Listed(pageList) => KeywordText(Join([SocialMediaKeywords()] + pageList + additional, ", "))
    case InheritedMember(_) => SpreadThrows
  }

  /** As written, the keywords throw exactly for an inherited page type and are `PageKeywords` otherwise. */
  lemma PageKeywordsAsWrittenDeparts(pageType: string, additional: seq<string>)
    ensures PageKeywordsAsWritten(pageType, additional) == SpreadThrows <==> pageType in InheritedNames
    ensures pageType !in InheritedNames ==>
            PageKeywordsAsWritten(pageType, additional) == KeywordText(PageKeywords(pageType, additional))
  {
    if pageType in InheritedNames {
      InheritedNotPageType(pageType);
    }
  }

  /** No page type of the table is a member every object inherits. */
  lemma InheritedNotPageType(k: string)
    requires k in InheritedNames
    ensures k !in PageSpecificTable
  {
    forall key | key in PageSpecificTable ensures key != k {
      if |key| == |k| {
        assert key[0] != k[0];
      }
    }
  }

  /** The page type "constructor" throws as written, where the table rule adds no page keywords. */
  lemma ConstructorPageKeywords(additional: seq<string>)
    ensures PageKeywordsAsWritten("constructor", additional) == SpreadThrows
    ensures PageKeywords("constructor", additional) == Join(SocialMediaKeywordList + additional, ", ")
  {
    PageKeywordsAsWrittenDeparts("constructor", additional);
    UnknownPageKeywords("constructor", additional);
  }

  lemma JoinFlatten(base: seq<string>, specific: seq<string>, additional: seq<string>)
    requires |base| > 0
    ensures Join([Join(base, ", ")] + specific + additional, ", ") == Join(base + specific + additional, ", ")
  {
    JoinAppend(base, specific + additional, ", ");
    assert [Join(base, ", ")] + specific + additional == [Join(base, ", ")] + (specific + additional);
    assert base + specific + additional == base + (specific + additional);
  }

  // ---------------------------------------------------------------- images, URLs, robots

  datatype ImageAttributes = ImageAttributes(src: Value, alt: Value, title: Value, loading: string, decoding: string)

  /** `optimizeImageForSEO(imageUrl, altText, title)`. */
  function OptimizeImage(imageUrl: Value, altText: Value, title: Value): (r: ImageAttributes)
    ensures r.src == imageUrl && r.loading == "lazy" && r.decoding == "async"
    ensures r.alt == if Truthy(altText) then altText else Str(DefaultTitle)
    ensures r.title == if Truthy(title) then title else Str("Muhammed Fuhad C Portfolio")
    ensures Truthy(r.alt) && Truthy(r.title)
  {
    ImageAttributes(imageUrl, Or(altText, Str(DefaultTitle)), Or(title, Str("Muhammed Fuhad C Portfolio")), "lazy", "async")
  }

  /** `generateCanonicalUrl(path)`. */
  function CanonicalUrl(path: string): (r: string)
    ensures StartsWith(r, BaseUrl + "/")
  {
    var p := if StartsWith(path, "/") then path else "/" + path;
    assert (BaseUrl + p)[..|BaseUrl| + 1] == BaseUrl + "/";
    BaseUrl + p
  }

  /** A leading slash changes nothing, and a path that has one is appended as is. */
  lemma CanonicalUrlSlash(path: string)
    ensures CanonicalUrl("/" + path) == BaseUrl + "/" + path
    ensures !StartsWith(path, "/") ==> CanonicalUrl(path) == CanonicalUrl("/" + path)
    ensures StartsWith(path, "/") ==> CanonicalUrl(path) == BaseUrl + path
  {
    assert StartsWith("/" + path, "/") by { assert ("/" + path)[..1] == "/"; }
  }

  /** The directives `generateMetaRobots` collects. */
  function RobotsDirectives(index: Value, follow: Value): seq<string>
  {
    [if Truthy(index) then "index" else "noindex", if Truthy(follow) then "follow" else "nofollow"]
  }

  /** `generateMetaRobots(index, follow)`: push one directive per flag, then join. */
  method MetaRobots(index: Value, follow: Value) returns (r: string)
    ensures r == Join(RobotsDirectives(index, follow), ", ")
  {
    var directives: seq<string> := [];
    if Truthy(index) {
      directives := directives + ["index"];
    } else {
      directives := directives + ["noindex"];
    }
    if Truthy(follow) {
      directives := directives + ["follow"];
    } else {
      directives := directives + ["nofollow"];
    }
    r := Join(directives, ", ");
  }

  /**
   * The robots string always splits back into exactly two directives,
   * index-ness first; with the defaults it is "index, follow".
   */
  lemma RobotsTwoDirectives(index: Value, follow: Value)
    ensures var ds := RobotsDirectives(index, follow);
      Split(Join(ds, ", "), ", ") == ds && |ds| == 2
      && (ds[0] == "index" <==> Truthy(index)) && (ds[1] == "follow" <==> Truthy(follow))
    ensures Join(RobotsDirectives(Bool(true), Bool(true)), ", ") == "index, follow"
  {
    var ds := RobotsDirectives(index, follow);
    assert ',' !in ds[0] && ',' !in ds[1];
    SplitJoin(ds, ", ");
  }

  datatype Hreflang = Hreflang(rel: string, hreflang: string, href: string)

  /** `generateHreflangTags(languages)`: one alternate per language, in order. */
  function HreflangTags(languages: seq<string>): (r: seq<Hreflang>)
    ensures |r| == |languages|
    ensures forall i :: 0 <= i < |languages| ==>
      r[i].rel == "alternate" && r[i].hreflang == languages[i] && r[i].href == BaseUrl + "?lang=" + languages[i]
  {
    seq(|languages|, i requires 0 <= i < |languages| => Hreflang("alternate", languages[i], BaseUrl + "?lang=" + languages[i]))
  }

  const DefaultLanguages: seq<string> := ["en-US", "en-IN"]
}
