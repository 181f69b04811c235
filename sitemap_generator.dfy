/**
 * The sitemap generator: the XML sitemap built page by page (with image
 * blocks for the pages that carry images), the structured-data templates
 * with their website fallback, the meta-tag defaults, and the length
 * check on SEO data.
 *
 * The current time is a parameter: `now` is what `new Date().toISOString()`
 * would return.
 */
module SitemapGenerator {
  import opened Common
  import opened JsValue

  const BaseUrl: string := "https://www.mfuhad.xyz"
  const SiteOwner: string := "Muhammed Fuhad C"

  // ------------------------------------------------------------- generateSitemap

  datatype Image = Image(loc: string, title: string, caption: string)

  /** One page of the sitemap; `images` is `None` where the page has no `images` property. */
  datatype SitemapPage = SitemapPage(url: string, lastmod: string, changefreq: string, priority: string,
                                     images: Option<seq<Image>>)

  /** `new Date().toISOString().split('T')[0]`: the date part of the timestamp. */
  function DatePart(now: string): string
  {
    Split(now, "T")[0]
  }

  /** The pages `generateSitemap` lists: only the home page carries an image. */
  function SitemapPages(now: string): (pages: seq<SitemapPage>)
    ensures |pages| == 8
  {
    var d := DatePart(now);
    [ SitemapPage("/", d, "weekly", "1.0",
        Some([Image(BaseUrl + "/og-image.jpg", "Muhammed Fuhad C - IoT & Embedded Systems Portfolio",
                    "Professional portfolio showcasing IoT, Embedded Systems, and Research work")])),
      SitemapPage("/about", d, "monthly", "0.8", None),
      SitemapPage("/experience", d, "monthly", "0.8", None),
      SitemapPage("/publications", d, "monthly", "0.9", None),
      SitemapPage("/projects", d, "weekly", "0.9", None),
      SitemapPage("/skills", d, "monthly", "0.7", None),
      SitemapPage("/achievements", d, "monthly", "0.7", None),
      SitemapPage("/contact", d, "monthly", "0.6", None) ]
  }

  /** The opening of a page's `<url>` element, up to its priority. */
  function UrlHeader(page: SitemapPage): string
  {
    "  <url>\n    <loc>" + BaseUrl + page.url + "</loc>\n    <lastmod>" + page.lastmod
      + "</lastmod>\n    <changefreq>" + page.changefreq + "</changefreq>\n    <priority>"
      + page.priority + "</priority>"
  }

  function ImageBlock(image: Image): string
  {
    "\n    <image:image>\n      <image:loc>" + image.loc + "</image:loc>\n      <image:title>" + image.title
      + "</image:title>\n      <image:caption>" + image.caption + "</image:caption>\n    </image:image>"
  }

  /** The image blocks of a page, one per image, in order. */
  function ImageBlocks(images: seq<Image>): string
    decreases |images|
  {
    if images == [] then "" else ImageBlocks(images[..|images| - 1]) + ImageBlock(images[|images| - 1])
  }

  /** No images, no image blocks; every image adds its own block. */
  lemma {:induction false} ImageBlocksEmpty(images: seq<Image>)
    ensures ImageBlocks(images) == "" <==> images == []
    ensures |ImageBlocks(images)| >= |images|
    decreases |images|
  {
    if images != [] {
      ImageBlocksEmpty(images[..|images| - 1]);
    }
  }

  /** The text `generateSitemap` produces for one page. */
  function UrlEntryText(page: SitemapPage): string
  {
    UrlHeader(page) + (if page.images.Some? then ImageBlocks(page.images.value) else "") + "\n  </url>"
  }

  /** One `pages.map` step: the header, then `+=` per image, then the closing tag. */
  method UrlEntry(page: SitemapPage) returns (entry: string)
    ensures entry == UrlEntryText(page)
  {
    ghost var header := UrlHeader(page);
    entry := UrlHeader(page);
    if page.images.Some? {
      var images := page.images.value;
      for i := 0 to |images|
        invariant entry == header + ImageBlocks(images[..i])
      {
        PrefixStep(images, i);
        ConcatAssoc(header, ImageBlocks(images[..i]), ImageBlock(images[i]));
        entry := entry + ImageBlock(images[i]);
      }
      assert images[..|images|] == images;
    } else {
      assert entry == header + "";
    }
    entry := entry + "\n  </url>";
  }

  const XmlHead: string :=
    "<?xml version=\"1.0\" encoding=\"UTF-8\"?>\n<urlset xmlns=\"http://www.sitemaps.org/schemas/sitemap/0.9\" \n"
    + "        xmlns:image=\"http://www.google.com/schemas/sitemap-image/1.1\"\n"
    + "        xmlns:news=\"http://www.google.com/schemas/sitemap-news/0.9\">\n"

  function SitemapEntries(pages: seq<SitemapPage>): (entries: seq<string>)
    ensures |entries| == |pages|
    ensures forall i :: 0 <= i < |pages| ==> entries[i] == UrlEntryText(pages[i])
  {
    seq(|pages|, i requires 0 <= i < |pages| => UrlEntryText(pages[i]))
  }

  lemma SitemapEntriesSnoc(pages: seq<SitemapPage>, i: nat)
    requires i < |pages|
    ensures SitemapEntries(pages[..i + 1]) == SitemapEntries(pages[..i]) + [UrlEntryText(pages[i])]
  {
    PrefixStep(pages, i);
  }

  /** The whole sitemap: the entries joined by newlines inside `<urlset>`. */
  function SitemapXml(now: string): string
  {
    XmlHead + Join(SitemapEntries(SitemapPages(now)), "\n") + "\n</urlset>"
  }

  /** `generateSitemap()`: maps each page to its entry and joins them. */
  method GenerateSitemap(now: string) returns (xml: string)
    ensures xml == SitemapXml(now)
  {
    var pages := SitemapPages(now);
    var entries: seq<string> := [];
    for i := 0 to |pages|
      invariant entries == SitemapEntries(pages[..i])
    {
      var entry := UrlEntry(pages[i]);
      SitemapEntriesSnoc(pages, i);
      entries := entries + [entry];
    }
    FullPrefix(pages);
    assert entries == SitemapEntries(pages);
    xml := XmlHead + Join(entries, "\n") + "\n</urlset>";
  }

  /**
   * One `<url>` entry per page, in page order, each opening with the page's
   * absolute location and closing its element, with image blocks exactly
   * when the page has a non-empty image list.
   */
  lemma SitemapEntriesShape(pages: seq<SitemapPage>)
    ensures var entries := SitemapEntries(pages);
      |entries| == |pages|
      && forall i :: 0 <= i < |pages| ==>
           StartsWith(entries[i], "  <url>\n    <loc>" + BaseUrl + pages[i].url + "</loc>")
           && (UrlEntryText(pages[i]) == UrlHeader(pages[i]) + "\n  </url>"
               <==> pages[i].images.None? || pages[i].images.value == [])
  {
    forall i | 0 <= i < |pages|
      ensures StartsWith(SitemapEntries(pages)[i], "  <url>\n    <loc>" + BaseUrl + pages[i].url + "</loc>")
      ensures UrlEntryText(pages[i]) == UrlHeader(pages[i]) + "\n  </url>"
              <==> pages[i].images.None? || pages[i].images.value == []
    {
      UrlEntryShape(pages[i]);
    }
  }

  /** One page's entry opens with its location and has image blocks exactly when it has images. */
  lemma UrlEntryShape(page: SitemapPage)
    ensures StartsWith(UrlEntryText(page), "  <url>\n    <loc>" + BaseUrl + page.url + "</loc>")
    ensures UrlEntryText(page) == UrlHeader(page) + "\n  </url>" <==> page.images.None? || page.images.value == []
  {
    var p := "  <url>\n    <loc>" + BaseUrl + page.url + "</loc>";
    var e := UrlEntryText(page);
    assert e == p + (e[|p|..]);
    var h := UrlHeader(page);
    if page.images.Some? {
      var blocks := ImageBlocks(page.images.value);
      ImageBlocksEmpty(page.images.value);
      if h + blocks + "\n  </url>" == h + "\n  </url>" {
        assert |blocks| == 0;
      }
    }
  }

  /** Of the listed pages only the home page "/" carries images. */
  lemma OnlyHomeHasImages(now: string)
    ensures var pages := SitemapPages(now);
      pages[0].url == "/" && pages[0].images.Some? && |pages[0].images.value| == 1
      && forall i :: 1 <= i < 8 ==> pages[i].images.None? && pages[i].url != "/"
  {
    var pages := SitemapPages(now);
    forall i | 1 <= i < 8 ensures pages[i].images.None? && pages[i].url != "/" {
      assert |pages[i].url| > 1;
    }
  }

  // ------------------------------------------------------------- generatePageStructuredData

  function Author(): Value
  {
    Obj([("@type", Str("Person")), ("name", Str(SiteOwner))])
  }

  function PersonTemplate(): (r: Value)
    ensures r.Obj?
  {
    Obj([
      ("@context", Str("https://schema.org")),
      ("@type", Str("Person")),
      ("name", Str(SiteOwner)),
      ("alternateName", Str("Fuhad C")),
      ("jobTitle", Str("IoT & Embedded Systems Enthusiast | Researcher | Developer")),
      ("description", Str("Passionate IoT and Embedded Systems enthusiast, researcher, and developer specializing in smart agriculture, healthcare monitoring, and mobile applications.")),
      ("url", Str(BaseUrl)),
      ("image", Str(BaseUrl + "/profile-image.jpg")),
      ("sameAs", Arr([
        Str("https://linkedin.com/in/fuhadc"),
        Str("https://github.com/fuhadc"),
        Str("https://www.researchgate.net/profile/Muhammed-Fuhad"),
        Str("https://www.instagram.com/_fuhad_c"),
        Str("https://x.com/_fuhad_c"),
        Str("https://www.facebook.com/fuhadcs3")])),
      ("address", Obj([
        ("@type", Str("PostalAddress")),
        ("addressLocality", Str("Kerala")),
        ("addressRegion", Str("Kerala")),
        ("addressCountry", Str("India"))])),
      ("email", Str("fuhadcs@icloud.com")),
      ("telephone", Str("+91-7306525489"))])
  }

  function WebsiteTemplate(now: string): (r: Value)
    ensures r.Obj?
  {
    Obj([
      ("@context", Str("https://schema.org")),
      ("@type", Str("WebSite")),
      ("name", Str("Muhammed Fuhad C Portfolio")),
      ("alternateName", Str("Fuhad C Portfolio")),
      ("url", Str(BaseUrl)),
      ("description", Str("Professional portfolio showcasing IoT, Embedded Systems, and Research work")),
      ("author", Author()),
      ("publisher", Author()),
      ("inLanguage", Str("en-US")),
      ("copyrightYear", Str("2024")),
      ("dateCreated", Str("2024-01-01")),
      ("dateModified", Str(DatePart(now)))])
  }

  /** `${baseUrl}${pageData.url || ''}`. */
  function PageUrl(pageData: Record): string
  {
    BaseUrl + ToJsString(Or(Lookup(pageData, "url"), Str("")))
  }

  /** The fields of the article template, with the parts taken from the page filled in. */
  function ArticleRecord(headline: Value, description: Value, published: Value, modified: Value,
                         url: string, image: Value): Record
  {
    ArticleFront(headline, description, published, modified)
      + [ ("url", Str(url)),
          ("image", image),
          ("mainEntityOfPage", Obj([("@type", Str("WebPage")), ("@id", Str(url))])) ]
  }

  function ArticleTemplate(pageData: Record, now: string): (r: Value)
    ensures r.Obj?
  {
    Obj(ArticleRecord(
      Or(Lookup(pageData, "title"), Str("Article Title")),
      Or(Lookup(pageData, "description"), Str("Article Description")),
      Or(Lookup(pageData, "publishedTime"), Str(now)),
      Or(Lookup(pageData, "modifiedTime"), Str(now)),
      PageUrl(pageData),
      Or(Lookup(pageData, "image"), Str(BaseUrl + "/og-image.jpg"))))
  }

  /** The `structuredDataTemplates` object. */
  function Templates(person: Value, website: Value, article: Value): Record
  {
    [("person", person), ("website", website), ("article", article)]
  }

  /** `structuredDataTemplates[pageType] || structuredDataTemplates.website`. */
  function SelectTemplate(pageType: string, templates: Record): Value
  {
    Or(Lookup(templates, pageType), Lookup(templates, "website"))
  }

  /** `generatePageStructuredData(pageType, pageData)`: the named template, else the website one. */
  function PageStructuredData(pageType: string, pageData: Record, now: string): Value
  {
    SelectTemplate(pageType, Templates(PersonTemplate(), WebsiteTemplate(now), ArticleTemplate(pageData, now)))
  }

  /** With object templates, each name selects its own and any other name the website one. */
  lemma SelectTemplateRule(pageType: string, person: Value, website: Value, article: Value)
    requires person.Obj? && website.Obj? && article.Obj?
    ensures var r := SelectTemplate(pageType, Templates(person, website, article));
      (pageType == "person" ==> r == person)
      && (pageType == "article" ==> r == article)
      && (pageType !in ["person", "article"] ==> r == website)
  {
    var t := Templates(person, website, article);
    var t1, t2 := t[1..], t[2..];
    assert t1[1..] == t2 && t2[1..] == [];
    assert t[0].0 == "person" && t1[0].0 == "website" && t2[0].0 == "article";
    assert Lookup(t1, "website") == website;
    assert Lookup(t, "website") == website;
    if pageType !in ["person", "website", "article"] {
      assert Lookup(t2, pageType) == Undefined;
      assert Lookup(t, pageType) == Undefined;
    }
    if pageType == "article" {
      assert Lookup(t2, "article") == article;
      assert Lookup(t1, "article") == article;
    }
  }

  /** The page type "person" selects the person template. */
  lemma PersonSelected(pageType: string, pageData: Record, now: string)
    ensures pageType == "person" ==> PageStructuredData(pageType, pageData, now) == PersonTemplate()
  {
    SelectTemplateRule(pageType, PersonTemplate(), WebsiteTemplate(now), ArticleTemplate(pageData, now));
  }

  /** The page type "article" selects the article template, filled in from the page. */
  lemma ArticleSelected(pageType: string, pageData: Record, now: string)
    ensures pageType == "article" ==> PageStructuredData(pageType, pageData, now) == ArticleTemplate(pageData, now)
  {
    SelectTemplateRule(pageType, PersonTemplate(), WebsiteTemplate(now), ArticleTemplate(pageData, now));
  }

  /** Any other page type, "website" included, falls back to the website template. */
  lemma WebsiteFallback(pageType: string, pageData: Record, now: string)
    ensures pageType !in ["person", "article"] ==> PageStructuredData(pageType, pageData, now) == WebsiteTemplate(now)
  {
    SelectTemplateRule(pageType, PersonTemplate(), WebsiteTemplate(now), ArticleTemplate(pageData, now));
  }

  /**
   * `generatePageStructuredData` as written: `structuredDataTemplates[pageType]`
   * also sees the members every object inherits, and every one of them is
   * truthy, so such a page type gets that member back instead of the website
   * template.
   */
  function PageStructuredDataAsWritten(pageType: string, pageData: Record, now: string): Found<Value>
  {
    var templates := Templates(PersonTemplate(), WebsiteTemplate(now), ArticleTemplate(pageData, now));
    LiteralOr(templates, pageType, Lookup(templates, "website"))
  }

  /** The three template names are the only keys of the template table. */
  lemma TemplateKeys(k: string, person: Value, website: Value, article: Value)
    ensures HasKey(Templates(person, website, article), k) <==> k in {"person", "website", "article"}
  {
    var t := Templates(person, website, article);
    var t1 := t[1..];
    var t2 := t1[1..];
    assert t2[1..] == [];
    assert HasKey(t2, k) <==> k == "article";
    assert HasKey(t1, k) <==> k == "website" || k == "article";
  }

  /** No inherited member is named like a template. */
  lemma InheritedNotTemplateName(k: string)
    requires k in InheritedNames
    ensures k !in {"person", "website", "article"}
  {
    if |k| == 7 {
      assert k[0] == 'v';
    }
  }

  /** As written, the structured data departs exactly for an inherited page type. */
  lemma PageStructuredDataAsWrittenDeparts(pageType: string, pageData: Record, now: string)
    ensures PageStructuredDataAsWritten(pageType, pageData, now).InheritedMember? <==> pageType in InheritedNames
    ensures pageType !in InheritedNames ==>
            PageStructuredDataAsWritten(pageType, pageData, now) == Listed(PageStructuredData(pageType, pageData, now))
  {
    TemplateKeys(pageType, PersonTemplate(), WebsiteTemplate(now), ArticleTemplate(pageData, now));
    if pageType in InheritedNames {
      InheritedNotTemplateName(pageType);
    }
  }

  /** The page type "toString" gets the inherited method as written, and the website template by the fallback. */
  lemma ToStringPageStructuredData(pageData: Record, now: string)
    ensures PageStructuredDataAsWritten("toString", pageData, now) == InheritedMember("toString")
    ensures PageStructuredData("toString", pageData, now) == WebsiteTemplate(now)
  {
    PageStructuredDataAsWrittenDeparts("toString", pageData, now);
    WebsiteFallback("toString", pageData, now);
  }

  /** The article fields before its `url`: none of them is named `url` or `mainEntityOfPage`. */
  function ArticleFront(headline: Value, description: Value, published: Value, modified: Value): Record
  {
    [ ("@context", Str("https://schema.org")),
      ("@type", Str("Article")),
      ("headline", headline),
      ("description", description),
      ("author", Author()),
      ("publisher", Author()),
      ("datePublished", published),
      ("dateModified", modified) ]
  }

  /** The article template has type "Article" and the given headline. */
  lemma ArticleHeadline(headline: Value, description: Value, published: Value, modified: Value)
    ensures var a := ArticleFront(headline, description, published, modified);
      Lookup(a, "@type") == Str("Article") && Lookup(a, "headline") == headline
  {
    var a := ArticleFront(headline, description, published, modified);
    var a1, a2 := a[1..], a[2..];
    assert a1[1..] == a2;
    assert a[0].0 == "@context" && a1[0].0 == "@type" && a2[0].0 == "headline";
    assert "@context"[0] != "headline"[0];
    assert Lookup(a2, "headline") == headline;
    assert Lookup(a1, "headline") == headline && Lookup(a1, "@type") == Str("Article");
  }

  lemma ArticleFrontKeys(headline: Value, description: Value, published: Value, modified: Value)
    ensures var a := ArticleFront(headline, description, published, modified);
      !HasKey(a, "url") && !HasKey(a, "mainEntityOfPage")
  {
    var a := ArticleFront(headline, description, published, modified);
    forall i | 0 <= i < |a| ensures a[i].0 != "url" && a[i].0 != "mainEntityOfPage" {
      assert |a[i].0| != 3 && |a[i].0| != 16;
    }
    NotHasKey(a, "url");
    NotHasKey(a, "mainEntityOfPage");
  }

  /** In the article template, `url` and `mainEntityOfPage["@id"]` are the same page URL. */
  lemma ArticleUrl(headline: Value, description: Value, published: Value, modified: Value,
                   url: string, image: Value)
    ensures var a := ArticleRecord(headline, description, published, modified, url, image);
      Lookup(a, "url") == Str(url) && Property(Lookup(a, "mainEntityOfPage"), "@id") == Str(url)
  {
    var front := ArticleFront(headline, description, published, modified);
    var main := Obj([("@type", Str("WebPage")), ("@id", Str(url))]);
    var back := [("url", Str(url)), ("image", image), ("mainEntityOfPage", main)];
    assert ArticleRecord(headline, description, published, modified, url, image) == front + back;
    ArticleFrontKeys(headline, description, published, modified);
    LookupAppend(front, back, "url");
    LookupAppend(front, back, "mainEntityOfPage");
    ArticleBackLookups(url, image, main);
    WebPageId(url);
  }

  /** The last three article fields: the url, the image and the page reference. */
  lemma ArticleBackLookups(url: string, image: Value, main: Value)
    ensures var back := [("url", Str(url)), ("image", image), ("mainEntityOfPage", main)];
      Lookup(back, "url") == Str(url) && Lookup(back, "mainEntityOfPage") == main
  {
    var back := [("url", Str(url)), ("image", image), ("mainEntityOfPage", main)];
    var b1, b2 := back[1..], back[2..];
    assert b1[1..] == b2 && b2 == [("mainEntityOfPage", main)];
    assert Lookup(b2, "mainEntityOfPage") == main;
    assert Lookup(b1, "mainEntityOfPage") == main;
  }

  lemma WebPageId(url: string)
    ensures Property(Obj([("@type", Str("WebPage")), ("@id", Str(url))]), "@id") == Str(url)
  {
    var fields := [("@type", Str("WebPage")), ("@id", Str(url))];
    assert fields[1..] == [("@id", Str(url))];
    assert Lookup(fields, "@id") == Str(url);
  }

  /** The page URL is the base URL followed by the page's `url`, or the bare base when it has none. */
  lemma PageUrlRule(pageData: Record, url: string)
    ensures StartsWith(PageUrl(pageData), BaseUrl)
    ensures !Truthy(Lookup(pageData, "url")) ==> PageUrl(pageData) == BaseUrl
    ensures Lookup(pageData, "url") == Str(url) ==> PageUrl(pageData) == BaseUrl + url
  {
    assert ToJsString(Str("")) == "";
    assert BaseUrl + "" == BaseUrl;
  }

  // ------------------------------------------------------------- seoUtils.generateMetaTags

  const DefaultTitle := "Muhammed Fuhad C - IoT & Embedded Systems Portfolio"
  const DefaultDescription :=
    "Professional portfolio of Muhammed Fuhad C showcasing IoT, Embedded Systems, and Research work"
  const DefaultKeywords :=
    "Muhammed Fuhad C, IoT, Embedded Systems, Smart Agriculture, Healthcare Monitoring, Mobile Apps, Research"

  datatype MetaTags = MetaTags(
    title: Value, description: Value, keywords: Value, image: Value, url: string, pageType: Value,
    author: string, publishedTime: Value, modifiedTime: Value, section: Value, tags: Value)

  /** `seoUtils.generateMetaTags(pageData)`. */
  function GenerateMetaTags(pageData: Record): (m: MetaTags)
    ensures StartsWith(m.url, BaseUrl)
    ensures m.author == SiteOwner
  {
    MetaTags(
      Or(Lookup(pageData, "title"), Str(DefaultTitle)),
      Or(Lookup(pageData, "description"), Str(DefaultDescription)),
      Or(Lookup(pageData, "keywords"), Str(DefaultKeywords)),
      Or(Lookup(pageData, "image"), Str(BaseUrl + "/og-image.jpg")),
      PageUrl(pageData),
      Or(Lookup(pageData, "type"), Str("website")),
      SiteOwner,
      Lookup(pageData, "publishedTime"),
      Lookup(pageData, "modifiedTime"),
      Lookup(pageData, "section"),
      Or(Lookup(pageData, "tags"), Arr([])))
  }

  /**
   * Supplied fields are kept and missing ones take their defaults: a
   * string URL is appended to the base, tags default to the empty list,
   * and the author is always the site owner.
   */
  lemma MetaTagsDefaults(pageData: Record, url: string)
    ensures GenerateMetaTags([]) == MetaTags(
      Str(DefaultTitle), Str(DefaultDescription), Str(DefaultKeywords), Str(BaseUrl + "/og-image.jpg"), BaseUrl,
      Str("website"), SiteOwner, Undefined, Undefined, Undefined, Arr([]))
    ensures Lookup(pageData, "url") == Str(url) ==> GenerateMetaTags(pageData).url == BaseUrl + url
    ensures !Truthy(Lookup(pageData, "tags")) ==> GenerateMetaTags(pageData).tags == Arr([])
    ensures Truthy(Lookup(pageData, "title")) ==> GenerateMetaTags(pageData).title == Lookup(pageData, "title")
  {
    assert ToJsString(Str("")) == "";
    assert BaseUrl + "" == BaseUrl;
  }

  // ------------------------------------------------------------- seoUtils.validateSEOData

  const TitleTooShort := "Title should be at least 30 characters long"
  const DescriptionTooShort := "Description should be at least 120 characters long"
  const TitleTooLong := "Title should be less than 60 characters for optimal display"
  const DescriptionTooLong := "Description should be less than 160 characters for optimal display"

  datatype SeoDataCheck = SeoDataCheck(isValid: bool, errors: seq<string>)

  /** The errors `validateSEOData` collects, in the order it checks them. */
  function SeoDataErrors(title: Value, description: Value): seq<string>
  {
    When(!Truthy(title) || LessThan(LengthProp(title), Num(30)), TitleTooShort)
      + When(!Truthy(description) || LessThan(LengthProp(description), Num(120)), DescriptionTooShort)
      + When(Truthy(title) && LessThan(Num(60), LengthProp(title)), TitleTooLong)
      + When(Truthy(description) && LessThan(Num(160), LengthProp(description)), DescriptionTooLong)
  }

  /** `seoUtils.validateSEOData(seoData)`: pushes each failed check, valid when none failed. */
  method ValidateSeoData(seoData: Record) returns (r: SeoDataCheck)
    ensures r.errors == SeoDataErrors(Lookup(seoData, "title"), Lookup(seoData, "description"))
    ensures r.isValid <==> r.errors == []
  {
    var errors: seq<string> := [];
    var title := Lookup(seoData, "title");
    var description := Lookup(seoData, "description");
    if !Truthy(title) || LessThan(LengthProp(title), Num(30)) {
      errors := errors + [TitleTooShort];
    }
    ghost var e1 := errors;
    if !Truthy(description) || LessThan(LengthProp(description), Num(120)) {
      errors := errors + [DescriptionTooShort];
    }
    assert errors == e1 + When(!Truthy(description) || LessThan(LengthProp(description), Num(120)), DescriptionTooShort);
    ghost var e2 := errors;
    if Truthy(title) && LessThan(Num(60), LengthProp(title)) {
      errors := errors + [TitleTooLong];
    }
    assert errors == e2 + When(Truthy(title) && LessThan(Num(60), LengthProp(title)), TitleTooLong);
    ghost var e3 := errors;
    if Truthy(description) && LessThan(Num(160), LengthProp(description)) {
      errors := errors + [DescriptionTooLong];
    }
    assert errors == e3 + When(Truthy(description) && LessThan(Num(160), LengthProp(description)), DescriptionTooLong);
    r := SeoDataCheck(|errors| == 0, errors);
  }

  /**
   * A missing title gets only the "at least 30" error, never the "less
   * than 60" one, and likewise for the description.
   */
  lemma MissingFieldsOnlyTooShort(title: Value, description: Value)
    ensures !Truthy(title) ==>
      TitleTooShort in SeoDataErrors(title, description) && TitleTooLong !in SeoDataErrors(title, description)
    ensures !Truthy(description) ==>
      DescriptionTooShort in SeoDataErrors(title, description)
      && DescriptionTooLong !in SeoDataErrors(title, description)
  {
    assert TitleTooLong != TitleTooShort && TitleTooLong != DescriptionTooShort && TitleTooLong != DescriptionTooLong;
    assert DescriptionTooLong != TitleTooShort && DescriptionTooLong != DescriptionTooShort;
  }

  /**
   * A title of 30..60 characters with a description of 120..160 gives no
   * error; with such a description, a title of 61 or more characters gives
   * exactly the "less than 60" error.
   */
  lemma SeoDataWindows(title: string, description: string)
    requires 120 <= |description| <= 160
    ensures 30 <= |title| <= 60 ==> SeoDataErrors(Str(title), Str(description)) == []
    ensures |title| > 60 ==> SeoDataErrors(Str(title), Str(description)) == [TitleTooLong]
  {
  }
}
