/**
 * The site's SEO configuration: the default settings, the settings of each
 * page that override them, and the structured-data object built for a
 * schema.org type. The JSON text of the structured data is not modelled;
 * the object it is made from is.
 */
module SeoConfig {
  import opened Common
  import opened JsValue

  /** The settings every page starts from. */
  const DefaultSeo: Record := [
    ("title", Str("Muhammed Fuhad C (Fuad) - IoT & Embedded Systems Developer | Portfolio | Social Media Links")),
    ("description", Str("Muhammed Fuhad C (Fuad) - Professional IoT & Embedded Systems Developer. Specializing in Smart Agriculture, Healthcare Monitoring, Mobile Apps. View portfolio, projects, and connect on social media. Find me on Instagram, Facebook, LinkedIn, GitHub, Twitter, and ResearchGate.")),
    ("keywords", Str("fuad, fuhad, muhammed fuhad, fuhad c, muhammed fuhad c, iot developer, embedded systems developer, smart agriculture, healthcare monitoring, mobile app developer, flutter developer, python developer, arduino, raspberry pi, research, ieee, springer, kerala, india, portfolio, developer, software engineer, researcher, toyota industries, christ university, btech, computer science, engineering, instagram, facebook, linkedin, github, twitter, researchgate, social media, contact, hire, collaboration")),
    ("author", Str("Muhammed Fuhad C")),
    ("url", Str("https://muhammedfuhadc.dev")),
    ("image", Str("https://muhammedfuhadc.dev/og-image.jpg")),
    ("type", Str("website")),
    ("locale", Str("en_US")),
    ("siteName", Str("Muhammed Fuhad C Portfolio"))
  ]

  /** The `home` page's own settings. */
  const HomePage: Record := [
    ("title", Str("Muhammed Fuhad C (Fuad) - IoT & Embedded Systems Developer | Portfolio | Social Media")),
    ("description", Str("Muhammed Fuhad C (Fuad) - Professional IoT & Embedded Systems Developer. Specializing in Smart Agriculture, Healthcare Monitoring, Mobile Apps. View portfolio, projects, and connect on social media. Find me on Instagram, Facebook, LinkedIn, GitHub, Twitter, and ResearchGate.")),
    ("keywords", Str("fuad, fuhad, muhammed fuhad, fuhad c, muhammed fuhad c, iot developer, embedded systems developer, smart agriculture, healthcare monitoring, mobile app developer, flutter developer, python developer, arduino, raspberry pi, research, ieee, springer, kerala, india, portfolio, developer, software engineer, researcher, toyota industries, christ university, btech, computer science, engineering, instagram, facebook, linkedin, github, twitter, researchgate, social media, contact, hire, collaboration")),
    ("url", Str("/")),
    ("type", Str("website")),
    ("tags", Arr([Str("IoT"), Str("Embedded Systems"), Str("Research"), Str("Mobile Development"), Str("Smart Agriculture"), Str("Healthcare Monitoring"), Str("Social Media"), Str("Portfolio")]))
  ]

  /** The `about` page's own settings. */
  const AboutPage: Record := [
    ("title", Str("About Muhammed Fuhad C (Fuad) | IoT & Embedded Systems Developer | Social Media Links")),
    ("description", Str("Learn about Muhammed Fuhad C (Fuad), a passionate IoT and Embedded Systems developer specializing in smart agriculture, healthcare monitoring, and mobile applications. Based in Kerala, India. Connect on social media platforms.")),
    ("keywords", Str("fuad about, fuhad about, muhammed fuhad c about, IoT developer, Embedded Systems developer, Smart Agriculture, Healthcare Monitoring, Mobile App Developer, Kerala India, instagram, facebook, linkedin, github, twitter, researchgate, social media, contact")),
    ("url", Str("/about")),
    ("type", Str("article")),
    ("section", Str("About")),
    ("tags", Arr([Str("About"), Str("IoT Developer"), Str("Embedded Systems"), Str("Smart Agriculture"), Str("Healthcare Monitoring"), Str("Social Media"), Str("Contact")]))
  ]

  /** The `publications` page's own settings. */
  const PublicationsPage: Record := [
    ("title", Str("Research Publications - Muhammed Fuhad C (Fuad) | IEEE & Springer Papers | Academic Profile")),
    ("description", Str("Explore the research publications of Muhammed Fuhad C (Fuad), including IEEE and Springer conference papers on IoT, Smart Agriculture, Healthcare Monitoring, and Embedded Systems. Connect on ResearchGate and other academic platforms.")),
    ("keywords", Str("fuad publications, fuhad publications, muhammed fuhad c publications, IEEE papers, Springer papers, IoT research, Smart Agriculture research, Healthcare Monitoring, Embedded Systems research, academic papers, researchgate, academic profile, researcher")),
    ("url", Str("/publications")),
    ("type", Str("article")),
    ("section", Str("Research")),
    ("tags", Arr([Str("Research"), Str("Publications"), Str("IEEE"), Str("Springer"), Str("IoT"), Str("Smart Agriculture"), Str("Healthcare Monitoring"), Str("Academic"), Str("ResearchGate")]))
  ]

  /** The `projects` page's own settings. */
  const ProjectsPage: Record := [
    ("title", Str("Projects - Muhammed Fuhad C (Fuad) | IoT, Mobile Apps & Web Development | Portfolio")),
    ("description", Str("Explore the portfolio of projects by Muhammed Fuhad C (Fuad) including IoT solutions, mobile applications, web development, and smart agriculture systems. View code on GitHub and connect for collaborations.")),
    ("keywords", Str("fuad projects, fuhad projects, muhammed fuhad c projects, IoT projects, mobile app development, web development, smart agriculture, healthcare monitoring, Flutter apps, React projects, github, portfolio, developer, collaboration")),
    ("url", Str("/projects")),
    ("type", Str("article")),
    ("section", Str("Portfolio")),
    ("tags", Arr([Str("Projects"), Str("IoT"), Str("Mobile Apps"), Str("Web Development"), Str("Smart Agriculture"), Str("Healthcare Monitoring"), Str("GitHub"), Str("Portfolio"), Str("Collaboration")]))
  ]

  /** The `skills` page's own settings. */
  const SkillsPage: Record := [
    ("title", Str("Skills & Technologies - Muhammed Fuhad C (Fuad) | IoT & Development Expertise | Technical Profile")),
    ("description", Str("Comprehensive overview of technical skills and technologies mastered by Muhammed Fuhad C (Fuad) including IoT, Embedded Systems, Mobile Development, and Research methodologies. Connect for technical discussions.")),
    ("keywords", Str("fuad skills, fuhad skills, muhammed fuhad c skills, IoT skills, Embedded Systems skills, Mobile Development, Flutter, Python, Arduino, Raspberry Pi, Research skills, technical profile, developer skills, programming")),
    ("url", Str("/skills")),
    ("type", Str("article")),
    ("section", Str("Skills")),
    ("tags", Arr([Str("Skills"), Str("Technologies"), Str("IoT"), Str("Embedded Systems"), Str("Mobile Development"), Str("Programming"), Str("Technical"), Str("Developer")]))
  ]

  /** The `experience` page's own settings. */
  const ExperiencePage: Record := [
    ("title", Str("Professional Experience - Muhammed Fuhad C (Fuad) | Software Engineer & Researcher | Career")),
    ("description", Str("Professional experience and career journey of Muhammed Fuhad C (Fuad) including software engineering roles, research positions, and academic achievements. Connect on LinkedIn for professional networking.")),
    ("keywords", Str("fuad experience, fuhad experience, muhammed fuhad c experience, Software Engineer, Research experience, Toyota Industries, academic achievements, professional career, linkedin, career, professional, networking")),
    ("url", Str("/experience")),
    ("type", Str("article")),
    ("section", Str("Experience")),
    ("tags", Arr([Str("Experience"), Str("Career"), Str("Software Engineer"), Str("Research"), Str("Professional"), Str("LinkedIn"), Str("Networking")]))
  ]

  /** The `achievements` page's own settings. */
  const AchievementsPage: Record := [
    ("title", Str("Achievements & Awards - Muhammed Fuhad C (Fuad) | Academic & Professional Recognition")),
    ("description", Str("Academic achievements, professional awards, certifications, and recognition received by Muhammed Fuhad C (Fuad) in IoT, Embedded Systems, and Research domains. Connect to learn more about accomplishments.")),
    ("keywords", Str("fuad achievements, fuhad achievements, muhammed fuhad c achievements, awards, certifications, academic recognition, professional awards, IoT achievements, accomplishments, recognition, connect")),
    ("url", Str("/achievements")),
    ("type", Str("article")),
    ("section", Str("Achievements")),
    ("tags", Arr([Str("Achievements"), Str("Awards"), Str("Certifications"), Str("Recognition"), Str("Academic"), Str("Professional"), Str("Accomplishments")]))
  ]

  /** The `contact` page's own settings. */
  const ContactPage: Record := [
    ("title", Str("Contact Muhammed Fuhad C (Fuad) | Get In Touch for IoT & Development Projects | Social Media")),
    ("description", Str("Get in touch with Muhammed Fuhad C (Fuad) for IoT projects, Embedded Systems development, mobile app development, and research collaborations. Find all social media links and contact information.")),
    ("keywords", Str("contact fuad, contact fuhad, contact muhammed fuhad c, IoT projects, Embedded Systems development, mobile app development, research collaboration, hire developer, instagram, facebook, linkedin, github, twitter, researchgate, social media, contact, collaboration, hire")),
    ("url", Str("/contact")),
    ("type", Str("article")),
    ("section", Str("Contact")),
    ("tags", Arr([Str("Contact"), Str("Hire"), Str("Collaboration"), Str("IoT Projects"), Str("Development Services"), Str("Social Media"), Str("Instagram"), Str("Facebook"), Str("LinkedIn"), Str("GitHub"), Str("Twitter"), Str("ResearchGate")]))
  ]

  /** The pages that have settings of their own. */
  const PageNames: set<string> :=
    {"home", "about", "publications", "projects", "skills", "experience", "achievements", "contact"}

  /**
   * `...seoConfig.pages[pageName]`: the page's own settings. Any other name
   * finds nothing, or an inherited function, which spreads to nothing.
   */
  function PageSettings(pageName: string): (r: Record)
    ensures pageName !in PageNames ==> r == []
  {
    if pageName == "home" then HomePage
    else if pageName == "about" then AboutPage
    else if pageName == "publications" then PublicationsPage
    else if pageName == "projects" then ProjectsPage
    else if pageName == "skills" then SkillsPage
    else if pageName == "experience" then ExperiencePage
    else if pageName == "achievements" then AchievementsPage
    else if pageName == "contact" then ContactPage
    else []
  }

  /** `getSEOConfig`: the defaults, then the page's own settings over them. */
  function GetSEOConfig(pageName: string): (r: Record)
  {
    Merge(DefaultSeo, PageSettings(pageName))
  }

  /** A page's own settings: each key once, a url of its own, and nothing of the site identity. */
  predicate OwnSettings(page: Record)
  {
    KeysDistinct(page) && HasKey(page, "url")
    && !HasKey(page, "author") && !HasKey(page, "siteName") && !HasKey(page, "image") && !HasKey(page, "locale")
  }

  /** The keys of the home page's settings, and of every other page's. */
  const HomeKeys: seq<string> := ["title", "description", "keywords", "url", "type", "tags"]
  const SectionPageKeys: seq<string> := ["title", "description", "keywords", "url", "type", "section", "tags"]

  predicate OwnKeyList(ks: seq<string>)
  {
    Distinct(ks) && "url" in ks && "author" !in ks && "siteName" !in ks && "image" !in ks && "locale" !in ks
  }

  lemma PageKeysDistinct()
    ensures OwnKeyList(HomeKeys) && OwnKeyList(SectionPageKeys)
  {
    forall i | 0 <= i < 7 ensures SectionPageKeys[i][0] == "tdkutst"[i] && |SectionPageKeys[i]| == [5, 11, 8, 3, 4, 7, 4][i] {
    }
  }

  /** Settings stored under distinct keys that include a url and none of the site identity keys. */
  lemma OwnSettingsFromKeys(page: Record, ks: seq<string>)
    requires KeysOf(page) == ks && OwnKeyList(ks)
    ensures OwnSettings(page)
  {
    KeysDistinctOfKeysOf(page);
    HasKeyInKeysOf(page, "url");
    HasKeyInKeysOf(page, "author");
    HasKeyInKeysOf(page, "siteName");
    HasKeyInKeysOf(page, "image");
    HasKeyInKeysOf(page, "locale");
  }

  /** Every page's settings are well formed; a name without settings has none. */
  lemma PageWellFormed(pageName: string)
    ensures pageName in PageNames ==> OwnSettings(PageSettings(pageName))
    ensures pageName !in PageNames ==> PageSettings(pageName) == []
  {
    if pageName in PageNames {
      PageKeysDistinct();
      ListedPageKeys(pageName);
      var ks := if pageName == "home" then HomeKeys else SectionPageKeys;
      OwnSettingsFromKeys(PageSettings(pageName), ks);
    }
  }

  /** The home page stores its six keys, every other page the same seven, in the same order. */
  lemma ListedPageKeys(pageName: string)
    requires pageName in PageNames
    ensures KeysOf(PageSettings(pageName)) == if pageName == "home" then HomeKeys else SectionPageKeys
  {
    if pageName == "home" {
      assert KeysOf(HomePage) == HomeKeys;
    } else if pageName == "about" {
      assert KeysOf(AboutPage) == SectionPageKeys;
    } else if pageName == "publications" {
      assert KeysOf(PublicationsPage) == SectionPageKeys;
    } else if pageName == "projects" {
      assert KeysOf(ProjectsPage) == SectionPageKeys;
    } else if pageName == "skills" {
      assert KeysOf(SkillsPage) == SectionPageKeys;
    } else if pageName == "experience" {
      assert KeysOf(ExperiencePage) == SectionPageKeys;
    } else if pageName == "achievements" {
      assert KeysOf(AchievementsPage) == SectionPageKeys;
    } else {
      assert KeysOf(ContactPage) == SectionPageKeys;
    }
  }

  /** A key the page sets takes the page's value; every other key keeps the default. */
  lemma GetSEOConfigLookup(pageName: string, k: string)
    ensures Lookup(GetSEOConfig(pageName), k)
            == if HasKey(PageSettings(pageName), k) then Lookup(PageSettings(pageName), k) else Lookup(DefaultSeo, k)
    ensures HasKey(GetSEOConfig(pageName), k) <==> HasKey(DefaultSeo, k) || HasKey(PageSettings(pageName), k)
  {
    PageWellFormed(pageName);
    LookupMerge(DefaultSeo, PageSettings(pageName), k);
    MergeHasKey(DefaultSeo, PageSettings(pageName), k);
  }

  /** A page without settings of its own gets exactly the defaults. */
  lemma UnknownPageIsDefault(pageName: string)
    requires pageName !in PageNames
    ensures GetSEOConfig(pageName) == DefaultSeo
  {
  }

  /** No page sets the author, site name, image or locale, so every page shows the site's own. */
  lemma SiteIdentityFromDefaults(pageName: string, k: string)
    requires k in {"author", "siteName", "image", "locale"}
    ensures Lookup(GetSEOConfig(pageName), k) == Lookup(DefaultSeo, k)
  {
    PageWellFormed(pageName);
    GetSEOConfigLookup(pageName, k);
  }

  /** Every page's own url replaces the site's. */
  lemma PageUrlOverrides(pageName: string)
    requires pageName in PageNames
    ensures Lookup(GetSEOConfig(pageName), "url") == Lookup(PageSettings(pageName), "url")
  {
    PageWellFormed(pageName);
    GetSEOConfigLookup(pageName, "url");
  }

  // ------------------------------------------------------------ structured data

  const SchemaContext := Str("https://schema.org")

  /** The object `generateStructuredData` serialises: context and type first, then `data` spread over them. */
  function StructuredData(schemaType: Value, data: Value): (r: Record)
  {
    Merge([("@context", SchemaContext), ("@type", schemaType)], Spread(data))
  }

  /** A key of `data` wins, even "@context" or "@type"; otherwise the context and type are set. */
  lemma StructuredDataLookup(schemaType: Value, data: Record, k: string)
    requires KeysDistinct(data)
    ensures Lookup(StructuredData(schemaType, Obj(data)), k)
            == if HasKey(data, k) then Lookup(data, k)
               else if k == "@context" then SchemaContext
               else if k == "@type" then schemaType
               else Undefined
  {
    LookupMerge([("@context", SchemaContext), ("@type", schemaType)], data, k);
  }

  /** Without data, the object holds exactly the context and the type. */
  lemma StructuredDataWithoutData(schemaType: Value)
    ensures StructuredData(schemaType, Undefined) == [("@context", SchemaContext), ("@type", schemaType)]
  {
  }
}
