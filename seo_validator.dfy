/**
 * The SEO validator: rule lists over a page's SEO configuration and its
 * structured data that sort their findings into errors and warnings, the
 * common-issue check, the site report with its score and grade, and the
 * meta-tag length windows.
 *
 * A configuration is a plain object (a `Record`); its fields are read with
 * `obj[k]`, so a field that is absent reads as undefined. A call that the
 * source would abort with a TypeError (calling `split` on a number, say)
 * yields `None`.
 */
module SeoValidator {
  import opened Common
  import opened JsValue

  datatype Validation = Validation(errors: seq<string>, warnings: seq<string>)

  function MissingMessage(field: string, pageName: string): string
  {
    "Missing " + field + " for " + pageName
  }

  /** Different field names give different "Missing ..." messages. */
  lemma MissingMessageInjective(a: string, b: string, pageName: string)
    requires MissingMessage(a, pageName) == MissingMessage(b, pageName)
    ensures a == b
  {
    var m := MissingMessage(a, pageName);
    assert |a| == |b|;
    assert a == m[8..8 + |a|];
    assert b == MissingMessage(b, pageName)[8..8 + |b|];
  }

  /** `v.length > max`, as JavaScript compares it. */
  predicate LongerThan(v: Value, max: int)
  {
    LessThan(Num(max), LengthProp(v))
  }

  function TooLongMessage(what: string, pageName: string, v: Value): string
  {
    what + " too long for " + pageName + ": " + ToJsString(LengthProp(v)) + " characters"
  }

  // ------------------------------------------------------------- validatePageSEO

  /** The error rules of `validatePageSEO`: a missing title, description or URL. */
  function PageErrorList(pageName: string, cfg: Record): seq<string>
  {
    When(!Truthy(Lookup(cfg, "title")), MissingMessage("title", pageName))
      + When(!Truthy(Lookup(cfg, "description")), MissingMessage("description", pageName))
      + When(!Truthy(Lookup(cfg, "url")), MissingMessage("URL", pageName))
  }

  /** `seoConfig.tags` is missing or has length 0. */
  predicate TagsMissing(tags: Value)
  {
    !Truthy(tags) || LengthProp(tags) == Num(0)
  }

  /** The two "too long" rules of `validatePageSEO`. */
  function LengthWarnings(pageName: string, title: Value, description: Value): seq<string>
  {
    When(Truthy(title) && LongerThan(title, 60), TooLongMessage("Title", pageName, title))
      + When(Truthy(description) && LongerThan(description, 160),
             TooLongMessage("Description", pageName, description))
  }

  /** The three "missing" warning rules of `validatePageSEO`. */
  function MissingWarnings(pageName: string, keywords: Value, pageType: Value, tags: Value): seq<string>
  {
    When(!Truthy(keywords), MissingMessage("keywords", pageName))
      + When(!Truthy(pageType), MissingMessage("type", pageName))
      + When(TagsMissing(tags), MissingMessage("tags", pageName))
  }

  /** The warning rules of `validatePageSEO`, in the order it applies them. */
  function PageWarningList(pageName: string, cfg: Record): seq<string>
  {
    LengthWarnings(pageName, Lookup(cfg, "title"), Lookup(cfg, "description"))
      + MissingWarnings(pageName, Lookup(cfg, "keywords"), Lookup(cfg, "type"), Lookup(cfg, "tags"))
  }

  /** `validatePageSEO(pageName, seoConfig)`: pushes onto `errors` and `warnings` rule by rule. */
  method ValidatePageSeo(pageName: string, cfg: Record) returns (r: Validation)
    ensures r == Validation(PageErrorList(pageName, cfg), PageWarningList(pageName, cfg))
  {
    var errors: seq<string> := [];
    var warnings: seq<string> := [];
    var title := Lookup(cfg, "title");
    ghost var mt, lt := MissingMessage("title", pageName), TooLongMessage("Title", pageName, title);
    if !Truthy(title) {
      errors := errors + [MissingMessage("title", pageName)];
    } else if LongerThan(title, 60) {
      warnings := warnings + [TooLongMessage("Title", pageName, title)];
    }
    assert errors == When(!Truthy(title), mt);
    assert warnings == When(Truthy(title) && LongerThan(title, 60), lt);
    var description := Lookup(cfg, "description");
    ghost var e1, w1 := errors, warnings;
    ghost var md, ld := MissingMessage("description", pageName), TooLongMessage("Description", pageName, description);
    if !Truthy(description) {
      errors := errors + [MissingMessage("description", pageName)];
    } else if LongerThan(description, 160) {
      warnings := warnings + [TooLongMessage("Description", pageName, description)];
    }
    PushWhen(e1, !Truthy(description), md);
    PushWhen(w1, Truthy(description) && LongerThan(description, 160), ld);
    ghost var lw := warnings;
    var keywords := Lookup(cfg, "keywords");
    ghost var mk := MissingMessage("keywords", pageName);
    if !Truthy(keywords) {
      warnings := warnings + [MissingMessage("keywords", pageName)];
    }
    PushWhen(lw, !Truthy(keywords), mk);
    ghost var e2 := errors;
    ghost var mu := MissingMessage("URL", pageName);
    if !Truthy(Lookup(cfg, "url")) {
      errors := errors + [MissingMessage("URL", pageName)];
    }
    PushWhen(e2, !Truthy(Lookup(cfg, "url")), mu);
    assert errors == PageErrorList(pageName, cfg);
    var pageType := Lookup(cfg, "type");
    ghost var wk := warnings;
    ghost var my := MissingMessage("type", pageName);
    if !Truthy(pageType) {
      warnings := warnings + [MissingMessage("type", pageName)];
    }
    PushWhen(wk, !Truthy(pageType), my);
    var tags := Lookup(cfg, "tags");
    ghost var wt := warnings;
    ghost var mg := MissingMessage("tags", pageName);
    if TagsMissing(tags) {
      warnings := warnings + [MissingMessage("tags", pageName)];
    }
    PushWhen(wt, TagsMissing(tags), mg);
    ghost var a, b, c := When(!Truthy(keywords), mk), When(!Truthy(pageType), my), When(TagsMissing(tags), mg);
    ConcatAssoc(lw, a, b);
    ConcatAssoc(lw, a + b, c);
    assert warnings == PageWarningList(pageName, cfg);
    r := Validation(errors, warnings);
  }

  /**
   * The errors are exactly the missing title, description and URL: each
   * is reported if and only if its field is falsy, and nothing else is.
   */
  lemma PageErrors(pageName: string, cfg: Record)
    ensures var errs := PageErrorList(pageName, cfg);
      (MissingMessage("title", pageName) in errs <==> !Truthy(Lookup(cfg, "title")))
      && (MissingMessage("description", pageName) in errs <==> !Truthy(Lookup(cfg, "description")))
      && (MissingMessage("URL", pageName) in errs <==> !Truthy(Lookup(cfg, "url")))
      && forall m :: m in errs ==>
           m in [MissingMessage("title", pageName), MissingMessage("description", pageName),
                 MissingMessage("URL", pageName)]
  {
    var t := MissingMessage("title", pageName);
    var d := MissingMessage("description", pageName);
    var u := MissingMessage("URL", pageName);
    if t == d { MissingMessageInjective("title", "description", pageName); }
    if t == u { MissingMessageInjective("title", "URL", pageName); }
    if d == u { MissingMessageInjective("description", "URL", pageName); }
  }

  /**
   * Length and the optional fields never raise an error: two configurations
   * whose title, description and URL are equally present get the same errors,
   * however long the texts and whatever the keywords, type and tags.
   */
  lemma PageErrorsOnlyFromRequired(pageName: string, cfg: Record, other: Record)
    requires Truthy(Lookup(cfg, "title")) == Truthy(Lookup(other, "title"))
    requires Truthy(Lookup(cfg, "description")) == Truthy(Lookup(other, "description"))
    requires Truthy(Lookup(cfg, "url")) == Truthy(Lookup(other, "url"))
    ensures PageErrorList(pageName, cfg) == PageErrorList(pageName, other)
  {
  }

  /** For a string the "too long" message names its length in decimal. */
  lemma TooLongMessageOfString(what: string, pageName: string, text: string)
    ensures TooLongMessage(what, pageName, Str(text))
      == what + " too long for " + pageName + ": " + NatToString(|text|) + " characters"
  {
  }

  /**
   * A title string over 60 characters gets a "too long" warning, as does a
   * description over 160 characters; shorter texts get no length warning.
   */
  lemma PageLengthWarnings(pageName: string, title: string, description: string)
    ensures var lw := LengthWarnings(pageName, Str(title), Str(description));
      (|title| > 60 ==> TooLongMessage("Title", pageName, Str(title)) in lw)
      && (|description| > 160 ==> TooLongMessage("Description", pageName, Str(description)) in lw)
      && (|title| <= 60 && |description| <= 160 ==> lw == [])
  {
    assert LongerThan(Str(title), 60) <==> |title| > 60;
    assert LongerThan(Str(description), 160) <==> |description| > 160;
  }

  /** Missing keywords, type or tags are warned about exactly when missing (or, for tags, empty). */
  lemma PageMissingWarnings(pageName: string, cfg: Record)
    ensures var warns := PageWarningList(pageName, cfg);
      (MissingMessage("keywords", pageName) in warns <==> !Truthy(Lookup(cfg, "keywords")))
      && (MissingMessage("type", pageName) in warns <==> !Truthy(Lookup(cfg, "type")))
      && (MissingMessage("tags", pageName) in warns <==> TagsMissing(Lookup(cfg, "tags")))
  {
    var lw := LengthWarnings(pageName, Lookup(cfg, "title"), Lookup(cfg, "description"));
    var k := MissingMessage("keywords", pageName);
    var ty := MissingMessage("type", pageName);
    var tg := MissingMessage("tags", pageName);
    forall m | m in lw ensures m[0] != 'M' {
    }
    assert k[0] == 'M' && ty[0] == 'M' && tg[0] == 'M';
    if k == ty { MissingMessageInjective("keywords", "type", pageName); }
    if k == tg { MissingMessageInjective("keywords", "tags", pageName); }
    if ty == tg { MissingMessageInjective("type", "tags", pageName); }
  }

  // ------------------------------------------------------------- validateStructuredData

  const NoStructuredData := "No structured data provided"

  function MissingInData(field: string): string
  {
    "Missing " + field + " in structured data"
  }

  lemma MissingInDataInjective(a: string, b: string)
    requires MissingInData(a) == MissingInData(b)
    ensures a == b
  {
    assert |a| == |b|;
    assert a == MissingInData(a)[8..8 + |a|];
    assert b == MissingInData(b)[8..8 + |b|];
  }

  /** The error rules of `validateStructuredData`: a missing `@context` or `@type`. */
  function DataErrors(context: Value, schemaType: Value): seq<string>
  {
    When(!Truthy(context), MissingInData("@context")) + When(!Truthy(schemaType), MissingInData("@type"))
  }

  /** The warning rules of `validateStructuredData`. */
  function DataWarnings(headline: Value, description: Value, author: Value, publisher: Value): seq<string>
  {
    When(!Truthy(headline), MissingInData("headline"))
      + When(!Truthy(description), MissingInData("description"))
      + When(!Truthy(author), MissingInData("author"))
      + When(!Truthy(publisher), MissingInData("publisher"))
  }

  /** What `validateStructuredData` reports. */
  function StructuredDataOutcome(sd: Value): Validation
  {
    if !Truthy(sd) then Validation([], [NoStructuredData])
    else
      Validation(
        DataErrors(Property(sd, "@context"), Property(sd, "@type")),
        DataWarnings(Property(sd, "headline"), Property(sd, "description"),
                     Property(sd, "author"), Property(sd, "publisher")))
  }

  /** `validateStructuredData(structuredData)`: returns early on a falsy value. */
  method ValidateStructuredData(sd: Value) returns (r: Validation)
    ensures r == StructuredDataOutcome(sd)
    ensures !Truthy(sd) ==> r.errors == [] && r.warnings == [NoStructuredData]
  {
    var errors: seq<string> := [];
    var warnings: seq<string> := [];
    if !Truthy(sd) {
      warnings := warnings + [NoStructuredData];
      return Validation(errors, warnings);
    }
    var context := Property(sd, "@context");
    if !Truthy(context) {
      errors := errors + [MissingInData("@context")];
    }
    assert errors == When(!Truthy(context), MissingInData("@context"));
    ghost var e1 := errors;
    var schemaType := Property(sd, "@type");
    if !Truthy(schemaType) {
      errors := errors + [MissingInData("@type")];
    }
    assert errors == e1 + When(!Truthy(schemaType), MissingInData("@type"));
    var headline := Property(sd, "headline");
    if !Truthy(headline) {
      warnings := warnings + [MissingInData("headline")];
    }
    assert warnings == When(!Truthy(headline), MissingInData("headline"));
    ghost var w1 := warnings;
    var description := Property(sd, "description");
    if !Truthy(description) {
      warnings := warnings + [MissingInData("description")];
    }
    assert warnings == w1 + When(!Truthy(description), MissingInData("description"));
    ghost var w2 := warnings;
    var author := Property(sd, "author");
    if !Truthy(author) {
      warnings := warnings + [MissingInData("author")];
    }
    assert warnings == w2 + When(!Truthy(author), MissingInData("author"));
    ghost var w3 := warnings;
    var publisher := Property(sd, "publisher");
    if !Truthy(publisher) {
      warnings := warnings + [MissingInData("publisher")];
    }
    assert warnings == w3 + When(!Truthy(publisher), MissingInData("publisher"));
    r := Validation(errors, warnings);
  }

  /** The two error rules are independent: each is reported if and only if its field is falsy. */
  lemma StructuredDataErrors(context: Value, schemaType: Value)
    ensures var errs := DataErrors(context, schemaType);
      (MissingInData("@context") in errs <==> !Truthy(context))
      && (MissingInData("@type") in errs <==> !Truthy(schemaType))
      && (forall m :: m in errs ==> m == MissingInData("@context") || m == MissingInData("@type"))
      && |errs| <= 2
  {
    if MissingInData("@context") == MissingInData("@type") {
      MissingInDataInjective("@context", "@type");
    }
  }

  /**
   * A missing headline, description, author or publisher is warned about
   * if and only if it is falsy; these never show up among the errors.
   */
  lemma StructuredDataWarnings(headline: Value, description: Value, author: Value, publisher: Value,
                               context: Value, schemaType: Value)
    ensures var warns := DataWarnings(headline, description, author, publisher);
      var errs := DataErrors(context, schemaType);
      (MissingInData("headline") in warns <==> !Truthy(headline))
      && (MissingInData("description") in warns <==> !Truthy(description))
      && (MissingInData("author") in warns <==> !Truthy(author))
      && (MissingInData("publisher") in warns <==> !Truthy(publisher))
      && (forall m :: m in warns ==> m !in errs)
      && |warns| <= 4
  {
    MessagesDistinct();
    var h, d, a, p := MissingInData("headline"), MissingInData("description"),
                      MissingInData("author"), MissingInData("publisher");
    FourRules(!Truthy(headline), !Truthy(description), !Truthy(author), !Truthy(publisher), h, d, a, p);
    TwoRules(!Truthy(context), !Truthy(schemaType), MissingInData("@context"), MissingInData("@type"));
  }

  /** Four rules with different messages: each message appears exactly when its rule fires. */
  lemma FourRules(c1: bool, c2: bool, c3: bool, c4: bool, m1: string, m2: string, m3: string, m4: string)
    requires m1 != m2 && m1 != m3 && m1 != m4 && m2 != m3 && m2 != m4 && m3 != m4
    ensures var w := When(c1, m1) + When(c2, m2) + When(c3, m3) + When(c4, m4);
            (m1 in w <==> c1) && (m2 in w <==> c2) && (m3 in w <==> c3) && (m4 in w <==> c4)
            && (forall m :: m in w ==> m == m1 || m == m2 || m == m3 || m == m4)
            && |w| <= 4
  {
    var w1 := When(c1, m1);
    var w2 := w1 + When(c2, m2);
    var w3 := w2 + When(c3, m3);
    forall x ensures x in w3 + When(c4, m4) <==> (c1 && x == m1) || (c2 && x == m2) || (c3 && x == m3) || (c4 && x == m4) {
      InAfterWhen([], c1, m1, x);
      assert [] + w1 == w1;
      InAfterWhen(w1, c2, m2, x);
      InAfterWhen(w2, c3, m3, x);
      InAfterWhen(w3, c4, m4, x);
    }
  }

  lemma TwoRules(c1: bool, c2: bool, m1: string, m2: string)
    ensures forall m :: m in When(c1, m1) + When(c2, m2) ==> m == m1 || m == m2
  {
    forall x ensures x in When(c1, m1) + When(c2, m2) <==> (c1 && x == m1) || (c2 && x == m2) {
      InAfterWhen([], c1, m1, x);
      assert [] + When(c1, m1) == When(c1, m1);
      InAfterWhen(When(c1, m1), c2, m2, x);
    }
  }

  /** The six messages differ: four lengths are unique and the two of length 35 differ at index 8. */
  lemma MessagesDistinct()
    ensures var h, d, a, p := MissingInData("headline"), MissingInData("description"),
                              MissingInData("author"), MissingInData("publisher");
            var c, t := MissingInData("@context"), MissingInData("@type");
            h != d && h != a && h != p && d != a && d != p && a != p
            && h != c && h != t && d != c && d != t && a != c && a != t && p != c && p != t
  {
    assert |MissingInData("headline")| == 35 && |MissingInData("@context")| == 35;
    assert |MissingInData("description")| == 38 && |MissingInData("author")| == 33;
    assert |MissingInData("publisher")| == 36 && |MissingInData("@type")| == 32;
    assert MissingInData("headline")[8] == 'h' && MissingInData("@context")[8] == '@';
  }

  // ------------------------------------------------------------- generateReport

  /** The pages `generateReport` lists. */
  const ReportPages: seq<string> :=
    ["Home", "About", "Projects", "Skills", "Experience", "Achievements", "Publications", "Contact",
     "Certifications"]

  datatype PageDetail = PageDetail(hasSeo: bool, hasStructuredData: bool, errors: seq<string>, warnings: seq<string>)

  datatype Report = Report(
    totalPages: nat,
    pagesWithSeo: nat,
    pagesWithStructuredData: nat,
    totalErrors: nat,
    totalWarnings: nat,
    pageDetails: map<string, PageDetail>,
    overallScore: int,
    grade: string)

  /** `Math.round`: halves round up. */
  function Round(x: real): (r: int)
    ensures r as real <= x + 0.5 < r as real + 1.0
  {
    (x + 0.5).Floor
  }

  /** `Math.round(seo / total * 50 + structured / total * 50)`. */
  function Score(seo: nat, structured: nat, total: nat): int
    requires total > 0
  {
    Round((seo as real / total as real) * 50.0 + (structured as real / total as real) * 50.0)
  }

  /** A score out of 100: it never leaves 0..100, and full coverage gives exactly 100. */
  lemma ScoreRange(seo: nat, structured: nat, total: nat)
    requires 0 < total && seo <= total && structured <= total
    ensures 0 <= Score(seo, structured, total) <= 100
    ensures seo == total && structured == total ==> Score(seo, structured, total) == 100
  {
    var t := total as real;
    assert 0.0 <= seo as real / t <= 1.0 by {
      assert seo as real <= t;
    }
    assert 0.0 <= structured as real / t <= 1.0 by {
      assert structured as real <= t;
    }
    if seo == total && structured == total {
      assert seo as real / t == 1.0 && structured as real / t == 1.0;
    }
  }

  /** The letter grade for an overall score. */
  function Grade(score: int): (g: string)
    ensures g in ["A", "B", "C", "D", "F"]
  {
    if score >= 90 then "A"
    else if score >= 80 then "B"
    else if score >= 70 then "C"
    else if score >= 60 then "D"
    else "F"
  }

  /**
   * The grade bands: at least 90 is an A, 80..89 a B, 70..79 a C, 60..69 a D
   * and anything lower an F; a higher score never gets a worse letter.
   */
  lemma GradeBands(score: int, better: int)
    ensures Grade(score) == "A" <==> score >= 90
    ensures Grade(score) == "B" <==> 80 <= score < 90
    ensures Grade(score) == "C" <==> 70 <= score < 80
    ensures Grade(score) == "D" <==> 60 <= score < 70
    ensures Grade(score) == "F" <==> score < 60
    ensures score <= better ==> Grade(better)[0] <= Grade(score)[0]
  {
  }

  /**
   * `generateReport()`: records every listed page as having SEO and
   * structured data, counts them, and grades the resulting score.
   */
  method GenerateReport() returns (report: Report)
    ensures report.totalPages == |ReportPages| == 9
    ensures report.pagesWithSeo == report.pagesWithStructuredData == report.totalPages
    ensures report.totalErrors == 0 && report.totalWarnings == 0
    ensures report.pageDetails.Keys == set p | p in ReportPages
    ensures forall p :: p in report.pageDetails ==> report.pageDetails[p] == PageDetail(true, true, [], [])
    ensures report.overallScore == Score(report.pagesWithSeo, report.pagesWithStructuredData, report.totalPages)
    ensures report.grade == Grade(report.overallScore)
    ensures report.overallScore == 100 && report.grade == "A"
  {
    var pages := ReportPages;
    var details: map<string, PageDetail> := map[];
    var withSeo: nat := 0;
    var withStructuredData: nat := 0;
    for i := 0 to |pages|
      invariant withSeo == i && withStructuredData == i
      invariant details.Keys == set p | p in pages[..i]
      invariant forall p :: p in details ==> details[p] == PageDetail(true, true, [], [])
    {
      assert pages[..i + 1] == pages[..i] + [pages[i]];
      details := details[pages[i] := PageDetail(true, true, [], [])];
      withSeo := withSeo + 1;
      withStructuredData := withStructuredData + 1;
    }
    assert pages[..|pages|] == pages;
    var score := Score(withSeo, withStructuredData, |pages|);
    ScoreRange(withSeo, withStructuredData, |pages|);
    report := Report(|pages|, withSeo, withStructuredData, 0, 0, details, score, Grade(score));
  }

  // ------------------------------------------------------------- checkCommonIssues

  const IdenticalIssue := "Title and description are identical"
  const SocialIssue := "Consider adding social media optimization"
  const FewKeywordsIssue := "Consider adding more keywords for better discoverability"
  const SpamIssue := "Too many keywords may be considered spam"

  /** `keywords.split(',').length` for a keyword string. */
  function KeywordCount(keywords: string): (n: nat)
    ensures n >= 1
  {
    |Split(keywords, ",")|
  }

  /**
   * What `checkCommonIssues(seoConfig)` returns; `None` when it throws,
   * because truthy tags have no `includes` or truthy keywords no `split`.
   */
  function CommonIssues(cfg: Record): Option<seq<string>>
  {
    var title := Lookup(cfg, "title");
    var tags := Lookup(cfg, "tags");
    var keywords := Lookup(cfg, "keywords");
    if Truthy(tags) && Includes(tags, "Social Media").None? then None
    else if Truthy(keywords) && !keywords.Str? then None
    else
      var count := if keywords.Str? then KeywordCount(keywords.s) else 0;
      Some(When(Truthy(title) && title == Lookup(cfg, "description"), IdenticalIssue)
        + When(!Truthy(tags) || Includes(tags, "Social Media") == Some(false), SocialIssue)
        + When(Truthy(keywords) && count < 5, FewKeywordsIssue)
        + When(Truthy(keywords) && count > 20, SpamIssue))
  }

  /** `checkCommonIssues(seoConfig)`: pushes each issue it finds onto `issues`. */
  method CheckCommonIssues(cfg: Record) returns (r: Option<seq<string>>)
    ensures r == CommonIssues(cfg)
  {
    var issues: seq<string> := [];
    var title := Lookup(cfg, "title");
    if Truthy(title) && title == Lookup(cfg, "description") {
      issues := issues + [IdenticalIssue];
    }
    ghost var i1 := issues;
    assert i1 == When(Truthy(title) && title == Lookup(cfg, "description"), IdenticalIssue);
    var tags := Lookup(cfg, "tags");
    if !Truthy(tags) {
      issues := issues + [SocialIssue];
    } else {
      var includes := Includes(tags, "Social Media");
      if includes.None? {
        assert CommonIssues(cfg) == None;
        return None;
      }
      if !includes.value {
        issues := issues + [SocialIssue];
      }
    }
    assert issues == i1 + When(!Truthy(tags) || Includes(tags, "Social Media") == Some(false), SocialIssue);
    ghost var i2 := issues;
    var keywords := Lookup(cfg, "keywords");
    ghost var count := if keywords.Str? then KeywordCount(keywords.s) else 0;
    if Truthy(keywords) {
      if !keywords.Str? {
        assert CommonIssues(cfg) == None;
        return None;
      }
      var keywordCount := KeywordCount(keywords.s);
      if keywordCount < 5 {
        issues := issues + [FewKeywordsIssue];
      }
      assert issues == i2 + When(keywordCount < 5, FewKeywordsIssue);
      ghost var i3 := issues;
      if keywordCount > 20 {
        issues := issues + [SpamIssue];
      }
      assert issues == i3 + When(keywordCount > 20, SpamIssue);
      assert count == keywordCount;
    }
    assert issues == i2 + When(Truthy(keywords) && count < 5, FewKeywordsIssue)
                        + When(Truthy(keywords) && count > 20, SpamIssue);
    assert Some(issues) == CommonIssues(cfg);
    r := Some(issues);
  }

  /**
   * The check throws exactly for truthy tags that are neither a string nor
   * an array, or truthy keywords that are not a string. Otherwise an
   * identical title and description is flagged, social media is suggested
   * unless the tags include it, the comma-separated keyword count below 5
   * and above 20 are flagged, and those two never both.
   */
  lemma CommonIssuesRules(cfg: Record)
    ensures var tags := Lookup(cfg, "tags");
      var keywords := Lookup(cfg, "keywords");
      CommonIssues(cfg).None? <==>
        (Truthy(tags) && !tags.Str? && !tags.Arr?) || (Truthy(keywords) && !keywords.Str?)
    ensures CommonIssues(cfg).Some? ==>
      var issues := CommonIssues(cfg).value;
      var title := Lookup(cfg, "title");
      var tags := Lookup(cfg, "tags");
      var keywords := Lookup(cfg, "keywords");
      (IdenticalIssue in issues <==> Truthy(title) && title == Lookup(cfg, "description"))
      && (tags.Arr? ==> (SocialIssue in issues <==> Str("Social Media") !in tags.elems))
      && (keywords.Str? && keywords.s != "" ==>
            (FewKeywordsIssue in issues <==> KeywordCount(keywords.s) < 5)
            && (SpamIssue in issues <==> KeywordCount(keywords.s) > 20))
      && !(FewKeywordsIssue in issues && SpamIssue in issues)
  {
    assert IdenticalIssue[0] == 'T' && SocialIssue[0] == 'C' && FewKeywordsIssue[0] == 'C' && SpamIssue[0] == 'T';
    assert |IdenticalIssue| != |SpamIssue| && |SocialIssue| != |FewKeywordsIssue|;
  }

  // ------------------------------------------------------------- validateMetaTags

  /** The presence, length and optimal-window verdict for a text field. */
  datatype TextCheck = TextCheck(present: bool, length: Value, optimal: bool)

  datatype KeywordCheck = KeywordCheck(present: bool, count: nat, optimal: bool)

  datatype UrlCheck = UrlCheck(present: bool, valid: bool)

  datatype MetaTagReport = MetaTagReport(title: TextCheck, description: TextCheck, keywords: KeywordCheck, url: UrlCheck)

  /** `{ present: !!v, length: v ? v.length : 0, optimal: v ? v.length >= lo && v.length <= hi : false }`. */
  function TextWindow(v: Value, lo: int, hi: int): TextCheck
  {
    var len := LengthProp(v);
    TextCheck(Truthy(v), if Truthy(v) then len else Num(0),
              Truthy(v) && LessEq(Num(lo), len) && LessEq(len, Num(hi)))
  }

  /** `validateMetaTags(seoConfig)`; `None` when truthy keywords or URL are not strings (a TypeError). */
  function MetaTags(cfg: Record): Option<MetaTagReport>
  {
    var keywords := Lookup(cfg, "keywords");
    var url := Lookup(cfg, "url");
    if (Truthy(keywords) && !keywords.Str?) || (Truthy(url) && !url.Str?) then None
    else
      var count := if Truthy(keywords) then KeywordCount(keywords.s) else 0;
      Some(MetaTagReport(
        TextWindow(Lookup(cfg, "title"), 30, 60),
        TextWindow(Lookup(cfg, "description"), 120, 160),
        KeywordCheck(Truthy(keywords), count, Truthy(keywords) && 5 <= count <= 15),
        UrlCheck(Truthy(url), Truthy(url) && StartsWith(url.s, "/"))))
  }

  /**
   * For string fields: each is present if and only if it is non-empty; the
   * title is optimal if and only if it has 30..60 characters, the
   * description 120..160, the keywords 5..15 comma-separated pieces, and the
   * URL is valid if and only if it starts with "/".
   */
  lemma MetaTagWindows(cfg: Record, title: string, description: string, keywords: string, url: string)
    requires Lookup(cfg, "title") == Str(title) && Lookup(cfg, "description") == Str(description)
    requires Lookup(cfg, "keywords") == Str(keywords) && Lookup(cfg, "url") == Str(url)
    ensures MetaTags(cfg).Some?
    ensures var m := MetaTags(cfg).value;
      (m.title.present <==> title != "") && (m.title.optimal <==> 30 <= |title| <= 60)
      && (m.title.present ==> m.title.length == Num(|title|))
      && (m.description.present <==> description != "")
      && (m.description.optimal <==> 120 <= |description| <= 160)
      && (m.keywords.present <==> keywords != "")
      && (m.keywords.optimal <==> keywords != "" && 5 <= |Split(keywords, ",")| <= 15)
      && (m.url.valid <==> url != "" && StartsWith(url, "/"))
  {
  }
}
