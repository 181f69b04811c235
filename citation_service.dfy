/**
 * The citation service of the publications page: author-name formatting in
 * APA, IEEE and Chicago style, the four citation builders and their
 * dispatch, export, the 24-hour staleness rule, the offline mock counts,
 * the per-publication update loop and the instance's result cache.
 *
 * Network replies are parameters: a reply to the lookup by DOI and a reply
 * to the search by title, as the Semantic Scholar client would receive them.
 */
module CitationService {
  import opened Common
  import opened JsValue

  /** `24 * 60 * 60 * 1000`: how long a fetched count stays fresh. */
  const CacheTimeout: int := 86_400_000

  /** A `lastUpdated` / `timestamp` field as `new Date(...)` reads it. */
  datatype Timestamp =
    | Missing          // null, undefined or the empty string
    | Unparsable       // a string `Date` cannot read: its time is NaN
    | Millis(ms: int)  // milliseconds since the epoch

  /**
   * A publication record. The fields the service interpolates into text are
   * JavaScript values (a `null` doi renders as "null"); every other field of
   * the record rides along unchanged inside `others`.
   */
  datatype Publication = Publication(
    title: string,
    authors: string,
    venue: Value,
    publisher: Value,
    year: Value,
    pubType: Value,
    doi: Value,
    pages: Value,
    googleScholarId: Value,
    status: Value,
    citations: int,
    lastUpdated: Timestamp,
    others: Record)

  // ---------------------------------------------------------------- staleness

  /** `needsUpdate(lastUpdated)` evaluated at time `now`. */
  function NeedsUpdate(lastUpdated: Timestamp, now: int): (r: bool)
    ensures lastUpdated == Missing ==> r
    ensures lastUpdated == Unparsable ==> !r
    ensures lastUpdated.Millis? ==> (r <==> now - lastUpdated.ms > 24 * 60 * 60 * 1000)
  {
    match lastUpdated
    case Missing => true
    case Unparsable => false
    case Millis(t) => now - t > CacheTimeout
  }

  // ---------------------------------------------------------------- author names

  /** `name[0] + '.'`; an empty name part has no first character and reads "undefined". */
  function Initial(name: string): string
  {
    if name == "" then "undefined." else [name[0]] + "."
  }

  function InitialsOf(names: seq<string>): (r: seq<string>)
    ensures |r| == |names|
    ensures forall i :: 0 <= i < |names| ==> r[i] == Initial(names[i])
  {
    seq(|names|, i requires 0 <= i < |names| => Initial(names[i]))
  }

  /** The space-separated parts of one trimmed author name. */
  function NameParts(author: string): (r: seq<string>)
    ensures |r| >= 1
  {
    Split(Trim(author), " ")
  }

  /** One author in APA style: "Last, I. I."; a one-part name is kept. */
  function AuthorAPA(author: string): string
  {
    var parts := NameParts(author);
    if |parts| == 1 then parts[0]
    else parts[|parts| - 1] + ", " + Join(InitialsOf(parts[..|parts| - 1]), " ")
  }

  /** One author in IEEE style: "I. I. Last". */
  function AuthorIEEE(author: string): string
  {
    var parts := NameParts(author);
    if |parts| == 1 then parts[0]
    else Join(InitialsOf(parts[..|parts| - 1]), " ") + " " + parts[|parts| - 1]
  }

  /** One author in Chicago style: the given names then the last name. */
  function AuthorChicago(author: string): string
  {
    var parts := NameParts(author);
    if |parts| == 1 then parts[0]
    else Join(parts[..|parts| - 1], " ") + " " + parts[|parts| - 1]
  }

  datatype Style = APA | IEEE | Chicago

  function FormatAuthor(style: Style, author: string): string
  {
    match style
    case APA => AuthorAPA(author)
    case IEEE => AuthorIEEE(author)
    case Chicago => AuthorChicago(author)
  }

  /**
   * The ", "-separated authors, each reformatted: one entry per author of
   * the input, in the input's order.
   */
  function FormattedAuthorList(style: Style, authors: string): (r: seq<string>)
    ensures |r| == |Split(authors, ", ")|
    ensures forall i :: 0 <= i < |r| ==> r[i] == FormatAuthor(style, Split(authors, ", ")[i])
  {
    var names := Split(authors, ", ");
    seq(|names|, i requires 0 <= i < |names| => FormatAuthor(style, names[i]))
  }

  /** `formatAuthorsAPA`, `formatAuthorsIEEE`, `formatAuthorsChicago`. */
  function FormatAuthors(style: Style, authors: string): string
  {
    Join(FormattedAuthorList(style, authors), ", ")
  }

  /** A word made of non-blank characters, as a name part is. */
  predicate IsWord(w: string)
  {
    w != [] && forall k :: 0 <= k < |w| ==> !IsWhitespace(w[k])
  }

  lemma {:induction false} JoinedWordsNotBlank(ws: seq<string>)
    requires |ws| >= 1
    requires forall i :: 0 <= i < |ws| ==> IsWord(ws[i])
    ensures var s := Join(ws, " "); s != [] && !IsWhitespace(s[0]) && !IsWhitespace(s[|s| - 1])
    decreases |ws|
  {
    assert IsWord(ws[0]);
    if |ws| > 1 {
      JoinedWordsNotBlank(ws[1..]);
      var t := Join(ws[1..], " ");
      assert Join(ws, " ") == ws[0] + " " + t;
    }
  }

  lemma TrimWords(ws: seq<string>)
    requires |ws| >= 1
    requires forall i :: 0 <= i < |ws| ==> IsWord(ws[i])
    ensures Trim(Join(ws, " ")) == Join(ws, " ")
  {
    JoinedWordsNotBlank(ws);
  }

  lemma NoSpaceInWord(w: string)
    requires IsWord(w)
    ensures ' ' !in w
  {
    forall k | 0 <= k < |w| ensures w[k] != ' ' {
      assert !IsWhitespace(w[k]);
    }
  }

  lemma NamePartsOfWords(ws: seq<string>)
    requires |ws| >= 1
    requires forall i :: 0 <= i < |ws| ==> IsWord(ws[i])
    ensures NameParts(Join(ws, " ")) == ws
  {
    TrimWords(ws);
    forall i | 0 <= i < |ws| ensures ' ' !in ws[i] {
      NoSpaceInWord(ws[i]);
    }
    SplitJoin(ws, " ");
  }

  /**
   * For a name written as given names followed by a last name, single-spaced,
   * APA gives "Last, G. G.", IEEE gives "G. G. Last", and Chicago gives the
   * name back.
   */
  lemma {:induction false} AuthorStyles(given: seq<string>, last: string)
    requires |given| >= 1
    requires IsWord(last) && forall i :: 0 <= i < |given| ==> IsWord(given[i])
    ensures var name := Join(given + [last], " ");
      var initials := Join(InitialsOf(given), " ");
      && AuthorAPA(name) == last + ", " + initials
      && AuthorIEEE(name) == initials + " " + last
      && AuthorChicago(name) == name
  {
    var ws := given + [last];
    forall i | 0 <= i < |ws| ensures IsWord(ws[i]) {
      if i < |given| { assert ws[i] == given[i]; }
    }
    NamePartsOfWords(ws);
    assert ws[..|ws| - 1] == given;
    JoinSnoc(given, last, " ");
  }

  /** A name without spaces is a single part and every style keeps it (trimmed). */
  lemma {:induction false} SingleNameUnchanged(author: string)
    requires ' ' !in Trim(author)
    ensures AuthorAPA(author) == Trim(author)
    ensures AuthorIEEE(author) == Trim(author)
    ensures AuthorChicago(author) == Trim(author)
  {
    SplitWithoutSeparator(Trim(author), " ");
  }

  /** Chicago style returns every author trimmed and otherwise unchanged. */
  lemma {:induction false} ChicagoIsTrim(author: string)
    ensures AuthorChicago(author) == Trim(author)
  {
    var parts := NameParts(author);
    JoinSplit(Trim(author), " ");
    if |parts| > 1 {
      assert parts == parts[..|parts| - 1] + [parts[|parts| - 1]];
      JoinSnoc(parts[..|parts| - 1], parts[|parts| - 1], " ");
    }
  }

  /** The example the service's own test pins down. */
  lemma IEEEExample()
    ensures FormatAuthors(IEEE, "Muhammed Fuhad C") == "M. F. C"
  {
    var name := "Muhammed Fuhad C";
    var given := ["Muhammed", "Fuhad"];
    ExampleNameParts();
    ExampleInitials();
    AuthorStyles(given, "C");
    assert Join(given + ["C"], " ") == name;
    assert AuthorIEEE(name) == Join(InitialsOf(given), " ") + " " + "C";
    assert AuthorIEEE(name) == "M. F." + " " + "C";
    ExampleText();
    ExampleSingleAuthor();
  }

  lemma ExampleText()
    ensures "M. F." + " " + "C" == "M. F. C"
  {
  }

  lemma ExampleNameParts()
    ensures Join(["Muhammed", "Fuhad"] + ["C"], " ") == "Muhammed Fuhad C"
    ensures IsWord("Muhammed") && IsWord("Fuhad") && IsWord("C")
  {
    assert ["Muhammed", "Fuhad"] + ["C"] == ["Muhammed", "Fuhad", "C"];
    assert Join(["C"], " ") == "C";
    assert Join(["Fuhad", "C"], " ") == "Fuhad C";
  }

  lemma ExampleInitials()
    ensures Join(InitialsOf(["Muhammed", "Fuhad"]), " ") == "M. F."
  {
    var ini := InitialsOf(["Muhammed", "Fuhad"]);
    assert ini[0] == Initial("Muhammed") == "M.";
    assert ini[1] == Initial("Fuhad") == "F.";
    assert ini == ["M.", "F."];
  }

  lemma ExampleSingleAuthor()
    ensures FormatAuthors(IEEE, "Muhammed Fuhad C") == AuthorIEEE("Muhammed Fuhad C")
  {
    var name := "Muhammed Fuhad C";
    assert ',' !in name;
    SplitWithoutSeparator(name, ", ");
    assert FormattedAuthorList(IEEE, name) == [AuthorIEEE(name)];
  }

  // ---------------------------------------------------------------- citations

  /** `title.toLowerCase().replace(/[^a-z0-9]/g, '-')`. */
  function Slug(title: string): (r: string)
    ensures |r| == |title|
    ensures forall i :: 0 <= i < |r| ==> IsLowerAlnum(r[i]) || r[i] == '-'
  {
    var lower := Lower(title);
    seq(|lower|, i requires 0 <= i < |lower| => if IsLowerAlnum(lower[i]) then lower[i] else '-')
  }

  /** A slug is its own slug. */
  lemma SlugIdempotent(title: string)
    ensures Slug(Slug(title)) == Slug(title)
  {
    var s := Slug(title);
    forall i | 0 <= i < |s| ensures Slug(s)[i] == s[i] {
      assert LowerChar(s[i]) == s[i];
    }
  }

  const DoiPrefix: string := " https://doi.org/"

  function DoiSuffix(doi: Value): string
  {
    if Truthy(doi) then DoiPrefix + ToJsString(doi) else ""
  }

  /** The APA text before the DOI suffix. */
  function APABody(authors: string, year: Value, title: string, pubType: Value, venue: Value, publisher: Value): string
  {
    FormatAuthors(APA, authors) + " (" + ToJsString(year) + "). " + title + ". "
    + (if pubType == Str("Conference Paper")
       then "In " + ToJsString(venue) + ". " + ToJsString(publisher) + "."
       else ToJsString(venue) + ".")
  }

  function APACitation(pub: Publication): string
  {
    APABody(pub.authors, pub.year, pub.title, pub.pubType, pub.venue, pub.publisher) + DoiSuffix(pub.doi)
  }

  /** `generateAPACitation`, built up with `+=` as the source does. */
  method GenerateAPACitation(pub: Publication) returns (citation: string)
    ensures citation == APACitation(pub)
  {
    var authors := FormatAuthors(APA, pub.authors);
    citation := authors + " (" + ToJsString(pub.year) + "). " + pub.title + ". ";
    if pub.pubType == Str("Conference Paper") {
      citation := citation + ("In " + ToJsString(pub.venue) + ". " + ToJsString(pub.publisher) + ".");
    } else if pub.pubType == Str("Abstract") {
      citation := citation + (ToJsString(pub.venue) + ".");
    } else {
      citation := citation + (ToJsString(pub.venue) + ".");
    }
    assert citation == APABody(pub.authors, pub.year, pub.title, pub.pubType, pub.venue, pub.publisher);
    if Truthy(pub.doi) {
      citation := citation + (" https://doi.org/" + ToJsString(pub.doi));
    }
  }

  function IEEECitation(pub: Publication): string
  {
    FormatAuthors(IEEE, pub.authors) + ", \"" + pub.title + ",\" " + ToJsString(pub.venue) + ", "
    + ToJsString(pub.year) + "."
  }

  function ChicagoBody(authors: string, title: string, pubType: Value, venue: Value, year: Value): string
  {
    FormatAuthors(Chicago, authors) + ". \"" + title + ".\" "
    + (if pubType == Str("Conference Paper")
       then "Presented at " + ToJsString(venue) + ", " + ToJsString(year) + "."
       else ToJsString(venue) + ", " + ToJsString(year) + ".")
  }

  function ChicagoCitation(pub: Publication): string
  {
    ChicagoBody(pub.authors, pub.title, pub.pubType, pub.venue, pub.year) + DoiSuffix(pub.doi)
  }

  /**
   * The DOI decides only the tail of an APA citation: a truthy DOI appends
   * " https://doi.org/<doi>" to the citation of the same record without one,
   * a falsy DOI appends nothing.
   */
  lemma APADoiOnlyAppends(pub: Publication, d: Value)
    ensures Truthy(d) ==> APACitation(pub.(doi := d)) == APACitation(pub.(doi := Null)) + " https://doi.org/" + ToJsString(d)
    ensures !Truthy(d) ==> APACitation(pub.(doi := d)) == APACitation(pub.(doi := Null))
  {
    var body := APABody(pub.authors, pub.year, pub.title, pub.pubType, pub.venue, pub.publisher);
    assert APACitation(pub.(doi := Null)) == body + "";
    assert body + "" == body;
  }

  /** The same holds for Chicago citations. */
  lemma ChicagoDoiOnlyAppends(pub: Publication, d: Value)
    ensures Truthy(d) ==> ChicagoCitation(pub.(doi := d)) == ChicagoCitation(pub.(doi := Null)) + " https://doi.org/" + ToJsString(d)
    ensures !Truthy(d) ==> ChicagoCitation(pub.(doi := d)) == ChicagoCitation(pub.(doi := Null))
  {
    var body := ChicagoBody(pub.authors, pub.title, pub.pubType, pub.venue, pub.year);
    assert ChicagoCitation(pub.(doi := Null)) == body + "";
    assert body + "" == body;
  }

  /** The BibTeX entry key: the Scholar id when set, otherwise the title's slug. */
  function BibTeXKey(pub: Publication): string
  {
    if Truthy(pub.googleScholarId) then ToJsString(pub.googleScholarId) else Slug(pub.title)
  }

  /** The `name={value}` fields of the entry, in order; optional ones only when truthy. */
  function BibTeXFields(pub: Publication): seq<(string, string)>
  {
    [("title", pub.title),
     ("author", Join(Split(pub.authors, ", "), " and ")),
     ("booktitle", ToJsString(pub.venue)),
     ("year", ToJsString(pub.year))]
    + (if Truthy(pub.publisher) then [("publisher", ToJsString(pub.publisher))] else [])
    + (if Truthy(pub.doi) then [("doi", ToJsString(pub.doi))] else [])
    + (if Truthy(pub.pages) then [("pages", ToJsString(pub.pages))] else [])
  }

  function FieldLine(field: (string, string)): string
  {
    "  " + field.0 + "={" + field.1 + "},\n"
  }

  function FieldLines(fields: seq<(string, string)>): string
    decreases |fields|
  {
    if fields == [] then "" else FieldLines(fields[..|fields| - 1]) + FieldLine(fields[|fields| - 1])
  }

  /** One header line, one line per field, then the closing brace. */
  function BibTeXCitation(pub: Publication): string
  {
    "@inproceedings{" + BibTeXKey(pub) + ",\n" + FieldLines(BibTeXFields(pub)) + "}"
  }

  lemma FieldLinesSnoc(fields: seq<(string, string)>, f: (string, string))
    ensures FieldLines(fields + [f]) == FieldLines(fields) + FieldLine(f)
  {
    assert (fields + [f])[..|fields|] == fields;
  }

  /** `generateBibTeXCitation`, built up line by line with `+=`. */
  method GenerateBibTeXCitation(pub: Publication) returns (bibtex: string)
    ensures bibtex == BibTeXCitation(pub)
  {
    var key := if Truthy(pub.googleScholarId) then ToJsString(pub.googleScholarId) else Slug(pub.title);
    var authors := Join(Split(pub.authors, ", "), " and ");
    ghost var fields: seq<(string, string)> := [];
    var lines := "";
    lines := lines + FieldLine(("title", pub.title));
    FieldLinesSnoc(fields, ("title", pub.title));
    fields := fields + [("title", pub.title)];
    lines := lines + FieldLine(("author", authors));
    FieldLinesSnoc(fields, ("author", authors));
    fields := fields + [("author", authors)];
    lines := lines + FieldLine(("booktitle", ToJsString(pub.venue)));
    FieldLinesSnoc(fields, ("booktitle", ToJsString(pub.venue)));
    fields := fields + [("booktitle", ToJsString(pub.venue))];
    lines := lines + FieldLine(("year", ToJsString(pub.year)));
    FieldLinesSnoc(fields, ("year", ToJsString(pub.year)));
    fields := fields + [("year", ToJsString(pub.year))];
    assert fields == [("title", pub.title), ("author", authors),
                      ("booktitle", ToJsString(pub.venue)), ("year", ToJsString(pub.year))];
    ghost var f0 := fields;
    if Truthy(pub.publisher) {
      lines := lines + FieldLine(("publisher", ToJsString(pub.publisher)));
      FieldLinesSnoc(fields, ("publisher", ToJsString(pub.publisher)));
      fields := fields + [("publisher", ToJsString(pub.publisher))];
    }
    SnocIf(f0, Truthy(pub.publisher), ("publisher", ToJsString(pub.publisher)));
    ghost var f1 := fields;
    if Truthy(pub.doi) {
      lines := lines + FieldLine(("doi", ToJsString(pub.doi)));
      FieldLinesSnoc(fields, ("doi", ToJsString(pub.doi)));
      fields := fields + [("doi", ToJsString(pub.doi))];
    }
    SnocIf(f1, Truthy(pub.doi), ("doi", ToJsString(pub.doi)));
    ghost var f2 := fields;
    if Truthy(pub.pages) {
      lines := lines + FieldLine(("pages", ToJsString(pub.pages)));
      FieldLinesSnoc(fields, ("pages", ToJsString(pub.pages)));
      fields := fields + [("pages", ToJsString(pub.pages))];
    }
    SnocIf(f2, Truthy(pub.pages), ("pages", ToJsString(pub.pages)));
    assert fields == BibTeXFields(pub);
    bibtex := "@inproceedings{" + key + ",\n" + lines + "}";
  }

  /**
   * The entry always has title, author, booktitle and year; it has a
   * publisher, doi or pages line exactly when that field is truthy; the
   * authors are joined with " and "; the entry closes with "}".
   */
  lemma BibTeXShape(pub: Publication)
    ensures var fs := BibTeXFields(pub);
      && fs[..4] == [("title", pub.title), ("author", Join(Split(pub.authors, ", "), " and ")),
                     ("booktitle", ToJsString(pub.venue)), ("year", ToJsString(pub.year))]
      && ((exists i :: 4 <= i < |fs| && fs[i].0 == "publisher") <==> Truthy(pub.publisher))
      && ((exists i :: 4 <= i < |fs| && fs[i].0 == "doi") <==> Truthy(pub.doi))
      && ((exists i :: 4 <= i < |fs| && fs[i].0 == "pages") <==> Truthy(pub.pages))
    ensures var b := BibTeXCitation(pub); |b| > 0 && b[|b| - 1] == '}'
    ensures StartsWith(BibTeXCitation(pub), "@inproceedings{" + BibTeXKey(pub) + ",\n")
  {
    var fs := BibTeXFields(pub);
    var opt := fs[4..];
    assert |opt| <= 3;
    if Truthy(pub.publisher) { assert fs[4].0 == "publisher"; }
    if Truthy(pub.doi) { assert fs[|fs| - (if Truthy(pub.pages) then 2 else 1)].0 == "doi"; }
    if Truthy(pub.pages) { assert fs[|fs| - 1].0 == "pages"; }
    var b := BibTeXCitation(pub);
    var head := "@inproceedings{" + BibTeXKey(pub) + ",\n";
    assert b == head + (FieldLines(fs) + "}");
    assert b[..|head|] == head;
  }

  /** With no Scholar id the key is the slug of the title, so it is as long as the title. */
  lemma BibTeXKeyFromTitle(pub: Publication)
    requires !Truthy(pub.googleScholarId)
    ensures BibTeXKey(pub) == Slug(pub.title) && |BibTeXKey(pub)| == |pub.title|
  {
  }

  /** `generateCitation(pub, format)`. */
  function GenerateCitation(pub: Publication, format: string): string
  {
    if format == "APA" then APACitation(pub)
    else if format == "IEEE" then IEEECitation(pub)
    else if format == "BibTeX" then BibTeXCitation(pub)
    else if format == "Chicago" then ChicagoCitation(pub)
    else APACitation(pub)
  }

  /** The four named formats reach their builders; any other string falls back to APA. */
  lemma CitationDispatch(pub: Publication, format: string)
    ensures format == "IEEE" ==> GenerateCitation(pub, format) == IEEECitation(pub)
    ensures format == "BibTeX" ==> GenerateCitation(pub, format) == BibTeXCitation(pub)
    ensures format == "Chicago" ==> GenerateCitation(pub, format) == ChicagoCitation(pub)
    ensures format !in {"IEEE", "BibTeX", "Chicago"} ==> GenerateCitation(pub, format) == APACitation(pub)
  {
  }

  /** The citations `exportCitations` joins: one per publication, in order. */
  function CitationList(pubs: seq<Publication>, format: string): (r: seq<string>)
    ensures |r| == |pubs|
    ensures forall i :: 0 <= i < |pubs| ==> r[i] == GenerateCitation(pubs[i], format)
  {
    seq(|pubs|, i requires 0 <= i < |pubs| => GenerateCitation(pubs[i], format))
  }

  function ExportCitations(pubs: seq<Publication>, format: string): string
  {
    Join(CitationList(pubs, format), "\n\n")
  }

  /** Exporting one more publication appends a blank line and its citation. */
  lemma ExportAppend(pubs: seq<Publication>, p: Publication, format: string)
    requires |pubs| >= 1
    ensures ExportCitations(pubs + [p], format) == ExportCitations(pubs, format) + "\n\n" + GenerateCitation(p, format)
  {
    assert CitationList(pubs + [p], format) == CitationList(pubs, format) + [GenerateCitation(p, format)];
    JoinSnoc(CitationList(pubs, format), GenerateCitation(p, format), "\n\n");
  }

  /** The Scholar search query before URL encoding: the first comma piece is not trimmed. */
  function ScholarSearchQuery(title: string, authors: string): string
  {
    "\"" + title + "\" " + Split(authors, ",")[0]
  }

  // ---------------------------------------------------------------- mock counts

  const DripKey: string := "cost-effective-energy-efficient-drip-irrigation-2024"
  const TemperatureKey: string := "automated-contactless-temperature-monitoring-2023"

  /** The table of known slugs; entries whose count is 0 are falsy and never returned. */
  function MockTable(key: string): int
  {
    if key == DripKey then 2
    else if key == TemperatureKey then 1
    else 0
  }

  /** `getMockCitationCount(title)`. */
  function MockCitationCount(title: string): (r: int)
    ensures r == 1 <==> Slug(title) == TemperatureKey
    ensures r == 2 <==> (Slug(title) == DripKey
      || (Slug(title) != TemperatureKey
          && (Contains(Lower(title), "drip irrigation") || Contains(Lower(title), "smart agriculture")
              || Contains(Lower(title), "temperature monitoring") || Contains(Lower(title), "contactless"))))
    ensures r in {0, 1, 2}
  {
    var key := Slug(title);
    var lower := Lower(title);
    if MockTable(key) != 0 then MockTable(key)
    else if Contains(lower, "drip irrigation") || Contains(lower, "smart agriculture") then 2
    else if Contains(lower, "temperature monitoring") || Contains(lower, "contactless") then 2
    else if Contains(lower, "generative ai") || Contains(lower, "voice assistance") then 0
    else if Contains(lower, "fog computing") || Contains(lower, "visualization") then 0
    else 0
  }

  /** The title "Constructor" slugs to "constructor". */
  lemma ConstructorSlug()
    ensures Slug("Constructor") == "constructor"
  {
    var s := Slug("Constructor");
    assert s[0] == 'c' && s[1] == 'o' && s[2] == 'n' && s[3] == 's' && s[4] == 't' && s[5] == 'r';
    assert s[6] == 'u' && s[7] == 'c' && s[8] == 't' && s[9] == 'o' && s[10] == 'r';
  }

  /** The one inherited name a slug can spell is "constructor": the others hold capitals or underscores. */
  lemma SlugInheritedIsConstructor(title: string)
    ensures Slug(title) in InheritedNames <==> Slug(title) == "constructor"
  {
    var s := Slug(title);
    forall n | n in InheritedNames && n != "constructor" ensures s != n {
      var k := NonSlugPosition(n);
      assert !(IsLowerAlnum(n[k]) || n[k] == '-');
    }
  }

  /** A position where an inherited name other than "constructor" holds a character no slug has. */
  function NonSlugPosition(n: string): (k: nat)
    requires n in InheritedNames && n != "constructor"
    ensures k < |n| && !IsLowerAlnum(n[k]) && n[k] != '-'
  {
    if n == "hasOwnProperty" then 3
    else if n == "isPrototypeOf" || n == "toLocaleString" || n == "toString" then 2
    else if n == "propertyIsEnumerable" then 8
    else if n == "valueOf" then 5
    else 0
  }

  /**
   * `getMockCitationCount(title)` as written: `mockData[key]` also sees the
   * members every object inherits, so a title whose slug is "constructor"
   * gets the built-in Object function back as its count.
   */
  function MockCitationCountAsWritten(title: string): Found<int>
  {
    var key := Slug(title);
    ReadLiteral(if MockTable(key) != 0 then Some(MockTable(key)) else None, key, MockCitationCount(title))
  }

  /** As written, the count departs from the table rule exactly for the titles that slug to "constructor". */
  lemma MockCountAsWrittenDeparts(title: string)
    ensures MockCitationCountAsWritten(title).InheritedMember? <==> Slug(title) == "constructor"
    ensures Slug(title) != "constructor" ==> MockCitationCountAsWritten(title) == Listed(MockCitationCount(title))
  {
    SlugInheritedIsConstructor(title);
  }

  /** The title "Constructor" gets the inherited Object function, where the table rule gives 0. */
  lemma ConstructorTitleCount()
    ensures MockCitationCountAsWritten("Constructor") == InheritedMember("constructor")
    ensures MockCitationCount("Constructor") == 0
  {
    ConstructorSlug();
    var lower := Lower("Constructor");
    ConstructorLower();
    ContainsNoLonger(lower, "drip irrigation");
    ContainsNoLonger(lower, "smart agriculture");
    ContainsNoLonger(lower, "temperature monitoring");
    ConstructorNotContactless();
  }

  lemma ConstructorLower()
    ensures Lower("Constructor") == "constructor"
  {
    var s := Lower("Constructor");
    assert s[0] == 'c' && s[1] == 'o' && s[2] == 'n' && s[3] == 's' && s[4] == 't' && s[5] == 'r';
    assert s[6] == 'u' && s[7] == 'c' && s[8] == 't' && s[9] == 'o' && s[10] == 'r';
  }

  lemma ConstructorNotContactless()
    ensures !Contains("constructor", "contactless")
  {
    assert "constructor"[3] != "contactless"[3];
    ContainsNoLonger("constructor"[1..], "contactless");
  }

  // ---------------------------------------------------------------- lookups

  /** The reply to `GET /paper/DOI:<doi>`; a fetch that throws or a body that does not parse is `DoiFailed`. */
  datatype DoiReply = DoiFailed | DoiNotOk | DoiOk(citationCount: Option<int>)

  /** The reply to the title search: the `citationCount` of each returned paper. */
  datatype SearchReply = SearchFailed | SearchNotOk | SearchOk(hits: seq<Option<int>>)

  function CountOrZero(c: Option<int>): int
  {
    if c.Some? && c.value != 0 then c.value else 0
  }

  /**
   * `fetchFromSemanticScholar(title, doi)`: the DOI lookup when a DOI is
   * given and answers, otherwise the first search hit; every failure is
   * caught and reported as 0.
   */
  function FetchFromSemanticScholar(doi: Value, byDoi: DoiReply, bySearch: SearchReply): int
  {
    if Truthy(doi) && byDoi.DoiFailed? then 0
    else if Truthy(doi) && byDoi.DoiOk? then CountOrZero(byDoi.citationCount)
    else match bySearch
      case SearchOk(hits) => if |hits| > 0 then CountOrZero(hits[0]) else 0
      case _ => 0
  }

  datatype Replies = Replies(byDoi: DoiReply, bySearch: SearchReply)

  /** The record `{...pub, citations, lastUpdated}` the loop pushes. */
  function WithCitations(pub: Publication, count: int, now: int): (r: Publication)
    ensures r.citations == count && r.lastUpdated == Millis(now)
    ensures r.(citations := pub.citations, lastUpdated := pub.lastUpdated) == pub
  {
    pub.(citations := count, lastUpdated := Millis(now))
  }

  /**
   * `updateCitationsIndividually`: one lookup per publication, in order;
   * `times[i]` is the clock when the i-th record is stamped. The lookup
   * never throws, so the loop's fallback branch is never taken.
   */
  method UpdateCitationsIndividually(pubs: seq<Publication>, replies: seq<Replies>, times: seq<int>)
    returns (updated: seq<Publication>)
    requires |replies| == |pubs| && |times| == |pubs|
    ensures |updated| == |pubs|
    ensures forall i :: 0 <= i < |pubs| ==>
      updated[i] == WithCitations(pubs[i], FetchFromSemanticScholar(pubs[i].doi, replies[i].byDoi, replies[i].bySearch), times[i])
  {
    updated := [];
    var i := 0;
    while i < |pubs|
      invariant 0 <= i <= |pubs|
      invariant |updated| == i
      invariant forall k :: 0 <= k < i ==>
        updated[k] == WithCitations(pubs[k], FetchFromSemanticScholar(pubs[k].doi, replies[k].byDoi, replies[k].bySearch), times[k])
    {
      var pub := pubs[i];
      var count := FetchFromSemanticScholar(pub.doi, replies[i].byDoi, replies[i].bySearch);
      updated := updated + [WithCitations(pub, count, times[i])];
      i := i + 1;
    }
  }

  /**
   * A failed lookup is reported as 0 and overwrites the stored count: a
   * publication with a DOI whose DOI request fails, or without one whose
   * search fails, comes back with 0 citations whatever it had.
   */
  lemma FailedLookupResetsCitations(pub: Publication, r: Replies, now: int)
    requires (Truthy(pub.doi) && r.byDoi == DoiFailed) || (!Truthy(pub.doi) && r.bySearch == SearchFailed)
    ensures WithCitations(pub, FetchFromSemanticScholar(pub.doi, r.byDoi, r.bySearch), now).citations == 0
  {
  }

  /** The lookup with its failures kept apart from a genuine count. */
  function LookupCitations(doi: Value, byDoi: DoiReply, bySearch: SearchReply): (r: Option<int>)
    ensures r.Some? ==> r.value == FetchFromSemanticScholar(doi, byDoi, bySearch)
    ensures r.None? <==> (Truthy(doi) && byDoi.DoiFailed?) || (!(Truthy(doi) && byDoi.DoiOk?) && !bySearch.SearchOk?)
  {
    if Truthy(doi) && byDoi.DoiFailed? then None
    else if Truthy(doi) && byDoi.DoiOk? then Some(CountOrZero(byDoi.citationCount))
    else match bySearch
      case SearchOk(hits) => Some(if |hits| > 0 then CountOrZero(hits[0]) else 0)
      case _ => None
  }

  /** The update the loop's fallback promises: a failed lookup keeps the stored count. */
  function UpdateKeepingOnFailure(pub: Publication, r: Replies, now: int): (p: Publication)
    ensures LookupCitations(pub.doi, r.byDoi, r.bySearch).None? ==> p.citations == pub.citations
    ensures LookupCitations(pub.doi, r.byDoi, r.bySearch).Some? ==> p.citations == FetchFromSemanticScholar(pub.doi, r.byDoi, r.bySearch)
    ensures p.lastUpdated == Millis(now)
    ensures p.(citations := pub.citations, lastUpdated := pub.lastUpdated) == pub
  {
    match LookupCitations(pub.doi, r.byDoi, r.bySearch)
    case Some(c) => WithCitations(pub, c, now)
    case None => WithCitations(pub, pub.citations, now)
  }

  method UpdateCitationsKeepingOnFailure(pubs: seq<Publication>, replies: seq<Replies>, times: seq<int>)
    returns (updated: seq<Publication>)
    requires |replies| == |pubs| && |times| == |pubs|
    ensures |updated| == |pubs|
    ensures forall i :: 0 <= i < |pubs| ==> updated[i] == UpdateKeepingOnFailure(pubs[i], replies[i], times[i])
  {
    updated := [];
    var i := 0;
    while i < |pubs|
      invariant 0 <= i <= |pubs|
      invariant |updated| == i
      invariant forall k :: 0 <= k < i ==> updated[k] == UpdateKeepingOnFailure(pubs[k], replies[k], times[k])
    {
      updated := updated + [UpdateKeepingOnFailure(pubs[i], replies[i], times[i])];
      i := i + 1;
    }
  }

  // ---------------------------------------------------------------- the instance cache

  datatype CacheEntry = CacheEntry(citations: int, timestamp: int)

  function CacheKey(title: string, authors: string, doi: Value): string
  {
    title + "-" + authors + "-" + (if Truthy(doi) then ToJsString(doi) else "")
  }

  class CitationCache {
    var cache: map<string, CacheEntry>

    constructor ()
      ensures cache == map[]
    {
      cache := map[];
    }

    /**
     * `fetchCitationCount`: a fresh cached count is returned as is; otherwise
     * the count is looked up and cached with the current time.
     */
    method FetchCitationCount(title: string, authors: string, doi: Value, now: int, r: Replies)
      returns (count: int)
      modifies this
      ensures var key := CacheKey(title, authors, doi);
        if key in old(cache) && !NeedsUpdate(Millis(old(cache)[key].timestamp), now) then
          count == old(cache)[key].citations && cache == old(cache)
        else
          count == FetchFromSemanticScholar(doi, r.byDoi, r.bySearch) && cache == old(cache)[key := CacheEntry(count, now)]
    {
      var key := CacheKey(title, authors, doi);
      if key in cache && !NeedsUpdate(Millis(cache[key].timestamp), now) {
        count := cache[key].citations;
        return;
      }
      count := FetchFromSemanticScholar(doi, r.byDoi, r.bySearch);
      cache := cache[key := CacheEntry(count, now)];
    }
  }
}
