/**
 * The Google Scholar scraper and the rate limiting of the three citation
 * clients (Scholar, Semantic Scholar, CrossRef).
 *
 * Each client keeps the time of its last request and, before a new one,
 * waits until its delay has passed. The clock is explicit: `now` is the
 * time read before the wait and `later` the time read after it. The
 * scraper answers from a small table instead of the network.
 */
module ScholarScraper {
  import opened Common
  import CitationService

  // ------------------------------------------------------------ rate limiting

  /** The delays between requests, in milliseconds. */
  const ScholarDelay: nat := 2000
  const SemanticScholarDelay: nat := 1000
  const CrossRefDelay: nat := 1000

  /** How long `waitForRateLimit` sleeps when the last request was at `last` and it is now `now`. */
  function WaitTime(delay: nat, last: int, now: int): (r: int)
    ensures r >= 0
    ensures r > 0 <==> now - last < delay
    ensures now + r >= last + delay
    ensures r > 0 ==> now + r == last + delay
  {
    if now - last < delay then delay - (now - last) else 0
  }

  /** The `rateLimitDelay` and `lastRequestTime` of one client. */
  class RateLimiter {
    const rateLimitDelay: nat
    var lastRequestTime: int

    constructor(delay: nat)
      ensures rateLimitDelay == delay && lastRequestTime == 0
    {
      rateLimitDelay := delay;
      lastRequestTime := 0;
    }

    /**
     * `waitForRateLimit`: sleeps for the time still owed, then records the
     * clock. A timer never fires early, so `later` is at least `now` plus
     * the sleep; requests through one client are then at least the delay apart.
     */
    method WaitForRateLimit(now: int, later: int) returns (waited: int)
      requires later >= now + WaitTime(rateLimitDelay, lastRequestTime, now)
      modifies this
      ensures waited == WaitTime(rateLimitDelay, old(lastRequestTime), now)
      ensures lastRequestTime == later
      ensures lastRequestTime >= old(lastRequestTime) + rateLimitDelay
    {
      var timeSinceLastRequest := now - lastRequestTime;
      waited := 0;
      if timeSinceLastRequest < rateLimitDelay {
        waited := rateLimitDelay - timeSinceLastRequest;
      }
      lastRequestTime := later;
    }
  }

  /** Two requests that each waited are at least the delay apart, whatever the clock did in between. */
  lemma RequestsSpaced(delay: nat, last: int, now: int, later: int)
    requires later >= now + WaitTime(delay, last, now)
    ensures later - last >= delay
    ensures now - last >= delay ==> WaitTime(delay, last, now) == 0
  {
  }

  // ------------------------------------------------------------ search query

  /** `buildSearchQuery`: the quoted title, a space, and the first author with its spaces trimmed. */
  function BuildSearchQuery(title: string, authors: string): (r: string)
    ensures StartsWith(r, "\"" + title + "\" ")
    ensures r[|title| + 3..] == Trim(Split(authors, ",")[0])
  {
    var prefix := "\"" + title + "\" ";
    var r := prefix + Trim(Split(authors, ",")[0]);
    assert r[..|prefix|] == prefix;
    r
  }

  /** The first author is the text before the first comma. */
  lemma FirstAuthorOnly(title: string, first: string, rest: string)
    requires ',' !in first
    ensures BuildSearchQuery(title, first + "," + rest) == "\"" + title + "\" " + Trim(first)
  {
    SplitAfterPiece(first, ",", rest);
  }

  /** A single author is used whole. */
  lemma SingleAuthor(title: string, author: string)
    requires ',' !in author
    ensures BuildSearchQuery(title, author) == "\"" + title + "\" " + Trim(author)
  {
    SplitWithoutSeparator(author, ",");
  }

  // ------------------------------------------------------------ mock answers

  /** What the scraper reports for a paper; `None` stands for `null`. */
  datatype ScholarEntry = ScholarEntry(citations: int, year: Option<int>, venue: Option<string>, authors: Option<string>)

  const DripEntry := ScholarEntry(2, Some(2024),
    Some("International Conference on Advances in Distributed Computing and Machine Learning"),
    Some("M Fuhad, SK George, M Elappila, S Nagaraju, V Reddy, AVN Krishna"))

  const TemperatureEntry := ScholarEntry(2, Some(2023),
    Some("2023 International Conference on Recent Trends in Electronics and Communication (ICRTEC)"),
    Some("M Fuhad, SE Tomes, M Elappila, S Nagaraju"))

  /** The answer for a title nothing is known about. */
  const UnknownEntry := ScholarEntry(0, None, None, None)

  /** `mockScholarResponse`, as intended: the table entry of the title's slug, or the unknown entry. */
  function MockScholarResponse(title: string): (r: ScholarEntry)
    ensures CitationService.Slug(title) == CitationService.DripKey ==> r == DripEntry
    ensures CitationService.Slug(title) == CitationService.TemperatureKey ==> r == TemperatureEntry
    ensures CitationService.Slug(title) !in {CitationService.DripKey, CitationService.TemperatureKey} ==> r == UnknownEntry
  {
    var key := CitationService.Slug(title);
    if key == CitationService.DripKey then DripEntry
    else if key == CitationService.TemperatureKey then TemperatureEntry
    else UnknownEntry
  }

  /** Titles that differ only in case or punctuation get the same answer. */
  lemma MockDependsOnSlugOnly(a: string, b: string)
    requires CitationService.Slug(a) == CitationService.Slug(b)
    ensures MockScholarResponse(a) == MockScholarResponse(b)
  {
  }

  /** Every answer has a count of at least zero, and a known count comes with its year, venue and authors. */
  lemma MockEntriesWellFormed(title: string)
    ensures MockScholarResponse(title).citations >= 0
    ensures MockScholarResponse(title).citations > 0 <==> MockScholarResponse(title).year.Some?
    ensures MockScholarResponse(title).year.Some? <==> MockScholarResponse(title).venue.Some?
    ensures MockScholarResponse(title).venue.Some? <==> MockScholarResponse(title).authors.Some?
  {
  }

  /**
   * `mockData[key] || default` as written: the lookup also sees the members
   * every object inherits, and the only one whose name a slug can spell is
   * `constructor`, the `Object` function, which is truthy.
   */
  function MockLookupAsWritten(title: string): (r: Found<ScholarEntry>)
    ensures r.Listed? ==> r.value == MockScholarResponse(title)
    ensures r.InheritedMember? <==> CitationService.Slug(title) == "constructor"
  {
    var key := CitationService.Slug(title);
    CitationService.SlugInheritedIsConstructor(title);
    ReadLiteral(if key in {CitationService.DripKey, CitationService.TemperatureKey}
                then Some(MockScholarResponse(title)) else None,
                key, UnknownEntry)
  }

  /** The title "Constructor" returns the inherited function rather than the unknown entry. */
  lemma ConstructorTitleHitsPrototype()
    ensures MockLookupAsWritten("Constructor") == InheritedMember("constructor")
    ensures MockScholarResponse("Constructor") == UnknownEntry
  {
    CitationService.ConstructorSlug();
  }

  /** `extractCitationCount`: no parsing is done, so every page counts as zero citations. */
  function ExtractCitationCount(html: string): (r: int)
    ensures r == 0
  {
    0
  }

  /** Two pages always give the same count. */
  lemma ExtractIgnoresPage(a: string, b: string)
    ensures ExtractCitationCount(a) == ExtractCitationCount(b)
  {
  }

  // ------------------------------------------------------------ the scraper

  /** The authors argument: the query needs a string to split, anything else throws. */
  datatype Authors = Text(names: string) | NotText

  class Scraper {
    const limiter: RateLimiter

    constructor()
      ensures fresh(limiter) && limiter.rateLimitDelay == ScholarDelay && limiter.lastRequestTime == 0
    {
      limiter := new RateLimiter(ScholarDelay);
    }

    /**
     * `searchPaper`: waits its turn, builds the query and answers from the
     * table; a throw (authors that are not a string) gives `null`.
     */
    method SearchPaper(title: string, authors: Authors, now: int, later: int)
      returns (query: Option<string>, result: Option<ScholarEntry>)
      requires later >= now + WaitTime(limiter.rateLimitDelay, limiter.lastRequestTime, now)
      modifies limiter
      ensures limiter.lastRequestTime == later
      ensures result.Some? <==> authors.Text?
      ensures query.Some? <==> authors.Text?
      ensures authors.Text? ==> query.value == BuildSearchQuery(title, authors.names)
                                && result.value == MockScholarResponse(title)
    {
      var _ := limiter.WaitForRateLimit(now, later);
      if authors.NotText? {
        return None, None;
      }
      query := Some(BuildSearchQuery(title, authors.names));
      result := Some(MockScholarResponse(title));
    }

    /** `getPaperDetails`: waits its turn and answers for the DOI as if it were a title. */
    method GetPaperDetails(doi: string, now: int, later: int) returns (result: ScholarEntry)
      requires later >= now + WaitTime(limiter.rateLimitDelay, limiter.lastRequestTime, now)
      modifies limiter
      ensures limiter.lastRequestTime == later
      ensures result == MockScholarResponse(doi)
    {
      var _ := limiter.WaitForRateLimit(now, later);
      result := MockScholarResponse(doi);
    }
  }
}
