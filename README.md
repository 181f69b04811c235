# Portfolio site core, modelled in Dafny

This project models the logic of a React portfolio site. It leaves out the
pages and the markup and keeps the plain JavaScript utilities, plus the state
rules inside the admin and search components:

- the citation service: formatting author names in the APA, IEEE and
  Chicago styles, building APA, IEEE, BibTeX and Chicago citations,
  dispatching by format, exporting, the mock citation lookup, the
  staleness rule for the cached counts, and refreshing the citation count
  of every publication;
- the Google Scholar scraper and its rate limiter, with an explicit clock;
- the SEO helpers (`seoAdvanced`, `seoOptimizer`, `seoValidator`,
  `sitemapGenerator`), the SEO configuration (`config/seo.js`) and the
  analytics route tables (`config/analytics.js`);
- the admin data table: search, column filters, sorting, pagination and
  its handlers;
- the admin context: its reducer and the add, edit and delete item
  actions;
- the search and filter hooks and the search-and-filter controls;
- the data manager's cache and schema validation, the admin utilities,
  the content form's state handlers and validation;
- the error handler: its registry, listeners, classification, statistics
  and retry schedule;
- the accessibility helpers: ARIA labels, id generation and keyboard
  navigation;
- the Core Web Vitals scoring of the performance monitor;
- the statistics and citation refresh of the publications page.

One Dafny module corresponds to each source file. Three shared modules
support them:

- `Common` holds options, string splitting, joining and trimming,
  decimal rendering, filtering and de-duplication.
- `JsValue` holds the dynamic JavaScript value: its truthiness, property
  access, objects as ordered key/value records, spread, `String(v)` and
  the `<` comparison.
- `Sorting` holds a stable sort by a comparator, proved sorted and a
  permutation.

State that the source changes in place becomes a class: the admin
store, the data table, the search box, the filter panel, the content
form, the dropdown, the error registry, the citation cache, the data
cache, the id generator, the rate limiter and the publications page.
Each class method states its whole new state. Pure code becomes
functions, with lemmas relating them.

The following become parameters:

- clocks (`Date.now()`, `new Date()`);
- the results of network requests;
- the outcome of a promise;
- the time a timer fires.

## Model

| member | source | states |
|---|---|---|
| CitationService.NeedsUpdate | src/services/citationService.js:250-255 | no timestamp always needs an update; otherwise an update is needed exactly when more than 24 hours (86 400 000 ms) have passed; an unparsable date never does |
| CitationService.InitialsOf | src/services/citationService.js:352 | one initial per given name, in order: its first letter followed by "." |
| CitationService.NameParts | src/services/citationService.js:349 | splitting a trimmed author on single spaces always gives at least one part |
| CitationService.FormattedAuthorList | src/services/citationService.js:347-375 | every style keeps the number and the order of the ", "-separated authors, formatting each on its own |
| CitationService.NamePartsOfWords | src/services/citationService.js:349 | a name written as words joined by single spaces splits back into exactly those words |
| CitationService.AuthorStyles | src/services/citationService.js:347-375 | a multi-word author becomes "Last, I. I." in APA, "I. I. Last" in IEEE and stays as written in Chicago |
| CitationService.SingleNameUnchanged | src/services/citationService.js:350 | a one-word author is returned trimmed and otherwise unchanged in all three styles |
| CitationService.ChicagoIsTrim | src/services/citationService.js:367-375 | the Chicago form of an author is the trimmed author |
| CitationService.IEEEExample | src/services/citationService.js:357-365 | "Muhammed Fuhad C" is formatted as "M. F. C" in IEEE style |
| CitationService.Slug | src/services/citationService.js:56 | the slug is as long as the title and holds only lower-case letters, digits and "-" |
| CitationService.SlugIdempotent | src/services/citationService.js:56 | slugging a slug changes nothing |
| CitationService.GenerateAPACitation | src/services/citationService.js:279-296 | the citation built step by step equals the APA definition: authors, year, title, a venue line by type, then the DOI link |
| CitationService.APADoiOnlyAppends | src/services/citationService.js:291-293 | a truthy DOI appends exactly " https://doi.org/" and the DOI, and a falsy one appends nothing |
| CitationService.ChicagoDoiOnlyAppends | src/services/citationService.js:340-342 | in the Chicago style likewise a truthy DOI, and only a truthy DOI, appends the DOI link |
| CitationService.GenerateBibTeXCitation | src/services/citationService.js:303-328 | the entry built line by line equals the BibTeX definition over its field list |
| CitationService.BibTeXShape | src/services/citationService.js:303-328 | title, authors joined by " and ", booktitle and year come first; a publisher, doi and pages line appears exactly when that field is truthy; the entry opens with its key and ends with "}" |
| CitationService.BibTeXKeyFromTitle | src/services/citationService.js:304 | with no Scholar id the key is the slug of the title and as long as the title |
| CitationService.CitationDispatch | src/services/citationService.js:264-277 | IEEE, BibTeX and Chicago reach their builders; every other format string gives APA |
| CitationService.CitationList | src/services/citationService.js:258-259 | one citation per publication, in order |
| CitationService.ExportAppend | src/services/citationService.js:258-261 | exporting one more publication appends a blank line and its citation |
| CitationService.MockCitationCount | src/services/citationService.js:47-77 | corrected: 1 exactly for the temperature-monitoring slug; 2 for the drip-irrigation slug or a title with one of the drip or temperature keywords; 0 otherwise |
| CitationService.SlugInheritedIsConstructor | src/services/citationService.js:56 | of the names every object inherits, a slug can spell only "constructor" |
| CitationService.MockCountAsWrittenDeparts | src/services/citationService.js:56-59 | as written the table read returns an inherited member exactly when the slug is "constructor", and the corrected count for every other title |
| CitationService.ConstructorTitleCount | src/services/citationService.js:56-76 | the title "Constructor" gets the built-in Object function as written, where the corrected count is 0 |
| CitationService.WithCitations | src/services/citationService.js:142-146 | the record gets the new count and the current time and keeps every other field |
| CitationService.UpdateCitationsIndividually | src/services/citationService.js:134-162 | the result has one record per publication, in order, each carrying the count the lookup settled with |
| CitationService.FailedLookupResetsCitations | src/services/citationService.js:151-158 | as written: a failed DOI request, or a failed title search, gives 0 citations whatever the stored count was |
| CitationService.LookupCitations | src/services/citationService.js:197-246 | a lookup fails exactly when the DOI request throws, or when there is no answered DOI request and the search does not answer; otherwise it gives the count the code reports |
| CitationService.UpdateKeepingOnFailure | src/services/citationService.js:151-158 | corrected: a failed lookup keeps the stored count, a successful one stores the new count, and only the count and the stamp change |
| CitationService.UpdateCitationsKeepingOnFailure | src/services/citationService.js:134-162 | corrected loop: one record per publication, in order, each kept on failure |
| CitationService.CitationCache.constructor | src/services/citationService.js:3-5 | the cache starts empty |
| CitationService.CitationCache.FetchCitationCount | src/services/citationService.js:18-44 | a cached count that is not stale is returned and the cache is unchanged; otherwise the looked-up count is returned and cached under the key with the current time |
| SeoAdvanced.OptimizeTitle | src/utils/seoAdvanced.js:279-288 | a title of at most 60 characters gets the separator and site name appended; a longer one is cut and marked with an ellipsis so the whole is exactly 60 characters |
| SeoAdvanced.LongTitleExactLength | src/utils/seoAdvanced.js:284-287 | with the default site name a title over 60 characters becomes exactly 60 |
| SeoAdvanced.ShortTitleOverflows | src/utils/seoAdvanced.js:282-284 | with the default site name a title of 42 to 60 characters comes out longer than 60, as written |
| SeoAdvanced.OptimizeTitleWithinLimit | src/utils/seoAdvanced.js:279-288 | corrected: the title is kept whole only when title, separator and site name fit in 60; whenever the site name fits the result never exceeds 60 |
| SeoAdvanced.WithinLimitAgrees | src/utils/seoAdvanced.js:279-288 | the corrected title agrees with the written one on every title where the written one stays within the limit |
| SeoAdvanced.OptimizeDescription | src/utils/seoAdvanced.js:294-300 | a description within the limit is kept; a longer one becomes its prefix plus an ellipsis of exactly the limit's length |
| SeoAdvanced.OptimizeDescriptionIdempotent | src/utils/seoAdvanced.js:294-300 | shortening an already shortened description changes nothing |
| SeoAdvanced.KeywordCandidates | src/utils/seoAdvanced.js:306-309 | every candidate word is longer than 3 characters and made only of word characters |
| SeoAdvanced.TallyBump | src/utils/seoAdvanced.js:312-314 | adding one to a word's count keeps the tally exact for the extended word list |
| SeoAdvanced.TallyAdd | src/utils/seoAdvanced.js:312-314 | a new word enters the tally with count 1 and the tally stays exact |
| SeoAdvanced.CountWords | src/utils/seoAdvanced.js:311-314 | corrected: the counting loop builds `TallyOf` the words, which holds each word once, in order of first occurrence, with its number of occurrences, and no other word |
| SeoAdvanced.CountDescStrictWeak | src/utils/seoAdvanced.js:317 | comparing by descending count is a strict weak order, so the sort is well defined |
| SeoAdvanced.RearrangedTally | src/utils/seoAdvanced.js:316-317 | a rearranged tally still holds each word once with its exact count |
| SeoAdvanced.RankKeywordsProperties | src/utils/seoAdvanced.js:316-319 | the ranked keywords are `slice(0, maxKeywords)` of the distinct words, without repeats, in non-increasing count; no left-out word outcounts a chosen one; when every distinct word fits, all are kept |
| SeoAdvanced.ExtractKeywords | src/utils/seoAdvanced.js:305-320 | at most maxKeywords distinct candidate words, ordered by count; every word left out occurs no more often than each one chosen; fewer than maxKeywords are kept only when every candidate word is kept |
| SeoAdvanced.KeywordInherited | src/utils/seoAdvanced.js:306-309 | of the names every object inherits, a keyword can spell only "constructor" and "__proto__" |
| SeoAdvanced.CountStepOfCounts | src/utils/seoAdvanced.js:313 | for a word that is not inherited, one step of the tally as written on an object of counts is one step of the counting tally |
| SeoAdvanced.TallyAsWrittenAgrees | src/utils/seoAdvanced.js:311-314 | without inherited words, the `wordCount` object as written is the counting tally, count for count and in the same order |
| SeoAdvanced.ProtoNeverCounted | src/utils/seoAdvanced.js:313 | as written, "__proto__" never becomes an entry of `wordCount`, however often it occurs |
| SeoAdvanced.TallyKeysAreWords | src/utils/seoAdvanced.js:311-314 | every entry of `wordCount` as written is one of the words |
| SeoAdvanced.ConstructorNotANumber | src/utils/seoAdvanced.js:313 | as written, once "constructor" occurs its entry is a non-empty text, not a count |
| SeoAdvanced.ConstructorTwice | src/utils/seoAdvanced.js:311-314 | two occurrences of "constructor" count 2, while as written the entry is the Object function's text followed by "11" |
| SeoAdvanced.ReadingTime | src/utils/seoAdvanced.js:325-329 | the whole number of minutes at 200 words a minute rounded up: never below 1, and the smallest that covers the word count |
| SeoAdvanced.SeoFriendlyUrlMeaning | src/utils/seoAdvanced.js:334-337 | a URL is friendly exactly when it has a character other than a slash and every such character is a lower-case letter, digit or hyphen |
| SeoAdvanced.AltText | src/utils/seoAdvanced.js:342-358 | corrected: a truthy description is returned as given; otherwise the context's text, or "Relevant image" for an unknown context, never empty |
| SeoAdvanced.AltTextAsWrittenDeparts | src/utils/seoAdvanced.js:348-355 | as written the alt text is an inherited member exactly when the description is falsy and the context is an inherited name, and the corrected text for every other context |
| SeoAdvanced.ToStringContextAltText | src/utils/seoAdvanced.js:355 | the context "toString" without a description gets the inherited method as written, where "Relevant image" is meant |
| SeoAdvanced.BreadcrumbItems | src/utils/seoAdvanced.js:133-138 | one list item per crumb, at position index plus 1, with the crumb's name and url |
| SeoAdvanced.BreadcrumbList | src/utils/seoAdvanced.js:130-139 | a schema.org BreadcrumbList with one item per crumb |
| SeoAdvanced.BreadcrumbPositions | src/utils/seoAdvanced.js:133-138 | positions count from 1, and appending a crumb appends one item at the next position |
| SeoAdvanced.SitemapItemOf | src/utils/seoAdvanced.js:264-269 | the url is the base plus the page url; lastmod, changefreq and priority fall back to the current date, monthly and 0.5 |
| SeoAdvanced.SitemapData | src/utils/seoAdvanced.js:260-270 | one entry per page, in order |
| SeoAdvanced.SocialImageUrl | src/utils/seoAdvanced.js:227-229 | no image gives the default card, an absolute image is kept, a relative one goes under the base URL, a non-string image throws |
| SeoAdvanced.SocialMetaTags | src/utils/seoAdvanced.js:225-255 | it throws exactly when the image does; Open Graph and Twitter carry the same title, description and image, the url and canonical agree, and the defaults fill missing type, robots and author |
| SeoOptimizer.SocialMediaMeta | src/utils/seoOptimizer.js:4-39 | Open Graph and Twitter carry the same title, description, image and alt text; fields the page supplies show through and missing ones fall back to the site defaults; the url defaults to the root |
| SeoOptimizer.SupplyingFieldsOverridesDefaults | src/utils/seoOptimizer.js:5-30 | when the page supplies title, description, image and alt text those are what the meta shows |
| SeoOptimizer.StructuredDataLookup | src/utils/seoOptimizer.js:42-49 | the structured data always has @context and @type; every key of the data keeps its value; @type and @context hold their defaults unless the data overrides them |
| SeoOptimizer.CrumbItems | src/utils/seoOptimizer.js:167-172 | one ListItem per crumb, at position index plus 1 |
| SeoOptimizer.BreadcrumbStructuredDataItems | src/utils/seoOptimizer.js:165-174 | the breadcrumb data is a BreadcrumbList whose items are the crumbs in order, at positions 1 to n, with their names and urls |
| SeoOptimizer.CrumbItemFields | src/utils/seoOptimizer.js:168-171 | a list item's position, name and item are the ones it was built from |
| SeoOptimizer.PageKeywordsFlatten | src/utils/seoOptimizer.js:302-323 | the keywords are the base list, the page's own list and the additional ones, in that order, joined by commas |
| SeoOptimizer.UnknownPageKeywords | src/utils/seoOptimizer.js:302-323 | corrected: an unknown page type adds no keywords of its own |
| SeoOptimizer.InheritedNotPageType | src/utils/seoOptimizer.js:304-314 | no page type of the table is named like an inherited member |
| SeoOptimizer.PageKeywordsAsWrittenDeparts | src/utils/seoOptimizer.js:316-320 | as written the spread throws exactly for an inherited page type, and gives the corrected keywords for every other page type |
| SeoOptimizer.ConstructorPageKeywords | src/utils/seoOptimizer.js:316-320 | the page type "constructor" throws as written, where the corrected rule adds no page keywords |
| SeoOptimizer.JoinFlatten | src/utils/seoOptimizer.js:319-322 | joining the already joined base list with more keywords is the same as joining all of them at once |
| SeoOptimizer.OptimizeImage | src/utils/seoOptimizer.js:325-333 | the image keeps its url, loads lazily and decodes asynchronously; alt and title fall back to the defaults, so both are always truthy |
| SeoOptimizer.CanonicalUrl | src/utils/seoOptimizer.js:335-338 | a canonical url is always the base url followed by a slash |
| SeoOptimizer.CanonicalUrlSlash | src/utils/seoOptimizer.js:335-338 | a path without a leading slash gets one; a path that has one is used as given |
| SeoOptimizer.MetaRobots | src/utils/seoOptimizer.js:340-348 | the method pushes one directive per flag and joins them into the robots directive list |
| SeoOptimizer.RobotsTwoDirectives | src/utils/seoOptimizer.js:340-348 | the robots string splits back into exactly two directives, index or noindex by the first flag and follow or nofollow by the second; the defaults give "index, follow" |
| SeoOptimizer.HreflangTags | src/utils/seoOptimizer.js:350-357 | one alternate link per language, in order, pointing at the base url with that language |
| SeoValidator.ValidatePageSeo | src/utils/seoValidator.js:6-41 | the pushes of the method give exactly the page's error list and warning list |
| SeoValidator.PageErrors | src/utils/seoValidator.js:11-29 | the missing title, description and URL are each reported if and only if the field is falsy, and no other error is ever reported |
| SeoValidator.PageErrorsOnlyFromRequired | src/utils/seoValidator.js:6-41 | two configurations whose title, description and URL are equally present get the same errors, whatever else they hold |
| SeoValidator.TooLongMessageOfString | src/utils/seoValidator.js:14 | the too-long message names the text's length in decimal |
| SeoValidator.PageLengthWarnings | src/utils/seoValidator.js:13-21 | a title over 60 or a description over 160 characters is warned about; shorter texts get no length warning |
| SeoValidator.PageMissingWarnings | src/utils/seoValidator.js:23-38 | missing keywords and type, and missing or empty tags, are warned about exactly when so |
| SeoValidator.ValidateStructuredData | src/utils/seoValidator.js:44-79 | no structured data gives only the "No structured data provided" warning; otherwise the errors and warnings are those of its fields |
| SeoValidator.StructuredDataErrors | src/utils/seoValidator.js:54-60 | a missing @context and a missing @type are each an error exactly when falsy, and nothing else is |
| SeoValidator.StructuredDataWarnings | src/utils/seoValidator.js:62-76 | a missing headline, description, author or publisher is each warned about exactly when falsy, and never counted as an error |
| SeoValidator.Round | src/utils/seoValidator.js:122 | rounding gives the integer nearest the value, halves rounding up |
| SeoValidator.ScoreRange | src/utils/seoValidator.js:120-122 | the overall score stays within 0 to 100, and full coverage gives exactly 100 |
| SeoValidator.Grade | src/utils/seoValidator.js:125-129 | the grade is one of A, B, C, D and F |
| SeoValidator.GradeBands | src/utils/seoValidator.js:125-129 | each letter is exactly its score band, and a higher score never gets a worse letter |
| SeoValidator.GenerateReport | src/utils/seoValidator.js:82-132 | all nine pages are recorded with SEO, structured data and no issues, so the score is 100 and the grade A |
| SeoValidator.KeywordCount | src/utils/seoValidator.js:150 | splitting on commas always gives at least one piece |
| SeoValidator.CheckCommonIssues | src/utils/seoValidator.js:135-160 | the method collects exactly the issues of the configuration, and throws in the same cases |
| SeoValidator.CommonIssuesRules | src/utils/seoValidator.js:135-160 | it throws exactly on truthy tags that are neither string nor array or truthy keywords that are not a string; otherwise each issue is reported exactly under its rule, and too few and too many keywords never together |
| SeoValidator.MetaTagWindows | src/utils/seoValidator.js:163-187 | for string fields: present means non-empty, title optimal at 30 to 60 characters, description at 120 to 160, keywords at 5 to 15 pieces, and the URL valid when it starts with a slash |
| SitemapGenerator.SitemapPages | src/utils/sitemapGenerator.js:8-64 | the sitemap lists eight pages |
| SitemapGenerator.ImageBlocksEmpty | src/utils/sitemapGenerator.js:77-86 | the image blocks are empty exactly when there are no images, and each image adds text |
| SitemapGenerator.UrlEntry | src/utils/sitemapGenerator.js:71-90 | the string the method builds with its image loop is the page's url element |
| SitemapGenerator.SitemapEntries | src/utils/sitemapGenerator.js:70-91 | one url element per page, in order |
| SitemapGenerator.GenerateSitemap | src/utils/sitemapGenerator.js:4-95 | the method builds the sitemap document: the header, the url elements joined by newlines, and the closing tag |
| SitemapGenerator.SitemapEntriesShape | src/utils/sitemapGenerator.js:70-91 | every url element opens with the page's absolute location, and carries image blocks exactly when the page has a non-empty image list |
| SitemapGenerator.OnlyHomeHasImages | src/utils/sitemapGenerator.js:8-64 | of the eight pages only the home page lists images, and it lists one |
| SitemapGenerator.SelectTemplateRule | src/utils/sitemapGenerator.js:202 | corrected: the person and article names select their own template and every other name the website one |
| SitemapGenerator.PersonSelected | src/utils/sitemapGenerator.js:126-203 | the page type "person" gets the person structured data |
| SitemapGenerator.ArticleSelected | src/utils/sitemapGenerator.js:126-203 | the page type "article" gets the article structured data built from the page |
| SitemapGenerator.WebsiteFallback | src/utils/sitemapGenerator.js:126-203 | corrected: every other page type falls back to the website structured data |
| SitemapGenerator.TemplateKeys | src/utils/sitemapGenerator.js:126-200 | the template table holds exactly the person, website and article templates |
| SitemapGenerator.InheritedNotTemplateName | src/utils/sitemapGenerator.js:202 | no inherited member is named like a template |
| SitemapGenerator.PageStructuredDataAsWrittenDeparts | src/utils/sitemapGenerator.js:202 | as written the structured data is an inherited member exactly for an inherited page type, and the corrected template for every other page type |
| SitemapGenerator.ToStringPageStructuredData | src/utils/sitemapGenerator.js:202 | the page type "toString" gets the inherited method as written, where the website template is meant |
| SitemapGenerator.ArticleHeadline | src/utils/sitemapGenerator.js:179-181 | the article data has type Article and the given headline |
| SitemapGenerator.ArticleFrontKeys | src/utils/sitemapGenerator.js:178-192 | the article's leading fields hold neither url nor mainEntityOfPage, so those later fields are the ones read |
| SitemapGenerator.ArticleUrl | src/utils/sitemapGenerator.js:193-198 | the article's url and its mainEntityOfPage id are the same page URL |
| SitemapGenerator.PageUrlRule | src/utils/sitemapGenerator.js:193 | the page URL starts with the base URL; no url gives the bare base, a string url is appended to it |
| SitemapGenerator.GenerateMetaTags | src/utils/sitemapGenerator.js:208-225 | the meta url always starts with the base URL and the author is always the site owner |
| SitemapGenerator.MetaTagsDefaults | src/utils/sitemapGenerator.js:208-225 | an empty page gets every default; a supplied title and url are used, and missing tags become the empty list |
| SitemapGenerator.ValidateSeoData | src/utils/sitemapGenerator.js:228-251 | the method collects the four length checks in order, and the data is valid exactly when none failed |
| SitemapGenerator.MissingFieldsOnlyTooShort | src/utils/sitemapGenerator.js:231-245 | a missing title or description gets only its too-short error, never its too-long one |
| SitemapGenerator.SeoDataWindows | src/utils/sitemapGenerator.js:231-245 | with a description of 120 to 160 characters, a title of 30 to 60 passes, and a longer title gets exactly the too-long error |
| SeoConfig.PageSettings | src/config/seo.js:17-98 | a page name that is not listed has no settings of its own |
| SeoConfig.PageWellFormed | src/config/seo.js:17-98 | every listed page's settings are well formed, and an unlisted name has none |
| SeoConfig.GetSEOConfigLookup | src/config/seo.js:261-266 | a key the page sets takes the page's value, any other key the default's; the merged settings hold exactly the keys of either |
| SeoConfig.UnknownPageIsDefault | src/config/seo.js:261-266 | an unknown page gets the default settings unchanged |
| SeoConfig.SiteIdentityFromDefaults | src/config/seo.js:4-14 | author, site name, image and locale always come from the defaults |
| SeoConfig.PageUrlOverrides | src/config/seo.js:261-266 | every listed page's url replaces the site's |
| SeoConfig.StructuredDataLookup | src/config/seo.js:269-277 | a key of the data wins, even @context or @type; otherwise the context and type are those given |
| SeoConfig.StructuredDataWithoutData | src/config/seo.js:269-277 | with no data the object holds just the context and the type |
| DataTable.PassesFiltersAll | src/components/admin/DataTable.jsx:48-60 | a row passes the column filters exactly when it matches every filter whose text is not empty |
| DataTable.FilteredDataMembers | src/components/admin/DataTable.jsx:35-63 | the filtered rows keep their order, and a row is kept exactly when it matches the search (when one applies) and every non-empty column filter |
| DataTable.ApplyFilters | src/components/admin/DataTable.jsx:36-62 | the search pass followed by one pass per filter entry computes exactly the filtered rows |
| DataTable.SortedData | src/components/admin/DataTable.jsx:66-77 | sorting returns a permutation of the filtered rows |
| DataTable.SortedByStringField | src/components/admin/DataTable.jsx:69-76 | when the field holds text in every row, the rows come out in non-decreasing order of that text for "asc" and non-increasing otherwise |
| DataTable.SortedByNumberField | src/components/admin/DataTable.jsx:69-76 | when the field holds a number in every row, the rows come out in numeric order of that field, ascending for "asc" and descending otherwise |
| DataTable.PageWindow | src/components/admin/DataTable.jsx:80-86 | page p shows rows (p - 1)·n up to p·n, cut at the end of the list, so at most n rows |
| DataTable.PagesCoverRows | src/components/admin/DataTable.jsx:85-88 | the first ceil(count / n) pages together are all the rows, and every later page is empty |
| DataTable.ColumnValues | src/components/admin/DataTable.jsx:116 | one value per row: the row's value in that field |
| DataTable.FilterOptionsMembers | src/components/admin/DataTable.jsx:115-118 | a value is offered exactly when it is truthy and some row holds it in that field |
| DataTable.FilterOptionsOrdered | src/components/admin/DataTable.jsx:116-117 | the options have no repeats and are in non-decreasing order of their text |
| DataTable.NextSort | src/components/admin/DataTable.jsx:90-99 | a table that does not sort keeps its order; a new field sorts ascending; the same field flips its direction |
| DataTable.SortClickTwice | src/components/admin/DataTable.jsx:90-99 | two clicks on the sorted field restore its direction; two clicks on a new field leave it descending |
| DataTable.SetFilterEffect | src/components/admin/DataTable.jsx:101-105 | after a filter change a row passes exactly when it matches the new text for that field (an empty text accepts every row) and every other filter |
| DataTable.Table.constructor | src/components/admin/DataTable.jsx:15-32 | the initial state: no search, no sort field, ascending, page 1, no filters, filter panel closed; missing data is no rows |
| DataTable.Table.Render | src/components/admin/DataTable.jsx:65-88 | the rows shown are the current page of the sorted filtered rows, never more than a page; the page count is ceil(filtered / n) |
| DataTable.Table.HandleSort | src/components/admin/DataTable.jsx:90-99 | sort field and direction change as described by the click rule; nothing else changes |
| DataTable.Table.SetSearchTerm | src/components/admin/DataTable.jsx:27 | the search term is replaced and nothing else changes |
| DataTable.Table.HandleFilterChange | src/components/admin/DataTable.jsx:101-107 | the filter for that field is set, the page goes back to 1, nothing else changes |
| DataTable.Table.ClearFilters | src/components/admin/DataTable.jsx:109-113 | filters and search term are emptied and the page goes back to 1; every row is then listed |
| DataTable.Table.ToggleFilters | src/components/admin/DataTable.jsx:32 | the filter panel opens or closes and nothing else changes |
| DataTable.Table.PreviousPage | src/components/admin/DataTable.jsx:378 | the page goes down by one but not below 1 |
| DataTable.Table.NextPage | src/components/admin/DataTable.jsx:400 | the page goes up by one but not past the last page |
| DataTable.Table.GoToPage | src/components/admin/DataTable.jsx:385-388 | a numbered button moves to its page |
| DataTable.StringFieldOrder | src/components/admin/DataTable.jsx:69-76 | on rows holding strings in the sort column the comparison is a strict weak order, so sorting is well defined |
| DataTable.NumberFieldOrder | src/components/admin/DataTable.jsx:69-76 | on rows holding numbers in the sort column the comparison is a strict weak order |
| AdminContext.SetterChangesOneField | src/contexts/AdminContext.jsx:46-83 | every SET_ action stores its payload in its own field and leaves every other field as it was |
| AdminContext.UpdateDataChangesOneSection | src/contexts/AdminContext.jsx:55-62 | UPDATE_DATA stores the data under its section, keeps every other section and adds no other key, and changes no other field |
| AdminContext.ResetAndUnknown | src/contexts/AdminContext.jsx:85-89 | RESET_STATE gives the initial state; an unknown action gives back the state unchanged |
| AdminContext.ReduceIdempotent | src/contexts/AdminContext.jsx:44-91 | dispatching any action twice has the effect of dispatching it once |
| AdminContext.SectionListOfObject | src/contexts/AdminContext.jsx:148-152 | a section whose first own key holds an array edits that array under that key |
| AdminContext.SectionListEdgeCases | src/contexts/AdminContext.jsx:148-152 | an empty section edits a list kept under the key "undefined"; a missing or null section throws |
| AdminContext.WithListEffect | src/contexts/AdminContext.jsx:150-153 | the rebuilt section holds the new list under the first key and every other key as before |
| AdminContext.SetIndex | src/contexts/AdminContext.jsx:164 | an index inside the list replaces only that entry; an index past the end grows the list with undefined holes up to it |
| AdminContext.RemoveAt | src/contexts/AdminContext.jsx:178 | an index in range, counted from the end when negative, removes exactly that entry and shifts the rest down; past the end nothing is removed |
| AdminContext.EditsUndo | src/contexts/AdminContext.jsx:152-178 | deleting the entry just added gives back the list; writing an entry back unchanged leaves the list as it was |
| AdminContext.AddItemData | src/contexts/AdminContext.jsx:146-157 | the new section exists exactly when the section list can be read, and is the section with the new item appended to that list |
| AdminContext.AddItemAppends | src/contexts/AdminContext.jsx:146-157 | the list grows by one entry at its end, the earlier entries stay, and the other keys of the section stay |
| AdminContext.EditItemData | src/contexts/AdminContext.jsx:159-172 | the new section exists exactly when the section list can be read |
| AdminContext.EditItemReplaces | src/contexts/AdminContext.jsx:159-172 | editing an index inside the list keeps its length, stores the item there and keeps every other entry and every other key |
| AdminContext.DeleteItemData | src/contexts/AdminContext.jsx:174-185 | the new section exists exactly when the section list can be read |
| AdminContext.DeleteItemRemoves | src/contexts/AdminContext.jsx:174-185 | deleting an index inside the list removes that entry only, keeps the order of the rest and keeps every other key |
| AdminContext.AdminStore.constructor | src/contexts/AdminContext.jsx:4-26 | the provider starts in the initial state: not authenticated, on the dashboard, each section empty |
| AdminContext.AdminStore.Dispatch | src/contexts/AdminContext.jsx:98 | the new state is the reducer applied to the old state and the action |
| AdminContext.AdminStore.Login | src/contexts/AdminContext.jsx:127-130 | the state becomes authenticated with that user; nothing else changes |
| AdminContext.AdminStore.Logout | src/contexts/AdminContext.jsx:132-134 | the state goes back to the initial state |
| AdminContext.AdminStore.SaveData | src/contexts/AdminContext.jsx:141-144 | the section is replaced through UPDATE_DATA |
| AdminContext.AdminStore.AddItem | src/contexts/AdminContext.jsx:146-157 | the new section is dispatched when the list can be read; otherwise the action throws before dispatching and the state stays |
| AdminContext.AdminStore.EditItem | src/contexts/AdminContext.jsx:159-172 | the edited section is dispatched when the list can be read; otherwise the state stays |
| AdminContext.AdminStore.DeleteItem | src/contexts/AdminContext.jsx:174-185 | the shortened section is dispatched when the list can be read; otherwise the state stays |
| Search.LowerValue | src/hooks/useSearch.js:44 | lower-casing succeeds exactly on strings, and gives the lower-cased text |
| Search.AnyFieldMatches | src/hooks/useSearch.js:40-51 | when no field throws, an item matches exactly when some search field matches; a match is always the match of some field |
| Search.FieldMatchOnText | src/hooks/useSearch.js:41-50 | a falsy field never matches; on a string field the test is a substring test, or equality with exactMatch, on lower-cased text unless caseSensitive |
| Search.SearchResultsSpec | src/hooks/useSearch.js:35-61 | a term shorter than minLength returns the data unchanged; otherwise the results keep the data's order and hold exactly the items the search accepts; it throws exactly when the search throws on some item |
| Search.StatsBounded | src/hooks/useSearch.js:64-73 | the statistics never report more results than items, and the item count is the data's length |
| Search.SearchBox.constructor | src/hooks/useSearch.js:14-26 | no term typed, none searched, no search pending, and the first render's timer for the empty term pending |
| Search.SearchBox.UpdateSearchTerm | src/hooks/useSearch.js:21-32 | the typed term is replaced and a search is pending; the searched term stays; a timer holding the term starts exactly when the term changed |
| Search.SearchBox.TimerFires | src/hooks/useSearch.js:21-26 | the oldest pending timer fires: the searched term becomes the term it holds, no search is pending, and once no timer is left the searched term is the typed one |
| Search.SearchBox.ClearSearch | src/hooks/useSearch.js:76-80 | both terms are emptied, nothing is pending, every item is listed again, and a timer for the empty term starts when a term was typed |
| Search.StaleTimerScenario | src/hooks/useSearch.js:21-32 | typing "a" and then "ab" leaves a timer for "a", whose firing makes the search use "a" while "ab" is typed |
| Search.ApplyFiltersSpec | src/hooks/useSearch.js:128-143 | the filtered items keep the data's order and are exactly the items every filter accepts; with no filters every item stays |
| Search.UpdateFilterEffect | src/hooks/useSearch.js:146-151 | after a filter update an item passes exactly when it passes the new selection for that field and every other field's filter |
| Search.ClearFilterEffect | src/hooks/useSearch.js:154-160 | after a field's filter is cleared an item passes exactly when it passes every other field's filter |
| Search.SelectedCountAbsent | src/hooks/useSearch.js:154-160 | clearing a field that has no filter changes nothing |
| Search.ClearFilterCount | src/hooks/useSearch.js:154-172 | clearing a field removes exactly its selected values from the active count |
| Search.UpdateFilterCount | src/hooks/useSearch.js:146-172 | updating a field replaces its selected values in the active count by the new ones |
| Search.FilterPanel.constructor | src/hooks/useSearch.js:97 | no filters are active |
| Search.FilterPanel.UpdateFilter | src/hooks/useSearch.js:146-151 | the field's selection is set and the active count changes by the difference |
| Search.FilterPanel.ClearFilter | src/hooks/useSearch.js:154-160 | only the given field is removed and the active count loses its values |
| Search.FilterPanel.ClearAllFilters | src/hooks/useSearch.js:163-165 | no filters remain and the active count is 0 |
| Search.FieldValuesMembers | src/hooks/useSearch.js:107-116 | a value is collected exactly when some item holds it in the field, as the value or as an element of an array; null and undefined are never collected |
| Search.AddEach | src/hooks/useSearch.js:111 | adding values to the set one at a time keeps each value once, in first-seen order |
| Search.CollectValues | src/hooks/useSearch.js:105-116 | the nested loops collect each value of the field once, in first-seen order |
| Search.OptionValuesSpec | src/hooks/useSearch.js:103-122 | a field's options hold each value once, sorted by text with undefined last, and a value is offered exactly when some item holds it |
| Search.OptionsForLookup | src/hooks/useSearch.js:103-124 | every configured field gets its configuration with its option values, and no other field appears |
| Search.FilterOptions | src/hooks/useSearch.js:100-125 | the loop over the configured fields computes exactly the options described |
| Search.FinalDataSpec | src/hooks/useSearch.js:188-198 | the final list keeps the data's order and holds exactly the items both the search and every filter accept |
| DataManager.AllData | src/utils/dataManager.js:26-36 | one entry per data type, in the order of the type list, each holding that type's file |
| DataManager.AllDataLookup | src/utils/dataManager.js:13-36 | looking up a data type in all the data gives that type's file |
| DataManager.CachedIn | src/utils/dataManager.js:76-78 | corrected: a truthy cached entry is returned; a falsy or missing one gives null |
| DataManager.UpdateThenRead | src/utils/dataManager.js:68-78 | after a write the entry reads back the new data (null when falsy) and every other type reads as before |
| DataManager.FalsyUpdateLocks | src/utils/dataManager.js:69-70 | storing a falsy value makes the entry falsy, so every later update of that type fails |
| DataManager.DataCache.constructor | src/utils/dataManager.js:66 | the cache starts as all the data |
| DataManager.DataCache.UpdateData | src/utils/dataManager.js:68-74 | corrected: the update succeeds exactly when the cached entry is truthy, then replaces only that entry; otherwise the cache is unchanged |
| DataManager.DataCache.GetCachedData | src/utils/dataManager.js:76-78 | corrected: the result is truthy exactly when the cached entry is, and is that entry or null |
| DataManager.GetCachedDataAsWrittenDeparts | src/utils/dataManager.js:76-78 | as written a read returns an inherited member exactly for an inherited name the cache does not hold, and the corrected read otherwise |
| DataManager.UpdateDataAsWrittenDeparts | src/utils/dataManager.js:68-74 | as written an update agrees with the corrected one except for an inherited name the cache does not hold, which it accepts; "__proto__" leaves the entries as they were |
| DataManager.AllDataNoInherited | src/utils/dataManager.js:51-66 | the freshly loaded cache holds no entry named like an inherited member |
| DataManager.ConstructorUpdateAccepted | src/utils/dataManager.js:66-78 | on the freshly loaded cache an update of "constructor" is accepted and stored as written, where the corrected update refuses it and the read gives null |
| DataManager.SchemaErrorsPrefix | src/utils/dataManager.js:125-152 | each field adds its own errors after those of the fields before it |
| DataManager.ValidateData | src/utils/dataManager.js:122-155 | the loop over the schema collects exactly the schema's errors, in schema order |
| DataManager.SchemaErrorsAppend | src/utils/dataManager.js:124-152 | the errors of two schemas laid end to end are their errors laid end to end |
| DataManager.SchemaErrorsMember | src/utils/dataManager.js:124-152 | a message is reported exactly when some field of the schema reports it |
| DataManager.FalsyField | src/utils/dataManager.js:128-131 | a falsy value gives "<field> is required" when required and no error otherwise: type, minimum and maximum are only checked for truthy values |
| DataManager.FieldErrorsBound | src/utils/dataManager.js:128-151 | a field reports at most three errors, and a missing required field exactly one |
| DataManager.FieldAccepted | src/utils/dataManager.js:128-151 | a value of the right type within its bounds, or a falsy optional value, reports nothing |
| DataManager.EmptyRecordAllRequired | src/utils/dataManager.js:128-131 | an empty record fails an all-required schema with one "required" message per field, in schema order |
| DataManager.SkillLevelZeroRequired | src/utils/dataManager.js:102-131 | a skill level of 0 is reported as required, not as a number in range |
| DataManager.SkillLevelAboveRange | src/utils/dataManager.js:102-151 | a skill level of 150 is reported as above the maximum 100 only |
| DataManager.SkillLevelBelowRange | src/utils/dataManager.js:102-147 | a skill level of -5 is reported as below the minimum 0 only |
| DataManager.SkillLevelNumericString | src/utils/dataManager.js:137-151 | the text "150" is reported as not a number and, compared numerically, as above the maximum |
| DataManager.SkillLevelInRange | src/utils/dataManager.js:102-151 | every level from 1 to 100 is accepted |
| DataManager.FieldErrorsPresent | src/utils/dataManager.js:133-151 | a field that is present, or not required, is checked for its type and then for its two bounds, in that order |
| AdminUtils.ConfigFor | src/utils/adminUtils.js:8 | corrected: a type has a table configuration exactly when one is listed under that name, and the one found is listed under it |
| AdminUtils.FormErrors | src/utils/adminUtils.js:12-16 | no field gets two error messages |
| AdminUtils.FormErrorsKeys | src/utils/adminUtils.js:12-16 | a field has an error exactly when some required column with that key has a falsy value |
| AdminUtils.FormErrorsMessage | src/utils/adminUtils.js:13-14 | a missing required field's message is its column title followed by " is required" |
| AdminUtils.ValidateFormData | src/utils/adminUtils.js:6-19 | corrected: an unknown type gives no errors; a known type gives the errors of its columns |
| AdminUtils.ValidateFormDataAsWrittenDeparts | src/utils/adminUtils.js:8-16 | as written validation throws exactly for an inherited type without its own configuration, and gives the corrected errors otherwise |
| AdminUtils.ConstructorTypeValidation | src/utils/adminUtils.js:8-12 | the type "constructor" without a configuration throws as written, where no errors are meant |
| AdminUtils.DefaultFormData | src/utils/adminUtils.js:24-27 | a known type gives a copy of its default item, an unknown type the empty object |
| AdminUtils.DefaultFormErrors | src/utils/adminUtils.js:6-27 | the default item fails validation on exactly the required columns it leaves falsy |
| AdminUtils.TableData | src/utils/adminUtils.js:76-77 | a falsy section gives no rows |
| AdminUtils.TableDataOfSection | src/utils/adminUtils.js:76-81 | the rows are the array under the section's first key, or none when that value is no array or the section has no key |
| AdminUtils.StatusColor | src/utils/adminUtils.js:94-101 | corrected: exactly the six listed statuses have their own badge colour |
| AdminUtils.StatusClass | src/utils/adminUtils.js:104 | corrected: a listed status takes its colour and any other the grey badge |
| AdminUtils.InheritedNotStatus | src/utils/adminUtils.js:94-101 | no inherited member is a listed status |
| AdminUtils.StatusClassAsWrittenDeparts | src/utils/adminUtils.js:104 | as written the class is an inherited member exactly for an inherited status, and the corrected class otherwise |
| AdminUtils.ValueOfStatusClass | src/utils/adminUtils.js:104 | the status "valueOf" gets the inherited method as its class as written, where the grey badge is meant |
| AdminUtils.MoreSuffix | src/utils/adminUtils.js:90 | the " +k more" suffix appears exactly when more than three elements are present |
| AdminUtils.ArrayJoinStrings | src/utils/adminUtils.js:88-90 | joining string elements joins their texts |
| AdminUtils.ArrayCellOfStrings | src/utils/adminUtils.js:87-91 | an array of strings shows its first three joined by ", ", then " +k more" for the k left out |
| AdminUtils.TextCell | src/utils/adminUtils.js:116-120 | a text over 50 characters is cut to its first 50 and "..." (53 in all); a shorter one is shown whole; an empty one shows "-" |
| AdminUtils.FalsyCell | src/utils/adminUtils.js:120 | a falsy value outside the status, date and number columns shows "-" |
| AdminUtils.StatusCell | src/utils/adminUtils.js:93-106 | corrected: a status cell keeps the value and takes the status's badge colour, grey for an unlisted status |
| AdminUtils.HealthStatusStyle | src/utils/adminUtils.js:162-169 | corrected: good is green, warning yellow, error red; any other status is grey |
| AdminUtils.HealthStatusIcon | src/utils/adminUtils.js:174-183 | corrected: good shows the check, warning and error the alert, anything else the activity icon |
| AdminUtils.HealthBadgeAgrees | src/utils/adminUtils.js:162-183 | the fallback icon and the fallback style are used for exactly the same statuses |
| AdminUtils.InheritedNotHealthState | src/utils/adminUtils.js:163-181 | no inherited member is a health state |
| AdminUtils.HealthStatusStyleAsWrittenDeparts | src/utils/adminUtils.js:168 | as written the style is an inherited member exactly for an inherited status, and the corrected style otherwise |
| AdminUtils.HealthStatusIconAsWrittenDeparts | src/utils/adminUtils.js:182 | as written the icon is an inherited member exactly for an inherited status, and the corrected icon otherwise |
| AdminUtils.ToStringHealthBadge | src/utils/adminUtils.js:162-183 | the status "toString" gets the inherited method as style and icon as written, where grey and the activity icon are meant |
| ErrorHandler.NetworkTakesPrecedence | src/utils/errorHandler.js:98-102 | the NetworkError name, or a message mentioning "fetch", gives the network category whatever the status |
| ErrorHandler.HttpStatusMapping | src/utils/errorHandler.js:92-120 | without a network marker a numeric status gives: 404 not found, any other 4xx client, 5xx server, anything else unknown |
| ErrorHandler.StringStatusIsClientError | src/utils/errorHandler.js:106-110 | a status given as the string "404" falls in the 4xx case but fails the strict test for 404, so it is a client error |
| ErrorHandler.MarkersNeedNoStatus | src/utils/errorHandler.js:123-134 | the validation and permission categories are only given when there is neither a network marker nor a truthy status |
| ErrorHandler.NeverCritical | src/utils/errorHandler.js:92-134 | no branch gives the critical severity; every category is medium or high |
| ErrorHandler.CategorizeError | src/utils/errorHandler.js:88-151 | the record carries the category's type and severity, the time, the original error and its message or "Unknown error"; a null or undefined error throws |
| ErrorHandler.LogMethod | src/utils/errorHandler.js:158-160 | critical and high are logged as errors, medium as warnings, anything else plainly |
| ErrorHandler.Bump | src/utils/errorHandler.js:208-209 | one counter goes up by one and the others stay, so the total goes up by one |
| ErrorHandler.TalliedTotal | src/utils/errorHandler.js:207-210 | the counts collected over a list add up to its length |
| ErrorHandler.TalliedCount | src/utils/errorHandler.js:207-210 | each key's count is the number of times it occurs |
| ErrorHandler.RemoveFirst | src/utils/errorHandler.js:47-52 | an absent listener leaves the list as it is; a present one loses exactly its first occurrence |
| ErrorHandler.Registry.constructor | src/utils/errorHandler.js:32-35 | the log and the listener list start empty |
| ErrorHandler.Registry.AddListener | src/utils/errorHandler.js:40-42 | the listener is appended and the log is unchanged |
| ErrorHandler.Registry.RemoveListener | src/utils/errorHandler.js:47-52 | the first occurrence of the listener, if any, is removed and the log is unchanged |
| ErrorHandler.Registry.NotifyListeners | src/utils/errorHandler.js:57-65 | every listener is called, in order, even after one of them throws |
| ErrorHandler.Registry.HandleError | src/utils/errorHandler.js:70-83 | exactly one record is appended, every listener is called with it, and it is returned; an error that cannot be categorized throws before anything changes |
| ErrorHandler.Registry.ErrorsByType | src/utils/errorHandler.js:176-178 | the errors of that type, in log order |
| ErrorHandler.Registry.ErrorsBySeverity | src/utils/errorHandler.js:183-185 | the errors of that severity, in log order |
| ErrorHandler.Registry.ClearErrors | src/utils/errorHandler.js:190-192 | the log is emptied and the listeners stay |
| ErrorHandler.Registry.GetErrorStats | src/utils/errorHandler.js:197-213 | the total is the number of errors, the per-type and per-severity counts are tallies of the log, and the recent count is the errors of the last 24 hours |
| ErrorHandler.StatsAddUp | src/utils/errorHandler.js:197-213 | the per-type counts and the per-severity counts each add up to the total |
| ErrorHandler.Schedule | src/utils/errorHandler.js:345 | the wait after failed attempt k + 1 is delay times 2 to the k |
| ErrorHandler.ScheduleDoubles | src/utils/errorHandler.js:345 | each wait is twice the one before |
| ErrorHandler.WithRetry | src/utils/errorHandler.js:331-351 | at most maxRetries calls; it stops at the first success and returns its value, otherwise rethrows the error of the last call; between calls it waits by the schedule |
| ErrorHandler.DefaultSchedule | src/utils/errorHandler.js:331-345 | with the defaults the waits are 1000 and then 2000 ms |
| Accessibility.NavItemLabel | src/utils/accessibility.js:10-11 | the name alone, or the name followed by ", current page" exactly when the item is current |
| Accessibility.ButtonLabel | src/utils/accessibility.js:14-15 | the action alone when there is no target, else the action, a space and the target |
| Accessibility.LinkLabel | src/utils/accessibility.js:18-19 | the text alone, or the text followed by ", opens in new tab" exactly when the link is external |
| Accessibility.ImageLabel | src/utils/accessibility.js:22-23 | empty exactly for a decorative image; otherwise the alternative text, or "Image" when that text is empty |
| Accessibility.FormFieldLabel | src/utils/accessibility.js:26-27 | the caption, then ", required" when required, then ", has error" when in error; its length is exactly that |
| Accessibility.FormFieldComposes | src/utils/accessibility.js:26-27 | the required and error suffixes are independent: the label is the caption-and-required label followed by the error suffix |
| Accessibility.StatusLabel | src/utils/accessibility.js:30-31 | the label is the kind, ": ", then exactly the message |
| Accessibility.TableCellLabel | src/utils/accessibility.js:34-35 | a header cell is prefixed with "header ", any other cell is its content |
| Accessibility.ProgressLabel | src/utils/accessibility.js:38-39 | the label is the caption, ": ", then "<current> of <total> complete" |
| Accessibility.DefaultArguments | src/utils/accessibility.js:10-39 | with the optional arguments left out, no current-page, target, new-tab, required, error or header marking is added, an image is not decorative, the kind is "info" and the caption "progress" |
| Accessibility.SuffixDigits | src/utils/accessibility.js:45-46 | a generated id is the prefix, a dash, and the counter's decimal digits |
| Accessibility.IdsDistinct | src/utils/accessibility.js:45-46 | ids made from different counter values differ, whatever their prefixes |
| Accessibility.IdGenerator.constructor | src/utils/accessibility.js:45 | the module counter starts at zero |
| Accessibility.IdGenerator.GenerateId | src/utils/accessibility.js:46 | the counter goes up by one and the id carries the new counter value; the prefix defaults to "id" |
| Accessibility.FirstDefaultId | src/utils/accessibility.js:45-46 | the first id a fresh counter hands out with the default prefix is "id-1" |
| Accessibility.HandleArrowKeys | src/utils/accessibility.js:53-72 | the four navigation keys and only they are handled; down moves to the next item but not past the last, up to the previous but not before the first |
| Accessibility.ArrowKeysStayInList | src/utils/accessibility.js:53-72 | from an item in the list every new index is in the list; Home goes to the first, End to the last |
| Accessibility.DownThenUp | src/utils/accessibility.js:56-62 | away from the last item, down then up comes back to the same item |
| Accessibility.ArrowsClampAtEnds | src/utils/accessibility.js:56-62 | down at the last item and up at the first stay where they are |
| Accessibility.HandleActivation | src/utils/accessibility.js:75-80 | Enter and Space, and only they, call back and prevent the default |
| Accessibility.NavigationAndActivationDisjoint | src/utils/accessibility.js:53-80 | no key is both a navigation key and an activation key |
| ContentForm.DefaultFormData | src/components/admin/ContentForm.jsx:26-118 | corrected: a listed content type starts from its non-empty blank item, any other type from the empty object |
| ContentForm.InheritedNotContentType | src/components/admin/ContentForm.jsx:26-116 | no content type is named like an inherited member |
| ContentForm.DefaultFormDataAsWrittenDeparts | src/components/admin/ContentForm.jsx:117 | as written the default form is an inherited member exactly for an inherited type, and the corrected default otherwise |
| ContentForm.HasOwnPropertyDefaultForm | src/components/admin/ContentForm.jsx:117 | the type "hasOwnProperty" starts from the inherited method as written, where the empty object is meant |
| ContentForm.MissingErrorsEmpty | src/components/admin/ContentForm.jsx:168-190 | no error is recorded exactly when every required field is truthy |
| ContentForm.MissingErrorsKeys | src/components/admin/ContentForm.jsx:172-186 | a field has an error exactly when it is required and falsy |
| ContentForm.RequiredFieldsStartBlank | src/components/admin/ContentForm.jsx:26-118 | every field the validation requires starts as the empty string on a new item |
| ContentForm.BlankFormRejected | src/components/admin/ContentForm.jsx:26-190 | a new item of a type with required fields is never accepted, and each of its required fields is reported |
| ContentForm.WithoutIndexKeepsOthers | src/components/admin/ContentForm.jsx:155 | removing an index keeps every other element in order; an index outside the list removes nothing |
| ContentForm.WithItemField | src/components/admin/ContentForm.jsx:162-164 | editing one item keeps the array's length |
| ContentForm.WithItemFieldEffect | src/components/admin/ContentForm.jsx:162-164 | only the item at the index changes, and there only the given field takes the new value |
| ContentForm.ArrayAddCreatesMissing | src/components/admin/ContentForm.jsx:148 | a missing array is started empty, and an existing array is spread element by element |
| ContentForm.WithChild | src/components/admin/ContentForm.jsx:138-141 | the nested value is always an object |
| ContentForm.WithChildEffect | src/components/admin/ContentForm.jsx:138-141 | in the nested object the child field takes the value and every other field keeps the parent's |
| ContentForm.SelectOptions | src/components/admin/ContentForm.jsx:243-276 | every option's value is its label, and a field without choices has none |
| ContentForm.BlankSelectsAreOptions | src/components/admin/ContentForm.jsx:243-276 | the select values a new item starts with are among their field's choices |
| ContentForm.Form.constructor | src/components/admin/ContentForm.jsx:16-24 | the form opens on the item being edited or on the blank item of its type, with no errors |
| ContentForm.Form.HandleInputChange | src/components/admin/ContentForm.jsx:120-133 | the field takes the value, and its error, when set, is cleared |
| ContentForm.Form.HandleNestedInputChange | src/components/admin/ContentForm.jsx:135-143 | the parent field becomes the parent object with the child field set |
| ContentForm.Form.HandleArrayAdd | src/components/admin/ContentForm.jsx:145-150 | the item is appended to the array, created when missing; a value that cannot be spread throws and changes nothing |
| ContentForm.Form.HandleArrayRemove | src/components/admin/ContentForm.jsx:152-157 | on an array the indexed element is removed; on anything else it throws and changes nothing |
| ContentForm.Form.HandleArrayItemChange | src/components/admin/ContentForm.jsx:159-166 | on an array the indexed item's field is set; on anything else it throws and changes nothing |
| ContentForm.Form.ValidateForm | src/components/admin/ContentForm.jsx:168-190 | the errors become exactly the missing required fields, and the form is valid exactly when every required field is truthy |
| Performance.Rate | src/hooks/usePerformanceMonitor.js:111-120 | a metric is good exactly when at or under its good threshold, and poor exactly when above both thresholds |
| Performance.CountGood | src/hooks/usePerformanceMonitor.js:122 | the number of good ratings never exceeds the number of ratings |
| Performance.GoodCountByMetric | src/hooks/usePerformanceMonitor.js:111-122 | the good count is one for each of the four metrics at or under its good threshold |
| Performance.PerformanceScore | src/hooks/usePerformanceMonitor.js:110-132 | the score carries the four ratings, an overall fraction between 0 and 1, and a grade from A to D |
| Performance.GradeByGoodCount | src/hooks/usePerformanceMonitor.js:122-131 | A exactly for four good metrics, B for three, C for two, D for fewer; the overall score is the good count over four |
| Performance.GoodPerformanceMeansThreeGood | src/hooks/usePerformanceMonitor.js:137 | the performance is good exactly when three or more metrics are good, that is, on grade A or B |
| Performance.FasterIsNoWorse | src/hooks/usePerformanceMonitor.js:110-137 | lower metrics never lower the good count, and never turn good performance into bad |
| Performance.InitialMetricsGradeA | src/hooks/usePerformanceMonitor.js:8-15 | before any measurement every metric is zero, which grades A and counts as good |
| Performance.ShiftSumAppend | src/hooks/usePerformanceMonitor.js:63-69 | the layout shift of two batches of entries is the sum of the batches' shifts |
| Performance.InputShiftsIgnored | src/hooks/usePerformanceMonitor.js:66 | shifts that followed recent input never count |
| Performance.ObserveLayoutShifts | src/hooks/usePerformanceMonitor.js:63-74 | the observer's loop adds exactly the batch's shifts without recent input to the running score |
| Analytics.GetPageTitle | src/config/analytics.js:98-112 | never empty; a known route gets its own title and any other path the site's name |
| Analytics.GetContentGroup | src/config/analytics.js:115-129 | always one of the listed groups; a known route gets its own group and any other path the home group |
| Analytics.SamePaths | src/config/analytics.js:99-126 | the title map and the group map cover the same nine routes |
| Analytics.DefaultTitleOnlyForUnknown | src/config/analytics.js:98-112 | the site's name is the title exactly for the unknown paths |
| Analytics.TitlesIdentifyRoutes | src/config/analytics.js:99-109 | different routes have different titles |
| Analytics.HomeGroupCases | src/config/analytics.js:115-129 | the home group is reported exactly for the home route and for unknown paths |
| Analytics.SocialRoute | src/config/analytics.js:108-125 | the social route has the title "Social Media - Connect" and the group "Social" |
| ScholarScraper.WaitTime | src/services/scholarScraper.js:42-52 | the wait is positive exactly when less than the delay has passed, and it lasts exactly until the delay is over |
| ScholarScraper.RateLimiter.constructor | src/services/scholarScraper.js:7-11 | the limiter starts with its delay and no request made |
| ScholarScraper.RateLimiter.WaitForRateLimit | src/services/scholarScraper.js:42-52 | the limiter waits the time still owed and records the later clock, so consecutive requests through it (each call finished before the next starts) are at least the delay apart |
| ScholarScraper.RequestsSpaced | src/services/scholarScraper.js:42-52 | after the wait the next request is at least the delay after the last one, and no wait happens once the delay has passed |
| ScholarScraper.BuildSearchQuery | src/services/scholarScraper.js:36-39 | the query is the quoted title, a space, and the first author trimmed |
| ScholarScraper.FirstAuthorOnly | src/services/scholarScraper.js:37 | only the text before the first comma is used as the author |
| ScholarScraper.SingleAuthor | src/services/scholarScraper.js:37 | a single author is used whole, trimmed |
| ScholarScraper.MockScholarResponse | src/services/scholarScraper.js:55-73 | corrected: the entry of the title's slug for the two known papers, and the unknown entry for every other title |
| ScholarScraper.MockDependsOnSlugOnly | src/services/scholarScraper.js:71-72 | titles with the same slug get the same answer |
| ScholarScraper.MockEntriesWellFormed | src/services/scholarScraper.js:56-72 | every count is at least zero, and a positive count comes with its year, venue and authors |
| ScholarScraper.MockLookupAsWritten | src/services/scholarScraper.js:71-72 | as written the lookup returns an inherited member exactly when the slug is "constructor", and the table entry otherwise |
| ScholarScraper.ConstructorTitleHitsPrototype | src/services/scholarScraper.js:71-72 | the title "Constructor" returns the inherited function as written, where the unknown entry is evidently meant |
| ScholarScraper.ExtractCitationCount | src/services/scholarScraper.js:76-80 | every page counts as zero citations |
| ScholarScraper.ExtractIgnoresPage | src/services/scholarScraper.js:76-80 | the count does not depend on the page |
| ScholarScraper.Scraper.constructor | src/services/scholarScraper.js:7-11 | the scraper's limiter has the two-second delay and no request made |
| ScholarScraper.Scraper.SearchPaper | src/services/scholarScraper.js:14-33 | corrected: after waiting its turn, the query and the corrected table answer (`MockScholarResponse`) for the title; authors that are not a string throw and give null |
| ScholarScraper.Scraper.GetPaperDetails | src/services/scholarScraper.js:83-99 | corrected: after waiting its turn, the answer is the corrected table answer (`MockScholarResponse`) for the DOI taken as a title |
| SearchFilter.Toggled | src/components/SearchFilter.jsx:88-97 | single choice selects only the value; multiple choice flips the value's membership and keeps every other value's |
| SearchFilter.DeselectMembers | src/components/SearchFilter.jsx:91 | deselecting keeps exactly the values other than the one clicked |
| SearchFilter.ToggleTwiceRestoresMembership | src/components/SearchFilter.jsx:88-93 | clicking the same value twice restores which values are selected |
| SearchFilter.SelectThenDeselect | src/components/SearchFilter.jsx:90-92 | selecting a new value and deselecting it gives the selection back exactly |
| SearchFilter.DeselectKeepsOrder | src/components/SearchFilter.jsx:91 | deselecting keeps the other values in their order |
| SearchFilter.FindLabel | src/components/SearchFilter.jsx:138 | nothing is found exactly when no option has the value; otherwise the label of the first option that has it |
| SearchFilter.DisplayText | src/components/SearchFilter.jsx:135-139 | the placeholder when nothing is selected; one value shows its option's label or the value itself; more show their count |
| SearchFilter.UnlabelledValueShown | src/components/SearchFilter.jsx:138 | a single value without a labelled option shows as itself |
| SearchFilter.Dropdown.constructor | src/components/SearchFilter.jsx:77-78 | the dropdown starts closed with no option focused |
| SearchFilter.Dropdown.HandleToggle | src/components/SearchFilter.jsx:83-86 | the list opens or closes and the focus is cleared |
| SearchFilter.Dropdown.HandleOptionClick | src/components/SearchFilter.jsx:88-97 | the toggled selection is handed on; a single-choice dropdown also closes |
| SearchFilter.Dropdown.HandleKeyDown | src/components/SearchFilter.jsx:100-121 | arrow keys move the focus, Enter and Space pick the focused option or else toggle the list, Escape closes it, and other keys change nothing |
| SearchFilter.ResultsSummary | src/components/SearchFilter.jsx:242-253 | with both counts the line shows them and the number hidden, exactly when they differ; otherwise a bare count, 0 when unknown |
| SearchFilter.HasFilters | src/components/SearchFilter.jsx:269-271 | true exactly when some filter has a selected value |
| SearchFilter.ChipText | src/components/SearchFilter.jsx:279-286 | a chip shows its option's label, or the value when there is none |
| SearchFilter.AllChipsCount | src/components/SearchFilter.jsx:269-297 | there are no chips exactly when no filter has a selected value |
| SearchFilter.ChipsPresent | src/components/SearchFilter.jsx:269-297 | chips render exactly when some filter is active, and each chip names a filter and removes a value selected in it |
| SearchFilter.AllChipsCarrySelected | src/components/SearchFilter.jsx:277-296 | every chip built from the filters carries a key of one of them and a value selected in that filter |
| PublicationsPage.InitialPublications | src/pages/Publications.jsx:16-97 | the page starts with four publications |
| PublicationsPage.TotalCitationsAppend | src/pages/Publications.jsx:120 | the total of two lists laid end to end is the sum of their totals |
| PublicationsPage.TotalCitationsBounds | src/pages/Publications.jsx:120 | with no negative counts the total is at least every single count |
| PublicationsPage.NonNegativeTotal | src/pages/Publications.jsx:120 | with no negative counts the total is never negative |
| PublicationsPage.CountsPartitionList | src/pages/Publications.jsx:121-122 | published papers and the rest make up the list, as do abstracts and the rest |
| PublicationsPage.ResearchStats | src/pages/Publications.jsx:124-129 | four figures: the number of publications, published papers, abstracts and the citation total, each as text |
| PublicationsPage.InitialStatistics | src/pages/Publications.jsx:16-122 | the starting list has four citations, two published papers and one abstract |
| PublicationsPage.Page.constructor | src/pages/Publications.jsx:16-99 | the page opens on the starting list with no update time |
| PublicationsPage.Page.UpdateCitations | src/pages/Publications.jsx:107-117 | a successful refresh replaces the list and stamps the time; a failed one leaves both as they were |
| PublicationsPage.RefreshKeepsKinds | src/pages/Publications.jsx:107-122 | a refresh changes only counts, so the paper and abstract figures stay |
| PublicationsPage.SameKindsSameCounts | src/pages/Publications.jsx:121-122 | lists with the same status and type at each position have the same paper and abstract figures |

## Left out

- Network clients are not modelled. This covers the Semantic Scholar and CrossRef clients of `scholarScraper.js`, and the `fetch`, abort and timeout paths of `citationService.js`. The value a request settles with is a parameter.
- `fetchScholarProfile`, `checkApiAvailability` and `getPublicationsWithMockCitations` of the citation service are not modelled. The first two are network calls; the third only wraps the modelled mock count.
- `updateAllCitations` is modelled as the individual update it calls.
- `downloadCitations`, `exportToJSON` and `importFromJSON` are left out. They are file, Blob and FileReader I/O.
- `generateScholarSearchUrl` is modelled only as its un-encoded query, `CitationService.ScholarSearchQuery`. `encodeURIComponent` is a foreign call.
- `JSON.stringify` is not modelled. The structured-data builders are modelled as the object before it is stringified.
- localStorage is left out. This covers the admin context's loading and persistence, and the data manager's `getDataByType`.
- Dispatching in the admin context is modelled as applying the reducer. React's scheduling of state updates is not modelled.
- The admin utilities `generateTableColumns`, `calculateStats`, `generateRecentActivity` and `checkSystemHealth` are left out. They reshape static configuration, or depend on `Math.random` and the clock.
- Error ids and timestamps are parameters.
- The error handler's console and analytics logging is modelled only as the choice of console method (`ErrorHandler.LogMethod`).
- The React error boundary, the error notification component and `safeAsync` are not modelled. They are rendering, or a try/catch around code that is not shown.
- `trapFocus`, `announceToScreenReader`, `focusManagement` and the `detect*` helpers of the accessibility module are left out. They are DOM work.
- `colorContrast` is left out, because it is floating-point arithmetic.
- Focus moves and the outside-click listener of the filter dropdown are left out, because they are DOM events.
- The debounce timers of the search hook are modelled as the queue of the terms they hold, `Search.SearchBox.timers`, fired oldest first by `Search.SearchBox.TimerFires`. The 300 ms delay and the clock are not modelled, only the order of the timers. The source never clears a timer, so every typed term reaches the search in turn.
- The performance monitor's observers are left out, apart from the layout-shift sum. They are browser APIs. Metrics are exact reals, not doubles.
- `monitorCoreWebVitals` and the schema builders of `seoAdvanced.js` other than the breadcrumb list are not modelled: they are browser observers or fixed templates. `generateRobotsTxt` of the sitemap generator is not modelled either, because it is a fixed text.
- Numbers inside dynamic values are integers. Fractional numbers and NaN are not modelled.
- Lower-casing covers ASCII letters only. White space is JavaScript's set of space characters.
- Regular expressions are modelled by their stated character classes.
- A lookup `table[key]` in an object literal also finds the members every object inherits (`constructor`, `toString`, `__proto__` and the rest of `Object.prototype`). Each such lookup of a key that comes from outside is modelled twice. The as-written member is built on `Common.ReadLiteral` or `JsValue.LiteralOr`. The corrected member reads only the listed keys, and the rest of the model uses it. Findings lists every such site.
- Analytics.GetPageTitle: route paths begin with "/" and no inherited name does (`Common.InheritedNamesAreNotPaths`), so its table lookup never meets an inherited member.
- Analytics.GetContentGroup: as for `Analytics.GetPageTitle`, its lookup never meets an inherited member.
- Reads whose key comes from the configuration or from the component code are plain lookups: column keys, search and filter fields, field names of the content form, its select options, and error categories. Those keys are fixed names, none of them inherited.
- CitationService.MockCitationCount: follows the corrected table read; the as-written read is `CitationService.MockCitationCountAsWritten` (Findings).
- ScholarScraper.Scraper.SearchPaper: answers with the corrected table lookup `ScholarScraper.MockScholarResponse`; the as-written lookup is `ScholarScraper.MockLookupAsWritten` (Findings).
- ScholarScraper.Scraper.GetPaperDetails: answers with the corrected table lookup, as `ScholarScraper.Scraper.SearchPaper` does.
- SeoAdvanced.CountWords: follows the corrected tally `SeoAdvanced.TallyOf`; the as-written `wordCount` object is `SeoAdvanced.TallyAsWritten` (Findings).
- SeoAdvanced.ExtractKeywords: follows the corrected tally. As written, a "constructor" entry holds a text (`SeoAdvanced.ConstructorNotANumber`), so the comparator `b - a` gives NaN and the order of the sort is left to the engine. That order is not modelled.
- SeoAdvanced.AltText: follows the corrected context lookup; the as-written one is `SeoAdvanced.AltTextAsWritten` (Findings).
- SeoOptimizer.UnknownPageKeywords: follows the corrected page lookup; the as-written keywords are `SeoOptimizer.PageKeywordsAsWritten`, which throw for an inherited page type (Findings).
- SitemapGenerator.SelectTemplateRule: follows the corrected template lookup; the as-written one is `SitemapGenerator.PageStructuredDataAsWritten` (Findings).
- SitemapGenerator.WebsiteFallback: follows the corrected template lookup, as `SitemapGenerator.SelectTemplateRule` does.
- DataManager.CachedIn: follows the corrected cache read; the as-written read is `DataManager.GetCachedDataAsWritten` (Findings).
- DataManager.DataCache.UpdateData: follows the corrected guard; the as-written update is `DataManager.UpdateDataAsWritten` (Findings).
- DataManager.DataCache.GetCachedData: follows the corrected cache read, as `DataManager.CachedIn` does.
- DataManager.UpdateDataAsWritten: an update of "__proto__" replaces the cache's prototype. The model keeps only the own entries, which do not change.
- AdminUtils.ConfigFor: reads only the listed configurations; the as-written validation that meets an inherited type is `AdminUtils.ValidateFormDataAsWritten` (Findings). `getDefaultFormData` gives `{}` for an inherited type in the source too, because the inherited member has no `defaultItem`, so `AdminUtils.DefaultFormData` needs no as-written twin. `getTableData` also gives `[]` for an inherited type, because such a member has no own keys.
- AdminUtils.ValidateFormData: follows the corrected lookup; the as-written validation, which throws for an inherited type, is `AdminUtils.ValidateFormDataAsWritten` (Findings).
- AdminUtils.StatusColor: reads only the listed statuses; the as-written class is `AdminUtils.StatusClassAsWritten` (Findings).
- AdminUtils.StatusCell: takes the corrected class `AdminUtils.StatusClass`.
- AdminUtils.HealthStatusStyle: follows the corrected lookup; the as-written style is `AdminUtils.HealthStatusStyleAsWritten` (Findings).
- AdminUtils.HealthStatusIcon: follows the corrected lookup; the as-written icon is `AdminUtils.HealthStatusIconAsWritten` (Findings).
- ContentForm.DefaultFormData: follows the corrected lookup; the as-written default is `ContentForm.DefaultFormDataAsWritten` (Findings).
- AdminContext.AdminStore.AddItem: a section named like an inherited member that the data does not hold is read as missing, so the action throws. In the source the read finds the inherited member, which has no own keys. The section then behaves like the empty section of `AdminContext.SectionListEdgeCases`: the list goes under the key "undefined" and no error is thrown.
- AdminContext.AdminStore.EditItem: the same inherited-section case as `AdminContext.AdminStore.AddItem` is not modelled.
- AdminContext.AdminStore.DeleteItem: the same inherited-section case as `AdminContext.AdminStore.AddItem` is not modelled.
- Strings are sequences of characters. JavaScript's `length`, `substring`, `slice` and `<` count and compare UTF-16 code units instead. The two agree for text in the Basic Multilingual Plane. Beyond it, lengths, cut points and string order differ; the members below are affected.
- SeoAdvanced.OptimizeTitle: its 60-character limit counts characters, not UTF-16 code units.
- SeoAdvanced.LongTitleExactLength: its lengths count characters, not UTF-16 code units.
- SeoAdvanced.OptimizeDescription: its limit and cut count characters, not UTF-16 code units.
- SeoValidator.PageLengthWarnings: its length limits count characters, not UTF-16 code units.
- SeoValidator.MetaTagWindows: its length windows count characters, not UTF-16 code units.
- SitemapGenerator.SeoDataWindows: its length windows count characters, not UTF-16 code units.
- AdminUtils.TextCell: its 50-character cut counts characters, not UTF-16 code units.
- DataTable.SortedData: for a sort field that some rows leave missing or null, or that mixes strings and numbers, the comparator of `DataTable.jsx:68-75` returns 0 for pairs that are not equal, so it is not a consistent order and ECMAScript leaves the result of the sort to the engine (ascending on the values [3, undefined, 1], V8 keeps the rows as they are, where the model gives [1, 3, undefined]); that order is not modelled. `DataTable.SortedByStringField` and `DataTable.SortedByNumberField` cover only fields holding strings throughout, or numbers throughout.
- ScholarScraper.RateLimiter.WaitForRateLimit: calls through one limiter are taken to run one after another, the wait and the update of the last request time in one step. In the source the wait is asynchronous (`scholarScraper.js:42-52`), so a second call made while the first is asleep reads the same last request time, sleeps the same remainder, and both requests go out together; overlapping calls are not spaced, and the model does not capture them.
- PublicationsPage.InitialPublications: the records' long `abstract` and `keywords` texts are dropped, since nothing on the page computes with them.
- Sorting.StrLt: compares characters by code point, whereas JavaScript compares UTF-16 code units. The two orders differ only beyond the Basic Multilingual Plane.
- Common.Dedup: compares values structurally. `new Set` compares objects and arrays by reference, so two equal-looking objects stay apart in the source (`DataTable.FilterOptions` at `DataTable.jsx:116`, `Search.CollectValues` at `useSearch.js:111`). For strings, numbers and booleans the two agree.
- The current time, as an ISO date string, is a parameter.

## Findings

| source | as written | input that shows it | evidently intended | confidence | as-written member | corrected member |
|---|---|---|---|---|---|---|
| src/services/citationService.js:151-158 | the Semantic Scholar lookup (197-246) catches every failure and returns 0, so the catch that would keep the existing count cannot be reached | a publication with a DOI whose request fails comes back with 0 citations instead of its stored count | a failed lookup keeps the publication's previous count | not executed | CitationService.FailedLookupResetsCitations | CitationService.UpdateKeepingOnFailure, CitationService.UpdateCitationsKeepingOnFailure |
| src/utils/seoAdvanced.js:279-288 | the short branch tests only the title's length against 60, before the separator and the site name are added | a 50-character title with the default site name gives a 69-character result, longer than the 60 a 61-character title gets | every optimized title fits in 60 characters | not executed | SeoAdvanced.ShortTitleOverflows | SeoAdvanced.OptimizeTitleWithinLimit |
| src/services/scholarScraper.js:71-72 | the table lookup `mockData[key]` also sees the members every object inherits | the title "Constructor" slugs to "constructor" and returns the built-in Object function instead of the unknown-paper entry | an unknown title gets zero citations and null details | not executed | ScholarScraper.MockLookupAsWritten, ScholarScraper.ConstructorTitleHitsPrototype | ScholarScraper.MockScholarResponse |
| src/services/citationService.js:56-58 | `mockData[key]` also sees the members every object inherits | the title "Constructor" slugs to "constructor" and gets the built-in Object function back as its citation count | only the four listed slugs are read from the table; any other title falls through to the keyword rules and then 0 | not executed | CitationService.MockCountAsWrittenDeparts, CitationService.ConstructorTitleCount | CitationService.MockCitationCount |
| src/utils/seoAdvanced.js:311-317 | the read `wordCount[word]` also sees the inherited members of the plain object | the content "constructor constructor" stores the Object function's text followed by "11" instead of 2; "__proto__" is never counted, since assigning a string to it is ignored; the comparator then meets a text and gives NaN | each word is counted by its number of occurrences | not executed | SeoAdvanced.ConstructorTwice, SeoAdvanced.ConstructorNotANumber, SeoAdvanced.ProtoNeverCounted | SeoAdvanced.CountWords, SeoAdvanced.TallyAsWrittenAgrees |
| src/utils/seoAdvanced.js:355 | `contextMap[context]` also sees the inherited members | the context "toString" without a description returns the inherited method instead of "Relevant image" | an unlisted context gets "Relevant image" | not executed | SeoAdvanced.AltTextAsWrittenDeparts, SeoAdvanced.ToStringContextAltText | SeoAdvanced.AltText |
| src/utils/seoOptimizer.js:316-318 | `pageSpecificKeywords[pageType]` also sees the inherited members, and spreading one of them throws a TypeError | the page type "constructor" throws instead of giving the base and additional keywords | an unlisted page type adds no keywords of its own | not executed | SeoOptimizer.PageKeywordsAsWrittenDeparts, SeoOptimizer.ConstructorPageKeywords | SeoOptimizer.UnknownPageKeywords |
| src/utils/sitemapGenerator.js:202 | `structuredDataTemplates[pageType]` also sees the inherited members, which are truthy | the page type "toString" gets the inherited method instead of the website template | an unlisted page type gets the website template | not executed | SitemapGenerator.PageStructuredDataAsWrittenDeparts, SitemapGenerator.ToStringPageStructuredData | SitemapGenerator.WebsiteFallback |
| src/utils/adminUtils.js:8-12 | `config.tableConfigs[type]` also sees the inherited members; such a member has no `columns`, so `forEach` throws | the type "constructor" with no configuration of its own throws a TypeError instead of returning no errors | an unlisted type gives no errors | not executed | AdminUtils.ValidateFormDataAsWrittenDeparts, AdminUtils.ConstructorTypeValidation | AdminUtils.ValidateFormData |
| src/utils/adminUtils.js:104 | `statusColors[value]` also sees the inherited members | the status "valueOf" gets the inherited method as its class instead of the grey badge | an unlisted status gets the grey badge | not executed | AdminUtils.StatusClassAsWrittenDeparts, AdminUtils.ValueOfStatusClass | AdminUtils.StatusClass, AdminUtils.StatusCell |
| src/utils/adminUtils.js:168 | `styles[status]` also sees the inherited members | the status "toString" gets the inherited method instead of the grey style | an unknown status is grey | not executed | AdminUtils.HealthStatusStyleAsWrittenDeparts, AdminUtils.ToStringHealthBadge | AdminUtils.HealthStatusStyle |
| src/utils/adminUtils.js:182 | `icons[status]` also sees the inherited members | the status "toString" gets the inherited method instead of the activity icon | an unknown status shows the activity icon | not executed | AdminUtils.HealthStatusIconAsWrittenDeparts, AdminUtils.ToStringHealthBadge | AdminUtils.HealthStatusIcon |
| src/utils/dataManager.js:68-78 | the guard `dataCache[type]` and the read also see the inherited members | on the loaded cache, updating "constructor" is accepted and stored instead of refused, and reading "toString" from it gives the inherited method instead of null | only the loaded collections can be updated, and an unknown one reads as null | not executed | DataManager.UpdateDataAsWrittenDeparts, DataManager.GetCachedDataAsWrittenDeparts, DataManager.ConstructorUpdateAccepted | DataManager.DataCache.UpdateData, DataManager.DataCache.GetCachedData |
| src/components/admin/ContentForm.jsx:117 | `defaults[contentType]` also sees the inherited members | the type "hasOwnProperty" starts the form from the inherited method instead of `{}` | an unlisted type starts from the empty object | not executed | ContentForm.DefaultFormDataAsWrittenDeparts, ContentForm.HasOwnPropertyDefaultForm | ContentForm.DefaultFormData |
