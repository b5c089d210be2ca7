# Naukri job scraper and recommendation views: a Dafny model

This project models the decision logic of a résumé-to-jobs web application.
The application predicts a job category from an uploaded résumé, maps the
category to a search skill, and scrapes matching listings from Naukri.com
with a browser (`SeleniumNaukriScraper` in `app1/naukri_scrapper.py`). It
then scores and ranks the listings for the recommendations page
(`JobRecommendationsView` in `app1/views.py`).

The browser and the HTML library are replaced by inputs.

- **Parsed page.** A `Dom.Document` is a set of oracle functions for the queries the scraper makes: `select`, `find_all`, `.text`, `.name`, the `href` attribute and `.parent`. CSS selectors are opaque strings, kept in the order the code lists them.
- **Browser outcome.** `Search.Fetch` is either `Raised` or `Rendered(doc, root)`.
- **Library string functions.** `str.title()` and `urllib.parse.quote_plus` are left uninterpreted, as the fields of `Jobs.TextOps`.
- **Cache.** The Django cache is a map from query to job list, held in `Search.ResultCache`. The class and the view key it by the whole query (`Search.QueryKey`). The underscore-joined string key of the code is modelled separately, as `Search.SearchAsWritten`; see "## Findings".

Each routine that works by looping and appending is a `method`. Each such method is proved equal to a pure function, and the properties are proved as lemmas about those functions.

| file | models |
|---|---|
| `text.dfy` | Python `strip()` (the full `str.isspace` set), ASCII `lower()`, one-character `replace()`, `in`, `startswith`/`endswith`, `str(n)`, list slicing `s[:n]` including negative `n` |
| `dom.dfy` | the parsed page as oracles; `select_one` |
| `jobs.dfy` | the job record, its defaults and provenance tags |
| `urls.dfy` | `_build_search_url`; href normalisation |
| `captcha.dfy` | `_check_captcha` |
| `listing.dfy` | `_parse_job_element` |
| `link_scan.dfy` | `_manual_extraction` |
| `extractor.dfy` | `_extract_jobs` |
| `fallback.dfy` | `_fallback_extraction` |
| `search.dfy` | `search_jobs`, the result cache, the scraper object's constructor and `close` |
| `ranking.dfy` | `_match_jobs_with_skill` |
| `views.dfy` | `skill_mapping`, `_get_sample_jobs`, `extract_text_from_file`, `JobRecommendationsView.get` |

Notes on behaviour that is easy to misread:

- A truncated description has 203 characters (200 plus `...`), not at most 200.
- A page that renders but yields no listing returns `[]`. The synthetic records are used only when the browser part raised.
- The selector loop goes on past a selector that matches elements but gives no record. In this model that happens only when `max_results` slices them all away; in the code a parse that raises for every element also does it.
- The heuristic link scan tests only the href for keywords, never the link text.
- The cache key uses the raw query, not a normalised one.
- `search_jobs` never closes the browser. The view closes it in `finally`.

## Model

| member | source | states |
|---|---|---|
| Text.Strip | app1/naukri_scrapper.py:356 | `strip()` never lengthens a text, and the result neither begins nor ends with whitespace |
| Text.StripIsSlice | app1/naukri_scrapper.py:356 | what `strip()` keeps occurs in the input at some index, with only whitespace before and after it |
| Text.StripIdempotent | app1/views.py:76 | stripping an already stripped text changes nothing |
| Text.ContainsAt | app1/naukri_scrapper.py:195 | Python's `needle in s` holds exactly when the needle occurs at some index of `s` |
| Lists.Take | app1/naukri_scrapper.py:114 | `s[:n]` is a prefix of `s`: of length min(n, len(s)) for n >= 0, and of length max(len(s)+n, 0) for negative n |
| Urls.BuildSearchUrl | app1/naukri_scrapper.py:175-183 | the search URL starts with the base, a "/" and the cleaned skill |
| Urls.SearchUrlShape | app1/naukri_scrapper.py:175-183 | the URL starts with base + "/" + the trimmed, lower-cased, hyphenated skill; a location with any non-whitespace gives `-jobs-in-{location}`, an empty or blank one gives `-jobs` and never `-jobs-in-` |
| Urls.SlugShape | app1/naukri_scrapper.py:177 | a cleaned query word has no space, no upper-case ASCII letter and no whitespace at either end |
| Urls.SlugIdempotent | app1/naukri_scrapper.py:177 | cleaning a cleaned word changes nothing |
| Urls.SlugIgnoresCase | app1/naukri_scrapper.py:177 | lower-casing the query first does not change the cleaned word |
| Urls.SlugIgnoresPadding | app1/naukri_scrapper.py:177 | trimming the query first does not change the cleaned word |
| Urls.SearchUrlNormalisesSkill | app1/naukri_scrapper.py:175-183 | the URL depends on the skill only after trimming and lower-casing |
| Urls.AbsoluteUrl | app1/naukri_scrapper.py:362-364 | an `http` href is kept unchanged; any other href gets the base put in front, with a "/" between them unless the href starts with one; the href survives as the tail of the URL; an absolute base gives an absolute URL |
| Urls.AbsoluteUrlIdempotent | app1/naukri_scrapper.py:363-364 | normalising a normalised link changes nothing |
| Captcha.CheckCaptcha | app1/naukri_scrapper.py:185-208 | flags a challenge iff the page source is read and its lower-cased text has one of the seven phrases, or the frames are listed and some iframe src has "captcha" in any case with every earlier `get_attribute` answering; reading the page, listing the frames or reading an earlier frame's src raising gives false |
| Captcha.AnsweredFramesFlagged | app1/naukri_scrapper.py:199-203 | when every `get_attribute('src')` answers, the frame test is: some src has "captcha" in any case |
| Captcha.DetectionMonotone | app1/naukri_scrapper.py:185-205 | adding text around the page or frames around the frame list never turns a detection off |
| Captcha.FiveIndicatorsSuffice | app1/naukri_scrapper.py:188-191 | "recaptcha" and "not a robot" are redundant next to "captcha" and "robot" |
| Captcha.RecaptchaPageFlagged | app1/naukri_scrapper.py:188-196 | a page mentioning "recaptcha" in any letter case is flagged |
| Captcha.RecaptchaIsCaptcha | app1/naukri_scrapper.py:199-202 | the iframe test for "recaptcha" is subsumed by the test for "captcha" |
| Listing.FirstFilled | app1/naukri_scrapper.py:354-357 | a node chosen by a field's selector loop has non-blank text |
| Listing.FirstFilledIsFirst | app1/naukri_scrapper.py:354-366 | a field's selector loop finds nothing iff no selector matches with non-blank text; otherwise it returns the first match of a selector that does, all earlier selectors having failed |
| Listing.FirstFilledIndex | app1/naukri_scrapper.py:354-357 | when a field's loop finds a node, it is the match of the selector at a given index, all earlier ones being unfilled |
| Listing.Truncate | app1/naukri_scrapper.py:439-440 | a description of at most 200 characters is unchanged; a longer one becomes exactly its first 200 characters followed by "...", 203 characters in all; never over 203 |
| Listing.NonBlankTexts | app1/naukri_scrapper.py:454-455 | every skill entry is non-empty and trimmed, and there are no more entries than tags |
| Listing.NonBlankTextsAppend | app1/naukri_scrapper.py:454-455 | the entries of two runs of tags are the first run's entries followed by the second's, so tag order is kept |
| Listing.NonBlankTextsSplit | app1/naukri_scrapper.py:454-455 | each tag contributes, at its own place, its trimmed text when that is non-blank and nothing otherwise |
| Listing.NonBlankTextsKeeps | app1/naukri_scrapper.py:454-455 | no tag with non-blank text is dropped |
| Listing.FirstFilledNode | app1/naukri_scrapper.py:354-366 | the selector loop returns the first selector match with non-blank text |
| Listing.FillField | app1/naukri_scrapper.py:378-382 | a text field becomes the trimmed text of its first filled selector and otherwise keeps its default (shared by company, location, experience, salary, date) |
| Listing.SkillsOf | app1/naukri_scrapper.py:451-458 | skills come from the first selector whose container exists, even when it yields no tag |
| Listing.SkillsFromFirst | app1/naukri_scrapper.py:445-458 | the skills are the non-blank tag texts of the container found by the first selector that finds one, even when that gives none |
| Listing.SkillsFromNone | app1/naukri_scrapper.py:445-458 | when no skills selector finds a container, the skills stay [] |
| Listing.ParseJobElement | app1/naukri_scrapper.py:327-479 | the filled-in record equals the field-by-field specification `Listing.Listing` |
| Listing.FieldClean | app1/naukri_scrapper.py:354-357 | a text field whose default is non-blank and trimmed is always non-blank and trimmed |
| Listing.TitleClean | app1/naukri_scrapper.py:331-357 | a parsed title is non-blank and trimmed, or the default "Not specified" |
| Listing.DetailsUrlAbsolute | app1/naukri_scrapper.py:475-476 | the details link made up from the title starts with "http" |
| Listing.ListingUrlAbsolute | app1/naukri_scrapper.py:360-365 | every parsed record's URL starts with "http": the title link, or the details link made from the title (lines 475-476) |
| Listing.ListingWellFormed | app1/naukri_scrapper.py:327-479 | a parsed record has source "Naukri.com", no score, a trimmed non-blank title, a description of at most 203 characters and an absolute URL |
| Urls.LeadingSlashOptional | app1/naukri_scrapper.py:363-364 | a relative href resolves to the same link with or without its leading "/": exactly one "/" joins base and path |
| LinkScan.JobLinks | app1/naukri_scrapper.py:494-508 | every kept link is one of the page's anchors, with an href holding a keyword and a trimmed text of 11 to 99 characters |
| LinkScan.JobLinksComplete | app1/naukri_scrapper.py:494-508 | every such anchor is kept |
| LinkScan.CompanyAmong | app1/naukri_scrapper.py:529-536 | the company is the default or a trimmed, non-empty text under 50 characters that does not mention "company" in any case |
| LinkScan.CompanyAmongFirst | app1/naukri_scrapper.py:529-536 | when some element's trimmed text can be a company name, the company is the trimmed text of the first such element |
| LinkScan.CompanyAmongNone | app1/naukri_scrapper.py:529-536 | when no element's text can be a company name, the company stays "Not specified" |
| LinkScan.CheckLink | app1/naukri_scrapper.py:494-508 | the nested tests on one anchor keep it iff it is a job link |
| LinkScan.CollectJobLinks | app1/naukri_scrapper.py:491-508 | the first loop keeps exactly the job links, in document order |
| LinkScan.BuildRecords | app1/naukri_scrapper.py:515-542 | the second loop builds one record per chosen link, in order |
| LinkScan.FindCompany | app1/naukri_scrapper.py:529-536 | the company loop stops at the first suitable text under the link's parent |
| LinkScan.LinkRecord | app1/naukri_scrapper.py:515-540 | a kept link's record is its title, the company found, defaults elsewhere and the normalised href |
| LinkScan.ManualExtraction | app1/naukri_scrapper.py:484-548 | the two loops return one record per job link, for the first `max_results` links |
| LinkScan.LinkUrlAbsolute | app1/naukri_scrapper.py:499-503 | a job link's href holds a keyword, so it is non-empty and its URL becomes absolute (lines 539-540) |
| LinkScan.LinkListingShape | app1/naukri_scrapper.py:513-542 | a heuristic record is live, has a trimmed title of 11 to 99 characters and an absolute URL, and has the default or a plausible company |
| LinkScan.ManualListingsShape | app1/naukri_scrapper.py:513-548 | every heuristic record is shaped so, and there are at most `max_results` of them |
| Extractor.FirstProductive | app1/naukri_scrapper.py:300-318 | the selector the loop stops at is one of the selectors, and its first `max_results` matches are non-empty |
| Extractor.FirstMatchWins | app1/naukri_scrapper.py:300-323 | the loop stops at no selector iff none is productive (then the link scan runs), and otherwise at the first productive one; two selectors are never merged |
| Extractor.ProducedShape | app1/naukri_scrapper.py:307-314 | a container selector gives at most `max_results` records, each live, titled and absolutely linked |
| Extractor.ManualShape | app1/naukri_scrapper.py:321-323 | so does the link scan |
| Extractor.ExtractedShape | app1/naukri_scrapper.py:272-325 | extraction gives at most `max_results` records, each live, titled and absolutely linked |
| Extractor.ParseAll | app1/naukri_scrapper.py:307-314 | the inner loop parses every element in order |
| Extractor.TrySelector | app1/naukri_scrapper.py:300-318 | one selector round gives records iff the selector is productive, and then its records |
| Extractor.RunSelectors | app1/naukri_scrapper.py:300-323 | the selector loop with its early exit, then the link scan, returns the specified extraction for any selector list |
| Extractor.ExtractJobs | app1/naukri_scrapper.py:272-325 | the loops return the specified extraction |
| Fallback.FallbackJobs | app1/naukri_scrapper.py:550-595 | five records, all tagged "Naukri.com (Sample)" and unscored |
| Fallback.FallbackExtraction | app1/naukri_scrapper.py:550-595 | the loop builds each record from the title, company and location lists and returns the five sample records |
| Fallback.FallbackShape | app1/naukri_scrapper.py:555-595 | all five records are tagged "Naukri.com (Sample)" and unscored; record i has experience "{i+1}-{i+4} years" and the query's skill first in its skills; the fourth is "Remote"; the location defaults to "Bangalore" |
| Fallback.FallbackUrlsDistinct | app1/naukri_scrapper.py:590 | the five sample links differ pairwise |
| Search.SearchWith | app1/naukri_scrapper.py:110-173 | one search under a given cache key returns at most `max_results` records and adds no cache key but its own |
| Search.SearchAsWritten | app1/naukri_scrapper.py:92-173 | `search_jobs` with the underscore-joined key of line 110: at most `max_results` records, and no cache key but that string is added |
| Search.Search | app1/naukri_scrapper.py:92-173 | `search_jobs` with the cache keyed by the whole query (the corrected key): at most `max_results` records, and no cache key but the query is added |
| Search.FallbackNotLive | app1/naukri_scrapper.py:591 | sample records never pass for scraped ones |
| Search.SearchBounded | app1/naukri_scrapper.py:110-173 | a search returns at most `max_results` records on every path: cache hit (line 114) and the rest (line 173) |
| Search.SearchWritesOnlyFindings | app1/naukri_scrapper.py:150-157 | the cache changes only when the page rendered and gave records and the write succeeded; then only the searched key changes, and it gets all the records |
| Search.SearchKeepsCacheLive | app1/naukri_scrapper.py:154-157 | a cache holding only non-empty lists of scraped records stays so |
| Search.SearchQuietMiss | app1/naukri_scrapper.py:150-173 | on a cache miss, a page that renders with no listing gives `[]` and writes nothing |
| Search.SearchSamplesOnlyWhenRaised | app1/naukri_scrapper.py:158-167 | sample records are returned only when the browser part raised on a cache miss, and then the first `max_results` of them; otherwise every record is scraped |
| Search.SearchRepeatHitsCache | app1/naukri_scrapper.py:110-114 | after a search stored its records, repeating it is answered from the cache whatever the browser would do |
| Search.QueryKeySeparatesSearches | app1/naukri_scrapper.py:110-114 | with the cache keyed by the query, searching for one query never changes what another query returns |
| Search.CacheKeyCollides | app1/naukri_scrapper.py:110 | the key as written is the same for skill "a_b" with location "c" and skill "a" with location "b_c", whose search URLs differ |
| Search.AsWrittenServesOtherQuery | app1/naukri_scrapper.py:110-114 | so the as-written search answers the second query with the first one's cached records |
| Search.NaukriScraper.constructor | app1/naukri_scrapper.py:21-32 | a new scraper holds an open browser session |
| Search.NaukriScraper.SearchJobs | app1/naukri_scrapper.py:92-173 | the returned records and the new cache are those of `Search.Search`, the search keyed by the whole query (the corrected key of "## Findings") |
| Search.NaukriScraper.Close | app1/naukri_scrapper.py:597-605 | closing ends the session |
| Ranking.RelevanceScore | app1/views.py:267-282 | the score lies between 0 and 6 |
| Ranking.ScoreMeaning | app1/views.py:274-282 | 0 iff no test matched; 6 iff all three matched; a title match gives at least 3; any score above 3 needs one; the score is odd iff exactly one of the title and description tests matched |
| Ranking.Insert | app1/views.py:284 | insertion adds exactly one element to the multiset |
| Ranking.SortByScore | app1/views.py:284 | the sort is a permutation |
| Ranking.InsertSorted | app1/views.py:284 | insertion keeps the list sorted by score, highest first |
| Ranking.InsertStable | app1/views.py:284 | an inserted record goes after every earlier record with its score |
| Ranking.SortByScoreCorrect | app1/views.py:284 | the sort is a permutation, highest score first, and for each score the records keep their input order, as `sorted(..., reverse=True)` does |
| Ranking.Matched | app1/views.py:262-284 | the ranking has one record per input record |
| Ranking.MatchJobsWithSkill | app1/views.py:262-284 | empty input gives []; otherwise the scoring loop and sort give the ranking of the scored records |
| Ranking.MatchedCorrect | app1/views.py:262-284 | the ranking is a permutation of the scored input, sorted, stable, and every record has a score from 0 to 6 |
| Ranking.MentionsScoreAtLeastThree | app1/views.py:277-280 | a record whose skills list has the skill and whose description contains it scores at least 3 |
| Views.SearchSkill | app1/views.py:166-193 | a non-empty category never gives an empty search skill |
| Views.CategoriesCapitalised | app1/views.py:166-191 | every category of the mapping starts with a capital letter |
| Views.SearchSkillUnmapped | app1/views.py:193 | an unknown category is searched lower-cased, with no upper-case ASCII letter, and mapping that text again gives it back |
| Views.SampleJobs | app1/views.py:286-315 | there are exactly two sample records |
| Views.SampleJobsRankHigh | app1/views.py:286-315 | the samples carry scores 3 and 2 and source "Naukri.com"; with an empty location both are in "Bangalore"; ranked against their skill each scores at least 3 |
| Views.AppendLines | app1/views.py:53-55 | the page loop appends each page's text and a newline |
| Views.ExtractTextFromFile | app1/views.py:47-76 | the dispatch returns the specified text or error |
| Views.SuffixesExclusive | app1/views.py:51-73 | ".pdf", ".doc"/".docx" and ".txt" names exclude each other |
| Views.ExtractTextDispatch | app1/views.py:47-76 | only the reader for the name's suffix matters; a returned text is trimmed; "Unsupported file format" is reported iff the name has none of the four suffixes |
| Views.Recommend | app1/views.py:156-241 | the page redirects exactly when there is no prediction, and then leaves the cache alone |
| Views.JobRecommendations | app1/views.py:156-241 | the page and the new cache are those of `Views.Recommend`, which searches through the query-keyed cache (the corrected key of "## Findings"); a scraper exists iff the browser started, and it is closed |
| Views.RecommendShape | app1/views.py:156-241 | no prediction redirects and leaves the cache alone; otherwise the page shows the mapped skill and the location, the ranked list is sorted with scores 0 to 6, and it holds exactly the scored search results (at most 15, with the search's cache) when the scraper ran, or exactly the two scored samples, each scoring at least 3, when it could not start |

## Findings

| source | as written | input that shows it | evidently intended | confidence | as-written member | corrected member |
|---|---|---|---|---|---|---|
| app1/naukri_scrapper.py:110 | the cache key joins skill, location and experience with `_` | skill "a_b", location "c" and skill "a", location "b_c" (same experience) share the key `naukri_sel_a_b_c_` but open different search URLs; the second search returns the first one's records | one cache entry per query | not executed; medium (needs underscores in the query) | Search.CacheKeyCollides, Search.AsWrittenServesOtherQuery | Search.Search, Search.QueryKeySeparatesSearches, Search.NaukriScraper.SearchJobs, Views.JobRecommendations |

## Left out

- Browser session: setup, user agent, CDP calls, page-load timeout and `quit` (app1/naukri_scrapper.py:34-90, 597-609) are foreign I/O. The session is a flag that `Close` clears.
- `_handle_captcha` and `_simulate_human_scrolling` are left out: driver side effects and random sleeps. So is the CAPTCHA check inside `search_jobs`, which only decides whether to call `_handle_captcha`. `Captcha.CheckCaptcha` models the check on its own.
- Exceptions from the browser part of `search_jobs` (navigation, challenge handling, scrolling, reading the page) are the single input `Fetch.Raised`. A failing cache write is the input `cacheWriteFails`.
- Exceptions raised by `cache.get` or by `_fallback_extraction` itself are not modelled.
- Writing `selenium_page.html`, the `print` and traceback logging, and the sleeps are console and file I/O.
- The Django cache's two-hour expiry happens inside the framework. The cache is a plain map.
- HTML parsing and CSS matching are the `Dom.Document` oracles. Selectors are not interpreted.
- `str.title()` and `quote_plus` are uninterpreted functions. `lower()` is modelled for ASCII letters only.
- Listing.ParseJobElement: the `try`/`except` that drops a record when parsing raises is not modelled, because the oracles cannot raise. For the same reason, LinkScan.ManualExtraction never skips a link.
- Ranking.MatchJobsWithSkill: works on values. The source writes `relevance_score` into the caller's dictionaries in place, and that aliasing is not captured.
- Ranking.Key: a record without a score counts as 0, where Python would raise `KeyError`. Every record is scored before the sort, so this never happens.
- Search.NaukriScraper.SearchJobs: keys the cache by the whole query, the corrected key. It does not reproduce line 110's collision, which `Search.SearchAsWritten` and `Search.AsWrittenServesOtherQuery` model on values. Views.JobRecommendations inherits this.
- Views.JobRecommendations: `search_jobs` catches its own exceptions, so the view's `except` is modelled only for the scraper failing to start (`driverStarts`). `close` is assumed not to raise. The rendered context's `total_jobs`, `confidence` and the debug listing are left out.
- Views.ExtractText: PDF, Word and UTF-8 reading are inputs (the `Upload` fields). A reader that fails part-way counts as failing outright, which matches the exception it raises.
- `load_models`, `predict_category`, `home`, `result_views` and `test_selenium_view` are model loading, floating-point classification and web-framework plumbing.
