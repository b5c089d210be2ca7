/**
 * The views' decision logic: which skill a predicted category searches
 * for, which reader a résumé upload goes to, the two sample records, and
 * the recommendations page (search, degrade to samples, rank).
 */
module Views {
  import opened Results
  import opened Text
  import opened Jobs
  import opened Fallback
  import opened Search
  import opened Ranking

  /** The search text for each predicted category the classifier knows. */
  const SkillMapping: map<string, string> := map[
    "Data Science" := "data science",
    "HR" := "human resources",
    "Design" := "graphic design",
    "Information Technology" := "software development",
    "Teacher" := "teaching",
    "Advocate" := "lawyer",
    "Business Development" := "business development",
    "Healthcare" := "healthcare",
    "Fitness" := "fitness trainer",
    "Agriculture" := "agriculture",
    "BPO" := "customer service",
    "Sales" := "sales",
    "Mechanical Engineer" := "mechanical engineering",
    "Java Developer" := "java developer",
    "Automobile" := "automobile engineering",
    "Digital Marketing" := "digital marketing",
    "Civil Engineer" := "civil engineering",
    "Operations Manager" := "operations management",
    "Electrical Engineering" := "electrical engineering",
    "Network Security Engineer" := "network security",
    "Python Developer" := "python developer",
    "ERP" := "ERP consultant",
    "DotNet Developer" := ".net developer",
    "Web Designing" := "web designer"
  ]

  /** The skill searched for a predicted category: its mapped text, else the category lower-cased. */
  function SearchSkill(prediction: string): (skill: string)
    ensures prediction != "" ==> skill != ""
  {
    if prediction in SkillMapping then
      assert forall k :: k in SkillMapping ==> SkillMapping[k] != "";
      SkillMapping[prediction]
    else Lower(prediction)
  }

  /** Every category starts with a capital letter, so no lower-cased text is a category. */
  lemma CategoriesCapitalised()
    ensures forall k :: k in SkillMapping ==> k != "" && 'A' <= k[0] <= 'Z'
  {
  }

  /**
   * A category the mapping does not know is searched lower-cased, and
   * searching for that lower-cased text again gives the same skill.
   */
  lemma SearchSkillUnmapped(prediction: string)
    requires prediction !in SkillMapping
    ensures SearchSkill(prediction) == Lower(prediction)
    ensures forall i :: 0 <= i < |SearchSkill(prediction)| ==> !('A' <= SearchSkill(prediction)[i] <= 'Z')
    ensures SearchSkill(SearchSkill(prediction)) == SearchSkill(prediction)
  {
    CategoriesCapitalised();
    LowerIdempotent(prediction);
  }

  /** The two demonstration records, pre-scored 3 and 2, tagged as live. */
  function SampleJobs(ops: TextOps, skill: string, location: string): (r: seq<Job>)
    ensures |r| == 2
  {
    var t := ops.titleCase(skill);
    var city := SampleCity(ops, location);
    [Job(title := t + " Developer",
         company := "Tech Solutions Inc.",
         location := city,
         experience := "2-5 years",
         salary := "\U{20B9}6,00,000 - \U{20B9}10,00,000 PA",
         description := "Looking for " + skill + " developer with relevant experience.",
         skills := [skill, "Python", "Django", "REST API"],
         postedDate := Recently,
         url := "https://www.naukri.com/job-listing",
         source := LiveSource,
         relevanceScore := Some(3)),
     Job(title := "Senior " + t + " Engineer",
         company := "Software Corp",
         location := city,
         experience := "5-8 years",
         salary := "\U{20B9}10,00,000 - \U{20B9}15,00,000 PA",
         description := "Senior position for " + skill + " professional.",
         skills := [skill, "Java", "Spring Boot"],
         postedDate := "1 week ago",
         url := "https://www.naukri.com/job-listing",
         source := LiveSource,
         relevanceScore := Some(2))]
  }

  /**
   * Both sample records name the skill in their skills and description,
   * so ranked against that skill each scores at least 3, whatever their
   * preset score.
   */
  lemma SampleJobsRankHigh(ops: TextOps, skill: string, location: string)
    ensures var jobs := SampleJobs(ops, skill, location);
      && jobs[0].relevanceScore == Some(3) && jobs[1].relevanceScore == Some(2)
      && jobs[0].source == jobs[1].source == LiveSource
      && (location == "" ==> jobs[0].location == jobs[1].location == "Bangalore")
      && forall i :: 0 <= i < 2 ==> RelevanceScore(jobs[i], skill) >= SkillPoints + DescriptionPoints
  {
    var jobs := SampleJobs(ops, skill, location);
    MentionsScoreAtLeastThree(jobs[0], skill, 0, "Looking for ", " developer with relevant experience.");
    MentionsScoreAtLeastThree(jobs[1], skill, 0, "Senior position for ", " professional.");
  }

  /**
   * What an upload offers each reader: the PDF's page texts, the Word
   * document's paragraph texts, or the UTF-8 decoding of its bytes, each
   * of which may instead fail with a message.
   */
  datatype Upload = Upload(
    name: string,
    pdfPages: Result<seq<string>, string>,
    wordParagraphs: Result<seq<string>, string>,
    utf8Text: Result<string, string>)

  const UnsupportedFormat: string := "Unsupported file format"

  /** Each part followed by a newline, all concatenated. */
  function JoinLines(parts: seq<string>): string {
    if parts == [] then ""
    else JoinLines(parts[..|parts| - 1]) + parts[|parts| - 1] + "\n"
  }

  /** A Word upload: named `.doc` or `.docx`. */
  predicate IsWordName(name: string) {
    EndsWith(name, ".doc") || EndsWith(name, ".docx")
  }

  /**
   * `extract_text_from_file`: the suffix picks the reader, `.pdf` first,
   * then `.doc`/`.docx`, then `.txt`; a reader's failure is reported with
   * the format's name; the text is returned trimmed.
   */
  function ExtractText(u: Upload): Result<string, string> {
    if EndsWith(u.name, ".pdf") then
      match u.pdfPages
      case Ok(pages) => Ok(Strip(JoinLines(pages)))
      case Err(e) => Err("Error reading PDF: " + e)
    else if IsWordName(u.name) then
      match u.wordParagraphs
      case Ok(paragraphs) => Ok(Strip(JoinLines(paragraphs)))
      case Err(e) => Err("Error reading Word document: " + e)
    else if EndsWith(u.name, ".txt") then
      match u.utf8Text
      case Ok(text) => Ok(Strip(text))
      case Err(e) => Err("Error reading text file: " + e)
    else Err(UnsupportedFormat)
  }

  /** The page or paragraph loop: each text and a newline appended in turn. */
  method AppendLines(parts: seq<string>) returns (text: string)
    ensures text == JoinLines(parts)
  {
    text := "";
    var i := 0;
    while i < |parts|
      invariant 0 <= i <= |parts|
      invariant text == JoinLines(parts[..i])
    {
      assert parts[..i + 1][..i] == parts[..i];
      text := text + parts[i] + "\n";
      i := i + 1;
    }
    assert parts[..i] == parts;
  }

  /** `extract_text_from_file` */
  method ExtractTextFromFile(u: Upload) returns (r: Result<string, string>)
    ensures r == ExtractText(u)
  {
    var text := "";
    if EndsWith(u.name, ".pdf") {
      if u.pdfPages.Err? {
        return Err("Error reading PDF: " + u.pdfPages.error);
      }
      text := AppendLines(u.pdfPages.value);
    } else if EndsWith(u.name, ".doc") || EndsWith(u.name, ".docx") {
      if u.wordParagraphs.Err? {
        return Err("Error reading Word document: " + u.wordParagraphs.error);
      }
      text := AppendLines(u.wordParagraphs.value);
    } else if EndsWith(u.name, ".txt") {
      if u.utf8Text.Err? {
        return Err("Error reading text file: " + u.utf8Text.error);
      }
      text := u.utf8Text.value;
    } else {
      return Err(UnsupportedFormat);
    }
    return Ok(Strip(text));
  }

  /** The suffixes exclude each other, so the order of the tests only matters for the shape of the code. */
  lemma SuffixesExclusive(name: string)
    ensures EndsWith(name, ".pdf") ==> !IsWordName(name) && !EndsWith(name, ".txt")
    ensures IsWordName(name) ==> !EndsWith(name, ".txt")
  {
    if EndsWith(name, ".pdf") {
      assert name[|name| - 1] == 'f';
    }
    if EndsWith(name, ".doc") {
      assert name[|name| - 1] == 'c';
    }
    if EndsWith(name, ".docx") {
      assert name[|name| - 1] == 'x';
    }
  }

  /**
   * The reader for a name's suffix alone decides the outcome; every text
   * returned is trimmed; and the format is refused exactly when the name
   * has none of the four suffixes.
   */
  lemma ExtractTextDispatch(u: Upload, other: Upload)
    requires other.name == u.name
    ensures EndsWith(u.name, ".pdf") && other.pdfPages == u.pdfPages ==> ExtractText(other) == ExtractText(u)
    ensures IsWordName(u.name) && other.wordParagraphs == u.wordParagraphs ==> ExtractText(other) == ExtractText(u)
    ensures EndsWith(u.name, ".txt") && other.utf8Text == u.utf8Text ==> ExtractText(other) == ExtractText(u)
    ensures ExtractText(u).Ok? ==> Strip(ExtractText(u).value) == ExtractText(u).value
    ensures ExtractText(u) == Err(UnsupportedFormat)
            <==> !EndsWith(u.name, ".pdf") && !IsWordName(u.name) && !EndsWith(u.name, ".txt")
  {
    SuffixesExclusive(u.name);
    match ExtractText(u)
    case Ok(t) =>
      if EndsWith(u.name, ".pdf") { StripIdempotent(JoinLines(u.pdfPages.value)); }
      else if IsWordName(u.name) { StripIdempotent(JoinLines(u.wordParagraphs.value)); }
      else { StripIdempotent(u.utf8Text.value); }
    case Err(e) =>
      if EndsWith(u.name, ".pdf") || IsWordName(u.name) || EndsWith(u.name, ".txt") {
        assert e[0] == 'E';
        assert UnsupportedFormat[0] == 'U';
      }
  }

  /** The most records the recommendations page asks the scraper for. */
  const MaxResults: int := 15
  const DefaultLocation: string := "bangalore"
  const DefaultExperience: string := "0"

  /** The page shown: back to the upload form, or the ranked recommendations. */
  datatype Response =
    | RedirectHome
    | Recommendations(predictionResult: string, searchSkill: string, location: string, jobs: seq<Job>)

  datatype PageOutcome = PageOutcome(response: Response, entries: map<QueryKey, seq<Job>>)

  /**
   * `JobRecommendationsView.get`. `prediction` is the category stored in
   * the session, `locationParam` and `experienceParam` the query
   * parameters, `driverStarts` whether the browser could be started, and
   * `fetch` and `cacheWriteFails` what the search meets.
   */
  function Recommend(ops: TextOps, entries: map<QueryKey, seq<Job>>, prediction: Option<string>,
                     locationParam: Option<string>, experienceParam: Option<string>,
                     driverStarts: bool, fetch: Fetch, cacheWriteFails: bool): (r: PageOutcome)
    ensures r.response.RedirectHome? <==> prediction.None? || prediction.value == ""
    ensures r.response.RedirectHome? ==> r.entries == entries
  {
    if prediction.None? || prediction.value == "" then PageOutcome(RedirectHome, entries)
    else
      var skill := SearchSkill(prediction.value);
      var location := locationParam.GetOr(DefaultLocation);
      var experience := experienceParam.GetOr(DefaultExperience);
      var found := if driverStarts
                   then Search.Search(ops, entries, skill, location, experience, MaxResults, fetch, cacheWriteFails)
                   else Outcome(SampleJobs(ops, skill, location), entries);
      PageOutcome(Recommendations(prediction.value, skill, location, Matched(found.jobs, skill)), found.entries)
  }

  /**
   * `JobRecommendationsView.get`: searches through a scraper it starts,
   * substitutes the sample records only when the scraper cannot start,
   * closes the scraper whenever it was started, and ranks what it has.
   */
  method JobRecommendations(cache: ResultCache, ops: TextOps, prediction: Option<string>,
                            locationParam: Option<string>, experienceParam: Option<string>,
                            driverStarts: bool, fetch: Fetch, cacheWriteFails: bool)
    returns (response: Response, scraper: NaukriScraper?)
    modifies cache
    ensures var out := Recommend(ops, old(cache.entries), prediction, locationParam, experienceParam,
                                 driverStarts, fetch, cacheWriteFails);
      response == out.response && cache.entries == out.entries
    ensures scraper != null <==> response.Recommendations? && driverStarts
    ensures scraper != null ==> fresh(scraper) && !scraper.sessionOpen
  {
    scraper := null;
    if prediction.None? || prediction.value == "" {
      return RedirectHome, null;
    }
    var skill := SearchSkill(prediction.value);
    var location := locationParam.GetOr(DefaultLocation);
    var experience := experienceParam.GetOr(DefaultExperience);
    var jobs: seq<Job> := [];
    if driverStarts {
      scraper := new NaukriScraper(cache, ops);
      jobs := scraper.SearchJobs(skill, location, experience, MaxResults, fetch, cacheWriteFails);
    } else {
      if jobs == [] {
        jobs := SampleJobs(ops, skill, location);
      }
    }
    if scraper != null {
      scraper.Close();
    }
    jobs := MatchJobsWithSkill(jobs, skill);
    response := Recommendations(prediction.value, skill, location, jobs);
  }

  /**
   * The recommendations page: with no prediction it redirects and leaves
   * the cache alone. Otherwise it lists at most 15 records when the
   * scraper ran, exactly the two samples when it could not start (then
   * each scoring at least 3 and the cache untouched), always with scores
   * from 0 to 6, highest first. The records listed are exactly the scored
   * search results, or the scored samples, and the cache is the search's.
   */
  lemma RecommendShape(ops: TextOps, entries: map<QueryKey, seq<Job>>, prediction: Option<string>,
                       locationParam: Option<string>, experienceParam: Option<string>,
                       driverStarts: bool, fetch: Fetch, cacheWriteFails: bool)
    ensures var out := Recommend(ops, entries, prediction, locationParam, experienceParam,
                                 driverStarts, fetch, cacheWriteFails);
      && (out.response.RedirectHome? <==> prediction.None? || prediction.value == "")
      && (out.response.RedirectHome? || !driverStarts ==> out.entries == entries)
      && (out.response.Recommendations? ==>
            && SortedByScore(out.response.jobs)
            && (forall i :: 0 <= i < |out.response.jobs| ==>
                  out.response.jobs[i].relevanceScore.Some?
                  && 0 <= out.response.jobs[i].relevanceScore.value <= 6)
            && (driverStarts ==> |out.response.jobs| <= MaxResults)
            && (!driverStarts ==>
                  && |out.response.jobs| == 2
                  && forall i :: 0 <= i < 2 ==> out.response.jobs[i].relevanceScore.value >= 3))
    ensures prediction.Some? && prediction.value != "" ==>
      var skill := SearchSkill(prediction.value);
      var location := locationParam.GetOr(DefaultLocation);
      var experience := experienceParam.GetOr(DefaultExperience);
      var searched := Search.Search(ops, entries, skill, location, experience, MaxResults, fetch, cacheWriteFails);
      var out := Recommend(ops, entries, prediction, locationParam, experienceParam,
                           driverStarts, fetch, cacheWriteFails);
      && out.response.Recommendations?
      && out.response.searchSkill == skill && out.response.location == location
      && (driverStarts ==>
            && multiset(out.response.jobs) == multiset(ScoreAll(searched.jobs, skill))
            && out.entries == searched.entries)
      && (!driverStarts ==>
            multiset(out.response.jobs) == multiset(ScoreAll(SampleJobs(ops, skill, location), skill)))
  {
    var out := Recommend(ops, entries, prediction, locationParam, experienceParam, driverStarts, fetch, cacheWriteFails);
    if out.response.Recommendations? {
      var skill := SearchSkill(prediction.value);
      var location := locationParam.GetOr(DefaultLocation);
      var experience := experienceParam.GetOr(DefaultExperience);
      var base := if driverStarts
                  then Search.Search(ops, entries, skill, location, experience, MaxResults, fetch, cacheWriteFails).jobs
                  else SampleJobs(ops, skill, location);
      MatchedCorrect(base, skill);
      if driverStarts {
        SearchBounded(ops, entries, QueryKey(skill, location, experience), skill, location,
                      MaxResults, fetch, cacheWriteFails);
      } else {
        SampleJobsRankHigh(ops, skill, location);
        var ranked := out.response.jobs;
        var scored := ScoreAll(base, skill);
        forall i | 0 <= i < 2 ensures ranked[i].relevanceScore.value >= 3 {
          assert ranked[i] in multiset(scored);
          var j :| 0 <= j < 2 && scored[j] == ranked[i];
        }
      }
    }
  }
}
