/**
 * `_fallback_extraction`: five made-up records for the query, tagged as
 * samples, used when scraping raised before anything was extracted.
 */
module Fallback {
  import opened Results
  import opened Text
  import opened Jobs

  const SampleCount: nat := 5

  const SampleCompanies: seq<string> :=
    ["Tech Solutions Inc.", "Software Corp", "Digital Innovations Ltd.",
     "Global Tech Services", "Startup Ventures"]

  const SampleSkills: seq<string> := ["Python", "Django", "REST API", "MySQL"]

  /** The five titles, built around `skill.title()`. */
  function SampleTitles(ops: TextOps, skill: string): (r: seq<string>)
    ensures |r| == SampleCount
  {
    var t := ops.titleCase(skill);
    [t + " Developer", "Senior " + t + " Engineer", t + " Specialist",
     "Junior " + t + " Developer", "Full Stack " + t + " Developer"]
  }

  /** `location.title()` for a non-empty location, else "Bangalore". */
  function SampleCity(ops: TextOps, location: string): string {
    if location != "" then ops.titleCase(location) else "Bangalore"
  }

  /** The five locations: the city three times, then "Remote", then the city as hybrid. */
  function SampleLocations(ops: TextOps, location: string): (r: seq<string>)
    ensures |r| == SampleCount
  {
    var city := SampleCity(ops, location);
    [city, city, city, "Remote", city + " / Hybrid"]
  }

  /** An amount in rupees written as `₹{lakhs},00,000`. */
  function Rupees(lakhs: nat): string {
    "\U{20B9}" + Decimal(lakhs) + ",00,000"
  }

  /** The `i`-th sample record (counting from 0). */
  function SampleListing(ops: TextOps, skill: string, location: string, i: nat): Job
    requires i < SampleCount
  {
    Job(title := SampleTitles(ops, skill)[i],
        company := SampleCompanies[i],
        location := SampleLocations(ops, location)[i],
        experience := Decimal(i + 1) + "-" + Decimal(i + 4) + " years",
        salary := Rupees(3 + i) + " - " + Rupees(6 + i) + " PA",
        description := "Looking for " + skill
                       + " professional with relevant experience. Good problem-solving skills required.",
        skills := [skill] + SampleSkills,
        postedDate := Decimal(i + 1) + " day(s) ago",
        url := BaseUrl + "/job-listing-" + Decimal(i + 1),
        source := SampleSource,
        relevanceScore := None)
  }

  /** What `_fallback_extraction` returns. */
  function FallbackJobs(ops: TextOps, skill: string, location: string): (r: seq<Job>)
    ensures |r| == SampleCount
    ensures forall i :: 0 <= i < |r| ==> r[i].source == SampleSource && r[i].relevanceScore.None?
  {
    seq(SampleCount, i requires 0 <= i < SampleCount => SampleListing(ops, skill, location, i))
  }

  /** `_fallback_extraction`: one record per title, up to five. */
  method FallbackExtraction(ops: TextOps, skill: string, location: string) returns (jobs: seq<Job>)
    ensures jobs == FallbackJobs(ops, skill, location)
  {
    var titles := SampleTitles(ops, skill);
    var companies := SampleCompanies;
    var locations := SampleLocations(ops, location);
    var count := if SampleCount < |titles| then SampleCount else |titles|;
    jobs := [];
    var i := 0;
    while i < count
      invariant 0 <= i <= count == SampleCount
      invariant |jobs| == i
      invariant forall j :: 0 <= j < i ==> jobs[j] == SampleListing(ops, skill, location, j)
    {
      var job := Job(title := titles[i],
                     company := companies[i],
                     location := locations[i],
                     experience := Decimal(i + 1) + "-" + Decimal(i + 4) + " years",
                     salary := Rupees(3 + i) + " - " + Rupees(6 + i) + " PA",
                     description := "Looking for " + skill
                                    + " professional with relevant experience. Good problem-solving skills required.",
                     skills := [skill, "Python", "Django", "REST API", "MySQL"],
                     postedDate := Decimal(i + 1) + " day(s) ago",
                     url := BaseUrl + "/job-listing-" + Decimal(i + 1),
                     source := SampleSource,
                     relevanceScore := None);
      jobs := jobs + [job];
      i := i + 1;
    }
  }

  /** A one-digit number is written as that digit. */
  lemma DecimalOneDigit(n: nat)
    requires n < 10
    ensures Decimal(n) == [Digit(n)]
  {
  }

  /**
   * The five sample records: all tagged as samples, unscored, with
   * experience "1-4 years" up to "5-8 years", the query's skill first among
   * their skills, and the city (or "Bangalore") everywhere except the fourth,
   * which is "Remote".
   */
  lemma FallbackShape(ops: TextOps, skill: string, location: string)
    ensures var jobs := FallbackJobs(ops, skill, location);
      && (forall i :: 0 <= i < SampleCount ==>
            && jobs[i].source == SampleSource && jobs[i].relevanceScore.None?
            && jobs[i].experience == [Digit(i + 1), '-', Digit(i + 4)] + " years"
            && jobs[i].skills[0] == skill)
      && jobs[3].location == "Remote"
      && (location == "" ==> jobs[0].location == jobs[1].location == jobs[2].location == "Bangalore"
                             && jobs[4].location == "Bangalore / Hybrid")
      && (location != "" ==> jobs[0].location == ops.titleCase(location))
  {
    var jobs := FallbackJobs(ops, skill, location);
    forall i | 0 <= i < SampleCount
      ensures jobs[i].experience == [Digit(i + 1), '-', Digit(i + 4)] + " years"
    {
      DecimalOneDigit(i + 1);
      DecimalOneDigit(i + 4);
    }
  }

  /** The five sample links are pairwise different. */
  lemma FallbackUrlsDistinct(ops: TextOps, skill: string, location: string)
    ensures var jobs := FallbackJobs(ops, skill, location);
      forall i, j :: 0 <= i < j < SampleCount ==> jobs[i].url != jobs[j].url
  {
    var jobs := FallbackJobs(ops, skill, location);
    var prefix := BaseUrl + "/job-listing-";
    forall i, j | 0 <= i < j < SampleCount
      ensures jobs[i].url != jobs[j].url
    {
      DecimalOneDigit(i + 1);
      DecimalOneDigit(j + 1);
      assert jobs[i].url[|prefix|] == Digit(i + 1);
      assert jobs[j].url[|prefix|] == Digit(j + 1);
    }
  }
}
