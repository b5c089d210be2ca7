/** The job record every extraction path produces, and the constants it uses. */
module Jobs {
  import opened Results

  /**
   * One listing. Every field is always present: an unresolved field holds
   * its default text. `relevanceScore` is set only by the views' ranking
   * (and by their sample records).
   */
  datatype Job = Job(
    title: string,
    company: string,
    location: string,
    experience: string,
    salary: string,
    description: string,
    skills: seq<string>,
    postedDate: string,
    url: string,
    source: string,
    relevanceScore: Option<int>)

  const BaseUrl: string := "https://www.naukri.com"

  /** Provenance of a record read from a page. */
  const LiveSource: string := "Naukri.com"
  /** Provenance of a synthetic record. */
  const SampleSource: string := "Naukri.com (Sample)"

  const NotSpecified: string := "Not specified"
  const NotDisclosed: string := "Not disclosed"
  const Recently: string := "Recently"

  /**
   * Library string functions whose definitions are not modelled:
   * `titleCase` is Python's `str.title()` and `quotePlus` is
   * `urllib.parse.quote_plus` (form-urlencoding, RFC 3986 section 2.1
   * percent-encoding with a space written as `+`).
   */
  datatype TextOps = TextOps(titleCase: string -> string, quotePlus: string -> string)

  /** A record straight from extraction: live provenance, no score yet. */
  predicate IsLive(job: Job) {
    job.source == LiveSource && job.relevanceScore.None?
  }
}
