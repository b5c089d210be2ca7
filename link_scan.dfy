/**
 * `_manual_extraction`: when no container selector yields a listing, every
 * anchor whose href looks like a job link and whose text is of a title's
 * length becomes a bare record.
 */
module LinkScan {
  import opened Results
  import opened Text
  import opened Lists
  import opened Dom
  import opened Jobs
  import opened Urls

  /** Words whose presence in the lower-cased href marks a job link, in the order tested. */
  const JobKeywords: seq<string> := ["job", "jobs", "view", "listing"]

  /** The tags searched under a link's parent for a company name. */
  const CompanyTagNames: seq<string> := ["div", "span", "p"]

  /** Exclusive bounds on the length of a job link's trimmed text. */
  const MinTitleLength: nat := 10
  const MaxTitleLength: nat := 100
  /** Exclusive bound on the length of a company name. */
  const MaxCompanyLength: nat := 50

  predicate HasJobKeyword(href: string) {
    var h := Lower(href);
    Contains(h, "job") || Contains(h, "jobs") || Contains(h, "view") || Contains(h, "listing")
  }

  /** An anchor with an href that mentions a keyword and a trimmed text of 11 to 99 characters. */
  predicate IsJobLink(doc: Document, a: NodeId) {
    var t := Strip(doc.text(a));
    doc.href(a).Some? && HasJobKeyword(doc.href(a).value)
    && t != "" && MinTitleLength < |t| < MaxTitleLength
  }

  /** The job links among `links`, in document order. */
  function JobLinks(doc: Document, links: seq<NodeId>): (r: seq<NodeId>)
    ensures forall i :: 0 <= i < |r| ==> r[i] in links && IsJobLink(doc, r[i])
  {
    if links == [] then []
    else
      var last := links[|links| - 1];
      JobLinks(doc, links[..|links| - 1]) + (if IsJobLink(doc, last) then [last] else [])
  }

  /** Nothing is lost: every job link among `links` is kept. */
  lemma {:induction false} JobLinksComplete(doc: Document, links: seq<NodeId>, a: NodeId)
    requires a in links && IsJobLink(doc, a)
    ensures a in JobLinks(doc, links)
  {
    var last := links[|links| - 1];
    if a != last {
      assert a in links[..|links| - 1] by {
        var i :| 0 <= i < |links| && links[i] == a;
        assert links[..|links| - 1][i] == a;
      }
      JobLinksComplete(doc, links[..|links| - 1], a);
    }
  }

  /** A text that can be a company name: non-blank, under 50 characters, never mentioning "company". */
  predicate CompanyLike(t: string) {
    t != "" && |t| < MaxCompanyLength && !Contains(Lower(t), "company")
  }

  /** The first trimmed text among `elems` that can be a company name, or the default. */
  function CompanyAmong(doc: Document, elems: seq<NodeId>): (r: string)
    ensures r == NotSpecified || (CompanyLike(r) && Strip(r) == r)
  {
    if elems == [] then NotSpecified
    else
      var t := Strip(doc.text(elems[0]));
      StripIdempotent(doc.text(elems[0]));
      if CompanyLike(t) then t else CompanyAmong(doc, elems[1..])
  }

  /** The trimmed text of `elems[k]` can be a company name. */
  predicate CompanyAt(doc: Document, elems: seq<NodeId>, k: int)
    requires 0 <= k < |elems|
  {
    CompanyLike(Strip(doc.text(elems[k])))
  }

  /** The company chosen is the trimmed text of the first element that can be one. */
  lemma {:induction false} CompanyAmongFirst(doc: Document, elems: seq<NodeId>, j: int)
    requires 0 <= j < |elems| && CompanyAt(doc, elems, j)
    requires forall i :: 0 <= i < j ==> !CompanyAt(doc, elems, i)
    ensures CompanyAmong(doc, elems) == Strip(doc.text(elems[j]))
  {
    if j > 0 {
      assert !CompanyAt(doc, elems, 0);
      forall i | 0 <= i < j - 1 ensures !CompanyAt(doc, elems[1..], i) {
        assert elems[1..][i] == elems[i + 1];
        assert !CompanyAt(doc, elems, i + 1);
      }
      assert elems[1..][j - 1] == elems[j];
      CompanyAmongFirst(doc, elems[1..], j - 1);
    }
  }

  /** When no element's text can be a company name, the company keeps its default. */
  lemma {:induction false} CompanyAmongNone(doc: Document, elems: seq<NodeId>)
    requires forall i :: 0 <= i < |elems| ==> !CompanyAt(doc, elems, i)
    ensures CompanyAmong(doc, elems) == NotSpecified
  {
    if elems != [] {
      assert !CompanyAt(doc, elems, 0);
      forall i | 0 <= i < |elems| - 1 ensures !CompanyAt(doc, elems[1..], i) {
        assert elems[1..][i] == elems[i + 1];
        assert !CompanyAt(doc, elems, i + 1);
      }
      CompanyAmongNone(doc, elems[1..]);
    }
  }

  /** The company of a link: searched for under its parent, the default when it has none. */
  function CompanyOf(doc: Document, a: NodeId): string {
    match doc.parent(a)
    case Some(p) => CompanyAmong(doc, doc.findAll(p, CompanyTagNames))
    case None => NotSpecified
  }

  /** A link's href made absolute; an empty one is kept as it is. */
  function LinkUrl(href: string): string {
    if href != "" && !StartsWith(href, "http") then AbsoluteUrl(BaseUrl, href) else href
  }

  /** The record built for one job link. */
  function LinkListing(doc: Document, a: NodeId): Job {
    Job(title := Strip(doc.text(a)),
        company := CompanyOf(doc, a),
        location := NotSpecified,
        experience := NotSpecified,
        salary := NotDisclosed,
        description := "",
        skills := [],
        postedDate := Recently,
        url := LinkUrl(doc.href(a).GetOr("")),
        source := LiveSource,
        relevanceScore := None)
  }

  /** The records for the first `limit` job links among the anchors under `root`. */
  function ManualListings(doc: Document, root: NodeId, limit: int): seq<Job> {
    LinkListings(doc, Take(JobLinks(doc, doc.findAll(root, ["a"])), limit))
  }

  /** One record per link, in order. */
  function LinkListings(doc: Document, links: seq<NodeId>): seq<Job> {
    Map(a => LinkListing(doc, a), links)
  }

  /** The company loop: stops at the first element under `parent` whose text can be a company name. */
  method FindCompany(doc: Document, a: NodeId) returns (company: string)
    ensures company == CompanyOf(doc, a)
  {
    company := NotSpecified;
    var parent := doc.parent(a);
    if parent.Some? {
      var elems := doc.findAll(parent.value, CompanyTagNames);
      var i := 0;
      while i < |elems|
        invariant 0 <= i <= |elems|
        invariant CompanyAmong(doc, elems) == CompanyAmong(doc, elems[i..])
      {
        assert elems[i..][1..] == elems[i + 1..];
        var text := Strip(doc.text(elems[i]));
        if CompanyLike(text) {
          company := text;
          break;
        }
        i := i + 1;
      }
    }
  }

  /** One kept link becomes a record: defaults, the company search, then the URL fix-up. */
  method LinkRecord(doc: Document, a: NodeId) returns (job: Job)
    ensures job == LinkListing(doc, a)
  {
    job := Job(Strip(doc.text(a)), NotSpecified, NotSpecified, NotSpecified, NotDisclosed,
               "", [], Recently, doc.href(a).GetOr(""), LiveSource, None);
    var company := FindCompany(doc, a);
    job := job.(company := company);
    if job.url != "" && !StartsWith(job.url, "http") {
      job := job.(url := AbsoluteUrl(BaseUrl, job.url));
    }
  }

  /** The tests one anchor goes through: an href, a keyword in it, a title-length text. */
  method CheckLink(doc: Document, link: NodeId) returns (keep: bool)
    ensures keep == IsJobLink(doc, link)
  {
    keep := false;
    if doc.href(link).Some? {
      var href := doc.href(link).value;
      var text := Strip(doc.text(link));
      var h := Lower(href);
      if Contains(h, "job") || Contains(h, "jobs") || Contains(h, "view") || Contains(h, "listing") {
        if text != "" && |text| > MinTitleLength && |text| < MaxTitleLength {
          keep := true;
        }
      }
    }
  }

  /** The first loop: keeps the job links in document order. */
  method CollectJobLinks(doc: Document, allLinks: seq<NodeId>) returns (jobLinks: seq<NodeId>)
    ensures jobLinks == JobLinks(doc, allLinks)
  {
    jobLinks := [];
    var i := 0;
    while i < |allLinks|
      invariant 0 <= i <= |allLinks|
      invariant jobLinks == JobLinks(doc, allLinks[..i])
    {
      assert allLinks[..i + 1][..i] == allLinks[..i];
      var keep := CheckLink(doc, allLinks[i]);
      if keep {
        jobLinks := jobLinks + [allLinks[i]];
      }
      i := i + 1;
    }
    assert allLinks[..|allLinks|] == allLinks;
  }

  /** `_manual_extraction`: collect the job links, then build records for the first `limit`. */
  method ManualExtraction(doc: Document, root: NodeId, limit: int) returns (jobs: seq<Job>)
    ensures jobs == ManualListings(doc, root, limit)
  {
    var jobLinks := CollectJobLinks(doc, doc.findAll(root, ["a"]));
    jobs := BuildRecords(doc, Take(jobLinks, limit));
  }

  /** The second loop: one record per chosen link. */
  method BuildRecords(doc: Document, chosen: seq<NodeId>) returns (jobs: seq<Job>)
    ensures jobs == LinkListings(doc, chosen)
  {
    jobs := [];
    var k := 0;
    while k < |chosen|
      invariant 0 <= k <= |chosen|
      invariant jobs == LinkListings(doc, chosen[..k])
    {
      var job := LinkRecord(doc, chosen[k]);
      MapSnoc(a => LinkListing(doc, a), chosen, k);
      jobs := jobs + [job];
      k := k + 1;
    }
    assert chosen[..k] == chosen;
  }

  /** Every job link has a non-empty href, so its record's URL is absolute. */
  lemma LinkUrlAbsolute(doc: Document, a: NodeId)
    requires IsJobLink(doc, a)
    ensures StartsWith(LinkListing(doc, a).url, "http")
  {
    var href := doc.href(a).value;
    var h := Lower(href);
    if Contains(h, "job") { ContainsNoLonger(h, "job"); }
    else if Contains(h, "jobs") { ContainsNoLonger(h, "jobs"); }
    else if Contains(h, "view") { ContainsNoLonger(h, "view"); }
    else { ContainsNoLonger(h, "listing"); }
    assert href != "";
    assert StartsWith(BaseUrl, "http");
  }

  /** Live, with a trimmed title of title length, an absolute URL and a plausible company. */
  predicate LinkShaped(job: Job) {
    && IsLive(job)
    && MinTitleLength < |job.title| < MaxTitleLength && Strip(job.title) == job.title
    && StartsWith(job.url, "http")
    && (job.company == NotSpecified || CompanyLike(job.company))
  }

  /** The record of every job link is `LinkShaped`. */
  lemma LinkListingShape(doc: Document, a: NodeId)
    requires IsJobLink(doc, a)
    ensures LinkShaped(LinkListing(doc, a))
  {
    LinkUrlAbsolute(doc, a);
    StripIdempotent(doc.text(a));
  }

  /** Every heuristic record is `LinkShaped`, and there are at most `limit` of them. */
  lemma ManualListingsShape(doc: Document, root: NodeId, limit: int)
    ensures limit >= 0 ==> |ManualListings(doc, root, limit)| <= limit
    ensures forall j :: 0 <= j < |ManualListings(doc, root, limit)| ==> LinkShaped(ManualListings(doc, root, limit)[j])
  {
    var links := JobLinks(doc, doc.findAll(root, ["a"]));
    var chosen := Take(links, limit);
    var jobs := ManualListings(doc, root, limit);
    forall j | 0 <= j < |jobs|
      ensures LinkShaped(jobs[j])
    {
      assert jobs[j] == LinkListing(doc, chosen[j]);
      assert chosen[j] == links[j];
      LinkListingShape(doc, chosen[j]);
    }
  }
}
