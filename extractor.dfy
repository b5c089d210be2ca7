/**
 * `_extract_jobs`: the container selectors are tried in a fixed order and
 * the first one whose first `limit` matches give any record wins; when none
 * does, the heuristic link scan is used instead.
 */
module Extractor {
  import opened Results
  import opened Text
  import opened Lists
  import opened Dom
  import opened Jobs
  import opened Listing
  import opened LinkScan

  /** Container selectors, most specific first, in the order they are tried. */
  const JobSelectors: seq<Selector> :=
    ["article.jobTuple", "article[class*=\"jobTuple\"]", "div[class*=\"jobTuple\"]",
     ".srp-jobtuple-wrapper", ".jobTuple",
     "[data-job-id]", ".job-list", ".job-card", ".job-item", ".list",
     ".row", ".job-segment", ".srp-tuple"]

  /** One record per element, in document order. */
  function Listings(ops: TextOps, doc: Document, elems: seq<NodeId>): (r: seq<Job>)
    ensures |r| == |elems|
  {
    Map(e => Listing.Listing(ops, doc, e), elems)
  }

  /** The records container selector `sel` gives: one per each of its first `limit` matches. */
  function ProducedBy(ops: TextOps, doc: Document, root: NodeId, sel: Selector, limit: int): seq<Job> {
    Listings(ops, doc, Take(doc.select(root, sel), limit))
  }

  /** `sel` gives at least one record. */
  predicate Productive(doc: Document, root: NodeId, sel: Selector, limit: int) {
    Take(doc.select(root, sel), limit) != []
  }

  /** The selector the loop over `sels` stops at: the first productive one. */
  function FirstProductive(doc: Document, root: NodeId, limit: int, sels: seq<Selector>): (r: Option<Selector>)
    ensures r.Some? ==> r.value in sels && Productive(doc, root, r.value, limit)
  {
    if sels == [] then None
    else if Productive(doc, root, sels[0], limit) then Some(sels[0])
    else FirstProductive(doc, root, limit, sels[1..])
  }

  /** The selector loop over `sels`, then the link scan when no selector was productive. */
  function ExtractedWith(ops: TextOps, doc: Document, root: NodeId, limit: int, sels: seq<Selector>): seq<Job> {
    match FirstProductive(doc, root, limit, sels)
    case Some(sel) => ProducedBy(ops, doc, root, sel, limit)
    case None => ManualListings(doc, root, limit)
  }

  /** What `_extract_jobs` returns for the page under `root`. */
  function Extracted(ops: TextOps, doc: Document, root: NodeId, limit: int): seq<Job> {
    ExtractedWith(ops, doc, root, limit, JobSelectors)
  }

  /**
   * First match wins: the loop stops at no selector exactly when none is
   * productive, and otherwise at the first productive one.
   */
  lemma {:induction false} FirstMatchWins(doc: Document, root: NodeId, limit: int, sels: seq<Selector>)
    ensures FirstProductive(doc, root, limit, sels).None?
            <==> forall k :: 0 <= k < |sels| ==> !Productive(doc, root, sels[k], limit)
    ensures forall k :: 0 <= k < |sels| && Productive(doc, root, sels[k], limit)
                        && (forall j :: 0 <= j < k ==> !Productive(doc, root, sels[j], limit))
                        ==> FirstProductive(doc, root, limit, sels) == Some(sels[k])
  {
    if sels != [] {
      var tail := sels[1..];
      FirstMatchWins(doc, root, limit, tail);
      if !Productive(doc, root, sels[0], limit) {
        forall k | 1 <= k < |sels| ensures sels[k] == tail[k - 1] { }
        if FirstProductive(doc, root, limit, tail).Some? {
          var k :| 0 <= k < |tail| && Productive(doc, root, tail[k], limit);
          assert sels[k + 1] == tail[k];
        }
      }
    }
  }

  /** A record every extraction path may return: live, with a trimmed non-blank title and an absolute URL. */
  predicate Extractable(job: Job) {
    IsLive(job) && job.title != "" && Strip(job.title) == job.title && StartsWith(job.url, "http")
  }

  /** Every record in `jobs` is `Extractable`. */
  predicate AllExtractable(jobs: seq<Job>) {
    forall j :: 0 <= j < |jobs| ==> Extractable(jobs[j])
  }

  /** A productive selector's records are `Extractable`, and at most `limit`. */
  lemma ProducedShape(ops: TextOps, doc: Document, root: NodeId, sel: Selector, limit: int)
    ensures limit >= 0 ==> |ProducedBy(ops, doc, root, sel, limit)| <= limit
    ensures AllExtractable(ProducedBy(ops, doc, root, sel, limit))
  {
    var elems := Take(doc.select(root, sel), limit);
    var jobs := ProducedBy(ops, doc, root, sel, limit);
    forall j | 0 <= j < |jobs| ensures Extractable(jobs[j]) {
      ListingWellFormed(ops, doc, elems[j]);
    }
  }

  /** The link scan's records are `Extractable`, and at most `limit`. */
  lemma ManualShape(doc: Document, root: NodeId, limit: int)
    ensures limit >= 0 ==> |ManualListings(doc, root, limit)| <= limit
    ensures AllExtractable(ManualListings(doc, root, limit))
  {
    ManualListingsShape(doc, root, limit);
  }

  /**
   * At most `limit` records (for a non-negative `limit`), each live, titled
   * and absolutely linked.
   */
  lemma ExtractedShape(ops: TextOps, doc: Document, root: NodeId, limit: int)
    ensures limit >= 0 ==> |Extracted(ops, doc, root, limit)| <= limit
    ensures forall j :: 0 <= j < |Extracted(ops, doc, root, limit)| ==> Extractable(Extracted(ops, doc, root, limit)[j])
  {
    match FirstProductive(doc, root, limit, JobSelectors)
    case Some(sel) => ProducedShape(ops, doc, root, sel, limit);
    case None => ManualShape(doc, root, limit);
  }

  /** The inner loop: parse each of the first `limit` matches, in order. */
  method ParseAll(ops: TextOps, doc: Document, elems: seq<NodeId>) returns (jobs: seq<Job>)
    ensures jobs == Listings(ops, doc, elems)
  {
    jobs := [];
    var i := 0;
    while i < |elems|
      invariant 0 <= i <= |elems|
      invariant jobs == Listings(ops, doc, elems[..i])
    {
      var job := ParseJobElement(ops, doc, elems[i]);
      MapSnoc(e => Listing.Listing(ops, doc, e), elems, i);
      jobs := jobs + [job];
      i := i + 1;
    }
    assert elems[..i] == elems;
  }

  /** One round of the selector loop: the records `sel` gives, or none when it matches nothing. */
  method TrySelector(ops: TextOps, doc: Document, root: NodeId, sel: Selector, limit: int) returns (jobs: seq<Job>)
    ensures jobs != [] <==> Productive(doc, root, sel, limit)
    ensures jobs != [] ==> jobs == ProducedBy(ops, doc, root, sel, limit)
  {
    jobs := [];
    var elements := doc.select(root, sel);
    if elements != [] {
      jobs := ParseAll(ops, doc, Take(elements, limit));
    }
  }

  /** `_extract_jobs` */
  method ExtractJobs(ops: TextOps, doc: Document, root: NodeId, limit: int) returns (jobs: seq<Job>)
    ensures jobs == Extracted(ops, doc, root, limit)
  {
    jobs := RunSelectors(ops, doc, root, limit, JobSelectors);
  }

  /** The selector loop, then the link scan when it found nothing. */
  method RunSelectors(ops: TextOps, doc: Document, root: NodeId, limit: int, sels: seq<Selector>)
    returns (jobs: seq<Job>)
    ensures jobs == ExtractedWith(ops, doc, root, limit, sels)
  {
    var i := 0;
    while i < |sels|
      invariant 0 <= i <= |sels|
      invariant FirstProductive(doc, root, limit, sels) == FirstProductive(doc, root, limit, sels[i..])
    {
      assert sels[i..][1..] == sels[i + 1..];
      jobs := TrySelector(ops, doc, root, sels[i], limit);
      if jobs != [] {
        return;
      }
      i := i + 1;
    }
    jobs := ManualExtraction(doc, root, limit);
  }
}
