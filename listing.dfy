/**
 * `_parse_job_element`: one listing element becomes one record. Each field
 * takes the trimmed text of the first of its selectors that matches with
 * non-blank text; a field none of them resolves keeps its default.
 */
module Listing {
  import opened Results
  import opened Text
  import opened Dom
  import opened Jobs
  import opened Urls

  const TitleSelectors: seq<Selector> :=
    [".title", "a.title", ".job-title", "h2 a", "a[class*=\"title\"]", ".srp-title", ".jobTitle"]
  const CompanySelectors: seq<Selector> :=
    [".subTitle", ".comp-name", ".company-name", "a[class*=\"subTitle\"]", ".comp-dtls", ".company"]
  const LocationSelectors: seq<Selector> :=
    [".locWdth", ".location", ".loc", ".city", "[class*=\"loc\"]"]
  const ExperienceSelectors: seq<Selector> :=
    [".expwdth", ".experience", ".exp", "[class*=\"exp\"]", ".yrs"]
  const SalarySelectors: seq<Selector> :=
    [".sal", ".salary", "[class*=\"sal\"]", ".ctc"]
  const DescriptionSelectors: seq<Selector> :=
    [".job-description", ".desc", ".description", ".job-desc"]
  const SkillsSelectors: seq<Selector> :=
    [".tags", ".skills", ".key-skills", "[class*=\"skill\"]"]
  const DateSelectors: seq<Selector> :=
    [".fleft.postedDate", ".posted-date", ".date", "[class*=\"date\"]"]

  /** The tags whose texts make up a skills container's entries. */
  const SkillTagNames: seq<string> := ["li", "span", "div"]

  /** Longest description kept whole; a longer one is cut here and marked. */
  const DescriptionLimit: nat := 200

  /** `sel` matches under `e` and its first match has non-blank text. */
  predicate Filled(doc: Document, e: NodeId, sel: Selector) {
    var m := SelectOne(doc, e, sel);
    m.Some? && Strip(doc.text(m.value)) != ""
  }

  /** The first match of the first selector in `sels` that is `Filled`. */
  function FirstFilled(doc: Document, e: NodeId, sels: seq<Selector>): (r: Option<NodeId>)
    ensures r.Some? ==> Strip(doc.text(r.value)) != ""
  {
    if sels == [] then None
    else if Filled(doc, e, sels[0]) then SelectOne(doc, e, sels[0])
    else FirstFilled(doc, e, sels[1..])
  }

  /**
   * `FirstFilled` finds nothing exactly when no selector is filled, and
   * otherwise returns the match of a filled selector all of whose
   * predecessors are unfilled.
   */
  lemma {:induction false} FirstFilledIsFirst(doc: Document, e: NodeId, sels: seq<Selector>)
    ensures FirstFilled(doc, e, sels).None? <==> forall k :: 0 <= k < |sels| ==> !Filled(doc, e, sels[k])
    ensures FirstFilled(doc, e, sels).Some? ==>
              exists k :: 0 <= k < |sels| && Filled(doc, e, sels[k])
                          && FirstFilled(doc, e, sels) == SelectOne(doc, e, sels[k])
                          && forall j :: 0 <= j < k ==> !Filled(doc, e, sels[j])
  {
    FirstFilledNone(doc, e, sels);
    if FirstFilled(doc, e, sels).Some? {
      var k := FirstFilledIndex(doc, e, sels);
    }
  }

  lemma {:induction false} FirstFilledNone(doc: Document, e: NodeId, sels: seq<Selector>)
    ensures FirstFilled(doc, e, sels).None? <==> forall k :: 0 <= k < |sels| ==> !Filled(doc, e, sels[k])
  {
    if sels != [] {
      var tail := sels[1..];
      FirstFilledNone(doc, e, tail);
      if Filled(doc, e, sels[0]) {
        assert FirstFilled(doc, e, sels).Some?;
      } else if FirstFilled(doc, e, tail).None? {
        assert FirstFilled(doc, e, sels).None?;
        forall k | 0 <= k < |sels| ensures !Filled(doc, e, sels[k]) {
          if k > 0 {
            assert sels[k] == tail[k - 1];
          }
        }
      } else {
        var k :| 0 <= k < |tail| && Filled(doc, e, tail[k]);
        assert sels[k + 1] == tail[k];
      }
    }
  }

  /** The index of the selector whose match `FirstFilled` returns. */
  lemma {:induction false} FirstFilledIndex(doc: Document, e: NodeId, sels: seq<Selector>) returns (k: nat)
    requires FirstFilled(doc, e, sels).Some?
    ensures k < |sels| && Filled(doc, e, sels[k])
    ensures FirstFilled(doc, e, sels) == SelectOne(doc, e, sels[k])
    ensures forall j :: 0 <= j < k ==> !Filled(doc, e, sels[j])
  {
    if Filled(doc, e, sels[0]) {
      k := 0;
    } else {
      var k' := FirstFilledIndex(doc, e, sels[1..]);
      k := k' + 1;
      forall j | 0 <= j < k ensures !Filled(doc, e, sels[j]) {
        if j > 0 {
          assert sels[j] == sels[1..][j - 1];
        }
      }
    }
  }

  /** A text field: the trimmed text of the first filled selector, or `default`. */
  function FieldText(doc: Document, e: NodeId, sels: seq<Selector>, default: string): string {
    match FirstFilled(doc, e, sels)
    case Some(n) => Strip(doc.text(n))
    case None => default
  }

  /** `desc[:200] + '...' if len(desc) > 200 else desc` */
  function Truncate(desc: string): (r: string)
    ensures |r| <= DescriptionLimit + 3
    ensures |desc| <= DescriptionLimit ==> r == desc
    ensures |desc| > DescriptionLimit ==> StartsWith(r, desc[..DescriptionLimit]) && EndsWith(r, "...")
    ensures |desc| > DescriptionLimit ==> |r| == DescriptionLimit + 3 && r[DescriptionLimit..] == "..."
  {
    if |desc| > DescriptionLimit then desc[..DescriptionLimit] + "..." else desc
  }

  /** The absolute link a title element carries: only an `a` with a non-empty href has one. */
  function TitleLink(doc: Document, n: NodeId): string {
    if doc.tagName(n) == "a" then
      var href := doc.href(n).GetOr("");
      if href != "" then AbsoluteUrl(BaseUrl, href) else ""
    else ""
  }

  /** What one skill tag contributes: its trimmed text, unless that is blank. */
  function TagText(doc: Document, tag: NodeId): seq<string> {
    var t := Strip(doc.text(tag));
    if t != "" then [t] else []
  }

  /** `[tag.text.strip() for tag in tags if tag.text.strip()]` */
  function NonBlankTexts(doc: Document, tags: seq<NodeId>): (r: seq<string>)
    ensures |r| <= |tags|
    ensures forall i :: 0 <= i < |r| ==> r[i] != "" && Strip(r[i]) == r[i]
  {
    if tags == [] then []
    else
      StripIdempotent(doc.text(tags[0]));
      TagText(doc, tags[0]) + NonBlankTexts(doc, tags[1..])
  }

  /**
   * Skills come from the first selector whose container exists, even when
   * that container holds no non-blank tag; later selectors are then not tried.
   */
  function SkillsFrom(doc: Document, e: NodeId, sels: seq<Selector>): seq<string> {
    if sels == [] then []
    else match SelectOne(doc, e, sels[0])
      case Some(container) => NonBlankTexts(doc, doc.findAll(container, SkillTagNames))
      case None => SkillsFrom(doc, e, sels[1..])
  }

  /**
   * The texts of consecutive runs of tags follow each other: every tag is
   * read in order and none is dropped but the blank ones.
   */
  lemma {:induction false} NonBlankTextsAppend(doc: Document, a: seq<NodeId>, b: seq<NodeId>)
    ensures NonBlankTexts(doc, a + b) == NonBlankTexts(doc, a) + NonBlankTexts(doc, b)
  {
    if a == [] {
      assert a + b == b;
    } else {
      assert (a + b)[0] == a[0];
      assert (a + b)[1..] == a[1..] + b;
      NonBlankTextsAppend(doc, a[1..], b);
    }
  }

  /** One tag in front contributes its own text in front. */
  lemma NonBlankTextsCons(doc: Document, tag: NodeId, rest: seq<NodeId>)
    ensures NonBlankTexts(doc, [tag] + rest) == TagText(doc, tag) + NonBlankTexts(doc, rest)
  {
    assert ([tag] + rest)[1..] == rest;
  }

  /**
   * Every tag contributes its own text in its own place: its trimmed text
   * when that is non-blank, nothing otherwise.
   */
  lemma NonBlankTextsSplit(doc: Document, tags: seq<NodeId>, k: int)
    requires 0 <= k < |tags|
    ensures NonBlankTexts(doc, tags)
            == NonBlankTexts(doc, tags[..k]) + TagText(doc, tags[k]) + NonBlankTexts(doc, tags[k + 1..])
  {
    var before, rest := tags[..k], tags[k + 1..];
    assert tags == before + ([tags[k]] + rest);
    NonBlankTextsAppend(doc, before, [tags[k]] + rest);
    NonBlankTextsCons(doc, tags[k], rest);
  }

  /** No tag with non-blank text is dropped. */
  lemma NonBlankTextsKeeps(doc: Document, tags: seq<NodeId>, k: int)
    requires 0 <= k < |tags| && Strip(doc.text(tags[k])) != ""
    ensures Strip(doc.text(tags[k])) in NonBlankTexts(doc, tags)
  {
    NonBlankTextsSplit(doc, tags, k);
    var x := NonBlankTexts(doc, tags[..k]);
    assert NonBlankTexts(doc, tags)[|x|] == Strip(doc.text(tags[k]));
  }

  /**
   * Skills come from the container of the first selector that finds one,
   * whether or not it holds any non-blank tag; with no container they are [].
   */
  lemma {:induction false} SkillsFromFirst(doc: Document, e: NodeId, sels: seq<Selector>, j: int)
    requires 0 <= j < |sels| && SelectOne(doc, e, sels[j]).Some?
    requires forall i :: 0 <= i < j ==> SelectOne(doc, e, sels[i]).None?
    ensures SkillsFrom(doc, e, sels)
            == NonBlankTexts(doc, doc.findAll(SelectOne(doc, e, sels[j]).value, SkillTagNames))
  {
    if j > 0 {
      assert SelectOne(doc, e, sels[0]).None?;
      forall i | 0 <= i < j - 1 ensures SelectOne(doc, e, sels[1..][i]).None? {
        assert sels[1..][i] == sels[i + 1];
      }
      assert sels[1..][j - 1] == sels[j];
      SkillsFromFirst(doc, e, sels[1..], j - 1);
    }
  }

  lemma {:induction false} SkillsFromNone(doc: Document, e: NodeId, sels: seq<Selector>)
    requires forall i :: 0 <= i < |sels| ==> SelectOne(doc, e, sels[i]).None?
    ensures SkillsFrom(doc, e, sels) == []
  {
    if sels != [] {
      assert SelectOne(doc, e, sels[0]).None?;
      forall i | 0 <= i < |sels| - 1 ensures SelectOne(doc, e, sels[1..][i]).None? {
        assert sels[1..][i] == sels[i + 1];
      }
      SkillsFromNone(doc, e, sels[1..]);
    }
  }

  /** The link made up for a listing without one: a details page queried by the title. */
  function DetailsUrl(ops: TextOps, title: string): string {
    BaseUrl + "/job-details?title=" + ops.quotePlus(title)
  }

  /** The record `_parse_job_element` builds for element `e`. */
  function Listing(ops: TextOps, doc: Document, e: NodeId): Job {
    var titleNode := FirstFilled(doc, e, TitleSelectors);
    var title := FieldText(doc, e, TitleSelectors, NotSpecified);
    var link := if titleNode.Some? then TitleLink(doc, titleNode.value) else "";
    var description := match FirstFilled(doc, e, DescriptionSelectors)
      case Some(n) => Truncate(Strip(doc.text(n)))
      case None => "";
    Job(title := title,
        company := FieldText(doc, e, CompanySelectors, NotSpecified),
        location := FieldText(doc, e, LocationSelectors, NotSpecified),
        experience := FieldText(doc, e, ExperienceSelectors, NotSpecified),
        salary := FieldText(doc, e, SalarySelectors, NotDisclosed),
        description := description,
        skills := SkillsFrom(doc, e, SkillsSelectors),
        postedDate := FieldText(doc, e, DateSelectors, Recently),
        url := if link != "" then link else DetailsUrl(ops, title),
        source := LiveSource,
        relevanceScore := None)
  }

  /** The selector loop of one field: the first selector that is `Filled`. */
  method FirstFilledNode(doc: Document, e: NodeId, sels: seq<Selector>) returns (hit: Option<NodeId>)
    ensures hit == FirstFilled(doc, e, sels)
  {
    var i := 0;
    while i < |sels|
      invariant 0 <= i <= |sels|
      invariant FirstFilled(doc, e, sels) == FirstFilled(doc, e, sels[i..])
    {
      assert sels[i..][1..] == sels[i + 1..];
      var candidate := SelectOne(doc, e, sels[i]);
      if candidate.Some? && Strip(doc.text(candidate.value)) != "" {
        return candidate;
      }
      i := i + 1;
    }
    return None;
  }

  /**
   * One text field's selector loop: the trimmed text of the first filled
   * selector replaces `current`; with none filled, `current` stays.
   */
  method FillField(doc: Document, e: NodeId, sels: seq<Selector>, current: string) returns (value: string)
    ensures value == FieldText(doc, e, sels, current)
  {
    value := current;
    var node := FirstFilledNode(doc, e, sels);
    if node.Some? {
      value := Strip(doc.text(node.value));
    }
  }

  /** The skills selector loop: stops at the first selector whose container exists. */
  method SkillsOf(doc: Document, e: NodeId) returns (skills: seq<string>)
    ensures skills == SkillsFrom(doc, e, SkillsSelectors)
  {
    var i := 0;
    while i < |SkillsSelectors|
      invariant 0 <= i <= |SkillsSelectors|
      invariant SkillsFrom(doc, e, SkillsSelectors) == SkillsFrom(doc, e, SkillsSelectors[i..])
    {
      assert SkillsSelectors[i..][1..] == SkillsSelectors[i + 1..];
      var container := SelectOne(doc, e, SkillsSelectors[i]);
      if container.Some? {
        return NonBlankTexts(doc, doc.findAll(container.value, SkillTagNames));
      }
      i := i + 1;
    }
    return [];
  }

  /**
   * `_parse_job_element`: starts from the all-defaults record and fills it
   * field by field.
   */
  method ParseJobElement(ops: TextOps, doc: Document, e: NodeId) returns (job: Job)
    ensures job == Listing(ops, doc, e)
  {
    ghost var spec := Listing(ops, doc, e);
    job := Job(NotSpecified, NotSpecified, NotSpecified, NotSpecified, NotDisclosed,
               "", [], Recently, "", LiveSource, None);

    var titleNode := FirstFilledNode(doc, e, TitleSelectors);
    if titleNode.Some? {
      var n := titleNode.value;
      job := job.(title := Strip(doc.text(n)));
      if doc.tagName(n) == "a" {
        var url := doc.href(n).GetOr("");
        if url != "" {
          url := AbsoluteUrl(BaseUrl, url);
          job := job.(url := url);
        }
      }
    }
    assert job.title == spec.title;
    assert job.url == (if titleNode.Some? then TitleLink(doc, titleNode.value) else "");

    var company := FillField(doc, e, CompanySelectors, job.company);
    job := job.(company := company);
    var location := FillField(doc, e, LocationSelectors, job.location);
    job := job.(location := location);
    var experience := FillField(doc, e, ExperienceSelectors, job.experience);
    job := job.(experience := experience);
    var salary := FillField(doc, e, SalarySelectors, job.salary);
    job := job.(salary := salary);
    var descriptionNode := FirstFilledNode(doc, e, DescriptionSelectors);
    if descriptionNode.Some? {
      job := job.(description := Truncate(Strip(doc.text(descriptionNode.value))));
    }
    assert job.description == spec.description;

    var skills := SkillsOf(doc, e);
    if skills != [] {
      job := job.(skills := skills);
    }
    assert job.skills == spec.skills;

    var postedDate := FillField(doc, e, DateSelectors, job.postedDate);
    job := job.(postedDate := postedDate);

    if job.url == "" {
      job := job.(url := DetailsUrl(ops, job.title));
    }
  }

  /** A text field with a non-blank trimmed default is always non-blank and trimmed. */
  lemma FieldClean(doc: Document, e: NodeId, sels: seq<Selector>, default: string)
    requires default != "" && Strip(default) == default
    ensures var t := FieldText(doc, e, sels, default); t != "" && Strip(t) == t
  {
    var node := FirstFilled(doc, e, sels);
    if node.Some? {
      StripIdempotent(doc.text(node.value));
    }
  }

  /** A resolved title is non-blank and trimmed; so is the default. */
  lemma TitleClean(doc: Document, e: NodeId)
    ensures var title := FieldText(doc, e, TitleSelectors, NotSpecified);
      title != "" && Strip(title) == title
  {
    var d := NotSpecified;
    assert d[0] == 'N' && d[|d| - 1] == 'd';
    StripClean(d);
    FieldClean(doc, e, TitleSelectors, d);
  }

  /** The details link made up from a title is absolute. */
  lemma DetailsUrlAbsolute(ops: TextOps, title: string)
    ensures StartsWith(DetailsUrl(ops, title), "http")
  {
    assert StartsWith(BaseUrl, "http");
    var rest := "/job-details?title=" + ops.quotePlus(title);
    PrefixOfAppend(BaseUrl, rest);
    assert DetailsUrl(ops, title) == BaseUrl + rest;
    StartsWithTransitive(DetailsUrl(ops, title), BaseUrl, "http");
  }

  /** Every parsed record links to an absolute "http..." URL. */
  lemma ListingUrlAbsolute(ops: TextOps, doc: Document, e: NodeId)
    ensures StartsWith(Listing(ops, doc, e).url, "http")
  {
    assert StartsWith(BaseUrl, "http");
    var titleNode := FirstFilled(doc, e, TitleSelectors);
    var title := FieldText(doc, e, TitleSelectors, NotSpecified);
    var link := if titleNode.Some? then TitleLink(doc, titleNode.value) else "";
    assert Listing(ops, doc, e).url == if link != "" then link else DetailsUrl(ops, title);
    if link == "" {
      DetailsUrlAbsolute(ops, title);
    }
  }

  /**
   * What every parsed record satisfies: live provenance and no score, a
   * non-blank trimmed title, a description of at most 203 characters, and
   * an absolute URL.
   */
  lemma ListingWellFormed(ops: TextOps, doc: Document, e: NodeId)
    ensures var job := Listing(ops, doc, e);
      && IsLive(job)
      && job.title != "" && Strip(job.title) == job.title
      && |job.description| <= DescriptionLimit + 3
      && StartsWith(job.url, "http")
  {
    TitleClean(doc, e);
    ListingUrlAbsolute(ops, doc, e);
  }
}
