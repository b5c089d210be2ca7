/**
 * `search_jobs` and the scraper object: a cached lookup, otherwise one page
 * load whose records are cached when there are any, with synthetic records
 * when loading the page raised.
 */
module Search {
  import opened Text
  import opened Lists
  import opened Dom
  import opened Jobs
  import opened Urls
  import opened Extractor
  import opened Fallback

  /**
   * How the browser part of a search ended: it raised (opening the page,
   * the challenge handling, scrolling or reading the page source), or it
   * rendered a page whose parsed document is `doc` with root `root`.
   */
  datatype Fetch = Raised | Rendered(doc: Document, root: NodeId)

  /** The query a cached result belongs to. */
  datatype QueryKey = QueryKey(skill: string, location: string, experience: string)

  /** The records returned and the cache afterwards. */
  datatype Outcome<K> = Outcome(jobs: seq<Job>, entries: map<K, seq<Job>>)

  /**
   * The cache key as `search_jobs` writes it: the three parts joined by
   * underscores after a fixed prefix.
   */
  function CacheKey(skill: string, location: string, experience: string): string {
    "naukri_sel_" + skill + "_" + location + "_" + experience
  }

  /**
   * One search under cache key `key`. A present, non-empty cached list is
   * sliced to `maxResults`. Otherwise the page is fetched: when that raised,
   * the sample records are used; when it rendered, the extracted records
   * are cached if there are any (unless the cache write raises) and sliced.
   */
  function SearchWith<K(==)>(ops: TextOps, entries: map<K, seq<Job>>, key: K,
                             skill: string, location: string, maxResults: int,
                             fetch: Fetch, cacheWriteFails: bool): (r: Outcome<K>)
    ensures maxResults >= 0 ==> |r.jobs| <= maxResults
    ensures r.entries.Keys <= entries.Keys + {key}
  {
    if key in entries && entries[key] != [] then
      Outcome(Take(entries[key], maxResults), entries)
    else match fetch
      case Raised => Outcome(Take(FallbackJobs(ops, skill, location), maxResults), entries)
      case Rendered(doc, root) =>
        var found := Extracted(ops, doc, root, maxResults);
        if found == [] || cacheWriteFails then Outcome(Take(found, maxResults), entries)
        else Outcome(Take(found, maxResults), entries[key := found])
  }

  /** `search_jobs` as written: results cached under the underscore-joined key. */
  function SearchAsWritten(ops: TextOps, entries: map<string, seq<Job>>,
                           skill: string, location: string, experience: string, maxResults: int,
                           fetch: Fetch, cacheWriteFails: bool): (r: Outcome<string>)
    ensures maxResults >= 0 ==> |r.jobs| <= maxResults
    ensures r.entries.Keys <= entries.Keys + {CacheKey(skill, location, experience)}
  {
    SearchWith(ops, entries, CacheKey(skill, location, experience), skill, location, maxResults, fetch, cacheWriteFails)
  }

  /** `search_jobs` with results cached under the query itself. */
  function Search(ops: TextOps, entries: map<QueryKey, seq<Job>>,
                  skill: string, location: string, experience: string, maxResults: int,
                  fetch: Fetch, cacheWriteFails: bool): (r: Outcome<QueryKey>)
    ensures maxResults >= 0 ==> |r.jobs| <= maxResults
    ensures r.entries.Keys <= entries.Keys + {QueryKey(skill, location, experience)}
  {
    SearchWith(ops, entries, QueryKey(skill, location, experience), skill, location, maxResults, fetch, cacheWriteFails)
  }

  /** Every cached list is non-empty. */
  ghost predicate NonEmptyValues<K>(entries: map<K, seq<Job>>) {
    forall k :: k in entries ==> entries[k] != []
  }

  /** Every cached record came from a rendered page. */
  ghost predicate LiveValues<K>(entries: map<K, seq<Job>>) {
    forall k :: k in entries ==> forall j :: 0 <= j < |entries[k]| ==> Extractable(entries[k][j])
  }

  /** The sample records are never live, so they can be told apart from scraped ones. */
  lemma FallbackNotLive(ops: TextOps, skill: string, location: string)
    ensures forall j :: 0 <= j < |FallbackJobs(ops, skill, location)| ==>
              FallbackJobs(ops, skill, location)[j].source == SampleSource
              && !Extractable(FallbackJobs(ops, skill, location)[j])
  {
    FallbackShape(ops, skill, location);
    assert SampleSource[|LiveSource|] == ' ';
  }

  /** A search never returns more than `maxResults` records, on every path. */
  lemma SearchBounded<K>(ops: TextOps, entries: map<K, seq<Job>>, key: K, skill: string, location: string,
                         maxResults: int, fetch: Fetch, cacheWriteFails: bool)
    requires maxResults >= 0
    ensures |SearchWith(ops, entries, key, skill, location, maxResults, fetch, cacheWriteFails).jobs| <= maxResults
  {
  }

  /**
   * Caching rules: the cache changes only when the page rendered and gave
   * records, and then only at the searched key, which gets all of them.
   */
  lemma SearchWritesOnlyFindings<K>(ops: TextOps, entries: map<K, seq<Job>>, key: K, skill: string, location: string,
                                    maxResults: int, fetch: Fetch, cacheWriteFails: bool)
    ensures var out := SearchWith(ops, entries, key, skill, location, maxResults, fetch, cacheWriteFails);
      && (forall k :: k != key ==> (k in out.entries <==> k in entries))
      && (forall k :: k in entries && k != key ==> out.entries[k] == entries[k])
      && (out.entries != entries ==> fetch.Rendered? && !cacheWriteFails
                                     && out.entries == entries[key := Extracted(ops, fetch.doc, fetch.root, maxResults)]
                                     && Extracted(ops, fetch.doc, fetch.root, maxResults) != [])
  {
  }

  /** A cache of non-empty lists of live records stays one. */
  lemma SearchKeepsCacheLive<K>(ops: TextOps, entries: map<K, seq<Job>>, key: K, skill: string, location: string,
                                maxResults: int, fetch: Fetch, cacheWriteFails: bool)
    requires NonEmptyValues(entries) && LiveValues(entries)
    ensures var out := SearchWith(ops, entries, key, skill, location, maxResults, fetch, cacheWriteFails);
      NonEmptyValues(out.entries) && LiveValues(out.entries)
  {
    var out := SearchWith(ops, entries, key, skill, location, maxResults, fetch, cacheWriteFails);
    SearchWritesOnlyFindings(ops, entries, key, skill, location, maxResults, fetch, cacheWriteFails);
    if out.entries != entries {
      ExtractedShape(ops, fetch.doc, fetch.root, maxResults);
    }
  }

  /** A rendered page with nothing on it, on a cache miss, gives `[]` and leaves the cache alone. */
  lemma SearchQuietMiss<K>(ops: TextOps, entries: map<K, seq<Job>>, key: K, skill: string, location: string,
                           maxResults: int, doc: Document, root: NodeId, cacheWriteFails: bool)
    requires !(key in entries && entries[key] != [])
    requires Extracted(ops, doc, root, maxResults) == []
    ensures SearchWith(ops, entries, key, skill, location, maxResults, Rendered(doc, root), cacheWriteFails)
            == Outcome([], entries)
  {
  }

  /**
   * Sample records appear only when the page load raised on a cache miss,
   * and then all of the first `maxResults` of them appear; otherwise every
   * record is live.
   */
  lemma SearchSamplesOnlyWhenRaised<K>(ops: TextOps, entries: map<K, seq<Job>>, key: K, skill: string, location: string,
                                       maxResults: int, fetch: Fetch, cacheWriteFails: bool)
    requires LiveValues(entries)
    ensures var out := SearchWith(ops, entries, key, skill, location, maxResults, fetch, cacheWriteFails);
      if fetch.Raised? && !(key in entries && entries[key] != []) then
        out.jobs == Take(FallbackJobs(ops, skill, location), maxResults)
        && forall j :: 0 <= j < |out.jobs| ==> out.jobs[j].source == SampleSource
      else
        forall j :: 0 <= j < |out.jobs| ==> Extractable(out.jobs[j])
  {
    var out := SearchWith(ops, entries, key, skill, location, maxResults, fetch, cacheWriteFails);
    if key in entries && entries[key] != [] {
      assert forall j :: 0 <= j < |out.jobs| ==> out.jobs[j] == entries[key][j];
    } else if fetch.Raised? {
      FallbackNotLive(ops, skill, location);
    } else {
      var found := Extracted(ops, fetch.doc, fetch.root, maxResults);
      ExtractedShape(ops, fetch.doc, fetch.root, maxResults);
      assert forall j :: 0 <= j < |out.jobs| ==> out.jobs[j] == found[j];
    }
  }

  /**
   * A search that stored its findings is answered from the cache when
   * repeated, whatever the browser would do the second time.
   */
  lemma SearchRepeatHitsCache<K>(ops: TextOps, entries: map<K, seq<Job>>, key: K, skill: string, location: string,
                                 maxResults: int, fetch: Fetch, cacheWriteFails: bool,
                                 maxResults2: int, fetch2: Fetch, cacheWriteFails2: bool)
    requires SearchWith(ops, entries, key, skill, location, maxResults, fetch, cacheWriteFails).entries != entries
    ensures var first := SearchWith(ops, entries, key, skill, location, maxResults, fetch, cacheWriteFails);
      var again := SearchWith(ops, first.entries, key, skill, location, maxResults2, fetch2, cacheWriteFails2);
      && again.entries == first.entries
      && again.jobs == Take(Extracted(ops, fetch.doc, fetch.root, maxResults), maxResults2)
  {
  }

  /**
   * With the cache keyed by the query, a search for one query never
   * changes what a search for a different query returns.
   */
  lemma QueryKeySeparatesSearches(ops: TextOps, entries: map<QueryKey, seq<Job>>,
                                  skill: string, location: string, experience: string, maxResults: int,
                                  fetch: Fetch, cacheWriteFails: bool,
                                  skill2: string, location2: string, experience2: string, maxResults2: int,
                                  fetch2: Fetch, cacheWriteFails2: bool)
    requires (skill, location, experience) != (skill2, location2, experience2)
    ensures var first := Search(ops, entries, skill, location, experience, maxResults, fetch, cacheWriteFails);
      Search(ops, first.entries, skill2, location2, experience2, maxResults2, fetch2, cacheWriteFails2).jobs
      == Search(ops, entries, skill2, location2, experience2, maxResults2, fetch2, cacheWriteFails2).jobs
  {
    var first := Search(ops, entries, skill, location, experience, maxResults, fetch, cacheWriteFails);
    var key2 := QueryKey(skill2, location2, experience2);
    assert key2 != QueryKey(skill, location, experience);
    assert (key2 in first.entries) == (key2 in entries);
    assert key2 in entries ==> first.entries[key2] == entries[key2];
  }

  /** Lower-case ASCII letters and underscores only. */
  predicate PlainWord(s: string) {
    forall i :: 0 <= i < |s| ==> s[i] == '_' || 'a' <= s[i] <= 'z'
  }

  /** A plain word is its own slug. */
  lemma SlugUnchanged(s: string)
    requires PlainWord(s)
    ensures Slug(s) == s
  {
    StripClean(s);
  }

  /**
   * The underscore-joined key does not tell queries apart: moving an
   * underscore-separated word from the end of the skill to the front of
   * the location keeps the key, yet the two queries search different pages.
   */
  lemma CacheKeyCollides(a: string, b: string, c: string, experience: string)
    requires PlainWord(a) && PlainWord(b) && PlainWord(c)
    ensures CacheKey(a + "_" + b, c, experience) == CacheKey(a, b + "_" + c, experience)
    ensures BuildSearchUrl(BaseUrl, a + "_" + b, c) != BuildSearchUrl(BaseUrl, a, b + "_" + c)
  {
    SameKey(a, b, c, experience);
    SkillUnderscoreAt(BaseUrl, a, b, c);
    LocationHyphenAt(BaseUrl, a, b, c);
  }

  /** With skill `a_b`, the character after `{base}/a` is the underscore. */
  lemma SkillUnderscoreAt(base: string, a: string, b: string, c: string)
    requires PlainWord(a) && PlainWord(b)
    ensures var url := BuildSearchUrl(base, a + "_" + b, c);
      |url| > |base| + 1 + |a| && url[|base| + 1 + |a|] == '_'
  {
    var skill := a + "_" + b;
    PlainJoin(a, b);
    SlugUnchanged(skill);
    var head := base + "/" + skill;
    var url := BuildSearchUrl(base, skill, c);
    assert url[..|head|] == head;
    var i := |base| + 1 + |a|;
    assert url[i] == url[..|head|][i] == head[i] == skill[|a|];
  }

  /** With skill `a` and a non-blank location, the character after `{base}/a` is a hyphen. */
  lemma LocationHyphenAt(base: string, a: string, b: string, c: string)
    requires PlainWord(a) && PlainWord(b) && PlainWord(c)
    ensures var url := BuildSearchUrl(base, a, b + "_" + c);
      |url| > |base| + 1 + |a| && url[|base| + 1 + |a|] == '-'
  {
    var location := b + "_" + c;
    PlainJoin(b, c);
    StripClean(location);
    SlugUnchanged(a);
    var head := base + "/" + a;
    var tail := "-jobs-in-" + Slug(location);
    assert BuildSearchUrl(base, a, location) == head + tail;
    assert (head + tail)[|head|] == tail[0];
  }

  lemma PlainJoin(x: string, y: string)
    requires PlainWord(x) && PlainWord(y)
    ensures PlainWord(x + "_" + y)
  {
    var j := x + "_" + y;
    forall i | 0 <= i < |j| ensures j[i] == '_' || 'a' <= j[i] <= 'z' {
      if i < |x| { assert j[i] == x[i]; }
      else if i > |x| { assert j[i] == y[i - |x| - 1]; }
    }
  }

  lemma SameKey(a: string, b: string, c: string, experience: string)
    ensures CacheKey(a + "_" + b, c, experience) == CacheKey(a, b + "_" + c, experience)
  {
    var p, u := "naukri_sel_", "_";
    calc {
      CacheKey(a + "_" + b, c, experience);
      p + (a + u + b) + u + c + u + experience;
      { assert p + (a + u + b) == p + a + u + b; }
      p + a + u + b + u + c + u + experience;
      { assert p + a + u + (b + u + c) == p + a + u + b + u + c; }
      p + a + u + (b + u + c) + u + experience;
      CacheKey(a, b + "_" + c, experience);
    }
  }

  /**
   * So the as-written search answers the second query with the records
   * cached for the first, without loading its own page.
   */
  lemma AsWrittenServesOtherQuery(ops: TextOps, a: string, b: string, c: string, experience: string,
                                  found: seq<Job>, maxResults: int, fetch: Fetch, cacheWriteFails: bool)
    requires PlainWord(a) && PlainWord(b) && PlainWord(c) && found != []
    ensures var entries := map[CacheKey(a + "_" + b, c, experience) := found];
      SearchAsWritten(ops, entries, a, b + "_" + c, experience, maxResults, fetch, cacheWriteFails).jobs
      == Take(found, maxResults)
  {
    CacheKeyCollides(a, b, c, experience);
  }

  /** The cache the searches share: result lists by query. */
  class ResultCache {
    var entries: map<QueryKey, seq<Job>>

    constructor ()
      ensures entries == map[]
    {
      entries := map[];
    }
  }

  /** The scraper: a browser session and the shared result cache. */
  class NaukriScraper {
    const cache: ResultCache
    const ops: TextOps
    var sessionOpen: bool

    constructor (cache: ResultCache, ops: TextOps)
      ensures this.cache == cache && this.ops == ops && sessionOpen
    {
      this.cache := cache;
      this.ops := ops;
      sessionOpen := true;
    }

    /**
     * `search_jobs`. `fetch` is what the browser produced for the search
     * URL and `cacheWriteFails` whether storing the results raised.
     */
    method SearchJobs(skill: string, location: string, experience: string, maxResults: int,
                      fetch: Fetch, cacheWriteFails: bool) returns (jobs: seq<Job>)
      modifies cache
      ensures var out := Search(ops, old(cache.entries), skill, location, experience, maxResults, fetch, cacheWriteFails);
        jobs == out.jobs && cache.entries == out.entries
    {
      var key := QueryKey(skill, location, experience);
      if key in cache.entries && cache.entries[key] != [] {
        return Take(cache.entries[key], maxResults);
      }
      jobs := [];
      match fetch {
        case Raised =>
          if |jobs| == 0 {
            jobs := FallbackExtraction(ops, skill, location);
          }
        case Rendered(doc, root) =>
          jobs := ExtractJobs(ops, doc, root, maxResults);
          if jobs != [] && !cacheWriteFails {
            cache.entries := cache.entries[key := jobs];
          }
      }
      jobs := Take(jobs, maxResults);
    }

    /** `close`: ends the browser session. */
    method Close()
      modifies this
      ensures !sessionOpen
    {
      sessionOpen := false;
    }
  }
}
