/** The search URL the scraper opens and the listing links it records. */
module Urls {
  import opened Text

  /** How a query word appears in a search URL: trimmed, lower-cased, spaces as hyphens. */
  function Slug(s: string): string {
    Replace(Lower(Strip(s)), ' ', '-')
  }

  /**
   * `_build_search_url`: `{base}/{skill}-jobs-in-{location}` when the
   * location has any non-whitespace character, `{base}/{skill}-jobs`
   * otherwise.
   */
  function BuildSearchUrl(base: string, skill: string, location: string): (url: string)
    ensures StartsWith(url, base + "/" + Slug(skill))
  {
    var skillClean := Slug(skill);
    PrefixOfAppend(base + "/" + skillClean, "-jobs-in-" + Slug(location));
    PrefixOfAppend(base + "/" + skillClean, "-jobs");
    assert base + "/" + skillClean + "-jobs-in-" + Slug(location) == base + "/" + skillClean + ("-jobs-in-" + Slug(location));
    if location != "" && Strip(location) != "" then
      base + "/" + skillClean + "-jobs-in-" + Slug(location)
    else
      base + "/" + skillClean + "-jobs"
  }

  lemma PrefixOfAppend(p: string, rest: string)
    ensures StartsWith(p + rest, p)
  {
    assert (p + rest)[..|p|] == p;
  }

  lemma SuffixOfAppend(rest: string, q: string)
    ensures EndsWith(rest + q, q)
  {
    assert (rest + q)[|rest|..] == q;
  }

  /**
   * The shapes `_build_search_url` produces: the slugged skill after the
   * base URL, then `-jobs-in-{location}` for a location with any
   * non-whitespace character and `-jobs` for an empty or blank one.
   */
  lemma SearchUrlShape(base: string, skill: string, location: string)
    ensures var url := BuildSearchUrl(base, skill, location);
      && StartsWith(url, base + "/" + Slug(skill))
      && (Strip(location) != "" ==> EndsWith(url, "-jobs-in-" + Slug(location)))
      && (Strip(location) == "" ==> EndsWith(url, "-jobs") && !EndsWith(url, "-jobs-in-" + Slug(location)))
  {
    var head := base + "/" + Slug(skill);
    if Strip(location) != "" {
      assert location != "";
      PrefixOfAppend(head, "-jobs-in-" + Slug(location));
      SuffixOfAppend(head, "-jobs-in-" + Slug(location));
      assert head + "-jobs-in-" + Slug(location) == head + ("-jobs-in-" + Slug(location));
    } else {
      PrefixOfAppend(head, "-jobs");
      SuffixOfAppend(head, "-jobs");
      assert Slug(location) == [];
      var url := head + "-jobs";
      var tail := "-jobs-in-" + Slug(location);
      assert url[|url| - 1] == 's' && tail[|tail| - 1] == '-';
    }
  }

  /**
   * An href made absolute: kept when it starts with "http", otherwise the
   * base URL is put in front, with a "/" between them unless the href
   * already starts with one. The href always survives as the URL's tail.
   */
  function AbsoluteUrl(base: string, href: string): (url: string)
    ensures EndsWith(url, href)
    ensures StartsWith(href, "http") ==> url == href
    ensures StartsWith(base, "http") ==> StartsWith(url, "http")
    ensures !StartsWith(href, "http") ==>
              url == base + (if StartsWith(href, "/") then "" else "/") + href
  {
    if StartsWith(href, "http") then href
    else if StartsWith(href, "/") then base + href
    else base + "/" + href
  }

  /** Normalising an already normalised link changes nothing. */
  lemma AbsoluteUrlIdempotent(base: string, href: string)
    requires StartsWith(base, "http")
    ensures AbsoluteUrl(base, AbsoluteUrl(base, href)) == AbsoluteUrl(base, href)
  {
  }

  /**
   * A relative href resolves to the same link with or without its leading
   * "/": exactly one "/" joins the base and the path.
   */
  lemma LeadingSlashOptional(base: string, path: string)
    requires !StartsWith(path, "http") && !StartsWith(path, "/")
    ensures AbsoluteUrl(base, "/" + path) == AbsoluteUrl(base, path)
  {
    assert !StartsWith("/" + path, "http") by {
      assert ("/" + path)[0] == '/';
    }
    assert StartsWith("/" + path, "/") by {
      PrefixOfAppend("/", path);
    }
    assert base + ("/" + path) == base + "/" + path;
  }

  lemma LowerKeepsSpaces(c: char)
    ensures IsSpace(LowerChar(c)) == IsSpace(c)
  {
  }

  lemma {:induction false} StripLeftLower(s: string)
    ensures StripLeft(Lower(s)) == Lower(StripLeft(s))
    decreases |s|
  {
    if s != [] {
      LowerKeepsSpaces(s[0]);
      assert Lower(s)[1..] == Lower(s[1..]);
      StripLeftLower(s[1..]);
    }
  }

  lemma {:induction false} StripRightLower(s: string)
    ensures StripRight(Lower(s)) == Lower(StripRight(s))
    decreases |s|
  {
    if s != [] {
      LowerKeepsSpaces(s[|s| - 1]);
      assert Lower(s)[..|s| - 1] == Lower(s[..|s| - 1]);
      StripRightLower(s[..|s| - 1]);
    }
  }

  /** Trimming and lower-casing commute. */
  lemma StripLower(s: string)
    ensures Strip(Lower(s)) == Lower(Strip(s))
  {
    StripLeftLower(s);
    StripRightLower(StripLeft(s));
  }

  /** The case of the query does not reach the URL: `Slug(s.lower()) == Slug(s)`. */
  lemma SlugIgnoresCase(s: string)
    ensures Slug(Lower(s)) == Slug(s)
  {
    StripLower(s);
    LowerIdempotent(Strip(s));
  }

  /** Whitespace around the query does not reach the URL. */
  lemma SlugIgnoresPadding(s: string)
    ensures Slug(Strip(s)) == Slug(s)
  {
    StripIdempotent(s);
  }

  /** A slug has no space, no upper-case ASCII letter and no whitespace at either end. */
  lemma SlugShape(s: string)
    ensures var t := Slug(s);
      (forall i :: 0 <= i < |t| ==> t[i] != ' ' && !('A' <= t[i] <= 'Z'))
      && (t == [] || (!IsSpace(t[0]) && !IsSpace(t[|t| - 1])))
  {
    var t := Strip(s);
    if t != [] {
      LowerKeepsSpaces(t[0]);
      LowerKeepsSpaces(t[|t| - 1]);
    }
  }

  /** A slug is its own slug, so building a URL from a URL fragment is stable. */
  lemma SlugIdempotent(s: string)
    ensures Slug(Slug(s)) == Slug(s)
  {
    var t := Slug(s);
    SlugShape(s);
    StripClean(t);
    assert Lower(t) == t;
    assert Replace(t, ' ', '-') == t;
  }

  /** The URL only depends on the query after trimming and lower-casing. */
  lemma SearchUrlNormalisesSkill(base: string, skill: string, location: string)
    ensures BuildSearchUrl(base, Lower(Strip(skill)), location) == BuildSearchUrl(base, skill, location)
  {
    SlugIgnoresCase(Strip(skill));
    SlugIgnoresPadding(skill);
    SameSlugSameUrl(base, Lower(Strip(skill)), skill, location);
  }

  lemma SameSlugSameUrl(base: string, a: string, b: string, location: string)
    requires Slug(a) == Slug(b)
    ensures BuildSearchUrl(base, a, location) == BuildSearchUrl(base, b, location)
  {
  }
}
