/**
 * `_match_jobs_with_skill`: each record is scored against the searched
 * skill, then the list is sorted by score, highest first, keeping the input
 * order among equal scores.
 */
module Ranking {
  import opened Results
  import opened Text
  import opened Jobs

  /** Points for the skill in the title, in some skill entry, and in the description. */
  const TitlePoints: int := 3
  const SkillPoints: int := 2
  const DescriptionPoints: int := 1

  /** Some entry of `skills`, lower-cased, contains `needle`. */
  predicate AnyContains(skills: seq<string>, needle: string) {
    exists i :: 0 <= i < |skills| && Contains(Lower(skills[i]), needle)
  }

  /** The relevance of `job` to `skill`; every test is on lower-cased text. */
  function RelevanceScore(job: Job, skill: string): (r: int)
    ensures 0 <= r <= TitlePoints + SkillPoints + DescriptionPoints
  {
    var s := Lower(skill);
    (if Contains(Lower(job.title), s) then TitlePoints else 0)
    + (if AnyContains(job.skills, s) then SkillPoints else 0)
    + (if Contains(Lower(job.description), s) then DescriptionPoints else 0)
  }

  /**
   * What a score says about the three tests: 0 means none matched and 6
   * all three; a title match alone already gives 3, and any score above 3
   * needs one.
   */
  lemma ScoreMeaning(job: Job, skill: string)
    ensures var r := RelevanceScore(job, skill); var s := Lower(skill);
      var t, k, d := Contains(Lower(job.title), s), AnyContains(job.skills, s), Contains(Lower(job.description), s);
      && (r == 0 <==> !t && !k && !d)
      && (r == TitlePoints + SkillPoints + DescriptionPoints <==> t && k && d)
      && (t ==> r >= TitlePoints)
      && (r > TitlePoints ==> t)
      && (r % 2 == 1 <==> t != d)
  {
  }

  /** `job` with its score written in. */
  function Scored(job: Job, skill: string): Job {
    job.(relevanceScore := Some(RelevanceScore(job, skill)))
  }

  /** The sort key. */
  function Key(job: Job): int {
    job.relevanceScore.GetOr(0)
  }

  /** Highest key first. */
  predicate SortedByScore(s: seq<Job>) {
    forall i, j :: 0 <= i < j < |s| ==> Key(s[i]) >= Key(s[j])
  }

  /** `x` placed after every element whose key is at least its own. */
  function Insert(x: Job, s: seq<Job>): (r: seq<Job>)
    ensures multiset(r) == multiset(s) + multiset{x}
    ensures |r| == |s| + 1
  {
    if s == [] then [x]
    else if Key(x) > Key(s[0]) then [x] + s
    else
      assert s == [s[0]] + s[1..];
      [s[0]] + Insert(x, s[1..])
  }

  /** `sorted(s, key=score, reverse=True)`, which is stable. */
  function SortByScore(s: seq<Job>): (r: seq<Job>)
    ensures multiset(r) == multiset(s)
    ensures |r| == |s|
  {
    if s == [] then []
    else
      assert s == s[..|s| - 1] + [s[|s| - 1]];
      Insert(s[|s| - 1], SortByScore(s[..|s| - 1]))
  }

  /** The elements of `s` with key `v`, in order. */
  function WithScore(s: seq<Job>, v: int): seq<Job> {
    if s == [] then []
    else WithScore(s[..|s| - 1], v) + (if Key(s[|s| - 1]) == v then [s[|s| - 1]] else [])
  }

  lemma {:induction false} WithScoreAppend(a: seq<Job>, b: seq<Job>, v: int)
    ensures WithScore(a + b, v) == WithScore(a, v) + WithScore(b, v)
    decreases |b|
  {
    if b == [] {
      assert a + b == a;
    } else {
      assert (a + b)[..|a + b| - 1] == a + b[..|b| - 1];
      WithScoreAppend(a, b[..|b| - 1], v);
    }
  }

  lemma {:induction false} WithScoreNone(s: seq<Job>, v: int)
    requires forall i :: 0 <= i < |s| ==> Key(s[i]) != v
    ensures WithScore(s, v) == []
    decreases |s|
  {
    if s != [] {
      WithScoreNone(s[..|s| - 1], v);
    }
  }

  lemma {:induction false} InsertSorted(x: Job, s: seq<Job>)
    requires SortedByScore(s)
    ensures SortedByScore(Insert(x, s))
    decreases |s|
  {
    if s != [] && Key(x) <= Key(s[0]) {
      var rest := Insert(x, s[1..]);
      InsertSorted(x, s[1..]);
      forall i | 0 <= i < |rest| ensures Key(rest[i]) <= Key(s[0]) {
        assert rest[i] in multiset(rest);
        if rest[i] != x {
          assert rest[i] in multiset(s[1..]);
          var j :| 0 <= j < |s[1..]| && s[1..][j] == rest[i];
          assert s[j + 1] == rest[i];
        }
      }
      assert Insert(x, s) == [s[0]] + rest;
    }
  }

  lemma WithScoreSingle(x: Job, v: int)
    ensures WithScore([x], v) == if Key(x) == v then [x] else []
  {
    assert [x][..0] == [];
  }

  /**
   * Inserting `x` adds it after every element with its key: the elements
   * with any given key keep their order, with `x` last among its equals.
   */
  lemma {:induction false} InsertStable(x: Job, s: seq<Job>, v: int)
    requires SortedByScore(s)
    ensures WithScore(Insert(x, s), v) == WithScore(s, v) + (if Key(x) == v then [x] else [])
    decreases |s|
  {
    if s == [] {
      WithScoreSingle(x, v);
    } else if Key(x) > Key(s[0]) {
      InsertFrontStable(x, s, v);
    } else {
      var tail := s[1..];
      assert SortedByScore(tail) by {
        forall i, j | 0 <= i < j < |tail| ensures Key(tail[i]) >= Key(tail[j]) {
          assert tail[i] == s[i + 1] && tail[j] == s[j + 1];
        }
      }
      InsertStable(x, tail, v);
      InsertBehindStable(x, s[0], tail, v);
      assert [s[0]] + tail == s;
    }
  }

  /** Inserting behind a head element `h` keeps `h`'s place in every key's list. */
  lemma InsertBehindStable(x: Job, h: Job, tail: seq<Job>, v: int)
    requires WithScore(Insert(x, tail), v) == WithScore(tail, v) + (if Key(x) == v then [x] else [])
    ensures WithScore([h] + Insert(x, tail), v) == WithScore([h] + tail, v) + (if Key(x) == v then [x] else [])
  {
    WithScoreAppend([h], Insert(x, tail), v);
    WithScoreAppend([h], tail, v);
  }

  /** `x` goes in front of a list whose keys are all below its own. */
  lemma InsertFrontStable(x: Job, s: seq<Job>, v: int)
    requires SortedByScore(s) && s != [] && Key(x) > Key(s[0])
    ensures WithScore([x] + s, v) == WithScore(s, v) + (if Key(x) == v then [x] else [])
  {
    WithScoreAppend([x], s, v);
    WithScoreSingle(x, v);
    if Key(x) == v {
      assert forall i :: 0 <= i < |s| ==> Key(s[i]) <= Key(s[0]);
      WithScoreNone(s, v);
    }
  }

  /**
   * The sort's contract: a permutation, highest score first, and stable
   * (for every score, the records with that score are in input order).
   */
  lemma {:induction false} SortByScoreCorrect(s: seq<Job>)
    ensures multiset(SortByScore(s)) == multiset(s)
    ensures SortedByScore(SortByScore(s))
    ensures forall v :: WithScore(SortByScore(s), v) == WithScore(s, v)
    decreases |s|
  {
    if s != [] {
      var init := s[..|s| - 1];
      SortByScoreCorrect(init);
      InsertSorted(s[|s| - 1], SortByScore(init));
      forall v ensures WithScore(SortByScore(s), v) == WithScore(s, v) {
        InsertStable(s[|s| - 1], SortByScore(init), v);
      }
    }
  }

  /** Every record scored against `skill`, in input order. */
  function ScoreAll(jobs: seq<Job>, skill: string): (r: seq<Job>)
    ensures |r| == |jobs|
  {
    seq(|jobs|, i requires 0 <= i < |jobs| => Scored(jobs[i], skill))
  }

  /** What `_match_jobs_with_skill` returns. */
  function Matched(jobs: seq<Job>, skill: string): (r: seq<Job>)
    ensures |r| == |jobs|
  {
    if jobs == [] then [] else SortByScore(ScoreAll(jobs, skill))
  }

  /**
   * `_match_jobs_with_skill`: the scoring loop writes each record's score,
   * then the list is sorted.
   */
  method MatchJobsWithSkill(jobs: seq<Job>, skill: string) returns (ranked: seq<Job>)
    ensures ranked == Matched(jobs, skill)
  {
    if jobs == [] {
      return [];
    }
    var scored := jobs;
    var i := 0;
    while i < |scored|
      invariant 0 <= i <= |scored| == |jobs|
      invariant forall j :: 0 <= j < i ==> scored[j] == Scored(jobs[j], skill)
      invariant forall j :: i <= j < |scored| ==> scored[j] == jobs[j]
    {
      var job := scored[i];
      var title := Lower(job.title);
      var desc := Lower(job.description);
      var skillLower := Lower(skill);
      var score := 0;
      if Contains(title, skillLower) {
        score := score + TitlePoints;
      }
      if AnyContains(job.skills, skillLower) {
        score := score + SkillPoints;
      }
      if Contains(desc, skillLower) {
        score := score + DescriptionPoints;
      }
      scored := scored[i := job.(relevanceScore := Some(score))];
      i := i + 1;
    }
    assert scored == ScoreAll(jobs, skill);
    ranked := SortByScore(scored);
  }

  /**
   * The ranked list holds exactly the scored input records, each with a
   * score from 0 to 6 and its other fields untouched, highest score
   * first, ties in input order.
   */
  lemma MatchedCorrect(jobs: seq<Job>, skill: string)
    ensures var r := Matched(jobs, skill);
      && multiset(r) == multiset(ScoreAll(jobs, skill))
      && SortedByScore(r)
      && (forall v :: WithScore(r, v) == WithScore(ScoreAll(jobs, skill), v))
      && (forall i :: 0 <= i < |r| ==> r[i].relevanceScore.Some? && 0 <= r[i].relevanceScore.value <= 6)
  {
    var scored := ScoreAll(jobs, skill);
    SortByScoreCorrect(scored);
    var r := Matched(jobs, skill);
    forall i | 0 <= i < |r|
      ensures r[i].relevanceScore.Some? && 0 <= r[i].relevanceScore.value <= 6
    {
      assert r[i] in multiset(scored);
    }
  }

  /** A record whose skills list and description mention the skill scores at least 3. */
  lemma MentionsScoreAtLeastThree(job: Job, skill: string, k: nat, pre: string, post: string)
    requires k < |job.skills| && job.skills[k] == skill
    requires job.description == pre + skill + post
    ensures RelevanceScore(job, skill) >= SkillPoints + DescriptionPoints
  {
    ContainsSelf(skill);
    ContainsLower(skill, skill);
    assert AnyContains(job.skills, Lower(skill));
    ContainsWithin(pre, skill, post, skill);
    ContainsLower(job.description, skill);
  }
}
