/** `_check_captcha`: does the rendered page look like a bot challenge? */
module Captcha {
  import opened Results
  import opened Text

  /** The phrases searched for in the lower-cased page source, in the order they are tried. */
  const Indicators: seq<string> :=
    ["captcha", "security check", "robot", "not a robot",
     "recaptcha", "verify you are human", "cloudflare"]

  /** Some indicator phrase occurs in the lower-cased page source. */
  predicate TextFlagged(pageSource: string) {
    exists k :: 0 <= k < |Indicators| && Contains(Lower(pageSource), Indicators[k])
  }

  /** An iframe whose `src` (empty when absent), lower-cased, mentions "captcha". */
  predicate FrameFlagged(src: Option<string>) {
    Contains(Lower(src.GetOr("")), "captcha")
  }

  predicate FramesFlagged(iframeSrcs: seq<Option<string>>) {
    exists i :: 0 <= i < |iframeSrcs| && FrameFlagged(iframeSrcs[i])
  }

  /**
   * The frames as the loop reads them: each `get_attribute('src')` either
   * answers (`Ok`, with `None` for a missing attribute) or raises (`Err`).
   * A frame counts only if every frame before it answered, because the first
   * raise leaves the loop through the bare `except`.
   */
  predicate FramesFlaggedBeforeError(frames: seq<Result<Option<string>, ()>>) {
    exists i :: 0 <= i < |frames| && frames[i].Ok? && FrameFlagged(frames[i].value)
                && forall j :: 0 <= j < i ==> frames[j].Ok?
  }

  /** The `src` answers of frames that all answered. */
  function Answers(frames: seq<Result<Option<string>, ()>>): (srcs: seq<Option<string>>)
    requires forall i :: 0 <= i < |frames| ==> frames[i].Ok?
    ensures |srcs| == |frames|
    ensures forall i :: 0 <= i < |frames| ==> srcs[i] == frames[i].value
  {
    seq(|frames|, i requires 0 <= i < |frames| => frames[i].value)
  }

  /** When no `get_attribute` raises, the frame test is the plain one. */
  lemma AnsweredFramesFlagged(frames: seq<Result<Option<string>, ()>>)
    requires forall i :: 0 <= i < |frames| ==> frames[i].Ok?
    ensures FramesFlaggedBeforeError(frames) <==> FramesFlagged(Answers(frames))
  {
    var srcs := Answers(frames);
    if FramesFlagged(srcs) {
      var i :| 0 <= i < |srcs| && FrameFlagged(srcs[i]);
      assert frames[i].Ok? && FrameFlagged(frames[i].value);
    }
  }

  /** What the detector looks for, once the driver has answered both queries. */
  predicate ChallengeDetected(pageSource: string, iframeSrcs: seq<Option<string>>) {
    TextFlagged(pageSource) || FramesFlagged(iframeSrcs)
  }

  lemma RecaptchaIsCaptcha(s: string)
    requires Contains(s, "recaptcha")
    ensures Contains(s, "captcha")
  {
    assert "re" + "captcha" + "" == "recaptcha";
    ContainsSelf("captcha");
    ContainsWithin("re", "captcha", "", "captcha");
    ContainsTransitive(s, "recaptcha", "captcha");
  }

  /**
   * `_check_captcha`. `pageSource` is the driver's `page_source`, `None` when
   * reading it raises. `iframeSrcs` is `None` when `find_elements` raises,
   * and otherwise holds each iframe's `get_attribute('src')` answer, `Err`
   * where that call raises. Any raise lands in the bare `except` and gives
   * "no challenge", even when a later frame would have been flagged.
   * The iframe test for "recaptcha" is subsumed by the one for "captcha".
   */
  method CheckCaptcha(pageSource: Option<string>, iframeSrcs: Option<seq<Result<Option<string>, ()>>>)
    returns (found: bool)
    ensures found <==> pageSource.Some?
                       && (TextFlagged(pageSource.value)
                           || (iframeSrcs.Some? && FramesFlaggedBeforeError(iframeSrcs.value)))
  {
    if pageSource.None? {
      return false;
    }
    var pageText := Lower(pageSource.value);
    var k := 0;
    while k < |Indicators|
      invariant 0 <= k <= |Indicators|
      invariant forall j :: 0 <= j < k ==> !Contains(pageText, Indicators[j])
    {
      if Contains(pageText, Indicators[k]) {
        return true;
      }
      k := k + 1;
    }
    if iframeSrcs.None? {
      return false;
    }
    var frames := iframeSrcs.value;
    var i := 0;
    while i < |frames|
      invariant 0 <= i <= |frames|
      invariant forall j :: 0 <= j < i ==> frames[j].Ok? && !FrameFlagged(frames[j].value)
    {
      if frames[i].Err? {
        return false;
      }
      var src := frames[i].value.GetOr("");
      if Contains(Lower(src), "recaptcha") || Contains(Lower(src), "captcha") {
        if Contains(Lower(src), "recaptcha") {
          RecaptchaIsCaptcha(Lower(src));
        }
        return true;
      }
      i := i + 1;
    }
    return false;
  }

  /**
   * Adding text around the page source or iframes around the frame list can
   * never turn a detection off.
   */
  lemma DetectionMonotone(pageSource: string, iframeSrcs: seq<Option<string>>,
                          before: string, after: string,
                          framesBefore: seq<Option<string>>, framesAfter: seq<Option<string>>)
    requires ChallengeDetected(pageSource, iframeSrcs)
    ensures ChallengeDetected(before + pageSource + after, framesBefore + iframeSrcs + framesAfter)
  {
    if TextFlagged(pageSource) {
      var k :| 0 <= k < |Indicators| && Contains(Lower(pageSource), Indicators[k]);
      LowerAppend(before + pageSource, after);
      LowerAppend(before, pageSource);
      ContainsWithin(Lower(before), Lower(pageSource), Lower(after), Indicators[k]);
      assert Contains(Lower(before + pageSource + after), Indicators[k]);
    } else {
      var i :| 0 <= i < |iframeSrcs| && FrameFlagged(iframeSrcs[i]);
      assert (framesBefore + iframeSrcs + framesAfter)[|framesBefore| + i] == iframeSrcs[i];
    }
  }

  /**
   * Two of the seven phrases are redundant: "recaptcha" contains "captcha"
   * and "not a robot" contains "robot".
   */
  lemma FiveIndicatorsSuffice(pageSource: string)
    ensures var t := Lower(pageSource);
      TextFlagged(pageSource) <==>
        Contains(t, "captcha") || Contains(t, "security check") || Contains(t, "robot")
        || Contains(t, "verify you are human") || Contains(t, "cloudflare")
  {
    var t := Lower(pageSource);
    if Contains(t, "recaptcha") {
      RecaptchaIsCaptcha(t);
    }
    if Contains(t, "not a robot") {
      assert "not a " + "robot" + "" == "not a robot";
      ContainsSelf("robot");
      ContainsWithin("not a ", "robot", "", "robot");
      ContainsTransitive(t, "not a robot", "robot");
    }
    if Contains(t, "captcha") { assert Contains(t, Indicators[0]); }
    if Contains(t, "security check") { assert Contains(t, Indicators[1]); }
    if Contains(t, "robot") { assert Contains(t, Indicators[2]); }
    if Contains(t, "verify you are human") { assert Contains(t, Indicators[5]); }
    if Contains(t, "cloudflare") { assert Contains(t, Indicators[6]); }
  }

  /** A page whose source mentions "recaptcha" in any letter case is flagged. */
  lemma RecaptchaPageFlagged(pageSource: string, iframeSrcs: seq<Option<string>>)
    requires Contains(Lower(pageSource), "recaptcha")
    ensures ChallengeDetected(pageSource, iframeSrcs)
  {
    assert Contains(Lower(pageSource), Indicators[4]);
  }
}
