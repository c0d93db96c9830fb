/**
 * Platform classification: the table of URL patterns per platform, the
 * first-match search over it (`detectPlatform`) and the extraction of a
 * YouTube video id (`extractYouTubeId`).
 */
module Platforms {
  import opened Wrappers
  import opened Text
  import opened Patterns

  datatype Platform = YouTube | Facebook | Twitter

  /** The platform's key in the pattern table, which is also the name shown to the user. */
  function Name(p: Platform): string
  {
    match p
    case YouTube => "youtube"
    case Facebook => "facebook"
    case Twitter => "twitter"
  }

  /** youtube.com/watch?v=ID, youtu.be/ID, youtube.com/embed/ID, youtube.com/shorts/ID */
  const YouTubePatterns: seq<Pattern> := [
    Pattern("youtube.com/watch?v=", Adjacent, "", IdChar),
    Pattern("youtu.be/", Adjacent, "", IdChar),
    Pattern("youtube.com/embed/", Adjacent, "", IdChar),
    Pattern("youtube.com/shorts/", Adjacent, "", IdChar)
  ]

  /** facebook.com/.../videos/N, facebook.com/watch?v=N (or watch/?v=N), fb.watch/ID */
  const FacebookPatterns: seq<Pattern> := [
    Pattern("facebook.com/", Run(LineChar, 0), "/videos/", Digit),
    Pattern("facebook.com/watch", OptionalSlash, "?v=", Digit),
    Pattern("fb.watch/", Adjacent, "", IdChar)
  ]

  /** twitter.com/USER/status/N, x.com/USER/status/N */
  const TwitterPatterns: seq<Pattern> := [
    Pattern("twitter.com/", Run(Word, 1), "/status/", Digit),
    Pattern("x.com/", Run(Word, 1), "/status/", Digit)
  ]

  /** The table in its declared order, which is the order of the search. */
  const PlatformPatterns: seq<(Platform, seq<Pattern>)> := [
    (YouTube, YouTubePatterns),
    (Facebook, FacebookPatterns),
    (Twitter, TwitterPatterns)
  ]

  /**
   * The table holds the three platforms in the declared order youtube,
   * facebook, twitter, each once, with four, three and two patterns.
   */
  lemma PatternTableOrder()
    ensures |PlatformPatterns| == 3
    ensures forall i :: 0 <= i < 3 ==> Name(PlatformPatterns[i].0) == ["youtube", "facebook", "twitter"][i]
    ensures forall i, j :: 0 <= i < j < 3 ==> PlatformPatterns[i].0 != PlatformPatterns[j].0
    ensures |PlatformPatterns[0].1| == 4 && |PlatformPatterns[1].1| == 3 && |PlatformPatterns[2].1| == 2
  {
  }

  /** Some pattern of the list matches `s`. */
  ghost predicate AnyMatches(patterns: seq<Pattern>, s: string)
  {
    exists k :: 0 <= k < |patterns| && Matches(patterns[k], s)
  }

  /** The platform of the first row of `rows` that has a matching pattern. */
  ghost function FirstPlatform(rows: seq<(Platform, seq<Pattern>)>, s: string): Option<Platform>
  {
    if rows == [] then None
    else if AnyMatches(rows[0].1, s) then Some(rows[0].0)
    else FirstPlatform(rows[1..], s)
  }

  /** What `detectPlatform(s)` returns; None stands for `null`. */
  ghost function Classify(s: string): Option<Platform>
  {
    FirstPlatform(PlatformPatterns, s)
  }

  /**
   * The declared order decides: YouTube whenever a YouTube pattern matches,
   * Facebook only if no YouTube pattern does, Twitter only if neither
   * does, and null exactly when no pattern of any platform matches.
   */
  lemma ClassifyInOrder(s: string)
    ensures Classify(s) == Some(YouTube) <==> AnyMatches(YouTubePatterns, s)
    ensures Classify(s) == Some(Facebook) <==>
      !AnyMatches(YouTubePatterns, s) && AnyMatches(FacebookPatterns, s)
    ensures Classify(s) == Some(Twitter) <==>
      !AnyMatches(YouTubePatterns, s) && !AnyMatches(FacebookPatterns, s) && AnyMatches(TwitterPatterns, s)
    ensures Classify(s) == None <==>
      !AnyMatches(YouTubePatterns, s) && !AnyMatches(FacebookPatterns, s) && !AnyMatches(TwitterPatterns, s)
  {
    var rows1, rows2 := PlatformPatterns[1..], PlatformPatterns[2..];
    assert rows1[1..] == rows2 && rows2[1..] == [];
    assert Classify(s) == if AnyMatches(YouTubePatterns, s) then Some(YouTube) else FirstPlatform(rows1, s);
    assert FirstPlatform(rows1, s) == if AnyMatches(FacebookPatterns, s) then Some(Facebook) else FirstPlatform(rows2, s);
    assert FirstPlatform(rows2, s) == if AnyMatches(TwitterPatterns, s) then Some(Twitter) else None;
  }

  /** A URL that some YouTube pattern matches is YouTube. */
  lemma YouTubeWhenAny(s: string)
    requires AnyMatches(YouTubePatterns, s)
    ensures Classify(s) == Some(YouTube)
  {
    ClassifyInOrder(s);
  }

  /** A URL that a YouTube pattern matches is YouTube. */
  lemma YouTubeWhen(s: string, k: nat)
    requires k < |YouTubePatterns| && Matches(YouTubePatterns[k], s)
    ensures Classify(s) == Some(YouTube)
  {
    ClassifyInOrder(s);
  }

  /** A URL that no YouTube pattern but a Facebook pattern matches is Facebook. */
  lemma FacebookWhen(s: string, k: nat)
    requires !AnyMatches(YouTubePatterns, s)
    requires k < |FacebookPatterns| && Matches(FacebookPatterns[k], s)
    ensures Classify(s) == Some(Facebook)
  {
    ClassifyInOrder(s);
  }

  /** A URL that only a Twitter pattern matches is Twitter. */
  lemma TwitterWhen(s: string, k: nat)
    requires !AnyMatches(YouTubePatterns, s) && !AnyMatches(FacebookPatterns, s)
    requires k < |TwitterPatterns| && Matches(TwitterPatterns[k], s)
    ensures Classify(s) == Some(Twitter)
  {
    ClassifyInOrder(s);
  }

  /** `detectPlatform`: the nested search over the table, returning at the first matching pattern. */
  method DetectPlatform(url: string) returns (r: Option<Platform>)
    ensures r == Classify(url)
  {
    var i := 0;
    while i < |PlatformPatterns|
      invariant 0 <= i <= |PlatformPatterns|
      invariant FirstPlatform(PlatformPatterns[i..], url) == Classify(url)
    {
      var (platform, patterns) := PlatformPatterns[i];
      var j := 0;
      while j < |patterns|
        invariant 0 <= j <= |patterns|
        invariant forall k :: 0 <= k < j ==> !Matches(patterns[k], url)
      {
        if Test(patterns[j], url) {
          return Some(platform);
        }
        j := j + 1;
      }
      assert PlatformPatterns[i..][1..] == PlatformPatterns[i + 1..];
      i := i + 1;
    }
    return None;
  }

  // ---------------------------------------------------------------------
  // YouTube video id
  // ---------------------------------------------------------------------

  /** Every YouTube pattern is its head followed directly by a run of `[A-Za-z0-9_-]`. */
  lemma YouTubePatternsSimple()
    ensures forall k :: 0 <= k < |YouTubePatterns| ==> Simple(YouTubePatterns[k]) && YouTubePatterns[k].cls == IdChar
  {
  }

  /** Group 1 of the first pattern in `patterns` that matches `s`. */
  function FirstCapture(patterns: seq<Pattern>, s: string): (r: Option<string>)
    requires forall k :: 0 <= k < |patterns| ==> Simple(patterns[k])
  {
    if patterns == [] then None
    else match Capture(patterns[0], s)
      case Some(id) => Some(id)
      case None => FirstCapture(patterns[1..], s)
  }

  /**
   * The first capture exists exactly when some pattern matches; it is a
   * non-empty run of the matching pattern's class, and it is the capture of
   * the first pattern in list order that matches.
   */
  lemma {:induction false} FirstCaptureMeaning(patterns: seq<Pattern>, s: string)
    requires forall k :: 0 <= k < |patterns| ==> Simple(patterns[k])
    ensures FirstCapture(patterns, s).Some? <==> AnyMatches(patterns, s)
    ensures FirstCapture(patterns, s).Some? ==>
      exists k :: 0 <= k < |patterns| && (forall m :: 0 <= m < k ==> !Matches(patterns[m], s))
        && Capture(patterns[k], s) == FirstCapture(patterns, s)
  {
    if patterns != [] {
      FirstCaptureMeaning(patterns[1..], s);
      if Capture(patterns[0], s).None? {
        if AnyMatches(patterns, s) {
          var k :| 0 <= k < |patterns| && Matches(patterns[k], s);
          assert patterns[1..][k - 1] == patterns[k];
        }
        if FirstCapture(patterns, s).Some? {
          var k :| 0 <= k < |patterns[1..]| && (forall m :: 0 <= m < k ==> !Matches(patterns[1..][m], s))
            && Capture(patterns[1..][k], s) == FirstCapture(patterns[1..], s);
          assert forall m :: 0 <= m < k + 1 ==> !Matches(patterns[m], s) by {
            forall m | 0 <= m < k + 1 ensures !Matches(patterns[m], s) {
              if m > 0 { assert patterns[m] == patterns[1..][m - 1]; }
            }
          }
          assert Capture(patterns[k + 1], s) == FirstCapture(patterns, s);
        }
      } else {
        assert Capture(patterns[0], s) == FirstCapture(patterns, s);
      }
    }
  }

  /** When all patterns capture the same class, the first capture is a non-empty run of that class. */
  lemma {:induction false} FirstCaptureOfClass(patterns: seq<Pattern>, s: string, cs: CharSet)
    requires forall k :: 0 <= k < |patterns| ==> Simple(patterns[k]) && patterns[k].cls == cs
    ensures FirstCapture(patterns, s).Some? ==>
      |FirstCapture(patterns, s).value| >= 1
      && forall m :: 0 <= m < |FirstCapture(patterns, s).value| ==> InSet(cs, FirstCapture(patterns, s).value[m])
  {
    if patterns != [] && Capture(patterns[0], s).None? {
      FirstCaptureOfClass(patterns[1..], s, cs);
    }
  }

  /** What `extractYouTubeId(s)` returns; None stands for `null`. */
  function YouTubeId(s: string): Option<string>
  {
    YouTubePatternsSimple();
    FirstCapture(YouTubePatterns, s)
  }

  /**
   * The id exists exactly when some YouTube pattern matches; it is then a
   * non-empty string of `[A-Za-z0-9_-]`, and the URL classifies as YouTube.
   */
  lemma YouTubeIdMeaning(s: string)
    ensures YouTubeId(s).Some? <==> AnyMatches(YouTubePatterns, s)
    ensures YouTubeId(s).Some? ==>
      (|YouTubeId(s).value| >= 1
       && forall m :: 0 <= m < |YouTubeId(s).value| ==> InSet(IdChar, YouTubeId(s).value[m]))
    ensures YouTubeId(s).Some? ==> Classify(s) == Some(YouTube)
  {
    YouTubePatternsSimple();
    FirstCaptureMeaning(YouTubePatterns, s);
    FirstCaptureOfClass(YouTubePatterns, s, IdChar);
    if YouTubeId(s).Some? {
      YouTubeWhenAny(s);
    }
  }

  /** `extractYouTubeId`: the search over the YouTube patterns, returning the first capture. */
  method ExtractYouTubeId(url: string) returns (id: Option<string>)
    ensures id == YouTubeId(url)
  {
    YouTubePatternsSimple();
    var i := 0;
    while i < |YouTubePatterns|
      invariant 0 <= i <= |YouTubePatterns|
      invariant FirstCapture(YouTubePatterns[i..], url) == YouTubeId(url)
    {
      var m := Capture(YouTubePatterns[i], url);
      if m.Some? && m.value != [] {
        return m;
      }
      assert YouTubePatterns[i..][1..] == YouTubePatterns[i + 1..];
      i := i + 1;
    }
    return None;
  }

  // ---------------------------------------------------------------------
  // Sample URLs
  // ---------------------------------------------------------------------

  /** No pattern of the list matches when their heads all begin with a character absent from `s`. */
  lemma NoneMatchWithout(patterns: seq<Pattern>, s: string, c: char)
    requires forall k :: 0 <= k < |patterns| ==> |patterns[k].head| > 0 && patterns[k].head[0] == c
    requires forall j :: 0 <= j < |s| ==> s[j] != c
    ensures !AnyMatches(patterns, s)
  {
    forall k, i: nat | 0 <= k < |patterns| && i + |patterns[k].head| <= |s|
      ensures !OccursAt(s, patterns[k].head, i)
    {
      assert s[i..i + |patterns[k].head|][0] == s[i];
    }
  }

  /** The short link of the end-to-end test is a YouTube URL. */
  lemma ShortLinkSample()
    ensures Classify("https://youtu.be/KiPCIoqWAOI") == Some(YouTube)
  {
    assert "https://" + "youtu.be/" + "" + "" + "KiPCIoqWAOI" == "https://youtu.be/KiPCIoqWAOI";
    var p := Pattern("youtu.be/", Adjacent, "", IdChar);
    assert YouTubePatterns[1] == p;
    MatchOfParts(p, "https://", "", "KiPCIoqWAOI");
    YouTubeWhen("https://youtu.be/KiPCIoqWAOI", 1);
  }

  /** The watch pattern does not match the short link. */
  lemma ShortLinkNotWatch()
    ensures !Matches(YouTubePatterns[0], "https://youtu.be/KiPCIoqWAOI")
  {
    var s := "https://youtu.be/KiPCIoqWAOI";
    var h := YouTubePatterns[0].head;
    forall i: nat | i + |h| <= |s| ensures !OccursAt(s, h, i) {
      assert s[i..i + |h|][0] == s[i] && s[i..i + |h|][5] == s[i + 5];
    }
  }

  /** The short-link pattern captures KiPCIoqWAOI. */
  lemma ShortLinkCapture()
    ensures Capture(YouTubePatterns[1], "https://youtu.be/KiPCIoqWAOI") == Some("KiPCIoqWAOI")
  {
    var s := "https://youtu.be/KiPCIoqWAOI";
    var p1 := Pattern("youtu.be/", Adjacent, "", IdChar);
    assert YouTubePatterns[1] == p1;
    ShortLinkHead();
    ShortLinkRun();
    LeftmostRun(p1, s, 8, 11);
    CaptureOfFound(p1, s, 8);
  }

  /** In the short link the head `youtu.be/` first occurs at index 8. */
  lemma ShortLinkHead()
    ensures OccursAt("https://youtu.be/KiPCIoqWAOI", "youtu.be/", 8)
    ensures forall k :: 0 <= k < 8 ==> !OccursAt("https://youtu.be/KiPCIoqWAOI", "youtu.be/", k)
  {
    var s, h := "https://youtu.be/KiPCIoqWAOI", "youtu.be/";
    assert s == "https://" + h + "KiPCIoqWAOI";
    assert s[8..17] == h;
    forall k | 0 <= k < 8 ensures !OccursAt(s, h, k) {
      assert k + |h| <= |s| ==> s[k..k + |h|][0] == s[k];
    }
  }

  /** After the head, the eleven characters to the end are id characters. */
  lemma ShortLinkRun()
    ensures ClassRun(IdChar, "https://youtu.be/KiPCIoqWAOI", 17, 11)
    ensures "https://youtu.be/KiPCIoqWAOI"[17..28] == "KiPCIoqWAOI"
  {
    var s, id := "https://youtu.be/KiPCIoqWAOI", "KiPCIoqWAOI";
    assert s == "https://youtu.be/" + id;
    forall k | 17 <= k < 28 ensures InSet(IdChar, s[k]) {
      assert s[k] == id[k - 17];
    }
    assert s[17..28] == id;
  }

  /** Its video id is KiPCIoqWAOI, taken by the second pattern since the first does not match. */
  lemma ShortLinkIdSample()
    ensures YouTubeId("https://youtu.be/KiPCIoqWAOI") == Some("KiPCIoqWAOI")
  {
    ShortLinkNotWatch();
    ShortLinkCapture();
    YouTubePatternsSimple();
    assert YouTubePatterns[1..][0] == YouTubePatterns[1];
  }

  /** A watch link is a YouTube URL. */
  lemma WatchLinkSample()
    ensures Classify("https://www.youtube.com/watch?v=dQw4w9WgXcQ") == Some(YouTube)
  {
    WatchLinkMatches();
    YouTubeWhen("https://www.youtube.com/watch?v=dQw4w9WgXcQ", 0);
  }

  /** The watch pattern matches the watch link. */
  lemma WatchLinkMatches()
    ensures Matches(YouTubePatterns[0], "https://www.youtube.com/watch?v=dQw4w9WgXcQ")
  {
    assert "https://www." + "youtube.com/watch?v=" + "" + "" + "dQw4w9WgXcQ" == "https://www.youtube.com/watch?v=dQw4w9WgXcQ";
    var p := Pattern("youtube.com/watch?v=", Adjacent, "", IdChar);
    assert YouTubePatterns[0] == p;
    MatchOfParts(p, "https://www.", "", "dQw4w9WgXcQ");
  }

  /** No YouTube and no Facebook pattern matches a URL without `y` and `f`. */
  lemma NeitherYouTubeNorFacebook(s: string)
    requires forall j :: 0 <= j < |s| ==> s[j] != 'y' && s[j] != 'f'
    ensures !AnyMatches(YouTubePatterns, s) && !AnyMatches(FacebookPatterns, s)
  {
    NoneMatchWithout(YouTubePatterns, s, 'y');
    NoneMatchWithout(FacebookPatterns, s, 'f');
  }

  /** A page video link is a Facebook URL. */
  lemma FacebookSample()
    ensures Classify("https://www.facebook.com/page/videos/123") == Some(Facebook)
  {
    NoneMatchWithout(YouTubePatterns, "https://www.facebook.com/page/videos/123", 'y');
    FacebookSampleMatches();
    FacebookWhen("https://www.facebook.com/page/videos/123", 0);
  }

  /** The page-video pattern matches the page video link. */
  lemma FacebookSampleMatches()
    ensures Matches(FacebookPatterns[0], "https://www.facebook.com/page/videos/123")
  {
    assert "https://www." + "facebook.com/" + "page" + "/videos/" + "123" == "https://www.facebook.com/page/videos/123";
    var p := Pattern("facebook.com/", Run(LineChar, 0), "/videos/", Digit);
    assert FacebookPatterns[0] == p;
    assert GapSpans(p.gap, "page");
    MatchOfParts(p, "https://www.", "page", "123");
  }

  /** A status link is a Twitter URL. */
  lemma TwitterSample()
    ensures Classify("https://twitter.com/user/status/123") == Some(Twitter)
  {
    NeitherYouTubeNorFacebook("https://twitter.com/user/status/123");
    TwitterSampleMatches();
    TwitterWhen("https://twitter.com/user/status/123", 0);
  }

  /** The twitter.com status pattern matches the status link. */
  lemma TwitterSampleMatches()
    ensures Matches(TwitterPatterns[0], "https://twitter.com/user/status/123")
  {
    assert "https://" + "twitter.com/" + "user" + "/status/" + "123" == "https://twitter.com/user/status/123";
    var p := Pattern("twitter.com/", Run(Word, 1), "/status/", Digit);
    assert TwitterPatterns[0] == p;
    assert GapSpans(p.gap, "user");
    MatchOfParts(p, "https://", "user", "123");
  }

  /** So is one under the x.com host name. */
  lemma XSample()
    ensures Classify("https://x.com/user/status/123") == Some(Twitter)
  {
    NeitherYouTubeNorFacebook("https://x.com/user/status/123");
    XSampleMatches();
    TwitterWhen("https://x.com/user/status/123", 1);
  }

  /**
   * The x.com status pattern matches any text holding `x.com/`, a user name
   * of word characters, `/status/` and a digit.
   */
  lemma XStatusMatches(s: string, pre: string, user: string, rest: string)
    requires s == pre + "x.com/" + user + "/status/" + rest
    requires GapSpans(Run(Word, 1), user) && rest != [] && InSet(Digit, rest[0])
    ensures Matches(TwitterPatterns[1], s)
  {
    var p := Pattern("x.com/", Run(Word, 1), "/status/", Digit);
    assert TwitterPatterns[1] == p;
    MatchOfParts(p, pre, user, rest);
  }

  /** The x.com status pattern matches the x.com link. */
  lemma XSampleMatches()
    ensures Matches(TwitterPatterns[1], "https://x.com/user/status/123")
  {
    assert "https://" + "x.com/" + "user" + "/status/" + "123" == "https://x.com/user/status/123";
    assert GapSpans(Run(Word, 1), "user");
    XStatusMatches("https://x.com/user/status/123", "https://", "user", "123");
  }

  /** A well-formed URL of another site is not recognised. */
  lemma UnrecognizedSample()
    ensures Classify("https://example.com/") == None
  {
    var s := "https://example.com/";
    NoneMatchWithout(YouTubePatterns, s, 'y');
    NoneMatchWithout(FacebookPatterns, s, 'f');
    AbsentByPair(s, TwitterPatterns[0].head);
    AbsentByPair(s, TwitterPatterns[1].head);
    assert !AnyMatches(TwitterPatterns, s);
    ClassifyInOrder(s);
  }

  /** Patterns are not anchored and the table is searched in order: a tweet link that mentions a YouTube link is YouTube. */
  lemma OrderSample()
    ensures Matches(TwitterPatterns[1], "https://x.com/u/status/1?r=youtu.be/a")
    ensures Classify("https://x.com/u/status/1?r=youtu.be/a") == Some(YouTube)
  {
    assert "https://" + "x.com/" + "u" + "/status/" + "1?r=youtu.be/a" == "https://x.com/u/status/1?r=youtu.be/a";
    assert GapSpans(Run(Word, 1), "u");
    XStatusMatches("https://x.com/u/status/1?r=youtu.be/a", "https://", "u", "1?r=youtu.be/a");
    OrderSampleShortLink();
    YouTubeWhen("https://x.com/u/status/1?r=youtu.be/a", 1);
  }

  /** The short-link pattern matches inside the tweet link too. */
  lemma OrderSampleShortLink()
    ensures Matches(YouTubePatterns[1], "https://x.com/u/status/1?r=youtu.be/a")
  {
    assert "https://x.com/u/status/1?r=" + "youtu.be/" + "" + "" + "a" == "https://x.com/u/status/1?r=youtu.be/a";
    var p := Pattern("youtu.be/", Adjacent, "", IdChar);
    assert YouTubePatterns[1] == p;
    MatchOfParts(p, "https://x.com/u/status/1?r=", "", "a");
  }
}
