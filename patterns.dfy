/**
 * The URL patterns of the platform table, as a small fixed language.
 *
 * Every pattern of the table has the shape
 *     (?:https?:\/\/)?(?:www\.)?  HEAD  GAP  TAIL  (CLASS+)
 * and is applied with an unanchored `test` or `match`. The optional scheme
 * and `www.` prefix can always be matched empty, so whether a pattern
 * matches a string depends only on HEAD GAP TAIL CLASS+ occurring in it;
 * that part is what a `Pattern` records. GAP is one of the three forms the
 * table uses: nothing, an optional `/`, or a run of a character set
 * (`.*` or `\w+`).
 */
module Patterns {
  import opened Wrappers
  import opened Text

  /** The character sets the patterns use. */
  datatype CharSet =
    | IdChar    // [a-zA-Z0-9_-]
    | Digit     // [0-9]
    | Word      // \w, that is [A-Za-z0-9_]
    | LineChar  // ., any character that is not a line terminator

  predicate IsWordChar(c: char)
  {
    ('a' <= c <= 'z') || ('A' <= c <= 'Z') || IsDigit(c) || c == '_'
  }

  predicate InSet(cs: CharSet, c: char)
  {
    match cs
    case IdChar => IsWordChar(c) || c == '-'
    case Digit => IsDigit(c)
    case Word => IsWordChar(c)
    case LineChar => !IsLineTerminator(c)
  }

  /** What may stand between a pattern's head and its tail. */
  datatype Gap =
    | Adjacent                      // nothing
    | OptionalSlash                 // \/?
    | Run(cs: CharSet, least: nat)  // cs* when least is 0, cs+ when it is 1

  /** HEAD GAP TAIL CLASS+ */
  datatype Pattern = Pattern(head: string, gap: Gap, tail: string, cls: CharSet)

  /** The text `w` between head and tail is one the gap accepts. */
  ghost predicate GapSpans(g: Gap, w: string)
  {
    match g
    case Adjacent => w == []
    case OptionalSlash => w == [] || w == "/"
    case Run(cs, least) => |w| >= least && forall k :: 0 <= k < |w| ==> InSet(cs, w[k])
  }

  /** At index `j` of `s` stand the tail and at least one character of the final set. */
  predicate TailAt(p: Pattern, s: string, j: nat)
  {
    OccursAt(s, p.tail, j) && j + |p.tail| < |s| && InSet(p.cls, s[j + |p.tail|])
  }

  /** The pattern matches `s` with its head at `i` and its tail at `j`. */
  ghost predicate MatchAt(p: Pattern, s: string, i: nat, j: nat)
  {
    OccursAt(s, p.head, i) && i + |p.head| <= j <= |s|
    && GapSpans(p.gap, s[i + |p.head|..j]) && TailAt(p, s, j)
  }

  /** `pattern.test(s)`: the pattern matches somewhere in `s`. */
  ghost predicate Matches(p: Pattern, s: string)
  {
    exists i: nat, j: nat :: MatchAt(p, s, i, j)
  }

  /** A string made of some text, the head, a gap the pattern allows, the tail and a character of the class matches. */
  lemma MatchOfParts(p: Pattern, pre: string, gap: string, rest: string)
    requires GapSpans(p.gap, gap) && rest != [] && InSet(p.cls, rest[0])
    ensures MatchAt(p, pre + p.head + gap + p.tail + rest, |pre|, |pre| + |p.head| + |gap|)
  {
    var s := pre + p.head + gap + p.tail + rest;
    var h := |pre| + |p.head|;
    var j := h + |gap|;
    assert s[|pre|..h] == p.head;
    assert s[h..j] == gap;
    assert s[j..j + |p.tail|] == p.tail;
    assert s[j + |p.tail|] == rest[0];
  }

  // ---------------------------------------------------------------------
  // The matcher
  // ---------------------------------------------------------------------

  /**
   * For a run gap starting at `h` whose characters up to `j` are in the
   * run's set: the run can be extended to some end `e >= j` that is long
   * enough and followed by the tail.
   */
  function RunThenTail(p: Pattern, s: string, h: nat, j: nat): (b: bool)
    requires p.gap.Run? && h <= j <= |s|
    requires forall k :: h <= k < j ==> InSet(p.gap.cs, s[k])
    ensures b <==> exists e: nat ::
      (j <= e <= |s| && e - h >= p.gap.least
       && (forall k :: j <= k < e ==> InSet(p.gap.cs, s[k])) && TailAt(p, s, e))
    decreases |s| - j
  {
    (j - h >= p.gap.least && TailAt(p, s, j))
    || (j < |s| && InSet(p.gap.cs, s[j]) && RunThenTail(p, s, h, j + 1))
  }

  /** Some text starting at `h` is accepted by the gap and followed by the tail. */
  function GapThenTail(p: Pattern, s: string, h: nat): (b: bool)
    requires h <= |s|
    ensures b <==> exists j: nat :: h <= j <= |s| && GapSpans(p.gap, s[h..j]) && TailAt(p, s, j)
  {
    match p.gap
    case Adjacent =>
      assert s[h..h] == [];
      TailAt(p, s, h)
    case OptionalSlash =>
      assert s[h..h] == [];
      assert h < |s| ==> s[h..h + 1] == [s[h]];
      TailAt(p, s, h) || (h < |s| && s[h] == '/' && TailAt(p, s, h + 1))
    case Run(cs, least) =>
      RunSpans(p.gap, s, h);
      RunThenTail(p, s, h, h)
  }

  /** A run gap accepts `s[h..j]` exactly when its characters are in the set and there are enough. */
  lemma RunSpans(g: Gap, s: string, h: nat)
    requires g.Run? && h <= |s|
    ensures forall j :: h <= j <= |s| ==>
      (GapSpans(g, s[h..j]) <==> j - h >= g.least && forall k :: h <= k < j ==> InSet(g.cs, s[k]))
  {
    forall j | h <= j <= |s|
      ensures GapSpans(g, s[h..j]) <==> j - h >= g.least && forall k :: h <= k < j ==> InSet(g.cs, s[k])
    {
      var w := s[h..j];
      assert forall k :: h <= k < j ==> s[k] == w[k - h];
    }
  }

  /** The pattern matches `s` with its head at `i`. */
  function StartsAt(p: Pattern, s: string, i: nat): (b: bool)
    ensures b <==> exists j: nat :: MatchAt(p, s, i, j)
  {
    if OccursAt(s, p.head, i) then
      var h := i + |p.head|;
      assert GapThenTail(p, s, h) ==> exists j: nat :: MatchAt(p, s, i, j) by {
        if GapThenTail(p, s, h) {
          var j: nat :| h <= j <= |s| && GapSpans(p.gap, s[h..j]) && TailAt(p, s, j);
          assert MatchAt(p, s, i, j);
        }
      }
      GapThenTail(p, s, h)
    else
      false
  }

  /** The first index at or after `from` where the pattern's head starts a match. */
  function Find(p: Pattern, s: string, from: nat): (r: Option<nat>)
    ensures r.Some? ==>
      (from <= r.value <= |s| && StartsAt(p, s, r.value)
       && forall k :: from <= k < r.value ==> !StartsAt(p, s, k))
    ensures r.None? ==> forall k :: from <= k ==> !StartsAt(p, s, k)
    decreases |s| + 1 - from
  {
    if from > |s| then None
    else if StartsAt(p, s, from) then Some(from)
    else Find(p, s, from + 1)
  }

  /** `pattern.test(s)`, computed. */
  function Test(p: Pattern, s: string): (b: bool)
    ensures b <==> Matches(p, s)
  {
    var r := Find(p, s, 0);
    assert Matches(p, s) ==> r.Some? by {
      if Matches(p, s) {
        var i: nat, j: nat :| MatchAt(p, s, i, j);
        assert StartsAt(p, s, i);
      }
    }
    r.Some?
  }

  // ---------------------------------------------------------------------
  // The capture group
  // ---------------------------------------------------------------------

  /**
   * A pattern whose capture group directly follows its head: the shape of
   * the YouTube patterns, `HEAD([a-zA-Z0-9_-]+)`.
   */
  predicate Simple(p: Pattern)
  {
    p.gap == Adjacent && p.tail == []
  }

  /** The longest run of characters of `cs` in `s` starting at `k` (what a greedy `+` takes). */
  function MaxRun(cs: CharSet, s: string, k: nat): (r: string)
    requires k <= |s|
    ensures k + |r| <= |s| && r == s[k..k + |r|]
    ensures forall m :: 0 <= m < |r| ==> InSet(cs, r[m])
    ensures k + |r| == |s| || !InSet(cs, s[k + |r|])
    decreases |s| - k
  {
    if k < |s| && InSet(cs, s[k]) then [s[k]] + MaxRun(cs, s, k + 1) else []
  }

  /** For a head followed directly by its class: the head occurs at `k` and a character of the class follows it. */
  predicate HeadAt(p: Pattern, s: string, k: nat)
  {
    OccursAt(s, p.head, k) && k + |p.head| < |s| && InSet(p.cls, s[k + |p.head|])
  }

  /** For such a pattern, a match starts exactly where the head is followed by a character of the class. */
  lemma SimpleStartsAt(p: Pattern, s: string, k: nat)
    requires Simple(p)
    ensures StartsAt(p, s, k) <==> HeadAt(p, s, k)
  {
    if OccursAt(s, p.head, k) {
      assert OccursAt(s, p.tail, k + |p.head|);
    }
  }

  /**
   * `r` is group 1 of the leftmost match of `p` in `s`: the head occurs at
   * `i` followed by a character of the class, no head occurs so followed
   * earlier, and `r` is the longest run of the class right after the head.
   */
  ghost predicate CaptureAt(p: Pattern, s: string, i: nat, r: string)
  {
    HeadAt(p, s, i) && (forall k :: 0 <= k < i ==> !HeadAt(p, s, k))
    && OccursAt(s, r, i + |p.head|) && (forall m :: 0 <= m < |r| ==> InSet(p.cls, r[m]))
    && (i + |p.head| + |r| == |s| || !InSet(p.cls, s[i + |p.head| + |r|]))
  }

  /** `s.match(p)[1]`, or None when there is no match. */
  function Capture(p: Pattern, s: string): (r: Option<string>)
    requires Simple(p)
    ensures r.Some? <==> Matches(p, s)
    ensures r.Some? ==> |r.value| >= 1 && forall m :: 0 <= m < |r.value| ==> InSet(p.cls, r.value[m])
  {
    match Find(p, s, 0)
    case None =>
      assert !Test(p, s);
      None
    case Some(i) =>
      var run := MaxRun(p.cls, s, i + |p.head|);
      assert run != [] by {
        var j: nat :| MatchAt(p, s, i, j);
        assert s[i + |p.head|..j] == [];
      }
      Some(run)
  }

  /** The longest run from `b` occurs at `b`, and what follows it is not of the class. */
  lemma MaxRunOccurs(cs: CharSet, s: string, b: nat)
    requires b <= |s|
    ensures OccursAt(s, MaxRun(cs, s, b), b)
    ensures b + |MaxRun(cs, s, b)| == |s| || !InSet(cs, s[b + |MaxRun(cs, s, b)|])
  {
  }

  /** The search stops at the leftmost head that a character of the class follows. */
  lemma FoundHead(p: Pattern, s: string, i: nat)
    requires Simple(p) && Find(p, s, 0) == Some(i)
    ensures HeadAt(p, s, i) && forall k :: 0 <= k < i ==> !HeadAt(p, s, k)
  {
    assert HeadAt(p, s, i) by {
      assert StartsAt(p, s, i);
      SimpleStartsAt(p, s, i);
    }
    forall k | 0 <= k < i ensures !HeadAt(p, s, k) {
      assert !StartsAt(p, s, k);
      SimpleStartsAt(p, s, k);
    }
  }

  /** After the leftmost head that a character of the class follows, group 1 is the longest run of the class. */
  lemma RunAfterHead(p: Pattern, s: string, i: nat)
    requires HeadAt(p, s, i) && forall k :: 0 <= k < i ==> !HeadAt(p, s, k)
    ensures i + |p.head| <= |s| && CaptureAt(p, s, i, MaxRun(p.cls, s, i + |p.head|))
  {
    MaxRunOccurs(p.cls, s, i + |p.head|);
  }

  /** The match the search finds is the leftmost one, and the run after its head is maximal. */
  lemma FoundIsLeftmost(p: Pattern, s: string, i: nat)
    requires Simple(p) && Find(p, s, 0) == Some(i)
    ensures i + |p.head| <= |s| && CaptureAt(p, s, i, MaxRun(p.cls, s, i + |p.head|))
  {
    FoundHead(p, s, i);
    RunAfterHead(p, s, i);
  }

  /** Group 1 is the longest run of the class after the head of the leftmost match. */
  lemma CaptureLeftmost(p: Pattern, s: string)
    requires Simple(p) && Capture(p, s).Some?
    ensures exists i: nat :: CaptureAt(p, s, i, Capture(p, s).value)
  {
    var i := Find(p, s, 0).value;
    FoundIsLeftmost(p, s, i);
    CaptureOfFound(p, s, i);
  }

  /** The `n` characters from `b` are of the class and the one after them, if any, is not. */
  predicate ClassRun(cs: CharSet, s: string, b: nat, n: nat)
  {
    b + n <= |s| && (forall k :: b <= k < b + n ==> InSet(cs, s[k]))
    && (b + n == |s| || !InSet(cs, s[b + n]))
  }

  /** The longest run from `b` is the `n` characters there when they form a run of the class. */
  lemma {:induction false} MaxRunIs(cs: CharSet, s: string, b: nat, n: nat)
    requires ClassRun(cs, s, b, n)
    ensures MaxRun(cs, s, b) == s[b..b + n]
    decreases n
  {
    if n > 0 {
      MaxRunIs(cs, s, b + 1, n - 1);
      assert s[b..b + n] == [s[b]] + s[b + 1..b + n];
    }
  }

  /**
   * `CaptureAt` pins group 1 down: there is one leftmost head, and the run
   * after it is the greedy one.
   */
  lemma CaptureAtUnique(p: Pattern, s: string, i: nat, r: string, j: nat, q: string)
    requires CaptureAt(p, s, i, r) && CaptureAt(p, s, j, q)
    ensures i == j && r == q
    ensures i + |p.head| <= |s| && r == MaxRun(p.cls, s, i + |p.head|)
  {
    var b := i + |p.head|;
    forall k | b <= k < b + |r| ensures InSet(p.cls, s[k]) {
      assert s[k] == r[k - b];
    }
    forall k | b <= k < b + |q| ensures InSet(p.cls, s[k]) {
      assert s[k] == q[k - b];
    }
    MaxRunIs(p.cls, s, b, |r|);
    MaxRunIs(p.cls, s, b, |q|);
  }

  /** No match starts where the head does not occur. */
  lemma NoHeadNoStart(p: Pattern, s: string, k: nat)
    requires !OccursAt(s, p.head, k)
    ensures !StartsAt(p, s, k)
  {
  }

  /** The search from `from` stops at `i` when a match starts there and no head occurs before it. */
  lemma {:induction false} FindStopsAt(p: Pattern, s: string, from: nat, i: nat)
    requires from <= i && StartsAt(p, s, i)
    requires forall k :: from <= k < i ==> !OccursAt(s, p.head, k)
    ensures Find(p, s, from) == Some(i)
    decreases i - from
  {
    if from < i {
      NoHeadNoStart(p, s, from);
      FindStopsAt(p, s, from + 1, i);
    }
  }

  /** For a head followed directly by its class, a match starts wherever the head is followed by one character of the class. */
  lemma StartsAtHead(p: Pattern, s: string, i: nat)
    requires Simple(p) && OccursAt(s, p.head, i)
    requires i + |p.head| < |s| && InSet(p.cls, s[i + |p.head|])
    ensures StartsAt(p, s, i)
  {
    assert TailAt(p, s, i + |p.head|) by {
      assert OccursAt(s, p.tail, i + |p.head|);
    }
    assert GapThenTail(p, s, i + |p.head|);
  }

  /** Group 1 is the longest run of the class after the head of the match the search finds. */
  lemma CaptureOfFound(p: Pattern, s: string, i: nat)
    requires Simple(p) && Find(p, s, 0) == Some(i)
    ensures i + |p.head| <= |s| && Capture(p, s) == Some(MaxRun(p.cls, s, i + |p.head|))
  {
    FoundHead(p, s, i);
  }

  /**
   * The search finds the leftmost head occurrence that is followed by a
   * character of the class, and the run of the class there is what the
   * capture takes.
   */
  lemma LeftmostRun(p: Pattern, s: string, i: nat, n: nat)
    requires Simple(p) && OccursAt(s, p.head, i)
    requires forall k :: 0 <= k < i ==> !OccursAt(s, p.head, k)
    requires 1 <= n && ClassRun(p.cls, s, i + |p.head|, n)
    ensures Find(p, s, 0) == Some(i)
    ensures MaxRun(p.cls, s, i + |p.head|) == s[i + |p.head|..i + |p.head| + n]
  {
    MaxRunIs(p.cls, s, i + |p.head|, n);
    assert Find(p, s, 0) == Some(i) by {
      StartsAtHead(p, s, i);
      FindStopsAt(p, s, 0, i);
    }
  }
}
