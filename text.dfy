/**
 * String helpers with the semantics of the JavaScript built-ins the page
 * relies on: `String.prototype.trim`, the decimal rendering of a
 * non-negative integer, and case-insensitive substring search as a
 * non-Unicode `/…/i` regular expression performs it.
 */
module Text {

  /** `t` occurs in `s` starting at index `i`. */
  predicate OccursAt(s: string, t: string, i: nat)
  {
    i + |t| <= |s| && s[i..i + |t|] == t
  }

  /** `t` is a contiguous part of `s`. */
  ghost predicate Contains(s: string, t: string)
  {
    exists i: nat :: OccursAt(s, t, i)
  }

  /** What occurs in a string occurs in it extended on either side. */
  lemma ContainsExtended(a: string, b: string, t: string)
    ensures Contains(a, t) ==> Contains(a + b, t)
    ensures Contains(b, t) ==> Contains(a + b, t)
  {
    if Contains(a, t) {
      var i: nat :| OccursAt(a, t, i);
      assert (a + b)[i..i + |t|] == a[i..i + |t|];
      assert OccursAt(a + b, t, i);
    }
    if Contains(b, t) {
      var i: nat :| OccursAt(b, t, i);
      assert (a + b)[|a| + i..|a| + i + |t|] == b[i..i + |t|];
      assert OccursAt(a + b, t, |a| + i);
    }
  }

  /** `t` is a prefix of `s`. */
  predicate StartsWith(s: string, t: string)
  {
    OccursAt(s, t, 0)
  }

  /** `t` is a suffix of `s`. */
  predicate EndsWith(s: string, t: string)
  {
    |t| <= |s| && s[|s| - |t|..] == t
  }

  /** `t` occurs nowhere in `s` when no character equal to `t[0]` is followed by `t[1]`. */
  lemma AbsentByPair(s: string, t: string)
    requires |t| >= 2
    requires forall k :: 0 <= k < |s| - 1 && s[k] == t[0] ==> s[k + 1] != t[1]
    ensures forall i: nat :: !OccursAt(s, t, i)
  {
    forall i: nat | i + |t| <= |s| ensures !OccursAt(s, t, i) {
      assert s[i..i + |t|][0] == s[i] && s[i..i + |t|][1] == s[i + 1];
    }
  }

  /** A prefix of the middle piece, preceded by the head, is a prefix of the whole. */
  lemma StartsWithCarried(head: string, m: string, tail: string, lead: string)
    requires StartsWith(m, lead)
    ensures StartsWith(head + m + tail, head + lead)
  {
    var s := head + m + tail;
    assert s[..|head|] == head;
    assert s[|head|..|head| + |lead|] == m[..|lead|];
    assert s[..|head| + |lead|] == s[..|head|] + s[|head|..|head| + |lead|];
  }

  // ---------------------------------------------------------------------
  // Whitespace and trim
  // ---------------------------------------------------------------------

  /**
   * The characters `String.prototype.trim` removes: ECMAScript WhiteSpace
   * (tab, vertical tab, form feed, space, no-break space, byte order mark
   * and the other space separators) and LineTerminator.
   */
  predicate IsJsWhitespace(c: char)
  {
    c == '\t' || c == '\U{000B}' || c == '\U{000C}' || c == ' ' || c == '\U{00A0}'
    || c == '\U{FEFF}' || c == '\U{1680}' || ('\U{2000}' <= c <= '\U{200A}')
    || c == '\U{202F}' || c == '\U{205F}' || c == '\U{3000}'
    || IsLineTerminator(c)
  }

  /** ECMAScript LineTerminator: LF, CR, LINE SEPARATOR, PARAGRAPH SEPARATOR. */
  predicate IsLineTerminator(c: char)
  {
    c == '\n' || c == '\r' || c == '\U{2028}' || c == '\U{2029}'
  }

  ghost predicate AllWhitespace(s: string)
  {
    forall k :: 0 <= k < |s| ==> IsJsWhitespace(s[k])
  }

  /** `s` without its leading whitespace. */
  function TrimStart(s: string): (r: string)
    ensures |r| <= |s| && r == s[|s| - |r|..]
    ensures AllWhitespace(s[..|s| - |r|])
    ensures r == [] || !IsJsWhitespace(r[0])
  {
    if s != [] && IsJsWhitespace(s[0]) then TrimStart(s[1..]) else s
  }

  /** `s` without its trailing whitespace. */
  function TrimEnd(s: string): (r: string)
    ensures |r| <= |s| && r == s[..|r|]
    ensures AllWhitespace(s[|r|..])
    ensures r == [] || !IsJsWhitespace(r[|r| - 1])
  {
    if s != [] && IsJsWhitespace(s[|s| - 1]) then TrimEnd(s[..|s| - 1]) else s
  }

  /** `String.prototype.trim`. */
  function Trim(s: string): (r: string)
  {
    TrimEnd(TrimStart(s))
  }

  /** Text that neither begins nor ends with whitespace is left as it is. */
  lemma TrimKeeps(s: string)
    requires s == [] || (!IsJsWhitespace(s[0]) && !IsJsWhitespace(s[|s| - 1]))
    ensures Trim(s) == s
  {
  }

  /**
   * What `trim` promises: the result is the part of `s` between a
   * whitespace prefix and a whitespace suffix, and it neither begins nor
   * ends with whitespace.
   */
  lemma TrimIsCore(s: string)
    ensures exists i, j ::
      (0 <= i <= j <= |s| && Trim(s) == s[i..j] && AllWhitespace(s[..i]) && AllWhitespace(s[j..]))
    ensures Trim(s) == [] || (!IsJsWhitespace(Trim(s)[0]) && !IsJsWhitespace(Trim(s)[|Trim(s)| - 1]))
  {
    var t := TrimStart(s);
    var r := TrimEnd(t);
    var i := |s| - |t|;
    var j := i + |r|;
    assert s[i..j] == t[..|r|];
    assert s[j..] == t[|r|..];
  }

  /** Trimming gives the empty string exactly when the input is all whitespace. */
  lemma TrimEmptyIff(s: string)
    ensures Trim(s) == [] <==> AllWhitespace(s)
  {
    var t := TrimStart(s);
    if Trim(s) == [] {
      assert t == [];
      assert s == s[..|s| - |t|];
    } else {
      assert t != [];
      assert s[|s| - |t|] == t[0];
    }
  }

  /** Trimming twice is trimming once. */
  lemma TrimIdempotent(s: string)
    ensures Trim(Trim(s)) == Trim(s)
  {
    var r := Trim(s);
    TrimIsCore(s);
    assert TrimStart(r) == r;
    assert TrimEnd(r) == r;
  }

  // ---------------------------------------------------------------------
  // Decimal rendering of a non-negative integer
  // ---------------------------------------------------------------------

  predicate IsDigit(c: char)
  {
    '0' <= c <= '9'
  }

  function DigitChar(d: nat): (c: char)
    requires d < 10
    ensures IsDigit(c) && (c as int) - ('0' as int) == d
  {
    (('0' as int) + d) as char
  }

  /** The number a string of decimal digits denotes. */
  function DigitsValue(s: string): nat
    requires forall k :: 0 <= k < |s| ==> IsDigit(s[k])
  {
    if s == [] then 0
    else
      var d := (s[|s| - 1] as int) - ('0' as int);
      assert 0 <= d by { assert IsDigit(s[|s| - 1]); }
      10 * DigitsValue(s[..|s| - 1]) + d
  }

  /**
   * The string JavaScript produces for a non-negative integer: its decimal
   * digits, at least one, with no leading zero.
   */
  function Decimal(n: nat): (r: string)
    ensures 1 <= |r|
    ensures forall k :: 0 <= k < |r| ==> IsDigit(r[k])
    ensures r[0] == '0' ==> n == 0
  {
    if n < 10 then [DigitChar(n)] else Decimal(n / 10) + [DigitChar(n % 10)]
  }

  /** Reading the digits back gives the number: the rendering loses nothing. */
  lemma {:induction false} DecimalRoundTrip(n: nat)
    ensures DigitsValue(Decimal(n)) == n
  {
    if n >= 10 {
      var r := Decimal(n);
      assert r[..|r| - 1] == Decimal(n / 10);
      DecimalRoundTrip(n / 10);
    }
  }

  /** Different numbers render differently. */
  lemma DecimalInjective(m: nat, n: nat)
    ensures Decimal(m) == Decimal(n) ==> m == n
  {
    DecimalRoundTrip(m);
    DecimalRoundTrip(n);
  }

  // ---------------------------------------------------------------------
  // Case-insensitive search
  // ---------------------------------------------------------------------

  /**
   * The canonical form a non-Unicode `/…/i` regular expression compares:
   * ASCII lower-case letters map to upper case. No other character maps to
   * an ASCII one, so for a pattern written in ASCII this is exact.
   */
  function Upper(c: char): (u: char)
    ensures ('a' <= c <= 'z') ==> u as int == c as int - 32
    ensures !('a' <= c <= 'z') ==> u == c
  {
    if 'a' <= c <= 'z' then ((c as int) - 32) as char else c
  }

  /** `needle` occurs in `s` at `i`, ignoring ASCII case. */
  predicate FoldedAt(s: string, needle: string, i: nat)
  {
    i + |needle| <= |s| && forall k :: 0 <= k < |needle| ==> Upper(s[i + k]) == Upper(needle[k])
  }

  ghost predicate ContainsFolded(s: string, needle: string)
  {
    exists i: nat :: FoldedAt(s, needle, i)
  }

  /** Search for `needle` in `s`, ignoring ASCII case, from index `from` on. */
  function SearchFolded(s: string, needle: string, from: nat): (b: bool)
    ensures b <==> exists i: nat :: from <= i && FoldedAt(s, needle, i)
    decreases |s| - from
  {
    if from + |needle| > |s| then false
    else FoldedAt(s, needle, from) || SearchFolded(s, needle, from + 1)
  }

  /**
   * `needle` does not occur, ignoring case, in `p` followed by digits, when
   * its first character is no digit and every place in `p` where that
   * character occurs is followed at distance `off` by a character that
   * differs from `needle[off]`, with both still inside `p`.
   */
  lemma NotFoldedBeforeDigits(p: string, digits: string, needle: string, off: nat)
    requires off < |needle| && !IsDigit(Upper(needle[0]))
    requires forall k :: 0 <= k < |digits| ==> IsDigit(digits[k])
    requires forall k :: 0 <= k < |p| && Upper(p[k]) == Upper(needle[0]) ==>
      k + off < |p| && Upper(p[k + off]) != Upper(needle[off])
    ensures !ContainsFolded(p + digits, needle)
  {
    var t := p + digits;
    forall i: nat | i + |needle| <= |t| ensures !FoldedAt(t, needle, i) {
      if i < |p| && Upper(p[i]) == Upper(needle[0]) {
        assert t[i + off] == p[i + off];
        assert Upper(t[i + off]) != Upper(needle[off]);
      } else if i < |p| {
        assert t[i] == p[i];
        assert Upper(t[i + 0]) != Upper(needle[0]);
      } else {
        assert t[i] == digits[i - |p|];
        assert Upper(t[i + 0]) != Upper(needle[0]);
      }
    }
  }

  /** The test `/needle/i.test(s)`. */
  function TestFolded(s: string, needle: string): (b: bool)
    ensures b <==> ContainsFolded(s, needle)
  {
    SearchFolded(s, needle, 0)
  }
}
