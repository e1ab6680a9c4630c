/** Python's `str.strip()` with no argument, as every text endpoint applies it
    to the submitted text before checking that anything is left. */
module Text {

  /** The characters Python's `str.isspace()` accepts, which are exactly the
      ones `str.strip()` removes: the ASCII controls TAB..CR and FS..US, the
      space, NEL, NO-BREAK SPACE, OGHAM SPACE MARK, EN QUAD..HAIR SPACE, the
      line and paragraph separators, NARROW NO-BREAK SPACE, MEDIUM MATHEMATICAL
      SPACE and IDEOGRAPHIC SPACE. */
  predicate IsSpace(c: char) {
    var n := c as int;
    (0x09 <= n <= 0x0D) || (0x1C <= n <= 0x20) || n == 0x85 || n == 0xA0
    || n == 0x1680 || (0x2000 <= n <= 0x200A) || n == 0x2028 || n == 0x2029
    || n == 0x202F || n == 0x205F || n == 0x3000
  }

  predicate AllSpace(s: string) {
    forall i :: 0 <= i < |s| ==> IsSpace(s[i])
  }

  /** `r` is what stripping `s` must give: a contiguous piece of `s` that
      neither starts nor ends with white space, with only white space cut
      off on either side. */
  ghost predicate StrippedFrom(s: string, r: string) {
    (r == [] || (!IsSpace(r[0]) && !IsSpace(r[|r| - 1])))
    && exists i :: StrippedAt(s, r, i)
  }

  /** `r` sits at offset `i` of `s` with only white space around it. */
  ghost predicate StrippedAt(s: string, r: string, i: int) {
    0 <= i <= |s| - |r| && s[i..i + |r|] == r
    && (forall j :: 0 <= j < i ==> IsSpace(s[j]))
    && (forall j :: i + |r| <= j < |s| ==> IsSpace(s[j]))
  }

  /** Number of white-space characters at the front of `s`. */
  function LeadingSpaces(s: string): (k: nat)
    ensures k <= |s|
    ensures forall j :: 0 <= j < k ==> IsSpace(s[j])
    ensures k < |s| ==> !IsSpace(s[k])
  {
    if s == [] || !IsSpace(s[0]) then 0
    else
      var k := 1 + LeadingSpaces(s[1..]);
      assert forall j :: 1 <= j < k ==> s[j] == s[1..][j - 1];
      k
  }

  /** Number of white-space characters at the end of `s`. */
  function TrailingSpaces(s: string): (k: nat)
    ensures k <= |s|
    ensures forall j :: |s| - k <= j < |s| ==> IsSpace(s[j])
    ensures k < |s| ==> !IsSpace(s[|s| - k - 1])
  {
    if s == [] || !IsSpace(s[|s| - 1]) then 0
    else
      var init := s[..|s| - 1];
      var k := 1 + TrailingSpaces(init);
      assert forall j :: 0 <= j < |init| ==> s[j] == init[j];
      k
  }

  /** `s.strip()`: drop leading, then trailing white space. */
  function Strip(s: string): (r: string)
    ensures StrippedFrom(s, r)
  {
    var i := LeadingSpaces(s);
    var t := s[i..];
    var j := TrailingSpaces(t);
    var r := t[..|t| - j];
    assert r == s[i..i + |r|];
    assert forall m :: i + |r| <= m < |s| ==> s[m] == t[m - i];
    assert StrippedAt(s, r, i);
    assert r != [] ==> r[0] == s[i] && r[|r| - 1] == t[|t| - j - 1];
    r
  }

  /** The stripped form of a string is unique: `StrippedFrom` pins it down. */
  lemma {:induction false} StrippedFromUnique(s: string, r1: string, r2: string)
    requires StrippedFrom(s, r1) && StrippedFrom(s, r2)
    ensures r1 == r2
  {
    var i1 :| StrippedAt(s, r1, i1);
    var i2 :| StrippedAt(s, r2, i2);
    if r1 != [] {
      assert r1[0] == s[i1] && r1[|r1| - 1] == s[i1 + |r1| - 1];
    }
    if r2 != [] {
      assert r2[0] == s[i2] && r2[|r2| - 1] == s[i2 + |r2| - 1];
    }
    if r1 != [] && r2 != [] {
      // both begin at the first non-space character and end after the last
      assert i1 == i2;
      assert i1 + |r1| == i2 + |r2|;
    }
  }

  /** Stripping leaves nothing exactly when the input is all white space
      (the empty string included). */
  lemma {:induction false} StripEmptyIff(s: string)
    ensures Strip(s) == [] <==> AllSpace(s)
  {
    var r := Strip(s);
    var i :| StrippedAt(s, r, i);
    if r != [] {
      assert r[0] == s[i];
    }
  }

  /** A string with no white space at either end is left as it is. */
  lemma {:induction false} StripKeepsTrimmed(s: string)
    requires s == [] || (!IsSpace(s[0]) && !IsSpace(s[|s| - 1]))
    ensures Strip(s) == s
  {
    assert StrippedAt(s, s, 0);
    StrippedFromUnique(s, Strip(s), s);
  }

  /** Stripping twice is stripping once. */
  lemma {:induction false} StripIdempotent(s: string)
    ensures Strip(Strip(s)) == Strip(s)
  {
    StripKeepsTrimmed(Strip(s));
  }
}
