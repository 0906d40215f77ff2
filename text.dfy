/** Python's `str.strip()` with no argument: remove whitespace from both ends of a string. */
module Text {

  /** The characters Python's `str.isspace` accepts, which are the ones `strip()` removes:
      the ASCII controls TAB..CR and FS..US, SPACE, NEL, NO-BREAK SPACE, OGHAM SPACE MARK,
      EN QUAD..HAIR SPACE, LINE/PARAGRAPH SEPARATOR, NARROW NO-BREAK SPACE,
      MEDIUM MATHEMATICAL SPACE and IDEOGRAPHIC SPACE. */
  predicate IsWhitespace(c: char) {
    var n := c as int;
    (0x09 <= n <= 0x0D) || (0x1C <= n <= 0x20) || n == 0x85 || n == 0xA0 || n == 0x1680 ||
    (0x2000 <= n <= 0x200A) || n == 0x2028 || n == 0x2029 || n == 0x202F || n == 0x205F ||
    n == 0x3000
  }

  predicate AllWhitespace(s: string) {
    forall i :: 0 <= i < |s| ==> IsWhitespace(s[i])
  }

  /** Neither end of `s` is whitespace. */
  predicate IsStripped(s: string) {
    s == [] || (!IsWhitespace(s[0]) && !IsWhitespace(s[|s| - 1]))
  }

  /** `r` is what remains of `s` once the whitespace at both ends is cut off: a slice of `s`,
      with only whitespace outside it and no whitespace left at its own ends. */
  ghost predicate StrippedFrom(s: string, r: string) {
    IsStripped(r) &&
    exists i, j :: 0 <= i <= j <= |s| && r == s[i..j] && AllWhitespace(s[..i]) && AllWhitespace(s[j..])
  }

  /** The length of the whitespace run at the front of `s`. */
  function LeadingEnd(s: string): (k: nat)
    ensures k <= |s|
    ensures AllWhitespace(s[..k])
    ensures k < |s| ==> !IsWhitespace(s[k])
  {
    if s == [] || !IsWhitespace(s[0]) then 0
    else
      var k' := LeadingEnd(s[1..]);
      assert s[..1 + k'] == [s[0]] + s[1..][..k'];
      1 + k'
  }

  /** The index where the whitespace run at the back of `s` begins. */
  function TrailingStart(s: string): (k: nat)
    ensures k <= |s|
    ensures AllWhitespace(s[k..])
    ensures k > 0 ==> !IsWhitespace(s[k - 1])
  {
    if s == [] || !IsWhitespace(s[|s| - 1]) then |s|
    else
      var t := s[..|s| - 1];
      var k := TrailingStart(t);
      assert s[k..] == t[k..] + [s[|s| - 1]];
      k
  }

  /** `s.strip()`. */
  function Strip(s: string): (r: string)
    ensures StrippedFrom(s, r)
  {
    var i := LeadingEnd(s);
    var j := TrailingStart(s);
    if i < j then
      assert s[i..j][0] == s[i] && s[i..j][j - i - 1] == s[j - 1];
      s[i..j]
    else
      assert s[i..i] == [] && s[i..] == [];
      []
  }

  /** Whitespace cut from the front of a string, which cannot go past the first non-whitespace. */
  lemma FrontCutsAgree(s: string, i1: nat, i2: nat)
    requires i1 < |s| && i2 < |s|
    requires AllWhitespace(s[..i1]) && !IsWhitespace(s[i1])
    requires AllWhitespace(s[..i2]) && !IsWhitespace(s[i2])
    ensures i1 == i2
  {
  }

  /** Two stripped slices of the same string are the same slice. */
  lemma StrippedSlicesAgree(s: string, i1: nat, j1: nat, i2: nat, j2: nat)
    requires i1 <= j1 <= |s| && i2 <= j2 <= |s|
    requires AllWhitespace(s[..i1]) && AllWhitespace(s[j1..]) && IsStripped(s[i1..j1])
    requires AllWhitespace(s[..i2]) && AllWhitespace(s[j2..]) && IsStripped(s[i2..j2])
    ensures s[i1..j1] == s[i2..j2]
  {
    if i1 == j1 {
      AllWhitespaceAround(s, i1, j1);
    } else if i2 == j2 {
      AllWhitespaceAround(s, i2, j2);
    } else {
      assert s[i1..j1][0] == s[i1] && s[i2..j2][0] == s[i2];
      FrontCutsAgree(s, i1, i2);
      assert s[i1..j1][j1 - i1 - 1] == s[j1 - 1] && s[i2..j2][j2 - i2 - 1] == s[j2 - 1];
      BackCutsAgree(s, j1, j2);
    }
  }

  /** Whitespace cut from the back of a string, which cannot go past the last non-whitespace. */
  lemma BackCutsAgree(s: string, j1: nat, j2: nat)
    requires 0 < j1 <= |s| && 0 < j2 <= |s|
    requires AllWhitespace(s[j1..]) && !IsWhitespace(s[j1 - 1])
    requires AllWhitespace(s[j2..]) && !IsWhitespace(s[j2 - 1])
    ensures j1 == j2
  {
  }

  /** Stripping has exactly one result: `r` is a stripped form of `s` if and only if it is
      `Strip(s)`. */
  lemma StripCharacterised(s: string, r: string)
    ensures StrippedFrom(s, r) <==> r == Strip(s)
  {
    if StrippedFrom(s, r) {
      var r2 := Strip(s);
      var i1, j1 :| 0 <= i1 <= j1 <= |s| && r == s[i1..j1] && AllWhitespace(s[..i1]) && AllWhitespace(s[j1..]);
      var i2, j2 :| 0 <= i2 <= j2 <= |s| && r2 == s[i2..j2] && AllWhitespace(s[..i2]) && AllWhitespace(s[j2..]);
      StrippedSlicesAgree(s, i1, j1, i2, j2);
    }
  }

  /** An empty slice between two whitespace-only ends means the whole string is whitespace. */
  lemma AllWhitespaceAround(s: string, i: nat, j: nat)
    requires i == j <= |s|
    requires AllWhitespace(s[..i]) && AllWhitespace(s[j..])
    ensures AllWhitespace(s)
  {
    forall k | 0 <= k < |s| ensures IsWhitespace(s[k]) {
      if k < i { assert s[..i][k] == s[k]; } else { assert s[j..][k - j] == s[k]; }
    }
  }

  /** Stripping twice is stripping once. */
  lemma StripIdempotent(s: string)
    ensures Strip(Strip(s)) == Strip(s)
  {
    var r := Strip(s);
    assert r[0..|r|] == r && r[..0] == [] && r[|r|..] == [];
    StripCharacterised(r, r);
  }

  /** `strip()` leaves a string unchanged exactly when neither of its ends is whitespace. */
  lemma StripFixes(s: string)
    ensures Strip(s) == s <==> IsStripped(s)
  {
    if IsStripped(s) {
      assert s[0..|s|] == s && s[..0] == [] && s[|s|..] == [];
      StripCharacterised(s, s);
    }
  }

  /** Whitespace added around a string does not change what `strip()` returns. */
  lemma StripIgnoresPadding(p: string, s: string, q: string)
    requires AllWhitespace(p) && AllWhitespace(q)
    ensures Strip(p + s + q) == Strip(s)
  {
    var r := Strip(s);
    var i, j :| 0 <= i <= j <= |s| && r == s[i..j] && AllWhitespace(s[..i]) && AllWhitespace(s[j..]);
    PaddedSlice(p, s, q, i, j);
    StripCharacterised(p + s + q, r);
  }

  /** A stripped slice of `s` is still one once `s` is padded with whitespace. */
  lemma PaddedSlice(p: string, s: string, q: string, i: nat, j: nat)
    requires AllWhitespace(p) && AllWhitespace(q)
    requires i <= j <= |s| && AllWhitespace(s[..i]) && AllWhitespace(s[j..]) && IsStripped(s[i..j])
    ensures StrippedFrom(p + s + q, s[i..j])
  {
    var t := p + s + q;
    var i', j' := |p| + i, |p| + j;
    assert t[i'..j'] == s[i..j];
    assert t[..i'] == p + s[..i];
    AllWhitespaceConcat(p, s[..i]);
    assert t[j'..] == s[j..] + q;
    AllWhitespaceConcat(s[j..], q);
  }

  lemma AllWhitespaceConcat(a: string, b: string)
    requires AllWhitespace(a) && AllWhitespace(b)
    ensures AllWhitespace(a + b)
  {
  }
}
