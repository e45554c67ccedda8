/** The pieces of Python's `str` that the modelled code relies on:
    `strip()` with no argument and `lower()`. */
module PyText {

  /** The characters for which Python's `str.isspace()` holds, which are the
      ones `str.strip()` removes when called without an argument: U+0009 to
      U+000D, U+001C to U+0020, U+0085, U+00A0, U+1680, U+2000 to U+200A,
      U+2028, U+2029, U+202F, U+205F and U+3000. */
  const Whitespace: set<char> := {
    '\U{0009}', '\U{000A}', '\U{000B}', '\U{000C}', '\U{000D}',
    '\U{001C}', '\U{001D}', '\U{001E}', '\U{001F}', '\U{0020}',
    '\U{0085}', '\U{00A0}', '\U{1680}',
    '\U{2000}', '\U{2001}', '\U{2002}', '\U{2003}', '\U{2004}', '\U{2005}',
    '\U{2006}', '\U{2007}', '\U{2008}', '\U{2009}', '\U{200A}',
    '\U{2028}', '\U{2029}', '\U{202F}', '\U{205F}', '\U{3000}'
  }

  predicate IsSpace(c: char)
  {
    c in Whitespace
  }

  /** The first position at or after `i` that does not hold white space, or `|s|`. */
  function SpacesFrom(s: string, i: nat): (n: nat)
    requires i <= |s|
    ensures i <= n <= |s|
    ensures forall k :: i <= k < n ==> IsSpace(s[k])
    ensures n < |s| ==> !IsSpace(s[n])
    decreases |s| - i
  {
    if i == |s| || !IsSpace(s[i]) then i else SpacesFrom(s, i + 1)
  }

  /** The position just after the last character before `j` that is not
      white space, or 0. */
  function SpacesBefore(s: string, j: nat): (n: nat)
    requires j <= |s|
    ensures n <= j
    ensures forall k :: n <= k < j ==> IsSpace(s[k])
    ensures n > 0 ==> !IsSpace(s[n - 1])
  {
    if j == 0 || !IsSpace(s[j - 1]) then j else SpacesBefore(s, j - 1)
  }

  /** How many white-space characters `s` starts with. */
  function LeadingSpaces(s: string): (n: nat)
    ensures n <= |s|
    ensures forall i :: 0 <= i < n ==> IsSpace(s[i])
    ensures n < |s| ==> !IsSpace(s[n])
  {
    SpacesFrom(s, 0)
  }

  /** How many white-space characters `s` ends with. */
  function TrailingSpaces(s: string): (n: nat)
    ensures n <= |s|
    ensures forall i :: |s| - n <= i < |s| ==> IsSpace(s[i])
    ensures n < |s| ==> !IsSpace(s[|s| - 1 - n])
  {
    |s| - SpacesBefore(s, |s|)
  }

  /** `s.strip()`: `s` without its leading and trailing white space. */
  function Strip(s: string): (r: string)
    ensures |r| <= |s|
  {
    var a := LeadingSpaces(s);
    if a == |s| then []
    else
      var b := TrailingSpaces(s);
      s[a..|s| - b]
  }

  /** `strip()` yields the empty string exactly for all-white-space text. */
  lemma StripEmpty(s: string)
    ensures Strip(s) == [] <==> forall i :: 0 <= i < |s| ==> IsSpace(s[i])
  {
    var a := LeadingSpaces(s);
    if a < |s| {
      StripMiddle(s);
    }
  }

  /** Otherwise it yields the middle of `s` after its leading white space,
      followed in `s` by white space only, and starting and ending with other
      characters. */
  lemma StripMiddle(s: string)
    requires LeadingSpaces(s) < |s|
    ensures var r := Strip(s); var a := LeadingSpaces(s);
      && r != [] && a + |r| <= |s| && r == s[a..a + |r|]
      && (forall i :: a + |r| <= i < |s| ==> IsSpace(s[i]))
      && !IsSpace(r[0]) && !IsSpace(r[|r| - 1])
  {
    var a := LeadingSpaces(s);
    var b := TrailingSpaces(s);
    assert !IsSpace(s[a]);
    assert b < |s| && !IsSpace(s[|s| - 1 - b]);
    var r := s[a..|s| - b];
    assert r[|r| - 1] == s[|s| - 1 - b];
  }

  /** Stripping twice is stripping once. */
  lemma {:induction false} StripIdempotent(s: string)
    ensures Strip(Strip(s)) == Strip(s)
  {
    var r := Strip(s);
    if r != [] {
      StripMiddle(s);
      assert LeadingSpaces(r) == 0;
      assert TrailingSpaces(r) == 0;
      assert r[0..|r| - 0] == r;
    }
  }

  /** Python's `lower()` on one character, for the ASCII range; every other
      character is kept as it is. */
  function LowerChar(c: char): char
  {
    if 'A' <= c <= 'Z' then (c as int + 32) as char else c
  }

  /** `s.lower()`, character by character (see `LowerChar`). */
  function Lower(s: string): (r: string)
    ensures |r| == |s|
  {
    seq(|s|, i requires 0 <= i < |s| => LowerChar(s[i]))
  }

  /** Lower-casing a word that is already lower-case ASCII leaves it as it is,
      so such a word always matches itself after `lower()`. */
  lemma {:induction false} LowerOfLowerWord(s: string)
    requires forall i :: 0 <= i < |s| ==> !('A' <= s[i] <= 'Z')
    ensures Lower(s) == s
  {
  }
}
