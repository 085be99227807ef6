/**
 * The two string operations the front end decides things with:
 * `String.prototype.startsWith` and `String.prototype.trim`.
 */
module Text {

  /** `s.startsWith(prefix)`. */
  predicate StartsWith(s: string, prefix: string)
  {
    |prefix| <= |s| && s[..|prefix|] == prefix
  }

  /**
   * The characters `trim` removes: the ECMAScript WhiteSpace and
   * LineTerminator code points (tab, vertical tab, form feed, space,
   * no-break space, zero-width no-break space, the Unicode space
   * separators, line feed, carriage return, line and paragraph separator).
   */
  predicate IsWhitespace(c: char)
  {
    c in {'\t', '\n', '\U{B}', '\U{C}', '\r', ' ', '\U{A0}', '\U{1680}', '\U{2028}', '\U{2029}', '\U{202F}', '\U{205F}', '\U{3000}', '\U{FEFF}'}
    || ('\U{2000}' <= c <= '\U{200A}')
  }

  predicate AllWhitespace(s: string)
  {
    forall i :: 0 <= i < |s| ==> IsWhitespace(s[i])
  }

  /** Number of whitespace characters at the front of `s`. */
  function LeadingWhitespace(s: string): (n: nat)
    ensures n <= |s|
    ensures AllWhitespace(s[..n])
    ensures n < |s| ==> !IsWhitespace(s[n])
    decreases |s|
  {
    if |s| == 0 || !IsWhitespace(s[0]) then 0
    else
      var n := LeadingWhitespace(s[1..]);
      assert s[..n + 1] == [s[0]] + s[1..][..n];
      n + 1
  }

  /** Number of whitespace characters at the end of `s`. */
  function TrailingWhitespace(s: string): (n: nat)
    ensures n <= |s|
    ensures AllWhitespace(s[|s| - n..])
    ensures n < |s| ==> !IsWhitespace(s[|s| - n - 1])
    decreases |s|
  {
    if |s| == 0 || !IsWhitespace(s[|s| - 1]) then 0
    else
      var init := s[..|s| - 1];
      var n := TrailingWhitespace(init);
      assert s[|s| - (n + 1)..] == init[|init| - n..] + [s[|s| - 1]];
      n + 1
  }

  /**
   * `s.trim()`: the piece of `s` left after dropping the whitespace at
   * both ends.  What the result is, as a slice of `s` with no whitespace
   * at its edges, is stated by `TrimSpec` below.
   */
  function Trim(s: string): (r: string)
    ensures |r| <= |s|
  {
    var a := LeadingWhitespace(s);
    s[a..|s| - TrailingWhitespace(s[a..])]
  }

  /**
   * What `trim` returns: a slice of `s` with only whitespace around it,
   * empty exactly when `s` is all whitespace, and otherwise starting and
   * ending with a non-whitespace character.
   */
  lemma TrimSpec(s: string)
    ensures var r := Trim(s);
      && (exists a :: 0 <= a <= |s| - |r| && s[a..a + |r|] == r && AllWhitespace(s[..a]) && AllWhitespace(s[a + |r|..]))
      && (r == [] <==> AllWhitespace(s))
      && (r != [] ==> !IsWhitespace(r[0]) && !IsWhitespace(r[|r| - 1]))
  {
    TrimSurrounded(s);
    TrimEmpty(s);
    TrimEnds(s);
  }

  /** The trimmed piece sits in `s` between two runs of whitespace. */
  lemma TrimSurrounded(s: string)
    ensures var r := Trim(s);
      exists a :: 0 <= a <= |s| - |r| && s[a..a + |r|] == r && AllWhitespace(s[..a]) && AllWhitespace(s[a + |r|..])
  {
    var a := LeadingWhitespace(s);
    var rest := s[a..];
    var b := TrailingWhitespace(rest);
    var r := s[a..|s| - b];
    assert Trim(s) == r;
    assert s[a..a + |r|] == r;
    assert s[a + |r|..] == rest[|rest| - b..];
  }

  /** The trimmed piece is empty exactly when `s` is all whitespace. */
  lemma TrimEmpty(s: string)
    ensures Trim(s) == [] <==> AllWhitespace(s)
  {
    var a := LeadingWhitespace(s);
    var rest := s[a..];
    var b := TrailingWhitespace(rest);
    if a + b == |s| {
      assert AllWhitespace(rest);
      assert s == s[..a] + rest;
    } else {
      assert s[a] == rest[0];
    }
  }

  /** A non-empty trimmed piece starts and ends with a non-whitespace character. */
  lemma TrimEnds(s: string)
    ensures var r := Trim(s);
      r != [] ==> !IsWhitespace(r[0]) && !IsWhitespace(r[|r| - 1])
  {
    var a := LeadingWhitespace(s);
    var rest := s[a..];
    var b := TrailingWhitespace(rest);
    var r := s[a..|s| - b];
    assert Trim(s) == r;
    if r != [] {
      assert r[0] == rest[0];
      assert r[|r| - 1] == rest[|rest| - b - 1];
    }
  }

  /** Trimming twice is trimming once. */
  lemma TrimIdempotent(s: string)
    ensures Trim(Trim(s)) == Trim(s)
  {
    var r := Trim(s);
    TrimSpec(s);
    if r != [] {
      assert LeadingWhitespace(r) == 0;
      assert r[0..] == r;
      assert TrailingWhitespace(r) == 0;
      assert r[..|r| - 0] == r;
    }
  }
}
