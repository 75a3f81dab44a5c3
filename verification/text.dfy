/**
 Go's `strings.TrimSpace` over strings of Unicode code points, and what the validators ask of
 it: whether a string trims to the empty string.
 */
module Text {

  /** Go's `unicode.IsSpace`: the ASCII and Latin-1 spaces plus the Unicode White_Space set. */
  predicate IsSpace(c: char) {
    || c == '\t' || c == '\n' || c == '\U{000B}' || c == '\U{000C}' || c == '\r' || c == ' '
    || c == '\U{0085}' || c == '\U{00A0}' || c == '\U{1680}'
    || ('\U{2000}' <= c <= '\U{200A}')
    || c == '\U{2028}' || c == '\U{2029}' || c == '\U{202F}' || c == '\U{205F}' || c == '\U{3000}'
  }

  /** Every character of `s` is white space (the empty string included). */
  predicate Blank(s: string) {
    forall i | 0 <= i < |s| :: IsSpace(s[i])
  }

  /** The length of the longest all-space prefix of `s`. */
  function LeadingSpaces(s: string): (n: nat)
    ensures n <= |s|
    ensures Blank(s[..n])
    ensures n < |s| ==> !IsSpace(s[n])
  {
    if |s| == 0 || !IsSpace(s[0]) then 0
    else
      var n := 1 + LeadingSpaces(s[1..]);
      assert s[..n] == [s[0]] + s[1..][..n - 1];
      n
  }

  /** The length of the longest all-space suffix of `s`. */
  function TrailingSpaces(s: string): (n: nat)
    ensures n <= |s|
    ensures Blank(s[|s| - n..])
    ensures n < |s| ==> !IsSpace(s[|s| - n - 1])
  {
    if |s| == 0 || !IsSpace(s[|s| - 1]) then 0
    else
      var n := 1 + TrailingSpaces(s[..|s| - 1]);
      assert s[|s| - n..] == s[..|s| - 1][|s| - n..] + [s[|s| - 1]];
      n
  }

  /**
   `strings.TrimSpace`: `s` without its leading and trailing white space. The result is the
   segment of `s` that starts at the first non-space character and ends at the last one.
   */
  function TrimSpace(s: string): (r: string)
    ensures |r| == 0 <==> Blank(s)
    ensures r != [] ==> !IsSpace(r[0]) && !IsSpace(r[|r| - 1])
    ensures LeadingSpaces(s) + |r| <= |s|
    ensures r == s[LeadingSpaces(s)..LeadingSpaces(s) + |r|]
    ensures Blank(s[LeadingSpaces(s) + |r|..])
  {
    var i := LeadingSpaces(s);
    var rest := s[i..];
    var t := TrailingSpaces(rest);
    var r := rest[..|rest| - t];
    assert s[i + |r|..] == rest[|rest| - t..];
    assert |r| == 0 ==> Blank(s) by {
      if |r| == 0 {
        assert rest[|rest| - t..] == rest;
        assert s == s[..i] + rest;
      }
    }
    assert r != [] ==> r[0] == s[i] && r[|r| - 1] == rest[|rest| - t - 1];
    r
  }

  /** Some string of `ss` trims to the empty string. */
  predicate SomeTrimsEmpty(ss: seq<string>)
  {
    exists i | 0 <= i < |ss| :: |TrimSpace(ss[i])| == 0
  }

  lemma SomeTrimsEmptyIffBlank(ss: seq<string>)
    ensures SomeTrimsEmpty(ss) <==> exists i | 0 <= i < |ss| :: Blank(ss[i])
  {
  }
}
